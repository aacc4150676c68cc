/** The table of nearby peers with its lazy expiry (crates/ndn-boltffi/src/discovery.rs: `note_peer` and the
  * pruning of `snapshot_json`), against the plain log of what was heard.
  *
  * Times are nanoseconds of the monotonic clock; an elapsed time never comes out negative.
  */
module PeerTable {
  import opened Basics
  import opened OrderedMap

  /** 30 s. */
  const PEER_TTL: int := 30_000_000_000

  /** `alias` is the human label of the beacon. */
  datatype Note = Note(at: int, id: string, alias: string, face: string, rssi: int, infra: Option<string>)

  datatype Event = Heard(note: Note) | Snapshot(now: int)

  type Log = seq<Event>

  /** A `BTreeSet` of face names. */
  type FaceSet = seq<Binding<()>>

  datatype Entry = Entry(alias: string, faces: FaceSet, rssi: int, infra: Option<string>, lastSeen: int)

  type Table = map<string, Entry>

  function Age(now: int, seen: int): nat {
    if now <= seen then 0 else now - seen
  }

  predicate Listable(localId: string, id: string) {
    id != [] && id != localId
  }

  // --------------------------------------------------------------- the table

  function NewEntry(n: Note): Entry {
    Entry(n.alias, [], n.rssi, None, n.at)
  }

  function Refresh(e: Entry, n: Note): Entry {
    Entry(if n.alias != [] then n.alias else e.alias,
          if n.face != [] then Insert(e.faces, n.face, ()) else e.faces,
          n.rssi,
          if n.infra.Some? then n.infra else e.infra,
          n.at)
  }

  function NoteNext(localId: string, t: Table, n: Note): Table {
    if !Listable(localId, n.id) then t
    else t[n.id := Refresh(if n.id in t then t[n.id] else NewEntry(n), n)]
  }

  function Prune(t: Table, now: int): Table {
    map id | id in t && Age(now, t[id].lastSeen) < PEER_TTL :: t[id]
  }

  /** The table after a log of notes and snapshots. */
  function After(localId: string, log: Log): Table
    decreases |log|
  {
    if log == [] then map[]
    else
      var t := After(localId, log[..|log| - 1]);
      match log[|log| - 1]
      case Heard(n) => NoteNext(localId, t, n)
      case Snapshot(now) => Prune(t, now)
  }

  // ----------------------------------------------------------------- the log

  function NotesOf(log: Log, id: string): (notes: seq<Note>)
    ensures forall i :: 0 <= i < |notes| ==> notes[i].id == id
    decreases |log|
  {
    if log == [] then []
    else
      var notes := NotesOf(log[..|log| - 1], id);
      if log[|log| - 1].Heard? && log[|log| - 1].note.id == id then notes + [log[|log| - 1].note] else notes
  }

  /** The notes since the last snapshot that found the peer stale. */
  function Kept(log: Log, id: string): seq<Note>
    decreases |log|
  {
    if log == [] then []
    else
      var notes := Kept(log[..|log| - 1], id);
      match log[|log| - 1]
      case Heard(n) => if n.id == id then notes + [n] else notes
      case Snapshot(now) => if notes != [] && Age(now, Last(notes).at) >= PEER_TTL then [] else notes
  }

  function Last(notes: seq<Note>): Note
    requires notes != []
  {
    notes[|notes| - 1]
  }

  function LastAlias(notes: seq<Note>): string {
    if notes == [] then []
    else if Last(notes).alias != [] then Last(notes).alias
    else LastAlias(notes[..|notes| - 1])
  }

  function LastInfra(notes: seq<Note>): Option<string> {
    if notes == [] then None
    else if Last(notes).infra.Some? then Last(notes).infra
    else LastInfra(notes[..|notes| - 1])
  }

  function FacesHeard(notes: seq<Note>): FaceSet {
    if notes == [] then []
    else
      var faces := FacesHeard(notes[..|notes| - 1]);
      if Last(notes).face != [] then Insert(faces, Last(notes).face, ()) else faces
  }

  /** What a list of notes says about a peer. */
  function Summary(notes: seq<Note>): Entry
    requires notes != []
  {
    Entry(LastAlias(notes), FacesHeard(notes), Last(notes).rssi, LastInfra(notes), Last(notes).at)
  }

  lemma RefreshIsSummary(notes: seq<Note>, n: Note)
    ensures notes != [] ==> Refresh(Summary(notes), n) == Summary(notes + [n])
    ensures Refresh(NewEntry(n), n) == Summary([n])
  {
    assert (notes + [n])[..|notes|] == notes;
    assert [n][..|[n]| - 1] == [] && LastAlias([]) == [] && LastInfra([]) == None && FacesHeard([]) == [];
  }

  /** The faces of a summary are in order, each once, and are exactly the ones the notes name. */
  lemma {:induction false} FacesAreThoseHeard(notes: seq<Note>, face: string)
    ensures Sorted(FacesHeard(notes))
    ensures face in ToMap(FacesHeard(notes)) <==> face != [] && exists i :: 0 <= i < |notes| && notes[i].face == face
    decreases |notes|
  {
    if notes != [] {
      var init := notes[..|notes| - 1];
      FacesAreThoseHeard(init, face);
      InsertUpdates(FacesHeard(init), Last(notes).face, ());
      if face == Last(notes).face {
        assert notes[|notes| - 1].face == face;
      } else {
        if i :| 0 <= i < |notes| && notes[i].face == face {
          assert init[i].face == face;
        }
      }
    }
  }

  // -------------------------------------------------------------- refinement

  /** Over every log the table is the summary of the notes kept for each peer. */
  lemma {:induction false} TableIsSummary(localId: string, log: Log, id: string)
    ensures id in After(localId, log) <==> Listable(localId, id) && Kept(log, id) != []
    ensures id in After(localId, log) ==> After(localId, log)[id] == Summary(Kept(log, id))
    decreases |log|
  {
    if log != [] {
      TableIsSummary(localId, log[..|log| - 1], id);
      if log[|log| - 1].Heard? {
        RefreshIsSummary(Kept(log[..|log| - 1], id), log[|log| - 1].note);
      }
    }
  }

  ghost predicate SnapshotsBy(log: Log, now: int) {
    forall i :: 0 <= i < |log| && log[i].Snapshot? ==> log[i].now <= now
  }

  lemma {:induction false} KeptEndsWithLatest(log: Log, id: string)
    requires Kept(log, id) != []
    ensures NotesOf(log, id) != [] && Last(Kept(log, id)) == Last(NotesOf(log, id))
    decreases |log|
  {
    var init := log[..|log| - 1];
    if Kept(init, id) != [] {
      KeptEndsWithLatest(init, id);
    }
  }

  /** A snapshot after the latest note found the peer stale. */
  ghost predicate FoundStale(log: Log, id: string) {
    exists j :: 0 <= j < |log| && FoundStaleAt(log, id, j)
  }

  /** Event `j` is such a snapshot. */
  ghost predicate FoundStaleAt(log: Log, id: string, j: nat)
    requires j < |log|
  {
    && log[j].Snapshot? && NotesOf(log, id) != [] && Age(log[j].now, Last(NotesOf(log, id)).at) >= PEER_TTL
    && forall i :: j < i < |log| ==> !IsNoteOf(log[i], id)
  }

  predicate IsNoteOf(e: Event, id: string) {
    e.Heard? && e.note.id == id
  }

  /** What is kept of a peer is gone exactly when there never was anything or it was found stale. */
  lemma {:induction false} KeptExactly(log: Log, id: string)
    ensures Kept(log, id) != [] <==> NotesOf(log, id) != [] && !FoundStale(log, id)
    decreases |log|
  {
    if log != [] {
      var init, last := log[..|log| - 1], log[|log| - 1];
      KeptExactly(init, id);
      if IsNoteOf(last, id) {
        assert !FoundStale(log, id);
      } else {
        StaleBefore(log, id);
        if last.Snapshot? && Kept(init, id) != [] {
          KeptEndsWithLatest(init, id);
        }
      }
    }
  }

  lemma StaleBefore(log: Log, id: string)
    requires log != [] && !IsNoteOf(log[|log| - 1], id)
    ensures FoundStale(log, id)
      <==> FoundStale(log[..|log| - 1], id) || FoundStaleAt(log, id, |log| - 1)
  {
    var init := log[..|log| - 1];
    assert NotesOf(log, id) == NotesOf(init, id);
    if j :| 0 <= j < |init| && FoundStaleAt(init, id, j) {
      assert FoundStaleAt(log, id, j);
    }
    if j :| 0 <= j < |log| && FoundStaleAt(log, id, j) {
      if j < |init| {
        assert FoundStaleAt(init, id, j);
      }
    }
  }

  /** Whatever the notes and whenever the earlier snapshots were taken, even if their clock readings overtook each
    * other: a snapshot lists an id exactly when it is not empty, not our own, its latest note is less than 30 s
    * old and no snapshot since found it older; and it shows that note's signal strength and age. */
  lemma SnapshotExactly(localId: string, log: Log, now: int, id: string)
    ensures var t := Prune(After(localId, log), now);
      var notes := NotesOf(log, id);
      && (id in t <==>
            Listable(localId, id) && notes != [] && Age(now, Last(notes).at) < PEER_TTL && !FoundStale(log, id))
      && (id in t ==> t[id].rssi == Last(notes).rssi && t[id].lastSeen == Last(notes).at)
  {
    TableIsSummary(localId, log, id);
    KeptExactly(log, id);
    if Kept(log, id) != [] {
      KeptEndsWithLatest(log, id);
    }
  }

  /** An overtaken snapshot misses a peer: after a note and a snapshot whose clock reading is 30 s later, one with an
    * earlier reading, to which the note is still fresh, does not list it. */
  lemma OvertakenSnapshotMisses(localId: string, n: Note, late: int, now: int)
    requires Listable(localId, n.id) && late - n.at >= 30_000_000_000 && now - n.at < 30_000_000_000
    ensures var log := [Heard(n), Snapshot(late)];
      Nearby(localId, log, now, n.id) && n.id !in Prune(After(localId, log), now)
  {
    var log := [Heard(n), Snapshot(late)];
    assert log[..1] == [Heard(n)] && [Heard(n)][..0] == [];
    assert NotesOf([Heard(n)], n.id) == [] + [n] == NotesOf(log, n.id);
    assert FoundStaleAt(log, n.id, 1);
    SnapshotExactly(localId, log, now, n.id);
  }

  /** The plain log's view of a peer. */
  predicate Nearby(localId: string, log: Log, now: int, id: string) {
    Listable(localId, id) && NotesOf(log, id) != [] && Age(now, Last(NotesOf(log, id)).at) < PEER_TTL
  }

  /** As long as snapshot times do not run backwards, the latest note alone decides. */
  lemma OrderedSnapshotExactly(localId: string, log: Log, now: int, id: string)
    requires SnapshotsBy(log, now)
    ensures id in Prune(After(localId, log), now) <==> Nearby(localId, log, now, id)
  {
    SnapshotExactly(localId, log, now, id);
  }

  // --------------------------------------------- faces, label and address

  function At(e: Event): int {
    match e
    case Heard(n) => n.at
    case Snapshot(now) => now
  }

  ghost predicate Monotone(log: Log) {
    forall i, j :: 0 <= i < j < |log| ==> At(log[i]) <= At(log[j])
  }

  ghost predicate GapFree(notes: seq<Note>) {
    forall i :: 0 <= i < |notes| - 1 ==> notes[i + 1].at - notes[i].at < PEER_TTL
  }

  /** Without a silence of 30 s nothing is forgotten. */
  lemma {:induction false} GapFreeKeepsAll(log: Log, id: string, now: int)
    requires Monotone(log) && (forall i :: 0 <= i < |log| ==> At(log[i]) <= now)
    requires GapFree(NotesOf(log, id)) && (NotesOf(log, id) != [] ==> Age(now, Last(NotesOf(log, id)).at) < PEER_TTL)
    ensures Kept(log, id) == NotesOf(log, id)
    decreases |log|
  {
    if log != [] {
      var init, last := log[..|log| - 1], log[|log| - 1];
      var notes := NotesOf(init, id);
      assert Monotone(init);
      assert forall i :: 0 <= i < |init| ==> At(init[i]) <= At(last);
      assert forall i :: 0 <= i < |notes| ==> notes[i] == NotesOf(log, id)[i];
      assert forall i :: 0 <= i < |notes| - 1 ==> NotesOf(log, id)[i + 1].at - NotesOf(log, id)[i].at < PEER_TTL;
      match last
      case Heard(n) =>
        if n.id == id {
          assert NotesOf(log, id) == notes + [n];
          if notes != [] {
            assert NotesOf(log, id)[|notes| - 1 + 1].at - NotesOf(log, id)[|notes| - 1].at < PEER_TTL;
          }
          GapFreeKeepsAll(init, id, n.at);
        } else {
          GapFreeKeepsAll(init, id, now);
        }
      case Snapshot(s) =>
        GapFreeKeepsAll(init, id, s);
    }
  }

  /** On a monotone clock, a peer heard without a 30 s silence is listed with every face it was heard on and the
    * latest label and address it sent, whenever the snapshots were taken. */
  lemma SteadyPeerKeepsEverything(localId: string, log: Log, now: int, id: string)
    requires Monotone(log) && (forall i :: 0 <= i < |log| ==> At(log[i]) <= now) && Listable(localId, id)
    requires NotesOf(log, id) != [] && GapFree(NotesOf(log, id)) && Age(now, Last(NotesOf(log, id)).at) < PEER_TTL
    ensures var t := Prune(After(localId, log), now);
      id in t && t[id] == Summary(NotesOf(log, id))
  {
    GapFreeKeepsAll(log, id, now);
    TableIsSummary(localId, log, id);
  }

  /** Every log in which exactly these notes of the peer occur, up to the latest of them, still has them all. */
  ghost predicate NeverForgotten(notes: seq<Note>, id: string)
    requires notes != []
  {
    forall log: Log :: EndsWith(log, notes, id) ==> Kept(log, id) == notes
  }

  ghost predicate EndsWith(log: Log, notes: seq<Note>, id: string)
    requires notes != []
  {
    Monotone(log) && NotesOf(log, id) == notes && log != [] && log[|log| - 1] == Heard(Last(notes))
  }

  function AsLog(notes: seq<Note>): (log: Log)
    ensures |log| == |notes| && forall i :: 0 <= i < |log| ==> log[i] == Heard(notes[i])
  {
    seq(|notes|, i requires 0 <= i < |notes| => Heard(notes[i]))
  }

  lemma OneMoreNote(log: Log, n: Note, id: string)
    requires n.id == id
    ensures NotesOf(log + [Heard(n)], id) == NotesOf(log, id) + [n] && Kept(log + [Heard(n)], id) == Kept(log, id) + [n]
  {
    assert (log + [Heard(n)])[..|log|] == log;
  }

  lemma {:induction false} NotesAppend(log: Log, notes: seq<Note>, id: string)
    requires forall i :: 0 <= i < |notes| ==> notes[i].id == id
    ensures NotesOf(log + AsLog(notes), id) == NotesOf(log, id) + notes
    ensures Kept(log + AsLog(notes), id) == Kept(log, id) + notes
    decreases |notes|
  {
    if notes == [] {
      assert log + AsLog(notes) == log;
    } else {
      var init := notes[..|notes| - 1];
      NotesAppend(log, init, id);
      OneMoreNote(log + AsLog(init), Last(notes), id);
      assert AsLog(notes) == AsLog(init) + [Heard(Last(notes))];
      ConcatAssociative(log, AsLog(init), [Heard(Last(notes))]);
      assert init + [Last(notes)] == notes;
      ConcatAssociative(NotesOf(log, id), init, [Last(notes)]);
      ConcatAssociative(Kept(log, id), init, [Last(notes)]);
    }
  }

  /** The notes with one snapshot at the end of the silence before note `i + 1`. */
  function WithSnapshot(notes: seq<Note>, i: nat): (log: Log)
    requires i + 1 < |notes|
    ensures |log| == |notes| + 1
    ensures forall k :: 0 <= k < |log| ==> At(log[k]) == notes[if k <= i + 1 then k else k - 1].at
  {
    (AsLog(notes[..i + 1]) + [Snapshot(notes[i + 1].at)]) + AsLog(notes[i + 1..])
  }

  /** A snapshot at the end of a 30 s silence forgets what came before it. */
  lemma SilenceForgets(notes: seq<Note>, id: string, i: nat)
    requires (forall k :: 0 <= k < |notes| ==> notes[k].id == id)
    requires forall j, k :: 0 <= j < k < |notes| ==> notes[j].at <= notes[k].at
    requires i + 1 < |notes| && notes[i + 1].at - notes[i].at >= PEER_TTL
    ensures EndsWith(WithSnapshot(notes, i), notes, id) && Kept(WithSnapshot(notes, i), id) == notes[i + 1..]
  {
    KeptAfterSilence(notes, id, i);
    InOrder(notes, i);
  }

  lemma KeptAfterSilence(notes: seq<Note>, id: string, i: nat)
    requires (forall k :: 0 <= k < |notes| ==> notes[k].id == id)
    requires i + 1 < |notes| && notes[i + 1].at - notes[i].at >= PEER_TTL
    ensures NotesOf(WithSnapshot(notes, i), id) == notes && Kept(WithSnapshot(notes, i), id) == notes[i + 1..]
  {
    var before, after := notes[..i + 1], notes[i + 1..];
    SilenceSplits(before, after, notes[i + 1].at, id);
    assert before + after == notes;
  }

  lemma SilenceSplits(before: seq<Note>, after: seq<Note>, now: int, id: string)
    requires before != [] && Age(now, Last(before).at) >= PEER_TTL
    requires forall k :: 0 <= k < |before| ==> before[k].id == id
    requires forall k :: 0 <= k < |after| ==> after[k].id == id
    ensures NotesOf((AsLog(before) + [Snapshot(now)]) + AsLog(after), id) == before + after
    ensures Kept((AsLog(before) + [Snapshot(now)]) + AsLog(after), id) == after
  {
    AllKept(before, id);
    StaleSnapshot(AsLog(before), id, now);
    NotesAppend(AsLog(before) + [Snapshot(now)], after, id);
    assert [] + after == after;
  }

  lemma AllKept(notes: seq<Note>, id: string)
    requires forall k :: 0 <= k < |notes| ==> notes[k].id == id
    ensures NotesOf(AsLog(notes), id) == notes && Kept(AsLog(notes), id) == notes
  {
    NotesAppend([], notes, id);
    assert [] + AsLog(notes) == AsLog(notes) && [] + notes == notes;
  }

  lemma InOrder(notes: seq<Note>, i: nat)
    requires i + 1 < |notes| && forall j, k :: 0 <= j < k < |notes| ==> notes[j].at <= notes[k].at
    ensures Monotone(WithSnapshot(notes, i)) && WithSnapshot(notes, i)[|notes|] == Heard(Last(notes))
  {
    var log := WithSnapshot(notes, i);
    forall j, k | 0 <= j < k < |log| ensures At(log[j]) <= At(log[k]) {
      var j' := if j <= i + 1 then j else j - 1;
      var k' := if k <= i + 1 then k else k - 1;
      assert j' <= k' && At(log[j]) == notes[j'].at && At(log[k]) == notes[k'].at;
    }
  }

  lemma StaleSnapshot(log: Log, id: string, now: int)
    requires Kept(log, id) != [] && Age(now, Last(Kept(log, id)).at) >= PEER_TTL
    ensures NotesOf(log + [Snapshot(now)], id) == NotesOf(log, id) && Kept(log + [Snapshot(now)], id) == []
  {
    assert (log + [Snapshot(now)])[..|log|] == log;
  }

  /** What a listed peer is shown with does not depend on when earlier snapshots were taken exactly when it was
    * never silent for 30 s. */
  lemma NeverForgottenExactly(notes: seq<Note>, id: string)
    requires notes != [] && (forall k :: 0 <= k < |notes| ==> notes[k].id == id)
    requires forall j, k :: 0 <= j < k < |notes| ==> notes[j].at <= notes[k].at
    ensures NeverForgotten(notes, id) <==> GapFree(notes)
  {
    if GapFree(notes) {
      forall log: Log | EndsWith(log, notes, id) ensures Kept(log, id) == notes {
        GapFreeKeepsAll(log, id, Last(notes).at);
      }
    } else {
      var i :| 0 <= i < |notes| - 1 && !(notes[i + 1].at - notes[i].at < PEER_TTL);
      SilenceForgets(notes, id, i);
      assert |Kept(WithSnapshot(notes, i), id)| < |notes|;
    }
  }
}
