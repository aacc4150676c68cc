/** The nearby-peer dataset (crates/ndn-boltffi/src/discovery.rs): the peer table as an object with methods, and
  * its snapshot as JSON.
  */
module PeerDataset {
  import opened Basics
  import opened Json
  import opened OrderedMap
  import opened PeerTable

  /** A line of the list; the age is in milliseconds. */
  datatype Row = Row(id: string, alias: string, faces: seq<string>, rssi: int, ageMs: nat, infra: Option<string>)

  // the member names of the printed text
  const SELF := "self"
  const ID := "id"
  const LABEL := "label"
  const PEERS := "peers"
  const FACES := "faces"
  const RSSI := "rssi"
  const AGE_MS := "age_ms"
  const INFRA := "infra"

  lemma KeysArePlain()
    ensures Plain(SELF) && Plain(ID) && Plain(LABEL) && Plain(PEERS)
    ensures Plain(FACES) && Plain(RSSI) && Plain(AGE_MS) && Plain(INFRA)
  {
  }

  function Texts(names: seq<string>): (values: seq<Value>)
    ensures |values| == |names| && forall i :: 0 <= i < |values| ==> values[i] == Text(names[i])
  {
    seq(|names|, i requires 0 <= i < |names| => Text(names[i]))
  }

  function RowFields(r: Row): seq<Field> {
    [Field(ID, Text(r.id)),
     Field(LABEL, Text(r.alias)),
     Field(FACES, List(Texts(r.faces))),
     Field(RSSI, Number(r.rssi)),
     Field(AGE_MS, Number(r.ageMs))]
    + (if r.infra.Some? then [Field(INFRA, Text(r.infra.value))] else [])
  }

  function RowValues(rows: seq<Row>): (values: seq<Value>)
    ensures |values| == |rows| && forall i :: 0 <= i < |values| ==> values[i] == Record(RowFields(rows[i]))
  {
    seq(|rows|, i requires 0 <= i < |rows| => Record(RowFields(rows[i])))
  }

  function SelfFields(id: string, alias: string): seq<Field> {
    [Field(ID, Text(id)), Field(LABEL, Text(alias))]
  }

  function DatasetValue(id: string, alias: string, rows: seq<Row>): Value {
    Record([Field(SELF, Record(SelfFields(id, alias))), Field(PEERS, List(RowValues(rows)))])
  }

  // ---------------------------------------------------------------- printing

  method PushFaces(p: Printer, faces: seq<string>)
    modifies p
    ensures p.out == old(p.out) + RenderItems(Texts(faces))
  {
    ghost var values := Texts(faces);
    for j := 0 to |faces|
      invariant p.out == old(p.out) + RenderItems(values[..j])
    {
      ghost var comma := if j == 0 then [] else ",";
      RenderItemsSnoc(values[..j], values[j]);
      assert values[..j + 1] == values[..j] + [values[j]];
      ConcatAssociative(old(p.out), RenderItems(values[..j]), comma);
      ConcatAssociative(old(p.out), RenderItems(values[..j]) + comma, Render(values[j]));
      if j > 0 {
        p.Push(",");
      }
      p.PushJsonStr(faces[j]);
    }
    assert values[..|faces|] == values;
  }

  /** A field whose value is a list of strings. */
  method AddFaces(p: Printer, ghost start: string, ghost fields: seq<Field>, key: string, faces: seq<string>)
    requires Plain(key) && fields != [] && p.out == start + RenderFields(fields)
    modifies p
    ensures p.out == start + RenderFields(fields + [Field(key, List(Texts(faces)))])
  {
    FieldText(start, fields, key, List(Texts(faces)));
    p.PushKey(fields, false, key);
    ghost var before := p.out;
    p.Push("[");
    PushFaces(p, faces);
    p.Push("]");
    ConcatAssociative(before, "[", RenderItems(Texts(faces)));
    ConcatAssociative(before, "[" + RenderItems(Texts(faces)), "]");
  }

  method PushRow(p: Printer, r: Row)
    modifies p
    ensures p.out == old(p.out) + Render(Record(RowFields(r)))
  {
    KeysArePlain();
    p.Push("{");
    ghost var start := p.out;
    ghost var f := [];
    p.AddText(start, f, true, ID, r.id);
    f := f + [Field(ID, Text(r.id))];
    p.AddText(start, f, false, LABEL, r.alias);
    f := f + [Field(LABEL, Text(r.alias))];
    AddFaces(p, start, f, FACES, r.faces);
    f := f + [Field(FACES, List(Texts(r.faces)))];
    p.AddNumber(start, f, false, RSSI, r.rssi);
    f := f + [Field(RSSI, Number(r.rssi))];
    p.AddNumber(start, f, false, AGE_MS, r.ageMs);
    f := f + [Field(AGE_MS, Number(r.ageMs))];
    if r.infra.Some? {
      p.AddText(start, f, false, INFRA, r.infra.value);
      f := f + [Field(INFRA, Text(r.infra.value))];
    }
    assert f == RowFields(r);
    p.Push("}");
    ConcatAssociative(old(p.out), "{", RenderFields(f));
    ConcatAssociative(old(p.out), "{" + RenderFields(f), "}");
  }

  /** The text in front of the rows. */
  function Head(id: string, alias: string): string {
    "{" + RenderFields([Field(SELF, Record(SelfFields(id, alias)))]) + "," + KeyText(PEERS) + "["
  }

  lemma DatasetText(id: string, alias: string, rows: seq<Row>)
    ensures Render(DatasetValue(id, alias, rows)) == Head(id, alias) + RenderItems(RowValues(rows)) + "]" + "}"
  {
    var items := RowValues(rows);
    var f := [Field(SELF, Record(SelfFields(id, alias)))];
    FieldText("{", f, PEERS, List(items));
    assert f + [Field(PEERS, List(items))] == [f[0], Field(PEERS, List(items))];
    var head := "{" + RenderFields(f) + "," + KeyText(PEERS);
    ConcatAssociative(head, "[", RenderItems(items));
    ConcatAssociative(head, "[" + RenderItems(items), "]");
  }

  method PushHead(p: Printer, id: string, alias: string)
    requires p.out == []
    modifies p
    ensures p.out == Head(id, alias)
  {
    KeysArePlain();
    p.Push("{");
    PushSelf(p, id, alias);
    ghost var f := [Field(SELF, Record(SelfFields(id, alias)))];
    p.PushKey(f, false, PEERS);
    p.Push("[");
  }

  method PushSelf(p: Printer, id: string, alias: string)
    requires p.out == "{"
    modifies p
    ensures p.out == "{" + RenderFields([Field(SELF, Record(SelfFields(id, alias)))])
  {
    KeysArePlain();
    SelfText(id, alias);
    ghost var open := "{" + KeyText(SELF) + "{";
    p.PushKey([], true, SELF);
    p.Push("{");
    assert p.out == open + RenderFields([]);
    p.AddText(open, [], true, ID, id);
    ghost var f := [] + [Field(ID, Text(id))];
    p.AddText(open, f, false, LABEL, alias);
    assert f + [Field(LABEL, Text(alias))] == SelfFields(id, alias);
    p.Push("}");
  }

  lemma SelfText(id: string, alias: string)
    ensures "{" + RenderFields([Field(SELF, Record(SelfFields(id, alias)))])
      == "{" + KeyText(SELF) + "{" + RenderFields(SelfFields(id, alias)) + "}"
  {
    var v := Record(SelfFields(id, alias));
    FieldText("{", [], SELF, v);
    assert [] + [Field(SELF, v)] == [Field(SELF, v)];
    ConcatAssociative("{" + KeyText(SELF), "{", RenderFields(SelfFields(id, alias)));
    ConcatAssociative("{" + KeyText(SELF), "{" + RenderFields(SelfFields(id, alias)), "}");
  }

  // ------------------------------------------------------------ reading back

  function ReadableAll(names: seq<string>): seq<string> {
    seq(|names|, i requires 0 <= i < |names| => Readable(names[i]))
  }

  function ReadableRow(r: Row): Row {
    Row(Readable(r.id), Readable(r.alias), ReadableAll(r.faces), r.rssi, r.ageMs,
        if r.infra.Some? then Some(Readable(r.infra.value)) else None)
  }

  function ReadableRows(rows: seq<Row>): seq<Row> {
    seq(|rows|, i requires 0 <= i < |rows| => ReadableRow(rows[i]))
  }

  lemma ReadBackKey(key: string)
    requires Plain(key)
    ensures Readable(key) == key
  {
    PlainQuoted(key);
  }

  lemma ReadBackRow(r: Row)
    ensures ReadBack(Record(RowFields(r))) == Record(RowFields(ReadableRow(r)))
  {
    KeysArePlain();
    ReadBackKey(ID);
    ReadBackKey(LABEL);
    ReadBackKey(FACES);
    ReadBackKey(RSSI);
    ReadBackKey(AGE_MS);
    ReadBackKey(INFRA);
    assert ReadBackItems(Texts(r.faces)) == Texts(ReadableAll(r.faces));
    assert ReadBackFields(RowFields(r)) == RowFields(ReadableRow(r));
  }

  lemma ReadBackDataset(id: string, alias: string, rows: seq<Row>)
    ensures ReadBack(DatasetValue(id, alias, rows))
      == DatasetValue(Readable(id), Readable(alias), ReadableRows(rows))
  {
    KeysArePlain();
    var items := RowValues(rows);
    forall i | 0 <= i < |rows| ensures ReadBack(items[i]) == RowValues(ReadableRows(rows))[i] {
      ReadBackRow(rows[i]);
    }
    assert ReadBackItems(items) == RowValues(ReadableRows(rows));
    ReadBackKey(SELF);
    ReadBackKey(PEERS);
    ReadBackKey(ID);
    ReadBackKey(LABEL);
    assert ReadBackFields(SelfFields(id, alias)) == SelfFields(Readable(id), Readable(alias));
    var f := [Field(SELF, Record(SelfFields(id, alias))), Field(PEERS, List(items))];
    assert ReadBackFields(f) == [Field(SELF, ReadBack(f[0].value)), Field(PEERS, ReadBack(f[1].value))];
  }

  // a reader: members are looked up by name

  function ReadNames(items: seq<Value>): Option<seq<string>> {
    if items == [] then Some([])
    else match (items[0], ReadNames(items[1..]))
      case (Text(name), Some(rest)) => Some([name] + rest)
      case _ => None
  }

  function ReadFaces(v: Option<Value>): Option<seq<string>> {
    match v
    case Some(List(items)) => ReadNames(items)
    case _ => None
  }

  /** The infra address, when there is one. */
  function ReadInfra(v: Option<Value>): Option<string> {
    match v
    case Some(Text(address)) => Some(address)
    case _ => None
  }

  function ReadRow(v: Value): Option<Row> {
    match (Member(v, "id"), Member(v, "label"), ReadFaces(Member(v, "faces")), Member(v, "rssi"), Member(v, "age_ms"))
    case (Some(Text(id)), Some(Text(alias)), Some(faces), Some(Number(rssi)), Some(Number(age))) =>
      if age >= 0 then Some(Row(id, alias, faces, rssi, age, ReadInfra(Member(v, "infra")))) else None
    case _ => None
  }

  function ReadRows(items: seq<Value>): Option<seq<Row>> {
    if items == [] then Some([])
    else match (ReadRow(items[0]), ReadRows(items[1..]))
      case (Some(row), Some(rest)) => Some([row] + rest)
      case _ => None
  }

  datatype Dataset = Dataset(id: string, alias: string, rows: seq<Row>)

  function ReadValue(v: Value): Option<Dataset> {
    match (Member(v, "self"), Member(v, "peers"))
    case (Some(me), Some(List(items))) =>
      (match (Member(me, "id"), Member(me, "label"), ReadRows(items))
       case (Some(Text(id)), Some(Text(alias)), Some(rows)) => Some(Dataset(id, alias, rows))
       case _ => None)
    case _ => None
  }

  /** The node and its peers in a dataset's text, which must be one JSON value and nothing else. */
  function ReadDataset(text: string): Option<Dataset> {
    match ParseValue(text)
    case Some((v, rest)) => if rest == [] then ReadValue(v) else None
    case None => None
  }

  lemma {:induction false} NamesAreRead(names: seq<string>)
    ensures ReadNames(Texts(names)) == Some(names)
    decreases |names|
  {
    if names != [] {
      NamesAreRead(names[1..]);
      assert Texts(names)[1..] == Texts(names[1..]);
      assert names == [names[0]] + names[1..];
    }
  }

  lemma RowIsRead(r: Row)
    ensures ReadRow(Record(RowFields(r))) == Some(r)
  {
    var fields := RowFields(r);
    NamesAreRead(r.faces);
    FirstFieldAt(fields, "id", 0);
    FirstFieldAt(fields, "label", 1);
    FirstFieldAt(fields, "faces", 2);
    FirstFieldAt(fields, "rssi", 3);
    FirstFieldAt(fields, "age_ms", 4);
    if r.infra.Some? {
      FirstFieldAt(fields, "infra", 5);
    } else {
      NoSuchField(fields, "infra");
    }
  }

  lemma {:induction false} RowsAreRead(rows: seq<Row>)
    ensures ReadRows(RowValues(rows)) == Some(rows)
    decreases |rows|
  {
    if rows != [] {
      RowIsRead(rows[0]);
      RowsAreRead(rows[1..]);
      assert RowValues(rows)[1..] == RowValues(rows[1..]);
      assert rows == [rows[0]] + rows[1..];
    }
  }

  lemma DatasetIsRead(id: string, alias: string, rows: seq<Row>)
    ensures ReadValue(DatasetValue(id, alias, rows)) == Some(Dataset(id, alias, rows))
  {
    RowsAreRead(rows);
    FirstFieldAt(SelfFields(id, alias), "id", 0);
    FirstFieldAt(SelfFields(id, alias), "label", 1);
    FirstFieldAt(DatasetValue(id, alias, rows).fields, "self", 0);
    FirstFieldAt(DatasetValue(id, alias, rows).fields, "peers", 1);
  }

  /** What is served is one JSON value, in which a reader finds under the members' names the node and the rows in the
    * order printed, each string as it was except for blanked control characters. */
  lemma DatasetRoundTrip(id: string, alias: string, rows: seq<Row>)
    ensures ReadDataset(Render(DatasetValue(id, alias, rows)))
      == Some(Dataset(Readable(id), Readable(alias), ReadableRows(rows)))
  {
    var v := DatasetValue(id, alias, rows);
    ValueRoundTrip(v, []);
    assert Render(v) + [] == Render(v);
    ReadBackDataset(id, alias, rows);
    DatasetIsRead(Readable(id), Readable(alias), ReadableRows(rows));
  }

  // ---------------------------------------------------------------- the state

  function Names(faces: FaceSet): seq<string> {
    seq(|faces|, i requires 0 <= i < |faces| => faces[i].key)
  }

  function RowOf(id: string, e: Entry, now: int): Row {
    Row(id, e.alias, Names(e.faces), e.rssi, Age(now, e.lastSeen) / 1_000_000, e.infra)
  }

  ghost predicate Known(order: seq<string>, t: Table) {
    forall i :: 0 <= i < |order| ==> order[i] in t
  }

  function RowsOf(order: seq<string>, t: Table, now: int): (rows: seq<Row>)
    requires Known(order, t)
    ensures |rows| == |order| && forall i :: 0 <= i < |rows| ==> rows[i] == RowOf(order[i], t[order[i]], now)
  {
    seq(|order|, i requires 0 <= i < |order| => RowOf(order[i], t[order[i]], now))
  }

  /** What a row tells of its peer: the latest note's signal strength, the whole milliseconds since, and the label, the
    * address and the faces, in order, of the notes kept. */
  ghost predicate Tells(row: Row, log: Log, now: int) {
    var notes, kept := NotesOf(log, row.id), Kept(log, row.id);
    && notes != [] && row.rssi == Last(notes).rssi
    && row.ageMs * 1_000_000 <= Age(now, Last(notes).at) < (row.ageMs + 1) * 1_000_000
    && row.alias == LastAlias(kept) && row.infra == LastInfra(kept) && NamesFacesOf(row.faces, kept)
  }

  /** Exactly the faces the notes were heard on, each once, in order. */
  ghost predicate NamesFacesOf(names: seq<string>, notes: seq<Note>) {
    && (forall i, j :: 0 <= i < j < |names| ==> Less(names[i], names[j]))
    && (forall face :: face in names <==> face != [] && exists i :: 0 <= i < |notes| && notes[i].face == face)
  }

  lemma FacesTold(kept: seq<Note>)
    ensures NamesFacesOf(Names(FacesHeard(kept)), kept)
  {
    var names := Names(FacesHeard(kept));
    FacesAreThoseHeard(kept, []);
    forall face ensures face in names <==> face != [] && exists i :: 0 <= i < |kept| && kept[i].face == face {
      FacesAreThoseHeard(kept, face);
      ToMapKeys(FacesHeard(kept), face);
      if i :| 0 <= i < |FacesHeard(kept)| && FacesHeard(kept)[i].key == face {
        assert names[i] == face;
      }
    }
  }

  lemma RowTells(localId: string, log: Log, now: int, id: string)
    requires id in Prune(After(localId, log), now)
    ensures Tells(RowOf(id, Prune(After(localId, log), now)[id], now), log, now)
  {
    TableIsSummary(localId, log, id);
    SnapshotExactly(localId, log, now, id);
    FacesTold(Kept(log, id));
    var row := RowOf(id, Prune(After(localId, log), now)[id], now);
    assert row.faces == Names(FacesHeard(Kept(log, id)));
  }

  lemma AfterHeard(localId: string, log: Log, n: Note)
    ensures After(localId, log + [Heard(n)]) == NoteNext(localId, After(localId, log), n)
  {
    assert (log + [Heard(n)])[..|log|] == log;
  }

  function Ids(rows: seq<Row>): seq<string> {
    seq(|rows|, i requires 0 <= i < |rows| => rows[i].id)
  }

  ghost predicate Distinct(order: seq<string>) {
    forall i, j :: 0 <= i < j < |order| ==> order[i] != order[j]
  }

  class DiscoveryState {
    const localId: string
    const localAlias: string
    var peers: Table
    ghost var log: Log

    ghost predicate Valid()
      reads this
    {
      peers == After(localId, log)
    }

    constructor (id: string, alias: string)
      ensures Valid() && log == [] && localId == id && localAlias == alias
    {
      localId, localAlias, peers, log := id, alias, map[], [];
    }

    method NotePeer(n: Note)
      requires Valid()
      modifies this
      ensures Valid() && log == old(log) + [Heard(n)]
      ensures peers == NoteNext(localId, old(peers), n)
    {
      AfterHeard(localId, log, n);
      log := log + [Heard(n)];
      if |n.id| == 0 || n.id == localId {
        return;
      }
      if n.id !in peers {
        peers := peers[n.id := NewEntry(n)];
      }
      var entry := Refreshed(peers[n.id], n);
      peers := peers[n.id := entry];
    }

    /** A label, a face or an address is taken over when the note carries one; the rest always is. */
    static method Refreshed(seen: Entry, n: Note) returns (entry: Entry)
      ensures entry == Refresh(seen, n)
    {
      entry := seen;
      if |n.alias| > 0 {
        entry := entry.(alias := n.alias);
      }
      if |n.face| > 0 {
        entry := entry.(faces := Insert(entry.faces, n.face, ()));
      }
      if n.infra.Some? {
        entry := entry.(infra := n.infra);
      }
      entry := entry.(rssi := n.rssi, lastSeen := n.at);
    }

    /** `retain`. */
    method DropStale(now: int)
      modifies this`peers
      ensures peers == Prune(old(peers), now)
    {
      var unseen := peers.Keys;
      while unseen != {}
        invariant unseen <= old(peers).Keys
        invariant peers == map id |
          id in old(peers) && (id in unseen || Age(now, old(peers)[id].lastSeen) < PEER_TTL) :: old(peers)[id]
        decreases |unseen|
      {
        var id :| id in unseen;
        unseen := unseen - {id};
        if Age(now, peers[id].lastSeen) >= PEER_TTL {
          peers := peers - {id};
        }
      }
    }

    /** The rows in whatever order the hash map gives them. */
    method PushRows(p: Printer, now: int) returns (ghost order: seq<string>)
      modifies p
      ensures Known(order, peers) && Distinct(order) && (forall id :: id in peers ==> id in order)
      ensures p.out == old(p.out) + RenderItems(RowValues(RowsOf(order, peers, now)))
    {
      KeysArePlain();
      order := [];
      var unseen := peers.Keys;
      var first := true;
      while unseen != {}
        invariant unseen <= peers.Keys && Known(order, peers) && Distinct(order)
        invariant forall id :: id in peers ==> (id in order <==> id !in unseen)
        invariant first <==> order == []
        invariant p.out == old(p.out) + RenderItems(RowValues(RowsOf(order, peers, now)))
        decreases |unseen|
      {
        var id :| id in unseen;
        unseen := unseen - {id};
        if !first {
          p.Push(",");
        }
        first := false;
        PushRow(p, RowOf(id, peers[id], now));
        RowsSnoc(old(p.out), order, peers, now, id);
        order := order + [id];
      }
    }

    /** Prints every entry of the table once. */
    method PrintTable(now: int) returns (json: string, ghost order: seq<string>)
      ensures Known(order, peers) && Distinct(order) && (forall id :: id in order <==> id in peers)
      ensures json == Render(DatasetValue(localId, localAlias, RowsOf(order, peers, now)))
    {
      KeysArePlain();
      var p := new Printer();
      PushHead(p, localId, localAlias);
      order := PushRows(p, now);
      p.Push("]");
      p.Push("}");
      json := p.out;
      DatasetText(localId, localAlias, RowsOf(order, peers, now));
    }

    /** The rows of the pruned table. */
    lemma ListedExactly(before: Log, now: int, order: seq<string>)
      requires peers == Prune(After(localId, before), now) && Known(order, peers)
      requires forall id :: id in order <==> id in peers
      ensures forall id :: id in order <==> Nearby(localId, before, now, id) && !FoundStale(before, id)
      ensures SnapshotsBy(before, now) ==> forall id :: id in order <==> Nearby(localId, before, now, id)
      ensures forall i :: 0 <= i < |order| ==> Tells(RowsOf(order, peers, now)[i], before, now)
    {
      forall id ensures id in order <==> Nearby(localId, before, now, id) && !FoundStale(before, id) {
        SnapshotExactly(localId, before, now, id);
      }
      if SnapshotsBy(before, now) {
        forall id ensures id in order <==> Nearby(localId, before, now, id) {
          OrderedSnapshotExactly(localId, before, now, id);
        }
      }
      forall i | 0 <= i < |order| ensures Tells(RowsOf(order, peers, now)[i], before, now) {
        RowTells(localId, before, now, order[i]);
      }
    }

    /** Prunes, and prints what is left, as text from which a reader gets the rows back: one for each id whose latest
      * note is less than 30 s old and was not found older since, which can only be when an earlier snapshot's clock
      * reading ran ahead of this one's. */
    method SnapshotJson(now: int) returns (json: string, ghost rows: seq<Row>)
      requires Valid()
      modifies this
      ensures Valid() && log == old(log) + [Snapshot(now)]
      ensures ReadDataset(json) == Some(Dataset(Readable(localId), Readable(localAlias), ReadableRows(rows)))
      ensures Distinct(Ids(rows)) && forall i :: 0 <= i < |rows| ==> Tells(rows[i], old(log), now)
      ensures forall id :: id in Ids(rows) <==> Nearby(localId, old(log), now, id) && !FoundStale(old(log), id)
      ensures SnapshotsBy(old(log), now) ==> forall id :: id in Ids(rows) <==> Nearby(localId, old(log), now, id)
    {
      assert (log + [Snapshot(now)])[..|log|] == log;
      DropStale(now);
      log := log + [Snapshot(now)];
      ghost var order;
      json, order := PrintTable(now);
      ListedExactly(old(log), now, order);
      rows := RowsOf(order, peers, now);
      DatasetRoundTrip(localId, localAlias, rows);
      assert Ids(rows) == order;
    }
  }

  lemma RowsSnoc(start: string, order: seq<string>, t: Table, now: int, id: string)
    requires Known(order, t) && id in t
    ensures Known(order + [id], t)
    ensures start + RenderItems(RowValues(RowsOf(order + [id], t, now)))
      == start + RenderItems(RowValues(RowsOf(order, t, now))) + (if order == [] then [] else ",")
         + Render(Record(RowFields(RowOf(id, t[id], now))))
  {
    var row := RowOf(id, t[id], now);
    var values := RowValues(RowsOf(order, t, now));
    assert RowsOf(order + [id], t, now) == RowsOf(order, t, now) + [row];
    assert RowValues(RowsOf(order + [id], t, now)) == values + [Record(RowFields(row))];
    RenderItemsSnoc(values, Record(RowFields(row)));
    var comma := if order == [] then [] else ",";
    ConcatAssociative(start, RenderItems(values), comma);
    ConcatAssociative(start, RenderItems(values) + comma, Render(Record(RowFields(row))));
  }
}
