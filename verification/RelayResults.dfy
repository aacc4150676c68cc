/** Results over whole runs of the relay: wake-ups, the single writer, the bounded lead, the content. */
module RelayResults {
  import opened Basics
  import opened RdrObject
  import opened RelayProtocol
  import opened RelaySafety
  import CS = ContentStream

  // -------------------------------------------------- demand within a machine word

  /** Whether pacing to a demand for `k` lets the whole file through: the sum does not wrap, or what it wraps to
    * still reaches the last segment. */
  predicate Fits(c: Config, k: nat)
    requires c.Valid()
  {
    k + Max(c.requestedLookahead, 1) < U64 || c.leaf.LastSeg() <= (k + Max(c.requestedLookahead, 1)) % U64
  }

  predicate FitsIn(c: Config, e: Event)
    requires c.Valid()
  {
    e.Interest? ==> Fits(c, e.k)
  }

  /** Only such segments were demanded, inside or outside the file. */
  ghost predicate InRange(c: Config, s: State)
    requires c.Valid()
  {
    && Fits(c, s.front)
    && forall i :: 0 <= i < |s.handlers| ==> Fits(c, s.handlers[i].seg)
  }

  lemma InRangeStep(c: Config, s: State, e: Event)
    requires c.Valid() && InRange(c, s) && Enabled(c, s, e) && FitsIn(c, e)
    ensures InRange(c, Next(c, s, e))
  {
    HandlersKept(c, s, e);
    FrontMoves(c, s, e);
  }

  lemma FrontMoves(c: Config, s: State, e: Event)
    requires c.Valid() && Enabled(c, s, e)
    ensures Next(c, s, e).front == s.front
      || (e.HandlerStep? && Next(c, s, e).front == Max(s.front, s.handlers[e.i].seg))
  {
    match e
    case HandlerStep(_) =>
    case RefetchStep(i) => RefetchFrame(c, s, i);
    case RelayStep => RelayFrame(c, s);
    case LeafStep => LeafFrame(c, s);
    case Interest(k) => InterestFrame(s, k);
    case _ => OutsideFrame(c, s, e);
  }

  lemma {:induction false} InRangeRuns(c: Config, s: State, es: seq<Event>, t: State)
    requires c.Valid() && InRange(c, s) && Runs(c, s, es, t) && forall e :: e in es ==> FitsIn(c, e)
    ensures InRange(c, t)
    decreases |es|
  {
    if es != [] {
      InRangeStep(c, s, es[0]);
      InRangeRuns(c, Next(c, s, es[0]), es[1..], t);
    }
  }

  /** No lost wakeup: in every interleaving, a relay asleep in the pacing wait with no notification
    * stored, delivered or about to be sent has segments left to stream, and it is beyond the current front plus
    * the lookahead exactly when that sum fits a machine word. */
  lemma SleepingRelayIsPaced(c: Config, es: seq<Event>, s: State)
    requires c.Valid() && Runs(c, INIT, es, s)
    requires s.relay.Wait? && !s.permit && !Notifying(s.handlers)
    ensures s.produced <= c.leaf.LastSeg()
    ensures s.front + Max(c.requestedLookahead, 1) < s.produced <==> s.front + Max(c.requestedLookahead, 1) < U64
  {
    InvRuns(c, INIT, es, s);
    var room := (s.front + c.Lookahead()) % U64;
    assert s.front + c.Lookahead() < U64 ==> room == s.front + c.Lookahead();
  }

  // ----------------------------------------------------------- single writer

  predicate StartsRelay(s: State, e: Event) {
    e.HandlerStep? && e.i < |s.handlers| && s.handlers[e.i].pc.Start? && s.inputs
  }

  ghost function RelaysStarted(c: Config, s: State, es: seq<Event>): nat
    requires c.Valid()
    decreases |es|
  {
    if es == [] || !Enabled(c, s, es[0]) then 0
    else (if StartsRelay(s, es[0]) then 1 else 0) + RelaysStarted(c, Next(c, s, es[0]), es[1..])
  }

  lemma StartTakesInputs(c: Config, s: State, e: Event)
    requires c.Valid() && Enabled(c, s, e)
    ensures Next(c, s, e).inputs <==> s.inputs && !StartsRelay(s, e)
  {
    match e
    case HandlerStep(_) =>
    case RefetchStep(i) => RefetchFrame(c, s, i);
    case RelayStep => RelayFrame(c, s);
    case LeafStep => LeafFrame(c, s);
    case Interest(k) => InterestFrame(s, k);
    case _ => OutsideFrame(c, s, e);
  }

  lemma {:induction false} StartsOnce(c: Config, s: State, es: seq<Event>, t: State)
    requires c.Valid() && Runs(c, s, es, t)
    ensures RelaysStarted(c, s, es) == (if s.inputs && !t.inputs then 1 else 0) && (t.inputs ==> s.inputs)
    decreases |es|
  {
    if es != [] {
      StartTakesInputs(c, s, es[0]);
      StartsOnce(c, Next(c, s, es[0]), es[1..], t);
    }
  }

  /** At most one relay ever runs for an object, whatever the handlers' interleaving; a relay is running
    * (or was cancelled) exactly when one was started. */
  lemma SingleWriter(c: Config, es: seq<Event>, t: State)
    requires c.Valid() && Runs(c, INIT, es, t)
    ensures RelaysStarted(c, INIT, es) <= 1
    ensures RelaysStarted(c, INIT, es) == 1 <==> !t.relay.Idle?
  {
    StartsOnce(c, INIT, es, t);
    InvRuns(c, INIT, es, t);
  }

  lemma {:induction false} CountersGrow(c: Config, s: State, es: seq<Event>, t: State)
    requires c.Valid() && Runs(c, s, es, t)
    ensures s.front <= t.front && s.produced <= t.produced
    decreases |es|
  {
    if es != [] {
      StepMonotone(c, s, es[0]);
      CountersGrow(c, Next(c, s, es[0]), es[1..], t);
    }
  }

  // ------------------------------------------------------------ bounded lead

  ghost predicate LeadBounded(c: Config, s: State)
    requires c.Valid()
  {
    s.produced <= s.front + Max(c.requestedLookahead, 1) + 1
  }

  /** How many segments a run has lost on the seam or failed to sign. */
  function Skipped(es: seq<Event>): nat {
    if es == [] then 0 else (if Skips(es[0]) then 1 else 0) + Skipped(es[1..])
  }

  lemma {:induction false} SkippedSnoc(es: seq<Event>, e: Event)
    ensures Skipped(es + [e]) == Skipped(es) + (if Skips(e) then 1 else 0)
    decreases |es|
  {
    if es == [] {
      assert [e][1..] == [];
    } else {
      SkippedSnoc(es[1..], e);
      assert (es + [e])[1..] == es[1..] + [e];
    }
  }

  /** One for a segment in hand that will raise `produced`. */
  function Fresh(s: State): nat {
    if InHand(s.relay).Some? && InHand(s.relay).value.seg >= s.produced then 1 else 0
  }

  /** At most `n` segments have left the leaf and are neither below `produced`, nor in hand, nor on the seam. */
  ghost predicate HolesAtMost(s: State, n: nat) {
    s.leaf.seg - s.produced - |s.stream| - Fresh(s) <= n
  }

  lemma {:induction false} IncreasingFits(lo: nat, stream: seq<Raw>, hi: nat)
    requires Increasing(lo, stream, hi)
    ensures lo + |stream| <= hi
    decreases |stream|
  {
    if stream != [] {
      assert forall i :: 0 <= i < |stream[1..]| ==> stream[1..][i] == stream[i + 1];
      IncreasingFits(stream[0].seg + 1, stream[1..], hi);
    }
  }

  lemma HolesRelay(c: Config, s: State, n: nat)
    requires c.Valid() && Ordered(c, s) && HolesAtMost(s, n) && RelayReady(c, s)
    ensures HolesAtMost(RelayNext(c, s), n)
  {
    match s.relay
    case Recv =>
      if s.stream != [] {
        assert s.produced <= s.stream[0].seg;
      }
    case _ =>
  }

  lemma HolesOutside(c: Config, s: State, e: Event, n: nat)
    requires c.Valid() && Ordered(c, s) && HolesAtMost(s, n) && Outside(e) && Enabled(c, s, e)
    ensures HolesAtMost(OutsideNext(c, s, e), n + (if Skips(e) then 1 else 0))
  {
    match e
    case LeafFails =>
    case Lose(_) =>
    case SignFails =>
    case Echo(_) =>
    case _ => SeamUntouched(c, s, e);
  }

  lemma HolesStep(c: Config, s: State, e: Event, n: nat)
    requires c.Valid() && Inv(c, s) && HolesAtMost(s, n) && Enabled(c, s, e)
    ensures HolesAtMost(Next(c, s, e), n + (if Skips(e) then 1 else 0))
  {
    match e
    case HandlerStep(i) => HandlerFrame(s, i);
    case RefetchStep(i) => RefetchFrame(c, s, i);
    case RelayStep => HolesRelay(c, s, n);
    case LeafStep => LeafSends(c, s);
    case Interest(k) => InterestFrame(s, k);
    case _ => HolesOutside(c, s, e, n);
  }

  /** The lead is within `n` of its bound, and past the pacing check the relay has room for one more segment. */
  ghost predicate Paced(c: Config, s: State, n: nat)
    requires c.Valid()
  {
    && s.produced <= s.front + c.Lookahead() + 1 + n
    && (s.relay.Recv? || InHand(s.relay).Some? ==>
          s.produced <= s.front + c.Lookahead() || s.produced > c.leaf.LastSeg())
  }

  lemma PacedCommit(c: Config, s: State, d: Raw, n: nat)
    requires c.Valid() && Inv(c, s) && HolesAtMost(s, n) && Paced(c, s, n) && s.relay == Commit(d)
    ensures Paced(c, CommitNext(s, d), n)
  {
    IncreasingFits(Floor(s), s.stream, s.leaf.seg);
  }

  lemma PacedRelay(c: Config, s: State, n: nat)
    requires c.Valid() && Inv(c, s) && HolesAtMost(s, n) && Paced(c, s, n) && RelayReady(c, s)
    ensures Paced(c, RelayNext(c, s), n)
  {
    match s.relay
    case Commit(d) => PacedCommit(c, s, d, n);
    case Check =>
      var room := (s.front + c.Lookahead()) % U64;
      assert room <= s.front + c.Lookahead();
    case _ =>
  }

  lemma PacedStep(c: Config, s: State, e: Event, n: nat)
    requires c.Valid() && Inv(c, s) && HolesAtMost(s, n) && Paced(c, s, n) && Enabled(c, s, e)
    ensures Paced(c, Next(c, s, e), n)
  {
    match e
    case HandlerStep(i) => HandlerFrame(s, i);
    case RefetchStep(i) => RefetchFrame(c, s, i);
    case RelayStep => PacedRelay(c, s, n);
    case LeafStep => LeafFrame(c, s);
    case Interest(k) => InterestFrame(s, k);
    case _ => PacedOutside(c, s, e, n);
  }

  lemma PacedOutside(c: Config, s: State, e: Event, n: nat)
    requires c.Valid() && Paced(c, s, n) && Outside(e) && Enabled(c, s, e)
    ensures Paced(c, OutsideNext(c, s, e), n)
  {
  }

  lemma {:induction false} WithinSkips(c: Config, s: State, es: seq<Event>, t: State, n: nat)
    requires c.Valid() && Inv(c, s) && HolesAtMost(s, n) && Paced(c, s, n) && Runs(c, s, es, t)
    ensures Paced(c, t, n + Skipped(es))
    decreases |es|
  {
    if es != [] {
      var more := if Skips(es[0]) then 1 else 0;
      InvStep(c, s, es[0]);
      HolesStep(c, s, es[0], n);
      PacedStep(c, s, es[0], n);
      WithinSkips(c, Next(c, s, es[0]), es[1..], t, n + more);
    }
  }

  /** The lead over every run: the relay is never further past the consumers' highest demand than the lookahead,
    * the segment just committed, and one more for each segment lost on the seam or not signed. */
  lemma LeadWithinSkips(c: Config, es: seq<Event>, t: State)
    requires c.Valid() && Runs(c, INIT, es, t)
    ensures t.produced <= t.front + Max(c.requestedLookahead, 1) + 1 + Skipped(es)
  {
    WithinSkips(c, INIT, es, t, 0);
  }

  lemma {:induction false} NoneSkipped(es: seq<Event>)
    requires forall e :: e in es ==> !Skips(e)
    ensures Skipped(es) == 0
    decreases |es|
  {
    if es != [] {
      assert es[0] in es;
      NoneSkipped(es[1..]);
    }
  }

  /** Bounded lead: with an in-order leaf whose every segment is signed, at most `lookahead` committed
    * segments lie beyond the consumers' highest demand, whatever the size of the file, and whatever
    * resubscriptions, re-fetch failures or evictions happen. */
  lemma BoundedLead(c: Config, es: seq<Event>, t: State)
    requires c.Valid() && Runs(c, INIT, es, t) && forall e :: e in es ==> !Skips(e)
    ensures t.produced <= t.front + Max(c.requestedLookahead, 1) + 1
  {
    NoneSkipped(es);
    LeadWithinSkips(c, es, t);
  }

  // Without that premise, some run breaks the bound exactly when the file is longer than the lookahead.

  /** Some run, with whatever losses and failures, goes past the bound. */
  ghost predicate CanOverrun(c: Config)
    requires c.Valid()
  {
    exists es, t :: Runs(c, INIT, es, t) && !LeadBounded(c, t)
  }

  /** The longer run goes on by the actors' own steps. */
  ghost predicate LeftAlone(es: seq<Event>, fs: seq<Event>) {
    es <= fs && forall i :: |es| <= i < |fs| ==> Internal(fs[i])
  }

  /** One more step of a run from the initial state. */
  lemma Do(c: Config, es: seq<Event>, s: State, e: Event) returns (fs: seq<Event>, t: State)
    requires c.Valid() && Runs(c, INIT, es, s) && Enabled(c, s, e)
    ensures fs == es + [e] && t == Next(c, s, e) && Runs(c, INIT, fs, t)
    ensures Internal(e) ==> LeftAlone(es, fs)
    ensures Skipped(fs) == Skipped(es) + (if Skips(e) then 1 else 0)
  {
    fs, t := es + [e], Next(c, s, e);
    RunsSnoc(c, INIT, es, s, e);
    SkippedSnoc(es, e);
  }

  /** The relay waits for the leaf's next segment, with nothing under way. */
  ghost predicate AtStream(c: Config, s: State)
    requires c.Valid()
  {
    && s.relay.Recv? && s.stream == [] && s.owed == s.leaf.permits
    && !s.leaf.holding && !s.leaf.stopped && s.leaf.seg <= c.leaf.LastSeg()
  }

  /** How far the pacing check lets `produced` go. */
  function Room(c: Config, s: State): nat {
    (s.front + c.Lookahead()) % U64
  }

  predicate SameDemand(s: State, t: State) {
    t.front == s.front && t.handlers == s.handlers
  }

  /** A used-up subscription is renewed. */
  lemma Renew(c: Config, es: seq<Event>, s: State) returns (fs: seq<Event>, t: State)
    requires c.Valid() && Runs(c, INIT, es, s) && AtStream(c, s)
    ensures Runs(c, INIT, fs, t) && Skipped(fs) == Skipped(es) && LeftAlone(es, fs) && SameDemand(s, t)
    ensures AtStream(c, t) && t.owed > 0 && t.leaf.seg == s.leaf.seg && t.produced == s.produced
  {
    if s.owed > 0 {
      fs, t := es, s;
    } else {
      fs, t := Do(c, es, s, RelayStep);
    }
  }

  lemma StreamOne(c: Config, es: seq<Event>, s: State) returns (fs: seq<Event>, t: State)
    requires c.Valid() && Runs(c, INIT, es, s) && AtStream(c, s) && s.owed > 0
    ensures Runs(c, INIT, fs, t) && Skipped(fs) == Skipped(es) && LeftAlone(es, fs)
    ensures t == s.(leaf := t.leaf, stream := [SegmentOf(c.leaf, s.leaf.seg)])
    ensures t.leaf.permits == s.leaf.permits - 1 && t.leaf.seg == s.leaf.seg + 1 && !t.leaf.holding && !t.leaf.stopped
  {
    fs, t := Do(c, es, s, LeafStep);
    assert t.stream == [];
    fs, t := Do(c, fs, t, LeafStep);
    assert t.stream == [SegmentOf(c.leaf, s.leaf.seg)];
  }

  lemma TakeOne(c: Config, es: seq<Event>, s: State) returns (fs: seq<Event>, t: State)
    requires c.Valid() && Runs(c, INIT, es, s) && s.relay.Recv? && |s.stream| == 1 && s.owed > 0
    ensures Runs(c, INIT, fs, t) && Skipped(fs) == Skipped(es) && LeftAlone(es, fs)
    ensures t == s.(relay := Commit(s.stream[0]), stream := [], owed := s.owed - 1, source := t.source)
  {
    fs, t := Do(c, es, s, RelayStep);
    fs, t := Do(c, fs, t, RelayStep);
  }

  /** The next segment of the leaf arrives and is about to be signed. */
  lemma FetchOne(c: Config, es: seq<Event>, s: State) returns (fs: seq<Event>, t: State)
    requires c.Valid() && Runs(c, INIT, es, s) && AtStream(c, s)
    ensures Runs(c, INIT, fs, t) && Skipped(fs) == Skipped(es) && LeftAlone(es, fs) && SameDemand(s, t)
    ensures t.relay == Commit(SegmentOf(c.leaf, s.leaf.seg)) && t.leaf.seg == s.leaf.seg + 1 && t.produced == s.produced
    ensures t.stream == [] && t.owed == t.leaf.permits && !t.leaf.holding && !t.leaf.stopped
  {
    fs, t := Renew(c, es, s);
    fs, t := StreamOne(c, fs, t);
    fs, t := TakeOne(c, fs, t);
  }

  lemma CommitHeld(c: Config, es: seq<Event>, s: State, d: Raw) returns (fs: seq<Event>, t: State)
    requires c.Valid() && Runs(c, INIT, es, s) && s.relay == Commit(d)
    ensures Runs(c, INIT, fs, t) && Skipped(fs) == Skipped(es) && LeftAlone(es, fs) && SameDemand(s, t)
    ensures t.relay.Check? && !t.inputs && t.produced == Max(s.produced, d.seg + 1)
    ensures t.leaf == s.leaf && t.stream == s.stream && t.owed == s.owed
  {
    InvRuns(c, INIT, es, s);
    fs, t := Do(c, es, s, RelayStep);
    assert t == CommitNext(s, d);
  }

  lemma PassCheck(c: Config, es: seq<Event>, s: State) returns (fs: seq<Event>, t: State)
    requires c.Valid() && Runs(c, INIT, es, s) && s.relay.Check? && s.produced <= Room(c, s)
    ensures Runs(c, INIT, fs, t) && Skipped(fs) == Skipped(es) && LeftAlone(es, fs) && t == s.(relay := Recv)
  {
    fs, t := Do(c, es, s, RelayStep);
  }

  lemma CommitOne(c: Config, es: seq<Event>, s: State) returns (fs: seq<Event>, t: State)
    requires c.Valid() && Runs(c, INIT, es, s) && AtStream(c, s)
    requires s.leaf.seg == s.produced < c.leaf.LastSeg() && s.produced < Room(c, s)
    ensures Runs(c, INIT, fs, t) && Skipped(fs) == Skipped(es) && LeftAlone(es, fs) && SameDemand(s, t)
    ensures AtStream(c, t) && t.leaf.seg == t.produced == s.produced + 1
  {
    fs, t := FetchOne(c, es, s);
    fs, t := CommitHeld(c, fs, t, SegmentOf(c.leaf, s.leaf.seg));
    fs, t := PassCheck(c, fs, t);
  }

  lemma {:induction false} CommitMany(c: Config, es: seq<Event>, s: State, n: nat) returns (fs: seq<Event>, t: State)
    requires c.Valid() && Runs(c, INIT, es, s) && AtStream(c, s)
    requires s.leaf.seg == s.produced <= n <= c.leaf.LastSeg() && n <= Room(c, s)
    ensures Runs(c, INIT, fs, t) && Skipped(fs) == Skipped(es) && LeftAlone(es, fs) && SameDemand(s, t)
    ensures AtStream(c, t) && t.leaf.seg == t.produced == n
    decreases n - s.produced
  {
    fs, t := es, s;
    if s.produced < n {
      fs, t := CommitOne(c, fs, t);
      fs, t := CommitMany(c, fs, t, n);
    }
  }

  /** A first demand brings the relay to the stream. */
  lemma FirstDemand(c: Config, k: nat) returns (es: seq<Event>, s: State)
    requires c.Valid() && k < U64
    ensures Runs(c, INIT, es, s) && Skipped(es) == 0 && LeftAlone([Interest(k)], es)
    ensures AtStream(c, s) && s.leaf.seg == s.produced == 0
    ensures s.front == k && s.handlers == [Handler(k, Compare)]
  {
    es, s := Do(c, [], INIT, Interest(k));
    es, s := Do(c, es, s, HandlerStep(0));
    es, s := Do(c, es, s, HandlerStep(0));
    es, s := Do(c, es, s, HandlerStep(0));
    es, s := Do(c, es, s, RelayStep);
    es, s := Do(c, es, s, RelayStep);
  }

  /** The signature over the next segment fails and the relay goes on to wait for the one after. */
  lemma SkipOne(c: Config, es: seq<Event>, s: State) returns (fs: seq<Event>, t: State)
    requires c.Valid() && Runs(c, INIT, es, s) && AtStream(c, s)
    requires s.leaf.seg < c.leaf.LastSeg() && s.produced <= Room(c, s)
    ensures Runs(c, INIT, fs, t) && Skipped(fs) == Skipped(es) + 1 && SameDemand(s, t)
    ensures AtStream(c, t) && t.leaf.seg == s.leaf.seg + 1 && t.produced == s.produced
  {
    fs, t := FetchOne(c, es, s);
    fs, t := Do(c, fs, t, SignFails);
    fs, t := PassCheck(c, fs, t);
  }

  /** On every file of at least two segments more than the lookahead a single failed signature is enough: the
    * relay commits a full lookahead, cannot sign the segment behind it, and commits the one after that.  So the
    * term for skipped segments in the bound cannot be dropped. */
  lemma LeadOverrunsAfterSignFailure(c: Config) returns (es: seq<Event>, t: State)
    requires c.Valid() && c.leaf.LastSeg() > Max(c.requestedLookahead, 1)
    ensures Runs(c, INIT, es, t) && Skipped(es) == 1
    ensures t.produced == t.front + Max(c.requestedLookahead, 1) + 2
  {
    es, t := FirstDemand(c, 0);
    es, t := CommitMany(c, es, t, c.Lookahead());
    es, t := SkipOne(c, es, t);
    var seg := t.leaf.seg;
    es, t := FetchOne(c, es, t);
    es, t := CommitHeld(c, es, t, SegmentOf(c.leaf, seg));
  }

  /** Whether losses and failed signatures can carry the relay past its bound depends on the file's size only:
    * they can if and only if the object has more segments than lookahead and one. */
  lemma LeadOverrunsExactly(c: Config)
    requires c.Valid()
    ensures CanOverrun(c) <==> c.leaf.LastSeg() > Max(c.requestedLookahead, 1)
  {
    if c.leaf.LastSeg() > c.Lookahead() {
      var es, t := LeadOverrunsAfterSignFailure(c);
      assert !LeadBounded(c, t);
    } else {
      forall es, t | Runs(c, INIT, es, t) ensures LeadBounded(c, t) {
        InvRuns(c, INIT, es, t);
        IncreasingFits(Floor(t), t.stream, t.leaf.seg);
      }
    }
  }

  // --------------------------------------------- a demand at the end of the word

  /** Whatever is cached or has been answered has been passed by the relay. */
  ghost predicate OnlyPassed(s: State) {
    && (forall k :: k in s.cs ==> k < s.produced)
    && (forall i :: 0 <= i < |s.answered| ==> s.answered[i].seg < s.produced)
  }

  lemma OnlyPassedRelay(c: Config, s: State)
    requires c.Valid() && OnlyPassed(s) && RelayReady(c, s)
    ensures OnlyPassed(RelayNext(c, s))
  {
  }

  lemma OnlyPassedRefetch(c: Config, s: State, i: nat)
    requires c.Valid() && OnlyPassed(s) && i < |s.refetches| && GoodRefetch(c, s.produced, s.refetches[i])
    ensures OnlyPassed(RefetchNext(c, s, i))
  {
  }

  lemma OnlyPassedStep(c: Config, s: State, e: Event)
    requires c.Valid() && Inv(c, s) && OnlyPassed(s) && Enabled(c, s, e)
    ensures OnlyPassed(Next(c, s, e))
  {
    match e
    case HandlerStep(i) => HandlerFrame(s, i);
    case RefetchStep(i) => OnlyPassedRefetch(c, s, i);
    case RelayStep => OnlyPassedRelay(c, s);
    case LeafStep => LeafFrame(c, s);
    case Interest(k) => InterestFrame(s, k);
    case _ => OutsideFrame(c, s, e);
  }

  lemma {:induction false} OnlyPassedRuns(c: Config, s: State, es: seq<Event>, t: State)
    requires c.Valid() && Inv(c, s) && OnlyPassed(s) && Runs(c, s, es, t)
    ensures OnlyPassed(t)
    decreases |es|
  {
    if es != [] {
      OnlyPassedStep(c, s, es[0]);
      InvStep(c, s, es[0]);
      OnlyPassedRuns(c, Next(c, s, es[0]), es[1..], t);
    }
  }

  /** Segment `k` is the highest demand so far, and the relay is past what its pacing sum allows but not through
    * with the file. */
  ghost predicate Stalled(c: Config, s: State, k: nat)
    requires c.Valid()
  {
    && s.front == k && (forall i :: 0 <= i < |s.handlers| ==> s.handlers[i].seg <= k)
    && Room(c, s) < s.produced <= c.leaf.LastSeg()
    && (s.relay.Check? || s.relay.Wait? || s.relay.Cancelled?)
    && OnlyPassed(s)
  }

  /** The answers given between two states are for segments below `bound`. */
  ghost predicate AnswersBelow(s: State, t: State, bound: nat) {
    s.answered <= t.answered && forall i :: |s.answered| <= i < |t.answered| ==> t.answered[i].seg < bound
  }

  /** No event demands a segment beyond `k`. */
  predicate DemandsUpTo(e: Event, k: nat) {
    e.Interest? ==> e.k <= k
  }

  lemma StalledAnswers(c: Config, s: State, k: nat, e: Event)
    requires c.Valid() && Inv(c, s) && Stalled(c, s, k) && Enabled(c, s, e)
    ensures AnswersBelow(s, Next(c, s, e), s.produced)
  {
    match e
    case HandlerStep(i) => HandlerFrame(s, i);
    case RefetchStep(i) => assert GoodRefetch(c, s.produced, s.refetches[i]);
    case RelayStep =>
    case LeafStep => LeafFrame(c, s);
    case Interest(_) =>
    case _ => OutsideFrame(c, s, e);
  }

  lemma StalledRelay(c: Config, s: State, e: Event)
    requires c.Valid() && Enabled(c, s, e) && !s.inputs && (s.relay.Check? || s.relay.Wait? || s.relay.Cancelled?)
    requires Room(c, s) < s.produced <= c.leaf.LastSeg()
    ensures var t := Next(c, s, e);
      && t.produced == s.produced && !t.inputs
      && (t.relay.Check? || t.relay.Wait? || t.relay.Cancelled?)
  {
    match e
    case HandlerStep(i) => HandlerFrame(s, i);
    case RefetchStep(i) => RefetchFrame(c, s, i);
    case RelayStep =>
    case LeafStep => LeafFrame(c, s);
    case Interest(k) => InterestFrame(s, k);
    case _ => OutsideStalled(c, s, e);
  }

  lemma OutsideStalled(c: Config, s: State, e: Event)
    requires c.Valid() && Outside(e) && Enabled(c, s, e) && (s.relay.Check? || s.relay.Wait? || s.relay.Cancelled?)
    ensures var t := OutsideNext(c, s, e);
      t.produced == s.produced && t.inputs == s.inputs && (t.relay == s.relay || t.relay.Cancelled?)
  {
  }

  lemma StalledStep(c: Config, s: State, k: nat, e: Event)
    requires c.Valid() && Inv(c, s) && Stalled(c, s, k) && Enabled(c, s, e) && DemandsUpTo(e, k)
    ensures Stalled(c, Next(c, s, e), k) && Next(c, s, e).produced == s.produced
    ensures AnswersBelow(s, Next(c, s, e), s.produced)
  {
    HandlersKept(c, s, e);
    FrontMoves(c, s, e);
    StalledRelay(c, s, e);
    StalledAnswers(c, s, k, e);
    OnlyPassedStep(c, s, e);
  }

  /** Once stalled, and until a higher demand comes, the relay commits nothing and no consumer gets a segment that
    * it has not passed, whatever else happens; no demand is higher than the greatest segment number. */
  lemma {:induction false} StalledUntilHigherDemand(c: Config, s: State, k: nat, es: seq<Event>, t: State)
    requires c.Valid() && Inv(c, s) && Stalled(c, s, k) && Runs(c, s, es, t)
    requires k == U64 - 1 || forall e :: e in es ==> DemandsUpTo(e, k)
    ensures Stalled(c, t, k) && t.produced == s.produced && AnswersBelow(s, t, s.produced)
    decreases |es|
  {
    if es != [] {
      assert es[0] in es;
      StalledStep(c, s, k, es[0]);
      InvStep(c, s, es[0]);
      StalledUntilHigherDemand(c, Next(c, s, es[0]), k, es[1..], t);
    }
  }

  /** A run up to the point that the wrapped sum allows. */
  lemma UpToTheWrap(c: Config, k: nat) returns (es: seq<Event>, s: State)
    requires c.Valid() && k < U64 && !Fits(c, k)
    ensures Runs(c, INIT, es, s) && LeftAlone([Interest(k)], es) && AtStream(c, s)
    ensures s.front == k && s.handlers == [Handler(k, Compare)]
    ensures s.leaf.seg == s.produced == Room(c, s)
  {
    es, s := FirstDemand(c, k);
    es, s := CommitMany(c, es, s, (k + c.Lookahead()) % U64);
  }

  /** The handler does not compare a demand with the file: every demand that does not fit stalls the relay before
    * the end of the file, in a run in which nothing else is demanded and nothing goes wrong. */
  lemma WrappingDemandStalls(c: Config, k: nat) returns (es: seq<Event>, s: State)
    requires c.Valid() && k < U64 && !Fits(c, k)
    ensures Runs(c, INIT, es, s) && LeftAlone([Interest(k)], es) && Stalled(c, s, k)
  {
    es, s := UpToTheWrap(c, k);
    var seg := s.leaf.seg;
    es, s := FetchOne(c, es, s);
    es, s := CommitHeld(c, es, s, SegmentOf(c.leaf, seg));
    OnlyPassedRuns(c, INIT, es, s);
  }

  // ----------------------------------------------------------------- content

  /** End to end: over every run, everything cached, published or answered under public segment `k`
    * carries the leaf's segment `k`. */
  lemma ContentIsTheLeafs(c: Config, s: State)
    requires c.Valid() && Reachable(c, s)
    ensures forall k :: k in s.cs ==> k < |c.leaf.segments| && s.cs[k] == c.leaf.segments[k]
    ensures forall d ::
      d in s.published + s.answered ==> d.seg < |c.leaf.segments| && d.content == c.leaf.segments[d.seg]
  {
    InvReachable(c, s);
    assert forall k :: k in s.cs ==> GoodData(c, Data(k, s.cs[k]));
    assert forall d :: d in s.published + s.answered ==> GoodData(c, d);
  }

  /** One answer for each segment, in segment order. */
  ghost predicate CompleteFetch(c: Config, s: State, parts: seq<Data>)
    requires c.Valid()
  {
    && |parts| == |c.leaf.segments|
    && forall k :: 0 <= k < |parts| ==> parts[k] in s.answered && parts[k].seg == k
  }

  function Contents(parts: seq<Data>): seq<Bytes> {
    seq(|parts|, k requires 0 <= k < |parts| => parts[k].content)
  }

  /** Any complete fetch, assembled from answers of any age, is the file the leaf holds. */
  lemma FetchReassembles(c: Config, s: State, file: Bytes, chunk: nat, parts: seq<Data>)
    requires c.Valid() && Reachable(c, s)
    requires chunk > 0 && c.leaf.segments == Chunks(file, chunk)
    requires CompleteFetch(c, s, parts)
    ensures Flatten(Contents(parts)) == file
  {
    ContentIsTheLeafs(c, s);
    assert Contents(parts) == c.leaf.segments by {
      forall k | 0 <= k < |parts| ensures parts[k].content == c.leaf.segments[k] {
        assert parts[k] in s.published + s.answered;
      }
    }
    ChunksFlatten(file, chunk);
  }
}
