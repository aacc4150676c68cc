/** What every step of the relay protocol keeps, whatever is lost, evicted, retried or cancelled. */
module RelaySafety {
  import opened Basics
  import opened RdrObject
  import opened RelayProtocol
  import CS = ContentStream

  // ---------------------------------------------------------------- content

  ghost predicate GoodRaw(c: Config, d: Raw)
    requires c.Valid()
  {
    d.seg < |c.leaf.segments| && d == SegmentOf(c.leaf, d.seg)
  }

  ghost predicate GoodData(c: Config, d: Data)
    requires c.Valid()
  {
    d.seg < |c.leaf.segments| && d.content == c.leaf.segments[d.seg]
  }

  ghost predicate GoodStream(c: Config, stream: seq<Raw>)
    requires c.Valid()
  {
    forall i :: 0 <= i < |stream| ==> GoodRaw(c, stream[i])
  }

  ghost predicate GoodStore(c: Config, cs: map<nat, Bytes>)
    requires c.Valid()
  {
    forall k :: k in cs ==> GoodData(c, Data(k, cs[k]))
  }

  ghost predicate GoodLog(c: Config, log: seq<Data>)
    requires c.Valid()
  {
    forall i :: 0 <= i < |log| ==> GoodData(c, log[i])
  }

  /** A re-fetch is for a segment the relay has passed, asks the leaf, and holds the leaf's content. */
  ghost predicate GoodRefetch(c: Config, produced: nat, r: Refetch)
    requires c.Valid()
  {
    && r.seg < produced
    && (r.pc.Fetching? ==> r.pc.prefix == c.leaf.prefix)
    && (r.pc.Fetched? ==> GoodData(c, Data(r.seg, r.pc.content)))
  }

  ghost predicate GoodRefetches(c: Config, produced: nat, refetches: seq<Refetch>)
    requires c.Valid()
  {
    forall i :: 0 <= i < |refetches| ==> GoodRefetch(c, produced, refetches[i])
  }

  /** The raw segment the relay is working on. */
  function InHand(relay: RelayPc): Option<Raw> {
    match relay
    case Learn(d) => Some(d)
    case Commit(d) => Some(d)
    case _ => None
  }

  /** Whatever is on the seam, in a task's hands, cached, published or answered is the leaf's. */
  ghost predicate Content(c: Config, s: State)
    requires c.Valid()
  {
    && GoodStream(c, s.stream)
    && (InHand(s.relay).Some? ==> GoodRaw(c, InHand(s.relay).value))
    && GoodRefetches(c, s.produced, s.refetches)
    && GoodStore(c, s.cs)
    && GoodLog(c, s.published)
    && GoodLog(c, s.answered)
  }

  // ------------------------------------------------------------------ order

  /** Segment numbers increase along `stream` and lie in `lo..hi`. */
  ghost predicate Increasing(lo: nat, stream: seq<Raw>, hi: nat) {
    && lo <= hi
    && (forall i :: 0 <= i < |stream| ==> lo <= stream[i].seg < hi)
    && forall i, j :: 0 <= i < j < |stream| ==> stream[i].seg < stream[j].seg
  }

  /** The least segment number the leaf's stream can still deliver; an echo of an old segment in hand does not
    * raise it. */
  function Floor(s: State): nat {
    match InHand(s.relay)
    case Some(d) => Max(s.produced, d.seg + 1)
    case None => s.produced
  }

  /** The seam keeps the leaf's order: what is committed or in hand, the segments on the seam and the leaf's
    * next segment come in increasing order. */
  ghost predicate Ordered(c: Config, s: State)
    requires c.Valid()
  {
    CS.Conserved(c.leaf, s.leaf) && Increasing(Floor(s), s.stream, s.leaf.seg)
  }

  // ---------------------------------------------------------------- control

  /** The prefix is learned before the first segment is committed. */
  ghost predicate Learned(c: Config, s: State)
    requires c.Valid()
  {
    && (s.source.Some? ==> s.source.value == c.leaf.prefix)
    && (s.produced > 0 || s.relay.Commit? ==> s.source.Some?)
  }

  /** Some handler has raised the front and not yet notified. */
  ghost predicate Notifying(handlers: seq<Handler>) {
    exists i :: 0 <= i < |handlers| && handlers[i].pc.Notify?
  }

  /** A relay that sleeps with no notification on its way is rightly paused. */
  ghost predicate NoLostWakeup(c: Config, s: State)
    requires c.Valid()
  {
    s.relay.Wait? && !s.permit && !Notifying(s.handlers) ==> Blocked(c, s)
  }

  /** A handler past a point has done what comes before that point. */
  ghost predicate Progressed(front: nat, produced: nat, inputs: bool, h: Handler) {
    && (!h.pc.Raise? ==> h.seg <= front)
    && (!h.pc.Raise? && !h.pc.Notify? && !h.pc.Start? ==> !inputs)
    && (h.pc.ReadSource? ==> h.seg < produced)
  }

  ghost predicate AllProgressed(front: nat, produced: nat, inputs: bool, handlers: seq<Handler>) {
    forall i :: 0 <= i < |handlers| ==> Progressed(front, produced, inputs, handlers[i])
  }

  ghost predicate HasHandler(handlers: seq<Handler>, k: nat) {
    exists i :: 0 <= i < |handlers| && handlers[i].seg == k
  }

  /** The inputs are taken once, by the handler that starts the relay; every Interest that waits has
    * gone through a handler. */
  ghost predicate Control(c: Config, s: State)
    requires c.Valid()
  {
    && (s.inputs <==> s.relay.Idle?)
    && AllProgressed(s.front, s.produced, s.inputs, s.handlers)
    && forall k :: k in s.pending ==> HasHandler(s.handlers, k)
  }

  ghost predicate Inv(c: Config, s: State)
    requires c.Valid()
  {
    Content(c, s) && Ordered(c, s) && Learned(c, s) && NoLostWakeup(c, s) && Control(c, s)
  }

  // ----------------------------------------------------- what a step touches

  lemma HandlerFrame(s: State, i: nat)
    requires i < |s.handlers|
    ensures var t := HandlerNext(s, i);
      && t == s.(front := t.front, permit := t.permit, inputs := t.inputs, relay := t.relay,
                 handlers := t.handlers, refetches := t.refetches)
      && s.front <= t.front && (t.inputs ==> s.inputs)
      && ((t.relay == s.relay && t.inputs == s.inputs) || (s.inputs && !t.inputs && t.relay.Subscribing?))
  {
  }

  lemma RefetchFrame(c: Config, s: State, i: nat)
    requires c.Valid() && i < |s.refetches|
    ensures var t := RefetchNext(c, s, i);
      t == s.(cs := t.cs, pending := t.pending, published := t.published, answered := t.answered,
              refetches := t.refetches)
  {
  }

  lemma InterestFrame(s: State, k: nat)
    ensures var t := InterestNext(s, k);
      t == s.(answered := t.answered, pending := t.pending, handlers := t.handlers)
  {
  }

  lemma OutsideFrame(c: Config, s: State, e: Event)
    requires c.Valid() && Outside(e) && Enabled(c, s, e)
    ensures var t := OutsideNext(c, s, e);
      && t == s.(relay := t.relay, owed := t.owed, refetches := t.refetches, leaf := t.leaf, stream := t.stream,
                 cs := t.cs, pending := t.pending)
      && (t.relay.Idle? <==> s.relay.Idle?) && (t.relay.Wait? <==> s.relay.Wait? && !e.Cancel?)
  {
  }

  lemma RelayFrame(c: Config, s: State)
    requires c.Valid() && RelayReady(c, s)
    ensures var t := RelayNext(c, s);
      && t == s.(produced := t.produced, permit := t.permit, source := t.source, relay := t.relay, owed := t.owed,
                 leaf := t.leaf, stream := t.stream, cs := t.cs, pending := t.pending,
                 published := t.published, answered := t.answered)
      && !t.relay.Idle? && s.produced <= t.produced
  {
  }

  lemma LeafFrame(c: Config, s: State)
    requires c.Valid() && LeafReady(c, s)
    ensures var t := LeafNext(c, s); t == s.(leaf := t.leaf, stream := t.stream)
  {
  }

  lemma LeafSends(c: Config, s: State)
    requires c.Valid() && CS.Conserved(c.leaf, s.leaf) && LeafReady(c, s)
    ensures var t := LeafNext(c, s);
      && CS.Conserved(c.leaf, t.leaf)
      && t == s.(leaf := t.leaf, stream := t.stream)
      && if s.leaf.holding then
           t.stream == s.stream + [SegmentOf(c.leaf, s.leaf.seg)] && t.leaf.seg == s.leaf.seg + 1
         else t.stream == s.stream && t.leaf.seg == s.leaf.seg
  {
    CS.ConservedStep(c.leaf, s.leaf, LeafAction(c, s));
    var t := LeafNext(c, s);
    if s.leaf.holding {
      assert t.leaf.sent[|s.leaf.sent|..] == [SegmentOf(c.leaf, s.leaf.seg)];
    } else {
      assert t.leaf.sent[|s.leaf.sent|..] == [];
    }
  }

  // ------------------------------------------------------------ preservation

  lemma ContentHandler(c: Config, s: State, i: nat)
    requires c.Valid() && Inv(c, s) && Enabled(c, s, HandlerStep(i))
    ensures Content(c, HandlerNext(s, i))
  {
    var t := HandlerNext(s, i);
    HandlerFrame(s, i);
    assert Progressed(s.front, s.produced, s.inputs, s.handlers[i]);
    assert GoodRefetches(c, t.produced, t.refetches);
  }

  lemma ContentRefetch(c: Config, s: State, i: nat)
    requires c.Valid() && Inv(c, s) && Enabled(c, s, RefetchStep(i))
    ensures Content(c, RefetchNext(c, s, i))
  {
    var t := RefetchNext(c, s, i);
    assert GoodRefetch(c, s.produced, s.refetches[i]);
    assert GoodRefetches(c, t.produced, t.refetches);
  }

  lemma ContentCommit(c: Config, s: State, d: Raw)
    requires c.Valid() && Content(c, s) && s.relay == Commit(d)
    ensures Content(c, CommitNext(s, d))
  {
    var t := CommitNext(s, d);
    assert GoodRefetches(c, t.produced, t.refetches) by {
      assert forall i :: 0 <= i < |s.refetches| ==> GoodRefetch(c, s.produced, s.refetches[i]);
    }
    assert GoodLog(c, t.published);
  }

  lemma ContentRelay(c: Config, s: State)
    requires c.Valid() && Content(c, s) && RelayReady(c, s)
    ensures Content(c, RelayNext(c, s))
  {
    match s.relay
    case Commit(d) => ContentCommit(c, s, d);
    case _ =>
  }

  lemma ContentOutside(c: Config, s: State, e: Event)
    requires c.Valid() && Content(c, s) && Outside(e) && Enabled(c, s, e)
    ensures Content(c, OutsideNext(c, s, e))
  {
    if e.RefetchFails? {
      assert GoodRefetch(c, s.produced, s.refetches[e.i]);
    }
  }

  lemma ContentStep(c: Config, s: State, e: Event)
    requires c.Valid() && Inv(c, s) && Enabled(c, s, e)
    ensures Content(c, Next(c, s, e))
  {
    match e
    case HandlerStep(i) => ContentHandler(c, s, i);
    case RefetchStep(i) => ContentRefetch(c, s, i);
    case RelayStep => ContentRelay(c, s);
    case LeafStep => ContentLeaf(c, s);
    case Interest(k) => ContentInterest(c, s, k);
    case _ => ContentOutside(c, s, e);
  }

  lemma ContentLeaf(c: Config, s: State)
    requires c.Valid() && Content(c, s) && Ordered(c, s) && LeafReady(c, s)
    ensures Content(c, LeafNext(c, s))
  {
    LeafSends(c, s);
  }

  lemma ContentInterest(c: Config, s: State, k: nat)
    requires c.Valid() && Content(c, s)
    ensures Content(c, InterestNext(s, k))
  {
    InterestFrame(s, k);
  }

  lemma OrderedRelay(c: Config, s: State)
    requires c.Valid() && Ordered(c, s) && RelayReady(c, s)
    ensures Ordered(c, RelayNext(c, s))
  {
    match s.relay
    case Recv => OrderedRecv(c, s);
    case Commit(d) =>
      assert Floor(CommitNext(s, d)) == Floor(s);
    case _ =>
  }

  lemma OrderedRecv(c: Config, s: State)
    requires c.Valid() && Ordered(c, s) && s.relay.Recv?
    ensures Ordered(c, RecvNext(c, s))
  {
    var t := RecvNext(c, s);
    if s.stream != [] {
      assert forall i :: 0 <= i < |t.stream| ==> t.stream[i] == s.stream[i + 1];
    }
  }

  lemma OrderedLoss(lo: nat, stream: seq<Raw>, hi: nat, i: nat)
    requires Increasing(lo, stream, hi) && i < |stream|
    ensures Increasing(lo, stream[..i] + stream[i + 1..], hi)
  {
  }

  /** The steps that leave a hole in what the relay commits. */
  predicate Skips(e: Event) {
    e.Lose? || e.SignFails?
  }

  lemma SeamUntouched(c: Config, s: State, e: Event)
    requires c.Valid() && Outside(e) && Enabled(c, s, e)
    requires !e.LeafFails? && !e.Echo? && !Skips(e)
    ensures var t := OutsideNext(c, s, e);
      t.leaf == s.leaf && t.stream == s.stream && InHand(t.relay) == InHand(s.relay) && t.produced == s.produced
  {
  }

  lemma OrderedOutside(c: Config, s: State, e: Event)
    requires c.Valid() && Ordered(c, s) && Outside(e) && Enabled(c, s, e)
    ensures Ordered(c, OutsideNext(c, s, e))
  {
    match e
    case LeafFails => CS.ConservedStep(c.leaf, s.leaf, CS.Fail);
    case Lose(i) => OrderedLoss(Floor(s), s.stream, s.leaf.seg, i);
    case SignFails =>
    case Echo(k) => assert Floor(OutsideNext(c, s, e)) == Floor(s);
    case _ => SeamUntouched(c, s, e);
  }

  lemma OrderedLeaf(c: Config, s: State)
    requires c.Valid() && Ordered(c, s) && LeafReady(c, s)
    ensures Ordered(c, LeafNext(c, s))
  {
    LeafSends(c, s);
  }

  lemma OrderedStep(c: Config, s: State, e: Event)
    requires c.Valid() && Inv(c, s) && Enabled(c, s, e)
    ensures Ordered(c, Next(c, s, e))
  {
    match e
    case HandlerStep(i) => HandlerFrame(s, i);
    case RefetchStep(i) => RefetchFrame(c, s, i);
    case RelayStep => OrderedRelay(c, s);
    case LeafStep => OrderedLeaf(c, s);
    case Interest(k) => InterestFrame(s, k);
    case _ => OrderedOutside(c, s, e);
  }

  lemma LearnedOutside(c: Config, s: State, e: Event)
    requires c.Valid() && Learned(c, s) && Outside(e) && Enabled(c, s, e)
    ensures Learned(c, OutsideNext(c, s, e))
  {
  }

  lemma LearnedRelay(c: Config, s: State)
    requires c.Valid() && Content(c, s) && Learned(c, s) && RelayReady(c, s)
    ensures Learned(c, RelayNext(c, s))
  {
  }

  /** A positive `produced` means that the leaf's prefix has been learned. */
  lemma LearnedStep(c: Config, s: State, e: Event)
    requires c.Valid() && Inv(c, s) && Enabled(c, s, e)
    ensures Learned(c, Next(c, s, e))
  {
    match e
    case HandlerStep(i) => HandlerFrame(s, i);
    case RefetchStep(i) => RefetchFrame(c, s, i);
    case RelayStep => LearnedRelay(c, s);
    case LeafStep => LeafFrame(c, s);
    case Interest(k) => InterestFrame(s, k);
    case _ => LearnedOutside(c, s, e);
  }

  /** A handler that is about to notify still is after another actor's step. */
  lemma StillNotifying(before: seq<Handler>, after: seq<Handler>)
    requires Notifying(before) && |before| <= |after|
    requires forall i :: 0 <= i < |before| && before[i].pc.Notify? ==> after[i] == before[i]
    ensures Notifying(after)
  {
    var i :| 0 <= i < |before| && before[i].pc.Notify?;
    assert after[i].pc.Notify?;
  }

  lemma WakeupHandler(c: Config, s: State, i: nat)
    requires c.Valid() && Inv(c, s) && Enabled(c, s, HandlerStep(i))
    ensures NoLostWakeup(c, HandlerNext(s, i))
  {
    var t := HandlerNext(s, i);
    HandlerFrame(s, i);
    match s.handlers[i].pc
    case Raise => assert t.handlers[i].pc.Notify?;
    case Notify =>
    case _ =>
      if Notifying(s.handlers) {
        StillNotifying(s.handlers, t.handlers);
      }
  }

  lemma WakeupRelay(c: Config, s: State)
    requires c.Valid() && NoLostWakeup(c, s) && RelayReady(c, s)
    ensures NoLostWakeup(c, RelayNext(c, s))
  {
  }

  lemma WakeupInterest(c: Config, s: State, k: nat)
    requires c.Valid() && NoLostWakeup(c, s)
    ensures NoLostWakeup(c, InterestNext(s, k))
  {
    InterestFrame(s, k);
    if Notifying(s.handlers) {
      StillNotifying(s.handlers, InterestNext(s, k).handlers);
    }
  }

  /** A relay that goes to sleep, or sleeps on, without a notification on its way is rightly paused. */
  lemma NoLostWakeupStep(c: Config, s: State, e: Event)
    requires c.Valid() && Inv(c, s) && Enabled(c, s, e)
    ensures NoLostWakeup(c, Next(c, s, e))
  {
    match e
    case HandlerStep(i) => WakeupHandler(c, s, i);
    case RefetchStep(i) => RefetchFrame(c, s, i);
    case RelayStep => WakeupRelay(c, s);
    case LeafStep => LeafFrame(c, s);
    case Interest(k) => WakeupInterest(c, s, k);
    case _ => OutsideFrame(c, s, e);
  }

  /** Handlers are never removed, keep their segment, and only the stepping one moves. */
  lemma HandlersKept(c: Config, s: State, e: Event)
    requires c.Valid() && Enabled(c, s, e)
    ensures var t := Next(c, s, e);
      match e
      case HandlerStep(i) =>
        && |t.handlers| == |s.handlers|
        && t.handlers == s.handlers[i := t.handlers[i]]
        && t.handlers[i].seg == s.handlers[i].seg
      case Interest(k) => s.handlers <= t.handlers <= s.handlers + [Handler(k, Raise)]
      case _ => t.handlers == s.handlers
  {
    match e
    case HandlerStep(i) => HandlerMoved(s, i);
    case RefetchStep(i) => RefetchFrame(c, s, i);
    case RelayStep => RelayFrame(c, s);
    case LeafStep => LeafFrame(c, s);
    case Interest(k) =>
    case _ => OutsideFrame(c, s, e);
  }

  lemma HandlerMoved(s: State, i: nat)
    requires i < |s.handlers|
    ensures var t := HandlerNext(s, i);
      && |t.handlers| == |s.handlers| && t.handlers == s.handlers[i := t.handlers[i]]
      && t.handlers[i].seg == s.handlers[i].seg
  {
    match s.handlers[i].pc
    case Raise =>
    case Notify =>
    case Start =>
    case Compare =>
    case ReadSource =>
    case Finished =>
  }

  /** The shared counters only grow, and the inputs are never put back. */
  lemma StepMonotone(c: Config, s: State, e: Event)
    requires c.Valid() && Enabled(c, s, e)
    ensures var t := Next(c, s, e);
      && s.front <= t.front && s.produced <= t.produced && (t.inputs ==> s.inputs)
      && ((s.inputs <==> s.relay.Idle?) ==> (t.inputs <==> t.relay.Idle?))
  {
    match e
    case HandlerStep(i) => HandlerFrame(s, i);
    case RefetchStep(i) => RefetchFrame(c, s, i);
    case RelayStep => RelayFrame(c, s);
    case LeafStep => LeafFrame(c, s);
    case Interest(k) => InterestFrame(s, k);
    case _ => OutsideFrame(c, s, e);
  }

  lemma NothingNewPending(c: Config, s: State, e: Event, k: nat)
    requires c.Valid() && Enabled(c, s, e)
    requires k in Next(c, s, e).pending && k !in s.pending
    ensures e == Interest(k) && k !in s.cs
  {
    match e
    case HandlerStep(i) => HandlerFrame(s, i);
    case RefetchStep(i) =>
    case RelayStep =>
    case LeafStep => LeafFrame(c, s);
    case Interest(_) =>
    case _ =>
  }

  lemma PendingHandled(c: Config, s: State, e: Event, k: nat)
    requires c.Valid() && Inv(c, s) && Enabled(c, s, e) && k in Next(c, s, e).pending
    ensures HasHandler(Next(c, s, e).handlers, k)
  {
    HandlersKept(c, s, e);
    var t := Next(c, s, e);
    if k in s.pending {
      var i :| 0 <= i < |s.handlers| && s.handlers[i].seg == k;
      assert t.handlers[i].seg == k;
    } else {
      NothingNewPending(c, s, e, k);
      assert t.handlers[|s.handlers|].seg == k;
    }
  }

  lemma HandlerProgresses(c: Config, s: State, e: Event, i: nat)
    requires c.Valid() && Inv(c, s) && Enabled(c, s, e) && i < |Next(c, s, e).handlers|
    ensures var t := Next(c, s, e); Progressed(t.front, t.produced, t.inputs, t.handlers[i])
  {
    HandlersKept(c, s, e);
    StepMonotone(c, s, e);
    if i < |s.handlers| {
      assert Progressed(s.front, s.produced, s.inputs, s.handlers[i]);
      if e == HandlerStep(i) {
        HandlerMoves(c, s, i);
      } else {
        assert Next(c, s, e).handlers[i] == s.handlers[i];
      }
    }
  }

  lemma HandlerMoves(c: Config, s: State, i: nat)
    requires c.Valid() && Inv(c, s) && Enabled(c, s, HandlerStep(i))
    ensures var t := HandlerNext(s, i); Progressed(t.front, t.produced, t.inputs, t.handlers[i])
  {
    assert Progressed(s.front, s.produced, s.inputs, s.handlers[i]);
  }

  lemma ControlStep(c: Config, s: State, e: Event)
    requires c.Valid() && Inv(c, s) && Enabled(c, s, e)
    ensures Control(c, Next(c, s, e))
  {
    var t := Next(c, s, e);
    StepMonotone(c, s, e);
    forall k | k in t.pending ensures HasHandler(t.handlers, k) {
      PendingHandled(c, s, e, k);
    }
    forall i | 0 <= i < |t.handlers| ensures Progressed(t.front, t.produced, t.inputs, t.handlers[i]) {
      HandlerProgresses(c, s, e, i);
    }
  }

  lemma InvStep(c: Config, s: State, e: Event)
    requires c.Valid() && Inv(c, s) && Enabled(c, s, e)
    ensures Inv(c, Next(c, s, e))
  {
    ContentStep(c, s, e);
    OrderedStep(c, s, e);
    LearnedStep(c, s, e);
    NoLostWakeupStep(c, s, e);
    ControlStep(c, s, e);
  }

  lemma {:induction false} InvRuns(c: Config, s: State, es: seq<Event>, t: State)
    requires c.Valid() && Inv(c, s) && Runs(c, s, es, t)
    ensures Inv(c, t)
    decreases |es|
  {
    if es != [] {
      InvStep(c, s, es[0]);
      InvRuns(c, Next(c, s, es[0]), es[1..], t);
    }
  }

  lemma InvReachable(c: Config, s: State)
    requires c.Valid() && Reachable(c, s)
    ensures Inv(c, s)
  {
    var es :| Runs(c, INIT, es, s);
    InvRuns(c, INIT, es, s);
  }
}
