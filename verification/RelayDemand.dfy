/** Every demanded segment is served: when, and exactly when not.
  *
  * "Eventually" is made finite: the actors' own steps always run out (`WorkShrinks`), so every fair
  * run that is left alone reaches a state where no actor can move, and what holds in all such
  * states holds in the end.
  */
module RelayDemand {
  import opened Basics
  import opened RdrObject
  import opened RelayProtocol
  import opened RelaySafety
  import opened RelayResults
  import CS = ContentStream

  // ------------------------------------------------------------- remaining work

  function HandlerWork(pc: HandlerPc): nat {
    match pc
    case Raise => 12
    case Notify => 11
    case Start => 8
    case Compare => 7
    case ReadSource => 6
    case Finished => 0
  }

  function HandlersWork(handlers: seq<Handler>): nat {
    if handlers == [] then 0 else HandlerWork(handlers[0].pc) + HandlersWork(handlers[1..])
  }

  function RefetchWork(pc: RefetchPc): nat {
    match pc
    case Fetching(_) => 3
    case Fetched(_) => 2
    case Over => 0
  }

  function RefetchesWork(refetches: seq<Refetch>): nat {
    if refetches == [] then 0 else RefetchWork(refetches[0].pc) + RefetchesWork(refetches[1..])
  }

  function RelayWork(pc: RelayPc): nat {
    match pc
    case Idle => 4
    case Backoff => 4
    case Subscribing => 3
    case Check => 1
    case Wait => 0
    case Recv => 0
    case Learn(_) => 7
    case Commit(_) => 6
    case Cancelled => 0
  }

  /** Segments the leaf has not streamed and still can. */
  function Unsent(c: Config, s: State): nat
    requires c.Valid()
  {
    if s.leaf.stopped || s.leaf.seg > c.leaf.LastSeg() then 0 else c.leaf.LastSeg() + 1 - s.leaf.seg
  }

  predicate Subscribed(pc: RelayPc) {
    !pc.Idle? && !pc.Backoff? && !pc.Subscribing? && !pc.Cancelled?
  }

  /** Work to renew a used-up subscription. */
  function RenewalWork(c: Config, s: State): nat
    requires c.Valid()
  {
    (if s.owed == 0 then 1 else 0)
    + (if Subscribed(s.relay) && s.leaf.permits == 0 && Unsent(c, s) > 0 then 5 else 0)
  }

  function StreamWork(c: Config, s: State): int
    requires c.Valid()
  {
    20 * Unsent(c, s) - (if s.leaf.holding then 8 else 0) + 9 * |s.stream|
  }

  /** A bound on the number of steps the actors can still take by themselves. */
  function Work(c: Config, s: State): int
    requires c.Valid()
  {
    HandlersWork(s.handlers) + RefetchesWork(s.refetches) + RelayWork(s.relay)
    + (if s.permit then 2 else 0) + RenewalWork(c, s) + StreamWork(c, s)
  }

  lemma {:induction false} HandlersWorkUpdate(handlers: seq<Handler>, i: nat, h: Handler)
    requires i < |handlers|
    ensures HandlersWork(handlers[i := h]) == HandlersWork(handlers) - HandlerWork(handlers[i].pc) + HandlerWork(h.pc)
  {
    if i == 0 {
      assert handlers[0 := h][1..] == handlers[1..];
    } else {
      HandlersWorkUpdate(handlers[1..], i - 1, h);
      assert handlers[i := h][1..] == handlers[1..][i - 1 := h];
    }
  }

  lemma {:induction false} RefetchesWorkUpdate(refetches: seq<Refetch>, i: nat, r: Refetch)
    requires i < |refetches|
    ensures RefetchesWork(refetches[i := r])
      == RefetchesWork(refetches) - RefetchWork(refetches[i].pc) + RefetchWork(r.pc)
  {
    if i == 0 {
      assert refetches[0 := r][1..] == refetches[1..];
    } else {
      RefetchesWorkUpdate(refetches[1..], i - 1, r);
      assert refetches[i := r][1..] == refetches[1..][i - 1 := r];
    }
  }

  lemma {:induction false} RefetchesWorkSnoc(refetches: seq<Refetch>, r: Refetch)
    ensures RefetchesWork(refetches + [r]) == RefetchesWork(refetches) + RefetchWork(r.pc)
  {
    if refetches == [] {
      assert [r][1..] == [];
    } else {
      RefetchesWorkSnoc(refetches[1..], r);
      assert (refetches + [r])[1..] == refetches[1..] + [r];
    }
  }

  lemma WorkIsNatural(c: Config, s: State)
    requires c.Valid() && Ordered(c, s)
    ensures Work(c, s) >= 0
  {
  }

  /** What a handler step touches besides its own task, and at what cost. */
  lemma HandlerEffort(s: State, i: nat)
    requires (s.inputs <==> s.relay.Idle?) && i < |s.handlers| && !s.handlers[i].pc.Finished?
    ensures var t := HandlerNext(s, i);
      && t.leaf == s.leaf && t.stream == s.stream && t.owed == s.owed
      && Subscribed(t.relay) == Subscribed(s.relay)
      && |t.handlers| == |s.handlers| && t.handlers == s.handlers[i := t.handlers[i]]
      && (|| t.refetches == s.refetches
          || exists p :: t.refetches == s.refetches + [Refetch(s.handlers[i].seg, Fetching(p))])
      && HandlerWork(t.handlers[i].pc) + RelayWork(t.relay) + (if t.permit then 2 else 0)
           + (if t.refetches == s.refetches then 0 else 3)
         < HandlerWork(s.handlers[i].pc) + RelayWork(s.relay) + (if s.permit then 2 else 0)
  {
    HandlerFrame(s, i);
    HandlerMoved(s, i);
    match s.handlers[i].pc
    case Raise =>
    case Notify =>
    case Start =>
    case Compare =>
    case ReadSource =>
  }

  lemma WorkHandler(c: Config, s: State, i: nat)
    requires c.Valid() && (s.inputs <==> s.relay.Idle?) && Enabled(c, s, HandlerStep(i))
    ensures Work(c, HandlerNext(s, i)) < Work(c, s)
  {
    HandlerEffort(s, i);
    var t := HandlerNext(s, i);
    HandlersWorkUpdate(s.handlers, i, t.handlers[i]);
    if t.refetches != s.refetches {
      var p :| t.refetches == s.refetches + [Refetch(s.handlers[i].seg, Fetching(p))];
      RefetchesWorkSnoc(s.refetches, Refetch(s.handlers[i].seg, Fetching(p)));
    }
  }

  lemma RefetchMoves(c: Config, s: State, i: nat)
    requires c.Valid() && Enabled(c, s, RefetchStep(i))
    ensures var t := RefetchNext(c, s, i);
      && |t.refetches| == |s.refetches| && t.refetches == s.refetches[i := t.refetches[i]]
      && RefetchWork(t.refetches[i].pc) < RefetchWork(s.refetches[i].pc)
  {
  }

  lemma WorkRefetch(c: Config, s: State, i: nat)
    requires c.Valid() && Enabled(c, s, RefetchStep(i))
    ensures Work(c, RefetchNext(c, s, i)) < Work(c, s)
  {
    var t := RefetchNext(c, s, i);
    RefetchFrame(c, s, i);
    RefetchMoves(c, s, i);
    RefetchesWorkUpdate(s.refetches, i, t.refetches[i]);
    assert StreamWork(c, t) == StreamWork(c, s) && RenewalWork(c, t) == RenewalWork(c, s);
  }

  lemma WorkRelay(c: Config, s: State)
    requires c.Valid() && RelayReady(c, s)
    ensures Work(c, RelayNext(c, s)) < Work(c, s)
  {
    match s.relay
    case Recv => WorkRecv(c, s);
    case Subscribing => WorkSubscribe(c, s);
    case Commit(d) => WorkCommit(c, s, d);
    case Check => WorkMoves(c, s, if Blocked(c, s) then Wait else Recv, s.permit, s.source);
    case Wait => WorkMoves(c, s, Check, false, s.source);
    case Learn(d) => WorkMoves(c, s, Commit(d), s.permit, if s.source.None? then Some(d.prefix) else s.source);
    case _ =>
  }

  /** Steps that move the relay and touch nothing of the stream. */
  lemma WorkMoves(c: Config, s: State, relay: RelayPc, permit: bool, source: Option<Prefix>)
    requires c.Valid() && Subscribed(s.relay) && Subscribed(relay)
    ensures Work(c, s.(relay := relay, permit := permit, source := source)) - Work(c, s)
      == RelayWork(relay) - RelayWork(s.relay) + (if permit then 2 else 0) - (if s.permit then 2 else 0)
  {
    var t := s.(relay := relay, permit := permit, source := source);
    assert StreamWork(c, t) == StreamWork(c, s) && RenewalWork(c, t) == RenewalWork(c, s);
  }

  lemma WorkCommit(c: Config, s: State, d: Raw)
    requires c.Valid() && s.relay == Commit(d)
    ensures Work(c, CommitNext(s, d)) < Work(c, s)
  {
    assert StreamWork(c, CommitNext(s, d)) == StreamWork(c, s);
  }

  lemma WorkRecv(c: Config, s: State)
    requires c.Valid() && s.relay.Recv? && RelayReady(c, s)
    ensures Work(c, RecvNext(c, s)) < Work(c, s)
  {
  }

  lemma WorkSubscribe(c: Config, s: State)
    requires c.Valid() && s.relay.Subscribing?
    ensures Work(c, Subscribe(c, s).(relay := Check)) < Work(c, s)
  {
  }

  lemma WorkLeaf(c: Config, s: State)
    requires c.Valid() && Ordered(c, s) && LeafReady(c, s)
    ensures Work(c, LeafNext(c, s)) < Work(c, s)
  {
    LeafSends(c, s);
  }

  lemma WorkDecreases(c: Config, s: State, e: Event)
    requires c.Valid() && (s.inputs <==> s.relay.Idle?) && Ordered(c, s) && Enabled(c, s, e) && Internal(e)
    ensures Work(c, Next(c, s, e)) < Work(c, s)
  {
    match e
    case HandlerStep(i) => WorkHandler(c, s, i);
    case RefetchStep(i) => WorkRefetch(c, s, i);
    case RelayStep => WorkRelay(c, s);
    case LeafStep => WorkLeaf(c, s);
  }

  /** Each step of a handler, a re-fetch, the relay or the leaf uses up work. */
  lemma WorkShrinks(c: Config, s: State, e: Event)
    requires c.Valid() && Inv(c, s) && Enabled(c, s, e) && Internal(e)
    ensures 0 <= Work(c, Next(c, s, e)) < Work(c, s)
  {
    WorkDecreases(c, s, e);
    InvStep(c, s, e);
    WorkIsNatural(c, Next(c, s, e));
  }

  ghost predicate AllInternal(es: seq<Event>) {
    forall e :: e in es ==> Internal(e)
  }

  /** Left alone, the actors stop after at most `Work` steps, however they are scheduled. */
  lemma {:induction false} InternalRunsEnd(c: Config, s: State, es: seq<Event>, t: State)
    requires c.Valid() && Inv(c, s) && Runs(c, s, es, t) && AllInternal(es)
    ensures |es| <= Work(c, s) - Work(c, t) && Work(c, t) >= 0
    decreases |es|
  {
    WorkIsNatural(c, s);
    if es != [] {
      WorkShrinks(c, s, es[0]);
      InvStep(c, s, es[0]);
      InternalRunsEnd(c, Next(c, s, es[0]), es[1..], t);
    }
  }

  /** No actor can move. */
  ghost predicate Quiet(c: Config, s: State)
    requires c.Valid()
  {
    forall e :: Internal(e) ==> !Enabled(c, s, e)
  }

  /** A schedule that runs the actors until none can move. */
  lemma {:induction false} Settle(c: Config, s: State) returns (es: seq<Event>, t: State)
    requires c.Valid() && Inv(c, s)
    ensures Runs(c, s, es, t) && AllInternal(es) && Quiet(c, t)
    decreases Work(c, s)
  {
    if Quiet(c, s) {
      es, t := [], s;
    } else {
      var e :| Internal(e) && Enabled(c, s, e);
      InvStep(c, s, e);
      WorkShrinks(c, s, e);
      es, t := Settle(c, Next(c, s, e));
      es := [e] + es;
      assert es[1..] == es[1..];
    }
  }

  // ------------------------------------------------------------------- tracking

  ghost predicate LiveHandler(handlers: seq<Handler>, k: nat) {
    exists i :: 0 <= i < |handlers| && handlers[i].seg == k && !handlers[i].pc.Finished?
  }

  ghost predicate LiveRefetch(refetches: seq<Refetch>, k: nat) {
    exists i :: 0 <= i < |refetches| && refetches[i].seg == k && !refetches[i].pc.Over?
  }

  ghost predicate OnSeam(stream: seq<Raw>, k: nat) {
    exists i :: 0 <= i < |stream| && stream[i].seg == k
  }

  /** The relay is still going to receive segment `k` from the leaf's stream. */
  ghost predicate ToCome(c: Config, s: State, k: nat)
    requires c.Valid()
  {
    && !s.relay.Cancelled?
    && (|| (InHand(s.relay).Some? && InHand(s.relay).value.seg == k)
        || OnSeam(s.stream, k)
        || (s.leaf.seg <= k <= c.leaf.LastSeg() && !s.leaf.stopped))
  }

  /** Somebody is on the way to answering `k`. */
  ghost predicate Tracked(c: Config, s: State, k: nat)
    requires c.Valid()
  {
    || ToCome(c, s, k)
    || LiveRefetch(s.refetches, k)
    || (k < s.produced && LiveHandler(s.handlers, k))
  }

  /** Since `n` Data had been answered, a consumer has received the leaf's segment `k`. */
  ghost predicate Answered(c: Config, s: State, n: nat, k: nat)
    requires c.Valid()
  {
    k < |c.leaf.segments| && exists i :: n <= i < |s.answered| && s.answered[i] == Data(k, c.leaf.segments[k])
  }

  /** An event that takes segment `k` itself off its way to the relay's store: it is dropped on the seam, its
    * signature fails, or the leaf or the relay ends before it. */
  predicate Loses(c: Config, s: State, k: nat, e: Event)
    requires c.Valid()
  {
    match e
    case Lose(i) => i < |s.stream| && s.stream[i].seg == k
    case SignFails => InHand(s.relay).Some? && InHand(s.relay).value.seg == k
    case LeafFails => s.leaf.seg <= k
    case Cancel => s.produced <= k
    case _ => false
  }

  /** Before `k` is demanded: it is not lost unless the relay has passed it, and what is demanded fits. */
  predicate Keeps(c: Config, s: State, k: nat, e: Event)
    requires c.Valid()
  {
    FitsIn(c, e) && (k < s.produced || !Loses(c, s, k, e))
  }

  /** While a consumer waits for `k`: it is not lost, no re-fetch of it fails, the consumer does not give up, and
    * what is demanded fits.  Anything may happen to other segments. */
  predicate Spares(c: Config, s: State, k: nat, e: Event)
    requires c.Valid()
  {
    && FitsIn(c, e) && !Loses(c, s, k, e) && e != Expire(k)
    && (e.RefetchFails? && e.i < |s.refetches| ==> s.refetches[e.i].seg != k)
  }

  ghost predicate KeepsAll(c: Config, s: State, k: nat, es: seq<Event>)
    requires c.Valid()
    decreases |es|
  {
    es == [] || !Enabled(c, s, es[0]) || (Keeps(c, s, k, es[0]) && KeepsAll(c, Next(c, s, es[0]), k, es[1..]))
  }

  ghost predicate SparesAll(c: Config, s: State, k: nat, es: seq<Event>)
    requires c.Valid()
    decreases |es|
  {
    es == [] || !Enabled(c, s, es[0]) || (Spares(c, s, k, es[0]) && SparesAll(c, Next(c, s, es[0]), k, es[1..]))
  }

  /** An event that can harm no segment: subscription errors and failed subscriptions are among them. */
  predicate Harmless(c: Config, e: Event)
    requires c.Valid()
  {
    FitsIn(c, e) && !Skips(e) && !e.LeafFails? && !e.Cancel? && !e.RefetchFails? && !e.Expire?
  }

  lemma {:induction false} HarmlessRuns(c: Config, s: State, k: nat, es: seq<Event>)
    requires c.Valid() && forall e :: e in es ==> Harmless(c, e)
    ensures KeepsAll(c, s, k, es) && SparesAll(c, s, k, es)
    decreases |es|
  {
    if es != [] && Enabled(c, s, es[0]) {
      assert es[0] in es;
      HarmlessRuns(c, Next(c, s, es[0]), k, es[1..]);
    }
  }

  lemma AnswersKept(c: Config, s: State, e: Event)
    requires c.Valid() && Enabled(c, s, e)
    ensures s.answered <= Next(c, s, e).answered
  {
    match e
    case HandlerStep(i) => HandlerFrame(s, i);
    case RefetchStep(_) =>
    case RelayStep =>
    case LeafStep => LeafFrame(c, s);
    case Interest(_) =>
    case _ => OutsideFrame(c, s, e);
  }

  lemma AnsweredStays(c: Config, s: State, e: Event, n: nat, k: nat)
    requires c.Valid() && Enabled(c, s, e) && Answered(c, s, n, k)
    ensures Answered(c, Next(c, s, e), n, k)
  {
    AnswersKept(c, s, e);
    var i :| n <= i < |s.answered| && s.answered[i] == Data(k, c.leaf.segments[k]);
    assert Next(c, s, e).answered[i] == s.answered[i];
  }

  // What is to come stays so, until it is committed.

  lemma ComingRecv(c: Config, s: State, k: nat)
    requires c.Valid() && s.relay.Recv? && ToCome(c, s, k)
    ensures ToCome(c, RecvNext(c, s), k)
  {
    var t := RecvNext(c, s);
    if OnSeam(s.stream, k) {
      var j :| 0 <= j < |s.stream| && s.stream[j].seg == k;
      if j > 0 {
        assert t.stream[j - 1] == s.stream[j];
      }
    }
  }

  lemma ComingRelay(c: Config, s: State, k: nat)
    requires c.Valid() && RelayReady(c, s) && ToCome(c, s, k)
    ensures ToCome(c, RelayNext(c, s), k) || (s.relay.Commit? && s.relay.signing.seg == k)
  {
    if s.relay.Recv? {
      ComingRecv(c, s, k);
    }
  }

  lemma ComingLeaf(c: Config, s: State, k: nat)
    requires c.Valid() && Ordered(c, s) && LeafReady(c, s) && ToCome(c, s, k)
    ensures ToCome(c, LeafNext(c, s), k)
  {
    LeafSends(c, s);
    var t := LeafNext(c, s);
    if OnSeam(s.stream, k) {
      var j :| 0 <= j < |s.stream| && s.stream[j].seg == k;
      assert t.stream[j] == s.stream[j];
    } else if s.leaf.holding && s.leaf.seg == k {
      assert t.stream[|s.stream|].seg == k;
    }
  }

  lemma ComingPastLoss(stream: seq<Raw>, i: nat, k: nat)
    requires i < |stream| && stream[i].seg != k && OnSeam(stream, k)
    ensures OnSeam(stream[..i] + stream[i + 1..], k)
  {
    var j :| 0 <= j < |stream| && stream[j].seg == k;
    var rest := stream[..i] + stream[i + 1..];
    if j < i {
      assert rest[j] == stream[j];
    } else {
      assert rest[j - 1] == stream[j];
    }
  }

  lemma ComingOutside(c: Config, s: State, e: Event, k: nat)
    requires c.Valid() && Ordered(c, s) && Outside(e) && Enabled(c, s, e) && ToCome(c, s, k) && !Loses(c, s, k, e)
    ensures ToCome(c, OutsideNext(c, s, e), k)
  {
    match e
    case Lose(i) =>
      if OnSeam(s.stream, k) {
        ComingPastLoss(s.stream, i, k);
      }
    case Cancel => NotToComeBelow(c, s, k);
    case _ =>
  }

  lemma TrackedHandler(c: Config, s: State, k: nat, i: nat)
    requires c.Valid() && Inv(c, s) && Enabled(c, s, HandlerStep(i)) && k in s.pending && Tracked(c, s, k)
    ensures var t := HandlerNext(s, i); k in t.pending && Tracked(c, t, k)
  {
    var t := HandlerNext(s, i);
    assert Progressed(s.front, s.produced, s.inputs, s.handlers[i]);
    if ToCome(c, s, k) {
      assert InHand(t.relay) == InHand(s.relay);
      assert ToCome(c, t, k);
    } else if LiveRefetch(s.refetches, k) {
      var j :| 0 <= j < |s.refetches| && s.refetches[j].seg == k && !s.refetches[j].pc.Over?;
      assert t.refetches[j] == s.refetches[j];
    } else {
      var j :| 0 <= j < |s.handlers| && s.handlers[j].seg == k && !s.handlers[j].pc.Finished?;
      if j != i || !s.handlers[j].pc.ReadSource? {
        assert t.handlers[j].seg == k && !t.handlers[j].pc.Finished?;
      } else {
        assert t.refetches[|s.refetches|].seg == k;
      }
    }
  }

  lemma TrackedRefetch(c: Config, s: State, k: nat, i: nat)
    requires c.Valid() && Inv(c, s) && Enabled(c, s, RefetchStep(i)) && k in s.pending && Tracked(c, s, k)
    ensures var t := RefetchNext(c, s, i); Answered(c, t, |s.answered|, k) || (k in t.pending && Tracked(c, t, k))
  {
    var t := RefetchNext(c, s, i);
    assert GoodRefetch(c, s.produced, s.refetches[i]);
    assert s.produced <= c.leaf.LastSeg() + 1;
    if s.refetches[i].seg == k && s.refetches[i].pc.Fetched? {
      assert t.answered[|s.answered|] == Data(k, c.leaf.segments[k]);
    } else if LiveRefetch(s.refetches, k) {
      var j :| 0 <= j < |s.refetches| && s.refetches[j].seg == k && !s.refetches[j].pc.Over?;
      assert t.refetches[j].seg == k && !t.refetches[j].pc.Over?;
    }
  }

  lemma TrackedCommit(c: Config, s: State, k: nat, d: Raw)
    requires c.Valid() && Content(c, s) && s.relay == Commit(d) && k in s.pending && Tracked(c, s, k)
    ensures var t := CommitNext(s, d); Answered(c, t, |s.answered|, k) || (k in t.pending && Tracked(c, t, k))
  {
    var t := CommitNext(s, d);
    if d.seg == k {
      assert t.answered[|s.answered|] == Data(k, c.leaf.segments[k]);
    }
  }

  lemma TrackedRelay(c: Config, s: State, k: nat)
    requires c.Valid() && Inv(c, s) && RelayReady(c, s) && k in s.pending && Tracked(c, s, k)
    ensures var t := RelayNext(c, s); Answered(c, t, |s.answered|, k) || (k in t.pending && Tracked(c, t, k))
  {
    if ToCome(c, s, k) {
      ComingRelay(c, s, k);
    }
    match s.relay
    case Commit(d) => TrackedCommit(c, s, k, d);
    case Recv => RelayTouchesNoDemand(c, s);
    case _ => RelayTouchesNoDemand(c, s);
  }

  lemma RelayTouchesNoDemand(c: Config, s: State)
    requires c.Valid() && RelayReady(c, s) && !s.relay.Commit?
    ensures var t := RelayNext(c, s);
      t.pending == s.pending && t.refetches == s.refetches && t.handlers == s.handlers && t.produced == s.produced
  {
  }

  lemma TrackedLeaf(c: Config, s: State, k: nat)
    requires c.Valid() && Inv(c, s) && LeafReady(c, s) && k in s.pending && Tracked(c, s, k)
    ensures var t := LeafNext(c, s); k in t.pending && Tracked(c, t, k)
  {
    LeafFrame(c, s);
    if ToCome(c, s, k) {
      ComingLeaf(c, s, k);
    }
  }

  lemma TrackedStep(c: Config, s: State, e: Event, k: nat)
    requires c.Valid() && Inv(c, s) && Enabled(c, s, e) && Spares(c, s, k, e)
    requires k in s.pending && Tracked(c, s, k)
    ensures var t := Next(c, s, e); Answered(c, t, |s.answered|, k) || (k in t.pending && Tracked(c, t, k))
  {
    match e
    case HandlerStep(i) => TrackedHandler(c, s, k, i);
    case RefetchStep(i) => TrackedRefetch(c, s, k, i);
    case RelayStep => TrackedRelay(c, s, k);
    case LeafStep => TrackedLeaf(c, s, k);
    case Interest(j) => TrackedInterest(c, s, j, k);
    case _ => TrackedOutside(c, s, e, k);
  }

  lemma TrackedOutside(c: Config, s: State, e: Event, k: nat)
    requires c.Valid() && Ordered(c, s) && Outside(e) && Enabled(c, s, e) && Spares(c, s, k, e)
    requires k in s.pending && Tracked(c, s, k)
    ensures var t := OutsideNext(c, s, e); k in t.pending && Tracked(c, t, k)
  {
    var t := OutsideNext(c, s, e);
    OutsideFrame(c, s, e);
    if ToCome(c, s, k) {
      ComingOutside(c, s, e, k);
    } else if LiveRefetch(s.refetches, k) {
      var j :| 0 <= j < |s.refetches| && s.refetches[j].seg == k && !s.refetches[j].pc.Over?;
      assert t.refetches[j] == s.refetches[j];
    }
  }

  lemma TrackedInterest(c: Config, s: State, j: nat, k: nat)
    requires c.Valid() && k in s.pending && Tracked(c, s, k)
    ensures var t := InterestNext(s, j); k in t.pending && Tracked(c, t, k)
  {
    var t := InterestNext(s, j);
    if ToCome(c, s, k) {
      assert ToCome(c, t, k);
    } else if LiveRefetch(s.refetches, k) {
      assert LiveRefetch(t.refetches, k);
    } else {
      var i :| 0 <= i < |s.handlers| && s.handlers[i].seg == k && !s.handlers[i].pc.Finished?;
      assert t.handlers[i] == s.handlers[i];
    }
  }

  lemma {:induction false} TrackedRuns(c: Config, s: State, es: seq<Event>, t: State, n: nat, k: nat)
    requires c.Valid() && Inv(c, s) && Runs(c, s, es, t) && SparesAll(c, s, k, es)
    requires n <= |s.answered|
    requires Answered(c, s, n, k) || (k in s.pending && Tracked(c, s, k))
    ensures Answered(c, t, n, k) || (k in t.pending && Tracked(c, t, k))
    decreases |es|
  {
    if es != [] {
      var m := Next(c, s, es[0]);
      InvStep(c, s, es[0]);
      AnswersKept(c, s, es[0]);
      if Answered(c, s, n, k) {
        AnsweredStays(c, s, es[0], n, k);
      } else {
        TrackedStep(c, s, es[0], k);
      }
      TrackedRuns(c, m, es[1..], t, n, k);
    }
  }

  /** A relay asleep at rest has passed every segment that was demanded. */
  lemma QuietSleeper(c: Config, s: State, k: nat)
    requires c.Valid() && Inv(c, s) && InRange(c, s) && Quiet(c, s) && s.relay.Wait? && k <= s.front
    ensures k < s.produced && !ToCome(c, s, k)
  {
    assert !Enabled(c, s, RelayStep);
    QuietNotNotifying(c, s);
    assert Blocked(c, s);
    NotToComeBelow(c, s, k);
  }

  /** When no actor can move, nothing tracked is left unanswered: in particular the relay is not paused
    * for ever before a segment that is still demanded. */
  lemma QuietMeansServed(c: Config, s: State, k: nat)
    requires c.Valid() && Inv(c, s) && InRange(c, s) && Quiet(c, s)
    requires k in s.pending && k <= c.leaf.LastSeg()
    ensures !Tracked(c, s, k)
  {
    QuietTasks(c, s, k);
    var i :| 0 <= i < |s.handlers| && s.handlers[i].seg == k;
    assert Progressed(s.front, s.produced, s.inputs, s.handlers[i]);
    assert !Enabled(c, s, HandlerStep(i));
    assert k <= s.front && !s.relay.Idle?;
    assert !Enabled(c, s, RelayStep) && !Enabled(c, s, LeafStep);
    if s.relay.Wait? {
      QuietSleeper(c, s, k);
    }
  }

  lemma QuietTasks(c: Config, s: State, k: nat)
    requires c.Valid() && Quiet(c, s)
    ensures !LiveRefetch(s.refetches, k) && !LiveHandler(s.handlers, k)
  {
    forall i | 0 <= i < |s.refetches| ensures s.refetches[i].pc.Over? {
      assert !Enabled(c, s, RefetchStep(i));
    }
    forall i | 0 <= i < |s.handlers| ensures s.handlers[i].pc.Finished? {
      assert !Enabled(c, s, HandlerStep(i));
    }
  }

  lemma QuietNotNotifying(c: Config, s: State)
    requires c.Valid() && Quiet(c, s)
    ensures !Notifying(s.handlers)
  {
    forall i | 0 <= i < |s.handlers| ensures !s.handlers[i].pc.Notify? {
      assert !Enabled(c, s, HandlerStep(i));
    }
  }

  lemma NotToComeBelow(c: Config, s: State, k: nat)
    requires c.Valid() && Ordered(c, s) && InHand(s.relay).None? && k < s.produced
    ensures !ToCome(c, s, k)
  {
  }

  // ------------------------------------------------------------------ results

  /** Segment `k` can still be had: the relay has passed it, so that a re-fetch is possible, or it is
    * still to come from the leaf, or a re-fetch of it is under way. */
  ghost predicate Available(c: Config, s: State, k: nat)
    requires c.Valid()
  {
    k < s.produced || ToCome(c, s, k) || LiveRefetch(s.refetches, k)
  }

  lemma DemandTracked(c: Config, s: State, k: nat)
    requires c.Valid() && Inv(c, s) && k < U64 && Available(c, s, k)
    ensures var t := InterestNext(s, k); Answered(c, t, |s.answered|, k) || (k in t.pending && Tracked(c, t, k))
  {
    var t := InterestNext(s, k);
    if k in s.cs {
      assert GoodData(c, Data(k, s.cs[k]));
      assert t.answered[|s.answered|] == Data(k, s.cs[k]);
    } else {
      assert t.handlers[|s.handlers|] == Handler(k, Raise);
      if ToCome(c, s, k) {
        assert ToCome(c, t, k);
      } else if LiveRefetch(s.refetches, k) {
        assert LiveRefetch(t.refetches, k);
      }
    }
  }

  /** What an event keeps available. */
  lemma AvailableStep(c: Config, s: State, e: Event, k: nat)
    requires c.Valid() && Inv(c, s) && Enabled(c, s, e) && Keeps(c, s, k, e) && (k < s.produced || ToCome(c, s, k))
    ensures k < Next(c, s, e).produced || ToCome(c, Next(c, s, e), k)
  {
    StepMonotone(c, s, e);
    if s.produced <= k {
      match e
      case HandlerStep(i) => HandlerFrame(s, i);
      case RefetchStep(i) => RefetchFrame(c, s, i);
      case RelayStep => ComingRelay(c, s, k);
      case LeafStep => ComingLeaf(c, s, k);
      case Interest(j) => InterestFrame(s, j);
      case _ => ComingOutside(c, s, e, k);
    }
  }

  lemma {:induction false} AvailableRuns(c: Config, s: State, es: seq<Event>, t: State, k: nat)
    requires c.Valid() && Inv(c, s) && InRange(c, s) && Runs(c, s, es, t) && KeepsAll(c, s, k, es)
    requires k < s.produced || ToCome(c, s, k)
    ensures (k < t.produced || ToCome(c, t, k)) && InRange(c, t)
    decreases |es|
  {
    if es != [] {
      AvailableStep(c, s, es[0], k);
      InvStep(c, s, es[0]);
      InRangeStep(c, s, es[0]);
      AvailableRuns(c, Next(c, s, es[0]), es[1..], t, k);
    }
  }

  lemma {:induction false} SparedInRange(c: Config, s: State, k: nat, es: seq<Event>, t: State)
    requires c.Valid() && InRange(c, s) && Runs(c, s, es, t) && SparesAll(c, s, k, es)
    ensures InRange(c, t)
    decreases |es|
  {
    if es != [] {
      InRangeStep(c, s, es[0]);
      SparedInRange(c, Next(c, s, es[0]), k, es[1..], t);
    }
  }

  /** A demand for an available segment is answered with the leaf's content in every schedule that spares it,
    * whatever else is demanded, evicted, lost or given up meanwhile. */
  lemma AvailableDemandAnswered(c: Config, s: State, k: nat, es: seq<Event>, t: State)
    requires c.Valid() && Inv(c, s) && InRange(c, s) && k <= c.leaf.LastSeg() && Available(c, s, k)
    requires Runs(c, InterestNext(s, k), es, t) && SparesAll(c, InterestNext(s, k), k, es)
    requires Quiet(c, t)
    ensures Answered(c, t, |s.answered|, k)
  {
    var m := InterestNext(s, k);
    assert m == Next(c, s, Interest(k));
    InvStep(c, s, Interest(k));
    InRangeStep(c, s, Interest(k));
    DemandTracked(c, s, k);
    TrackedRuns(c, m, es, t, |s.answered|, k);
    InvRuns(c, m, es, t);
    SparedInRange(c, m, k, es, t);
    if !Answered(c, t, |s.answered|, k) {
      QuietMeansServed(c, t, k);
    }
  }

  /** No demanded segment is dropped: over every run that does not lose segment `k` before the relay passes it, and
    * spares it once it is demanded, the demand is answered with the leaf's content by the time the actors come
    * to rest.  Subscriptions may fail and be renewed, other segments may be demanded, evicted, lost, left
    * unsigned or given up, and their re-fetches may fail, at any time. */
  lemma NoDemandDropped(c: Config, before: seq<Event>, s: State, k: nat, after: seq<Event>, t: State)
    requires c.Valid() && k <= c.leaf.LastSeg()
    requires Runs(c, INIT, before, s) && KeepsAll(c, INIT, k, before)
    requires Runs(c, InterestNext(s, k), after, t) && SparesAll(c, InterestNext(s, k), k, after)
    requires Quiet(c, t)
    ensures Answered(c, t, |s.answered|, k)
  {
    InvRuns(c, INIT, before, s);
    AvailableRuns(c, INIT, before, s, k);
    AvailableDemandAnswered(c, s, k, after, t);
  }

  // ------------------------------------------------------------ whole fetches

  /** Segment `k` is demanded in the run, not lost before and spared afterwards. */
  ghost predicate DemandedIn(c: Config, es: seq<Event>, t: State, k: nat)
    requires c.Valid()
  {
    exists i: nat, s :: DemandedAt(c, es, t, k, i, s)
  }

  ghost predicate DemandedAt(c: Config, es: seq<Event>, t: State, k: nat, i: nat, s: State)
    requires c.Valid()
  {
    && i < |es| && es[i] == Interest(k)
    && Runs(c, INIT, es[..i], s) && KeepsAll(c, INIT, k, es[..i])
    && Runs(c, InterestNext(s, k), es[i + 1..], t) && SparesAll(c, InterestNext(s, k), k, es[i + 1..])
  }

  lemma DemandIsAnswered(c: Config, es: seq<Event>, t: State, k: nat) returns (d: Data)
    requires c.Valid() && Quiet(c, t) && k <= c.leaf.LastSeg() && DemandedIn(c, es, t, k)
    ensures d in t.answered && d.seg == k
  {
    var i: nat, s :| DemandedAt(c, es, t, k, i, s);
    NoDemandDropped(c, es[..i], s, k, es[i + 1..], t);
    var j :| |s.answered| <= j < |t.answered| && t.answered[j] == Data(k, c.leaf.segments[k]);
    d := t.answered[j];
  }

  /** The first `n` segments, one answer for each. */
  lemma {:induction false} CollectAnswers(c: Config, es: seq<Event>, t: State, n: nat) returns (parts: seq<Data>)
    requires c.Valid() && Quiet(c, t) && n <= |c.leaf.segments|
    requires forall k :: 0 <= k < n ==> DemandedIn(c, es, t, k)
    ensures |parts| == n && forall k :: 0 <= k < n ==> parts[k] in t.answered && parts[k].seg == k
  {
    parts := [];
    if n > 0 {
      parts := CollectAnswers(c, es, t, n - 1);
      var d := DemandIsAnswered(c, es, t, n - 1);
      parts := parts + [d];
    }
  }

  /** A fetch completes: when every segment of the file is demanded at some time in a run, not lost before and
    * spared afterwards, then by the time the actors rest there is an answer for each, and they make up the file. */
  lemma FetchCompletes(c: Config, es: seq<Event>, t: State, file: Bytes, chunk: nat) returns (parts: seq<Data>)
    requires c.Valid() && Runs(c, INIT, es, t) && Quiet(c, t)
    requires chunk > 0 && c.leaf.segments == Chunks(file, chunk)
    requires forall k :: 0 <= k <= c.leaf.LastSeg() ==> DemandedIn(c, es, t, k)
    ensures CompleteFetch(c, t, parts) && Flatten(Contents(parts)) == file
  {
    parts := CollectAnswers(c, es, t, |c.leaf.segments|);
    FetchReassembles(c, t, file, chunk, parts);
  }

  lemma HarmlessDemand(c: Config, es: seq<Event>, t: State, k: nat, i: nat)
    requires c.Valid() && Runs(c, INIT, es, t) && i < |es| && es[i] == Interest(k)
    requires forall e :: e in es ==> Harmless(c, e)
    ensures DemandedIn(c, es, t, k)
  {
    var s := RunsSplit(c, INIT, es, t, i);
    assert es[i..][0] == es[i] && es[i..][1..] == es[i + 1..];
    HarmlessRuns(c, INIT, k, es[..i]);
    HarmlessRuns(c, InterestNext(s, k), k, es[i + 1..]);
    assert DemandedAt(c, es, t, k, i, s);
  }

  /** In particular a fetch completes in every run in which every segment is demanded and nothing happens but
    * demands that fit, evictions, echoes and subscription errors. */
  lemma HarmlessFetchCompletes(c: Config, es: seq<Event>, t: State, file: Bytes, chunk: nat) returns (parts: seq<Data>)
    requires c.Valid() && Runs(c, INIT, es, t) && Quiet(c, t)
    requires chunk > 0 && c.leaf.segments == Chunks(file, chunk)
    requires forall e :: e in es ==> Harmless(c, e)
    requires forall k :: 0 <= k <= c.leaf.LastSeg() ==> Interest(k) in es
    ensures CompleteFetch(c, t, parts) && Flatten(Contents(parts)) == file
  {
    forall k | 0 <= k <= c.leaf.LastSeg() ensures DemandedIn(c, es, t, k) {
      assert Interest(k) in es;
      var i :| 0 <= i < |es| && es[i] == Interest(k);
      HarmlessDemand(c, es, t, k, i);
    }
    parts := FetchCompletes(c, es, t, file, chunk);
  }

  // ---------------------------------------------- demands that the sum does not fit

  /** Nothing goes wrong in the run, and besides segments of the file only `k` is demanded. */
  ghost predicate Beside(c: Config, k: nat, es: seq<Event>)
    requires c.Valid()
  {
    forall e :: e in es ==>
      && !Skips(e) && !e.LeafFails? && !e.Cancel? && !e.RefetchFails? && !e.Expire?
      && (e.Interest? ==> e.k <= c.leaf.LastSeg() || e.k == k)
  }

  /** A demand for segment `j` of the file, with demands for `k` among the others, and what comes of it. */
  ghost predicate DemandBeside(c: Config, k: nat, before: seq<Event>, s: State, j: nat, after: seq<Event>, t: State)
    requires c.Valid()
  {
    && Beside(c, k, before) && Runs(c, INIT, before, s)
    && j <= c.leaf.LastSeg()
    && Beside(c, k, after) && Runs(c, InterestNext(s, j), after, t) && Quiet(c, t)
  }

  ghost predicate AllServedBeside(c: Config, k: nat)
    requires c.Valid()
  {
    forall before, s, j, after, t :: DemandBeside(c, k, before, s, j, after, t) ==> Answered(c, t, |s.answered|, j)
  }

  lemma BesideIsHarmless(c: Config, k: nat, es: seq<Event>)
    requires c.Valid() && Fits(c, k) && Beside(c, k, es)
    ensures forall e :: e in es ==> Harmless(c, e)
  {
  }

  lemma InternalIsBeside(c: Config, k: nat, es: seq<Event>)
    requires c.Valid() && LeftAlone([Interest(k)], es)
    ensures Beside(c, k, es)
  {
    forall e | e in es
      ensures !Skips(e) && !e.LeafFails? && !e.Cancel? && !e.RefetchFails? && !e.Expire?
      ensures e.Interest? ==> e.k <= c.leaf.LastSeg() || e.k == k
    {
      var i :| 0 <= i < |es| && es[i] == e;
      assert i == 0 ==> e == [Interest(k)][0];
    }
  }

  /** A demand for `k` stops the fetches beside it exactly when it does not fit: as long as nothing else goes wrong,
    * every demand for a segment of the file is answered by the time the actors rest, in every run with demands for
    * `k`, if and only if pacing to `k` lets the whole file through. */
  lemma WrappingDemandExactly(c: Config, k: nat)
    requires c.Valid() && k < U64
    ensures AllServedBeside(c, k) <==> Fits(c, k)
  {
    if Fits(c, k) {
      forall before, s, j, after, t | DemandBeside(c, k, before, s, j, after, t)
        ensures Answered(c, t, |s.answered|, j)
      {
        BesideIsHarmless(c, k, before);
        BesideIsHarmless(c, k, after);
        HarmlessRuns(c, INIT, j, before);
        HarmlessRuns(c, InterestNext(s, j), j, after);
        NoDemandDropped(c, before, s, j, after, t);
      }
    } else {
      var before, s, after, t := LastSegmentDropped(c, k);
    }
  }

  /** The run in which the last segment is never answered. */
  lemma LastSegmentDropped(c: Config, k: nat) returns (before: seq<Event>, s: State, after: seq<Event>, t: State)
    requires c.Valid() && k < U64 && !Fits(c, k)
    ensures DemandBeside(c, k, before, s, c.leaf.LastSeg(), after, t)
    ensures !Answered(c, t, |s.answered|, c.leaf.LastSeg())
  {
    var last := c.leaf.LastSeg();
    before, s := WrappingDemandStalls(c, k);
    InternalIsBeside(c, k, before);
    InvRuns(c, INIT, before, s);
    after, t := StalledComesToRest(c, s, k, last);
  }

  /** A stalled relay comes to rest with the demand for a segment it has not passed unanswered. */
  lemma StalledComesToRest(c: Config, s: State, k: nat, j: nat) returns (es: seq<Event>, t: State)
    requires c.Valid() && Inv(c, s) && Stalled(c, s, k) && k < U64 && s.produced <= j <= k
    ensures AllInternal(es) && Runs(c, InterestNext(s, j), es, t) && Quiet(c, t)
    ensures !Answered(c, t, |s.answered|, j)
  {
    var m := InterestNext(s, j);
    assert m == Next(c, s, Interest(j));
    InvStep(c, s, Interest(j));
    StalledStep(c, s, k, Interest(j));
    es, t := Settle(c, m);
    forall e | e in es ensures DemandsUpTo(e, k) {
      assert Internal(e);
    }
    StalledUntilHigherDemand(c, m, k, es, t);
    assert m.answered == s.answered;
  }

  // ------------------------------------------------- exactly when a demand is served

  /** Whatever the schedule, once the actors rest, the demand just made has been answered. */
  ghost predicate AlwaysServed(c: Config, s: State, n: nat, k: nat)
    requires c.Valid()
  {
    forall es, t :: AllInternal(es) && Runs(c, s, es, t) && Quiet(c, t) ==> Answered(c, t, n, k)
  }

  /** Segment `k` waits, is not to come, and no re-fetch of it is under way. */
  ghost predicate Barren(c: Config, s: State, n: nat, k: nat)
    requires c.Valid()
  {
    k in s.pending && !ToCome(c, s, k) && !LiveRefetch(s.refetches, k) && !Answered(c, s, n, k)
  }

  lemma BarrenHandler(c: Config, s: State, n: nat, k: nat, i: nat)
    requires c.Valid() && Inv(c, s) && Barren(c, s, n, k) && Enabled(c, s, HandlerStep(i))
    requires s.produced <= k || s.handlers[i].seg != k
    ensures Barren(c, HandlerNext(s, i), n, k) && HandlerNext(s, i).produced == s.produced
  {
    var t := HandlerNext(s, i);
    assert Progressed(s.front, s.produced, s.inputs, s.handlers[i]);
    assert InHand(t.relay) == InHand(s.relay) && t.answered == s.answered;
    forall j | 0 <= j < |t.refetches| && t.refetches[j].seg == k ensures t.refetches[j].pc.Over? {
      assert j < |s.refetches|;
    }
  }

  /** The schedule that lets the handlers finish before anything else moves. */
  lemma {:induction false} DrainHandlers(c: Config, s: State, n: nat, k: nat) returns (es: seq<Event>, t: State)
    requires c.Valid() && Inv(c, s) && Barren(c, s, n, k) && s.produced <= k
    ensures Runs(c, s, es, t) && AllInternal(es)
    ensures Inv(c, t) && Barren(c, t, n, k) && !LiveHandler(t.handlers, k)
    decreases Work(c, s)
  {
    if LiveHandler(s.handlers, k) {
      var i :| 0 <= i < |s.handlers| && s.handlers[i].seg == k && !s.handlers[i].pc.Finished?;
      var e := HandlerStep(i);
      BarrenHandler(c, s, n, k, i);
      InvStep(c, s, e);
      WorkShrinks(c, s, e);
      es, t := DrainHandlers(c, Next(c, s, e), n, k);
      es := [e] + es;
      assert es[1..] == es[1..];
    } else {
      es, t := [], s;
    }
  }

  lemma DoomedRefetch(c: Config, s: State, n: nat, k: nat, i: nat)
    requires c.Valid() && Inv(c, s) && Barren(c, s, n, k) && Enabled(c, s, RefetchStep(i))
    ensures Barren(c, RefetchNext(c, s, i), n, k)
  {
    var t := RefetchNext(c, s, i);
    assert s.refetches[i].seg != k;
    assert !LiveRefetch(t.refetches, k);
    assert t.relay == s.relay && t.stream == s.stream && t.leaf == s.leaf;
    NotAnswered(c, s, t, n, k);
  }

  lemma DoomedRelay(c: Config, s: State, n: nat, k: nat)
    requires c.Valid() && Inv(c, s) && Barren(c, s, n, k) && RelayReady(c, s)
    ensures Barren(c, RelayNext(c, s), n, k)
  {
    var t := RelayNext(c, s);
    assert t.refetches == s.refetches;
    if s.relay.Recv? && s.stream != [] {
      assert forall j :: 0 <= j < |t.stream| ==> t.stream[j] == s.stream[j + 1];
    }
    NotAnswered(c, s, t, n, k);
  }

  lemma DoomedLeaf(c: Config, s: State, n: nat, k: nat)
    requires c.Valid() && Inv(c, s) && Barren(c, s, n, k) && LeafReady(c, s)
    ensures Barren(c, LeafNext(c, s), n, k)
  {
    LeafSends(c, s);
  }

  lemma NotAnswered(c: Config, s: State, t: State, n: nat, k: nat)
    requires c.Valid() && !Answered(c, s, n, k)
    requires || t.answered == s.answered
             || (|t.answered| == |s.answered| + 1 && s.answered <= t.answered && t.answered[|s.answered|].seg != k)
    ensures !Answered(c, t, n, k)
  {
  }

  lemma DoomedStep(c: Config, s: State, n: nat, k: nat, e: Event)
    requires c.Valid() && Inv(c, s) && Barren(c, s, n, k) && !LiveHandler(s.handlers, k)
    requires Internal(e) && Enabled(c, s, e)
    ensures Barren(c, Next(c, s, e), n, k) && !LiveHandler(Next(c, s, e).handlers, k)
  {
    HandlersKept(c, s, e);
    match e
    case HandlerStep(i) => BarrenHandler(c, s, n, k, i);
    case RefetchStep(i) => DoomedRefetch(c, s, n, k, i);
    case RelayStep => DoomedRelay(c, s, n, k);
    case LeafStep => DoomedLeaf(c, s, n, k);
  }

  lemma {:induction false} DoomedRuns(c: Config, s: State, n: nat, k: nat, es: seq<Event>, t: State)
    requires c.Valid() && Inv(c, s) && Barren(c, s, n, k) && !LiveHandler(s.handlers, k)
    requires AllInternal(es) && Runs(c, s, es, t)
    ensures Barren(c, t, n, k)
    decreases |es|
  {
    if es != [] {
      assert Internal(es[0]);
      DoomedStep(c, s, n, k, es[0]);
      InvStep(c, s, es[0]);
      DoomedRuns(c, Next(c, s, es[0]), n, k, es[1..], t);
    }
  }

  /** A demand for a segment that is not available has a schedule in which it is never answered. */
  lemma UnavailableDemandStarves(c: Config, s: State, k: nat) returns (es: seq<Event>, t: State)
    requires c.Valid() && Inv(c, s) && k <= c.leaf.LastSeg() && k !in s.cs && !Available(c, s, k)
    ensures AllInternal(es) && Runs(c, InterestNext(s, k), es, t) && Quiet(c, t)
    ensures k in t.pending && !Answered(c, t, |s.answered|, k)
  {
    var m := InterestNext(s, k);
    assert m == Next(c, s, Interest(k));
    InvStep(c, s, Interest(k));
    var fs, u := DrainHandlers(c, m, |s.answered|, k);
    var gs, v := Settle(c, u);
    DoomedRuns(c, u, |s.answered|, k, gs, v);
    RunsAppend(c, m, fs, u, gs, v);
    es, t := fs + gs, v;
  }

  /** After any losses, failures, resubscriptions and evictions: a demand that misses the content store is
    * answered in every schedule exactly when its segment is available. */
  lemma DemandServedExactly(c: Config, s: State, k: nat)
    requires c.Valid() && Inv(c, s) && InRange(c, s) && k <= c.leaf.LastSeg() && k !in s.cs
    ensures AlwaysServed(c, InterestNext(s, k), |s.answered|, k) <==> Available(c, s, k)
  {
    var m := InterestNext(s, k);
    if Available(c, s, k) {
      forall es, t | AllInternal(es) && Runs(c, m, es, t) && Quiet(c, t) ensures Answered(c, t, |s.answered|, k) {
        forall e | e in es ensures Harmless(c, e) {
          assert Internal(e);
        }
        HarmlessRuns(c, m, k, es);
        AvailableDemandAnswered(c, s, k, es, t);
      }
    } else {
      var es, t := UnavailableDemandStarves(c, s, k);
      assert AllInternal(es) && Runs(c, m, es, t) && Quiet(c, t);
    }
  }

  // ------------------------------------------------------------- loss at the tail

  /** Everything the leaf streamed has been lost or committed, and segment `k` was not committed; what is in hand
    * is an echo of an earlier segment. */
  ghost predicate Gone(c: Config, s: State, k: nat)
    requires c.Valid()
  {
    && s.leaf.seg > c.leaf.LastSeg() && s.stream == []
    && (InHand(s.relay).Some? ==> InHand(s.relay).value.seg < s.produced)
    && s.produced <= k && k !in s.cs
  }

  lemma GoneRelay(c: Config, s: State, k: nat, n: nat)
    requires c.Valid() && Gone(c, s, k) && !Answered(c, s, n, k) && RelayReady(c, s)
    ensures Gone(c, RelayNext(c, s), k) && !Answered(c, RelayNext(c, s), n, k)
  {
    NotAnswered(c, s, RelayNext(c, s), n, k);
  }

  lemma GoneRefetch(c: Config, s: State, k: nat, n: nat, i: nat)
    requires c.Valid() && Inv(c, s) && Gone(c, s, k) && !Answered(c, s, n, k) && Enabled(c, s, RefetchStep(i))
    ensures Gone(c, RefetchNext(c, s, i), k) && !Answered(c, RefetchNext(c, s, i), n, k)
  {
    assert GoodRefetch(c, s.produced, s.refetches[i]);
    NotAnswered(c, s, RefetchNext(c, s, i), n, k);
  }

  lemma GoneOutside(c: Config, s: State, k: nat, n: nat, e: Event)
    requires c.Valid() && Gone(c, s, k) && !Answered(c, s, n, k) && Outside(e) && Enabled(c, s, e)
    ensures Gone(c, OutsideNext(c, s, e), k) && !Answered(c, OutsideNext(c, s, e), n, k)
  {
    OutsideFrame(c, s, e);
    NotAnswered(c, s, OutsideNext(c, s, e), n, k);
  }

  lemma GoneStep(c: Config, s: State, k: nat, n: nat, e: Event)
    requires c.Valid() && Inv(c, s) && Gone(c, s, k) && !Answered(c, s, n, k) && Enabled(c, s, e)
    ensures Gone(c, Next(c, s, e), k) && !Answered(c, Next(c, s, e), n, k)
  {
    match e
    case HandlerStep(i) =>
      HandlerFrame(s, i);
      NotAnswered(c, s, HandlerNext(s, i), n, k);
    case RefetchStep(i) => GoneRefetch(c, s, k, n, i);
    case RelayStep => GoneRelay(c, s, k, n);
    case LeafStep =>
      LeafSends(c, s);
      NotAnswered(c, s, LeafNext(c, s), n, k);
    case Interest(j) =>
      InterestFrame(s, j);
      NotAnswered(c, s, InterestNext(s, j), n, k);
    case _ => GoneOutside(c, s, k, n, e);
  }

  /** A segment lost behind the last committed one is lost for good: no demand, resubscription, re-fetch
    * or schedule ever brings it to a consumer. */
  lemma {:induction false} GoneForever(c: Config, s: State, k: nat, n: nat, es: seq<Event>, t: State)
    requires c.Valid() && Inv(c, s) && Gone(c, s, k) && !Answered(c, s, n, k) && Runs(c, s, es, t)
    ensures Gone(c, t, k) && !Answered(c, t, n, k)
    decreases |es|
  {
    if es != [] {
      GoneStep(c, s, k, n, es[0]);
      InvStep(c, s, es[0]);
      GoneForever(c, Next(c, s, es[0]), k, n, es[1..], t);
    }
  }

  /** The relay waits for the last segment of the file. */
  lemma UpToTheLast(c: Config) returns (es: seq<Event>, s: State)
    requires c.Valid()
    ensures Runs(c, INIT, es, s) && Skipped(es) == 0
    ensures AtStream(c, s) && s.owed > 0 && s.leaf.seg == s.produced == c.leaf.LastSeg()
  {
    es, s := FirstDemand(c, c.leaf.LastSeg());
    es, s := CommitMany(c, es, s, c.leaf.LastSeg());
    es, s := Renew(c, es, s);
  }

  lemma LastLost(c: Config) returns (es: seq<Event>, s: State)
    requires c.Valid()
    ensures Runs(c, INIT, es, s) && Skipped(es) == 1
    ensures s.relay.Recv? && s.stream == [] && s.produced == c.leaf.LastSeg() < s.leaf.seg
  {
    es, s := UpToTheLast(c);
    es, s := StreamOne(c, es, s);
    es, s := Do(c, es, s, Lose(0));
  }

  /** On every file there is a run that reaches such a state: all goes well up to the last segment, and losing that
    * one Data on the seam is enough. */
  lemma TailLoss(c: Config) returns (es: seq<Event>, s: State)
    requires c.Valid()
    ensures Runs(c, INIT, es, s) && Skipped(es) == 1
    ensures var last := c.leaf.LastSeg(); Gone(c, s, last) && last in s.pending && !Answered(c, s, 0, last)
  {
    es, s := LastLost(c);
    OnlyPassedRuns(c, INIT, es, s);
    es, s := Do(c, es, s, Interest(c.leaf.LastSeg()));
  }
}
