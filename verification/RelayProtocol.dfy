/** The producer of record for a streamed object (crates/ndn-mobile/src/object_relay.rs).
  *
  * Four kinds of actors interleave: the handler of each segment Interest that misses the
  * content store, the relay loop, one-shot re-fetch tasks, and the keyless leaf that streams
  * raw segments under credit.  They share two counters (`front` and `produced`), a wake-up
  * permit, the learned source prefix, the take-once relay inputs and the content store.
  * A step is one atomic action of one actor.  Atomics are sequentially consistent.
  */
module RelayProtocol {
  import opened Basics
  import opened RdrObject
  import CS = ContentStream

  /** Data packets one subscription Interest carries before it is re-expressed. */
  const RELAY_CREDIT: nat := 64

  /** The leaf's object, and how far the relay may run ahead of demand. */
  datatype Config = Config(leaf: Object, requestedLookahead: nat) {
    ghost predicate Valid() {
      leaf.Valid() && leaf.LastSeg() + Lookahead() < U64
    }

    function Lookahead(): nat {
      Max(requestedLookahead, 1)
    }
  }

  /** A signed segment under the public versioned name. */
  datatype Data = Data(seg: nat, content: Bytes)

  /** Where a handler task is: about to raise the front, to notify, to take the relay inputs,
    * to compare with `produced`, to read the learned prefix; or finished. */
  datatype HandlerPc = Raise | Notify | Start | Compare | ReadSource | Finished

  datatype Handler = Handler(seg: nat, pc: HandlerPc)

  /** Where a re-fetch task is: waiting for the leaf's answer, about to cache and respond, done. */
  datatype RefetchPc = Fetching(prefix: Prefix) | Fetched(content: Bytes) | Over

  datatype Refetch = Refetch(seg: nat, pc: RefetchPc)

  /** Where the relay loop is. */
  datatype RelayPc =
    | Idle                  // inputs not yet taken
    | Subscribing           // top of the outer loop
    | Backoff               // subscription failed; sleeping
    | Check                 // about to evaluate the pacing condition
    | Wait                  // blocked in the pacing wait
    | Recv                  // blocked on the leaf's stream
    | Learn(got: Raw)       // a segment arrived; the prefix may have to be learned
    | Commit(signing: Raw)  // about to sign, cache, publish and store `produced`
    | Cancelled

  datatype State = State(
    front: nat,
    produced: nat,
    permit: bool,              // a stored (or just delivered) notification
    inputs: bool,              // the relay inputs have not been taken
    source: Option<Prefix>,
    relay: RelayPc,
    owed: nat,                 // Data still due under the current subscription Interest
    handlers: seq<Handler>,
    refetches: seq<Refetch>,
    leaf: CS.Streamer,
    stream: seq<Raw>,          // on the seam, oldest first
    cs: map<nat, Bytes>,       // content store, by public segment
    pending: set<nat>,         // consumers' unsatisfied Interests, by public segment
    published: seq<Data>,
    answered: seq<Data>)       // everything a consumer has received

  const INIT := State(0, 0, false, true, None, Idle, 0, [], [], CS.START, [], map[], {}, [], [])

  datatype Event =
    // consumers and the forwarder
    | Interest(k: nat)
    | Evict(k: nat)
    | Expire(k: nat)
    | Echo(k: nat)        // the leaf's answer to a re-fetch also reaches the relay's standing subscription
    // the actors' own steps
    | HandlerStep(i: nat)
    | RefetchStep(i: nat)
    | RelayStep
    | LeafStep
    // things that go wrong
    | Lose(i: nat)        // a Data on the seam is dropped
    | SignFails           // the relay's signature fails; the loop goes on
    | RecvFails           // the subscription reports an error
    | SubscribeFails
    | RefetchFails(i: nat)
    | LeafFails
    | Cancel

  predicate Internal(e: Event) {
    e.HandlerStep? || e.RefetchStep? || e.RelayStep? || e.LeafStep?
  }

  predicate Fault(e: Event) {
    e.Lose? || e.SignFails? || e.RecvFails? || e.SubscribeFails? || e.RefetchFails? || e.LeafFails? || e.Cancel?
  }

  /** The pacing condition, in 64-bit arithmetic. */
  predicate Blocked(c: Config, s: State)
    requires c.Valid()
  {
    s.produced > (s.front + c.Lookahead()) % U64 && s.produced <= c.leaf.LastSeg()
  }

  /** What the leaf would do next, if anything. */
  function LeafAction(c: Config, s: State): CS.Action {
    if s.leaf.holding then CS.Send else CS.Acquire
  }

  predicate LeafReady(c: Config, s: State)
    requires c.Valid()
  {
    CS.CanAct(c.leaf, s.leaf, LeafAction(c, s))
  }

  /** Nothing more can arrive under this subscription although the leaf has segments left: its credit
    * is used up by Data that were lost.  The subscription Interest then runs out its lifetime. */
  predicate Starved(c: Config, s: State)
    requires c.Valid()
  {
    && s.relay.Recv? && s.stream == [] && s.owed > 0
    && !LeafReady(c, s) && !s.leaf.stopped && s.leaf.seg <= c.leaf.LastSeg()
  }

  predicate RelayReady(c: Config, s: State)
    requires c.Valid()
  {
    match s.relay
    case Idle => false
    case Wait => s.permit
    case Recv => s.stream != [] || s.owed == 0 || Starved(c, s)
    case Cancelled => false
    case _ => true
  }

  predicate Enabled(c: Config, s: State, e: Event)
    requires c.Valid()
  {
    match e
    case Interest(k) => k < U64
    case Evict(k) => k in s.cs
    case Expire(k) => k in s.pending
    case Echo(k) => s.relay.Recv? && s.source.Some? && k < s.produced && k < |c.leaf.segments|
    case HandlerStep(i) => i < |s.handlers| && !s.handlers[i].pc.Finished?
    case RefetchStep(i) => i < |s.refetches| && !s.refetches[i].pc.Over?
    case RelayStep => RelayReady(c, s)
    case LeafStep => LeafReady(c, s)
    case Lose(i) => i < |s.stream|
    case SignFails => s.relay.Commit?
    case RecvFails => s.relay.Recv?
    case SubscribeFails => s.relay.Subscribing?
    case RefetchFails(i) => i < |s.refetches| && !s.refetches[i].pc.Over?
    case LeafFails => s.leaf.holding && !s.leaf.stopped
    case Cancel => s.relay.Subscribing? || s.relay.Backoff? || s.relay.Wait? || s.relay.Recv?
  }

  /** A Data leaves the node: it is handed to every consumer waiting for it. */
  function Deliver(s: State, d: Data): State {
    s.(published := s.published + [d],
       answered := if d.seg in s.pending then s.answered + [d] else s.answered,
       pending := s.pending - {d.seg})
  }

  function InterestNext(s: State, k: nat): State {
    if k in s.cs then s.(answered := s.answered + [Data(k, s.cs[k])])
    else s.(pending := s.pending + {k}, handlers := s.handlers + [Handler(k, Raise)])
  }

  function HandlerNext(s: State, i: nat): State
    requires i < |s.handlers|
  {
    var h := s.handlers[i];
    match h.pc
    case Raise => s.(front := Max(s.front, h.seg), handlers := s.handlers[i := h.(pc := Notify)])
    case Notify => s.(permit := true, handlers := s.handlers[i := h.(pc := Start)])
    case Start =>
      var t := s.(handlers := s.handlers[i := h.(pc := Compare)]);
      if s.inputs then t.(inputs := false, relay := Subscribing) else t
    case Compare =>
      s.(handlers := s.handlers[i := h.(pc := if h.seg < s.produced then ReadSource else Finished)])
    case ReadSource =>
      var t := s.(handlers := s.handlers[i := h.(pc := Finished)]);
      if s.source.Some? then t.(refetches := s.refetches + [Refetch(h.seg, Fetching(s.source.value))]) else t
    case Finished => s
  }

  /** The re-fetch: the leaf answers its own names only; the answer is signed, cached and returned. */
  function RefetchNext(c: Config, s: State, i: nat): State
    requires c.Valid() && i < |s.refetches|
  {
    var r := s.refetches[i];
    match r.pc
    case Fetching(prefix) =>
      (match Answer(c.leaf, SegmentRequest(prefix, r.seg))
       case Some(SegmentReply(d)) => s.(refetches := s.refetches[i := r.(pc := Fetched(d.content))])
       case _ => s.(refetches := s.refetches[i := r.(pc := Over)]))
    case Fetched(content) =>
      Deliver(s.(cs := s.cs[r.seg := content], refetches := s.refetches[i := r.(pc := Over)]), Data(r.seg, content))
    case Over => s
  }

  function Subscribe(c: Config, s: State): State
    requires c.Valid()
  {
    s.(owed := RELAY_CREDIT, leaf := CS.Act(c.leaf, s.leaf, CS.Grant(RELAY_CREDIT)))
  }

  function RelayNext(c: Config, s: State): State
    requires c.Valid() && RelayReady(c, s)
  {
    match s.relay
    case Subscribing => Subscribe(c, s).(relay := Check)
    case Backoff => s.(relay := Subscribing)
    case Check => s.(relay := if Blocked(c, s) then Wait else Recv)
    case Wait => s.(permit := false, relay := Check)
    case Recv => RecvNext(c, s)
    case Learn(d) =>
      s.(source := if s.source.None? then Some(d.prefix) else s.source, relay := Commit(d))
    case Commit(d) => CommitNext(s, d)
    case _ => s
  }

  /** The receive: a segment, a used-up subscription that is expressed again, or one that ran out. */
  function RecvNext(c: Config, s: State): State
    requires c.Valid()
  {
    if s.stream != [] then
      s.(relay := Learn(s.stream[0]), stream := s.stream[1..], owed := Max(s.owed - 1, 0))
    else if s.owed == 0 then Subscribe(c, s)
    else s.(relay := Subscribing)
  }

  /** Cache, publish and store `produced`. */
  function CommitNext(s: State, d: Raw): State {
    Deliver(s.(cs := s.cs[d.seg := d.content], produced := Max(s.produced, d.seg + 1), relay := Check),
            Data(d.seg, d.content))
  }

  function LeafNext(c: Config, s: State): State
    requires c.Valid() && LeafReady(c, s)
  {
    var leaf := CS.Act(c.leaf, s.leaf, LeafAction(c, s));
    s.(leaf := leaf, stream := s.stream + leaf.sent[|s.leaf.sent|..])
  }

  function Next(c: Config, s: State, e: Event): State
    requires c.Valid() && Enabled(c, s, e)
  {
    match e
    case Interest(k) => InterestNext(s, k)
    case HandlerStep(i) => HandlerNext(s, i)
    case RefetchStep(i) => RefetchNext(c, s, i)
    case RelayStep => RelayNext(c, s)
    case LeafStep => LeafNext(c, s)
    case _ => OutsideNext(c, s, e)
  }

  predicate Outside(e: Event) {
    !Internal(e) && !e.Interest?
  }

  /** What the forwarder, impatient consumers and faults do. */
  function OutsideNext(c: Config, s: State, e: Event): State
    requires c.Valid() && Outside(e) && Enabled(c, s, e)
  {
    match e
    case Evict(k) => s.(cs := s.cs - {k})
    case Expire(k) => s.(pending := s.pending - {k})
    case Echo(k) => s.(relay := Learn(SegmentOf(c.leaf, k)), owed := Max(s.owed - 1, 0))
    case Lose(i) => s.(stream := s.stream[..i] + s.stream[i + 1..])
    case SignFails => s.(relay := Check)
    case RecvFails => s.(relay := Subscribing)
    case SubscribeFails => s.(relay := Backoff)
    case RefetchFails(i) => s.(refetches := s.refetches[i := s.refetches[i].(pc := Over)])
    case LeafFails => s.(leaf := CS.Act(c.leaf, s.leaf, CS.Fail))
    case Cancel => s.(relay := Cancelled)
  }

  /** `es` is an interleaving that leads from `s` to `t`. */
  ghost predicate Runs(c: Config, s: State, es: seq<Event>, t: State)
    requires c.Valid()
    decreases |es|
  {
    if es == [] then s == t
    else Enabled(c, s, es[0]) && Runs(c, Next(c, s, es[0]), es[1..], t)
  }

  ghost predicate Reachable(c: Config, s: State)
    requires c.Valid()
  {
    exists es :: Runs(c, INIT, es, s)
  }

  lemma {:induction false} RunsAppend(c: Config, s: State, es: seq<Event>, m: State, fs: seq<Event>, t: State)
    requires c.Valid() && Runs(c, s, es, m) && Runs(c, m, fs, t)
    ensures Runs(c, s, es + fs, t)
    decreases |es|
  {
    if es == [] {
      assert es + fs == fs;
    } else {
      RunsAppend(c, Next(c, s, es[0]), es[1..], m, fs, t);
      assert (es + fs)[1..] == es[1..] + fs;
    }
  }

  /** The state a run is in after its first `n` events. */
  lemma {:induction false} RunsSplit(c: Config, s: State, es: seq<Event>, t: State, n: nat) returns (m: State)
    requires c.Valid() && Runs(c, s, es, t) && n <= |es|
    ensures Runs(c, s, es[..n], m) && Runs(c, m, es[n..], t)
    decreases n
  {
    if n == 0 {
      m := s;
      assert es[0..] == es;
    } else {
      m := RunsSplit(c, Next(c, s, es[0]), es[1..], t, n - 1);
      assert es[..n][1..] == es[1..][..n - 1] && es[n..] == es[1..][n - 1..];
    }
  }

  lemma RunsSnoc(c: Config, s: State, es: seq<Event>, m: State, e: Event)
    requires c.Valid() && Runs(c, s, es, m) && Enabled(c, m, e)
    ensures Runs(c, s, es + [e], Next(c, m, e))
  {
    assert [e][1..] == [];
    RunsAppend(c, s, es, m, [e], Next(c, m, e));
  }
}
