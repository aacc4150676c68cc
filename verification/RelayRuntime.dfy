/** The relay's code over its shared state (crates/ndn-mobile/src/object_relay.rs).
  *
  * `ServeMiss` is the handler closure and `RunRelay` the relay task, written with the source's own
  * control flow.  Every await point and every gap between two atomic actions is a call of `Await`,
  * where the other actors take any steps the schedule gives them.  Both methods are proved to
  * perform runs of the step relation, so all results about runs hold of them.
  */
module RelayRuntime {
  import opened Basics
  import opened RdrObject
  import opened RelayProtocol
  import CS = ContentStream
  import RelaySafety

  /** How an awaited operation of the running task ends: as it should, with an error, by cancellation, with an
    * old segment that a re-fetch also brought to the subscription; `Halts` when the schedule is used up. */
  datatype Outcome = Proceeds | Errs | Cancels | Echoes(k: nat) | Halts

  /** The other actors' steps during one await, and how the await ends. */
  datatype Turn = Turn(others: seq<Event>, outcome: Outcome)

  /** How an await that was scheduled ends. */
  function Ending(turn: Turn): Outcome {
    if turn.outcome.Halts? then Proceeds else turn.outcome
  }

  /** What one receive comes to. */
  datatype Receipt = Segment(got: Raw) | Resubscribe | Stopped | Nothing

  /** Who is running: the relay task, or the handler task with this index. */
  datatype Task = RelayTask | HandlerTask(i: nat)

  /** Steps that belong to the running task, and are taken by its code only. */
  predicate Own(task: Task, e: Event) {
    match task
    case RelayTask => e.RelayStep? || e.Echo? || e.SignFails? || e.RecvFails? || e.SubscribeFails? || e.Cancel?
    case HandlerTask(i) => e == HandlerStep(i)
  }

  lemma OthersLeaveTask(c: Config, s: State, task: Task, e: Event)
    requires c.Valid() && Reachable(c, s) && Enabled(c, s, e) && !Own(task, e)
    requires task.HandlerTask? ==> task.i < |s.handlers|
    ensures var t := Next(c, s, e);
      match task
      case RelayTask => s.relay != Idle ==> t.relay == s.relay
      case HandlerTask(i) => |s.handlers| <= |t.handlers| && t.handlers[i] == s.handlers[i]
  {
    RelaySafety.InvReachable(c, s);
    RelaySafety.HandlersKept(c, s, e);
  }

  lemma CommitStep(c: Config, s: State, d: Raw)
    requires c.Valid() && s.relay == Commit(d)
    ensures Enabled(c, s, RelayStep) && Next(c, s, RelayStep) == CommitNext(s, d)
  {
  }

  lemma CheckStep(c: Config, s: State)
    requires c.Valid() && s.relay.Check?
    ensures Enabled(c, s, RelayStep)
    ensures Next(c, s, RelayStep) == s.(relay := if Blocked(c, s) then Wait else Recv)
  {
  }

  class RelayNode {
    const config: Config
    var script: seq<Turn>

    // the memory shared by handlers, relay and re-fetches
    var front: nat
    var produced: nat
    var permit: bool
    var inputs: bool
    var source: Option<Prefix>
    var cs: map<nat, Bytes>

    /** Everything else: where each actor stands, the leaf, the seam, the consumers. */
    var world: State

    ghost var history: seq<Event>

    /** How long the history was when the running actor last went on after an await. */
    ghost var resumed: nat

    function View(): State
      reads this
    {
      world.(front := front, produced := produced, permit := permit, inputs := inputs, source := source, cs := cs)
    }

    /** The node is where its history leads. */
    ghost predicate Valid()
      reads this
    {
      config.Valid() && Runs(config, INIT, history, View()) && resumed <= |history|
    }

    /** An actor awaits only after a step of its own, or when it has none to take: it never sleeps over a
      * notification, a segment or used-up credit. */
    ghost predicate MayAwait(task: Task)
      requires config.Valid()
      reads this
    {
      |history| > resumed || (task.RelayTask? && !RelayReady(config, View()))
    }

    constructor (c: Config, schedule: seq<Turn>)
      requires c.Valid()
      ensures Valid() && config == c && View() == INIT && script == schedule && history == []
    {
      config, script, world, history, resumed := c, schedule, INIT, [], 0;
      front, produced, permit, inputs, source, cs := 0, 0, false, true, None, map[];
    }

    /** The step `e` was taken, and nothing else. */
    twostate predicate Took(e: Event)
      reads this
    {
      && config.Valid() && Enabled(config, old(View()), e)
      && View() == Next(config, old(View()), e)
      && history == old(history) + [e] && script == old(script) && resumed == old(resumed)
    }

    /** The running task is where it was. */
    twostate predicate Undisturbed(task: Task)
      reads this
    {
      match task
      case RelayTask => old(world.relay) != Idle ==> world.relay == old(world.relay)
      case HandlerTask(i) =>
        i < |old(world.handlers)| <= |world.handlers| && world.handlers[i] == old(world.handlers)[i]
    }

    /** The latest step. */
    ghost predicate Latest(e: Event)
      reads this
    {
      history != [] && history[|history| - 1] == e
    }

    /** A step of another actor. */
    method Other(task: Task, e: Event)
      requires Valid() && !Own(task, e) && Enabled(config, View(), e)
      requires task.HandlerTask? ==> task.i < |world.handlers|
      modifies this
      ensures Valid() && Took(e) && Undisturbed(task)
    {
      OthersLeaveTask(config, View(), task, e);
      RunsSnoc(config, INIT, history, View(), e);
      Become(Next(config, View(), e));
      history := history + [e];
    }

    method Become(t: State)
      modifies this
      ensures View() == t && world == t
      ensures script == old(script) && history == old(history) && resumed == old(resumed)
    {
      front, produced, permit, inputs, source, cs := t.front, t.produced, t.permit, t.inputs, t.source, t.cs;
      world := t;
    }

    /** The other actors move; then the awaited operation ends. */
    method Await(task: Task) returns (outcome: Outcome)
      requires Valid() && MayAwait(task)
      requires task.HandlerTask? ==> task.i < |world.handlers|
      modifies this
      ensures Valid() && old(history) <= history && Undisturbed(task)
      ensures !outcome.Halts? ==> resumed == |history|
      ensures if old(script) == [] then outcome.Halts? && script == []
              else outcome == Ending(old(script)[0]) && script == old(script)[1..]
    {
      if script == [] {
        return Halts;
      }
      var turn := script[0];
      for j := 0 to |turn.others|
        invariant Valid() && old(history) <= history && Undisturbed(task) && script == old(script)
      {
        var e := turn.others[j];
        if !Own(task, e) && Enabled(config, View(), e) {
          Other(task, e);
        }
      }
      script := script[1..];
      resumed := |history|;
      outcome := Ending(turn);
    }

    // ------------------------------------------------------- the handler closure

    ghost predicate HandlerAt(i: nat, pc: HandlerPc)
      reads this
    {
      i < |world.handlers| && world.handlers[i].pc == pc
    }

    method MoveHandler(i: nat, pc: HandlerPc)
      requires i < |world.handlers|
      modifies `world
      ensures world == old(world).(handlers := old(world).handlers[i := old(world).handlers[i].(pc := pc)])
    {
      world := world.(handlers := world.handlers[i := world.handlers[i].(pc := pc)]);
    }

    method RaiseFront(i: nat)
      requires Valid() && HandlerAt(i, Raise)
      modifies this
      ensures Valid() && Took(HandlerStep(i))
    {
      RunsSnoc(config, INIT, history, View(), HandlerStep(i));
      front := Max(front, world.handlers[i].seg);
      MoveHandler(i, Notify);
      history := history + [HandlerStep(i)];
    }

    method NotifyOne(i: nat)
      requires Valid() && HandlerAt(i, Notify)
      modifies this
      ensures Valid() && Took(HandlerStep(i))
    {
      RunsSnoc(config, INIT, history, View(), HandlerStep(i));
      permit := true;
      MoveHandler(i, Start);
      history := history + [HandlerStep(i)];
    }

    method TakeInputs(i: nat)
      requires Valid() && HandlerAt(i, Start)
      modifies this
      ensures Valid() && Took(HandlerStep(i))
    {
      RunsSnoc(config, INIT, history, View(), HandlerStep(i));
      MoveHandler(i, Compare);
      if inputs {
        inputs := false;
        world := world.(relay := Subscribing);
      }
      history := history + [HandlerStep(i)];
    }

    method CompareWithProduced(i: nat) returns (behind: bool)
      requires Valid() && HandlerAt(i, Compare)
      modifies this
      ensures Valid() && Took(HandlerStep(i))
      ensures behind <==> old(world.handlers[i].seg < produced)
    {
      RunsSnoc(config, INIT, history, View(), HandlerStep(i));
      behind := world.handlers[i].seg < produced;
      MoveHandler(i, if behind then ReadSource else Finished);
      history := history + [HandlerStep(i)];
    }

    method SpawnRefetch(i: nat)
      requires Valid() && HandlerAt(i, ReadSource)
      modifies this
      ensures Valid() && Took(HandlerStep(i))
    {
      RunsSnoc(config, INIT, history, View(), HandlerStep(i));
      if source.Some? {
        world := world.(refetches := world.refetches + [Refetch(world.handlers[i].seg, Fetching(source.value))]);
      }
      MoveHandler(i, Finished);
      history := history + [HandlerStep(i)];
    }

    /** Raise the demand front and, if it is not running, start the relay. */
    method AdvanceDemand(i: nat)
      requires Valid() && HandlerAt(i, Raise)
      modifies this
      ensures Valid() && old(history) <= history
      ensures HandlerAt(i, Compare) && world.handlers[i].seg == old(world.handlers[i].seg)
      ensures |history| > resumed
    {
      RaiseFront(i);
      var outcome := Await(HandlerTask(i));
      NotifyOne(i);
      outcome := Await(HandlerTask(i));
      TakeInputs(i);
    }

    /** Re-fetch a segment the relay has passed. */
    method ServeBehind(i: nat)
      requires Valid() && HandlerAt(i, Compare)
      modifies this
      ensures Valid() && old(history) <= history
      ensures HandlerAt(i, Finished)
    {
      var behind := CompareWithProduced(i);
      if behind {
        var outcome := Await(HandlerTask(i));
        SpawnRefetch(i);
      }
    }

    /** The handler of one segment Interest that missed the content store, interrupted anywhere by the
      * other actors: front, notification, relay start, comparison and re-fetch, in that order. */
    method ServeMiss(i: nat)
      requires Valid() && HandlerAt(i, Raise)
      modifies this
      ensures Valid() && old(history) <= history
      ensures HandlerAt(i, Finished) && RelaySafety.Inv(config, View())
    {
      AdvanceDemand(i);
      var outcome := Await(HandlerTask(i));
      ServeBehind(i);
      RelaySafety.InvRuns(config, INIT, history, View());
    }

    // ------------------------------------------------------------ the relay task

    method Deliver(d: Data)
      modifies `world
      ensures world == RelayProtocol.Deliver(old(world), d)
    {
      world := world.(published := world.published + [d],
                      answered := if d.seg in world.pending then world.answered + [d] else world.answered,
                      pending := world.pending - {d.seg});
    }

    /** `cancel` fired while the relay awaited something. */
    method Stop()
      requires Valid()
      requires world.relay.Subscribing? || world.relay.Backoff? || world.relay.Wait? || world.relay.Recv?
      modifies this
      ensures Valid() && Took(Cancel)
    {
      RunsSnoc(config, INIT, history, View(), Cancel);
      world := world.(relay := Cancelled);
      history := history + [Cancel];
    }

    /** `subscribe`, or the re-expression of a used-up subscription Interest: the leaf gets credit. */
    method Subscribe()
      requires Valid()
      requires world.relay.Subscribing? || (world.relay.Recv? && world.stream == [] && world.owed == 0)
      modifies this
      ensures Valid() && Took(RelayStep)
      ensures world.relay == if old(world.relay.Subscribing?) then Check else Recv
    {
      RunsSnoc(config, INIT, history, View(), RelayStep);
      var leaf := world.leaf;
      leaf := leaf.(granted := leaf.granted + RELAY_CREDIT, permits := leaf.permits + RELAY_CREDIT);
      world := world.(owed := RELAY_CREDIT, leaf := leaf, relay := if world.relay.Subscribing? then Check else Recv);
      history := history + [RelayStep];
    }

    method SubscribeFailed()
      requires Valid() && world.relay.Subscribing?
      modifies this
      ensures Valid() && Took(SubscribeFails)
    {
      RunsSnoc(config, INIT, history, View(), SubscribeFails);
      world := world.(relay := Backoff);
      history := history + [SubscribeFails];
    }

    method SleepOver()
      requires Valid() && world.relay.Backoff?
      modifies this
      ensures Valid() && Took(RelayStep)
    {
      RunsSnoc(config, INIT, history, View(), RelayStep);
      world := world.(relay := Subscribing);
      history := history + [RelayStep];
    }

    /** The pacing condition is evaluated. */
    method Pace() returns (wait: bool)
      requires Valid() && world.relay.Check?
      modifies this
      ensures Valid() && Took(RelayStep)
      ensures world.relay == if wait then Wait else Recv
    {
      ghost var s := View();
      CheckStep(config, s);
      wait := MustWait();
      world := world.(relay := if wait then Wait else Recv);
      assert View() == s.(relay := if wait then Wait else Recv);
      Record(s, RelayStep);
    }

    /** A step just taken from `s` becomes part of the history. */
    ghost method Record(s: State, e: Event)
      requires config.Valid() && Runs(config, INIT, history, s) && Enabled(config, s, e) && View() == Next(config, s, e)
      requires resumed <= |history|
      modifies `history
      ensures history == old(history) + [e] && Valid()
    {
      RunsSnoc(config, INIT, history, s, e);
      history := history + [e];
    }

    method MustWait() returns (wait: bool)
      requires config.Valid()
      ensures wait == Blocked(config, View())
    {
      wait := produced > (front + config.Lookahead()) % U64 && produced <= config.leaf.LastSeg();
    }

    method ConsumePermit()
      requires Valid() && world.relay.Wait? && permit
      modifies this
      ensures Valid() && Took(RelayStep) && world.relay.Check?
    {
      RunsSnoc(config, INIT, history, View(), RelayStep);
      permit := false;
      world := world.(relay := Check);
      history := history + [RelayStep];
    }

    method TakeData()
      requires Valid() && world.relay.Recv? && world.stream != []
      modifies this
      ensures Valid() && Took(RelayStep) && world.relay == Learn(old(world.stream[0]))
    {
      RunsSnoc(config, INIT, history, View(), RelayStep);
      world := world.(relay := Learn(world.stream[0]), stream := world.stream[1..], owed := Max(world.owed - 1, 0));
      history := history + [RelayStep];
    }

    /** A re-fetched segment arrives on the subscription as well. */
    method TakeEcho(k: nat)
      requires Valid() && Enabled(config, View(), Echo(k))
      modifies this
      ensures Valid() && Took(Echo(k)) && world.relay == Learn(SegmentOf(config.leaf, k))
    {
      RunsSnoc(config, INIT, history, View(), Echo(k));
      world := world.(relay := Learn(SegmentOf(config.leaf, k)), owed := Max(world.owed - 1, 0));
      history := history + [Echo(k)];
    }

    method ReceiveFailed()
      requires Valid() && world.relay.Recv?
      modifies this
      ensures Valid() && Took(RecvFails) && world.relay.Subscribing?
    {
      RunsSnoc(config, INIT, history, View(), RecvFails);
      world := world.(relay := Subscribing);
      history := history + [RecvFails];
    }

    method SubscriptionRanOut()
      requires Valid() && world.relay.Recv? && Starved(config, View())
      modifies this
      ensures Valid() && Took(RelayStep) && world.relay.Subscribing?
    {
      RunsSnoc(config, INIT, history, View(), RelayStep);
      world := world.(relay := Subscribing);
      history := history + [RelayStep];
    }

    method LearnPrefix(d: Raw)
      requires Valid() && world.relay == Learn(d)
      modifies this
      ensures Valid() && Took(RelayStep) && world.relay == Commit(d)
    {
      RunsSnoc(config, INIT, history, View(), RelayStep);
      if source.None? {
        source := Some(d.prefix);
      }
      world := world.(relay := Commit(d));
      history := history + [RelayStep];
    }

    method SignFailed()
      requires Valid() && world.relay.Commit?
      modifies this
      ensures Valid() && Took(SignFails) && world.relay.Check?
    {
      RunsSnoc(config, INIT, history, View(), SignFails);
      world := world.(relay := Check);
      history := history + [SignFails];
    }

    /** Cache, publish, and advance `produced`. */
    method CommitData(d: Raw)
      requires Valid() && world.relay == Commit(d)
      modifies this
      ensures Valid() && Took(RelayStep) && world.relay.Check?
    {
      RunsSnoc(config, INIT, history, View(), RelayStep);
      CommitStep(config, View(), d);
      CachePublishStore(d);
      history := history + [RelayStep];
    }

    method CachePublishStore(d: Raw)
      modifies `cs, `produced, `world
      ensures View() == CommitNext(old(View()), d)
    {
      cs := cs[d.seg := d.content];
      Deliver(Data(d.seg, d.content));
      produced := Max(produced, d.seg + 1);
      world := world.(relay := Check);
    }

    /** The relay task until it is cancelled or the schedule ends. */
    method RunRelay()
      requires Valid() && world.relay.Subscribing? && |history| > resumed
      modifies this
      ensures Valid() && old(history) <= history
      ensures world.relay.Cancelled? || script == []
      ensures RelaySafety.Inv(config, View())
    {
      while true
        invariant Valid() && old(history) <= history && world.relay.Subscribing? && |history| > resumed
        decreases |script|
      {
        var go := TrySubscribe();
        if go {
          go := Relay();
        } else {
          go := world.relay.Subscribing?;
        }
        if !go || script == [] {
          RelaySafety.InvRuns(config, INIT, history, View());
          return;
        }
      }
    }

    /** One attempt to subscribe, with the sleep after a failure. */
    method TrySubscribe() returns (subscribed: bool)
      requires Valid() && world.relay.Subscribing? && |history| > resumed
      modifies this
      ensures Valid() && old(history) <= history && |script| <= |old(script)|
      ensures subscribed ==> world.relay.Check?
      ensures |history| > resumed || script == []
      ensures !subscribed ==> world.relay.Cancelled? || script == [] || world.relay.Subscribing?
      ensures |script| < |old(script)| || script == []
      ensures old(script) != [] ==> (subscribed <==> Ending(old(script)[0]).Proceeds?)
      ensures old(script) != [] && Ending(old(script)[0]).Cancels? ==> Latest(Cancel)
    {
      var o := Await(RelayTask);
      if o.Halts? { return false; }
      if o.Cancels? { Stop(); return false; }
      if o.Proceeds? { Subscribe(); return true; }
      RetryLater();
      return false;
    }

    /** The subscription failed: sleep, unless cancelled meanwhile, and try again. */
    method RetryLater()
      requires Valid() && world.relay.Subscribing?
      modifies this
      ensures Valid() && old(history) <= history && |script| <= |old(script)|
      ensures |history| > resumed || script == []
      ensures if old(script) == [] then script == []
              else if Ending(old(script)[0]).Cancels? then world.relay.Cancelled? && Latest(Cancel)
              else world.relay.Subscribing? && Latest(RelayStep)
    {
      SubscribeFailed();
      var o := Await(RelayTask);
      if o.Halts? { return; }
      if o.Cancels? { Stop(); return; }
      SleepOver();
    }

    /** The inner loop: pace, receive, learn, sign, commit.  Returns whether to subscribe again. */
    method Relay() returns (again: bool)
      requires Valid() && world.relay.Check?
      modifies this
      ensures Valid() && old(history) <= history && |script| <= |old(script)|
      ensures if again then world.relay.Subscribing? && |history| > resumed else world.relay.Cancelled? || script == []
    {
      while true
        invariant Valid() && old(history) <= history && |script| <= |old(script)|
        invariant world.relay.Check?
        decreases |script|
      {
        var go := WaitForDemand();
        if !go { return false; }
        var got;
        go, again, got := Receive();
        if !go { return; }
        go := Republish(got);
        if !go { return false; }
      }
    }

    /** Learn the prefix, sign, cache and publish one segment; a failed signature skips it. */
    method Republish(got: Raw) returns (go: bool)
      requires Valid() && world.relay == Learn(got) && |history| > resumed
      modifies this
      ensures Valid() && old(history) <= history && |script| <= |old(script)|
      ensures if go then world.relay.Check? else script == []
      ensures |old(script)| > 1 ==> go && Latest(if Ending(old(script)[1]).Errs? then SignFails else RelayStep)
    {
      var o := Await(RelayTask);
      if o.Halts? { return false; }
      LearnPrefix(got);
      o := Await(RelayTask);
      if o.Halts? { return false; }
      if o.Errs? {
        SignFailed();
      } else {
        CommitData(got);
      }
      return true;
    }

    /** The pacing loop.  Returns false when the relay stops instead. */
    method WaitForDemand() returns (go: bool)
      requires Valid() && world.relay.Check?
      modifies this
      ensures Valid() && old(history) <= history && |script| <= |old(script)|
      ensures if go then world.relay.Recv? && |history| > resumed else world.relay.Cancelled? || script == []
    {
      var wait := Pace();
      while wait
        invariant Valid() && old(history) <= history && |script| <= |old(script)|
        invariant world.relay == if wait then Wait else Recv
        invariant |history| > resumed || (wait && !permit)
        decreases |script|
      {
        go, wait := WaitOnce();
        if !go { return false; }
      }
      return true;
    }

    /** One turn of the pacing wait: a stored notification is consumed and the condition evaluated again. */
    method WaitOnce() returns (go: bool, wait: bool)
      requires Valid() && world.relay.Wait? && MayAwait(RelayTask)
      modifies this
      ensures Valid() && old(history) <= history && |script| <= |old(script)|
      ensures go ==> |script| < |old(script)| && world.relay == if wait then Wait else Recv
      ensures go ==> |history| > resumed || (wait && !permit)
      ensures !go ==> world.relay.Cancelled? || script == []
      ensures old(script) != [] && Ending(old(script)[0]).Cancels? ==> !go && Latest(Cancel)
    {
      go, wait := false, true;
      var o := Await(RelayTask);
      if o.Halts? { return; }
      if o.Cancels? { Stop(); return; }
      if permit {
        ConsumePermit();
        o := Await(RelayTask);
        if o.Halts? { return; }
        wait := Pace();
      }
      go := true;
    }

    /** The receive.  Returns a segment, or whether to subscribe again. */
    method Receive() returns (go: bool, again: bool, got: Raw)
      requires Valid() && world.relay.Recv? && |history| > resumed
      modifies this
      ensures Valid() && old(history) <= history && |script| <= |old(script)|
      ensures go ==> world.relay == Learn(got) && |script| < |old(script)| && |history| > resumed
      ensures !go && again ==> world.relay.Subscribing? && |history| > resumed
      ensures !go && !again ==> world.relay.Cancelled? || script == []
    {
      go, again, got := false, false, SegmentOf(config.leaf, 0);
      while script != []
        invariant Valid() && old(history) <= history && |script| <= |old(script)|
        invariant world.relay.Recv? && MayAwait(RelayTask)
        decreases |script|
      {
        var receipt := ReceiveOnce();
        match receipt {
          case Segment(data) => go, got := true, data; return;
          case Resubscribe => again := true; return;
          case Stopped => return;
          case Nothing =>
        }
      }
    }

    /** One turn of the receive: the next segment on the seam or an echo, an error, cancellation, or a used-up
      * subscription that is expressed again or has run out. */
    method ReceiveOnce() returns (receipt: Receipt)
      requires Valid() && world.relay.Recv? && MayAwait(RelayTask) && script != []
      modifies this
      ensures Valid() && old(history) <= history && script == old(script)[1..]
      ensures match receipt
        case Segment(got) => world.relay == Learn(got) && |history| > resumed
        case Resubscribe => world.relay.Subscribing? && |history| > resumed
        case Stopped => world.relay.Cancelled?
        case Nothing => world.relay.Recv? && MayAwait(RelayTask)
      ensures Ending(old(script)[0]).Cancels? ==> receipt.Stopped? && Latest(Cancel)
      ensures Ending(old(script)[0]).Errs? ==> receipt.Resubscribe? && Latest(RecvFails)
    {
      var o := Await(RelayTask);
      if o.Cancels? { Stop(); return Stopped; }
      if o.Errs? { ReceiveFailed(); return Resubscribe; }
      if o.Echoes? && Enabled(config, View(), Echo(o.k)) {
        TakeEcho(o.k);
        return Segment(SegmentOf(config.leaf, o.k));
      }
      if world.stream != [] {
        var got := world.stream[0];
        TakeData();
        return Segment(got);
      }
      if world.owed == 0 {
        Subscribe();
      } else if Starved(config, View()) {
        SubscriptionRanOut();
        return Resubscribe;
      }
      return Nothing;
    }
  }
}
