/** The keyless leaf's credit-gated streamer (crates/ndn-boltffi/src/offer.rs, `serve_content_stream`).
  *
  * A subscription adds permits; one streamer publishes segments `0..=last` in order and
  * spends one permit per segment.  The two actors interleave freely.
  */
module ContentStream {
  import opened Basics
  import opened RdrObject

  /** `holding` is the point between forgetting a permit and the send that it pays for. */
  datatype Streamer = Streamer(granted: nat, permits: nat, holding: bool, seg: nat, sent: seq<Raw>, stopped: bool)

  const START := Streamer(0, 0, false, 0, [], false)

  /** What can happen at the leaf. */
  datatype Action =
    | Grant(maxDataCount: nat)   // a subscription Interest reaches the handler
    | Acquire                    // the streamer obtains and forgets one permit
    | Send                       // the segment is read and sent over the seam
    | Fail                       // the segment cannot be read, or the seam is gone

  predicate CanAct(o: Object, st: Streamer, a: Action)
    requires o.Valid()
  {
    match a
    case Grant(_) => true
    case Acquire => !st.stopped && !st.holding && st.seg <= o.LastSeg() && st.permits > 0
    case Send => !st.stopped && st.holding && st.seg <= o.LastSeg()
    case Fail => !st.stopped && st.holding
  }

  function Act(o: Object, st: Streamer, a: Action): Streamer
    requires o.Valid() && CanAct(o, st, a)
  {
    match a
    case Grant(n) =>
      var credit := Max(n, 1);
      st.(granted := st.granted + credit, permits := st.permits + credit)
    case Acquire => st.(permits := st.permits - 1, holding := true)
    case Send => st.(holding := false, sent := st.sent + [SegmentOf(o, st.seg)], seg := st.seg + 1)
    case Fail => st.(holding := false, stopped := true)
  }

  /** Permits that have been forgotten: one per segment sent, one in hand, one lost to a failure. */
  function Consumed(st: Streamer): nat {
    |st.sent| + (if st.holding then 1 else 0) + (if st.stopped then 1 else 0)
  }

  /** Credit is neither created nor destroyed, and the stream is a gap-free prefix of the object. */
  ghost predicate Conserved(o: Object, st: Streamer)
    requires o.Valid()
  {
    && st.granted == st.permits + Consumed(st)
    && st.seg == |st.sent| <= o.LastSeg() + 1
    && (st.holding ==> st.seg <= o.LastSeg())
    && !(st.holding && st.stopped)
    && forall k :: 0 <= k < |st.sent| ==> st.sent[k] == SegmentOf(o, k)
  }

  ghost predicate Runs(o: Object, st: Streamer, actions: seq<Action>, end: Streamer)
    requires o.Valid()
    decreases |actions|
  {
    if actions == [] then st == end
    else CanAct(o, st, actions[0]) && Runs(o, Act(o, st, actions[0]), actions[1..], end)
  }

  function TotalGranted(actions: seq<Action>): nat {
    if actions == [] then 0
    else (match actions[0] case Grant(n) => Max(n, 1) case _ => 0) + TotalGranted(actions[1..])
  }

  lemma ConservedStep(o: Object, st: Streamer, a: Action)
    requires o.Valid() && Conserved(o, st) && CanAct(o, st, a)
    ensures Conserved(o, Act(o, st, a))
  {
  }

  lemma {:induction false} ConservedRuns(o: Object, st: Streamer, actions: seq<Action>, end: Streamer)
    requires o.Valid() && Conserved(o, st) && Runs(o, st, actions, end)
    ensures Conserved(o, end) && end.granted == st.granted + TotalGranted(actions)
    decreases |actions|
  {
    if actions != [] {
      ConservedStep(o, st, actions[0]);
      ConservedRuns(o, Act(o, st, actions[0]), actions[1..], end);
    }
  }

  /** Over every interleaving of grants, sends and failures: the permits granted so far are exactly
    * those still available plus those forgotten, and the leaf has sent segments `0..n-1`, each once
    * and in order, with `n` bounded by the credit and by the object. */
  lemma CreditConservation(o: Object, actions: seq<Action>, end: Streamer)
    requires o.Valid() && Runs(o, START, actions, end)
    ensures TotalGranted(actions) == end.permits + Consumed(end)
    ensures |end.sent| <= TotalGranted(actions) && |end.sent| <= o.LastSeg() + 1
    ensures forall k :: 0 <= k < |end.sent| ==> end.sent[k] == SegmentOf(o, k)
  {
    ConservedRuns(o, START, actions, end);
  }

  /** With the seam up the streamer never withholds credit: once it can neither acquire nor send,
    * it has sent as many segments as credit and object allow. */
  lemma CreditIsSpent(o: Object, actions: seq<Action>, end: Streamer)
    requires o.Valid() && Runs(o, START, actions, end)
    requires !CanAct(o, end, Acquire) && !CanAct(o, end, Send) && !end.stopped
    ensures |end.sent| == Min(TotalGranted(actions), o.LastSeg() + 1)
  {
    ConservedRuns(o, START, actions, end);
  }

  lemma {:induction false} StoppedSendsNothing(o: Object, st: Streamer, actions: seq<Action>, end: Streamer)
    requires o.Valid() && st.stopped && Runs(o, st, actions, end)
    ensures end.stopped && end.sent == st.sent && end.permits == st.permits + TotalGranted(actions)
    decreases |actions|
  {
    if actions != [] {
      StoppedSendsNothing(o, Act(o, st, actions[0]), actions[1..], end);
    }
  }

  /** A failure ends the stream: nothing is sent any more, whatever is granted, and the permit is not given back. */
  lemma FailureEndsStream(o: Object, st: Streamer, actions: seq<Action>, end: Streamer)
    requires o.Valid() && CanAct(o, st, Fail) && Runs(o, Act(o, st, Fail), actions, end)
    ensures end.sent == st.sent && end.permits == st.permits + TotalGranted(actions)
  {
    StoppedSendsNothing(o, Act(o, st, Fail), actions, end);
  }

  /** One wake-up of the streamer: grants that arrive while it waits, grants that arrive while
    * it reads and sends, and whether the seam still takes the Data. */
  datatype Turn = Turn(waiting: seq<nat>, sending: seq<nat>, up: bool)

  function GrantAll(st: Streamer, grants: seq<nat>): Streamer {
    if grants == [] then st
    else
      var init := GrantAll(st, grants[..|grants| - 1]);
      var credit := Max(grants[|grants| - 1], 1);
      init.(granted := init.granted + credit, permits := init.permits + credit)
  }

  /** What one wake-up comes to: the streamer sends exactly when it finds a permit and the seam is up. */
  function AfterTurn(o: Object, st: Streamer, t: Turn): Streamer
    requires st.seg < |o.segments|
  {
    var woken := GrantAll(st, t.waiting);
    if woken.permits == 0 then woken
    else
      var paid := GrantAll(woken.(permits := woken.permits - 1), t.sending);
      if t.up then paid.(sent := paid.sent + [SegmentOf(o, st.seg)], seg := st.seg + 1) else paid.(stopped := true)
  }

  function AfterTurns(o: Object, st: Streamer, turns: seq<Turn>): Streamer
    decreases |turns|
  {
    if turns == [] || st.stopped || st.seg >= |o.segments| then st
    else AfterTurns(o, AfterTurn(o, st, turns[0]), turns[1..])
  }

  lemma {:induction false} GrantsTouchCreditOnly(st: Streamer, grants: seq<nat>)
    ensures var t := GrantAll(st, grants);
      && t == st.(granted := t.granted, permits := t.permits)
      && t.permits - st.permits == t.granted - st.granted >= |grants|
    decreases |grants|
  {
    if grants != [] {
      GrantsTouchCreditOnly(st, grants[..|grants| - 1]);
    }
  }

  /** With the seam up and a grant before each send, nothing holds the stream back: after as many wake-ups as
    * there are segments, all of them are sent. */
  lemma {:induction false} GrantedStreamCompletes(o: Object, st: Streamer, turns: seq<Turn>)
    requires o.Valid() && !st.stopped && !st.holding && st.seg <= |o.segments| && |turns| >= |o.segments| - st.seg
    requires forall i :: 0 <= i < |turns| ==> turns[i].up && turns[i].waiting != []
    ensures AfterTurns(o, st, turns).seg == |o.segments| && !AfterTurns(o, st, turns).stopped
    decreases |turns|
  {
    if turns != [] && st.seg < |o.segments| {
      GrantsTouchCreditOnly(st, turns[0].waiting);
      var woken := GrantAll(st, turns[0].waiting);
      GrantsTouchCreditOnly(woken.(permits := woken.permits - 1), turns[0].sending);
      assert turns[0].up && turns[0].waiting != [];
      GrantedStreamCompletes(o, AfterTurn(o, st, turns[0]), turns[1..]);
    }
  }

  /** The streamer task together with the budget it shares with the subscription handler. */
  class LeafStreamer {
    const prepared: Object
    var granted: nat
    var permits: nat
    var seg: nat
    var sent: seq<Raw>
    var stopped: bool

    ghost predicate Valid()
      reads this
    {
      prepared.Valid()
    }

    ghost function View(holding: bool): Streamer
      reads this
    {
      Streamer(granted, permits, holding, seg, sent, stopped)
    }

    constructor (o: Object)
      requires o.Valid()
      ensures Valid() && prepared == o && View(false) == START
    {
      prepared := o;
      granted, permits, seg, sent, stopped := 0, 0, 0, [], false;
    }

    /** The subscription handler. */
    method AddPermits(maxDataCount: nat)
      requires Valid()
      modifies this`granted, this`permits
      ensures Valid()
      ensures forall h :: View(h) == Act(prepared, old(View(h)), Grant(maxDataCount))
    {
      var credit := Max(maxDataCount, 1);
      granted := granted + credit;
      permits := permits + credit;
    }

    /** The streamer loop under an arbitrary schedule of grants and seam failures; the ghost result
      * is the interleaving it performed. */
    method Stream(turns: seq<Turn>) returns (ghost actions: seq<Action>)
      requires Valid() && View(false) == START
      modifies this
      ensures Valid() && Runs(prepared, START, actions, View(false))
      ensures Conserved(prepared, View(false)) && granted == TotalGranted(actions)
      ensures View(false) == AfterTurns(prepared, START, turns)
    {
      actions := [];
      var i := 0;
      while i < |turns| && seg <= prepared.LastSeg() && !stopped
        invariant Valid() && i <= |turns|
        invariant Runs(prepared, START, actions, View(false))
        invariant Conserved(prepared, View(false))
        invariant AfterTurns(prepared, START, turns) == AfterTurns(prepared, View(false), turns[i..])
      {
        assert turns[i..][0] == turns[i] && turns[i..][1..] == turns[i + 1..];
        actions := Wake(turns[i], actions);
        ConservedRuns(prepared, START, actions, View(false));
        i := i + 1;
      }
      ConservedRuns(prepared, START, actions, View(false));
    }

    /** One wake-up: the grants that arrive meanwhile, and one segment if there is a permit for it. */
    method Wake(turn: Turn, ghost before: seq<Action>) returns (ghost actions: seq<Action>)
      requires Valid() && !stopped && seg <= prepared.LastSeg() && Runs(prepared, START, before, View(false))
      modifies this
      ensures Valid() && Runs(prepared, START, actions, View(false))
      ensures View(false) == AfterTurn(prepared, old(View(false)), turn)
    {
      actions := Deliver(turn.waiting, false, before);
      ghost var woken := View(false);
      assert woken == GrantAll(old(View(false)), turn.waiting);
      GrantsTouchCreditOnly(old(View(false)), turn.waiting);
      if permits > 0 {
        RunsSnoc(prepared, START, actions, View(false), Acquire);
        permits := permits - 1;
        actions := actions + [Acquire];
        ghost var forgotten := View(false);
        assert forgotten == woken.(permits := woken.permits - 1);
        actions := Deliver(turn.sending, true, actions);
        assert View(false) == GrantAll(forgotten, turn.sending);
        if turn.up {
          RunsSnoc(prepared, START, actions, View(true), Send);
          sent := sent + [SegmentOf(prepared, seg)];
          seg := seg + 1;
          actions := actions + [Send];
        } else {
          RunsSnoc(prepared, START, actions, View(true), Fail);
          stopped := true;
          actions := actions + [Fail];
        }
      }
    }

    /** Grants that arrive between two of the streamer's steps. */
    method Deliver(grants: seq<nat>, ghost holding: bool, ghost before: seq<Action>)
        returns (ghost actions: seq<Action>)
      requires Valid() && Runs(prepared, START, before, View(holding))
      modifies this`granted, this`permits
      ensures Valid() && Runs(prepared, START, actions, View(holding))
      ensures forall h :: View(h) == GrantAll(old(View(h)), grants)
    {
      actions := before;
      for j := 0 to |grants|
        invariant Valid() && Runs(prepared, START, actions, View(holding))
        invariant forall h :: View(h) == GrantAll(old(View(h)), grants[..j])
      {
        assert grants[..j + 1][..j] == grants[..j];
        RunsSnoc(prepared, START, actions, View(holding), Grant(grants[j]));
        AddPermits(grants[j]);
        actions := actions + [Grant(grants[j])];
      }
      assert grants[..|grants|] == grants;
    }
  }

  lemma {:induction false} RunsSnoc(o: Object, st: Streamer, actions: seq<Action>, mid: Streamer, a: Action)
    requires o.Valid() && Runs(o, st, actions, mid) && CanAct(o, mid, a)
    ensures Runs(o, st, actions + [a], Act(o, mid, a))
    decreases |actions|
  {
    if actions != [] {
      RunsSnoc(o, Act(o, st, actions[0]), actions[1..], mid, a);
      assert (actions + [a])[1..] == actions[1..] + [a];
    } else {
      assert [a][1..] == [];
    }
  }
}
