/** The VPN datapath (crates/ndn-mobile/src/tun.rs, `spawn_tunnel`): packets injected at one endpoint, published
  * as numbered Data under credit, and delivered at the other.
  *
  * The link in between is an in-order queue that loses nothing.  An endpoint may be torn down whenever one of its
  * tasks waits.
  */
module Tunnel {
  import opened Basics

  type Packet = Bytes

  const TUN_QUEUE_CAP: nat := 1024

  /** A published Data: the segment number at the end of its name, and its content. */
  datatype Data = Data(seg: nat, content: Packet)

  /** Where the uplink streamer stands. */
  datatype Hand =
    | Empty                    // waiting for a packet
    | Holding(ip: Packet)      // waiting for a permit
    | Paid(ip: Packet)         // the permit is forgotten, the Data not yet published
    | Gone                     // the streamer has ended

  datatype State = State(
    injected: seq<Packet>,     // everything the OS put in
    queue: seq<Packet>,
    granted: nat,
    permits: nat,
    hand: Hand,
    lost: seq<Packet>,         // the packet in hand when the streamer ended, if any
    wasted: nat,               // permits forgotten for a Data that was not published
    published: seq<Data>,
    link: seq<Data>,
    receiving: bool,           // the downlink runs
    ready: seq<Packet>,        // the delivery queue
    handed: seq<Packet>)       // everything the OS took out

  const START := State([], [], 0, 0, Empty, [], 0, [], [], true, [], [])

  datatype Event =
    | Inject(ip: Packet)
    | Grant(maxDataCount: Option<nat>)   // a subscription, with or without its parameters
    | Receive
    | Acquire
    | Publish(up: bool)                  // `up` is whether the face still takes the Data
    | Cancel
    | Arrive
    | CancelDownlink
    | HandOut

  /** A subscription without parameters is worth one Data. */
  function Credit(maxDataCount: Option<nat>): nat {
    if maxDataCount.Some? then maxDataCount.value else 1
  }

  /** Whether a received Data has content to deliver.  `empties` is whether a Content element of length zero
    * counts as content, which is not decided here. */
  predicate Carries(empties: bool, content: Packet) {
    content != [] || empties
  }

  predicate CanHappen(empties: bool, s: State, e: Event) {
    match e
    case Inject(_) => |s.queue| < TUN_QUEUE_CAP && !s.hand.Gone?
    case Grant(_) => true
    case Receive => s.hand.Empty? && s.queue != []
    case Acquire => s.hand.Holding? && s.permits > 0
    case Publish(_) => s.hand.Paid?
    case Cancel => s.hand.Empty? || s.hand.Holding?
    case Arrive => s.receiving && s.link != [] && (Carries(empties, s.link[0].content) ==> |s.ready| < TUN_QUEUE_CAP)
    case CancelDownlink => s.receiving
    case HandOut => s.ready != []
  }

  function Next(empties: bool, s: State, e: Event): State
    requires CanHappen(empties, s, e)
  {
    match e
    case Inject(ip) => s.(injected := s.injected + [ip], queue := s.queue + [ip])
    case Grant(n) => s.(granted := s.granted + Credit(n), permits := s.permits + Credit(n))
    case Receive => s.(hand := Holding(s.queue[0]), queue := s.queue[1..])
    case Acquire => s.(hand := Paid(s.hand.ip), permits := s.permits - 1)
    case Publish(up) =>
      var data := Data(|s.published|, s.hand.ip);
      if up then s.(hand := Empty, published := s.published + [data], link := s.link + [data])
      else s.(hand := Gone, lost := [s.hand.ip], wasted := s.wasted + 1)
    case Cancel => s.(hand := Gone, lost := InHand(s.hand))
    case Arrive =>
      var content := s.link[0].content;
      s.(link := s.link[1..], ready := if Carries(empties, content) then s.ready + [content] else s.ready)
    case CancelDownlink => s.(receiving := false)
    case HandOut => s.(ready := s.ready[1..], handed := s.handed + [s.ready[0]])
  }

  function InHand(hand: Hand): seq<Packet> {
    if hand.Holding? || hand.Paid? then [hand.ip] else []
  }

  ghost predicate Runs(empties: bool, s: State, es: seq<Event>, t: State)
    decreases |es|
  {
    if es == [] then s == t
    else CanHappen(empties, s, es[0]) && Runs(empties, Next(empties, s, es[0]), es[1..], t)
  }

  /** What an event's subscription is worth: the data count it carries, and one Data without it. */
  function Worth(e: Event): nat {
    match e
    case Grant(Some(n)) => n
    case Grant(None) => 1
    case _ => 0
  }

  function TotalGranted(es: seq<Event>): nat {
    if es == [] then 0 else Worth(es[0]) + TotalGranted(es[1..])
  }

  function TotalInjected(es: seq<Event>): seq<Packet> {
    if es == [] then [] else (match es[0] case Inject(ip) => [ip] case _ => []) + TotalInjected(es[1..])
  }

  // --------------------------------------------------------------- invariant

  function Contents(data: seq<Data>): (packets: seq<Packet>)
    ensures |packets| == |data| && forall i :: 0 <= i < |data| ==> packets[i] == data[i].content
  {
    seq(|data|, i requires 0 <= i < |data| => data[i].content)
  }

  /** The packets that a receiver delivers. */
  function Delivered(empties: bool, packets: seq<Packet>): seq<Packet> {
    if packets == [] then []
    else
      var init, last := packets[..|packets| - 1], packets[|packets| - 1];
      if Carries(empties, last) then Delivered(empties, init) + [last] else Delivered(empties, init)
  }

  /** Credit is neither created nor destroyed. */
  predicate CreditBalances(s: State) {
    s.granted == s.permits + |s.published| + (if s.hand.Paid? then 1 else 0) + s.wasted
  }

  /** Every packet put in is published, lost, in hand or queued, in that order. */
  ghost predicate PacketsBalance(s: State) {
    && s.injected == Contents(s.published) + s.lost + InHand(s.hand) + s.queue
    && (!s.hand.Gone? ==> s.lost == [])
    && |s.lost| <= 1 && s.wasted <= |s.lost|
    && forall i :: 0 <= i < |s.published| ==> s.published[i].seg == i
  }

  function Received(s: State): int {
    |s.published| - |s.link|
  }

  /** The packets that came out of the link. */
  function Arrived(empties: bool, s: State): seq<Packet>
    requires |s.link| <= |s.published|
  {
    Delivered(empties, Contents(s.published[..Received(s)]))
  }

  /** The link and the delivery queue hold the tail of what was published. */
  ghost predicate LinkBalances(empties: bool, s: State) {
    && |s.link| <= |s.published| && s.link == s.published[Received(s)..]
    && s.handed + s.ready == Arrived(empties, s)
    && |s.queue| <= TUN_QUEUE_CAP && |s.ready| <= TUN_QUEUE_CAP
  }

  ghost predicate Inv(empties: bool, s: State) {
    CreditBalances(s) && PacketsBalance(s) && LinkBalances(empties, s)
  }

  lemma PacketsStep(empties: bool, s: State, e: Event)
    requires PacketsBalance(s) && CanHappen(empties, s, e)
    ensures PacketsBalance(Next(empties, s, e))
  {
    var t := Next(empties, s, e);
    match e
    case Inject(ip) => ConcatAssociative(Contents(s.published) + s.lost + InHand(s.hand), s.queue, [ip]);
    case Receive =>
      assert s.queue == [s.queue[0]] + s.queue[1..];
      ConcatAssociative(Contents(s.published) + s.lost, [s.queue[0]], s.queue[1..]);
    case Publish(up) =>
      assert up ==> Contents(t.published) == Contents(s.published) + [s.hand.ip];
    case _ =>
  }

  lemma DeliveredSnoc(empties: bool, packets: seq<Packet>, p: Packet)
    ensures Delivered(empties, packets + [p]) == Delivered(empties, packets) + (if Carries(empties, p) then [p] else [])
  {
    assert (packets + [p])[..|packets|] == packets;
  }

  lemma ArriveStep(empties: bool, s: State)
    requires LinkBalances(empties, s) && CanHappen(empties, s, Arrive)
    ensures LinkBalances(empties, Next(empties, s, Arrive))
  {
    var n := Received(s);
    var content := s.link[0].content;
    assert s.published[n] == s.link[0];
    assert Contents(s.published[..n + 1]) == Contents(s.published[..n]) + [content];
    DeliveredSnoc(empties, Contents(s.published[..n]), content);
    if Carries(empties, content) {
      ConcatAssociative(s.handed, s.ready, [content]);
    }
  }

  lemma SuffixGrows(published: seq<Data>, link: seq<Data>, d: Data)
    requires |link| <= |published| && link == published[|published| - |link|..]
    ensures link + [d] == (published + [d])[|published| - |link|..]
    ensures (published + [d])[..|published| - |link|] == published[..|published| - |link|]
  {
  }

  lemma LinkStep(empties: bool, s: State, e: Event)
    requires LinkBalances(empties, s) && CanHappen(empties, s, e)
    ensures LinkBalances(empties, Next(empties, s, e))
  {
    var t := Next(empties, s, e);
    match e
    case Publish(up) =>
      if up {
        SuffixGrows(s.published, s.link, Data(|s.published|, s.hand.ip));
        assert t.published[..Received(t)] == s.published[..Received(s)];
      }
    case Arrive => ArriveStep(empties, s);
    case HandOut =>
      assert s.handed + [s.ready[0]] + s.ready[1..] == s.handed + s.ready;
    case _ =>
  }

  lemma InvStep(empties: bool, s: State, e: Event)
    requires Inv(empties, s) && CanHappen(empties, s, e)
    ensures Inv(empties, Next(empties, s, e))
  {
    PacketsStep(empties, s, e);
    LinkStep(empties, s, e);
  }

  lemma {:induction false} InvRuns(empties: bool, s: State, es: seq<Event>, t: State)
    requires Inv(empties, s) && Runs(empties, s, es, t)
    ensures Inv(empties, t)
    decreases |es|
  {
    if es != [] {
      InvStep(empties, s, es[0]);
      InvRuns(empties, Next(empties, s, es[0]), es[1..], t);
    }
  }

  lemma TotalsStep(empties: bool, s: State, e: Event)
    requires CanHappen(empties, s, e)
    ensures Next(empties, s, e).granted == s.granted + Worth(e)
    ensures Next(empties, s, e).injected == s.injected + (match e case Inject(ip) => [ip] case _ => [])
  {
  }

  lemma {:induction false} Totals(empties: bool, s: State, es: seq<Event>, t: State)
    requires Runs(empties, s, es, t)
    ensures t.granted == s.granted + TotalGranted(es) && t.injected == s.injected + TotalInjected(es)
    decreases |es|
  {
    if es != [] {
      TotalsStep(empties, s, es[0]);
      Totals(empties, Next(empties, s, es[0]), es[1..], t);
      ConcatAssociative(s.injected, match es[0] case Inject(ip) => [ip] case _ => [], TotalInjected(es[1..]));
    }
  }

  lemma StartInv(empties: bool)
    ensures Inv(empties, START)
  {
  }

  lemma FromStart(empties: bool, es: seq<Event>, t: State)
    requires Runs(empties, START, es, t)
    ensures Inv(empties, t) && t.granted == TotalGranted(es) && t.injected == TotalInjected(es)
  {
    Totals(empties, START, es, t);
    assert t.injected == TotalInjected(es);
    StartInv(empties);
    InvRuns(empties, START, es, t);
  }

  lemma PublishedIsPrefix(s: State)
    requires PacketsBalance(s)
    ensures Contents(s.published) <= s.injected
    ensures |s.injected| == |s.published| + |s.lost| + |InHand(s.hand)| + |s.queue|
  {
    ConcatAssociative(Contents(s.published), s.lost, InHand(s.hand));
    ConcatAssociative(Contents(s.published), s.lost + InHand(s.hand), s.queue);
  }

  // ----------------------------------------------------------------- results

  /** Over every interleaving: what is published is a prefix of what was injected, numbered 0, 1, 2, ... without
    * repetition, and never more than the credit granted. */
  lemma PublishedInOrderUnderCredit(empties: bool, es: seq<Event>, t: State)
    requires Runs(empties, START, es, t)
    ensures Contents(t.published) <= TotalInjected(es) && |t.published| <= TotalGranted(es)
    ensures forall i :: 0 <= i < |t.published| ==> t.published[i] == Data(i, TotalInjected(es)[i])
  {
    FromStart(empties, es, t);
    PublishedIsPrefix(t);
    forall i | 0 <= i < |t.published| ensures t.published[i] == Data(i, TotalInjected(es)[i]) {
      assert Contents(t.published)[i] == t.injected[i];
    }
  }

  /** No permit is taken without a packet in hand: the permits taken so far never outnumber the packets that the
    * streamer has taken off its queue, and the difference is at most the one packet that waits for its permit. */
  lemma PermitsFollowPackets(empties: bool, es: seq<Event>, t: State)
    requires Runs(empties, START, es, t)
    ensures var taken := TotalGranted(es) - t.permits;
      var received := |TotalInjected(es)| - |t.queue|;
      taken <= received <= taken + 1 && (t.hand.Empty? || t.hand.Paid? ==> taken == received)
  {
    FromStart(empties, es, t);
    PublishedIsPrefix(t);
  }

  /** Credit is not withheld: a streamer that has not ended and cannot move has published as much as credit and
    * packets allow. */
  lemma CreditIsSpent(empties: bool, es: seq<Event>, t: State)
    requires Runs(empties, START, es, t) && !t.hand.Gone?
    requires forall e: Event :: (e.Receive? || e.Acquire? || e.Publish?) ==> !CanHappen(empties, t, e)
    ensures |t.published| == Min(TotalGranted(es), |TotalInjected(es)|)
  {
    FromStart(empties, es, t);
    PublishedIsPrefix(t);
    assert !CanHappen(empties, t, Receive) && !CanHappen(empties, t, Acquire) && !CanHappen(empties, t, Publish(true));
  }

  lemma {:induction false} GoneStaysGone(empties: bool, s: State, es: seq<Event>, t: State)
    requires Runs(empties, s, es, t) && s.hand.Gone?
    ensures t.hand.Gone? && t.published == s.published && t.injected == s.injected
    ensures t.permits == s.permits + TotalGranted(es)
    decreases |es|
  {
    if es != [] {
      GoneStaysGone(empties, Next(empties, s, es[0]), es[1..], t);
    }
  }

  /** A Data that the face does not take, or cancellation, ends the streamer: nothing is published any more and no
    * packet is taken in, whatever is granted, and a permit that was forgotten is not given back. */
  lemma EndedStreamIsSilent(empties: bool, s: State, e: Event, es: seq<Event>, t: State)
    requires (e == Publish(false) || e == Cancel) && CanHappen(empties, s, e)
    requires Runs(empties, Next(empties, s, e), es, t)
    ensures t.published == s.published && t.injected == s.injected && t.permits == s.permits + TotalGranted(es)
  {
    GoneStaysGone(empties, Next(empties, s, e), es, t);
  }

  /** The packets that are not empty. */
  function NonEmpty(packets: seq<Packet>): seq<Packet> {
    if packets == [] then []
    else NonEmpty(packets[..|packets| - 1]) + (if |packets[|packets| - 1]| > 0 then [packets[|packets| - 1]] else [])
  }

  lemma {:induction false} DeliveredExactly(empties: bool, packets: seq<Packet>)
    ensures Delivered(empties, packets) == if empties then packets else NonEmpty(packets)
    decreases |packets|
  {
    if packets != [] {
      DeliveredExactly(empties, packets[..|packets| - 1]);
      assert packets == packets[..|packets| - 1] + [packets[|packets| - 1]];
    }
  }

  lemma {:induction false} NoneEmpty(packets: seq<Packet>)
    requires forall i :: 0 <= i < |packets| ==> packets[i] != []
    ensures NonEmpty(packets) == packets
    decreases |packets|
  {
    if packets != [] {
      NoneEmpty(packets[..|packets| - 1]);
      assert packets == packets[..|packets| - 1] + [packets[|packets| - 1]];
    }
  }

  /** Over the in-order link, what reaches the other OS is what came out of the link, and that is what was injected,
    * in order, without the empty packets unless these are carried; so it is a prefix of what was injected when no
    * empty packet was. */
  lemma DeliveredInOrder(empties: bool, es: seq<Event>, t: State) returns (arrived: seq<Packet>)
    requires Runs(empties, START, es, t)
    ensures arrived <= TotalInjected(es) && |arrived| == |t.published| - |t.link|
    ensures t.handed + t.ready == if empties then arrived else NonEmpty(arrived)
    ensures (forall i :: 0 <= i < |TotalInjected(es)| ==> TotalInjected(es)[i] != []) ==> t.handed + t.ready == arrived
  {
    FromStart(empties, es, t);
    PublishedIsPrefix(t);
    var n := Received(t);
    arrived := TotalInjected(es)[..n];
    assert Contents(t.published[..n]) == Contents(t.published)[..n] == arrived;
    DeliveredExactly(empties, arrived);
    if forall i :: 0 <= i < |TotalInjected(es)| ==> TotalInjected(es)[i] != [] {
      NoneEmpty(arrived);
    }
  }

  // ---------------------------------------------------------------- the running endpoint

  /** What other actors do while the streamer waits: the OS puts packets in, as far as there is room, and
    * subscriptions arrive. */
  datatype Traffic = Traffic(arrivals: seq<Packet>, grants: seq<Option<nat>>)

  /** One await of the streamer: the traffic before it goes on, the traffic while it publishes, and whether the face
    * is up then. */
  datatype Turn = Turn(before: Traffic, during: Traffic, up: bool)

  function InjectAll(s: State, arrivals: seq<Packet>): State
    decreases |arrivals|
  {
    if arrivals == [] then s
    else
      var init, ip := InjectAll(s, arrivals[..|arrivals| - 1]), arrivals[|arrivals| - 1];
      if |init.queue| < TUN_QUEUE_CAP then init.(injected := init.injected + [ip], queue := init.queue + [ip]) else init
  }

  function GrantAll(s: State, grants: seq<Option<nat>>): State
    decreases |grants|
  {
    if grants == [] then s
    else
      var init := GrantAll(s, grants[..|grants| - 1]);
      var credit := Credit(grants[|grants| - 1]);
      init.(granted := init.granted + credit, permits := init.permits + credit)
  }

  function AfterTraffic(s: State, t: Traffic): State {
    GrantAll(InjectAll(s, t.arrivals), t.grants)
  }

  /** What one await comes to: the packet in hand goes out exactly when there is a permit and the face is up, and
    * with none in hand the oldest queued packet is taken up. */
  function AfterTurn(s: State, t: Turn): State {
    var woken := AfterTraffic(s, t.before);
    match s.hand
    case Empty =>
      if woken.queue == [] then woken else woken.(hand := Holding(woken.queue[0]), queue := woken.queue[1..])
    case Holding(ip) => if woken.permits == 0 then woken else AfterPublish(woken, ip, t)
    case _ => s
  }

  function AfterPublish(s: State, ip: Packet, t: Turn): State
    requires s.permits > 0
  {
    var paid := AfterTraffic(s.(permits := s.permits - 1, hand := Paid(ip)), t.during);
    var data := Data(|paid.published|, ip);
    if t.up then paid.(hand := Empty, published := paid.published + [data], link := paid.link + [data])
    else paid.(hand := Gone, lost := [ip], wasted := paid.wasted + 1)
  }

  /** The streamer over a schedule; cancelled at the end, it loses the packet it still holds. */
  function AfterTurns(s: State, turns: seq<Turn>): State
    decreases |turns|
  {
    if s.hand.Gone? then s
    else if turns == [] then s.(hand := Gone, lost := InHand(s.hand))
    else AfterTurns(AfterTurn(s, turns[0]), turns[1..])
  }

  lemma {:induction false} GrantsTouchCreditOnly(s: State, grants: seq<Option<nat>>)
    ensures var t := GrantAll(s, grants);
      t == s.(granted := t.granted, permits := t.permits) && t.permits - s.permits == t.granted - s.granted >= 0
    ensures grants != [] && grants[|grants| - 1] != Some(0) ==> GrantAll(s, grants).permits > 0
    decreases |grants|
  {
    if grants != [] {
      GrantsTouchCreditOnly(s, grants[..|grants| - 1]);
    }
  }

  lemma {:induction false} ArrivalsTouchQueueOnly(s: State, arrivals: seq<Packet>)
    ensures var t := InjectAll(s, arrivals); t == s.(injected := t.injected, queue := t.queue)
    decreases |arrivals|
  {
    if arrivals != [] {
      ArrivalsTouchQueueOnly(s, arrivals[..|arrivals| - 1]);
    }
  }

  lemma TrafficTouches(s: State, t: Traffic)
    ensures var u := AfterTraffic(s, t);
      && u == s.(injected := u.injected, queue := u.queue, granted := u.granted, permits := u.permits)
      && u.permits >= s.permits && (t.arrivals == [] ==> u.queue == s.queue)
      && (t.grants != [] && t.grants[|t.grants| - 1] != Some(0) ==> u.permits > 0)
  {
    ArrivalsTouchQueueOnly(s, t.arrivals);
    GrantsTouchCreditOnly(InjectAll(s, t.arrivals), t.grants);
  }

  /** No packets arrive, and credit does. */
  predicate Credited(t: Turn) {
    && t.up && t.before.arrivals == [] && t.during.arrivals == []
    && t.before.grants != [] && t.before.grants[|t.before.grants| - 1] != Some(0)
  }

  lemma OnePacketGoesOut(s: State, first: Turn, second: Turn)
    requires s.hand.Empty? && s.queue != [] && Credited(first) && Credited(second)
    ensures var t := AfterTurn(AfterTurn(s, first), second);
      && t.hand.Empty? && t.queue == s.queue[1..] && t.lost == s.lost
      && Contents(t.published) == Contents(s.published) + [s.queue[0]]
  {
    var taken := AfterTurn(s, first);
    TrafficTouches(s, first.before);
    TrafficTouches(taken, second.before);
    var woken := AfterTraffic(taken, second.before);
    TrafficTouches(woken.(permits := woken.permits - 1, hand := Paid(s.queue[0])), second.during);
  }

  /** With the face up and credit in time, two awaits for each packet send everything queued, in order. */
  lemma {:induction false} CreditedQueueDrains(s: State, turns: seq<Turn>)
    requires s.hand.Empty? && |turns| >= 2 * |s.queue| && forall i :: 0 <= i < |turns| ==> Credited(turns[i])
    ensures var t := AfterTurns(s, turns);
      t.queue == [] && t.lost == [] && Contents(t.published) == Contents(s.published) + s.queue
    decreases |turns|
  {
    if s.queue == [] {
      assert Contents(s.published) + s.queue == Contents(s.published);
      if turns != [] {
        TrafficTouches(s, turns[0].before);
        CreditedQueueDrains(AfterTurn(s, turns[0]), turns[1..]);
      }
    } else {
      var taken := AfterTurn(s, turns[0]);
      var next := AfterTurn(taken, turns[1]);
      OnePacketGoesOut(s, turns[0], turns[1]);
      TrafficTouches(s, turns[0].before);
      assert turns[1..][0] == turns[1] && turns[1..][1..] == turns[2..];
      CreditedQueueDrains(next, turns[2..]);
      ConcatAssociative(Contents(s.published), [s.queue[0]], s.queue[1..]);
      assert s.queue == [s.queue[0]] + s.queue[1..];
    }
  }

  /** How a call on the tunnel stands: it has returned a value, found the tunnel closed, or still waits. */
  datatype Reply<T> = Done(value: T) | Closed | Waits

  /** One endpoint's uplink and the other's downlink, with the queues they share. */
  class Endpoint {
    const empties: bool
    var queue: seq<Packet>
    var permits: nat
    var seg: nat
    var link: seq<Data>
    var receiving: bool
    var ready: seq<Packet>
    var streaming: bool
    ghost var past: State

    /** The state, given where the streamer stands. */
    ghost function View(): State
      reads this
    {
      past.(queue := queue, permits := permits, link := link, receiving := receiving, ready := ready)
    }

    /** The fields are those of the state reached. */
    ghost predicate Tracks()
      reads this
    {
      past == View() && seg == |past.published| && streaming == !past.hand.Gone?
    }

    ghost predicate Valid()
      reads this
    {
      Tracks() && Inv(empties, past)
    }

    twostate predicate Took(e: Event)
      reads this
    {
      CanHappen(empties, old(past), e) && past == Next(empties, old(past), e)
    }

    constructor (empties: bool)
      ensures Valid() && past == START && this.empties == empties
    {
      this.empties := empties;
      queue, permits, seg, link, past := START.queue, START.permits, 0, START.link, START;
      receiving, ready, streaming := START.receiving, START.ready, true;
      new;
      assert past == START;
      assert Inv(this.empties, past) by { StartInv(this.empties); }
    }

    /** `inject`: refused once the streamer has ended, pending while the queue is full. */
    method Inject(ip: Packet) returns (reply: Reply<()>)
      requires Tracks()
      modifies this
      ensures Tracks() && (old(Valid()) ==> Valid())
      ensures reply == if old(past).hand.Gone? then Closed else if |old(queue)| < TUN_QUEUE_CAP then Done(()) else Waits
      ensures if reply.Done? then Took(Event.Inject(ip)) else past == old(past)
    {
      if !streaming {
        return Closed;
      }
      if |queue| >= TUN_QUEUE_CAP {
        return Waits;
      }
      if Inv(empties, past) {
        InvStep(empties, past, Event.Inject(ip));
      }
      past := Next(empties, past, Event.Inject(ip));
      queue := queue + [ip];
      return Done(());
    }

    /** The producer's handler. */
    method AddPermits(maxDataCount: Option<nat>)
      requires Tracks()
      modifies this
      ensures Tracks() && Took(Grant(maxDataCount)) && (old(Valid()) ==> Valid())
      ensures permits == old(permits) + (match maxDataCount case Some(n) => n case None => 1)
    {
      if Inv(empties, past) {
        InvStep(empties, past, Grant(maxDataCount));
      }
      past := Next(empties, past, Grant(maxDataCount));
      permits := permits + (match maxDataCount case Some(n) => n case None => 1);
    }

    /** The uplink streamer until it fails to publish or the schedule cancels it; it waits on an empty queue as it
      * waits for a permit.  The ghost result is the interleaving it performed. */
    method Stream(turns: seq<Turn>) returns (ghost es: seq<Event>)
      requires Valid() && past.hand.Empty?
      modifies this
      ensures Valid() && Runs(empties, old(past), es, past)
      ensures past == AfterTurns(old(past), turns) && past.hand.Gone?
    {
      es := [];
      var i := 0;
      var waiting: Option<Packet> := None;
      while streaming && i < |turns|
        invariant i <= |turns| && Tracks() && Runs(empties, old(past), es, past)
        invariant past.hand == if !streaming then Gone else if waiting.Some? then Holding(waiting.value) else Empty
        invariant AfterTurns(old(past), turns) == AfterTurns(past, turns[i..])
        decreases |turns| - i
      {
        assert turns[i..][0] == turns[i] && turns[i..][1..] == turns[i + 1..];
        waiting, es := GoOn(turns[i], waiting, old(past), es);
        i := i + 1;
      }
      if streaming {
        RunsSnoc(empties, old(past), es, past, Cancel);
        es, past := es + [Cancel], Next(empties, past, Cancel);
        streaming := false;
      }
      InvRuns(empties, old(past), es, past);
    }

    /** One await and what follows it: a packet is taken up, or the one in hand goes out if there is a permit. */
    method GoOn(turn: Turn, held: Option<Packet>, ghost from: State, ghost before: seq<Event>)
        returns (waiting: Option<Packet>, ghost es: seq<Event>)
      requires Tracks() && streaming && Runs(empties, from, before, past)
      requires past.hand == if held.Some? then Holding(held.value) else Empty
      modifies this
      ensures Tracks() && Runs(empties, from, es, past)
      ensures past.hand == if !streaming then Gone else if waiting.Some? then Holding(waiting.value) else Empty
      ensures past == AfterTurn(old(past), turn)
    {
      waiting := held;
      TrafficTouches(past, turn.before);
      es := MeetTraffic(turn.before, from, before);
      if waiting.None? {
        if |queue| > 0 {
          RunsSnoc(empties, from, es, past, Receive);
          es, past := es + [Receive], Next(empties, past, Receive);
          waiting := Some(queue[0]);
          queue := queue[1..];
        }
      } else if permits > 0 {
        es := PublishPaid(waiting.value, turn, from, es);
        waiting := None;
      }
    }

    /** Forgets a permit and publishes the packet under the next number. */
    method PublishPaid(ip: Packet, turn: Turn, ghost from: State, ghost before: seq<Event>)
        returns (ghost es: seq<Event>)
      requires Tracks() && Runs(empties, from, before, past) && past.hand == Holding(ip) && permits > 0
      modifies this
      ensures Tracks() && Runs(empties, from, es, past)
      ensures past == AfterPublish(old(past), ip, turn) && streaming == turn.up
    {
      TrafficTouches(Next(empties, past, Acquire), turn.during);
      es := Forget(from, before);
      es := MeetTraffic(turn.during, from, es);
      es := Send(ip, turn.up, from, es);
    }

    method Forget(ghost from: State, ghost before: seq<Event>) returns (ghost es: seq<Event>)
      requires Tracks() && Runs(empties, from, before, past) && past.hand.Holding? && permits > 0
      modifies this
      ensures Tracks() && Runs(empties, from, es, past) && Took(Acquire)
    {
      RunsSnoc(empties, from, before, past, Acquire);
      es, past := before + [Acquire], Next(empties, past, Acquire);
      permits := permits - 1;
    }

    method Send(ip: Packet, up: bool, ghost from: State, ghost before: seq<Event>) returns (ghost es: seq<Event>)
      requires Tracks() && Runs(empties, from, before, past) && past.hand == Paid(ip)
      modifies this
      ensures Tracks() && Runs(empties, from, es, past) && Took(Publish(up)) && streaming == up
    {
      RunsSnoc(empties, from, before, past, Publish(up));
      es, past := before + [Publish(up)], Next(empties, past, Publish(up));
      streaming := up;
      if up {
        link := link + [Data(seg, ip)];
        seg := seg + 1;
      }
    }

    method MeetTraffic(traffic: Traffic, ghost from: State, ghost before: seq<Event>) returns (ghost es: seq<Event>)
      requires Tracks() && streaming && Runs(empties, from, before, past)
      modifies this
      ensures Tracks() && Runs(empties, from, es, past)
      ensures past == AfterTraffic(old(past), traffic)
    {
      es := MeetArrivals(traffic.arrivals, from, before);
      es := MeetGrants(traffic.grants, from, es);
    }

    method MeetArrivals(arrivals: seq<Packet>, ghost from: State, ghost before: seq<Event>)
        returns (ghost es: seq<Event>)
      requires Tracks() && streaming && Runs(empties, from, before, past)
      modifies this
      ensures Tracks() && Runs(empties, from, es, past)
      ensures past == InjectAll(old(past), arrivals)
    {
      es := before;
      for j := 0 to |arrivals|
        invariant Tracks() && streaming && Runs(empties, from, es, past)
        invariant past == InjectAll(old(past), arrivals[..j])
      {
        assert arrivals[..j + 1][..j] == arrivals[..j];
        ghost var was := past;
        var reply := Inject(arrivals[j]);
        if reply.Done? {
          RunsSnoc(empties, from, es, was, Event.Inject(arrivals[j]));
          es := es + [Event.Inject(arrivals[j])];
        }
      }
      assert arrivals[..|arrivals|] == arrivals;
    }

    method MeetGrants(grants: seq<Option<nat>>, ghost from: State, ghost before: seq<Event>)
        returns (ghost es: seq<Event>)
      requires Tracks() && Runs(empties, from, before, past)
      modifies this
      ensures Tracks() && Runs(empties, from, es, past)
      ensures past == GrantAll(old(past), grants)
    {
      es := before;
      for j := 0 to |grants|
        invariant Tracks() && Runs(empties, from, es, past) && past == GrantAll(old(past), grants[..j])
      {
        assert grants[..j + 1][..j] == grants[..j];
        RunsSnoc(empties, from, es, past, Grant(grants[j]));
        es := es + [Grant(grants[j])];
        AddPermits(grants[j]);
      }
      assert grants[..|grants|] == grants;
    }

    /** The downlink loop: delivers what is on the link while the delivery queue has room. */
    method Pump() returns (ghost es: seq<Event>)
      requires Valid() && receiving
      modifies this
      ensures Valid() && Runs(empties, old(past), es, past)
      ensures link != [] ==> |ready| == TUN_QUEUE_CAP
      ensures past.published == old(past.published)
    {
      es := [];
      while link != [] && |ready| < TUN_QUEUE_CAP
        invariant Tracks() && receiving && Runs(empties, old(past), es, past) && past.published == old(past.published)
        decreases |link|
      {
        RunsSnoc(empties, old(past), es, past, Arrive);
        es, past := es + [Arrive], Next(empties, past, Arrive);
        var data := link[0];
        link := link[1..];
        if |data.content| > 0 || empties {
          ready := ready + [data.content];
        }
      }
      InvRuns(empties, old(past), es, past);
    }

    /** The downlink ends; what it delivered can still be taken. */
    method StopDownlink()
      requires Valid() && receiving
      modifies this
      ensures Valid() && Took(CancelDownlink) && !receiving && ready == old(ready)
    {
      InvStep(empties, past, CancelDownlink);
      past := Next(empties, past, CancelDownlink);
      receiving := false;
    }

    /** `next`: the oldest delivered packet; pending while there is none, closed once none can come. */
    method TakeNext() returns (reply: Reply<Packet>)
      requires Valid()
      modifies this
      ensures Valid()
      ensures if old(ready) != [] then
                reply == Done(old(ready)[0]) && Took(HandOut) && past.handed == old(past.handed) + [old(ready)[0]]
              else reply == (if receiving then Waits else Closed) && past == old(past)
    {
      if |ready| == 0 {
        return if receiving then Waits else Closed;
      }
      InvStep(empties, past, HandOut);
      past := Next(empties, past, HandOut);
      reply := Done(ready[0]);
      ready := ready[1..];
    }
  }

  lemma {:induction false} RunsSnoc(empties: bool, s: State, es: seq<Event>, mid: State, e: Event)
    requires Runs(empties, s, es, mid) && CanHappen(empties, mid, e)
    ensures Runs(empties, s, es + [e], Next(empties, mid, e))
    decreases |es|
  {
    if es != [] {
      RunsSnoc(empties, Next(empties, s, es[0]), es[1..], mid, e);
      assert (es + [e])[1..] == es[1..] + [e];
    } else {
      assert [e][1..] == [];
    }
  }
}
