/** The one Wi-Fi-bound socket of the same-AP bulk path and its owners (crates/ndn-boltffi/src/engine.rs:
  * `note_peer`, `set_infra_addr`, `set_infra_socket`, `maybe_attach_infra_tunnel`).
  *
  * Each step is what happens under one of the three small locks.  A beacon holds the engine's own lock from
  * its first step to its last, so beacons do not overlap each other; the two setters overlap everything.
  * A socket stands for an open socket, not for its number, which the platform reuses.
  */
module InfraSocket {
  import opened Basics
  import opened DottedQuad

  type Socket = nat

  /** A parsed peer address: IPv4, or the bracketed IPv6 text that the standard library's parser also takes. */
  datatype Peer = V4(quad: Quad) | V6(text: string) {
    function Text(): string {
      match this
      case V4(quad) => quad.Text()
      case V6(text) => text
    }
  }

  /** Where the one beacon in progress stands. */
  datatype Phase =
    | Idle
    | Matched(id: string, local: string, peer: Peer)                    // same access point, address parsed
    | Reserving(id: string, local: string, peer: Peer)                  // the id is inserted
    | Holding(id: string, local: string, peer: Peer, socket: Socket)    // the socket is taken
    | BackingOut(id: string)                                            // about to give the id back

  /** What happened, in order. */
  datatype Entry =
    | Cleared
    | Booked(id: string)
    | Attached(id: string, socket: Socket, local: string, peer: Peer)

  datatype State = State(
    local: Option<string>,
    reserved: set<string>,
    held: Option<Socket>,
    phase: Phase,
    clearsDue: nat,          // `set_infra_socket` calls between their two steps
    supplied: set<Socket>,
    closed: set<Socket>,
    log: seq<Entry>)

  const START := State(None, {}, None, Idle, 0, {}, {}, [])

  datatype Event =
    | SetAddr(ipv4: string)
    | Replace(socket: Socket)
    | Clear
    | Look(id: string, peerIp: string, v6: bool)   // `v6`: whether bracketed text is well-formed IPv6
    | Reserve
    | Take
    | Attach(usable: bool)
    | Unreserve

  predicate CanHappen(s: State, e: Event) {
    match e
    case SetAddr(_) => true
    case Replace(socket) => socket !in s.supplied
    case Clear => s.clearsDue > 0
    case Look(_, _, _) => s.phase.Idle?
    case Reserve => s.phase.Matched?
    case Take => s.phase.Reserving?
    case Attach(_) => s.phase.Holding?
    case Unreserve => s.phase.BackingOut?
  }

  function Given(ipv4: string): Option<string> {
    if ipv4 == [] then None else Some(ipv4)
  }

  /** The address parser. */
  function ParsePeer(text: string, v6: bool): Option<Peer> {
    if Bracketed(text) then (if v6 then Some(V6(text)) else None)
    else match Parse(text)
      case None => None
      case Some(quad) => Some(V4(quad))
  }

  /** A peer's address is accepted exactly when its text is that of an IPv4 address, or well-formed and bracketed; and
    * then it is the address of that text. */
  lemma ParsePeerExactly(text: string, v6: bool, peer: Peer)
    ensures ParsePeer(text, v6) == Some(peer)
      <==> peer.Text() == text && (if peer.V4? then peer.quad.Valid() else v6 && Bracketed(text))
  {
    if peer.V4? {
      PlainIsNotBracketed(peer.quad);
      ParseExactly(text, peer.quad);
    }
  }

  function LookPhase(local: Option<string>, id: string, peerIp: string, v6: bool): Phase {
    if local.None? || !SameSubnet24(local.value, peerIp) then Idle
    else match ParsePeer(peerIp, v6)
      case None => Idle
      case Some(peer) => Matched(id, local.value, peer)
  }

  function One(socket: Option<Socket>): set<Socket> {
    if socket.Some? then {socket.value} else {}
  }

  function Next(s: State, e: Event): State
    requires CanHappen(s, e)
  {
    match e
    case SetAddr(ipv4) =>
      if s.local == Given(ipv4) then s else s.(local := Given(ipv4), reserved := {}, log := s.log + [Cleared])
    case Replace(socket) =>
      s.(held := Some(socket), closed := s.closed + One(s.held), supplied := s.supplied + {socket},
         clearsDue := s.clearsDue + 1)
    case Clear => s.(reserved := {}, clearsDue := s.clearsDue - 1, log := s.log + [Cleared])
    case Look(id, peerIp, v6) => s.(phase := LookPhase(s.local, id, peerIp, v6))
    case Reserve =>
      var Matched(id, local, peer) := s.phase;
      if id in s.reserved then s.(phase := Idle)
      else s.(reserved := s.reserved + {id}, phase := Reserving(id, local, peer), log := s.log + [Booked(id)])
    case Take =>
      var Reserving(id, local, peer) := s.phase;
      if s.held.None? then s.(phase := BackingOut(id))
      else s.(held := None, phase := Holding(id, local, peer, s.held.value))
    case Attach(usable) =>
      var Holding(id, local, peer, socket) := s.phase;
      if usable then s.(phase := Idle, log := s.log + [Attached(id, socket, local, peer)])
      else s.(phase := BackingOut(id), closed := s.closed + {socket})
    case Unreserve => s.(reserved := s.reserved - {s.phase.id}, phase := Idle)
  }

  ghost predicate Runs(s: State, es: seq<Event>, t: State)
    decreases |es|
  {
    if es == [] then s == t else CanHappen(s, es[0]) && Runs(Next(s, es[0]), es[1..], t)
  }

  // ------------------------------------------------------- reading the log

  function Adopted(log: seq<Entry>): set<Socket> {
    set k | 0 <= k < |log| && log[k].Attached? :: log[k].socket
  }

  /** The ids attached since the last clear. */
  function AttachedSince(log: seq<Entry>): set<string> {
    if log == [] then {}
    else match log[|log| - 1]
      case Cleared => {}
      case Booked(_) => AttachedSince(log[..|log| - 1])
      case Attached(id, _, _, _) => AttachedSince(log[..|log| - 1]) + {id}
  }

  ghost predicate AttachAfterLastClear(log: seq<Entry>, id: string, k: nat) {
    && k < |log| && log[k].Attached? && log[k].id == id
    && forall j :: k < j < |log| ==> !log[j].Cleared?
  }

  lemma {:induction false} AttachedSinceExactly(log: seq<Entry>, id: string)
    ensures id in AttachedSince(log) <==> exists k: nat :: AttachAfterLastClear(log, id, k)
    decreases |log|
  {
    if log != [] {
      var init, last := log[..|log| - 1], log[|log| - 1];
      AttachedSinceExactly(init, id);
      if last.Attached? && last.id == id {
        assert AttachAfterLastClear(log, id, |log| - 1);
      } else if !last.Cleared? {
        if k: nat :| AttachAfterLastClear(init, id, k) {
          assert AttachAfterLastClear(log, id, k);
        }
        if k: nat :| AttachAfterLastClear(log, id, k) {
          assert AttachAfterLastClear(init, id, k);
        }
      }
    }
  }

  lemma LogSnoc(log: seq<Entry>, e: Entry)
    ensures AttachedSince(log + [e])
      == if e.Cleared? then {} else AttachedSince(log) + (if e.Attached? then {e.id} else {})
    ensures Adopted(log + [e]) == Adopted(log) + (if e.Attached? then {e.socket} else {})
  {
    assert (log + [e])[..|log|] == log;
    var longer := log + [e];
    forall x | x in Adopted(log) ensures x in Adopted(longer) {
      var k :| 0 <= k < |log| && log[k].Attached? && log[k].socket == x;
      assert longer[k] == log[k];
    }
    if e.Attached? {
      assert longer[|log|].socket == e.socket;
    }
  }

  // -------------------------------------------------------------- ownership

  function InHand(phase: Phase): set<Socket> {
    if phase.Holding? then {phase.socket} else {}
  }

  /** Every supplied socket is in exactly one place: held, in the hands of a beacon, adopted, or closed. */
  ghost predicate OneOwner(s: State) {
    && s.supplied == One(s.held) + InHand(s.phase) + Adopted(s.log) + s.closed
    && One(s.held) !! InHand(s.phase) !! Adopted(s.log) !! s.closed
  }

  ghost predicate AdoptedOnce(log: seq<Entry>) {
    forall i, j :: 0 <= i < j < |log| && log[i].Attached? && log[j].Attached? ==> log[i].socket != log[j].socket
  }

  predicate OnOneSubnet(local: string, peer: Peer) {
    SameSubnet24(local, peer.Text()) && (if peer.V4? then peer.quad.Valid() else Bracketed(peer.text))
  }

  ghost predicate OnlyNeighbours(s: State) {
    && (s.phase.Matched? || s.phase.Reserving? || s.phase.Holding? ==> OnOneSubnet(s.phase.local, s.phase.peer))
    && (forall k :: 0 <= k < |s.log| && s.log[k].Attached? ==> OnOneSubnet(s.log[k].local, s.log[k].peer))
  }

  // ------------------------------------------------------------ reservations

  /** The beacon in progress has reserved this id. */
  predicate Underway(phase: Phase, id: string) {
    (phase.Reserving? || phase.Holding? || phase.BackingOut?) && phase.id == id
  }

  /** The last attach, at `k`, followed its reservation with no clear in between. */
  predicate Uninterrupted(log: seq<Entry>, k: nat)
    requires k < |log| && log[k].Attached?
  {
    k > 0 && log[k - 1] == Booked(log[k].id)
  }

  /** Since the last clear the id was both reserved and attached. */
  ghost predicate BookedAndAttached(log: seq<Entry>, id: string) {
    exists k: nat :: AttachAfterLastClear(log, id, k) && Uninterrupted(log, k)
  }

  /** Entry `k` is the id's reservation, and nothing but clears followed before entry `end`. */
  ghost predicate BookingAt(log: seq<Entry>, id: string, k: nat, end: nat) {
    k < end <= |log| && log[k] == Booked(id) && forall j :: k < j < end ==> log[j].Cleared?
  }

  ghost predicate BookedBefore(log: seq<Entry>, id: string, end: nat) {
    exists k: nat :: BookingAt(log, id, k, end)
  }

  /** Nobody but clearing setters comes between a beacon's reservation and its attach. */
  ghost predicate AttachesBooked(log: seq<Entry>) {
    forall m: nat :: m < |log| && log[m].Attached? ==> BookedBefore(log, log[m].id, m)
  }

  /** An id is reserved exactly when it was reserved and attached since the last clear, or, for the beacon in
    * progress, when nothing was cleared since its reservation. */
  ghost predicate ReservedFor(s: State, id: string) {
    if Underway(s.phase, id) then
      && BookedBefore(s.log, id, |s.log|)
      && !BookedAndAttached(s.log, id)
      && (id in s.reserved <==> s.log[|s.log| - 1] == Booked(id))
    else id in s.reserved <==> BookedAndAttached(s.log, id)
  }

  ghost predicate Reservations(s: State) {
    AttachesBooked(s.log) && forall id :: ReservedFor(s, id)
  }

  ghost predicate Inv(s: State) {
    OneOwner(s) && AdoptedOnce(s.log) && Reservations(s) && OnlyNeighbours(s)
  }

  lemma ClearForgets(log: seq<Entry>, id: string)
    ensures !BookedAndAttached(log + [Cleared], id)
  {
    assert (log + [Cleared])[|log|].Cleared?;
  }

  /** An entry that is not a clear keeps what was reserved and attached, and adds at most its own id. */
  lemma EntryKeeps(log: seq<Entry>, e: Entry, id: string)
    requires !e.Cleared?
    ensures BookedAndAttached(log + [e], id)
      <==> BookedAndAttached(log, id) || (e.Attached? && e.id == id && |log| > 0 && log[|log| - 1] == Booked(id))
  {
    var longer := log + [e];
    assert forall j :: 0 <= j < |log| ==> longer[j] == log[j];
    if k: nat :| AttachAfterLastClear(log, id, k) && Uninterrupted(log, k) {
      assert AttachAfterLastClear(longer, id, k) && Uninterrupted(longer, k);
    }
    if e.Attached? && e.id == id && |log| > 0 && log[|log| - 1] == Booked(id) {
      assert AttachAfterLastClear(longer, id, |log|) && Uninterrupted(longer, |log|);
    }
    if k: nat :| AttachAfterLastClear(longer, id, k) && Uninterrupted(longer, k) {
      if k < |log| {
        assert forall j :: k < j < |log| ==> !longer[j].Cleared?;
        assert AttachAfterLastClear(log, id, k) && Uninterrupted(log, k);
      }
    }
  }

  lemma BookedStays(log: seq<Entry>, more: seq<Entry>, id: string, end: nat)
    requires end <= |log| && BookedBefore(log, id, end)
    ensures BookedBefore(log + more, id, end)
  {
    var k: nat :| BookingAt(log, id, k, end);
    assert BookingAt(log + more, id, k, end);
  }

  lemma AttachesStayBooked(log: seq<Entry>, e: Entry)
    requires AttachesBooked(log) && (e.Attached? ==> BookedBefore(log, e.id, |log|))
    ensures AttachesBooked(log + [e])
  {
    forall m: nat | m < |log + [e]| && (log + [e])[m].Attached? ensures BookedBefore(log + [e], (log + [e])[m].id, m) {
      BookedStays(log, [e], (log + [e])[m].id, m);
    }
  }

  lemma ClearedReservations(s: State, t: State)
    requires Reservations(s) && t.phase == s.phase && t.log == s.log + [Cleared] && t.reserved == {}
    ensures Reservations(t)
  {
    AttachesStayBooked(s.log, Cleared);
    forall id ensures ReservedFor(t, id) {
      ClearForgets(s.log, id);
      assert ReservedFor(s, id);
      if Underway(s.phase, id) {
        var k: nat :| BookingAt(s.log, id, k, |s.log|);
        assert BookingAt(t.log, id, k, |t.log|);
      }
    }
  }

  lemma ReserveReservations(s: State)
    requires Reservations(s) && s.phase.Matched?
    ensures Reservations(Next(s, Reserve))
  {
    var t := Next(s, Reserve);
    var own := s.phase.id;
    assert ReservedFor(s, own);
    AttachesStayBooked(s.log, Booked(own));
    forall id ensures ReservedFor(t, id) {
      assert ReservedFor(s, id);
      EntryKeeps(s.log, Booked(own), id);
      if Underway(t.phase, id) {
        assert BookingAt(t.log, id, |s.log|, |t.log|);
      }
    }
  }

  lemma AttachReservations(s: State, usable: bool)
    requires Reservations(s) && s.phase.Holding?
    ensures Reservations(Next(s, Attach(usable)))
  {
    var t := Next(s, Attach(usable));
    var Holding(own, local, peer, socket) := s.phase;
    assert ReservedFor(s, own);
    AttachesStayBooked(s.log, Attached(own, socket, local, peer));
    forall id ensures ReservedFor(t, id) {
      assert ReservedFor(s, id);
      EntryKeeps(s.log, Attached(own, socket, local, peer), id);
    }
  }

  lemma ReservationsStep(s: State, e: Event)
    requires Reservations(s) && CanHappen(s, e)
    ensures Reservations(Next(s, e))
  {
    match e
    case SetAddr(ipv4) =>
      if s.local != Given(ipv4) {
        ClearedReservations(s, Next(s, e));
      }
    case Clear => ClearedReservations(s, Next(s, e));
    case Reserve => ReserveReservations(s);
    case Attach(usable) => AttachReservations(s, usable);
    case _ =>
      forall id ensures ReservedFor(Next(s, e), id) {
        assert ReservedFor(s, id);
      }
  }

  lemma OneOwnerStep(s: State, e: Event)
    requires OneOwner(s) && AdoptedOnce(s.log) && CanHappen(s, e)
    ensures OneOwner(Next(s, e)) && AdoptedOnce(Next(s, e).log)
  {
    match e
    case SetAddr(_) => LogSnoc(s.log, Cleared);
    case Clear => LogSnoc(s.log, Cleared);
    case Reserve => LogSnoc(s.log, Booked(s.phase.id));
    case Attach(usable) =>
      var Holding(id, local, peer, socket) := s.phase;
      LogSnoc(s.log, Attached(id, socket, local, peer));
      assert socket !in Adopted(s.log);
    case _ =>
  }

  lemma NeighboursStep(s: State, e: Event)
    requires OnlyNeighbours(s) && CanHappen(s, e)
    ensures OnlyNeighbours(Next(s, e))
  {
    if e.Look? && Next(s, e).phase.Matched? && !Bracketed(e.peerIp) {
      ParsedIsText(e.peerIp);
    }
  }

  lemma InvStep(s: State, e: Event)
    requires Inv(s) && CanHappen(s, e)
    ensures Inv(Next(s, e))
  {
    OneOwnerStep(s, e);
    ReservationsStep(s, e);
    NeighboursStep(s, e);
  }

  lemma StartInv()
    ensures Inv(START)
  {
  }

  lemma {:induction false} InvRuns(s: State, es: seq<Event>, t: State)
    requires Inv(s) && Runs(s, es, t)
    ensures Inv(t)
    decreases |es|
  {
    if es != [] {
      InvStep(s, es[0]);
      InvRuns(Next(s, es[0]), es[1..], t);
    }
  }

  lemma FromStart(es: seq<Event>, t: State)
    requires Runs(START, es, t)
    ensures Inv(t)
  {
    StartInv();
    InvRuns(START, es, t);
  }

  // ----------------------------------------------------------------- results

  /** Over every interleaving of address changes, socket hand-offs and beacons, each supplied socket is in
    * exactly one of held, in hand, adopted and closed, and no socket is adopted twice. */
  lemma EverySocketHasOneOwner(es: seq<Event>, t: State)
    requires Runs(START, es, t)
    ensures OneOwner(t) && AdoptedOnce(t.log)
  {
    FromStart(es, t);
  }

  /** Between beacons, over every interleaving: an id is reserved exactly when one of its attaches came after the
    * last clear together with its reservation. */
  lemma ReservedExactly(es: seq<Event>, t: State, id: string)
    requires Runs(START, es, t) && t.phase.Idle?
    ensures id in t.reserved <==> exists k: nat :: AttachAfterLastClear(t.log, id, k) && Uninterrupted(t.log, k)
  {
    FromStart(es, t);
    assert ReservedFor(t, id);
  }

  /** An id attached since the last clear is free again, and so can be raised a second time, exactly when the
    * last clear fell between its reservation and its attach and no later attach of it was undisturbed. */
  lemma AttachedButFreeExactly(es: seq<Event>, t: State, id: string)
    requires Runs(START, es, t) && t.phase.Idle?
    ensures id in AttachedSince(t.log) && id !in t.reserved
      <==> !BookedAndAttached(t.log, id) && exists k: nat :: Straddled(t.log, id, k)
  {
    FromStart(es, t);
    assert ReservedFor(t, id);
    AttachedSinceExactly(t.log, id);
    if k: nat :| AttachAfterLastClear(t.log, id, k) {
      if !Uninterrupted(t.log, k) {
        StraddlesTheClear(t.log, id, k);
      }
    }
  }

  /** The last clear came right before the attach at `k`, and so after its reservation. */
  ghost predicate Straddled(log: seq<Entry>, id: string, k: nat) {
    AttachAfterLastClear(log, id, k) && k > 0 && log[k - 1].Cleared?
  }

  lemma StraddlesTheClear(log: seq<Entry>, id: string, k: nat)
    requires AttachesBooked(log) && AttachAfterLastClear(log, id, k) && !Uninterrupted(log, k)
    ensures Straddled(log, id, k)
  {
    var j: nat :| BookingAt(log, id, j, k);
  }

  /** So a clear leaves at most one attached id free: the one whose beacon it interrupted. */
  lemma AtMostOneAttachedButFree(es: seq<Event>, t: State, a: string, b: string)
    requires Runs(START, es, t) && t.phase.Idle?
    requires a in AttachedSince(t.log) && a !in t.reserved && b in AttachedSince(t.log) && b !in t.reserved
    ensures a == b
  {
    AttachedButFreeExactly(es, t, a);
    AttachedButFreeExactly(es, t, b);
    var j: nat :| Straddled(t.log, a, j);
    var k: nat :| Straddled(t.log, b, k);
    assert t.log[j - 1].Cleared? && t.log[k - 1].Cleared?;
  }

  /** A reserved id was attached after the last clear, unless its beacon is still under way. */
  lemma ReservedMeansAttached(es: seq<Event>, t: State, id: string)
    requires Runs(START, es, t) && id in t.reserved && !Underway(t.phase, id)
    ensures exists k: nat :: AttachAfterLastClear(t.log, id, k)
  {
    FromStart(es, t);
    assert ReservedFor(t, id);
  }

  /** An attach happens only towards an address that passed the subnet test against our own address as the beacon
    * read it; when that is an IPv4 address, so is the peer's, and the two agree in their upper 24 bits. */
  lemma OnlySameSubnetIsAttached(es: seq<Event>, t: State, k: nat)
    requires Runs(START, es, t) && k < |t.log| && t.log[k].Attached?
    ensures OnOneSubnet(t.log[k].local, t.log[k].peer)
    ensures forall own: Quad :: own.Valid() && t.log[k].local == own.Text() ==> SameNetwork(own, t.log[k].peer)
  {
    FromStart(es, t);
    forall own: Quad | own.Valid() && t.log[k].local == own.Text() ensures SameNetwork(own, t.log[k].peer) {
      match t.log[k].peer
      case V4(quad) => SameSubnetNumerically(own, quad);
      case V6(text) => BracketedIsNoNeighbour(own, text);
    }
  }

  predicate SameNetwork(own: Quad, peer: Peer) {
    peer.V4? && peer.quad.Valid() && own.Address() / 256 == peer.quad.Address() / 256
  }

  // ----------------------------------------------- what overlaps one beacon

  /** Our address after some events, if it was `local` before. */
  function AddrAfter(local: Option<string>, es: seq<Event>): Option<string>
    decreases |es|
  {
    if es == [] then local
    else AddrAfter(if es[0].SetAddr? then Given(es[0].ipv4) else local, es[1..])
  }

  predicate NoAddr(es: seq<Event>) {
    forall k :: 0 <= k < |es| ==> !es[k].SetAddr?
  }

  ghost predicate LastAddrAt(es: seq<Event>, ipv4: string, k: nat) {
    k < |es| && es[k] == SetAddr(ipv4) && forall j :: k < j < |es| ==> !es[j].SetAddr?
  }

  /** The last address set. */
  ghost predicate LastAddr(es: seq<Event>, ipv4: string) {
    exists k: nat :: LastAddrAt(es, ipv4, k)
  }

  /** The address is set to nothing else last, if it is set at all. */
  ghost predicate AddressRestored(local: Option<string>, es: seq<Event>) {
    forall ipv4 :: LastAddr(es, ipv4) ==> Given(ipv4) == local
  }

  lemma {:induction false} AddrAfterIsLast(local: Option<string>, es: seq<Event>)
    ensures AddrAfter(local, es) == local <==> AddressRestored(local, es)
    ensures forall ipv4 :: LastAddr(es, ipv4) ==> AddrAfter(local, es) == Given(ipv4)
    ensures NoAddr(es) ==> AddrAfter(local, es) == local
    ensures !NoAddr(es) ==> exists ipv4 :: LastAddr(es, ipv4)
    decreases |es|
  {
    if es != [] {
      var first := if es[0].SetAddr? then Given(es[0].ipv4) else local;
      AddrAfterIsLast(first, es[1..]);
      NoAddrShift(es);
      forall ipv4
        ensures LastAddr(es, ipv4) <==> LastAddr(es[1..], ipv4) || (es[0] == SetAddr(ipv4) && NoAddr(es[1..]))
      {
        LastAddrShift(es, ipv4);
      }
    }
  }

  lemma NoAddrShift(es: seq<Event>)
    requires es != []
    ensures NoAddr(es) <==> !es[0].SetAddr? && NoAddr(es[1..])
  {
    forall k | 0 < k < |es| ensures es[k] == es[1..][k - 1] {
    }
  }

  /** The last address of a list is that of its tail, or its head's when the tail sets none. */
  lemma LastAddrShift(es: seq<Event>, ipv4: string)
    requires es != []
    ensures LastAddr(es, ipv4) <==> LastAddr(es[1..], ipv4) || (es[0] == SetAddr(ipv4) && NoAddr(es[1..]))
  {
    var tail := es[1..];
    assert forall k :: 0 <= k < |tail| ==> tail[k] == es[k + 1];
    if k: nat :| LastAddrAt(tail, ipv4, k) {
      forall j | k + 1 < j < |es| ensures !es[j].SetAddr? {
        assert es[j] == tail[j - 1];
      }
      assert LastAddrAt(es, ipv4, k + 1);
    }
    if es[0] == SetAddr(ipv4) && NoAddr(tail) {
      forall j | 0 < j < |es| ensures !es[j].SetAddr? {
        assert es[j] == tail[j - 1];
      }
      assert LastAddrAt(es, ipv4, 0);
    }
    if k: nat :| LastAddrAt(es, ipv4, k) {
      if k > 0 {
        assert LastAddrAt(tail, ipv4, k - 1);
      }
    }
  }

  /** No other beacon starts. */
  ghost predicate OneBeacon(es: seq<Event>) {
    forall e :: e in es ==> !e.Look?
  }

  /** The beacon's own data. */
  predicate About(phase: Phase, id: string, local: string, peer: Peer) {
    match phase
    case Idle => true
    case BackingOut(_) => true
    case Matched(i, l, p) => i == id && l == local && p == peer
    case Reserving(i, l, p) => i == id && l == local && p == peer
    case Holding(i, l, p, _) => i == id && l == local && p == peer
  }

  lemma {:induction false} BeaconKeepsItsData(s: State, es: seq<Event>, t: State, id: string, local: string, peer: Peer)
    requires Runs(s, es, t) && OneBeacon(es) && About(s.phase, id, local, peer)
    ensures About(t.phase, id, local, peer) && t.local == AddrAfter(s.local, es) && s.log <= t.log
    decreases |es|
  {
    if es != [] {
      assert es[0] in es;
      BeaconKeepsItsData(Next(s, es[0]), es[1..], t, id, local, peer);
    }
  }

  /** When an attach is current: whatever overlaps a beacon between its look and its attach, the address the peer
    * was compared with is our address at the attach exactly when the last change of address meanwhile, if
    * there was one, restored it. */
  lemma AttachIsCurrentExactly(s: State, id: string, peerIp: string, v6: bool, es: seq<Event>, u: State)
    requires s.phase.Idle? && Next(s, Look(id, peerIp, v6)).phase.Matched?
    requires Runs(Next(s, Look(id, peerIp, v6)), es, u) && OneBeacon(es) && u.phase.Holding?
    ensures var t := Next(u, Attach(true));
      && |t.log| > |s.log| && t.log[|t.log| - 1].Attached? && t.log[|t.log| - 1].id == id
      && Some(t.log[|t.log| - 1].local) == s.local
      && (Some(t.log[|t.log| - 1].local) == t.local <==> AddressRestored(s.local, es))
  {
    var m := Next(s, Look(id, peerIp, v6));
    BeaconKeepsItsData(m, es, u, id, m.phase.local, m.phase.peer);
    AddrAfterIsLast(s.local, es);
  }

  ghost predicate NothingCleared(log: seq<Entry>, from: nat) {
    forall k :: from <= k < |log| ==> !log[k].Cleared?
  }

  /** The reservation of the beacon in progress is still there exactly when nothing was cleared since. */
  ghost predicate ReservedUntilCleared(s: State, id: string, from: nat) {
    from <= |s.log| && (s.phase.Reserving? || s.phase.Holding? ==> (id in s.reserved <==> NothingCleared(s.log, from)))
  }

  lemma {:induction false} ReservedUntilClearedRuns(s: State, es: seq<Event>, t: State, id: string, from: nat)
    requires Runs(s, es, t) && OneBeacon(es) && ReservedUntilCleared(s, id, from)
    requires !s.phase.Matched? && (s.phase.Reserving? || s.phase.Holding? ==> s.phase.id == id)
    ensures ReservedUntilCleared(t, id, from)
    ensures t.phase.Reserving? || t.phase.Holding? ==> t.phase.id == id
    decreases |es|
  {
    if es != [] {
      assert es[0] in es;
      ReservedUntilClearedStep(s, es[0], id, from);
      ReservedUntilClearedRuns(Next(s, es[0]), es[1..], t, id, from);
    }
  }

  lemma ReservedUntilClearedStep(s: State, e: Event, id: string, from: nat)
    requires CanHappen(s, e) && !e.Look? && ReservedUntilCleared(s, id, from) && !s.phase.Matched?
    ensures ReservedUntilCleared(Next(s, e), id, from)
  {
    var t := Next(s, e);
    if t.log == s.log + [Cleared] {
      assert t.log[|s.log|].Cleared?;
    }
  }

  /** When an attach leaves its id reserved: whatever overlaps a beacon between its reservation and its attach,
    * the id is reserved after the attach exactly when nothing was cleared meanwhile. */
  lemma AttachStaysReservedExactly(s: State, es: seq<Event>, u: State)
    requires s.phase.Matched? && s.phase.id !in s.reserved
    requires Runs(Next(s, Reserve), es, u) && OneBeacon(es) && u.phase.Holding?
    ensures var t := Next(u, Attach(true));
      && t.log[|t.log| - 1].Attached? && t.log[|t.log| - 1].id == s.phase.id
      && (s.phase.id in t.reserved <==> NothingCleared(t.log, |s.log|))
  {
    ReservedUntilClearedRuns(Next(s, Reserve), es, u, s.phase.id, |s.log|);
    assert forall k :: 0 <= k < |u.log| ==> Next(u, Attach(true)).log[k] == u.log[k];
  }

  /** Both can go wrong at once.  For every pair of neighbours and any new address there is a run in which the
    * address changes before the socket is taken, the attach still goes through, and the id is not reserved for
    * it, so a later beacon will try the same peer again. */
  lemma StaleAddressStillAttaches(id: string, own: string, peer: Quad, other: string, socket: Socket)
      returns (es: seq<Event>, t: State)
    requires peer.Valid() && SameSubnet24(own, peer.Text()) && other != own
    ensures Runs(START, es, t) && t.local == Given(other)
    ensures |t.log| > 0 && t.log[|t.log| - 1] == Attached(id, socket, own, V4(peer))
    ensures id in AttachedSince(t.log) && id !in t.reserved
  {
    es, t := ReservingRun(id, own, peer, socket);
    es, t := Then(es, t, SetAddr(other));
    assert t == State(Given(other), {}, Some(socket), Reserving(id, own, V4(peer)), 0, {socket}, {}, t.log);
    es, t := Then(es, t, Take);
    assert t == State(Given(other), {}, None, Holding(id, own, V4(peer), socket), 0, {socket}, {}, t.log);
    LogSnoc(t.log, Attached(id, socket, own, V4(peer)));
    es, t := Then(es, t, Attach(true));
  }

  /** A socket handed over after an address is known. */
  lemma SuppliedRun(own: string, socket: Socket) returns (es: seq<Event>, t: State)
    requires own != []
    ensures Runs(START, es, t)
    ensures t == State(Some(own), {}, Some(socket), Idle, 0, {socket}, {}, t.log)
  {
    es, t := [], START;
    es, t := Then(es, t, SetAddr(own));
    assert t == START.(local := Some(own), log := [Cleared]);
    es, t := Then(es, t, Replace(socket));
    es, t := Then(es, t, Clear);
  }

  /** A beacon that has got as far as its reservation. */
  lemma ReservingRun(id: string, own: string, peer: Quad, socket: Socket) returns (es: seq<Event>, t: State)
    requires peer.Valid() && SameSubnet24(own, peer.Text())
    ensures Runs(START, es, t)
    ensures t == State(Some(own), {id}, Some(socket), Reserving(id, own, V4(peer)), 0, {socket}, {}, t.log)
  {
    ParseText(peer);
    PlainIsNotBracketed(peer);
    es, t := SuppliedRun(own, socket);
    es, t := Then(es, t, Look(id, peer.Text(), false));
    es, t := Then(es, t, Reserve);
  }

  /** One more event at the end of a run. */
  lemma Then(es: seq<Event>, s: State, e: Event) returns (longer: seq<Event>, t: State)
    requires Runs(START, es, s) && CanHappen(s, e)
    ensures Runs(START, longer, t) && t == Next(s, e)
  {
    longer, t := es + [e], Next(s, e);
    assert [e][1..] == [];
    RunsAppend(START, es, s, [e], t);
  }

  lemma {:induction false} RunsAppend(s: State, es: seq<Event>, t: State, fs: seq<Event>, u: State)
    requires Runs(s, es, t) && Runs(t, fs, u)
    ensures Runs(s, es + fs, u)
    decreases |es|
  {
    if es == [] {
      assert es + fs == fs;
    } else {
      assert (es + fs)[1..] == es[1..] + fs;
      RunsAppend(Next(s, es[0]), es[1..], t, fs, u);
    }
  }

  // ------------------------------------------------------------- one at a time

  /** A whole beacon that nothing overlaps. */
  function BeaconNext(s: State, id: string, peerIp: string, v6: bool, usable: bool): State
    requires s.phase.Idle?
  {
    var looked := Next(s, Look(id, peerIp, v6));
    if looked.phase.Idle? then looked
    else
      var reserving := Next(looked, Reserve);
      if reserving.phase.Idle? then reserving else Settled(Next(reserving, Take), usable)
  }

  /** The end of a beacon, once it has a socket or knows that there is none. */
  function Settled(took: State, usable: bool): State
    requires took.phase.Holding? || took.phase.BackingOut?
  {
    var tried := if took.phase.Holding? then Next(took, Attach(usable)) else took;
    if tried.phase.BackingOut? then Next(tried, Unreserve) else tried
  }

  /** When a beacon gets as far as reserving its id. */
  predicate Books(s: State, id: string, peerIp: string, v6: bool) {
    && s.local.Some? && SameSubnet24(s.local.value, peerIp) && ParsePeer(peerIp, v6).Some?
    && id !in s.reserved
  }

  lemma SettledInv(took: State, usable: bool)
    requires Inv(took) && (took.phase.Holding? || took.phase.BackingOut?)
    ensures Inv(Settled(took, usable))
  {
    var tried := took;
    if took.phase.Holding? {
      InvStep(took, Attach(usable));
      tried := Next(took, Attach(usable));
    }
    if tried.phase.BackingOut? {
      InvStep(tried, Unreserve);
    }
  }

  lemma BeaconInv(s: State, id: string, peerIp: string, v6: bool, usable: bool)
    requires Inv(s) && s.phase.Idle?
    ensures Inv(BeaconNext(s, id, peerIp, v6, usable))
  {
    var looked := Next(s, Look(id, peerIp, v6));
    InvStep(s, Look(id, peerIp, v6));
    if !looked.phase.Idle? {
      var reserving := Next(looked, Reserve);
      InvStep(looked, Reserve);
      if !reserving.phase.Idle? {
        InvStep(reserving, Take);
        SettledInv(Next(reserving, Take), usable);
      }
    }
  }

  /** What a whole beacon does: it hands the held socket to the peer and reserves the id, or closes the socket
    * when the engine cannot use it; without a socket it only leaves the note that it tried; otherwise it changes
    * nothing. */
  lemma BeaconEffect(s: State, id: string, peerIp: string, v6: bool, usable: bool)
    requires s.phase.Idle?
    ensures !Books(s, id, peerIp, v6) ==> BeaconNext(s, id, peerIp, v6, usable) == s
    ensures Books(s, id, peerIp, v6) ==> (
      var booked := s.log + [Booked(id)];
      BeaconNext(s, id, peerIp, v6, usable)
        == if s.held.None? then s.(log := booked)
           else if usable then
             s.(held := None, reserved := s.reserved + {id},
                log := booked + [Attached(id, s.held.value, s.local.value, ParsePeer(peerIp, v6).value)])
           else s.(held := None, closed := s.closed + {s.held.value}, log := booked))
  {
    if id !in s.reserved {
      assert s.reserved + {id} - {id} == s.reserved;
    }
  }

  predicate AttachedTo(e: Entry, id: string, socket: Socket, local: string, peerIp: string) {
    e.Attached? && e.id == id && e.socket == socket && e.local == local && e.peer.Text() == peerIp
  }

  class NdnEngine {
    var localInfraAddr: Option<string>
    var infraPeers: set<string>
    var infraSocketFd: Option<Socket>
    ghost var supplied: set<Socket>
    ghost var closed: set<Socket>
    ghost var log: seq<Entry>

    ghost function View(): State
      reads this
    {
      State(localInfraAddr, infraPeers, infraSocketFd, Idle, 0, supplied, closed, log)
    }

    /** Between calls the reserved ids are exactly those attached since the last clear. */
    ghost predicate Valid()
      reads this
    {
      Inv(View()) && infraPeers == AttachedSince(log)
    }

    constructor ()
      ensures Valid() && View() == START
    {
      localInfraAddr, infraPeers, infraSocketFd := None, {}, None;
      supplied, closed, log := {}, {}, [];
    }

    method SetInfraAddr(ipv4: string)
      requires Valid()
      modifies this
      ensures Valid() && View() == Next(old(View()), SetAddr(ipv4))
      ensures localInfraAddr == if ipv4 == [] then None else Some(ipv4)
      ensures infraPeers == if localInfraAddr == old(localInfraAddr) then old(infraPeers) else {}
    {
      InvStep(View(), SetAddr(ipv4));
      LogSnoc(log, Cleared);
      var next := if |ipv4| == 0 then None else Some(ipv4);
      if localInfraAddr != next {
        localInfraAddr := next;
        infraPeers := {};
        log := log + [Cleared];
      }
    }

    method SetInfraSocket(fd: Socket)
      requires Valid() && fd !in supplied
      modifies this
      ensures Valid() && View() == Next(Next(old(View()), Replace(fd)), Clear)
      ensures infraSocketFd == Some(fd) && infraPeers == {}
      ensures closed == old(closed) + One(old(infraSocketFd))
    {
      InvStep(View(), Replace(fd));
      InvStep(Next(View(), Replace(fd)), Clear);
      LogSnoc(log, Cleared);
      var prev := infraSocketFd;
      infraSocketFd := Some(fd);
      supplied := supplied + {fd};
      if prev.Some? {
        closed := closed + {prev.value};
      }
      infraPeers := {};
      log := log + [Cleared];
    }

    /** `v6` is whether bracketed text is well-formed, `usable` whether the engine can adopt the socket. */
    method MaybeAttachInfraTunnel(id: string, peerIp: string, v6: bool, usable: bool) returns (attached: bool)
      requires Valid()
      modifies this
      ensures Valid() && View() == BeaconNext(old(View()), id, peerIp, v6, usable)
      ensures attached == (Books(old(View()), id, peerIp, v6) && old(infraSocketFd).Some? && usable)
      ensures attached ==> id !in old(AttachedSince(log)) && id in AttachedSince(log)
      ensures infraPeers == if attached then old(infraPeers) + {id} else old(infraPeers)
      ensures attached ==> infraSocketFd == None && old(localInfraAddr).Some?
      ensures attached ==> AttachedTo(log[|log| - 1], id, old(infraSocketFd).value, old(localInfraAddr).value, peerIp)
    {
      ghost var after := BeaconNext(View(), id, peerIp, v6, usable);
      BeaconInv(View(), id, peerIp, v6, usable);
      BeaconEffect(View(), id, peerIp, v6, usable);
      if localInfraAddr.None? {
        return false;
      }
      var localIp := localInfraAddr.value;
      if !SameSubnet24(localIp, peerIp) {
        return false;
      }
      var peer := ParsePeer(peerIp, v6);
      if peer.None? {
        return false;
      }
      ParsePeerExactly(peerIp, v6, peer.value);
      attached := ReserveAndAttach(id, localIp, peer.value, usable);
      assert View() == after;
    }

    /** The part behind the address test. */
    method ReserveAndAttach(id: string, localIp: string, peer: Peer, usable: bool) returns (attached: bool)
      modifies this
      ensures attached == (id !in old(infraPeers) && old(infraSocketFd).Some? && usable)
      ensures localInfraAddr == old(localInfraAddr) && supplied == old(supplied)
      ensures infraPeers == if attached then old(infraPeers) + {id} else old(infraPeers)
      ensures infraSocketFd == if id in old(infraPeers) then old(infraSocketFd) else None
      ensures closed == if id in old(infraPeers) || attached || old(infraSocketFd).None? then old(closed)
                        else old(closed) + {old(infraSocketFd).value}
      ensures log == if id in old(infraPeers) then old(log)
                     else if !attached then old(log) + [Booked(id)]
                     else old(log) + [Booked(id)] + [Attached(id, old(infraSocketFd).value, localIp, peer)]
      ensures AttachedSince(log) == if attached then AttachedSince(old(log)) + {id} else AttachedSince(old(log))
    {
      if id in infraPeers {
        return false;
      }
      infraPeers := infraPeers + {id};
      LogSnoc(log, Booked(id));
      log := log + [Booked(id)];
      if infraSocketFd.None? {
        infraPeers := infraPeers - {id};
        assert infraPeers == old(infraPeers);
        return false;
      }
      var fd := infraSocketFd.value;
      infraSocketFd := None;
      if usable {
        LogSnoc(log, Attached(id, fd, localIp, peer));
        log := log + [Attached(id, fd, localIp, peer)];
        return true;
      }
      closed := closed + {fd};
      infraPeers := infraPeers - {id};
      assert infraPeers == old(infraPeers);
      return false;
    }
  }
}
