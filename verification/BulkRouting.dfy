/** Routes, strategies and bulk pins of the node (crates/ndn-mobile/src/engine.rs).
  *
  * Beacons keep a peer's prefix on the radios; a bulk face attached to the prefix moves it to a measured
  * strategy and pins it there until that face is detached.  The forwarder's tables are plain maps.
  */
module BulkRouting {
  import opened Basics

  type FaceId = nat

  datatype FaceKind = WifiAware | Bluetooth | Udp | WifiDirect | InfraTunnel

  /** The face names of the discovery dataset. */
  datatype Heard = OnWifiAware | OnBle | OnMulticast | OnUdp | OnOther

  datatype Strategy = Multicast | Measured

  /** The link profile's routing cost. */
  type Costs = FaceKind -> nat

  datatype State = State(
    nextId: FaceId,
    faces: set<FaceId>,                          // the face table
    bulk: set<FaceId>,                           // faces that adopted a bulk socket
    groups: set<FaceId>,                         // one-to-many faces
    wifiAware: Option<FaceId>,
    ble: Option<FaceId>,
    multicast: FaceId,                           // 0 when there is none
    peers: seq<FaceId>,                          // configured unicast peers, rebuilt under the same id
    fib: Fib,
    strategies: map<Name, Strategy>,
    pinned: map<Name, FaceId>)

  const ROOT: Name := []

  datatype Event =
    | Beacon(prefix: Name, heard: Heard)
    | AttachBulk(prefix: Name, kind: FaceKind, adopted: bool)   // adopted: the socket could be used
    | Detach(face: FaceId)
    | AttachWifiAware
    | AttachBle
    | AttachGroup(joined: bool)                                 // the one-to-many face
    | Suspend(routesDropped: set<FaceId>)                       // the lost faces whose routes go with them
    | Resume(dialled: set<FaceId>)                              // the configured faces that came back
    | PeerDown(face: FaceId)                                    // a configured face died; its routes stay
    | Redialled(face: FaceId)                                   // its supervisor connected it again

  type Fib = map<Name, map<FaceId, nat>>

  function Hops(fib: Fib, prefix: Name): map<FaceId, nat> {
    if prefix in fib then fib[prefix] else map[]
  }

  function Nexthops(s: State, prefix: Name): map<FaceId, nat> {
    Hops(s.fib, prefix)
  }

  function AddNexthop(fib: Fib, prefix: Name, face: FaceId, cost: nat): Fib {
    fib[prefix := Hops(fib, prefix)[face := cost]]
  }

  /** Removing faces takes their nexthops out of every entry. */
  function DropFaces(fib: Fib, faces: set<FaceId>): Fib {
    map prefix | prefix in fib :: fib[prefix] - faces
  }

  /** The radio a beacon was heard on, as a kind and the face that serves it. */
  function Radio(s: State, heard: Heard): Option<(FaceKind, FaceId)> {
    match heard
    case OnWifiAware => if s.wifiAware.Some? then Some((WifiAware, s.wifiAware.value)) else None
    case OnBle => if s.ble.Some? then Some((Bluetooth, s.ble.value)) else None
    case OnMulticast => if s.multicast != 0 then Some((Udp, s.multicast)) else None
    case OnUdp => if s.multicast != 0 then Some((Udp, s.multicast)) else None
    case OnOther => None
  }

  /** The face names that beacons are noted with. */
  function HeardOn(face: string): Heard {
    if face == "wifi-aware" then OnWifiAware
    else if face == "ble" then OnBle
    else if face == "multicast" then OnMulticast
    else if face == "udp" then OnUdp
    else OnOther
  }

  function BeaconNext(costs: Costs, s: State, prefix: Name, heard: Heard): State {
    match Radio(s, heard)
    case None => s
    case Some((kind, face)) =>
      var t := s.(fib := AddNexthop(s.fib, prefix, face, costs(kind)));
      if prefix in s.pinned then t else t.(strategies := s.strategies[prefix := Multicast])
  }

  function AttachBulkNext(costs: Costs, s: State, prefix: Name, kind: FaceKind, adopted: bool): State {
    var id := s.nextId;
    if !adopted then s.(nextId := id + 1)
    else s.(nextId := id + 1, faces := s.faces + {id}, bulk := s.bulk + {id},
            fib := AddNexthop(s.fib, prefix, id, costs(kind)),
            strategies := s.strategies[prefix := Measured],
            pinned := s.pinned[prefix := id])
  }

  function PinsOf(s: State, face: FaceId): set<Name> {
    set prefix | prefix in s.pinned && s.pinned[prefix] == face
  }

  function DetachNext(s: State, face: FaceId): State {
    var reverted := PinsOf(s, face);
    s.(faces := s.faces - {face}, bulk := s.bulk - {face}, fib := DropFaces(s.fib, {face}),
       pinned := s.pinned - reverted,
       strategies := s.strategies + (map prefix | prefix in reverted :: Multicast))
  }

  /** A radio face at the default route, and fan-out there. */
  function RadioNext(s: State, face: FaceId): State {
    s.(faces := s.faces + {face}, nextId := Max(s.nextId, face + 1), fib := AddNexthop(s.fib, ROOT, face, 0),
       strategies := s.strategies[ROOT := Multicast])
  }

  /** The faces that `resume` rebuilds, under the ids they had. */
  function Rebuilt(s: State): set<FaceId> {
    Configured(s.peers, s.multicast) + Held(s.wifiAware) + Held(s.ble)
  }

  function Configured(peers: seq<FaceId>, multicast: FaceId): set<FaceId> {
    (set i | 0 <= i < |peers| :: peers[i]) + (if multicast != 0 then {multicast} else {})
  }

  function Held(radio: Option<FaceId>): set<FaceId> {
    if radio.Some? then {radio.value} else {}
  }

  function Next(costs: Costs, s: State, e: Event): State {
    match e
    case Beacon(prefix, heard) => BeaconNext(costs, s, prefix, heard)
    case AttachBulk(prefix, kind, adopted) => AttachBulkNext(costs, s, prefix, kind, adopted)
    case Detach(face) => DetachNext(s, face)
    case AttachWifiAware =>
      var id := if s.wifiAware.Some? then s.wifiAware.value else s.nextId;
      RadioNext(s, id).(wifiAware := Some(id))
    case AttachBle =>
      var id := if s.ble.Some? then s.ble.value else s.nextId;
      RadioNext(s, id).(ble := Some(id))
    case AttachGroup(joined) =>
      if joined then RadioNext(s, s.nextId).(groups := s.groups + {s.nextId}) else s.(nextId := s.nextId + 1)
    case Suspend(dropped) =>
      s.(faces := s.faces - Rebuilt(s) - s.bulk - s.groups, fib := DropFaces(s.fib, dropped * (s.bulk + s.groups)))
    case Resume(dialled) => s.(faces := s.faces + dialled * Rebuilt(s))
    case PeerDown(face) => if face in s.peers then s.(faces := s.faces - {face}) else s
    case Redialled(face) => if face in s.peers then s.(faces := s.faces + {face}) else s
  }

  /** The prefix an event is about; the peers' prefixes are never the root. */
  predicate Peerwise(e: Event) {
    (e.Beacon? || e.AttachBulk?) ==> e.prefix != ROOT
  }

  ghost predicate Runs(costs: Costs, s: State, es: seq<Event>, t: State)
    decreases |es|
  {
    if es == [] then s == t else Peerwise(es[0]) && Runs(costs, Next(costs, s, es[0]), es[1..], t)
  }

  /** A freshly built engine: no bulk face, no pin, no measured strategy; ids are handed out from `nextId`. */
  ghost predicate Fresh(s: State) {
    && s.bulk == {} && s.groups == {} && s.pinned == map[]
    && (forall p :: p in s.strategies ==> s.strategies[p] == Multicast)
    && IdsKnown(s)
  }

  ghost predicate FibKnown(fib: Fib, bound: FaceId) {
    forall p, f :: p in fib && f in fib[p] ==> f < bound
  }

  ghost predicate Below(ids: set<FaceId>, bound: FaceId) {
    forall f :: f in ids ==> f < bound
  }

  ghost predicate IdsKnown(s: State) {
    && Below(s.faces, s.nextId) && Below(s.bulk, s.nextId) && Below(s.groups, s.nextId) && Below(Rebuilt(s), s.nextId)
    && FibKnown(s.fib, s.nextId)
  }

  predicate IsMeasured(s: State, p: Name) {
    p in s.strategies && s.strategies[p] == Measured
  }

  /** A prefix is measured exactly when it is pinned, and pinned to a bulk face. */
  ghost predicate PinsMatch(s: State) {
    && (forall p :: p != ROOT ==> (IsMeasured(s, p) <==> p in s.pinned))
    && ROOT !in s.pinned
    && (forall p :: p in s.pinned ==> s.pinned[p] in s.bulk)
  }

  /** The prefix is pinned, to a face that is in the face table and a nexthop of the prefix. */
  ghost predicate Live(s: State, p: Name) {
    p in s.pinned && s.pinned[p] in s.faces && s.pinned[p] in Nexthops(s, p)
  }

  ghost predicate PinsLive(s: State) {
    forall p :: p in s.pinned ==> Live(s, p)
  }

  /** Configured faces and radios, bulk faces, and one-to-many faces are three separate kinds. */
  ghost predicate RadiosApart(s: State) {
    && (forall f :: f in Rebuilt(s) ==> f !in s.bulk && f !in s.groups)
    && (forall f :: f in s.groups ==> f !in s.bulk)
  }

  ghost predicate Inv(s: State) {
    IdsKnown(s) && PinsMatch(s) && RadiosApart(s)
  }

  // --------------------------------------------------------- the FIB's algebra

  lemma AddNexthopAt(fib: Fib, prefix: Name, face: FaceId, cost: nat, p: Name, f: FaceId)
    ensures var t := AddNexthop(fib, prefix, face, cost);
      (p in t && f in t[p]) <==> ((p == prefix && f == face) || (p in fib && f in fib[p]))
  {
  }

  lemma AddNexthopKnown(fib: Fib, prefix: Name, face: FaceId, cost: nat, bound: FaceId)
    requires FibKnown(fib, bound) && face < bound
    ensures FibKnown(AddNexthop(fib, prefix, face, cost), bound)
  {
    var t := AddNexthop(fib, prefix, face, cost);
    forall p, f | p in t && f in t[p] ensures f < bound {
      AddNexthopAt(fib, prefix, face, cost, p, f);
    }
  }

  lemma AddedHops(fib: Fib, prefix: Name, face: FaceId, cost: nat)
    ensures Hops(AddNexthop(fib, prefix, face, cost), prefix) == Hops(fib, prefix)[face := cost]
    ensures forall p :: p != prefix ==> Hops(AddNexthop(fib, prefix, face, cost), p) == Hops(fib, p)
  {
  }

  // ------------------------------------------------------------ preservation

  lemma BeaconInv(costs: Costs, s: State, prefix: Name, heard: Heard)
    requires Inv(s) && prefix != ROOT
    ensures Inv(BeaconNext(costs, s, prefix, heard))
  {
    match Radio(s, heard)
    case None =>
    case Some((kind, face)) =>
      assert face in Rebuilt(s);
      AddNexthopKnown(s.fib, prefix, face, costs(kind), s.nextId);
  }

  lemma AttachBulkInv(costs: Costs, s: State, prefix: Name, kind: FaceKind, adopted: bool)
    requires Inv(s) && prefix != ROOT
    ensures Inv(AttachBulkNext(costs, s, prefix, kind, adopted))
  {
    assert FibKnown(s.fib, s.nextId + 1);
    AddNexthopKnown(s.fib, prefix, s.nextId, costs(kind), s.nextId + 1);
    assert s.nextId !in Rebuilt(s);
    var t := AttachBulkNext(costs, s, prefix, kind, adopted);
    assert Rebuilt(t) == Rebuilt(s);
    RadiosRebuilt(s);
  }

  lemma RadiosRebuilt(s: State)
    ensures s.multicast != 0 ==> s.multicast in Rebuilt(s)
    ensures s.wifiAware.Some? ==> s.wifiAware.value in Rebuilt(s)
    ensures s.ble.Some? ==> s.ble.value in Rebuilt(s)
  {
  }

  lemma DetachInv(s: State, face: FaceId)
    requires Inv(s)
    ensures Inv(DetachNext(s, face))
  {
    var t := DetachNext(s, face);
    assert Rebuilt(t) == Rebuilt(s);
    forall p | p != ROOT ensures IsMeasured(t, p) <==> p in t.pinned {
      assert IsMeasured(s, p) <==> p in s.pinned;
    }
  }

  lemma RadioInv(s: State, id: FaceId)
    requires Inv(s) && (id in Rebuilt(s) || id == s.nextId) && id !in s.bulk
    ensures var t := RadioNext(s, id);
      && PinsMatch(t) && FibKnown(t.fib, t.nextId) && Rebuilt(t) == Rebuilt(s)
      && Below(t.faces, t.nextId) && Below(t.bulk, t.nextId) && Below(t.groups, t.nextId)
      && Below(Rebuilt(t), t.nextId)
      && id < t.nextId && t.bulk == s.bulk && s.nextId <= t.nextId
  {
    var t := RadioNext(s, id);
    assert FibKnown(s.fib, t.nextId);
    AddNexthopKnown(s.fib, ROOT, id, 0, t.nextId);
  }

  /** The id a radio or group face is attached under. */
  function RadioId(s: State, held: Option<FaceId>): FaceId {
    if held.Some? then held.value else s.nextId
  }

  lemma AttachRadioInv(s: State, held: Option<FaceId>)
    requires Inv(s) && (held == s.wifiAware || held == s.ble)
    ensures var t := RadioNext(s, RadioId(s, held));
      && Inv(t.(wifiAware := Some(RadioId(s, held)))) && Inv(t.(ble := Some(RadioId(s, held))))
  {
    RadiosRebuilt(s);
    assert s.nextId !in s.bulk;
    var id := RadioId(s, held);
    RadioInv(s, id);
    var t := RadioNext(s, id);
    assert Rebuilt(t.(wifiAware := Some(id))) <= Rebuilt(s) + {id};
    assert Rebuilt(t.(ble := Some(id))) <= Rebuilt(s) + {id};
  }

  lemma GroupInv(s: State)
    requires Inv(s)
    ensures Inv(RadioNext(s, s.nextId).(groups := s.groups + {s.nextId}))
    ensures Inv(s.(nextId := s.nextId + 1))
  {
    RadiosRebuilt(s);
    assert s.nextId !in s.bulk;
    RadioInv(s, s.nextId);
    assert FibKnown(s.fib, s.nextId + 1);
  }

  lemma PresenceInv(costs: Costs, s: State, e: Event)
    requires Inv(s) && (e.Suspend? || e.Resume? || e.PeerDown? || e.Redialled?)
    ensures Inv(Next(costs, s, e))
  {
    assert forall f :: f in s.peers ==> f in Rebuilt(s);
    assert Rebuilt(Next(costs, s, e)) == Rebuilt(s);
  }

  lemma InvStep(costs: Costs, s: State, e: Event)
    requires Inv(s) && Peerwise(e)
    ensures Inv(Next(costs, s, e))
  {
    match e
    case Beacon(prefix, heard) => BeaconInv(costs, s, prefix, heard);
    case AttachBulk(prefix, kind, adopted) => AttachBulkInv(costs, s, prefix, kind, adopted);
    case Detach(face) => DetachInv(s, face);
    case Suspend(_) => PresenceInv(costs, s, e);
    case Resume(_) => PresenceInv(costs, s, e);
    case PeerDown(_) => PresenceInv(costs, s, e);
    case Redialled(_) => PresenceInv(costs, s, e);
    case AttachWifiAware => AttachRadioInv(s, s.wifiAware);
    case AttachBle => AttachRadioInv(s, s.ble);
    case AttachGroup(_) => GroupInv(s);
  }

  lemma {:induction false} InvRuns(costs: Costs, s: State, es: seq<Event>, t: State)
    requires Inv(s) && Runs(costs, s, es, t)
    ensures Inv(t)
    decreases |es|
  {
    if es != [] {
      InvStep(costs, s, es[0]);
      InvRuns(costs, Next(costs, s, es[0]), es[1..], t);
    }
  }

  // ------------------------------------------------------------------ results

  lemma FreshInv(s: State)
    requires Fresh(s)
    ensures Inv(s)
  {
    RadiosRebuilt(s);
  }

  /** Over every run of beacons, attaches, detaches, suspensions and resumptions: a peer's prefix has the
    * measured strategy exactly when it is pinned, and it is pinned to a bulk face. */
  lemma MeasuredExactlyPinned(costs: Costs, s: State, es: seq<Event>, t: State, p: Name)
    requires Fresh(s) && Runs(costs, s, es, t) && p != ROOT
    ensures IsMeasured(t, p) <==> p in t.pinned
    ensures p in t.pinned ==> t.pinned[p] in t.bulk
  {
    FreshInv(s);
    InvRuns(costs, s, es, t);
  }

  /** A beacon never changes a pin or a pinned prefix's strategy; it only refreshes one radio nexthop of its
    * own prefix, and keeps every other one. */
  lemma BeaconKeepsPins(costs: Costs, s: State, prefix: Name, heard: Heard)
    ensures var t := BeaconNext(costs, s, prefix, heard);
      && t.pinned == s.pinned
      && (forall p :: p in s.pinned ==> IsMeasured(t, p) == IsMeasured(s, p))
      && (forall p, f :: f in Nexthops(s, p) ==> f in Nexthops(t, p))
      && (forall p, f :: f in Nexthops(s, p) && !(p == prefix && Radio(s, heard).Some? && f == Radio(s, heard).value.1)
            ==> Nexthops(t, p)[f] == Nexthops(s, p)[f])
      && (Radio(s, heard).Some? ==> Radio(s, heard).value.1 in Nexthops(t, prefix))
  {
  }

  /** Detaching a face takes away its own nexthops and pins and nothing else: every other nexthop keeps its
    * cost, other pins stay, and exactly the prefixes it was pinned to go back to fan-out. */
  lemma DetachIsLocal(s: State, face: FaceId)
    ensures var t := DetachNext(s, face);
      && (forall p :: Nexthops(t, p) == Nexthops(s, p) - {face})
      && (forall p :: p in t.pinned <==> p in s.pinned && s.pinned[p] != face)
      && (forall p :: p in t.pinned ==> t.pinned[p] == s.pinned[p])
      && (forall p :: p in s.pinned && s.pinned[p] == face ==> p in t.strategies && t.strategies[p] == Multicast)
      && (forall p :: !(p in s.pinned && s.pinned[p] == face) ==>
            (p in t.strategies <==> p in s.strategies) && (p in s.strategies ==> t.strategies[p] == s.strategies[p]))
  {
  }

  /** Only a detach or a suspension removes a nexthop, and only its own. */
  lemma NexthopKept(costs: Costs, s: State, e: Event, p: Name, f: FaceId)
    requires f in Nexthops(s, p) && !e.Suspend? && e != Detach(f)
    ensures f in Nexthops(Next(costs, s, e), p)
    ensures f in s.faces && e != PeerDown(f) ==> f in Next(costs, s, e).faces
  {
  }

  /** The first face id that a bulk face can have got after the run's last suspension. */
  ghost function Fence(costs: Costs, s: State, es: seq<Event>, fence: FaceId): FaceId
    decreases |es|
  {
    if es == [] then fence
    else Fence(costs, Next(costs, s, es[0]), es[1..], if es[0].Suspend? then s.nextId else fence)
  }

  /** Pins to faces from before the fence are dead, the others are live. */
  ghost predicate Fenced(s: State, fence: FaceId) {
    && fence <= s.nextId
    && forall p :: p in s.pinned ==> if s.pinned[p] < fence then s.pinned[p] !in s.faces else Live(s, p)
  }

  /** A pinned face that is gone does not come back. */
  lemma GoneStaysGone(costs: Costs, s: State, e: Event, f: FaceId)
    requires Inv(s) && f in s.bulk && f !in s.faces
    ensures f !in Next(costs, s, e).faces
  {
    RadiosRebuilt(s);
    match e
    case Resume(_) => assert f !in Rebuilt(s);
    case Redialled(face) => assert face in s.peers ==> face in Rebuilt(s);
    case _ => assert f < s.nextId;
  }

  lemma FencedStep(costs: Costs, s: State, e: Event, fence: FaceId)
    requires Inv(s) && Fenced(s, fence) && Peerwise(e)
    ensures Fenced(Next(costs, s, e), if e.Suspend? then s.nextId else fence)
  {
    var t := Next(costs, s, e);
    if !e.Suspend? {
      forall p | p in t.pinned ensures if t.pinned[p] < fence then t.pinned[p] !in t.faces else Live(t, p) {
        if p in s.pinned && t.pinned[p] == s.pinned[p] {
          KeptPinFenced(costs, s, e, fence, p);
        }
      }
    }
  }

  lemma KeptPinFenced(costs: Costs, s: State, e: Event, fence: FaceId, p: Name)
    requires Inv(s) && Fenced(s, fence) && !e.Suspend? && p in s.pinned
    requires p in Next(costs, s, e).pinned && Next(costs, s, e).pinned[p] == s.pinned[p]
    ensures var t := Next(costs, s, e); if s.pinned[p] < fence then s.pinned[p] !in t.faces else Live(t, p)
  {
    var f := s.pinned[p];
    if f < fence {
      GoneStaysGone(costs, s, e, f);
    } else {
      assert Live(s, p) && f !in Rebuilt(s);
      NexthopKept(costs, s, e, p, f);
    }
  }

  lemma {:induction false} FencedRuns(costs: Costs, s: State, es: seq<Event>, t: State, fence: FaceId)
    requires Inv(s) && Fenced(s, fence) && Runs(costs, s, es, t)
    ensures Fenced(t, Fence(costs, s, es, fence))
    decreases |es|
  {
    if es != [] {
      FencedStep(costs, s, es[0], fence);
      InvStep(costs, s, es[0]);
      FencedRuns(costs, Next(costs, s, es[0]), es[1..], t, if es[0].Suspend? then s.nextId else fence);
    }
  }

  /** Over every run, with any suspensions and resumptions: a pinned face is present and a nexthop of its prefix
    * exactly when it was attached after the last suspension, if there was one. */
  lemma PinnedIsLiveExactly(costs: Costs, s: State, es: seq<Event>, t: State, p: Name)
    requires Fresh(s) && Runs(costs, s, es, t) && p in t.pinned
    ensures Live(t, p) <==> t.pinned[p] >= Fence(costs, s, es, 0)
  {
    FreshInv(s);
    FencedRuns(costs, s, es, t, 0);
  }

  lemma {:induction false} NoFence(costs: Costs, s: State, es: seq<Event>, t: State)
    requires Runs(costs, s, es, t) && forall e :: e in es ==> !e.Suspend?
    ensures Fence(costs, s, es, 0) == 0
    decreases |es|
  {
    if es != [] {
      assert es[0] in es;
      NoFence(costs, Next(costs, s, es[0]), es[1..], t);
    }
  }

  /** In particular a pinned face is live until a suspension. */
  lemma PinnedFacesAreLive(costs: Costs, s: State, es: seq<Event>, t: State)
    requires Fresh(s) && Runs(costs, s, es, t) && forall e :: e in es ==> !e.Suspend?
    ensures PinsLive(t)
  {
    NoFence(costs, s, es, t);
    forall p | p in t.pinned ensures Live(t, p) {
      PinnedIsLiveExactly(costs, s, es, t, p);
    }
  }

  /** A suspension takes the bulk faces away and leaves the pins: the pins stay live exactly when there are
    * none. */
  lemma SuspendKillsPinsExactly(costs: Costs, s: State, dropped: set<FaceId>)
    requires Inv(s)
    ensures PinsLive(Next(costs, s, Suspend(dropped))) <==> s.pinned == map[]
  {
    var t := Next(costs, s, Suspend(dropped));
    if s.pinned != map[] {
      var p :| p in s.pinned;
      assert t.pinned[p] !in t.faces;
    }
  }

  /** Resuming rebuilds configured faces under the ids they had, so every nexthop that survived the
    * suspension leads somewhere again once its face is back. */
  lemma ResumeRestoresRoutes(costs: Costs, s: State, dropped: set<FaceId>, dialled: set<FaceId>, p: Name, f: FaceId)
    requires Inv(s) && f in Rebuilt(s) && f in Nexthops(s, p) && f in dialled
    ensures var t := Next(costs, Next(costs, s, Suspend(dropped)), Resume(dialled));
      f in t.faces && f in Nexthops(t, p) && Nexthops(t, p)[f] == Nexthops(s, p)[f]
  {
    assert Rebuilt(Next(costs, s, Suspend(dropped))) == Rebuilt(s);
  }

  /** A configured face that dies keeps its routes, and they work again once its supervisor has redialled it. */
  lemma RedialRestoresRoutes(costs: Costs, s: State, f: FaceId)
    requires f in s.peers
    ensures var down := Next(costs, s, PeerDown(f));
      var up := Next(costs, down, Redialled(f));
      && f !in down.faces && f in up.faces && down.fib == up.fib == s.fib
      && down.faces == s.faces - {f} && up.faces == s.faces + {f}
  {
  }

  // ------------------------------------------------------- two bulk faces on a prefix

  /** A bulk face that is up and serves the prefix. */
  ghost predicate BulkUp(s: State, p: Name, f: FaceId) {
    f in s.bulk && f in s.faces && f in Nexthops(s, p)
  }

  /** The bulk face that serves a prefix is the one it is pinned to. */
  ghost predicate BulkIsPinned(s: State) {
    forall p, f :: BulkUp(s, p, f) ==> p in s.pinned && s.pinned[p] == f
  }

  ghost predicate SecondAttach(s: State, e: Event) {
    e.AttachBulk? && e.adopted && exists f: FaceId :: BulkUp(s, e.prefix, f)
  }

  lemma BeaconUp(costs: Costs, s: State, prefix: Name, heard: Heard, p: Name, f: FaceId)
    requires Inv(s) && BulkUp(BeaconNext(costs, s, prefix, heard), p, f)
    ensures BulkUp(s, p, f)
  {
    RadiosRebuilt(s);
    if Radio(s, heard).Some? {
      var (kind, face) := Radio(s, heard).value;
      assert face in Rebuilt(s);
      AddNexthopAt(s.fib, prefix, face, costs(kind), p, f);
    }
  }

  lemma UpBefore(costs: Costs, s: State, e: Event, p: Name, f: FaceId)
    requires Inv(s) && Peerwise(e) && BulkUp(Next(costs, s, e), p, f)
    requires !(e.AttachBulk? && e.adopted && f == s.nextId)
    ensures BulkUp(s, p, f)
  {
    if f in s.bulk && f !in s.faces {
      GoneStaysGone(costs, s, e, f);
    }
    assert s.nextId !in s.bulk;
    match e
    case Beacon(prefix, heard) => BeaconUp(costs, s, prefix, heard, p, f);
    case AttachBulk(prefix, kind, adopted) => AddNexthopAt(s.fib, prefix, s.nextId, costs(kind), p, f);
    case _ =>
  }

  /** Each step keeps the prefix's bulk face the pinned one, unless it attaches a second one: pins replace
    * one another, so the first face then serves the prefix without a pin. */
  lemma BulkIsPinnedExactly(costs: Costs, s: State, e: Event)
    requires Inv(s) && BulkIsPinned(s) && Peerwise(e)
    ensures BulkIsPinned(Next(costs, s, e)) <==> !SecondAttach(s, e)
  {
    var t := Next(costs, s, e);
    if SecondAttach(s, e) {
      var f: FaceId :| BulkUp(s, e.prefix, f);
      assert f < s.nextId;
      assert BulkUp(t, e.prefix, f);
    } else {
      forall p, f | BulkUp(t, p, f) ensures p in t.pinned && t.pinned[p] == f {
        if e.AttachBulk? && e.adopted && f == s.nextId {
          AddNexthopAt(s.fib, e.prefix, f, costs(e.kind), p, f);
        } else {
          UpBefore(costs, s, e, p, f);
          assert p in s.pinned && s.pinned[p] == f;
        }
      }
    }
  }

  /** After two attaches on one prefix and the loss of the second face, the first one is still up and a nexthop,
    * and yet the prefix has no pin and no measured strategy, in every state this can happen in. */
  lemma SecondAttachStrandsTheFirst(costs: Costs, s: State, p: Name, first: FaceKind, second: FaceKind)
    requires Inv(s) && p != ROOT
    ensures var once := AttachBulkNext(costs, s, p, first, true);
      var t := DetachNext(AttachBulkNext(costs, once, p, second, true), once.nextId);
      BulkUp(t, p, s.nextId) && p !in t.pinned && !IsMeasured(t, p)
  {
    var once := AttachBulkNext(costs, s, p, first, true);
    var twice := AttachBulkNext(costs, once, p, second, true);
    AddNexthopAt(s.fib, p, s.nextId, costs(first), p, s.nextId);
    AddNexthopAt(once.fib, p, once.nextId, costs(second), p, s.nextId);
    DetachIsLocal(twice, once.nextId);
  }

  // ------------------------------------------------ an attach undone by its detach

  /** `with` is `without` plus nexthops through one face. */
  ghost predicate OneMoreHop(without: Fib, with: Fib, f: FaceId) {
    forall q :: Hops(with, q) - {f} == Hops(without, q)
  }

  lemma AddKeepsOneMoreHop(without: Fib, with: Fib, f: FaceId, prefix: Name, face: FaceId, cost: nat)
    requires OneMoreHop(without, with, f) && face != f
    ensures OneMoreHop(AddNexthop(without, prefix, face, cost), AddNexthop(with, prefix, face, cost), f)
  {
    var fewer, more := AddNexthop(without, prefix, face, cost), AddNexthop(with, prefix, face, cost);
    forall q ensures Hops(more, q) - {f} == Hops(fewer, q) {
      assert Hops(with, q) - {f} == Hops(without, q);
      assert (Hops(with, prefix) - {f})[face := cost] == Hops(with, prefix)[face := cost] - {f};
    }
  }

  lemma NewHopIsOneMore(fib: Fib, prefix: Name, f: FaceId, cost: nat)
    requires forall q :: f !in Hops(fib, q)
    ensures OneMoreHop(fib, AddNexthop(fib, prefix, f, cost), f)
  {
    forall q ensures Hops(AddNexthop(fib, prefix, f, cost), q) - {f} == Hops(fib, q) {
      assert f !in Hops(fib, q);
    }
  }

  ghost predicate AgreeExceptAt(a: map<Name, Strategy>, b: map<Name, Strategy>, p: Name) {
    && (forall q :: q != p ==> (q in a <==> q in b))
    && (forall q :: q != p && q in a ==> a[q] == b[q])
  }

  lemma UpdateKeepsAgreement(a: map<Name, Strategy>, b: map<Name, Strategy>, p: Name, q: Name, x: Strategy)
    requires AgreeExceptAt(a, b, p)
    ensures AgreeExceptAt(a[q := x], b[q := x], p)
    ensures AgreeExceptAt(a[p := x], b, p)
  {
  }

  /** `with` is `without` plus one bulk face pinned to the prefix. */
  ghost predicate OneMoreBulk(without: State, with: State, p: Name, f: FaceId) {
    && f < without.nextId && f !in without.bulk && f !in without.groups && f !in Rebuilt(without)
    && with.faces - {f} == without.faces && with.bulk - {f} == without.bulk
    && with == without.(faces := with.faces, bulk := with.bulk, fib := with.fib,
                        strategies := with.strategies, pinned := with.pinned)
    && OneMoreHop(without.fib, with.fib, f)
    && p !in without.pinned && with.pinned == without.pinned[p := f]
    && (forall q :: q in without.pinned ==> without.pinned[q] != f)
    && AgreeExceptAt(without.strategies, with.strategies, p)
  }

  /** The two states agree on everything a packet's path depends on, except the strategy of `p`. */
  ghost predicate SameRoutes(s: State, t: State, p: Name) {
    && t == s.(fib := t.fib, strategies := t.strategies)
    && (forall q :: Nexthops(s, q) == Nexthops(t, q))
    && AgreeExceptAt(s.strategies, t.strategies, p)
  }

  lemma BeaconKeepsOneMore(costs: Costs, s: State, t: State, p: Name, f: FaceId, prefix: Name, heard: Heard)
    requires OneMoreBulk(s, t, p, f)
    ensures OneMoreBulk(BeaconNext(costs, s, prefix, heard), BeaconNext(costs, t, prefix, heard), p, f)
  {
    RadiosRebuilt(s);
    assert Radio(s, heard) == Radio(t, heard);
    if Radio(s, heard).Some? {
      var (kind, face) := Radio(s, heard).value;
      AddKeepsOneMoreHop(s.fib, t.fib, f, prefix, face, costs(kind));
      UpdateKeepsAgreement(s.strategies, t.strategies, p, prefix, Multicast);
      BeaconFrame(costs, s, prefix, heard);
      BeaconFrame(costs, t, prefix, heard);
    }
  }

  lemma BeaconFrame(costs: Costs, s: State, prefix: Name, heard: Heard)
    ensures var t := BeaconNext(costs, s, prefix, heard);
      t == s.(fib := t.fib, strategies := t.strategies) && Rebuilt(t) == Rebuilt(s)
  {
  }

  lemma DropKeepsOneMoreHop(without: Fib, with: Fib, f: FaceId, dropped: set<FaceId>, more: set<FaceId>)
    requires OneMoreHop(without, with, f) && dropped - {f} == more - {f}
    ensures OneMoreHop(DropFaces(without, dropped), DropFaces(with, more), f)
  {
    forall g | g != f ensures g in dropped <==> g in more {
      assert g in dropped - {f} <==> g in more - {f};
    }
    forall q ensures Hops(DropFaces(with, more), q) - {f} == Hops(DropFaces(without, dropped), q) {
      assert Hops(with, q) - {f} == Hops(without, q);
      assert Hops(DropFaces(with, more), q) == Hops(with, q) - more;
      assert Hops(DropFaces(without, dropped), q) == Hops(without, q) - dropped;
    }
  }

  lemma AttachKeepsOneMore(costs: Costs, s: State, t: State, p: Name, f: FaceId, q: Name, kind: FaceKind, adopted: bool)
    requires OneMoreBulk(s, t, p, f) && (adopted ==> q != p)
    ensures OneMoreBulk(AttachBulkNext(costs, s, q, kind, adopted), AttachBulkNext(costs, t, q, kind, adopted), p, f)
  {
    var id := s.nextId;
    assert Rebuilt(AttachBulkNext(costs, s, q, kind, adopted)) == Rebuilt(s);
    if adopted {
      AddKeepsOneMoreHop(s.fib, t.fib, f, q, id, costs(kind));
      UpdateKeepsAgreement(s.strategies, t.strategies, p, q, Measured);
      OneMoreMember(s.faces, t.faces, f, id);
      OneMoreMember(s.bulk, t.bulk, f, id);
      PinsCommute(s.pinned, p, f, q, id);
    }
  }

  lemma OneMoreMember(a: set<FaceId>, b: set<FaceId>, f: FaceId, id: FaceId)
    requires b - {f} == a && id != f
    ensures (b + {id}) - {f} == a + {id}
  {
  }

  lemma PinsCommute(pinned: map<Name, FaceId>, p: Name, f: FaceId, q: Name, id: FaceId)
    requires p != q
    ensures pinned[p := f][q := id] == pinned[q := id][p := f]
  {
  }

  lemma DetachKeepsOneMore(s: State, t: State, p: Name, f: FaceId, g: FaceId)
    requires OneMoreBulk(s, t, p, f) && g != f
    ensures OneMoreBulk(DetachNext(s, g), DetachNext(t, g), p, f)
  {
    DropKeepsOneMoreHop(s.fib, t.fib, f, {g}, {g});
    assert PinsOf(t, g) == PinsOf(s, g);
    assert Rebuilt(DetachNext(s, g)) == Rebuilt(s);
  }

  lemma RadioKeepsOneMore(s: State, t: State, p: Name, f: FaceId, id: FaceId)
    requires OneMoreBulk(s, t, p, f) && id != f
    ensures OneMoreBulk(RadioNext(s, id), RadioNext(t, id), p, f)
  {
    AddKeepsOneMoreHop(s.fib, t.fib, f, ROOT, id, 0);
    UpdateKeepsAgreement(s.strategies, t.strategies, p, ROOT, Multicast);
    assert Rebuilt(RadioNext(s, id)) == Rebuilt(s);
  }

  lemma HoldKeepsOneMore(s: State, t: State, p: Name, f: FaceId, id: FaceId)
    requires OneMoreBulk(s, t, p, f) && id != f
    ensures OneMoreBulk(s.(wifiAware := Some(id)), t.(wifiAware := Some(id)), p, f)
    ensures OneMoreBulk(s.(ble := Some(id)), t.(ble := Some(id)), p, f)
    ensures OneMoreBulk(s.(groups := s.groups + {id}), t.(groups := t.groups + {id}), p, f)
  {
    assert Rebuilt(s.(wifiAware := Some(id))) <= Rebuilt(s) + {id};
    assert Rebuilt(s.(ble := Some(id))) <= Rebuilt(s) + {id};
    assert Rebuilt(s.(groups := s.groups + {id})) == Rebuilt(s);
  }

  /** Radios. */
  lemma AttachRadioKeepsOneMore(s: State, t: State, p: Name, f: FaceId, held: Option<FaceId>)
    requires OneMoreBulk(s, t, p, f) && (held == s.wifiAware || held == s.ble)
    ensures var id := RadioId(s, held);
      && OneMoreBulk(RadioNext(s, id).(wifiAware := Some(id)), RadioNext(t, id).(wifiAware := Some(id)), p, f)
      && OneMoreBulk(RadioNext(s, id).(ble := Some(id)), RadioNext(t, id).(ble := Some(id)), p, f)
  {
    RadiosRebuilt(s);
    var id := RadioId(s, held);
    RadioKeepsOneMore(s, t, p, f, id);
    HoldKeepsOneMore(RadioNext(s, id), RadioNext(t, id), p, f, id);
  }

  /** One-to-many faces. */
  lemma AttachGroupKeepsOneMore(costs: Costs, s: State, t: State, p: Name, f: FaceId, joined: bool)
    requires OneMoreBulk(s, t, p, f)
    ensures OneMoreBulk(Next(costs, s, AttachGroup(joined)), Next(costs, t, AttachGroup(joined)), p, f)
  {
    if joined {
      RadioKeepsOneMore(s, t, p, f, s.nextId);
      HoldKeepsOneMore(RadioNext(s, s.nextId), RadioNext(t, s.nextId), p, f, s.nextId);
    } else {
      assert Rebuilt(s.(nextId := s.nextId + 1)) == Rebuilt(s);
    }
  }

  lemma PresenceKeepsOneMore(costs: Costs, s: State, t: State, p: Name, f: FaceId, e: Event)
    requires OneMoreBulk(s, t, p, f) && (e.Resume? || e.PeerDown? || e.Redialled?)
    ensures OneMoreBulk(Next(costs, s, e), Next(costs, t, e), p, f)
  {
    assert forall g :: g in s.peers ==> g in Rebuilt(s);
    assert Rebuilt(Next(costs, s, e)) == Rebuilt(s) == Rebuilt(t);
  }

  lemma SuspendKeepsOneMore(costs: Costs, s: State, t: State, p: Name, f: FaceId, dropped: set<FaceId>)
    requires OneMoreBulk(s, t, p, f)
    ensures OneMoreBulk(Next(costs, s, Suspend(dropped)), Next(costs, t, Suspend(dropped)), p, f)
  {
    DropKeepsOneMoreHop(s.fib, t.fib, f, dropped * (s.bulk + s.groups), dropped * (t.bulk + t.groups));
    assert Rebuilt(Next(costs, s, Suspend(dropped))) == Rebuilt(s) == Rebuilt(t);
  }

  /** Events that are not about this bulk face or a second one on its prefix. */
  predicate LeavesAlone(e: Event, p: Name, f: FaceId) {
    e != Detach(f) && !(e.AttachBulk? && e.adopted && e.prefix == p)
  }

  lemma StepKeepsOneMore(costs: Costs, s: State, t: State, p: Name, f: FaceId, e: Event)
    requires OneMoreBulk(s, t, p, f) && LeavesAlone(e, p, f)
    ensures OneMoreBulk(Next(costs, s, e), Next(costs, t, e), p, f)
  {
    match e
    case Beacon(prefix, heard) => BeaconKeepsOneMore(costs, s, t, p, f, prefix, heard);
    case AttachBulk(prefix, kind, adopted) => AttachKeepsOneMore(costs, s, t, p, f, prefix, kind, adopted);
    case Detach(g) => DetachKeepsOneMore(s, t, p, f, g);
    case AttachWifiAware => AttachRadioKeepsOneMore(s, t, p, f, s.wifiAware);
    case AttachBle => AttachRadioKeepsOneMore(s, t, p, f, s.ble);
    case AttachGroup(joined) => AttachGroupKeepsOneMore(costs, s, t, p, f, joined);
    case Suspend(dropped) => SuspendKeepsOneMore(costs, s, t, p, f, dropped);
    case Resume(_) => PresenceKeepsOneMore(costs, s, t, p, f, e);
    case PeerDown(_) => PresenceKeepsOneMore(costs, s, t, p, f, e);
    case Redialled(_) => PresenceKeepsOneMore(costs, s, t, p, f, e);
  }

  lemma {:induction false} RunsKeepOneMore(costs: Costs, s: State, t: State, p: Name, f: FaceId,
                                           es: seq<Event>, s': State, t': State)
    requires OneMoreBulk(s, t, p, f) && Runs(costs, s, es, s') && Runs(costs, t, es, t')
    requires forall e :: e in es ==> LeavesAlone(e, p, f)
    ensures OneMoreBulk(s', t', p, f)
    decreases |es|
  {
    if es != [] {
      assert es[0] in es;
      StepKeepsOneMore(costs, s, t, p, f, es[0]);
      RunsKeepOneMore(costs, Next(costs, s, es[0]), Next(costs, t, es[0]), p, f, es[1..], s', t');
    }
  }

  lemma AttachIsOneMore(costs: Costs, s: State, p: Name, kind: FaceKind)
    requires Inv(s) && p !in s.pinned
    ensures OneMoreBulk(AttachBulkNext(costs, s, p, kind, false), AttachBulkNext(costs, s, p, kind, true), p, s.nextId)
  {
    NewHopIsOneMore(s.fib, p, s.nextId, costs(kind));
    assert Rebuilt(AttachBulkNext(costs, s, p, kind, false)) == Rebuilt(s);
  }

  lemma DetachUndoesOneMore(s: State, t: State, p: Name, f: FaceId)
    requires OneMoreBulk(s, t, p, f)
    ensures SameRoutes(s, DetachNext(t, f), p)
    ensures p in DetachNext(t, f).strategies && DetachNext(t, f).strategies[p] == Multicast
  {
    var u := DetachNext(t, f);
    assert PinsOf(t, f) == {p};
    assert u.pinned == s.pinned;
    DetachIsLocal(t, f);
  }

  /** Attaching a bulk face to an unpinned prefix and detaching it again, with anything in between but a second
    * attach on that prefix - beacons, attaches and detaches elsewhere, radios, suspensions and resumptions -
    * leaves the faces, routes, pins and strategies of the same run in which the attach was refused; the prefix
    * itself is back on fan-out. */
  lemma DetachUndoesAttach(costs: Costs, s: State, p: Name, kind: FaceKind, es: seq<Event>, without: State, with: State)
    requires Inv(s) && p !in s.pinned && forall e :: e in es ==> LeavesAlone(e, p, s.nextId)
    requires Runs(costs, AttachBulkNext(costs, s, p, kind, false), es, without)
    requires Runs(costs, AttachBulkNext(costs, s, p, kind, true), es, with)
    ensures SameRoutes(without, DetachNext(with, s.nextId), p)
    ensures p in DetachNext(with, s.nextId).strategies && DetachNext(with, s.nextId).strategies[p] == Multicast
  {
    AttachIsOneMore(costs, s, p, kind);
    RunsKeepOneMore(costs, AttachBulkNext(costs, s, p, kind, false), AttachBulkNext(costs, s, p, kind, true),
                    p, s.nextId, es, without, with);
    DetachUndoesOneMore(without, with, p, s.nextId);
  }

  // ------------------------------------------------------------------ the engine

  predicate SameAt(a: map<Name, Strategy>, b: map<Name, Strategy>, p: Name) {
    (p in a <==> p in b) && (p in a ==> a[p] == b[p])
  }

  /** The face is a nexthop of the prefix at this cost, beside those it had, and the prefix fans out unless it is
    * pinned; nothing else is different. */
  ghost predicate NewlyRouted(s: State, t: State, prefix: Name, face: FaceId, cost: nat) {
    && t == s.(fib := t.fib, strategies := t.strategies)
    && Nexthops(t, prefix) == Nexthops(s, prefix)[face := cost]
    && (forall p :: p != prefix ==> Nexthops(t, p) == Nexthops(s, p) && SameAt(t.strategies, s.strategies, p))
    && (if prefix in s.pinned then t.strategies == s.strategies
        else prefix in t.strategies && t.strategies[prefix] == Multicast)
  }

  /** The face is up, a nexthop of the prefix at this cost beside those it had, and the prefix is measured and pinned to
    * it; no other prefix is touched. */
  ghost predicate BulkAttached(s: State, t: State, prefix: Name, face: FaceId, cost: nat) {
    && t.faces == s.faces + {face} && t.bulk == s.bulk + {face} && t.nextId == face + 1
    && Nexthops(t, prefix) == Nexthops(s, prefix)[face := cost]
    && IsMeasured(t, prefix) && t.pinned == s.pinned[prefix := face]
    && (forall p :: p != prefix ==> Nexthops(t, p) == Nexthops(s, p) && SameAt(t.strategies, s.strategies, p))
  }

  lemma AttachedBulk(costs: Costs, s: State, prefix: Name, kind: FaceKind)
    ensures BulkAttached(s, AttachBulkNext(costs, s, prefix, kind, true), prefix, s.nextId, costs(kind))
  {
    AddedHops(s.fib, prefix, s.nextId, costs(kind));
  }

  /** The face is up and the default route goes over it at cost 0 beside those it had, with fan-out; no other route,
    * strategy or pin is different, and no face has gone. */
  ghost predicate OnRootRoute(s: State, t: State, face: FaceId) {
    && t.faces == s.faces + {face} && t.pinned == s.pinned && t.bulk == s.bulk && t.nextId >= s.nextId
    && Nexthops(t, []) == Nexthops(s, [])[face := 0] && [] in t.strategies && t.strategies[[]] == Multicast
    && (forall p :: p != [] ==> Nexthops(t, p) == Nexthops(s, p) && SameAt(t.strategies, s.strategies, p))
  }

  lemma RootRouted(s: State, face: FaceId)
    ensures OnRootRoute(s, RadioNext(s, face), face)
  {
    AddedHops(s.fib, ROOT, face, 0);
  }

  class MobileEngine {
    const costs: Costs
    const peers: seq<FaceId>
    const multicast: FaceId
    var nextId: FaceId
    var faces: set<FaceId>
    var bulk: set<FaceId>
    var groups: set<FaceId>
    var wifiAware: Option<FaceId>
    var ble: Option<FaceId>
    var fib: Fib
    var strategies: map<Name, Strategy>
    var pinned: map<Name, FaceId>

    function View(): State
      reads this
    {
      State(nextId, faces, bulk, groups, wifiAware, ble, multicast, peers, fib, strategies, pinned)
    }

    constructor (costs: Costs, peers: seq<FaceId>, multicast: FaceId, nextId: FaceId)
      requires forall i :: 0 <= i < |peers| ==> peers[i] < nextId
      requires multicast < nextId
      ensures View() == State(nextId, (set i | 0 <= i < |peers| :: peers[i]), {}, {}, None, None, multicast, peers,
                              map[], map[], map[])
      ensures this.costs == costs && Fresh(View()) && Inv(View())
    {
      this.costs, this.peers, this.multicast, this.nextId := costs, peers, multicast, nextId;
      faces := set i | 0 <= i < |peers| :: peers[i];
      bulk, groups, wifiAware, ble := {}, {}, None, None;
      fib, strategies, pinned := map[], map[], map[];
      new;
      FreshInv(View());
    }

    /** The name is that of a face that is there. */
    ghost predicate Hears(face: string)
      reads this
    {
      || (face == "wifi-aware" && wifiAware.Some?) || (face == "ble" && ble.Some?)
      || ((face == "multicast" || face == "udp") && multicast != 0)
    }

    /** `note_peer_route`: a beacon heard over a face that is there routes the peer's prefix over it at that radio's
      * cost, and fans the prefix out unless it is pinned; any other beacon changes nothing. */
    method NotePeerRoute(prefix: Name, face: string)
      requires Inv(View()) && prefix != ROOT
      modifies this
      ensures View() == BeaconNext(costs, old(View()), prefix, HeardOn(face)) && Inv(View())
      ensures face == "wifi-aware" && wifiAware.Some?
        ==> NewlyRouted(old(View()), View(), prefix, wifiAware.value, costs(WifiAware))
      ensures face == "ble" && ble.Some? ==> NewlyRouted(old(View()), View(), prefix, ble.value, costs(Bluetooth))
      ensures (face == "multicast" || face == "udp") && multicast != 0
        ==> NewlyRouted(old(View()), View(), prefix, multicast, costs(Udp))
      ensures !Hears(face) ==> View() == old(View())
      ensures forall p :: p in pinned ==> IsMeasured(View(), p)
    {
      BeaconInv(costs, View(), prefix, HeardOn(face));
      var radio := RadioNamed(face);
      if radio.None? {
        return;
      }
      RouteOver(prefix, radio.value.0, radio.value.1);
    }

    /** The radio of that name, as a kind and a face. */
    method RadioNamed(face: string) returns (radio: Option<(FaceKind, FaceId)>)
      ensures radio == Radio(View(), HeardOn(face)) && (radio.Some? <==> Hears(face))
      ensures face == "wifi-aware" && wifiAware.Some? ==> radio == Some((WifiAware, wifiAware.value))
      ensures face == "ble" && ble.Some? ==> radio == Some((Bluetooth, ble.value))
      ensures (face == "multicast" || face == "udp") && multicast != 0 ==> radio == Some((Udp, multicast))
    {
      if face == "wifi-aware" {
        radio := if wifiAware.Some? then Some((WifiAware, wifiAware.value)) else None;
      } else if face == "ble" {
        radio := if ble.Some? then Some((Bluetooth, ble.value)) else None;
      } else if face == "multicast" || face == "udp" {
        radio := if multicast != 0 then Some((Udp, multicast)) else None;
      } else {
        radio := None;
      }
    }

    /** The nexthop is refreshed, and the prefix fanned out when it is not pinned. */
    method RouteOver(prefix: Name, kind: FaceKind, id: FaceId)
      modifies `fib, `strategies
      ensures fib == AddNexthop(old(fib), prefix, id, costs(kind))
      ensures strategies == if prefix in pinned then old(strategies) else old(strategies)[prefix := Multicast]
      ensures NewlyRouted(old(View()), View(), prefix, id, costs(kind))
    {
      fib := AddNexthop(fib, prefix, id, costs(kind));
      AddedHops(old(fib), prefix, id, costs(kind));
      if prefix in pinned {
        return;
      }
      strategies := strategies[prefix := Multicast];
    }

    /** Adopts a socket as a bulk face; `usable` is whether the socket could be adopted. */
    method AttachUdpBulkFace(prefix: Name, kind: FaceKind, usable: bool) returns (face: Option<FaceId>)
      requires Inv(View()) && prefix != ROOT
      modifies this
      ensures View() == AttachBulkNext(costs, old(View()), prefix, kind, usable) && Inv(View())
      ensures face == if usable then Some(old(nextId)) else None
      ensures if usable then BulkAttached(old(View()), View(), prefix, old(nextId), costs(kind))
              else View() == old(View()).(nextId := old(nextId) + 1)
    {
      AttachBulkInv(costs, View(), prefix, kind, usable);
      AttachedBulk(costs, View(), prefix, kind);
      var id := nextId;
      nextId := nextId + 1;
      if !usable {
        return None;
      }
      faces, bulk := faces + {id}, bulk + {id};
      fib := AddNexthop(fib, prefix, id, costs(kind));
      strategies := strategies[prefix := Measured];
      pinned := pinned[prefix := id];
      return Some(id);
    }

    /** Retains the pins of other faces and reverts the strategy of every prefix whose pin went. */
    method DetachNdpFace(face: FaceId)
      requires Inv(View())
      modifies this
      ensures View() == DetachNext(old(View()), face) && Inv(View())
      ensures forall p :: Nexthops(View(), p) == Nexthops(old(View()), p) - {face}
      ensures faces == old(faces) - {face}
      ensures forall p :: p in pinned <==> p in old(pinned) && old(pinned)[p] != face
      ensures forall p :: p in pinned ==> pinned[p] == old(pinned)[p]
      ensures forall p :: p in old(pinned) && old(pinned)[p] == face ==> p in strategies && strategies[p] == Multicast
      ensures forall p :: !(p in old(pinned) && old(pinned)[p] == face) ==> SameAt(strategies, old(strategies), p)
    {
      DetachInv(View(), face);
      DetachIsLocal(View(), face);
      faces, bulk, fib := faces - {face}, bulk - {face}, DropFaces(fib, {face});
      var reverted := RetainOtherPins(face);
      FanOut(reverted);
      assert reverted == PinsOf(old(View()), face);
    }

    /** Keeps the pins of other faces and returns the prefixes whose pin went. */
    method RetainOtherPins(face: FaceId) returns (reverted: set<Name>)
      modifies this`pinned
      ensures reverted == set p | p in old(pinned) && old(pinned)[p] == face
      ensures pinned == old(pinned) - reverted
    {
      reverted := {};
      var entries := pinned.Keys;
      while entries != {}
        invariant entries <= old(pinned).Keys && reverted !! entries
        invariant reverted == set p | p in old(pinned) && old(pinned)[p] == face && p !in entries
        invariant pinned == old(pinned) - reverted
        decreases |entries|
      {
        var p :| p in entries;
        entries := entries - {p};
        if pinned[p] == face {
          reverted := reverted + {p};
          pinned := pinned - {p};
        }
      }
    }

    method FanOut(prefixes: set<Name>)
      modifies this`strategies
      ensures strategies == old(strategies) + (map p | p in prefixes :: Multicast)
    {
      var pending := prefixes;
      while pending != {}
        invariant pending <= prefixes
        invariant strategies == old(strategies) + (map p | p in prefixes - pending :: Multicast)
        decreases |pending|
      {
        var p :| p in pending;
        pending := pending - {p};
        strategies := strategies[p := Multicast];
      }
    }

    /** The face goes with the network: a configured peer, the multicast face, a radio, or an attached face. */
    ghost predicate OnNetwork(f: FaceId)
      reads this
    {
      || f in peers || (f == multicast && multicast != 0) || wifiAware == Some(f) || ble == Some(f)
      || f in bulk || f in groups
    }

    /** `attach_wifi_aware`. */
    method AttachWifiAware() returns (id: FaceId)
      requires Inv(View())
      modifies this
      ensures View() == Next(costs, old(View()), Event.AttachWifiAware) && Inv(View())
      ensures id == if old(wifiAware).Some? then old(wifiAware).value else old(nextId)
      ensures wifiAware == Some(id) && ble == old(ble) && OnRootRoute(old(View()), View(), id)
    {
      AttachRadioInv(View(), wifiAware);
      RootRouted(View(), RadioId(View(), wifiAware));
      id := if wifiAware.Some? then wifiAware.value else nextId;
      AddRootFace(id);
      wifiAware := Some(id);
    }

    /** `attach_ble`. */
    method AttachBle() returns (id: FaceId)
      requires Inv(View())
      modifies this
      ensures View() == Next(costs, old(View()), Event.AttachBle) && Inv(View())
      ensures id == if old(ble).Some? then old(ble).value else old(nextId)
      ensures ble == Some(id) && wifiAware == old(wifiAware) && OnRootRoute(old(View()), View(), id)
    {
      AttachRadioInv(View(), ble);
      RootRouted(View(), RadioId(View(), ble));
      id := if ble.Some? then ble.value else nextId;
      AddRootFace(id);
      ble := Some(id);
    }

    /** `attach_wifi_direct_multicast_face`; `joined` is whether the group could be joined. */
    method AttachGroup(joined: bool) returns (face: Option<FaceId>)
      requires Inv(View())
      modifies this
      ensures View() == Next(costs, old(View()), Event.AttachGroup(joined)) && Inv(View())
      ensures face == if joined then Some(old(nextId)) else None
      ensures joined ==> groups == old(groups) + {old(nextId)} && OnRootRoute(old(View()), View(), old(nextId))
      ensures nextId == old(nextId) + 1
    {
      GroupInv(View());
      RootRouted(View(), nextId);
      var id := nextId;
      if !joined {
        nextId := nextId + 1;
        return None;
      }
      AddRootFace(id);
      groups := groups + {id};
      return Some(id);
    }

    /** The face is up, the default route goes over it, and Interests there fan out. */
    method AddRootFace(id: FaceId)
      modifies `faces, `nextId, `fib, `strategies
      ensures View() == RadioNext(old(View()), id)
    {
      faces, nextId := faces + {id}, Max(nextId, id + 1);
      fib := AddNexthop(fib, ROOT, id, 0);
      strategies := strategies[ROOT := Multicast];
    }

    /** The cancelled token takes every network face down; `dropped` are the lost faces whose routes go too. */
    method SuspendNetworkFaces(dropped: set<FaceId>)
      requires Inv(View())
      modifies this
      ensures View() == Next(costs, old(View()), Suspend(dropped)) && Inv(View())
      ensures pinned == old(pinned) && strategies == old(strategies)
      ensures PinsLive(View()) <==> pinned == map[]
      ensures forall f :: f in faces <==> f in old(faces) && !OnNetwork(f)
      ensures forall p, f :: f in Nexthops(View(), p) <==>
        f in old(Nexthops(View(), p)) && !(f in dropped && (f in bulk || f in groups))
      ensures forall p, f :: f in Nexthops(View(), p) ==> Nexthops(View(), p)[f] == old(Nexthops(View(), p))[f]
    {
      PresenceInv(costs, View(), Suspend(dropped));
      SuspendKillsPinsExactly(costs, View(), dropped);
      var onToken := Rebuilt(View()) + bulk + groups;
      fib := DropFaces(fib, dropped * (bulk + groups));
      faces := faces - onToken;
      assert faces == old(faces) - Rebuilt(old(View())) - old(bulk) - old(groups);
    }

    /** Rebuilds the configured faces that answer and both radios, under their old ids. */
    method ResumeNetworkFaces(answering: set<FaceId>)
      requires Inv(View())
      modifies this
      ensures View() == Next(costs, old(View()), Resume(answering + Held(wifiAware) + Held(ble))) && Inv(View())
      ensures fib == old(fib) && pinned == old(pinned) && nextId == old(nextId) && strategies == old(strategies)
      ensures forall f :: f in faces <==> (
        || f in old(faces) || wifiAware == Some(f) || ble == Some(f)
        || (f in answering && (f in peers || (f == multicast && multicast != 0))))
    {
      ghost var back := answering + Held(wifiAware) + Held(ble);
      PresenceInv(costs, View(), Resume(back));
      if multicast != 0 && multicast in answering {
        faces := faces + {multicast};
      }
      RebuildPeers(answering);
      faces := faces + Held(wifiAware) + Held(ble);
      assert faces == old(faces) + back * Rebuilt(old(View()));
    }

    method RebuildPeers(answering: set<FaceId>)
      modifies this`faces
      ensures faces == old(faces) + answering * (set j | 0 <= j < |peers| :: peers[j])
    {
      var i := 0;
      while i < |peers|
        invariant 0 <= i <= |peers|
        invariant faces == old(faces) + answering * (set j | 0 <= j < i :: peers[j])
      {
        if peers[i] in answering {
          faces := faces + {peers[i]};
        }
        i := i + 1;
      }
    }
  }
}
