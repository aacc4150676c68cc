/** The relay's content store: what is published is served from it, until the store evicts it. */
module RelayStore {
  import opened Basics
  import opened RdrObject
  import opened RelayProtocol
  import opened RelaySafety
  import opened RelayResults
  import CS = ContentStream

  // ----------------------------------------------------- published and cached

  lemma StaysCached(c: Config, s: State, e: Event, k: nat)
    requires c.Valid() && Enabled(c, s, e) && k in s.cs && e != Evict(k)
    ensures k in Next(c, s, e).cs
  {
    match e
    case HandlerStep(i) => HandlerFrame(s, i);
    case RefetchStep(_) =>
    case RelayStep =>
    case LeafStep => LeafFrame(c, s);
    case Interest(j) => InterestFrame(s, j);
    case _ => OutsideCached(c, s, e, k);
  }

  lemma OutsideCached(c: Config, s: State, e: Event, k: nat)
    requires c.Valid() && Outside(e) && Enabled(c, s, e) && k in s.cs && e != Evict(k)
    ensures k in OutsideNext(c, s, e).cs
  {
  }

  lemma {:induction false} StaysCachedRuns(c: Config, s: State, es: seq<Event>, t: State, k: nat)
    requires c.Valid() && Runs(c, s, es, t) && k in s.cs && Evict(k) !in es
    ensures k in t.cs
    decreases |es|
  {
    if es != [] {
      assert es == [es[0]] + es[1..];
      StaysCached(c, s, es[0], k);
      StaysCachedRuns(c, Next(c, s, es[0]), es[1..], t, k);
    }
  }

  /** A step publishes at most one Data, which is then in the store. */
  lemma PublishingCaches(c: Config, s: State, e: Event)
    requires c.Valid() && Enabled(c, s, e)
    ensures var t := Next(c, s, e);
      t.published == s.published
      || (|t.published| == |s.published| + 1 && s.published <= t.published && t.published[|s.published|].seg in t.cs)
  {
    match e
    case HandlerStep(i) => HandlerFrame(s, i);
    case RefetchStep(_) =>
    case RelayStep =>
    case LeafStep => LeafFrame(c, s);
    case Interest(k) => InterestFrame(s, k);
    case _ => OutsideFrame(c, s, e);
  }

  /** What an Interest for a cached segment comes to: the answer, at once and nothing else. */
  ghost predicate ServedAtOnce(c: Config, t: State, d: Data)
    requires c.Valid()
  {
    && d.seg in t.cs && t.cs[d.seg] == d.content
    && Enabled(c, t, Interest(d.seg))
    && Next(c, t, Interest(d.seg)) == t.(answered := t.answered + [d])
  }

  lemma CachedIsServed(c: Config, s: State, k: nat)
    requires c.Valid() && Inv(c, s) && k in s.cs
    ensures k < |c.leaf.segments| && ServedAtOnce(c, s, Data(k, c.leaf.segments[k]))
  {
    assert GoodData(c, Data(k, s.cs[k]));
  }

  /** Over every run: a Data that the relay or a re-fetch has published is in the content store from then on until it
    * is evicted, and an Interest for it is answered with it at once, with no handler started and nothing left
    * pending, whatever else happens. */
  lemma PublishedIsServed(c: Config, before: seq<Event>, s: State, e: Event, d: Data, after: seq<Event>, t: State)
    requires c.Valid() && Runs(c, INIT, before, s) && Enabled(c, s, e)
    requires Next(c, s, e).published == s.published + [d]
    requires Runs(c, Next(c, s, e), after, t) && Evict(d.seg) !in after
    ensures ServedAtOnce(c, t, d)
  {
    InvRuns(c, INIT, before, s);
    InvStep(c, s, e);
    PublishingCaches(c, s, e);
    var u := Next(c, s, e);
    assert u.published[|s.published|] == d;
    assert GoodData(c, u.published[|s.published|]);
    StaysCachedRuns(c, u, after, t, d.seg);
    InvRuns(c, u, after, t);
    CachedIsServed(c, t, d.seg);
  }

  /** An Interest for an evicted segment waits and starts a handler; the rest of the store is as it was. */
  lemma EvictedIsAwaited(c: Config, s: State, k: nat)
    requires c.Valid() && k < U64 && Enabled(c, s, Evict(k))
    ensures var t := Next(c, s, Evict(k));
      && Next(c, t, Interest(k)) == t.(pending := t.pending + {k}, handlers := t.handlers + [Handler(k, Raise)])
      && forall j :: j != k ==> ((j in t.cs <==> j in s.cs) && (j in t.cs ==> t.cs[j] == s.cs[j]))
  {
  }

  // ------------------------------------------------ every segment accounted for

  /** The segment that an event takes off its way to the store. */
  function SkippedBy(s: State, e: Event): set<nat> {
    match e
    case Lose(i) => if i < |s.stream| then {s.stream[i].seg} else {}
    case SignFails => if InHand(s.relay).Some? then {InHand(s.relay).value.seg} else {}
    case _ => {}
  }

  ghost function SkippedSegs(c: Config, s: State, es: seq<Event>): set<nat>
    requires c.Valid()
    decreases |es|
  {
    if es == [] || !Enabled(c, s, es[0]) then {}
    else SkippedBy(s, es[0]) + SkippedSegs(c, Next(c, s, es[0]), es[1..])
  }

  ghost predicate Published(log: seq<Data>, k: nat) {
    exists i :: 0 <= i < |log| && log[i].seg == k
  }

  ghost predicate OnSeam(stream: seq<Raw>, k: nat) {
    exists i :: 0 <= i < |stream| && stream[i].seg == k
  }

  /** The relay holds segment `k`, and it is no echo. */
  predicate FreshInHand(s: State, k: nat) {
    InHand(s.relay).Some? && InHand(s.relay).value.seg == k >= s.produced
  }

  ghost predicate Accounted(s: State, k: nat, skipped: set<nat>) {
    Published(s.published, k) || OnSeam(s.stream, k) || FreshInHand(s, k) || k in skipped
  }

  lemma PublishedGrows(log: seq<Data>, more: seq<Data>, k: nat)
    requires Published(log, k) && log <= more
    ensures Published(more, k)
  {
    var i :| 0 <= i < |log| && log[i].seg == k;
    assert more[i].seg == k;
  }

  lemma AccountedCommit(c: Config, s: State, d: Raw, k: nat, skipped: set<nat>)
    requires c.Valid() && Accounted(s, k, skipped) && s.relay == Commit(d)
    ensures Accounted(CommitNext(s, d), k, skipped)
  {
    var t := CommitNext(s, d);
    assert t.published[|s.published|] == Data(d.seg, d.content);
    if Published(s.published, k) {
      PublishedGrows(s.published, t.published, k);
    } else if FreshInHand(s, k) {
      assert Published(t.published, k);
    }
  }

  lemma AccountedRecv(c: Config, s: State, k: nat, skipped: set<nat>)
    requires c.Valid() && Ordered(c, s) && Accounted(s, k, skipped) && s.relay.Recv?
    ensures Accounted(RecvNext(c, s), k, skipped)
  {
    var t := RecvNext(c, s);
    if OnSeam(s.stream, k) {
      var i :| 0 <= i < |s.stream| && s.stream[i].seg == k;
      if i > 0 {
        assert t.stream[i - 1].seg == k;
      }
    }
  }

  lemma AccountedRelay(c: Config, s: State, k: nat, skipped: set<nat>)
    requires c.Valid() && Ordered(c, s) && Accounted(s, k, skipped) && RelayReady(c, s)
    ensures Accounted(RelayNext(c, s), k, skipped)
  {
    match s.relay
    case Recv => AccountedRecv(c, s, k, skipped);
    case Commit(d) => AccountedCommit(c, s, d, k, skipped);
    case _ =>
  }

  lemma AccountedLose(s: State, k: nat, skipped: set<nat>, i: nat)
    requires Accounted(s, k, skipped) && i < |s.stream|
    ensures Accounted(s.(stream := s.stream[..i] + s.stream[i + 1..]), k, skipped + {s.stream[i].seg})
  {
    var rest := s.stream[..i] + s.stream[i + 1..];
    if OnSeam(s.stream, k) && k != s.stream[i].seg {
      var j :| 0 <= j < |s.stream| && s.stream[j].seg == k;
      assert rest[if j < i then j else j - 1].seg == k;
    }
  }

  lemma AccountedOutside(c: Config, s: State, e: Event, k: nat, skipped: set<nat>)
    requires c.Valid() && Outside(e) && Enabled(c, s, e) && Accounted(s, k, skipped)
    ensures Accounted(OutsideNext(c, s, e), k, skipped + SkippedBy(s, e))
  {
    match e
    case Lose(i) => AccountedLose(s, k, skipped, i);
    case LeafFails =>
    case Echo(_) =>
    case SignFails =>
    case _ => OutsideFrame(c, s, e); SeamUntouched(c, s, e);
  }

  lemma AccountedLeaf(c: Config, s: State, k: nat, skipped: set<nat>)
    requires c.Valid() && Ordered(c, s) && LeafReady(c, s) && k < LeafNext(c, s).leaf.seg
    requires k < s.leaf.seg ==> Accounted(s, k, skipped)
    ensures Accounted(LeafNext(c, s), k, skipped)
  {
    LeafSends(c, s);
    var t := LeafNext(c, s);
    if k == s.leaf.seg {
      assert t.stream[|s.stream|].seg == k;
    } else if OnSeam(s.stream, k) {
      var i :| 0 <= i < |s.stream| && s.stream[i].seg == k;
      assert t.stream[i].seg == k;
    }
  }

  lemma AccountedRefetch(c: Config, s: State, i: nat, k: nat, skipped: set<nat>)
    requires c.Valid() && i < |s.refetches| && Accounted(s, k, skipped)
    ensures Accounted(RefetchNext(c, s, i), k, skipped)
  {
    var t := RefetchNext(c, s, i);
    RefetchFrame(c, s, i);
    if Published(s.published, k) {
      PublishedGrows(s.published, t.published, k);
    }
  }

  lemma AccountedHandler(s: State, i: nat, k: nat, skipped: set<nat>)
    requires i < |s.handlers| && Accounted(s, k, skipped) && (s.inputs ==> s.relay.Idle?)
    ensures Accounted(HandlerNext(s, i), k, skipped)
  {
    HandlerFrame(s, i);
  }

  lemma AccountedStep(c: Config, s: State, e: Event, k: nat, skipped: set<nat>)
    requires c.Valid() && Inv(c, s) && Enabled(c, s, e) && k < Next(c, s, e).leaf.seg
    requires k < s.leaf.seg ==> Accounted(s, k, skipped)
    ensures Accounted(Next(c, s, e), k, skipped + SkippedBy(s, e))
  {
    if !e.LeafStep? {
      LeafMoves(c, s, e);
    }
    match e
    case HandlerStep(i) => AccountedHandler(s, i, k, skipped);
    case RefetchStep(i) => AccountedRefetch(c, s, i, k, skipped);
    case RelayStep => AccountedRelay(c, s, k, skipped);
    case LeafStep => AccountedLeaf(c, s, k, skipped);
    case Interest(j) => InterestFrame(s, j);
    case _ => AccountedOutside(c, s, e, k, skipped);
  }

  lemma LeafMoves(c: Config, s: State, e: Event)
    requires c.Valid() && Enabled(c, s, e) && !e.LeafStep?
    ensures Next(c, s, e).leaf.seg == s.leaf.seg
  {
    match e
    case HandlerStep(i) => HandlerFrame(s, i);
    case RefetchStep(i) => RefetchFrame(c, s, i);
    case RelayStep =>
    case Interest(j) => InterestFrame(s, j);
    case _ => LeafStays(c, s, e);
  }

  lemma LeafStays(c: Config, s: State, e: Event)
    requires c.Valid() && Outside(e) && Enabled(c, s, e)
    ensures OutsideNext(c, s, e).leaf.seg == s.leaf.seg
  {
  }

  lemma {:induction false} AccountedRuns(c: Config, s: State, es: seq<Event>, t: State, skipped: set<nat>)
    requires c.Valid() && Inv(c, s) && Runs(c, s, es, t)
    requires forall k :: 0 <= k < s.leaf.seg ==> Accounted(s, k, skipped)
    ensures forall k :: 0 <= k < t.leaf.seg ==> Accounted(t, k, skipped + SkippedSegs(c, s, es))
    decreases |es|
  {
    if es == [] {
      assert skipped + {} == skipped;
    } else {
      var u, more := Next(c, s, es[0]), skipped + SkippedBy(s, es[0]);
      InvStep(c, s, es[0]);
      forall k | 0 <= k < u.leaf.seg ensures Accounted(u, k, more) {
        AccountedStep(c, s, es[0], k, skipped);
      }
      AccountedRuns(c, u, es[1..], t, more);
      assert more + SkippedSegs(c, u, es[1..]) == skipped + SkippedSegs(c, s, es);
    }
  }

  lemma PublishedOrCachedStep(c: Config, s: State, e: Event, k: nat)
    requires c.Valid() && Enabled(c, s, e) && e != Evict(k) && (Published(s.published, k) ==> k in s.cs)
    ensures Published(Next(c, s, e).published, k) ==> k in Next(c, s, e).cs
  {
    var t := Next(c, s, e);
    PublishingCaches(c, s, e);
    if k in s.cs {
      StaysCached(c, s, e, k);
    } else if i :| 0 <= i < |t.published| && t.published[i].seg == k {
      assert i < |s.published| ==> s.published[i].seg == k;
    }
  }

  lemma {:induction false} PublishedIsCached(c: Config, s: State, es: seq<Event>, t: State, k: nat)
    requires c.Valid() && Runs(c, s, es, t) && Evict(k) !in es && (Published(s.published, k) ==> k in s.cs)
    ensures Published(t.published, k) ==> k in t.cs
    decreases |es|
  {
    if es != [] {
      assert es == [es[0]] + es[1..];
      PublishedOrCachedStep(c, s, es[0], k);
      PublishedIsCached(c, Next(c, s, es[0]), es[1..], t, k);
    }
  }

  /** No segment is passed over silently: over every run, each one the leaf has sent is published, or still on the seam
    * or in the relay's hands, or was lost or left unsigned; those below `produced` are published or skipped. */
  lemma SentIsPublished(c: Config, es: seq<Event>, t: State, k: nat)
    requires c.Valid() && Runs(c, INIT, es, t) && k < t.leaf.seg && k !in SkippedSegs(c, INIT, es)
    ensures Published(t.published, k) || OnSeam(t.stream, k) || FreshInHand(t, k)
    ensures k < t.produced ==> Published(t.published, k)
  {
    AccountedRuns(c, INIT, es, t, {});
    assert {} + SkippedSegs(c, INIT, es) == SkippedSegs(c, INIT, es);
    assert Accounted(t, k, SkippedSegs(c, INIT, es));
    InvRuns(c, INIT, es, t);
  }

  /** The lookahead serves: over every run, an Interest for a segment that the relay has passed, not skipped, and that
    * was not evicted is answered from the store with the leaf's content, at once and without a re-fetch. */
  lemma PassedIsServed(c: Config, es: seq<Event>, t: State, k: nat)
    requires c.Valid() && Runs(c, INIT, es, t) && k < t.produced
    requires k !in SkippedSegs(c, INIT, es) && Evict(k) !in es
    ensures k < |c.leaf.segments| && ServedAtOnce(c, t, Data(k, c.leaf.segments[k]))
  {
    InvRuns(c, INIT, es, t);
    SentIsPublished(c, es, t, k);
    PublishedIsCached(c, INIT, es, t, k);
    CachedIsServed(c, t, k);
  }

  // ---------------------------------------------------- answers are asked for

  /** How many Data for segment `k` consumers have received. */
  function Received(answered: seq<Data>, k: nat): nat {
    if answered == [] then 0
    else Received(answered[..|answered| - 1], k) + (if answered[|answered| - 1].seg == k then 1 else 0)
  }

  /** How many Interests for segment `k` they have sent. */
  function Sent(es: seq<Event>, k: nat): nat {
    if es == [] then 0 else (if es[0] == Interest(k) then 1 else 0) + Sent(es[1..], k)
  }

  /** Answers for `k`, with one more to come while an Interest for it is pending. */
  function Due(s: State, k: nat): nat {
    Received(s.answered, k) + (if k in s.pending then 1 else 0)
  }

  lemma ReceivedSnoc(answered: seq<Data>, d: Data, k: nat)
    ensures Received(answered + [d], k) == Received(answered, k) + (if d.seg == k then 1 else 0)
  {
    assert (answered + [d])[..|answered|] == answered;
  }

  lemma DeliverDue(s: State, d: Data, k: nat)
    ensures Due(Deliver(s, d), k) == Due(s, k)
  {
    ReceivedSnoc(s.answered, d, k);
  }

  lemma DueRelay(c: Config, s: State, k: nat)
    requires c.Valid() && RelayReady(c, s)
    ensures Due(RelayNext(c, s), k) == Due(s, k)
  {
    match s.relay
    case Commit(d) =>
      DeliverDue(s.(cs := s.cs[d.seg := d.content], produced := Max(s.produced, d.seg + 1), relay := Check),
                 Data(d.seg, d.content), k);
    case _ =>
  }

  lemma DueRefetch(c: Config, s: State, i: nat, k: nat)
    requires c.Valid() && i < |s.refetches|
    ensures Due(RefetchNext(c, s, i), k) == Due(s, k)
  {
    var r := s.refetches[i];
    if r.pc.Fetched? {
      DeliverDue(s.(cs := s.cs[r.seg := r.pc.content], refetches := s.refetches[i := r.(pc := Over)]),
                 Data(r.seg, r.pc.content), k);
    }
  }

  lemma DueStep(c: Config, s: State, e: Event, k: nat)
    requires c.Valid() && Enabled(c, s, e)
    ensures Due(Next(c, s, e), k) <= Due(s, k) + (if e == Interest(k) then 1 else 0)
  {
    match e
    case HandlerStep(i) => HandlerFrame(s, i);
    case RefetchStep(i) => DueRefetch(c, s, i, k);
    case RelayStep => DueRelay(c, s, k);
    case LeafStep => LeafFrame(c, s);
    case Interest(j) =>
      if j in s.cs {
        ReceivedSnoc(s.answered, Data(j, s.cs[j]), k);
      }
    case _ => DueOutside(c, s, e, k);
  }

  lemma DueOutside(c: Config, s: State, e: Event, k: nat)
    requires c.Valid() && Outside(e) && Enabled(c, s, e)
    ensures Due(OutsideNext(c, s, e), k) <= Due(s, k)
  {
  }

  lemma {:induction false} DueRuns(c: Config, s: State, es: seq<Event>, t: State, k: nat)
    requires c.Valid() && Runs(c, s, es, t)
    ensures Due(t, k) <= Due(s, k) + Sent(es, k)
    decreases |es|
  {
    if es != [] {
      DueStep(c, s, es[0], k);
      DueRuns(c, Next(c, s, es[0]), es[1..], t, k);
    }
  }

  /** Nobody receives what was not asked for, or the same answer twice: over every run there are at most as many
    * answers for a segment as Interests for it, and one fewer while one is pending. */
  lemma AnswersAreAskedFor(c: Config, es: seq<Event>, t: State, k: nat)
    requires c.Valid() && Runs(c, INIT, es, t)
    ensures Received(t.answered, k) + (if k in t.pending then 1 else 0) <= Sent(es, k)
  {
    DueRuns(c, INIT, es, t, k);
  }

  /** A consumer that has given up receives nothing more: from then on there are at most as many answers for the segment
    * as new Interests for it. */
  lemma ExpiredIsNotAnswered(c: Config, s: State, k: nat, es: seq<Event>, t: State)
    requires c.Valid() && Enabled(c, s, Expire(k)) && Runs(c, Next(c, s, Expire(k)), es, t)
    ensures Received(t.answered, k) <= Received(s.answered, k) + Sent(es, k)
  {
    DueRuns(c, Next(c, s, Expire(k)), es, t, k);
  }

  // ------------------------------------------------------ a failed subscription

  /** The relay has no subscription to receive on. */
  predicate Unsubscribed(s: State) {
    s.relay.Subscribing? || s.relay.Backoff? || s.relay.Cancelled?
  }

  lemma RenewalStep(c: Config, s: State, e: Event, granted: nat)
    requires c.Valid() && Enabled(c, s, e) && !s.inputs
    requires Unsubscribed(s) || s.leaf.granted >= granted + RELAY_CREDIT
    requires s.leaf.granted >= granted
    ensures var t := Next(c, s, e);
      && (Unsubscribed(t) || t.leaf.granted >= granted + RELAY_CREDIT)
      && t.leaf.granted >= granted && !t.inputs
  {
    match e
    case HandlerStep(i) => HandlerFrame(s, i);
    case RefetchStep(i) => RefetchFrame(c, s, i);
    case RelayStep =>
    case LeafStep =>
    case Interest(k) => InterestFrame(s, k);
    case _ =>
  }

  lemma {:induction false} RenewalRuns(c: Config, s: State, es: seq<Event>, t: State, granted: nat)
    requires c.Valid() && Runs(c, s, es, t) && !s.inputs
    requires Unsubscribed(s) || s.leaf.granted >= granted + RELAY_CREDIT
    requires s.leaf.granted >= granted
    ensures Unsubscribed(t) || t.leaf.granted >= granted + RELAY_CREDIT
    decreases |es|
  {
    if es != [] {
      RenewalStep(c, s, es[0], granted);
      RenewalRuns(c, Next(c, s, es[0]), es[1..], t, granted);
    }
  }

  /** After a subscription error the relay receives nothing before it has subscribed anew: whatever happens next, it is
    * between subscriptions, or the leaf has been granted the credit of a new one. */
  lemma ErrorRenewsSubscription(c: Config, before: seq<Event>, s: State, e: Event, after: seq<Event>, t: State)
    requires c.Valid() && Runs(c, INIT, before, s) && (e.RecvFails? || e.SubscribeFails?) && Enabled(c, s, e)
    requires Runs(c, Next(c, s, e), after, t)
    ensures Unsubscribed(t) || t.leaf.granted >= s.leaf.granted + RELAY_CREDIT
  {
    InvRuns(c, INIT, before, s);
    RenewalRuns(c, Next(c, s, e), after, t, s.leaf.granted);
  }

  // ------------------------------------------------------- a used-up subscription

  /** The step expresses a subscription, which grants the leaf credit. */
  predicate Grants(c: Config, s: State, e: Event)
    requires c.Valid() && Enabled(c, s, e)
  {
    Next(c, s, e).leaf.granted > s.leaf.granted
  }

  /** A Data arrives on the subscription: from the stream, or an echo. */
  predicate Arrives(s: State, e: Event) {
    e.Echo? || (e.RelayStep? && s.relay.Recv? && s.stream != [])
  }

  /** How many Data have arrived since the last subscription, if `n` had before. */
  ghost function ArrivedSince(c: Config, s: State, es: seq<Event>, n: nat): nat
    requires c.Valid()
    decreases |es|
  {
    if es == [] || !Enabled(c, s, es[0]) then n
    else ArrivedSince(c, Next(c, s, es[0]), es[1..],
                      if Grants(c, s, es[0]) then 0 else if Arrives(s, es[0]) then n + 1 else n)
  }

  lemma OwedStep(c: Config, s: State, e: Event, n: nat)
    requires c.Valid() && Enabled(c, s, e) && s.owed == Max(RELAY_CREDIT - n, 0)
    ensures Next(c, s, e).owed
      == Max(RELAY_CREDIT - (if Grants(c, s, e) then 0 else if Arrives(s, e) then n + 1 else n), 0)
  {
    match e
    case HandlerStep(i) => HandlerFrame(s, i);
    case RefetchStep(i) => RefetchFrame(c, s, i);
    case RelayStep =>
    case LeafStep => LeafFrame(c, s);
    case Interest(k) => InterestFrame(s, k);
    case _ => OwedOutside(c, s, e);
  }

  lemma OwedOutside(c: Config, s: State, e: Event)
    requires c.Valid() && Outside(e) && Enabled(c, s, e)
    ensures OutsideNext(c, s, e).owed == if e.Echo? then Max(s.owed - 1, 0) else s.owed
    ensures OutsideNext(c, s, e).leaf.granted == s.leaf.granted
  {
  }

  lemma {:induction false} OwedRuns(c: Config, s: State, es: seq<Event>, t: State, n: nat)
    requires c.Valid() && Runs(c, s, es, t) && s.owed == Max(RELAY_CREDIT - n, 0)
    ensures t.owed == Max(RELAY_CREDIT - ArrivedSince(c, s, es, n), 0)
    decreases |es|
  {
    if es != [] {
      var more := if Grants(c, s, es[0]) then 0 else if Arrives(s, es[0]) then n + 1 else n;
      OwedStep(c, s, es[0], n);
      OwedRuns(c, Next(c, s, es[0]), es[1..], t, more);
    }
  }

  /** When a subscription is expressed again: over every run, a relay that waits for the stream with nothing on the seam
    * renews its subscription exactly when at least 64 Data, echoes among them, have arrived under it. */
  lemma RenewedExactly(c: Config, es: seq<Event>, t: State)
    requires c.Valid() && Runs(c, INIT, es, t) && t.relay.Recv? && t.stream == []
    ensures Enabled(c, t, RelayStep) && Grants(c, t, RelayStep) <==> ArrivedSince(c, INIT, es, 64) >= 64
  {
    OwedRuns(c, INIT, es, t, 64);
  }

  // ------------------------------------------------------------ a failed re-fetch

  lemma OverStays(c: Config, s: State, e: Event, i: nat)
    requires c.Valid() && Enabled(c, s, e) && i < |s.refetches| && s.refetches[i].pc.Over?
    ensures i < |Next(c, s, e).refetches| && Next(c, s, e).refetches[i].pc.Over?
  {
    match e
    case HandlerStep(_) =>
    case RefetchStep(_) =>
    case RelayStep => RelayFrame(c, s);
    case LeafStep => LeafFrame(c, s);
    case Interest(k) => InterestFrame(s, k);
    case _ =>
  }

  /** A re-fetch that failed has ended: it never answers, caches or publishes anything. */
  lemma {:induction false} FailedRefetchIsOver(c: Config, s: State, es: seq<Event>, t: State, i: nat)
    requires c.Valid() && i < |s.refetches| && Runs(c, s, es, t)
    requires s.refetches[i].pc.Over? || (es != [] && es[0] == RefetchFails(i))
    ensures RefetchStep(i) !in es
    decreases |es|
  {
    if es != [] {
      assert es == [es[0]] + es[1..];
      if es[0] != RefetchFails(i) {
        OverStays(c, s, es[0], i);
      }
      FailedRefetchIsOver(c, Next(c, s, es[0]), es[1..], t, i);
    }
  }
}
