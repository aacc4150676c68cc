/** Signing over the RemoteSigner seam (crates/ndn-boltffi/src/remote_signer_client.rs and the responder in
  * crates/ndn-boltffi/src/identity_core.rs).
  *
  * Any number of calls by any number of keyless clients are in flight over one connection.  An
  * Interest's name carries a digest of its parameters; a reply is recognised by its name alone.
  * The network may lose, duplicate, reorder and cache messages, and may hand any reply to any
  * call.  Keys, the policy and the approval gate are abstract.
  */
module RemoteSigner {
  import opened Basics

  /** A signing identity of the node; `Signature(key, region)` is what its private key produces. */
  type Key = nat

  datatype Signature = Signature(key: Key, region: Bytes)

  datatype Request = Request(reqId: nat, region: Bytes)

  /** A name under the signer's prefix ends in a digest of the request, injective on it; every other name is
    * some other name. */
  datatype SignName = Digest(request: Request) | Elsewhere(name: Name)

  datatype Response =
    | Approved(reqId: nat, signature: Signature)
    | Denied(reqId: nat)
    | Garbled            // content that does not decode

  datatype Data = Data(name: SignName, response: Response)

  datatype Outcome = Waiting | Ok(signature: Signature) | Err

  /** One `sign` call. */
  datatype Call = Call(request: Request, outcome: Outcome)

  /** A request the responder has decided on and is signing; None when it was not approved or no identity
    * was loaded. */
  datatype Task = Task(name: SignName, request: Request, signer: Option<Key>)

  datatype State = State(
    counters: seq<nat>,          // per client, the next request number
    calls: seq<Call>,
    interests: set<Request>,     // sent; each may reach the responder any number of times, or never
    tasks: seq<Task>,
    replies: set<Data>,          // sent or cached; each may reach any call any number of times, or never
    identity: Option<Key>,
    loaded: set<Key>,            // every identity that was ever loaded
    approved: set<Request>)      // what the policy or the gate has approved

  const INIT := State([], [], {}, [], {}, None, {}, {})

  datatype Event =
    | NewClient
    | Sign(client: nat, region: Bytes)          // a call starts: number, name, send
    | Load(key: Key)                            // the node's identity is (re)loaded
    | Unload
    | Serve(request: Request, approves: bool)   // an Interest reaches the responder, which decides
    | Respond(i: nat, signs: bool)              // a spawned task signs, or fails to, and replies
    | Stray(name: Name, response: Response)     // somebody else's Data on the connection
    | Lose(data: Data)
    | Receive(i: nat, data: Data)               // a Data is handed to a waiting call
    | Timeout(i: nat)

  predicate Enabled(s: State, e: Event) {
    match e
    case NewClient => true
    case Sign(client, _) => client < |s.counters|
    case Load(_) => true
    case Unload => true
    case Serve(request, _) => request in s.interests
    case Respond(i, _) => i < |s.tasks|
    case Stray(_, _) => true
    case Lose(data) => data in s.replies
    case Receive(i, data) => i < |s.calls| && s.calls[i].outcome.Waiting? && data in s.replies
    case Timeout(i) => i < |s.calls| && s.calls[i].outcome.Waiting?
  }

  /** What a call makes of the Data it is handed. */
  function Verdict(request: Request, data: Data): Outcome {
    if data.name != Digest(request) then Err
    else match data.response
      case Approved(_, signature) => Ok(signature)
      case Denied(_) => Err
      case Garbled => Err
  }

  function Reply(t: Task, signs: bool): Data {
    Data(t.name,
         if t.signer.Some? && signs then Approved(t.request.reqId, Signature(t.signer.value, t.request.region))
         else Denied(t.request.reqId))
  }

  function Next(s: State, e: Event): State
    requires Enabled(s, e)
  {
    match e
    case NewClient => s.(counters := s.counters + [1])
    case Sign(client, region) =>
      var request := Request(s.counters[client], region);
      s.(counters := s.counters[client := (s.counters[client] + 1) % U64],
         calls := s.calls + [Call(request, Waiting)],
         interests := s.interests + {request})
    case Load(key) => s.(identity := Some(key), loaded := s.loaded + {key})
    case Unload => s.(identity := None)
    case Serve(request, approves) =>
      s.(tasks := s.tasks + [Task(Digest(request), request, if approves then s.identity else None)],
         approved := if approves then s.approved + {request} else s.approved)
    case Respond(i, signs) =>
      s.(tasks := s.tasks[..i] + s.tasks[i + 1..], replies := s.replies + {Reply(s.tasks[i], signs)})
    case Stray(name, response) => s.(replies := s.replies + {Data(Elsewhere(name), response)})
    case Lose(data) => s.(replies := s.replies - {data})
    case Receive(i, data) =>
      s.(calls := s.calls[i := s.calls[i].(outcome := Verdict(s.calls[i].request, data))])
    case Timeout(i) => s.(calls := s.calls[i := s.calls[i].(outcome := Err)])
  }

  ghost predicate Runs(s: State, es: seq<Event>, t: State)
    decreases |es|
  {
    if es == [] then s == t else Enabled(s, es[0]) && Runs(Next(s, es[0]), es[1..], t)
  }

  // ------------------------------------------------------------- correlation

  /** A signing task is named after its own request, and signs with a loaded key only what was approved. */
  ghost predicate GoodTask(s: State, t: Task) {
    t.name == Digest(t.request) && (t.signer.Some? ==> t.request in s.approved && t.signer.value in s.loaded)
  }

  /** A reply under a request's name that carries a signature carries one over that request's region, made
    * with a loaded key after approval. */
  ghost predicate GoodReply(s: State, d: Data) {
    d.name.Digest? && d.response.Approved? ==>
      && d.response.reqId == d.name.request.reqId
      && d.response.signature.region == d.name.request.region
      && d.response.signature.key in s.loaded
      && d.name.request in s.approved
  }

  ghost predicate GoodCall(s: State, c: Call) {
    c.outcome.Ok? ==>
      && c.outcome.signature.region == c.request.region
      && c.outcome.signature.key in s.loaded
      && c.request in s.approved
  }

  ghost predicate Inv(s: State) {
    && (forall i :: 0 <= i < |s.tasks| ==> GoodTask(s, s.tasks[i]))
    && (forall d :: d in s.replies ==> GoodReply(s, d))
    && (forall i :: 0 <= i < |s.calls| ==> GoodCall(s, s.calls[i]))
    && (s.identity.Some? ==> s.identity.value in s.loaded)
    && (forall r :: r in s.approved ==> r in s.interests)
    && (forall r :: r in s.interests ==> exists i :: 0 <= i < |s.calls| && s.calls[i].request == r)
  }

  lemma InvStep(s: State, e: Event)
    requires Inv(s) && Enabled(s, e)
    ensures Inv(Next(s, e))
  {
    var t := Next(s, e);
    forall i | 0 <= i < |t.tasks| ensures GoodTask(t, t.tasks[i]) {
      TaskStep(s, e, i);
    }
    forall d | d in t.replies ensures GoodReply(t, d) {
      if d in s.replies {
        assert GoodReply(s, d);
      } else if e.Respond? {
        assert GoodTask(s, s.tasks[e.i]);
      }
    }
    forall i | 0 <= i < |t.calls| ensures GoodCall(t, t.calls[i]) {
      CallStep(s, e, i);
    }
    forall r | r in t.interests ensures exists i :: 0 <= i < |t.calls| && t.calls[i].request == r {
      if r in s.interests {
        var i :| 0 <= i < |s.calls| && s.calls[i].request == r;
        assert t.calls[i].request == r;
      } else {
        assert t.calls[|s.calls|].request == r;
      }
    }
  }

  lemma TaskStep(s: State, e: Event, i: nat)
    requires Inv(s) && Enabled(s, e) && i < |Next(s, e).tasks|
    ensures GoodTask(Next(s, e), Next(s, e).tasks[i])
  {
    if e.Respond? {
      assert GoodTask(s, s.tasks[if i < e.i then i else i + 1]);
    } else if i < |s.tasks| {
      assert GoodTask(s, s.tasks[i]);
    }
  }

  lemma CallStep(s: State, e: Event, i: nat)
    requires Inv(s) && Enabled(s, e) && i < |Next(s, e).calls|
    ensures GoodCall(Next(s, e), Next(s, e).calls[i])
  {
    if i < |s.calls| {
      assert GoodCall(s, s.calls[i]);
      if e.Receive? && e.i == i {
        assert GoodReply(s, e.data);
      }
    }
  }

  lemma {:induction false} InvRuns(s: State, es: seq<Event>, t: State)
    requires Inv(s) && Runs(s, es, t)
    ensures Inv(t)
    decreases |es|
  {
    if es != [] {
      InvStep(s, es[0]);
      InvRuns(Next(s, es[0]), es[1..], t);
    }
  }

  /** Correlation: over every run, with any number of clients and concurrent calls and any loss,
    * duplication, reordering, caching or misdelivery of messages, a call that returns Ok holds a signature
    * over its own region by an identity of the node, and the responder had approved exactly its request. */
  lemma OkIsOwnApprovedSignature(es: seq<Event>, t: State, i: nat)
    requires Runs(INIT, es, t) && i < |t.calls| && t.calls[i].outcome.Ok?
    ensures t.calls[i].outcome.signature == Signature(t.calls[i].outcome.signature.key, t.calls[i].request.region)
    ensures t.calls[i].outcome.signature.key in t.loaded
    ensures t.calls[i].request in t.approved
  {
    InvRuns(INIT, es, t);
    assert GoodCall(t, t.calls[i]);
  }

  /** The converse of an approval: whatever was approved had been asked for by some call. */
  lemma OnlyAskedIsApproved(es: seq<Event>, t: State, r: Request)
    requires Runs(INIT, es, t) && r in t.approved
    ensures exists i :: 0 <= i < |t.calls| && t.calls[i].request == r
  {
    InvRuns(INIT, es, t);
  }

  /** A finished call keeps its result, and its request never changes. */
  lemma {:induction false} CallsKept(s: State, es: seq<Event>, t: State, i: nat)
    requires Runs(s, es, t) && i < |s.calls|
    ensures i < |t.calls| && t.calls[i].request == s.calls[i].request
    ensures !s.calls[i].outcome.Waiting? ==> t.calls[i] == s.calls[i]
    decreases |es|
  {
    if es != [] {
      CallsKept(Next(s, es[0]), es[1..], t, i);
    }
  }

  /** An unapproved region is never signed: if the responder never approves a request, no call for it
    * returns Ok. */
  lemma {:induction false} NeverApprovedNeverOk(s: State, es: seq<Event>, t: State, r: Request)
    requires Inv(s) && Runs(s, es, t) && r !in s.approved && Serve(r, true) !in es
    ensures r !in t.approved
    ensures forall i :: 0 <= i < |t.calls| && t.calls[i].request == r ==> !t.calls[i].outcome.Ok?
    decreases |es|
  {
    if es == [] {
      forall i | 0 <= i < |t.calls| && t.calls[i].request == r ensures !t.calls[i].outcome.Ok? {
        assert GoodCall(t, t.calls[i]);
      }
    } else {
      assert es == [es[0]] + es[1..];
      InvStep(s, es[0]);
      NeverApprovedNeverOk(Next(s, es[0]), es[1..], t, r);
    }
  }

  // ------------------------------------------------------- answers over a run

  /** The Data has the expected name, and approves with this signature. */
  predicate Approves(data: Data, expected: SignName, signature: Signature) {
    data.name == expected && data.response.Approved? && data.response.signature == signature
  }

  /** How a call ends: by the first Data handed to it, or because its time runs out. */
  datatype End = NotYet | Handed(data: Data) | TimedOut

  function EndOf(es: seq<Event>, i: nat): End {
    if es == [] then NotYet
    else match es[0]
      case Receive(j, data) => if j == i then Handed(data) else EndOf(es[1..], i)
      case Timeout(j) => if j == i then TimedOut else EndOf(es[1..], i)
      case _ => EndOf(es[1..], i)
  }

  /** The call stands as its end says. */
  ghost predicate Ended(c: Call, end: End) {
    && (c.outcome.Waiting? <==> end.NotYet?)
    && (forall signature :: c.outcome == Ok(signature) <==>
          end.Handed? && Approves(end.data, Digest(c.request), signature))
  }

  lemma {:induction false} EndDecides(s: State, es: seq<Event>, t: State, i: nat)
    requires Runs(s, es, t) && i < |s.calls| && s.calls[i].outcome.Waiting?
    ensures i < |t.calls| && Ended(t.calls[i], EndOf(es, i))
    decreases |es|
  {
    if es != [] {
      var next := Next(s, es[0]);
      if next.calls[i].outcome.Waiting? {
        EndDecides(next, es[1..], t, i);
      } else {
        CallsKept(next, es[1..], t, i);
      }
    }
  }

  lemma {:induction false} NotYetCalled(s: State, es: seq<Event>, t: State, i: nat)
    requires Runs(s, es, t) && |s.calls| <= i < |t.calls|
    ensures Ended(t.calls[i], EndOf(es, i))
    decreases |es|
  {
    var next := Next(s, es[0]);
    if i < |next.calls| {
      EndDecides(next, es[1..], t, i);
    } else {
      NotYetCalled(next, es[1..], t, i);
    }
  }

  /** Over every run: a call waits exactly until a Data is handed to it or its time runs out, and it returns Ok with a
    * signature exactly when the first of these was a Data under its own request's name that carries an approval with
    * that signature; anything else is an error. */
  lemma OutcomeExactly(es: seq<Event>, t: State, i: nat)
    requires Runs(INIT, es, t) && i < |t.calls|
    ensures Ended(t.calls[i], EndOf(es, i))
  {
    NotYetCalled(INIT, es, t, i);
  }

  /** Where the task at place `j` is after a run, while it has not responded. */
  function Follow(es: seq<Event>, j: nat): Option<nat> {
    if es == [] then Some(j)
    else match es[0]
      case Respond(i, _) => if i == j then None else Follow(es[1..], if i < j then j - 1 else j)
      case _ => Follow(es[1..], j)
  }

  lemma {:induction false} TasksKept(s: State, es: seq<Event>, t: State, j: nat)
    requires Runs(s, es, t) && j < |s.tasks| && Follow(es, j).Some?
    ensures Follow(es, j).value < |t.tasks| && t.tasks[Follow(es, j).value] == s.tasks[j]
    decreases |es|
  {
    if es != [] {
      var at := match es[0] case Respond(i, _) => (if i < j then j - 1 else j) case _ => j;
      assert Next(s, es[0]).tasks[at] == s.tasks[j];
      TasksKept(Next(s, es[0]), es[1..], t, at);
    }
  }

  lemma {:induction false} ReplyKept(s: State, es: seq<Event>, t: State, d: Data)
    requires Runs(s, es, t) && d in s.replies && Lose(d) !in es
    ensures d in t.replies
    decreases |es|
  {
    if es != [] {
      assert es == [es[0]] + es[1..];
      ReplyKept(Next(s, es[0]), es[1..], t, d);
    }
  }

  /** The reply to a request: a signature over its region by the identity loaded when it was approved, or a denial. */
  function ReplyTo(r: Request, signer: Option<Key>, granted: bool): Data {
    if granted && signer.Some? then Data(Digest(r), Approved(r.reqId, Signature(signer.value, r.region)))
    else Data(Digest(r), Denied(r.reqId))
  }

  predicate Step(s: State, e: Event, t: State) {
    Enabled(s, e) && t == Next(s, e)
  }

  /** A request that is served gets its reply: whatever happens between decision and response, whoever else is served
    * meanwhile and whichever identity is loaded by then, the task replies under the request's name, with a signature
    * by the identity of the decision exactly when that was an approval, an identity was loaded and it could sign. */
  lemma ServedIsReplied(s: State, r: Request, approves: bool, served: State, es: seq<Event>, t: State, j: nat,
                        signs: bool)
    requires Step(s, Serve(r, approves), served) && Runs(served, es, t) && Follow(es, |s.tasks|) == Some(j)
    ensures Enabled(t, Respond(j, signs))
    ensures Next(t, Respond(j, signs)).replies == t.replies + {ReplyTo(r, s.identity, approves && signs)}
  {
    TasksKept(served, es, t, |s.tasks|);
  }

  /** The identity that is loaded after some events, if `identity` was before. */
  function LoadedAfter(identity: Option<Key>, es: seq<Event>): Option<Key>
    decreases |es|
  {
    if es == [] then identity
    else match es[0]
      case Load(key) => LoadedAfter(Some(key), es[1..])
      case Unload => LoadedAfter(None, es[1..])
      case _ => LoadedAfter(identity, es[1..])
  }

  lemma {:induction false} LatestIsLoaded(s: State, es: seq<Event>, t: State)
    requires Runs(s, es, t)
    ensures t.identity == LoadedAfter(s.identity, es)
    decreases |es|
  {
    if es != [] {
      LatestIsLoaded(Next(s, es[0]), es[1..], t);
    }
  }

  /** Signing succeeds: over every run, when a waiting call's request is served, its task responds and the reply is not
    * lost, handing it to the call returns Ok exactly when the responder approved with an identity loaded that could
    * sign, and then with a signature over the call's own region by the identity loaded last before the decision. */
  lemma ServedCallExactly(before: seq<Event>, s: State, i: nat, approves: bool, served: State, es: seq<Event>,
                          t: State, j: nat, signs: bool, replied: State, fs: seq<Event>, u: State)
    requires Runs(INIT, before, s)
    requires i < |s.calls| && Step(s, Serve(s.calls[i].request, approves), served)
    requires Runs(served, es, t) && Follow(es, |s.tasks|) == Some(j) && Step(t, Respond(j, signs), replied)
    requires var signer := LoadedAfter(None, before);
      Runs(replied, fs, u) && Lose(ReplyTo(s.calls[i].request, signer, approves && signs)) !in fs
    requires i < |u.calls| && u.calls[i].outcome.Waiting?
    ensures var signer := LoadedAfter(None, before);
      var reply := ReplyTo(s.calls[i].request, signer, approves && signs);
      && Enabled(u, Receive(i, reply))
      && Next(u, Receive(i, reply)).calls[i].outcome
         == if approves && signs && signer.Some? then Ok(Signature(signer.value, s.calls[i].request.region)) else Err
  {
    LatestIsLoaded(INIT, before, s);
    var r := s.calls[i].request;
    ServedIsReplied(s, r, approves, served, es, t, j, signs);
    ReplyKept(replied, fs, u, ReplyTo(r, s.identity, approves && signs));
    CallsKept(served, es, t, i);
    CallsKept(replied, fs, u, i);
  }

  /** The request of every call has been sent, so that it can be served. */
  lemma {:induction false} CallsAreSent(s: State, es: seq<Event>, t: State)
    requires Runs(s, es, t) && forall i :: 0 <= i < |s.calls| ==> s.calls[i].request in s.interests
    ensures forall i :: 0 <= i < |t.calls| ==> t.calls[i].request in t.interests
    decreases |es|
  {
    if es != [] {
      CallsAreSent(Next(s, es[0]), es[1..], t);
    }
  }

  /** Every waiting call can succeed: whenever an identity is loaded there is a way on that ends in Ok with that
    * identity's signature over the call's region. */
  lemma WaitingCallCanSucceed(before: seq<Event>, s: State, i: nat) returns (es: seq<Event>, t: State)
    requires Runs(INIT, before, s) && i < |s.calls| && s.calls[i].outcome.Waiting?
    requires LoadedAfter(None, before).Some?
    ensures Runs(s, es, t) && i < |t.calls|
    ensures t.calls[i].outcome == Ok(Signature(LoadedAfter(None, before).value, s.calls[i].request.region))
  {
    CallsAreSent(INIT, before, s);
    LatestIsLoaded(INIT, before, s);
    var r := s.calls[i].request;
    var served := Next(s, Serve(r, true));
    var replied := Next(served, Respond(|s.tasks|, true));
    ServedCallExactly(before, s, i, true, served, [], served, |s.tasks|, true, replied, [], replied);
    var end := Receive(i, ReplyTo(r, s.identity, true));
    t := Next(replied, end);
    es := [Serve(r, true), Respond(|s.tasks|, true), end];
    assert Runs(replied, [end], t) by { assert [end][1..] == []; }
    assert Runs(served, [Respond(|s.tasks|, true), end], t) by {
      assert [Respond(|s.tasks|, true), end][1..] == [end];
    }
    assert es[1..] == [Respond(|s.tasks|, true), end];
  }

  // -------------------------------------------------------------- the client

  /** The keyless client's own state and the two halves of `sign`. */
  class RemoteSignerClient {
    var reqSeq: nat

    constructor ()
      ensures reqSeq == 1
    {
      reqSeq := 1;
    }

    /** Number the request and name its Interest. */
    method Begin(region: Bytes) returns (request: Request, expected: SignName)
      requires reqSeq < U64
      modifies this
      ensures request == Request(old(reqSeq), region) && expected == Digest(request)
      ensures reqSeq == (old(reqSeq) + 1) % U64
    {
      request := Request(reqSeq, region);
      expected := Digest(request);
      reqSeq := (reqSeq + 1) % U64;
    }

    /** Check the reply's name and read its verdict; None is a timeout. */
    method Finish(request: Request, expected: SignName, reply: Option<Data>) returns (outcome: Outcome)
      requires expected == Digest(request)
      ensures outcome == match reply case Some(data) => Verdict(request, data) case None => Err
      ensures !outcome.Waiting?
      ensures forall signature :: outcome == Ok(signature) <==>
        reply.Some? && Approves(reply.value, expected, signature)
    {
      if reply.None? {
        return Err;
      }
      if reply.value.name != expected {
        return Err;
      }
      match reply.value.response
      case Approved(_, signature) => outcome := Ok(signature);
      case Denied(_) => outcome := Err;
      case Garbled => outcome := Err;
    }
  }

  // ------------------------------------------------------ numbers over a run

  /** A `sign` call as its caller makes it. */
  datatype Asked = Asked(client: nat, region: Bytes)

  /** The `sign` calls of a run, in order. */
  function Signs(es: seq<Event>): seq<Asked> {
    if es == [] then []
    else (match es[0] case Sign(client, region) => [Asked(client, region)] case _ => []) + Signs(es[1..])
  }

  /** How many of the calls are this client's. */
  function Count(asked: seq<Asked>, client: nat): nat {
    if asked == [] then 0
    else Count(asked[..|asked| - 1], client) + (if asked[|asked| - 1].client == client then 1 else 0)
  }

  /** How many calls its client made before call `i`. */
  function Position(asked: seq<Asked>, i: nat): nat
    requires i < |asked|
  {
    Count(asked[..i], asked[i].client)
  }

  /** The number of a client's call: numbers start at 1 and wrap. */
  function NumberOf(position: nat): nat {
    (1 + position) % U64
  }

  /** The calls made so far are those asked for, numbered by their place among their client's calls, and each
    * counter is at its client's next number. */
  ghost predicate Numbered(asked: seq<Asked>, s: State) {
    && |s.calls| == |asked|
    && (forall i :: 0 <= i < |asked| ==>
          s.calls[i].request == Request(NumberOf(Position(asked, i)), asked[i].region))
    && (forall i :: 0 <= i < |asked| ==> asked[i].client < |s.counters|)
    && (forall client :: 0 <= client < |s.counters| ==> s.counters[client] == NumberOf(Count(asked, client)))
  }

  lemma NumberAfter(position: nat)
    ensures (NumberOf(position) + 1) % U64 == NumberOf(position + 1)
  {
  }

  lemma {:induction false} StrangersCountNothing(asked: seq<Asked>, client: nat)
    requires forall i :: 0 <= i < |asked| ==> asked[i].client != client
    ensures Count(asked, client) == 0
    decreases |asked|
  {
    if asked != [] {
      StrangersCountNothing(asked[..|asked| - 1], client);
    }
  }

  lemma CountSnoc(asked: seq<Asked>, a: Asked, client: nat)
    ensures Count(asked + [a], client) == Count(asked, client) + (if a.client == client then 1 else 0)
  {
    assert (asked + [a])[..|asked|] == asked;
  }

  lemma SignNumbers(asked: seq<Asked>, s: State, client: nat, region: Bytes)
    requires Numbered(asked, s) && client < |s.counters|
    ensures Numbered(asked + [Asked(client, region)], Next(s, Sign(client, region)))
  {
    var t := Next(s, Sign(client, region));
    var longer := asked + [Asked(client, region)];
    forall i | 0 <= i < |longer|
      ensures t.calls[i].request == Request(NumberOf(Position(longer, i)), longer[i].region)
    {
      assert longer[..i] == asked[..i];
      if i == |asked| {
        assert asked[..i] == asked;
      }
    }
    forall other | 0 <= other < |t.counters| ensures t.counters[other] == NumberOf(Count(longer, other)) {
      CountSnoc(asked, Asked(client, region), other);
      NumberAfter(Count(asked, client));
    }
  }

  lemma NewClientNumbers(asked: seq<Asked>, s: State)
    requires Numbered(asked, s)
    ensures Numbered(asked, Next(s, NewClient))
  {
    StrangersCountNothing(asked, |s.counters|);
  }

  lemma {:induction false} NumberedRuns(asked: seq<Asked>, s: State, es: seq<Event>, t: State)
    requires Numbered(asked, s) && Runs(s, es, t)
    ensures Numbered(asked + Signs(es), t)
    decreases |es|
  {
    if es == [] {
      assert asked + [] == asked;
    } else {
      match es[0]
      case Sign(client, region) =>
        SignNumbers(asked, s, client, region);
        NumberedRuns(asked + [Asked(client, region)], Next(s, es[0]), es[1..], t);
        ConcatAssociative(asked, [Asked(client, region)], Signs(es[1..]));
      case NewClient =>
        NewClientNumbers(asked, s);
        NumberedRuns(asked, Next(s, es[0]), es[1..], t);
        assert Signs(es) == [] + Signs(es[1..]) == Signs(es[1..]);
      case _ =>
        NumberedRuns(asked, Next(s, es[0]), es[1..], t);
        assert Signs(es) == [] + Signs(es[1..]) == Signs(es[1..]);
    }
  }

  /** Over every run: the calls are the `sign` calls made, in order, each with its own region and with the number
    * that its place among its client's calls gives it, whatever else happens and whoever else signs. */
  lemma CallsAreNumbered(es: seq<Event>, t: State, i: nat)
    requires Runs(INIT, es, t) && i < |Signs(es)|
    ensures |t.calls| == |Signs(es)|
    ensures t.calls[i].request == Request(NumberOf(Position(Signs(es), i)), Signs(es)[i].region)
  {
    NumberedRuns([], INIT, es, t);
    assert [] + Signs(es) == Signs(es);
  }

  /** Over every run, two calls of one client share an Interest name exactly when they sign the same region and
    * lie a multiple of 2^64 of its calls apart; so among 2^64 calls every call has a name of its own. */
  lemma NamesCollideExactly(es: seq<Event>, t: State, i: nat, j: nat)
    requires Runs(INIT, es, t) && i < |Signs(es)| && j < |Signs(es)| && Signs(es)[i].client == Signs(es)[j].client
    ensures |t.calls| == |Signs(es)|
    ensures Digest(t.calls[i].request) == Digest(t.calls[j].request)
      <==> Signs(es)[i].region == Signs(es)[j].region && (Position(Signs(es), i) - Position(Signs(es), j)) % U64 == 0
  {
    CallsAreNumbered(es, t, i);
    CallsAreNumbered(es, t, j);
    ModuloDifference(1 + Position(Signs(es), i), 1 + Position(Signs(es), j));
  }

  lemma ModuloDifference(m: nat, n: nat)
    ensures m % U64 == n % U64 <==> (m - n) % U64 == 0
  {
  }

  // ---------------------------------------------------------------- key name

  /** The component that marks a key name: the octets of "KEY". */
  const KEY: Bytes := [0x4B, 0x45, 0x59]

  ghost predicate FirstKeyAt(name: Name, i: nat) {
    i < |name| && name[i] == KEY && forall j :: 0 <= j < i ==> name[j] != KEY
  }

  /** `key_name_from_cert`: cut after the component that follows the first marker. */
  method KeyNameFromCert(certName: Name) returns (keyName: Name)
    ensures KEY !in certName ==> keyName == certName
    ensures forall i: nat :: FirstKeyAt(certName, i) ==> keyName == certName[..Min(i + 2, |certName|)]
  {
    for i := 0 to |certName|
      invariant forall j :: 0 <= j < i ==> certName[j] != KEY
    {
      if certName[i] == KEY {
        return certName[..Min(i + 2, |certName|)];
      }
    }
    return certName;
  }

  /** A certificate name `<identity>/KEY/<key-id>/<issuer>/<version>` yields its key name exactly when the
    * identity itself has no component that reads KEY. */
  lemma KeyNameExactly(identity: Name, keyId: Bytes, issuer: Bytes, version: Bytes, keyName: Name)
    requires var cert := identity + [KEY, keyId, issuer, version];
      forall i: nat :: FirstKeyAt(cert, i) ==> keyName == cert[..Min(i + 2, |cert|)]
    ensures keyName == identity + [KEY, keyId] <==> KEY !in identity
  {
    var cert := identity + [KEY, keyId, issuer, version];
    if KEY in identity {
      var i := FirstKey(identity);
      assert FirstKeyAt(cert, i);
      assert |keyName| < |identity + [KEY, keyId]|;
    } else {
      assert forall j :: 0 <= j < |identity| ==> cert[j] == identity[j];
      assert FirstKeyAt(cert, |identity|);
      assert cert[..|identity| + 2] == identity + [KEY, keyId];
    }
  }

  lemma {:induction false} FirstKey(name: Name) returns (i: nat)
    requires KEY in name
    ensures FirstKeyAt(name, i)
    decreases |name|
  {
    if name[0] == KEY {
      i := 0;
    } else {
      assert name == [name[0]] + name[1..];
      i := FirstKey(name[1..]);
      i := i + 1;
      assert forall j :: 0 < j < i ==> name[j] == name[1..][j - 1];
    }
  }
}
