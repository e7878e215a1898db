/** The dispatch engine of processor.py: the shared stop flag, the processor
    queues, sessions and their subscriptions, the request dispatcher with its
    correlation table and session registry, and the response dispatcher that
    answers replies and fans notifications out to subscribers.

    Threads, queues' blocking and locks are not modelled: each method is one
    atomic step of the thread that owns it. */
module Dispatch {
  import opened Messages
  import opened Text

  const NumblocksTopic: string := "blockchain.numblocks.subscribe"
  const HeadersTopic: string := "blockchain.headers.subscribe"
  const AddressTopic: string := "blockchain.address.subscribe"
  const AddressUnsubscribe: string := "blockchain.address.unsubscribe"
  const VersionMethod: string := "server.version"

  /** A subscription descriptor: the tuple `(method,)` or `(method, param)`. */
  datatype SubDesc = Topic(topic: string) | TopicParam(topic: string, param: Json)

  /** `Session.build_subdesc`: the descriptor a subscribe request (or a
      notification) with these parameters stands for, if any. */
  function BuildSubdesc(methodName: string, params: seq<Json>): (d: Option<SubDesc>)
    ensures d.Some? <==>
      methodName == NumblocksTopic || methodName == HeadersTopic
      || (methodName == AddressTopic && |params| > 0)
    ensures d.Some? ==> d.value.topic == methodName
    ensures d.Some? ==> (d.value.TopicParam? <==> methodName == AddressTopic)
    ensures d.Some? && d.value.TopicParam? ==> d.value.param == params[0]
  {
    if methodName == NumblocksTopic then Some(Topic(methodName))
    else if methodName == HeadersTopic then Some(Topic(methodName))
    else if methodName == AddressTopic then
      if |params| == 0 then None else Some(TopicParam(methodName, params[0]))
    else None
  }

  /** The descriptor of a notification. A notification without a method has
      none; missing params behave as `[]`, since `not params` holds for both. */
  function NotificationDesc(methodName: Option<string>, params: Option<seq<Json>>): Option<SubDesc>
  {
    if methodName.None? then None
    else BuildSubdesc(methodName.value, if params.Some? then params.value else [])
  }

  /** The request the response dispatcher sends back when nobody listens to an
      address any more: the admin password goes first in its params. */
  function UnsubscribeRequest(password: string, params: seq<Json>): (r: Request)
    ensures r.id == Some(JNull)
    ensures |r.methodName| >= |".unsubscribe"| && r.methodName[|r.methodName| - |".unsubscribe"|..] == ".unsubscribe"
    ensures AddressTopic == r.methodName[..|r.methodName| - |".unsubscribe"|] + ".subscribe"
    ensures r.params.Some? && |r.params.value| == |params| + 1
    ensures r.params.Some? ==> r.params.value[0] == JStr(password) && r.params.value[1..] == params
  {
    Request(Some(JNull), AddressUnsubscribe, Some([JStr(password)] + params))
  }

  /** `n` copies of one response. */
  function Repeat(r: Response, n: nat): (rs: seq<Response>)
    ensures |rs| == n
    ensures forall i :: 0 <= i < n ==> rs[i] == r
  {
    seq(n, _ => r)
  }

  lemma RepeatSnoc(r: Response, n: nat)
    ensures Repeat(r, n + 1) == Repeat(r, n) + [r]
  {
  }

  /** The process-wide stop flag and the configuration value it carries. */
  class Shared {
    var stopped: bool
    /** The `server.password` configuration value. */
    const password: string

    constructor(password: string)
      ensures !stopped && this.password == password
    {
      stopped := false;
      this.password := password;
    }

    method Stop()
      modifies this`stopped
      ensures stopped
    {
      stopped := true;
    }

    method Stopped() returns (b: bool)
      ensures b == stopped
    {
      b := stopped;
    }
  }

  /** The inbound FIFO of a processor thread. */
  class Processor {
    var queue: seq<Request>

    constructor()
      ensures queue == []
    {
      queue := [];
    }

    method AddRequest(r: Request)
      modifies this`queue
      ensures queue == old(queue) + [r]
    {
      queue := queue + [r];
    }
  }

  /** The transport end of a session: what `send_response` has handed to the
      wire, in order. */
  class Connection {
    var outbox: seq<Response>

    constructor()
      ensures outbox == []
    {
      outbox := [];
    }
  }

  class Session {
    var stopped: bool
    var subscriptions: seq<SubDesc>
    var address: string
    var name: string
    /** The client software version, `'unknown'` until `server.version` sets it. */
    var version: Json
    const conn: Connection

    constructor(conn: Connection)
      ensures !stopped && subscriptions == [] && address == "" && name == ""
      ensures version == JStr("unknown") && this.conn == conn
    {
      stopped := false;
      subscriptions := [];
      address := "";
      name := "";
      version := JStr("unknown");
      this.conn := conn;
    }

    method Stopped() returns (b: bool)
      ensures b == stopped
    {
      b := stopped;
    }

    /** `subdesc in self.subscriptions`; a missing descriptor is never contained. */
    predicate ContainsSubscription(d: Option<SubDesc>): (b: bool)
      reads this
      ensures b <==> exists i :: 0 <= i < |subscriptions| && d == Some(subscriptions[i])
    {
      d.Some? && d.value in subscriptions
    }

    /** Appends the descriptor, if there is one, even when it is already there. */
    method SubscribeToService(methodName: string, params: seq<Json>)
      modifies this`subscriptions
      ensures subscriptions == old(subscriptions) + AsSeq(BuildSubdesc(methodName, params))
      ensures BuildSubdesc(methodName, params).Some? ==> ContainsSubscription(BuildSubdesc(methodName, params))
    {
      var d := BuildSubdesc(methodName, params);
      if d.Some? {
        subscriptions := subscriptions + [d.value];
      }
    }

    method SendResponse(r: Response)
      modifies conn
      ensures conn.outbox == old(conn.outbox) + [r]
    {
      conn.outbox := conn.outbox + [r];
    }
  }

  /** A correlation entry: the session that sent a request and the id it used. */
  datatype Entry = Entry(session: Session?, msgid: Json)

  /** The connections of a list of sessions. */
  function Outlets(ss: seq<Session>): set<Connection>
  {
    set s | s in ss :: s.conn
  }

  /** No two entries of the registry deliver to the same connection. */
  ghost predicate DistinctOutlets(ss: seq<Session>)
  {
    forall i, j :: 0 <= i < j < |ss| ==> ss[i].conn != ss[j].conn
  }

  /** The registry with its stopped sessions dropped, order kept. */
  ghost function LiveOnly(ss: seq<Session>): seq<Session>
    reads set s | s in ss
    decreases |ss|
  {
    if ss == [] then []
    else
      var last := ss[|ss| - 1];
      LiveOnly(ss[..|ss| - 1]) + (if last.stopped then [] else [last])
  }

  /** Filtering keeps exactly the live occurrences of every session. */
  lemma {:induction false} LiveOnlyCount(ss: seq<Session>, s: Session)
    ensures multiset(LiveOnly(ss))[s] == if s.stopped then 0 else multiset(ss)[s]
    decreases |ss|
  {
    if ss != [] {
      var init := ss[..|ss| - 1];
      LiveOnlyCount(init, s);
      assert ss == init + [ss[|ss| - 1]];
    }
  }

  /** Filtering distributes over concatenation, so relative order is kept. */
  lemma {:induction false} LiveOnlyAppend(a: seq<Session>, b: seq<Session>)
    ensures LiveOnly(a + b) == LiveOnly(a) + LiveOnly(b)
    decreases |b|
  {
    if b == [] {
      assert a + b == a;
    } else {
      var init := b[..|b| - 1];
      LiveOnlyAppend(a, init);
      assert (a + b)[..|a + b| - 1] == a + init;
    }
  }

  /** A session is kept exactly when it was registered and is not stopped. */
  lemma LiveOnlyMembers(ss: seq<Session>, s: Session)
    ensures s in LiveOnly(ss) <==> s in ss && !s.stopped
  {
    LiveOnlyCount(ss, s);
  }

  /** A second sweep right after a first removes nothing. */
  lemma {:induction false} LiveOnlyIdempotent(ss: seq<Session>)
    ensures LiveOnly(LiveOnly(ss)) == LiveOnly(ss)
    decreases |ss|
  {
    if ss != [] {
      var init := ss[..|ss| - 1];
      var last := ss[|ss| - 1];
      LiveOnlyIdempotent(init);
      LiveOnlyAppend(LiveOnly(init), if last.stopped then [] else [last]);
      if !last.stopped {
        assert LiveOnly([last]) == LiveOnly([]) + [last];
      }
    }
  }

  /** A sweep never makes two registry entries share a connection. */
  lemma {:induction false} LiveOnlyDistinct(ss: seq<Session>)
    requires DistinctOutlets(ss)
    ensures DistinctOutlets(LiveOnly(ss))
    decreases |ss|
  {
    if ss != [] {
      var init := ss[..|ss| - 1];
      var last := ss[|ss| - 1];
      assert DistinctOutlets(init);
      LiveOnlyDistinct(init);
      if !last.stopped {
        var l := LiveOnly(init);
        forall i | 0 <= i < |l|
          ensures l[i].conn != last.conn
        {
          LiveOnlyMembers(init, l[i]);
          var j :| 0 <= j < |init| && init[j] == l[i];
        }
      }
    }
  }

  /** Which registry entries a notification with descriptor `d` goes to. */
  ghost function Matching(ss: seq<Session>, d: Option<SubDesc>): (flags: seq<bool>)
    reads set s | s in ss
    ensures |flags| == |ss|
    ensures forall j :: 0 <= j < |ss| ==> flags[j] == (!ss[j].stopped && ss[j].ContainsSubscription(d))
  {
    seq(|ss|, j requires 0 <= j < |ss| reads set s | s in ss => !ss[j].stopped && ss[j].ContainsSubscription(d))
  }

  /** How many copies connection `c` receives when the entries flagged in
      `flags` are delivered to. */
  function Deliveries(ss: seq<Session>, flags: seq<bool>, c: Connection): nat
    requires |flags| == |ss|
    decreases |ss|
  {
    if ss == [] then 0
    else
      Deliveries(ss[..|ss| - 1], flags[..|ss| - 1], c)
      + (if flags[|ss| - 1] && ss[|ss| - 1].conn == c then 1 else 0)
  }

  /** Extending the delivered prefix by one entry. */
  lemma DeliveriesStep(ss: seq<Session>, flags: seq<bool>, i: nat, c: Connection)
    requires |flags| == |ss| && i < |ss|
    ensures Deliveries(ss[..i + 1], flags[..i + 1], c)
         == Deliveries(ss[..i], flags[..i], c) + (if flags[i] && ss[i].conn == c then 1 else 0)
  {
    assert ss[..i + 1][..i] == ss[..i] && flags[..i + 1][..i] == flags[..i];
  }

  /** A connection receives something exactly when one of its entries is flagged. */
  lemma {:induction false} DeliveredIffFlagged(ss: seq<Session>, flags: seq<bool>, c: Connection)
    requires |flags| == |ss|
    ensures Deliveries(ss, flags, c) > 0 <==> exists j :: 0 <= j < |ss| && flags[j] && ss[j].conn == c
    decreases |ss|
  {
    if ss != [] {
      var n := |ss| - 1;
      DeliveredIffFlagged(ss[..n], flags[..n], c);
      if exists j :: 0 <= j < n + 1 && flags[j] && ss[j].conn == c {
        var j :| 0 <= j < n + 1 && flags[j] && ss[j].conn == c;
        if j < n {
          assert flags[..n][j] && ss[..n][j].conn == c;
        }
      }
      if exists j :: 0 <= j < n && flags[..n][j] && ss[..n][j].conn == c {
        var j :| 0 <= j < n && flags[..n][j] && ss[..n][j].conn == c;
        assert flags[j] && ss[j].conn == c;
      }
    }
  }

  /** With one registry entry per connection, each connection receives the
      notification once if its entry is flagged and not at all otherwise. */
  lemma {:induction false} DeliveredOnce(ss: seq<Session>, flags: seq<bool>, j: nat)
    requires |flags| == |ss| && j < |ss|
    requires DistinctOutlets(ss)
    ensures Deliveries(ss, flags, ss[j].conn) == if flags[j] then 1 else 0
    decreases |ss|
  {
    var n := |ss| - 1;
    var c := ss[j].conn;
    assert DistinctOutlets(ss[..n]);
    if j < n {
      DeliveredOnce(ss[..n], flags[..n], j);
    } else {
      forall k | 0 <= k < n
        ensures !(flags[..n][k] && ss[..n][k].conn == c)
      {
        assert ss[..n][k] == ss[k];
      }
      DeliveredIffFlagged(ss[..n], flags[..n], c);
    }
  }

  class RequestDispatcher {
    const shared: Shared
    /** `(session, request)` pairs waiting for `do_dispatch`. */
    var requestQueue: seq<(Session?, Request)>
    /** Responses pushed by the processors, waiting for the response dispatcher. */
    var responseQueue: seq<Response>
    /** The correlation table `internal_ids`. */
    var internalIds: map<int, Entry>
    /** The next internal id. */
    var internalId: int
    var sessions: seq<Session>
    var processors: map<string, Processor>

    /** Every stored internal id was handed out before the current counter value. */
    ghost predicate Valid()
      reads this
    {
      1 <= internalId && forall k :: k in internalIds ==> 1 <= k < internalId
    }

    /** Every connection the dispatcher can deliver to: those of the registry and
        those of the sessions waiting for a reply. */
    ghost function Reachable(): set<Connection>
      reads this
    {
      Outlets(sessions)
      + set k | k in internalIds && internalIds[k].session != null :: internalIds[k].session.conn
    }

    constructor(shared: Shared)
      ensures Valid() && this.shared == shared
      ensures requestQueue == [] && responseQueue == []
      ensures internalIds == map[] && internalId == 1
      ensures sessions == [] && processors == map[]
    {
      this.shared := shared;
      requestQueue := [];
      responseQueue := [];
      internalIds := map[];
      internalId := 1;
      sessions := [];
      processors := map[];
    }

    /** `Dispatcher.register`: the processor serves every method whose first
        dot-component is `prefix`. */
    method Register(prefix: string, p: Processor)
      modifies this`processors
      ensures processors == old(processors)[prefix := p]
    {
      processors := processors[prefix := p];
    }

    method PushResponse(r: Response)
      modifies this`responseQueue
      ensures responseQueue == old(responseQueue) + [r]
    {
      responseQueue := responseQueue + [r];
    }

    method PushRequest(session: Session?, r: Request)
      modifies this`requestQueue
      ensures requestQueue == old(requestQueue) + [(session, r)]
    {
      requestQueue := requestQueue + [(session, r)];
    }

    /** The first registered session with this address, or null. */
    method GetSessionByAddress(address: string) returns (s: Session?)
      ensures s == null ==> forall i :: 0 <= i < |sessions| ==> sessions[i].address != address
      ensures s != null ==>
        exists i :: 0 <= i < |sessions| && sessions[i] == s && s.address == address
          && forall j :: 0 <= j < i ==> sessions[j].address != address
    {
      for i := 0 to |sessions|
        invariant forall j :: 0 <= j < i ==> sessions[j].address != address
      {
        if sessions[i].address == address {
          return sessions[i];
        }
      }
      return null;
    }

    /** Pops the entry stored under `internalId`; a key that is not in the
        table raises KeyError, reported here as None. */
    method GetSessionId(internalId: Json) returns (entry: Option<Entry>)
      requires Valid()
      modifies this`internalIds
      ensures Valid()
      ensures internalId.JInt? && internalId.i in old(internalIds) ==>
        entry == Some(old(internalIds)[internalId.i])
        && internalIds == old(internalIds) - {internalId.i}
      ensures !(internalId.JInt? && internalId.i in old(internalIds)) ==>
        entry == None && internalIds == old(internalIds)
    {
      if internalId.JInt? && internalId.i in internalIds {
        entry := Some(internalIds[internalId.i]);
        internalIds := internalIds - {internalId.i};
      } else {
        entry := None;
      }
    }

    /** Stores `(session, msgid)` under a fresh internal id and returns it. */
    method StoreSessionId(session: Session?, msgid: Json) returns (r: int)
      requires Valid()
      modifies this`internalIds, this`internalId
      ensures Valid()
      ensures r == old(internalId) && r !in old(internalIds)
      ensures internalId == r + 1
      ensures internalIds == old(internalIds)[r := Entry(session, msgid)]
    {
      internalIds := internalIds[internalId := Entry(session, msgid)];
      r := internalId;
      internalId := internalId + 1;
    }

    /** Storing an entry and then popping the id it was stored under gives the
        entry back and leaves the table as it was. */
    method CorrelationRoundTrip(session: Session?, msgid: Json) returns (entry: Option<Entry>)
      requires Valid()
      modifies this`internalIds, this`internalId
      ensures Valid()
      ensures entry == Some(Entry(session, msgid))
      ensures internalIds == old(internalIds) && internalId == old(internalId) + 1
    {
      var id := StoreSessionId(session, msgid);
      entry := GetSessionId(JInt(id));
    }

    /** Routes one request: records a subscription, replaces the id by an
        internal one, hands the request to the processor of its prefix and
        records the client version of `server.version`. */
    method DoDispatch(session: Session?, request: Request) returns (outcome: Outcome)
      requires Valid()
      modifies this`internalIds, this`internalId, session, processors.Values
      ensures Valid()
      ensures session != null ==>
        session.stopped == old(session.stopped) && session.address == old(session.address)
        && session.name == old(session.name)
      ensures session != null ==>
        session.subscriptions == old(session.subscriptions)
          + (if Last(request.methodName, '.') == "subscribe"
             then AsSeq(BuildSubdesc(request.methodName, ParamsOrEmpty(request)))
             else [])
      ensures request.id.None? ==>
        outcome == Raised("KeyError")
        && internalIds == old(internalIds) && internalId == old(internalId)
        && (forall p :: p in processors.Values ==> p.queue == old(p.queue))
        && (session != null ==> session.version == old(session.version))
      ensures request.id.Some? ==>
        old(internalId) !in old(internalIds)
        && internalIds == old(internalIds)[old(internalId) := Entry(session, request.id.value)]
        && internalId == old(internalId) + 1
      ensures request.id.Some? && First(request.methodName, '.') !in processors ==>
        outcome == Completed
        && (forall p :: p in processors.Values ==> p.queue == old(p.queue))
        && (session != null ==> session.version == old(session.version))
      ensures request.id.Some? && First(request.methodName, '.') in processors ==>
        var target := processors[First(request.methodName, '.')];
        target.queue == old(target.queue) + [request.(id := Some(JInt(old(internalId))))]
        && (forall p :: p in processors.Values && p != target ==> p.queue == old(p.queue))
      ensures request.id.Some? && First(request.methodName, '.') in processors
              && request.methodName == VersionMethod ==>
        (ParamsOrEmpty(request) == [] ==>
              outcome == Raised("IndexError") && (session != null ==> session.version == old(session.version)))
        && (session == null && ParamsOrEmpty(request) != [] ==> outcome == Raised("AttributeError"))
        && (session != null && ParamsOrEmpty(request) != [] ==>
              outcome == Completed && session.version == ParamsOrEmpty(request)[0])
      ensures request.id.Some? && First(request.methodName, '.') in processors
              && request.methodName != VersionMethod ==>
        outcome == Completed && (session != null ==> session.version == old(session.version))
    {
      var methodName := request.methodName;
      var params := ParamsOrEmpty(request);
      var suffix := Last(methodName, '.');
      if session != null {
        // processor.py compares protocol_version with 0.5 here and never uses the result
        if suffix == "subscribe" {
          session.SubscribeToService(methodName, params);
        }
      }
      if request.id.None? {
        return Raised("KeyError");
      }
      var id := StoreSessionId(session, request.id.value);
      outcome := Route(session, request.(id := Some(JInt(id))));
    }

    /** The second half of `do_dispatch`, once the id is replaced: hands the
        request to the processor of its prefix, then records the client version
        of `server.version`. */
    method Route(session: Session?, routed: Request) returns (outcome: Outcome)
      modifies session, processors.Values
      ensures session != null ==>
        session.stopped == old(session.stopped) && session.address == old(session.address)
        && session.name == old(session.name) && session.subscriptions == old(session.subscriptions)
      ensures First(routed.methodName, '.') !in processors ==>
        outcome == Completed
        && (forall p :: p in processors.Values ==> p.queue == old(p.queue))
        && (session != null ==> session.version == old(session.version))
      ensures First(routed.methodName, '.') in processors ==>
        var target := processors[First(routed.methodName, '.')];
        target.queue == old(target.queue) + [routed]
        && (forall p :: p in processors.Values && p != target ==> p.queue == old(p.queue))
      ensures First(routed.methodName, '.') in processors && routed.methodName == VersionMethod ==>
        (ParamsOrEmpty(routed) == [] ==>
              outcome == Raised("IndexError") && (session != null ==> session.version == old(session.version)))
        && (session == null && ParamsOrEmpty(routed) != [] ==> outcome == Raised("AttributeError"))
        && (session != null && ParamsOrEmpty(routed) != [] ==>
              outcome == Completed && session.version == ParamsOrEmpty(routed)[0])
      ensures First(routed.methodName, '.') in processors && routed.methodName != VersionMethod ==>
        outcome == Completed && (session != null ==> session.version == old(session.version))
    {
      var queued := Enqueue(routed);
      if !queued {
        // logged: no processor for the prefix; the request is dropped
        return Completed;
      }
      outcome := RecordVersion(session, routed);
    }

    /** Hands the request to the processor of its prefix, when there is one. */
    method Enqueue(routed: Request) returns (queued: bool)
      modifies processors.Values
      ensures queued <==> First(routed.methodName, '.') in processors
      ensures !queued ==> forall p :: p in processors.Values ==> p.queue == old(p.queue)
      ensures queued ==>
        var target := processors[First(routed.methodName, '.')];
        target.queue == old(target.queue) + [routed]
        && (forall p :: p in processors.Values && p != target ==> p.queue == old(p.queue))
    {
      var prefix := First(routed.methodName, '.');
      if prefix !in processors {
        return false;
      }
      var p := processors[prefix];
      p.AddRequest(routed);
      queued := true;
    }

    /** Records the client version a `server.version` request announces. */
    method RecordVersion(session: Session?, routed: Request) returns (outcome: Outcome)
      modifies session
      ensures session != null ==>
        session.stopped == old(session.stopped) && session.address == old(session.address)
        && session.name == old(session.name) && session.subscriptions == old(session.subscriptions)
      ensures routed.methodName == VersionMethod ==>
        (ParamsOrEmpty(routed) == [] ==>
              outcome == Raised("IndexError") && (session != null ==> session.version == old(session.version)))
        && (session == null && ParamsOrEmpty(routed) != [] ==> outcome == Raised("AttributeError"))
        && (session != null && ParamsOrEmpty(routed) != [] ==>
              outcome == Completed && session.version == ParamsOrEmpty(routed)[0])
      ensures routed.methodName != VersionMethod ==>
        outcome == Completed && (session != null ==> session.version == old(session.version))
    {
      var params := ParamsOrEmpty(routed);
      if routed.methodName == VersionMethod {
        // `session.version = params[0]` evaluates `params[0]` before `session`
        if |params| == 0 {
          return Raised("IndexError");
        }
        if session == null {
          return Raised("AttributeError");
        }
        session.version := params[0];
        // protocol_version := float(params[1]), ignoring a failure, is not modelled
      }
      outcome := Completed;
    }

    /** A copy of the registry. */
    method GetSessions() returns (r: seq<Session>)
      ensures r == sessions
    {
      r := sessions;
    }

    method AddSession(s: Session)
      modifies this`sessions
      ensures sessions == old(sessions) + [s]
    {
      sessions := sessions + [s];
    }

    /** Empties the registry, then adds back every session that is not stopped. */
    method CollectGarbage()
      modifies this`sessions
      ensures sessions == LiveOnly(old(sessions))
    {
      var snapshot := sessions;
      sessions := [];
      for i := 0 to |snapshot|
        invariant sessions == LiveOnly(snapshot[..i])
      {
        var s := snapshot[i];
        assert snapshot[..i + 1][..i] == snapshot[..i];
        var st := s.Stopped();
        if !st {
          AddSession(s);
        }
      }
      assert snapshot[..|snapshot|] == snapshot;
    }
  }

  class ResponseDispatcher {
    const shared: Shared
    const requests: RequestDispatcher

    constructor(shared: Shared, requests: RequestDispatcher)
      ensures this.shared == shared && this.requests == requests
    {
      this.shared := shared;
      this.requests := requests;
    }

    /** Delivers the notification, unchanged, to every registry entry that is
        not stopped and holds its descriptor; reports whether any did. */
    method Notification(methodName: Option<string>, params: Option<seq<Json>>, response: Response)
      returns (found: bool)
      modifies Outlets(requests.sessions)
      ensures found == (true in Matching(requests.sessions, NotificationDesc(methodName, params)))
      ensures forall c :: c in Outlets(requests.sessions) ==>
        c.outbox == old(c.outbox)
          + Repeat(response, Deliveries(requests.sessions, Matching(requests.sessions, NotificationDesc(methodName, params)), c))
    {
      var d := NotificationDesc(methodName, params);
      var ss := requests.sessions;
      ghost var flags := Matching(ss, d);
      found := false;
      for i := 0 to |ss|
        invariant found == (true in flags[..i])
        invariant forall c :: c in Outlets(ss) ==>
          c.outbox == old(c.outbox) + Repeat(response, Deliveries(ss[..i], flags[..i], c))
      {
        var s := ss[i];
        ghost var before := Deliveries(ss[..i], flags[..i], s.conn);
        var sent := Deliver(s, d, response);
        forall c | c in Outlets(ss)
          ensures c.outbox == old(c.outbox) + Repeat(response, Deliveries(ss[..i + 1], flags[..i + 1], c))
        {
          DeliveriesStep(ss, flags, i, c);
          if c == s.conn && sent {
            RepeatSnoc(response, before);
          }
        }
        if sent {
          found := true;
        }
        assert flags[..i + 1] == flags[..i] + [flags[i]];
      }
      assert ss[..|ss|] == ss && flags[..|ss|] == flags;
    }

    /** The body of the fan-out loop for one registry entry: a stopped session
        is skipped, a subscribed one receives the response. */
    method Deliver(s: Session, d: Option<SubDesc>, response: Response) returns (sent: bool)
      modifies s.conn
      ensures sent == (!s.stopped && s.ContainsSubscription(d))
      ensures s.conn.outbox == old(s.conn.outbox) + (if sent then [response] else [])
    {
      var st := s.Stopped();
      if st {
        return false;
      }
      sent := s.ContainsSubscription(d);
      if sent {
        s.SendResponse(response);
      }
    }

    /** Answers a reply: pops its correlation entry (a missing one raises
        KeyError) and, when the entry has a session, delivers the response to it
        under the id the client used. */
    method SendResponse(internalId: Json, response: Response) returns (outcome: Outcome)
      requires requests.Valid()
      modifies requests`internalIds, requests.Reachable()
      ensures requests.Valid()
      ensures internalId.JInt? && internalId.i in old(requests.internalIds) ==>
        var e := old(requests.internalIds)[internalId.i];
        outcome == Completed
        && requests.internalIds == old(requests.internalIds) - {internalId.i}
        && (e.session != null ==> e.session.conn.outbox == old(e.session.conn.outbox) + [response.(id := e.msgid)])
        && (forall c :: c in old(requests.Reachable()) && (e.session == null || c != e.session.conn) ==>
              c.outbox == old(c.outbox))
      ensures !(internalId.JInt? && internalId.i in old(requests.internalIds)) ==>
        outcome == Raised("KeyError")
        && requests.internalIds == old(requests.internalIds)
        && (forall c :: c in old(requests.Reachable()) ==> c.outbox == old(c.outbox))
    {
      var entry := requests.GetSessionId(internalId);
      if entry.None? {
        return Raised("KeyError");
      }
      var session := entry.value.session;
      if session != null {
        session.SendResponse(response.(id := entry.value.msgid));
      }
      outcome := Completed;
    }

    /** One step of the response dispatcher: pops the oldest response, fans a
        notification out (asking for an unsubscribe when nobody listens to an
        address) or answers a reply. With nothing queued the thread waits, and
        the step changes nothing. */
    method Update() returns (outcome: Outcome)
      requires requests.Valid()
      modifies requests`responseQueue, requests`requestQueue, requests`internalIds, requests.Reachable()
      ensures requests.Valid()
      ensures old(requests.responseQueue) == [] ==>
        outcome == Completed && requests.responseQueue == []
        && requests.requestQueue == old(requests.requestQueue)
        && requests.internalIds == old(requests.internalIds)
        && (forall c :: c in old(requests.Reachable()) ==> c.outbox == old(c.outbox))
      ensures old(requests.responseQueue) != [] ==>
        requests.responseQueue == old(requests.responseQueue)[1..]
      ensures old(requests.responseQueue) != [] && old(requests.responseQueue)[0].id == JNull ==>
        var r := old(requests.responseQueue)[0];
        var flags := Matching(requests.sessions, NotificationDesc(r.methodName, r.params));
        requests.internalIds == old(requests.internalIds)
        && (forall c :: c in Outlets(requests.sessions) ==>
              c.outbox == old(c.outbox) + Repeat(r, Deliveries(requests.sessions, flags, c)))
        && (forall c :: c in old(requests.Reachable()) && c !in Outlets(requests.sessions) ==>
              c.outbox == old(c.outbox))
        && (!(true in flags) && r.methodName == Some(AddressTopic) && r.params.None? ==>
              outcome == Raised("TypeError") && requests.requestQueue == old(requests.requestQueue))
        && (!(true in flags) && r.methodName == Some(AddressTopic) && r.params.Some? ==>
              outcome == Completed
              && requests.requestQueue == old(requests.requestQueue)
                   + [(null, UnsubscribeRequest(shared.password, r.params.value))])
        && ((true in flags) || r.methodName != Some(AddressTopic) ==>
              outcome == Completed && requests.requestQueue == old(requests.requestQueue))
      ensures old(requests.responseQueue) != [] && old(requests.responseQueue)[0].id != JNull ==>
        var r := old(requests.responseQueue)[0];
        requests.requestQueue == old(requests.requestQueue)
        && (r.id.JInt? && r.id.i in old(requests.internalIds) ==>
              var e := old(requests.internalIds)[r.id.i];
              outcome == Completed
              && requests.internalIds == old(requests.internalIds) - {r.id.i}
              && (e.session != null ==> e.session.conn.outbox == old(e.session.conn.outbox) + [r.(id := e.msgid)])
              && (forall c :: c in old(requests.Reachable()) && (e.session == null || c != e.session.conn) ==>
                    c.outbox == old(c.outbox)))
        && (!(r.id.JInt? && r.id.i in old(requests.internalIds)) ==>
              outcome == Raised("KeyError")
              && requests.internalIds == old(requests.internalIds)
              && (forall c :: c in old(requests.Reachable()) ==> c.outbox == old(c.outbox)))
    {
      if requests.responseQueue == [] {
        return Completed;
      }
      var response := requests.responseQueue[0];
      requests.responseQueue := requests.responseQueue[1..];
      var internalId := response.id;
      var methodName := response.methodName;
      var params := response.params;
      if internalId == JNull {
        var found := Notification(methodName, params, response);
        if !found && methodName == Some(AddressTopic) {
          if params.None? {
            return Raised("TypeError");
          }
          var request := UnsubscribeRequest(shared.password, params.value);
          requests.PushRequest(null, request);
        }
        outcome := Completed;
      } else {
        outcome := SendResponse(internalId, response);
      }
    }
  }
}
