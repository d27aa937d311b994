/** Matching responses to pending requests in NetworkConnection.ts; promise n belongs to the n-th request. */
module RpcConnection {
  import opened Basics

  const WRAP_AROUND := 10000
  const MAX_ATTEMPTS := 5

  datatype Request = Request(id: int, body: string)

  datatype Pending = Pending(promise: nat, timeoutId: nat, payload: Request)

  datatype Timer = Timer(id: int, promise: nat)

  datatype Cause = ByResponse(id: int, error: bool) | ByTimeout(timeoutId: nat)

  /** One call of a promise's resolve or reject. */
  datatype Outcome = Outcome(promise: nat, cause: Cause)

  /** The readyState of a socket, from 0 to 3. */
  datatype ReadyState = Connecting | Connected | Disconnecting | Disconnected

  /** `sockets` are all that were ever established and `ws` is the one in use; `delayed` are re-sent requests
      waiting for it; `bodies` are the payloads of the requests issued so far. */
  datatype State = State(nextRpcId: int, pending: map<int, Pending>, timers: map<nat, Timer>, nextTimer: nat,
                         ws: nat, sockets: seq<ReadyState>, alive: bool, closeIntent: bool, failedAttempts: nat,
                         delayed: seq<Pending>, bodies: seq<string>, outcomes: seq<Outcome>, sent: seq<Request>)

  function Initial(): State {
    State(1, map[], map[], 0, 0, [Connecting], true, false, 0, [], [], [], [])
  }

  /** The id of the n-th request. */
  function IdOf(promise: nat): int { (promise + 1) % WRAP_AROUND }

  datatype Event =
    | SendPayload(body: string)
    | Response(id: int, error: bool)
    | Expire(timeoutId: nat)
    | Open(w: nat, order: seq<int>)
    | Resume(k: nat)
    | Closing(w: nat)
    | Close(w: nat)
    | Disconnect
    | Reconnect
    | InitialTimeout

  // ---------- The steps ----------

  predicate Ready(s: State) {
    s.ws < |s.sockets| && s.sockets[s.ws].Connected?
  }

  /** readyState above 1: closing or closed, for good. */
  predicate Gone(r: ReadyState) { r.Disconnecting? || r.Disconnected? }

  function Turned(s: State, w: nat, r: ReadyState): State
    requires w < |s.sockets|
  {
    s.(sockets := s.sockets[w := r])
  }

  /** ws.close() */
  function Shut(s: State): State {
    if s.ws < |s.sockets| && !Gone(s.sockets[s.ws]) then Turned(s, s.ws, Disconnecting) else s
  }

  /** The socket in use is replaced only when it is closing or closed. */
  function ReconnectStep(s: State): State {
    if s.ws < |s.sockets| && !Gone(s.sockets[s.ws]) then s
    else s.(alive := true, closeIntent := false, ws := |s.sockets|, sockets := s.sockets + [Connecting])
  }

  function SendStep(s: State, body: string): State {
    var query := Request(s.nextRpcId, body);
    s.(nextRpcId := (s.nextRpcId + 1) % WRAP_AROUND,
       pending := s.pending[s.nextRpcId := Pending(|s.bodies|, s.nextTimer, query)],
       timers := s.timers[s.nextTimer := Timer(s.nextRpcId, |s.bodies|)], nextTimer := s.nextTimer + 1,
       bodies := s.bodies + [body], sent := s.sent + [query])
  }

  /** A response that matches nothing is reported and dropped. */
  function ResponseStep(s: State, id: int, error: bool): State {
    if id !in s.pending then s else
      s.(pending := s.pending - {id}, timers := s.timers - {s.pending[id].timeoutId},
         outcomes := s.outcomes + [Outcome(s.pending[id].promise, ByResponse(id, error))])
  }

  function ExpireStep(s: State, t: nat): State
    requires t in s.timers
  {
    s.(pending := s.pending - {s.timers[t].id}, timers := s.timers - {t},
       outcomes := s.outcomes + [Outcome(s.timers[t].promise, ByTimeout(t))])
  }

  function ResendStep(s: State, r: Pending): State {
    s.(pending := s.pending[r.payload.id := r.(timeoutId := s.nextTimer)],
       timers := s.timers[s.nextTimer := Timer(r.payload.id, r.promise)], nextTimer := s.nextTimer + 1,
       sent := s.sent + [r.payload])
  }

  /** What onOpen does to one entry: clear its timeout, and re-send it now or once the socket is ready. */
  function Rearm(s: State, id: int): State
    requires id in s.pending
  {
    var r := s.pending[id];
    var cleared := s.(timers := s.timers - {r.timeoutId});
    if Ready(s) then ResendStep(cleared, r) else cleared.(delayed := s.delayed + [r])
  }

  ghost predicate Covers(order: seq<int>, keys: set<int>) {
    NoDup(order) && forall id :: id in order <==> id in keys
  }

  /** The entries in the order of the map. */
  function RearmAll(s: State, order: seq<int>): (r: State)
    requires forall id :: id in order ==> id in s.pending
    ensures forall id :: id in s.pending ==> id in r.pending
    decreases |order|
  {
    if order == [] then s else
      var before := RearmAll(s, order[..|order| - 1]);
      var id := order[|order| - 1];
      assert id in before.pending;
      Rearm(before, id)
  }

  function OpenStep(s: State, order: seq<int>): State
    requires forall id :: id in order ==> id in s.pending
  {
    if !s.alive then s else RearmAll(s.(failedAttempts := 0), order)
  }

  function ResumeStep(s: State, k: nat): State
    requires k < |s.delayed|
  {
    ResendStep(s.(delayed := s.delayed[..k] + s.delayed[k + 1..]), s.delayed[k])
  }

  function CloseStep(s: State): State {
    if !s.alive then s
    else if s.closeIntent then s.(alive := false)
    else s.(failedAttempts := s.failedAttempts + 1, alive := s.failedAttempts + 1 <= MAX_ATTEMPTS)
  }

  /** Any socket may open that is connecting, and close that is not closed, in use or not. */
  ghost predicate Enabled(s: State, e: Event) {
    match e
    case SendPayload(_) => Ready(s)
    case Expire(t) => t in s.timers
    case Open(w, order) => w < |s.sockets| && s.sockets[w].Connecting? && Covers(order, s.pending.Keys)
    case Resume(k) => Ready(s) && k < |s.delayed|
    case Closing(w) => w < |s.sockets| && !Gone(s.sockets[w])
    case Close(w) => w < |s.sockets| && !s.sockets[w].Disconnected?
    case _ => true
  }

  ghost function Do(s: State, e: Event): State
    requires Enabled(s, e)
  {
    match e
    case SendPayload(body) => SendStep(s, body)
    case Response(id, error) => ResponseStep(s, id, error)
    case Expire(t) => ExpireStep(s, t)
    case Open(w, order) => OpenStep(Turned(s, w, Connected), order)
    case Resume(k) => ResumeStep(s, k)
    case Closing(w) => Turned(s, w, Disconnecting)
    case Close(w) => CloseStep(Turned(s, w, Disconnected))
    case Disconnect => Shut(s.(closeIntent := true))
    case Reconnect => ReconnectStep(s)
    case InitialTimeout => Shut(s.(alive := false))
  }

  // ---------- The object ----------

  class NetworkConnection {
    var nextRpcId: int
    var pendingRequests: map<int, Pending>
    var alive: bool
    var closeIntent: bool
    var failedConnectionAttempts: nat
    var ws: nat
    var sockets: seq<ReadyState>
    var timers: map<nat, Timer>
    var nextTimer: nat
    var delayed: seq<Pending>
    var bodies: seq<string>
    var outcomes: seq<Outcome>
    var sent: seq<Request>

    function Now(): State
      reads this
    {
      State(nextRpcId, pendingRequests, timers, nextTimer, ws, sockets, alive, closeIntent,
            failedConnectionAttempts, delayed, bodies, outcomes, sent)
    }

    constructor ()
      ensures Now() == Initial()
    {
      nextRpcId, pendingRequests, alive, closeIntent, failedConnectionAttempts := 1, map[], true, false, 0;
      ws, sockets, timers, nextTimer, delayed, bodies, outcomes, sent := 0, [Connecting], map[], 0, [], [], [], [];
    }

    method GetNextRpcID() returns (rpcId: int)
      modifies this`nextRpcId
      ensures rpcId == old(nextRpcId) && nextRpcId == (rpcId + 1) % WRAP_AROUND
    {
      rpcId := nextRpcId;
      nextRpcId := (nextRpcId + 1) % WRAP_AROUND;
    }

    method SetTimeout(id: int, promise: nat) returns (timeoutId: nat)
      modifies this`timers, this`nextTimer
      ensures timeoutId == old(nextTimer) && nextTimer == timeoutId + 1
      ensures timers == old(timers)[timeoutId := Timer(id, promise)]
    {
      timeoutId := nextTimer;
      timers := timers[timeoutId := Timer(id, promise)];
      nextTimer := nextTimer + 1;
    }

    method Send(body: string)
      requires Enabled(Now(), SendPayload(body))
      modifies this
      ensures Now() == SendStep(old(Now()), body)
    {
      var id := GetNextRpcID();
      var query := Request(id, body);
      var promise := |bodies|;
      bodies := bodies + [body];
      var timeoutId := SetTimeout(id, promise);
      pendingRequests := pendingRequests[id := Pending(promise, timeoutId, query)];
      sent := sent + [query];
    }

    method ProcessResponse(id: int, error: bool)
      modifies this
      ensures Now() == ResponseStep(old(Now()), id, error)
    {
      if id !in pendingRequests { return; }
      var pendingResponse := pendingRequests[id];
      timers := timers - {pendingResponse.timeoutId};
      pendingRequests := pendingRequests - {id};
      outcomes := outcomes + [Outcome(pendingResponse.promise, ByResponse(id, error))];
    }

    method ResendRequest(request: Pending)
      modifies this
      ensures Now() == if Ready(old(Now())) then ResendStep(old(Now()), request)
                       else old(Now()).(delayed := old(delayed) + [request])
    {
      if !(ws < |sockets| && sockets[ws].Connected?) {
        delayed := delayed + [request];
        return;
      }
      var timeoutId := SetTimeout(request.payload.id, request.promise);
      pendingRequests := pendingRequests[request.payload.id := Pending(request.promise, timeoutId, request.payload)];
      sent := sent + [request.payload];
    }

    method OnOpen(order: seq<int>)
      requires Covers(order, pendingRequests.Keys)
      modifies this
      ensures Now() == OpenStep(old(Now()), order)
    {
      if !alive { return; }
      failedConnectionAttempts := 0;
      ghost var start := Now();
      for n := 0 to |order|
        invariant Now() == RearmAll(start, order[..n])
        invariant forall id :: id in order ==> id in pendingRequests
      {
        assert order[..n + 1][..n] == order[..n];
        assert order[n] in order;
        var request := pendingRequests[order[n]];
        timers := timers - {request.timeoutId};
        ResendRequest(request);
      }
      assert order[..|order|] == order;
    }

    method OnClose()
      modifies this`alive, this`failedConnectionAttempts
      ensures Now() == CloseStep(old(Now()))
    {
      if !alive { return; }
      if closeIntent {
        alive := false;
        return;
      }
      failedConnectionAttempts := failedConnectionAttempts + 1;
      if failedConnectionAttempts <= MAX_ATTEMPTS { return; }
      alive := false;
    }

    method CloseSocket()
      modifies this`sockets
      ensures Now() == Shut(old(Now()))
    {
      if ws < |sockets| && !Gone(sockets[ws]) {
        sockets := sockets[ws := Disconnecting];
      }
    }

    method Disconnect()
      modifies this`closeIntent, this`sockets
      ensures Now() == Shut(old(Now()).(closeIntent := true))
    {
      closeIntent := true;
      CloseSocket();
    }

    method ReconnectIfNecessary()
      modifies this`alive, this`closeIntent, this`ws, this`sockets
      ensures Now() == ReconnectStep(old(Now()))
    {
      if ws < |sockets| && !Gone(sockets[ws]) { return; }
      alive, closeIntent := true, false;
      ws, sockets := |sockets|, sockets + [Connecting];
    }
  }

  // ---------- What every run keeps ----------

  ghost predicate Mine(s: State, r: Pending) {
    r.promise < |s.bodies| && r.payload == Request(IdOf(r.promise), s.bodies[r.promise])
  }

  ghost predicate EntryKept(s: State, id: int) {
    id in s.pending ==> Mine(s, s.pending[id]) && id == s.pending[id].payload.id
  }

  ghost predicate TimerKept(s: State, t: nat) {
    t in s.timers ==> t < s.nextTimer && s.timers[t].promise < |s.bodies| && s.timers[t].id == IdOf(s.timers[t].promise)
  }

  ghost predicate OutcomeKept(s: State, k: nat) {
    k < |s.outcomes| ==> Owned(s, s.outcomes[k])
  }

  /** A response settles the request that was issued with its id. */
  ghost predicate Owned(s: State, o: Outcome) {
    o.promise < |s.bodies| && (o.cause.ByResponse? ==> o.cause.id == IdOf(o.promise))
  }

  ghost predicate SentKept(s: State, k: nat) {
    k < |s.sent| ==> Issued(s, s.sent[k])
  }

  ghost predicate Issued(s: State, q: Request) {
    exists p: nat :: Payload(s, p, q)
  }

  ghost predicate Payload(s: State, p: nat, q: Request) {
    p < |s.bodies| && q == Request(IdOf(p), s.bodies[p])
  }

  /** Kept by every run: every key is the id of its payload, which is the id the request was given
      when it was issued, whatever is re-sent. */
  ghost predicate Kept(s: State) {
    s.nextRpcId == IdOf(|s.bodies|) &&
    (forall id :: EntryKept(s, id)) &&
    (forall t: nat :: TimerKept(s, t)) &&
    (forall k: nat :: k < |s.delayed| ==> Mine(s, s.delayed[k])) &&
    (forall k: nat :: OutcomeKept(s, k)) &&
    (forall k: nat :: SentKept(s, k))
  }

  lemma SendKeeps(s: State, body: string)
    requires Kept(s)
    ensures Kept(SendStep(s, body))
  {
    var r := SendStep(s, body);
    forall id ensures EntryKept(r, id) { assert EntryKept(s, id); }
    forall t: nat ensures TimerKept(r, t) { assert TimerKept(s, t); }
    forall k: nat ensures OutcomeKept(r, k) { assert OutcomeKept(s, k); }
    forall k: nat ensures SentKept(r, k) {
      assert SentKept(s, k);
      if k < |s.sent| {
        var p: nat :| Payload(s, p, s.sent[k]);
        assert r.sent[k] == s.sent[k] && Payload(r, p, s.sent[k]);
      } else if k == |s.sent| {
        assert r.sent[k] == Request(s.nextRpcId, body) && Payload(r, |s.bodies|, r.sent[k]);
      }
    }
  }

  lemma SettleKeeps(s: State, r: State, o: Outcome)
    requires Kept(s)
    requires r == s.(pending := r.pending, timers := r.timers, outcomes := s.outcomes + [o])
    requires r.pending.Keys <= s.pending.Keys && forall id :: id in r.pending ==> r.pending[id] == s.pending[id]
    requires r.timers.Keys <= s.timers.Keys && forall t :: t in r.timers ==> r.timers[t] == s.timers[t]
    requires Owned(s, o)
    ensures Kept(r)
  {
    forall id ensures EntryKept(r, id) { assert EntryKept(s, id); }
    forall t: nat ensures TimerKept(r, t) { assert TimerKept(s, t); }
    forall k: nat ensures OutcomeKept(r, k) { assert OutcomeKept(s, k); }
    forall k: nat ensures SentKept(r, k) {
      assert SentKept(s, k);
      if k < |s.sent| {
        var p: nat :| Payload(s, p, s.sent[k]);
        assert r.sent[k] == s.sent[k] && Payload(r, p, s.sent[k]);
      }
    }
  }

  lemma ResendKeeps(s: State, q: Pending)
    requires Kept(s) && Mine(s, q)
    ensures Kept(ResendStep(s, q))
  {
    var r := ResendStep(s, q);
    forall id ensures EntryKept(r, id) { assert EntryKept(s, id); }
    forall t: nat ensures TimerKept(r, t) { assert TimerKept(s, t); }
    forall k: nat ensures OutcomeKept(r, k) { assert OutcomeKept(s, k); }
    forall k: nat ensures SentKept(r, k) {
      assert SentKept(s, k);
      if k < |s.sent| {
        var p: nat :| Payload(s, p, s.sent[k]);
        assert r.sent[k] == s.sent[k] && Payload(r, p, s.sent[k]);
      } else if k == |s.sent| {
        assert r.sent[k] == q.payload && Payload(r, q.promise, r.sent[k]);
      }
    }
  }

  /** Fewer timers, other flags and other mail in the queue of delayed requests. */
  lemma QuietKeeps(s: State, r: State)
    requires Kept(s)
    requires r.nextRpcId == s.nextRpcId && r.pending == s.pending && r.nextTimer == s.nextTimer
    requires r.bodies == s.bodies && r.outcomes == s.outcomes && r.sent == s.sent
    requires r.timers.Keys <= s.timers.Keys && forall t :: t in r.timers ==> r.timers[t] == s.timers[t]
    requires forall k: nat :: k < |r.delayed| ==> Mine(s, r.delayed[k])
    ensures Kept(r)
  {
    forall id ensures EntryKept(r, id) { assert EntryKept(s, id); }
    forall t: nat ensures TimerKept(r, t) { assert TimerKept(s, t); }
    forall k: nat ensures OutcomeKept(r, k) { assert OutcomeKept(s, k); }
    forall k: nat ensures SentKept(r, k) {
      assert SentKept(s, k);
      if k < |s.sent| {
        var p: nat :| Payload(s, p, s.sent[k]);
        assert r.sent[k] == s.sent[k] && Payload(r, p, s.sent[k]);
      }
    }
    forall k: nat | k < |r.delayed| ensures Mine(r, r.delayed[k]) { assert Mine(s, r.delayed[k]); }
  }

  lemma RearmKeeps(s: State, id: int)
    requires Kept(s) && id in s.pending
    ensures Kept(Rearm(s, id))
  {
    assert EntryKept(s, id);
    var r := s.pending[id];
    var cleared := s.(timers := s.timers - {r.timeoutId});
    QuietKeeps(s, cleared);
    if Ready(s) { ResendKeeps(cleared, r); } else { QuietKeeps(s, Rearm(s, id)); }
  }

  lemma {:induction false} RearmAllKeeps(s: State, order: seq<int>)
    requires Kept(s) && forall id :: id in order ==> id in s.pending
    ensures Kept(RearmAll(s, order))
  {
    if order != [] {
      assert forall id :: id in order[..|order| - 1] ==> id in order;
      RearmAllKeeps(s, order[..|order| - 1]);
      RearmKeeps(RearmAll(s, order[..|order| - 1]), order[|order| - 1]);
    }
  }

  lemma OpenKeeps(s: State, order: seq<int>)
    requires Kept(s) && Covers(order, s.pending.Keys)
    ensures Kept(OpenStep(s, order))
  {
    QuietKeeps(s, s.(failedAttempts := 0));
    RearmAllKeeps(s.(failedAttempts := 0), order);
  }

  lemma ResumeKeeps(s: State, k: nat)
    requires Kept(s) && k < |s.delayed|
    ensures Kept(ResumeStep(s, k))
  {
    var rest := s.(delayed := s.delayed[..k] + s.delayed[k + 1..]);
    QuietKeeps(s, rest);
    ResendKeeps(rest, s.delayed[k]);
  }

  lemma StepKeeps(s: State, e: Event)
    requires Kept(s) && Enabled(s, e)
    ensures Kept(Do(s, e))
  {
    match e
    case SendPayload(body) => SendKeeps(s, body);
    case Response(id, error) =>
      assert EntryKept(s, id);
      if id in s.pending { SettleKeeps(s, Do(s, e), Outcome(s.pending[id].promise, ByResponse(id, error))); }
    case Expire(t) =>
      assert TimerKept(s, t);
      SettleKeeps(s, Do(s, e), Outcome(s.timers[t].promise, ByTimeout(t)));
    case Open(w, order) =>
      QuietKeeps(s, Turned(s, w, Connected));
      OpenKeeps(Turned(s, w, Connected), order);
    case Resume(k) => ResumeKeeps(s, k);
    case _ => QuietKeeps(s, Do(s, e));
  }

  // ---------- One timeout for each request, until it is settled ----------

  ghost predicate Live(s: State, p: nat) {
    IdOf(p) in s.pending && s.pending[IdOf(p)].promise == p
  }

  ghost predicate Settled(s: State, p: nat) {
    exists k :: 0 <= k < |s.outcomes| && s.outcomes[k].promise == p
  }

  ghost predicate Runs(s: State, t: nat, p: nat) {
    t in s.timers && s.timers[t].promise == p
  }

  /** A timeout is running that will settle the request at the latest. */
  ghost predicate Waiting(s: State, p: nat) {
    exists t: nat :: Runs(s, t, p)
  }

  /** The entry's timeout is running and is its own. */
  ghost predicate Armed(s: State, id: int) {
    id in s.pending ==>
      s.pending[id].timeoutId in s.timers && s.timers[s.pending[id].timeoutId] == Timer(id, s.pending[id].promise)
  }

  ghost predicate Once(s: State) {
    forall i, j :: 0 <= i < j < |s.outcomes| ==> s.outcomes[i].promise != s.outcomes[j].promise
  }

  ghost predicate OneTimer(s: State) {
    forall t: nat, u: nat, p: nat {:trigger Runs(s, t, p), Runs(s, u, p)} :: Runs(s, t, p) && Runs(s, u, p) ==> t == u
  }

  /** A request issued is either waiting or settled, and not both. */
  ghost predicate Accounted(s: State, p: nat) {
    p < |s.bodies| ==> (Waiting(s, p) <==> !Settled(s, p))
  }

  /** Every socket but the one in use is closing or closed. */
  ghost predicate OneSocket(s: State) {
    s.ws < |s.sockets| && forall w: nat :: w < |s.sockets| && w != s.ws ==> Gone(s.sockets[w])
  }

  ghost predicate Tidy(s: State) {
    Kept(s) && OneSocket(s) && s.delayed == [] && Once(s) && OneTimer(s) &&
    (forall id :: Armed(s, id)) && (forall p: nat :: Accounted(s, p))
  }

  /** The timeout t ends, and with it the entry of its id: by itself, or cleared by a response. */
  function Ended(s: State, t: nat, cause: Cause): State
    requires t in s.timers
  {
    s.(pending := s.pending - {s.timers[t].id}, timers := s.timers - {t},
       outcomes := s.outcomes + [Outcome(s.timers[t].promise, cause)])
  }

  lemma SettledSnoc(s: State, r: State, o: Outcome, p: nat)
    requires r.outcomes == s.outcomes + [o]
    ensures Settled(r, p) <==> Settled(s, p) || o.promise == p
  {
    if Settled(s, p) {
      var k :| 0 <= k < |s.outcomes| && s.outcomes[k].promise == p;
      assert r.outcomes[k].promise == p;
    }
    assert r.outcomes[|s.outcomes|] == o;
  }

  lemma NewIsUnsettled(s: State)
    requires Kept(s)
    ensures !Settled(s, |s.bodies|)
  {
    forall k: nat | k < |s.outcomes| ensures s.outcomes[k].promise != |s.bodies| { assert OutcomeKept(s, k); }
  }

  lemma SendTidy(s: State, body: string)
    requires Tidy(s)
    ensures Tidy(SendStep(s, body))
  {
    var r := SendStep(s, body);
    SendKeeps(s, body);
    NewIsUnsettled(s);
    forall id ensures Armed(r, id) {
      assert Armed(s, id) && EntryKept(s, id);
      if id in s.pending { assert TimerKept(s, s.pending[id].timeoutId); }
    }
    forall t: nat, p: nat ensures Runs(r, t, p) <==> Runs(s, t, p) || (t == s.nextTimer && p == |s.bodies|) {
      assert TimerKept(s, t);
    }
    forall t: nat ensures !Runs(s, t, |s.bodies|) { assert TimerKept(s, t); }
    forall p: nat ensures Accounted(r, p) {
      assert Accounted(s, p);
      assert Settled(r, p) <==> Settled(s, p);
      assert Runs(r, s.nextTimer, |s.bodies|);
      if t: nat :| Runs(s, t, p) { assert Runs(r, t, p); }
    }
  }

  lemma EndTidy(s: State, t: nat, cause: Cause)
    requires Tidy(s) && t in s.timers && Kept(Ended(s, t, cause))
    ensures Tidy(Ended(s, t, cause))
  {
    var r := Ended(s, t, cause);
    var p0 := s.timers[t].promise;
    assert Runs(s, t, p0) && TimerKept(s, t) && Accounted(s, p0);
    forall id ensures Armed(r, id) { assert Armed(s, id); }
    forall u: nat, p: nat ensures Runs(r, u, p) <==> Runs(s, u, p) && u != t {}
    forall p: nat ensures Accounted(r, p) {
      assert Accounted(s, p);
      SettledSnoc(s, r, Outcome(p0, cause), p);
      if u: nat :| Runs(s, u, p) && u != t { assert Runs(r, u, p) && p != p0; }
    }
    assert forall k :: 0 <= k < |s.outcomes| ==> s.outcomes[k].promise != p0;
    assert Once(r);
  }

  /** A response ends the timeout of the entry it matches. */
  lemma ResponseEnds(s: State, id: int, error: bool)
    requires Tidy(s) && id in s.pending
    ensures s.pending[id].timeoutId in s.timers
    ensures ResponseStep(s, id, error) == Ended(s, s.pending[id].timeoutId, ByResponse(id, error))
  {
    assert Armed(s, id);
  }

  lemma RearmTidy(s: State, id: int)
    requires Tidy(s) && Ready(s) && id in s.pending
    ensures Tidy(Rearm(s, id))
    ensures forall p: nat :: Live(Rearm(s, id), p) <==> Live(s, p)
  {
    var r := Rearm(s, id);
    var old', new', p0 := s.pending[id].timeoutId, s.nextTimer, s.pending[id].promise;
    RearmKeeps(s, id);
    assert EntryKept(s, id) && Armed(s, id) && Runs(s, old', p0);
    forall j ensures Armed(r, j) {
      assert Armed(s, j);
      assert TimerKept(s, new');
      if j in s.pending { assert Runs(s, s.pending[j].timeoutId, s.pending[j].promise); }
    }
    forall u: nat, p: nat ensures Runs(r, u, p) <==> (Runs(s, u, p) && u != old') || (u == new' && p == p0) {
      assert TimerKept(s, u);
    }
    forall p: nat ensures Accounted(r, p) {
      assert Accounted(s, p);
      assert Settled(r, p) <==> Settled(s, p);
      assert Runs(r, new', p0);
      if u: nat :| Runs(s, u, p) && u != old' { assert Runs(r, u, p); }
    }
    forall p: nat ensures Live(r, p) <==> Live(s, p) {}
  }

  lemma {:induction false} RearmAllTidy(s: State, order: seq<int>)
    requires Tidy(s) && Ready(s) && forall id :: id in order ==> id in s.pending
    ensures Tidy(RearmAll(s, order)) && Ready(RearmAll(s, order))
    ensures forall p: nat :: Live(RearmAll(s, order), p) <==> Live(s, p)
  {
    if order != [] {
      assert forall id :: id in order[..|order| - 1] ==> id in order;
      RearmAllTidy(s, order[..|order| - 1]);
      RearmTidy(RearmAll(s, order[..|order| - 1]), order[|order| - 1]);
    }
  }

  lemma FlagsTidy(s: State, r: State)
    requires Tidy(s)
    requires r == s.(ws := r.ws, sockets := r.sockets, alive := r.alive, closeIntent := r.closeIntent,
                     failedAttempts := r.failedAttempts) && OneSocket(r)
    ensures Tidy(r)
    ensures forall p: nat :: Live(r, p) <==> Live(s, p)
  {
    QuietKeeps(s, r);
    forall j ensures Armed(r, j) { assert Armed(s, j); }
    forall t: nat, p: nat ensures Runs(r, t, p) <==> Runs(s, t, p) {}
    forall p: nat ensures Accounted(r, p) {
      assert Accounted(s, p);
      assert Settled(r, p) <==> Settled(s, p);
      if t: nat :| Runs(s, t, p) { assert Runs(r, t, p); }
    }
  }

  /** A socket is replaced only when it is closing or closed, and then it never opens: the socket that
      opens is the one in use, and it is ready. */
  lemma OpensInUse(s: State, w: nat)
    requires OneSocket(s) && w < |s.sockets| && s.sockets[w].Connecting?
    ensures w == s.ws && Ready(Turned(s, w, Connected)) && OneSocket(Turned(s, w, Connected))
  {
  }

  lemma OpenTidy(s: State, w: nat, order: seq<int>)
    requires Tidy(s) && w < |s.sockets| && s.sockets[w].Connecting? && Covers(order, s.pending.Keys)
    ensures Tidy(OpenStep(Turned(s, w, Connected), order))
    ensures forall p: nat :: Live(OpenStep(Turned(s, w, Connected), order), p) <==> Live(s, p)
  {
    OpensInUse(s, w);
    var up := Turned(s, w, Connected);
    FlagsTidy(s, up);
    if s.alive {
      FlagsTidy(up, up.(failedAttempts := 0));
      RearmAllTidy(up.(failedAttempts := 0), order);
    }
  }

  lemma StepTidy(s: State, e: Event)
    requires Tidy(s) && Enabled(s, e)
    ensures Tidy(Do(s, e))
  {
    match e
    case SendPayload(body) => SendTidy(s, body);
    case Response(id, error) =>
      StepKeeps(s, e);
      if id in s.pending {
        ResponseEnds(s, id, error);
        EndTidy(s, s.pending[id].timeoutId, ByResponse(id, error));
      }
    case Expire(t) =>
      StepKeeps(s, e);
      EndTidy(s, t, ByTimeout(t));
    case Open(w, order) => OpenTidy(s, w, order);
    case Resume(k) =>
    case _ => FlagsTidy(s, Do(s, e));
  }

  // ---------- When no id is used twice at a time ----------

  /** The timeout belongs to the entry of its id. */
  ghost predicate Used(s: State, t: nat) {
    t in s.timers ==> s.timers[t].id in s.pending && s.pending[s.timers[t].id].timeoutId == t
  }

  ghost predicate Good(s: State) {
    Tidy(s) && forall t: nat :: Used(s, t)
  }

  /** Then a request issued is pending until it is settled. */
  lemma GoodIsPending(s: State, p: nat)
    requires Good(s) && p < |s.bodies|
    ensures Live(s, p) <==> !Settled(s, p)
  {
    assert Accounted(s, p);
    if Live(s, p) {
      assert Armed(s, IdOf(p)) && Runs(s, s.pending[IdOf(p)].timeoutId, p);
    }
    if t: nat :| Runs(s, t, p) {
      assert Used(s, t) && TimerKept(s, t) && Armed(s, IdOf(p));
    }
  }

  /** The next id is taken exactly when some live request was issued a multiple of 10000 requests ago. */
  lemma NextIdTaken(s: State)
    requires Kept(s)
    ensures s.nextRpcId in s.pending <==>
            exists p: nat :: p < |s.bodies| && Live(s, p) && (|s.bodies| - p) % WRAP_AROUND == 0
  {
    if s.nextRpcId in s.pending {
      assert EntryKept(s, s.nextRpcId);
      var p := s.pending[s.nextRpcId].promise;
      assert Live(s, p) && IdOf(p) == IdOf(|s.bodies|);
    }
    if p: nat :| p < |s.bodies| && Live(s, p) && (|s.bodies| - p) % WRAP_AROUND == 0 {
      assert IdOf(p) == IdOf(|s.bodies|);
    }
  }

  /** No live request is 10000 requests old. */
  ghost predicate Short(s: State) {
    forall p: nat :: Live(s, p) ==> |s.bodies| - p < WRAP_AROUND
  }

  lemma ShortIsFree(s: State)
    requires Kept(s) && Short(s)
    ensures s.nextRpcId !in s.pending
  {
    NextIdTaken(s);
    forall p: nat | p < |s.bodies| && Live(s, p) ensures (|s.bodies| - p) % WRAP_AROUND != 0 {}
  }

  lemma SendGood(s: State, body: string)
    requires Good(s) && s.nextRpcId !in s.pending
    ensures Good(SendStep(s, body))
  {
    SendTidy(s, body);
    forall t: nat ensures Used(SendStep(s, body), t) { assert Used(s, t); }
  }

  lemma EndGood(s: State, t: nat, cause: Cause)
    requires Good(s) && t in s.timers && Kept(Ended(s, t, cause))
    ensures Good(Ended(s, t, cause))
  {
    EndTidy(s, t, cause);
    assert Used(s, t);
    forall u: nat ensures Used(Ended(s, t, cause), u) { assert Used(s, u); }
  }

  lemma {:induction false} RearmAllGood(s: State, order: seq<int>)
    requires Good(s) && Ready(s) && forall id :: id in order ==> id in s.pending
    ensures Good(RearmAll(s, order)) && Ready(RearmAll(s, order))
  {
    if order != [] {
      assert forall id :: id in order[..|order| - 1] ==> id in order;
      var before, id := RearmAll(s, order[..|order| - 1]), order[|order| - 1];
      RearmAllGood(s, order[..|order| - 1]);
      RearmTidy(before, id);
      assert EntryKept(before, id) && Armed(before, id);
      forall t: nat ensures Used(Rearm(before, id), t) { assert Used(before, t); }
    }
  }

  lemma FlagsGood(s: State, r: State)
    requires Good(s)
    requires r == s.(ws := r.ws, sockets := r.sockets, alive := r.alive, closeIntent := r.closeIntent,
                     failedAttempts := r.failedAttempts) && OneSocket(r)
    ensures Good(r)
  {
    FlagsTidy(s, r);
    forall t: nat ensures Used(r, t) { assert Used(s, t); }
  }

  /** Nothing is sent while a live request is 10000 requests old. */
  ghost predicate Careful(s: State, e: Event) {
    e.SendPayload? ==> Short(s)
  }

  lemma OpenGood(s: State, w: nat, order: seq<int>)
    requires Good(s) && w < |s.sockets| && s.sockets[w].Connecting? && Covers(order, s.pending.Keys)
    ensures Good(OpenStep(Turned(s, w, Connected), order))
  {
    OpensInUse(s, w);
    var up := Turned(s, w, Connected);
    FlagsGood(s, up);
    if s.alive {
      FlagsGood(up, up.(failedAttempts := 0));
      RearmAllGood(up.(failedAttempts := 0), order);
    }
  }

  lemma StepGood(s: State, e: Event)
    requires Good(s) && Enabled(s, e) && Careful(s, e)
    ensures Good(Do(s, e))
  {
    match e
    case SendPayload(body) => ShortIsFree(s); SendGood(s, body);
    case Response(id, error) =>
      StepKeeps(s, e);
      if id in s.pending {
        ResponseEnds(s, id, error);
        EndGood(s, s.pending[id].timeoutId, ByResponse(id, error));
      }
    case Expire(t) =>
      StepKeeps(s, e);
      EndGood(s, t, ByTimeout(t));
    case Open(w, order) => OpenGood(s, w, order);
    case Resume(k) =>
    case _ => FlagsGood(s, Do(s, e));
  }

  // ---------- Runs ----------

  ghost predicate Turn(run: seq<State>, es: seq<Event>, k: nat)
    requires k < |es| && |run| == |es| + 1
  {
    Enabled(run[k], es[k]) && run[k + 1] == Do(run[k], es[k])
  }

  ghost predicate IsRun(run: seq<State>, es: seq<Event>) {
    |run| == |es| + 1 && run[0] == Initial() && forall k :: 0 <= k < |es| ==> Turn(run, es, k)
  }

  ghost predicate CarefulAt(run: seq<State>, es: seq<Event>, k: nat)
    requires k < |es| && |run| == |es| + 1
  {
    Careful(run[k], es[k])
  }

  ghost predicate CarefulRun(run: seq<State>, es: seq<Event>) {
    IsRun(run, es) && forall k :: 0 <= k < |es| ==> CarefulAt(run, es, k)
  }

  lemma InitialGood()
    ensures Good(Initial())
  {
  }

  lemma {:induction false} RunTidy(run: seq<State>, es: seq<Event>, n: nat)
    requires IsRun(run, es) && n <= |es|
    ensures Tidy(run[n])
  {
    if n == 0 {
      InitialGood();
    } else {
      RunTidy(run, es, n - 1);
      assert Turn(run, es, n - 1);
      StepTidy(run[n - 1], es[n - 1]);
    }
  }

  /** In every run the ids stay in range, every key is its payload's id, and everything sent for a
      request, first or again, is the payload with the id it was issued with. */
  lemma KeysArePayloadIds(run: seq<State>, es: seq<Event>, n: nat)
    requires IsRun(run, es) && n <= |es|
    ensures 0 <= run[n].nextRpcId < WRAP_AROUND
    ensures forall id :: id in run[n].pending ==> 0 <= id < WRAP_AROUND && run[n].pending[id].payload.id == id
    ensures forall id :: id in run[n].pending ==>
              Payload(run[n], run[n].pending[id].promise, run[n].pending[id].payload)
    ensures forall k: nat :: k < |run[n].sent| ==> Issued(run[n], run[n].sent[k])
  {
    RunTidy(run, es, n);
    forall id | id in run[n].pending
      ensures 0 <= id < WRAP_AROUND && run[n].pending[id].payload.id == id
      ensures Payload(run[n], run[n].pending[id].promise, run[n].pending[id].payload)
    {
      assert EntryKept(run[n], id);
    }
    forall k: nat | k < |run[n].sent| ensures Issued(run[n], run[n].sent[k]) {
      assert SentKept(run[n], k);
    }
  }

  /** In every run, whatever ids are reused: each request is at any time either waiting, with one
      timeout of its own running, or settled, and not both; it is settled once, by a response with
      the id it was issued with or by its own timeout. */
  lemma SettledOnce(run: seq<State>, es: seq<Event>, n: nat)
    requires IsRun(run, es) && n <= |es|
    ensures forall p: nat :: p < |run[n].bodies| ==> (Waiting(run[n], p) <==> !Settled(run[n], p))
    ensures Once(run[n]) && OneTimer(run[n])
    ensures forall t: nat :: t in run[n].timers ==> run[n].timers[t].id == IdOf(run[n].timers[t].promise)
    ensures forall k: nat :: k < |run[n].outcomes| ==> Owned(run[n], run[n].outcomes[k])
  {
    RunTidy(run, es, n);
    var s := run[n];
    forall p: nat | p < |s.bodies| ensures Waiting(s, p) <==> !Settled(s, p) { assert Accounted(s, p); }
    forall t: nat | t in s.timers ensures s.timers[t].id == IdOf(s.timers[t].promise) { assert TimerKept(s, t); }
    forall k: nat | k < |s.outcomes| ensures Owned(s, s.outcomes[k]) { assert OutcomeKept(s, k); }
  }

  /** The branch of resendRequest that waits for the socket is never taken, and nothing is ever delayed,
      because of all sockets established only the one in use ever opens. */
  lemma NothingIsDelayed(run: seq<State>, es: seq<Event>, n: nat)
    requires IsRun(run, es) && n <= |es|
    ensures run[n].delayed == []
    ensures n < |es| ==> !es[n].Resume?
    ensures n < |es| && es[n].Open? ==> es[n].w == run[n].ws
  {
    RunTidy(run, es, n);
    if n < |es| {
      assert Turn(run, es, n);
      if es[n].Open? { OpensInUse(run[n], es[n].w); }
    }
  }

  lemma {:induction false} CarefulRunGood(run: seq<State>, es: seq<Event>, n: nat)
    requires CarefulRun(run, es) && n <= |es|
    ensures Good(run[n])
  {
    if n == 0 {
      InitialGood();
    } else {
      CarefulRunGood(run, es, n - 1);
      assert Turn(run, es, n - 1) && CarefulAt(run, es, n - 1);
      StepGood(run[n - 1], es[n - 1]);
    }
  }

  /** In a run that never sends while a live request is 10000 requests old, each request is pending
      until it is settled, no live entry is overwritten, and a timeout drops its own entry. */
  lemma PendingUntilSettled(run: seq<State>, es: seq<Event>, n: nat)
    requires CarefulRun(run, es) && n <= |es|
    ensures forall p: nat :: p < |run[n].bodies| ==> (Live(run[n], p) <==> !Settled(run[n], p))
    ensures n < |es| && es[n].SendPayload? ==> run[n].nextRpcId !in run[n].pending
    ensures n < |es| && es[n].Expire? ==>
            es[n].timeoutId in run[n].timers && Live(run[n], run[n].timers[es[n].timeoutId].promise)
  {
    CarefulRunGood(run, es, n);
    var s := run[n];
    forall p: nat | p < |s.bodies| ensures Live(s, p) <==> !Settled(s, p) { GoodIsPending(s, p); }
    if n < |es| {
      assert Turn(run, es, n) && CarefulAt(run, es, n);
      if es[n].SendPayload? { ShortIsFree(s); }
      if es[n].Expire? {
        var t := es[n].timeoutId;
        assert Used(s, t) && TimerKept(s, t) && Armed(s, s.timers[t].id);
      }
    }
  }

  /** A request is settled by nothing that happens to other ids: a live one stays live through every
      careful step that is neither a response with its id nor its own timeout. */
  lemma OnlyItsOwn(s: State, e: Event, p: nat)
    requires Good(s) && Enabled(s, e) && Careful(s, e) && Live(s, p)
    ensures Live(Do(s, e), p) <==>
      !(e.Response? && e.id == IdOf(p)) && !(e.Expire? && s.timers[e.timeoutId].promise == p)
  {
    assert EntryKept(s, IdOf(p));
    match e
    case SendPayload(body) => ShortIsFree(s);
    case Response(id, error) =>
    case Expire(t) => assert TimerKept(s, t) && Used(s, t) && Armed(s, s.timers[t].id);
    case Open(w, order) => OpenTidy(s, w, order);
    case Resume(k) =>
    case _ =>
  }

  // ---------- What happens when an id is used twice at a time ----------

  /** Sending over a live entry: a response with the id now settles the newcomer, and the request sent
      before can only time out. Its timeout settles it, but drops the newcomer's entry, so that
      the newcomer too can then only time out: a response to it matches nothing. */
  lemma OverwrittenTimesOut(s: State, body: string, error: bool)
    requires Good(s) && s.nextRpcId in s.pending
    ensures var id, older, newer := s.nextRpcId, s.pending[s.nextRpcId].promise, |s.bodies|;
      var t, u := s.pending[id].timeoutId, s.nextTimer;
      var both := SendStep(s, body);
      older < newer && !Live(both, older) && !Settled(both, older) && Runs(both, t, older) &&
      Live(both, newer) && Settled(ResponseStep(both, id, error), newer) &&
        !Settled(ResponseStep(both, id, error), older) &&
      var expired := ExpireStep(both, t);
      Settled(expired, older) && !Settled(expired, newer) && !Live(expired, newer) && Runs(expired, u, newer) &&
      ResponseStep(expired, id, error) == expired
  {
    var id, older, newer := s.nextRpcId, s.pending[s.nextRpcId].promise, |s.bodies|;
    var t := s.pending[id].timeoutId;
    assert EntryKept(s, id) && Armed(s, id) && TimerKept(s, t);
    assert Live(s, older);
    GoodIsPending(s, older);
    NewIsUnsettled(s);
    var both := SendStep(s, body);
    assert Settled(both, older) <==> Settled(s, older);
    assert Settled(both, newer) <==> Settled(s, newer);
    SettledSnoc(both, ResponseStep(both, id, error), Outcome(newer, ByResponse(id, error)), newer);
    SettledSnoc(both, ResponseStep(both, id, error), Outcome(newer, ByResponse(id, error)), older);
    SettledSnoc(both, ExpireStep(both, t), Outcome(older, ByTimeout(t)), older);
    SettledSnoc(both, ExpireStep(both, t), Outcome(older, ByTimeout(t)), newer);
  }

  /** Sending keeps every timeout with its entry exactly when the next id is free. */
  lemma SendGoodExactly(s: State, body: string)
    requires Good(s)
    ensures Good(SendStep(s, body)) <==> s.nextRpcId !in s.pending
  {
    if s.nextRpcId in s.pending {
      var t := s.pending[s.nextRpcId].timeoutId;
      assert EntryKept(s, s.nextRpcId) && Armed(s, s.nextRpcId) && TimerKept(s, t);
      assert !Used(SendStep(s, body), t);
    } else {
      SendGood(s, body);
    }
  }

  /** Exactly the first n requests wait, on a socket that is ready. */
  ghost predicate AllWait(s: State, n: nat) {
    Good(s) && Ready(s) && |s.bodies| == n && forall p: nat :: p < n ==> Live(s, p)
  }

  lemma SendsWait(s: State, n: nat, body: string)
    requires AllWait(s, n) && n < WRAP_AROUND
    ensures AllWait(SendStep(s, body), n + 1)
  {
    assert Short(s);
    ShortIsFree(s);
    SendGood(s, body);
    forall p: nat | p < n + 1 ensures Live(SendStep(s, body), p) {
      if p < n { assert Live(s, p); }
    }
  }

  lemma OneMoreEvent(run: seq<State>, es: seq<Event>, e: Event) returns (longer: seq<State>)
    requires CarefulRun(run, es) && Enabled(run[|es|], e) && Careful(run[|es|], e)
    ensures CarefulRun(longer, es + [e]) && longer[|es| + 1] == Do(run[|es|], e)
  {
    longer := run + [Do(run[|es|], e)];
    forall k | 0 <= k < |es + [e]| ensures Turn(longer, es + [e], k) && CarefulAt(longer, es + [e], k) {
      if k < |es| { assert Turn(run, es, k) && CarefulAt(run, es, k); }
    }
  }

  /** The socket opens and n requests are sent, none of them answered. */
  lemma {:induction false} Sends(n: nat) returns (run: seq<State>, es: seq<Event>)
    requires n <= WRAP_AROUND
    ensures CarefulRun(run, es) && |es| == n + 1 && AllWait(run[|es|], n)
  {
    if n == 0 {
      var none: seq<Event> := [];
      run, es := [Initial()], [Open(0, [])];
      run := OneMoreEvent(run, none, es[0]);
      assert none + [es[0]] == es;
      CarefulRunGood(run, es, 1);
    } else {
      run, es := Sends(n - 1);
      var s := run[|es|];
      SendsWait(s, n - 1, "");
      run := OneMoreEvent(run, es, SendPayload(""));
      es := es + [SendPayload("")];
    }
  }

  /** It does happen: after 10000 requests that all still wait, the next is sent over the first of them. */
  lemma SomeIsOverwritten() returns (run: seq<State>, es: seq<Event>)
    ensures CarefulRun(run, es) && |es| == WRAP_AROUND + 1 && AllWait(run[|es|], WRAP_AROUND)
    ensures Enabled(run[|es|], SendPayload("")) && run[|es|].nextRpcId in run[|es|].pending
    ensures run[|es|].pending[run[|es|].nextRpcId].promise == 0
  {
    run, es := Sends(WRAP_AROUND);
    var s := run[|es|];
    assert Live(s, 0) && IdOf(0) == IdOf(|s.bodies|);
  }
}
