/** What goes over the socket of the web client, what settles a request, and when the connection dies. */
module RpcSent {
  import opened Basics
  import opened RpcConnection

  /** The payloads of the entries, in the order of the map. */
  function Payloads(s: State, order: seq<int>): (r: seq<Request>)
    requires forall id :: id in order ==> id in s.pending
    ensures |r| == |order|
    ensures forall n :: 0 <= n < |order| ==> Has(s, order[n], r[n])
  {
    if order == [] then [] else
      var id := order[|order| - 1];
      assert id in order;
      Payloads(s, order[..|order| - 1]) + [s.pending[id].payload]
  }

  predicate Has(s: State, id: int, q: Request) { id in s.pending && s.pending[id].payload == q }

  lemma {:induction false} RearmAllSends(s: State, order: seq<int>)
    requires Ready(s) && (forall id :: id in order ==> id in s.pending)
    requires forall id :: id in s.pending ==> s.pending[id].payload.id == id
    ensures var r := RearmAll(s, order);
            && r.sent == s.sent + Payloads(s, order) && Ready(r) && r.pending.Keys == s.pending.Keys
            && forall id :: id in s.pending ==> r.pending[id].payload == s.pending[id].payload
  {
    if order == [] {
      assert s.sent + Payloads(s, order) == s.sent;
    } else {
      var init, id := order[..|order| - 1], order[|order| - 1];
      assert forall id :: id in init ==> id in order;
      RearmAllSends(s, init);
      assert Payloads(s, order) == Payloads(s, init) + [s.pending[id].payload];
    }
  }

  /** What an event puts on the socket. */
  ghost function SentBy(s: State, e: Event): seq<Request>
    requires Enabled(s, e)
  {
    match e
    case SendPayload(body) => [Request(IdOf(|s.bodies|), body)]
    case Open(_, order) => if s.alive then Payloads(s, order) else []
    case _ => []
  }

  /** A new request is sent at once, and an opening connection sends all that is pending; nothing else does. */
  lemma StepSends(s: State, e: Event)
    requires Tidy(s) && Enabled(s, e)
    ensures Do(s, e).sent == s.sent + SentBy(s, e)
    ensures e.SendPayload? <==> Do(s, e).bodies != s.bodies
    ensures Do(s, e).bodies == if e.SendPayload? then s.bodies + [e.body] else s.bodies
  {
    match e
    case Open(w, order) =>
      OpensInUse(s, w);
      var up := Turned(s, w, Connected).(failedAttempts := 0);
      forall id | id in s.pending ensures s.pending[id].payload.id == id { assert EntryKept(s, id); }
      RearmAllSends(up, order);
      RearmAllIssues(up, order);
      assert Payloads(up, order) == Payloads(s, order);
    case _ =>
  }

  lemma {:induction false} RearmAllIssues(s: State, order: seq<int>)
    requires forall id :: id in order ==> id in s.pending
    ensures RearmAll(s, order).bodies == s.bodies
  {
    if order != [] {
      assert forall id :: id in order[..|order| - 1] ==> id in order;
      RearmAllIssues(s, order[..|order| - 1]);
    }
  }

  /** Each pending request is re-sent once: the payloads are those of the entries, and distinct. */
  lemma ResendsEach(s: State, order: seq<int>)
    requires Tidy(s) && Covers(order, s.pending.Keys)
    ensures NoDup(Payloads(s, order)) && |Payloads(s, order)| == |s.pending|
    ensures forall q :: q in Payloads(s, order) <==> exists id :: Has(s, id, q)
  {
    var payloads := Payloads(s, order);
    forall m, n | 0 <= m < n < |payloads| ensures payloads[m] != payloads[n] {
      assert Has(s, order[m], payloads[m]) && Has(s, order[n], payloads[n]);
      assert EntryKept(s, order[m]) && EntryKept(s, order[n]);
    }
    forall q ensures q in payloads <==> exists id :: Has(s, id, q) {
      if q in payloads {
        var n :| 0 <= n < |payloads| && payloads[n] == q;
        assert Has(s, order[n], q);
      }
      if id :| Has(s, id, q) {
        assert id in order;
        var n :| 0 <= n < |order| && order[n] == id;
        assert payloads[n] == q;
      }
    }
    ListsAll(order, s.pending.Keys);
  }

  lemma {:induction false} ListsAll(order: seq<int>, keys: set<int>)
    requires Covers(order, keys)
    ensures |order| == |keys|
  {
    if order == [] {
      if keys != {} {
        var id := PickOne(keys);
      }
    } else {
      var init, last := order[..|order| - 1], order[|order| - 1];
      forall id ensures id in init <==> id in keys - {last} {
        assert order == init + [last];
        if id in init {
          var n :| 0 <= n < |init| && init[n] == id;
          assert order[n] != order[|order| - 1];
        }
      }
      ListsAll(init, keys - {last});
    }
  }

  /** What a run has put on the socket before event n. */
  ghost function SentIn(run: seq<State>, es: seq<Event>, n: nat): seq<Request>
    requires IsRun(run, es) && n <= |es|
  {
    if n == 0 then [] else SentIn(run, es, n - 1) + SentAt(run, es, n - 1)
  }

  ghost function SentAt(run: seq<State>, es: seq<Event>, k: nat): seq<Request>
    requires IsRun(run, es) && k < |es|
  {
    assert Turn(run, es, k);
    SentBy(run[k], es[k])
  }

  lemma SentNext(run: seq<State>, es: seq<Event>, k: nat)
    requires IsRun(run, es) && k < |es|
    ensures run[k + 1].sent == run[k].sent + SentAt(run, es, k)
  {
    RunTidy(run, es, k);
    assert Turn(run, es, k);
    StepSends(run[k], es[k]);
  }

  /** The number of requests sent again. */
  ghost function Resent(run: seq<State>, es: seq<Event>, n: nat): nat
    requires IsRun(run, es) && n <= |es|
  {
    if n == 0 then 0
    else Resent(run, es, n - 1) + if es[n - 1].Open? && run[n - 1].alive then |run[n - 1].pending| else 0
  }

  ghost predicate Went(s: State, p: nat) {
    p < |s.bodies| ==> Request(IdOf(p), s.bodies[p]) in s.sent
  }

  lemma {:induction false} SentIsSentIn(run: seq<State>, es: seq<Event>, n: nat)
    requires IsRun(run, es) && n <= |es|
    ensures run[n].sent == SentIn(run, es, n)
  {
    if n > 0 {
      SentIsSentIn(run, es, n - 1);
      SentNext(run, es, n - 1);
    }
  }

  lemma {:induction false} AllWent(run: seq<State>, es: seq<Event>, n: nat)
    requires IsRun(run, es) && n <= |es|
    ensures forall p: nat :: Went(run[n], p)
    ensures |run[n].sent| == |run[n].bodies| + Resent(run, es, n)
  {
    if n > 0 {
      AllWent(run, es, n - 1);
      RunTidy(run, es, n - 1);
      assert Turn(run, es, n - 1);
      SentMore(run[n - 1], es[n - 1]);
    }
  }

  /** In every run the socket has carried exactly that: every request issued, in order of issue and with the id
      it was given, and once more for each time it was pending when a connection opened. */
  lemma EverythingIsSent(run: seq<State>, es: seq<Event>, n: nat)
    requires IsRun(run, es) && n <= |es|
    ensures run[n].sent == SentIn(run, es, n)
    ensures forall p: nat :: p < |run[n].bodies| ==> Request(IdOf(p), run[n].bodies[p]) in run[n].sent
    ensures |run[n].sent| == |run[n].bodies| + Resent(run, es, n)
  {
    SentIsSentIn(run, es, n);
    AllWent(run, es, n);
    forall p: nat | p < |run[n].bodies| ensures Request(IdOf(p), run[n].bodies[p]) in run[n].sent {
      assert Went(run[n], p);
    }
  }

  lemma SentMore(s: State, e: Event)
    requires Tidy(s) && Enabled(s, e) && forall p: nat :: Went(s, p)
    ensures Do(s, e).sent == s.sent + SentBy(s, e) && forall p: nat :: Went(Do(s, e), p)
    ensures |SentBy(s, e)| == |Do(s, e).bodies| - |s.bodies| + if e.Open? && s.alive then |s.pending| else 0
  {
    var r := Do(s, e);
    StepSends(s, e);
    if e.Open? { ResendsEach(s, e.order); }
    forall p: nat | p < |r.bodies| ensures Request(IdOf(p), r.bodies[p]) in r.sent {
      assert Went(s, p);
      if p == |s.bodies| { assert SentBy(s, e)[0] in r.sent; }
    }
  }

  // ---------- What settles a request ----------

  /** Outcome k of the run was made by this event: the response with that id and verdict to the request
      pending under it, or the timeout. */
  ghost predicate MadeBy(s: State, e: Event, o: Outcome) {
    match o.cause
    case ByResponse(id, error) => e == Response(id, error) && id in s.pending && s.pending[id].promise == o.promise
    case ByTimeout(t) => e == Expire(t) && t in s.timers && s.timers[t].promise == o.promise
  }

  lemma StepOutcomes(s: State, e: Event)
    requires Tidy(s) && Enabled(s, e)
    ensures s.outcomes <= Do(s, e).outcomes && |Do(s, e).outcomes| <= |s.outcomes| + 1
    ensures |Do(s, e).outcomes| > |s.outcomes| ==> MadeBy(s, e, Do(s, e).outcomes[|s.outcomes|])
    ensures e.Response? && e.id in s.pending ==>
              Do(s, e).outcomes == s.outcomes + [Outcome(s.pending[e.id].promise, ByResponse(e.id, e.error))]
  {
    match e
    case Open(w, order) =>
      RearmAllSettles(Turned(s, w, Connected).(failedAttempts := 0), order);
    case _ =>
  }

  lemma {:induction false} RearmAllSettles(s: State, order: seq<int>)
    requires forall id :: id in order ==> id in s.pending
    ensures RearmAll(s, order).outcomes == s.outcomes
  {
    if order != [] {
      assert forall id :: id in order[..|order| - 1] ==> id in order;
      RearmAllSettles(s, order[..|order| - 1]);
    }
  }

  /** A promise is resolved or rejected only by a response with its id, as the response says, or rejected by its
      timeout. */
  lemma {:induction false} OutcomeIsMade(run: seq<State>, es: seq<Event>, n: nat, k: nat) returns (m: nat)
    requires IsRun(run, es) && n <= |es| && k < |run[n].outcomes|
    ensures m < n && MadeBy(run[m], es[m], run[n].outcomes[k])
  {
    m := 0;
    if n > 0 {
      RunTidy(run, es, n - 1);
      assert Turn(run, es, n - 1);
      StepOutcomes(run[n - 1], es[n - 1]);
      if k < |run[n - 1].outcomes| {
        m := OutcomeIsMade(run, es, n - 1, k);
      } else {
        m := n - 1;
      }
    }
  }

  // ---------- Giving up ----------

  /** The failures in a row before event n: closings of a live connection without intent, since it last
      opened. */
  ghost function InARow(run: seq<State>, es: seq<Event>, n: nat): nat
    requires IsRun(run, es) && n <= |es|
  {
    if n == 0 || !run[n - 1].alive then (if n == 0 then 0 else InARow(run, es, n - 1))
    else if es[n - 1].Open? then 0
    else if es[n - 1].Close? && !run[n - 1].closeIntent then InARow(run, es, n - 1) + 1
    else InARow(run, es, n - 1)
  }

  lemma {:induction false} RearmAllForgives(s: State, order: seq<int>)
    requires forall id :: id in order ==> id in s.pending
    ensures var r := RearmAll(s, order);
            r.failedAttempts == s.failedAttempts && r.alive == s.alive && r.closeIntent == s.closeIntent
  {
    if order != [] {
      assert forall id :: id in order[..|order| - 1] ==> id in order;
      RearmAllForgives(s, order[..|order| - 1]);
    }
  }

  lemma StepAttempts(s: State, e: Event)
    requires Enabled(s, e)
    ensures Do(s, e).failedAttempts ==
            if s.alive && e.Open? then 0
            else if s.alive && e.Close? && !s.closeIntent then s.failedAttempts + 1
            else s.failedAttempts
    ensures s.alive && !Do(s, e).alive <==>
            s.alive && (e.InitialTimeout? || (e.Close? && (s.closeIntent || s.failedAttempts + 1 > 5)))
    ensures !s.alive && Do(s, e).alive <==> !s.alive && e.Reconnect? && !(s.ws < |s.sockets| && !Gone(s.sockets[s.ws]))
  {
    match e
    case Open(w, order) =>
      RearmAllForgives(Turned(s, w, Connected).(failedAttempts := 0), order);
    case _ =>
  }

  /** In every run the connection counts its failures in a row, and it dies exactly when it is closed on purpose,
      by a failure after five others in a row, or by the first timeout. Reviving it by hand does not reset the
      count: only an opening does. */
  lemma DiesExactly(run: seq<State>, es: seq<Event>, n: nat)
    requires IsRun(run, es) && n < |es|
    ensures run[n].failedAttempts == InARow(run, es, n)
    ensures run[n].alive ==> (!run[n + 1].alive <==>
              es[n].InitialTimeout? || (es[n].Close? && (run[n].closeIntent || InARow(run, es, n) >= 5)))
  {
    assert Turn(run, es, n);
    AttemptsInARow(run, es, n);
    StepAttempts(run[n], es[n]);
  }

  lemma {:induction false} AttemptsInARow(run: seq<State>, es: seq<Event>, n: nat)
    requires IsRun(run, es) && n <= |es|
    ensures run[n].failedAttempts == InARow(run, es, n)
  {
    if n > 0 {
      assert Turn(run, es, n - 1);
      AttemptsInARow(run, es, n - 1);
      StepAttempts(run[n - 1], es[n - 1]);
    }
  }

  /** Whether the last to decide before event n was a Disconnect, rather than a Reconnect that replaced the
      socket. */
  ghost function Intended(run: seq<State>, es: seq<Event>, n: nat): bool
    requires IsRun(run, es) && n <= |es|
  {
    if n == 0 then false
    else if es[n - 1].Disconnect? then true
    else if es[n - 1].Reconnect? && run[n].ws != run[n - 1].ws then false
    else Intended(run, es, n - 1)
  }

  lemma {:induction false} IntentIsLast(run: seq<State>, es: seq<Event>, n: nat)
    requires IsRun(run, es) && n <= |es|
    ensures run[n].closeIntent <==> Intended(run, es, n)
  {
    if n > 0 {
      var s, e := run[n - 1], es[n - 1];
      assert Turn(run, es, n - 1);
      IntentIsLast(run, es, n - 1);
      RunTidy(run, es, n - 1);
      if e.Open? { RearmAllForgives(Turned(s, e.w, Connected).(failedAttempts := 0), e.order); }
    }
  }

  lemma UnreadyStays(s: State, e: Event)
    requires !Ready(s) && Enabled(s, e) && !e.Open?
    ensures !Ready(Do(s, e)) && Do(s, e).sent == s.sent
  {
  }

  /** After a Disconnect, or the first timeout, nothing goes over a socket until another one opens. */
  lemma {:induction false} ClosedIsSilent(run: seq<State>, es: seq<Event>, j: nat, k: nat)
    requires IsRun(run, es) && j < k <= |es| && (es[j].Disconnect? || es[j].InitialTimeout?)
    requires forall m :: j < m < k ==> !es[m].Open?
    ensures !Ready(run[k]) && run[k].sent == run[j].sent
    decreases k
  {
    assert Turn(run, es, k - 1);
    if j < k - 1 {
      ClosedIsSilent(run, es, j, k - 1);
      UnreadyStays(run[k - 1], es[k - 1]);
    }
  }
}
