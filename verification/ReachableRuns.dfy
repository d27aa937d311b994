/** What can be reached in the gossip of any number of servers.
    Every server can send at any moment, having handled a new message
    and put it into its draft. Every server can take a rumor that is
    next in line for it and leave all its messages for later.
    It serves to exhibit runs. */
module ReachableRuns {
  import opened Basics
  import opened RumorTables
  import opened RumorInvariant
  import opened RumorSteps
  import opened Gossip
  import opened AntiEntropy
  import B = CausalBroadcast

  // ---------- Extending a run ----------

  function Last(run: seq<System>): System
    requires run != []
  {
    run[|run| - 1]
  }

  /** Some run leads here. */
  ghost predicate Reached(s: System) {
    exists run :: IsRun(run) && Last(run) == s
  }

  lemma OneMore(s: System, step: Step, s': System)
    requires Reached(s) && Taken(s, step, s')
    ensures Reached(s')
  {
    var run :| IsRun(run) && Last(run) == s;
    var longer := run + [s'];
    forall i | 0 <= i < |longer| - 1
      ensures NextAt(longer, i)
    {
      if i < |run| - 1 {
        assert NextAt(run, i);
      }
    }
    assert Last(longer) == s';
  }

  /** Server p is in order, has finished exactly these rumors, and fills its rumor `id`. */
  ghost predicate Stands(s: System, p: Sender, finished: set<Key>, id: int) {
    p in s.nodes && s.nodes[p].t.me == p && Valid(s.nodes[p].t) &&
    Finished(s.nodes[p].t) == finished && Draft(s.nodes[p].t) == Key(id, p)
  }

  ghost predicate Holds(s: System, p: Sender, k: Key, ts: Timestamp) {
    p in s.nodes && k in s.nodes[p].t.rumor && s.nodes[p].t.rumor[k] == Json(ts)
  }

  ghost predicate StampsStay(t: Tables, t': Tables)
    requires HasDraft(t) && HasDraft(t')
  {
    forall k :: k in Finished(t) ==> k in t'.rumor && t'.rumor[k] == t.rumor[k]
  }

  /** Only p may have changed, and it has kept what it had finished. */
  ghost predicate OnlyAt(p: Sender, s: System, s': System) {
    s'.nodes.Keys == s.nodes.Keys && s.net <= s'.net && p in s.nodes &&
    (forall q :: q in s.nodes && q != p ==> s'.nodes[q] == s.nodes[q]) &&
    HasDraft(s.nodes[p].t) && HasDraft(s'.nodes[p].t) && StampsStay(s.nodes[p].t, s'.nodes[p].t)
  }

  lemma {:induction false} LongerThanAll(s: set<string>) returns (n: nat)
    ensures forall x :: x in s ==> |x| <= n
  {
    if s == {} {
      n := 0;
    } else {
      var x: string :| x in s;
      var m := LongerThanAll(s - {x});
      n := if |x| > m then |x| else m;
      forall y | y in s ensures |y| <= n { assert y == x || y in s - {x}; }
    }
  }

  lemma NewMessage(s: set<string>) returns (m: string)
    ensures m !in s
  {
    var n := LongerThanAll(s);
    m := seq(n + 1, _ => 'm');
  }

  // ---------- Sending ----------

  /** A message not seen before can be handled and put into the draft. */
  lemma FilledDraft(t: Tables, m: MsgId) returns (t1: Tables, t2: Tables)
    requires Valid(t) && m !in t.message
    ensures StoreMessage(t, Post("", m)) == Some(t1) && HasDraft(t1) && OnBase(t1, m)
    ensures AddMessage(t1, m) == Some(t2) && Valid(t2) && Preserves(t, t2)
    ensures Finished(t2) == Finished(t) && Draft(t2) == Draft(t) && m in DraftMsgs(t2)
  {
    var post := Post("", m);
    var moved := RelsOf(t.unprocessedMessageRumor, m);
    assert moved * t.messageRumor == {};
    t1 := StoreMessage(t, post).value;
    StoreMessageKeeps(t, post, t1);
    DraftKept(t, t1);
    assert Rel(m, Draft(t1)) !in t1.messageRumor by {
      assert forall r :: r in t.messageRumor ==> r.key in t.rumor && OnBase(t, r.msg);
      assert forall r :: r in t.unprocessedMessageRumor ==> r.key in Finished(t);
    }
    t2 := AddMessage(t1, m).value;
    AddMessageKeeps(t1, m, t2);
    DraftKept(t1, t2);
    assert post in ProcessedRows(t2, Draft(t2));
  }

  /** The tables of a server that handles a new message, puts it into the draft and sends. */
  lemma SentTables(t: Tables, ts: Timestamp) returns (m: MsgId, t1: Tables, t2: Tables, t3: Tables)
    requires Valid(t) && forall s :: s in ts ==> 0 <= ts[s]
    requires forall k: Key :: k in Finished(t) <==> InPast(k, ts)
    ensures StoreMessage(t, Post("", m)) == Some(t1) && HasDraft(t1) && OnBase(t1, m)
    ensures AddMessage(t1, m) == Some(t2) && HasDraft(t2) && DraftMsgs(t2) != {}
    ensures FreezeDraft(t2) == Some(t3) && Valid(t3) && t3.me == t.me && Draft(t3) == Key(Draft(t).id + 1, t.me)
    ensures Finished(t3) == Finished(t) + {Draft(t)} && t3.rumor[Draft(t)] == Json(ts) && StampsStay(t, t3)
    ensures Draft(t2) == Draft(t) && Vector(t2) == ts
  {
    m := NewMessage(t.message);
    t1, t2 := FilledDraft(t, m);
    FreezeSucceeds(t2);
    t3 := FreezeDraft(t2).value;
    FreezeKeeps(t2, t3);
    FreezeRumors(t2, t3);
    VectorFromFinished(t2, ts);
  }

  lemma OnlyHere(p: Sender, s: System, n: Node, s': System)
    requires p in s.nodes && s'.nodes == s.nodes[p := n] && s.net <= s'.net
    requires HasDraft(s.nodes[p].t) && HasDraft(n.t) && StampsStay(s.nodes[p].t, n.t)
    ensures OnlyAt(p, s, s')
  {
  }

  ghost predicate Sent(s: System, k: Key, ts: Timestamp) {
    exists r :: r in s.net && r.key == k && r.ts == ts
  }

  ghost function AfterSend(s: System, p: Sender, t2: Tables, t3: Tables): System
    requires p in s.nodes && HasDraft(t2)
  {
    System(s.nodes[p := s.nodes[p].(t := t3)], s.net + {Broadcast(t2)}, s.log + [Broadcast(t2)])
  }

  lemma HandleTaken(s: System, p: Sender, m: MsgId, t1: Tables)
    requires p in s.nodes && HasDraft(s.nodes[p].t) && StoreMessage(s.nodes[p].t, Post("", m)) == Some(t1)
    ensures Taken(s, Handle(p, Post("", m)), With(s, p, s.nodes[p].(t := t1)))
  {
  }

  lemma PublishTaken(s: System, p: Sender, m: MsgId, t1: Tables, t2: Tables)
    requires p in s.nodes && HasDraft(t1) && OnBase(t1, m) && AddMessage(t1, m) == Some(t2)
    ensures var n := s.nodes[p];
      Taken(With(s, p, n.(t := t1)), Publish(p, m), With(s, p, n.(t := t2)))
  {
    var n := s.nodes[p];
    assert With(s, p, n.(t := t2)) == With(With(s, p, n.(t := t1)), p, n.(t := t2));
  }

  lemma SendTaken(s: System, p: Sender, t2: Tables, t3: Tables)
    requires p in s.nodes && HasDraft(t2) && DraftMsgs(t2) != {} && FreezeDraft(t2) == Some(t3)
    ensures Taken(With(s, p, s.nodes[p].(t := t2)), Send(p), AfterSend(s, p, t2, t3))
  {
    var n := s.nodes[p];
    assert s.nodes[p := n.(t := t2)][p := n.(t := t3)] == s.nodes[p := n.(t := t3)];
  }

  /** In any state of any run a server can send: its next rumor, with the vector of what it has finished. */
  lemma CanSend(s: System, p: Sender, finished: set<Key>, id: int, ts: Timestamp) returns (s': System)
    requires Reached(s) && Stands(s, p, finished, id)
    requires forall s :: s in ts ==> 0 <= ts[s]
    requires forall k: Key :: k in finished <==> InPast(k, ts)
    ensures Reached(s') && OnlyAt(p, s, s')
    ensures Stands(s', p, finished + {Key(id, p)}, id + 1)
    ensures Holds(s', p, Key(id, p), ts) && Sent(s', Key(id, p), ts)
  {
    var m, t1, t2, t3 := SentTables(s.nodes[p].t, ts);
    s' := AfterSend(s, p, t2, t3);
    SendReached(s, p, m, t1, t2, t3);
    SendStands(s, p, finished, id, ts, t2, t3);
  }

  lemma SendReached(s: System, p: Sender, m: MsgId, t1: Tables, t2: Tables, t3: Tables)
    requires Reached(s) && p in s.nodes && HasDraft(s.nodes[p].t)
    requires StoreMessage(s.nodes[p].t, Post("", m)) == Some(t1) && HasDraft(t1) && OnBase(t1, m)
    requires AddMessage(t1, m) == Some(t2) && HasDraft(t2) && DraftMsgs(t2) != {} && FreezeDraft(t2) == Some(t3)
    ensures Reached(AfterSend(s, p, t2, t3))
  {
    var n := s.nodes[p];
    var s1, s2 := With(s, p, n.(t := t1)), With(s, p, n.(t := t2));
    HandleTaken(s, p, m, t1);
    PublishTaken(s, p, m, t1, t2);
    SendTaken(s, p, t2, t3);
    OneMore(s, Handle(p, Post("", m)), s1);
    OneMore(s1, Publish(p, m), s2);
    OneMore(s2, Send(p), AfterSend(s, p, t2, t3));
  }

  lemma SendStands(s: System, p: Sender, finished: set<Key>, id: int, ts: Timestamp, t2: Tables, t3: Tables)
    requires Stands(s, p, finished, id) && HasDraft(t2) && Draft(t2) == Key(id, p) && Vector(t2) == ts
    requires Valid(t3) && t3.me == p && Draft(t3) == Key(id + 1, p) && Finished(t3) == finished + {Key(id, p)}
    requires t3.rumor[Key(id, p)] == Json(ts) && StampsStay(s.nodes[p].t, t3)
    ensures var s' := AfterSend(s, p, t2, t3);
      OnlyAt(p, s, s') && Stands(s', p, finished + {Key(id, p)}, id + 1) && Holds(s', p, Key(id, p), ts) &&
        Sent(s', Key(id, p), ts)
  {
    var s' := AfterSend(s, p, t2, t3);
    OnlyHere(p, s, s.nodes[p].(t := t3), s');
    assert Broadcast(t2) in s'.net;
  }

  // ---------- Receiving ----------

  lemma {:induction false} Posts(ms: set<MsgId>) returns (posts: seq<Post>)
    ensures DistinctMsgs(posts) && MsgsOf(posts) == ms
  {
    if ms == {} {
      posts := [];
    } else {
      var m: MsgId :| m in ms;
      var rest := Posts(ms - {m});
      posts := [Post("", m)] + rest;
      assert forall i :: 1 <= i < |posts| ==> posts[i] == rest[i - 1] && posts[i].msg in MsgsOf(rest);
      forall x ensures x in MsgsOf(posts) <==> x in ms {
        if x in MsgsOf(rest) {
          var i :| 0 <= i < |rest| && rest[i].msg == x;
          assert posts[i + 1].msg == x;
        }
        assert posts[0].msg == m;
      }
    }
  }

  /** The tables of a server that takes a rumor whose past it has, all of it left for later. */
  lemma TakenTables(t: Tables, r: Rumor) returns (posts: seq<Post>, t': Tables)
    requires Valid(t) && B.StampOk(r) && r.key.sender != t.me && r.key !in Finished(t)
    requires forall k: Key :: InPast(k, r.ts) ==> k in Finished(t)
    ensures NextInLine(r.key, r.ts, Vector(t)) && Splits(t, r, posts, [])
    ensures StoreRumor(t, r.key, r.ts, posts, []) == Some(t') && Valid(t') && t'.me == t.me
    ensures Finished(t') == Finished(t) + {r.key} && Draft(t') == Draft(t)
    ensures t'.rumor[r.key] == Json(r.ts) && StampsStay(t, t')
  {
    posts := Posts(r.msgs);
    var none: seq<MsgId> := [];
    assert (set m | m in none) == {};
    t' := FirstAccepted(t, Delivery(r, posts, none));
    DraftKept(t, t');
  }

  lemma CheckTaken(s: System, p: Sender, r: Rumor)
    requires p in s.nodes && HasDraft(s.nodes[p].t) && r in s.net && NextInLine(r.key, r.ts, Vector(s.nodes[p].t))
    ensures Taken(s, Check(p, r), With(s, p, s.nodes[p].(pending := s.nodes[p].pending + {r})))
  {
  }

  lemma StoreTaken(s: System, p: Sender, r: Rumor, posts: seq<Post>, t': Tables)
    requires p in s.nodes && HasDraft(s.nodes[p].t) && Splits(s.nodes[p].t, r, posts, [])
    requires StoreRumor(s.nodes[p].t, r.key, r.ts, posts, []) == Some(t')
    ensures var n := s.nodes[p];
      Taken(With(s, p, n.(pending := n.pending + {r})), Store(p, r, posts, []),
            With(s, p, Node(t', n.pending + {r} - {r})))
  {
    var n := s.nodes[p];
    var n1, n2 := n.(pending := n.pending + {r}), Node(t', n.pending + {r} - {r});
    assert Stored(n1, r, posts, []) == n2;
    assert With(With(s, p, n1), p, n2) == With(s, p, n2);
  }

  /** A server can take a rumor of the network that is next in line. */
  lemma CanReceive(s: System, p: Sender, finished: set<Key>, id: int, r: Rumor) returns (s': System)
    requires Reached(s) && Stands(s, p, finished, id) && r in s.net
    requires B.StampOk(r) && r.key.sender != p && r.key !in finished
    requires forall k: Key :: InPast(k, r.ts) ==> k in finished
    ensures Reached(s') && OnlyAt(p, s, s')
    ensures Stands(s', p, finished + {r.key}, id) && Holds(s', p, r.key, r.ts)
  {
    var n := s.nodes[p];
    var posts, t' := TakenTables(n.t, r);
    var s1 := With(s, p, n.(pending := n.pending + {r}));
    s' := With(s, p, Node(t', n.pending + {r} - {r}));
    CheckTaken(s, p, r);
    StoreTaken(s, p, r, posts, t');
    OneMore(s, Check(p, r), s1);
    OneMore(s1, Store(p, r, posts, []), s');
    OnlyHere(p, s, s'.nodes[p], s');
  }

  // ---------- Many rumors ----------

  function Upto(s: Sender, n: int): set<Key> {
    set i | 0 <= i < n :: Key(i, s)
  }

  /** The stamp of rumor i of a server that has heard nothing. */
  function Own(s: Sender, i: nat): Timestamp {
    if i == 0 then map[] else map[s := i - 1]
  }

  lemma OwnCounts(s: Sender, i: nat)
    ensures forall k: Key :: InPast(k, Own(s, i)) <==> k in Upto(s, i)
    ensures B.StampOk(B.Rumor(Key(i, s), Own(s, i), {}))
  {
    forall k: Key ensures InPast(k, Own(s, i)) <==> k in Upto(s, i) {
      assert k in Upto(s, i) <==> k.sender == s && 0 <= k.id < i by {
        if k.sender == s && 0 <= k.id < i { assert k == Key(k.id, s); }
      }
    }
  }

  lemma UptoNext(s: Sender, n: nat)
    ensures Upto(s, n + 1) == Upto(s, n) + {Key(n, s)} && Key(n, s) !in Upto(s, n)
  {
    forall k ensures k in Upto(s, n + 1) <==> k in Upto(s, n) + {Key(n, s)} {
      if k in Upto(s, n) + {Key(n, s)} { assert k == Key(k.id, s) && 0 <= k.id < n + 1; }
    }
  }

  /** Its first rumors, one after the other. */
  ghost predicate Broadcasts(s: System, q: Sender, n: nat) {
    forall i: nat {:trigger Own(q, i)} :: i < n ==> Sent(s, Key(i, q), Own(q, i))
  }

  ghost predicate HoldsFirst(s: System, p: Sender, q: Sender, n: nat) {
    forall i: nat {:trigger Own(q, i)} :: i < n ==> Holds(s, p, Key(i, q), Own(q, i))
  }

  /** From s to s' only p has changed, and has not lost what it had finished. */
  ghost predicate Later(p: Sender, s: System, s': System) {
    OnlyAt(p, s, s') && Finished(s.nodes[p].t) <= Finished(s'.nodes[p].t)
  }

  lemma LaterTwice(p: Sender, a: System, b: System, c: System)
    requires Later(p, a, b) && Later(p, b, c)
    ensures Later(p, a, c)
  {
  }

  lemma LaterNow(p: Sender, s: System, finished: set<Key>, id: int)
    requires Stands(s, p, finished, id)
    ensures Later(p, s, s)
  {
  }

  lemma LaterBy(p: Sender, s: System, finished: set<Key>, id: int, s': System, more: set<Key>, id': int)
    requires OnlyAt(p, s, s') && Stands(s, p, finished, id) && Stands(s', p, more, id') && finished <= more
    ensures Later(p, s, s')
  {
  }

  lemma StandsElsewhere(p: Sender, s: System, s': System, q: Sender, finished: set<Key>, id: int)
    requires Later(p, s, s') && q != p && Stands(s, q, finished, id)
    ensures Stands(s', q, finished, id)
  {
  }

  lemma HeldElsewhere(p: Sender, s: System, s': System, q: Sender, r: Sender, n: nat)
    requires Later(p, s, s') && q != p && HoldsFirst(s, q, r, n)
    ensures HoldsFirst(s', q, r, n)
  {
    forall i: nat | i < n ensures Holds(s', q, Key(i, r), Own(r, i)) {
      assert Holds(s, q, Key(i, r), Own(r, i));
    }
  }

  lemma SentStay(p: Sender, s: System, s': System, q: Sender, n: nat)
    requires Later(p, s, s') && Broadcasts(s, q, n)
    ensures Broadcasts(s', q, n)
  {
    forall i: nat | i < n ensures Sent(s', Key(i, q), Own(q, i)) {
      assert Sent(s, Key(i, q), Own(q, i));
      var r :| r in s.net && r.key == Key(i, q) && r.ts == Own(q, i);
      assert r in s'.net;
    }
  }

  lemma HeldStay(p: Sender, s: System, s': System, finished: set<Key>, id: int, q: Sender, n: nat)
    requires Later(p, s, s') && HoldsFirst(s, p, q, n) && Stands(s, p, finished, id) && Upto(q, n) <= finished
    ensures HoldsFirst(s', p, q, n)
  {
    forall i: nat | i < n ensures Holds(s', p, Key(i, q), Own(q, i)) {
      assert Holds(s, p, Key(i, q), Own(q, i)) && Key(i, q) in Upto(q, n);
    }
  }

  lemma OneMoreHeld(s: System, p: Sender, q: Sender, n: nat)
    requires HoldsFirst(s, p, q, n) && Holds(s, p, Key(n, q), Own(q, n))
    ensures HoldsFirst(s, p, q, n + 1)
  {
  }

  lemma OneMoreSent(s: System, q: Sender, n: nat)
    requires Broadcasts(s, q, n) && Sent(s, Key(n, q), Own(q, n))
    ensures Broadcasts(s, q, n + 1)
  {
  }

  lemma {:induction false} SendMany(s: System, p: Sender, n: nat) returns (s': System)
    requires Reached(s) && Stands(s, p, {}, 0)
    ensures Reached(s') && Later(p, s, s') && Stands(s', p, Upto(p, n), n)
    ensures HoldsFirst(s', p, p, n) && Broadcasts(s', p, n)
  {
    if n == 0 {
      s' := s;
      assert Upto(p, 0) == {};
      LaterNow(p, s, {}, 0);
    } else {
      var m := n - 1;
      var before := SendMany(s, p, m);
      OwnCounts(p, m);
      UptoNext(p, m);
      s' := CanSend(before, p, Upto(p, m), m, Own(p, m));
      LaterBy(p, before, Upto(p, m), m, s', Upto(p, n), n);
      LaterTwice(p, s, before, s');
      HeldStay(p, before, s', Upto(p, m), m, p, m);
      SentStay(p, before, s', p, m);
      OneMoreHeld(s', p, p, m);
      OneMoreSent(s', p, m);
    }
  }

  lemma TheRumor(s: System, q: Sender, n: nat, i: nat) returns (r: Rumor)
    requires Broadcasts(s, q, n) && i < n
    ensures r in s.net && r.key == Key(i, q) && r.ts == Own(q, i) && B.StampOk(r)
    ensures forall k: Key :: InPast(k, r.ts) ==> k in Upto(q, i)
  {
    OwnCounts(q, i);
    assert Sent(s, Key(i, q), Own(q, i));
    r :| r in s.net && r.key == Key(i, q) && r.ts == Own(q, i);
  }

  lemma UptoIsOf(q: Sender, n: nat)
    ensures forall k :: k in Upto(q, n) ==> k.sender == q
  {
  }

  lemma {:induction false} ReceiveMany(s: System, p: Sender, finished: set<Key>, id: int, q: Sender, n: nat)
    returns (s': System)
    requires Reached(s) && Stands(s, p, finished, id) && p != q && Broadcasts(s, q, n)
    requires forall k :: k in finished ==> k.sender != q
    ensures Reached(s') && Later(p, s, s') && Stands(s', p, finished + Upto(q, n), id)
    ensures HoldsFirst(s', p, q, n)
  {
    if n == 0 {
      s' := s;
      assert finished + Upto(q, 0) == finished;
      LaterNow(p, s, finished, id);
    } else {
      var m := n - 1;
      var before := ReceiveMany(s, p, finished, id, q, m);
      var had := finished + Upto(q, m);
      SentStay(p, s, before, q, n);
      UptoNext(q, m);
      var r := TheRumor(before, q, n, m);
      s' := CanReceive(before, p, had, id, r);
      assert finished + Upto(q, n) == had + {r.key};
      LaterBy(p, before, had, id, s', had + {r.key}, id);
      LaterTwice(p, s, before, s');
      HeldStay(p, before, s', had, id, q, m);
      OneMoreHeld(s', p, q, m);
    }
  }

  lemma Beginning(nodes: set<Sender>) returns (s: System)
    ensures Reached(s) && s.nodes.Keys == nodes
    ensures forall p :: p in nodes ==> Stands(s, p, {}, 0)
  {
    s := System(map p | p in nodes :: Node(StoreFirstRumor(EmptyTables(p)), {}), {}, []);
    JustThis(s);
    forall p | p in nodes ensures Stands(s, p, {}, 0) {
      JustStartedStands(p);
    }
  }

  lemma JustThis(s: System)
    requires Init(s)
    ensures Reached(s)
  {
    assert IsRun([s]) && Last([s]) == s;
  }

  lemma JustStartedStands(p: Sender)
    ensures var t := StoreFirstRumor(EmptyTables(p));
      t.me == p && Valid(t) && Finished(t) == {} && Draft(t) == Key(0, p)
  {
    FirstStartIsValid(p);
    var t := StoreFirstRumor(EmptyTables(p));
    HasIds(t.rumor, Key(0, p));
    StateIsMax(t.rumor, Key(0, p));
  }

  lemma Fewer(q: Sender, n: nat, m: nat, s: System)
    requires Broadcasts(s, q, n) && m <= n
    ensures Broadcasts(s, q, m)
  {
  }
}
