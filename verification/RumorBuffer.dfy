/** Rumors that came too early wait in a buffer, from handler/method/rumor/hrumor/buffer.go.
    After a rumor is stored, the first entry that seems valid is taken out and checked
    again, and the check may drop it. */
module RumorBuffer {
  import opened Basics
  import opened RumorTables
  import opened RumorInvariant
  import opened Gossip
  import opened ReachableRuns
  import B = CausalBroadcast

  /** RumorTimestamp.IsValid; a sender that is absent reads as 0. */
  predicate IsValid(state: Timestamp, other: Timestamp) {
    forall s :: s in other ==> if s in state then other[s] <= state[s] else other[s] == 0
  }

  method CheckIsValid(state: Timestamp, other: Timestamp) returns (ok: bool)
    ensures ok <==> IsValid(state, other)
  {
    var todo := other.Keys;
    while todo != {}
      invariant todo <= other.Keys
      invariant forall s :: s in other && s !in todo ==> if s in state then other[s] <= state[s] else other[s] == 0
      decreases |todo|
    {
      var s :| s in todo;
      if s !in state && other[s] != 0 { return false; }
      if (if s in state then state[s] else 0) < other[s] { return false; }
      todo := todo - {s};
    }
    ok := true;
  }

  ghost predicate Distinct(queue: seq<Rumor>) {
    forall i, j :: 0 <= i < j < |queue| ==> queue[i].key != queue[j].key
  }

  ghost predicate Queued(queue: seq<Rumor>, k: Key) {
    exists i :: 0 <= i < |queue| && queue[i].key == k
  }

  /** The queue without the entry at place i. */
  function WithoutAt(queue: seq<Rumor>, i: nat): seq<Rumor>
    requires i < |queue|
  {
    queue[..i] + queue[i + 1..]
  }

  lemma WithoutAtQueued(queue: seq<Rumor>, i: nat, k: Key)
    requires i < |queue| && Distinct(queue)
    ensures Distinct(WithoutAt(queue, i))
    ensures Queued(WithoutAt(queue, i), k) <==> Queued(queue, k) && k != queue[i].key
  {
    var rest := WithoutAt(queue, i);
    if Queued(queue, k) && k != queue[i].key {
      var j :| 0 <= j < |queue| && queue[j].key == k;
      assert rest[if j < i then j else j - 1].key == k;
    }
    if Queued(rest, k) {
      var j :| 0 <= j < |rest| && rest[j].key == k;
      assert queue[if j < i then j else j + 1].key == k;
    }
  }

  lemma SameQueued(a: seq<Rumor>, b: seq<Rumor>, k: Key)
    requires multiset(a) == multiset(b) && Queued(a, k)
    ensures Queued(b, k)
  {
    var i :| 0 <= i < |a| && a[i].key == k;
    assert a[i] in multiset(b);
  }

  class Buffer {
    var queue: seq<Rumor>
    var senderIDs: set<Key>

    ghost predicate Valid()
      reads this
    {
      Distinct(queue) && forall k :: k in senderIDs <==> Queued(queue, k)
    }

    constructor ()
      ensures Valid() && queue == [] && senderIDs == {}
    {
      queue, senderIDs := [], {};
    }

    /** sort.Slice is called with an order it does not support, so that `sorted` can be any arrangement. */
    method Insert(r: Rumor, sorted: seq<Rumor>) returns (ok: bool)
      requires Valid() && multiset(sorted) == multiset(queue + [r])
      modifies this
      ensures Valid() && (ok <==> r.key !in old(senderIDs))
      ensures ok ==> queue == sorted && senderIDs == old(senderIDs) + {r.key}
      ensures !ok ==> queue == old(queue) && senderIDs == old(senderIDs)
    {
      if r.key in senderIDs { return false; }
      InsertedValid(queue, r, sorted);
      queue := sorted;
      senderIDs := senderIDs + {r.key};
      ok := true;
    }

    /** Also what the timer of an entry does. */
    method DeleteEntry(k: Key)
      requires Valid()
      modifies this
      ensures Valid() && senderIDs == old(senderIDs) - {k}
      ensures k !in old(senderIDs) ==> queue == old(queue)
      ensures forall i: nat :: i < |old(queue)| && old(queue)[i].key == k ==> queue == WithoutAt(old(queue), i)
    {
      var i := 0;
      while i < |queue| && queue[i].key != k
        invariant i <= |queue|
        invariant forall j :: 0 <= j < i ==> queue[j].key != k
      {
        i := i + 1;
      }
      if i < |queue| {
        forall j
          ensures Queued(WithoutAt(queue, i), j) <==> Queued(queue, j) && j != k
        {
          WithoutAtQueued(queue, i, j);
        }
        WithoutAtQueued(queue, i, k);
        queue := WithoutAt(queue, i);
      }
      senderIDs := senderIDs - {k};
    }

    /** Takes out the first entry that the state seems to allow. */
    method GetNextRumorParams(state: Timestamp) returns (next: Option<Rumor>)
      requires Valid()
      modifies this
      ensures Valid()
      ensures next.None? ==> queue == old(queue) && forall r :: r in queue ==> !IsValid(state, r.ts)
      ensures next.Some? ==>
                exists i: nat :: FirstValid(old(queue), state, i) && next.value == old(queue)[i] &&
                                 queue == WithoutAt(old(queue), i)
    {
      ghost var was := queue;
      for i := 0 to |queue|
        invariant queue == was && Valid()
        invariant forall j :: 0 <= j < i ==> !IsValid(state, was[j].ts)
      {
        var param := queue[i];
        var ok := CheckIsValid(state, param.ts);
        if ok {
          assert FirstValid(was, state, i) && Queued(was, param.key);
          DeleteEntry(param.key);
          return Some(param);
        }
      }
      next := None;
    }
  }

  ghost predicate FirstValid(queue: seq<Rumor>, state: Timestamp, i: nat) {
    i < |queue| && IsValid(state, queue[i].ts) && forall j :: 0 <= j < i ==> !IsValid(state, queue[j].ts)
  }

  lemma InsertedValid(queue: seq<Rumor>, r: Rumor, sorted: seq<Rumor>)
    requires Distinct(queue) && !Queued(queue, r.key) && multiset(sorted) == multiset(queue + [r])
    ensures Distinct(sorted)
    ensures forall k :: Queued(sorted, k) <==> Queued(queue, k) || k == r.key
  {
    var longer := queue + [r];
    assert Distinct(longer);
    forall k ensures Queued(sorted, k) <==> Queued(queue, k) || k == r.key {
      if Queued(sorted, k) { SameQueued(sorted, longer, k); }
      if Queued(queue, k) { var i :| 0 <= i < |queue| && queue[i].key == k; assert longer[i].key == k; }
      assert longer[|queue|].key == r.key;
      if Queued(longer, k) { SameQueued(longer, sorted, k); }
    }
    DistinctStays(longer, sorted);
  }

  lemma DistinctStays(a: seq<Rumor>, b: seq<Rumor>)
    requires Distinct(a) && multiset(a) == multiset(b)
    ensures Distinct(b)
  {
    NoDupPermuted(a, b);
    forall i, j | 0 <= i < j < |b|
      ensures b[i].key != b[j].key
    {
      assert b[i] in a && b[j] in a;
      assert b[i] != b[j];
    }
  }

  // ---------- What becomes of a rumor taken out ----------

  /** A rumor that is next in line is always taken for valid, so that none is passed over. */
  lemma NextIsValid(my: Timestamp, r: Rumor)
    requires B.StampOk(r) && NextInLine(r.key, r.ts, my)
    ensures IsValid(my, r.ts)
  {
  }

  /** A rumor taken out is checked again, and dropped without being put back if that fails. It fails for a
      rumor that was stored meanwhile, and for one that counts the first rumor of some sender and nothing
      after it while the server has nothing of that sender; for no other. */
  lemma DroppedExactly(run: seq<System>, i: nat, p: Sender, r: Rumor)
    requires IsRun(run) && i < |run| && p in run[i].nodes && HasDraft(run[i].nodes[p].t)
    requires r in run[i].net && IsValid(Vector(run[i].nodes[p].t), r.ts)
    ensures !NextInLine(r.key, r.ts, Vector(run[i].nodes[p].t)) <==>
            r.key in Finished(run[i].nodes[p].t) || LacksFirst(run[i].nodes[p].t, r.ts)
  {
    var v := Reachable(run, i);
    B.LoggedStampOk(v.log, r);
    assert NodeSeen(p, run[i].nodes[p], v.sites[p]);
    DroppedFromTables(run[i].nodes[p].t, r);
  }

  ghost predicate LacksFirst(t: Tables, ts: Timestamp)
    requires HasDraft(t)
  {
    exists s :: s in ts && ts[s] == 0 && Key(0, s) !in Finished(t)
  }

  lemma DroppedFromTables(t: Tables, r: Rumor)
    requires HasDraft(t) && RumorInvariant.Valid(t) && B.StampOk(r) && IsValid(Vector(t), r.ts)
    ensures !NextInLine(r.key, r.ts, Vector(t)) <==> r.key in Finished(t) || LacksFirst(t, r.ts)
  {
    var my := Vector(t);
    VectorExact(t, r.key);
    forall s ensures Key(0, s) in Finished(t) <==> s in my {
      VectorExact(t, Key(0, s));
    }
  }

  // ---------- A run that drops one ----------

  ghost predicate Apart(w: Sender, x: Sender, y: Sender, z: Sender) {
    w != x && w != y && w != z && x != y && x != z && y != z
  }

  lemma FourServers(w: Sender, x: Sender, y: Sender, z: Sender) returns (s: System)
    ensures Reached(s) && Stands(s, w, {}, 0) && Stands(s, x, {}, 0) && Stands(s, y, {}, 0) && Stands(s, z, {}, 0)
  {
    s := Beginning({w, x, y, z});
  }

  /** x has sent its first rumor. */
  lemma OneSpoke(w: Sender, x: Sender, y: Sender, z: Sender) returns (s: System)
    requires Apart(w, x, y, z)
    ensures Reached(s) && Broadcasts(s, x, 1) && Stands(s, w, {}, 0) && Stands(s, y, {}, 0) && Stands(s, z, {}, 0)
  {
    var s0 := FourServers(w, x, y, z);
    s := SendMany(s0, x, 1);
    StandsElsewhere(x, s0, s, w, {}, 0);
    StandsElsewhere(x, s0, s, y, {}, 0);
    StandsElsewhere(x, s0, s, z, {}, 0);
  }

  /** Then y has heard it. */
  lemma OneHeard(w: Sender, x: Sender, y: Sender, z: Sender) returns (s: System)
    requires Apart(w, x, y, z)
    ensures Reached(s) && Stands(s, y, Upto(x, 1), 0) && Stands(s, w, {}, 0) && Stands(s, z, {}, 0)
  {
    var s1 := OneSpoke(w, x, y, z);
    s := ReceiveMany(s1, y, {}, 0, x, 1);
    assert {} + Upto(x, 1) == Upto(x, 1);
    StandsElsewhere(y, s1, s, w, {}, 0);
    StandsElsewhere(y, s1, s, z, {}, 0);
  }

  /** Then w has sent its first. */
  lemma TwoSpoke(w: Sender, x: Sender, y: Sender, z: Sender) returns (s: System)
    requires Apart(w, x, y, z)
    ensures Reached(s) && Broadcasts(s, w, 1) && Stands(s, y, Upto(x, 1), 0) && Stands(s, z, {}, 0)
  {
    var s2 := OneHeard(w, x, y, z);
    s := SendMany(s2, w, 1);
    StandsElsewhere(w, s2, s, y, Upto(x, 1), 0);
    StandsElsewhere(w, s2, s, z, {}, 0);
  }

  /** Then z hears the one of w, and y sends its own first. */
  lemma ThreeSpoke(w: Sender, x: Sender, y: Sender, z: Sender) returns (s: System)
    requires Apart(w, x, y, z)
    ensures Reached(s) && Stands(s, z, Upto(w, 1), 0) && Sent(s, Key(0, y), Own(x, 1))
  {
    var s3 := TwoSpoke(w, x, y, z);
    var s4 := ReceiveMany(s3, z, {}, 0, w, 1);
    assert {} + Upto(w, 1) == Upto(w, 1);
    StandsElsewhere(z, s3, s4, y, Upto(x, 1), 0);
    OwnCounts(x, 1);
    s := CanSend(s4, y, Upto(x, 1), 0, Own(x, 1));
    LaterBy(y, s4, Upto(x, 1), 0, s, Upto(x, 1) + {Key(0, y)}, 1);
    StandsElsewhere(y, s4, s, z, Upto(w, 1), 0);
  }

  /** It does happen: a server that has just stored a rumor of w takes the first rumor of y out of the
      buffer, which counts one of x that has not come, and drops it. */
  lemma SomeIsDropped(w: Sender, x: Sender, y: Sender, z: Sender) returns (run: seq<System>, i: nat, r: Rumor)
    requires Apart(w, x, y, z)
    ensures IsRun(run) && i < |run| && z in run[i].nodes && HasDraft(run[i].nodes[z].t) && r in run[i].net
    ensures Finished(run[i].nodes[z].t) == {Key(0, w)} && r.key !in Finished(run[i].nodes[z].t)
    ensures IsValid(Vector(run[i].nodes[z].t), r.ts) && !NextInLine(r.key, r.ts, Vector(run[i].nodes[z].t))
  {
    var s := ThreeSpoke(w, x, y, z);
    r :| r in s.net && r.key == Key(0, y) && r.ts == Own(x, 1);
    run :| IsRun(run) && Last(run) == s;
    i := |run| - 1;
    assert Upto(w, 1) == {Key(0, w)};
    VectorExact(s.nodes[z].t, Key(0, x));
    assert x !in Vector(s.nodes[z].t);
  }
}
