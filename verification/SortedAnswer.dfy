/** A run in which sorting an answer is not enough.
    Two servers broadcast and a third has heard the
    first rumor of each. The answer it gets has no
    inverted neighbours, and is not accepted throughout. */
module SortedAnswer {
  import opened Basics
  import opened RumorTables
  import opened RumorInvariant
  import opened Gossip
  import opened AntiEntropy
  import opened ReachableRuns
  import B = CausalBroadcast

  /** x has sent three rumors and y two; nobody has heard anything. */
  lemma Spoken(x: Sender, y: Sender, z: Sender) returns (s: System)
    requires x != y && y != z && x != z
    ensures Reached(s) && Broadcasts(s, x, 3) && Broadcasts(s, y, 2)
    ensures Stands(s, x, Upto(x, 3), 3) && HoldsFirst(s, x, x, 3) && Stands(s, z, {}, 0)
  {
    var s0 := Beginning({x, y, z});
    var s1 := SendMany(s0, x, 3);
    StandsElsewhere(x, s0, s1, y, {}, 0);
    StandsElsewhere(x, s0, s1, z, {}, 0);
    s := SendMany(s1, y, 2);
    StandsElsewhere(y, s1, s, x, Upto(x, 3), 3);
    StandsElsewhere(y, s1, s, z, {}, 0);
    HeldElsewhere(y, s1, s, x, x, 3);
    SentStay(y, s1, s, x, 3);
  }

  /** Then x hears both rumors of y, and z the first of each. */
  lemma ThreeServers(x: Sender, y: Sender, z: Sender) returns (s: System)
    requires x != y && y != z && x != z
    ensures Reached(s) && Stands(s, x, Upto(x, 3) + Upto(y, 2), 3) && HoldsFirst(s, x, x, 3) && HoldsFirst(s, x, y, 2)
    ensures Stands(s, z, Upto(x, 1) + Upto(y, 1), 0)
  {
    UptoIsOf(x, 3);
    UptoIsOf(x, 1);
    var s2 := Spoken(x, y, z);
    var s3 := ReceiveMany(s2, x, Upto(x, 3), 3, y, 2);
    HeldStay(x, s2, s3, Upto(x, 3), 3, x, 3);
    SentStay(x, s2, s3, x, 3);
    SentStay(x, s2, s3, y, 2);
    StandsElsewhere(x, s2, s3, z, {}, 0);
    Fewer(x, 3, 1, s3);
    var s4 := ReceiveMany(s3, z, {}, 0, x, 1);
    assert {} + Upto(x, 1) == Upto(x, 1);
    SentStay(z, s3, s4, y, 2);
    Fewer(y, 2, 1, s4);
    s := ReceiveMany(s4, z, Upto(x, 1), 0, y, 1);
    LaterTwice(z, s3, s4, s);
    StandsElsewhere(z, s3, s, x, Upto(x, 3) + Upto(y, 2), 3);
    HeldElsewhere(z, s3, s, x, x, 3);
    HeldElsewhere(z, s3, s, x, y, 2);
  }

  // ---------- The answer ----------

  /** The delivery of a rumor that a server has finished, nothing of it handled. */
  lemma DeliveryOf(t: Tables, u: Tables, k: Key, ts: Timestamp) returns (d: Delivery)
    requires Valid(t) && Valid(u) && k in Finished(u) && k !in Finished(t) && u.rumor[k] == Json(ts)
    ensures Answers(t, u, d) && d.r.key == k && d.r.ts == ts
  {
    var posts := Posts(Content(u, k));
    var none: seq<MsgId> := [];
    assert (set m | m in none) == {};
    d := Delivery(B.Rumor(k, ts, Content(u, k)), posts, none);
  }

  lemma ThreeAreMissing(x: Sender, y: Sender, k: Key)
    requires x != y
    ensures k in Upto(x, 3) + Upto(y, 2) && k !in Upto(x, 1) + Upto(y, 1) <==>
      k == Key(1, x) || k == Key(2, x) || k == Key(1, y)
  {
    if k.sender == x && 0 <= k.id < 3 { assert k == Key(k.id, x); }
    if k.sender == y && 0 <= k.id < 2 { assert k == Key(k.id, y); }
  }

  lemma Incomparable(x: Sender, y: Sender, a: Timestamp, b: Timestamp, c: Timestamp)
    requires x != y && a == map[x := 0] && b == map[y := 0] && c == map[x := 1]
    ensures Before(a, c) && !Before(a, b) && !Before(b, c)
  {
    assert x in a && x in c && y in b && x !in b && y !in c && a[x] != c[x];
  }

  /** The three deliveries answer what is missing. */
  lemma AllThree(t: Tables, u: Tables, x: Sender, y: Sender, a: Delivery, b: Delivery, c: Delivery)
    requires x != y && Valid(t) && Valid(u)
    requires Finished(u) == Upto(x, 3) + Upto(y, 2) && Finished(t) == Upto(x, 1) + Upto(y, 1)
    requires Answers(t, u, a) && Answers(t, u, b) && Answers(t, u, c)
    requires a.r.key == Key(1, x) && b.r.key == Key(1, y) && c.r.key == Key(2, x)
    ensures Missing(t, u, [c, b, a])
  {
    var ds := [c, b, a];
    assert ds[0] == c && ds[1] == b && ds[2] == a;
    forall i, j | 0 <= i < j < |ds| ensures ds[i].r.key != ds[j].r.key {}
    forall k | k in Finished(u) && k !in Finished(t) ensures k in KeysOf(ds) {
      ThreeAreMissing(x, y, k);
      assert k == ds[0].r.key || k == ds[1].r.key || k == ds[2].r.key;
    }
  }

  /** The rumors x has and z lacks, each as a delivery. */
  lemma Answer(s: System, x: Sender, y: Sender, z: Sender) returns (a: Delivery, b: Delivery, c: Delivery)
    requires x != y && x != z && y != z
    requires Stands(s, x, Upto(x, 3) + Upto(y, 2), 3) && HoldsFirst(s, x, x, 3) && HoldsFirst(s, x, y, 2)
    requires Stands(s, z, Upto(x, 1) + Upto(y, 1), 0)
    ensures a.r.key == Key(1, x) && b.r.key == Key(1, y) && c.r.key == Key(2, x)
    ensures a.r.ts == Own(x, 1) && b.r.ts == Own(y, 1) && c.r.ts == Own(x, 2)
    ensures Missing(s.nodes[z].t, s.nodes[x].t, [c, b, a])
  {
    var t, u := s.nodes[z].t, s.nodes[x].t;
    assert Holds(s, x, Key(1, x), Own(x, 1)) && Holds(s, x, Key(2, x), Own(x, 2)) && Holds(s, x, Key(1, y), Own(y, 1));
    ThreeAreMissing(x, y, Key(1, x));
    ThreeAreMissing(x, y, Key(2, x));
    ThreeAreMissing(x, y, Key(1, y));
    a := DeliveryOf(t, u, Key(1, x), Own(x, 1));
    b := DeliveryOf(t, u, Key(1, y), Own(y, 1));
    c := DeliveryOf(t, u, Key(2, x), Own(x, 2));
    AllThree(t, u, x, y, a, b, c);
  }

  /** Some state of some run has an answer of missing rumors that has no inverted neighbours, so that
      an insertion sort by IsBefore leaves it as it is, and that is not accepted throughout. */
  lemma SortedAnswerRejected(x: Sender, y: Sender, z: Sender)
    returns (run: seq<System>, i: nat, ds: seq<Delivery>)
    requires x != y && y != z && x != z
    ensures IsRun(run) && i < |run| && x in run[i].nodes && z in run[i].nodes
    ensures HasDraft(run[i].nodes[x].t) && HasDraft(run[i].nodes[z].t)
    ensures Missing(run[i].nodes[z].t, run[i].nodes[x].t, ds) && NeighboursSorted(ds)
    ensures !Acceptable(run[i].nodes[z].t, ds)
  {
    var s := ThreeServers(x, y, z);
    var a, b, c := Answer(s, x, y, z);
    run :| IsRun(run) && Last(run) == s;
    i := |run| - 1;
    ds := [c, b, a];
    MissingReadable(run, i, z, x, ds);
    RejectedHere(s, x, y, z, a, b, c);
  }

  lemma RejectedHere(s: System, x: Sender, y: Sender, z: Sender, a: Delivery, b: Delivery, c: Delivery)
    requires x != y && x != z && y != z && Stands(s, z, Upto(x, 1) + Upto(y, 1), 0)
    requires a.r.key == Key(1, x) && a.r.ts == Own(x, 1) && b.r.ts == Own(y, 1) && c.r.ts == Own(x, 2)
    requires AllReadable(s.nodes[z].t, [c, b, a])
    ensures NeighboursSorted([c, b, a]) && !Acceptable(s.nodes[z].t, [c, b, a])
  {
    Incomparable(x, y, a.r.ts, b.r.ts, c.r.ts);
    ThreeAreMissing(x, y, Key(1, x));
    assert Key(1, x) in Upto(x, 3);
    InvertedIsRejected(s.nodes[z].t, a, b, c);
  }
}
