/** Anti-entropy: answering a vector with the missing rumors, and when the whole answer is accepted. */
module AntiEntropy {
  import opened Basics
  import opened RumorTables
  import opened RumorInvariant
  import opened RumorSteps
  import opened Gossip
  import B = CausalBroadcast

  /** The selection made when answering a vector picks exactly what its owner lacks. */
  lemma SelectionIsMissing(run: seq<System>, i: nat, p: Sender, k: Key)
    requires IsRun(run) && i < |run| && p in run[i].nodes && HasDraft(run[i].nodes[p].t) && 0 <= k.id
    ensures var state := Vector(run[i].nodes[p].t);
            (k.sender !in state || state[k.sender] < k.id) <==> k !in Finished(run[i].nodes[p].t)
  {
    ReachableVectorExact(run, i, p, k);
  }

  // -------------------------------------------------------------------- progress

  /** Going back in the log from a rumor `q` has and `p` lacks, one is found whose
      causal past `p` holds. */
  lemma {:induction false} EarliestMissing(v: B.State, p: Sender, q: Sender, h: nat) returns (r: Rumor)
    requires B.Inv(v) && p in v.sites && q in v.sites && h < |v.log|
    requires v.log[h].key in v.sites[q].held && v.log[h].key !in v.sites[p].held
    ensures r in v.log && B.StampOk(r)
    ensures r.key in v.sites[q].held && r.key !in v.sites[p].held && B.PastHeld(v.sites[p], r)
    decreases h
  {
    r := v.log[h];
    assert B.StampOk(v.log[h]);
    if j :| InPast(j, r.ts) && j !in v.sites[p].held {
      B.HeldWithPast(v, q, r);
      assert B.SentBefore(v.log, h, j);
      var h' :| 0 <= h' < h && v.log[h'].key == j;
      r := EarliestMissing(v, p, q, h');
    }
  }

  /** If `p` lacks a finished rumor of `q`, some rumor it lacks passes its check now. */
  lemma Progress(run: seq<System>, i: nat, p: Sender, q: Sender, k: Key) returns (r: Rumor)
    requires IsRun(run) && i < |run| && p in run[i].nodes && q in run[i].nodes
    requires HasDraft(run[i].nodes[p].t) && HasDraft(run[i].nodes[q].t)
    requires k in Finished(run[i].nodes[q].t) && k !in Finished(run[i].nodes[p].t)
    ensures r.key in Finished(run[i].nodes[q].t) && r.key !in Finished(run[i].nodes[p].t)
    ensures run[i].nodes[q].t.rumor[r.key] == Json(r.ts)
    ensures NextInLine(r.key, r.ts, Vector(run[i].nodes[p].t))
  {
    HeldIsLogged(run, i, q, k);
    var v := Reachable(run, i);
    var h :| 0 <= h < |v.log| && v.log[h] == RumorOf(run[i].nodes[q].t, k);
    var n, m := run[i].nodes[p], run[i].nodes[q];
    assert NodeSeen(p, n, v.sites[p]) && NodeSeen(q, m, v.sites[q]);
    HeldIsFinished(n.t);
    HeldIsFinished(m.t);
    r := EarliestMissing(v, p, q, h);
    B.HeldWithPast(v, q, r);
    PastMakesNext(n.t, r);
  }

  /** A rumor not stored whose past is stored is next in line. */
  lemma PastMakesNext(t: Tables, r: Rumor)
    requires Valid(t) && B.StampOk(r) && r.key !in Finished(t)
    requires forall j {:trigger InPast(j, r.ts)} :: InPast(j, r.ts) ==> j in Finished(t)
    ensures NextInLine(r.key, r.ts, Vector(t))
  {
    CheckMeansStored(t, r.key, r.ts);
    if r.key.id > 0 {
      assert InPast(Key(r.key.id - 1, r.key.sender), r.ts);
    }
  }

  // ----------------------------------------------------------------- convergence

  /** A rumor as received, its messages sorted into left for later and handled. */
  datatype Delivery = Delivery(r: Rumor, unprocessed: seq<Post>, processed: seq<MsgId>)

  ghost predicate Readable(t: Tables, d: Delivery) {
    && B.StampOk(d.r) && d.r.key.sender != t.me
    && Splits(t, d.r, d.unprocessed, d.processed)
  }

  ghost predicate Among(ds: seq<Delivery>, n: int, k: Key)
    requires n <= |ds|
  {
    exists h :: 0 <= h < n && ds[h].r.key == k
  }

  /** New to `t`, each once, and after everything it counts that `t` lacks. */
  ghost predicate CausalOrder(t: Tables, ds: seq<Delivery>)
    requires HasDraft(t)
  {
    && (forall i {:trigger Readable(t, ds[i])} :: 0 <= i < |ds| ==> Readable(t, ds[i]) && ds[i].r.key !in Finished(t))
    && (forall i, j :: 0 <= i < j < |ds| ==> ds[i].r.key != ds[j].r.key)
    && (forall i, k {:trigger Among(ds, i, k)} :: 0 <= i < |ds| && InPast(k, ds[i].r.ts) && k !in Finished(t) ==>
        Among(ds, i, k))
  }

  ghost predicate Accepts(t: Tables, d: Delivery, t': Tables) {
    && HasDraft(t) && NextInLine(d.r.key, d.r.ts, Vector(t))
    && StoreRumor(t, d.r.key, d.r.ts, d.unprocessed, d.processed) == Some(t')
  }

  /** `chain` are the tables before and after each delivery, all accepted. */
  ghost predicate AllAccepted(t: Tables, ds: seq<Delivery>, chain: seq<Tables>) {
    && |chain| == |ds| + 1 && chain[0] == t
    && forall i {:trigger AcceptedAt(ds, chain, i)} :: 0 <= i < |ds| ==> AcceptedAt(ds, chain, i)
  }

  ghost predicate AcceptedAt(ds: seq<Delivery>, chain: seq<Tables>, i: nat)
    requires i < |ds| && |chain| == |ds| + 1
  {
    Accepts(chain[i], ds[i], chain[i + 1])
  }

  ghost function KeysOf(ds: seq<Delivery>): set<Key> {
    set d | d in ds :: d.r.key
  }

  lemma FirstAccepted(t: Tables, d: Delivery) returns (t': Tables)
    requires Valid(t) && Readable(t, d) && d.r.key !in Finished(t)
    requires forall k {:trigger InPast(k, d.r.ts)} :: InPast(k, d.r.ts) ==> k in Finished(t)
    ensures Accepts(t, d, t')
    ensures Valid(t') && t'.me == t.me && Finished(t') == Finished(t) + {d.r.key}
    ensures t'.message == t.message && t'.channelMessage == t.channelMessage
  {
    PastMakesNext(t, d.r);
    if d.r.key.id > 0 {
      assert InPast(Key(d.r.key.id - 1, d.r.key.sender), d.r.ts);
    }
    assert d.r.key !in t.rumor by {
      StateOf(t.rumor, t.me);
    }
    StoreRumorSucceeds(t, d.r.key, d.r.ts, d.unprocessed, d.processed);
    t' := StoreRumor(t, d.r.key, d.r.ts, d.unprocessed, d.processed).value;
    StoreRumorKeeps(t, d.r.key, d.r.ts, d.unprocessed, d.processed, t');
  }

  lemma StillReadable(t: Tables, t': Tables, d: Delivery)
    requires Readable(t, d) && t'.me == t.me
    requires t'.message == t.message && t'.channelMessage == t.channelMessage
    ensures Readable(t', d)
  {
    assert forall p :: IsBase(t, p) ==> IsBase(t', p);
    assert forall m :: OnBase(t, m) ==> OnBase(t', m);
  }

  lemma RestInOrder(t: Tables, ds: seq<Delivery>, t': Tables)
    requires HasDraft(t) && HasDraft(t') && ds != [] && CausalOrder(t, ds) && t'.me == t.me
    requires Finished(t') == Finished(t) + {ds[0].r.key}
    requires t'.message == t.message && t'.channelMessage == t.channelMessage
    ensures CausalOrder(t', ds[1..])
  {
    forall i | 0 <= i < |ds[1..]|
      ensures Readable(t', ds[1..][i]) && ds[1..][i].r.key !in Finished(t')
    {
      assert Readable(t, ds[i + 1]);
      StillReadable(t, t', ds[i + 1]);
    }
    forall i, k | 0 <= i < |ds[1..]| && InPast(k, ds[1..][i].r.ts) && k !in Finished(t')
      ensures Among(ds[1..], i, k)
    {
      assert Among(ds, i + 1, k);
      var h :| 0 <= h < i + 1 && ds[h].r.key == k;
      assert ds[1..][h - 1].r.key == k;
    }
  }

  lemma FirstInOrder(t: Tables, ds: seq<Delivery>) returns (t': Tables)
    requires Valid(t) && CausalOrder(t, ds) && ds != []
    ensures Accepts(t, ds[0], t')
    ensures Valid(t') && Finished(t') == Finished(t) + {ds[0].r.key}
    ensures CausalOrder(t', ds[1..])
  {
    assert Readable(t, ds[0]);
    forall k | InPast(k, ds[0].r.ts)
      ensures k in Finished(t)
    {
      assert k !in Finished(t) ==> Among(ds, 0, k);
    }
    t' := FirstAccepted(t, ds[0]);
    RestInOrder(t, ds, t');
  }

  /** Every delivery is accepted, and in the end `t` holds them all besides its own. */
  ghost predicate Delivered(t: Tables, ds: seq<Delivery>, chain: seq<Tables>)
    requires HasDraft(t)
  {
    AllAccepted(t, ds, chain) && Valid(chain[|ds|]) && Finished(chain[|ds|]) == Finished(t) + KeysOf(ds)
  }

  lemma DeliveredLonger(t: Tables, ds: seq<Delivery>, t': Tables, rest: seq<Tables>)
    requires HasDraft(t) && HasDraft(t') && ds != [] && Accepts(t, ds[0], t')
    requires Finished(t') == Finished(t) + {ds[0].r.key}
    requires Delivered(t', ds[1..], rest)
    ensures Delivered(t, ds, [t] + rest)
  {
    ChainLonger(t, ds, t', rest);
    assert ([t] + rest)[|ds|] == rest[|ds[1..]|];
    KeysOfNext(ds);
  }

  lemma KeysOfNext(ds: seq<Delivery>)
    requires ds != []
    ensures KeysOf(ds) == {ds[0].r.key} + KeysOf(ds[1..])
  {
    forall d ensures d in ds <==> d == ds[0] || d in ds[1..] {
      assert ds == [ds[0]] + ds[1..];
    }
  }

  /** Rumors delivered in causal order are all accepted, one after the other. */
  lemma {:induction false} DeliverInOrder(t: Tables, ds: seq<Delivery>) returns (chain: seq<Tables>)
    requires Valid(t) && CausalOrder(t, ds)
    ensures Delivered(t, ds, chain)
    decreases |ds|
  {
    if ds == [] {
      chain := [t];
    } else {
      var t' := FirstInOrder(t, ds);
      var rest := DeliverInOrder(t', ds[1..]);
      DeliveredLonger(t, ds, t', rest);
      chain := [t] + rest;
    }
  }

  ghost predicate AllReadable(t: Tables, ds: seq<Delivery>) {
    forall i {:trigger Readable(t, ds[i])} :: 0 <= i < |ds| ==> Readable(t, ds[i])
  }

  /** A delivery that is accepted was new, with its past stored, and is now stored. */
  lemma AcceptedStores(t: Tables, d: Delivery, t': Tables)
    requires Valid(t) && Readable(t, d) && Accepts(t, d, t')
    ensures d.r.key !in Finished(t)
    ensures forall k {:trigger InPast(k, d.r.ts)} :: InPast(k, d.r.ts) ==> k in Finished(t)
    ensures Valid(t') && t'.me == t.me && Finished(t') == Finished(t) + {d.r.key}
    ensures t'.message == t.message && t'.channelMessage == t.channelMessage
  {
    CheckMeansStored(t, d.r.key, d.r.ts);
    CheckFindsPast(t, d.r);
    assert d.r.key !in t.rumor by {
      StateOf(t.rumor, t.me);
    }
    StoreRumorKeeps(t, d.r.key, d.r.ts, d.unprocessed, d.processed, t');
    MessagesAsBefore(t, d, t');
  }

  lemma MessagesAsBefore(t: Tables, d: Delivery, t': Tables)
    requires StoreRumor(t, d.r.key, d.r.ts, d.unprocessed, d.processed) == Some(t')
    ensures t'.me == t.me && t'.message == t.message && t'.channelMessage == t.channelMessage
  {
  }

  lemma RestReadable(t: Tables, ds: seq<Delivery>, t': Tables)
    requires ds != [] && AllReadable(t, ds) && t'.me == t.me
    requires t'.message == t.message && t'.channelMessage == t.channelMessage
    ensures AllReadable(t', ds[1..])
  {
    forall i | 0 <= i < |ds[1..]|
      ensures Readable(t', ds[1..][i])
    {
      assert Readable(t, ds[i + 1]);
      StillReadable(t, t', ds[i + 1]);
    }
  }

  lemma ChainShorter(t: Tables, ds: seq<Delivery>, chain: seq<Tables>)
    requires ds != [] && AllAccepted(t, ds, chain)
    ensures Accepts(t, ds[0], chain[1]) && AllAccepted(chain[1], ds[1..], chain[1..])
  {
    assert AcceptedAt(ds, chain, 0);
    forall i: nat | i < |ds[1..]|
      ensures AcceptedAt(ds[1..], chain[1..], i)
    {
      assert AcceptedAt(ds, chain, i + 1);
    }
  }

  /** What is in causal order behind an accepted delivery is in causal order with it. */
  lemma FrontInOrder(t: Tables, ds: seq<Delivery>, t': Tables)
    requires HasDraft(t) && HasDraft(t') && ds != [] && AllReadable(t, ds)
    requires ds[0].r.key !in Finished(t)
    requires forall k {:trigger InPast(k, ds[0].r.ts)} :: InPast(k, ds[0].r.ts) ==> k in Finished(t)
    requires Finished(t') == Finished(t) + {ds[0].r.key} && CausalOrder(t', ds[1..])
    ensures CausalOrder(t, ds)
  {
    forall i | 1 <= i < |ds|
      ensures ds[i].r.key !in Finished(t')
    {
      assert Readable(t', ds[1..][i - 1]);
    }
    forall i, j | 0 <= i < j < |ds|
      ensures ds[i].r.key != ds[j].r.key
    {
      if i > 0 { assert ds[1..][i - 1].r.key != ds[1..][j - 1].r.key; }
    }
    forall i, k | 0 <= i < |ds| && InPast(k, ds[i].r.ts) && k !in Finished(t)
      ensures Among(ds, i, k)
    {
      if k == ds[0].r.key {
        assert ds[0].r.key == k && i > 0;
      } else {
        assert InPast(k, ds[1..][i - 1].r.ts);
        assert Among(ds[1..], i - 1, k);
        var h :| 0 <= h < i - 1 && ds[1..][h].r.key == k;
        assert ds[h + 1].r.key == k;
      }
    }
  }

  lemma ReadableAt(t: Tables, ds: seq<Delivery>, i: nat)
    requires AllReadable(t, ds) && i < |ds|
    ensures Readable(t, ds[i])
  {
  }

  /** A new rumor whose past is there is accepted. */
  ghost predicate Taking(t: Tables, d: Delivery, t': Tables)
    requires HasDraft(t)
  {
    && Accepts(t, d, t') && d.r.key !in Finished(t)
    && (forall k {:trigger InPast(k, d.r.ts)} :: InPast(k, d.r.ts) ==> k in Finished(t))
    && Valid(t') && Finished(t') == Finished(t) + {d.r.key}
  }

  lemma AcceptedFirst(t: Tables, ds: seq<Delivery>, chain: seq<Tables>)
    requires Valid(t) && AllReadable(t, ds) && AllAccepted(t, ds, chain) && ds != []
    ensures Taking(t, ds[0], chain[1])
    ensures AllReadable(chain[1], ds[1..]) && AllAccepted(chain[1], ds[1..], chain[1..])
  {
    ChainShorter(t, ds, chain);
    ReadableAt(t, ds, 0);
    AcceptedStores(t, ds[0], chain[1]);
    RestReadable(t, ds, chain[1]);
  }

  lemma AcceptedBehind(t: Tables, ds: seq<Delivery>, chain: seq<Tables>)
    requires HasDraft(t) && AllReadable(t, ds) && AllAccepted(t, ds, chain) && ds != [] && Taking(t, ds[0], chain[1])
    requires CausalOrder(chain[1], ds[1..]) && Delivered(chain[1], ds[1..], chain[1..])
    ensures CausalOrder(t, ds) && Delivered(t, ds, chain)
  {
    FrontInOrder(t, ds, chain[1]);
    DeliveredLonger(t, ds, chain[1], chain[1..]);
    assert chain == [t] + chain[1..];
  }

  /** Deliveries that are all accepted are new, each once, and in causal order. */
  lemma {:induction false} AcceptedInOrder(t: Tables, ds: seq<Delivery>, chain: seq<Tables>)
    requires Valid(t) && AllReadable(t, ds) && AllAccepted(t, ds, chain)
    ensures CausalOrder(t, ds) && Delivered(t, ds, chain)
    decreases |ds|
  {
    if ds != [] {
      var t' := chain[1];
      AcceptedFirst(t, ds, chain);
      AcceptedInOrder(t', ds[1..], chain[1..]);
      AcceptedBehind(t, ds, chain);
    }
  }

  /** Some run of deliveries, one after the other, accepts them all. */
  ghost predicate Acceptable(t: Tables, ds: seq<Delivery>) {
    exists chain :: AllAccepted(t, ds, chain)
  }

  /** Deliveries are accepted at every step exactly when they come new, each once, and in causal order. */
  lemma AcceptedExactly(t: Tables, ds: seq<Delivery>)
    requires Valid(t) && AllReadable(t, ds)
    ensures Acceptable(t, ds) <==> CausalOrder(t, ds)
  {
    if chain :| AllAccepted(t, ds, chain) {
      AcceptedInOrder(t, ds, chain);
    }
    if CausalOrder(t, ds) {
      var chain := DeliverInOrder(t, ds);
    }
  }

  lemma ChainLonger(t: Tables, ds: seq<Delivery>, t': Tables, rest: seq<Tables>)
    requires ds != [] && Accepts(t, ds[0], t') && AllAccepted(t', ds[1..], rest)
    ensures AllAccepted(t, ds, [t] + rest)
  {
    var chain := [t] + rest;
    forall i: nat | i < |ds|
      ensures AcceptedAt(ds, chain, i)
    {
      if i == 0 {
        assert chain[0] == t && chain[1] == t';
      } else {
        AcceptedAtNext(ds, t, rest, i);
      }
    }
  }

  lemma AcceptedAtNext(ds: seq<Delivery>, t: Tables, rest: seq<Tables>, i: nat)
    requires 0 < i < |ds| == |rest| && AcceptedAt(ds[1..], rest, i - 1)
    ensures AcceptedAt(ds, [t] + rest, i)
  {
    var chain := [t] + rest;
    assert ds[1..][i - 1] == ds[i] && chain[i] == rest[i - 1] && chain[i + 1] == rest[i];
  }

  function Max(a: int, b: int): int {
    if a < b then b else a
  }

  function PointwiseMax(a: Timestamp, b: Timestamp): Timestamp {
    map s | s in a.Keys + b.Keys :: if s !in a then b[s] else if s !in b then a[s] else Max(a[s], b[s])
  }

  lemma VectorOfUnion(t: Tables, u: Tables, last: Tables)
    requires Valid(t) && Valid(u) && Valid(last)
    requires Finished(last) == Finished(t) + Finished(u)
    ensures Vector(last) == PointwiseMax(Vector(t), Vector(u))
  {
    var v := PointwiseMax(Vector(t), Vector(u));
    forall k: Key
      ensures k in Finished(last) <==> k.sender in v && 0 <= k.id <= v[k.sender]
      ensures k.sender in v ==> 0 <= v[k.sender]
    {
      VectorExact(t, k);
      VectorExact(u, k);
    }
    forall s | s in v
      ensures 0 <= v[s]
    {
      VectorExact(t, Key(0, s));
      VectorExact(u, Key(0, s));
    }
    VectorFromFinished(last, v);
  }

  ghost predicate Answers(t: Tables, u: Tables, d: Delivery)
    requires HasDraft(t) && HasDraft(u)
  {
    && d.r.key in Finished(u) && d.r.key !in Finished(t)
    && u.rumor[d.r.key] == Json(d.r.ts) && d.r.msgs == Content(u, d.r.key)
    && Splits(t, d.r, d.unprocessed, d.processed)
  }

  /** `ds` are, once each, the finished rumors of `u` that `t` lacks. */
  ghost predicate Missing(t: Tables, u: Tables, ds: seq<Delivery>)
    requires HasDraft(t) && HasDraft(u)
  {
    && (forall i, j :: 0 <= i < j < |ds| ==> ds[i].r.key != ds[j].r.key)
    && (forall d {:trigger Answers(t, u, d)} :: d in ds ==> Answers(t, u, d))
    && (forall k :: k in Finished(u) && k !in Finished(t) ==> k in KeysOf(ds))
  }

  // ------------------------------------------------------- order of the answer

  /** The strict pointwise order on vectors, an absent entry lying below all others. */
  ghost predicate Before(a: Timestamp, b: Timestamp) {
    Leq(a, b) && a != b
  }

  /** RumorTimestamp.IsBefore, by which the answer is sorted. A sender that is absent reads as 0, so
      that a negative entry against it counts on both sides. */
  method IsBefore(r: Timestamp, other: Timestamp) returns (before: bool)
    ensures before <==> Before(r, other) && forall s :: s in other && s !in r ==> 0 <= other[s]
  {
    var greater, smaller := false, false;
    var todo := r.Keys;
    while todo != {}
      invariant todo <= r.Keys
      invariant smaller ==> !Leq(r, other)
      invariant !smaller ==> forall s :: s in r && s !in todo ==> s in other && r[s] <= other[s]
      invariant greater && !smaller ==> !Leq(other, r)
      invariant !greater ==> forall s :: s in r && s !in todo && s in other ==> other[s] <= r[s]
      decreases |todo|
    {
      var s :| s in todo;
      todo := todo - {s};
      if s !in other || other[s] < r[s] {
        smaller := true;
      }
      if (if s in other then other[s] else 0) > r[s] {
        greater := true;
      }
    }
    todo := other.Keys;
    while todo != {}
      invariant todo <= other.Keys
      invariant smaller ==> !Leq(r, other) || exists s :: s in other && s !in r && other[s] < 0
      invariant !smaller ==> Leq(r, other) && forall s :: s in other && s !in todo && s !in r ==> 0 <= other[s]
      invariant greater && !smaller ==> !Leq(other, r)
      invariant !greater ==> forall s :: s in r && s in other ==> other[s] <= r[s]
      invariant !greater ==> forall s :: s in other && s !in todo ==> s in r
      decreases |todo|
    {
      var s :| s in todo;
      todo := todo - {s};
      if s !in r || r[s] < other[s] {
        greater := true;
      }
      if (if s in r then r[s] else 0) > other[s] {
        smaller := true;
      }
    }
    before := !(smaller || !greater);
    if Leq(r, other) && Leq(other, r) {
      LeqAntisymmetric(r, other);
    }
  }

  ghost predicate Leq(a: Timestamp, b: Timestamp) {
    forall s :: s in a ==> s in b && a[s] <= b[s]
  }

  lemma LeqAntisymmetric(a: Timestamp, b: Timestamp)
    requires Leq(a, b) && Leq(b, a)
    ensures a == b
  {
  }

  /** No rumor comes before one whose vector lies strictly below its own. */
  ghost predicate SortedByVector(ds: seq<Delivery>) {
    forall i, j {:trigger ds[i], ds[j]} :: 0 <= i < j < |ds| ==> !Before(ds[j].r.ts, ds[i].r.ts)
  }

  /** The vector order agrees with causality: a rumor sorts before those that count it. */
  lemma PastIsBefore(v: B.State, a: Rumor, b: Rumor)
    requires B.Inv(v) && a in v.log && b in v.log && InPast(a.key, b.ts)
    ensures Before(a.ts, b.ts)
  {
    assert B.CountsAll(a, b);
    B.LoggedStampOk(v.log, a);
    forall s | s in a.ts
      ensures s in b.ts && a.ts[s] <= b.ts[s]
    {
      assert InPast(Key(a.ts[s], s), a.ts) ==> InPast(Key(a.ts[s], s), b.ts);
    }
    assert !InPast(a.key, a.ts);
  }

  lemma AnswerLogged(run: seq<System>, i: nat, p: Sender, q: Sender, d: Delivery) returns (v: B.State)
    requires IsRun(run) && i < |run| && p in run[i].nodes && q in run[i].nodes
    requires HasDraft(run[i].nodes[p].t) && HasDraft(run[i].nodes[q].t)
    requires Answers(run[i].nodes[p].t, run[i].nodes[q].t, d)
    ensures d.r in run[i].log && Readable(run[i].nodes[p].t, d)
  {
    v := Reachable(run, i);
    HeldIsLogged(run, i, q, d.r.key);
    B.LoggedStampOk(v.log, d.r);
    assert B.SenderHolds(v, d.r);
    assert NodeSeen(p, run[i].nodes[p], v.sites[p]);
    HeldIsFinished(run[i].nodes[p].t);
  }

  /** What an answer counts, the receiver holds or the sender has to offer. */
  lemma PastOffered(run: seq<System>, i: nat, q: Sender, r: Rumor, k: Key) returns (x: Rumor)
    requires IsRun(run) && i < |run| && q in run[i].nodes && HasDraft(run[i].nodes[q].t)
    requires r in run[i].log && r.key in Finished(run[i].nodes[q].t) && InPast(k, r.ts)
    ensures k in Finished(run[i].nodes[q].t)
    ensures x in run[i].log && x.key == k && run[i].nodes[q].t.rumor[k] == Json(x.ts) && Before(x.ts, r.ts)
  {
    var v := Reachable(run, i);
    var u := run[i].nodes[q].t;
    assert NodeSeen(q, run[i].nodes[q], v.sites[q]);
    HeldIsFinished(u);
    B.HeldWithPast(v, q, r);
    HeldIsLogged(run, i, q, k);
    x := RumorOf(u, k);
    PastIsBefore(v, x, r);
  }

  /** An answer sorted by vectors is in causal order. */
  lemma SortedIsCausal(run: seq<System>, i: nat, p: Sender, q: Sender, ds: seq<Delivery>)
    requires IsRun(run) && i < |run| && p in run[i].nodes && q in run[i].nodes
    requires HasDraft(run[i].nodes[p].t) && HasDraft(run[i].nodes[q].t)
    requires Missing(run[i].nodes[p].t, run[i].nodes[q].t, ds) && SortedByVector(ds)
    ensures CausalOrder(run[i].nodes[p].t, ds)
  {
    var t, u := run[i].nodes[p].t, run[i].nodes[q].t;
    forall n | 0 <= n < |ds|
      ensures Readable(t, ds[n]) && ds[n].r.key !in Finished(t) && ds[n].r in run[i].log
    {
      assert Answers(t, u, ds[n]);
      var v := AnswerLogged(run, i, p, q, ds[n]);
    }
    forall n, k | 0 <= n < |ds| && InPast(k, ds[n].r.ts) && k !in Finished(t)
      ensures Among(ds, n, k)
    {
      assert Answers(t, u, ds[n]);
      var x := PastOffered(run, i, q, ds[n].r, k);
      assert k in KeysOf(ds);
      var d :| d in ds && d.r.key == k;
      assert Answers(t, u, d);
      var m :| 0 <= m < |ds| && ds[m] == d;
      assert Before(ds[m].r.ts, ds[n].r.ts);
      assert !Before(ds[n].r.ts, ds[n].r.ts);
      assert m < n;
    }
  }

  lemma MissingReadable(run: seq<System>, i: nat, p: Sender, q: Sender, ds: seq<Delivery>)
    requires IsRun(run) && i < |run| && p in run[i].nodes && q in run[i].nodes
    requires HasDraft(run[i].nodes[p].t) && HasDraft(run[i].nodes[q].t)
    requires Missing(run[i].nodes[p].t, run[i].nodes[q].t, ds)
    ensures AllReadable(run[i].nodes[p].t, ds)
  {
    forall n | 0 <= n < |ds|
      ensures Readable(run[i].nodes[p].t, ds[n])
    {
      assert Answers(run[i].nodes[p].t, run[i].nodes[q].t, ds[n]);
      var w := AnswerLogged(run, i, p, q, ds[n]);
    }
  }

  /** Convergence. The rumors of `q` that `p` lacks, in whatever order they come, are accepted at
      every step exactly when the order is causal; and when they are, `p` ends with the pointwise
      maximum of the two vectors. */
  lemma Convergence(run: seq<System>, i: nat, p: Sender, q: Sender, ds: seq<Delivery>)
    requires IsRun(run) && i < |run| && p in run[i].nodes && q in run[i].nodes
    requires HasDraft(run[i].nodes[p].t) && HasDraft(run[i].nodes[q].t)
    requires Missing(run[i].nodes[p].t, run[i].nodes[q].t, ds)
    ensures Acceptable(run[i].nodes[p].t, ds) <==> CausalOrder(run[i].nodes[p].t, ds)
    ensures forall chain :: AllAccepted(run[i].nodes[p].t, ds, chain) ==>
      Levelled(run[i].nodes[p].t, run[i].nodes[q].t, chain[|ds|])
  {
    var t, u := run[i].nodes[p].t, run[i].nodes[q].t;
    var v := Reachable(run, i);
    assert NodeSeen(p, run[i].nodes[p], v.sites[p]) && NodeSeen(q, run[i].nodes[q], v.sites[q]);
    MissingReadable(run, i, p, q, ds);
    AcceptedExactly(t, ds);
    forall chain | AllAccepted(t, ds, chain)
      ensures Levelled(t, u, chain[|ds|])
    {
      AcceptedInOrder(t, ds, chain);
      assert forall d :: d in ds ==> Answers(t, u, d);
      VectorOfUnion(t, u, chain[|ds|]);
    }
  }

  /** `last` has the pointwise maximum of the vectors of `t` and `u`. */
  ghost predicate Levelled(t: Tables, u: Tables, last: Tables)
    requires HasDraft(t) && HasDraft(u)
  {
    HasDraft(last) && Vector(last) == PointwiseMax(Vector(t), Vector(u))
  }

  /** An answer that is sorted by vector is accepted at every step. */
  lemma SortedIsAccepted(run: seq<System>, i: nat, p: Sender, q: Sender, ds: seq<Delivery>)
    requires IsRun(run) && i < |run| && p in run[i].nodes && q in run[i].nodes
    requires HasDraft(run[i].nodes[p].t) && HasDraft(run[i].nodes[q].t)
    requires Missing(run[i].nodes[p].t, run[i].nodes[q].t, ds) && SortedByVector(ds)
    ensures Acceptable(run[i].nodes[p].t, ds)
  {
    SortedIsCausal(run, i, p, q, ds);
    Convergence(run, i, p, q, ds);
  }

  // ------------------------------------------------------- what sorting is worth

  /** What sort.SliceIsSorted checks, and where an insertion sort stops: no inverted neighbours. */
  ghost predicate NeighboursSorted(ds: seq<Delivery>) {
    forall i {:trigger NotInverted(ds, i)} :: 0 < i < |ds| ==> NotInverted(ds, i)
  }

  ghost predicate NotInverted(ds: seq<Delivery>, i: int)
    requires 0 < i < |ds|
  {
    !Before(ds[i].r.ts, ds[i - 1].r.ts)
  }

  /** Not being comparable carries over from one pair to the next, as sort.Slice asks of its order. */
  ghost predicate WeaklyOrdered(ds: seq<Delivery>) {
    forall a, b, c {:trigger BetweenOrBeside(a, b, c)} :: a in ds && b in ds && c in ds ==> BetweenOrBeside(a, b, c)
  }

  /** If a lies below c, then b lies above a or below c. */
  ghost predicate BetweenOrBeside(a: Delivery, b: Delivery, c: Delivery) {
    Before(a.r.ts, c.r.ts) ==> Before(a.r.ts, b.r.ts) || Before(b.r.ts, c.r.ts)
  }

  lemma BeforeTransitive(a: Timestamp, b: Timestamp, c: Timestamp)
    requires Before(a, b) && Before(b, c)
    ensures Before(a, c)
  {
    if a == c { LeqAntisymmetric(a, b); }
  }

  lemma {:induction false} NeighboursSuffice(ds: seq<Delivery>, i: nat, j: nat)
    requires WeaklyOrdered(ds) && NeighboursSorted(ds) && i < j < |ds|
    ensures !Before(ds[j].r.ts, ds[i].r.ts)
    decreases j - i
  {
    assert NotInverted(ds, i + 1);
    if i + 1 < j {
      NeighboursSuffice(ds, i + 1, j);
      assert BetweenOrBeside(ds[j], ds[i + 1], ds[i]);
    }
  }

  /** Puts x before the first delivery that lies above it. */
  ghost function Placed(x: Delivery, ds: seq<Delivery>): (k: nat)
    ensures k <= |ds|
    ensures forall i :: 0 <= i < k ==> !Before(x.r.ts, ds[i].r.ts)
    ensures k < |ds| ==> Before(x.r.ts, ds[k].r.ts)
  {
    if ds == [] || Before(x.r.ts, ds[0].r.ts) then 0 else 1 + Placed(x, ds[1..])
  }

  lemma PlacedSorted(x: Delivery, ds: seq<Delivery>)
    requires SortedByVector(ds)
    ensures SortedByVector(ds[..Placed(x, ds)] + [x] + ds[Placed(x, ds)..])
  {
    var k := Placed(x, ds);
    forall j | k <= j < |ds|
      ensures !Before(ds[j].r.ts, x.r.ts)
    {
      if Before(ds[j].r.ts, x.r.ts) {
        BeforeTransitive(ds[j].r.ts, x.r.ts, ds[k].r.ts);
      }
    }
  }

  /** Any list can be arranged so that no delivery comes before one below it. */
  lemma {:induction false} Arranged(ds: seq<Delivery>) returns (s: seq<Delivery>)
    ensures multiset(s) == multiset(ds) && SortedByVector(s)
  {
    if ds == [] {
      s := [];
    } else {
      var rest := Arranged(ds[1..]);
      var k := Placed(ds[0], rest);
      PlacedSorted(ds[0], rest);
      s := rest[..k] + [ds[0]] + rest[k..];
      SplicedIn(rest, k, ds[0]);
      assert ds == [ds[0]] + ds[1..];
    }
  }

  lemma SplicedIn(ds: seq<Delivery>, k: nat, d: Delivery)
    requires k <= |ds|
    ensures multiset(ds[..k] + [d] + ds[k..]) == multiset(ds) + multiset{d}
  {
    assert ds == ds[..k] + ds[k..];
  }

  lemma RemoveOne(ds: seq<Delivery>, x: Delivery) returns (rest: seq<Delivery>)
    requires x in ds
    ensures multiset(ds) == multiset(rest) + multiset{x}
  {
    var k :| 0 <= k < |ds| && ds[k] == x;
    rest := ds[..k] + ds[k + 1..];
    assert ds == ds[..k] + [x] + ds[k + 1..];
  }

  lemma RemoveThree(ds: seq<Delivery>, a: Delivery, b: Delivery, c: Delivery) returns (rest: seq<Delivery>)
    requires a in ds && b in ds && c in ds && a != b && b != c && a != c
    ensures multiset(ds) == multiset(rest) + multiset{a, b, c}
  {
    var x := RemoveOne(ds, c);
    assert b in multiset(ds) && a in multiset(ds);
    assert b in multiset(x) && a in multiset(x);
    var y := RemoveOne(x, b);
    assert a in multiset(y);
    rest := RemoveOne(y, a);
  }

  /** Parts a list into what lies above c and the rest, each arranged. */
  lemma {:induction false} Parted(ds: seq<Delivery>, c: Delivery) returns (low: seq<Delivery>, high: seq<Delivery>)
    ensures multiset(ds) == multiset(low) + multiset(high)
    ensures forall x :: x in low ==> !Before(c.r.ts, x.r.ts)
    ensures forall x :: x in high ==> Before(c.r.ts, x.r.ts)
  {
    if ds == [] {
      low, high := [], [];
    } else {
      low, high := Parted(ds[1..], c);
      assert ds == [ds[0]] + ds[1..];
      if Before(c.r.ts, ds[0].r.ts) { high := [ds[0]] + high; } else { low := [ds[0]] + low; }
    }
  }

  lemma SortedHasNeighbours(ds: seq<Delivery>)
    requires SortedByVector(ds)
    ensures NeighboursSorted(ds)
  {
  }

  lemma NeighboursJoined(x: seq<Delivery>, y: seq<Delivery>)
    requires NeighboursSorted(x) && NeighboursSorted(y)
    requires x != [] && y != [] ==> !Before(y[0].r.ts, x[|x| - 1].r.ts)
    ensures NeighboursSorted(x + y)
  {
    forall i | 0 < i < |x + y|
      ensures NotInverted(x + y, i)
    {
      if i < |x| {
        assert NotInverted(x, i);
      } else if i > |x| {
        assert NotInverted(y, i - |x|);
      }
    }
  }

  lemma ArrangedParted(ds: seq<Delivery>, c: Delivery) returns (low: seq<Delivery>, high: seq<Delivery>)
    ensures multiset(ds) == multiset(low) + multiset(high) && NeighboursSorted(low) && NeighboursSorted(high)
    ensures forall x :: x in low ==> !Before(c.r.ts, x.r.ts)
    ensures forall x :: x in high ==> Before(c.r.ts, x.r.ts)
  {
    var l, h := Parted(ds, c);
    low := Arranged(l);
    high := Arranged(h);
    SortedHasNeighbours(low);
    SortedHasNeighbours(high);
    forall x | x in low ensures x in l { assert x in multiset(low); }
    forall x | x in high ensures x in h { assert x in multiset(high); }
  }

  /** With a below c and b comparable with neither, the order c, b, a has no inverted neighbours, and
      the rest of the list can be arranged around it. */
  lemma InvertedArrangement(ds: seq<Delivery>, a: Delivery, b: Delivery, c: Delivery) returns (other: seq<Delivery>)
    requires a in ds && b in ds && c in ds && !BetweenOrBeside(a, b, c)
    ensures multiset(other) == multiset(ds) && NeighboursSorted(other) && !SortedByVector(other)
  {
    assert b != a && b != c && a != c;
    var rest := RemoveThree(ds, a, b, c);
    var low, high := ArrangedParted(rest, c);
    InvertedMiddle(low, a, b, c, high);
    other := low + [c, b, a] + high;
  }

  lemma InvertedMiddle(low: seq<Delivery>, a: Delivery, b: Delivery, c: Delivery, high: seq<Delivery>)
    requires NeighboursSorted(low) && NeighboursSorted(high) && !BetweenOrBeside(a, b, c)
    requires forall x :: x in low ==> !Before(c.r.ts, x.r.ts)
    requires forall x :: x in high ==> Before(c.r.ts, x.r.ts)
    ensures NeighboursSorted(low + [c, b, a] + high) && !SortedByVector(low + [c, b, a] + high)
  {
    var middle := [c, b, a];
    assert NeighboursSorted(middle) by {
      assert NotInverted(middle, 1) && NotInverted(middle, 2);
    }
    NeighboursJoined(low, middle);
    if high != [] {
      assert high[0] in high;
      if Before(high[0].r.ts, a.r.ts) {
        BeforeTransitive(c.r.ts, high[0].r.ts, a.r.ts);
        LeqAntisymmetric(c.r.ts, a.r.ts);
      }
    }
    NeighboursJoined(low + middle, high);
    var other := low + middle + high;
    assert other[|low|] == c && other[|low| + 2] == a;
  }

  /** Whatever arrangement without inverted neighbours the sort leaves, it is sorted by vector. */
  ghost predicate SortSuffices(ds: seq<Delivery>) {
    forall other: seq<Delivery> :: multiset(other) == multiset(ds) && NeighboursSorted(other) ==> SortedByVector(other)
  }

  /** Sorting the answer by IsBefore leaves it sorted by vector, whatever the algorithm, exactly when
      incomparability carries over among its vectors. */
  lemma SortSufficesExactly(ds: seq<Delivery>)
    ensures SortSuffices(ds) <==> WeaklyOrdered(ds)
  {
    if WeaklyOrdered(ds) {
      forall other: seq<Delivery> | multiset(other) == multiset(ds) && NeighboursSorted(other)
        ensures SortedByVector(other)
      {
        forall x | x in other ensures x in ds { assert x in multiset(other); }
        assert WeaklyOrdered(other);
        forall i: nat, j: nat | i < j < |other| ensures !Before(other[j].r.ts, other[i].r.ts) {
          NeighboursSuffice(other, i, j);
        }
      }
    } else {
      var a, b, c :| a in ds && b in ds && c in ds && !BetweenOrBeside(a, b, c);
      var other := InvertedArrangement(ds, a, b, c);
    }
  }

  /** A list in which a rumor comes before one that it counts and the receiver lacks is not accepted
      throughout, though its neighbours may be sorted: c counts a, b is comparable with neither. */
  lemma InvertedIsRejected(t: Tables, a: Delivery, b: Delivery, c: Delivery)
    requires Valid(t) && AllReadable(t, [c, b, a]) && InPast(a.r.key, c.r.ts) && a.r.key !in Finished(t)
    requires !BetweenOrBeside(a, b, c)
    ensures NeighboursSorted([c, b, a]) && !Acceptable(t, [c, b, a])
  {
    var ds := [c, b, a];
    assert NotInverted(ds, 1) && NotInverted(ds, 2);
    AcceptedExactly(t, ds);
    assert !Among(ds, 0, a.r.key);
    assert InPast(a.r.key, ds[0].r.ts);
  }
}
