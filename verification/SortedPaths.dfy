/** When sorting an answer is enough: the answer is accepted at every step,
    however the sort arranges it, exactly when no chain of its rumors, none
    before a neighbour below it, leads from a rumor to one it counts. */
module SortedPaths {
  import opened Basics
  import opened RumorTables
  import opened RumorInvariant
  import opened Gossip
  import opened AntiEntropy
  import B = CausalBroadcast

  /** Some rumors of the list, each at most once and none before a neighbour strictly below it, that
      lead from a rumor to one it counts. */
  ghost predicate WayDown(ds: seq<Delivery>, path: seq<Delivery>) {
    && |path| > 1 && multiset(path) <= multiset(ds) && NeighboursSorted(path)
    && InPast(path[|path| - 1].r.key, path[0].r.ts)
  }

  /** Whatever arrangement without inverted neighbours the sort leaves, it is accepted at every step. */
  ghost predicate SortedIsEnough(t: Tables, ds: seq<Delivery>) {
    forall other: seq<Delivery> :: multiset(other) == multiset(ds) && NeighboursSorted(other) ==> Acceptable(t, other)
  }

  lemma {:induction false} RemoveAll(ds: seq<Delivery>, path: seq<Delivery>) returns (rest: seq<Delivery>)
    requires multiset(path) <= multiset(ds)
    ensures multiset(ds) == multiset(rest) + multiset(path)
    decreases |path|
  {
    if path == [] {
      rest := ds;
    } else {
      assert path == [path[0]] + path[1..];
      assert multiset(path) == multiset{path[0]} + multiset(path[1..]);
      assert path[0] in multiset(ds);
      var fewer := RemoveOne(ds, path[0]);
      forall d ensures multiset(path[1..])[d] <= multiset(fewer)[d] {
        assert multiset(path)[d] <= multiset(ds)[d];
      }
      rest := RemoveAll(fewer, path[1..]);
    }
  }

  /** The rest of the list can be arranged around a way down that ends strictly below its beginning. */
  lemma Around(ds: seq<Delivery>, path: seq<Delivery>) returns (low: seq<Delivery>, high: seq<Delivery>)
    requires |path| > 1 && multiset(path) <= multiset(ds) && NeighboursSorted(path)
    requires Before(path[|path| - 1].r.ts, path[0].r.ts)
    ensures multiset(low + path + high) == multiset(ds) && NeighboursSorted(low + path + high)
  {
    var first, last := path[0].r.ts, path[|path| - 1].r.ts;
    var rest := RemoveAll(ds, path);
    low, high := ArrangedParted(rest, path[0]);
    NeighboursJoined(low, path);
    if high != [] {
      assert high[0] in high;
      if Before(high[0].r.ts, last) {
        BeforeTransitive(first, high[0].r.ts, last);
        LeqAntisymmetric(first, last);
      }
    }
    NeighboursJoined(low + path, high);
  }

  lemma MissingPermuted(t: Tables, u: Tables, ds: seq<Delivery>, other: seq<Delivery>)
    requires HasDraft(t) && HasDraft(u) && Missing(t, u, ds) && multiset(other) == multiset(ds)
    ensures Missing(t, u, other)
  {
    assert NoDup(ds);
    NoDupPermuted(ds, other);
    forall i, j | 0 <= i < j < |other| ensures other[i].r.key != other[j].r.key {
      assert other[i] in ds && other[j] in ds && other[i] != other[j];
    }
    forall d | d in other ensures Answers(t, u, d) { assert d in ds; }
    assert KeysOf(other) == KeysOf(ds);
  }

  /** A rumor that comes before one it counts is refused. */
  lemma WayDownIsRefused(run: seq<System>, i: nat, p: Sender, q: Sender, low: seq<Delivery>, path: seq<Delivery>,
                         high: seq<Delivery>)
    requires IsRun(run) && i < |run| && p in run[i].nodes && q in run[i].nodes
    requires HasDraft(run[i].nodes[p].t) && HasDraft(run[i].nodes[q].t) && |path| > 1
    requires Missing(run[i].nodes[p].t, run[i].nodes[q].t, low + path + high)
    requires InPast(path[|path| - 1].r.key, path[0].r.ts)
    ensures !Acceptable(run[i].nodes[p].t, low + path + high)
  {
    var t, u, other := run[i].nodes[p].t, run[i].nodes[q].t, low + path + high;
    var n, m := |low|, |low| + |path| - 1;
    assert other[n] == path[0] && other[m] == path[|path| - 1];
    Convergence(run, i, p, q, other);
    assert Answers(t, u, other[m]);
    assert !Among(other, n, other[m].r.key);
  }

  lemma NotCausal(t: Tables, u: Tables, ds: seq<Delivery>) returns (n: nat, k: Key)
    requires HasDraft(t) && HasDraft(u) && Missing(t, u, ds) && AllReadable(t, ds) && !CausalOrder(t, ds)
    ensures n < |ds| && InPast(k, ds[n].r.ts) && k !in Finished(t) && !Among(ds, n, k)
  {
    forall h | 0 <= h < |ds| ensures Readable(t, ds[h]) && ds[h].r.key !in Finished(t) {
      assert Answers(t, u, ds[h]);
    }
    n, k :| n < |ds| && InPast(k, ds[n].r.ts) && k !in Finished(t) && !Among(ds, n, k);
  }

  /** What a missing rumor counts is held or missing too. */
  lemma CountedIsMissing(run: seq<System>, i: nat, p: Sender, q: Sender, ds: seq<Delivery>, n: nat, k: Key)
    returns (m: nat)
    requires IsRun(run) && i < |run| && p in run[i].nodes && q in run[i].nodes
    requires HasDraft(run[i].nodes[p].t) && HasDraft(run[i].nodes[q].t)
    requires Missing(run[i].nodes[p].t, run[i].nodes[q].t, ds)
    requires n < |ds| && InPast(k, ds[n].r.ts) && k !in Finished(run[i].nodes[p].t)
    ensures m < |ds| && m != n && ds[m].r.key == k && (m < n ==> Among(ds, n, k))
  {
    var t, u := run[i].nodes[p].t, run[i].nodes[q].t;
    assert Answers(t, u, ds[n]);
    var v := AnswerLogged(run, i, p, q, ds[n]);
    var x := PastOffered(run, i, q, ds[n].r, k);
    assert k in KeysOf(ds);
    var d :| d in ds && d.r.key == k;
    assert Answers(t, u, d);
    m :| 0 <= m < |ds| && ds[m] == d;
  }

  lemma BetweenIsSorted(ds: seq<Delivery>, n: nat, m: nat)
    requires n < m < |ds| && NeighboursSorted(ds)
    ensures NeighboursSorted(ds[n..m + 1]) && multiset(ds[n..m + 1]) <= multiset(ds)
  {
    var path := ds[n..m + 1];
    assert ds == ds[..n] + path + ds[m + 1..];
    forall h | 0 < h < |path| ensures NotInverted(path, h) { assert NotInverted(ds, n + h); }
  }

  /** A list that is refused somewhere holds a way down. */
  lemma RefusedHasWayDown(run: seq<System>, i: nat, p: Sender, q: Sender, ds: seq<Delivery>)
    returns (path: seq<Delivery>)
    requires IsRun(run) && i < |run| && p in run[i].nodes && q in run[i].nodes
    requires HasDraft(run[i].nodes[p].t) && HasDraft(run[i].nodes[q].t)
    requires Missing(run[i].nodes[p].t, run[i].nodes[q].t, ds) && NeighboursSorted(ds)
    requires !Acceptable(run[i].nodes[p].t, ds)
    ensures WayDown(ds, path)
  {
    var t, u := run[i].nodes[p].t, run[i].nodes[q].t;
    Convergence(run, i, p, q, ds);
    MissingReadable(run, i, p, q, ds);
    var n, k := NotCausal(t, u, ds);
    var m := CountedIsMissing(run, i, p, q, ds, n, k);
    BetweenIsSorted(ds, n, m);
    path := ds[n..m + 1];
    assert path[0] == ds[n] && path[|path| - 1] == ds[m];
  }

  /** Of the missing rumors, every arrangement without inverted neighbours is accepted at every step
      exactly when no way down leads from one of them to another that it counts. */
  lemma SortedIsEnoughExactly(run: seq<System>, i: nat, p: Sender, q: Sender, ds: seq<Delivery>)
    requires IsRun(run) && i < |run| && p in run[i].nodes && q in run[i].nodes
    requires HasDraft(run[i].nodes[p].t) && HasDraft(run[i].nodes[q].t)
    requires Missing(run[i].nodes[p].t, run[i].nodes[q].t, ds)
    ensures SortedIsEnough(run[i].nodes[p].t, ds) <==> !exists path :: WayDown(ds, path)
  {
    var t, u := run[i].nodes[p].t, run[i].nodes[q].t;
    if path :| WayDown(ds, path) {
      EndsBelow(run, i, p, q, ds, path);
      var low, high := Around(ds, path);
      MissingPermuted(t, u, ds, low + path + high);
      WayDownIsRefused(run, i, p, q, low, path, high);
    }
    forall other: seq<Delivery> | multiset(other) == multiset(ds) && NeighboursSorted(other) && !Acceptable(t, other)
      ensures exists path :: WayDown(ds, path)
    {
      MissingPermuted(t, u, ds, other);
      var path := RefusedHasWayDown(run, i, p, q, other);
      assert WayDown(ds, path);
    }
  }

  lemma EndsBelow(run: seq<System>, i: nat, p: Sender, q: Sender, ds: seq<Delivery>, path: seq<Delivery>)
    requires IsRun(run) && i < |run| && p in run[i].nodes && q in run[i].nodes
    requires HasDraft(run[i].nodes[p].t) && HasDraft(run[i].nodes[q].t)
    requires Missing(run[i].nodes[p].t, run[i].nodes[q].t, ds) && WayDown(ds, path)
    ensures Before(path[|path| - 1].r.ts, path[0].r.ts)
  {
    var t, u, a, c := run[i].nodes[p].t, run[i].nodes[q].t, path[|path| - 1], path[0];
    assert a in multiset(path) && c in multiset(path);
    assert a in ds && c in ds;
    assert Answers(t, u, a) && Answers(t, u, c);
    var v := AnswerLogged(run, i, p, q, a);
    var w := AnswerLogged(run, i, p, q, c);
    v := Reachable(run, i);
    PastIsBefore(v, a.r, c.r);
  }
}
