/** The answer to a vector, from handler/method/rumorstate/hrumorstate/rumorstate.go: exactly the rumors that
    the asking server lacks. */
module AnswerSelection {
  import opened Basics
  import opened RumorTables
  import opened RumorInvariant
  import opened Gossip
  import opened AntiEntropy
  import opened RumorStore

  /** Whether the vector does not reach the rumor. */
  predicate Lacks(state: Timestamp, k: Key) {
    k.sender !in state || state[k.sender] < k.id
  }

  function Selected(mine: seq<Params>, state: Timestamp): seq<Params> {
    if mine == [] then [] else
      var last := mine[|mine| - 1];
      Selected(mine[..|mine| - 1], state) + if Lacks(state, last.key) then [last] else []
  }

  /** The loop of Handle over the rumors read back. */
  method SelectRumors(mine: seq<Params>, state: Timestamp) returns (params: seq<Params>)
    ensures params == Selected(mine, state)
  {
    params := [];
    for i := 0 to |mine|
      invariant params == Selected(mine[..i], state)
    {
      var param := mine[i];
      assert mine[..i + 1][..i] == mine[..i];
      if param.key.sender !in state || state[param.key.sender] < param.key.id {
        params := params + [param];
      }
    }
    assert mine[..|mine|] == mine;
  }

  lemma {:induction false} SelectedAre(mine: seq<Params>, state: Timestamp, p: Params)
    ensures p in Selected(mine, state) <==> p in mine && Lacks(state, p.key)
  {
    if mine != [] {
      var init, last := mine[..|mine| - 1], mine[|mine| - 1];
      SelectedAre(init, state, p);
      assert mine == init + [last];
    }
  }

  ghost predicate DistinctKeys(mine: seq<Params>) {
    forall i, j :: 0 <= i < j < |mine| ==> mine[i].key != mine[j].key
  }

  lemma {:induction false} SelectedDistinct(mine: seq<Params>, state: Timestamp)
    requires DistinctKeys(mine)
    ensures DistinctKeys(Selected(mine, state))
  {
    if mine != [] {
      var init, last := mine[..|mine| - 1], mine[|mine| - 1];
      SelectedDistinct(init, state);
      forall i | 0 <= i < |Selected(init, state)| ensures Selected(init, state)[i].key != last.key {
        var p := Selected(init, state)[i];
        SelectedAre(init, state, p);
        var j :| 0 <= j < |init| && init[j] == p;
        assert mine[j] == p;
      }
    }
  }

  /** What q answers to the vector of p, in any state of any run: of the rumors q reads back from its tables,
      exactly those that p lacks, each once, as q rebuilds them. */
  lemma AnswersWhatIsMissing(run: seq<System>, i: nat, p: Sender, q: Sender, mine: seq<Params>)
    requires IsRun(run) && i < |run| && p in run[i].nodes && q in run[i].nodes
    requires HasDraft(run[i].nodes[p].t) && HasDraft(run[i].nodes[q].t)
    requires AllRebuilt(run[i].nodes[q].t, mine)
    requires OnceEach(mine, set k | k in Finished(run[i].nodes[q].t) && k.sender != "")
    ensures var t, u := run[i].nodes[p].t, run[i].nodes[q].t;
            var answer := Selected(mine, Vector(t));
            && AllRebuilt(u, answer)
            && OnceEach(answer, set k | k in Finished(u) && k !in Finished(t) && k.sender != "")
  {
    var t, u := run[i].nodes[p].t, run[i].nodes[q].t;
    var answer := Selected(mine, Vector(t));
    SelectedDistinct(mine, Vector(t));
    forall a | a in answer ensures Rebuilds(u, a.key, a) { SelectedAre(mine, Vector(t), a); }
    var named := set k | k in Finished(u) && k.sender != "";
    assert OnceEach(mine, named);
    forall k
      ensures k in (set a | a in answer :: a.key) <==> k in Finished(u) && k !in Finished(t) && k.sender != ""
    {
      if k in Finished(u) { NotNegative(run, i, q, k); SelectionIsMissing(run, i, p, k); }
      forall a | a in mine && a.key == k ensures a in answer <==> Lacks(Vector(t), k) {
        SelectedAre(mine, Vector(t), a);
      }
      forall a | a in answer ensures a in mine { SelectedAre(mine, Vector(t), a); }
      assert k in named <==> exists a :: a in mine && a.key == k;
    }
  }

  lemma NotNegative(run: seq<System>, i: nat, q: Sender, k: Key)
    requires IsRun(run) && i < |run| && q in run[i].nodes && HasDraft(run[i].nodes[q].t)
    requires k in Finished(run[i].nodes[q].t)
    ensures 0 <= k.id
  {
    ReachableVectorExact(run, i, q, k);
  }
}
