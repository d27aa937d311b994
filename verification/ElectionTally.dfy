/** Counting the valid votes and checking the registered ones, from
    old/oldchannel/election/election.go and old/oldchannel/election/verification.go. */
module ElectionTally {
  import opened Basics
  import opened CastVotes

  datatype Ballots = OpenBallot | SecretBallot | OtherBallot

  datatype Question = Question(votingMethod: string, options: seq<string>)

  datatype OptionCount = OptionCount(option: string, count: nat)

  datatype QuestionResult = QuestionResult(id: string, result: seq<OptionCount>)

  /** getVoteIndex. A choice of the wrong kind reads as the zero value of the kind expected. */
  function VoteIndex(kind: Ballots, decrypt: string -> Option<int>, v: ValidVote): Option<int> {
    match kind
    case OpenBallot => Some(if v.choice.Open? then v.choice.index else 0)
    case SecretBallot => decrypt(if v.choice.Secret? then v.choice.cipher else "")
    case OtherBallot => None
  }

  /** A map visited in any order: the keys done and the keys still to do. */
  ghost predicate Split(done: set<string>, todo: set<string>, all: set<string>) {
    done + todo == all && done !! todo
  }

  lemma MoveOne(done: set<string>, todo: set<string>, all: set<string>, x: string)
    requires Split(done, todo, all) && x in todo
    ensures Split(done + {x}, todo - {x}, all) && x in all && x !in done && |todo - {x}| < |todo|
  {
  }

  /** The index read from each voter's valid vote; None for a vote that cannot be decrypted. */
  function Indices(kind: Ballots, decrypt: string -> Option<int>, votes: map<string, ValidVote>)
    : (r: map<string, Option<int>>)
    ensures r.Keys == votes.Keys
  {
    map s | s in votes :: VoteIndex(kind, decrypt, votes[s])
  }

  /** The voters whose vote is for option i. */
  function Voters(index: map<string, Option<int>>, i: int): set<string> {
    set s | s in index && index[s] == Some(i)
  }

  function InRange(index: map<string, Option<int>>, n: int): set<string> {
    set s | s in index && index[s].Some? && 0 <= index[s].value < n
  }

  /** At each place the number of voters for that option. */
  ghost predicate AreCounts(counts: seq<nat>, index: map<string, Option<int>>) {
    forall i :: 0 <= i < |counts| ==> counts[i] == |Voters(index, i)|
  }

  ghost predicate Counted(counts: seq<nat>, index: map<string, Option<int>>, done: set<string>) {
    forall i :: 0 <= i < |counts| ==> counts[i] == |Voters(index, i) * done|
  }

  function Bumped(counts: seq<nat>, x: Option<int>): seq<nat> {
    if x.Some? && 0 <= x.value < |counts| then counts[x.value := counts[x.value] + 1] else counts
  }

  lemma CountOne(counts: seq<nat>, index: map<string, Option<int>>, done: set<string>, voter: string)
    requires Counted(counts, index, done) && voter !in done && voter in index
    ensures Counted(Bumped(counts, index[voter]), index, done + {voter})
  {
    forall i | 0 <= i < |counts|
      ensures Bumped(counts, index[voter])[i] == |Voters(index, i) * (done + {voter})|
    {
      OneMoreVoter(index, i, done, voter);
    }
  }

  lemma OneMoreVoter(index: map<string, Option<int>>, i: int, done: set<string>, voter: string)
    requires voter in index && voter !in done
    ensures |Voters(index, i) * (done + {voter})| ==
            |Voters(index, i) * done| + if index[voter] == Some(i) then 1 else 0
  {
    var all := Voters(index, i);
    if voter in all {
      assert all * (done + {voter}) == (all * done) + {voter};
    } else {
      assert all * (done + {voter}) == all * done;
    }
  }

  lemma CountedAll(counts: seq<nat>, index: map<string, Option<int>>)
    requires Counted(counts, index, index.Keys)
    ensures AreCounts(counts, index)
  {
    forall i | 0 <= i < |counts| ensures counts[i] == |Voters(index, i)| {
      assert Voters(index, i) * index.Keys == Voters(index, i);
    }
  }

  method CountIndex(counts: array<nat>, x: Option<int>)
    modifies counts
    ensures counts[..] == Bumped(old(counts[..]), x)
  {
    if x.Some? && 0 <= x.value < counts.Length {
      counts[x.value] := counts[x.value] + 1;
    }
  }

  /** The counting loop of gatherResults; the voters are visited in any order. */
  method CountVotes(kind: Ballots, decrypt: string -> Option<int>, votes: map<string, ValidVote>, options: nat)
    returns (counts: array<nat>)
    ensures fresh(counts) && counts.Length == options
    ensures AreCounts(counts[..], Indices(kind, decrypt, votes))
  {
    counts := new nat[options](_ => 0);
    ghost var indices := Indices(kind, decrypt, votes);
    var todo := votes.Keys;
    ghost var done := {};
    ghost var tally := counts[..];
    while todo != {}
      invariant Split(done, todo, votes.Keys)
      invariant counts[..] == tally && Counted(tally, indices, done)
      decreases |todo|
    {
      var voter :| voter in todo;
      MoveOne(done, todo, votes.Keys, voter);
      var index := VoteIndex(kind, decrypt, votes[voter]);
      CountOne(tally, indices, done, voter);
      tally := Bumped(tally, indices[voter]);
      CountIndex(counts, index);
      todo := todo - {voter};
      done := done + {voter};
    }
    assert done == indices.Keys;
    CountedAll(tally, indices);
  }

  function Sum(s: seq<nat>): nat {
    if s == [] then 0 else Sum(s[..|s| - 1]) + s[|s| - 1]
  }

  /** No vote is lost and none is counted twice: the counts of a question add up to the number of
      voters whose vote has an index in range, which is at most the number of voters. */
  lemma {:induction false} CountsAddUp(index: map<string, Option<int>>, counts: seq<nat>)
    requires forall i :: 0 <= i < |counts| ==> counts[i] == |Voters(index, i)|
    ensures Sum(counts) == |InRange(index, |counts|)| <= |index.Keys|
  {
    var n := |counts|;
    var now := InRange(index, n);
    if n == 0 {
      assert now == {};
    } else {
      CountsAddUp(index, counts[..n - 1]);
      var was, last := InRange(index, n - 1), Voters(index, n - 1);
      assert now == was + last && was !! last;
    }
    SubsetSize(now, index.Keys);
  }

  function Listed(counts: seq<nat>, options: seq<string>): seq<OptionCount>
    requires |counts| == |options|
  {
    seq(|options|, i requires 0 <= i < |options| => OptionCount(options[i], counts[i]))
  }

  method GatherOptionCounts(count: array<nat>, options: seq<string>) returns (r: seq<OptionCount>)
    requires count.Length == |options|
    ensures r == Listed(count[..], options)
  {
    r := [];
    for i := 0 to |options|
      invariant r == Listed(count[..i], options[..i])
    {
      r := r + [OptionCount(options[i], count[i])];
    }
    assert options[..|options|] == options && count[..|options|] == count[..];
  }

  /** What gatherResults must say of one plurality question. */
  ghost predicate ResultOf(r: QuestionResult, kind: Ballots, decrypt: string -> Option<int>, q: Question,
                           votes: map<string, ValidVote>) {
    |r.result| == |q.options| &&
    forall i :: 0 <= i < |q.options| ==>
      r.result[i].option == q.options[i] && r.result[i].count == |Voters(Indices(kind, decrypt, votes), i)|
  }

  function Plurality(questions: map<string, Question>): set<string> {
    set q | q in questions && questions[q].votingMethod == "Plurality"
  }

  ghost predicate Results(r: seq<QuestionResult>, kind: Ballots, decrypt: string -> Option<int>,
                          questions: map<string, Question>, votes: Tally)
    requires questions.Keys <= votes.Keys
  {
    (forall i, j :: 0 <= i < j < |r| ==> r[i].id != r[j].id) &&
    (forall i :: 0 <= i < |r| ==>
      r[i].id in questions && ResultOf(r[i], kind, decrypt, questions[r[i].id], votes[r[i].id]))
  }

  ghost predicate Reported(r: seq<QuestionResult>, q: string) {
    exists i :: 0 <= i < |r| && r[i].id == q
  }

  lemma ReportedAfter(r: seq<QuestionResult>, x: QuestionResult, q: string)
    ensures Reported(r + [x], q) <==> Reported(r, q) || x.id == q
  {
    if Reported(r, q) {
      var i :| 0 <= i < |r| && r[i].id == q;
      assert (r + [x])[i].id == q;
    }
    assert (r + [x])[|r|] == x;
  }

  lemma MoreResults(r: seq<QuestionResult>, kind: Ballots, decrypt: string -> Option<int>,
                    questions: map<string, Question>, votes: Tally, id: string, counts: seq<nat>)
    requires questions.Keys <= votes.Keys && Results(r, kind, decrypt, questions, votes)
    requires id in questions && !Reported(r, id) && |counts| == |questions[id].options|
    requires AreCounts(counts, Indices(kind, decrypt, votes[id]))
    ensures var x := QuestionResult(id, Listed(counts, questions[id].options));
      Results(r + [x], kind, decrypt, questions, votes) &&
      forall q :: Reported(r + [x], q) <==> Reported(r, q) || q == id
  {
    var x := QuestionResult(id, Listed(counts, questions[id].options));
    assert ResultOf(x, kind, decrypt, questions[id], votes[id]);
    forall q ensures Reported(r + [x], q) <==> Reported(r, q) || q == id {
      ReportedAfter(r, x, q);
    }
  }

  /** gatherResults: one entry for each plurality question, in any order, and none for the others. */
  method GatherResults(kind: Ballots, decrypt: string -> Option<int>, questions: map<string, Question>, votes: Tally)
    returns (r: seq<QuestionResult>)
    requires questions.Keys <= votes.Keys
    ensures Results(r, kind, decrypt, questions, votes)
    ensures forall q :: Reported(r, q) <==> q in Plurality(questions)
  {
    r := [];
    var todo := questions.Keys;
    while todo != {}
      invariant todo <= questions.Keys
      invariant Results(r, kind, decrypt, questions, votes)
      invariant forall q :: Reported(r, q) <==> q in Plurality(questions) - todo
      decreases |todo|
    {
      var id :| id in todo;
      var question := questions[id];
      if question.votingMethod == "Plurality" {
        var counts := CountVotes(kind, decrypt, votes[id], |question.options|);
        var res := GatherOptionCounts(counts, question.options);
        MoreResults(r, kind, decrypt, questions, votes, id, counts[..]);
        r := r + [QuestionResult(id, res)];
      }
      todo := todo - {id};
    }
  }

  // ---------- The registered votes ----------

  /** Go compares strings element by element; a proper prefix comes first. */
  predicate Below(a: string, b: string) {
    a == [] || (b != [] && (a[0] < b[0] || (a[0] == b[0] && Below(a[1..], b[1..]))))
  }

  lemma {:induction false} BelowTotal(a: string, b: string)
    ensures Below(a, b) || Below(b, a)
  {
    if a != [] && b != [] && a[0] == b[0] { BelowTotal(a[1..], b[1..]); }
  }

  lemma {:induction false} BelowTransitive(a: string, b: string, c: string)
    requires Below(a, b) && Below(b, c)
    ensures Below(a, c)
  {
    if a != [] && a[0] == b[0] && b[0] == c[0] { BelowTransitive(a[1..], b[1..], c[1..]); }
  }

  lemma {:induction false} BelowAntisymmetric(a: string, b: string)
    requires Below(a, b) && Below(b, a)
    ensures a == b
  {
    if a != [] {
      BelowAntisymmetric(a[1..], b[1..]);
      assert a == [a[0]] + a[1..] && b == [b[0]] + b[1..];
    }
  }

  predicate Sorted(s: seq<string>) {
    forall i, j :: 0 <= i < j < |s| ==> Below(s[i], s[j])
  }

  lemma FirstIsLeast(a: seq<string>, x: string)
    requires Sorted(a) && x in a
    ensures Below(a[0], x)
  {
    var j :| 0 <= j < |a| && a[j] == x;
    if j == 0 { BelowTotal(x, x); }
  }

  lemma SameFirst(a: seq<string>, b: seq<string>)
    requires Sorted(a) && Sorted(b) && multiset(a) == multiset(b) && a != [] && b != []
    ensures a[0] == b[0]
  {
    assert a[0] in multiset(b) && b[0] in multiset(a);
    FirstIsLeast(a, b[0]);
    FirstIsLeast(b, a[0]);
    BelowAntisymmetric(a[0], b[0]);
  }

  lemma {:induction false} SortedIsUnique(a: seq<string>, b: seq<string>)
    requires Sorted(a) && Sorted(b) && multiset(a) == multiset(b)
    ensures a == b
  {
    assert |a| == |multiset(a)| && |b| == |multiset(b)|;
    if a != [] {
      SameFirst(a, b);
      SortedTail(a);
      SortedTail(b);
      SortedIsUnique(a[1..], b[1..]);
    }
  }

  lemma SortedTail(s: seq<string>)
    requires Sorted(s) && s != []
    ensures Sorted(s[1..]) && s == [s[0]] + s[1..]
    ensures multiset(s[1..]) == multiset(s) - multiset{s[0]}
  {
    assert s == [s[0]] + s[1..];
  }

  function Insert(x: string, s: seq<string>): (r: seq<string>)
    ensures multiset(r) == multiset(s) + multiset{x}
  {
    if s == [] || Below(x, s[0]) then [x] + s else
      assert s == [s[0]] + s[1..];
      [s[0]] + Insert(x, s[1..])
  }

  lemma SortedBefore(x: string, s: seq<string>)
    requires Sorted(s) && forall y :: y in s ==> Below(x, y)
    ensures Sorted([x] + s)
  {
  }

  lemma {:induction false} InsertSorted(x: string, s: seq<string>)
    requires Sorted(s)
    ensures Sorted(Insert(x, s))
  {
    if s != [] && Below(x, s[0]) {
      forall y | y in s ensures Below(x, y) {
        FirstIsLeast(s, y);
        BelowTransitive(x, s[0], y);
      }
      SortedBefore(x, s);
    } else if s != [] {
      InsertSorted(x, s[1..]);
      BelowTotal(x, s[0]);
      forall y | y in Insert(x, s[1..]) ensures Below(s[0], y) {
        assert y in multiset(Insert(x, s[1..]));
        if y != x {
          assert y in multiset(s[1..]);
          FirstIsLeast(s, y);
        }
      }
      SortedBefore(s[0], Insert(x, s[1..]));
    }
  }

  /** The library sort, by any algorithm: SortedIsUnique leaves only one possible result. */
  function SortStrings(s: seq<string>): (r: seq<string>)
    ensures Sorted(r) && multiset(r) == multiset(s)
  {
    if s == [] then [] else
      assert s == [s[0]] + s[1..];
      var rest := SortStrings(s[1..]);
      assert Sorted(Insert(s[0], rest)) by { InsertSorted(s[0], rest); }
      Insert(s[0], rest)
  }

  /** The valid votes with a given vote id, as pairs of a question and a voter. */
  ghost function WithID(t: Tally, id: string): set<(string, string)> {
    set q, s | q in t && s in t[q] && t[q][s].id == id :: (q, s)
  }

  /** The list that is hashed: sorted, each id as often as it occurs among the valid votes. */
  ghost predicate IsRegister(list: seq<string>, t: Tally) {
    Sorted(list) && forall id :: multiset(list)[id] == |WithID(t, id)|
  }

  /** Two tallies in which every id occurs equally often have one and the same register, so the
      order in which the maps are visited cannot change the hash. */
  lemma RegisterIsUnique(a: seq<string>, t: Tally, b: seq<string>, u: Tally)
    requires IsRegister(a, t) && IsRegister(b, u)
    ensures a == b <==> forall id :: |WithID(t, id)| == |WithID(u, id)|
  {
    if forall id :: |WithID(t, id)| == |WithID(u, id)| {
      forall id ensures multiset(a)[id] == multiset(b)[id] {
        assert |WithID(t, id)| == |WithID(u, id)|;
      }
      assert multiset(a) == multiset(b);
      SortedIsUnique(a, b);
    }
    if a == b {
      forall id ensures |WithID(t, id)| == |WithID(u, id)| {
        assert multiset(a)[id] == multiset(b)[id];
      }
    }
  }

  ghost function OfQuestions(t: Tally, id: string, qs: set<string>): set<(string, string)> {
    set p | p in WithID(t, id) && p.0 in qs
  }

  ghost function OfVoters(t: Tally, id: string, q: string, ss: set<string>): set<(string, string)> {
    set p | p in WithID(t, id) && p.0 == q && p.1 in ss
  }

  /** The ids of all votes on the questions qs, and of those on question q by the voters ss. */
  ghost predicate Gathered(list: seq<string>, t: Tally, qs: set<string>, q: string, ss: set<string>) {
    forall id :: multiset(list)[id] == |OfQuestions(t, id, qs)| + |OfVoters(t, id, q, ss)|
  }

  ghost predicate GatheredAll(list: seq<string>, t: Tally, qs: set<string>) {
    forall id :: multiset(list)[id] == |OfQuestions(t, id, qs)|
  }

  lemma AddVoter(t: Tally, id: string, q: string, ss: set<string>, s: string)
    requires q in t && s in t[q] && s !in ss
    ensures |OfVoters(t, id, q, ss + {s})| == |OfVoters(t, id, q, ss)| + if t[q][s].id == id then 1 else 0
  {
    var was, now := OfVoters(t, id, q, ss), OfVoters(t, id, q, ss + {s});
    if t[q][s].id == id {
      assert (q, s) in WithID(t, id);
      assert now == was + {(q, s)};
    } else {
      assert now == was;
    }
  }

  lemma GatherOne(list: seq<string>, t: Tally, qs: set<string>, q: string, ss: set<string>, s: string)
    requires Gathered(list, t, qs, q, ss)
    requires q in t && s in t[q] && s !in ss
    ensures Gathered(list + [t[q][s].id], t, qs, q, ss + {s})
  {
    var longer := list + [t[q][s].id];
    forall id
      ensures multiset(longer)[id] == |OfQuestions(t, id, qs)| + |OfVoters(t, id, q, ss + {s})|
    {
      AddVoter(t, id, q, ss, s);
      assert multiset(longer)[id] == multiset(list)[id] + if t[q][s].id == id then 1 else 0;
    }
  }

  lemma EnterQuestion(list: seq<string>, t: Tally, qs: set<string>, q: string)
    requires GatheredAll(list, t, qs)
    ensures Gathered(list, t, qs, q, {})
  {
    assert forall id :: OfVoters(t, id, q, {}) == {};
  }

  lemma AddQuestion(t: Tally, id: string, qs: set<string>, q: string)
    requires q in t && q !in qs
    ensures |OfQuestions(t, id, qs + {q})| == |OfQuestions(t, id, qs)| + |OfVoters(t, id, q, t[q].Keys)|
  {
    var was, more := OfQuestions(t, id, qs), OfVoters(t, id, q, t[q].Keys);
    assert OfQuestions(t, id, qs + {q}) == was + more && was !! more;
  }

  lemma LeaveQuestion(list: seq<string>, t: Tally, qs: set<string>, q: string)
    requires q in t && q !in qs && Gathered(list, t, qs, q, t[q].Keys)
    ensures GatheredAll(list, t, qs + {q})
  {
    forall id ensures |OfQuestions(t, id, qs + {q})| == |OfQuestions(t, id, qs)| + |OfVoters(t, id, q, t[q].Keys)| {
      AddQuestion(t, id, qs, q);
    }
  }

  /** The two nested loops of verifyRegisteredVotes, over maps visited in any order, and the sort. */
  method SortedVoteIDs(t: Tally) returns (list: seq<string>)
    ensures IsRegister(list, t)
  {
    list := [];
    var questions := t.Keys;
    ghost var done: set<string> := {};
    assert GatheredAll(list, t, done) by {
      assert forall id :: OfQuestions(t, id, {}) == {};
    }
    while questions != {}
      invariant Split(done, questions, t.Keys)
      invariant GatheredAll(list, t, done)
      decreases |questions|
    {
      var q :| q in questions;
      MoveOne(done, questions, t.Keys, q);
      var voters := t[q].Keys;
      ghost var seen: set<string> := {};
      EnterQuestion(list, t, done, q);
      while voters != {}
        invariant Split(seen, voters, t[q].Keys)
        invariant Gathered(list, t, done, q, seen)
        decreases |voters|
      {
        var s :| s in voters;
        MoveOne(seen, voters, t[q].Keys, s);
        GatherOne(list, t, done, q, seen, s);
        list := list + [t[q][s].id];
        voters := voters - {s};
        seen := seen + {s};
      }
      assert seen == t[q].Keys;
      LeaveQuestion(list, t, done, q);
      questions := questions - {q};
      done := done + {q};
    }
    assert done == t.Keys;
    GatheredIsRegister(list, t);
    list := SortStrings(list);
  }

  lemma GatheredIsRegister(list: seq<string>, t: Tally)
    requires GatheredAll(list, t, t.Keys)
    ensures IsRegister(SortStrings(list), t)
  {
    forall id ensures multiset(SortStrings(list))[id] == |WithID(t, id)| {
      assert OfQuestions(t, id, t.Keys) == WithID(t, id);
    }
  }
}
