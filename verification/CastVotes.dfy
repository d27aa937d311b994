/** Recording cast votes: updateVote, which the channel runs on each message as it arrives and
    the database folds over rows in no particular order. */
module CastVotes {
  import opened Basics

  datatype Choice = Open(index: int) | Secret(cipher: string)

  datatype Vote = Vote(id: string, question: string, choice: Choice)

  datatype CastVote = CastVote(msgID: string, sender: string, createdAt: int, votes: seq<Vote>)

  datatype ValidVote = ValidVote(msgID: string, id: string, voteTime: int, choice: Choice)

  /** The valid votes: question id, then voter. */
  type Tally = map<string, map<string, ValidVote>>

  // ---------- One message ----------

  predicate Names(c: CastVote, q: string) {
    exists i :: 0 <= i < |c.votes| && c.votes[i].question == q
  }

  /** The place of the first vote for q, or the end. */
  function FirstFor(votes: seq<Vote>, q: string): (n: nat)
    ensures n <= |votes| && (n < |votes| ==> votes[n].question == q)
    ensures forall i :: 0 <= i < n ==> votes[i].question != q
  {
    if votes == [] || votes[0].question == q then 0 else 1 + FirstFor(votes[1..], q)
  }

  /** What message c says about question q: only its first vote for q counts. */
  function Ballot(c: CastVote, q: string): (v: ValidVote)
    requires Names(c, q)
    ensures v.msgID == c.msgID && v.voteTime == c.createdAt
  {
    var v := c.votes[FirstFor(c.votes, q)];
    ValidVote(c.msgID, v.id, c.createdAt, v.choice)
  }

  predicate Counts(entries: map<string, ValidVote>, c: CastVote) {
    c.sender in entries ==> entries[c.sender].voteTime < c.createdAt
  }

  function AfterEntry(entries: map<string, ValidVote>, c: CastVote, q: string): map<string, ValidVote> {
    if Names(c, q) && Counts(entries, c) then entries[c.sender := Ballot(c, q)] else entries
  }

  function After(t: Tally, c: CastVote): (r: Tally)
    ensures r.Keys == t.Keys
  {
    map q | q in t :: AfterEntry(t[q], c, q)
  }

  /** The number of leading votes of c that name a known question. */
  function KnownPrefix(t: Tally, votes: seq<Vote>): (n: nat)
    ensures n <= |votes|
    ensures forall i :: 0 <= i < n ==> votes[i].question in t
    ensures n < |votes| ==> votes[n].question !in t
  {
    if votes == [] || votes[0].question !in t then 0 else 1 + KnownPrefix(t, votes[1..])
  }

  predicate AllKnown(t: Tally, c: CastVote) {
    forall i :: 0 <= i < |c.votes| ==> c.votes[i].question in t
  }

  function Cut(c: CastVote, n: nat): CastVote
    requires n <= |c.votes|
  {
    c.(votes := c.votes[..n])
  }

  function Written(entries: map<string, ValidVote>, c: CastVote, v: Vote): map<string, ValidVote> {
    if Counts(entries, c) then entries[c.sender := ValidVote(c.msgID, v.id, c.createdAt, v.choice)] else entries
  }

  /** One more vote for q: counted only when it is the first for q. */
  lemma OneMoreForQuestion(entries: map<string, ValidVote>, c: CastVote, n: nat)
    requires n < |c.votes|
    ensures var q := c.votes[n].question;
      AfterEntry(entries, Cut(c, n + 1), q) == Written(AfterEntry(entries, Cut(c, n), q), c, c.votes[n])
  {
    var v := c.votes[n];
    var was, now := Cut(c, n), Cut(c, n + 1);
    assert now.votes[n] == v;
    assert forall i :: 0 <= i < n ==> now.votes[i] == was.votes[i];
    var k := FirstFor(now.votes, v.question);
    assert Names(was, v.question) <==> k < n;
    assert k < n ==> FirstFor(was.votes, v.question) == k;
  }

  lemma OneMoreForAnother(entries: map<string, ValidVote>, c: CastVote, n: nat, q: string)
    requires n < |c.votes| && q != c.votes[n].question
    ensures AfterEntry(entries, Cut(c, n + 1), q) == AfterEntry(entries, Cut(c, n), q)
  {
    var was, now := Cut(c, n), Cut(c, n + 1);
    assert forall i :: 0 <= i < n ==> now.votes[i] == was.votes[i];
    var k := FirstFor(was.votes, q);
    assert Names(was, q) ==> FirstFor(now.votes, q) == k;
  }

  /** One turn of updateVote's loop. */
  lemma OneMoreVote(t: Tally, c: CastVote, n: nat)
    requires n < |c.votes| && c.votes[n].question in t
    ensures var q := c.votes[n].question;
      var r := After(t, Cut(c, n));
      After(t, Cut(c, n + 1)) == r[q := Written(r[q], c, c.votes[n])]
  {
    var v := c.votes[n];
    var r, next := After(t, Cut(c, n)), After(t, Cut(c, n + 1));
    forall q | q in t
      ensures next[q] == if q == v.question then Written(r[q], c, v) else r[q]
    {
      if q == v.question { OneMoreForQuestion(t[q], c, n); } else { OneMoreForAnother(t[q], c, n, q); }
    }
  }

  /** The first n votes of c name known questions and have made `now` of t. */
  ghost predicate Applied(t: Tally, c: CastVote, n: nat, now: Tally) {
    && n <= |c.votes|
    && (forall i :: 0 <= i < n ==> c.votes[i].question in t)
    && now == After(t, Cut(c, n))
  }

  lemma NoneApplied(t: Tally, c: CastVote)
    ensures Applied(t, c, 0, t)
  {
    assert After(t, Cut(c, 0)) == t;
  }

  lemma OneMoreApplied(t: Tally, c: CastVote, n: nat, now: Tally)
    requires Applied(t, c, n, now) && n < |c.votes| && c.votes[n].question in now
    ensures var q := c.votes[n].question;
      Applied(t, c, n + 1, if Counts(now[q], c) then now[q := Written(now[q], c, c.votes[n])] else now)
  {
    var q := c.votes[n].question;
    OneMoreVote(t, c, n);
    assert !Counts(now[q], c) ==> now[q := Written(now[q], c, c.votes[n])] == now;
  }

  lemma UnknownAt(t: Tally, c: CastVote, n: nat, now: Tally)
    requires Applied(t, c, n, now) && n < |c.votes| && c.votes[n].question !in now
    ensures !AllKnown(t, c) && now == After(t, Cut(c, KnownPrefix(t, c.votes)))
  {
    assert KnownPrefix(t, c.votes) == n;
  }

  lemma AllApplied(t: Tally, c: CastVote, now: Tally)
    requires Applied(t, c, |c.votes|, now)
    ensures AllKnown(t, c) && now == After(t, Cut(c, KnownPrefix(t, c.votes))) && now == After(t, c)
  {
    assert KnownPrefix(t, c.votes) == |c.votes| && Cut(c, |c.votes|) == c;
  }

  /** getQuestionsFromMessage: no votes yet, or an error when two questions share an id. */
  method GetQuestions(ids: seq<string>) returns (ok: bool, questions: Tally)
    ensures ok <==> NoDup(ids)
    ensures ok ==> questions == Blank(set i | i in ids)
  {
    questions := map[];
    var n := 0;
    while n < |ids|
      invariant n <= |ids|
      invariant NoDup(ids[..n])
      invariant questions == Blank(set i | i in ids[..n])
    {
      if ids[n] in questions { return false, map[]; }
      assert ids[..n + 1] == ids[..n] + [ids[n]];
      questions := questions[ids[n] := map[]];
      n := n + 1;
    }
    assert ids[..n] == ids;
    ok := true;
  }

  /** The questions of one election with their valid votes, updated in place. */
  class Questions {
    var validVotes: Tally

    constructor (initial: Tally)
      ensures validVotes == initial
    {
      validVotes := initial;
    }

    method UpdateVote(c: CastVote) returns (ok: bool)
      modifies this
      ensures ok <==> AllKnown(old(validVotes), c)
      ensures validVotes == After(old(validVotes), Cut(c, KnownPrefix(old(validVotes), c.votes)))
      ensures ok ==> validVotes == After(old(validVotes), c)
    {
      ghost var was := validVotes;
      var idx := 0;
      NoneApplied(was, c);
      while idx < |c.votes|
        invariant idx <= |c.votes|
        invariant Applied(was, c, idx, validVotes)
      {
        var vote := c.votes[idx];
        if vote.question !in validVotes {
          UnknownAt(was, c, idx, validVotes);
          return false;
        }
        OneMoreApplied(was, c, idx, validVotes);
        var entries := validVotes[vote.question];
        if c.sender !in entries || entries[c.sender].voteTime < c.createdAt {
          validVotes := validVotes[vote.question :=
            entries[c.sender := ValidVote(c.msgID, vote.id, c.createdAt, vote.choice)]];
        }
        idx := idx + 1;
      }
      AllApplied(was, c, validVotes);
      ok := true;
    }

    /** GetElectionQuestionsWithValidVotes: stops with an error at the first row whose message
        names an unknown question. */
    method Collect(rows: seq<CastVote>) returns (ok: bool)
      modifies this
      ensures ok <==> forall i :: 0 <= i < |rows| ==> AllKnown(old(validVotes), rows[i])
      ensures ok ==> validVotes == Fold(old(validVotes), rows)
    {
      ghost var was := validVotes;
      var i := 0;
      while i < |rows|
        invariant i <= |rows|
        invariant forall j :: 0 <= j < i ==> AllKnown(was, rows[j])
        invariant validVotes == Fold(was, rows[..i])
      {
        assert rows[..i + 1][..i] == rows[..i];
        assert AllKnown(validVotes, rows[i]) <==> AllKnown(was, rows[i]);
        var good := UpdateVote(rows[i]);
        if !good { return false; }
        i := i + 1;
      }
      assert rows[..i] == rows;
      ok := true;
    }
  }

  function Blank(ids: set<string>): (t: Tally)
    ensures t.Keys == ids
  {
    map q | q in ids :: map[]
  }

  function Fold(t: Tally, rows: seq<CastVote>): (r: Tally)
    ensures r.Keys == t.Keys
  {
    if rows == [] then t else After(Fold(t, rows[..|rows| - 1]), rows[|rows| - 1])
  }

  // ---------- What a fold leaves: the latest message of each voter ----------

  predicate By(c: CastVote, q: string, s: string) {
    c.sender == s && Names(c, q)
  }

  /** Row k is the first of s's messages naming q to carry the latest creation time. */
  predicate Latest(rows: seq<CastVote>, k: int, q: string, s: string) {
    0 <= k < |rows| && By(rows[k], q, s) && (forall j :: 0 <= j < |rows| && By(rows[j], q, s) ==>
      rows[j].createdAt <= rows[k].createdAt && (j < k ==> rows[j].createdAt < rows[k].createdAt))
  }

  predicate Voted(rows: seq<CastVote>, q: string, s: string) {
    exists j :: 0 <= j < |rows| && By(rows[j], q, s)
  }

  lemma LatestReplaced(rows: seq<CastVote>, k: int, q: string, s: string)
    requires rows != [] && By(rows[|rows| - 1], q, s)
    requires Voted(rows[..|rows| - 1], q, s) ==> Latest(rows[..|rows| - 1], k, q, s)
    requires Voted(rows[..|rows| - 1], q, s) ==> rows[k].createdAt < rows[|rows| - 1].createdAt
    ensures Latest(rows, |rows| - 1, q, s)
  {
    var init := rows[..|rows| - 1];
    forall j | 0 <= j < |init| && By(rows[j], q, s)
      ensures rows[j].createdAt < rows[|rows| - 1].createdAt
    {
      assert By(init[j], q, s);
    }
  }

  lemma LatestKept(rows: seq<CastVote>, k: int, q: string, s: string)
    requires rows != [] && Latest(rows[..|rows| - 1], k, q, s)
    requires By(rows[|rows| - 1], q, s) ==> rows[|rows| - 1].createdAt <= rows[k].createdAt
    ensures Latest(rows, k, q, s)
  {
    var init := rows[..|rows| - 1];
    assert rows[k] == init[k];
    forall j | 0 <= j < |init| && By(rows[j], q, s)
      ensures rows[j].createdAt <= rows[k].createdAt && (j < k ==> rows[j].createdAt < rows[k].createdAt)
    {
      assert By(init[j], q, s);
    }
  }

  lemma VotedGrows(rows: seq<CastVote>, q: string, s: string)
    requires rows != []
    ensures Voted(rows, q, s) <==> Voted(rows[..|rows| - 1], q, s) || By(rows[|rows| - 1], q, s)
  {
    var init := rows[..|rows| - 1];
    if Voted(init, q, s) {
      var j :| 0 <= j < |init| && By(init[j], q, s);
      assert By(rows[j], q, s);
    }
    if Voted(rows, q, s) && !By(rows[|rows| - 1], q, s) {
      var j :| 0 <= j < |rows| && By(rows[j], q, s);
      assert By(init[j], q, s);
    }
  }

  predicate Entry(t: Tally, rows: seq<CastVote>, k: int, q: string, s: string) {
    Latest(rows, k, q, s) && q in t && s in t[q] && t[q][s] == Ballot(rows[k], q)
  }

  /** Each entry is the ballot of that voter's latest message naming the question, and every voter
      who named the question has an entry. */
  lemma {:induction false} EntryIsLatest(ids: set<string>, rows: seq<CastVote>, q: string, s: string) returns (k: int)
    requires q in ids
    ensures s in Fold(Blank(ids), rows)[q] <==> Voted(rows, q, s)
    ensures Voted(rows, q, s) ==> Entry(Fold(Blank(ids), rows), rows, k, q, s)
  {
    k := 0;
    if rows != [] {
      var n := |rows| - 1;
      var init, c := rows[..n], rows[n];
      k := EntryIsLatest(ids, init, q, s);
      VotedGrows(rows, q, s);
      var was := Fold(Blank(ids), init)[q];
      assert Fold(Blank(ids), rows)[q] == AfterEntry(was, c, q);
      if By(c, q, s) && Counts(was, c) {
        LatestReplaced(rows, k, q, s);
        k := n;
      } else if Voted(init, q, s) {
        LatestKept(rows, k, q, s);
      }
    }
  }

  // ---------- Order of the rows ----------

  /** Of the latest of s's messages naming q there is only one. */
  predicate OneLatest(rows: seq<CastVote>, q: string, s: string) {
    forall i, j ::
      0 <= i < j < |rows| && By(rows[i], q, s) && By(rows[j], q, s) && rows[i].createdAt == rows[j].createdAt ==>
      exists k :: 0 <= k < |rows| && By(rows[k], q, s) && rows[i].createdAt < rows[k].createdAt
  }

  ghost predicate Settled(ids: set<string>, rows: seq<CastVote>) {
    forall q, s :: q in ids ==> OneLatest(rows, q, s)
  }

  ghost predicate OrderFree(ids: set<string>, rows: seq<CastVote>) {
    forall other: seq<CastVote> :: multiset(other) == multiset(rows) ==>
      Fold(Blank(ids), other) == Fold(Blank(ids), rows)
  }

  predicate DistinctIDs(rows: seq<CastVote>) {
    forall i, j :: 0 <= i < j < |rows| ==> rows[i].msgID != rows[j].msgID
  }

  /** A sender's messages carry pairwise different creation times. */
  predicate DistinctTimes(rows: seq<CastVote>) {
    forall i, j :: 0 <= i < j < |rows| && rows[i].sender == rows[j].sender ==> rows[i].createdAt != rows[j].createdAt
  }

  lemma SameMembers(a: seq<CastVote>, b: seq<CastVote>, i: nat) returns (j: nat)
    requires multiset(a) == multiset(b) && i < |a|
    ensures j < |b| && b[j] == a[i]
  {
    assert a[i] in multiset(a);
    assert a[i] in multiset(b);
    assert a[i] in b;
    j :| j < |b| && b[j] == a[i];
  }

  lemma SameVoted(a: seq<CastVote>, b: seq<CastVote>, q: string, s: string)
    requires multiset(a) == multiset(b) && Voted(a, q, s)
    ensures Voted(b, q, s)
  {
    var i :| 0 <= i < |a| && By(a[i], q, s);
    var j := SameMembers(a, b, i);
    assert By(b[j], q, s);
  }

  /** The latest messages of two orders of the same rows are the same message. */
  lemma SameLatest(a: seq<CastVote>, b: seq<CastVote>, i: nat, j: nat, q: string, s: string)
    requires multiset(a) == multiset(b) && OneLatest(a, q, s)
    requires Latest(a, i, q, s) && Latest(b, j, q, s)
    ensures a[i] == b[j]
  {
    var i' := SameMembers(b, a, j);
    var j' := SameMembers(a, b, i);
    assert By(a[i'], q, s) && By(b[j'], q, s);
    assert a[i'].createdAt == a[i].createdAt;
  }

  lemma SettledIsOrderFree(ids: set<string>, rows: seq<CastVote>, other: seq<CastVote>)
    requires Settled(ids, rows) && multiset(other) == multiset(rows)
    ensures Fold(Blank(ids), other) == Fold(Blank(ids), rows)
  {
    var x, y := Fold(Blank(ids), rows), Fold(Blank(ids), other);
    forall q, s | q in ids
      ensures s in x[q] <==> s in y[q]
      ensures s in x[q] ==> x[q][s] == y[q][s]
    {
      var i := EntryIsLatest(ids, rows, q, s);
      var j := EntryIsLatest(ids, other, q, s);
      if Voted(rows, q, s) {
        SameVoted(rows, other, q, s);
        SameLatest(rows, other, i, j, q, s);
      } else if Voted(other, q, s) {
        SameVoted(other, rows, q, s);
      }
    }
    forall q | q in ids ensures x[q] == y[q] {}
  }

  function Front(rows: seq<CastVote>, i: nat): seq<CastVote>
    requires i < |rows|
  {
    [rows[i]] + rows[..i] + rows[i + 1..]
  }

  /** Moving one of the latest messages to the front makes it the one that is kept. */
  lemma FrontWins(ids: set<string>, rows: seq<CastVote>, i: nat, q: string, s: string)
    requires i < |rows| && q in ids && By(rows[i], q, s)
    requires forall k :: 0 <= k < |rows| && By(rows[k], q, s) ==> rows[k].createdAt <= rows[i].createdAt
    ensures multiset(Front(rows, i)) == multiset(rows)
    ensures s in Fold(Blank(ids), Front(rows, i))[q]
    ensures Fold(Blank(ids), Front(rows, i))[q][s].msgID == rows[i].msgID
  {
    var f := Front(rows, i);
    assert rows == rows[..i] + [rows[i]] + rows[i + 1..];
    assert By(f[0], q, s);
    var k := EntryIsLatest(ids, f, q, s);
    if k != 0 {
      var j := SameMembers(f, rows, k);
      assert false;
    }
  }

  lemma UnsettledIsOrdered(ids: set<string>, rows: seq<CastVote>)
    requires DistinctIDs(rows) && OrderFree(ids, rows)
    ensures Settled(ids, rows)
  {
    forall q, s | q in ids ensures OneLatest(rows, q, s) {
      forall i, j | 0 <= i < j < |rows| && By(rows[i], q, s) && By(rows[j], q, s) &&
        rows[i].createdAt == rows[j].createdAt
        ensures exists k :: 0 <= k < |rows| && By(rows[k], q, s) && rows[i].createdAt < rows[k].createdAt
      {
        if forall k :: 0 <= k < |rows| && By(rows[k], q, s) ==> rows[k].createdAt <= rows[i].createdAt {
          FrontWins(ids, rows, i, q, s);
          FrontWins(ids, rows, j, q, s);
          assert false;
        }
      }
    }
  }

  /** The rows of selectCastVotes come without an ORDER BY. Their order is immaterial exactly when,
      for each question and voter, one message alone carries the voter's latest creation time. */
  lemma OrderFreeExactly(ids: set<string>, rows: seq<CastVote>)
    requires DistinctIDs(rows)
    ensures OrderFree(ids, rows) <==> Settled(ids, rows)
  {
    if Settled(ids, rows) {
      forall other: seq<CastVote> | multiset(other) == multiset(rows)
        ensures Fold(Blank(ids), other) == Fold(Blank(ids), rows)
      {
        SettledIsOrderFree(ids, rows, other);
      }
    }
    if OrderFree(ids, rows) { UnsettledIsOrdered(ids, rows); }
  }

  /** Distinct creation times for each sender suffice. */
  lemma DistinctTimesSuffice(ids: set<string>, rows: seq<CastVote>, other: seq<CastVote>)
    requires DistinctTimes(rows) && multiset(other) == multiset(rows)
    ensures Fold(Blank(ids), other) == Fold(Blank(ids), rows)
  {
    assert Settled(ids, rows);
    SettledIsOrderFree(ids, rows, other);
  }

  /** Two messages of one voter with one creation time: the order of the rows decides. */
  lemma TieIsOrdered(ids: set<string>, a: CastVote, b: CastVote, q: string)
    requires q in ids && a.sender == b.sender && a.createdAt == b.createdAt && a.msgID != b.msgID
    requires Names(a, q) && Names(b, q)
    ensures Fold(Blank(ids), [a, b]) != Fold(Blank(ids), [b, a])
  {
    var rows := [a, b];
    FrontWins(ids, rows, 0, q, a.sender);
    FrontWins(ids, rows, 1, q, a.sender);
    FrontOfTwo(a, b);
  }

  lemma FrontOfTwo(a: CastVote, b: CastVote)
    ensures Front([a, b], 0) == [a, b]
    ensures Front([a, b], 1) == [b, a]
  {
  }

  lemma OrderCanMatter() returns (a: CastVote, b: CastVote)
    ensures a.sender == b.sender && a.createdAt == b.createdAt
    ensures Fold(Blank({"q"}), [a, b]) != Fold(Blank({"q"}), [b, a])
  {
    a := CastVote("a", "s", 1, [Vote("x", "q", Open(0))]);
    b := CastVote("b", "s", 1, [Vote("y", "q", Open(1))]);
    assert a.votes[0].question == "q" && b.votes[0].question == "q";
    assert a.msgID[0] != b.msgID[0];
    TieIsOrdered({"q"}, a, b, "q");
  }
}
