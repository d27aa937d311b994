/** What an election publishes in terms of the messages it accepted: who voted, and for which option. */
module ElectionResults {
  import opened Basics
  import opened CastVotes
  import opened ElectionTally
  import opened Election

  // ---------- Who may do what ----------

  /** Opens and ends come from the organizer, votes from an attendee or the organizer; all of them name this
      election, and none is older than it. */
  lemma AcceptedByRight(s: Setup, ms: seq<Message>, k: nat)
    requires AcceptedAt(s, ms, k)
    ensures var m := ms[k];
      match m.data
      case ElectionOpen(lao, election, at) =>
        m.sender == s.organizer && lao == s.lao && election == s.election && at >= 0 && at >= s.createdAt
      case VoteCastVote(lao, election, at, _) =>
        (m.sender in s.attendees || m.sender == s.organizer) && lao == s.lao && election == s.election &&
        at >= 0 && at >= s.createdAt
      case ElectionEnd(lao, election, at, _) =>
        m.sender == s.organizer && lao == s.lao && election == s.election && at >= 0 && at >= s.createdAt
      case ElectionResult(encoded) => encoded
  {
  }

  /** An end that registers votes names the digest of the sorted ids of the valid votes of that moment. */
  lemma EndNamesRegister(s: Setup, ms: seq<Message>, k: nat, list: seq<string>)
    requires AcceptedAt(s, ms, k) && ms[k].data.ElectionEnd? && ms[k].data.registered != ""
    requires IsRegister(list, Run(s, ms[..k]).votes)
    ensures ms[k].data.registered == s.digest(list)
  {
    var t := Run(s, ms[..k]).votes;
    assert RegisteredOK(s, t, ms[k].data.registered);
    var other :| IsRegister(other, t) && ms[k].data.registered == s.digest(other);
    RegisterIsUnique(other, t, list, t);
  }

  /** A cast vote as the channel accepts it. */
  ghost predicate Verified(s: Setup, c: CastVote) {
    && (c.sender in s.attendees || c.sender == s.organizer)
    && forall i :: 0 <= i < |c.votes| ==> VoteOK(s, c.votes[i])
  }

  lemma {:induction false} CastsAreVerified(s: Setup, ms: seq<Message>, k: nat)
    requires k < |Casts(s, ms)|
    ensures Verified(s, Casts(s, ms)[k])
    decreases |ms|
  {
    if ms != [] {
      var init := ms[..|ms| - 1];
      if k < |Casts(s, init)| { CastsAreVerified(s, init, k); }
    }
  }

  // ---------- What a voter's vote is ----------

  /** Vote j of the message is its first for the question. */
  predicate FirstVote(c: CastVote, q: string, j: int) {
    0 <= j < |c.votes| && c.votes[j].question == q && forall i :: 0 <= i < j ==> c.votes[i].question != q
  }

  /** In the first of the voter's latest messages naming the question, vote j of message k is the first for it. */
  ghost predicate LastWord(casts: seq<CastVote>, q: string, voter: string, k: int, j: int) {
    Latest(casts, k, q, voter) && FirstVote(casts[k], q, j)
  }

  lemma OneFirstVote(c: CastVote, q: string, j: int)
    requires FirstVote(c, q, j)
    ensures Names(c, q) && FirstFor(c.votes, q) == j
  {
  }

  lemma OneLastWord(casts: seq<CastVote>, q: string, voter: string, k: int, j: int, k': int, j': int)
    requires LastWord(casts, q, voter, k, j) && LastWord(casts, q, voter, k', j')
    ensures k == k' && j == j'
  {
    OneFirstVote(casts[k], q, j);
    OneFirstVote(casts[k'], q, j');
  }

  /** The form a vote must have in this election: the right kind of choice, and an id that is the hash of
      what the vote says. */
  predicate WellFormed(s: Setup, q: string, v: ValidVote) {
    match s.kind
    case OpenBallot => v.choice.Open? && v.id == s.voteID(q, Some(v.choice))
    case SecretBallot => v.choice.Secret? && s.cipher(v.choice.cipher) && v.id == s.voteID(q, Some(v.choice))
    case OtherBallot => v.id == s.voteID(q, None)
  }

  /** After any run a voter has a valid vote exactly after naming the question, and then the voter may vote,
      the vote is the last word of the voter, and it has the form of the election. */
  lemma VoteIsLastWord(s: Setup, ms: seq<Message>, q: string, voter: string) returns (k: int, j: int)
    requires q in s.questions
    ensures q in Run(s, ms).votes && (voter in Run(s, ms).votes[q] <==> Voted(Casts(s, ms), q, voter))
    ensures voter in Run(s, ms).votes[q] ==>
              && LastWord(Casts(s, ms), q, voter, k, j)
              && (voter in s.attendees || voter == s.organizer)
              && var c := Casts(s, ms)[k];
              Run(s, ms).votes[q][voter] == ValidVote(c.msgID, c.votes[j].id, c.createdAt, c.votes[j].choice) &&
              WellFormed(s, q, Run(s, ms).votes[q][voter])
  {
    j := 0;
    k := TallyOfRun(s, ms, q, voter);
    if Voted(Casts(s, ms), q, voter) {
      var c := Casts(s, ms)[k];
      CastsAreVerified(s, ms, k);
      j := FirstFor(c.votes, q);
      assert j < |c.votes| by {
        var i :| 0 <= i < |c.votes| && c.votes[i].question == q;
      }
      assert VoteOK(s, c.votes[j]);
    }
  }

  // ---------- Which option it counts for ----------

  /** The choice stands for this option: openly, or when it is decrypted. */
  predicate StandsFor(s: Setup, choice: Choice, option: int) {
    match s.kind
    case OpenBallot => choice == Choice.Open(option)
    case SecretBallot => choice.Secret? && s.decrypt(choice.cipher) == Some(option)
    case OtherBallot => false
  }

  /** The voter's last word on the question is this option. */
  ghost predicate Chose(s: Setup, casts: seq<CastVote>, q: string, voter: string, option: int) {
    exists k, j :: LastWord(casts, q, voter, k, j) && StandsFor(s, casts[k].votes[j].choice, option)
  }

  ghost function Choosers(s: Setup, casts: seq<CastVote>, q: string, option: int): set<string> {
    set c | c in casts && Chose(s, casts, q, c.sender, option) :: c.sender
  }

  lemma ChoosersAre(s: Setup, casts: seq<CastVote>, q: string, option: int, voter: string)
    ensures voter in Choosers(s, casts, q, option) <==> Chose(s, casts, q, voter, option)
  {
    if Chose(s, casts, q, voter, option) {
      var k, j :| LastWord(casts, q, voter, k, j) && StandsFor(s, casts[k].votes[j].choice, option);
      assert casts[k] in casts && casts[k].sender == voter;
    }
  }

  /** A voter counts for an option exactly when that is the voter's last word. */
  lemma CountsForChoice(s: Setup, ms: seq<Message>, q: string, option: int, voter: string)
    requires q in s.questions
    ensures q in Run(s, ms).votes
    ensures voter in Voters(Indices(s.kind, s.decrypt, Run(s, ms).votes[q]), option) <==>
            Chose(s, Casts(s, ms), q, voter, option)
  {
    var casts := Casts(s, ms);
    var k, j := VoteIsLastWord(s, ms, q, voter);
    if voter in Run(s, ms).votes[q] {
      forall k', j' | LastWord(casts, q, voter, k', j') ensures k' == k && j' == j {
        OneLastWord(casts, q, voter, k, j, k', j');
      }
    }
  }

  lemma VotersAreChoosers(s: Setup, ms: seq<Message>, q: string, option: int)
    requires q in s.questions
    ensures q in Run(s, ms).votes
    ensures Voters(Indices(s.kind, s.decrypt, Run(s, ms).votes[q]), option) == Choosers(s, Casts(s, ms), q, option)
  {
    var k, j := VoteIsLastWord(s, ms, q, "");
    var index := Indices(s.kind, s.decrypt, Run(s, ms).votes[q]);
    forall voter ensures voter in Voters(index, option) <==> voter in Choosers(s, Casts(s, ms), q, option) {
      CountsForChoice(s, ms, q, option, voter);
      ChoosersAre(s, Casts(s, ms), q, option, voter);
    }
  }

  /** What gatherResults publishes after any run says, for each option of each question it reports, how many
      voters' last word on the question is that option. */
  lemma ResultsCountChoices(s: Setup, ms: seq<Message>, r: seq<QuestionResult>, n: nat, option: nat)
    requires s.questions.Keys <= Run(s, ms).votes.Keys
    requires Results(r, s.kind, s.decrypt, s.questions, Run(s, ms).votes)
    requires n < |r| && option < |r[n].result|
    ensures r[n].id in s.questions && |r[n].result| == |s.questions[r[n].id].options|
    ensures r[n].result[option].option == s.questions[r[n].id].options[option]
    ensures r[n].result[option].count == |Choosers(s, Casts(s, ms), r[n].id, option)|
  {
    var q := r[n].id;
    assert ResultOf(r[n], s.kind, s.decrypt, s.questions[q], Run(s, ms).votes[q]);
    VotersAreChoosers(s, ms, q, option);
  }

  /** The counts of CountVotes after any run: how many voters chose each option, at most all voters. */
  lemma CountsAreExact(s: Setup, ms: seq<Message>, q: string, counts: seq<nat>)
    requires q in s.questions
    requires q in Run(s, ms).votes && AreCounts(counts, Indices(s.kind, s.decrypt, Run(s, ms).votes[q]))
    ensures forall option :: 0 <= option < |counts| ==> counts[option] == |Choosers(s, Casts(s, ms), q, option)|
    ensures Sum(counts) <= |Run(s, ms).votes[q]|
  {
    var index := Indices(s.kind, s.decrypt, Run(s, ms).votes[q]);
    forall option | 0 <= option < |counts|
      ensures counts[option] == |Choosers(s, Casts(s, ms), q, option)|
    {
      VotersAreChoosers(s, ms, q, option);
    }
    CountsAddUp(index, counts);
    assert index.Keys == Run(s, ms).votes[q].Keys;
  }
}
