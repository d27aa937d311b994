/** The election channel of old/oldchannel/election, message by message and over whole runs. */
module Election {
  import opened Basics
  import opened CastVotes
  import opened ElectionTally

  /** What the setup message and the roll call fix for the whole election. `voteID` is the hash
      a vote must carry, of its question and (where the ballot is open or secret) its choice;
      `digest` is the hash of a list of vote ids; `cipher` says which strings decode to 64 bytes. */
  datatype Setup = Setup(lao: string, election: string, kind: Ballots, createdAt: int, organizer: string,
                         attendees: set<string>, questions: map<string, Question>,
                         voteID: (string, Option<Choice>) -> string, digest: seq<string> -> string,
                         cipher: string -> bool, decrypt: string -> Option<int>)

  datatype Data =
    | ElectionOpen(lao: string, election: string, openedAt: int)
    | VoteCastVote(lao: string, election: string, createdAt: int, votes: seq<Vote>)
    | ElectionEnd(lao: string, election: string, createdAt: int, registered: string)
    | ElectionResult(encoded: bool)

  datatype Message = Message(id: string, sender: string, data: Data)

  datatype State = State(started: bool, terminated: bool, votes: Tally, inbox: set<string>)

  function Initial(s: Setup): State {
    State(false, false, Blank(s.questions.Keys), {})
  }

  // ---------- When a message is accepted ----------

  predicate VoteOK(s: Setup, v: Vote) {
    v.question in s.questions &&
    match s.kind
    case OpenBallot => v.choice.Open? && v.id == s.voteID(v.question, Some(v.choice))
    case SecretBallot => v.choice.Secret? && s.cipher(v.choice.cipher) && v.id == s.voteID(v.question, Some(v.choice))
    case OtherBallot => v.id == s.voteID(v.question, None)
  }

  predicate OpenOK(s: Setup, e: State, m: Message)
    requires m.data.ElectionOpen?
  {
    m.sender == s.organizer && m.data.lao == s.lao && m.data.election == s.election &&
    m.data.openedAt >= 0 && !e.started && !e.terminated && m.data.openedAt >= s.createdAt
  }

  predicate CastDataOK(s: Setup, e: State, m: Message)
    requires m.data.VoteCastVote?
  {
    m.data.lao == s.lao && m.data.election == s.election &&
    !e.terminated && e.started && m.data.createdAt >= 0 &&
    (forall i :: 0 <= i < |m.data.votes| ==> VoteOK(s, m.data.votes[i])) && m.data.createdAt >= s.createdAt
  }

  predicate CastOK(s: Setup, e: State, m: Message)
    requires m.data.VoteCastVote?
  {
    (m.sender in s.attendees || m.sender == s.organizer) && CastDataOK(s, e, m)
  }

  /** An empty list of registered votes is not compared with anything. */
  ghost predicate RegisteredOK(s: Setup, t: Tally, registered: string) {
    registered != "" ==> exists list :: IsRegister(list, t) && registered == s.digest(list)
  }

  ghost predicate EndOK(s: Setup, e: State, m: Message)
    requires m.data.ElectionEnd?
  {
    m.sender == s.organizer && m.data.lao == s.lao && m.data.election == s.election &&
    m.data.createdAt >= 0 && !e.terminated && e.started && m.data.createdAt >= s.createdAt &&
    RegisteredOK(s, e.votes, m.data.registered)
  }

  ghost predicate Accepts(s: Setup, e: State, m: Message) {
    m.id !in e.inbox &&
    match m.data
    case ElectionOpen(_, _, _) => OpenOK(s, e, m)
    case VoteCastVote(_, _, _, _) => CastOK(s, e, m)
    case ElectionEnd(_, _, _, _) => EndOK(s, e, m)
    case ElectionResult(encoded) => encoded
  }

  function CastOf(m: Message): CastVote
    requires m.data.VoteCastVote?
  {
    CastVote(m.id, m.sender, m.data.createdAt, m.data.votes)
  }

  /** The effect of an accepted message. */
  function Effect(e: State, m: Message): State {
    var r := e.(inbox := e.inbox + {m.id});
    match m.data
    case ElectionOpen(_, _, _) => r.(started := true)
    case VoteCastVote(_, _, _, _) => r.(votes := After(e.votes, CastOf(m)))
    case ElectionEnd(_, _, _, _) => r.(started := false, terminated := true)
    case ElectionResult(_) => r
  }

  ghost function Handle(s: Setup, e: State, m: Message): State {
    if Accepts(s, e, m) then Effect(e, m) else e
  }

  /** A cast vote that passes verification names known questions only, so updateVote cannot stop
      halfway and leave part of the message applied. */
  lemma VerifiedIsKnown(s: Setup, e: State, m: Message)
    requires m.data.VoteCastVote? && CastOK(s, e, m) && e.votes.Keys == s.questions.Keys
    ensures AllKnown(e.votes, CastOf(m))
  {
    var votes := CastOf(m).votes;
    forall i | 0 <= i < |votes| ensures votes[i].question in e.votes {
      assert VoteOK(s, m.data.votes[i]);
    }
  }

  // ---------- The channel ----------

  class Channel {
    const setup: Setup
    var started: bool
    var terminated: bool
    const questions: Questions
    var inbox: set<string>
    var sent: seq<seq<QuestionResult>>

    ghost predicate Valid()
      reads this, questions
    {
      questions.validVotes.Keys == setup.questions.Keys && !(started && terminated)
    }

    ghost function Now(): State
      reads this, questions
    {
      State(started, terminated, questions.validVotes, inbox)
    }

    constructor (s: Setup)
      ensures setup == s && Valid() && fresh(questions) && Now() == Initial(s) && sent == []
    {
      setup, started, terminated, inbox, sent := s, false, false, {}, [];
      questions := new Questions(Blank(s.questions.Keys));
    }

    method VerifyVote(v: Vote) returns (ok: bool)
      ensures ok <==> VoteOK(setup, v)
    {
      if v.question !in setup.questions { return false; }
      var vs := None;
      match setup.kind {
        case OpenBallot =>
          if !v.choice.Open? { return false; }
          vs := Some(v.choice);
        case SecretBallot =>
          if !v.choice.Secret? || !setup.cipher(v.choice.cipher) { return false; }
          vs := Some(v.choice);
        case OtherBallot =>
      }
      ok := v.id == setup.voteID(v.question, vs);
    }

    method VerifyMessageCastVote(m: Message) returns (ok: bool)
      requires m.data.VoteCastVote?
      ensures ok <==> CastDataOK(setup, Now(), m)
    {
      if m.data.lao != setup.lao || m.data.election != setup.election { return false; }
      if terminated { return false; }
      if !started { return false; }
      if m.data.createdAt < 0 { return false; }
      for i := 0 to |m.data.votes|
        invariant forall j :: 0 <= j < i ==> VoteOK(setup, m.data.votes[j])
      {
        var good := VerifyVote(m.data.votes[i]);
        if !good { return false; }
      }
      ok := m.data.createdAt >= setup.createdAt;
    }

    method VerifyRegisteredVotes(registered: string) returns (ok: bool)
      requires registered != ""
      ensures ok <==> RegisteredOK(setup, questions.validVotes, registered)
    {
      var list := SortedVoteIDs(questions.validVotes);
      ghost var t := questions.validVotes;
      forall other | IsRegister(other, t) ensures other == list {
        RegisterIsUnique(other, t, list, t);
      }
      ok := registered == setup.digest(list);
    }

    method VerifyMessageElectionEnd(m: Message) returns (ok: bool)
      requires m.data.ElectionEnd? && m.sender == setup.organizer
      ensures ok <==> EndOK(setup, Now(), m)
    {
      if m.data.lao != setup.lao || m.data.election != setup.election { return false; }
      if m.data.createdAt < 0 || terminated || !started || m.data.createdAt < setup.createdAt { return false; }
      ok := true;
      if |m.data.registered| != 0 {
        ok := VerifyRegisteredVotes(m.data.registered);
      }
    }

    method ProcessElectionOpen(m: Message) returns (ok: bool)
      requires Valid() && m.data.ElectionOpen?
      modifies this`started
      ensures Valid() && ok == OpenOK(setup, old(Now()), m)
      ensures Now() == old(Now()).(started := old(started) || ok)
    {
      if m.sender != setup.organizer { return false; }
      if m.data.lao != setup.lao || m.data.election != setup.election { return false; }
      if m.data.openedAt < 0 || started || terminated || m.data.openedAt < setup.createdAt { return false; }
      started := true;
      ok := true;
    }

    method ProcessCastVote(m: Message) returns (ok: bool)
      requires Valid() && m.data.VoteCastVote?
      modifies questions
      ensures Valid() && ok == CastOK(setup, old(Now()), m)
      ensures questions.validVotes ==
        if ok then After(old(questions.validVotes), CastOf(m)) else old(questions.validVotes)
    {
      if m.sender !in setup.attendees && m.sender != setup.organizer { return false; }
      var good := VerifyMessageCastVote(m);
      if !good { return false; }
      VerifiedIsKnown(setup, Now(), m);
      ok := questions.UpdateVote(CastOf(m));
    }

    method ProcessElectionEnd(m: Message) returns (ok: bool)
      requires Valid() && m.data.ElectionEnd?
      modifies this`started, this`terminated, this`sent
      ensures Valid() && ok == EndOK(setup, old(Now()), m)
      ensures started == (old(started) && !ok) && terminated == (old(terminated) || ok)
      ensures !ok ==> sent == old(sent)
      ensures ok ==> |sent| == |old(sent)| + 1 && sent[..|old(sent)|] == old(sent)
      ensures ok ==> Results(sent[|old(sent)|], setup.kind, setup.decrypt, setup.questions, questions.validVotes)
      ensures ok ==> forall q :: Reported(sent[|old(sent)|], q) <==> q in Plurality(setup.questions)
    {
      if m.sender != setup.organizer { return false; }
      ok := VerifyMessageElectionEnd(m);
      if ok {
        started := false;
        terminated := true;
        var r := GatherResults(setup.kind, setup.decrypt, setup.questions, questions.validVotes);
        sent := sent + [r];
      }
    }

    method Publish(m: Message) returns (ok: bool)
      requires Valid()
      modifies this, questions
      ensures Valid() && ok == Accepts(setup, old(Now()), m)
      ensures Now() == Handle(setup, old(Now()), m)
      ensures !(ok && m.data.ElectionEnd?) ==> sent == old(sent)
      ensures ok && m.data.ElectionEnd? ==> |sent| == |old(sent)| + 1 && sent[..|old(sent)|] == old(sent)
      ensures ok && m.data.ElectionEnd? ==>
              Results(sent[|old(sent)|], setup.kind, setup.decrypt, setup.questions, questions.validVotes)
    {
      if m.id in inbox { return false; }
      match m.data {
        case ElectionOpen(_, _, _) => ok := ProcessElectionOpen(m);
        case VoteCastVote(_, _, _, _) => ok := ProcessCastVote(m);
        case ElectionEnd(_, _, _, _) => ok := ProcessElectionEnd(m);
        case ElectionResult(encoded) => ok := encoded;
      }
      if ok {
        inbox := inbox + {m.id};
      }
    }
  }

  // ---------- Whole runs ----------

  ghost function Run(s: Setup, ms: seq<Message>): State {
    if ms == [] then Initial(s) else Handle(s, Run(s, ms[..|ms| - 1]), ms[|ms| - 1])
  }

  /** Message k of the run was accepted when it came. */
  ghost predicate AcceptedAt(s: Setup, ms: seq<Message>, k: int) {
    0 <= k < |ms| && Accepts(s, Run(s, ms[..k]), ms[k])
  }

  ghost function Casts(s: Setup, ms: seq<Message>): seq<CastVote> {
    if ms == [] then [] else
      var init, m := ms[..|ms| - 1], ms[|ms| - 1];
      Casts(s, init) + if m.data.VoteCastVote? && Accepts(s, Run(s, init), m) then [CastOf(m)] else []
  }

  ghost predicate Sound(s: Setup, e: State, casts: seq<CastVote>) {
    e.votes.Keys == s.questions.Keys && !(e.started && e.terminated) &&
    e.votes == Fold(Blank(s.questions.Keys), casts) && (!e.started && !e.terminated ==> casts == [])
  }

  lemma HandleKeeps(s: Setup, e: State, casts: seq<CastVote>, m: Message)
    requires Sound(s, e, casts)
    ensures Sound(s, Handle(s, e, m), casts + if m.data.VoteCastVote? && Accepts(s, e, m) then [CastOf(m)] else [])
  {
    assert casts + [] == casts;
  }

  lemma {:induction false} RunKeeps(s: Setup, ms: seq<Message>)
    ensures Sound(s, Run(s, ms), Casts(s, ms))
  {
    if ms != [] {
      var n := |ms| - 1;
      RunKeeps(s, ms[..n]);
      HandleKeeps(s, Run(s, ms[..n]), Casts(s, ms[..n]), ms[n]);
    }
  }

  lemma NeverBoth(s: Setup, ms: seq<Message>)
    ensures !(Run(s, ms).started && Run(s, ms).terminated)
  {
    RunKeeps(s, ms);
  }

  lemma {:induction false} CastsAreDistinct(s: Setup, ms: seq<Message>)
    ensures DistinctIDs(Casts(s, ms))
    ensures forall i :: 0 <= i < |Casts(s, ms)| ==> Casts(s, ms)[i].msgID in Run(s, ms).inbox
  {
    if ms != [] {
      CastsAreDistinct(s, ms[..|ms| - 1]);
    }
  }

  lemma {:induction false} CastsAreKnown(s: Setup, ms: seq<Message>, t: Tally)
    requires t.Keys == s.questions.Keys
    ensures forall i :: 0 <= i < |Casts(s, ms)| ==> AllKnown(t, Casts(s, ms)[i])
  {
    if ms != [] {
      var init, m := ms[..|ms| - 1], ms[|ms| - 1];
      CastsAreKnown(s, init, t);
      RunKeeps(s, init);
      if m.data.VoteCastVote? && Accepts(s, Run(s, init), m) {
        VerifiedIsKnown(s, Run(s, init).(votes := t), m);
      }
    }
  }

  /** In every run, the valid vote of a voter on a question is what the voter's latest accepted
      message naming the question says, and it exists exactly when there is such a message. */
  lemma TallyOfRun(s: Setup, ms: seq<Message>, q: string, voter: string) returns (k: int)
    requires q in s.questions
    ensures q in Run(s, ms).votes
    ensures voter in Run(s, ms).votes[q] <==> Voted(Casts(s, ms), q, voter)
    ensures Voted(Casts(s, ms), q, voter) ==> Entry(Run(s, ms).votes, Casts(s, ms), k, q, voter)
  {
    RunKeeps(s, ms);
    k := EntryIsLatest(s.questions.Keys, Casts(s, ms), q, voter);
  }

  ghost predicate OpenedBefore(s: Setup, ms: seq<Message>, n: int) {
    exists k :: 0 <= k < n && AcceptedAt(s, ms, k) && ms[k].data.ElectionOpen?
  }

  ghost predicate EndedBefore(s: Setup, ms: seq<Message>, n: int) {
    exists k :: 0 <= k < n && AcceptedAt(s, ms, k) && ms[k].data.ElectionEnd?
  }

  lemma RunStep(s: Setup, ms: seq<Message>, n: nat)
    requires n < |ms|
    ensures Run(s, ms[..n + 1]) == Handle(s, Run(s, ms[..n]), ms[n])
  {
    assert ms[..n + 1][..n] == ms[..n];
  }

  lemma HistoryStep(s: Setup, ms: seq<Message>, n: nat)
    requires n < |ms|
    ensures AcceptedAt(s, ms, n) <==> Accepts(s, Run(s, ms[..n]), ms[n])
    ensures OpenedBefore(s, ms, n + 1) <==>
            OpenedBefore(s, ms, n) || (Accepts(s, Run(s, ms[..n]), ms[n]) && ms[n].data.ElectionOpen?)
    ensures EndedBefore(s, ms, n + 1) <==>
            EndedBefore(s, ms, n) || (Accepts(s, Run(s, ms[..n]), ms[n]) && ms[n].data.ElectionEnd?)
  {
  }

  ghost predicate FlagsSay(e: State, begun: bool, ended: bool) {
    (e.terminated <==> ended) && (e.started <==> begun && !ended) && (ended ==> begun)
  }

  lemma FlagsStep(s: Setup, e: State, m: Message, begun: bool, ended: bool)
    requires FlagsSay(e, begun, ended)
    ensures FlagsSay(Handle(s, e, m), begun || (Accepts(s, e, m) && m.data.ElectionOpen?),
                     ended || (Accepts(s, e, m) && m.data.ElectionEnd?))
  {
    if Accepts(s, e, m) && m.data.ElectionEnd? {
      assert EndOK(s, e, m);
    }
  }

  /** The two flags say exactly what has been accepted so far. */
  lemma {:induction false} FlagsAreHistory(s: Setup, ms: seq<Message>, n: nat)
    requires n <= |ms|
    ensures Run(s, ms[..n]).terminated <==> EndedBefore(s, ms, n)
    ensures Run(s, ms[..n]).started <==> OpenedBefore(s, ms, n) && !EndedBefore(s, ms, n)
    ensures EndedBefore(s, ms, n) ==> OpenedBefore(s, ms, n)
  {
    if n == 0 {
      assert ms[..n] == [];
    } else {
      var k := n - 1;
      FlagsAreHistory(s, ms, k);
      HistoryStep(s, ms, k);
      RunStep(s, ms, k);
      FlagsStep(s, Run(s, ms[..k]), ms[k], OpenedBefore(s, ms, k), EndedBefore(s, ms, k));
    }
  }

  /** A vote is accepted only between the open and the end, and each of these happens at most once. */
  lemma VotesOnlyWhileOpen(s: Setup, ms: seq<Message>, k: nat)
    requires AcceptedAt(s, ms, k)
    ensures ms[k].data.VoteCastVote? ==> OpenedBefore(s, ms, k) && !EndedBefore(s, ms, k)
    ensures ms[k].data.ElectionOpen? ==> !OpenedBefore(s, ms, k) && !EndedBefore(s, ms, k)
    ensures ms[k].data.ElectionEnd? ==> OpenedBefore(s, ms, k) && !EndedBefore(s, ms, k)
  {
    FlagsAreHistory(s, ms, k);
  }

  /** Once the election is terminated its votes never change and it never starts again. */
  lemma {:induction false} FrozenAfterEnd(s: Setup, ms: seq<Message>, i: nat, j: nat)
    requires i <= j <= |ms| && Run(s, ms[..i]).terminated
    ensures Run(s, ms[..j]).terminated && !Run(s, ms[..j]).started
    ensures Run(s, ms[..j]).votes == Run(s, ms[..i]).votes
  {
    if i == j {
      RunKeeps(s, ms[..j]);
    } else {
      FrozenAfterEnd(s, ms, i, j - 1);
      RunStep(s, ms, j - 1);
    }
  }

  /** Every order in which the rows of these messages may come folds to t. */
  ghost predicate ReadsBack(ids: set<string>, casts: seq<CastVote>, t: Tally) {
    forall rows: seq<CastVote> :: multiset(rows) == multiset(casts) ==> Fold(Blank(ids), rows) == t
  }

  lemma MatchesExactly(ids: set<string>, casts: seq<CastVote>, t: Tally)
    requires DistinctIDs(casts) && t == Fold(Blank(ids), casts)
    ensures Settled(ids, casts) <==> ReadsBack(ids, casts, t)
  {
    OrderFreeExactly(ids, casts);
  }

  /** The tally kept in memory is what the database folds out of the accepted cast votes in the
      order of the run; and in whatever order the rows come exactly when no voter's latest messages
      on a question tie. */
  lemma MemoryMatchesDatabase(s: Setup, ms: seq<Message>)
    ensures Settled(s.questions.Keys, Casts(s, ms)) <==> ReadsBack(s.questions.Keys, Casts(s, ms), Run(s, ms).votes)
  {
    RunKeeps(s, ms);
    CastsAreDistinct(s, ms);
    MatchesExactly(s.questions.Keys, Casts(s, ms), Run(s, ms).votes);
  }

  /** Reading the rows back never stops at an unknown question. */
  lemma DatabaseReadsAll(s: Setup, ms: seq<Message>, rows: seq<CastVote>, i: nat)
    requires multiset(rows) == multiset(Casts(s, ms)) && i < |rows|
    ensures AllKnown(Blank(s.questions.Keys), rows[i])
  {
    CastsAreKnown(s, ms, Blank(s.questions.Keys));
    var j := SameMembers(rows, Casts(s, ms), i);
  }
}
