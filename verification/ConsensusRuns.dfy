/** Who may speak in a consensus instance, and when a server stays silent:
    only the servers asked propose, and nobody after giving up. */
module ConsensusRuns {
  import opened Basics
  import opened Consensus
  import opened ConsensusProtocol
  import opened ConsensusReports

  // -------------------------------------------------------- who may propose, and when

  /** Before step k the server was asked by the organizer to run this instance. */
  ghost predicate Chosen(steps: seq<Step>, k: nat, p: ServerId, instance: InstanceId)
    requires k <= |steps|
  {
    exists j :: 0 <= j < k && steps[j].ReceiveElect? && steps[j].fromOrganizer &&
                steps[j].at.p == p && steps[j].at.instance == instance
  }

  lemma HandlesKeepsRole(i: Instance, g: Signature, elect: MessageId, body: Body, known: bool, subscribed: bool,
                         listening: bool, o: Outcome)
    requires Handles(i, g, elect, body, known, subscribed, listening, o)
    ensures o.i.role == i.role
    ensures o.out.Some? && (o.out.value.ProposeMsg? || o.out.value.LearnMsg?) ==> i.role == Proposer
    ensures o.out.Some? ==> !o.out.value.PrepareMsg?
  {
    match body
    case PrepareMsg(tried) => assert o == PrepareStep(i, known, elect, tried, listening);
    case PromiseMsg(data) => assert PromiseStep(i, known, elect, g, data, listening, o);
    case ProposeMsg(tried, value, _) => assert o == ProposeStep(i, known, elect, tried, value, subscribed, listening);
    case AcceptMsg(data) => assert AcceptStep(i, known, elect, g, data, listening, o);
    case LearnMsg(decision, _) => assert o == LearnStep(i, known, elect, decision, listening);
    case FailureMsg => assert o == FailureStep(i, known, elect, listening);
  }

  lemma VoteKeepsRole(i: Instance, known: bool, elect: MessageId, voter: Voter, accept: bool, listening: bool)
    ensures var o := ElectAcceptStep(i, known, elect, voter, accept, listening);
            o.i.role == i.role && (o.out.Some? && !o.out.value.FailureMsg? ==> i.role == Proposer)
  {
  }

  /** The server is a proposer, or publishes as one in this step. */
  lemma StepChosen(s: System, step: Step, s': System, at: At)
    requires Taken(s, step, s') && Has(s', at)
    ensures Local(s', at).role == Proposer ==>
              (Has(s, at) && Local(s, at).role == Proposer) ||
              (step.ReceiveElect? && step.fromOrganizer && step.at.p == at.p && step.at.instance == at.instance)
  {
    if step.at.p == at.p && step.at.instance == at.instance {
      match step
      case ReceiveElect(b, _, _) => assert Has(s, at) ==> Opened(s, b) == Local(s, at);
      case ReceiveElectAccept(b, voter, accept, known, listening) =>
        VoteKeepsRole(Local(s, at), known, b.elect, voter, accept, listening);
      case Receive(b, g, known, subscribed, listening, o) =>
        HandlesKeepsRole(Local(s, at), g, b.elect, s.net[g].body, known, subscribed, listening, o);
      case Timeout(b) =>
      case Demote(b) =>
    }
  }

  lemma {:induction false} ProposerIsChosen(run: seq<System>, steps: seq<Step>, k: nat, at: At)
    requires IsRun(run, steps) && k < |run| && Has(run[k], at) && Local(run[k], at).role == Proposer
    ensures Chosen(steps, k, at.p, at.instance)
    decreases k
  {
    if k > 0 {
      assert StepAt(run, steps, k - 1);
      StepChosen(run[k - 1], steps[k - 1], run[k], at);
      if Has(run[k - 1], at) && Local(run[k - 1], at).role == Proposer {
        ProposerIsChosen(run, steps, k - 1, at);
      }
    }
  }

  ghost predicate OfProposer(body: Body) { body.PrepareMsg? || body.ProposeMsg? || body.LearnMsg? }

  /** What step publishes as a proposer, a proposer publishes. */
  lemma PublishesAsProposer(s: System, step: Step, s': System)
    requires Taken(s, step, s') && s'.net != s.net
    ensures |s'.net| == |s.net| + 1 && s.net <= s'.net && Has(s, step.at)
    ensures var e := s'.net[|s.net|];
            e.sender == step.at.p && e.instance == step.at.instance && e.elect == step.at.elect &&
            (OfProposer(e.body) ==> Local(s, step.at).role == Proposer)
  {
    match step
    case ReceiveElectAccept(b, voter, accept, known, listening) =>
      VoteKeepsRole(Local(s, b), known, b.elect, voter, accept, listening);
    case Receive(b, g, known, subscribed, listening, o) =>
      HandlesKeepsRole(Local(s, b), g, b.elect, s.net[g].body, known, subscribed, listening, o);
    case _ =>
  }

  /** Only servers the organizer asked to run an instance prepare, propose and teach in it. */
  lemma {:induction false} OnlyChosenPropose(run: seq<System>, steps: seq<Step>, k: nat, n: nat)
    requires IsRun(run, steps) && k < |run| && n < |run[k].net| && OfProposer(run[k].net[n].body)
    ensures Chosen(steps, k, run[k].net[n].sender, run[k].net[n].instance)
    decreases k
  {
    if k > 0 {
      assert StepAt(run, steps, k - 1);
      var s, s' := run[k - 1], run[k];
      if s'.net == s.net {
        OnlyChosenPropose(run, steps, k - 1, n);
      } else {
        PublishesAsProposer(s, steps[k - 1], s');
        if n < |s.net| {
          assert s'.net[n] == s.net[n];
          OnlyChosenPropose(run, steps, k - 1, n);
        } else {
          ProposerIsChosen(run, steps, k - 1, steps[k - 1].at);
        }
      }
    }
  }

  ghost predicate IsAcceptor(s: System, p: ServerId, instance: InstanceId) {
    p in s.servers && instance in s.servers[p] && s.servers[p][instance].role == Acceptor
  }

  /** Step k is the organizer asking the server to run the instance. */
  ghost predicate Asks(step: Step, p: ServerId, instance: InstanceId) {
    step.ReceiveElect? && step.fromOrganizer && step.at.p == p && step.at.instance == instance
  }

  lemma {:induction false} StaysAcceptor(run: seq<System>, steps: seq<Step>, j: nat, k: nat, p: ServerId,
                                         instance: InstanceId)
    requires IsRun(run, steps) && j <= k < |run| && IsAcceptor(run[j], p, instance)
    requires forall m :: j <= m < k ==> !Asks(steps[m], p, instance)
    ensures IsAcceptor(run[k], p, instance)
    decreases k
  {
    if j < k {
      StaysAcceptor(run, steps, j, k - 1, p, instance);
      assert StepAt(run, steps, k - 1);
      assert Has(run[k - 1], At(p, instance, "")) && !Asks(steps[k - 1], p, instance);
      StepChosen(run[k - 1], steps[k - 1], run[k], At(p, instance, ""));
    }
  }

  /** It has sent a Prepare or a Propose last. */
  predicate Waits(i: Instance) { i.lastSent == Action.Prepare || i.lastSent == Action.Propose }

  /** A proposer demoted while it waits publishes nothing as one until the organizer asks it again. */
  lemma {:induction false} DemotedIsSilent(run: seq<System>, steps: seq<Step>, j: nat, k: nat, n: nat)
    requires IsRun(run, steps) && j < k < |run| && steps[j].Demote?
    requires StepAt(run, steps, j) && Waits(Local(run[j], steps[j].at))
    requires forall m :: j < m < k ==> !Asks(steps[m], steps[j].at.p, steps[j].at.instance)
    requires |run[j].net| <= n < |run[k].net| && By(run[k].net[n], steps[j].at.p, steps[j].at.instance)
    ensures !OfProposer(run[k].net[n].body)
    decreases k
  {
    var at := steps[j].at;
    assert StepAt(run, steps, k - 1);
    if j + 1 < k {
      DemotedIsAcceptor(run[j], steps[j], run[j + 1]);
      StaysAcceptor(run, steps, j + 1, k - 1, at.p, at.instance);
      AcceptorIsSilent(run[k - 1], steps[k - 1], run[k], at.p, at.instance, n);
      if n < |run[k - 1].net| { DemotedIsSilent(run, steps, j, k - 1, n); }
    }
  }

  lemma DemotedIsAcceptor(s: System, step: Step, s': System)
    requires Taken(s, step, s') && step.Demote? && Waits(Local(s, step.at))
    ensures IsAcceptor(s', step.at.p, step.at.instance)
  {
  }

  lemma AcceptorIsSilent(s: System, step: Step, s': System, p: ServerId, instance: InstanceId, n: nat)
    requires Taken(s, step, s') && IsAcceptor(s, p, instance) && n < |s'.net| && By(s'.net[n], p, instance)
    ensures if n < |s.net| then s'.net[n] == s.net[n] else !OfProposer(s'.net[n].body)
  {
    if s'.net != s.net { PublishesAsProposer(s, step, s'); }
  }

  /** What a vote makes a proposer publish, counted with that vote: a Failure on a majority against, else a
      Prepare on a majority in favour, else nothing. */
  lemma VoteDecides(i: Instance, elect: MessageId, voter: Voter, accept: bool)
    requires !i.decided && elect in i.elects && !i.elects[elect].failed && i.role == Proposer
    requires voter !in i.elects[elect].positive && voter !in i.elects[elect].negative
    ensures var e := i.elects[elect];
            var yes, no := |e.positive| + if accept then 1 else 0, |e.negative| + if accept then 0 else 1;
            var out := ElectAcceptStep(i, true, elect, voter, accept, true).out;
            && (out == Some(FailureMsg) <==> 2 * no > e.acceptorNumber)
            && ((out.Some? && out.value.PrepareMsg?) <==> 2 * no <= e.acceptorNumber && 2 * yes > e.acceptorNumber)
            && (out.Some? ==> out.value.FailureMsg? || out.value.PrepareMsg?)
  {
    var e := i.elects[elect];
    var now := Voted(e, voter, accept);
    OneMoreVoter(e.positive, voter);
    OneMoreVoter(e.negative, voter);
    var i1 := i.(elects := i.elects[elect := now]);
    assert ElectAcceptStep(i, true, elect, voter, accept, true) == AfterVote(i1, elect, true);
  }

  lemma OneMoreVoter(votes: map<Voter, int>, voter: Voter)
    requires voter !in votes
    ensures |votes[voter := 0]| == |votes| + 1
  {
    assert votes[voter := 0].Keys == votes.Keys + {voter};
    assert |votes[voter := 0].Keys| == |votes[voter := 0]| && |votes.Keys| == |votes|;
  }

  // ----------------------------------------------------------- after a failure

  ghost predicate HasFailed(s: System, at: At) {
    Has(s, at) && at.elect in Local(s, at).elects && Local(s, at).elects[at.elect].failed
  }

  lemma FailedHandles(i: Instance, g: Signature, e: MessageId, elect: MessageId, body: Body, known: bool,
                      subscribed: bool, listening: bool, o: Outcome)
    requires Handles(i, g, elect, body, known, subscribed, listening, o)
    requires e in i.elects && i.elects[e].failed
    ensures e in o.i.elects && o.i.elects[e].failed && (elect == e ==> o.out.None?)
  {
    if !body.FailureMsg? {
      NeverFails(i, g, elect, body, known, subscribed, listening, o);
    }
    match body
    case PrepareMsg(tried) => assert o == PrepareStep(i, known, elect, tried, listening);
    case PromiseMsg(data) => assert PromiseStep(i, known, elect, g, data, listening, o);
    case ProposeMsg(tried, value, _) => assert o == ProposeStep(i, known, elect, tried, value, subscribed, listening);
    case AcceptMsg(data) => assert AcceptStep(i, known, elect, g, data, listening, o);
    case LearnMsg(decision, _) => assert o == LearnStep(i, known, elect, decision, listening);
    case FailureMsg => assert o == FailureStep(i, known, elect, listening);
  }

  lemma FailedVote(i: Instance, e: MessageId, known: bool, elect: MessageId, voter: Voter, accept: bool,
                   listening: bool)
    requires e in i.elects && i.elects[e].failed
    ensures var o := ElectAcceptStep(i, known, elect, voter, accept, listening);
            e in o.i.elects && o.i.elects[e].failed && (elect == e ==> o.out.None?)
  {
    if e != elect { OtherVoteKeepsVotes(i, known, elect, voter, accept, listening, e); }
  }

  lemma FailedStep(s: System, step: Step, s': System, at: At)
    requires Taken(s, step, s') && HasFailed(s, at)
    ensures HasFailed(s', at)
    ensures step.at == at ==> s'.net == s.net
  {
    if step.at.p == at.p && step.at.instance == at.instance {
      var i := Local(s, at);
      match step
      case ReceiveElectAccept(b, voter, accept, known, listening) =>
        FailedVote(i, at.elect, known, b.elect, voter, accept, listening);
      case Receive(b, g, known, subscribed, listening, o) =>
        FailedHandles(i, g, at.elect, b.elect, s.net[g].body, known, subscribed, listening, o);
      case _ =>
    }
  }

  lemma {:induction false} FailedStays(run: seq<System>, steps: seq<Step>, j: nat, k: nat, at: At)
    requires IsRun(run, steps) && j <= k < |run| && HasFailed(run[j], at)
    ensures HasFailed(run[k], at)
    decreases k
  {
    if j < k {
      FailedStays(run, steps, j, k - 1, at);
      assert StepAt(run, steps, k - 1);
      FailedStep(run[k - 1], steps[k - 1], run[k], at);
    }
  }

  /** Once a server has given up on an elect message it never publishes anything for it again. */
  lemma {:induction false} FailedIsSilent(run: seq<System>, steps: seq<Step>, j: nat, k: nat, at: At, n: nat)
    requires IsRun(run, steps) && j <= k < |run| && HasFailed(run[j], at)
    requires |run[j].net| <= n < |run[k].net|
    ensures !(By(run[k].net[n], at.p, at.instance) && run[k].net[n].elect == at.elect)
    decreases k
  {
    if j < k {
      assert StepAt(run, steps, k - 1);
      var s, s' := run[k - 1], run[k];
      FailedStays(run, steps, j, k - 1, at);
      FailedStep(s, steps[k - 1], s', at);
      if s'.net != s.net {
        PublishesAsProposer(s, steps[k - 1], s');
        if n < |s.net| { assert s'.net[n] == s.net[n]; }
      }
      if n < |s.net| { FailedIsSilent(run, steps, j, k - 1, at, n); }
    }
  }

  /** A Failure that arrives makes its receiver give up too, unless it has decided. */
  lemma FailureIsTaken(i: Instance, g: Signature, elect: MessageId, o: Outcome)
    requires Handles(i, g, elect, FailureMsg, true, true, true, o) && elect in i.elects && !i.decided
    ensures elect in o.i.elects && o.i.elects[elect].failed && o.out.None?
  {
    assert o == FailureStep(i, true, elect, true);
  }

  lemma PublishedFailureStep(s: System, step: Step, s': System)
    requires Taken(s, step, s') && s'.net != s.net && s'.net != [] && s'.net[|s'.net| - 1].body.FailureMsg?
    ensures HasFailed(s', step.at)
  {
    match step
    case ReceiveElectAccept(at, voter, accept, known, listening) =>
      var i := Local(s, at);
      VoteFails(i, known, at.elect, voter, accept, listening);
    case Receive(at, g, known, subscribed, listening, o) =>
      HandlesNoFailure(Local(s, at), g, at.elect, s.net[g].body, known, subscribed, listening, o);
    case _ =>
  }

  lemma VoteFails(i: Instance, known: bool, elect: MessageId, voter: Voter, accept: bool, listening: bool)
    ensures var o := ElectAcceptStep(i, known, elect, voter, accept, listening);
            o.out == Some(FailureMsg) ==> elect in o.i.elects && o.i.elects[elect].failed
  {
  }

  lemma HandlesNoFailure(i: Instance, g: Signature, elect: MessageId, body: Body, known: bool, subscribed: bool,
                         listening: bool, o: Outcome)
    requires Handles(i, g, elect, body, known, subscribed, listening, o)
    ensures o.out != Some(FailureMsg)
  {
    match body
    case PrepareMsg(tried) => assert o == PrepareStep(i, known, elect, tried, listening);
    case PromiseMsg(data) => assert PromiseStep(i, known, elect, g, data, listening, o);
    case ProposeMsg(tried, value, _) => assert o == ProposeStep(i, known, elect, tried, value, subscribed, listening);
    case AcceptMsg(data) => assert AcceptStep(i, known, elect, g, data, listening, o);
    case LearnMsg(decision, _) => assert o == LearnStep(i, known, elect, decision, listening);
    case FailureMsg => assert o == FailureStep(i, known, elect, listening);
  }

  /** A Failure is the last message its sender publishes for the elect message. */
  lemma {:induction false} FailureIsLast(run: seq<System>, steps: seq<Step>, k: nat, m: nat, n: nat)
    requires IsRun(run, steps) && k < |run| && m < n < |run[k].net| && run[k].net[m].body.FailureMsg?
    ensures var a, b := run[k].net[m], run[k].net[n];
            !(a.sender == b.sender && a.instance == b.instance && a.elect == b.elect)
    decreases k
  {
    if k > 0 {
      assert StepAt(run, steps, k - 1);
      var s, s' := run[k - 1], run[k];
      if s'.net == s.net {
        FailureIsLast(run, steps, k - 1, m, n);
      } else {
        PublishesAsProposer(s, steps[k - 1], s');
        assert s'.net[m] == s.net[m];
        if n < |s.net| {
          assert s'.net[n] == s.net[n];
          FailureIsLast(run, steps, k - 1, m, n);
        } else {
          FailureIsMarked(run, steps, k - 1, m);
          FailedStep(s, steps[k - 1], s', At(s.net[m].sender, s.net[m].instance, s.net[m].elect));
        }
      }
    }
  }

  lemma {:induction false} FailureIsMarked(run: seq<System>, steps: seq<Step>, k: nat, m: nat)
    requires IsRun(run, steps) && k < |run| && m < |run[k].net| && run[k].net[m].body.FailureMsg?
    ensures HasFailed(run[k], At(run[k].net[m].sender, run[k].net[m].instance, run[k].net[m].elect))
    decreases k
  {
    if k > 0 {
      assert StepAt(run, steps, k - 1);
      var s, s' := run[k - 1], run[k];
      if s'.net != s.net { PublishesAsProposer(s, steps[k - 1], s'); }
      if m < |s.net| {
        assert s'.net[m] == s.net[m];
        FailureIsMarked(run, steps, k - 1, m);
        FailedStep(s, steps[k - 1], s', At(s.net[m].sender, s.net[m].instance, s.net[m].elect));
      } else {
        PublishedFailureStep(s, steps[k - 1], s');
      }
    }
  }
}
