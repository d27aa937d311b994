/** One server's part in a consensus instance, from
    old/oldchannel/consensus: what each message handler does
    to the state of the instance, and what it publishes. */
module Consensus {
  import opened Basics

  type MessageId = string
  type Voter = string

  /** The signature of a published message; no two messages share one. */
  type Signature = nat

  datatype Role = Acceptor | Proposer

  datatype Action = Nothing | ElectAccept | Prepare | Promise | Propose | Accept | Learn | Failure

  datatype PromiseData = PromiseData(acceptedTry: int, acceptedValue: bool, promisedTry: int)

  datatype AcceptData = AcceptData(acceptedTry: int, acceptedValue: bool)

  datatype Body =
    | PrepareMsg(tried: int)
    | PromiseMsg(promise: PromiseData)
    | ProposeMsg(proposedTry: int, proposedValue: bool, signatures: seq<Signature>)
    | AcceptMsg(accept: AcceptData)
    | LearnMsg(decision: bool, signatures: seq<Signature>)
    | FailureMsg

  /** The votes received on one elect message. */
  datatype Elect = Elect(acceptorNumber: nat, failed: bool, positive: map<Voter, int>, negative: map<Voter, int>)

  datatype Instance = Instance(
    role: Role, lastSent: Action,
    proposedTry: int, promisedTry: int, acceptedTry: int,
    proposedValue: bool, acceptedValue: bool,
    decided: bool, decision: bool,
    promises: map<Signature, PromiseData>, accepts: map<Signature, AcceptData>,
    elects: map<MessageId, Elect>)

  /** How a handler ends: `Crashed` on an elect message it never saw, `Blocked` when
      it waits for a timer that no longer listens. */
  datatype Reply = Done | Rejected | Crashed | Blocked

  datatype Outcome = Outcome(i: Instance, reply: Reply, out: Option<Body>)

  function NewInstance(): Instance {
    Instance(Acceptor, Nothing, 0, -1, -1, false, false, false, false, map[], map[], map[])
  }

  function Majority(n: nat): nat {
    n / 2 + 1
  }

  // ------------------------------------------------------------------- handlers

  function ElectStep(i: Instance, elect: MessageId, fromOrganizer: bool, servers: nat): Instance {
    i.(elects := i.elects[elect := Elect(servers, false, map[], map[])],
       role := if fromOrganizer then Proposer else i.role,
       lastSent := ElectAccept)
  }

  /** Why a handler stops before doing anything. */
  function Refusal(i: Instance, known: bool, elect: MessageId): Option<Reply> {
    if !known || i.decided then Some(Rejected)
    else if elect !in i.elects then Some(Crashed)
    else if i.elects[elect].failed then Some(Rejected)
    else None
  }

  function Voted(e: Elect, voter: Voter, accept: bool): Elect {
    if accept then e.(positive := e.positive[voter := 0]) else e.(negative := e.negative[voter := 0])
  }

  /** A try above all proposed and promised so far. */
  function NextTry(i: Instance): (r: int)
    ensures r > i.proposedTry && r > i.promisedTry
  {
    if i.proposedTry >= i.promisedTry then i.proposedTry + 1 else i.promisedTry + 1
  }

  /** What a proposer does next on the votes of an elect message. */
  function NextMessage(role: Role, e: Elect): Action {
    if role != Proposer then Nothing
    else if |e.negative| >= Majority(e.acceptorNumber) then Failure
    else if |e.positive| >= Majority(e.acceptorNumber) then Prepare
    else Nothing
  }

  /** After a vote is recorded: fail, or prepare with a higher try, or wait. */
  function AfterVote(i: Instance, elect: MessageId, listening: bool): Outcome
    requires elect in i.elects
  {
    var next := NextMessage(i.role, i.elects[elect]);
    if next == Nothing then Outcome(i, Done, None)
    else if next == Failure then Outcome(Failed(i, elect), Done, Some(FailureMsg))
    else if !listening then Outcome(i, Blocked, None)
    else Outcome(i.(proposedTry := NextTry(i), proposedValue := true, lastSent := Prepare), Done,
                 Some(PrepareMsg(NextTry(i))))
  }

  function ElectAcceptStep(i: Instance, known: bool, elect: MessageId, voter: Voter, accept: bool,
                           listening: bool): Outcome {
    if Refusal(i, known, elect).Some? then Outcome(i, Refusal(i, known, elect).value, None)
    else if voter in i.elects[elect].positive || voter in i.elects[elect].negative then Outcome(i, Rejected, None)
    else AfterVote(i.(elects := i.elects[elect := Voted(i.elects[elect], voter, accept)]), elect, listening)
  }

  function PrepareStep(i: Instance, known: bool, elect: MessageId, tried: int, listening: bool): Outcome {
    if Refusal(i, known, elect).Some? then Outcome(i, Refusal(i, known, elect).value, None)
    else if !listening then Outcome(i, Blocked, None)
    else if i.promisedTry >= tried then Outcome(i, Done, None)
    else
      Outcome(i.(promisedTry := tried, lastSent := if i.role == Acceptor then Promise else i.lastSent), Done,
              Some(PromiseMsg(PromiseData(i.acceptedTry, i.acceptedValue, tried))))
  }

  /** The highest accepted try among the promises, with the value of one of those that
      report it; the value defaults to true. Ties are broken by map order. */
  ghost predicate Highest(promises: map<Signature, PromiseData>, tried: int, value: bool) {
    && -1 <= tried
    && (forall s :: s in promises ==> promises[s].acceptedTry <= tried)
    && (tried == -1 ==> value)
    && (tried > -1 ==> exists s ::
        s in promises && promises[s].acceptedTry == tried && promises[s].acceptedValue == value)
  }

  ghost predicate Enumerates<T>(s: seq<T>, all: set<T>) {
    NoDup(s) && all == set x | x in s
  }

  ghost predicate PromiseStep(i: Instance, known: bool, elect: MessageId, signature: Signature, data: PromiseData,
                              listening: bool, o: Outcome)
  {
    if data.acceptedTry < -1 then o == Outcome(i, Rejected, None)
    else if Refusal(i, known, elect).Some? then o == Outcome(i, Refusal(i, known, elect).value, None)
    else
      var i1 := i.(promises := i.promises[signature := data]);
      if |i1.promises| < Majority(i.elects[elect].acceptorNumber) || i.role != Proposer || i.lastSent != Prepare then
        o == Outcome(i1, Done, None)
      else if !listening then o == Outcome(i1, Blocked, None)
      else ProposesFrom(i1, o)
  }

  ghost predicate ProposesFrom(i1: Instance, o: Outcome) {
    && o.i == i1.(lastSent := Propose) && o.reply == Done
    && o.out.Some? && o.out.value.ProposeMsg?
    && Enumerates(o.out.value.signatures, i1.promises.Keys)
    && exists highest :: Highest(i1.promises, highest, o.out.value.proposedValue)
                         && o.out.value.proposedTry == if highest == -1 then i1.proposedTry else highest
  }

  function ProposeStep(i: Instance, known: bool, elect: MessageId, tried: int, value: bool, subscribed: bool,
                       listening: bool): Outcome {
    if tried < 0 then Outcome(i, Rejected, None)
    else if Refusal(i, known, elect).Some? then Outcome(i, Refusal(i, known, elect).value, None)
    else if !listening then Outcome(i, Blocked, None)
    else if !subscribed || i.promisedTry > tried then Outcome(i, Done, None)
    else
      Outcome(i.(acceptedTry := tried, acceptedValue := value,
                 lastSent := if i.role == Acceptor then Accept else i.lastSent),
              Done, Some(AcceptMsg(AcceptData(tried, value))))
  }

  ghost predicate AcceptStep(i: Instance, known: bool, elect: MessageId, signature: Signature, data: AcceptData,
                             listening: bool, o: Outcome)
  {
    if data.acceptedTry < -1 then o == Outcome(i, Rejected, None)
    else if Refusal(i, known, elect).Some? then o == Outcome(i, Refusal(i, known, elect).value, None)
    else
      var counted := data == AcceptData(i.proposedTry, i.proposedValue);
      Counted(if counted then i.(accepts := i.accepts[signature := data]) else i, elect, listening, o)
  }

  /** What follows from the accepts counted so far. */
  ghost predicate Counted(i: Instance, elect: MessageId, listening: bool, o: Outcome)
    requires elect in i.elects
  {
    if |i.accepts| < Majority(i.elects[elect].acceptorNumber) || i.role != Proposer || i.lastSent != Propose then
      o == Outcome(i, Done, None)
    else if !listening then o == Outcome(i, Blocked, None)
    else
      && o.i == i.(decided := true, decision := i.proposedValue, lastSent := Learn) && o.reply == Done
      && o.out.Some? && o.out.value.LearnMsg? && o.out.value.decision == i.proposedValue
      && Enumerates(o.out.value.signatures, i.accepts.Keys)
  }

  function LearnStep(i: Instance, known: bool, elect: MessageId, decision: bool, listening: bool): Outcome {
    if !known then Outcome(i, Rejected, None)
    else if i.decided then Outcome(i, Done, None)
    else if elect !in i.elects then Outcome(i, Crashed, None)
    else if i.elects[elect].failed then Outcome(i, Done, None)
    else if !listening then Outcome(i, Blocked, None)
    else Outcome(i.(decided := true, decision := decision), Done, None)
  }

  function Failed(i: Instance, elect: MessageId): Instance
    requires elect in i.elects
  {
    i.(elects := i.elects[elect := i.elects[elect].(failed := true)])
  }

  function FailureStep(i: Instance, known: bool, elect: MessageId, listening: bool): Outcome {
    if !known then Outcome(i, Rejected, None)
    else if elect !in i.elects then Outcome(i, Crashed, None)
    else if i.elects[elect].failed || i.decided then Outcome(i, Done, None)
    else if !listening then Outcome(i, Blocked, None)
    else Outcome(Failed(i, elect), Done, None)
  }

  /** The timer gives up on an elect message. */
  function TimeoutStep(i: Instance, elect: MessageId): Outcome {
    if elect !in i.elects || i.elects[elect].failed then Outcome(i, Rejected, None)
    else Outcome(Failed(i, elect), Done, Some(FailureMsg))
  }

  /** The timer, after a first silence, makes a proposer an acceptor again. */
  function DemoteStep(i: Instance): Instance {
    if i.lastSent == Prepare || i.lastSent == Propose then i.(role := Acceptor) else i
  }

  // ------------------------------------------------------- the object in memory

  class ConsensusInstance {
    var role: Role
    var lastSent: Action
    var proposedTry: int
    var promisedTry: int
    var acceptedTry: int
    var proposedValue: bool
    var acceptedValue: bool
    var decided: bool
    var decision: bool
    var promises: map<Signature, PromiseData>
    var accepts: map<Signature, AcceptData>
    var electInstances: map<MessageId, Elect>

    ghost function State(): Instance
      reads this
    {
      Instance(role, lastSent, proposedTry, promisedTry, acceptedTry, proposedValue, acceptedValue,
               decided, decision, promises, accepts, electInstances)
    }

    constructor ()
      ensures State() == NewInstance()
    {
      role, lastSent := Acceptor, Nothing;
      proposedTry, promisedTry, acceptedTry := 0, -1, -1;
      proposedValue, acceptedValue := false, false;
      decided, decision := false, false;
      promises, accepts, electInstances := map[], map[], map[];
    }

    method ProcessElect(elect: MessageId, fromOrganizer: bool, serverNumber: nat)
      modifies this
      ensures State() == ElectStep(old(State()), elect, fromOrganizer, serverNumber)
    {
      electInstances := electInstances[elect := Elect(serverNumber, false, map[], map[])];
      if fromOrganizer {
        role := Proposer;
      }
      lastSent := ElectAccept;
    }

    /** The checks shared by the handlers: decided first, so that a decided instance
        never looks the elect message up. */
    method Refuse(known: bool, elect: MessageId) returns (refusal: Option<Reply>)
      ensures refusal == Refusal(State(), known, elect)
    {
      if !known {
        return Some(Rejected);
      }
      if decided {
        return Some(Rejected);
      }
      if elect !in electInstances {
        return Some(Crashed);
      }
      if electInstances[elect].failed {
        return Some(Rejected);
      }
      return None;
    }

    method ProcessElectAccept(known: bool, elect: MessageId, voter: Voter, accept: bool, listening: bool)
      returns (reply: Reply, out: Option<Body>)
      modifies this
      ensures Outcome(State(), reply, out) == ElectAcceptStep(old(State()), known, elect, voter, accept, listening)
    {
      out := None;
      var refusal := Refuse(known, elect);
      if refusal.Some? {
        return refusal.value, None;
      }
      var e := electInstances[elect];
      if voter in e.positive || voter in e.negative {
        return Rejected, None;
      }
      e := Voted(e, voter, accept);
      electInstances := electInstances[elect := e];
      ghost var voted := State();
      assert voted == old(State()).(elects := old(electInstances)[elect := e]);
      var next := NextMessage(role, e);
      if next == Nothing {
        return Done, None;
      }
      if next == Failure {
        out := CreateFailureMessage(elect);
        return Done, out;
      }
      if !listening {
        return Blocked, None;
      }
      out := SendPrepare();
      return Done, out;
    }

    /** The end of ProcessElectAccept: a try above every try proposed or promised so far. */
    method SendPrepare() returns (out: Option<Body>)
      modifies this
      ensures var i := old(State());
              && State() == i.(proposedTry := NextTry(i), proposedValue := true, lastSent := Prepare)
              && out == Some(PrepareMsg(NextTry(i)))
    {
      if proposedTry >= promisedTry {
        proposedTry := proposedTry + 1;
      } else {
        proposedTry := promisedTry + 1;
      }
      proposedValue := true;
      lastSent := Prepare;
      return Some(PrepareMsg(proposedTry));
    }

    method ProcessPrepare(known: bool, elect: MessageId, tried: int, listening: bool)
      returns (reply: Reply, out: Option<Body>)
      modifies this
      ensures Outcome(State(), reply, out) == PrepareStep(old(State()), known, elect, tried, listening)
    {
      var refusal := Refuse(known, elect);
      if refusal.Some? {
        return refusal.value, None;
      }
      if !listening {
        return Blocked, None;
      }
      if promisedTry >= tried {
        return Done, None;
      }
      promisedTry := tried;
      if role == Acceptor {
        lastSent := Promise;
      }
      return Done, Some(PromiseMsg(PromiseData(acceptedTry, acceptedValue, promisedTry)));
    }

    method ProcessPromise(known: bool, elect: MessageId, signature: Signature, data: PromiseData, listening: bool)
      returns (reply: Reply, out: Option<Body>)
      modifies this
      ensures PromiseStep(old(State()), known, elect, signature, data, listening, Outcome(State(), reply, out))
    {
      if data.acceptedTry < -1 {
        return Rejected, None;
      }
      var refusal := Refuse(known, elect);
      if refusal.Some? {
        return refusal.value, None;
      }
      promises := promises[signature := data];
      if |promises| < Majority(electInstances[elect].acceptorNumber) || role != Proposer || lastSent != Prepare {
        return Done, None;
      }
      if !listening {
        return Blocked, None;
      }
      var highest, value := HighestAccepted();
      var signatures := SignaturesOf(promises.Keys);
      var tried := if highest == -1 then proposedTry else highest;
      lastSent := Propose;
      return Done, Some(ProposeMsg(tried, value, signatures));
    }

    method HighestAccepted() returns (highest: int, value: bool)
      ensures Highest(promises, highest, value)
    {
      highest, value := -1, true;
      var todo := promises.Keys;
      while todo != {}
        invariant todo <= promises.Keys && -1 <= highest
        invariant forall s :: s in promises && s !in todo ==> promises[s].acceptedTry <= highest
        invariant highest == -1 ==> value
        invariant highest > -1 ==>
                    exists s :: s in promises && promises[s].acceptedTry == highest &&
                      promises[s].acceptedValue == value
        decreases |todo|
      {
        var s :| s in todo;
        todo := todo - {s};
        if promises[s].acceptedTry > highest {
          highest := promises[s].acceptedTry;
          value := promises[s].acceptedValue;
        }
      }
    }

    method SignaturesOf(keys: set<Signature>) returns (signatures: seq<Signature>)
      ensures Enumerates(signatures, keys)
    {
      signatures := [];
      var todo := keys;
      while todo != {}
        invariant todo <= keys && Enumerates(signatures, keys - todo)
        decreases |todo|
      {
        var s :| s in todo;
        todo := todo - {s};
        EnumeratesMore(signatures, keys - todo - {s}, s);
        signatures := signatures + [s];
        assert keys - todo == keys - todo - {s} + {s};
      }
    }

    method ProcessPropose(known: bool, elect: MessageId, tried: int, value: bool, subscribed: bool, listening: bool)
      returns (reply: Reply, out: Option<Body>)
      modifies this
      ensures Outcome(State(), reply, out) ==
              ProposeStep(old(State()), known, elect, tried, value, subscribed, listening)
    {
      if tried < 0 {
        return Rejected, None;
      }
      var refusal := Refuse(known, elect);
      if refusal.Some? {
        return refusal.value, None;
      }
      if !listening {
        return Blocked, None;
      }
      if !subscribed {
        return Done, None;
      }
      if promisedTry > tried {
        return Done, None;
      }
      acceptedTry := tried;
      acceptedValue := value;
      if role == Acceptor {
        lastSent := Accept;
      }
      return Done, Some(AcceptMsg(AcceptData(acceptedTry, acceptedValue)));
    }

    method ProcessAccept(known: bool, elect: MessageId, signature: Signature, data: AcceptData, listening: bool)
      returns (reply: Reply, out: Option<Body>)
      modifies this
      ensures AcceptStep(old(State()), known, elect, signature, data, listening, Outcome(State(), reply, out))
    {
      if data.acceptedTry < -1 {
        return Rejected, None;
      }
      var refusal := Refuse(known, elect);
      if refusal.Some? {
        return refusal.value, None;
      }
      if data.acceptedTry == proposedTry && data.acceptedValue == proposedValue {
        accepts := accepts[signature := data];
      }
      assert State() == old(State()).(accepts := accepts);
      reply, out := CountAccepts(elect, listening);
    }

    /** What ProcessAccept does once an accept is counted. */
    method CountAccepts(elect: MessageId, listening: bool) returns (reply: Reply, out: Option<Body>)
      requires elect in electInstances
      modifies this
      ensures Counted(old(State()), elect, listening, Outcome(State(), reply, out))
    {
      if |accepts| < Majority(electInstances[elect].acceptorNumber) || role != Proposer || lastSent != Propose {
        return Done, None;
      }
      if !listening {
        return Blocked, None;
      }
      decided := true;
      decision := proposedValue;
      var signatures := SignaturesOf(accepts.Keys);
      lastSent := Learn;
      return Done, Some(LearnMsg(decision, signatures));
    }

    method ProcessLearn(known: bool, elect: MessageId, decided': bool, listening: bool) returns (reply: Reply)
      modifies this
      ensures Outcome(State(), reply, None) == LearnStep(old(State()), known, elect, decided', listening)
    {
      if !known {
        return Rejected;
      }
      if decided {
        return Done;
      }
      if elect !in electInstances {
        return Crashed;
      }
      if electInstances[elect].failed {
        return Done;
      }
      if !listening {
        return Blocked;
      }
      decided := true;
      decision := decided';
      return Done;
    }

    method ProcessFailure(known: bool, elect: MessageId, listening: bool) returns (reply: Reply)
      modifies this
      ensures Outcome(State(), reply, None) == FailureStep(old(State()), known, elect, listening)
    {
      if !known {
        return Rejected;
      }
      if elect !in electInstances {
        return Crashed;
      }
      if electInstances[elect].failed || decided {
        return Done;
      }
      if !listening {
        return Blocked;
      }
      electInstances := electInstances[elect := electInstances[elect].(failed := true)];
      return Done;
    }

    /** Marks the elect message as failed; nothing to send when it is unknown or failed already. */
    method CreateFailureMessage(elect: MessageId) returns (out: Option<Body>)
      modifies this`electInstances
      ensures elect in old(electInstances) && !old(electInstances)[elect].failed ==>
                out == Some(FailureMsg) && State() == Failed(old(State()), elect)
      ensures !(elect in old(electInstances) && !old(electInstances)[elect].failed) ==>
                out == None && State() == old(State())
    {
      if elect !in electInstances {
        return None;
      }
      if electInstances[elect].failed {
        return None;
      }
      electInstances := electInstances[elect := electInstances[elect].(failed := true)];
      return Some(FailureMsg);
    }

    method TimeoutFailure(elect: MessageId) returns (reply: Reply, out: Option<Body>)
      modifies this
      ensures Outcome(State(), reply, out) == TimeoutStep(old(State()), elect)
    {
      out := CreateFailureMessage(elect);
      reply := if out.Some? then Done else Rejected;
    }

    method Demote()
      modifies this
      ensures State() == DemoteStep(old(State()))
    {
      if lastSent == Prepare || lastSent == Propose {
        role := Acceptor;
      }
    }
  }

  lemma EnumeratesMore<T>(s: seq<T>, all: set<T>, x: T)
    requires Enumerates(s, all) && x !in all
    ensures Enumerates(s + [x], all + {x})
  {
  }
}
