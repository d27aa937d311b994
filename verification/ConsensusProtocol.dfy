/** Consensus among any number of servers, over a network that loses, repeats and reorders. */
module ConsensusProtocol {
  import opened Basics
  import opened Consensus

  type ServerId = string
  type InstanceId = string

  /** A published message; its signature is its place in the network. */
  datatype Envelope = Envelope(sender: ServerId, instance: InstanceId, elect: MessageId, body: Body)

  datatype System = System(servers: map<ServerId, map<InstanceId, Instance>>, net: seq<Envelope>)

  /** Where a step happens; `known`, `subscribed` and `listening` say whether the inbox
      has the elect message, a client follows the channel, and the timer still listens. */
  datatype At = At(p: ServerId, instance: InstanceId, elect: MessageId)

  datatype Step =
    | ReceiveElect(at: At, fromOrganizer: bool, servers: nat)
    | ReceiveElectAccept(at: At, voter: Voter, accept: bool, known: bool, listening: bool)
    | Receive(at: At, signature: Signature, known: bool, subscribed: bool, listening: bool, o: Outcome)
    | Timeout(at: At)
    | Demote(at: At)

  // ---------------------------------------------------------------- transitions

  ghost predicate Has(s: System, at: At) {
    at.p in s.servers && at.instance in s.servers[at.p]
  }

  ghost function Local(s: System, at: At): Instance
    requires Has(s, at)
  {
    s.servers[at.p][at.instance]
  }

  ghost function Sends(net: seq<Envelope>, at: At, out: Option<Body>): seq<Envelope> {
    if out.None? then net else net + [Envelope(at.p, at.instance, at.elect, out.value)]
  }

  ghost function After(s: System, at: At, i: Instance, out: Option<Body>): System
    requires at.p in s.servers
  {
    System(s.servers[at.p := s.servers[at.p][at.instance := i]], Sends(s.net, at, out))
  }

  ghost predicate Handles(i: Instance, signature: Signature, elect: MessageId, body: Body,
                          known: bool, subscribed: bool, listening: bool, o: Outcome)
  {
    match body
    case PrepareMsg(tried) => o == PrepareStep(i, known, elect, tried, listening)
    case PromiseMsg(data) => PromiseStep(i, known, elect, signature, data, listening, o)
    case ProposeMsg(tried, value, _) => o == ProposeStep(i, known, elect, tried, value, subscribed, listening)
    case AcceptMsg(data) => AcceptStep(i, known, elect, signature, data, listening, o)
    case LearnMsg(decision, _) => o == LearnStep(i, known, elect, decision, listening)
    case FailureMsg => o == FailureStep(i, known, elect, listening)
  }

  /** The instance a server works on when an elect message arrives: created at need. */
  ghost function Opened(s: System, at: At): Instance
    requires at.p in s.servers
  {
    if at.instance in s.servers[at.p] then s.servers[at.p][at.instance] else NewInstance()
  }

  ghost predicate Taken(s: System, step: Step, s': System) {
    && step.at.p in s.servers
    && match step
       case ReceiveElect(at, fromOrganizer, servers) =>
         && at.elect !in Opened(s, at).elects
         && s' == After(s, at, ElectStep(Opened(s, at), at.elect, fromOrganizer, servers), None)
       case ReceiveElectAccept(at, voter, accept, known, listening) =>
         && Has(s, at)
         && s' == After(s, at, ElectAcceptStep(Local(s, at), known, at.elect, voter, accept, listening).i,
                               ElectAcceptStep(Local(s, at), known, at.elect, voter, accept, listening).out)
       case Receive(at, signature, known, subscribed, listening, o) =>
         && Has(s, at) && signature < |s.net|
         && s.net[signature].instance == at.instance && s.net[signature].elect == at.elect
         && Handles(Local(s, at), signature, at.elect, s.net[signature].body, known, subscribed, listening, o)
         && s' == After(s, at, o.i, o.out)
       case Timeout(at) =>
         && Has(s, at)
         && s' == After(s, at, TimeoutStep(Local(s, at), at.elect).i, TimeoutStep(Local(s, at), at.elect).out)
       case Demote(at) =>
         Has(s, at) && s' == After(s, at, DemoteStep(Local(s, at)), None)
  }

  ghost predicate Init(s: System) {
    s.net == [] && forall p :: p in s.servers ==> s.servers[p] == map[]
  }

  /** `steps[k]` leads from `run[k]` to `run[k + 1]`. */
  ghost predicate IsRun(run: seq<System>, steps: seq<Step>) {
    && |run| == |steps| + 1 && Init(run[0])
    && forall k {:trigger StepAt(run, steps, k)} :: 0 <= k < |steps| ==> StepAt(run, steps, k)
  }

  ghost predicate StepAt(run: seq<System>, steps: seq<Step>, k: int)
    requires 0 <= k < |steps| < |run|
  {
    Taken(run[k], steps[k], run[k + 1])
  }

  // ------------------------------------------------------------------ invariant

  ghost predicate SentAs(net: seq<Envelope>, n: int, instance: InstanceId, body: Body) {
    0 <= n < |net| && net[n].instance == instance && net[n].body == body
  }

  /** A Propose of this try and value was published before place `n`. */
  ghost predicate Proposed(net: seq<Envelope>, n: int, instance: InstanceId, tried: int, value: bool) {
    exists m :: 0 <= m < n && m < |net| && net[m].instance == instance && net[m].body.ProposeMsg?
                && net[m].body.proposedTry == tried && net[m].body.proposedValue == value
  }

  ghost predicate PromisesSigned(net: seq<Envelope>, n: int, instance: InstanceId, signatures: seq<Signature>) {
    && NoDup(signatures)
    && forall g :: g in signatures ==> g < n && g < |net| && net[g].instance == instance && net[g].body.PromiseMsg?
  }

  ghost predicate AcceptsSigned(net: seq<Envelope>, n: int, instance: InstanceId, signatures: seq<Signature>) {
    && NoDup(signatures)
    && forall g :: g in signatures ==> g < n && g < |net| && net[g].instance == instance && net[g].body.AcceptMsg?
  }

  /** What the body at place `n` says is true, and is backed by earlier messages. */
  ghost predicate BodyOk(net: seq<Envelope>, n: int, instance: InstanceId, body: Body) {
    match body
    case PrepareMsg(tried) => 1 <= tried
    case PromiseMsg(data) => -1 <= data.acceptedTry && (0 <= data.acceptedTry ==> data.acceptedValue)
    case ProposeMsg(tried, value, signatures) => 0 <= tried && value && PromisesSigned(net, n, instance, signatures)
    case AcceptMsg(data) => data.acceptedValue && Proposed(net, n, instance, data.acceptedTry, data.acceptedValue)
    case LearnMsg(decision, signatures) => decision && AcceptsSigned(net, n, instance, signatures)
    case FailureMsg => true
  }

  /** Two messages of one server in one instance, in the order published. */
  ghost predicate Ordered(earlier: Body, later: Body) {
    && (earlier.PrepareMsg? && later.PrepareMsg? ==> earlier.tried < later.tried)
    && (earlier.PromiseMsg? && later.PrepareMsg? ==> earlier.promise.promisedTry < later.tried)
    && (earlier.PromiseMsg? && later.PromiseMsg? ==> earlier.promise.promisedTry < later.promise.promisedTry)
    && (earlier.PromiseMsg? && later.AcceptMsg? ==> earlier.promise.promisedTry <= later.accept.acceptedTry)
  }

  ghost predicate NetOk(net: seq<Envelope>) {
    && (forall n {:trigger BodyOk(net, n, net[n].instance, net[n].body)} ::
          0 <= n < |net| ==> BodyOk(net, n, net[n].instance, net[n].body))
    && (forall m, n {:trigger Ordered(net[m].body, net[n].body)} | 0 <= m < n < |net| ::
          net[m].sender == net[n].sender && net[m].instance == net[n].instance ==> Ordered(net[m].body, net[n].body))
  }

  /** Everything the server published in this instance lies within its present tries. */
  ghost predicate Bounded(i: Instance, body: Body) {
    && (body.PrepareMsg? ==> body.tried <= i.proposedTry)
    && (body.PromiseMsg? ==> body.promise.promisedTry <= i.promisedTry)
  }

  ghost predicate ValuesOk(i: Instance) {
    && 0 <= i.proposedTry && -1 <= i.promisedTry && -1 <= i.acceptedTry
    && (0 <= i.acceptedTry ==> i.acceptedValue)
    && (i.lastSent == Prepare || i.lastSent == Propose ==> i.proposedValue)
    && (i.decided ==> i.decision)
  }

  ghost predicate RecordsOk(net: seq<Envelope>, instance: InstanceId, i: Instance) {
    && (forall g :: g in i.promises ==> SentAs(net, g, instance, PromiseMsg(i.promises[g])))
    && (forall g :: g in i.accepts ==> SentAs(net, g, instance, AcceptMsg(i.accepts[g])))
  }

  ghost predicate InstanceOk(net: seq<Envelope>, p: ServerId, instance: InstanceId, i: Instance) {
    && ValuesOk(i) && RecordsOk(net, instance, i)
    && (forall n {:trigger Bounded(i, net[n].body)} ::
          0 <= n < |net| && net[n].sender == p && net[n].instance == instance ==> Bounded(i, net[n].body))
  }

  ghost function SignaturesIn(body: Body): seq<Signature> {
    if body.ProposeMsg? || body.LearnMsg? then body.signatures else []
  }

  /** A Propose or Learn carries a majority of signatures, as its sender counts servers. */
  ghost predicate Quorate(s: System, e: Envelope) {
    e.body.ProposeMsg? || e.body.LearnMsg? ==> HasQuorum(s, At(e.sender, e.instance, e.elect), SignaturesIn(e.body))
  }

  ghost predicate HasQuorum(s: System, at: At, signatures: seq<Signature>) {
    && Has(s, at)
    && at.elect in Local(s, at).elects
    && Majority(Local(s, at).elects[at.elect].acceptorNumber) <= |signatures|
  }

  ghost predicate Inv(s: System) {
    && NetOk(s.net)
    && (forall at {:trigger Has(s, at)} :: Has(s, at) ==> InstanceOk(s.net, at.p, at.instance, Local(s, at)))
    && (forall n {:trigger Quorate(s, s.net[n])} :: 0 <= n < |s.net| ==> Quorate(s, s.net[n]))
  }

  // --------------------------------------------------------- growing the network

  lemma BodyStays(net: seq<Envelope>, e: Envelope, n: int, instance: InstanceId, body: Body)
    requires 0 <= n <= |net| && BodyOk(net, n, instance, body)
    ensures BodyOk(net + [e], n, instance, body)
  {
    match body
    case AcceptMsg(data) =>
      var m :| 0 <= m < n && m < |net| && net[m].instance == instance && net[m].body.ProposeMsg?
               && net[m].body.proposedTry == data.acceptedTry && net[m].body.proposedValue == data.acceptedValue;
      assert (net + [e])[m] == net[m];
    case _ =>
  }

  lemma NetExtended(net: seq<Envelope>, e: Envelope)
    requires NetOk(net) && BodyOk(net, |net|, e.instance, e.body)
    requires forall m :: 0 <= m < |net| && net[m].sender == e.sender && net[m].instance == e.instance
                         ==> Ordered(net[m].body, e.body)
    ensures NetOk(net + [e])
  {
    var net' := net + [e];
    forall n | 0 <= n < |net'|
      ensures BodyOk(net', n, net'[n].instance, net'[n].body)
    {
      if n < |net| {
        assert BodyOk(net, n, net[n].instance, net[n].body);
      }
      BodyStays(net, e, n, net'[n].instance, net'[n].body);
    }
    forall m, n | 0 <= m < n < |net'| && net'[m].sender == net'[n].sender && net'[m].instance == net'[n].instance
      ensures Ordered(net'[m].body, net'[n].body)
    {
      if n < |net| {
        assert Ordered(net[m].body, net[n].body);
      }
    }
  }

  // --------------------------------------------------------------- local steps

  /** What a handler owes the network: the instance stays in order, its tries do not
      fall, no elect message forgets how many servers it counts, and what it publishes
      is backed and in order. */
  ghost predicate LocalOk(net: seq<Envelope>, at: At, i: Instance, i': Instance, out: Option<Body>) {
    && StateOk(net, at, i, i')
    && (out.Some? ==> OutOk(net, at, i, i', out.value))
  }

  ghost predicate StateOk(net: seq<Envelope>, at: At, i: Instance, i': Instance) {
    && ValuesOk(i') && RecordsOk(net, at.instance, i')
    && i.proposedTry <= i'.proposedTry && i.promisedTry <= i'.promisedTry
    && KeepsElects(i, i')
  }

  ghost predicate OutOk(net: seq<Envelope>, at: At, i: Instance, i': Instance, body: Body) {
    && BodyOk(net, |net|, at.instance, body)
    && Bounded(i', body)
    && Follows(i, body)
    && at.elect in i'.elects
    && (body.ProposeMsg? || body.LearnMsg? ==> Majority(i'.elects[at.elect].acceptorNumber) <= |SignaturesIn(body)|)
  }

  ghost predicate KeepsElects(i: Instance, i': Instance) {
    forall e :: e in i.elects ==> e in i'.elects && i'.elects[e].acceptorNumber == i.elects[e].acceptorNumber
  }

  /** `body` comes in order after everything within the tries of `i`. */
  ghost predicate Follows(i: Instance, body: Body) {
    && (body.PrepareMsg? ==> i.proposedTry < body.tried && i.promisedTry < body.tried)
    && (body.PromiseMsg? ==> i.promisedTry < body.promise.promisedTry)
    && (body.AcceptMsg? ==> i.promisedTry <= body.accept.acceptedTry)
  }

  lemma AfterVoteLocal(net: seq<Envelope>, at: At, i: Instance, listening: bool)
    requires ValuesOk(i) && RecordsOk(net, at.instance, i) && at.elect in i.elects
    ensures LocalOk(net, at, i, AfterVote(i, at.elect, listening).i, AfterVote(i, at.elect, listening).out)
  {
    FailedKeepsElects(i, at.elect);
    var o := AfterVote(i, at.elect, listening);
    assert o.i.elects == i.elects || o.i == Failed(i, at.elect);
    assert KeepsElects(i, o.i);
  }

  lemma FailedKeepsElects(i: Instance, elect: MessageId)
    requires elect in i.elects
    ensures KeepsElects(i, Failed(i, elect))
  {
  }

  lemma ElectAcceptLocal(net: seq<Envelope>, at: At, i: Instance, voter: Voter, accept: bool, known: bool,
                         listening: bool)
    requires ValuesOk(i) && RecordsOk(net, at.instance, i)
    ensures var o := ElectAcceptStep(i, known, at.elect, voter, accept, listening);
            LocalOk(net, at, i, o.i, o.out)
  {
    if at.elect in i.elects {
      var i1 := i.(elects := i.elects[at.elect := Voted(i.elects[at.elect], voter, accept)]);
      AfterVoteLocal(net, at, i1, listening);
      assert KeepsElects(i, i1);
    }
  }

  lemma PrepareLocal(net: seq<Envelope>, at: At, i: Instance, tried: int, known: bool, listening: bool)
    requires ValuesOk(i) && RecordsOk(net, at.instance, i) && 1 <= tried
    ensures var o := PrepareStep(i, known, at.elect, tried, listening);
            LocalOk(net, at, i, o.i, o.out)
  {
  }

  lemma EnumeratedSize<T>(s: seq<T>, all: set<T>)
    requires Enumerates(s, all)
    ensures |s| == |all|
    decreases |s|
  {
    if s != [] {
      var x := s[|s| - 1];
      var rest := s[..|s| - 1];
      assert forall i :: 0 <= i < |rest| ==> rest[i] == s[i] && s[i] != x;
      assert s == rest + [x];
      assert Enumerates(rest, all - {x});
      EnumeratedSize(rest, all - {x});
    }
  }

  /** The highest accepted value among promises really sent is true: a promise that
      reports an accepted try reports the value true with it. */
  lemma HighestIsTrue(net: seq<Envelope>, instance: InstanceId, promises: map<Signature, PromiseData>, highest: int,
                      value: bool)
    requires NetOk(net) && Highest(promises, highest, value)
    requires forall g :: g in promises ==> SentAs(net, g, instance, PromiseMsg(promises[g]))
    ensures value
  {
    if highest > -1 {
      var s :| s in promises && promises[s].acceptedTry == highest && promises[s].acceptedValue == value;
      assert SentAs(net, s, instance, PromiseMsg(promises[s]));
      assert BodyOk(net, s, net[s].instance, net[s].body);
    }
  }

  lemma PromiseOut(net: seq<Envelope>, at: At, i: Instance, i1: Instance, o: Outcome)
    requires NetOk(net) && ValuesOk(i1) && RecordsOk(net, at.instance, i1) && i.lastSent == Prepare
    requires at.elect in i1.elects && Majority(i1.elects[at.elect].acceptorNumber) <= |i1.promises|
    requires ProposesFrom(i1, o)
    ensures OutOk(net, at, i, o.i, o.out.value)
  {
    EnumeratedSize(o.out.value.signatures, i1.promises.Keys);
    var highest :| Highest(i1.promises, highest, o.out.value.proposedValue)
                   && o.out.value.proposedTry == if highest == -1 then i1.proposedTry else highest;
    HighestIsTrue(net, at.instance, i1.promises, highest, o.out.value.proposedValue);
    forall s | s in o.out.value.signatures
      ensures s < |net| && net[s].instance == at.instance && net[s].body.PromiseMsg?
    {
      assert SentAs(net, s, at.instance, PromiseMsg(i1.promises[s]));
    }
  }

  lemma PromiseLocal(net: seq<Envelope>, at: At, i: Instance, g: Signature, data: PromiseData, known: bool,
                     listening: bool, o: Outcome)
    requires NetOk(net) && ValuesOk(i) && RecordsOk(net, at.instance, i)
    requires SentAs(net, g, at.instance, PromiseMsg(data))
    requires PromiseStep(i, known, at.elect, g, data, listening, o)
    ensures LocalOk(net, at, i, o.i, o.out)
  {
    if o.out.Some? {
      PromiseOut(net, at, i, i.(promises := i.promises[g := data]), o);
    }
  }

  lemma ProposeLocal(net: seq<Envelope>, at: At, i: Instance, m: Signature, known: bool, subscribed: bool,
                     listening: bool)
    requires NetOk(net) && ValuesOk(i) && RecordsOk(net, at.instance, i)
    requires m < |net| && net[m].instance == at.instance && net[m].body.ProposeMsg?
    ensures var o := ProposeStep(i, known, at.elect, net[m].body.proposedTry, net[m].body.proposedValue, subscribed,
                                 listening);
            LocalOk(net, at, i, o.i, o.out)
  {
    assert BodyOk(net, m, net[m].instance, net[m].body);
    assert Proposed(net, |net|, at.instance, net[m].body.proposedTry, net[m].body.proposedValue);
  }

  lemma AcceptState(net: seq<Envelope>, at: At, i: Instance, g: Signature, data: AcceptData, known: bool,
                    listening: bool, o: Outcome)
    requires ValuesOk(i) && RecordsOk(net, at.instance, i)
    requires SentAs(net, g, at.instance, AcceptMsg(data))
    requires AcceptStep(i, known, at.elect, g, data, listening, o)
    ensures StateOk(net, at, i, o.i)
  {
  }

  lemma AcceptLocal(net: seq<Envelope>, at: At, i: Instance, g: Signature, data: AcceptData, known: bool,
                    listening: bool, o: Outcome)
    requires NetOk(net) && ValuesOk(i) && RecordsOk(net, at.instance, i)
    requires SentAs(net, g, at.instance, AcceptMsg(data))
    requires AcceptStep(i, known, at.elect, g, data, listening, o)
    ensures LocalOk(net, at, i, o.i, o.out)
  {
    AcceptState(net, at, i, g, data, known, listening, o);
    if o.out.Some? {
      EnumeratedSize(o.out.value.signatures, o.i.accepts.Keys);
      forall s | s in o.out.value.signatures
        ensures s < |net| && net[s].instance == at.instance && net[s].body.AcceptMsg?
      {
        assert SentAs(net, s, at.instance, AcceptMsg(o.i.accepts[s]));
      }
    }
  }

  lemma LearnLocal(net: seq<Envelope>, at: At, i: Instance, decision: bool, known: bool, listening: bool)
    requires ValuesOk(i) && RecordsOk(net, at.instance, i) && decision
    ensures var o := LearnStep(i, known, at.elect, decision, listening);
            LocalOk(net, at, i, o.i, o.out)
  {
  }

  lemma FailureLocal(net: seq<Envelope>, at: At, i: Instance, known: bool, listening: bool)
    requires ValuesOk(i) && RecordsOk(net, at.instance, i)
    ensures var o := FailureStep(i, known, at.elect, listening);
            LocalOk(net, at, i, o.i, o.out)
  {
    if at.elect in i.elects {
      FailedKeepsElects(i, at.elect);
    }
  }

  lemma HandlesLocal(net: seq<Envelope>, at: At, i: Instance, g: Signature, known: bool, subscribed: bool,
                     listening: bool, o: Outcome)
    requires NetOk(net) && ValuesOk(i) && RecordsOk(net, at.instance, i)
    requires g < |net| && net[g].instance == at.instance && net[g].elect == at.elect
    requires Handles(i, g, at.elect, net[g].body, known, subscribed, listening, o)
    ensures LocalOk(net, at, i, o.i, o.out)
  {
    assert BodyOk(net, g, net[g].instance, net[g].body);
    match net[g].body
    case PrepareMsg(tried) => PrepareLocal(net, at, i, tried, known, listening);
    case PromiseMsg(data) => PromiseLocal(net, at, i, g, data, known, listening, o);
    case ProposeMsg(_, _, _) => ProposeLocal(net, at, i, g, known, subscribed, listening);
    case AcceptMsg(data) => AcceptLocal(net, at, i, g, data, known, listening, o);
    case LearnMsg(decision, _) => LearnLocal(net, at, i, decision, known, listening);
    case FailureMsg => FailureLocal(net, at, i, known, listening);
  }

  // -------------------------------------------------------------- preservation

  lemma PublishedInOrder(net: seq<Envelope>, at: At, i: Instance, body: Body)
    requires InstanceOk(net, at.p, at.instance, i) && Follows(i, body)
    ensures forall m :: 0 <= m < |net| && net[m].sender == at.p && net[m].instance == at.instance
                        ==> Ordered(net[m].body, body)
  {
    forall m | 0 <= m < |net| && net[m].sender == at.p && net[m].instance == at.instance
      ensures Ordered(net[m].body, body)
    {
      assert Bounded(i, net[m].body);
    }
  }

  lemma OwnInstanceStays(net: seq<Envelope>, at: At, i: Instance, i': Instance, out: Option<Body>)
    requires InstanceOk(net, at.p, at.instance, i) && LocalOk(net, at, i, i', out)
    ensures InstanceOk(Sends(net, at, out), at.p, at.instance, i')
  {
    var net' := Sends(net, at, out);
    forall n | 0 <= n < |net'| && net'[n].sender == at.p && net'[n].instance == at.instance
      ensures Bounded(i', net'[n].body)
    {
      if n < |net| {
        assert net'[n] == net[n] && Bounded(i, net[n].body);
      }
    }
  }

  lemma InstancesAfter(s: System, at: At, i: Instance, i': Instance, out: Option<Body>, b: At)
    requires Inv(s) && at.p in s.servers && i == Opened(s, at)
    requires InstanceOk(s.net, at.p, at.instance, i) && LocalOk(s.net, at, i, i', out)
    requires Has(After(s, at, i', out), b)
    ensures InstanceOk(Sends(s.net, at, out), b.p, b.instance, Local(After(s, at, i', out), b))
  {
    if b.p == at.p && b.instance == at.instance {
      OwnInstanceStays(s.net, at, i, i', out);
    } else {
      assert Has(s, b);
    }
  }

  lemma QuoratesAfter(s: System, at: At, i: Instance, i': Instance, out: Option<Body>, e: Envelope)
    requires at.p in s.servers && i == Opened(s, at) && KeepsElects(i, i') && Quorate(s, e)
    ensures Quorate(After(s, at, i', out), e)
  {
  }

  lemma StepKeepsInv(s: System, at: At, i: Instance, i': Instance, out: Option<Body>)
    requires Inv(s) && at.p in s.servers && i == Opened(s, at)
    requires InstanceOk(s.net, at.p, at.instance, i) && LocalOk(s.net, at, i, i', out)
    ensures Inv(After(s, at, i', out))
  {
    var s' := After(s, at, i', out);
    if out.Some? {
      PublishedInOrder(s.net, at, i, out.value);
      NetExtended(s.net, Envelope(at.p, at.instance, at.elect, out.value));
    }
    forall b | Has(s', b)
      ensures InstanceOk(s'.net, b.p, b.instance, Local(s', b))
    {
      InstancesAfter(s, at, i, i', out, b);
    }
    forall n | 0 <= n < |s'.net|
      ensures Quorate(s', s'.net[n])
    {
      if n < |s.net| {
        assert s'.net[n] == s.net[n] && Quorate(s, s.net[n]);
        QuoratesAfter(s, at, i, i', out, s.net[n]);
      }
    }
  }

  /** A server that opens an instance has published nothing in it. */
  lemma OpenedOk(s: System, at: At)
    requires Inv(s) && Silent(s) && at.p in s.servers
    ensures InstanceOk(s.net, at.p, at.instance, Opened(s, at))
  {
    if at.instance in s.servers[at.p] {
      assert Has(s, at);
    } else {
      forall n | 0 <= n < |s.net| ensures !(s.net[n].sender == at.p && s.net[n].instance == at.instance) {
        assert Has(s, At(s.net[n].sender, s.net[n].instance, s.net[n].elect));
      }
    }
  }

  /** Only servers with the instance open publish in it. */
  ghost predicate Silent(s: System) {
    forall n {:trigger s.net[n]} :: 0 <= n < |s.net| ==> Has(s, At(s.net[n].sender, s.net[n].instance, s.net[n].elect))
  }

  lemma SilentAfter(s: System, at: At, i': Instance, out: Option<Body>)
    requires Silent(s) && at.p in s.servers
    ensures Silent(After(s, at, i', out))
  {
    var s' := After(s, at, i', out);
    forall n | 0 <= n < |s'.net|
      ensures Has(s', At(s'.net[n].sender, s'.net[n].instance, s'.net[n].elect))
    {
      if n < |s.net| {
        assert s'.net[n] == s.net[n];
      }
    }
  }

  /** What each step does, as one local change. */
  lemma StepIsLocal(s: System, step: Step, s': System) returns (i': Instance, out: Option<Body>)
    requires Inv(s) && Silent(s) && Taken(s, step, s')
    ensures s' == After(s, step.at, i', out)
    ensures InstanceOk(s.net, step.at.p, step.at.instance, Opened(s, step.at))
    ensures LocalOk(s.net, step.at, Opened(s, step.at), i', out)
  {
    var i := Opened(s, step.at);
    OpenedOk(s, step.at);
    match step
    case ReceiveElect(at, fromOrganizer, servers) =>
      i', out := ElectStep(i, at.elect, fromOrganizer, servers), None;
    case ReceiveElectAccept(at, voter, accept, known, listening) =>
      var o := ElectAcceptStep(i, known, at.elect, voter, accept, listening);
      ElectAcceptLocal(s.net, at, i, voter, accept, known, listening);
      i', out := o.i, o.out;
    case Receive(at, g, known, subscribed, listening, o) =>
      HandlesLocal(s.net, at, i, g, known, subscribed, listening, o);
      i', out := o.i, o.out;
    case Timeout(at) =>
      i', out := TimeoutStep(i, at.elect).i, TimeoutStep(i, at.elect).out;
    case Demote(at) =>
      i', out := DemoteStep(i), None;
  }

  lemma StepInv(s: System, step: Step, s': System)
    requires Inv(s) && Silent(s) && Taken(s, step, s')
    ensures Inv(s') && Silent(s') && s.net <= s'.net
  {
    var i', out := StepIsLocal(s, step, s');
    StepKeepsInv(s, step.at, Opened(s, step.at), i', out);
    SilentAfter(s, step.at, i', out);
  }

  lemma {:induction false} ReachableInv(run: seq<System>, steps: seq<Step>, k: nat)
    requires IsRun(run, steps) && k < |run|
    ensures Inv(run[k]) && Silent(run[k])
  {
    if k > 0 {
      ReachableInv(run, steps, k - 1);
      assert StepAt(run, steps, k - 1);
      StepInv(run[k - 1], steps[k - 1], run[k]);
    }
  }

  // ------------------------------------------------------------------- theorems

  /** Every decision in every run is true, although instances start out holding false
      and promises of nothing accepted report false. */
  lemma DecisionIsTrue(run: seq<System>, steps: seq<Step>, k: nat, at: At)
    requires IsRun(run, steps) && k < |run| && Has(run[k], at) && Local(run[k], at).decided
    ensures Local(run[k], at).decision
  {
    ReachableInv(run, steps, k);
    assert InstanceOk(run[k].net, at.p, at.instance, Local(run[k], at));
  }

  /** Agreement: servers that have decided an instance, at whatever moments, agree. */
  lemma Agreement(run: seq<System>, steps: seq<Step>, k: nat, a: At, l: nat, b: At)
    requires IsRun(run, steps) && k < |run| && l < |run| && a.instance == b.instance
    requires Has(run[k], a) && Local(run[k], a).decided
    requires Has(run[l], b) && Local(run[l], b).decided
    ensures Local(run[k], a).decision == Local(run[l], b).decision
  {
    DecisionIsTrue(run, steps, k, a);
    DecisionIsTrue(run, steps, l, b);
  }

  lemma ElectAcceptKeepsDecision(i: Instance, known: bool, elect: MessageId, voter: Voter, accept: bool,
                                 listening: bool)
    requires i.decided
    ensures ElectAcceptStep(i, known, elect, voter, accept, listening).i == i
  {
  }

  lemma HandlesKeepsDecision(i: Instance, g: Signature, elect: MessageId, body: Body, known: bool, subscribed: bool,
                             listening: bool, o: Outcome)
    requires i.decided && Handles(i, g, elect, body, known, subscribed, listening, o)
    ensures o.i.decided && o.i.decision == i.decision
  {
  }

  lemma StepKeepsDecision(s: System, step: Step, s': System, at: At)
    requires Taken(s, step, s') && Has(s, at) && Local(s, at).decided
    ensures Has(s', at) && Local(s', at).decided && Local(s', at).decision == Local(s, at).decision
  {
    if step.at.p == at.p && step.at.instance == at.instance {
      match step
      case ReceiveElectAccept(b, voter, accept, known, listening) =>
        ElectAcceptKeepsDecision(Local(s, at), known, b.elect, voter, accept, listening);
      case Receive(b, g, known, subscribed, listening, o) =>
        HandlesKeepsDecision(Local(s, at), g, b.elect, s.net[g].body, known, subscribed, listening, o);
      case _ =>
    }
  }

  /** A decision once made never changes. */
  lemma {:induction false} DecisionIsFinal(run: seq<System>, steps: seq<Step>, k: nat, l: nat, at: At)
    requires IsRun(run, steps) && k <= l < |run| && Has(run[k], at) && Local(run[k], at).decided
    ensures Has(run[l], at) && Local(run[l], at).decided
    ensures Local(run[l], at).decision == Local(run[k], at).decision
    decreases l
  {
    if k < l {
      DecisionIsFinal(run, steps, k, l - 1, at);
      assert StepAt(run, steps, l - 1);
      StepKeepsDecision(run[l - 1], steps[l - 1], run[l], at);
    }
  }

  /** A Learn of this decision was published in this instance. */
  ghost predicate Learned(net: seq<Envelope>, instance: InstanceId, decision: bool) {
    exists n :: 0 <= n < |net| && net[n].instance == instance && net[n].body.LearnMsg? &&
      net[n].body.decision == decision
  }

  lemma LearnedStays(net: seq<Envelope>, net': seq<Envelope>, instance: InstanceId, decision: bool)
    requires net <= net' && Learned(net, instance, decision)
    ensures Learned(net', instance, decision)
  {
    var n :| 0 <= n < |net| && net[n].instance == instance && net[n].body.LearnMsg? && net[n].body.decision == decision;
    assert net'[n] == net[n];
  }

  /** A handler that decides either received a Learn or publishes one. */
  lemma DecidesOn(i: Instance, g: Signature, elect: MessageId, body: Body, known: bool, subscribed: bool,
                  listening: bool, o: Outcome)
    requires !i.decided && o.i.decided
    requires Handles(i, g, elect, body, known, subscribed, listening, o)
    ensures body.LearnMsg? || body.AcceptMsg?
    ensures body.LearnMsg? ==> o.i.decision == body.decision
    ensures body.AcceptMsg? ==> o.out.Some? && o.out.value.LearnMsg? && o.out.value.decision == o.i.decision
  {
    match body
    case AcceptMsg(data) => assert AcceptStep(i, known, elect, g, data, listening, o);
    case _ =>
  }

  lemma DecidesWithLearn(s: System, at: At, i: Instance, g: Signature, known: bool, subscribed: bool, listening: bool,
                         o: Outcome)
    requires g < |s.net| && s.net[g].instance == at.instance && !i.decided && o.i.decided
    requires Handles(i, g, at.elect, s.net[g].body, known, subscribed, listening, o)
    ensures Learned(Sends(s.net, at, o.out), at.instance, o.i.decision)
  {
    DecidesOn(i, g, at.elect, s.net[g].body, known, subscribed, listening, o);
    LearnInNet(s.net, at, g, o.out, o.i.decision);
  }

  lemma LearnInNet(net: seq<Envelope>, at: At, g: Signature, out: Option<Body>, decision: bool)
    requires g < |net| && net[g].instance == at.instance
    requires (net[g].body.LearnMsg? && net[g].body.decision == decision)
          || (out.Some? && out.value.LearnMsg? && out.value.decision == decision)
    ensures Learned(Sends(net, at, out), at.instance, decision)
  {
    var net' := Sends(net, at, out);
    if net[g].body.LearnMsg? && net[g].body.decision == decision {
      assert net'[g] == net[g];
    } else {
      assert net'[|net|] == Envelope(at.p, at.instance, at.elect, out.value);
    }
  }

  lemma AfterVoteDecidesNothing(i: Instance, known: bool, elect: MessageId, voter: Voter, accept: bool, listening: bool)
    requires !i.decided
    ensures !ElectAcceptStep(i, known, elect, voter, accept, listening).i.decided
  {
  }

  lemma StepDecides(s: System, step: Step, s': System, at: At)
    requires Taken(s, step, s') && Has(s', at) && Local(s', at).decided
    ensures (Has(s, at) && Local(s, at).decided) || Learned(s'.net, at.instance, Local(s', at).decision)
  {
    if step.at.p == at.p && step.at.instance == at.instance && !(Has(s, at) && Local(s, at).decided) {
      match step
      case ReceiveElectAccept(b, voter, accept, known, listening) =>
        AfterVoteDecidesNothing(Local(s, b), known, b.elect, voter, accept, listening);
      case Receive(b, g, known, subscribed, listening, o) =>
        DecidesWithLearn(s, b, Local(s, b), g, known, subscribed, listening, o);
      case _ =>
    }
  }

  /** No server decides without a Learn published in the same instance. */
  lemma {:induction false} DecisionIsLearned(run: seq<System>, steps: seq<Step>, k: nat, at: At)
    requires IsRun(run, steps) && k < |run| && Has(run[k], at) && Local(run[k], at).decided
    ensures Learned(run[k].net, at.instance, Local(run[k], at).decision)
    decreases k
  {
    if k > 0 {
      assert StepAt(run, steps, k - 1);
      StepDecides(run[k - 1], steps[k - 1], run[k], at);
      if Has(run[k - 1], at) && Local(run[k - 1], at).decided {
        DecisionIsLearned(run, steps, k - 1, at);
        StepKeepsDecision(run[k - 1], steps[k - 1], run[k], at);
        ReachableInv(run, steps, k - 1);
        StepInv(run[k - 1], steps[k - 1], run[k]);
        LearnedStays(run[k - 1].net, run[k].net, at.instance, Local(run[k], at).decision);
      }
    }
  }

  /** Provenance of a Learn: a majority of signatures, each of an Accept really sent. */
  lemma LearnProvenance(run: seq<System>, steps: seq<Step>, k: nat, n: nat)
    requires IsRun(run, steps) && k < |run| && n < |run[k].net| && run[k].net[n].body.LearnMsg?
    ensures var e := run[k].net[n];
            && HasQuorum(run[k], At(e.sender, e.instance, e.elect), e.body.signatures)
            && AcceptsSigned(run[k].net, n, e.instance, e.body.signatures)
  {
    ReachableInv(run, steps, k);
    var e := run[k].net[n];
    assert BodyOk(run[k].net, n, e.instance, e.body) && Quorate(run[k], e);
  }

  /** Provenance of an Accept: it repeats the try and value of a Propose sent before. */
  lemma AcceptProvenance(run: seq<System>, steps: seq<Step>, k: nat, n: nat) returns (m: nat)
    requires IsRun(run, steps) && k < |run| && n < |run[k].net| && run[k].net[n].body.AcceptMsg?
    ensures m < n && run[k].net[m].instance == run[k].net[n].instance && run[k].net[m].body.ProposeMsg?
    ensures run[k].net[m].body.proposedTry == run[k].net[n].body.accept.acceptedTry
    ensures run[k].net[m].body.proposedValue == run[k].net[n].body.accept.acceptedValue
  {
    ReachableInv(run, steps, k);
    var e := run[k].net[n];
    assert BodyOk(run[k].net, n, e.instance, e.body);
    m :| 0 <= m < n && m < |run[k].net| && run[k].net[m].instance == e.instance && run[k].net[m].body.ProposeMsg?
         && run[k].net[m].body.proposedTry == e.body.accept.acceptedTry
         && run[k].net[m].body.proposedValue == e.body.accept.acceptedValue;
  }

  /** Provenance of a Propose: a majority of signatures, each of a Promise really sent. */
  lemma ProposeProvenance(run: seq<System>, steps: seq<Step>, k: nat, n: nat)
    requires IsRun(run, steps) && k < |run| && n < |run[k].net| && run[k].net[n].body.ProposeMsg?
    ensures var e := run[k].net[n];
            && HasQuorum(run[k], At(e.sender, e.instance, e.elect), e.body.signatures)
            && PromisesSigned(run[k].net, n, e.instance, e.body.signatures)
  {
    ReachableInv(run, steps, k);
    var e := run[k].net[n];
    assert BodyOk(run[k].net, n, e.instance, e.body) && Quorate(run[k], e);
  }

  /** Obligations of a server in an instance, over everything it ever publishes there:
      its Prepare tries rise above all it prepared or promised before, its Promises
      rise, and no Accept falls below an earlier Promise. */
  lemma PublishedInOrderAlways(run: seq<System>, steps: seq<Step>, k: nat, m: nat, n: nat)
    requires IsRun(run, steps) && k < |run| && m < n < |run[k].net|
    requires run[k].net[m].sender == run[k].net[n].sender && run[k].net[m].instance == run[k].net[n].instance
    ensures Ordered(run[k].net[m].body, run[k].net[n].body)
  {
    ReachableInv(run, steps, k);
  }

  // ------------------------------------------------------ exclusion of quorums

  /** In this run everyone counts `n` servers for the elect message, every vote on it
      comes from one of `yes` or `no`, and those who vote yes never vote no. */
  ghost predicate OneVoteEach(steps: seq<Step>, instance: InstanceId, elect: MessageId, n: nat, yes: set<Voter>,
                              no: set<Voter>) {
    && yes !! no && |yes| + |no| <= n
    && forall step :: step in steps && step.at.instance == instance && step.at.elect == elect ==>
         && (step.ReceiveElect? ==> step.servers == n)
         && (step.ReceiveElectAccept? ==> step.voter in if step.accept then yes else no)
  }

  ghost predicate VotesWithin(s: System, instance: InstanceId, elect: MessageId, n: nat, yes: set<Voter>,
                              no: set<Voter>) {
    forall at {:trigger Has(s, at)} :: Has(s, at) && at.instance == instance && elect in Local(s, at).elects ==>
      ElectWithin(Local(s, at).elects[elect], n, yes, no)
  }

  ghost predicate ElectWithin(e: Elect, n: nat, yes: set<Voter>, no: set<Voter>) {
    e.acceptorNumber == n && e.positive.Keys <= yes && e.negative.Keys <= no
  }

  lemma AfterVoteVotes(i: Instance, elect: MessageId, listening: bool)
    requires elect in i.elects
    ensures var o := AfterVote(i, elect, listening);
            && o.i.elects.Keys == i.elects.Keys
            && (forall e :: e in i.elects ==> o.i.elects[e].(failed := true) == i.elects[e].(failed := true))
            && (o.out == Some(FailureMsg) ==> Majority(i.elects[elect].acceptorNumber) <= |i.elects[elect].negative|)
            && (o.out.Some? && o.out.value.PrepareMsg? ==>
                Majority(i.elects[elect].acceptorNumber) <= |i.elects[elect].positive|)
  {
  }

  lemma VoteWithin(i: Instance, known: bool, elect: MessageId, voter: Voter, accept: bool, listening: bool,
                   n: nat, yes: set<Voter>, no: set<Voter>)
    requires elect in i.elects ==> ElectWithin(i.elects[elect], n, yes, no)
    requires voter in if accept then yes else no
    ensures var o := ElectAcceptStep(i, known, elect, voter, accept, listening);
            && (elect in o.i.elects ==> ElectWithin(o.i.elects[elect], n, yes, no))
            && (o.out == Some(FailureMsg) ==> Majority(n) <= |no|)
            && (o.out.Some? && o.out.value.PrepareMsg? ==> Majority(n) <= |yes|)
  {
    if Refusal(i, known, elect).None? && voter !in i.elects[elect].positive && voter !in i.elects[elect].negative {
      var e := Voted(i.elects[elect], voter, accept);
      assert ElectWithin(e, n, yes, no);
      AfterVoteVotes(i.(elects := i.elects[elect := e]), elect, listening);
      SubsetSize(e.positive.Keys, yes);
      SubsetSize(e.negative.Keys, no);
      assert |e.positive| == |e.positive.Keys| && |e.negative| == |e.negative.Keys|;
    }
  }

  lemma HandlesKeepsVotes(i: Instance, g: Signature, elect: MessageId, body: Body, known: bool, subscribed: bool,
                          listening: bool, o: Outcome, e: MessageId)
    requires Handles(i, g, elect, body, known, subscribed, listening, o)
    ensures e in o.i.elects <==> e in i.elects
    ensures e in i.elects ==> o.i.elects[e].(failed := true) == i.elects[e].(failed := true)
  {
    if !body.FailureMsg? {
      NeverFails(i, g, elect, body, known, subscribed, listening, o);
    }
  }

  lemma NeverFails(i: Instance, g: Signature, elect: MessageId, body: Body, known: bool, subscribed: bool,
                   listening: bool, o: Outcome)
    requires Handles(i, g, elect, body, known, subscribed, listening, o) && !body.FailureMsg?
    ensures o.i.elects == i.elects
  {
    match body
    case PrepareMsg(tried) => assert o == PrepareStep(i, known, elect, tried, listening);
    case PromiseMsg(data) => assert PromiseStep(i, known, elect, g, data, listening, o);
    case ProposeMsg(tried, value, _) => assert o == ProposeStep(i, known, elect, tried, value, subscribed, listening);
    case AcceptMsg(data) => assert AcceptStep(i, known, elect, g, data, listening, o);
    case LearnMsg(decision, _) => assert o == LearnStep(i, known, elect, decision, listening);
  }

  lemma OtherVoteKeepsVotes(i: Instance, known: bool, elect: MessageId, voter: Voter, accept: bool, listening: bool,
                            e: MessageId)
    requires e != elect
    ensures var o := ElectAcceptStep(i, known, elect, voter, accept, listening);
            (e in o.i.elects <==> e in i.elects) && (e in i.elects ==> o.i.elects[e] == i.elects[e])
  {
    if elect in i.elects {
      AfterVoteOthers(i.(elects := i.elects[elect := Voted(i.elects[elect], voter, accept)]), elect, listening, e);
    }
  }

  lemma AfterVoteOthers(i: Instance, elect: MessageId, listening: bool, e: MessageId)
    requires elect in i.elects && e != elect
    ensures var o := AfterVote(i, elect, listening);
            (e in o.i.elects <==> e in i.elects) && (e in i.elects ==> o.i.elects[e] == i.elects[e])
  {
  }

  lemma StepKeepsVotes(s: System, step: Step, s': System, instance: InstanceId, elect: MessageId, n: nat,
                       yes: set<Voter>, no: set<Voter>)
    requires Taken(s, step, s') && VotesWithin(s, instance, elect, n, yes, no)
    requires OneVoteEach([step], instance, elect, n, yes, no)
    ensures VotesWithin(s', instance, elect, n, yes, no)
  {
    assert step in [step];
    forall at | Has(s', at) && at.instance == instance && elect in Local(s', at).elects
      ensures ElectWithin(Local(s', at).elects[elect], n, yes, no)
    {
      if at.p != step.at.p || at.instance != step.at.instance {
        assert Has(s, at);
      } else {
        match step
        case ReceiveElect(b, _, _) =>
          assert Has(s, at) ==> Local(s, at) == Opened(s, b);
        case ReceiveElectAccept(b, voter, accept, known, listening) =>
          assert Has(s, at);
          if b.elect == elect {
            VoteWithin(Local(s, at), known, elect, voter, accept, listening, n, yes, no);
          } else {
            OtherVoteKeepsVotes(Local(s, at), known, b.elect, voter, accept, listening, elect);
          }
        case Receive(b, g, known, subscribed, listening, o) =>
          assert Has(s, at);
          HandlesKeepsVotes(Local(s, at), g, b.elect, s.net[g].body, known, subscribed, listening, o, elect);
        case Timeout(b) =>
          assert Has(s, at);
        case Demote(b) =>
          assert Has(s, at);
      }
    }
  }

  lemma {:induction false} ReachableVotes(run: seq<System>, steps: seq<Step>, k: nat, instance: InstanceId,
                                          elect: MessageId, n: nat, yes: set<Voter>, no: set<Voter>)
    requires IsRun(run, steps) && k < |run| && OneVoteEach(steps, instance, elect, n, yes, no)
    ensures VotesWithin(run[k], instance, elect, n, yes, no)
    decreases k
  {
    if k > 0 {
      ReachableVotes(run, steps, k - 1, instance, elect, n, yes, no);
      assert StepAt(run, steps, k - 1);
      assert steps[k - 1] in steps;
      StepKeepsVotes(run[k - 1], steps[k - 1], run[k], instance, elect, n, yes, no);
    }
  }

  /** Step `k` is a vote on the elect message that makes its server publish `body`. */
  ghost predicate VotePublishes(run: seq<System>, steps: seq<Step>, k: nat, instance: InstanceId, elect: MessageId,
                                body: Option<Body>)
    requires IsRun(run, steps) && k < |steps|
  {
    && steps[k].ReceiveElectAccept? && steps[k].at.instance == instance && steps[k].at.elect == elect
    && Has(run[k], steps[k].at)
    && body == ElectAcceptStep(Local(run[k], steps[k].at), steps[k].known, elect, steps[k].voter, steps[k].accept,
                               steps[k].listening).out
  }

  lemma VoteQuorum(run: seq<System>, steps: seq<Step>, k: nat, instance: InstanceId, elect: MessageId, n: nat,
                   yes: set<Voter>, no: set<Voter>, body: Option<Body>)
    requires IsRun(run, steps) && k < |steps| && OneVoteEach(steps, instance, elect, n, yes, no)
    requires VotePublishes(run, steps, k, instance, elect, body)
    ensures body == Some(FailureMsg) ==> Majority(n) <= |no|
    ensures body.Some? && body.value.PrepareMsg? ==> Majority(n) <= |yes|
  {
    ReachableVotes(run, steps, k, instance, elect, n, yes, no);
    var step := steps[k];
    assert step in steps;
    VoteWithin(Local(run[k], step.at), step.known, elect, step.voter, step.accept, step.listening, n, yes, no);
  }

  /** Exclusion: with one vote per voter, no run has one server prepare and another give
      up on the same elect message for want of votes, whatever votes each has seen. */
  lemma QuorumsExclude(run: seq<System>, steps: seq<Step>, j: nat, k: nat, instance: InstanceId, elect: MessageId,
                       n: nat, yes: set<Voter>, no: set<Voter>, prepare: Body)
    requires IsRun(run, steps) && j < |steps| && k < |steps| && OneVoteEach(steps, instance, elect, n, yes, no)
    requires prepare.PrepareMsg? && VotePublishes(run, steps, j, instance, elect, Some(prepare))
    ensures !VotePublishes(run, steps, k, instance, elect, Some(FailureMsg))
  {
    VoteQuorum(run, steps, j, instance, elect, n, yes, no, Some(prepare));
    if VotePublishes(run, steps, k, instance, elect, Some(FailureMsg)) {
      VoteQuorum(run, steps, k, instance, elect, n, yes, no, Some(FailureMsg));
      assert false;
    }
  }
}
