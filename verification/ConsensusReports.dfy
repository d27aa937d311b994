/** What the messages of the consensus report: a Promise the last Accept, a Propose the highest, a Learn accepts. */
module ConsensusReports {
  import opened Basics
  import opened Consensus
  import opened ConsensusProtocol

  ghost predicate By(e: Envelope, p: ServerId, instance: InstanceId) {
    e.sender == p && e.instance == instance
  }

  /** The last Accept a server published in an instance. */
  ghost function LastAccept(net: seq<Envelope>, p: ServerId, instance: InstanceId): Option<AcceptData> {
    if net == [] then None else
      var e := net[|net| - 1];
      if By(e, p, instance) && e.body.AcceptMsg? then Some(e.body.accept)
      else LastAccept(net[..|net| - 1], p, instance)
  }

  /** The try of the last Prepare a server published in an instance. */
  ghost function LastPrepare(net: seq<Envelope>, p: ServerId, instance: InstanceId): Option<int> {
    if net == [] then None else
      var e := net[|net| - 1];
      if By(e, p, instance) && e.body.PrepareMsg? then Some(e.body.tried)
      else LastPrepare(net[..|net| - 1], p, instance)
  }

  /** The server prepared this try in the instance. */
  ghost predicate Prepared(net: seq<Envelope>, p: ServerId, instance: InstanceId, tried: int) {
    exists m :: 0 <= m < |net| && By(net[m], p, instance) && net[m].body == PrepareMsg(tried)
  }

  /** What a server that last accepted this, or nothing, reports. */
  ghost predicate Remembers(acceptedTry: int, acceptedValue: bool, last: Option<AcceptData>) {
    if last.None? then acceptedTry == -1 && !acceptedValue
    else acceptedTry == last.value.acceptedTry && acceptedValue == last.value.acceptedValue
  }

  /** Tries start at 1, and -1 stands for none. */
  predicate Positive(acceptedTry: int) { acceptedTry == -1 || 1 <= acceptedTry }

  /** Memory and network agree on what the server accepted and prepared last. */
  ghost predicate MemoryOk(net: seq<Envelope>, p: ServerId, instance: InstanceId, i: Instance) {
    && Remembers(i.acceptedTry, i.acceptedValue, LastAccept(net, p, instance))
    && Positive(i.acceptedTry)
    && i.proposedTry == (if LastPrepare(net, p, instance).Some? then LastPrepare(net, p, instance).value else 0)
    && (i.lastSent == Prepare || i.lastSent == Propose ==> LastPrepare(net, p, instance).Some?)
    && forall g :: g in i.accepts ==> Prepared(net, p, instance, i.accepts[g].acceptedTry)
  }

  ghost predicate Reports(net: seq<Envelope>, g: Signature, tried: int, value: bool) {
    && g < |net| && net[g].body.PromiseMsg?
    && net[g].body.promise.acceptedTry == tried && net[g].body.promise.acceptedValue == value
  }

  /** A highest accept among the Promises signed, or none. */
  ghost predicate HighestSigned(net: seq<Envelope>, signatures: seq<Signature>, highest: int, value: bool) {
    && -1 <= highest
    && (forall g :: g in signatures ==>
          g < |net| && net[g].body.PromiseMsg? && net[g].body.promise.acceptedTry <= highest)
    && (highest == -1 ==> value)
    && (highest > -1 ==> exists g :: g in signatures && Reports(net, g, highest, value))
  }

  /** The Accepts signed are for the value decided, and for tries the sender prepared. */
  ghost predicate AcceptsPrepared(net: seq<Envelope>, p: ServerId, instance: InstanceId, decision: bool,
                                  signatures: seq<Signature>) {
    forall g :: g in signatures ==>
      g < |net| && net[g].body.AcceptMsg? && net[g].body.accept.acceptedValue == decision &&
      Prepared(net, p, instance, net[g].body.accept.acceptedTry)
  }

  ghost predicate ProposesHighest(net: seq<Envelope>, p: ServerId, instance: InstanceId, body: Body, highest: int)
    requires body.ProposeMsg?
  {
    && HighestSigned(net, body.signatures, highest, body.proposedValue)
    && if highest > -1 then body.proposedTry == highest
       else LastPrepare(net, p, instance) == Some(body.proposedTry)
  }

  /** What a body published after `net` says is what the network before it shows. */
  ghost predicate Says(net: seq<Envelope>, p: ServerId, instance: InstanceId, body: Body) {
    match body
    case PromiseMsg(data) =>
      Positive(data.acceptedTry) && Remembers(data.acceptedTry, data.acceptedValue, LastAccept(net, p, instance))
    case ProposeMsg(tried, _, _) => 1 <= tried && exists highest :: ProposesHighest(net, p, instance, body, highest)
    case AcceptMsg(data) => 1 <= data.acceptedTry
    case LearnMsg(decision, signatures) => AcceptsPrepared(net, p, instance, decision, signatures)
    case _ => true
  }

  ghost predicate SaysAt(net: seq<Envelope>, n: int)
    requires 0 <= n < |net|
  {
    Says(net[..n], net[n].sender, net[n].instance, net[n].body)
  }

  ghost predicate AllSay(net: seq<Envelope>) {
    forall n :: 0 <= n < |net| ==> SaysAt(net, n)
  }

  ghost predicate Reported(s: System) {
    && AllSay(s.net)
    && (forall at {:trigger Has(s, at)} :: Has(s, at) ==> MemoryOk(s.net, at.p, at.instance, Local(s, at)))
  }

  // ------------------------------------------------------------ one more message

  lemma LastOfMore(net: seq<Envelope>, e: Envelope, p: ServerId, instance: InstanceId)
    ensures LastAccept(net + [e], p, instance) ==
            if By(e, p, instance) && e.body.AcceptMsg? then Some(e.body.accept) else LastAccept(net, p, instance)
    ensures LastPrepare(net + [e], p, instance) ==
            if By(e, p, instance) && e.body.PrepareMsg? then Some(e.body.tried) else LastPrepare(net, p, instance)
  {
    assert (net + [e])[..|net|] == net;
  }

  lemma PreparedStays(net: seq<Envelope>, e: Envelope, p: ServerId, instance: InstanceId, tried: int)
    requires Prepared(net, p, instance, tried)
    ensures Prepared(net + [e], p, instance, tried)
  {
    var m :| 0 <= m < |net| && By(net[m], p, instance) && net[m].body == PrepareMsg(tried);
    assert (net + [e])[m] == net[m];
  }

  lemma {:induction false} LastIsPrepared(net: seq<Envelope>, p: ServerId, instance: InstanceId)
    requires LastPrepare(net, p, instance).Some?
    ensures Prepared(net, p, instance, LastPrepare(net, p, instance).value)
  {
    var init, e := net[..|net| - 1], net[|net| - 1];
    if By(e, p, instance) && e.body.PrepareMsg? {
      assert net[|net| - 1].body == PrepareMsg(e.body.tried);
    } else {
      LastIsPrepared(init, p, instance);
      assert net == init + [e];
      PreparedStays(init, e, p, instance, LastPrepare(init, p, instance).value);
    }
  }

  // ----------------------------------------------------------------- local steps

  /** What a handler owes: its memory agrees with the network it leaves, and what it publishes with the
      network it finds. */
  ghost predicate Owes(net: seq<Envelope>, at: At, i': Instance, out: Option<Body>) {
    && MemoryOk(Sends(net, at, out), at.p, at.instance, i')
    && (out.Some? ==> Says(net, at.p, at.instance, out.value))
  }

  lemma Quiet(net: seq<Envelope>, at: At, i: Instance, i': Instance)
    requires MemoryOk(net, at.p, at.instance, i)
    requires i'.acceptedTry == i.acceptedTry && i'.acceptedValue == i.acceptedValue
    requires i'.proposedTry == i.proposedTry && i'.accepts == i.accepts
    requires i'.lastSent == Prepare || i'.lastSent == Propose ==> i.lastSent == Prepare || i.lastSent == Propose
    ensures Owes(net, at, i', None)
  {
  }

  lemma Loud(net: seq<Envelope>, at: At, i: Instance, i': Instance, body: Body)
    requires MemoryOk(net, at.p, at.instance, i) && Says(net, at.p, at.instance, body)
    requires Remembers(i'.acceptedTry, i'.acceptedValue,
                       if body.AcceptMsg? then Some(body.accept) else LastAccept(net, at.p, at.instance))
    requires i'.proposedTry == if body.PrepareMsg? then body.tried else i.proposedTry
    requires i'.accepts == i.accepts || forall g :: g in i'.accepts ==>
               Prepared(net, at.p, at.instance, i'.accepts[g].acceptedTry)
    requires i'.lastSent == Prepare || i'.lastSent == Propose ==>
               body.PrepareMsg? || LastPrepare(net, at.p, at.instance).Some?
    requires Positive(i'.acceptedTry)
    ensures Owes(net, at, i', Some(body))
  {
    var e := Envelope(at.p, at.instance, at.elect, body);
    LastOfMore(net, e, at.p, at.instance);
    forall g | g in i'.accepts ensures Prepared(net + [e], at.p, at.instance, i'.accepts[g].acceptedTry) {
      PreparedStays(net, e, at.p, at.instance, i'.accepts[g].acceptedTry);
    }
  }

  /** All a vote changes but the votes: nothing, or a Prepare is published for a higher try. */
  ghost predicate VoteChanges(i: Instance, o: Outcome) {
    && o.i.acceptedTry == i.acceptedTry && o.i.acceptedValue == i.acceptedValue && o.i.accepts == i.accepts
    && if o.out.Some? && o.out.value != FailureMsg
       then o.out.value == PrepareMsg(o.i.proposedTry) && o.i.proposedTry > i.proposedTry && o.i.lastSent == Prepare
       else o.i.proposedTry == i.proposedTry && o.i.lastSent == i.lastSent
  }

  lemma AfterVoteChanges(i: Instance, elect: MessageId, listening: bool)
    requires elect in i.elects
    ensures VoteChanges(i, AfterVote(i, elect, listening))
  {
  }

  lemma VoteChangesOnly(i: Instance, known: bool, elect: MessageId, voter: Voter, accept: bool, listening: bool)
    ensures VoteChanges(i, ElectAcceptStep(i, known, elect, voter, accept, listening))
  {
    if elect in i.elects {
      AfterVoteChanges(i.(elects := i.elects[elect := Voted(i.elects[elect], voter, accept)]), elect, listening);
    }
  }

  lemma VoteReports(net: seq<Envelope>, at: At, i: Instance, voter: Voter, accept: bool, known: bool, listening: bool)
    requires MemoryOk(net, at.p, at.instance, i)
    ensures var o := ElectAcceptStep(i, known, at.elect, voter, accept, listening);
            Owes(net, at, o.i, o.out)
  {
    var o := ElectAcceptStep(i, known, at.elect, voter, accept, listening);
    VoteChangesOnly(i, known, at.elect, voter, accept, listening);
    if o.out.None? { Quiet(net, at, i, o.i); } else { Loud(net, at, i, o.i, o.out.value); }
  }

  lemma PrepareReports(net: seq<Envelope>, at: At, i: Instance, tried: int, known: bool, listening: bool)
    requires MemoryOk(net, at.p, at.instance, i)
    ensures var o := PrepareStep(i, known, at.elect, tried, listening);
            Owes(net, at, o.i, o.out)
  {
    var o := PrepareStep(i, known, at.elect, tried, listening);
    if o.out.None? { Quiet(net, at, i, o.i); } else { Loud(net, at, i, o.i, o.out.value); }
  }

  lemma HighestIsSigned(net: seq<Envelope>, at: At, i: Instance, highest: int, value: bool, signatures: seq<Signature>)
    requires RecordsOk(net, at.instance, i) && Highest(i.promises, highest, value)
    requires Enumerates(signatures, i.promises.Keys)
    ensures HighestSigned(net, signatures, highest, value)
  {
    forall g | g in signatures
      ensures g < |net| && net[g].body == PromiseMsg(i.promises[g])
    {
      assert SentAs(net, g, at.instance, PromiseMsg(i.promises[g]));
    }
  }

  lemma PromiseReports(net: seq<Envelope>, at: At, i: Instance, g: Signature, data: PromiseData, known: bool,
                       listening: bool, o: Outcome)
    requires MemoryOk(net, at.p, at.instance, i) && RecordsOk(net, at.instance, i) && NetOk(net) && AllSay(net)
    requires SentAs(net, g, at.instance, PromiseMsg(data))
    requires PromiseStep(i, known, at.elect, g, data, listening, o)
    ensures Owes(net, at, o.i, o.out)
  {
    var i1 := i.(promises := i.promises[g := data]);
    if o.out.None? {
      Quiet(net, at, i, o.i);
    } else {
      assert ProposesFrom(i1, o) && i.lastSent == Prepare;
      RecordsMore(net, at.instance, i, g, data);
      ProposalSays(net, at, i1, o);
      Loud(net, at, i, o.i, o.out.value);
    }
  }

  lemma RecordsMore(net: seq<Envelope>, instance: InstanceId, i: Instance, g: Signature, data: PromiseData)
    requires RecordsOk(net, instance, i) && SentAs(net, g, instance, PromiseMsg(data))
    ensures RecordsOk(net, instance, i.(promises := i.promises[g := data]))
  {
  }

  lemma ProposalSays(net: seq<Envelope>, at: At, i: Instance, o: Outcome)
    requires RecordsOk(net, at.instance, i) && NetOk(net) && AllSay(net) && ProposesFrom(i, o)
    requires LastPrepare(net, at.p, at.instance) == Some(i.proposedTry)
    ensures Says(net, at.p, at.instance, o.out.value)
  {
    var body := o.out.value;
    var highest :| Highest(i.promises, highest, body.proposedValue)
                   && body.proposedTry == if highest == -1 then i.proposedTry else highest;
    HighestIsSigned(net, at, i, highest, body.proposedValue, body.signatures);
    assert ProposesHighest(net, at.p, at.instance, body, highest);
    TriedIsPositive(net, at.p, at.instance, body, highest);
  }

  lemma ProposeReports(net: seq<Envelope>, at: At, i: Instance, tried: int, value: bool, known: bool, subscribed: bool,
                       listening: bool)
    requires MemoryOk(net, at.p, at.instance, i) && 1 <= tried
    ensures var o := ProposeStep(i, known, at.elect, tried, value, subscribed, listening);
            Owes(net, at, o.i, o.out)
  {
    var o := ProposeStep(i, known, at.elect, tried, value, subscribed, listening);
    if o.out.None? { Quiet(net, at, i, o.i); } else { Loud(net, at, i, o.i, o.out.value); }
  }

  lemma TriedIsPositive(net: seq<Envelope>, p: ServerId, instance: InstanceId, body: Body, highest: int)
    requires AllSay(net) && NetOk(net) && body.ProposeMsg? && ProposesHighest(net, p, instance, body, highest)
    ensures 1 <= body.proposedTry
  {
    if highest > -1 {
      var g :| g in body.signatures && Reports(net, g, highest, body.proposedValue);
      assert SaysAt(net, g);
    } else {
      LastIsPrepared(net, p, instance);
      var m :| 0 <= m < |net| && By(net[m], p, instance) && net[m].body == PrepareMsg(body.proposedTry);
      assert BodyOk(net, m, net[m].instance, net[m].body);
    }
  }

  /** The accepts counted with one more, which is counted only for the try prepared last. */
  lemma CountedIsPrepared(net: seq<Envelope>, at: At, i: Instance, g: Signature, data: AcceptData)
    requires MemoryOk(net, at.p, at.instance, i) && 1 <= data.acceptedTry
    ensures var accepts := AcceptsWith(i, g, data);
            forall h :: h in accepts ==> Prepared(net, at.p, at.instance, accepts[h].acceptedTry)
  {
    if data == AcceptData(i.proposedTry, i.proposedValue) {
      LastIsPrepared(net, at.p, at.instance);
    }
  }

  lemma AcceptsArePrepared(net: seq<Envelope>, at: At, i: Instance, signatures: seq<Signature>)
    requires NetOk(net) && RecordsOk(net, at.instance, i) && Enumerates(signatures, i.accepts.Keys)
    requires forall h :: h in i.accepts ==> Prepared(net, at.p, at.instance, i.accepts[h].acceptedTry)
    ensures AcceptsPrepared(net, at.p, at.instance, true, signatures)
  {
    forall g | g in signatures
      ensures g < |net| && net[g].body == AcceptMsg(i.accepts[g]) && i.accepts[g].acceptedValue
    {
      assert SentAs(net, g, at.instance, AcceptMsg(i.accepts[g]));
      assert BodyOk(net, g, net[g].instance, net[g].body);
    }
  }

  lemma AcceptReports(net: seq<Envelope>, at: At, i: Instance, g: Signature, data: AcceptData, known: bool,
                      listening: bool, o: Outcome)
    requires MemoryOk(net, at.p, at.instance, i) && RecordsOk(net, at.instance, i) && NetOk(net) && ValuesOk(i)
    requires SentAs(net, g, at.instance, AcceptMsg(data)) && 1 <= data.acceptedTry
    requires AcceptStep(i, known, at.elect, g, data, listening, o)
    ensures Owes(net, at, o.i, o.out)
  {
    var i1 := i.(accepts := AcceptsWith(i, g, data));
    CountedIsPrepared(net, at, i, g, data);
    AcceptOutcome(i, at.elect, g, data, known, listening, o);
    if o.out.Some? {
      AcceptedRecords(net, at.instance, i, g, data);
      AcceptsArePrepared(net, at, i1, o.out.value.signatures);
      Loud(net, at, i, o.i, o.out.value);
    }
  }

  lemma AcceptedRecords(net: seq<Envelope>, instance: InstanceId, i: Instance, g: Signature, data: AcceptData)
    requires RecordsOk(net, instance, i) && SentAs(net, g, instance, AcceptMsg(data))
    ensures RecordsOk(net, instance, i.(accepts := i.accepts[g := data]))
  {
  }

  /** The accepts with one more, if it is for the try and value proposed. */
  function AcceptsWith(i: Instance, g: Signature, data: AcceptData): map<Signature, AcceptData> {
    if data == AcceptData(i.proposedTry, i.proposedValue) then i.accepts[g := data] else i.accepts
  }

  /** What an Accept changes: the accepts counted and perhaps the decision. */
  lemma AcceptOutcome(i: Instance, elect: MessageId, g: Signature, data: AcceptData, known: bool, listening: bool,
                      o: Outcome)
    requires AcceptStep(i, known, elect, g, data, listening, o)
    ensures o.i.acceptedTry == i.acceptedTry && o.i.acceptedValue == i.acceptedValue && o.i.proposedTry == i.proposedTry
    ensures o.i.accepts == i.accepts || o.i.accepts == AcceptsWith(i, g, data)
    ensures o.out.None? ==> o.i.lastSent == i.lastSent
    ensures o.out.Some? ==>
              && o.i.lastSent == Learn && i.lastSent == Propose && o.i.accepts == AcceptsWith(i, g, data)
              && o.out.value.LearnMsg? && o.out.value.decision == i.proposedValue
              && Enumerates(o.out.value.signatures, AcceptsWith(i, g, data).Keys)
  {
  }

  lemma HandlesReports(net: seq<Envelope>, at: At, i: Instance, g: Signature, known: bool, subscribed: bool,
                       listening: bool, o: Outcome)
    requires NetOk(net) && ValuesOk(i) && RecordsOk(net, at.instance, i) && AllSay(net)
    requires MemoryOk(net, at.p, at.instance, i) && g < |net| && net[g].instance == at.instance
    requires Handles(i, g, at.elect, net[g].body, known, subscribed, listening, o)
    ensures Owes(net, at, o.i, o.out)
  {
    assert SaysAt(net, g);
    match net[g].body
    case PrepareMsg(tried) => PrepareReports(net, at, i, tried, known, listening);
    case PromiseMsg(data) => PromiseReports(net, at, i, g, data, known, listening, o);
    case ProposeMsg(tried, value, _) => ProposeReports(net, at, i, tried, value, known, subscribed, listening);
    case AcceptMsg(data) => AcceptReports(net, at, i, g, data, known, listening, o);
    case LearnMsg(decision, _) => LearnReports(net, at, i, decision, known, listening);
    case FailureMsg => FailureReports(net, at, i, known, listening);
  }

  lemma LearnReports(net: seq<Envelope>, at: At, i: Instance, decision: bool, known: bool, listening: bool)
    requires MemoryOk(net, at.p, at.instance, i)
    ensures var o := LearnStep(i, known, at.elect, decision, listening);
            Owes(net, at, o.i, o.out)
  {
    Quiet(net, at, i, LearnStep(i, known, at.elect, decision, listening).i);
  }

  lemma FailureReports(net: seq<Envelope>, at: At, i: Instance, known: bool, listening: bool)
    requires MemoryOk(net, at.p, at.instance, i)
    ensures var o := FailureStep(i, known, at.elect, listening);
            Owes(net, at, o.i, o.out)
  {
    Quiet(net, at, i, FailureStep(i, known, at.elect, listening).i);
  }

  // ---------------------------------------------------------------- preservation

  lemma AllSayMore(net: seq<Envelope>, e: Envelope)
    requires AllSay(net) && Says(net, e.sender, e.instance, e.body)
    ensures AllSay(net + [e])
  {
    var net' := net + [e];
    forall n | 0 <= n < |net'| ensures SaysAt(net', n) {
      if n < |net| {
        assert SaysAt(net, n) && net'[..n] == net[..n];
      } else {
        assert net'[..n] == net;
      }
    }
  }

  lemma OthersRemember(net: seq<Envelope>, e: Envelope, p: ServerId, instance: InstanceId, i: Instance)
    requires MemoryOk(net, p, instance, i) && !By(e, p, instance)
    ensures MemoryOk(net + [e], p, instance, i)
  {
    LastOfMore(net, e, p, instance);
    forall g | g in i.accepts ensures Prepared(net + [e], p, instance, i.accepts[g].acceptedTry) {
      PreparedStays(net, e, p, instance, i.accepts[g].acceptedTry);
    }
  }

  lemma AfterReports(s: System, at: At, i': Instance, out: Option<Body>)
    requires Reported(s) && at.p in s.servers && Owes(s.net, at, i', out)
    ensures Reported(After(s, at, i', out))
  {
    var s' := After(s, at, i', out);
    var e := Envelope(at.p, at.instance, at.elect, if out.Some? then out.value else FailureMsg);
    if out.Some? { AllSayMore(s.net, e); }
    forall b | Has(s', b) ensures MemoryOk(s'.net, b.p, b.instance, Local(s', b)) {
      if b.p != at.p || b.instance != at.instance {
        assert Has(s, b) && Local(s', b) == Local(s, b);
        if out.Some? { OthersRemember(s.net, e, b.p, b.instance, Local(s, b)); }
      }
    }
  }

  /** A server without the instance has published nothing in it. */
  lemma {:induction false} NothingYet(net: seq<Envelope>, p: ServerId, instance: InstanceId)
    requires forall n :: 0 <= n < |net| ==> !By(net[n], p, instance)
    ensures LastAccept(net, p, instance).None? && LastPrepare(net, p, instance).None?
  {
    if net != [] { NothingYet(net[..|net| - 1], p, instance); }
  }

  lemma OpenedRemembers(s: System, at: At)
    requires Reported(s) && Silent(s) && at.p in s.servers
    ensures MemoryOk(s.net, at.p, at.instance, Opened(s, at))
  {
    if at.instance in s.servers[at.p] {
      assert Has(s, at);
    } else {
      forall n | 0 <= n < |s.net| ensures !By(s.net[n], at.p, at.instance) {
        assert Has(s, At(s.net[n].sender, s.net[n].instance, s.net[n].elect));
      }
      NothingYet(s.net, at.p, at.instance);
    }
  }

  lemma TimeoutReports(net: seq<Envelope>, at: At, i: Instance)
    requires MemoryOk(net, at.p, at.instance, i)
    ensures Owes(net, at, TimeoutStep(i, at.elect).i, TimeoutStep(i, at.elect).out)
  {
    var o := TimeoutStep(i, at.elect);
    if o.out.Some? { Loud(net, at, i, o.i, FailureMsg); }
  }

  lemma StepReports(s: System, step: Step, s': System)
    requires Inv(s) && Silent(s) && Reported(s) && Taken(s, step, s')
    ensures Reported(s')
  {
    var i := Opened(s, step.at);
    OpenedRemembers(s, step.at);
    OpenedOk(s, step.at);
    match step
    case ReceiveElect(at, fromOrganizer, servers) =>
      Quiet(s.net, at, i, ElectStep(i, at.elect, fromOrganizer, servers));
      AfterReports(s, at, ElectStep(i, at.elect, fromOrganizer, servers), None);
    case ReceiveElectAccept(at, voter, accept, known, listening) =>
      VoteReports(s.net, at, i, voter, accept, known, listening);
      AfterReports(s, at, ElectAcceptStep(i, known, at.elect, voter, accept, listening).i,
                          ElectAcceptStep(i, known, at.elect, voter, accept, listening).out);
    case Receive(at, g, known, subscribed, listening, o) =>
      HandlesReports(s.net, at, i, g, known, subscribed, listening, o);
      AfterReports(s, at, o.i, o.out);
    case Timeout(at) =>
      TimeoutReports(s.net, at, i);
      AfterReports(s, at, TimeoutStep(i, at.elect).i, TimeoutStep(i, at.elect).out);
    case Demote(at) =>
      Quiet(s.net, at, i, DemoteStep(i));
      AfterReports(s, at, DemoteStep(i), None);
  }

  lemma {:induction false} ReachableReported(run: seq<System>, steps: seq<Step>, k: nat)
    requires IsRun(run, steps) && k < |run|
    ensures Reported(run[k])
  {
    if k > 0 {
      ReachableReported(run, steps, k - 1);
      ReachableInv(run, steps, k - 1);
      assert StepAt(run, steps, k - 1);
      StepReports(run[k - 1], steps[k - 1], run[k]);
    }
  }

  // ------------------------------------------------------------------- theorems

  /** A Promise reports the try and value of the last Accept its sender published in the instance before,
      and -1 and false if there is none. */
  lemma PromiseReportsLastAccept(run: seq<System>, steps: seq<Step>, k: nat, n: nat)
    requires IsRun(run, steps) && k < |run| && n < |run[k].net| && run[k].net[n].body.PromiseMsg?
    ensures var e := run[k].net[n];
            Remembers(e.body.promise.acceptedTry, e.body.promise.acceptedValue,
                      LastAccept(run[k].net[..n], e.sender, e.instance))
  {
    ReachableReported(run, steps, k);
    assert SaysAt(run[k].net, n);
  }

  /** A Propose repeats a highest accept that the Promises it signs report; if they report none it is for
      the try its sender prepared last, with the value true. */
  lemma ProposeFollowsPromises(run: seq<System>, steps: seq<Step>, k: nat, n: nat) returns (highest: int)
    requires IsRun(run, steps) && k < |run| && n < |run[k].net| && run[k].net[n].body.ProposeMsg?
    ensures var e := run[k].net[n];
            ProposesHighest(run[k].net[..n], e.sender, e.instance, e.body, highest)
  {
    ReachableReported(run, steps, k);
    assert SaysAt(run[k].net, n);
    var e := run[k].net[n];
    highest :| ProposesHighest(run[k].net[..n], e.sender, e.instance, e.body, highest);
  }

  /** A Learn is signed by Accepts of the value decided, each for a try its sender had prepared. */
  lemma LearnCountsPrepared(run: seq<System>, steps: seq<Step>, k: nat, n: nat)
    requires IsRun(run, steps) && k < |run| && n < |run[k].net| && run[k].net[n].body.LearnMsg?
    ensures var e := run[k].net[n];
            AcceptsPrepared(run[k].net[..n], e.sender, e.instance, e.body.decision, e.body.signatures)
  {
    ReachableReported(run, steps, k);
    assert SaysAt(run[k].net, n);
  }
}
