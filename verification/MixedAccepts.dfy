/** A Learn may count accepts of two different tries. This is
    when it does, exactly, and a run in which it does: two
    servers exchange ten messages, and both decide. */
module MixedAccepts {
  import opened Basics
  import opened Consensus
  import opened ConsensusProtocol
  import R = ConsensusReports

  ghost predicate Reached(s: System) {
    exists run, steps :: IsRun(run, steps) && run[|steps|] == s
  }

  lemma OneMore(s: System, step: Step, s': System)
    requires Reached(s) && Taken(s, step, s')
    ensures Reached(s')
  {
    var run, steps :| IsRun(run, steps) && run[|steps|] == s;
    var longer, more := run + [s'], steps + [step];
    forall k | 0 <= k < |more| ensures StepAt(longer, more, k) {
      if k < |steps| { assert StepAt(run, steps, k); }
    }
    assert longer[|more|] == s';
  }

  /** Two servers of three, at work on one instance. */
  function Two(p: Instance, q: Instance, net: seq<Envelope>): System {
    System(map["p" := map["c" := p], "q" := map["c" := q]], net)
  }

  const AtP := At("p", "c", "e")
  const AtQ := At("q", "c", "e")

  lemma Apart()
    ensures "p" != "q" && "a" != "b" && "c" != "a" && "c" != "b"
  {
    assert "p"[0] != "q"[0] && "a"[0] != "b"[0] && "c"[0] != "a"[0] && "c"[0] != "b"[0];
  }

  lemma OnlyP(p: Instance, q: Instance, p': Instance)
    ensures map["p" := map["c" := p], "q" := map["c" := q]]["p" := map["c" := p]["c" := p']] ==
            map["p" := map["c" := p'], "q" := map["c" := q]]
  {
    Apart();
    assert map["c" := p]["c" := p'] == map["c" := p'];
  }

  lemma OnlyQ(p: Instance, q: Instance, q': Instance)
    ensures map["p" := map["c" := p], "q" := map["c" := q]]["q" := map["c" := q]["c" := q']] ==
            map["p" := map["c" := p], "q" := map["c" := q']]
  {
    Apart();
    assert map["c" := q]["c" := q'] == map["c" := q'];
  }

  lemma AfterP(p: Instance, q: Instance, net: seq<Envelope>, p': Instance, out: Option<Body>)
    ensures var s := Two(p, q, net);
            Has(s, AtP) && Local(s, AtP) == p && After(s, AtP, p', out) == Two(p', q, Sends(net, AtP, out))
  {
    Apart();
    OnlyP(p, q, p');
  }

  lemma AfterQ(p: Instance, q: Instance, net: seq<Envelope>, q': Instance, out: Option<Body>)
    ensures var s := Two(p, q, net);
            Has(s, AtQ) && Local(s, AtQ) == q && After(s, AtQ, q', out) == Two(p, q', Sends(net, AtQ, out))
  {
    Apart();
    OnlyQ(p, q, q');
  }

  /** A handler run on a message of the network, everything known and listening. */
  lemma HandleP(p: Instance, q: Instance, net: seq<Envelope>, g: Signature, o: Outcome)
    requires Reached(Two(p, q, net)) && g < |net| && net[g].instance == "c" && net[g].elect == "e"
    requires Handles(p, g, "e", net[g].body, true, true, true, o)
    ensures Reached(Two(o.i, q, Sends(net, AtP, o.out)))
  {
    AfterP(p, q, net, o.i, o.out);
    OneMore(Two(p, q, net), Receive(AtP, g, true, true, true, o), Two(o.i, q, Sends(net, AtP, o.out)));
  }

  lemma HandleQ(p: Instance, q: Instance, net: seq<Envelope>, g: Signature, o: Outcome)
    requires Reached(Two(p, q, net)) && g < |net| && net[g].instance == "c" && net[g].elect == "e"
    requires Handles(q, g, "e", net[g].body, true, true, true, o)
    ensures Reached(Two(p, o.i, Sends(net, AtQ, o.out)))
  {
    AfterQ(p, q, net, o.i, o.out);
    OneMore(Two(p, q, net), Receive(AtQ, g, true, true, true, o), Two(p, o.i, Sends(net, AtQ, o.out)));
  }

  lemma VoteP(p: Instance, q: Instance, net: seq<Envelope>, voter: Voter, o: Outcome)
    requires Reached(Two(p, q, net)) && o == ElectAcceptStep(p, true, "e", voter, true, true)
    ensures Reached(Two(o.i, q, Sends(net, AtP, o.out)))
  {
    AfterP(p, q, net, o.i, o.out);
    OneMore(Two(p, q, net), ReceiveElectAccept(AtP, voter, true, true, true), Two(o.i, q, Sends(net, AtP, o.out)));
  }

  /** Asked to run the instance with three servers, p by the organizer. */
  function Asked(fromOrganizer: bool): Instance {
    ElectStep(NewInstance(), "e", fromOrganizer, 3)
  }

  lemma Beginning()
    ensures Reached(Two(Asked(true), Asked(false), []))
  {
    assert "p" != "q" by { assert "p"[0] != "q"[0]; }
    var none: map<InstanceId, Instance> := map[];
    var s0 := System(map["p" := none, "q" := none], []);
    var nothing: seq<Step> := [];
    assert IsRun([s0], nothing) && [s0][|nothing|] == s0;
    var s1 := After(s0, AtP, Asked(true), None);
    OneMore(s0, ReceiveElect(AtP, true, 3), s1);
    var s2 := After(s1, AtQ, Asked(false), None);
    OneMore(s1, ReceiveElect(AtQ, false, 3), s2);
    assert s2 == Two(Asked(true), Asked(false), []);
  }

  function Say(p: ServerId, body: Body): Envelope { Envelope(p, "c", "e", body) }

  function Voters(positive: map<Voter, int>): map<MessageId, Elect> {
    map["e" := Elect(3, false, positive, map[])]
  }

  const Two12 := map["a" := 0, "b" := 0]
  const All := map["a" := 0, "b" := 0, "c" := 0]
  const None1 := PromiseData(-1, false, 1)
  const None2 := PromiseData(-1, false, 2)

  const Once := Asked(true).(elects := Voters(map["a" := 0]))

  /** p when it has prepared the try 1. */
  const P1 := Asked(true).(elects := Voters(Two12), proposedTry := 1, proposedValue := true, lastSent := Prepare)

  /** p when it has promised and collected two promises and proposed the try 1. */
  const Promised := P1.(promisedTry := 1)
  const Half := Promised.(promises := map[1 := None1])
  const P2 := P1.(promisedTry := 1, promises := map[1 := None1, 2 := None1], lastSent := Propose)

  const Q2 := Asked(false).(promisedTry := 1, lastSent := Promise)

  const Net1 := [Say("p", PrepareMsg(1))]
  const NetP := Net1 + [Say("p", PromiseMsg(None1)), Say("q", PromiseMsg(None1))]
  const Net2 := NetP + [Say("p", ProposeMsg(1, true, [1, 2]))]

  /** p when it has accepted the try 1, counted its own accept, and then prepared the try 2. */
  const Accepted := P2.(acceptedTry := 1, acceptedValue := true)
  const OneAccept := Accepted.(accepts := map[4 := AcceptData(1, true)])
  const P3 := P2.(acceptedTry := 1, acceptedValue := true, accepts := map[4 := AcceptData(1, true)],
                  elects := Voters(All), proposedTry := 2, lastSent := Prepare)

  const Net3 := Net2 + [Say("p", AcceptMsg(AcceptData(1, true))), Say("p", PrepareMsg(2))]

  /** p when it has proposed the try 2, on a third promise. */
  const P4 := P3.(promises := map[1 := None1, 2 := None1, 6 := None2], lastSent := Propose)

  /** q when it has promised and accepted the try 2. */
  const Q3 := Q2.(promisedTry := 2)
  const Q4 := Q2.(promisedTry := 2, acceptedTry := 2, acceptedValue := true, lastSent := Accept)

  const P5 := P4.(accepts := map[4 := AcceptData(1, true), 8 := AcceptData(2, true)], decided := true, decision := true,
                  lastSent := Learn)
  const Q5 := Q4.(decided := true, decision := true)

  const NetQ := Net3 + [Say("q", PromiseMsg(None2))]
  const NetR := NetQ + [Say("p", ProposeMsg(2, true, [1, 2, 6]))]
  const Net4 := NetR + [Say("q", AcceptMsg(AcceptData(2, true)))]
  const Net5 := Net4 + [Say("p", LearnMsg(true, [4, 8]))]

  // ------------------------------------------------------------- what p and q do

  lemma Votes()
    ensures ElectAcceptStep(Asked(true), true, "e", "a", true, true) == Outcome(Once, Done, None)
    ensures ElectAcceptStep(Once, true, "e", "b", true, true) == Outcome(P1, Done, Some(PrepareMsg(1)))
  {
    Apart();
    assert |map["a" := 0]| == 1;
    assert map["a" := 0]["b" := 0] == Two12 && |Two12| == 2;
  }

  lemma PromisesOfP()
    ensures PromiseStep(Promised, true, "e", 1, None1, true, Outcome(Half, Done, None))
    ensures PromiseStep(Half, true, "e", 2, None1, true, Outcome(P2, Done, Some(ProposeMsg(1, true, [1, 2]))))
  {
    assert Promised.promises[1 := None1] == Half.promises && |Half.promises| == 1;
    assert Half.promises[2 := None1] == P2.promises && |P2.promises| == 2;
    assert Enumerates([1, 2], P2.promises.Keys) && Highest(P2.promises, -1, true);
  }

  lemma AcceptOfP()
    ensures AcceptStep(Accepted, true, "e", 4, AcceptData(1, true), true, Outcome(OneAccept, Done, None))
  {
    assert Accepted.accepts[4 := AcceptData(1, true)] == OneAccept.accepts && |OneAccept.accepts| == 1;
  }

  lemma ThirdVote()
    ensures ElectAcceptStep(OneAccept, true, "e", "c", true, true) == Outcome(P3, Done, Some(PrepareMsg(2)))
  {
    Apart();
    assert Two12["c" := 0] == All && |All| == 3;
  }

  lemma ThirdPromise()
    ensures PromiseStep(P3, true, "e", 6, None2, true, Outcome(P4, Done, Some(ProposeMsg(2, true, [1, 2, 6]))))
  {
    assert P3.promises[6 := None2] == P4.promises && |P4.promises| == 3;
    assert Enumerates([1, 2, 6], P4.promises.Keys) && Highest(P4.promises, -1, true);
  }

  lemma SecondAccept()
    ensures AcceptStep(P4, true, "e", 8, AcceptData(2, true), true, Outcome(P5, Done, Some(LearnMsg(true, [4, 8]))))
  {
    assert P4.accepts[8 := AcceptData(2, true)] == P5.accepts && |P5.accepts| == 2;
    assert Enumerates([4, 8], P5.accepts.Keys);
  }

  // --------------------------------------------------------------------- the run

  /** After two votes p prepares. */
  lemma Prepares()
    ensures Reached(Two(P1, Asked(false), Net1))
  {
    Beginning();
    Votes();
    var none: seq<Envelope> := [];
    VoteP(Asked(true), Asked(false), none, "a", Outcome(Once, Done, None));
    VoteP(Once, Asked(false), none, "b", Outcome(P1, Done, Some(PrepareMsg(1))));
    assert Sends(none, AtP, Some(PrepareMsg(1))) == Net1;
  }

  /** Both promise. */
  lemma Promises()
    ensures Reached(Two(Promised, Q2, NetP))
  {
    Prepares();
    HandleP(P1, Asked(false), Net1, 0, Outcome(Promised, Done, Some(PromiseMsg(None1))));
    var net := Sends(Net1, AtP, Some(PromiseMsg(None1)));
    HandleQ(Promised, Asked(false), net, 0, Outcome(Q2, Done, Some(PromiseMsg(None1))));
    assert Sends(net, AtQ, Some(PromiseMsg(None1))) == NetP;
  }

  /** p proposes. */
  lemma Proposes()
    ensures Reached(Two(P2, Q2, Net2))
  {
    Promises();
    PromisesOfP();
    HandleP(Promised, Q2, NetP, 1, Outcome(Half, Done, None));
    HandleP(Half, Q2, NetP, 2, Outcome(P2, Done, Some(ProposeMsg(1, true, [1, 2]))));
    assert Sends(NetP, AtP, Some(ProposeMsg(1, true, [1, 2]))) == Net2;
  }

  /** p accepts, counts its accept, and prepares again on a third vote. */
  lemma PreparesAgain()
    ensures Reached(Two(P3, Q2, Net3))
  {
    Proposes();
    AcceptOfP();
    ThirdVote();
    var accept := AcceptMsg(AcceptData(1, true));
    HandleP(P2, Q2, Net2, 3, Outcome(Accepted, Done, Some(accept)));
    var net := Sends(Net2, AtP, Some(accept));
    HandleP(Accepted, Q2, net, 4, Outcome(OneAccept, Done, None));
    VoteP(OneAccept, Q2, net, "c", Outcome(P3, Done, Some(PrepareMsg(2))));
    assert Sends(net, AtP, Some(PrepareMsg(2))) == Net3;
  }

  /** q promises. */
  lemma PromisesAgain()
    ensures Reached(Two(P3, Q3, NetQ))
  {
    PreparesAgain();
    Places();
    HandleQ(P3, Q2, Net3, 5, Outcome(Q3, Done, Some(PromiseMsg(None2))));
    assert Sends(Net3, AtQ, Some(PromiseMsg(None2))) == NetQ;
  }

  /** p proposes the try 2. */
  lemma ProposesAgain()
    ensures Reached(Two(P4, Q3, NetR))
  {
    PromisesAgain();
    Places();
    ThirdPromise();
    HandleP(P3, Q3, NetQ, 6, Outcome(P4, Done, Some(ProposeMsg(2, true, [1, 2, 6]))));
    assert Sends(NetQ, AtP, Some(ProposeMsg(2, true, [1, 2, 6]))) == NetR;
  }

  /** q accepts it. */
  lemma AcceptsAgain()
    ensures Reached(Two(P4, Q4, Net4))
  {
    ProposesAgain();
    Places();
    HandleQ(P4, Q3, NetR, 7, Outcome(Q4, Done, Some(AcceptMsg(AcceptData(2, true)))));
    assert Sends(NetR, AtQ, Some(AcceptMsg(AcceptData(2, true)))) == Net4;
  }

  /** The accept of q makes a majority with the one of p for the other try, and p decides. */
  lemma Decides()
    ensures Reached(Two(P5, Q4, Net5))
  {
    AcceptsAgain();
    Places();
    SecondAccept();
    HandleP(P4, Q4, Net4, 8, Outcome(P5, Done, Some(LearnMsg(true, [4, 8]))));
    assert Sends(Net4, AtP, Some(LearnMsg(true, [4, 8]))) == Net5;
  }

  /** q learns: both have decided, on a Learn whose Accepts are for two tries. */
  lemma LearnCountsTwoTries() returns (s: System)
    ensures Reached(s) && Has(s, AtP) && Has(s, AtQ) && |s.net| == 10
    ensures Local(s, AtP).decided && Local(s, AtP).decision && Local(s, AtQ).decided && Local(s, AtQ).decision
    ensures s.net[9].body == LearnMsg(true, [4, 8])
    ensures s.net[4].body == AcceptMsg(AcceptData(1, true)) && s.net[8].body == AcceptMsg(AcceptData(2, true))
  {
    Decides();
    Places();
    HandleQ(P5, Q4, Net5, 9, Outcome(Q5, Done, None));
    s := Two(P5, Q5, Net5);
    AfterP(P5, Q5, Net5, P5, None);
    AfterQ(P5, Q5, Net5, Q5, None);
  }

  lemma Places()
    ensures |Net3| == 6 && Net3[5] == Say("p", PrepareMsg(2))
    ensures |NetQ| == 7 && NetQ[6] == Say("q", PromiseMsg(None2))
    ensures |NetR| == 8 && NetR[7] == Say("p", ProposeMsg(2, true, [1, 2, 6]))
    ensures |Net4| == 9 && Net4[8] == Say("q", AcceptMsg(AcceptData(2, true)))
    ensures |Net5| == 10 && Net5[9] == Say("p", LearnMsg(true, [4, 8]))
    ensures Net5[4] == Say("p", AcceptMsg(AcceptData(1, true))) && Net5[8] == Net4[8]
  {
  }

  // -------------------------------------------------------- exactly when it mixes

  /** The accepts counted are all for the try prepared last. */
  predicate OneTry(i: Instance) {
    forall g :: g in i.accepts ==> i.accepts[g].acceptedTry == i.proposedTry
  }

  predicate NoneAbove(i: Instance) {
    forall g :: g in i.accepts ==> i.accepts[g].acceptedTry <= i.proposedTry
  }

  /** Step k is a Prepare published at this server in this instance. */
  ghost predicate PreparesAt(run: seq<System>, steps: seq<Step>, k: nat, at: At)
    requires k < |steps| < |run|
  {
    && Has(run[k], at) && Has(run[k + 1], at)
    && Local(run[k + 1], at).proposedTry != Local(run[k], at).proposedTry
  }

  /** At the last Prepare before k an accept had already been counted. */
  ghost predicate PreparedLate(run: seq<System>, steps: seq<Step>, k: nat, at: At)
    requires k <= |steps| < |run|
  {
    if k == 0 then false
    else if PreparesAt(run, steps, k - 1, at) then Local(run[k - 1], at).accepts != map[]
    else PreparedLate(run, steps, k - 1, at)
  }

  /** What a step does to the accepts: a Prepare raises the try, anything else can only count an accept for
      the present one. */
  ghost predicate Counts(i: Instance, i': Instance) {
    || (i'.proposedTry > i.proposedTry && i'.accepts == i.accepts)
    || (i'.proposedTry == i.proposedTry && i'.accepts == i.accepts)
    || (i'.proposedTry == i.proposedTry && exists g: Signature, data: AcceptData :: OneMoreAccept(i, i', g, data))
  }

  ghost predicate OneMoreAccept(i: Instance, i': Instance, g: Signature, data: AcceptData) {
    i'.accepts == i.accepts[g := data] && data.acceptedTry == i.proposedTry && (g in i.accepts ==> i.accepts[g] == data)
  }

  lemma OthersCountNothing(i: Instance, g: Signature, elect: MessageId, body: Body, known: bool, subscribed: bool,
                           listening: bool, o: Outcome)
    requires Handles(i, g, elect, body, known, subscribed, listening, o) && !body.AcceptMsg?
    ensures o.i.accepts == i.accepts && o.i.proposedTry == i.proposedTry
    ensures o.out.Some? ==> !o.out.value.LearnMsg?
  {
    match body
    case PrepareMsg(tried) => assert o == PrepareStep(i, known, elect, tried, listening);
    case PromiseMsg(data) => assert PromiseStep(i, known, elect, g, data, listening, o);
    case ProposeMsg(tried, value, _) => assert o == ProposeStep(i, known, elect, tried, value, subscribed, listening);
    case LearnMsg(decision, _) => assert o == LearnStep(i, known, elect, decision, listening);
    case FailureMsg => assert o == FailureStep(i, known, elect, listening);
  }

  lemma AcceptCounts(i: Instance, g: Signature, elect: MessageId, data: AcceptData, known: bool, listening: bool,
                     o: Outcome)
    requires AcceptStep(i, known, elect, g, data, listening, o)
    ensures o.i.proposedTry == i.proposedTry
    ensures o.i.accepts == i.accepts || (o.i.accepts == i.accepts[g := data] && data.acceptedTry == i.proposedTry)
    ensures o.out.Some? ==> o.out.value.LearnMsg? && Enumerates(o.out.value.signatures, o.i.accepts.Keys)
  {
  }

  lemma HandlesCounts(net: seq<Envelope>, at: At, i: Instance, g: Signature, known: bool, subscribed: bool,
                      listening: bool, o: Outcome)
    requires RecordsOk(net, at.instance, i) && g < |net|
    requires Handles(i, g, at.elect, net[g].body, known, subscribed, listening, o)
    ensures Counts(i, o.i)
  {
    if net[g].body.AcceptMsg? {
      var data := net[g].body.accept;
      AcceptCounts(i, g, at.elect, data, known, listening, o);
      if g in i.accepts { assert SentAs(net, g, at.instance, AcceptMsg(i.accepts[g])); }
      assert o.i.accepts == i.accepts || OneMoreAccept(i, o.i, g, data);
    } else {
      OthersCountNothing(i, g, at.elect, net[g].body, known, subscribed, listening, o);
    }
  }

  lemma VoteCounts(i: Instance, known: bool, elect: MessageId, voter: Voter, accept: bool, listening: bool)
    ensures Counts(i, ElectAcceptStep(i, known, elect, voter, accept, listening).i)
  {
    R.VoteChangesOnly(i, known, elect, voter, accept, listening);
  }

  lemma StepCounts(s: System, step: Step, s': System, at: At)
    requires Inv(s) && Taken(s, step, s') && Has(s, at)
    ensures Has(s', at) && Counts(Local(s, at), Local(s', at))
  {
    if step.at.p == at.p && step.at.instance == at.instance {
      assert InstanceOk(s.net, at.p, at.instance, Local(s, at));
      match step
      case ReceiveElectAccept(b, voter, accept, known, listening) =>
        VoteCounts(Local(s, at), known, b.elect, voter, accept, listening);
      case Receive(b, g, known, subscribed, listening, o) =>
        HandlesCounts(s.net, b, Local(s, at), g, known, subscribed, listening, o);
      case _ =>
    }
  }

  lemma OneMoreKeeps(i: Instance, i': Instance, g: Signature, data: AcceptData)
    requires OneMoreAccept(i, i', g, data) && NoneAbove(i) && i'.proposedTry == i.proposedTry
    ensures NoneAbove(i') && (OneTry(i') <==> OneTry(i))
  {
    forall h | h in i.accepts ensures h in i'.accepts && i'.accepts[h] == i.accepts[h] {}
  }

  lemma CountsKeeps(i: Instance, i': Instance)
    requires Counts(i, i') && NoneAbove(i)
    ensures NoneAbove(i')
    ensures i'.proposedTry != i.proposedTry ==> (OneTry(i') <==> i.accepts == map[])
    ensures i'.proposedTry == i.proposedTry ==> (OneTry(i') <==> OneTry(i))
  {
    if i'.proposedTry != i.proposedTry {
      if i.accepts != map[] {
        var g :| g in i.accepts;
        assert i'.accepts[g].acceptedTry <= i.proposedTry;
      }
    } else if i'.accepts != i.accepts {
      var g: Signature, data: AcceptData :| OneMoreAccept(i, i', g, data);
      OneMoreKeeps(i, i', g, data);
    }
  }

  lemma FirstCounts(s: System, step: Step, s': System, at: At)
    requires Taken(s, step, s') && !Has(s, at) && Has(s', at)
    ensures Local(s', at).accepts == map[]
  {
  }

  /** In every run a server counts accepts of two tries exactly when it prepared its last try after it had
      counted one. */
  lemma {:induction false} MixedExactly(run: seq<System>, steps: seq<Step>, k: nat, at: At)
    requires IsRun(run, steps) && k < |run| && Has(run[k], at)
    ensures NoneAbove(Local(run[k], at))
    ensures OneTry(Local(run[k], at)) <==> !PreparedLate(run, steps, k, at)
    decreases k
  {
    if k > 0 {
      var s, s' := run[k - 1], run[k];
      assert StepAt(run, steps, k - 1);
      if Has(s, at) {
        MixedExactly(run, steps, k - 1, at);
        ReachableInv(run, steps, k - 1);
        StepCounts(s, steps[k - 1], s', at);
        CountsKeeps(Local(s, at), Local(s', at));
      } else {
        FirstCounts(s, steps[k - 1], s', at);
        NeverLate(run, steps, k - 1, at);
      }
    }
  }

  lemma {:induction false} NeverLate(run: seq<System>, steps: seq<Step>, k: nat, at: At)
    requires IsRun(run, steps) && k < |run| && !Has(run[k], at)
    ensures !PreparedLate(run, steps, k, at)
    decreases k
  {
    if k > 0 {
      assert StepAt(run, steps, k - 1);
      NeverLate(run, steps, k - 1, at);
    }
  }

  /** So the Accepts a Learn is signed by are all for the try its sender prepared last exactly when it
      did not prepare that try late. */
  lemma LearnMixesExactly(run: seq<System>, steps: seq<Step>, k: nat, g: Signature, o: Outcome)
    requires IsRun(run, steps) && k < |steps| && Has(run[k], steps[k].at)
    requires steps[k].Receive? && steps[k].signature == g && steps[k].o == o && o.out.Some? && o.out.value.LearnMsg?
    ensures (forall h :: h in o.out.value.signatures ==> AcceptFor(run[k].net, h, o.i.proposedTry)) <==>
            !PreparedLate(run, steps, k, steps[k].at)
  {
    var at, i := steps[k].at, Local(run[k], steps[k].at);
    assert StepAt(run, steps, k);
    ReachableInv(run, steps, k);
    MixedExactly(run, steps, k, at);
    assert InstanceOk(run[k].net, at.p, at.instance, i);
    StepCounts(run[k], steps[k], run[k + 1], at);
    CountsKeeps(i, o.i);
    LearnSigns(run[k].net, at, i, g, steps[k].known, steps[k].subscribed, steps[k].listening, o);
  }

  ghost predicate AcceptFor(net: seq<Envelope>, g: Signature, tried: int) {
    g < |net| && net[g].body.AcceptMsg? && net[g].body.accept.acceptedTry == tried
  }

  lemma LearnSigns(net: seq<Envelope>, at: At, i: Instance, g: Signature, known: bool, subscribed: bool,
                   listening: bool, o: Outcome)
    requires RecordsOk(net, at.instance, i) && g < |net| && net[g].instance == at.instance
    requires Handles(i, g, at.elect, net[g].body, known, subscribed, listening, o)
    requires o.out.Some? && o.out.value.LearnMsg?
    ensures o.i.proposedTry == i.proposedTry
    ensures (forall h :: h in o.out.value.signatures ==> AcceptFor(net, h, i.proposedTry)) <==> OneTry(o.i)
  {
    if !net[g].body.AcceptMsg? {
      OthersCountNothing(i, g, at.elect, net[g].body, known, subscribed, listening, o);
    } else {
      AcceptCounts(i, g, at.elect, net[g].body.accept, known, listening, o);
      forall h | h in o.i.accepts
        ensures h < |net| && net[h].body == AcceptMsg(o.i.accepts[h]) && h in o.out.value.signatures
      {
        if h in i.accepts { assert SentAs(net, h, at.instance, AcceptMsg(i.accepts[h])); }
      }
      forall h | h in o.out.value.signatures ensures h in o.i.accepts {}
    }
  }
}
