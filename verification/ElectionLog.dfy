/** The phase of an election read back from the log of the database,
    against the flags kept in memory. */
module ElectionLog {
  import opened Basics
  import opened CastVotes
  import opened ElectionTally
  import opened Election

  datatype Row = Row(channels: set<string>, kind: string, action: string)

  /** What one transaction stores. The election key goes with the setup and the result with the end,
      at the same stored time; `Other` is anything stored elsewhere. */
  datatype Kind = SetUp(withKey: bool) | Opened | Cast | Ended | Other(rows: seq<Row>)

  datatype Tx = Tx(time: int, kind: Kind)

  function Rows(kind: Kind, lao: string, path: string): seq<Row> {
    match kind
    case SetUp(withKey) =>
      [Row({lao, path}, "election", "setup")] + if withKey then [Row({path}, "election", "key")] else []
    case Opened => [Row({path}, "election", "open")]
    case Cast => [Row({path}, "election", "cast_vote")]
    case Ended => [Row({path}, "election", "end"), Row({path}, "election", "result")]
    case Other(rows) => rows
  }

  ghost predicate WellKept(log: seq<Tx>, path: string) {
    (forall i, j :: 0 <= i < j < |log| ==> log[i].time < log[j].time) &&
    (forall k :: 0 <= k < |log| ==> Elsewhere(log[k].kind, path))
  }

  ghost predicate Elsewhere(kind: Kind, path: string) {
    kind.Other? ==> forall r :: r in kind.rows ==> !Selected(r, path)
  }

  // ---------- selectLastElectionMessage ----------

  predicate Selected(r: Row, path: string) {
    path in r.channels && r.kind == "election" && r.action != "cast_vote"
  }

  ghost predicate HasSelected(t: Tx, lao: string, path: string) {
    exists r :: r in Rows(t.kind, lao, path) && Selected(r, path)
  }

  ghost predicate IsMaxTime(log: seq<Tx>, lao: string, path: string, time: int) {
    (exists k :: 0 <= k < |log| && log[k].time == time && HasSelected(log[k], lao, path)) &&
    (forall k :: 0 <= k < |log| && HasSelected(log[k], lao, path) ==> log[k].time <= time)
  }

  /** The query may return this action: the row has the greatest stored time among the election's
      messages that are no votes. The outer query filters by nothing but that time. */
  ghost predicate Answer(log: seq<Tx>, lao: string, path: string, action: string) {
    exists k, r :: 0 <= k < |log| && r in Rows(log[k].kind, lao, path) && r.action == action &&
      IsMaxTime(log, lao, path, log[k].time)
  }

  /** getElectionState reads the empty string when there is no row. */
  ghost predicate ElectionState(log: seq<Tx>, lao: string, path: string, state: string) {
    Answer(log, lao, path, state) || (state == "" && forall a :: !Answer(log, lao, path, a))
  }

  predicate IsElectionStarted(state: string) { state == "open" }

  predicate IsElectionEnded(state: string) { state == "end" }

  predicate IsElectionStartedOrEnded(state: string) { state == "open" || state == "end" }

  // ---------- The last phase decides ----------

  predicate Phase(kind: Kind) { !kind.Cast? && !kind.Other? }

  function LastPhase(kinds: seq<Kind>): (r: Option<Kind>)
    ensures r.Some? ==> Phase(r.value)
  {
    if kinds == [] then None
    else if Phase(kinds[|kinds| - 1]) then Some(kinds[|kinds| - 1])
    else LastPhase(kinds[..|kinds| - 1])
  }

  function Kinds(log: seq<Tx>): (r: seq<Kind>)
    ensures |r| == |log| && forall k :: 0 <= k < |log| ==> r[k] == log[k].kind
  {
    seq(|log|, k requires 0 <= k < |log| => log[k].kind)
  }

  function Actions(kind: Kind): set<string> {
    match kind
    case SetUp(withKey) => if withKey then {"setup", "key"} else {"setup"}
    case Opened => {"open"}
    case Cast => {"cast_vote"}
    case Ended => {"end", "result"}
    case Other(_) => {}
  }

  lemma {:induction false} LastPhaseAt(kinds: seq<Kind>) returns (k: int)
    ensures LastPhase(kinds).None? <==> k < 0
    ensures k >= 0 ==> k < |kinds| && kinds[k] == LastPhase(kinds).value
    ensures forall j :: k < j < |kinds| && j >= 0 ==> !Phase(kinds[j])
  {
    if kinds == [] {
      k := -1;
    } else if Phase(kinds[|kinds| - 1]) {
      k := |kinds| - 1;
    } else {
      k := LastPhaseAt(kinds[..|kinds| - 1]);
      forall j | k < j < |kinds| && j >= 0 ensures !Phase(kinds[j]) {
        if j < |kinds| - 1 { assert kinds[..|kinds| - 1][j] == kinds[j]; }
      }
    }
  }

  lemma SelectedIsPhase(t: Tx, lao: string, path: string)
    requires Elsewhere(t.kind, path)
    ensures HasSelected(t, lao, path) <==> Phase(t.kind)
  {
    assert |"setup"| == 5 && |"open"| == 4 && |"end"| == 3 && |"cast_vote"| == 9;
    match t.kind
    case SetUp(_) => assert Selected(Rows(t.kind, lao, path)[0], path);
    case Opened => assert Selected(Rows(t.kind, lao, path)[0], path);
    case Ended => assert Selected(Rows(t.kind, lao, path)[0], path);
    case Cast =>
    case Other(_) =>
  }

  lemma ActionsOfRows(kind: Kind, lao: string, path: string, a: string)
    requires !kind.Other?
    ensures (exists r :: r in Rows(kind, lao, path) && r.action == a) <==> a in Actions(kind)
  {
    var rows := Rows(kind, lao, path);
    match kind
    case SetUp(withKey) =>
      assert rows[0].action == "setup";
      if withKey { assert rows[1].action == "key"; }
    case Opened => assert rows[0].action == "open";
    case Cast => assert rows[0].action == "cast_vote";
    case Ended => assert rows[0].action == "end" && rows[1].action == "result";
  }

  lemma MaxTimeIsLastPhase(log: seq<Tx>, lao: string, path: string, k: int, j: nat)
    requires WellKept(log, path) && -1 <= k < |log| && j < |log|
    requires k >= 0 ==> Phase(log[k].kind)
    requires forall i :: k < i < |log| && i >= 0 ==> !Phase(log[i].kind)
    ensures IsMaxTime(log, lao, path, log[j].time) <==> j == k
  {
    forall i | 0 <= i < |log| ensures HasSelected(log[i], lao, path) <==> Phase(log[i].kind) {
      assert Elsewhere(log[i].kind, path);
      SelectedIsPhase(log[i], lao, path);
    }
    if j == k {
      assert HasSelected(log[j], lao, path);
    }
  }

  /** Whatever else is stored and in whatever order tied rows come, the query answers with an action
      of the last phase, and may answer with each of them. */
  lemma AnswersExactly(log: seq<Tx>, lao: string, path: string, a: string)
    requires WellKept(log, path)
    ensures Answer(log, lao, path, a) <==> LastPhase(Kinds(log)).Some? && a in Actions(LastPhase(Kinds(log)).value)
  {
    var k := LastPhaseAt(Kinds(log));
    forall j: nat | j < |log| ensures IsMaxTime(log, lao, path, log[j].time) <==> j == k {
      assert forall i :: 0 <= i < |log| ==> Kinds(log)[i] == log[i].kind;
      MaxTimeIsLastPhase(log, lao, path, if k < 0 then -1 else k, j);
    }
    if k >= 0 {
      ActionsOfRows(log[k].kind, lao, path, a);
    }
  }

  // ---------- Against the flags in memory ----------

  /** What a run of the channel stores: the setup first, then each accepted open, vote and end. */
  ghost function Stored(s: Election.Setup, ms: seq<Message>): seq<Kind> {
    if ms == [] then [SetUp(s.kind.SecretBallot?)] else
      var init, m := ms[..|ms| - 1], ms[|ms| - 1];
      Stored(s, init) + if Accepts(s, Run(s, init), m) then KindOf(m) else []
  }

  function KindOf(m: Message): seq<Kind> {
    match m.data
    case ElectionOpen(_, _, _) => [Opened]
    case VoteCastVote(_, _, _, _) => [Cast]
    case ElectionEnd(_, _, _, _) => [Ended]
    case ElectionResult(_) => []
  }

  /** The election's own transactions in a log. */
  function Own(kinds: seq<Kind>): seq<Kind> {
    if kinds == [] then [] else
      Own(kinds[..|kinds| - 1]) + if kinds[|kinds| - 1].Other? then [] else [kinds[|kinds| - 1]]
  }

  lemma {:induction false} OwnKeepsLast(kinds: seq<Kind>)
    ensures LastPhase(Own(kinds)) == LastPhase(kinds)
  {
    if kinds != [] {
      var init, k := kinds[..|kinds| - 1], kinds[|kinds| - 1];
      OwnKeepsLast(init);
      if k.Other? {
        assert Own(kinds) == Own(init) + [];
        assert Own(init) + [] == Own(init);
      }
    }
  }

  /** The last phase that flags like these stand for. */
  function PhaseOf(s: Election.Setup, e: State): Kind {
    if e.terminated then Ended else if e.started then Opened else SetUp(s.kind.SecretBallot?)
  }

  lemma {:induction false} LastStored(s: Election.Setup, ms: seq<Message>)
    ensures LastPhase(Stored(s, ms)) == Some(PhaseOf(s, Run(s, ms)))
  {
    if ms != [] {
      var init, m := ms[..|ms| - 1], ms[|ms| - 1];
      LastStored(s, init);
      NeverBoth(s, init);
      var was := Stored(s, init);
      assert was + [] == was;
    }
  }

  /** The states the query may read: the actions of the phase in memory, each of them possible. */
  lemma StatesExactly(s: Election.Setup, ms: seq<Message>, log: seq<Tx>, lao: string, path: string, a: string)
    requires WellKept(log, path) && Own(Kinds(log)) == Stored(s, ms)
    ensures ElectionState(log, lao, path, a) <==> a in Actions(PhaseOf(s, Run(s, ms)))
  {
    OwnKeepsLast(Kinds(log));
    LastStored(s, ms);
    AnswersExactly(log, lao, path, a);
    StateIsAnswer(log, lao, path, a);
  }

  lemma StateIsAnswer(log: seq<Tx>, lao: string, path: string, a: string)
    requires WellKept(log, path) && LastPhase(Kinds(log)).Some?
    ensures ElectionState(log, lao, path, a) <==> Answer(log, lao, path, a)
  {
    var k := LastPhase(Kinds(log)).value;
    var some := match k case SetUp(_) => "setup" case Opened => "open" case _ => "end";
    AnswersExactly(log, lao, path, some);
  }

  /** For every run of the channel, every log that keeps what the run stored among anything else, and
      every row the query may return: IsElectionStarted is the flag `started`. */
  lemma StartedIsExact(s: Election.Setup, ms: seq<Message>, log: seq<Tx>, lao: string, path: string, state: string)
    requires WellKept(log, path) && Own(Kinds(log)) == Stored(s, ms)
    requires ElectionState(log, lao, path, state)
    ensures IsElectionStarted(state) <==> Run(s, ms).started
  {
    StatesExactly(s, ms, log, lao, path, state);
    NeverBoth(s, ms);
  }

  /** Some row the query may return reads as an ended election, or as one not started. */
  ghost predicate MayReadEnded(log: seq<Tx>, lao: string, path: string) {
    exists a :: ElectionState(log, lao, path, a) && IsElectionEnded(a)
  }

  ghost predicate MayReadNotEnded(log: seq<Tx>, lao: string, path: string) {
    exists a :: ElectionState(log, lao, path, a) && !IsElectionEnded(a)
  }

  ghost predicate MayReadUnstarted(log: seq<Tx>, lao: string, path: string) {
    exists a :: ElectionState(log, lao, path, a) && !IsElectionStartedOrEnded(a)
  }

  /** IsElectionEnded can be true exactly of an ended election; but it can always be false, because
      the end and its result tie. So the answer is certain exactly until the end. */
  lemma EndedIsCertainExactly(s: Election.Setup, ms: seq<Message>, log: seq<Tx>, lao: string, path: string)
    requires WellKept(log, path) && Own(Kinds(log)) == Stored(s, ms)
    ensures MayReadEnded(log, lao, path) <==> Run(s, ms).terminated
    ensures MayReadNotEnded(log, lao, path)
  {
    StatesExactly(s, ms, log, lao, path, "end");
    var other := match PhaseOf(s, Run(s, ms)) case SetUp(_) => "setup" case Opened => "open" case _ => "result";
    StatesExactly(s, ms, log, lao, path, other);
    assert ElectionState(log, lao, path, other) && !IsElectionEnded(other);
  }

  /** IsElectionStartedOrEnded guards the opening. It can be false not only before the opening, as it
      should, but also after the end: exactly when the election is not started. */
  lemma GuardFailsExactly(s: Election.Setup, ms: seq<Message>, log: seq<Tx>, lao: string, path: string)
    requires WellKept(log, path) && Own(Kinds(log)) == Stored(s, ms)
    ensures MayReadUnstarted(log, lao, path) <==> !Run(s, ms).started
  {
    if Run(s, ms).started {
      forall a | ElectionState(log, lao, path, a) ensures IsElectionStartedOrEnded(a) {
        StartedIsExact(s, ms, log, lao, path, a);
      }
    } else {
      var a := UnstartedState(s, ms, log, lao, path);
    }
  }

  lemma UnstartedState(s: Election.Setup, ms: seq<Message>, log: seq<Tx>, lao: string, path: string) returns (a: string)
    requires WellKept(log, path) && Own(Kinds(log)) == Stored(s, ms) && !Run(s, ms).started
    ensures ElectionState(log, lao, path, a) && !IsElectionStartedOrEnded(a)
  {
    a := UnstartedAction(PhaseOf(s, Run(s, ms)));
    StatesExactly(s, ms, log, lao, path, a);
  }

  lemma UnstartedAction(phase: Kind) returns (a: string)
    requires phase.SetUp? || phase.Ended?
    ensures a in Actions(phase) && !IsElectionStartedOrEnded(a)
  {
    a := if phase.Ended? then "result" else "setup";
    assert |"result"| == 6 && |"setup"| == 5 && |"open"| == 4 && |"end"| == 3;
  }

  /** The shortest such run, of any election: it is opened and ended. After the end one row reads as
      ended, another neither as ended nor as started. */
  lemma EndedMayReadUnstarted(s: Election.Setup, lao: string, path: string) returns (ms: seq<Message>, log: seq<Tx>)
    ensures WellKept(log, path) && Own(Kinds(log)) == Stored(s, ms) && Run(s, ms).terminated
    ensures MayReadEnded(log, lao, path) && MayReadNotEnded(log, lao, path) && MayReadUnstarted(log, lao, path)
  {
    ms := OpenedAndEnded(s);
    log := ShortLog(SetUp(s.kind.SecretBallot?), path);
    EndedIsCertainExactly(s, ms, log, lao, path);
    GuardFailsExactly(s, ms, log, lao, path);
  }

  lemma OpenedAndEnded(s: Election.Setup) returns (ms: seq<Message>)
    ensures Stored(s, ms) == [SetUp(s.kind.SecretBallot?), Opened, Ended]
    ensures Run(s, ms).terminated && !Run(s, ms).started
  {
    var at := if s.createdAt < 0 then 0 else s.createdAt;
    var open := Message("o", s.organizer, ElectionOpen(s.lao, s.election, at));
    var end := Message("e", s.organizer, ElectionEnd(s.lao, s.election, at, ""));
    ms := [open, end];
    assert ms[..1] == [open] && [open][..0] == [];
    assert Run(s, []) == Initial(s) && Accepts(s, Initial(s), open);
    assert Accepts(s, Run(s, [open]), end) by { assert "e"[0] != "o"[0]; }
    assert Stored(s, [open]) == [SetUp(s.kind.SecretBallot?), Opened];
  }

  lemma ShortLog(setup: Kind, path: string) returns (log: seq<Tx>)
    requires setup.SetUp?
    ensures WellKept(log, path) && Own(Kinds(log)) == [setup, Opened, Ended]
  {
    log := [Tx(0, setup), Tx(1, Opened), Tx(2, Ended)];
    var kinds := [setup, Opened, Ended];
    assert Kinds(log) == kinds;
    assert kinds[..2] == [setup, Opened] && kinds[..2][..1] == [setup] && [setup][..0] == [];
    assert Own([setup]) == [setup] && Own(kinds[..2]) == [setup, Opened];
  }
}
