/** Roll calls: the state kept in memory by old/oldchannel/lao/lao.go and what database/sqlite/lao.go
    reads back from the log. */
module RollCallLog {
  import opened Basics

  datatype RollCallState = Undefined | Created | Open | Closed

  /** `sound` stands for the field checks and the sender's being the organizer. */
  datatype Message =
    | RollCallCreate(id: string, proposedStart: int, proposedEnd: int, sound: bool)
    | RollCallOpen(updateID: string, opens: string, sound: bool)
    | RollCallReOpen(updateID: string, opens: string, sound: bool)
    | RollCallClose(updateID: string, closes: string, attendees: seq<string>, sound: bool)

  datatype RollCall = RollCall(id: string, state: RollCallState, attendees: set<string>)

  function Initial(): RollCall { RollCall("", Undefined, {}) }

  predicate Accepts(r: RollCall, m: Message) {
    m.sound &&
    match m
    case RollCallCreate(_, s, e, _) => s <= e
    case RollCallOpen(_, opens, _) => opens == r.id
    case RollCallReOpen(_, opens, _) => opens == r.id
    case RollCallClose(_, closes, _, _) => r.state == Open && closes == r.id
  }

  /** The id an entry leaves for the next message to refer to. */
  function IdOf(m: Message): string {
    match m
    case RollCallCreate(id, _, _, _) => id
    case RollCallOpen(updateID, _, _) => updateID
    case RollCallReOpen(updateID, _, _) => updateID
    case RollCallClose(updateID, _, _, _) => updateID
  }

  function StateOf(m: Message): RollCallState {
    match m
    case RollCallCreate(_, _, _, _) => Created
    case RollCallOpen(_, _, _) => Open
    case RollCallReOpen(_, _, _) => Open
    case RollCallClose(_, _, _, _) => Closed
  }

  function Handle(r: RollCall, m: Message): RollCall {
    if !Accepts(r, m) then r
    else RollCall(IdOf(m), StateOf(m), if m.RollCallClose? then (set a | a in m.attendees) else r.attendees)
  }

  // ---------- The channel ----------

  class Channel {
    var id: string
    var state: RollCallState
    var attendees: set<string>

    function Now(): RollCall
      reads this
    {
      RollCall(id, state, attendees)
    }

    constructor ()
      ensures Now() == Initial()
    {
      id, state, attendees := "", Undefined, {};
    }

    method CheckPrevID(prevID: string) returns (ok: bool)
      ensures ok <==> prevID == Now().id
    {
      ok := prevID == id;
    }

    method ProcessRollCallCreate(m: Message) returns (ok: bool)
      requires m.RollCallCreate?
      modifies this`id, this`state
      ensures ok == Accepts(old(Now()), m) && Now() == Handle(old(Now()), m)
    {
      if !m.sound || m.proposedStart > m.proposedEnd { return false; }
      id, state := m.id, Created;
      ok := true;
    }

    /** Opens and reopenings alike. */
    method ProcessRollCallOpen(m: Message) returns (ok: bool)
      requires m.RollCallOpen? || m.RollCallReOpen?
      modifies this`id, this`state
      ensures ok == Accepts(old(Now()), m) && Now() == Handle(old(Now()), m)
    {
      ok := CheckPrevID(m.opens);
      if !m.sound || !ok { return false; }
      id, state := m.updateID, Open;
    }

    method ProcessRollCallClose(m: Message) returns (ok: bool)
      requires m.RollCallClose?
      modifies this`id, this`state, this`attendees
      ensures ok == Accepts(old(Now()), m) && Now() == Handle(old(Now()), m)
    {
      if !m.sound || state != Open { return false; }
      ok := CheckPrevID(m.closes);
      if !ok { return false; }
      id, state, attendees := m.updateID, Closed, {};
      for i := 0 to |m.attendees|
        invariant attendees == set a | a in m.attendees[..i]
        invariant id == m.updateID && state == Closed
      {
        assert m.attendees[..i + 1] == m.attendees[..i] + [m.attendees[i]];
        attendees := attendees + {m.attendees[i]};
      }
      assert m.attendees[..|m.attendees|] == m.attendees;
    }
  }

  // ---------- The log ----------

  /** One stored message of the database: a roll call message of this lao, or anything else. */
  datatype Entry = RollCallEntry(time: int, message: Message) | OtherEntry(time: int)

  ghost predicate InOrder(log: seq<Entry>) {
    forall i, j :: 0 <= i < j < |log| ==> log[i].time < log[j].time
  }

  /** The roll call messages of a log, oldest first. */
  function Messages(log: seq<Entry>): seq<Message> {
    if log == [] then [] else
      var e := log[|log| - 1];
      Messages(log[..|log| - 1]) + if e.RollCallEntry? then [e.message] else []
  }

  /** A log whose roll call messages were each accepted by the channel when they came. */
  predicate Accepted(ms: seq<Message>) {
    ms == [] || (Accepted(ms[..|ms| - 1]) && Accepts(After(ms[..|ms| - 1]), ms[|ms| - 1]))
  }

  function After(ms: seq<Message>): RollCall {
    if ms == [] then Initial() else Handle(After(ms[..|ms| - 1]), ms[|ms| - 1])
  }

  predicate Opening(m: Message) { m.RollCallOpen? || m.RollCallReOpen? }

  predicate CreateOrClose(m: Message) { m.RollCallCreate? || m.RollCallClose? }

  // ---------- The queries ----------

  predicate Matches(e: Entry, wantOpening: bool) {
    e.RollCallEntry? && (if wantOpening then Opening(e.message) else CreateOrClose(e.message))
  }

  /** selectLastRollCallMessageInList: a matching row of the greatest stored time. */
  ghost predicate LastInList(log: seq<Entry>, wantOpening: bool, k: int) {
    0 <= k < |log| && Matches(log[k], wantOpening) &&
    forall j :: 0 <= j < |log| && Matches(log[j], wantOpening) ==> log[j].time <= log[k].time
  }

  /** What CheckPrevOpenOrReopenID (wantOpening) or CheckPrevCreateOrCloseID answers; false without a row. */
  ghost predicate CheckPrev(log: seq<Entry>, wantOpening: bool, nextID: string) {
    exists k :: LastInList(log, wantOpening, k) && log[k].RollCallEntry? && IdOf(log[k].message) == nextID
  }

  /** selectLastRollCallMessage: the action of the row of the greatest stored time. */
  ghost predicate LastRollCall(log: seq<Entry>, k: int) {
    0 <= k < |log| && log[k].RollCallEntry? &&
    forall j :: 0 <= j < |log| && log[j].RollCallEntry? ==> log[j].time <= log[k].time
  }

  function LastWith(ms: seq<Message>, wantOpening: bool): Option<Message> {
    if ms == [] then None
    else if (if wantOpening then Opening(ms[|ms| - 1]) else CreateOrClose(ms[|ms| - 1])) then Some(ms[|ms| - 1])
    else LastWith(ms[..|ms| - 1], wantOpening)
  }

  lemma MessagesGrow(log: seq<Entry>, e: Entry, wantOpening: bool)
    ensures LastWith(Messages(log + [e]), wantOpening) ==
      if Matches(e, wantOpening) then Some(e.message) else LastWith(Messages(log), wantOpening)
  {
    assert (log + [e])[..|log|] == log;
    if e.RollCallEntry? {
      assert (Messages(log) + [e.message])[..|Messages(log)|] == Messages(log);
    } else {
      assert Messages(log) + [] == Messages(log);
    }
  }

  /** With increasing times the query returns the last matching message of the log. */
  lemma {:induction false} QueryIsLast(log: seq<Entry>, wantOpening: bool, k: int)
    requires InOrder(log) && LastInList(log, wantOpening, k)
    ensures LastWith(Messages(log), wantOpening) == Some(log[k].message)
  {
    var init, e := log[..|log| - 1], log[|log| - 1];
    assert log == init + [e];
    MessagesGrow(init, e, wantOpening);
    if Matches(e, wantOpening) {
      assert k == |log| - 1;
    } else {
      assert LastInList(init, wantOpening, k) by {
        forall j | 0 <= j < |init| && Matches(init[j], wantOpening) ensures init[j].time <= init[k].time {
          assert log[j] == init[j];
        }
      }
      QueryIsLast(init, wantOpening, k);
    }
  }

  lemma {:induction false} QueryFinds(log: seq<Entry>, wantOpening: bool) returns (k: int)
    requires InOrder(log) && LastWith(Messages(log), wantOpening).Some?
    ensures LastInList(log, wantOpening, k)
  {
    k := 0;
    if log != [] {
      var init, e := log[..|log| - 1], log[|log| - 1];
      assert log == init + [e];
      MessagesGrow(init, e, wantOpening);
      if Matches(e, wantOpening) {
        k := |log| - 1;
      } else {
        k := QueryFinds(init, wantOpening);
        forall j | 0 <= j < |log| && Matches(log[j], wantOpening) ensures log[j].time <= log[k].time {
          assert j < |init| && Matches(init[j], wantOpening);
        }
      }
    }
  }

  /** CheckPrev in terms of the messages alone. */
  lemma CheckPrevIsLast(log: seq<Entry>, wantOpening: bool, nextID: string)
    requires InOrder(log)
    ensures var last := LastWith(Messages(log), wantOpening);
      CheckPrev(log, wantOpening, nextID) <==> last.Some? && IdOf(last.value) == nextID
  {
    if k :| LastInList(log, wantOpening, k) {
      QueryIsLast(log, wantOpening, k);
    }
    if LastWith(Messages(log), wantOpening).Some? {
      var k := QueryFinds(log, wantOpening);
      QueryIsLast(log, wantOpening, k);
    }
    forall k | LastInList(log, wantOpening, k) ensures LastWith(Messages(log), wantOpening) == Some(log[k].message) {
      QueryIsLast(log, wantOpening, k);
    }
  }

  // ---------- Memory and log agree ----------

  /** GetRollCallState reads the message whose kind is the state in memory and whose id is the id. */
  lemma {:induction false} StateIsLastEntry(log: seq<Entry>, k: int)
    requires InOrder(log) && Accepted(Messages(log)) && LastRollCall(log, k)
    ensures After(Messages(log)).state == StateOf(log[k].message) && After(Messages(log)).id == IdOf(log[k].message)
  {
    var init, e := log[..|log| - 1], log[|log| - 1];
    if e.RollCallEntry? {
      assert k == |log| - 1;
      assert Messages(log) == Messages(init) + [e.message];
    } else {
      assert Messages(log) == Messages(init) + [];
      assert Messages(init) + [] == Messages(init);
      assert LastRollCall(init, k) by {
        forall j | 0 <= j < |init| && init[j].RollCallEntry? ensures init[j].time <= init[k].time {
          assert log[j] == init[j];
        }
      }
      StateIsLastEntry(init, k);
    }
  }

  /** While the roll call is open, checkPrevID is CheckPrevOpenOrReopenID; in every other state a log
      with a message leaves, it is CheckPrevCreateOrCloseID. */
  lemma CheckPrevAgrees(log: seq<Entry>, nextID: string)
    requires InOrder(log) && Accepted(Messages(log)) && Messages(log) != []
    ensures var r := After(Messages(log));
      CheckPrev(log, r.state == Open, nextID) <==> nextID == r.id
  {
    var ms := Messages(log);
    CheckPrevIsLast(log, After(ms).state == Open, nextID);
  }

  /** Before the first message the database knows no id, while memory accepts the empty one. */
  lemma EmptyLogDiffers(log: seq<Entry>, wantOpening: bool, nextID: string)
    requires InOrder(log) && Messages(log) == []
    ensures !CheckPrev(log, wantOpening, nextID)
    ensures nextID == After(Messages(log)).id <==> nextID == ""
  {
    CheckPrevIsLast(log, wantOpening, nextID);
  }

  // ---------- Accepting the next message ----------

  /** What handler/channel/lao/hlao asks of an opening and of a close, besides the field checks. */
  ghost predicate DatabaseAccepts(log: seq<Entry>, m: Message) {
    m.sound &&
    match m
    case RollCallCreate(_, s, e, _) => s <= e
    case RollCallOpen(_, opens, _) => CheckPrev(log, false, opens)
    case RollCallReOpen(_, opens, _) => CheckPrev(log, false, opens)
    case RollCallClose(_, closes, _, _) => CheckPrev(log, true, closes)
  }

  /** The two accept the same openings exactly when the roll call is not open, or opened under the id
      of the entry before it; while it is open the channel wants the opening's id and the database the
      one before. */
  lemma OpeningsAgreeExactly(log: seq<Entry>)
    requires InOrder(log) && Accepted(Messages(log)) && Messages(log) != []
    ensures var r := After(Messages(log));
      var before := LastWith(Messages(log), false);
      (forall m: Message :: Opening(m) ==> (DatabaseAccepts(log, m) <==> Accepts(r, m))) <==>
      (r.state != Open || (before.Some? && IdOf(before.value) == r.id))
  {
    var ms := Messages(log);
    var r := After(ms);
    var before := LastWith(ms, false);
    forall m: Message | Opening(m)
      ensures DatabaseAccepts(log, m) <==> m.sound && before.Some? && IdOf(before.value) == m.opens
    {
      CheckPrevIsLast(log, false, m.opens);
    }
    var probe := RollCallOpen("", r.id, true);
    assert Opening(probe) && Accepts(r, probe);
  }

  /** The two accept the same closes exactly when the roll call is open or never was: after a close
      the database still accepts another close of the same opening. */
  lemma ClosesAgreeExactly(log: seq<Entry>)
    requires InOrder(log) && Accepted(Messages(log))
    ensures var r := After(Messages(log));
      (forall m: Message :: m.RollCallClose? ==> (DatabaseAccepts(log, m) <==> Accepts(r, m))) <==>
      (r.state == Open || LastWith(Messages(log), true).None?)
  {
    var ms := Messages(log);
    var r := After(ms);
    var last := LastWith(ms, true);
    forall m: Message | m.RollCallClose?
      ensures DatabaseAccepts(log, m) <==> m.sound && last.Some? && IdOf(last.value) == m.closes
    {
      CheckPrevIsLast(log, true, m.closes);
    }
    if last.Some? {
      var probe := RollCallClose("", IdOf(last.value), [], true);
      assert probe.RollCallClose? && DatabaseAccepts(log, probe);
    }
  }

  function Log(ms: seq<Message>): seq<Entry> {
    seq(|ms|, k requires 0 <= k < |ms| => RollCallEntry(k, ms[k]))
  }

  lemma {:induction false} LogHolds(ms: seq<Message>)
    ensures InOrder(Log(ms)) && Messages(Log(ms)) == ms
  {
    if ms != [] {
      var init := ms[..|ms| - 1];
      LogHolds(init);
      assert Log(ms)[..|ms| - 1] == Log(init);
      assert ms == init + [ms[|ms| - 1]];
    }
  }

  /** The shortest logs where they differ. A roll call is created and opened under another id: the database
      accepts an opening of the first id, the channel one of the second, and neither accepts the other's. */
  lemma OpeningsCanDiffer(created: string, openedAs: string) returns (log: seq<Entry>)
    requires created != openedAs
    ensures InOrder(log) && Accepted(Messages(log)) && |Messages(log)| == 2
    ensures var r := After(Messages(log));
      var first, second := RollCallReOpen("", created, true), RollCallReOpen("", openedAs, true);
      DatabaseAccepts(log, first) && !Accepts(r, first) && Accepts(r, second) && !DatabaseAccepts(log, second)
  {
    var ms := [RollCallCreate(created, 0, 0, true), RollCallOpen(openedAs, created, true)];
    log := Log(ms);
    LogHolds(ms);
    assert ms[..1] == [ms[0]] && [ms[0]][..0] == [];
    assert After([ms[0]]) == RollCall(created, Created, {}) && Accepted([ms[0]]);
    assert After(ms) == RollCall(openedAs, Open, {});
    assert LastWith([ms[0]], false) == Some(ms[0]);
    CheckPrevIsLast(log, false, created);
    CheckPrevIsLast(log, false, openedAs);
  }

  /** Closed too, the database accepts the close once more, and the channel does not. */
  lemma ClosedCloseAgain(created: string, openedAs: string, closed: string) returns (log: seq<Entry>)
    ensures InOrder(log) && Accepted(Messages(log)) && |Messages(log)| == 3
    ensures var again := RollCallClose("", openedAs, [], true);
      DatabaseAccepts(log, again) && !Accepts(After(Messages(log)), again)
  {
    var create, open := RollCallCreate(created, 0, 0, true), RollCallOpen(openedAs, created, true);
    var ms := [create, open, RollCallClose(closed, openedAs, [], true)];
    log := Log(ms);
    LogHolds(ms);
    assert ms[..2] == [create, open] && [create, open][..1] == [create] && [create][..0] == [];
    assert After([create]) == RollCall(created, Created, {}) && Accepted([create]);
    assert After([create, open]) == RollCall(openedAs, Open, {}) && Accepted([create, open]);
    assert After(ms).state == Closed;
    assert LastWith([create, open], true) == Some(open);
    CheckPrevIsLast(log, true, openedAs);
  }

  // ---------- What an accepted log looks like ----------

  lemma {:induction false} PrefixAccepted(ms: seq<Message>, k: nat)
    requires Accepted(ms) && k < |ms|
    ensures Accepted(ms[..k]) && Accepts(After(ms[..k]), ms[k])
    decreases |ms|
  {
    var init := ms[..|ms| - 1];
    if k < |init| {
      PrefixAccepted(init, k);
      assert init[..k] == ms[..k];
    }
  }

  lemma AfterLast(ms: seq<Message>)
    requires Accepted(ms) && ms != []
    ensures After(ms).id == IdOf(ms[|ms| - 1]) && After(ms).state == StateOf(ms[|ms| - 1])
  {
  }

  /** Each accepted message is sound and refers to the one before: an opening to the id it left, whatever it
      was; a close to the opening it follows at once. */
  lemma EachRefersBack(ms: seq<Message>, k: nat)
    requires Accepted(ms) && k < |ms|
    ensures ms[k].sound
    ensures ms[k].RollCallCreate? ==> ms[k].proposedStart <= ms[k].proposedEnd
    ensures Opening(ms[k]) ==> ms[k].opens == if k == 0 then "" else IdOf(ms[k - 1])
    ensures ms[k].RollCallClose? ==> k > 0 && Opening(ms[k - 1]) && ms[k].closes == IdOf(ms[k - 1])
  {
    PrefixAccepted(ms, k);
    if k > 0 {
      AfterLast(ms[..k]);
      assert ms[..k][k - 1] == ms[k - 1];
    }
  }

  /** The attendees are those of the last close, and nobody before the first. */
  lemma {:induction false} AttendeesOfLastClose(ms: seq<Message>) returns (k: int)
    requires Accepted(ms)
    ensures -1 <= k < |ms| && forall j :: k < j < |ms| ==> !ms[j].RollCallClose?
    ensures if k == -1 then After(ms).attendees == {}
            else ms[k].RollCallClose? && forall a :: a in After(ms).attendees <==> a in ms[k].attendees
  {
    k := -1;
    if ms != [] {
      var init, m := ms[..|ms| - 1], ms[|ms| - 1];
      if m.RollCallClose? {
        k := |ms| - 1;
      } else {
        k := AttendeesOfLastClose(init);
        forall j | k < j < |ms| ensures !ms[j].RollCallClose? {
          if j < |init| { assert init[j] == ms[j]; }
        }
      }
    }
  }
}
