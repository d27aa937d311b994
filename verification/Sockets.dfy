/** The ring of sockets through which a server spreads rumors, from state/sockets.go:
    who is sent a rumor, and how often, over whole runs of calls. */
module Sockets {
  import opened Basics

  datatype RumorState = RumorState(counter: nat, index: nat, bannedSocket: string)

  /** A rumor sent to a socket; a socket is known here by its id. */
  datatype Delivery = Delivery(key: string, to: string)

  datatype Ring = Ring(rState: map<string, RumorState>, socketIDs: seq<string>, store: set<string>, sent: seq<Delivery>)

  /** Every socket of the store has a place in the ring: so it is after any calls whatever. */
  ghost predicate Listed(r: Ring) {
    forall id :: id in r.store ==> id in r.socketIDs
  }

  /** Sound besides: every place has a socket, and no id is listed twice. */
  ghost predicate Valid(r: Ring) {
    NoDup(r.socketIDs) && r.store == (set id | id in r.socketIDs) && |r.store| == |r.socketIDs|
  }

  lemma {:induction false} SizeOfDistinct(s: seq<string>)
    requires NoDup(s)
    ensures |set x | x in s| == |s|
  {
    if s != [] {
      var init, last := s[..|s| - 1], s[|s| - 1];
      SizeOfDistinct(init);
      assert (set x | x in s) == (set x | x in init) + {last};
    }
  }

  lemma {:induction false} SizeOfMembers(s: seq<string>)
    ensures |set x | x in s| <= |s|
  {
    if s != [] {
      var init, last := s[..|s| - 1], s[|s| - 1];
      SizeOfMembers(init);
      assert (set x | x in s) == (set x | x in init) + {last};
    }
  }

  lemma ListedHasPlaces(r: Ring)
    requires Listed(r)
    ensures |r.store| <= |r.socketIDs|
  {
    SizeOfMembers(r.socketIDs);
    SubsetSize(r.store, set x | x in r.socketIDs);
  }

  // ---------- One call ----------

  /** The place after i, around the ring: (i + 1) % n. */
  function NextPlace(i: nat, n: nat): (p: nat)
    requires i < n
    ensures p < n
  {
    if i + 1 == n then 0 else i + 1
  }

  function Moved(c: RumorState, n: nat): RumorState
    requires c.index < n
  {
    c.(index := NextPlace(c.index, n), counter := c.counter + 1)
  }

  /** The cursor of a rumor at the start of a call; a new one starts at a random position. */
  function Cursor(r: Ring, key: string, socket: Option<string>, pick: nat): (c: RumorState)
    requires r.store != {}
    ensures c.index < |r.store|
  {
    if key in r.rState then r.rState[key].(index := r.rState[key].index % |r.store|)
    else RumorState(0, pick % |r.store|, Banned(socket))
  }

  function Skipped(c: RumorState, ids: seq<string>, n: nat): (d: RumorState)
    requires c.index < n <= |ids|
    ensures d.index < n && d.bannedSocket == c.bannedSocket
  {
    if ids[c.index] == c.bannedSocket then Moved(c, n) else c
  }

  /** The cursor past the banned place, where the call stands when it sends or stops. */
  ghost function Stand(r: Ring, key: string, socket: Option<string>, pick: nat): (c: RumorState)
    requires Listed(r) && r.store != {}
    ensures c.index < |r.store| <= |r.socketIDs|
  {
    ListedHasPlaces(r);
    Skipped(Cursor(r, key, socket, pick), r.socketIDs, |r.store|)
  }

  /** The id the call is about to send to, unless the cycle is complete. */
  ghost function Target(r: Ring, key: string, socket: Option<string>, pick: nat): Option<string>
    requires Listed(r)
  {
    if r.store == {} then None else
      var c := Stand(r, key, socket, pick);
      if c.counter >= |r.store| then None else Some(r.socketIDs[c.index])
  }

  /** There is no socket behind the id: the call fails on it. */
  ghost predicate Panics(r: Ring, key: string, socket: Option<string>, pick: nat)
    requires Listed(r)
  {
    Target(r, key, socket, pick).Some? && Target(r, key, socket, pick).value !in r.store
  }

  ghost function Send(r: Ring, key: string, socket: Option<string>, pick: nat): Ring
    requires Listed(r)
  {
    if r.store == {} then r else
      var c := Stand(r, key, socket, pick);
      var target := Target(r, key, socket, pick);
      if target.None? || target.value !in r.store then r.(rState := r.rState[key := c])
      else r.(rState := r.rState[key := Moved(c, |r.store|)], sent := r.sent + [Delivery(key, target.value)])
  }

  function Without(s: seq<string>, x: string): seq<string> {
    if s == [] then [] else
      var rest := Without(s[..|s| - 1], x);
      if s[|s| - 1] == x then rest else rest + [s[|s| - 1]]
  }

  function Added(r: Ring, id: string): Ring {
    r.(socketIDs := r.socketIDs + [id], store := r.store + {id})
  }

  function LastIndex(ids: seq<string>, id: string): (k: int)
    ensures -1 <= k < |ids| && (k < 0 <==> id !in ids) && (k >= 0 ==> ids[k] == id)
  {
    if ids == [] then -1
    else if ids[|ids| - 1] == id then |ids| - 1
    else
      assert ids == ids[..|ids| - 1] + [ids[|ids| - 1]];
      LastIndex(ids[..|ids| - 1], id)
  }

  /** Delete takes out the last place that holds the id. */
  function Removed(r: Ring, id: string): Ring {
    var k := LastIndex(r.socketIDs, id);
    if id !in r.store then r
    else if k < 0 then r.(store := r.store - {id})
    else r.(socketIDs := r.socketIDs[..k] + r.socketIDs[k + 1..], store := r.store - {id})
  }

  lemma LastIndexMore(ids: seq<string>, i: nat, id: string)
    requires i < |ids|
    ensures LastIndex(ids[..i + 1], id) == if ids[i] == id then i else LastIndex(ids[..i], id)
  {
    assert ids[..i + 1][..i] == ids[..i];
  }

  lemma RemovedAt(r: Ring, id: string, k: int)
    requires id in r.store && k == LastIndex(r.socketIDs, id)
    ensures k == -1 <==> id !in r.socketIDs
    ensures k == -1 ==> Removed(r, id) == r.(store := r.store - {id})
    ensures k != -1 ==>
              0 <= k < |r.socketIDs| &&
              Removed(r, id) == r.(store := r.store - {id}, socketIDs := r.socketIDs[..k] + r.socketIDs[k + 1..])
  {
  }

  lemma WithoutOne(s: seq<string>, y: string, x: string)
    ensures Without(s + [y], x) == if y == x then Without(s, x) else Without(s, x) + [y]
  {
    assert (s + [y])[..|s|] == s;
  }

  lemma {:induction false} WithoutHas(s: seq<string>, x: string, y: string)
    ensures y in Without(s, x) <==> y in s && y != x
  {
    if s != [] {
      assert s == s[..|s| - 1] + [s[|s| - 1]];
      WithoutHas(s[..|s| - 1], x, y);
    }
  }

  lemma {:induction false} WithoutConcat(a: seq<string>, b: seq<string>, x: string)
    ensures Without(a + b, x) == Without(a, x) + Without(b, x)
  {
    if b == [] {
      assert a + b == a && Without(a, x) + [] == Without(a, x);
    } else {
      var init, last := b[..|b| - 1], b[|b| - 1];
      WithoutConcat(a, init, x);
      WithoutOne(a + init, last, x);
      WithoutOne(init, last, x);
      assert b == init + [last];
      Regrouped(a, init, last);
      Regrouped(Without(a, x), Without(init, x), last);
    }
  }

  lemma Regrouped(a: seq<string>, b: seq<string>, y: string)
    ensures a + (b + [y]) == (a + b) + [y]
  {
  }

  lemma {:induction false} WithoutDistinct(s: seq<string>, x: string)
    requires NoDup(s)
    ensures NoDup(Without(s, x))
  {
    if s != [] {
      var init, last := s[..|s| - 1], s[|s| - 1];
      WithoutDistinct(init, x);
      assert last !in init;
      WithoutHas(init, x, last);
    }
  }

  lemma {:induction false} WithoutAbsent(s: seq<string>, x: string)
    requires x !in s
    ensures Without(s, x) == s
  {
    if s != [] {
      assert s == s[..|s| - 1] + [s[|s| - 1]];
      WithoutAbsent(s[..|s| - 1], x);
    }
  }

  /** Taking out the one place that holds x. */
  lemma WithoutMiddle(a: seq<string>, x: string, b: seq<string>)
    requires x !in a && x !in b
    ensures Without(a + [x] + b, x) == a + b
  {
    WithoutConcat(a + [x], b, x);
    WithoutOne(a, x, x);
    WithoutAbsent(a, x);
    WithoutAbsent(b, x);
  }

  lemma Elsewhere(s: seq<string>, i: nat)
    requires NoDup(s) && i < |s|
    ensures s[i] !in s[..i] && s[i] !in s[i + 1..] && s == s[..i] + [s[i]] + s[i + 1..]
  {
  }

  // ---------- The object ----------

  class Sockets {
    var rState: map<string, RumorState>
    var socketIDs: seq<string>
    var store: set<string>
    var sent: seq<Delivery>

    ghost function Now(): Ring
      reads this
    {
      Ring(rState, socketIDs, store, sent)
    }

    constructor ()
      ensures Now() == Ring(map[], [], {}, []) && Listed(Now()) && Valid(Now())
    {
      rState, socketIDs, store, sent := map[], [], {}, [];
    }

    static method Advance(c: RumorState, n: nat) returns (d: RumorState)
      requires c.index < n
      ensures d == Moved(c, n)
    {
      RingStep(c.index, n);
      d := c.(index := (c.index + 1) % n, counter := c.counter + 1);
    }

    /** The cursor of the call before any skip, as it is first recorded. */
    method Resume(socket: Option<string>, key: string, pick: nat) returns (c: RumorState)
      requires store != {}
      modifies this`rState
      ensures c == Cursor(old(Now()), key, socket, pick) && rState == old(rState)[key := c]
    {
      var n := |store|;
      if key !in rState {
        c := RumorState(0, pick % n, if socket.Some? then socket.value else "");
      } else {
        c := rState[key];
        c := c.(index := c.index % n);
      }
      rState := rState[key := c];
    }

    /** rand.Intn becomes the parameter `pick`; the call panics when there is no socket to send to. */
    method SendRumor(socket: Option<string>, senderID: string, rumorID: nat, pick: nat) returns (panics: bool)
      requires Listed(Now())
      modifies this
      ensures Listed(Now()) && Now() == Send(old(Now()), Key(senderID, rumorID), socket, pick)
      ensures panics <==> Panics(old(Now()), Key(senderID, rumorID), socket, pick)
      ensures Valid(old(Now())) ==> Valid(Now()) && !panics
    {
      if store == {} { return false; }
      var key := Key(senderID, rumorID);
      ghost var was := rState;
      ListedHasPlaces(Now());
      var n := |store|;
      var c := Resume(socket, key, pick);
      if socketIDs[c.index] == c.bannedSocket {
        c := Advance(c, n);
        rState := rState[key := c];
      }
      assert rState == was[key := c];
      if c.counter >= n { return false; }
      if socketIDs[c.index] !in store { return true; }
      sent := sent + [Delivery(key, socketIDs[c.index])];
      c := Advance(c, n);
      rState := rState[key := c];
      assert rState == was[key := c];
      panics := false;
    }

    /** Adding an id that is already in the store lists it twice. */
    method Upsert(id: string)
      modifies this
      ensures Now() == Added(old(Now()), id)
      ensures Listed(old(Now())) ==> Listed(Now())
      ensures Valid(old(Now())) ==> (Valid(Now()) <==> id !in old(store))
    {
      if Valid(Now()) { UpsertKeeps(Now(), id); }
      socketIDs := socketIDs + [id];
      store := store + {id};
    }

    method Delete(id: string) returns (ok: bool)
      modifies this
      ensures ok <==> id in old(store) && id in old(socketIDs)
      ensures Now() == Removed(old(Now()), id)
      ensures Listed(old(Now())) ==> Listed(Now())
      ensures Valid(old(Now())) ==> Valid(Now())
    {
      ghost var was := Now();
      DeleteKeepsBoth(was, id);
      if id !in store { return false; }
      store := store - {id};
      var index := -1;
      for i := 0 to |socketIDs|
        invariant Now() == was.(store := was.store - {id})
        invariant index == LastIndex(socketIDs[..i], id)
      {
        LastIndexMore(socketIDs, i, id);
        if socketIDs[i] == id { index := i; }
      }
      assert socketIDs[..|socketIDs|] == socketIDs;
      RemovedAt(was, id, index);
      if index == -1 { return false; }
      socketIDs := socketIDs[..index] + socketIDs[index + 1..];
      ok := true;
    }
  }

  /** Fresh ids, and only fresh ids, keep the ring sound. */
  lemma UpsertKeeps(r: Ring, id: string)
    requires Valid(r)
    ensures Valid(Added(r, id)) <==> id !in r.store
  {
    var ids := r.socketIDs + [id];
    if id in r.store {
      var i :| 0 <= i < |r.socketIDs| && r.socketIDs[i] == id;
      assert ids[i] == ids[|r.socketIDs|];
    } else {
      assert NoDup(ids);
      assert Added(r, id).store == set x | x in ids;
      SizeOfDistinct(ids);
    }
  }

  /** In a sound ring the id has one place, and all the others stay. */
  lemma RemovedIsWithout(r: Ring, id: string)
    requires Valid(r) && id in r.store
    ensures Removed(r, id) == r.(socketIDs := Without(r.socketIDs, id), store := r.store - {id})
  {
    var k := LastIndex(r.socketIDs, id);
    Elsewhere(r.socketIDs, k);
    WithoutMiddle(r.socketIDs[..k], id, r.socketIDs[k + 1..]);
  }

  lemma DeleteKeeps(r: Ring, id: string)
    requires Valid(r)
    ensures Valid(Removed(r, id))
  {
    if id in r.store {
      RemovedIsWithout(r, id);
      WithoutDistinct(r.socketIDs, id);
      forall y
        ensures y in Without(r.socketIDs, id) <==> y in r.socketIDs && y != id
      {
        WithoutHas(r.socketIDs, id, y);
      }
      assert Removed(r, id).store == set x | x in Without(r.socketIDs, id);
      SizeOfDistinct(Without(r.socketIDs, id));
    }
  }

  lemma DeleteKeepsBoth(r: Ring, id: string)
    ensures Valid(r) ==> Valid(Removed(r, id))
    ensures Listed(r) ==> Listed(Removed(r, id))
  {
    if Valid(r) { DeleteKeeps(r, id); }
    if Listed(r) { DeleteKeepsListed(r, id); }
  }

  lemma DeleteKeepsListed(r: Ring, id: string)
    requires Listed(r)
    ensures Listed(Removed(r, id))
  {
    var k := LastIndex(r.socketIDs, id);
    if id in r.store {
      assert r.socketIDs == r.socketIDs[..k] + [r.socketIDs[k]] + r.socketIDs[k + 1..];
    }
  }

  /** In any ring it is the last place of the id that goes, and no other. */
  lemma RemovedIsLast(r: Ring, id: string) returns (k: nat)
    requires id in r.store && id in r.socketIDs
    ensures k < |r.socketIDs| && r.socketIDs[k] == id && id !in r.socketIDs[k + 1..]
    ensures Removed(r, id).socketIDs == r.socketIDs[..k] + r.socketIDs[k + 1..]
    ensures Removed(r, id).store == r.store - {id} && Removed(r, id).rState == r.rState
  {
    k := LastIndex(r.socketIDs, id);
    NoneAfterLast(r.socketIDs, id);
  }

  lemma {:induction false} NoneAfterLast(ids: seq<string>, id: string)
    requires id in ids
    ensures id !in ids[LastIndex(ids, id) + 1..]
  {
    var init, last := ids[..|ids| - 1], ids[|ids| - 1];
    if last != id {
      assert ids == init + [last];
      NoneAfterLast(init, id);
      var k := LastIndex(init, id);
      assert ids[k + 1..] == init[k + 1..] + [last];
    }
  }

  /** What the listing of an id twice leads to: after Upsert, Upsert and Delete of one id the id is
      still listed, but its socket is gone. */
  lemma TwiceListed(r: Ring, id: string)
    ensures var left := Removed(Added(Added(r, id), id), id);
      id in left.socketIDs && id !in left.store
  {
    var ids := Added(Added(r, id), id).socketIDs;
    var left := Removed(Added(Added(r, id), id), id);
    assert ids[..|ids| - 1] == r.socketIDs + [id];
    assert left.socketIDs == r.socketIDs + [id];
  }

  /** The id a new rumor bans: none at all for a rumor that came from no socket. */
  function Banned(socket: Option<string>): string {
    if socket.Some? then socket.value else ""
  }

  /** Place i has no socket, and if its id is the banned one, which a call skips, then the next place
      holds that id again. */
  ghost predicate Hole(r: Ring, banned: string, i: nat)
    requires i < |r.store| <= |r.socketIDs|
  {
    var ids, n := r.socketIDs, |r.store|;
    ids[i] !in r.store && (ids[i] == banned ==> n > 1 && ids[NextPlace(i, n)] == banned)
  }

  /** For a rumor new to the ring, from whatever socket or none, SendRumor can fail exactly when there
      is a hole. */
  lemma PanicsExactly(r: Ring, key: string, socket: Option<string>)
    requires Listed(r) && key !in r.rState
    ensures |r.store| <= |r.socketIDs|
    ensures (exists pick: nat :: Panics(r, key, socket, pick)) <==>
            exists i: nat :: i < |r.store| && Hole(r, Banned(socket), i)
  {
    ListedHasPlaces(r);
    var ids, n, banned := r.socketIDs, |r.store|, Banned(socket);
    if pick: nat :| Panics(r, key, socket, pick) {
      var i := Cursor(r, key, socket, pick).index;
      assert if ids[i] == banned then n > 1 && ids[NextPlace(i, n)] !in r.store else ids[i] !in r.store;
      assert Hole(r, banned, if ids[i] == banned && ids[NextPlace(i, n)] != banned then NextPlace(i, n) else i);
    }
    if i: nat :| i < n && Hole(r, banned, i) {
      RingStep(i, n);
      assert Panics(r, key, socket, i);
    }
  }

  /** If what is banned has its socket, or no place, a hole is a place without a socket. */
  lemma PlainHole(r: Ring, banned: string, i: nat)
    requires i < |r.store| <= |r.socketIDs| && (banned in r.store || banned !in r.socketIDs)
    ensures Hole(r, banned, i) <==> r.socketIDs[i] !in r.store
  {
    assert r.socketIDs[i] in r.socketIDs;
  }

  /** For a rumor that has a cursor the call fails exactly when the place the cursor stands at has no
      socket, the next place counting for a banned one, and the cycle is not complete. */
  lemma CursorPanicsExactly(r: Ring, key: string, socket: Option<string>, pick: nat)
    requires Listed(r) && key in r.rState && r.store != {}
    ensures |r.store| <= |r.socketIDs|
    ensures var c, ids, n := r.rState[key], r.socketIDs, |r.store|;
      var i := c.index % n;
      Panics(r, key, socket, pick) <==>
        if ids[i] == c.bannedSocket then c.counter + 1 < n && ids[NextPlace(i, n)] !in r.store
        else c.counter < n && ids[i] !in r.store
  {
    ListedHasPlaces(r);
  }

  function Empty(): Ring {
    Ring(map[], [], {}, [])
  }

  /** It does fail: a joins, b twice, b leaves and c joins, and any rumor that starts at the second place,
      from nowhere or from a socket still there, meets the place that b left behind. */
  lemma SomePanic(a: string, b: string, c: string, key: string) returns (r: Ring)
    requires a != b && b != c && c != a && b != ""
    ensures r == Added(Removed(Added(Added(Added(Empty(), a), b), b), b), c)
    ensures Listed(r) && Panics(r, key, None, 1) && Panics(r, key, Some(a), 1) && Panics(r, key, Some(c), 1)
  {
    LeftBehind(a, b);
    r := Added(Removed(Added(Added(Added(Empty(), a), b), b), b), c);
    assert r.socketIDs == [a, b, c] && r.store == {a, c};
    assert r.socketIDs[1] == b && |r.store| == 2;
  }

  lemma LeftBehind(a: string, b: string)
    requires a != b
    ensures Removed(Added(Added(Added(Empty(), a), b), b), b) == Empty().(socketIDs := [a, b], store := {a})
  {
    var twice := Added(Added(Added(Empty(), a), b), b);
    assert twice.socketIDs == [a, b, b] && LastIndex([a, b, b], b) == 2;
    assert twice.socketIDs[..2] == [a, b] && twice.socketIDs[3..] == [];
  }

  /** A sound ring always has a socket to send to. */
  lemma SoundNeverPanics(r: Ring, key: string, socket: Option<string>, pick: nat)
    requires Valid(r)
    ensures Listed(r) && !Panics(r, key, socket, pick)
  {
    if r.store != {} {
      assert r.socketIDs[Stand(r, key, socket, pick).index] in r.socketIDs;
    }
  }

  // ---------- Runs ----------

  datatype Op = Rumor(key: string, socket: Option<string>, pick: nat) | Join(id: string) | Leave(id: string)

  ghost predicate Allowed(r: Ring, o: Op) {
    o.Join? ==> o.id !in r.store
  }

  ghost function Step(r: Ring, o: Op): Ring
    requires Valid(r)
  {
    match o
    case Rumor(key, socket, pick) => Send(r, key, socket, pick)
    case Join(id) => Added(r, id)
    case Leave(id) => Removed(r, id)
  }

  lemma StepKeeps(r: Ring, o: Op)
    requires Valid(r) && Allowed(r, o)
    ensures Valid(Step(r, o))
  {
    match o
    case Rumor(_, _, _) =>
    case Join(id) => UpsertKeeps(r, id);
    case Leave(id) => DeleteKeeps(r, id);
  }

  /** From a sound ring, ids that join are fresh; the steps are those of the ring. */
  ghost predicate IsRun(run: seq<Ring>, ops: seq<Op>) {
    |run| == |ops| + 1 && Valid(run[0]) && forall k :: 0 <= k < |ops| ==> Turn(run, ops, k)
  }

  ghost predicate Turn(run: seq<Ring>, ops: seq<Op>, k: nat)
    requires k < |ops| && |run| == |ops| + 1
  {
    Allowed(run[k], ops[k]) && (Valid(run[k]) ==> run[k + 1] == Step(run[k], ops[k]))
  }

  /** In every state of every run every place in the ring has a socket. */
  lemma {:induction false} RunValid(run: seq<Ring>, ops: seq<Op>, k: nat)
    requires IsRun(run, ops) && k <= |ops|
    ensures Valid(run[k])
  {
    if k > 0 {
      RunValid(run, ops, k - 1);
      assert Turn(run, ops, k - 1);
      StepKeeps(run[k - 1], ops[k - 1]);
    }
  }

  function Targets(sent: seq<Delivery>, key: string): seq<string> {
    if sent == [] then [] else
      Targets(sent[..|sent| - 1], key) +
      if sent[|sent| - 1].key == key then [sent[|sent| - 1].to] else []
  }

  /** The first call for a rumor that has been sent to no one. */
  ghost predicate Fresh(r: Ring, o: Op) {
    o.Rumor? && r.store != {} && o.key !in r.rState && Targets(r.sent, o.key) == []
  }

  /** While a rumor has a cursor, nothing it has been sent to is its banned socket. */
  ghost predicate Spared(r: Ring, key: string, banned: string) {
    key in r.rState && r.rState[key].bannedSocket == banned && banned !in Targets(r.sent, key)
  }

  lemma RingStep(i: nat, n: nat)
    requires i < n
    ensures (i + 1) % n == NextPlace(i, n)
    ensures i % n == i
  {
  }

  lemma TargetsSnoc(sent: seq<Delivery>, d: Delivery, key: string)
    ensures Targets(sent + [d], key) == Targets(sent, key) + if d.key == key then [d.to] else []
  {
    assert (sent + [d])[..|sent|] == sent;
  }

  /** Past the banned place the call stands on another one, unless there is no other. */
  lemma SkippedIsNotBanned(c: RumorState, ids: seq<string>)
    requires NoDup(ids) && c.index < |ids|
    ensures var d := Skipped(c, ids, |ids|); d.counter < |ids| ==> ids[d.index] != c.bannedSocket
  {
  }

  lemma SendSpares(r: Ring, key: string, banned: string, o: Op)
    requires Valid(r) && o.Rumor?
    requires Spared(r, key, banned) || (o.key == key && Fresh(r, o) && o.socket == Some(banned))
    ensures Spared(Step(r, o), key, banned)
  {
    if r.store != {} {
      var c := Stand(r, o.key, o.socket, o.pick);
      SkippedIsNotBanned(Cursor(r, o.key, o.socket, o.pick), r.socketIDs);
      TargetsSnoc(r.sent, Delivery(o.key, r.socketIDs[c.index]), key);
    }
  }

  /** Whatever joins, leaves or is sent in between, the socket a rumor came from is never sent it. */
  lemma {:induction false} BannedIsSpared(run: seq<Ring>, ops: seq<Op>, first: nat, banned: string, k: nat)
    requires IsRun(run, ops) && first < k <= |ops|
    requires Fresh(run[first], ops[first]) && ops[first].socket == Some(banned)
    ensures Spared(run[k], ops[first].key, banned)
  {
    var r, o, key := run[k - 1], ops[k - 1], ops[first].key;
    RunValid(run, ops, k - 1);
    assert Turn(run, ops, k - 1);
    if k - 1 > first {
      BannedIsSpared(run, ops, first, banned, k - 1);
    }
    if o.Rumor? {
      SendSpares(r, key, banned, o);
    }
  }

  // ---------- Unchanged membership ----------

  function Rotated(ids: seq<string>, start: nat): seq<string>
    requires start <= |ids|
  {
    ids[start..] + ids[..start]
  }

  /** The order in which the ring is to be walked: from the start, around once, past the banned. */
  function Order(ids: seq<string>, start: nat, banned: string): seq<string>
    requires start <= |ids|
  {
    Without(Rotated(ids, start), banned)
  }

  function Min(a: nat, b: nat): nat { if a < b then a else b }

  /** A place at most once around the ring. */
  function Wrapped(x: nat, n: nat): (p: nat)
    requires x < 2 * n
    ensures p < n
  {
    if x < n then x else x - n
  }

  /** The cursor c, and what has been sent, after `c.counter` places from `start`. */
  ghost predicate Walked(c: RumorState, targets: seq<string>, ids: seq<string>, start: nat) {
    start < |ids| && c.index < |ids| && (c.counter <= |ids| ==> c.index == Wrapped(start + c.counter, |ids|)) &&
    targets == Without(Rotated(ids, start)[..Min(c.counter, |ids|)], c.bannedSocket)
  }

  lemma RotatedAt(ids: seq<string>, start: nat, k: nat)
    requires start < |ids| && k < |ids|
    ensures Rotated(ids, start)[k] == ids[Wrapped(start + k, |ids|)]
  {
  }

  lemma RotatedDistinct(ids: seq<string>, start: nat)
    requires NoDup(ids) && start < |ids|
    ensures NoDup(Rotated(ids, start))
    ensures forall x :: x in Rotated(ids, start) <==> x in ids
  {
    assert ids == ids[..start] + ids[start..];
  }

  lemma WalkOne(c: RumorState, targets: seq<string>, ids: seq<string>, start: nat)
    requires NoDup(ids) && Walked(c, targets, ids, start) && c.counter < |ids|
    ensures Rotated(ids, start)[c.counter] == ids[c.index]
    ensures Walked(Moved(c, |ids|), if ids[c.index] == c.bannedSocket then targets else targets + [ids[c.index]], ids,
                   start)
  {
    var order := Rotated(ids, start);
    RotatedAt(ids, start, c.counter);
    WithoutOne(order[..c.counter], order[c.counter], c.bannedSocket);
    assert order[..c.counter + 1] == order[..c.counter] + [order[c.counter]];
  }

  lemma WalkDone(c: RumorState, targets: seq<string>, ids: seq<string>, start: nat)
    requires Walked(c, targets, ids, start) && c.counter >= |ids|
    ensures targets == Order(ids, start, c.bannedSocket)
    ensures Walked(Moved(c, |ids|), targets, ids, start)
  {
    var order := Rotated(ids, start);
    assert order[..|ids|] == order;
  }

  lemma WalkedIsPrefix(c: RumorState, targets: seq<string>, ids: seq<string>, start: nat)
    requires Walked(c, targets, ids, start)
    ensures var o := Order(ids, start, c.bannedSocket); |targets| <= |o| && targets == o[..|targets|]
  {
    var order := Rotated(ids, start);
    var k := Min(c.counter, |ids|);
    assert order == order[..k] + order[k..];
    WithoutConcat(order[..k], order[k..], c.bannedSocket);
  }

  ghost predicate Tracked(r: Ring, key: string, start: nat, banned: string, calls: nat) {
    key in r.rState && r.rState[key].bannedSocket == banned &&
    Walked(r.rState[key], Targets(r.sent, key), r.socketIDs, start) &&
    |Targets(r.sent, key)| == Min(calls, |Order(r.socketIDs, start, banned)|)
  }

  /** The heart of a call: it skips the banned place if it stands there, then sends one more or is done. */
  lemma WalkCall(c: RumorState, targets: seq<string>, ids: seq<string>, start: nat)
    requires NoDup(ids) && Walked(c, targets, ids, start)
    ensures var d := Skipped(c, ids, |ids|);
      var o := Order(ids, start, c.bannedSocket);
      if d.counter >= |ids| then Walked(d, targets, ids, start) && targets == o
      else Walked(Moved(d, |ids|), targets + [ids[d.index]], ids, start) && |targets| < |o|
  {
    var d := Skipped(c, ids, |ids|);
    if ids[c.index] == c.bannedSocket {
      if c.counter < |ids| { WalkOne(c, targets, ids, start); } else { WalkDone(c, targets, ids, start); }
    }
    assert Walked(d, targets, ids, start);
    if d.counter >= |ids| {
      WalkDone(d, targets, ids, start);
    } else {
      WalkOne(d, targets, ids, start);
      assert ids[d.index] != d.bannedSocket;
      WalkedIsPrefix(Moved(d, |ids|), targets + [ids[d.index]], ids, start);
    }
  }

  lemma OtherSendTracks(r: Ring, key: string, o: Op)
    requires Valid(r) && o.Rumor? && r.store != {} && o.key != key && key in r.rState
    ensures Step(r, o).socketIDs == r.socketIDs && Step(r, o).store == r.store
    ensures key in Step(r, o).rState && Step(r, o).rState[key] == r.rState[key]
    ensures Targets(Step(r, o).sent, key) == Targets(r.sent, key)
  {
    SoundNeverPanics(r, o.key, o.socket, o.pick);
    var c := Stand(r, o.key, o.socket, o.pick);
    TargetsSnoc(r.sent, Delivery(o.key, r.socketIDs[c.index]), key);
  }

  lemma SendStays(r: Ring, o: Op)
    requires Valid(r) && o.Rumor?
    ensures Step(r, o).socketIDs == r.socketIDs && Step(r, o).store == r.store
  {
  }

  lemma OwnSendTracks(r: Ring, start: nat, banned: string, calls: nat, o: Op)
    requires Valid(r) && o.Rumor? && r.store != {}
    requires Tracked(r, o.key, start, banned, calls)
    ensures Tracked(Step(r, o), o.key, start, banned, calls + 1)
  {
    var ids := r.socketIDs;
    var was := Cursor(r, o.key, o.socket, o.pick);
    var c := Skipped(was, ids, |ids|);
    SoundNeverPanics(r, o.key, o.socket, o.pick);
    TargetsSnoc(r.sent, Delivery(o.key, ids[c.index]), o.key);
    RingStep(r.rState[o.key].index, |ids|);
    assert was == r.rState[o.key];
    var targets := Targets(r.sent, o.key);
    WalkCall(was, targets, ids, start);
    if c.counter < |ids| {
      assert Targets(Step(r, o).sent, o.key) == targets + [ids[c.index]];
      WalkedIsPrefix(Moved(c, |ids|), targets + [ids[c.index]], ids, start);
    }
  }

  lemma SendTracks(r: Ring, key: string, start: nat, banned: string, calls: nat, o: Op)
    requires Valid(r) && o.Rumor? && r.store != {}
    requires Tracked(r, key, start, banned, calls)
    ensures Tracked(Step(r, o), key, start, banned, if o.key == key then calls + 1 else calls)
  {
    if o.key == key { OwnSendTracks(r, start, banned, calls, o); } else { OtherSendTracks(r, key, o); }
  }

  lemma FirstSendTracks(r: Ring, o: Op)
    requires Valid(r) && Fresh(r, o)
    ensures var c := Cursor(r, o.key, o.socket, o.pick);
      c.index < |r.socketIDs| && Tracked(Step(r, o), o.key, c.index, c.bannedSocket, 1)
  {
    var ids := r.socketIDs;
    var was := Cursor(r, o.key, o.socket, o.pick);
    var c := Skipped(was, ids, |ids|);
    SoundNeverPanics(r, o.key, o.socket, o.pick);
    TargetsSnoc(r.sent, Delivery(o.key, ids[c.index]), o.key);
    assert Walked(was, [], ids, was.index);
    WalkCall(was, [], ids, was.index);
  }

  ghost predicate OnlyRumors(ops: seq<Op>) {
    forall k :: 0 <= k < |ops| ==> ops[k].Rumor?
  }

  function Calls(ops: seq<Op>, key: string): nat {
    if ops == [] then 0 else
      Calls(ops[..|ops| - 1], key) +
      if ops[|ops| - 1].Rumor? && ops[|ops| - 1].key == key then 1 else 0
  }

  lemma CallsStep(ops: seq<Op>, key: string, k: nat)
    requires k < |ops| && ops[k].Rumor?
    ensures Calls(ops[..k + 1], key) == Calls(ops[..k], key) + if ops[k].key == key then 1 else 0
  {
    assert ops[..k + 1][..k] == ops[..k];
  }

  /** With unchanged membership, calls for other rumors in between and any later socket arguments,
      the calls for one rumor walk the ring: after `Calls` of them exactly that many of the
      sockets in order have it, each once, until all but the banned one do, and then none more. */
  lemma {:induction false} RingReachesAll(run: seq<Ring>, ops: seq<Op>, key: string, k: nat)
    requires IsRun(run, ops) && 0 < k <= |ops| && OnlyRumors(ops)
    requires ops[0].key == key && Fresh(run[0], ops[0])
    ensures var c := Cursor(run[0], key, ops[0].socket, ops[0].pick);
      var ids := run[0].socketIDs;
      c.index < |ids| && run[k].socketIDs == ids && run[k].store == run[0].store &&
      Tracked(run[k], key, c.index, c.bannedSocket, Calls(ops[..k], key))
  {
    RunValid(run, ops, k - 1);
    assert Turn(run, ops, k - 1);
    SendStays(run[k - 1], ops[k - 1]);
    CallsStep(ops, key, k - 1);
    if k == 1 {
      assert ops[..0] == [];
      FirstSendTracks(run[0], ops[0]);
    } else {
      RingReachesAll(run, ops, key, k - 1);
      var c := Cursor(run[0], key, ops[0].socket, ops[0].pick);
      SendTracks(run[k - 1], key, c.index, c.bannedSocket, Calls(ops[..k - 1], key), ops[k - 1]);
    }
  }

  /** What that order is worth: it lists every socket but the banned one, once. */
  lemma OrderIsEveryone(ids: seq<string>, start: nat, banned: string)
    requires NoDup(ids) && start < |ids|
    ensures NoDup(Order(ids, start, banned))
    ensures forall x :: x in Order(ids, start, banned) <==> x in ids && x != banned
    ensures |Order(ids, start, banned)| <= |ids|
  {
    RotatedDistinct(ids, start);
    WithoutDistinct(Rotated(ids, start), banned);
    WithoutShorter(Rotated(ids, start), banned);
    forall x
      ensures x in Order(ids, start, banned) <==> x in ids && x != banned
    {
      WithoutHas(Rotated(ids, start), banned, x);
    }
  }

  lemma {:induction false} WithoutShorter(s: seq<string>, x: string)
    ensures |Without(s, x)| <= |s|
  {
    if s != [] { WithoutShorter(s[..|s| - 1], x); }
  }

  /** As many calls as there are sockets suffice, whatever else is sent in between. */
  lemma EveryoneIsReached(run: seq<Ring>, ops: seq<Op>, key: string, k: nat)
    requires IsRun(run, ops) && 0 < k <= |ops| && OnlyRumors(ops)
    requires ops[0].key == key && Fresh(run[0], ops[0])
    ensures NoDup(Targets(run[k].sent, key))
    ensures Calls(ops[..k], key) >= |run[0].socketIDs| ==>
      forall x :: x in Targets(run[k].sent, key) <==>
        x in run[0].socketIDs && x != Cursor(run[0], key, ops[0].socket, ops[0].pick).bannedSocket
  {
    var c := Cursor(run[0], key, ops[0].socket, ops[0].pick);
    var ids := run[0].socketIDs;
    RingReachesAll(run, ops, key, k);
    OrderIsEveryone(ids, c.index, c.bannedSocket);
    WalkedIsPrefix(run[k].rState[key], Targets(run[k].sent, key), ids, c.index);
  }

  // ---------- The key of a rumor ----------

  function Digits(n: nat): (s: string)
    ensures |s| > 0 && forall c :: c in s ==> '0' <= c <= '9'
  {
    if n < 10 then ['0' + n as char] else Digits(n / 10) + ['0' + (n % 10) as char]
  }

  /** The key is the sender and the rumor's number with nothing between them. */
  function Key(sender: string, id: nat): string {
    sender + Digits(id)
  }

  lemma {:induction false} DigitsInjective(a: nat, b: nat)
    requires Digits(a) == Digits(b)
    ensures a == b
  {
    var x, y := Digits(a), Digits(b);
    assert x[|x| - 1] == '0' + (a % 10) as char && y[|y| - 1] == '0' + (b % 10) as char;
    if a >= 10 && b >= 10 {
      assert x[..|x| - 1] == Digits(a / 10) && y[..|y| - 1] == Digits(b / 10);
      DigitsInjective(a / 10, b / 10);
    }
  }

  /** Senders of one length (as encoded public keys are) never share a key. */
  lemma KeyInjective(s: string, i: nat, t: string, j: nat)
    requires |s| == |t|
    ensures Key(s, i) == Key(t, j) <==> s == t && i == j
  {
    if Key(s, i) == Key(t, j) {
      assert Key(s, i)[..|s|] == s && Key(t, j)[..|t|] == t;
      assert Key(s, i)[|s|..] == Digits(i) && Key(t, j)[|t|..] == Digits(j);
      DigitsInjective(i, j);
    }
  }

  lemma {:induction false} NoLeadingZero(n: nat)
    ensures Digits(n)[0] == '0' <==> n == 0
    ensures n == 0 ==> |Digits(n)| == 1
  {
    if n < 10 {
      assert n > 0 ==> '0' + n as char != '0';
    } else {
      NoLeadingZero(n / 10);
    }
  }

  ghost predicate AllDigits(d: string) {
    forall k :: 0 <= k < |d| ==> '0' <= d[k] <= '9'
  }

  ghost function Number(d: string): nat
    requires AllDigits(d)
  {
    if d == [] then 0 else 10 * Number(d[..|d| - 1]) + (d[|d| - 1] - '0') as nat
  }

  /** A digit string that does not start with a zero is how its number is written. */
  lemma {:induction false} WrittenNumber(d: string)
    requires AllDigits(d) && d != [] && d[0] != '0'
    ensures Number(d) > 0 && Digits(Number(d)) == d
  {
    var init, last := d[..|d| - 1], (d[|d| - 1] - '0') as nat;
    assert d == init + [d[|d| - 1]];
    assert '0' + last as char == d[|d| - 1];
    if init == [] {
      assert Number(init) == 0;
    } else {
      WrittenNumber(init);
      assert Number(d) / 10 == Number(init) && Number(d) % 10 == last;
    }
  }

  /** t is s with a number written behind it. */
  ghost predicate Extends(s: string, t: string) {
    |s| < |t| && t[..|s|] == s && AllDigits(t[|s|..]) && t[|s|] != '0'
  }

  ghost predicate Collide(s: string, t: string) {
    exists i: nat, j: nat :: Key(s, i) == Key(t, j)
  }

  lemma CollidingExtends(s: string, i: nat, t: string, j: nat)
    requires |s| < |t| && Key(s, i) == Key(t, j)
    ensures Extends(s, t)
  {
    var key, n := Key(s, i), |t| - |s|;
    assert key[..|s|] == s && key[..|t|] == t && key[|s|..] == Digits(i);
    assert t[..|s|] == key[..|t|][..|s|] == key[..|s|];
    assert |Digits(i)| == n + |Digits(j)|;
    forall k | 0 <= k < n ensures '0' <= t[|s|..][k] <= '9' {
      assert t[|s|..][k] == Digits(i)[k];
      assert Digits(i)[k] in Digits(i);
    }
    NoLeadingZero(i);
    assert t[|s|] == Digits(i)[0];
  }

  lemma ExtendedCollides(s: string, t: string)
    requires Extends(s, t)
    ensures Collide(s, t)
  {
    var d := t[|s|..];
    WrittenNumber(d);
    assert d + Digits(0) == Digits(10 * Number(d));
    assert t == s + d;
    assert Key(s, 10 * Number(d)) == Key(t, 0);
  }

  /** Two senders can share a key exactly when one is the other with a number written behind it. */
  lemma CollideExactly(s: string, t: string)
    requires s != t
    ensures Collide(s, t) <==> Extends(s, t) || Extends(t, s)
  {
    if i: nat, j: nat :| Key(s, i) == Key(t, j) {
      if |s| < |t| {
        CollidingExtends(s, i, t, j);
      } else if |t| < |s| {
        CollidingExtends(t, j, s, i);
      } else {
        KeyInjective(s, i, t, j);
      }
    }
    if Extends(s, t) { ExtendedCollides(s, t); }
    if Extends(t, s) {
      ExtendedCollides(t, s);
      var j: nat, i: nat :| Key(t, j) == Key(s, i);
      assert Key(s, i) == Key(t, j);
    }
  }
}
