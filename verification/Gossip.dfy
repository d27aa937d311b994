/** Rumor gossip among any number of servers with their tables: it refines the broadcast protocol. */
module Gossip {
  import opened Basics
  import opened RumorTables
  import opened RumorInvariant
  import opened RumorSteps
  import B = CausalBroadcast

  type Rumor = B.Rumor

  datatype Node = Node(t: Tables, pending: set<Rumor>)

  datatype System = System(nodes: map<Sender, Node>, net: set<Rumor>, log: seq<Rumor>)

  datatype Step =
    | Handle(p: Sender, post: Post)
    | Publish(p: Sender, m: MsgId)
    | Send(p: Sender)
    | Replay(p: Sender, params: Params)
    | Check(p: Sender, r: Rumor)
    | Store(p: Sender, r: Rumor, unprocessed: seq<Post>, processed: seq<MsgId>)
    | Restart(p: Sender)

  // ---------------------------------------------------------------- transitions

  /** The messages GetAndIncrementMyRumor finds in the draft. */
  ghost function DraftMsgs(t: Tables): set<MsgId>
    requires HasDraft(t)
  {
    set post | post in ProcessedRows(t, Draft(t)) :: post.msg
  }

  ghost function Broadcast(t: Tables): Rumor
    requires HasDraft(t)
  {
    B.Rumor(Draft(t), Vector(t), DraftMsgs(t))
  }

  /** The messages of `r` as the receiver sorted them: handled, or left for later. */
  ghost predicate Splits(t: Tables, r: Rumor, unprocessed: seq<Post>, processed: seq<MsgId>) {
    && DistinctMsgs(unprocessed) && NoDup(processed)
    && r.msgs == MsgsOf(unprocessed) + (set m | m in processed)
    && (forall m :: m in processed ==> OnBase(t, m) && m !in MsgsOf(unprocessed))
  }

  /** A rejected insert rolls the tables back; either way the rumor is dealt with. */
  ghost function Stored(n: Node, r: Rumor, unprocessed: seq<Post>, processed: seq<MsgId>): Node {
    var t' := StoreRumor(n.t, r.key, r.ts, unprocessed, processed);
    Node(if t'.Some? then t'.value else n.t, n.pending - {r})
  }

  ghost function With(s: System, p: Sender, n: Node): System {
    s.(nodes := s.nodes[p := n])
  }

  ghost predicate TakenBy(s: System, n: Node, step: Step, s': System)
    requires HasDraft(n.t)
  {
    match step
    case Handle(p, post) =>
      StoreMessage(n.t, post).Some? && s' == With(s, p, n.(t := StoreMessage(n.t, post).value))
    case Publish(p, m) =>
      OnBase(n.t, m) && AddMessage(n.t, m).Some? && s' == With(s, p, n.(t := AddMessage(n.t, m).value))
    case Send(p) =>
      && DraftMsgs(n.t) != {} && FreezeDraft(n.t).Some?
      && s' == System(s.nodes[p := n.(t := FreezeDraft(n.t).value)], s.net + {Broadcast(n.t)}, s.log + [Broadcast(n.t)])
    case Replay(p, params) =>
      && params.key != Draft(n.t) && Rebuilds(n.t, params.key, params)
      && s' == s.(net := s.net + {B.Rumor(params.key, params.ts, MsgsOf(params.messages))})
    case Check(p, r) =>
      r in s.net && NextInLine(r.key, r.ts, Vector(n.t)) && s' == With(s, p, n.(pending := n.pending + {r}))
    case Store(p, r, unprocessed, processed) =>
      r in n.pending && Splits(n.t, r, unprocessed, processed) && s' == With(s, p, Stored(n, r, unprocessed, processed))
    case Restart(p) =>
      s' == With(s, p, Node(StoreFirstRumor(n.t), {}))
  }

  ghost predicate Taken(s: System, step: Step, s': System) {
    step.p in s.nodes && HasDraft(s.nodes[step.p].t) && TakenBy(s, s.nodes[step.p], step, s')
  }

  ghost predicate Next(s: System, s': System) {
    s == s' || exists step :: Taken(s, step, s')
  }

  ghost predicate JustStarted(p: Sender, n: Node) {
    n == Node(StoreFirstRumor(EmptyTables(p)), {})
  }

  ghost predicate Init(s: System) {
    && s.net == {} && s.log == []
    && forall p {:trigger JustStarted(p, s.nodes[p])} :: p in s.nodes ==> JustStarted(p, s.nodes[p])
  }

  ghost predicate IsRun(run: seq<System>) {
    && 0 < |run| && Init(run[0])
    && forall i :: 0 <= i < |run| - 1 ==> NextAt(run, i)
  }

  ghost predicate NextAt(run: seq<System>, i: int)
    requires 0 <= i < |run| - 1
  {
    Next(run[i], run[i + 1])
  }

  // ------------------------------------------------------- view of the tables

  ghost function RumorOf(t: Tables, k: Key): Rumor
    requires k in t.rumor && t.rumor[k].Json?
  {
    B.Rumor(k, t.rumor[k].ts, Content(t, k))
  }

  ghost function Held(t: Tables): map<Key, Rumor>
    requires HasDraft(t)
  {
    map k | k in Finished(t) && t.rumor[k].Json? :: RumorOf(t, k)
  }

  ghost function SiteOf(n: Node): B.Site
    requires HasDraft(n.t)
  {
    B.Site(Held(n.t), n.pending)
  }

  /** What the protocol sees of a server in order. */
  ghost predicate NodeSeen(p: Sender, n: Node, site: B.Site) {
    n.t.me == p && Valid(n.t) && site == SiteOf(n)
  }

  ghost predicate Seen(s: System, v: B.State) {
    && v.net == s.net && v.log == s.log && v.sites.Keys == s.nodes.Keys
    && forall p {:trigger NodeSeen(p, s.nodes[p], v.sites[p])} :: p in s.nodes ==> NodeSeen(p, s.nodes[p], v.sites[p])
  }

  /** The system is in order, and `v` is the protocol's view of it. */
  ghost predicate Inv(s: System, v: B.State) {
    Seen(s, v) && B.Inv(v)
  }

  lemma HeldIsFinished(t: Tables)
    requires Valid(t)
    ensures Held(t).Keys == Finished(t)
  {
  }

  lemma HeldAt(t: Tables, k: Key)
    requires Valid(t) && k in Finished(t)
    ensures k in Held(t) && t.rumor[k].Json? && Held(t)[k] == RumorOf(t, k)
  {
  }

  lemma HeldKept(t: Tables, t': Tables)
    requires Valid(t) && Valid(t') && Preserves(t, t') && Finished(t') == Finished(t)
    ensures Held(t') == Held(t)
  {
  }

  ghost predicate Gains(t: Tables, t': Tables, r: Rumor) {
    && Valid(t) && Valid(t') && Preserves(t, t') && Finished(t') == Finished(t) + {r.key}
    && t'.rumor[r.key] == Json(r.ts) && Content(t', r.key) == r.msgs
  }

  lemma HeldNow(t: Tables, t': Tables, r: Rumor, k: Key)
    requires Gains(t, t', r) && k in Finished(t')
    ensures k in Held(t') && if k == r.key then Held(t')[k] == r else k in Held(t) && Held(t')[k] == Held(t)[k]
  {
    HeldAt(t', k);
    if k != r.key { HeldAt(t, k); }
  }

  lemma HeldGains(t: Tables, t': Tables, r: Rumor)
    requires Gains(t, t', r) && r.key !in Finished(t)
    ensures Held(t') == Held(t)[r.key := r]
  {
    HeldIsFinished(t);
    HeldIsFinished(t');
    HeldNow(t, t', r, r.key);
    forall k | k in Held(t) ensures k in Held(t') && Held(t')[k] == Held(t)[k] {
      HeldNow(t, t', r, k);
    }
    OneMoreEntry(Held(t), Held(t'), r.key, r);
  }

  lemma OneMoreEntry<K, V>(a: map<K, V>, b: map<K, V>, k: K, v: V)
    requires b.Keys == a.Keys + {k} && b[k] == v
    requires forall j :: j in a && j != k ==> b[j] == a[j]
    ensures b == a[k := v]
  {
  }

  /** A step that changes the node of `p` alone, as the protocol sees it. */
  lemma SeenWith(s: System, v: B.State, p: Sender, n': Node, site': B.Site)
    requires Seen(s, v) && p in s.nodes && NodeSeen(p, n', site')
    ensures Seen(With(s, p, n'), B.With(v, p, site'))
  {
    forall q | q in s.nodes && q != p
      ensures NodeSeen(q, s.nodes[q], v.sites[q])
    {
    }
  }

  // --------------------------------------------------------------- refinement

  lemma FirstNodeSeen(p: Sender, n: Node)
    requires JustStarted(p, n)
    ensures NodeSeen(p, n, B.Site(map[], {}))
  {
    FirstStartIsValid(p);
    HeldIsFinished(n.t);
  }

  lemma InitInv(s: System) returns (v: B.State)
    requires Init(s)
    ensures Inv(s, v)
  {
    v := B.InitialState(s.nodes.Keys);
    B.InitialInv(s.nodes.Keys);
    forall p | p in s.nodes
      ensures NodeSeen(p, s.nodes[p], v.sites[p])
    {
      assert JustStarted(p, s.nodes[p]);
      FirstNodeSeen(p, s.nodes[p]);
    }
  }

  lemma DraftContent(t: Tables)
    requires Valid(t)
    ensures DraftMsgs(t) == Content(t, Draft(t))
  {
    forall m
      ensures m in DraftMsgs(t) <==> m in Content(t, Draft(t))
    {
      ContentIsRows(t, Draft(t), m);
    }
  }

  /** The stamp taken when sending counts exactly the rumors finished at that moment. */
  lemma StampIsExact(t: Tables)
    requires Valid(t)
    ensures forall k {:trigger InPast(k, Vector(t))} :: InPast(k, Vector(t)) <==> k in Finished(t)
    ensures B.StampOk(Broadcast(t))
  {
    forall k
      ensures InPast(k, Vector(t)) <==> k in Finished(t)
      ensures k.sender in Vector(t) ==> 0 <= Vector(t)[k.sender]
    {
      VectorExact(t, k);
    }
    forall s | s in Vector(t)
      ensures 0 <= Vector(t)[s]
    {
      VectorExact(t, Key(0, s));
    }
    StateOf(t.rumor, t.me);
  }

  lemma SendSeen(p: Sender, n: Node, site: B.Site)
    requires NodeSeen(p, n, site)
    ensures FreezeDraft(n.t).Some?
    ensures var r := Broadcast(n.t);
            && NodeSeen(p, n.(t := FreezeDraft(n.t).value), site.(held := site.held[r.key := r]))
            && r.key.sender == p && r.key !in site.held && B.StampOk(r)
            && (forall k {:trigger InPast(k, r.ts)} :: InPast(k, r.ts) <==> k in site.held)
  {
    FreezeSucceeds(n.t);
    var t' := FreezeDraft(n.t).value;
    FreezeKeeps(n.t, t');
    DraftContent(n.t);
    StampIsExact(n.t);
    HeldIsFinished(n.t);
    HeldGains(n.t, t', Broadcast(n.t));
  }

  lemma SendRefines(s: System, v: B.State, p: Sender, s': System) returns (v': B.State)
    requires Inv(s, v) && Taken(s, Send(p), s')
    ensures Seen(s', v') && B.Happens(v, B.Sends(p, Broadcast(s.nodes[p].t)), v')
  {
    var n, site := s.nodes[p], v.sites[p];
    var r := Broadcast(n.t);
    assert NodeSeen(p, n, site);
    SendSeen(p, n, site);
    var site' := site.(held := site.held[r.key := r]);
    SeenWith(s, v, p, n.(t := FreezeDraft(n.t).value), site');
    v' := B.State(v.sites[p := site'], v.net + {r}, v.log + [r]);
    var kept := With(s, p, n.(t := FreezeDraft(n.t).value));
    SeenSame(kept, B.With(v, p, site'), s', v');
  }

  lemma SeenSame(s: System, v: B.State, s': System, v': B.State)
    requires Seen(s, v) && s'.nodes == s.nodes && v'.sites == v.sites
    requires v'.net == s'.net && v'.log == s'.log
    ensures Seen(s', v')
  {
    forall q | q in s.nodes
      ensures NodeSeen(q, s'.nodes[q], v'.sites[q])
    {
      assert NodeSeen(q, s.nodes[q], v.sites[q]);
    }
  }

  /** A rumor read back from the tables is the rumor held. */
  lemma ReplaySeen(p: Sender, n: Node, site: B.Site, params: Params)
    requires NodeSeen(p, n, site) && params.key != Draft(n.t) && Rebuilds(n.t, params.key, params)
    ensures params.key in site.held
    ensures site.held[params.key] == B.Rumor(params.key, params.ts, MsgsOf(params.messages))
  {
    RebuiltExactly(n.t, params.key, params);
    HeldIsFinished(n.t);
  }

  lemma ReplayRefines(s: System, v: B.State, p: Sender, params: Params, s': System) returns (v': B.State)
    requires Inv(s, v) && Taken(s, Replay(p, params), s')
    ensures Seen(s', v') && B.Happens(v, B.Resends(p, params.key), v')
  {
    assert NodeSeen(p, s.nodes[p], v.sites[p]);
    ReplaySeen(p, s.nodes[p], v.sites[p], params);
    v' := v.(net := v.net + {v.sites[p].held[params.key]});
    SeenSame(s, v, s', v');
  }

  /** A rumor that passes the check has its whole causal past stored. */
  lemma CheckFindsPast(t: Tables, r: Rumor)
    requires Valid(t) && B.StampOk(r) && NextInLine(r.key, r.ts, Vector(t))
    ensures forall j {:trigger InPast(j, r.ts)} :: InPast(j, r.ts) ==> j in Finished(t)
  {
    CheckMeansStored(t, r.key, r.ts);
    forall j | InPast(j, r.ts)
      ensures j in Finished(t)
    {
      if j.sender == r.key.sender {
        VectorExact(t, Key(r.key.id - 1, r.key.sender));
        VectorExact(t, j);
      }
    }
  }

  lemma CheckRefines(s: System, v: B.State, p: Sender, r: Rumor, s': System) returns (v': B.State)
    requires Inv(s, v) && Taken(s, Check(p, r), s')
    ensures Seen(s', v') && B.Happens(v, B.Accepts(p, r), v')
  {
    var n, site := s.nodes[p], v.sites[p];
    assert NodeSeen(p, n, site);
    B.LoggedStampOk(v.log, r);
    CheckFindsPast(n.t, r);
    HeldIsFinished(n.t);
    var site' := site.(pending := site.pending + {r});
    SeenWith(s, v, p, n.(pending := n.pending + {r}), site');
    v' := B.With(v, p, site');
  }

  lemma StoreSeen(p: Sender, n: Node, site: B.Site, r: Rumor, unprocessed: seq<Post>, processed: seq<MsgId>)
    requires NodeSeen(p, n, site) && Splits(n.t, r, unprocessed, processed)
    requires r.key.sender != p && 0 <= r.key.id && (r.key.id > 0 ==> Key(r.key.id - 1, r.key.sender) in site.held)
    requires StoreRumor(n.t, r.key, r.ts, unprocessed, processed).Some?
    ensures r.key !in site.held
    ensures NodeSeen(p, Stored(n, r, unprocessed, processed), B.Site(site.held[r.key := r], site.pending - {r}))
  {
    var t' := StoreRumor(n.t, r.key, r.ts, unprocessed, processed).value;
    HeldIsFinished(n.t);
    StoreRumorKeeps(n.t, r.key, r.ts, unprocessed, processed, t');
    HeldGains(n.t, t', r);
  }

  /** A rumor whose insert is rejected is dropped; any other is held from now on. */
  lemma StoreChoice(v: B.State, p: Sender, n: Node, r: Rumor, unprocessed: seq<Post>, processed: seq<MsgId>)
    returns (site': B.Site)
    requires B.Inv(v) && p in v.sites && NodeSeen(p, n, v.sites[p])
    requires r in n.pending && Splits(n.t, r, unprocessed, processed)
    ensures NodeSeen(p, Stored(n, r, unprocessed, processed), site')
    ensures site' == v.sites[p].(pending := n.pending - {r})
         || (r.key !in v.sites[p].held && site' == B.Site(v.sites[p].held[r.key := r], n.pending - {r}))
  {
    var site := v.sites[p];
    if StoreRumor(n.t, r.key, r.ts, unprocessed, processed).Some? {
      NotHeld(p, n, site, r.key);
      NewcomerIsNext(v, p, r);
      StoreSeen(p, n, site, r, unprocessed, processed);
      site' := B.Site(site.held[r.key := r], n.pending - {r});
    } else {
      site' := site.(pending := n.pending - {r});
    }
  }

  lemma NotHeld(p: Sender, n: Node, site: B.Site, k: Key)
    requires NodeSeen(p, n, site) && k !in n.t.rumor
    ensures k !in site.held
  {
    HeldIsFinished(n.t);
  }

  lemma StoreHappens(s: System, v: B.State, p: Sender, r: Rumor, n': Node, site': B.Site)
    requires Seen(s, v) && p in s.nodes && r in v.sites[p].pending && NodeSeen(p, n', site')
    requires site' == v.sites[p].(pending := v.sites[p].pending - {r})
          || (r.key !in v.sites[p].held && site' == B.Site(v.sites[p].held[r.key := r], v.sites[p].pending - {r}))
    ensures Seen(With(s, p, n'), B.With(v, p, site'))
    ensures B.Happens(v, B.Stores(p, r), B.With(v, p, site'))
         || B.Happens(v, B.Forgets(p, v.sites[p].pending - {r}), B.With(v, p, site'))
  {
    SeenWith(s, v, p, n', site');
  }

  lemma StoreRefines(s: System, v: B.State, p: Sender, r: Rumor, unprocessed: seq<Post>, processed: seq<MsgId>)
    returns (v': B.State)
    requires Inv(s, v) && p in s.nodes && HasDraft(s.nodes[p].t)
    requires r in s.nodes[p].pending && Splits(s.nodes[p].t, r, unprocessed, processed)
    ensures Seen(With(s, p, Stored(s.nodes[p], r, unprocessed, processed)), v')
    ensures B.Happens(v, B.Stores(p, r), v') || B.Happens(v, B.Forgets(p, v.sites[p].pending - {r}), v')
  {
    var n := s.nodes[p];
    assert NodeSeen(p, n, v.sites[p]);
    var site' := StoreChoice(v, p, n, r, unprocessed, processed);
    StoreHappens(s, v, p, r, Stored(n, r, unprocessed, processed), site');
    v' := B.With(v, p, site');
  }

  /** A pending rumor not held yet is another server's, and the next of that server. */
  lemma NewcomerIsNext(v: B.State, p: Sender, r: Rumor)
    requires B.Inv(v) && p in v.sites && r in v.sites[p].pending && r.key !in v.sites[p].held
    ensures r.key.sender != p && 0 <= r.key.id
    ensures r.key.id > 0 ==> Key(r.key.id - 1, r.key.sender) in v.sites[p].held
  {
    assert B.SiteOk(v.log, v.sites[p]) && B.SenderHolds(v, r);
    B.LoggedStampOk(v.log, r);
    assert r.key.id > 0 ==> InPast(Key(r.key.id - 1, r.key.sender), r.ts);
  }

  lemma TablesStep(s: System, v: B.State, p: Sender, t': Tables)
    requires Inv(s, v) && p in s.nodes && HasDraft(s.nodes[p].t) && Valid(t')
    requires Preserves(s.nodes[p].t, t') && Finished(t') == Finished(s.nodes[p].t)
    ensures Seen(With(s, p, s.nodes[p].(t := t')), B.With(v, p, v.sites[p]))
    ensures B.With(v, p, v.sites[p]) == v
  {
    assert NodeSeen(p, s.nodes[p], v.sites[p]);
    HeldKept(s.nodes[p].t, t');
    SeenWith(s, v, p, s.nodes[p].(t := t'), v.sites[p]);
  }

  lemma HandleRefines(s: System, v: B.State, p: Sender, post: Post, s': System)
    requires Inv(s, v) && Taken(s, Handle(p, post), s')
    ensures Seen(s', v)
  {
    assert NodeSeen(p, s.nodes[p], v.sites[p]);
    var t' := StoreMessage(s.nodes[p].t, post).value;
    StoreMessageKeeps(s.nodes[p].t, post, t');
    TablesStep(s, v, p, t');
  }

  lemma PublishRefines(s: System, v: B.State, p: Sender, m: MsgId, s': System)
    requires Inv(s, v) && Taken(s, Publish(p, m), s')
    ensures Seen(s', v)
  {
    assert NodeSeen(p, s.nodes[p], v.sites[p]);
    var t' := AddMessage(s.nodes[p].t, m).value;
    AddMessageKeeps(s.nodes[p].t, m, t');
    TablesStep(s, v, p, t');
  }

  lemma RestartRefines(s: System, v: B.State, p: Sender, s': System) returns (v': B.State)
    requires Inv(s, v) && Taken(s, Restart(p), s')
    ensures Seen(s', v') && B.Happens(v, B.Forgets(p, {}), v')
  {
    var n, site := s.nodes[p], v.sites[p];
    assert NodeSeen(p, n, site);
    RestartChangesNothing(n.t);
    SeenWith(s, v, p, Node(n.t, {}), site.(pending := {}));
    v' := B.With(v, p, site.(pending := {}));
  }

  /** Every step of a server is a step of the broadcast protocol, or invisible to it. */
  lemma StepRefines(s: System, v: B.State, step: Step, s': System) returns (v': B.State)
    requires Inv(s, v) && Taken(s, step, s')
    ensures Seen(s', v') && B.Next(v, v')
  {
    match step
    case Handle(p, post) => HandleRefines(s, v, p, post, s'); v' := v;
    case Publish(p, m) => PublishRefines(s, v, p, m, s'); v' := v;
    case Send(p) => v' := SendRefines(s, v, p, s');
    case Replay(p, params) => v' := ReplayRefines(s, v, p, params, s');
    case Check(p, r) => v' := CheckRefines(s, v, p, r, s');
    case Store(p, r, u, done) => v' := StoreRefines(s, v, p, r, u, done);
    case Restart(p) => v' := RestartRefines(s, v, p, s');
  }

  lemma NextInv(s: System, v: B.State, s': System) returns (v': B.State)
    requires Inv(s, v) && Next(s, s')
    ensures Inv(s', v') && s.log <= s'.log && s'.nodes.Keys == s.nodes.Keys
  {
    v' := v;
    if s != s' {
      var step :| Taken(s, step, s');
      v' := StepRefines(s, v, step, s');
      B.NextInv(v, v');
    }
  }

  lemma {:induction false} Reachable(run: seq<System>, i: nat) returns (v: B.State)
    requires IsRun(run) && i < |run|
    ensures Inv(run[i], v)
  {
    if i == 0 {
      v := InitInv(run[0]);
    } else {
      v := Reachable(run, i - 1);
      assert NextAt(run, i - 1);
      v := NextInv(run[i - 1], v, run[i]);
    }
  }

  ghost predicate Grown(s: System, s': System) {
    s.log <= s'.log && s.nodes.Keys == s'.nodes.Keys
  }

  lemma GrownTwice(a: System, b: System, c: System)
    requires Grown(a, b) && Grown(b, c)
    ensures Grown(a, c)
  {
  }

  lemma StepGrows(run: seq<System>, j: nat)
    requires IsRun(run) && j < |run| - 1
    ensures Grown(run[j], run[j + 1])
  {
    var v := Reachable(run, j);
    assert NextAt(run, j);
    var v' := NextInv(run[j], v, run[j + 1]);
  }

  lemma {:induction false} LogGrows(run: seq<System>, i: nat, j: nat)
    requires IsRun(run) && i <= j < |run|
    ensures Grown(run[i], run[j])
    decreases j
  {
    if i < j {
      LogGrows(run, i, j - 1);
      StepGrows(run, j - 1);
      GrownTwice(run[i], run[j - 1], run[j]);
    }
  }

  // ------------------------------------------------------------------- theorems

  /** The broadcast of step `i` stays in the log. */
  lemma BroadcastRemembered(run: seq<System>, i: nat, q: Sender, j: nat)
    requires IsRun(run) && i < j < |run|
    requires Taken(run[i], Send(q), run[i + 1])
    ensures Broadcast(run[i].nodes[q].t) in run[j].log
  {
    LogGrows(run, i + 1, j);
    assert run[i + 1].log[|run[i].log|] == run[j].log[|run[i].log|];
  }

  /** Causal delivery: once a server holds the rumor that `q` sent at step `i`, it
      holds every rumor that `q` had finished when it sent it. */
  lemma CausalDelivery(run: seq<System>, i: nat, q: Sender, j: nat, p: Sender)
    requires IsRun(run) && i < j < |run|
    requires Taken(run[i], Send(q), run[i + 1])
    requires p in run[j].nodes && HasDraft(run[j].nodes[p].t)
    requires Draft(run[i].nodes[q].t) in Finished(run[j].nodes[p].t)
    ensures Finished(run[i].nodes[q].t) <= Finished(run[j].nodes[p].t)
  {
    BroadcastCounts(run, i, q);
    BroadcastRemembered(run, i, q, j);
    var v := Reachable(run, j);
    assert NodeSeen(p, run[j].nodes[p], v.sites[p]);
    HeldIsFinished(run[j].nodes[p].t);
    var r := Broadcast(run[i].nodes[q].t);
    B.HeldWithPast(v, p, r);
    PastContains(r.ts, Finished(run[i].nodes[q].t), Finished(run[j].nodes[p].t));
  }

  lemma BroadcastCounts(run: seq<System>, i: nat, q: Sender)
    requires IsRun(run) && i < |run| - 1 && Taken(run[i], Send(q), run[i + 1])
    ensures forall k {:trigger InPast(k, Broadcast(run[i].nodes[q].t).ts)} ::
              InPast(k, Broadcast(run[i].nodes[q].t).ts) <==> k in Finished(run[i].nodes[q].t)
  {
    var v := Reachable(run, i);
    assert NodeSeen(q, run[i].nodes[q], v.sites[q]);
    StampIsExact(run[i].nodes[q].t);
  }

  lemma PastContains(ts: Timestamp, a: set<Key>, b: set<Key>)
    requires forall k {:trigger InPast(k, ts)} :: InPast(k, ts) <==> k in a
    requires forall k {:trigger InPast(k, ts)} :: InPast(k, ts) ==> k in b
    ensures a <= b
  {
    forall k | k in a
      ensures k in b
    {
      assert InPast(k, ts) <==> k in a;
    }
  }

  /** The same at the very step that stores the rumor: its past is there before it. */
  lemma PastBeforeStore(run: seq<System>, i: nat, q: Sender, j: nat, store: Step)
    requires IsRun(run) && i < j < |run| - 1
    requires Taken(run[i], Send(q), run[i + 1])
    requires store.Store? && store.r.key == Draft(run[i].nodes[q].t)
    requires Taken(run[j], store, run[j + 1])
    ensures Finished(run[i].nodes[q].t) <= Finished(run[j].nodes[store.p].t)
  {
    BroadcastCounts(run, i, q);
    BroadcastRemembered(run, i, q, j);
    var v := Reachable(run, j);
    var n := run[j].nodes[store.p];
    assert NodeSeen(store.p, n, v.sites[store.p]);
    HeldIsFinished(n.t);
    var r := Broadcast(run[i].nodes[q].t);
    B.PendingWithPast(v, store.p, store.r, r);
    PastContains(r.ts, Finished(run[i].nodes[q].t), Finished(n.t));
  }

  /** Whatever is on the network under one key, at any two moments and whether it is
      the first broadcast or a replay by any server, is the same rumor. */
  lemma NetworkAgreement(run: seq<System>, i: nat, j: nat, a: Rumor, b: Rumor)
    requires IsRun(run) && i <= j < |run|
    requires a in run[i].net && b in run[j].net && a.key == b.key
    ensures a == b
  {
    var v := Reachable(run, i);
    var w := Reachable(run, j);
    LogGrows(run, i, j);
    B.SameKey(w.log, a, b);
  }

  lemma HeldIsLogged(run: seq<System>, i: nat, p: Sender, k: Key)
    requires IsRun(run) && i < |run| && p in run[i].nodes && HasDraft(run[i].nodes[p].t)
    requires k in Finished(run[i].nodes[p].t)
    ensures run[i].nodes[p].t.rumor[k].Json?
    ensures RumorOf(run[i].nodes[p].t, k) in run[i].log
  {
    var v := Reachable(run, i);
    assert NodeSeen(p, run[i].nodes[p], v.sites[p]);
    HeldIsFinished(run[i].nodes[p].t);
    assert B.SiteOk(v.log, v.sites[p]);
    assert k in v.sites[p].held;
  }

  /** Two servers that store the same rumor, at any two moments, agree on its vector
      and its messages; with `p == q`, a stored rumor never changes. */
  lemma StoredAgreement(run: seq<System>, i: nat, p: Sender, j: nat, q: Sender, k: Key)
    requires IsRun(run) && i <= j < |run|
    requires p in run[i].nodes && HasDraft(run[i].nodes[p].t) && k in Finished(run[i].nodes[p].t)
    requires q in run[j].nodes && HasDraft(run[j].nodes[q].t) && k in Finished(run[j].nodes[q].t)
    ensures run[i].nodes[p].t.rumor[k] == run[j].nodes[q].t.rumor[k]
    ensures Content(run[i].nodes[p].t, k) == Content(run[j].nodes[q].t, k)
  {
    HeldIsLogged(run, i, p, k);
    HeldIsLogged(run, j, q, k);
    LogGrows(run, i, j);
    var w := Reachable(run, j);
    B.SameKey(w.log, RumorOf(run[i].nodes[p].t, k), RumorOf(run[j].nodes[q].t, k));
  }

  /** Whatever server replays a rumor, and whenever, it sends what was first broadcast:
      the same vector and the same messages, each once. */
  lemma ReplayedAsBroadcast(run: seq<System>, i: nat, q: Sender, j: nat, p: Sender, params: Params)
    requires IsRun(run) && i < j < |run|
    requires Taken(run[i], Send(q), run[i + 1])
    requires p in run[j].nodes && HasDraft(run[j].nodes[p].t) && params.key in Finished(run[j].nodes[p].t)
    requires params.key == Draft(run[i].nodes[q].t) && Rebuilds(run[j].nodes[p].t, params.key, params)
    ensures params.ts == Vector(run[i].nodes[q].t)
    ensures DistinctMsgs(params.messages) && MsgsOf(params.messages) == DraftMsgs(run[i].nodes[q].t)
  {
    var v := Reachable(run, j);
    var n := run[j].nodes[p];
    assert NodeSeen(p, n, v.sites[p]);
    ReplaySeen(p, n, v.sites[p], params);
    RebuiltExactly(n.t, params.key, params);
    BroadcastRemembered(run, i, q, j);
    B.HeldWithPast(v, p, Broadcast(run[i].nodes[q].t));
  }

  /** In every reachable state the vector of a server says exactly what it stores. */
  lemma ReachableVectorExact(run: seq<System>, i: nat, p: Sender, k: Key)
    requires IsRun(run) && i < |run| && p in run[i].nodes
    ensures HasDraft(run[i].nodes[p].t)
    ensures k in Finished(run[i].nodes[p].t) <==> InPast(k, Vector(run[i].nodes[p].t))
  {
    var v := Reachable(run, i);
    assert NodeSeen(p, run[i].nodes[p], v.sites[p]);
    VectorExact(run[i].nodes[p].t, k);
  }
}
