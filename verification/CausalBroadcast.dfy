/** Rumor gossip as a protocol between sites, each a set of rumors held: the part of
    the argument that does not depend on how a server lays out its tables. */
module CausalBroadcast {
  import opened Basics
  import opened RumorTables

  /** A rumor as its receivers see it, with its messages by identifier. */
  datatype Rumor = Rumor(key: Key, ts: Timestamp, msgs: set<MsgId>)

  /** `pending` are the rumors that passed the check and are not stored yet: the
      check and the store are two transactions, and others may run in between. */
  datatype Site = Site(held: map<Key, Rumor>, pending: set<Rumor>)

  /** The network is everything ever sent: a rumor never taken from it is lost, one
      taken twice is a duplicate, and the order is free. `log` records each rumor
      when its sender first broadcasts it; no step reads it. */
  datatype State = State(sites: map<Sender, Site>, net: set<Rumor>, log: seq<Rumor>)

  datatype Event =
    | Sends(p: Sender, r: Rumor)
    | Resends(p: Sender, k: Key)
    | Accepts(p: Sender, r: Rumor)
    | Stores(p: Sender, r: Rumor)
    | Forgets(p: Sender, kept: set<Rumor>)

  ghost predicate PastHeld(site: Site, r: Rumor) {
    forall j {:trigger InPast(j, r.ts)} :: InPast(j, r.ts) ==> j in site.held
  }

  /** A vector counts its sender's earlier rumors, and nothing negative. */
  ghost predicate StampOk(r: Rumor) {
    && 0 <= r.key.id
    && (forall s :: s in r.ts ==> 0 <= r.ts[s])
    && (if r.key.id == 0 then r.key.sender !in r.ts else r.key.sender in r.ts && r.ts[r.key.sender] == r.key.id - 1)
  }

  ghost function With(s: State, p: Sender, site: Site): State {
    s.(sites := s.sites[p := site])
  }

  ghost predicate Happens(s: State, e: Event, s': State) {
    && e.p in s.sites
    && var site := s.sites[e.p];
    match e
    case Sends(p, r) =>
      && r.key.sender == p && r.key !in site.held && StampOk(r)
      && (forall k {:trigger InPast(k, r.ts)} :: InPast(k, r.ts) <==> k in site.held)
      && s' == State(s.sites[p := site.(held := site.held[r.key := r])], s.net + {r}, s.log + [r])
    case Resends(p, k) =>
      k in site.held && s' == s.(net := s.net + {site.held[k]})
    case Accepts(p, r) =>
      && r in s.net && PastHeld(site, r)
      && s' == With(s, p, site.(pending := site.pending + {r}))
    case Stores(p, r) =>
      && r in site.pending && r.key !in site.held
      && s' == With(s, p, Site(site.held[r.key := r], site.pending - {r}))
    case Forgets(p, kept) =>
      kept <= site.pending && s' == With(s, p, site.(pending := kept))
  }

  ghost predicate Next(s: State, s': State) {
    s == s' || exists e :: Happens(s, e, s')
  }

  // ------------------------------------------------------------------ invariant

  ghost predicate SentBefore(log: seq<Rumor>, i: int, k: Key)
    requires i <= |log|
  {
    exists h :: 0 <= h < i && log[h].key == k
  }

  ghost predicate LogOk(log: seq<Rumor>) {
    && (forall i, j :: 0 <= i < j < |log| ==> log[i].key != log[j].key)
    && (forall i {:trigger StampOk(log[i])} :: 0 <= i < |log| ==> StampOk(log[i]))
    && (forall i, k {:trigger SentBefore(log, i, k)} :: 0 <= i < |log| && InPast(k, log[i].ts) ==>
        SentBefore(log, i, k))
  }

  ghost predicate CountsAll(a: Rumor, b: Rumor) {
    forall j {:trigger InPast(j, a.ts)} :: InPast(j, a.ts) ==> InPast(j, b.ts)
  }

  /** What a rumor counts includes all that the rumors it counts do. */
  ghost predicate Transitive(log: seq<Rumor>) {
    forall a, b {:trigger CountsAll(a, b)} :: a in log && b in log && InPast(a.key, b.ts) ==> CountsAll(a, b)
  }

  ghost predicate SiteOk(log: seq<Rumor>, site: Site) {
    && (forall k :: k in site.held ==> site.held[k].key == k && site.held[k] in log && PastHeld(site, site.held[k]))
    && (forall r :: r in site.pending ==> r in log && PastHeld(site, r))
  }

  ghost predicate SenderHolds(s: State, r: Rumor) {
    r.key.sender in s.sites && r.key in s.sites[r.key.sender].held
  }

  ghost predicate Inv(s: State) {
    && (forall p :: p in s.sites ==> SiteOk(s.log, s.sites[p]))
    && LogOk(s.log) && Transitive(s.log)
    && (forall r {:trigger SenderHolds(s, r)} :: r in s.log ==> SenderHolds(s, r))
    && (forall r :: r in s.net ==> r in s.log)
  }

  ghost function InitialState(sites: set<Sender>): State {
    State(map p | p in sites :: Site(map[], {}), {}, [])
  }

  lemma InitialInv(sites: set<Sender>)
    ensures Inv(InitialState(sites))
  {
  }

  lemma LogExtended(log: seq<Rumor>, r: Rumor)
    requires LogOk(log) && StampOk(r)
    requires !SentBefore(log, |log|, r.key)
    requires forall k :: InPast(k, r.ts) ==> SentBefore(log, |log|, k)
    ensures LogOk(log + [r])
  {
    var log' := log + [r];
    forall i, k | 0 <= i < |log'| && InPast(k, log'[i].ts)
      ensures SentBefore(log', i, k)
    {
      assert SentBefore(log, i, k);
      var h :| 0 <= h < i && log[h].key == k;
      assert log'[h].key == k;
    }
  }

  /** One site changes and loses no rumor. */
  lemma SiteStep(s: State, p: Sender, site': Site)
    requires Inv(s) && p in s.sites && SiteOk(s.log, site') && s.sites[p].held.Keys <= site'.held.Keys
    ensures Inv(With(s, p, site'))
  {
    forall x | x in s.log
      ensures SenderHolds(With(s, p, site'), x)
    {
      assert SenderHolds(s, x);
    }
  }

  lemma NotLogged(s: State, p: Sender, k: Key)
    requires Inv(s) && p in s.sites && k.sender == p && k !in s.sites[p].held
    ensures forall h :: 0 <= h < |s.log| ==> s.log[h].key != k
  {
    forall h | 0 <= h < |s.log| ensures s.log[h].key != k {
      assert SenderHolds(s, s.log[h]);
    }
  }

  lemma FreshSend(s: State, p: Sender, r: Rumor)
    requires Inv(s) && p in s.sites && r.key.sender == p && r.key !in s.sites[p].held && StampOk(r)
    requires PastHeld(s.sites[p], r)
    ensures LogOk(s.log + [r])
  {
    forall k | InPast(k, r.ts)
      ensures SentBefore(s.log, |s.log|, k)
    {
      var h :| 0 <= h < |s.log| && s.log[h] == s.sites[p].held[k];
    }
    NotLogged(s, p, r.key);
    LogExtended(s.log, r);
  }

  lemma TransitiveExtended(s: State, p: Sender, r: Rumor)
    requires Inv(s) && p in s.sites && r.key.sender == p && r.key !in s.sites[p].held && StampOk(r)
    requires forall k {:trigger InPast(k, r.ts)} :: InPast(k, r.ts) <==> k in s.sites[p].held
    ensures Transitive(s.log + [r])
  {
    forall a, b | a in s.log + [r] && b in s.log + [r] && InPast(a.key, b.ts)
      ensures CountsAll(a, b)
    {
      if b == r {
        HeldIsLogged(s, p, a.key);
        SameKey(s.log + [r], s.sites[p].held[a.key], a) by {
          FreshSend(s, p, r);
        }
        assert PastHeld(s.sites[p], a);
      } else if a == r {
        CountedIsLogged(s.log, b, r.key);
        NotLogged(s, p, r.key);
        assert false;
      }
    }
  }

  lemma HeldIsLogged(s: State, p: Sender, k: Key)
    requires Inv(s) && p in s.sites && k in s.sites[p].held
    ensures s.sites[p].held[k] in s.log && s.sites[p].held[k].key == k
  {
    assert SiteOk(s.log, s.sites[p]);
  }

  lemma CountedIsLogged(log: seq<Rumor>, b: Rumor, k: Key)
    requires LogOk(log) && b in log && InPast(k, b.ts)
    ensures exists x :: x in log && x.key == k
  {
    var i :| 0 <= i < |log| && log[i] == b;
    assert SentBefore(log, i, k);
    var h :| 0 <= h < i && log[h].key == k;
    assert log[h] in log;
  }

  lemma SendsInv(s: State, p: Sender, r: Rumor, s': State)
    requires Inv(s) && Happens(s, Sends(p, r), s')
    ensures Inv(s')
  {
    FreshSend(s, p, r);
    TransitiveExtended(s, p, r);
    forall q | q in s'.sites
      ensures SiteOk(s'.log, s'.sites[q])
    {
      assert q != p ==> s'.sites[q] == s.sites[q];
    }
    forall x | x in s'.log
      ensures SenderHolds(s', x)
    {
      assert x == r || SenderHolds(s, x);
    }
  }

  lemma EventInv(s: State, e: Event, s': State)
    requires Inv(s) && Happens(s, e, s')
    ensures Inv(s')
  {
    match e
    case Sends(p, r) => SendsInv(s, p, r, s');
    case Resends(p, k) => assert forall x :: SenderHolds(s, x) ==> SenderHolds(s', x);
    case Accepts(p, r) => SiteStep(s, p, s'.sites[p]);
    case Stores(p, r) =>
      SiteStep(s, p, s'.sites[p]);
    case Forgets(p, kept) => SiteStep(s, p, s'.sites[p]);
  }

  lemma NextInv(s: State, s': State)
    requires Inv(s) && Next(s, s')
    ensures Inv(s') && s.log <= s'.log && s'.sites.Keys == s.sites.Keys
  {
    if s != s' {
      var e :| Happens(s, e, s');
      EventInv(s, e, s');
    }
  }

  // ------------------------------------------------------------------ consequences

  /** Keys identify broadcasts. */
  lemma SameKey(log: seq<Rumor>, a: Rumor, b: Rumor)
    requires LogOk(log) && a in log && b in log && a.key == b.key
    ensures a == b
  {
    var i :| 0 <= i < |log| && log[i] == a;
    var j :| 0 <= j < |log| && log[j] == b;
  }

  lemma LoggedStampOk(log: seq<Rumor>, r: Rumor)
    requires LogOk(log) && r in log
    ensures StampOk(r)
  {
    var i :| 0 <= i < |log| && log[i] == r;
    assert StampOk(log[i]);
  }

  /** A site that holds a broadcast under its key holds that broadcast, and all it counts. */
  lemma HeldWithPast(s: State, p: Sender, r: Rumor)
    requires Inv(s) && r in s.log && p in s.sites && r.key in s.sites[p].held
    ensures s.sites[p].held[r.key] == r && PastHeld(s.sites[p], r)
  {
    SameKey(s.log, r, s.sites[p].held[r.key]);
  }

  lemma PendingWithPast(s: State, p: Sender, x: Rumor, r: Rumor)
    requires Inv(s) && r in s.log && p in s.sites && x in s.sites[p].pending && x.key == r.key
    ensures x == r && PastHeld(s.sites[p], r)
  {
    SameKey(s.log, r, x);
  }
}
