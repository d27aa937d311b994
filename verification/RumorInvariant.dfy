/** What every transaction keeps of the rumor tables: the vector is exact, rumors are rebuilt in full. */
module RumorInvariant {
  import opened Basics
  import opened RumorTables

  ghost predicate Contiguous(rumor: map<Key, Stamp>) {
    && (forall k :: k in rumor ==> 0 <= k.id)
    && (forall k, j :: k in rumor && 0 <= j < k.id ==> Key(j, k.sender) in rumor)
  }

  /** Every stored rumor but the draft. */
  ghost function Finished(t: Tables): set<Key>
    requires HasDraft(t)
  {
    set k | k in t.rumor && k != Draft(t)
  }

  ghost predicate IsBase(t: Tables, p: Post) {
    p in t.channelMessage && t.channelMessage[p]
  }

  /** `m` is stored, with a row of `channelMessage` on its base channel. */
  ghost predicate OnBase(t: Tables, m: MsgId) {
    m in t.message && exists p :: IsBase(t, p) && p.msg == m
  }

  ghost predicate RelationsOk(t: Tables)
    requires HasDraft(t)
  {
    && (forall r :: r in t.messageRumor ==> r.key in t.rumor && OnBase(t, r.msg))
    && (forall r :: r in t.unprocessedMessageRumor ==> r.key in Finished(t) && r.msg in t.unprocessedMessage)
    && t.messageRumor !! t.unprocessedMessageRumor
  }

  ghost predicate ChannelsOk(t: Tables) {
    && (forall p :: p in t.channelMessage ==> p.msg in t.message)
    && (forall p, q | p in t.channelMessage && q in t.channelMessage ::
        IsBase(t, p) && IsBase(t, q) && p.msg == q.msg ==> p == q)
  }

  ghost predicate RumorsOk(t: Tables) {
    && HasDraft(t)
    && Contiguous(t.rumor)
    && (forall k :: k in Finished(t) ==> t.rumor[k].Json?)
  }

  ghost predicate Valid(t: Tables) {
    RumorsOk(t) && RelationsOk(t) && ChannelsOk(t)
  }

  /** The messages related to a rumor, handled or not. */
  ghost function Content(t: Tables, k: Key): set<MsgId> {
    (set r | r in t.messageRumor && r.key == k :: r.msg)
    + (set r | r in t.unprocessedMessageRumor && r.key == k :: r.msg)
  }

  ghost predicate Carries(t: Tables, k: Key, m: MsgId) {
    Rel(m, k) in t.messageRumor || Rel(m, k) in t.unprocessedMessageRumor
  }

  lemma InContent(t: Tables, k: Key, m: MsgId)
    ensures m in Content(t, k) <==> Carries(t, k, m)
  {
    if Carries(t, k, m) {
      assert Rel(m, k).msg == m && Rel(m, k).key == k;
    }
  }

  lemma SameContent(t: Tables, t': Tables, k: Key)
    requires forall m :: Carries(t', k, m) <==> Carries(t, k, m)
    ensures Content(t', k) == Content(t, k)
  {
    forall m
      ensures m in Content(t', k) <==> m in Content(t, k)
    {
      InContent(t, k, m);
      InContent(t', k, m);
    }
  }

  // ------------------------------------------------------------ vector exactness

  lemma StateIs(rumor: map<Key, Stamp>, k: Key)
    requires k in rumor
    ensures k.sender in RumorState(rumor) && Key(RumorState(rumor)[k.sender], k.sender) in rumor
    ensures k.id <= RumorState(rumor)[k.sender]
  {
    HasIds(rumor, k);
  }

  lemma StateOf(rumor: map<Key, Stamp>, s: Sender)
    requires s in RumorState(rumor)
    ensures Key(RumorState(rumor)[s], s) in rumor
  {
    var k :| k in rumor && k.sender == s;
    StateIs(rumor, k);
  }

  lemma StateIsMax(rumor: map<Key, Stamp>, k: Key)
    requires k in rumor
    requires forall j :: j in rumor && j.sender == k.sender ==> j.id <= k.id
    ensures RumorState(rumor)[k.sender] == k.id
  {
    StateIs(rumor, k);
  }

  /** The vector is exact: `k` is finished precisely when the vector reaches it. */
  lemma VectorExact(t: Tables, k: Key)
    requires HasDraft(t) && Contiguous(t.rumor)
    ensures k in Finished(t) <==> k.sender in Vector(t) && 0 <= k.id <= Vector(t)[k.sender]
    ensures k.sender in Vector(t) ==> 0 <= Vector(t)[k.sender]
  {
    StateOf(t.rumor, t.me);
    if k in t.rumor {
      StateIs(t.rumor, k);
    }
    if k.sender in RumorState(t.rumor) {
      StateOf(t.rumor, k.sender);
    }
  }

  /** The finished rumors determine the vector. */
  lemma VectorFromFinished(t: Tables, v: Timestamp)
    requires HasDraft(t) && Contiguous(t.rumor)
    requires forall s :: s in v ==> 0 <= v[s]
    requires forall k: Key :: k in Finished(t) <==> k.sender in v && 0 <= k.id <= v[k.sender]
    ensures v == Vector(t)
  {
    forall s: Sender
      ensures s in v <==> s in Vector(t)
      ensures s in v ==> v[s] == Vector(t)[s]
    {
      VectorExact(t, Key(0, s));
      if s in v {
        VectorExact(t, Key(v[s], s));
        VectorExact(t, Key(v[s] + 1, s));
      }
    }
  }

  /** The two answers of the check, in terms of the rumors stored: "already
      stored", and "next of its sender with its causal past stored". */
  lemma CheckMeansStored(t: Tables, k: Key, ts: Timestamp)
    requires HasDraft(t) && Contiguous(t.rumor)
    requires 0 <= k.id
    requires forall s :: s in ts ==> 0 <= ts[s]
    ensures AlreadyExists(k, Vector(t)) <==> k in Finished(t)
    ensures NextInLine(k, ts, Vector(t)) <==>
            && k !in Finished(t)
            && (k.id > 0 ==> Key(k.id - 1, k.sender) in Finished(t))
            && (forall j :: InPast(j, ts) && j.sender != k.sender ==> j in Finished(t))
  {
    VectorExact(t, k);
    VectorExact(t, Key(k.id - 1, k.sender));
    if k.sender in Vector(t) {
      VectorExact(t, Key(Vector(t)[k.sender], k.sender));
    }
    if forall s :: s in ts && s != k.sender ==> s in Vector(t) && ts[s] <= Vector(t)[s] {
      forall j | InPast(j, ts) && j.sender != k.sender
        ensures j in Finished(t)
      {
        VectorExact(t, j);
      }
    } else {
      var s :| s in ts && s != k.sender && !(s in Vector(t) && ts[s] <= Vector(t)[s]);
      VectorExact(t, Key(ts[s], s));
      assert InPast(Key(ts[s], s), ts);
    }
  }

  // ----------------------------------------------------------- round trip

  lemma RebuiltDistinct(t: Tables, k: Key, messages: seq<Post>)
    requires Valid(t)
    requires multiset(messages) == multiset(ProcessedRows(t, k)) + multiset(UnprocessedRows(t, k))
    ensures DistinctMsgs(messages)
  {
    forall i, j | 0 <= i < j < |messages|
      ensures messages[i].msg != messages[j].msg
    {
      if messages[i].msg == messages[j].msg {
        assert messages[i] in multiset(messages) && messages[j] in multiset(messages);
        CountTwice(messages, i, j);
        assert false;
      }
    }
  }

  /** What GetRumorParamsHelper rebuilds has each message of the rumor exactly once. */
  lemma RebuiltExactly(t: Tables, k: Key, p: Params)
    requires Valid(t) && Rebuilds(t, k, p)
    ensures DistinctMsgs(p.messages)
    ensures MsgsOf(p.messages) == Content(t, k)
  {
    RebuiltDistinct(t, k, p.messages);
    forall m
      ensures m in MsgsOf(p.messages) <==> m in Content(t, k)
    {
      ContentIsRows(t, k, m);
      RebuiltHas(p.messages, ProcessedRows(t, k), UnprocessedRows(t, k), m);
    }
  }

  lemma RebuiltHas(messages: seq<Post>, processed: set<Post>, unprocessed: set<Post>, m: MsgId)
    requires multiset(messages) == multiset(processed) + multiset(unprocessed)
    ensures m in MsgsOf(messages) <==> exists row: Post :: row in processed + unprocessed && row.msg == m
  {
    assert forall i :: 0 <= i < |messages| ==> messages[i] in multiset(messages);
    if row: Post :| row in processed + unprocessed && row.msg == m {
      assert row in multiset(messages);
      assert row in messages;
    }
  }

  lemma ContentIsRows(t: Tables, k: Key, m: MsgId)
    requires Valid(t)
    ensures m in Content(t, k) <==> exists row :: row in ProcessedRows(t, k) + UnprocessedRows(t, k) && row.msg == m
  {
    if Rel(m, k) in t.messageRumor {
      var p :| IsBase(t, p) && p.msg == m;
      assert p in ProcessedRows(t, k);
    }
    if Rel(m, k) in t.unprocessedMessageRumor {
      assert Post(t.unprocessedMessage[m], m) in UnprocessedRows(t, k);
    }
  }
}
