/** What each transaction on the rumor tables does. It keeps
    the tables valid, adds at most one finished rumor, and never
    changes the stamp or the messages of one already finished. */
module RumorSteps {
  import opened Basics
  import opened RumorTables
  import opened RumorInvariant

  /** The rumors finished before are still there, as they were. */
  ghost predicate Preserves(t: Tables, t': Tables)
    requires HasDraft(t) && HasDraft(t')
  {
    && t'.me == t.me
    && Finished(t) <= Finished(t')
    && forall k :: k in Finished(t) ==> t'.rumor[k] == t.rumor[k] && Content(t', k) == Content(t, k)
  }

  lemma DraftKept(t: Tables, t': Tables)
    requires HasDraft(t) && t'.me == t.me
    requires forall k: Key :: k.sender == t.me ==> (k in t.rumor <==> k in t'.rumor)
    ensures HasDraft(t') && Draft(t') == Draft(t)
  {
    StateOf(t.rumor, t.me);
    assert Draft(t) in t'.rumor;
    forall j | j in t'.rumor && j.sender == t.me
      ensures j.id <= Draft(t).id
    {
      StateIs(t.rumor, j);
    }
    StateIsMax(t'.rumor, Draft(t));
    HasIds(t'.rumor, Draft(t));
  }

  lemma AddMessageKeeps(t: Tables, m: MsgId, t': Tables)
    requires Valid(t) && OnBase(t, m) && AddMessage(t, m) == Some(t')
    ensures Valid(t') && Preserves(t, t') && Finished(t') == Finished(t)
  {
    DraftKept(t, t');
    StateOf(t.rumor, t.me);
    var base :| IsBase(t, base) && base.msg == m;
    assert IsBase(t', base);
    assert forall p :: IsBase(t, p) ==> IsBase(t', p);
    forall k | k in Finished(t)
      ensures Content(t', k) == Content(t, k)
    {
    }
  }

  /** Handling a message moves it from unprocessed to processed in every rumor that
      carries it; no rumor loses or gains a message. */
  lemma StoreMessageKeeps(t: Tables, p: Post, t': Tables)
    requires Valid(t) && StoreMessage(t, p) == Some(t')
    ensures Valid(t') && Preserves(t, t') && Finished(t') == Finished(t)
    ensures OnBase(t', p.msg) && p.msg !in t'.unprocessedMessage
    ensures forall k :: Content(t', k) == Content(t, k)
    ensures forall k :: Rel(p.msg, k) !in t'.unprocessedMessageRumor
  {
    DraftKept(t, t');
    assert IsBase(t', p);
    assert forall q :: IsBase(t, q) ==> IsBase(t', q);
    forall k
      ensures Content(t', k) == Content(t, k)
    {
    }
  }

  lemma FreezeSucceeds(t: Tables)
    requires Valid(t)
    ensures FreezeDraft(t).Some?
  {
    var next := Key(Draft(t).id + 1, t.me);
    if next in t.rumor {
      StateIs(t.rumor, next);
      assert false;
    }
  }

  /** The draft is finished under its stamp; the next draft takes its place. */
  lemma FreezeRumors(t: Tables, t': Tables)
    requires RumorsOk(t) && FreezeDraft(t) == Some(t')
    ensures RumorsOk(t') && Draft(t') == Key(Draft(t).id + 1, t.me)
    ensures Finished(t') == Finished(t) + {Draft(t)}
  {
    StateOf(t.rumor, t.me);
    var draft := Draft(t);
    var next := Key(draft.id + 1, t.me);
    assert draft in t.rumor;
    assert t'.rumor.Keys == t.rumor.Keys + {next};
    NextDraft(t, next, t'.rumor);
    forall k
      ensures k in Finished(t') <==> k in Finished(t) || k == draft
    {
      assert k in t'.rumor <==> k in t.rumor || k == next;
    }
  }

  lemma NextDraft(t: Tables, next: Key, rumor': map<Key, Stamp>)
    requires HasDraft(t) && next == Key(Draft(t).id + 1, t.me)
    requires rumor'.Keys == t.rumor.Keys + {next}
    ensures t.me in RumorState(rumor') && RumorState(rumor')[t.me] == next.id
  {
    assert next in rumor';
    forall j | j in rumor' && j.sender == t.me
      ensures j.id <= next.id
    {
      if j in t.rumor {
        StateIs(t.rumor, j);
      }
    }
    HasIds(rumor', next);
    StateIsMax(rumor', next);
  }

  lemma FreezeKeeps(t: Tables, t': Tables)
    requires Valid(t) && FreezeDraft(t) == Some(t')
    ensures Valid(t') && Preserves(t, t')
    ensures Finished(t') == Finished(t) + {Draft(t)}
    ensures t'.rumor[Draft(t)] == Json(Vector(t))
    ensures Content(t', Draft(t)) == Content(t, Draft(t))
  {
    FreezeRumors(t, t');
    SameRelations(t, t');
    forall k | k in Finished(t) ensures t'.rumor[k] == t.rumor[k] {
      assert k != Draft(t) && k != Key(Draft(t).id + 1, t.me);
    }
    forall k ensures Content(t', k) == Content(t, k) { SameContent(t, t', k); }
  }

  lemma SameRelations(t: Tables, t': Tables)
    requires HasDraft(t) && HasDraft(t') && RelationsOk(t) && ChannelsOk(t) && Finished(t) <= Finished(t')
    requires t'.messageRumor == t.messageRumor && t'.unprocessedMessageRumor == t.unprocessedMessageRumor
    requires t'.channelMessage == t.channelMessage && t'.message == t.message &&
             t'.unprocessedMessage == t.unprocessedMessage
    requires t.rumor.Keys <= t'.rumor.Keys
    ensures RelationsOk(t') && ChannelsOk(t')
  {
    forall p ensures IsBase(t', p) <==> IsBase(t, p) {}
    forall m ensures OnBase(t', m) <==> OnBase(t, m) {}
  }

  ghost predicate Storable(t: Tables, k: Key, unprocessed: seq<Post>, processed: seq<MsgId>)
  {
    && k !in t.rumor && k.sender != t.me && 0 <= k.id
    && (k.id > 0 ==> Key(k.id - 1, k.sender) in t.rumor)
    && DistinctMsgs(unprocessed) && NoDup(processed)
    && (forall m :: m in processed ==> OnBase(t, m) && m !in MsgsOf(unprocessed))
  }

  lemma StoreRumorSucceeds(t: Tables, k: Key, ts: Timestamp, unprocessed: seq<Post>, processed: seq<MsgId>)
    requires Valid(t) && Storable(t, k, unprocessed, processed)
    ensures StoreRumor(t, k, ts, unprocessed, processed).Some?
  {
    assert forall r :: r in Relate(MsgsOf(unprocessed), k) ==> r.key == k;
    assert Relate(MsgsOf(unprocessed), k) !! t.unprocessedMessageRumor;
  }

  lemma StoreRumorRumors(t: Tables, k: Key, ts: Timestamp, t': Tables)
    requires RumorsOk(t) && k !in t.rumor && k.sender != t.me && 0 <= k.id
    requires k.id > 0 ==> Key(k.id - 1, k.sender) in t.rumor
    requires t'.rumor == t.rumor[k := Json(ts)] && t'.me == t.me
    ensures RumorsOk(t') && Draft(t') == Draft(t)
    ensures Finished(t') == Finished(t) + {k}
  {
    DraftKept(t, t');
  }

  lemma StoreRumorRelations(t: Tables, k: Key, ts: Timestamp, unprocessed: seq<Post>, processed: seq<MsgId>, t': Tables)
    requires Valid(t) && Storable(t, k, unprocessed, processed)
    requires StoreRumor(t, k, ts, unprocessed, processed) == Some(t')
    requires HasDraft(t') && Finished(t') == Finished(t) + {k}
    ensures RelationsOk(t')
  {
    assert t'.channelMessage == t.channelMessage && t'.message == t.message;
    forall m | OnBase(t, m) ensures OnBase(t', m) {
      var p :| IsBase(t, p) && p.msg == m;
      assert IsBase(t', p);
    }
    forall r | r in t'.messageRumor
      ensures r.key in t'.rumor && OnBase(t', r.msg) && r !in t'.unprocessedMessageRumor
    {
      if r !in t.messageRumor {
        assert r.msg in processed && r == Rel(r.msg, k);
      }
    }
    forall r | r in t'.unprocessedMessageRumor
      ensures r.key in Finished(t') && r.msg in t'.unprocessedMessage
    {
      if r !in t.unprocessedMessageRumor {
        assert r.msg in MsgsOf(unprocessed) && r.key == k;
      }
    }
  }

  /** Storing the next rumor of another server, split into handled and unhandled messages. */
  lemma StoreRumorKeeps(t: Tables, k: Key, ts: Timestamp, unprocessed: seq<Post>, processed: seq<MsgId>, t': Tables)
    requires Valid(t) && Storable(t, k, unprocessed, processed)
    requires StoreRumor(t, k, ts, unprocessed, processed) == Some(t')
    ensures Valid(t') && Preserves(t, t')
    ensures Finished(t') == Finished(t) + {k}
    ensures t'.rumor[k] == Json(ts)
    ensures Content(t', k) == MsgsOf(unprocessed) + (set m | m in processed)
  {
    StoreRumorRumors(t, k, ts, t');
    StoreRumorRelations(t, k, ts, unprocessed, processed, t');
    forall j | j in Finished(t)
      ensures Content(t', j) == Content(t, j)
    {
      assert j != k;
      SameContent(t, t', j);
    }
    forall m
      ensures m in Content(t', k) <==> m in MsgsOf(unprocessed) + (set m | m in processed)
    {
      InContent(t', k, m);
      assert !Carries(t, k, m);
    }
  }

  /** A restart finds the first rumor in place and changes nothing. */
  lemma RestartChangesNothing(t: Tables)
    requires Valid(t)
    ensures StoreFirstRumor(t) == t
  {
    StateOf(t.rumor, t.me);
    var draft := Draft(t);
    assert draft.id > 0 ==> Key(0, t.me) in t.rumor;
  }

  function EmptyTables(me: Sender): Tables {
    Tables(me, map[], {}, map[], {}, map[], {})
  }

  lemma FirstStartIsValid(me: Sender)
    ensures Valid(StoreFirstRumor(EmptyTables(me)))
    ensures Finished(StoreFirstRumor(EmptyTables(me))) == {}
    ensures StoreFirstRumor(EmptyTables(me)).rumor == map[Key(0, me) := Json(map[me := 0])]
  {
    var t := StoreFirstRumor(EmptyTables(me));
    HasIds(t.rumor, Key(0, me));
    StateIsMax(t.rumor, Key(0, me));
  }
}
