/** The SQLite back-end for rumors, from database/sqlite/query.go, sqlite.go and
    sqlite_init.go. The tables are fields of one object. Each public method is one
    transaction: it changes the tables row by row and commits all of its changes or,
    on an error, none. Rows that a query returns without an ORDER BY are visited in
    any order. Each method is proved to do what the function of the same name in
    RumorTables does to the tables. */
module RumorStore {
  import opened Basics
  import opened RumorTables
  import opened RumorInvariant
  import RumorSteps

  datatype Sent = Failed | NothingToSend | Rumor(params: Params)

  class SQLite {
    const me: Sender
    var rumor: map<Key, Stamp>
    var message: set<MsgId>
    var channelMessage: map<Post, bool>
    var messageRumor: set<Rel>
    var unprocessedMessage: map<MsgId, ChannelPath>
    var unprocessedMessageRumor: set<Rel>

    ghost function State(): Tables
      reads this
    {
      Tables(me, rumor, message, channelMessage, messageRumor, unprocessedMessage, unprocessedMessageRumor)
    }

    constructor (serverKey: Sender)
      ensures State() == RumorSteps.EmptyTables(serverKey)
    {
      me := serverKey;
      rumor := map[];
      message := {};
      channelMessage := map[];
      messageRumor := {};
      unprocessedMessage := map[];
      unprocessedMessageRumor := {};
    }

    method StoreFirstRumor()
      modifies this
      ensures State() == RumorTables.StoreFirstRumor(old(State()))
    {
      var first := Key(0, me);
      if first !in rumor {
        rumor := rumor[first := Json(map[me := 0])];
      }
    }

    /** `SELECT max(ID) FROM rumor WHERE sender = ?`. */
    method SelectMax(s: Sender) returns (max: Option<int>)
      ensures max.Some? <==> s in Senders(rumor)
      ensures max.Some? ==> max.value == RumorState(rumor)[s]
    {
      max := None;
      var todo := rumor.Keys;
      while todo != {}
        invariant todo <= rumor.Keys
        invariant max.None? ==> forall k :: k in rumor && k !in todo ==> k.sender != s
        invariant max.Some? ==> Key(max.value, s) in rumor
        invariant max.Some? ==> forall k :: k in rumor && k !in todo && k.sender == s ==> k.id <= max.value
        decreases |todo|
      {
        var k :| k in todo;
        todo := todo - {k};
        if k.sender == s && (max.None? || max.value < k.id) {
          max := Some(k.id);
        }
      }
      if max.Some? {
        HasIds(rumor, Key(max.value, s));
        StateIsMax(rumor, Key(max.value, s));
      }
    }

    /** The vector clock of this server: the maximum of each sender, its own draft not counted. */
    method GetRumorTimestampHelper() returns (timestamp: Option<Timestamp>)
      ensures timestamp.Some? <==> HasDraft(State())
      ensures timestamp.Some? ==> timestamp.value == Vector(State())
    {
      var state: Timestamp := map[];
      var todo := set k | k in rumor :: k.sender;
      ghost var all := todo;
      while todo != {}
        invariant todo <= all == Senders(rumor)
        invariant state.Keys == all - todo
        invariant forall s :: s in state ==> state[s] == RumorState(rumor)[s]
        decreases |todo|
      {
        var s :| s in todo;
        todo := todo - {s};
        var max := SelectMax(s);
        state := state[s := max.value];
      }
      assert state == RumorState(rumor);
      var mine := SelectMax(me);
      if mine.None? {
        return None;
      }
      if mine.value == 0 {
        return Some(state - {me});
      }
      return Some(state[me := state[me] - 1]);
    }

    static method CheckTimestampHelper(k: Key, timestamp: Timestamp, my: Timestamp)
      returns (isValid: bool, alreadyExist: bool)
      ensures alreadyExist == AlreadyExists(k, my)
      ensures isValid == NextInLine(k, timestamp, my)
    {
      isValid, alreadyExist := false, false;
      if k.sender in my && k.id <= my[k.sender] {
        alreadyExist := true;
      } else if (k.sender !in my && k.id != 0) || (k.sender in my && k.id > my[k.sender] + 1) {
        isValid := false;
      } else {
        isValid := true;
        var todo := timestamp.Keys;
        while todo != {}
          invariant todo <= timestamp.Keys && isValid
          invariant forall s :: s in timestamp && s !in todo && s != k.sender ==> s in my && timestamp[s] <= my[s]
          decreases |todo|
        {
          var s :| s in todo;
          todo := todo - {s};
          if (s !in my || timestamp[s] > my[s]) && s != k.sender {
            isValid := false;
            break;
          }
        }
      }
    }

    method CheckRumor(k: Key, timestamp: Timestamp) returns (ok: bool, isValid: bool, alreadyExist: bool)
      ensures ok <==> HasDraft(State())
      ensures ok ==> alreadyExist == AlreadyExists(k, Vector(State()))
      ensures ok ==> isValid == NextInLine(k, timestamp, Vector(State()))
    {
      var my := GetRumorTimestampHelper();
      if my.None? {
        return false, false, false;
      }
      ok := true;
      isValid, alreadyExist := CheckTimestampHelper(k, timestamp, my.value);
    }

    method StoreRumor(k: Key, timestamp: Timestamp, unprocessed: seq<Post>, processed: seq<MsgId>) returns (ok: bool)
      modifies this
      ensures ok <==> RumorTables.StoreRumor(old(State()), k, timestamp, unprocessed, processed).Some?
      ensures ok ==> State() == RumorTables.StoreRumor(old(State()), k, timestamp, unprocessed, processed).value
      ensures !ok ==> State() == old(State())
    {
      if k in rumor {
        return false;
      }
      var stored, messages, relations := StoreUnprocessedHelper(k, unprocessed);
      if !stored {
        return false;
      }
      var related, handled := StoreProcessed(k, processed);
      if !related {
        return false;
      }
      rumor := rumor[k := Json(timestamp)];
      unprocessedMessage := messages;
      unprocessedMessageRumor := relations;
      messageRumor := handled;
      return true;
    }

    /** The last loop of StoreRumor: relates the handled messages to the rumor. */
    method StoreProcessed(k: Key, processed: seq<MsgId>) returns (ok: bool, handled: set<Rel>)
      ensures ok <==> NoDup(processed) && forall m :: m in processed ==> Rel(m, k) !in messageRumor
      ensures ok ==> handled == messageRumor + set m | m in processed :: Rel(m, k)
    {
      handled := messageRumor;
      var i := 0;
      while i < |processed|
        invariant 0 <= i <= |processed|
        invariant handled == messageRumor + (set m | m in processed[..i] :: Rel(m, k))
        invariant NoDup(processed[..i])
        invariant forall m :: m in processed[..i] ==> Rel(m, k) !in messageRumor
      {
        var row := Rel(processed[i], k);
        if row in handled {
          assert processed[i] in processed[..i] || row in messageRumor;
          return false, handled;
        }
        assert processed[..i + 1] == processed[..i] + [processed[i]];
        handled := handled + {row};
        i := i + 1;
      }
      assert processed[..i] == processed;
      ok := true;
    }

    method StoreUnprocessedHelper(k: Key, unprocessed: seq<Post>)
      returns (ok: bool, messages: map<MsgId, ChannelPath>, relations: set<Rel>)
      ensures ok <==> DistinctMsgs(unprocessed) && Relate(MsgsOf(unprocessed), k) !! unprocessedMessageRumor
      ensures ok ==> messages == InsertOrIgnore(unprocessedMessage, unprocessed)
      ensures ok ==> relations == unprocessedMessageRumor + Relate(MsgsOf(unprocessed), k)
    {
      messages, relations := unprocessedMessage, unprocessedMessageRumor;
      var i := 0;
      while i < |unprocessed|
        invariant 0 <= i <= |unprocessed|
        invariant messages == InsertOrIgnore(unprocessedMessage, unprocessed[..i])
        invariant Inserted(unprocessedMessageRumor, relations, unprocessed[..i], k)
      {
        var post := unprocessed[i];
        InsertPrefix(unprocessedMessage, unprocessed, i);
        InsertedMore(unprocessedMessageRumor, relations, unprocessed, i, k);
        if post.msg !in messages {
          messages := messages[post.msg := post.channel];
        }
        var row := Rel(post.msg, k);
        if row in relations {
          return false, messages, relations;
        }
        relations := relations + {row};
        i := i + 1;
      }
      assert unprocessed[..i] == unprocessed;
      ok := true;
    }

    method AddMessageToMyRumor(m: MsgId) returns (count: Option<int>)
      requires HasDraft(State())
      modifies this
      ensures count.Some? <==> AddMessage(old(State()), m).Some?
      ensures count.Some? ==> State() == AddMessage(old(State()), m).value
      ensures count.Some? ==> count.value == |set r | r in messageRumor && r.key.id == Draft(State()).id|
      ensures count.None? ==> State() == old(State())
    {
      var mine := SelectMax(me);
      var row := Rel(m, Key(mine.value, me));
      if row in messageRumor {
        return None;
      }
      messageRumor := messageRumor + {row};
      return Some(|set r | r in messageRumor && r.key.id == mine.value|);
    }

    /** The posts of handled messages related to the rumor `k`, in some order. */
    method SelectProcessed(k: Key) returns (rows: seq<Post>)
      ensures multiset(rows) == multiset(ProcessedRows(State(), k))
    {
      rows := [];
      var todo := channelMessage.Keys;
      ghost var got: set<Post> := {};
      while todo != {}
        invariant todo <= channelMessage.Keys
        invariant got == set p | p in ProcessedRows(State(), k) && p !in todo
        invariant multiset(rows) == multiset(got)
        decreases |todo|
      {
        var p :| p in todo;
        todo := todo - {p};
        if channelMessage[p] && p.msg in message && Rel(p.msg, k) in messageRumor {
          rows := rows + [p];
          AddToBag(got, p);
          got := got + {p};
        }
      }
      assert got == ProcessedRows(State(), k);
    }

    method SelectUnprocessed(k: Key) returns (rows: seq<Post>)
      ensures multiset(rows) == multiset(UnprocessedRows(State(), k))
    {
      rows := [];
      var todo := unprocessedMessage.Keys;
      ghost var got: set<Post> := {};
      while todo != {}
        invariant todo <= unprocessedMessage.Keys
        invariant got == set p | p in UnprocessedRows(State(), k) && p.msg !in todo
        invariant multiset(rows) == multiset(got)
        decreases |todo|
      {
        var m :| m in todo;
        todo := todo - {m};
        if Rel(m, k) in unprocessedMessageRumor {
          var p := Post(unprocessedMessage[m], m);
          rows := rows + [p];
          AddToBag(got, p);
          got := got + {p};
        }
      }
      assert got == UnprocessedRows(State(), k);
    }

    /** Stamps and returns the draft, and opens the next one; an empty draft stays. */
    method GetAndIncrementMyRumor() returns (sent: Sent)
      requires HasDraft(State())
      modifies this
      ensures sent.NothingToSend? <==> ProcessedRows(old(State()), Draft(old(State()))) == {}
      ensures sent.Rumor? ==>
                && FreezeDraft(old(State())) == Some(State())
                && sent.params.key == Draft(old(State()))
                && sent.params.ts == Vector(old(State()))
                && multiset(sent.params.messages) == multiset(ProcessedRows(old(State()), Draft(old(State()))))
      ensures sent.Failed? ==> FreezeDraft(old(State())).None?
      ensures !sent.Rumor? ==> State() == old(State())
    {
      var mine := SelectMax(me);
      var draft := Key(mine.value, me);
      var messages := SelectProcessed(draft);
      if messages == [] {
        assert multiset(ProcessedRows(State(), draft)) == multiset{};
        EmptyBag(ProcessedRows(State(), draft));
        return NothingToSend;
      }
      assert messages[0] in multiset(messages);
      var timestamp := GetRumorTimestampHelper();
      var next := Key(mine.value + 1, me);
      if next in rumor {
        return Failed;
      }
      rumor := rumor[draft := Json(timestamp.value)][next := Blank];
      return Rumor(Params(draft, timestamp.value, messages));
    }

    /** `Some(None)` for the draft, which is not sent; `None` when the stamp cannot be read. */
    method GetRumorParamsHelper(k: Key, draft: Key) returns (params: Option<Option<Params>>)
      requires k in rumor
      ensures params == Some(None) <==> k == draft
      ensures params == None <==> k != draft && rumor[k].Blank?
      ensures params.Some? && params.value.Some? ==> Rebuilds(State(), k, params.value.value)
    {
      if k == draft {
        return Some(None);
      }
      if rumor[k].Blank? {
        return None;
      }
      var processed := SelectProcessed(k);
      var unprocessed := SelectUnprocessed(k);
      return Some(Some(Params(k, rumor[k].ts, processed + unprocessed)));
    }

    /** Every finished rumor, rebuilt, once each; those of the empty sender are passed over. */
    method GetAllRumorParams() returns (all: Option<seq<Params>>)
      requires HasDraft(State())
      ensures all.None? <==> exists k :: k in Finished(State()) && rumor[k].Blank?
      ensures all.Some? ==> AllRebuilt(State(), all.value)
      ensures all.Some? ==> OnceEach(all.value, set k | k in Finished(State()) && k.sender != "")
    {
      var mine := SelectMax(me);
      var draft := Key(mine.value, me);
      var params: seq<Params> := [];
      var todo := rumor.Keys;
      ghost var t, done := State(), {};
      while todo != {}
        invariant State() == t && todo <= rumor.Keys && done == rumor.Keys - todo
        invariant Rebuilding(t, draft, done, params)
        decreases |todo|
      {
        var k :| k in todo;
        var param := GetRumorParamsHelper(k, draft);
        if param.None? {
          assert k in Finished(State());
          return None;
        }
        RebuildTurn(t, draft, done, params, k, param.value);
        if param.value.Some? && param.value.value.key.sender != "" {
          params := params + [param.value.value];
        }
        todo, done := todo - {k}, done + {k};
      }
      assert done == rumor.Keys;
      ListedFinished(t);
      return Some(params);
    }

    method StoreMessageAndData(p: Post) returns (ok: bool)
      modifies this
      ensures ok <==> StoreMessage(old(State()), p).Some?
      ensures ok ==> State() == StoreMessage(old(State()), p).value
      ensures !ok ==> State() == old(State())
    {
      var moved := set r | r in unprocessedMessageRumor && r.msg == p.msg;
      if p.msg in message {
        return false;
      }
      if moved * messageRumor != {} || p in channelMessage {
        return false;
      }
      message := message + {p.msg};
      messageRumor := messageRumor + moved;
      unprocessedMessageRumor := unprocessedMessageRumor - moved;
      unprocessedMessage := unprocessedMessage - {p.msg};
      channelMessage := channelMessage[p := true];
      return true;
    }
  }

  ghost function Listed(keys: set<Key>, draft: Key): set<Key> {
    set k | k in keys && k != draft && k.sender != ""
  }

  lemma ListedFinished(t: Tables)
    requires HasDraft(t)
    ensures Listed(t.rumor.Keys, Draft(t)) == set k | k in Finished(t) && k.sender != ""
  {
  }

  /** The rows of `done` have been read, and those to be sent are in `params`. */
  ghost predicate Rebuilding(t: Tables, draft: Key, done: set<Key>, params: seq<Params>) {
    && (forall k :: k in done && k != draft ==> k in t.rumor && t.rumor[k].Json?)
    && AllRebuilt(t, params)
    && OnceEach(params, Listed(done, draft))
  }

  lemma PassOver(t: Tables, draft: Key, done: set<Key>, params: seq<Params>, k: Key)
    requires Rebuilding(t, draft, done, params)
    requires k == draft || (k.sender == "" && k in t.rumor && t.rumor[k].Json?)
    ensures Rebuilding(t, draft, done + {k}, params)
  {
    ListedMore(done, k, draft);
  }

  lemma RebuildTurn(t: Tables, draft: Key, done: set<Key>, params: seq<Params>, k: Key, p: Option<Params>)
    requires Rebuilding(t, draft, done, params) && k in t.rumor && k !in done
    requires if k == draft then p.None? else t.rumor[k].Json? && p.Some? && Rebuilds(t, k, p.value)
    ensures Rebuilding(t, draft, done + {k}, if p.Some? && p.value.key.sender != "" then params + [p.value] else params)
  {
    if p.Some? && p.value.key.sender != "" {
      RebuildNext(t, draft, done, params, p.value);
    } else {
      PassOver(t, draft, done, params, k);
    }
  }

  lemma RebuildNext(t: Tables, draft: Key, done: set<Key>, params: seq<Params>, p: Params)
    requires Rebuilding(t, draft, done, params)
    requires p.key !in done && p.key != draft && p.key.sender != "" && Rebuilds(t, p.key, p)
    ensures Rebuilding(t, draft, done + {p.key}, params + [p])
  {
    ListedMore(done, p.key, draft);
    OnceMore(params, Listed(done, draft), p);
    RebuiltMore(t, params, p);
  }

  /** Each of `params` is rebuilt from the row of its key. */
  ghost predicate AllRebuilt(t: Tables, params: seq<Params>) {
    forall p {:trigger Rebuilds(t, p.key, p)} :: p in params ==> Rebuilds(t, p.key, p)
  }

  lemma RebuiltMore(t: Tables, params: seq<Params>, p: Params)
    requires AllRebuilt(t, params) && Rebuilds(t, p.key, p)
    ensures AllRebuilt(t, params + [p])
  {
  }

  lemma ListedMore(keys: set<Key>, k: Key, draft: Key)
    ensures Listed(keys + {k}, draft) ==
            if k != draft && k.sender != "" then Listed(keys, draft) + {k} else Listed(keys, draft)
  {
  }

  /** The keys of `params` are `keys`, each once. */
  ghost predicate OnceEach(params: seq<Params>, keys: set<Key>) {
    && (forall i, j :: 0 <= i < j < |params| ==> params[i].key != params[j].key)
    && keys == set p | p in params :: p.key
  }

  lemma OnceMore(params: seq<Params>, keys: set<Key>, p: Params)
    requires OnceEach(params, keys) && p.key !in keys
    ensures OnceEach(params + [p], keys + {p.key})
  {
    assert forall i :: 0 <= i < |params| ==> params[i] in params && params[i].key in keys;
    assert p in params + [p];
    assert forall x :: x in params ==> x in params + [p];
  }

  lemma AddToBag<T>(s: set<T>, x: T)
    requires x !in s
    ensures multiset(s + {x}) == multiset(s) + multiset{x}
  {
  }

  lemma EmptyBag<T>(s: set<T>)
    requires multiset(s) == multiset{}
    ensures s == {}
  {
    assert |multiset(s)| == |s|;
  }

  lemma MsgsOfPrefix(posts: seq<Post>, i: nat)
    requires i < |posts|
    ensures MsgsOf(posts[..i + 1]) == MsgsOf(posts[..i]) + {posts[i].msg}
  {
    assert posts[..i + 1] == posts[..i] + [posts[i]];
    assert forall j :: 0 <= j < i ==> posts[..i][j] == posts[..i + 1][j];
    assert posts[..i + 1][i] == posts[i];
  }

  lemma InsertPrefix(t: map<MsgId, ChannelPath>, posts: seq<Post>, i: nat)
    requires i < |posts|
    ensures InsertOrIgnore(t, posts[..i + 1]) ==
            var r := InsertOrIgnore(t, posts[..i]);
            if posts[i].msg in r then r else r[posts[i].msg := posts[i].channel]
  {
    assert posts[..i + 1][..i] == posts[..i];
  }

  lemma RelatePrefix(posts: seq<Post>, i: nat, k: Key)
    requires i < |posts|
    ensures Relate(MsgsOf(posts[..i + 1]), k) == Relate(MsgsOf(posts[..i]), k) + {Rel(posts[i].msg, k)}
  {
    MsgsOfPrefix(posts, i);
  }

  ghost predicate Inserted(rows: set<Rel>, relations: set<Rel>, posts: seq<Post>, k: Key) {
    relations == rows + Relate(MsgsOf(posts), k) && DistinctMsgs(posts) && Relate(MsgsOf(posts), k) !! rows
  }

  /** One row more, or no row at all for the messages. */
  lemma InsertedMore(rows: set<Rel>, relations: set<Rel>, posts: seq<Post>, i: nat, k: Key)
    requires i < |posts| && Inserted(rows, relations, posts[..i], k)
    ensures Rel(posts[i].msg, k) !in relations ==> Inserted(rows, relations + {Rel(posts[i].msg, k)}, posts[..i + 1], k)
    ensures Rel(posts[i].msg, k) in relations ==> !(DistinctMsgs(posts) && Relate(MsgsOf(posts), k) !! rows)
  {
    if Rel(posts[i].msg, k) in relations {
      RejectedRow(posts, i, k, rows);
    } else {
      RelatePrefix(posts, i, k);
      DistinctPrefix(posts, i, k);
    }
  }

  lemma DistinctPrefix(posts: seq<Post>, i: nat, k: Key)
    requires i < |posts| && DistinctMsgs(posts[..i]) && Rel(posts[i].msg, k) !in Relate(MsgsOf(posts[..i]), k)
    ensures DistinctMsgs(posts[..i + 1])
  {
    forall j | 0 <= j < i
      ensures posts[j].msg != posts[i].msg
    {
      assert posts[..i][j].msg in MsgsOf(posts[..i]);
    }
  }

  /** A relation already present betrays a repeated message or an older row. */
  lemma RejectedRow(posts: seq<Post>, i: nat, k: Key, rows: set<Rel>)
    requires i < |posts|
    requires Rel(posts[i].msg, k) in rows + Relate(MsgsOf(posts[..i]), k)
    ensures !(DistinctMsgs(posts) && Relate(MsgsOf(posts), k) !! rows)
  {
    if Rel(posts[i].msg, k) in rows {
      assert posts[i].msg in MsgsOf(posts);
      assert Rel(posts[i].msg, k) in Relate(MsgsOf(posts), k);
    } else {
      assert posts[i].msg in MsgsOf(posts[..i]);
      var j :| 0 <= j < i && posts[..i][j].msg == posts[i].msg;
      assert posts[j].msg == posts[i].msg;
    }
  }
}
