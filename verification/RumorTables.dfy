/** The tables behind rumor gossip and the effect of each transaction on them.
    A transaction is a function from the tables before to the tables after;
    `None` stands for an error, after which the tables are rolled back. */
module RumorTables {
  import opened Basics

  type Sender = string
  type MsgId = string
  type ChannelPath = string

  /** The vector clock a rumor carries: the last rumor of each sender. */
  type Timestamp = map<Sender, int>

  /** Primary key of the `rumor` table. */
  datatype Key = Key(id: int, sender: Sender)

  /** The `timestamp` column: empty while the rumor is a draft. */
  datatype Stamp = Blank | Json(ts: Timestamp)

  /** A key counted by the vector `ts`. */
  ghost predicate InPast(k: Key, ts: Timestamp) {
    k.sender in ts && 0 <= k.id <= ts[k.sender]
  }

  /** A message on a channel. The channel-to-messages map of a rumor is listed
      as the sequence of its posts, in the order a loop visits them. */
  datatype Post = Post(channel: ChannelPath, msg: MsgId)

  /** A row relating a message to a rumor. */
  datatype Rel = Rel(msg: MsgId, key: Key)

  /** `channelMessage` maps (channelPath, messageID) to isBaseChannel. */
  datatype Tables = Tables(
    me: Sender,
    rumor: map<Key, Stamp>,
    message: set<MsgId>,
    channelMessage: map<Post, bool>,
    messageRumor: set<Rel>,
    unprocessedMessage: map<MsgId, ChannelPath>,
    unprocessedMessageRumor: set<Rel>)

  /** What a server sends: a rumor with its vector and its posts. */
  datatype Params = Params(key: Key, ts: Timestamp, messages: seq<Post>)

  // ---------------------------------------------------------------- queries

  ghost function Ids(rumor: map<Key, Stamp>, s: Sender): set<int> {
    set k | k in rumor && k.sender == s :: k.id
  }

  ghost function Senders(rumor: map<Key, Stamp>): set<Sender> {
    set k | k in rumor :: k.sender
  }

  lemma HasIds(rumor: map<Key, Stamp>, k: Key)
    requires k in rumor
    ensures k.id in Ids(rumor, k.sender) && k.sender in Senders(rumor)
  {
  }

  /** `SELECT max(ID), sender FROM rumor GROUP BY sender`. */
  ghost function RumorState(rumor: map<Key, Stamp>): Timestamp {
    map s | s in Senders(rumor) ::
      (assert exists k :: k in rumor && k.sender == s;
       assert Ids(rumor, s) != {} by {
         var k :| k in rumor && k.sender == s;
         HasIds(rumor, k);
       }
       MaxOf(Ids(rumor, s)))
  }

  ghost predicate HasDraft(t: Tables) {
    t.me in Senders(t.rumor)
  }

  /** The highest own ID: the rumor being filled, not yet sent. */
  ghost function Draft(t: Tables): Key
    requires HasDraft(t)
  {
    Key(RumorState(t.rumor)[t.me], t.me)
  }

  /** The vector clock that summarises the table, as GetRumorTimestampHelper computes it. */
  ghost function Vector(t: Tables): Timestamp
    requires HasDraft(t)
  {
    var state := RumorState(t.rumor);
    if state[t.me] == 0 then state - {t.me} else state[t.me := state[t.me] - 1]
  }

  ghost function ProcessedRows(t: Tables, k: Key): set<Post> {
    set p | p in t.channelMessage && t.channelMessage[p] && p.msg in t.message && Rel(p.msg, k) in t.messageRumor
  }

  ghost function UnprocessedRows(t: Tables, k: Key): set<Post> {
    set m | m in t.unprocessedMessage && Rel(m, k) in t.unprocessedMessageRumor :: Post(t.unprocessedMessage[m], m)
  }

  /** `p` is what GetRumorParamsHelper rebuilds for the row `k`, in some order. */
  ghost predicate Rebuilds(t: Tables, k: Key, p: Params) {
    && k in t.rumor
    && p.key == k
    && t.rumor[k] == Json(p.ts)
    && multiset(p.messages) == multiset(ProcessedRows(t, k)) + multiset(UnprocessedRows(t, k))
  }

  // ----------------------------------------------------- acceptance of a rumor

  ghost predicate AlreadyExists(k: Key, my: Timestamp) {
    k.sender in my && k.id <= my[k.sender]
  }

  ghost predicate NextInLine(k: Key, ts: Timestamp, my: Timestamp) {
    && k.id == (if k.sender in my then my[k.sender] + 1 else 0)
    && forall s :: s in ts && s != k.sender ==> s in my && ts[s] <= my[s]
  }

  // ----------------------------------------------------------- transactions

  function MsgsOf(posts: seq<Post>): set<MsgId> {
    set i | 0 <= i < |posts| :: posts[i].msg
  }

  function Relate(ms: set<MsgId>, k: Key): set<Rel> {
    set m | m in ms :: Rel(m, k)
  }

  ghost predicate DistinctMsgs(posts: seq<Post>) {
    forall i, j :: 0 <= i < j < |posts| ==> posts[i].msg != posts[j].msg
  }

  /** `INSERT OR IGNORE INTO unprocessedMessage`, row after row. */
  function InsertOrIgnore(t: map<MsgId, ChannelPath>, posts: seq<Post>): (r: map<MsgId, ChannelPath>)
    ensures forall m :: m in t ==> m in r && r[m] == t[m]
    ensures r.Keys == t.Keys + MsgsOf(posts)
  {
    if posts == [] then t
    else
      var last := posts[|posts| - 1];
      var r := InsertOrIgnore(t, posts[..|posts| - 1]);
      assert MsgsOf(posts) == MsgsOf(posts[..|posts| - 1]) + {last.msg} by {
        assert forall i :: 0 <= i < |posts| - 1 ==> posts[i] == posts[..|posts| - 1][i];
        assert posts[|posts| - 1].msg in MsgsOf(posts);
      }
      if last.msg in r then r else r[last.msg := last.channel]
  }

  ghost predicate CanStoreRumor(t: Tables, k: Key, unprocessed: seq<Post>, processed: seq<MsgId>) {
    && k !in t.rumor
    && DistinctMsgs(unprocessed) && Relate(MsgsOf(unprocessed), k) !! t.unprocessedMessageRumor
    && NoDup(processed) && (forall m :: m in processed ==> Rel(m, k) !in t.messageRumor)
  }

  ghost function StoreRumor(t: Tables, k: Key, ts: Timestamp, unprocessed: seq<Post>,
                            processed: seq<MsgId>): Option<Tables> {
    if !CanStoreRumor(t, k, unprocessed, processed) then None
    else Some(t.(
      rumor := t.rumor[k := Json(ts)],
      unprocessedMessage := InsertOrIgnore(t.unprocessedMessage, unprocessed),
      unprocessedMessageRumor := t.unprocessedMessageRumor + Relate(MsgsOf(unprocessed), k),
      messageRumor := t.messageRumor + (set m | m in processed :: Rel(m, k))))
  }

  ghost function AddMessage(t: Tables, m: MsgId): Option<Tables>
    requires HasDraft(t)
  {
    if Rel(m, Draft(t)) in t.messageRumor then None
    else Some(t.(messageRumor := t.messageRumor + {Rel(m, Draft(t))}))
  }

  /** Stamps the draft with the vector of the moment and opens the next draft. */
  ghost function FreezeDraft(t: Tables): Option<Tables>
    requires HasDraft(t)
  {
    var draft := Draft(t);
    var next := Key(draft.id + 1, t.me);
    if next in t.rumor then None
    else Some(t.(rumor := t.rumor[draft := Json(Vector(t))][next := Blank]))
  }

  function RelsOf(rels: set<Rel>, m: MsgId): set<Rel> {
    set r | r in rels && r.msg == m
  }

  /** Records a handled message and moves its relations from unprocessed to processed. */
  function StoreMessage(t: Tables, p: Post): Option<Tables> {
    var moved := RelsOf(t.unprocessedMessageRumor, p.msg);
    if p.msg in t.message || moved * t.messageRumor != {} || p in t.channelMessage then None
    else Some(t.(
      message := t.message + {p.msg},
      messageRumor := t.messageRumor + moved,
      unprocessedMessageRumor := t.unprocessedMessageRumor - moved,
      unprocessedMessage := t.unprocessedMessage - {p.msg},
      channelMessage := t.channelMessage[p := true]))
  }

  /** `INSERT OR IGNORE` of the first draft: run at every start of a server. */
  function StoreFirstRumor(t: Tables): Tables {
    var first := Key(0, t.me);
    if first in t.rumor then t else t.(rumor := t.rumor[first := Json(map[t.me := 0])])
  }
}
