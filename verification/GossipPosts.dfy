/** Rumor gossip with the channels of the messages: what is rebuilt carries the posts first broadcast. */
module GossipPosts {
  import opened Basics
  import opened RumorTables
  import opened RumorInvariant
  import opened RumorSteps
  import opened Gossip
  import B = CausalBroadcast

  /** A rumor on the network with its messages under their channels. */
  datatype Packet = Packet(r: Rumor, posts: set<Post>)

  datatype World = World(s: System, mail: set<Packet>)

  ghost function PostSet(posts: seq<Post>): set<Post> {
    set post | post in posts
  }

  /** A step of the system, with the posts that travel: what is left unhandled of a rumor is stored as
      some packet of that rumor had it. */
  ghost predicate Goes(w: World, step: Step, w': World) {
    && Taken(w.s, step, w'.s)
    && var t := w.s.nodes[step.p].t;
    match step
    case Send(_) => w'.mail == w.mail + {Packet(Broadcast(t), ProcessedRows(t, Draft(t)))}
    case Replay(_, params) =>
      w'.mail == w.mail + {Packet(B.Rumor(params.key, params.ts, MsgsOf(params.messages)), PostSet(params.messages))}
    case Store(_, r, unprocessed, _) =>
      w'.mail == w.mail && exists packet :: packet in w.mail && packet.r == r && PostSet(unprocessed) <= packet.posts
    case _ => w'.mail == w.mail
  }

  ghost predicate Turn(w: World, w': World) {
    w == w' || exists step :: Goes(w, step, w')
  }

  ghost predicate TurnAt(run: seq<World>, i: int)
    requires 0 <= i < |run| - 1
  {
    Turn(run[i], run[i + 1])
  }

  ghost predicate IsCourse(run: seq<World>) {
    0 < |run| && Init(run[0].s) && run[0].mail == {} && forall i :: 0 <= i < |run| - 1 ==> TurnAt(run, i)
  }

  ghost function Systems(run: seq<World>): (r: seq<System>)
    ensures |r| == |run| && forall i :: 0 <= i < |run| ==> r[i] == run[i].s
  {
    seq(|run|, i requires 0 <= i < |run| => run[i].s)
  }

  lemma CourseIsRun(run: seq<World>)
    requires IsCourse(run)
    ensures IsRun(Systems(run))
  {
    forall i | 0 <= i < |run| - 1 ensures NextAt(Systems(run), i) { assert TurnAt(run, i); }
  }

  // ------------------------------------------------------- what is handled where

  /** Some server has handled the message on this channel. */
  ghost predicate Handled(s: System, post: Post) {
    exists q :: q in s.nodes && IsBase(s.nodes[q].t, post)
  }

  /** No message has been handled on two channels, by whatever servers. */
  ghost predicate OneChannel(s: System) {
    forall a: Post, b: Post :: Handled(s, a) && Handled(s, b) && a.msg == b.msg ==> a.channel == b.channel
  }

  ghost function Ids(posts: set<Post>): set<MsgId> {
    set post | post in posts :: post.msg
  }

  ghost predicate PacketOk(s: System, packet: Packet) {
    && packet.r in s.net && Ids(packet.posts) == packet.r.msgs
    && forall post :: post in packet.posts ==> Handled(s, post)
  }

  /** The messages a server has left unhandled are under channels they were handled on elsewhere. */
  ghost predicate LeftOk(s: System, t: Tables) {
    forall m :: m in t.unprocessedMessage ==> Handled(s, Post(t.unprocessedMessage[m], m))
  }

  ghost predicate WorldOk(w: World) {
    && (forall packet {:trigger PacketOk(w.s, packet)} :: packet in w.mail ==> PacketOk(w.s, packet))
    && (forall p {:trigger LeftOk(w.s, w.s.nodes[p].t)} :: p in w.s.nodes ==> LeftOk(w.s, w.s.nodes[p].t))
  }

  lemma BaseStays(s: System, step: Step, s': System, post: Post)
    requires Taken(s, step, s') && Handled(s, post)
    ensures Handled(s', post)
  {
    var q :| q in s.nodes && IsBase(s.nodes[q].t, post);
    assert IsBase(s'.nodes[q].t, post);
  }

  lemma InsertedFrom(t: map<MsgId, ChannelPath>, posts: seq<Post>, m: MsgId)
    requires m in InsertOrIgnore(t, posts)
    ensures m in t || Post(InsertOrIgnore(t, posts)[m], m) in PostSet(posts)
  {
    if posts != [] {
      var init, last := posts[..|posts| - 1], posts[|posts| - 1];
      if m in InsertOrIgnore(t, init) {
        InsertedFrom(t, init, m);
      }
    }
  }

  lemma RowsHandled(s: System, p: Sender, k: Key, post: Post)
    requires p in s.nodes && LeftOk(s, s.nodes[p].t)
    requires post in ProcessedRows(s.nodes[p].t, k) || post in UnprocessedRows(s.nodes[p].t, k)
    ensures Handled(s, post)
  {
    if post in ProcessedRows(s.nodes[p].t, k) {
      assert IsBase(s.nodes[p].t, post);
    }
  }

  lemma RebuiltPosts(t: Tables, k: Key, params: Params)
    requires Rebuilds(t, k, params)
    ensures PostSet(params.messages) == ProcessedRows(t, k) + UnprocessedRows(t, k)
  {
    forall post
      ensures post in PostSet(params.messages) <==> post in ProcessedRows(t, k) + UnprocessedRows(t, k)
    {
      assert post in params.messages <==> post in multiset(params.messages);
    }
  }

  lemma IdsOf(posts: seq<Post>)
    ensures Ids(PostSet(posts)) == MsgsOf(posts)
  {
    forall m ensures m in Ids(PostSet(posts)) <==> m in MsgsOf(posts) {
      if m in MsgsOf(posts) {
        var i :| 0 <= i < |posts| && posts[i].msg == m;
        assert posts[i] in PostSet(posts);
      }
    }
  }

  lemma NewPacketOk(w: World, step: Step, w': World, packet: Packet)
    requires WorldOk(w) && Goes(w, step, w') && packet in w'.mail && packet !in w.mail
    ensures PacketOk(w'.s, packet)
  {
    var t := w.s.nodes[step.p].t;
    assert LeftOk(w.s, t);
    if step.Replay? {
      RebuiltPosts(t, step.params.key, step.params);
      IdsOf(step.params.messages);
    }
    var k := if step.Send? then Draft(t) else step.params.key;
    forall post | post in packet.posts ensures Handled(w'.s, post) {
      RowsHandled(w.s, step.p, k, post);
      BaseStays(w.s, step, w'.s, post);
    }
  }

  lemma PacketStays(w: World, step: Step, w': World, packet: Packet)
    requires Goes(w, step, w') && PacketOk(w.s, packet)
    ensures PacketOk(w'.s, packet)
  {
    forall post | post in packet.posts ensures Handled(w'.s, post) { BaseStays(w.s, step, w'.s, post); }
  }

  lemma LeftStays(w: World, step: Step, w': World, p: Sender)
    requires WorldOk(w) && Goes(w, step, w') && p in w'.s.nodes
    ensures LeftOk(w'.s, w'.s.nodes[p].t)
  {
    var t, t' := w.s.nodes[p].t, w'.s.nodes[p].t;
    assert LeftOk(w.s, t);
    forall m | m in t'.unprocessedMessage
      ensures Handled(w'.s, Post(t'.unprocessedMessage[m], m))
    {
      var post := Post(t'.unprocessedMessage[m], m);
      if m !in t.unprocessedMessage {
        InsertedFrom(t.unprocessedMessage, step.unprocessed, m);
        var packet :| packet in w.mail && packet.r == step.r && PostSet(step.unprocessed) <= packet.posts;
        assert PacketOk(w.s, packet);
      }
      BaseStays(w.s, step, w'.s, post);
    }
  }

  lemma TurnOk(w: World, w': World)
    requires WorldOk(w) && Turn(w, w')
    ensures WorldOk(w')
    ensures forall post :: Handled(w.s, post) ==> Handled(w'.s, post)
  {
    if w != w' {
      var step :| Goes(w, step, w');
      forall packet | packet in w'.mail ensures PacketOk(w'.s, packet) {
        if packet in w.mail { PacketStays(w, step, w', packet); } else { NewPacketOk(w, step, w', packet); }
      }
      forall p | p in w'.s.nodes ensures LeftOk(w'.s, w'.s.nodes[p].t) { LeftStays(w, step, w', p); }
      forall post | Handled(w.s, post) ensures Handled(w'.s, post) { BaseStays(w.s, step, w'.s, post); }
    }
  }

  lemma {:induction false} CourseOk(run: seq<World>, i: nat)
    requires IsCourse(run) && i < |run|
    ensures WorldOk(run[i])
  {
    if i == 0 {
      forall p | p in run[0].s.nodes ensures LeftOk(run[0].s, run[0].s.nodes[p].t) {
        assert JustStarted(p, run[0].s.nodes[p]);
      }
    } else {
      CourseOk(run, i - 1);
      assert TurnAt(run, i - 1);
      TurnOk(run[i - 1], run[i]);
    }
  }

  lemma {:induction false} HandledStays(run: seq<World>, i: nat, j: nat, post: Post)
    requires IsCourse(run) && i <= j < |run| && Handled(run[i].s, post)
    ensures Handled(run[j].s, post)
    decreases j
  {
    if i < j {
      HandledStays(run, i, j - 1, post);
      CourseOk(run, j - 1);
      assert TurnAt(run, j - 1);
      TurnOk(run[j - 1], run[j]);
    }
  }

  // ------------------------------------------------------------------- theorems

  /** Posts with the same ids are the same, when each message is handled on one channel. */
  lemma SameIdsSamePosts(s: System, a: set<Post>, b: set<Post>)
    requires OneChannel(s) && Ids(a) == Ids(b)
    requires forall post :: post in a + b ==> Handled(s, post)
    ensures a == b
  {
    forall post ensures post in a <==> post in b {
      if post in a {
        assert post.msg in Ids(b);
        var other :| other in b && other.msg == post.msg;
        assert other in a + b && post in a + b;
      }
      if post in b {
        assert post.msg in Ids(a);
        var other :| other in a && other.msg == post.msg;
        assert other in a + b && post in a + b;
      }
    }
  }

  /** Whatever travels under one key, at any two moments, carries the same posts, channels included. */
  lemma PacketAgreement(run: seq<World>, i: nat, j: nat, a: Packet, b: Packet)
    requires IsCourse(run) && i <= j < |run| && OneChannel(run[j].s)
    requires a in run[i].mail && b in run[j].mail && a.r.key == b.r.key
    ensures a == b
  {
    CourseOk(run, i);
    CourseOk(run, j);
    assert PacketOk(run[i].s, a) && PacketOk(run[j].s, b);
    CourseIsRun(run);
    NetworkAgreement(Systems(run), i, j, a.r, b.r);
    forall post | post in a.posts + b.posts ensures Handled(run[j].s, post) {
      if post in a.posts { HandledStays(run, i, j, post); }
    }
    SameIdsSamePosts(run[j].s, a.posts, b.posts);
  }

  /** The round trip: whatever server stores a rumor, however it has handled the messages since and
      whenever it rebuilds it, it rebuilds the posts first broadcast, each once. */
  lemma RebuiltAsBroadcast(run: seq<World>, i: nat, q: Sender, j: nat, p: Sender, params: Params)
    requires IsCourse(run) && i < j < |run| && OneChannel(run[j].s)
    requires Goes(run[i], Send(q), run[i + 1])
    requires p in run[j].s.nodes && HasDraft(run[j].s.nodes[p].t) && params.key in Finished(run[j].s.nodes[p].t)
    requires params.key == Draft(run[i].s.nodes[q].t) && Rebuilds(run[j].s.nodes[p].t, params.key, params)
    ensures DistinctMsgs(params.messages) && params.ts == Vector(run[i].s.nodes[q].t)
    ensures PostSet(params.messages) == ProcessedRows(run[i].s.nodes[q].t, params.key)
  {
    var t, u := run[i].s.nodes[q].t, run[j].s.nodes[p].t;
    CourseIsRun(run);
    ReplayedAsBroadcast(Systems(run), i, q, j, p, params);
    CourseOk(run, i);
    CourseOk(run, j);
    assert LeftOk(run[i].s, t) && LeftOk(run[j].s, u);
    IdsOf(params.messages);
    RebuiltPosts(u, params.key, params);
    var sent, rebuilt := ProcessedRows(t, params.key), PostSet(params.messages);
    forall post | post in sent + rebuilt ensures Handled(run[j].s, post) {
      if post in rebuilt {
        RowsHandled(run[j].s, p, params.key, post);
      } else {
        RowsHandled(run[i].s, q, params.key, post);
        HandledStays(run, i, j, post);
      }
    }
    SameIdsSamePosts(run[j].s, sent, rebuilt);
  }

  // --------------------------------------------------------- under two channels

  /** What comes with a rumor, handled or not. */
  ghost predicate Came(t: Tables, posts: set<Post>, unprocessed: seq<Post>, processed: seq<MsgId>) {
    posts == PostSet(unprocessed) + (set post | post in t.channelMessage && IsBase(t, post) && post.msg in processed)
  }

  lemma {:induction false} FirstChannel(t: map<MsgId, ChannelPath>, posts: seq<Post>, post: Post)
    requires DistinctMsgs(posts) && post in posts
    ensures post.msg in InsertOrIgnore(t, posts)
    ensures InsertOrIgnore(t, posts)[post.msg] == if post.msg in t then t[post.msg] else post.channel
  {
    var init, last := posts[..|posts| - 1], posts[|posts| - 1];
    if post in init {
      FirstChannel(t, init, post);
    } else {
      assert last == post;
      assert forall i :: 0 <= i < |init| ==> init[i] == posts[i];
      assert post.msg !in MsgsOf(init);
    }
  }

  lemma RowsAfterStore(t: Tables, k: Key, ts: Timestamp, unprocessed: seq<Post>, processed: seq<MsgId>, t': Tables,
                       post: Post)
    requires Valid(t) && Storable(t, k, unprocessed, processed)
    requires StoreRumor(t, k, ts, unprocessed, processed) == Some(t')
    ensures post in ProcessedRows(t', k) <==> IsBase(t, post) && post.msg in processed
    ensures post in UnprocessedRows(t', k) <==>
            post.msg in MsgsOf(unprocessed) &&
            post.channel == InsertOrIgnore(t.unprocessedMessage, unprocessed)[post.msg]
  {
    var m := post.msg;
    assert Rel(m, k) !in t.messageRumor && Rel(m, k) !in t.unprocessedMessageRumor;
    assert Rel(m, k) in t'.messageRumor <==> m in processed;
    assert Rel(m, k) in t'.unprocessedMessageRumor <==> m in MsgsOf(unprocessed);
  }

  /** Whether the message was not left before under another channel. */
  ghost predicate Fresh(t: Tables, post: Post) {
    post.msg in t.unprocessedMessage ==> t.unprocessedMessage[post.msg] == post.channel
  }

  /** An unhandled message is read back under the channel it came on exactly then. */
  lemma PostAfterStore(t: Tables, k: Key, ts: Timestamp, unprocessed: seq<Post>, processed: seq<MsgId>, t': Tables,
                       post: Post)
    requires Valid(t) && Storable(t, k, unprocessed, processed) && post in unprocessed
    requires StoreRumor(t, k, ts, unprocessed, processed) == Some(t')
    ensures post in ProcessedRows(t', k) + UnprocessedRows(t', k) <==> Fresh(t, post)
  {
    RowsAfterStore(t, k, ts, unprocessed, processed, t', post);
    FirstChannel(t.unprocessedMessage, unprocessed, post);
    var i :| 0 <= i < |unprocessed| && unprocessed[i] == post;
    assert post.msg in MsgsOf(unprocessed);
  }

  /** Storing a rumor keeps the posts it came with exactly when none of its unhandled messages was
      left before under another channel. */
  lemma StoredPostsExactly(t: Tables, k: Key, ts: Timestamp, unprocessed: seq<Post>, processed: seq<MsgId>, t': Tables,
                           posts: set<Post>)
    requires Valid(t) && Storable(t, k, unprocessed, processed) && Came(t, posts, unprocessed, processed)
    requires StoreRumor(t, k, ts, unprocessed, processed) == Some(t')
    ensures ProcessedRows(t', k) + UnprocessedRows(t', k) == posts <==>
            forall post :: post in unprocessed ==> Fresh(t, post)
  {
    var rows := ProcessedRows(t', k) + UnprocessedRows(t', k);
    if forall post :: post in unprocessed ==> Fresh(t, post) {
      forall post ensures post in rows <==> post in posts {
        RowsAfterStore(t, k, ts, unprocessed, processed, t', post);
        if post in unprocessed { PostAfterStore(t, k, ts, unprocessed, processed, t', post); }
        if post.msg in MsgsOf(unprocessed) {
          var i :| 0 <= i < |unprocessed| && unprocessed[i].msg == post.msg;
          FirstChannel(t.unprocessedMessage, unprocessed, unprocessed[i]);
          assert Fresh(t, unprocessed[i]);
        }
      }
    } else {
      var post :| post in unprocessed && !Fresh(t, post);
      PostAfterStore(t, k, ts, unprocessed, processed, t', post);
      assert post in posts;
    }
  }

  /** It can happen: a server that has just started stores a rumor of x with the message on one channel
      and then one of y with it on another, handles neither, and rebuilds the second under the first
      channel. */
  lemma SomeChannelIsLost(z: Sender, x: Sender, y: Sender, a: ChannelPath, b: ChannelPath, m: MsgId)
    returns (t: Tables, t1: Tables, t2: Tables)
    requires x != z && y != z && x != y && a != b
    ensures t == StoreFirstRumor(EmptyTables(z))
    ensures StoreRumor(t, Key(0, x), map[], [Post(a, m)], []) == Some(t1)
    ensures StoreRumor(t1, Key(0, y), map[], [Post(b, m)], []) == Some(t2)
    ensures Post(b, m) !in ProcessedRows(t2, Key(0, y)) + UnprocessedRows(t2, Key(0, y))
    ensures Post(a, m) in UnprocessedRows(t2, Key(0, y))
  {
    t := StoreFirstRumor(EmptyTables(z));
    FirstStartIsValid(z);
    var none: seq<MsgId> := [];
    StoreRumorSucceeds(t, Key(0, x), map[], [Post(a, m)], none);
    t1 := StoreRumor(t, Key(0, x), map[], [Post(a, m)], none).value;
    StoreRumorKeeps(t, Key(0, x), map[], [Post(a, m)], none, t1);
    StoreRumorSucceeds(t1, Key(0, y), map[], [Post(b, m)], none);
    t2 := StoreRumor(t1, Key(0, y), map[], [Post(b, m)], none).value;
    var first, second := [Post(a, m)], [Post(b, m)];
    assert Post(a, m) in first && Post(b, m) in second;
    FirstChannel(t.unprocessedMessage, first, Post(a, m));
    FirstChannel(t1.unprocessedMessage, second, Post(b, m));
    PostAfterStore(t1, Key(0, y), map[], second, none, t2, Post(b, m));
    assert second[0].msg == m;
    RowsAfterStore(t1, Key(0, y), map[], second, none, t2, Post(a, m));
  }
}
