/** The bounded retry of messages fetched from another server,
    from handler/answer/hanswer/answer.go. A message may need
    others handled before it, on its own channel or on others;
    a round tries every message once, channel by channel. */
module Retry {
  import opened Basics

  const MAX_RETRY: nat := 10

  datatype Message = Message(messageID: string, data: string)

  datatype Item = Item(channel: string, id: string)

  datatype Attempt = Attempt(item: Item, ok: bool)

  type Batch = map<string, map<string, Message>>

  predicate Pending(b: Batch, i: Item) {
    i.channel in b && i.id in b[i.channel]
  }

  function Successes(h: seq<Attempt>, i: Item): nat {
    if h == [] then 0 else
      Successes(h[..|h| - 1], i) + if h[|h| - 1] == Attempt(i, true) then 1 else 0
  }

  /** How far one message has come: a pending one is unchanged and never succeeded, one no longer
      pending succeeded once. */
  ghost predicate Account(was: Batch, now: Batch, h: seq<Attempt>, i: Item) {
    (Pending(now, i) ==> Pending(was, i) && now[i.channel][i.id] == was[i.channel][i.id]) &&
    Successes(h, i) == if Pending(was, i) && !Pending(now, i) then 1 else 0
  }

  ghost predicate Balanced(was: Batch, now: Batch, h: seq<Attempt>) {
    forall i :: Account(was, now, h, i)
  }

  function Dropped(b: Batch, i: Item): Batch
    requires i.channel in b
  {
    b[i.channel := b[i.channel] - {i.id}]
  }

  lemma AttemptBalances(was: Batch, now: Batch, h: seq<Attempt>, i: Item, ok: bool)
    requires Balanced(was, now, h) && Pending(now, i)
    ensures Balanced(was, if ok then Dropped(now, i) else now, h + [Attempt(i, ok)])
  {
    var after := if ok then Dropped(now, i) else now;
    forall j ensures Account(was, after, h + [Attempt(i, ok)], j) {
      assert Account(was, now, h, j);
    }
  }

  lemma CloseBalances(was: Batch, now: Batch, h: seq<Attempt>, c: string)
    requires Balanced(was, now, h) && c in now && now[c] == map[]
    ensures Balanced(was, now - {c}, h)
  {
    forall i ensures Account(was, now - {c}, h, i) {
      assert Account(was, now, h, i);
    }
  }

  // ---------- When a message can be handled ----------

  /** What a message needs, and how Handle judges a message after a history of attempts. */
  type Needs = Item -> set<Item>
  type Verdict = (seq<Attempt>, Item, Message) -> bool

  ghost predicate Met(needs: Needs, was: Batch, h: seq<Attempt>, i: Item) {
    forall p :: p in needs(i) && Pending(was, p) ==> Successes(h, p) > 0
  }

  /** Handle accepts a message at the latest when everything it needs of this batch is handled. */
  ghost predicate Honest(verdict: Verdict, needs: Needs, was: Batch) {
    forall h: seq<Attempt>, i: Item :: Pending(was, i) && Met(needs, was, h, i) ==>
      verdict(h, i, was[i.channel][i.id])
  }

  /** Handled by the end of round k: every need is met in an earlier round, or in the same round on
      a channel with a shorter name (which comes earlier in the round). */
  ghost predicate Within(needs: Needs, was: Batch, k: nat, i: Item)
    decreases k, |i.channel|
  {
    k > 0 && forall p :: p in needs(i) && Pending(was, p) ==>
      Within(needs, was, k - 1, p) || (|p.channel| < |i.channel| && Within(needs, was, k, p))
  }

  /** Nothing that is due by round k is still pending. */
  ghost predicate DueDone(needs: Needs, was: Batch, now: Batch, k: nat) {
    forall i :: Pending(was, i) && Within(needs, was, k, i) ==> !Pending(now, i)
  }

  /** In round k, the same for the messages on the channels `cs`. */
  ghost predicate DueDoneOn(needs: Needs, was: Batch, now: Batch, k: nat, cs: seq<string>) {
    forall i :: Pending(was, i) && Within(needs, was, k, i) && i.channel in cs ==> !Pending(now, i)
  }

  lemma DueIsMet(needs: Needs, was: Batch, now: Batch, h: seq<Attempt>, k: nat, cs: seq<string>, rest: seq<string>,
                 i: Item)
    requires Balanced(was, now, h) && k > 0
    requires DueDone(needs, was, now, k - 1) && DueDoneOn(needs, was, now, k, cs)
    requires Within(needs, was, k, i)
    requires forall j: Item :: Pending(now, j) ==> j.channel in cs || j.channel in rest
    requires forall c :: c in rest ==> |i.channel| <= |c|
    ensures Met(needs, was, h, i)
  {
    forall p | p in needs(i) && Pending(was, p) ensures Successes(h, p) > 0 {
      assert Account(was, now, h, p);
      assert !Pending(now, p);
    }
  }

  // ---------- Channels by length ----------

  predicate ByLength(s: seq<string>) {
    forall i, j :: 0 <= i < j < |s| ==> |s[i]| <= |s[j]|
  }

  function InsertByLength(c: string, s: seq<string>): (r: seq<string>)
    ensures multiset(r) == multiset(s) + multiset{c}
  {
    if s == [] || |c| <= |s[0]| then [c] + s else
      assert s == [s[0]] + s[1..];
      [s[0]] + InsertByLength(c, s[1..])
  }

  lemma {:induction false} InsertKeepsOrder(c: string, s: seq<string>)
    requires ByLength(s)
    ensures ByLength(InsertByLength(c, s))
  {
    if s != [] && |c| > |s[0]| {
      InsertKeepsOrder(c, s[1..]);
      var rest := InsertByLength(c, s[1..]);
      forall j | 0 <= j < |rest| ensures |s[0]| <= |rest[j]| {
        assert rest[j] in multiset(rest);
        if rest[j] != c {
          assert rest[j] in s[1..];
        }
      }
    }
  }

  /** The library sort, which may leave channels of equal length in any order. */
  function SortByLength(s: seq<string>): (r: seq<string>)
    ensures ByLength(r) && multiset(r) == multiset(s)
  {
    if s == [] then [] else
      assert s == [s[0]] + s[1..];
      var rest := SortByLength(s[1..]);
      assert ByLength(InsertByLength(s[0], rest)) by { InsertKeepsOrder(s[0], rest); }
      InsertByLength(s[0], rest)
  }

  // ---------- The loops ----------

  /** The answer being handled: the messages still to do, and the attempts so far. What the server
      held before is part of the verdict. */
  class Handler {
    const verdict: Verdict
    var msgsByChannel: Batch
    var history: seq<Attempt>

    constructor (v: Verdict, b: Batch)
      ensures verdict == v && msgsByChannel == b && history == []
    {
      verdict, msgsByChannel, history := v, b, [];
    }

    method Handle(i: Item, msg: Message) returns (ok: bool)
      modifies this`history
      ensures ok == verdict(old(history), i, msg) && history == old(history) + [Attempt(i, ok)]
    {
      ok := verdict(history, i, msg);
      history := history + [Attempt(i, ok)];
    }

    method GetSortedChannels() returns (s: seq<string>)
      ensures NoDup(s) && ByLength(s) && forall c :: c in s <==> c in msgsByChannel
    {
      s := [];
      var todo := msgsByChannel.Keys;
      while todo != {}
        invariant todo <= msgsByChannel.Keys
        invariant NoDup(s) && forall c :: c in s <==> c in msgsByChannel && c !in todo
        decreases |todo|
      {
        var c :| c in todo;
        s := s + [c];
        todo := todo - {c};
      }
      NoDupPermuted(s, SortByLength(s));
      s := SortByLength(s);
    }

    method TryMessage(channel: string, msgID: string, ghost needs: Needs, ghost was: Batch, ghost first: Batch)
      requires channel in msgsByChannel && msgID in msgsByChannel[channel]
      requires Narrowed(first, msgsByChannel, channel)
      requires Balanced(was, msgsByChannel, history) && Honest(verdict, needs, was)
      modifies this`msgsByChannel, this`history
      ensures Balanced(was, msgsByChannel, history)
      ensures Narrowed(first, msgsByChannel, channel)
      ensures msgsByChannel[channel] == old(msgsByChannel)[channel] ||
              msgsByChannel[channel] == old(msgsByChannel)[channel] - {msgID}
      ensures Met(needs, was, old(history), Item(channel, msgID)) ==> !Pending(msgsByChannel, Item(channel, msgID))
    {
      ghost var i := Item(channel, msgID);
      assert Account(was, msgsByChannel, history, i);
      AttemptBalances(was, msgsByChannel, history, i, verdict(history, i, msgsByChannel[channel][msgID]));
      var ok := Handle(Item(channel, msgID), msgsByChannel[channel][msgID]);
      if ok {
        msgsByChannel := msgsByChannel[channel := msgsByChannel[channel] - {msgID}];
      }
    }

    /** One channel of a round; its messages are visited in any order. */
    method TryChannel(channel: string, ghost needs: Needs, ghost was: Batch, ghost k: nat, ghost cs: seq<string>,
                      ghost rest: seq<string>)
      requires channel in msgsByChannel && channel !in cs && k > 0
      requires Balanced(was, msgsByChannel, history) && Honest(verdict, needs, was)
      requires DueDone(needs, was, msgsByChannel, k - 1) && DueDoneOn(needs, was, msgsByChannel, k, cs)
      requires forall j: Item :: Pending(msgsByChannel, j) ==> j.channel in cs || j.channel in rest
      requires forall c :: c in rest ==> |channel| <= |c|
      modifies this`msgsByChannel, this`history
      ensures Balanced(was, msgsByChannel, history)
      ensures DueDone(needs, was, msgsByChannel, k - 1) && DueDoneOn(needs, was, msgsByChannel, k, cs + [channel])
      ensures msgsByChannel.Keys == old(msgsByChannel).Keys || msgsByChannel.Keys == old(msgsByChannel).Keys - {channel}
      ensures forall c :: c in msgsByChannel && c != channel ==> msgsByChannel[c] == old(msgsByChannel)[c]
      ensures channel in msgsByChannel ==> msgsByChannel[channel] != map[]
    {
      var todo := msgsByChannel[channel].Keys;
      while todo != {}
        invariant Narrowed(old(msgsByChannel), msgsByChannel, channel) && todo <= msgsByChannel[channel].Keys
        invariant Balanced(was, msgsByChannel, history)
        invariant forall id :: id in msgsByChannel[channel] && Within(needs, was, k, Item(channel, id)) ==> id in todo
        decreases |todo|
      {
        var msgID :| msgID in todo;
        NarrowedPending(old(msgsByChannel), msgsByChannel, channel);
        if Within(needs, was, k, Item(channel, msgID)) {
          DueIsMet(needs, was, msgsByChannel, history, k, cs, rest, Item(channel, msgID));
        }
        TryMessage(channel, msgID, needs, was, old(msgsByChannel));
        todo := todo - {msgID};
      }
      NarrowedPending(old(msgsByChannel), msgsByChannel, channel);
      ChannelDone(needs, was, msgsByChannel, k, cs, channel);
      if |msgsByChannel[channel]| == 0 {
        CloseBalances(was, msgsByChannel, history, channel);
        msgsByChannel := msgsByChannel - {channel};
      }
    }

    /** One round over the channels, shortest names first. */
    method TryToHandleMessages(sorted: seq<string>, ghost needs: Needs, ghost was: Batch, ghost k: nat)
      requires NoDup(sorted) && ByLength(sorted) && (forall c :: c in sorted <==> c in msgsByChannel) && k > 0
      requires Balanced(was, msgsByChannel, history) && Honest(verdict, needs, was)
      requires DueDone(needs, was, msgsByChannel, k - 1)
      modifies this`msgsByChannel, this`history
      ensures Balanced(was, msgsByChannel, history)
      ensures DueDone(needs, was, msgsByChannel, k)
      ensures forall c :: c in msgsByChannel ==> msgsByChannel[c] != map[]
    {
      var n := 0;
      while n < |sorted|
        invariant n <= |sorted|
        invariant Balanced(was, msgsByChannel, history)
        invariant DueDone(needs, was, msgsByChannel, k - 1) && DueDoneOn(needs, was, msgsByChannel, k, sorted[..n])
        invariant msgsByChannel.Keys <= old(msgsByChannel).Keys
        invariant forall j :: n <= j < |sorted| ==> sorted[j] in msgsByChannel
        invariant forall j :: 0 <= j < n && sorted[j] in msgsByChannel ==> msgsByChannel[sorted[j]] != map[]
      {
        TryChannel(sorted[n], needs, was, k, sorted[..n], sorted[n..]);
        n := n + 1;
      }
      assert sorted[..n] == sorted;
    }

    /** At most MAX_RETRY rounds. Nothing is lost and nothing handled twice; whatever the order of the
        maps and of the channels of equal length, what is due within MAX_RETRY rounds is handled. */
    method HandleMessagesByChannel(ghost needs: Needs)
      requires history == [] && Honest(verdict, needs, msgsByChannel)
      modifies this`msgsByChannel, this`history
      ensures Balanced(old(msgsByChannel), msgsByChannel, history)
      ensures DueDone(needs, old(msgsByChannel), msgsByChannel, MAX_RETRY)
      ensures AllDue(needs, old(msgsByChannel), MAX_RETRY) ==> msgsByChannel == map[]
    {
      ghost var was := msgsByChannel;
      for r := 0 to MAX_RETRY
        invariant Balanced(was, msgsByChannel, history)
        invariant DueDone(needs, was, msgsByChannel, r)
        invariant r > 0 ==> forall c :: c in msgsByChannel ==> msgsByChannel[c] != map[]
      {
        var sorted := GetSortedChannels();
        TryToHandleMessages(sorted, needs, was, r + 1);
        if |msgsByChannel| == 0 { return; }
      }
      if AllDue(needs, was, MAX_RETRY) {
        NothingLeft(needs, was, msgsByChannel, history, MAX_RETRY);
      }
    }
  }

  /** Only this channel has changed, by losing messages. */
  ghost predicate Narrowed(was: Batch, now: Batch, channel: string) {
    channel in was && now.Keys == was.Keys && now[channel].Keys <= was[channel].Keys &&
    forall c :: c in now && c != channel ==> now[c] == was[c]
  }

  lemma NarrowedPending(was: Batch, now: Batch, channel: string)
    requires Narrowed(was, now, channel)
    ensures forall j: Item :: Pending(now, j) ==> Pending(was, j)
  {
  }

  lemma ChannelDone(needs: Needs, was: Batch, now: Batch, k: nat, cs: seq<string>, channel: string)
    requires channel in now && DueDoneOn(needs, was, now, k, cs)
    requires forall id :: id in now[channel] ==> !Within(needs, was, k, Item(channel, id))
    ensures DueDoneOn(needs, was, now, k, cs + [channel])
  {
    forall i | Pending(was, i) && Within(needs, was, k, i) && i.channel in cs + [channel]
      ensures !Pending(now, i)
    {
      if i.channel == channel { assert i == Item(channel, i.id); }
    }
  }

  ghost predicate AllDue(needs: Needs, was: Batch, k: nat) {
    forall i :: Pending(was, i) ==> Within(needs, was, k, i)
  }

  lemma NothingLeft(needs: Needs, was: Batch, now: Batch, h: seq<Attempt>, k: nat)
    requires AllDue(needs, was, k) && DueDone(needs, was, now, k) && Balanced(was, now, h)
    requires forall c :: c in now ==> now[c] != map[]
    ensures now == map[]
  {
    if c :| c in now {
      var id :| id in now[c];
      assert Account(was, now, h, Item(c, id));
      assert Pending(now, Item(c, id));
      assert false;
    }
  }

  /** Any numbering of the messages in which a need comes strictly earlier bounds the rounds. */
  lemma {:induction false} DepthBounds(needs: Needs, was: Batch, depth: Item -> nat, k: nat, i: Item)
    requires forall j, p :: Pending(was, j) && p in needs(j) && Pending(was, p) ==> depth(p) < depth(j)
    requires Pending(was, i) && depth(i) < k
    ensures Within(needs, was, k, i)
    decreases k
  {
    forall p | p in needs(i) && Pending(was, p) ensures Within(needs, was, k - 1, p) {
      DepthBounds(needs, was, depth, k - 1, p);
    }
  }
}
