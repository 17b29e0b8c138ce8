/**
 * The Zulip side of `runZulip`: each retrieved batch of queue events is
 * filtered and forwarded to Slack, and the queue cursor `last_event_id`
 * moves to the last event of the batch.
 */
module ZulipPoll {
  import opened Bridges
  import opened Messages
  import opened Forwarding

  /** The bridge's own Zulip account: its messages are never sent back to Slack. */
  const BotEmail: string := "slack-bridge-bot@zulip.superbiche.co"

  /** An event is handed to `forwardToSlack` when it is a message not sent by the bot. */
  predicate Relays(e: ZulipEvent) {
    e.MessageEvent? && e.message.senderEmail != BotEmail
  }

  /** The messages of a batch handed to `forwardToSlack`, in batch order. */
  function Relayed(events: seq<ZulipEvent>): (ms: seq<ZulipMessage>)
    ensures |ms| <= |events|
    ensures forall k :: 0 <= k < |ms| ==> ms[k].senderEmail != BotEmail
  {
    if |events| == 0 then []
    else
      var last := events[|events| - 1];
      Relayed(events[..|events| - 1]) + (if Relays(last) then [last.message] else [])
  }

  /**
   * Exactly the messages of the batch that the bot did not send are
   * relayed; heartbeats contribute nothing.
   */
  lemma {:induction false} RelayedMembers(events: seq<ZulipEvent>, m: ZulipMessage)
    ensures m in Relayed(events) <==>
      m.senderEmail != BotEmail && exists e :: e in events && e == MessageEvent(e.id, m)
  {
    if |events| > 0 {
      var init, last := events[..|events| - 1], events[|events| - 1];
      assert events == init + [last];
      RelayedMembers(init, m);
      if m.senderEmail != BotEmail && m !in Relayed(init) && last == MessageEvent(last.id, m) {
        assert Relays(last);
      }
    }
  }

  /** Filtering two batches in a row is filtering their concatenation. */
  lemma {:induction false} RelayedConcat(a: seq<ZulipEvent>, b: seq<ZulipEvent>)
    ensures Relayed(a + b) == Relayed(a) + Relayed(b)
    decreases |b|
  {
    if |b| > 0 {
      var init := b[..|b| - 1];
      assert (a + b)[..|a + b| - 1] == a + init;
      RelayedConcat(a, init);
    } else {
      assert a + b == a;
    }
  }

  /** The Slack posts issued for the relayed messages of a batch, in batch order. */
  function PostsFor(rows: seq<Bridge>, ms: seq<ZulipMessage>): (posts: seq<Request>)
    ensures |posts| <= |ms|
    ensures forall k :: 0 <= k < |posts| ==> posts[k].SlackPost? && posts[k].threadTs.None?
  {
    if |ms| == 0 then []
    else PostsFor(rows, ms[..|ms| - 1]) + ForwardToSlack(rows, ms[|ms| - 1]).requests
  }

  /**
   * Each message gets the one post `forwardToSlack` issues for it, and a
   * message whose stream and topic no row targets gets none.
   */
  lemma {:induction false} PostsForMembers(rows: seq<Bridge>, ms: seq<ZulipMessage>, p: Request)
    ensures p in PostsFor(rows, ms) <==> exists m :: m in ms && ForwardToSlack(rows, m).requests == [p]
  {
    if |ms| > 0 {
      var init, last := ms[..|ms| - 1], ms[|ms| - 1];
      assert ms == init + [last];
      PostsForMembers(rows, init, p);
      var r := ForwardToSlack(rows, last).requests;
      assert p in r <==> r == [p];
    }
  }

  /** Posting for two runs of messages is posting for their concatenation. */
  lemma {:induction false} PostsForConcat(rows: seq<Bridge>, a: seq<ZulipMessage>, b: seq<ZulipMessage>)
    ensures PostsFor(rows, a + b) == PostsFor(rows, a) + PostsFor(rows, b)
    decreases |b|
  {
    if |b| > 0 {
      var init := b[..|b| - 1];
      assert (a + b)[..|a + b| - 1] == a + init;
      PostsForConcat(rows, a, init);
    } else {
      assert a + b == a;
    }
  }

  /**
   * The `forEach` over one batch: heartbeats and the bot's own messages
   * are skipped, every other message goes to `forwardToSlack`.
   */
  method DispatchBatch(rows: seq<Bridge>, events: seq<ZulipEvent>) returns (relayed: seq<ZulipMessage>, posts: seq<Request>)
    ensures relayed == Relayed(events)
    ensures posts == PostsFor(rows, relayed)
  {
    relayed, posts := [], [];
    for i := 0 to |events|
      invariant relayed == Relayed(events[..i])
      invariant posts == PostsFor(rows, relayed)
    {
      assert events[..i + 1][..i] == events[..i];
      var e := events[i];
      if e.Heartbeat? {
        continue;
      }
      if e.message.senderEmail == BotEmail {
        continue;
      }
      var plan := ForwardToSlack(rows, e.message);
      relayed := relayed + [e.message];
      posts := posts + plan.requests;
    }
    assert events[..|events|] == events;
  }

  /** The id of the last event of a non-empty batch. */
  function LastId(events: seq<ZulipEvent>): int
    requires |events| > 0
  {
    events[|events| - 1].id
  }

  /**
   * The polling loop's state: the registered queue and the cursor sent
   * with each `events.retrieve`. `running` turns false when a batch is
   * empty, where the source reads past the end of the batch and throws,
   * which ends the loop.
   */
  class Poller {
    const queueId: string
    var lastEventId: int
    var running: bool

    /** After queue registration the cursor is -1. */
    constructor (queueId: string)
      ensures this.queueId == queueId && lastEventId == -1 && running
    {
      this.queueId := queueId;
      lastEventId := -1;
      running := true;
    }

    /**
     * One iteration of the `while (1)` loop, for one retrieved batch. A
     * failed or error retrieve also ends the loop with nothing dispatched;
     * an empty batch stands for it.
     */
    method Step(table: BridgeTable, events: seq<ZulipEvent>) returns (relayed: seq<ZulipMessage>, posts: seq<Request>)
      requires running
      modifies this
      ensures relayed == Relayed(events) && posts == PostsFor(table.rows, relayed)
      ensures |events| > 0 ==> running && lastEventId == LastId(events)
      ensures |events| == 0 ==> !running && lastEventId == old(lastEventId)
    {
      relayed, posts := DispatchBatch(table.rows, events);
      if |events| == 0 {
        running := false;
      } else {
        lastEventId := events[|events| - 1].id;
      }
    }

    /**
     * The loop over the batches successive `events.retrieve` calls return.
     * `cursors[k]` is the `last_event_id` sent to fetch batch `k`. The loop
     * stops after the first empty batch. The posts are those of each
     * retrieved batch in turn (BatchPostsFlatten: those of all their
     * relayed messages, in order).
     * The table stays fixed for the whole run; a link or unlink between two
     * batches is described by interleaving Step with OnMessage.
     */
    method Run(table: BridgeTable, batches: seq<seq<ZulipEvent>>) returns (cursors: seq<int>, posts: seq<Request>)
      requires running
      modifies this
      ensures running <==> FirstEmpty(batches) == |batches|
      ensures |cursors| == if running then |batches| else FirstEmpty(batches) + 1
      ensures cursors == Cursors(old(lastEventId), batches, |cursors|)
      ensures lastEventId == CursorAfter(old(lastEventId), batches, FirstEmpty(batches))
      ensures running && |batches| == 0 ==> lastEventId == old(lastEventId)
      ensures posts == BatchPosts(table.rows, batches, |cursors|)
    {
      cursors, posts := [], [];
      ghost var rows := table.rows;
      ghost var startId := lastEventId;
      var n := 0;
      while n < |batches|
        invariant n <= FirstEmpty(batches) && |cursors| == n && running
        invariant cursors == Cursors(startId, batches, n)
        invariant lastEventId == CursorAfter(startId, batches, n)
        invariant table.rows == rows
        invariant posts == BatchPosts(rows, batches, n)
      {
        cursors := cursors + [lastEventId];
        assert cursors == Cursors(startId, batches, n + 1);
        var _, batchPosts := Step(table, batches[n]);
        posts := posts + batchPosts;
        assert posts == BatchPosts(rows, batches, n + 1);
        n := n + 1;
        if !running {
          break;
        }
      }
    }
  }

  /** Where the first empty batch sits, or the number of batches when none is empty. */
  function FirstEmpty(batches: seq<seq<ZulipEvent>>): (i: nat)
    ensures i <= |batches|
    ensures i < |batches| ==> |batches[i]| == 0
    ensures forall k :: 0 <= k < i ==> |batches[k]| > 0
  {
    if |batches| == 0 || |batches[0]| == 0 then 0 else 1 + FirstEmpty(batches[1..])
  }

  /**
   * The cursor after the first `n` batches, none of them empty: the one
   * the loop started with, then the id of the last event of batch `n - 1`.
   */
  function CursorAfter(start: int, batches: seq<seq<ZulipEvent>>, n: nat): int
    requires n <= FirstEmpty(batches)
  {
    if n == 0 then start else LastId(batches[n - 1])
  }

  /** The cursors sent to fetch the first `n` batches, one per batch. */
  function Cursors(start: int, batches: seq<seq<ZulipEvent>>, n: nat): (cursors: seq<int>)
    requires n <= FirstEmpty(batches) + 1 && n <= |batches|
    ensures |cursors| == n
  {
    if n == 0 then [] else Cursors(start, batches, n - 1) + [CursorAfter(start, batches, n - 1)]
  }

  /**
   * Batch `k` is fetched with the cursor left by the batches before it:
   * the starting one for the first, then the id of the last event of the
   * batch before.
   */
  lemma {:induction false} CursorsAt(start: int, batches: seq<seq<ZulipEvent>>, n: nat, k: nat)
    requires n <= FirstEmpty(batches) + 1 && n <= |batches| && k < n
    ensures Cursors(start, batches, n)[k] == if k == 0 then start else LastId(batches[k - 1])
  {
    if k < n - 1 {
      CursorsAt(start, batches, n - 1, k);
    }
  }

  /** The posts of the first `n` batches, batch after batch. */
  function BatchPosts(rows: seq<Bridge>, batches: seq<seq<ZulipEvent>>, n: nat): seq<Request>
    requires n <= |batches|
  {
    if n == 0 then [] else BatchPosts(rows, batches, n - 1) + PostsFor(rows, Relayed(batches[n - 1]))
  }

  /** Posting batch after batch is posting for all their events in order. */
  lemma {:induction false} BatchPostsFlatten(rows: seq<Bridge>, batches: seq<seq<ZulipEvent>>, n: nat)
    requires n <= |batches|
    ensures BatchPosts(rows, batches, n) == PostsFor(rows, Relayed(Flatten(batches[..n])))
  {
    if n == 0 {
      assert batches[..0] == [];
    } else {
      var init, last := batches[..n - 1], batches[n - 1];
      assert batches[..n] == init + [last];
      FlattenSnoc(init, last);
      RelayedConcat(Flatten(init), last);
      PostsForConcat(rows, Relayed(Flatten(init)), Relayed(last));
      BatchPostsFlatten(rows, batches, n - 1);
    }
  }

  /** All events of a sequence of batches, in order. */
  function Flatten(batches: seq<seq<ZulipEvent>>): (events: seq<ZulipEvent>)
  {
    if |batches| == 0 then [] else batches[0] + Flatten(batches[1..])
  }

  lemma {:induction false} FlattenSnoc(batches: seq<seq<ZulipEvent>>, b: seq<ZulipEvent>)
    ensures Flatten(batches + [b]) == Flatten(batches) + b
  {
    if |batches| > 0 {
      assert (batches + [b])[1..] == batches[1..] + [b];
      FlattenSnoc(batches[1..], b);
    } else {
      assert Flatten([b]) == b + Flatten([]);
    }
  }
}
