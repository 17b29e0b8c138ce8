/**
 * The two forwarding directions, as the requests each issues and the
 * boolean each returns.
 */
module Forwarding {
  import opened Wrappers
  import opened Bridges
  import opened Messages

  /** The Zulip markdown link posted for a Slack attachment: `[name](url)`. */
  function FileLink(f: SlackFile): string {
    "[" + f.name + "](" + f.urlPrivate + ")"
  }

  /** The requests of a forward and its boolean result. */
  datatype Plan = Plan(requests: seq<Request>, forwarded: bool)

  /** One link message per file, in file order, to the bridge's stream and topic. */
  function FileSends(b: Bridge, files: seq<SlackFile>): (r: seq<Request>)
    ensures |r| == |files|
    ensures forall k :: 0 <= k < |files| ==> r[k] == ZulipSend(b.zulipStream, b.zulipTopic, FileLink(files[k]))
  {
    if |files| == 0 then []
    else [ZulipSend(b.zulipStream, b.zulipTopic, FileLink(files[0]))] + FileSends(b, files[1..])
  }

  /**
   * `forwardToZulip`: when a row is linked to the message's channel, the
   * first such row gives the destination; a link message per attached
   * file goes there, then the text.
   */
  function ForwardToZulip(rows: seq<Bridge>, m: SlackMessage): (r: Plan)
    ensures r.forwarded <==> exists i :: 0 <= i < |rows| && rows[i].slackChannelId == m.channel
    ensures !r.forwarded ==> r.requests == []
    ensures r.forwarded ==>
      exists i :: 0 <= i < |rows| && rows[i].slackChannelId == m.channel &&
        (forall j :: 0 <= j < i ==> rows[j].slackChannelId != m.channel) &&
        |r.requests| == |m.files| + 1 &&
        (forall k :: 0 <= k < |m.files| ==>
          r.requests[k] == ZulipSend(rows[i].zulipStream, rows[i].zulipTopic, FileLink(m.files[k]))) &&
        r.requests[|m.files|] == ZulipSend(rows[i].zulipStream, rows[i].zulipTopic, m.text)
  {
    match FindOne(rows, ChannelIs(m.channel))
    case None => Plan([], false)
    case Some(b) =>
      Plan(FileSends(b, m.files) + [ZulipSend(b.zulipStream, b.zulipTopic, m.text)], true)
  }

  /**
   * `forwardToSlack`: when a row is linked to both the message's stream and
   * its topic, the first such row's channel receives the content, once.
   */
  function ForwardToSlack(rows: seq<Bridge>, m: ZulipMessage): (r: Plan)
    ensures r.forwarded <==>
      exists i :: 0 <= i < |rows| && rows[i].zulipStream == m.displayRecipient && rows[i].zulipTopic == m.subject
    ensures !r.forwarded ==> r.requests == []
    ensures r.forwarded ==>
      exists i :: 0 <= i < |rows| && rows[i].zulipStream == m.displayRecipient && rows[i].zulipTopic == m.subject &&
        (forall j :: 0 <= j < i ==> !(rows[j].zulipStream == m.displayRecipient && rows[j].zulipTopic == m.subject)) &&
        r.requests == [SlackPost(rows[i].slackChannelId, m.content, None)]
  {
    match FindOne(rows, TargetIs(m.displayRecipient, m.subject))
    case None => Plan([], false)
    case Some(b) => Plan([SlackPost(b.slackChannelId, m.content, None)], true)
  }

  /** After `zulip/unlink` in a channel, its messages are no longer forwarded. */
  lemma UnlinkedChannelNotForwarded(rows: seq<Bridge>, m: SlackMessage)
    ensures ForwardToZulip(Remaining(rows, ChannelIs(m.channel)), m) == Plan([], false)
  {
    var r := Remaining(rows, ChannelIs(m.channel));
    forall i | 0 <= i < |r| ensures r[i].slackChannelId != m.channel {
      assert r[i] in r;
    }
  }

  /**
   * A message to a (stream, topic) that a row has just been linked to is
   * posted once; it goes to that row's channel unless an earlier row
   * already targets the same pair.
   */
  lemma ForwardToSlackAfterCreate(rows: seq<Bridge>, b: Bridge, m: ZulipMessage)
    requires b.zulipStream == m.displayRecipient && b.zulipTopic == m.subject
    ensures var r := ForwardToSlack(rows + [b], m);
      r.forwarded && |r.requests| == 1 && r.requests[0].SlackPost? && r.requests[0].text == m.content &&
      r.requests[0].channel ==
        match FindOne(rows, TargetIs(m.displayRecipient, m.subject))
        case Some(earlier) => earlier.slackChannelId
        case None => b.slackChannelId
  {
    FindOneAppend(rows, b, TargetIs(m.displayRecipient, m.subject));
  }

  /**
   * A Slack message in a channel that had no row before the link is sent
   * to the linked stream and topic.
   */
  lemma ForwardToZulipAfterCreate(rows: seq<Bridge>, b: Bridge, m: SlackMessage)
    requires b.slackChannelId == m.channel
    requires FindOne(rows, ChannelIs(m.channel)).None?
    ensures var r := ForwardToZulip(rows + [b], m);
      r.forwarded && |r.requests| == |m.files| + 1 &&
      forall k :: 0 <= k < |r.requests| ==>
        r.requests[k].ZulipSend? && r.requests[k].to == b.zulipStream && r.requests[k].subject == b.zulipTopic
  {
    FindOneAppend(rows, b, ChannelIs(m.channel));
  }
}
