/**
 * The Slack `message` callback of `runSlack`: which events are ignored,
 * the `zulip/link` and `zulip/unlink` commands, and forwarding of
 * everything else.
 */
module SlackEvents {
  import opened Wrappers
  import opened Strings
  import opened Bridges
  import opened Messages
  import opened Forwarding

  const LinkPrefix: string := "zulip/link "
  const UnlinkPrefix: string := "zulip/unlink"

  /** What the callback does with one event. */
  datatype Action =
    | Ignore
    | Link(arg: string)
    | Unlink
    | Forward

  /**
   * Routing of one event. An event with a subtype or from the bot's own
   * user is ignored; the link prefix is tested before the unlink prefix;
   * the link argument is the text with its prefix removed.
   */
  function Route(m: SlackMessage, activeUserId: string): (a: Action)
    ensures a.Ignore? <==> m.subtype != "" || m.user == activeUserId
    ensures a.Link? <==> !a.Ignore? && StartsWith(m.text, LinkPrefix)
    ensures a.Link? ==> LinkPrefix + a.arg == m.text
    ensures a.Unlink? <==> !a.Ignore? && !StartsWith(m.text, LinkPrefix) && StartsWith(m.text, UnlinkPrefix)
    ensures a.Forward? <==> !a.Ignore? && !StartsWith(m.text, LinkPrefix) && !StartsWith(m.text, UnlinkPrefix)
  {
    if m.subtype != "" || (m.subtype == "" && m.user == activeUserId) then Ignore
    else if m.text != "" && StartsWith(m.text, LinkPrefix) then Link(ReplaceFirst(m.text, LinkPrefix, ""))
    else if m.text != "" && StartsWith(m.text, UnlinkPrefix) then Unlink
    else Action.Forward
  }

  /** The Zulip destination named by a link argument. */
  datatype Target = Target(stream: string, topic: string)

  /**
   * The link argument split on `:`: the stream is the first piece; the
   * topic is the second piece when there are exactly two, else empty.
   * So the stream is the text before the first colon, and the topic is the
   * text after it only when no second colon follows.
   */
  function ParseLinkArg(arg: string): (t: Target)
    ensures t.stream == arg[..IndexOf(arg, ':')]
    ensures var i := IndexOf(arg, ':');
      t.topic == if i < |arg| && ':' !in arg[i + 1..] then arg[i + 1..] else ""
  {
    var pieces := Split(arg, ':');
    SplitAtFirst(arg, ':');
    SplitInTwo(arg, ':');
    assert ':' !in arg ==> arg[..IndexOf(arg, ':')] == arg;
    Target(pieces[0], if |pieces| == 2 then pieces[1] else "")
  }

  /** The Slack acknowledgement of a link command: it quotes the argument unchanged. */
  function LinkAckText(arg: string): (text: string)
    ensures text == "Linked this channel to " + arg + " on zulip"
  {
    JoinSplit(arg, ':');
    "Linked this channel to " + Join(Split(arg, ':'), ':') + " on zulip"
  }

  /** The notice posted into the linked Zulip stream and topic. */
  function LinkNoticeText(channel: string): string {
    "This channel was linked the " + channel + " channel on slack"
  }

  const LinkErrorText: string := "Error linking channel, please try again"
  const UnlinkReplyText: string := "Deleted bridges for this channel"

  /**
   * The callback for one Slack event: the table it leaves and the requests
   * it issues, in the order it issues them.
   */
  method OnMessage(table: BridgeTable, m: SlackMessage, activeUserId: string) returns (requests: seq<Request>)
    modifies table
    ensures match Route(m, activeUserId)
      case Ignore =>
        table.rows == old(table.rows) && requests == []
      case Link(arg) =>
        var t := ParseLinkArg(arg);
        && table.rows == old(table.rows) + [Bridge(m.channel, t.stream, t.topic)]
        && requests == [SlackPost(m.channel, LinkAckText(arg), Some(m.ts)),
                        ZulipSend(t.stream, t.topic, LinkNoticeText(m.channel))]
      case Unlink =>
        && table.rows == Remaining(old(table.rows), ChannelIs(m.channel))
        && requests == [SlackPost(m.channel, UnlinkReplyText, Some(m.ts))]
      case Forward =>
        table.rows == old(table.rows) && requests == ForwardToZulip(old(table.rows), m).requests
  {
    match Route(m, activeUserId)
    case Ignore =>
      requests := [];
    case Link(arg) =>
      var pieces := Split(arg, ':');
      if |pieces| > 0 {
        var t := ParseLinkArg(arg);
        var _ := table.Create(m.channel, t.stream, t.topic);
        requests := [SlackPost(m.channel, LinkAckText(arg), Some(m.ts)),
                     ZulipSend(t.stream, t.topic, LinkNoticeText(m.channel))];
      } else {
        requests := [SlackPost(m.channel, LinkErrorText, Some(m.ts))];
      }
    case Unlink =>
      var _ := table.Destroy(ChannelIs(m.channel));
      requests := [SlackPost(m.channel, UnlinkReplyText, Some(m.ts))];
    case Forward =>
      requests := ForwardToZulip(table.rows, m).requests;
  }

  /** A link argument without a colon names a stream and no topic. */
  lemma ParseStreamOnly(arg: string)
    requires arg == "general"
    ensures ParseLinkArg(arg) == Target("general", "")
  {
    FirstColonAt(arg, |arg|);
    assert arg[..|arg|] == arg;
  }

  /** A link argument with one colon names a stream and a topic. */
  lemma ParseStreamAndTopic(arg: string)
    requires arg == "general:intro"
    ensures ParseLinkArg(arg) == Target("general", "intro")
  {
    FirstColonAt(arg, 7);
    assert arg[..7] == "general" && arg[8..] == "intro";
    assert ':' !in arg[8..] by {
      forall k | 8 <= k < |arg| ensures arg[k] != ':' { }
    }
  }

  /** A link argument with two colons keeps the first piece and drops the topic. */
  lemma ParseTwoColons(arg: string)
    requires arg == "a:b:c"
    ensures ParseLinkArg(arg) == Target("a", "")
  {
    FirstColonAt(arg, 1);
    assert arg[2..][1] == ':';
    assert arg[..1] == "a";
  }

  lemma FirstColonAt(s: string, i: nat)
    requires i <= |s|
    requires forall k :: 0 <= k < i ==> s[k] != ':'
    requires i < |s| ==> s[i] == ':'
    ensures IndexOf(s, ':') == i
  {
  }

  /** The prefixes are compared exactly: a missing space or another case is forwarded. */
  lemma RouteExamples(m: SlackMessage, activeUserId: string)
    requires m.subtype == "" && m.user != activeUserId
    ensures m.text == "zulip/link" ==> Route(m, activeUserId) == Action.Forward
    ensures m.text == "zulip/link " ==> Route(m, activeUserId) == Link("")
    ensures m.text == "zulip/unlinked" ==> Route(m, activeUserId) == Unlink
    ensures m.text == "Zulip/link general" ==> Route(m, activeUserId) == Action.Forward
  {
    if m.text == "zulip/link " {
      assert Route(m, activeUserId).Link?;
      assert LinkPrefix + Route(m, activeUserId).arg == LinkPrefix + "";
    } else if m.text == "zulip/unlinked" {
      assert m.text[10] != LinkPrefix[10];
      assert m.text[..12] == UnlinkPrefix;
    } else if m.text == "Zulip/link general" {
      assert m.text[0] != LinkPrefix[0] && m.text[0] != UnlinkPrefix[0];
    }
  }

  /**
   * An empty link argument still links the channel, to stream "" and
   * topic "": the error reply is never sent.
   */
  lemma EmptyLinkArgumentLinks(m: SlackMessage, activeUserId: string)
    requires m.subtype == "" && m.user != activeUserId && m.text == LinkPrefix
    ensures Route(m, activeUserId) == Link("")
    ensures ParseLinkArg("") == Target("", "")
  {
    FirstColonAt("", 0);
    assert LinkPrefix + Route(m, activeUserId).arg == LinkPrefix + "";
  }
}
