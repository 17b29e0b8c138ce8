/**
 * The fields of the Slack and Zulip records the bridge reads, and the
 * requests it issues to either platform.
 */
module Messages {
  import opened Wrappers

  /** A file attached to a Slack message. */
  datatype SlackFile = SlackFile(name: string, urlPrivate: string)

  /**
   * A Slack `message` event. An absent `subtype`, `user` or `text` is the
   * empty string; an absent `files` list is the empty list.
   */
  datatype SlackMessage = SlackMessage(
    channel: string,
    user: string,
    subtype: string,
    text: string,
    ts: string,
    files: seq<SlackFile>)

  /** A Zulip stream message: `display_recipient` is the stream, `subject` the topic. */
  datatype ZulipMessage = ZulipMessage(
    senderEmail: string,
    displayRecipient: string,
    subject: string,
    content: string)

  /** An event of a Zulip queue registered for `message` events. */
  datatype ZulipEvent =
    | Heartbeat(id: int)
    | MessageEvent(id: int, message: ZulipMessage)

  /**
   * A request issued to one of the platforms: Slack's `chat.postMessage`
   * (with `thread_ts` when it replies in a thread) or Zulip's
   * `messages.send` of type `stream`.
   */
  datatype Request =
    | SlackPost(channel: string, text: string, threadTs: Option<string>)
    | ZulipSend(to: string, subject: string, content: string)
}
