# zulip-slack-sync: the bridging core in Dafny

This project models the decision logic of the Slack–Zulip bridge in
`index.js`. The bridge keeps a `bridges` table of rows
`(slack_channel_id, zulip_stream, zulip_topic)`. It forwards Slack
messages to the linked Zulip stream and topic. It forwards Zulip stream
messages to the linked Slack channel. It also handles the Slack commands
`zulip/link <stream>[:<topic>]` and `zulip/unlink`.

The model has no I/O. The table is a class holding a sequence of rows in
insertion order. Every call to Slack's `chat.postMessage` or Zulip's
`messages.send` becomes a `Request` record, and each operation returns the
requests it issues, in the order it issues them. The Slack user id of the
bot (`rtm.activeUserId`) and the batches returned by Zulip's
`events.retrieve` are parameters.

Modules:

- `Wrappers` (wrappers.dfy): `Option`.
- `Strings` (strings.dfy): the JavaScript string operations used, which are
  `startsWith`, `replace` of the first occurrence, `split` on `:` and `join`.
- `Bridges` (bridges.dfy): the table. `findOne` is the first row matching a
  filter, `destroy` removes every matching row, and `create` appends a row
  with no uniqueness check.
- `Messages` (messages.dfy): the Slack and Zulip records and the requests.
- `Forwarding` (forwarding.dfy): `forwardToZulip` and `forwardToSlack`.
- `SlackEvents` (slack_events.dfy): the `runSlack` callback. It covers
  routing, the link and unlink commands, and forwarding.
- `ZulipPoll` (zulip_poll.dfy): the `runZulip` loop. It covers the filter of
  each batch and the `last_event_id` cursor.

Behaviour of the code worth knowing:

- The link argument is split on `:`, and a split always yields at least one
  piece. So the `channel.length > 0` guard (index.js:115) always holds. The
  error reply at index.js:138-142 shows that an empty argument was meant to be
  refused, but the code never reaches it: `"zulip/link "` creates a bridge to
  stream `""` and topic `""`. The model follows the code.
- The bot's own Zulip messages are filtered in the polling loop
  (index.js:53-54), not inside `forwardToSlack`. The model places the filter
  in the same spot.
- Both lookups return the first matching row in the order SQLite scans the table, which for these unindexed columns is the order of creation. A second link for a channel
  is therefore shadowed by the first. Two channels linked to the same
  stream and topic get Zulip messages only in the channel linked first.

## Model

| member | source | states |
|---|---|---|
| `Strings.ReplaceFirst` | index.js:113 | `replace` with a string pattern changes only the first occurrence of the pattern, and returns the text unchanged when the pattern does not occur |
| `Strings.IndexOfFirstOccurrence` | index.js:113 | the search for the first colon used to split the link argument is the one-character case of the `indexOf` search: they agree when the character occurs, and only the not-found position differs (`|s|` against `|s| + 1`) |
| `Strings.Split` | index.js:113-115 | a split yields at least one piece, and no piece contains the separator; so the guard `channel.length > 0` always holds |
| `Strings.JoinSplit` | index.js:130 | joining the split pieces with `:` gives back the link argument exactly |
| `Strings.SplitAtFirst` | index.js:113-116 | the first piece is the text before the first `:`, and the rest is the split of the text after it |
| `Strings.SplitInTwo` | index.js:118-119 | there are exactly two pieces iff `:` occurs exactly once, and then the second piece is the text after it |
| `Bridges.FindOne` | index.js:71-73 | `findOne` yields nothing iff no row satisfies the filter; otherwise it yields a satisfying row with no satisfying row before it (also used at index.js:167-172) |
| `Bridges.Remaining` | index.js:147 | after `destroy`, a row is in the table iff it was there and does not satisfy the filter; the table shrinks by the number of satisfying rows |
| `Bridges.RemainingConcat` | index.js:147 | `destroy` keeps the surviving rows in their original order |
| `Bridges.RemainingNoMatch` | index.js:147 | `destroy` with a filter that no row satisfies leaves the table unchanged |
| `Bridges.RemainingIdempotent` | index.js:146-147 | unlinking a channel twice leaves the same table as unlinking it once |
| `Bridges.FindOneAppend` | index.js:121-125 | after `create`, a lookup finds the new row only if no earlier row satisfies the filter |
| `Bridges.FindOtherChannelAfterDestroy` | index.js:147 | unlinking one channel does not change the lookup for any other channel |
| `Bridges.BridgeTable.constructor` | index.js:10-16 | the table starts with the rows already stored in the database, since `sync()` creates the table only when it is absent |
| `Bridges.BridgeTable.Create` | index.js:121-125 | `create` appends exactly the given row and returns it |
| `Bridges.BridgeTable.Destroy` | index.js:147 | `destroy` leaves the rows that do not satisfy the filter, returns how many rows it removed, and afterwards no row satisfies the filter |
| `Forwarding.FileSends` | index.js:75-84 | one Zulip send per attached file, in file order, to the bridge's stream and topic, with content `[name](url_private)` |
| `Forwarding.ForwardToZulip` | index.js:70-95 | returns true iff some row is linked to the message's channel; if none is, there are no sends; otherwise, using the first such row, there is one link send per file in file order and then one send of the text, all to that row's stream and topic |
| `Forwarding.ForwardToSlack` | index.js:166-179 | returns true iff some row matches both the stream and the topic; if none does, there is no post; otherwise there is exactly one post of the content, to the channel of the first such row, with no thread |
| `Forwarding.UnlinkedChannelNotForwarded` | index.js:71-74 | after an unlink, a message from that channel is not forwarded and no request is issued |
| `Forwarding.ForwardToZulipAfterCreate` | index.js:71-92 | once a channel with no earlier row is linked, each of its messages gives one send per file plus one, all to the linked stream and topic |
| `Forwarding.ForwardToSlackAfterCreate` | index.js:167-176 | once a stream and topic are linked, a message there gives exactly one post of its content; the post goes to the new row's channel unless an earlier row links the same pair |
| `SlackEvents.Route` | index.js:107-155 | an event with a subtype or from the bot's own user is ignored; otherwise a text starting with `zulip/link ` is a link whose argument is the rest of the text, then a text starting with `zulip/unlink` is an unlink, and anything else is forwarded |
| `SlackEvents.RouteExamples` | index.js:112-146 | `zulip/link` without a space and `Zulip/link general` are forwarded, `zulip/link ` is a link with an empty argument, and `zulip/unlinked` is an unlink |
| `SlackEvents.ParseLinkArg` | index.js:113-119 | the stream is the text before the first `:`; the topic is the text after it when it is the only `:`, and empty otherwise |
| `SlackEvents.ParseStreamOnly` | index.js:116-119 | `general` links to stream `general` with an empty topic |
| `SlackEvents.ParseStreamAndTopic` | index.js:116-119 | `general:intro` links to stream `general` and topic `intro` |
| `SlackEvents.ParseTwoColons` | index.js:116-119 | `a:b:c` links to stream `a` with an empty topic |
| `SlackEvents.EmptyLinkArgumentLinks` | index.js:112-125 | the text `zulip/link ` is a link command with an empty argument, and it links to stream `""` and topic `""` rather than failing |
| `SlackEvents.LinkAckText` | index.js:129-131 | the Slack acknowledgement reads `Linked this channel to <arg> on zulip`, where `<arg>` is the unchanged argument |
| `SlackEvents.OnMessage` | index.js:105-155 | an ignored event changes nothing and issues nothing; a link appends the parsed row and then issues the threaded Slack acknowledgement followed by the Zulip notice; an unlink removes the channel's rows and issues the threaded reply; anything else leaves the table as it is and issues the sends of `forwardToZulip` |
| `ZulipPoll.Relayed` | index.js:48-56 | a batch relays at most one message per event, and never a message from the bot's address |
| `ZulipPoll.RelayedMembers` | index.js:50-55 | a message is relayed iff it is in a message event of the batch and was not sent by `slack-bridge-bot@zulip.superbiche.co`; heartbeats relay nothing |
| `ZulipPoll.RelayedConcat` | index.js:45-56 | filtering batch after batch equals filtering their concatenation, so the order of events is kept |
| `ZulipPoll.PostsFor` | index.js:55 | a batch issues at most one post per relayed message, and every post is an unthreaded Slack post |
| `ZulipPoll.PostsForMembers` | index.js:55 | the posts of a batch are exactly the single posts that `forwardToSlack` issues for its relayed messages |
| `ZulipPoll.PostsForConcat` | index.js:48-56 | the posts for two runs of messages are the posts of the first run followed by those of the second |
| `ZulipPoll.DispatchBatch` | index.js:48-56 | the `forEach` over a batch hands exactly the relayed messages to `forwardToSlack`, in order, and issues their posts |
| `ZulipPoll.Poller.constructor` | index.js:40-44 | after queue registration the cursor is -1 |
| `ZulipPoll.Poller.Step` | index.js:46-58 | one batch is dispatched; a non-empty batch moves the cursor to the id of its last event; an empty batch ends the loop with the cursor unchanged |
| `ZulipPoll.Poller.Run` | index.js:45-59 | the loop runs on while batches are non-empty and stops after the first empty one; batch `k` is fetched with the cursor left by the batches before it; the final cursor is the one left by the non-empty batches (the starting one when there are none); the posts are those of each retrieved batch in turn |
| `ZulipPoll.FirstEmpty` | index.js:45-58 | the loop's stopping point: the first empty batch, every batch before it non-empty |
| `ZulipPoll.CursorsAt` | index.js:42-58 | the first retrieve is sent the starting cursor (-1 after registration), every later one the id of the last event of the batch before |
| `ZulipPoll.BatchPostsFlatten` | index.js:45-59 | posting batch after batch equals posting for all relayed messages of those batches, in order |

## Left out

- Sequelize and SQLite (index.js:3-16): the table is a sequence in memory. The rows stored by earlier runs are the constructor's argument. Storage failures are not modelled. In the source a rejected findOne, create or destroy (index.js:71, 121, 147, 167) ends its handler like a rejected awaited send, and the rejection goes uncaught (see the line on uncaught rejections). `sequelize.sync()` (index.js:16) is not awaited.
- dotenv, the Slack `RTMClient` and `WebClient`, `zulip-js`, authentication, queue registration and `run()` (index.js:1, 18-38, 181-192) are not modelled; they are network I/O. The queue id is a constructor parameter and each retrieved batch is an input.
- Failed queue registration or retrieval: a rejected `events.retrieve` (index.js:46), or an error response without `events` (an expired queue, or a failed registration at index.js:38, makes index.js:48 throw), ends `runZulip` with no dispatch and no cursor move. The model has no separate case for this; an empty batch, which has the same observable effect, stands for it.
- Uncaught rejections: no rejection in index.js is caught (index.js:55, 77, 105, 174, 188). The model assumes the behaviour of Node before version 15, where an uncaught rejection only logs a warning: a failed handler ends alone, and a rejected `runZulip` ends only the poll loop (`Poller.Step` turning `running` off) while the Slack listener goes on. From Node 15 on, any of them ends the whole process.
- Concurrency: the model assumes Slack events are handled one at a time. The source does not ensure this: the rtm `message` callbacks run concurrently (index.js:105). So a message sent right after `zulip/link` can be looked up before `Bridge.create` finishes.
- Order of the Slack posts of a poll batch: the model assumes they go out in batch order, before the next retrieve. In the source, `forEach` does not await its callbacks (index.js:48). Each `forwardToSlack` awaits its own `Bridge.findOne` (index.js:167) before posting (index.js:174). So the posts go out in the order the lookups finish, and the next `events.retrieve` (index.js:46) is sent before any of them. The table is taken as fixed while a batch is dispatched.
- Failed sends: the model assumes every send succeeds. In the source, a rejected awaited send ends its handler and skips the requests after it (index.js:85, 129, 132, 149). If the acknowledgement at index.js:129-131 rejects, the Zulip notice is never sent; if the send at index.js:85 rejects, `forwardToZulip` rejects instead of returning true. The sends at index.js:77 (inside its callback) and index.js:174 are not awaited, so a rejection there affects no later request of the handler, but it still goes uncaught (see the line on uncaught rejections). The `message` object returned at index.js:85 is not used.
- Private Zulip messages are not modelled: every message is treated as a stream message. The queue registered at index.js:34-38 also receives private messages to the bot. For those, `display_recipient` is a list of users, not a stream name. `runZulip` still hands such a message to `forwardToSlack` (index.js:55), which puts it in the `where` clause (index.js:169).
- `console.log` output (index.js:91, 127, 175).
- Absent Slack fields: a missing `subtype`, `user` or `text` is the empty string, and missing `files` is the empty list. Routing is unchanged by this (the bot's user id is never empty), because the prefixes are non-empty and an empty file list sends nothing. One difference remains: a missing `text` would be forwarded to Zulip as `undefined`, and the model forwards `""`.
- Zulip event types other than `heartbeat` and `message`: the queue is registered for `message` events only (index.js:35).
- SlackEvents.OnMessage: keeps the source's error-reply branch for `channel.length == 0`. `Strings.Split` shows that the branch is unreachable.
