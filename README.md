# Ticket bot and in-memory storage, modelled in Dafny

This project models two sequential components of a support-ticket bot for a
chat platform:

- **The ticket conversation of `server/bot.ts`.** A process-wide map
  `ticketStates` goes from channel id to `{step, reason?}`.
  - The `ticket` command creates a private text channel named
    `ticket-<username>`. It answers the interaction, greets the opener in the
    channel and tracks the channel at step `"init"`.
  - Every message from a non-bot author in a tracked channel runs one turn.
    The language model's JSON decision `{reply, action, targetUser, newStep}`
    is applied in order: the reply is sent, the step is written, then the
    action follows. `DELETE_TICKET` sends a notice and schedules the channel's
    deletion. `BAN`, `KICK` and `MUTE` only post a simulated sanction message.
  - The owner-only `/bot` command renames the bot, changes its avatar, or sets
    its presence. The presence text replaces the first `{server_count}` with
    the number of guilds.
- **`MemStorage` of `server/storage.ts`.** Two in-memory tables, users and
  staff. Each is a JavaScript `Map` (insertion-ordered) from id to row.

Files:

- `Wrappers.dfy`: `Option`, standing for JavaScript's `undefined`.
- `Schema.dfy`: the `User`, `InsertUser` and `Staff` records.
- `OrderedMaps.dfy`: JavaScript `Map` semantics as a value type.
  - `set` of a new key appends it.
  - `set` of a present key keeps its position.
  - `delete` cuts the key out.
  - `values()` follows key order.
- `Storage.dfy`: class `MemStorage`. Its methods reassign the two table fields.
- `StatusText.dfy`: the `setstatus` activity mapping, first-occurrence
  `String.prototype.replace`, and decimal rendering of the guild count.
- `Platform.dfy`: the platform calls a handler issues (`Effect`).
- `Tickets.dfy`: the ticket-opening and turn semantics as pure functions,
  with their properties.
- `Bot.dfy`: class `TicketBot`. It holds `ticketStates` and the `botConfig`
  fields, and its methods are the handlers.

How the handlers are modelled:

- Each handler returns the sequence of platform calls it issues, in order.
  A call that rejects is still listed, followed by whatever the handler's
  `catch` issues.
- The model call and `JSON.parse` become an input. A turn receives the parsed
  decision, or `None` when the call or the parse threw.
- A turn's `try` block is modelled as a list of operations in source order.
  `Script` builds it: the reply send, the step write, the deletion notice and
  the scheduled deletion, and the sanction message. `Run` executes it.
- The parameter `failAt` names the send of that block that rejects, if any.
  This makes the ordering observable:
  - a rejected reply leaves the step unchanged;
  - a rejected deletion notice schedules no deletion;
  - a rejection after the step write keeps the new step.

Behaviour of the modelled revision worth knowing:

- `DELETE_TICKET` does not remove the channel's `ticketStates` entry. The
  entry stays, so a second `DELETE_TICKET` turn in the same channel
  schedules a second deletion (`Tickets.RepeatedDelete`).
- There is no roster check, no `PING_OWNER`, and no real ban, kick or
  timeout. A sanction is only a message. An absent target is rendered as
  `l'utilisateur concerné`; it does not default to the author.
- An unknown action value issues nothing.
- A decision without `reply` sends no reply at all. Only a thrown error
  sends the generic notice.
- A channel without an entry is ignored, whatever its name.
- The ticket channel admits only the opener and the bot.
- The greeting is sent before the entry is inserted, with no delay.

## Model

| member | source | states |
|---|---|---|
| `OrderedMaps.Without` | server/storage.ts:58-60 | dropping a key keeps exactly the other keys (as a set of members) and keeps them distinct; an absent key changes nothing; that their order is kept is stated by `OrderedMaps.WithoutAt` |
| `OrderedMaps.WithoutAt` | server/storage.ts:58-60 | in a key list without repetitions, deleting a key cuts exactly its position out |
| `OrderedMaps.OrderedMap.Get` | server/storage.ts:28-30 | `get` yields a value exactly for the keys present, and that value is the stored one |
| `OrderedMaps.OrderedMap.Set` | server/storage.ts:53-56 | after `set(k, v)`, `get(k)` is `v` and every other key reads as before; a present key keeps its position and the size does not grow; a new key goes last; the map stays well formed |
| `OrderedMaps.OrderedMap.Delete` | server/storage.ts:58-60 | after `delete(k)`, `get(k)` is undefined and every other key reads as before; an absent key is a no-op; a present key is cut out of the order |
| `OrderedMaps.OrderedMap.Values` | server/storage.ts:49-51 | the values list has one entry per key, the value of the key at the same position |
| `OrderedMaps.Empty` | server/storage.ts:23-26 | a new map is well formed, has no keys, and every lookup is undefined |
| `Storage.FirstWithUsername` | server/storage.ts:32-36 | `find` returns the earliest user with that username, and undefined exactly when none has it |
| `Storage.AddThenRemove` | server/storage.ts:53-60 | adding a staff row and then removing its id leaves the staff table as removing the id alone would |
| `Storage.MemStorage.constructor` | server/storage.ts:23-26 | both tables start empty and well formed |
| `Storage.MemStorage.GetUser` | server/storage.ts:28-30 | a user is found exactly when its id is stored, and it is the stored row carrying that id |
| `Storage.MemStorage.GetUserByUsername` | server/storage.ts:32-36 | the result is the first user in insertion order with that username; it is stored under its own id; undefined exactly when no stored user has the username |
| `Storage.MemStorage.CreateUser` | server/storage.ts:38-43 | a fresh id gets `{...insertUser, id}`, which is returned; it goes last in the order; every other user and the staff table are unchanged |
| `Storage.MemStorage.GetStaff` | server/storage.ts:45-47 | a staff row is found exactly when its id is stored, and it carries that id |
| `Storage.MemStorage.GetAllStaff` | server/storage.ts:49-51 | the list holds exactly the stored staff rows, each id once, in first-insertion order |
| `Storage.MemStorage.AddStaff` | server/storage.ts:53-56 | returns its argument unchanged; `getStaff(s.id)` then gives it; a present id is replaced in place without growing the table; other ids and the users table are unchanged |
| `Storage.MemStorage.RemoveStaff` | server/storage.ts:58-60 | `getStaff(id)` is then undefined; an absent id is a no-op; other ids and the users table are unchanged |
| `StatusText.ActivityFor` | server/bot.ts:163-165 | `WATCHING` gives Watching, `STREAMING` gives Streaming, and every other value gives Playing |
| `StatusText.FindFrom` | server/bot.ts:41 | the search returns the first position at or after the start where the pattern occurs, and none exactly when it does not occur |
| `StatusText.ReplaceFirst` | server/bot.ts:41 | without an occurrence the text is unchanged; otherwise only the first occurrence is replaced |
| `StatusText.Decimal` | server/bot.ts:40-41 | the count's string is a non-empty run of decimal digits without a leading zero |
| `StatusText.DecimalRoundTrip` | server/bot.ts:40-41 | reading the rendered digits back gives the count |
| `StatusText.StatusLine` | server/bot.ts:38-43 | the presence text replaces only the first `{server_count}` with the decimal guild count; without a placeholder the text is unchanged |
| `StatusText.InitialStatusLine` | server/bot.ts:27-30 | with the initial configuration the presence reads `GERE <count> serveurs` |
| `Tickets.TicketChannel` | server/bot.ts:112-129 | the channel is named `ticket-<username>`; the everyone role (the guild id) is denied ViewChannel; the opener and the bot are allowed View and Send; no other id is allowed anything |
| `Tickets.Open` | server/bot.ts:100-139 | without a guild nothing happens; on success the new channel is tracked at step `init` with no reason, after the channel creation, the ephemeral confirmation and the greeting; if a call rejects, no entry is added and the calls are exactly those up to the rejected one, then the error reply |
| `Tickets.OpenAddsOneEntry` | server/bot.ts:112-134 | a successful opening for a new channel id adds exactly one entry, at `init`, and keeps every other entry |
| `Tickets.Run` | server/bot.ts:221-240 | running the block keeps the reason; every call goes to the turn's channel; the block fails exactly when the rejecting send is one it reaches |
| `Tickets.Turn` | server/bot.ts:178-246 | a bot author or an untracked channel produces nothing and changes nothing; a parse failure sends only the error notice and changes nothing; no entry is added or removed; no other channel's entry changes; the reason is kept; every call goes to the turn's channel |
| `Tickets.RunAppend` | server/bot.ts:221-240 | awaiting two blocks in sequence is running the first and, unless it failed, the second from where the first stopped |
| `Tickets.TurnWithoutFailure` | server/bot.ts:221-240 | with no rejection, the step becomes a truthy `newStep` or stays as it was; the calls are the truthy reply, then the deletion notice and deletion, then the sanction message |
| `Tickets.StepAfterTurn` | server/bot.ts:221-228 | the step becomes a truthy `newStep` unless the reply's send rejected first; an absent or empty `newStep` leaves the step as it was |
| `Tickets.RunActionOps` | server/bot.ts:230-240 | the action part never changes the ticket state; when its one send rejects, nothing after that send happens |
| `Tickets.RunScript` | server/bot.ts:221-240 | the block is the reply's send, then (unless that send rejected) the step write, then the action part, whose sends are counted after the reply's |
| `Tickets.EmptyContentTurn` | server/bot.ts:219 | an empty completion, parsed as `{}`, issues no call and changes nothing |
| `Tickets.DeleteTurn` | server/bot.ts:231-234 | `DELETE_TICKET` ends with the 5-second notice and exactly one scheduled deletion, after the reply; the entry stays tracked |
| `Tickets.RepeatedDelete` | server/bot.ts:231-234 | since the entry stays, a second `DELETE_TICKET` turn schedules another deletion |
| `Tickets.SanctionTurn` | server/bot.ts:236-240 | `BAN`, `KICK` and `MUTE` end with one `[SYSTEM] Sanction appliquée` message naming the action and the target or the fallback, and schedule no deletion |
| `Tickets.OtherActionTurn` | server/bot.ts:231-240 | any other action value issues nothing beyond the reply |
| `Tickets.ReplyRejected` | server/bot.ts:221-245 | when the reply's send rejects, the step is unchanged, no action runs, and only the error notice follows |
| `Tickets.DeleteNoticeRejected` | server/bot.ts:231-245 | when the deletion notice's send rejects, no deletion is scheduled and the error notice is the last call |
| `Bot.TicketBot.constructor` | server/bot.ts:24-30 | no ticket is tracked; the presence is Streaming with `GERE {server_count} serveurs` |
| `Bot.TicketBot.UpdateStatus` | server/bot.ts:38-43 | the presence call carries the substituted text, the configured activity type and the stream URL |
| `Bot.TicketBot.OpenTicket` | server/bot.ts:100-139 | the map is updated in place with the opening's new entry, or left alone on failure or without a guild |
| `Bot.TicketBot.OnMessage` | server/bot.ts:178-246 | the map is updated in place by the turn; it is untouched for bot authors and untracked channels; only the turn's channel may change |
| `Bot.TicketBot.BotCommand` | server/bot.ts:142-175 | a non-owner gets the refusal and the configuration is unchanged; `setstatus` stores the mapped type and the text, then updates the presence and replies; `setname` and `setavatar` issue their call and reply, or the error reply on rejection; `setbanner` does nothing |

## Left out

- Platform plumbing is out of scope: client construction, login, the
  `ready` handler, and slash-command registration over REST. The calls
  `channel.send`, `delete`, `setUsername`, `setAvatar` and `setActivity` appear
  only as entries of the issued-call sequence.
- Interaction dispatch is not modelled: the `isChatInputCommand` check and
  the routing by command name. Each command branch is modelled on its own.
- The language-model request and `JSON.parse` are foreign calls. The prompt
  text, the message content and the attachment count only feed that call. The
  model takes the parsed decision, or its failure, as input.
- Decision fields are strings or absent. JSON values of other types in those
  fields (numbers, arrays, objects) are not modelled.
- Only the scheduling of a deletion is modelled. The `setTimeout` delay is
  not, and neither is the swallowed rejection of the later `channel.delete()`.
- Async interleaving of concurrent turns is a concurrency concern. Each
  handler is modelled as one sequential step.
- The error notice sent by the turn's `catch` is assumed to be delivered. Its
  own rejection would only be an unhandled promise rejection.
- Discord's refusal of a second reply to an interaction is not modelled. Such
  a reply follows a successful confirmation when the greeting rejects.
- `updateStatus` returns early when the bot is not logged in. Likewise,
  `client.user?.` skips `setUsername` and `setAvatar`. Both are not modelled:
  the bot is taken to be logged in.
- `Bot.TicketBot.BotCommand`: when `setname` or `setavatar` succeeds, only a
  rejection of the platform call is modelled, not a rejection of the reply
  that follows it.
- `randomUUID` becomes a parameter of `createUser`. The precondition says
  the id is not yet in use.
- The drizzle and zod schema machinery is out of scope. Only the record
  shapes are kept. The database `unique` and `primaryKey` constraints are not
  enforced by the in-memory storage.
- `client/src/pages/Home.tsx` is a static page with no logic.
- Logging to the console is not modelled.
