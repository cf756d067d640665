# gtsr Slack bot: registries, routing and message construction

A Dafny model of the sequential bookkeeping at the centre of the gtsr Slack bot
(package `gtsr`). It covers five parts:

- **Plugin registry.** `AddPlugin` refuses to register once the bot is running.
  It stores each plugin's conversation topics under their labels and its cron
  jobs under their IDs; a label or ID that is already taken is fatal. Plugins
  are kept in registration order. `SortedConvoTopics` lists the topic labels
  in ascending order.
- **Interactive callback registry.** `callbackListener` maps a callback ID to
  the `Messenger` waiting on it. `NOCALLBACK` is never registered, and a
  colliding ID is fatal.
- **Interaction routing.** This is what `interactionHandler` does with a
  callback after decoding it. It checks the shared secret, then reads the
  action ID from a button's value or from a select's first selected option.
  The no-op sentinel and unknown callback IDs are dropped. Otherwise it calls
  `respond` on the registered messenger.
- **Inbound message routing and per-user tables.** This is the `MessageEvent`
  branch of `ServeSlack` and the `parseMessage` fan-out to plugins. It also
  covers `initDms`, which creates a DM entry for every user name, and the
  get-or-create step of `dispatchConversation` together with `newConversation`.
- **Outgoing messages.** `NewMessage`, `Scope`, `AddButton`, `AddDropdown`,
  the request `Send` posts, and the callback-ID generator `randStringRunes`.

Files: `wrappers.dfy` (Option), `collation.dfy` (Go's string order and the
in-place `sort.Strings`), `messaging.dfy` (gtsr/messenger.go and
`randStringRunes`), `handler.dfy` (gtsr/handler.go), `bot.dfy` (gtsr/api.go and
gtsr/conversations.go, as one `SlackBot` class).

State that the source updates in place is modelled as classes with `modifies`
clauses: `SlackBot`, `CallbackListener` and `Message`. The methods on them are
proved against specification functions (`AddPluginResult`, `Register`,
`Unregister`, `WithConversation`). The lemmas state the source's promises
about those functions. Pure decisions are functions: `RouteMessage`,
`Interaction`, `Deliver` and `SelectedValue`. Panics the source raises on
purpose (`panic("...")`) are `Fatal(reason)` statuses that carry the source's
message. Run-time panics are separate outcomes: an unchecked index into an
empty slice, or a field read through the nil pointer that an absent map entry
yields. In every panic case the state is the one the code had reached when it
panicked. For example, topics stored before a colliding label stay stored.

How this snapshot of the source is read:

- gtsr/messenger.go declares `GlobalMessenger` with only the API handle.
  gtsr/api.go:140-147 also gives it a `dms` table and a callback `listener`.
  Here both are fields of `SlackBot` (`dms`, `listener`).
- gtsr/conversations.go reads `sb.dms[ev.Channel]`, a map from IM channel ID
  to user, and writes `sb.converations`. Neither is declared on `SlackBot`.
  They are modelled as the fields `ims` and `conversations`. Both start empty.
  `fetchIMs` (gtsr/api.go:305-312) stores `sb.users[im.User]`, which is a nil
  pointer when that user is not in the user snapshot. So an `ims` entry is an
  `Option<User>`. Reading `.Name` through a nil entry panics just as an absent
  key does.
- api.go calls `gm.scope`, but messenger.go defines `Scope`. Both are taken to
  be `GlobalMessenger.Scope`.
- conversations.go:38 chains `.Send()` onto `AddDropdown`, which returns
  nothing. This is modelled as `AddDropdown` followed by `Send` on the same
  message.
- A plugin's `Init()` is modelled as the `config` value the plugin carries.
  The plugins' `ParseMessage` code is a function parameter (`parse`) that
  returns the error, if any.
- Go compares strings byte by byte over UTF-8. For Unicode scalar values that
  is the same as comparing code points, which is how `Collation.LessEq` orders
  them.

Where the engine's design description and the code disagree, the model
follows the code:

- `Send` does not register the callback ID with the listener.
- `NewMessage` does not unregister the previous message's ID.
- `AddButton` ignores its `id` argument. The button carries no value.
- Dropdown options use the option text as their value, not a separate
  generated ID.
- `dispatchConversation` always sends the fixed prompt. It does not deliver
  the message to a running conversation.
- `interactionHandler` panics on an empty `Actions` or `SelectedOptions`. It
  does not discard the callback.

## Model

| member | source | states |
|---|---|---|
| `Bot.SlackBot.InitSlack` | gtsr/api.go:126-150 | a new bot is not running and has empty topic, cron, plugin and DM registries, plus a fresh callback listener with no entries |
| `Bot.SlackBot.StartServing` | gtsr/api.go:206-210 | a second start is fatal with the source's message; afterwards the bot is running |
| `Bot.InsertAll` | gtsr/api.go:160-176 | every earlier entry is kept; a collision names a key that was already present and comes from the list |
| `Bot.InsertAllSucceedsIff` | gtsr/api.go:160-176 | the registration loop completes exactly when no key is already registered and no two keys in the list are equal |
| `Bot.InsertAllContents` | gtsr/api.go:160-176 | a completed loop stores each value under its key, keeps every earlier entry and adds no other key |
| `Bot.CollisionKeepsPrefix` | gtsr/api.go:161-166 | on a collision, the map holds exactly what the values before the colliding one stored, and the colliding key is already present |
| `Bot.AddPluginResult` | gtsr/api.go:154-179 | registering while running is fatal and changes nothing; success appends exactly this plugin; a panic appends nothing; a disabled feature leaves its map unchanged; the only outcomes are success and the three source panics |
| `Bot.SlackBot.AddPlugin` | gtsr/api.go:154-179 | the new topics, crons and plugins and the returned status are exactly `AddPluginResult` of the old registries, including the partial state at a panic |
| `Bot.AddPluginSucceedsIff` | gtsr/api.go:155-178 | registration succeeds exactly when the bot is not running and every enabled feature brings new, pairwise distinct labels or IDs |
| `Bot.AddPluginStoresTopics` | gtsr/api.go:160-167 | after success, each topic is stored under its label when conversations are enabled; earlier topics are kept and nothing else is added |
| `Bot.AddPluginStoresJobs` | gtsr/api.go:169-176 | after success, each job is stored under its ID when cron jobs are enabled; earlier jobs are kept and nothing else is added |
| `Bot.TopicCollisionKeepsEarlierTopics` | gtsr/api.go:161-178 | after a label collision, the plugin is not appended, crons are unchanged, and the topics stored earlier in the same loop stay in the map |
| `Bot.SharedLabelIsFatal` | gtsr/api.go:160-167 | once one plugin is registered, registering a second plugin that shares one of its labels is fatal, and the second plugin is not appended |
| `Bot.SlackBot.SortedConvoTopics` | gtsr/api.go:181-190 | the result holds every topic label exactly once and nothing else (equal multisets), in strictly ascending order |
| `Collation.SortStrings` | gtsr/api.go:187 | `sort.Strings` leaves the slice sorted and a permutation of its old contents |
| `Collation.LessEq` | gtsr/api.go:187 | a proper prefix comes first in Go's string order (Dafny's `<=` on sequences is the prefix relation) |
| `Collation.LessEqIsLexicographic` | gtsr/api.go:187 | the comparison holds exactly when the first string is a prefix of the second or has the smaller code point at the first position where they differ |
| `Collation.LessEqReflexive` | gtsr/api.go:187 | Go's string order is reflexive |
| `Collation.LessEqTotal` | gtsr/api.go:187 | any two strings are comparable |
| `Collation.LessEqTransitive` | gtsr/api.go:187 | the order is transitive |
| `Collation.LessEqAntisymmetric` | gtsr/api.go:187 | strings that are each `<=` the other are equal |
| `Collation.SortedUniqueIsStrict` | gtsr/api.go:183-187 | a sorted listing in which no element repeats is strictly ascending |
| `Collation.AscendingListingIsUnique` | gtsr/api.go:181-190 | two strictly ascending listings of the same labels are identical, so the sorted topic list is fully determined by the topic map |
| `Messaging.RandStringRunes` | gtsr/api.go:314-321 | the result has length `n` and every character comes from `rngRunes` |
| `Bot.SlackBot.InitDms` | gtsr/api.go:323-335 | afterwards every user name has a DM entry; existing entries are unchanged; each new entry belongs to some user and has no current conversation and an empty queue |
| `Bot.RouteMessage` | gtsr/api.go:227-243 | messages from the bot itself or in a thread are skipped; otherwise an empty channel ID panics, a `C` prefix goes to plugins, a `D` prefix goes to conversation dispatch, and any other prefix goes nowhere |
| `Bot.SlackBot.HandleMessageEvent` | gtsr/api.go:226-243 | the plugin fan-out runs exactly for a `C` channel and the conversation dispatch exactly for a `D` channel; the fan-out result is exactly what `ParseMessage` promises (`FannedOutAs`) and the dispatch result is exactly what `DispatchConversation` promises (`PromptedAs`); when dispatch does not run, the conversation table is unchanged |
| `Bot.SlackBot.ParseMessage` | gtsr/api.go:265-285 | an unknown channel panics on the nil channel; otherwise every plugin is called exactly once, in registration order, with the same message and channel-scoped messenger, and an error does not stop later plugins |
| `Handler.Register` | gtsr/handler.go:21-34 | the sentinel is ignored; an ID already present is fatal and changes nothing; otherwise the ID maps to the messenger and every other key is unchanged |
| `Handler.Unregister` | gtsr/handler.go:36-45 | the ID is removed unless it is the sentinel; an absent ID changes nothing; other keys are unchanged |
| `Handler.CallbackListener.constructor` | gtsr/api.go:143-146 | a new listener has no callbacks |
| `Handler.CallbackListener.RegisterCallback` | gtsr/handler.go:21-34 | the new map and the status are exactly `Register` of the old map |
| `Handler.CallbackListener.UnregisterCallback` | gtsr/handler.go:36-45 | the new map is exactly `Unregister` of the old map |
| `Handler.RegisterThenUnregister` | gtsr/handler.go:21-45 | registering a fresh ID and then unregistering it restores the original map |
| `Handler.SelectedValue` | gtsr/handler.go:80-88 | an action ID exists exactly for the `button` and `select` types: a button's own value, and a dropdown's first selected option value |
| `Handler.Interaction` | gtsr/handler.go:73-102 | a wrong token is dropped before anything else; an empty `Actions` or `SelectedOptions` panics; an unknown type is dropped; the sentinel is a no-op; `respond(actionID, true)` reaches exactly the messenger registered under the callback ID, and happens exactly when the token, action and registration all check out |
| `Handler.Deliver` | gtsr/handler.go:90-102 | the sentinel is a no-op, an unregistered callback ID is dropped, and otherwise the registered messenger is called with the action ID |
| `Handler.RegisteredCallbackIsRouted` | gtsr/handler.go:21-102 | after registering an ID, a genuine click on it reaches exactly that messenger with the clicked value; after unregistering the ID, the same click is dropped |
| `Bot.SlackBot.InteractionHandler` | gtsr/handler.go:73-102 | the bot decides a decoded callback with its own verification token against its listener's current callbacks: a wrong token is dropped, and a response goes to the messenger registered under the callback ID |
| `Handler.InteractionIgnoresOtherEntries` | gtsr/handler.go:95-102 | registering or removing any other callback ID does not change how a callback is handled |
| `Messaging.GlobalMessenger.Scope` | gtsr/messenger.go:86-91 | the scoped messenger reports the given channel and shares the API handle |
| `Messaging.Messenger.Channel` | gtsr/messenger.go:14-16 | returns the channel the messenger is scoped to: scoping its global messenger to that channel gives back the same messenger |
| `Messaging.GlobalMessenger.NewMessage` | gtsr/messenger.go:26-33 | a fresh message with the given text and channel, bound to this messenger, with no actions |
| `Messaging.Messenger.NewMessage` | gtsr/messenger.go:35-42 | a fresh message with the given text in this messenger's channel, with no actions |
| `Messaging.Message.constructor` | gtsr/messenger.go:18-24 | a message starts with the given text, channel and messenger, and no actions |
| `Messaging.Message.AddButton` | gtsr/messenger.go:58-65 | exactly one `button` action named and labelled `label` is appended after the unchanged earlier actions; `id` is not used and the text is untouched |
| `Messaging.DropdownAction` | gtsr/messenger.go:68-81 | the built `select` action has one option per input string, in input order, each with that string as text and value |
| `Messaging.Message.AddDropdown` | gtsr/messenger.go:67-84 | exactly one such `select` action is appended after the unchanged earlier actions |
| `Messaging.Message.Send` | gtsr/messenger.go:44-56 | the post goes through the message's API handle, as the bot user, to its channel with its text, and carries exactly one attachment holding the actions in order and an 8-character callback ID over `rngRunes` |
| `Bot.NewConversationFor` | gtsr/conversations.go:42-45 | a new conversation is not in progress, and its messenger is scoped to `"@" + user` over the global messenger |
| `Bot.SlackBot.NewConversation` | gtsr/conversations.go:41-48 | `user` now maps to that new conversation, and every other user's entry is unchanged |
| `Bot.WithConversation` | gtsr/conversations.go:33-35 | the sender gets an entry; existing entries, the sender's included, are kept as they were; a conversation is created only when the sender has none |
| `Bot.WithConversationIdempotent` | gtsr/conversations.go:33-35 | a second get-or-create for the same user changes nothing |
| `Bot.SlackBot.DispatchConversation` | gtsr/conversations.go:30-39 | an IM channel that is unknown or maps to a nil user panics on the nil user and changes nothing; otherwise the table becomes the get-or-create of the sender's name, and the prompt "test" with the one "How can I help?" dropdown (`abc`, `xyz`) goes to that conversation's channel |

## Left out

- The HTTP listener and form and JSON decoding (gtsr/handler.go:47-71) are network I/O and library code. A callback enters the model already decoded. The code re-tests the stale `ParseForm` error at handler.go:68, so a JSON decoding error is silently ignored.
- Goroutines and mutexes are left out: `ManageConnection`, `handleInteractiveMessages`, the per-user `manageDM` worker started by `initDms`, and the listener mutex. Each operation is atomic and sequential. Scheduling and interleaving are not modelled.
- Slack API calls and directory snapshots are left out: `PostMessage`, `rtm.GetInfo()`, `fetchUsers`, `fetchChannels`, `fetchIMs` and `refreshData`. The `users`, `channels` and `ims` maps are state that these calls fill in. The bot's own user ID is the `selfId` parameter.
- The other `ServeSlack` events are left out: hello, connected, channel-joined and IM-created only call `refreshData`. An RTM error is only logged, and invalid auth ends the loop.
- Messaging.Message.Send: returns the request it would post, instead of posting it. The error that `PostMessage` returns is not modelled.
- Bot.AddPluginResult: nil pointers from a plugin are not modelled. `Init()` returns a `*PluginConfig`, and `Topics` and `Jobs` hold `*ConvoTopic` and `*CronJob` pointers. A nil config panics at `config.FeatureConvo` (api.go:160), a nil topic at `topic.Label` (api.go:162), and a nil job at `cron.ID` (api.go:171). Here the config, topics and jobs are plain values that cannot be nil, so these three panics have no outcome.
- Messaging.RandStringRunes: the random choice is nondeterministic. Only length and alphabet are promised, not uniformity or seeding (`rand.Seed`, api.go:128). A negative `n`, which makes `make` panic, is excluded by the `nat` type; the code only ever passes 8.
- Bot.SlackBot.ParseMessage: the plugins' `ParseMessage` code is a pure function parameter. Whatever the plugins do beyond returning an error is not modelled.
- `respond`, `manageDM`, `AwaitResponse`, `UpdateLastMessage` and the response mailbox are not defined in the files modelled. `respond` shows up only as the returned `Respond(messenger, actionId, true)` record. The per-user queue has no capacity, because `convoQueueSize` is not defined in these files.
- Messenger identity is by value: a `Messenger` is its channel plus its global messenger. Two messengers that agree on both cannot be told apart. A nil messenger cannot be registered, although Go would allow it (handler.go:98 treats a nil value as absent).
- `sort.Strings` is modelled as an insertion sort. Only its promise is used (sorted, and a permutation of the input), not Go's algorithm.
- gtsr/crons.go (`initCron`, a wrapper over the cron library and its timers), main.go (key-file I/O and startup) and the example plugins under plugins/ are not part of this model. `Teardown` is never called in the files modelled.
