# Verified model of the bot server's state and protocol logic

The repository is a Go server that runs many chat bots on many messaging channels.  This project models
the parts of it that have real state, loops or algebra behind them, and proves what they keep:

- **Channel connections** (`ConnectionProtocol`, `ConnectionEffects`, `ConnectionLosses`, `ConnectionOrder`, `ConnectionManager`,
  `ConnectionStatus`, `ConfigStore`, `Lifecycle`, `EnabledChannels`).  The connection manager drops its mutex around slow `Stop` and `Connect` calls.  `ConnectionProtocol` is a transition system in which every critical
  section and every unlocked adapter call is one step of one of any number of in-flight calls; its theorems are
  about every interleaving.  `ConnectionManager` has the calls as methods of a class, shows that running alone is one of
  those interleavings, and proves what a reconcile converges to.  `ConnectionLosses` proves which live connections end up
  untracked, `ConnectionOrder` which config a slot holds in runs where ensure calls for one id do not overlap, `ConnectionEffects`
  what each removal takes out, and `ConnectionStatus` which status every step and every call that runs alone leaves behind.  `ConfigStore` is what a write of a config stores, given what the
  platform says about the bot's identity, and `Lifecycle` puts stored configs and connections together, with failures of
  the store, of identity discovery and of the adapters at any point; `EnabledChannels` proves what turning a channel on achieves,
  or leaves behind when it fails.
- **Outbound messages** (`Format`, `InlineMarkup`, `ShownText`, `Chunkers`, `ChunkBoundaries`, `Outbound`, `SentDetails`, `Delivery`,
  `Preparation`, `LongFinals`, `StreamSplitter`, `StreamDetails`, `MarkdownPrinter`, `PrinterDetails`).  Coercion to
  what a channel can show, the text chunkers, the splitter, preparation and retries, chunked stream finals, the
  streaming splitter, and the printers of code spans, code blocks and escapes, each read back by a parser written from
  CommonMark 0.31.2.  `ShownText` follows the text of a message from the message that comes in to the messages that are sent.
- **Backup restore** (`SessionForest`, `RestoredForest`, `HistoryTurns`, `RebuiltTurns`, `RebuiltColumns`, `RecordedTurns`, `RestoredRows`).  The session forest rebuilt by repeated passes, and
  conversation turns rebuilt either from raw roles or from recorded turn rows, against a database in which no two messages
  of a turn have the same number.
- **Interactive callbacks** (`QueryEscape`, `EncodingDetails`, `Callback`, `CallbackData`).  Button data printed and parsed under a 64-byte limit, with a bounded
  first-in first-out side table; percent-encoding as in sections 2.1 and 2.3 of RFC 3986, with space as `+`.
- **The Manage permission** (`Permissions`, `ManagerList`, `ManagersByRows`).  Permission expansion, the point query, and the list view
  that has to agree with it.
- **Model ids and templates** (`ModelIndex`, `CanonicalDetails`, `Enricher`, `EnrichmentDetails`).  The canonical form of a model id, the index over registry keys,
  and the enrichment of YAML nodes.

`Wrappers`, `Seqs` and `Text` hold the option type, laws of sequences, and the string functions of Go's standard library.

Code that works by changing things step by step is a method or a class, proved equal to a specification function or
proved against a predicate; what the code promises is then proved about that function or predicate, for all inputs and all runs.
What the outside world does is a parameter: the answers of adapters (`Env`), of the store (`World`, `budget`), and the order
in which Go iterates over a map.

Where a natural claim is false of the code, the code is modelled as it is, and the exact condition is proved:

- Racing calls can install an older config over a newer one (`OlderConfigCanWin`).  Where ensure calls for an id do not overlap
  and find the adapter willing, a slot always holds the newest config ensured since it was last taken out
  (`SlotHoldsTheNewest`); other ids and removals may interleave.
- A live connection is tracked by nobody exactly when a step has let it go after a Stop that did not stop it: the Stop failed; or
  it was not supported, and the connection had been taken out for good, had lost the race for its slot, or was to go back
  into its slot and found that taken (`LooseIffLetGo`).
- A slot has a status exactly when its config id is not blank (`SlotHasStatus`): blank ids get no status.
- A lifecycle call keeps stored configs and connections consistent exactly if it does not turn a connected channel off
  under a spelling of the bot id that the store accepts but that does not trim to the stored one (`ApplyKeeps`,
  `TurningOffDisconnectsIff`, `RollingBackDisconnectsIff`); an upper-case id is such a spelling (`UpperCaseLeavesUp`).
- A rollback's own write asks the platform for the bot's identity again.  It restores the stored config exactly if what is
  discovered then bears the old identity out (`RollbackRestoresIff`, by `WritesBackIff`); two families of runs show both ways
  in which it does not (`RollbackAdoptsIdentity`, `RollbackLosesIdentity`).
- The restore of recorded turns fails exactly if a turn spans two sessions, two of its rows have the same number, or a turn
  without question and answer has a first row with a number above 2 and another row with number 2
  (`RecordedTurns.TurnTables.Restore`).
- The rebuild from roles succeeds, if the database does not fail, exactly if in each session every first reply stands directly
  behind its question (`RebuildSucceedsIff`).
- Coercion is idempotent except for one family: on a channel without rich text, a message marked as rich without text
  or parts, whose links become its text (`FitTwice`); a third pass never changes anything (`FitThrice`).
- The text of a message without parts reaches the channel, as it can show it, with its links behind it (`SentSaysTheText`), except
  for one family that the Markdown renderer writes anew: rich text whose links make it too long for one message, on a channel that
  also shows Markdown (`WrittenAsMarkdown`).
- Every text of a chunked stream final is within the limit (`StreamFinalsStayShort`), because the stream makes finals fit the channel
  before it cuts them.  For a final that was not made to fit before, the message whose actions become links as text gets them behind
  its chunk, and is longer exactly if the chunk leaves no room for them (`ActsAreShort`, `LinksNeedRoom`).
- A write for a strict channel type is refused, unless it disables, exactly if there is no identity under the type's key or
  discovery fails (`StoredIff`); the check of the external id behind it never fails.
- Stripping inline markers a second time changes a text exactly if it had two runs of an odd number of stars with nothing but
  stars and ticks between them (`StripTwice`), as ``*`*`` has (`StrippingIsNotIdempotent`).
- A list or range button comes back exactly when its separator is not in its names (`ListRoundTrip`, `RangeRoundTrip`).
- Identities without a membership are not in the list of managers even where the point query lifts them (`UnlistedManagers`).
- `canonical` is idempotent at an id exactly when, of the tokens it keeps, the outer ones have no white space at the ends, and
  the last three do not read like a date behind another token (`CanonicalTwice`).  Such a date was hidden by two dashes side by
  side (`DashesHideDates`), as in `foo-2024--01-01` (`TwoDashesHideADate`).
- A second enrichment run changes nothing exactly when `config` is absent or a mapping (`AppliedTwice`); a second correction
  changes something exactly when reasoning keys are repeated so that the first one left residue (`NoReasonTwice`).
- A code span comes back as it was exactly if it is on one line (`CodeSpanRoundTrip`).
- The counter of the streaming splitter is the length of the open stream's text exactly if no question has split the stream
  since the counter last started afresh (`CounterIsTheText`); under a limit it is never below it (`StreamsCarryTheText`).

## Model

| member | source | states |
|---|---|---|
| ConnectionProtocol.CallStepSound | internal/channel/connection.go:94-209 | every step of a call keeps slots filed under their own config ids, and hands the call on with entries that belong to its own config |
| ConnectionProtocol.CallStepSlot | internal/channel/connection.go:94-209 | a step fills a slot only if it was empty, and only with what the call had in its hand; a taken slot is never overwritten |
| ConnectionProtocol.CallStepStatus | internal/channel/connection.go:386-424 | every step keeps slots and statuses in agreement |
| ConnectionProtocol.CallStepStops | internal/channel/connection.go:94-378 | a step calls Stop on the first entry its call holds, or on nothing |
| ConnectionProtocol.SlotHeir | internal/channel/connection.go:94-378 | an entry that leaves its slot goes into the hand of the call that took it out |
| ConnectionProtocol.HandHeir | internal/channel/connection.go:94-378 | an entry leaves a call's hand only because it was stopped, its Stop failed, or it went into the call's own slot |
| ConnectionProtocol.SweepKeepsInv | internal/channel/connection.go:224-257 | a section that stops connections under the lock keeps the invariant, whatever the adapters answer |
| ConnectionProtocol.StepKeepsInv | internal/channel/connection.go:94-378 | every step of every call keeps the ownership invariant |
| ConnectionProtocol.RunKeepsInv | internal/channel/connection.go:94-378 | so does every run, with any number of calls in flight |
| ConnectionProtocol.ExactlyOneOwner | internal/channel/connection.go:94-378 | in every interleaving a stopped connection is tracked nowhere, a tracked one has exactly one owner (a slot only under its own config id), and a live untracked one is one whose Stop failed |
| ConnectionProtocol.QuiescentMapIsExact | internal/channel/connection.go:94-378 | with no call in flight the map is exactly the live connections, up to failed Stops, one per config id |
| ConnectionProtocol.SlotHasStatus | internal/channel/connection.go:386-424 | whenever the lock is free, a slot has a status if and only if its config id is not blank |
| ConnectionProtocol.OlderConfigCanWin | internal/channel/connection.go:157-209 | for any two configs of one id there is a run without failures that ends with the older one installed although the newer one was ensured too |
| ConnectionEffects.PairIsSwept | internal/channel/connection.go:224-257 | RemoveConnection takes out exactly the slots of one bot and channel type, none for a blank bot id, and stops their connections or records that it could not |
| ConnectionEffects.TypeIsSwept | internal/channel/manager.go:181-196 | RemoveAdapter takes out exactly the slots of one channel type |
| ConnectionEffects.AllAreSwept | internal/channel/connection.go:296-322 | stopAll takes out all slots |
| ConnectionEffects.InactiveAreSwept | internal/channel/connection.go:65-91 | the tail of reconcile takes out exactly the slots of configs that are not active |
| ConnectionEffects.BotIsTakenOut | internal/channel/connection.go:345-378 | StopByBot takes out exactly the slots of the bot, and holds each of their entries once, to be stopped |
| ConnectionEffects.OneIsTakenOut | internal/channel/connection.go:259-343 | Stop and the removal of one config take out its slot, and hold its entry to be stopped if it had one |
| ConnectionEffects.ReceiversAre | internal/channel/manager.go:157-196 | registering and unregistering an adapter change the receiver of its type alone, and no connection |
| ConnectionEffects.CallsAre | internal/channel/connection.go:38-378 | the calls that can be made: ensures and marks of enabled configs with an id, removals of any config, and stops under a trimmed id that is not empty |
| ConnectionLosses.HandGoes | internal/channel/connection.go:94-378 | an entry leaves a call's hand only because it was stopped, because the call lets it go, or for its slot |
| ConnectionLosses.AdvanceKeepsAccount | internal/channel/connection.go:94-378 | every step of a call keeps the account: what was let go stays live, untracked and without another Stop, and no other live connection is untracked |
| ConnectionLosses.SweepKeepsAccount | internal/channel/connection.go:224-257 | so does every sweep under the lock |
| ConnectionLosses.LooseIffLetGo | internal/channel/connection.go:94-378 | in every interleaving a connection is live and untracked if and only if it has been let go, and then its most recent Stop failed or was not supported |
| ConnectionOrder.EnsureStep | internal/channel/connection.go:94-209 | a step of an ensure call that is alone for its id and finds the adapter willing: it ends with the slot holding the later of its own config and the newest before, or goes on with the slot empty or untouched |
| ConnectionOrder.OthersOnlyEmpty | internal/channel/connection.go:224-378 | a step of any other call can empty the slot, and not fill it |
| ConnectionOrder.RunKeepsOrder | internal/channel/connection.go:94-378 | so the slot holds the newest config ensured since it was last taken out, after every step of such a run |
| ConnectionOrder.SlotHoldsTheNewest | internal/channel/connection.go:94-209 | in every run in which ensure calls for one id never overlap and their Stops, Connects and receiver lookups succeed, whatever other calls interleave: a filled slot has exactly the latest update time among the configs ensured since it was last taken out, and with no such call in flight it is empty if and only if there is none |
| ConnectionManager.AloneIsARun | internal/channel/connection.go:94-209 | running alone is one of the interleavings, and ends in the state that the sequential model gives |
| ConnectionManager.AloneSlots | internal/channel/connection.go:94-209 | an ensure changes no slot but its own, and what it leaves there was there before or is its new connection |
| ConnectionManager.AloneFills | internal/channel/connection.go:94-209 | if Stop and Connect succeed and the type has a receiver, the slot ends up filled and not older than the config |
| ConnectionManager.ReconcileOnlyEnabled | internal/channel/connection.go:38-92 | after a reconcile, whatever the adapters answer, only enabled configs of the list with an id that is not empty have slots or statuses |
| ConnectionManager.ReconcileConverges | internal/channel/connection.go:38-92 | if all Stops and Connects succeed, every enabled config whose type has a receiver is covered by a slot that is not older |
| ConnectionManager.FailureIsMarked | internal/channel/connection.go:380-384 | a failed ensure leaves the status at "not running, failed", so marking it again in reconcile changes nothing |
| ConnectionManager.Manager.constructor | internal/channel/manager.go:115-138 | a new manager has no connections and no statuses, and the receivers of its registry |
| ConnectionManager.Manager.SetConnectionStatusLocked | internal/channel/connection.go:386-424 | the status of one config is set, and nothing else changes |
| ConnectionManager.Manager.EnsureConnectionOf | internal/channel/connection.go:94-209 | the whole new state and the error result of an ensure that runs alone |
| ConnectionManager.Manager.Restart | internal/channel/connection.go:140-209 | the same from the Stop of the replaced connection on |
| ConnectionManager.Manager.Connect | internal/channel/connection.go:157-209 | the same from the second receiver lookup on; which slot and status that is, ConnectionStatus.ConnectEndsAs says |
| ConnectionManager.Manager.RemoveConfig | internal/channel/connection.go:259-294 | removing one config: new state, and an error exactly if its Stop failed |
| ConnectionManager.Manager.EnsureConnection | internal/channel/connection.go:213-221 | an empty id is an error without effect, a disabled config is removed, an enabled one ensured |
| ConnectionManager.Manager.TakeOutSelected | internal/channel/connection.go:296-322 | stopping and taking out the selected slots ends in one and the same state in whatever order the map is iterated |
| ConnectionManager.Manager.RemoveConnection | internal/channel/connection.go:224-257 | exactly the slots of one bot and type are stopped and taken out; a blank bot id removes nothing |
| ConnectionManager.Manager.RemoveAdapter | internal/channel/manager.go:181-196 | exactly the slots of one type are stopped and taken out, and its receiver goes |
| ConnectionManager.Manager.Reconcile | internal/channel/connection.go:38-92 | ensuring all enabled configs and then taking out the slots of all others, as the specification has it |
| ConnectionStatus.InstalledIsRunning | internal/channel/connection.go:206 | a step that puts a new connection into its slot reports it as running and not failed |
| ConnectionStatus.KeptIsReported | internal/channel/connection.go:114-205 | a step that leaves a taken slot alone, or puts the old connection back, reports the config in that slot, running as the adapter answers, and not failed |
| ConnectionStatus.StatusTellsTheSlot | internal/channel/connection.go:94-424 | in any interleaving, a status that a step writes is that of the slot, unless the step marks a failure, and only a mark says failed |
| ConnectionStatus.MarkIsSeen | internal/channel/connection.go:380-424 | a mark reports its config as not running and failed, and changes no other status |
| ConnectionStatus.TakenOutHasNoStatus | internal/channel/connection.go:259-378 | a removal takes exactly the statuses of the slots it takes out, and that of its own id |
| ConnectionStatus.SweptHasNoStatus | internal/channel/connection.go:224-322 | so does a sweep; the tail of reconcile leaves exactly the statuses of active ids |
| ConnectionStatus.RunKeepsOwnStatus | internal/channel/connection.go:386-424 | in every run a status stands under its own config id, and none says running and failed at once |
| ConnectionStatus.ConnectEndsAs | internal/channel/connection.go:157-209 | an ensure that finds its slot empty ends with the new connection in it, reported as running, or with an empty slot, reported as failed |
| ConnectionStatus.AloneEndsAs | internal/channel/connection.go:94-209 | the slot and the status that an ensure running alone leaves behind, case by case; a connection that is replaced has been stopped |
| ConnectionStatus.FailsIffDown | internal/channel/connection.go:94-209 | such an ensure returns an error if and only if the type has a receiver and the config ends without a connection |
| ConnectionStatus.SuccessIsReported | internal/channel/connection.go:94-209 | if Stop and Connect succeed, the type has a receiver, and the slot was absent or older, it ends with the new connection in the slot, reported as running and not failed, and the old one stopped |
| Lifecycle.ApplyKeeps | internal/channel/lifecycle.go:45-160 | a call, with failures anywhere and any spelling of the bot id, keeps every connection backed by an enabled stored config under its own id if and only if it is not one that the store takes up to turn a connected channel off under a spelling that is not the stored one |
| Lifecycle.SpelledAsStoredKeeps | internal/channel/lifecycle.go:45-160 | so a call keeps them whenever it spells the bot id, trimmed, as it is stored |
| Lifecycle.TurningOffSucceedsIff | internal/channel/lifecycle.go:45-123 | a call that turns a channel off succeeds if and only if the store reads the bot id, finds or computes the row to write, and writes it; otherwise it is rejected |
| Lifecycle.NothingLeftToStop | internal/channel/lifecycle.go:66-81 | once enabling has failed, nothing of the bot and channel type is connected, so that a rollback has nothing to leave up |
| Lifecycle.HistoryKeeps | internal/channel/lifecycle.go:45-160 | so does any sequence of serialized calls without such a call |
| Lifecycle.OffMeansDisconnected | internal/channel/lifecycle.go:45-160 | after any such history, a bot and type whose stored config is absent or disabled has no connection in any slot |
| Lifecycle.TurningOffDisconnectsIff | internal/channel/lifecycle.go:45-123 | a disabling upsert, a disabling status change and a deletion that the store takes up bring a connection down if and only if the trimmed spelling of the bot id is the stored one |
| Lifecycle.RollingBackDisconnectsIff | internal/channel/lifecycle.go:98-160 | a rollback that ends with the channel off, and an undone status change, take a connection down if and only if it was the one that could not be enabled or the spelling is the stored one |
| Lifecycle.UpperCaseLeavesUp | internal/db/utils.go:34-43 | a deletion under an upper-case spelling that the store reads deletes the config and leaves its connection up |
| Lifecycle.RollbackRestoresIff | internal/channel/lifecycle.go:136-160 | an upsert that fails to enable and rolls back touches no other config; one that was absent is absent again; one that was there has id, status, credentials and the rest back, and is as before but for its update time if and only if the identity discovered by the rollback's write bears out the old one |
| Lifecycle.RollbackAdoptsIdentity | internal/channel/service.go:83-98 | a channel type with best-effort discovery: a config stored without an identity has one after a rollback during which discovery succeeds |
| Lifecycle.RollbackLosesIdentity | internal/channel/service.go:203-250 | a strict one: a disabled config loses its identity in a rollback that changes credentials back while discovery fails |
| Lifecycle.ApplyKeepsNormal | internal/channel/lifecycle.go:45-160 | calls keep stored credentials normalized and external ids trimmed, so the previous result keeps applying |
| ConfigStore.UpsertConfig | internal/channel/service.go:43-115 | what a write stores, by channel type, discovery and the row that is there; an error is an error |
| ConfigStore.PrepareSelfIdentity | internal/channel/service.go:203-250 | the identity a strict channel type gets, or the error of enabling without one |
| ConfigStore.FillGaps | internal/channel/service.go:83-98 | what is discovered goes under the keys that are not there |
| ConfigStore.Overwrite | internal/channel/service.go:235-237 | what is discovered goes over what is there |
| ConfigStore.WritesBackIff | internal/channel/service.go:43-250 | writing an old content back stores its credentials and the rest, and its whole identity if and only if what is discovered now is part of it and fills no gap (or is all of it, where credentials change back) |
| ConfigStore.StoredIsNormal | internal/channel/service.go:43-115 | whatever a write stores has normalized credentials and a trimmed external id |
| ConfigStore.StoredIff | internal/channel/service.go:43-250 | a write is refused if and only if the credentials are, or the type is strict, the write enables, and discovery fails or leaves no identity under the type's key |
| ConfigStore.StrictStores | internal/channel/service.go:203-250 | a strict write stores what is discovered over what is remembered, where changed credentials may have it forgotten, and the external id by precedence: discovered, asked for, stored before, or as the identity says |
| ConfigStore.OrdinaryStores | internal/channel/service.go:83-98 | an ordinary write stores what it asks for, with the gaps filled by what is discovered |
| Lifecycle.Coordinator.UpsertBotChannelConfig | internal/channel/lifecycle.go:45-81 | rows, connections and outcome of an upsert with its rollback, as specified; what that means for row, slot and credentials, EnabledChannels.EnabledRow and EnablingConnects say |
| Lifecycle.Coordinator.RollbackUpsert | internal/channel/lifecycle.go:136-160 | the previous row is written back and its connection restored, or the new row is deleted if there was none |
| Lifecycle.Coordinator.SetBotChannelStatus | internal/channel/lifecycle.go:98-123 | rows, connections and outcome of enabling or disabling |
| Lifecycle.Coordinator.DeleteBotChannelConfig | internal/channel/lifecycle.go:84-95 | rows, connections and outcome of a deletion |
| EnabledChannels.UpsertTakenUpIff | internal/channel/service.go:43-115 | an upsert is taken up if and only if the bot id is read, the lookup and the write succeed, and the content is accepted in view of the row that is there; that content is written |
| EnabledChannels.StatusTakenUpIff | internal/channel/service.go:155-200 | a status change is taken up for a row that is there; enabling a strict type is a write like any other; otherwise only status and time change |
| EnabledChannels.DoneIff | internal/channel/lifecycle.go:45-123 | an enabling call succeeds if and only if its write does and the ensure returns no error; a rejected one changes nothing |
| EnabledChannels.EnabledRow | db/postgres/queries/channels.sql:17-38 | after a success the row stands under its old or new id, enabled, with the time of the write and the content asked for, the credentials normalized; no other row changes; slot and status are those that an ensure of it ends with |
| EnabledChannels.EnablingConnects | internal/channel/lifecycle.go:62-123 | if the adapter stops and connects, the type has a receiver and no slot is newer than the write, an enabling call that is taken up ends with exactly the stored config and the new connection in the slot, reported as running, and the old connection stopped |
| EnabledChannels.RolledBackIffSo | internal/channel/lifecycle.go:66-123 | a call that could not connect reports whether it was rolled back: if the store allowed it, took the old content back, and the old connection, if there was to be one, could be made again |
| EnabledChannels.RollbackReconnects | internal/channel/lifecycle.go:136-160 | a rollback of an upsert over an enabled config ends with the old config in its slot, under the time of the rollback, with a new connection reported as running |
| EnabledChannels.UndoneIsOff | internal/channel/lifecycle.go:115-121 | a status change that is undone leaves its row disabled and its slot empty |
| EnabledChannels.NotRolledBack | internal/channel/lifecycle.go:66-123 | a failure that is not rolled back leaves the row as written and the slot empty, reported as failed |
| SessionForest.StuckIsUnrooted | internal/botbackup/import.go:1256-1262 | sessions whose parents are all among themselves or missing do not end at a root: they hang off a cycle or a missing ancestor |
| SessionForest.Pass | internal/botbackup/import.go:1239-1255 | one pass creates only rooted sessions with their own parents; without progress all that wait have a parent that is not there |
| SessionForest.RestoreSessions | internal/botbackup/import.go:1237-1265 | each backup session is created exactly once, with its remapped parent if and only if its ancestor chain ends at a root, and stops at the first failing call |
| SessionForest.CreateWithoutParents | internal/botbackup/import.go:1256-1263 | when no session makes progress, all the rest are created as roots |
| RestoredForest.EndsAtRootIff | internal/botbackup/import.go:1237-1263 | the ancestors of a session end at a root if and only if a chain of sessions of the backup, each the parent of the one before, leads from it to one without a parent |
| RestoredForest.ForestIsRestored | internal/botbackup/import.go:1237-1265 | after a restore, finished or not, every call was for a session of the backup, under its parent's new id if and only if such a chain begins with it, and no session or new id has two; after one that finished, every session has one |
| HistoryTurns.SessionsAreIndependent | internal/botbackup/import.go:1619-1689 | in an interleaved list, the calls made for a session are those for its messages alone |
| HistoryTurns.EveryMessageLinkedOnce | internal/botbackup/import.go:1619-1703 | every valid message is linked exactly once, in list order, within its own session |
| HistoryTurns.TurnsFollowMessages | internal/botbackup/import.go:1619-1689 | a user message opens the next turn at number 1, any other message continues the turn with the next number |
| HistoryTurns.OrderIsRestored | internal/botbackup/import.go:1619-1689 | for any list, turn order and number reproduce the order of each session's valid messages, and only its first turn can lack a user message |
| HistoryTurns.RepliesAreBoundPerSession | internal/botbackup/import.go:1619-1689 | for any list, the calls include one that binds an assistant message to a user message if and only if it is the first reply in its turn |
| RebuiltTurns.LateIsRejected | db/postgres/migrations/0001_init.up.sql:1694-1696 | the unique index rejects the calls for a message if and only if it is a first reply with another message between it and its question; otherwise the message is placed at the turn's next number |
| RebuiltTurns.AcceptedIfDirect | internal/botbackup/import.go:1619-1689 | for messages with ids of their own the index accepts all calls if and only if in each session every first reply stands directly behind its question |
| RebuiltTurns.RebuildSucceedsIff | internal/botbackup/import.go:1619-1689 | so, if the database does not fail, the rebuild succeeds if and only if that holds of the valid messages |
| RebuiltTurns.DirectRepliesAreBound | internal/botbackup/import.go:1655-1665 | and then the replies bound are exactly the assistant messages directly behind a user message of their session |
| RebuiltTurns.HistoryDb.CreateHistoryTurn | db/postgres/queries/messages.sql:596-661 | a new turn takes the session's next position and advances it, and its message gets its place; or nothing changes |
| RebuiltTurns.RestoreMessage | internal/botbackup/import.go:1629-1687 | the calls for one message, or those before the first that fails |
| RebuiltTurns.RebuildRestoredHistoryTurns | internal/botbackup/import.go:1619-1689 | makes exactly the specified calls, or stops at the first that the database or its index fails, having made those before it |
| RebuiltColumns.RoleIsRead | internal/botbackup/import.go:1631 | a role is the user's or the assistant's if and only if it spells that word, in any case, between white space |
| RebuiltColumns.AcceptedIff | db/postgres/queries/messages.sql:596-911 | a link needs a message in its turn, a bound reply its question in its session, and each the number in its turn for itself |
| RebuiltColumns.ColumnsAreAsLinked | internal/botbackup/import.go:1619-1703 | if all calls are accepted, the turn columns of every message are in the end those of its link |
| RebuiltColumns.FirstTurnIsOne | db/postgres/queries/messages.sql:596-603 | the first turn of a session without turns is at position 1, with number 1 for a user's message and 2 for any other |
| RecordedTurns.CollectGroups | internal/botbackup/import.go:1473-1515 | one group per recorded turn of an eligible row, and none else |
| RecordedTurns.GroupItems | internal/botbackup/import.go:1510-1514 | every eligible row's message is in the group of its turn, with its number |
| RecordedTurns.ItemComesFrom | internal/botbackup/import.go:1510-1514 | and every item of a group comes from such a row |
| RecordedTurns.GroupStart | internal/botbackup/import.go:1490-1497 | session and position of a turn are those of its first row, whose message is listed first |
| RecordedTurns.GroupState | internal/botbackup/import.go:1498-1504 | a turn is visible if and only if one of its rows is, has a question if and only if a row is a user's with number 1, and an answer if and only if one is an assistant's with number 2 |
| RecordedTurns.GroupSuperseded | internal/botbackup/import.go:1505-1509 | a turn is superseded if and only if one of its rows is, with the time, the heir and the reason of the first row with the latest time |
| RecordedTurns.GroupIsWellMade | internal/botbackup/import.go:1490-1504 | question and answer of a group are among its messages, and its position is positive |
| RecordedTurns.TurnTables.CreateTurn | db/postgres/queries/messages.sql:728-785 | links question and answer to the new turn, and fails exactly if neither is in the session |
| RecordedTurns.TurnTables.LinkMessage | db/postgres/queries/messages.sql:887-911 | links one message to a turn that has messages already, and fails if and only if it is in another session or another message of the turn has the number |
| RecordedTurns.TurnTables.SupersedeTurn | db/postgres/queries/messages.sql:1367-1434 | hides and marks exactly the messages of one turn that are not superseded yet |
| RecordedTurns.TurnTables.LinkGroup | internal/botbackup/import.go:1538-1563 | a turn is created and all its messages linked in the order of their numbers if and only if all are in its session, the numbers differ, and its first message has not been put in the way of a message 2 |
| RecordedTurns.TurnTables.FinishGroup | internal/botbackup/import.go:1569-1587 | a turn's messages end up superseded, hidden or visible as the group says, with the heir named by its new id or by none |
| RecordedTurns.TurnTables.LinkGroups | internal/botbackup/import.go:1536-1567 | all turns are linked, without disturbing each other, if and only if each can be, for every order of the list |
| RecordedTurns.TurnTables.FinishGroups | internal/botbackup/import.go:1569-1587 | all edges between superseded turns are found, because all turns have been created first |
| RecordedTurns.TurnTables.SetNextPositions | internal/botbackup/import.go:1589-1603 | the next positions of the listed sessions are set, and of no others |
| RecordedTurns.SessionsOfList | internal/botbackup/import.go:1473-1525 | the groups are each in one session if and only if no recorded turn has rows of two |
| RecordedTurns.ParkedGroup | internal/botbackup/import.go:1521-1523 | a group's first message is put in the way if and only if the turn has neither question nor answer, its first row has a number above 2, and some row has number 2 |
| RecordedTurns.LinkableList | internal/botbackup/import.go:1473-1525 | all groups can be linked if and only if the rows of all turns can |
| RecordedTurns.TurnTables.Restore | internal/botbackup/import.go:1461-1605 | every eligible message ends up in the new turn of its old turn with its position, number, visibility and supersession; each session's next position is one more than its highest; nothing else changes; fails if and only if a turn spans two sessions, two of its rows share a number, or its first row is in the way of another as in ParkedGroup; falls back if and only if no row is eligible |
| RestoredRows.OnlyThePlaceCounts | internal/botbackup/import.go:1475-1486 | visibility, role and supersession make no difference to whether a row takes part |
| RestoredRows.CompleteRowsAreRestored | internal/botbackup/import.go:1473-1567 | after a restore every row that names its restored message and session and its turn, with a positive position and number, has its message in the new turn, with its number |
| RestoredRows.OtherMessagesStay | internal/botbackup/import.go:1473-1605 | the turn columns of every other message are untouched |
| RestoredRows.SupersededComesBack | internal/botbackup/import.go:1569-1580 | if one row of a turn was superseded, all its messages come back hidden and superseded, not before that time |
| RestoredRows.VisibilityComesBack | internal/botbackup/import.go:1581-1587 | if none was, they come back visible if and only if one of the rows was |
| RestoredRows.LoneRowComesBack | internal/botbackup/import.go:1473-1605 | a turn of one row comes back at its position and number, hidden and superseded as it was, by its heir under the new id if and only if that came back, or as visible as it was |
| StreamSplitter.SplitKeeps | internal/channel/outbound.go:914-936 | a split loses no text, gives the old stream one empty final before it closes, and starts the new one with Started |
| StreamSplitter.PushDeltaKeeps | internal/channel/outbound.go:870-909 | a delta is received once, and no stream gets more than the bound |
| StreamSplitter.UserInputKeeps | internal/channel/outbound.go:840-858 | a question to the user loses no text |
| StreamSplitter.StreamsCarryTheText | internal/channel/outbound.go:784-936 | over any run of pushes the streams receive exactly the text produced, in order; the open stream's text never exceeds the counter; each stream gets at most the limit or the longest delta; closed streams got one empty final, reopened ones start with Started |
| StreamSplitter.UnlimitedStreamsCarryTheText | internal/channel/outbound.go:870-875 | the same without a limit, where the counter counts everything |
| StreamSplitter.CounterIsTheText | internal/channel/outbound.go:784-936 | after any run of pushes, with a limit or without, the counter is the length of the open stream's text if and only if no question has split the stream, with something counted, since the counter last started afresh |
| StreamSplitter.ManagerOutboundStream.SplitStream | internal/channel/outbound.go:914-936 | the new state if all adapter calls succeed; an error changes no text received |
| StreamSplitter.ManagerOutboundStream.PushDeltaEvent | internal/channel/outbound.go:870-909 | the new state if all adapter calls succeed; on an error the delta was received once or not at all |
| StreamSplitter.ManagerOutboundStream.PushPlainTextUserInput | internal/channel/outbound.go:840-858 | the new state if all calls succeed; an error changes no text received |
| StreamDetails.TerminatorsAre | internal/channel/outbound.go:938 | the ten characters that end a sentence |
| StreamDetails.BreaksIff | internal/channel/outbound.go:940-956 | a text can be cut if and only if it ends in a line break, or in a sentence with nothing but white space behind it |
| StreamDetails.DeltaGoes | internal/channel/outbound.go:870-909 | a delta over the limit opens the next stream; one that ends at a break point above three quarters of it closes its own; any other is appended without a split |
| StreamDetails.QuestionGoes | internal/channel/outbound.go:840-858 | a question that is not blank closes a stream with something counted and is sent, trimmed; a blank one changes nothing |
| StreamDetails.QuestionsAreSent | internal/channel/outbound.go:840-858 | over any run of pushes, exactly the questions that are not blank are sent directly, in order |
| QueryEscape.UnescapeEscape | internal/command/callback.go:93-103 | percent-decoding inverts percent-encoding, for every byte string |
| QueryEscape.EscapeIsPlain | internal/command/callback.go:93-103 | encoded text has unreserved bytes, percent signs and plus signs only |
| QueryEscape.FieldsOfJoin | internal/command/callback.go:287-307 | splitting at white space takes apart what joining encoded words by spaces put together |
| QueryEscape.AtoiItoa | internal/command/callback.go:152-186 | a printed int is parsed back, negative ones included |
| EncodingDetails.SpacesAreEncoded | internal/command/callback.go:93-103 | the byte strings that count as white space are the UTF-8 encodings of white space characters |
| EncodingDetails.OnlySpacesCount | internal/command/callback.go:93-103 | and no other byte string counts |
| EncodingDetails.UnreservedIs | internal/command/callback.go:93-103 | the bytes that stay as they are: letters, digits and four signs |
| EncodingDetails.HexIs | internal/command/callback.go:287-307 | hex digits are read in either case, and nothing else is |
| EncodingDetails.IntIs | internal/command/callback.go:152-186 | numbers are those of 64 bits |
| EncodingDetails.ItoaIs | internal/command/callback.go:72-83 | they are printed without leading zeros, and with a sign if and only if negative |
| Callback.ArgsRoundTrip | internal/command/callback.go:93-103 | arguments come back trimmed and without blank ones, with inner spaces kept |
| Callback.ListRoundTrip | internal/command/callback.go:72-83 | a list button comes back with resource, action, page and arguments if and only if the page is not negative and the separator is in neither name; assumes no hash collision with a live entry |
| Callback.ModelProviderRoundTrip | internal/command/callback.go:107-109 | a provider button comes back if neither number is negative, and is rejected otherwise |
| Callback.ModelSelectRoundTrip | internal/command/callback.go:116-118 | a model id comes back trimmed; a blank one is rejected |
| Callback.RangeRoundTrip | internal/command/callback.go:122-124 | a range button comes back if and only if its key is not empty and the separator is in neither name |
| Callback.SkillRoundTrip | internal/command/callback.go:134-141 | a skill name comes back trimmed, inlined or stashed; a blank one is rejected |
| Callback.ConfirmNewRoundTrip | internal/command/callback.go:146-148 | a mode comes back unless it is empty |
| Callback.FixedRoundTrip | internal/command/callback.go:61-66 | the dismiss and no-op buttons come back |
| Callback.ImagesAreDisjoint | internal/command/callback.go:60-148 | no two encoders ever print the same data, in whatever stash states |
| Callback.SkillFits | internal/command/callback.go:134-141 | skill buttons always fit 64 bytes |
| Callback.ListFits | internal/command/callback.go:72-83 | list buttons fit whenever resource, action and page take at most 42 bytes |
| Callback.PutThenGet | internal/command/callback.go:320-334 | a payload that was just stashed is found if and only if its token collides with no other live payload |
| Callback.StashHoldsTheNewest | internal/command/callback.go:309-334 | in every reachable state map and order list hold the same tokens, without duplicates, and these are the last 256 inserted |
| Callback.StashedUntilEvicted | internal/command/callback.go:320-334 | a stashed payload stays until 256 newer tokens have been inserted, and then goes |
| Callback.TokenResolvesUntilEvicted | internal/command/callback.go:268-280 | its token resolves to it until then, and to nothing after |
| Callback.ArgsStash.StashArgs | internal/command/callback.go:320-334 | the token is the hash of the payload, and the table changes as specified |
| Callback.ArgsStash.EncodeListCallback | internal/command/callback.go:72-83 | data and table after encoding a list button |
| Callback.ArgsStash.EncodeSkillActivateCallback | internal/command/callback.go:134-141 | data and table after encoding a skill button |
| Callback.ArgsStash.DecodeCallback | internal/command/callback.go:152-229 | cutting the name space and the kind's mark off and parsing the rest gives what the parser function gives for the table as it is, errors included |
| Callback.ArgsStash.DecodeFields | internal/command/callback.go:287-307 | the loop over the fields unescapes, trims and drops blank ones as specified |
| Callback.ArgsStash.DecodeArgsToken | internal/command/callback.go:268-280 | a token is looked up, and a miss stands for no arguments |
| CallbackData.FnvRound | internal/command/callback.go:336-340 | the hash is FNV-1a on 64 bits: each byte goes in by exclusive or, bit for bit, before the product with the prime |
| CallbackData.Base36Spells | internal/command/callback.go:336-340 | a token spells the hash in base 36, in digits and lower-case letters without a leading zero |
| CallbackData.FittingStaysInline | internal/command/callback.go:72-141 | data of at most 64 bytes is printed as it is, and nothing is stashed |
| CallbackData.BlankArgsAddNothing | internal/command/callback.go:72-103 | arguments that are all blank are no arguments |
| CallbackData.ThreeFieldsAreEnough | internal/command/callback.go:164-186 | a list page without a field for arguments has none |
| CallbackData.TwoFieldsAreTooFew | internal/command/callback.go:164-186 | one without a page is rejected |
| CallbackData.NamesAreTrimmed | internal/command/callback.go:196-225 | model ids and skill names are trimmed when they are read, and blank ones rejected |
| CallbackData.BadNamesAreNotOurs | internal/command/callback.go:196-225 | names that do not unescape are rejected |
| CallbackData.EvictedTokens | internal/command/callback.go:268-280 | a button whose payload is gone lists without arguments, or is rejected |
| CallbackData.OnlyOurs | internal/command/callback.go:152-229 | nothing outside the name space is accepted |
| Permissions.ClosureIsLeast | internal/bots/grants.go:147-164 | expansion gives the least closed set of permissions above its argument |
| Permissions.ClosureLaws | internal/bots/grants.go:147-164 | expansion is idempotent and monotone, commutes with union, and never makes manage out of anything else |
| Permissions.KnownOfNames | internal/bots/grants.go:76-84 | the printed names of a set of permissions are read back as that set |
| Permissions.StoredNamesAreStable | internal/bots/grants.go:107-182 | normalized names, stored and decoded, are the same names |
| Permissions.ExpandPermissionSet | internal/bots/grants.go:147-164 | the names of the closure, in the fixed order |
| Permissions.ExpandPermissions | internal/bots/grants.go:136-145 | the same for a list of names, unknown ones ignored |
| Permissions.HasPermission | internal/bots/grants.go:91-103 | holds if and only if the closure has the required permission; a blank requirement means manage, and an unknown one is never met |
| Permissions.NormalizePermissions | internal/bots/grants.go:107-125 | fails if and only if a name is unknown or none is named; otherwise gives the names of the closure |
| Permissions.UnknownIs | internal/bots/grants.go:107-125 | a name is unknown if and only if it is not blank and, trimmed and in lower case, none of the five |
| Permissions.DecodePermissions | internal/bots/grants.go:166-182 | gives the names of the closure; a malformed payload stands for none |
| ManagerList.GrantedManage | internal/bots/grants.go:218-250 | manage comes out of a union of grants if and only if one of them carries it |
| ManagerList.WhoManages | internal/bots/grants.go:218-250 | a user manages a bot if and only if as its owner, by an own grant, or by a grant to everyone |
| ManagerList.ResolveUserPermissions | internal/bots/grants.go:194-250 | a user's permissions are the closure of the union of all grants that concern the user |
| ManagerList.UserHasManage | internal/channelaccess/service.go:130-140 | whether the user manages the bot |
| ManagerList.GetManageOverride | internal/channelaccess/service.go:80-98 | the local decision about an identity, if there is one |
| ManagerList.HasManageGrant | internal/channelaccess/service.go:80-128 | the override if there is one, and otherwise whether some bound user manages the bot |
| ManagerList.ListUserGrants | internal/bots/grants.go:286-334 | the owner first, with everything, and then what each row grants to whom |
| ManagerList.MergeManagerBinding | internal/channelaccess/service.go:403-432 | one binding makes an identity a member, and an inheriting one if its user carries manage; what was merged before stays |
| ManagerList.MergingFindsTheLifted | internal/channelaccess/service.go:304-355 | for members, merging by role finds exactly the identities that have a managing user, through direct and everyone grants |
| ManagerList.ListMembers | internal/channelaccess/service.go:304-355 | the records of all members, before overrides |
| ManagerList.ListManagers | internal/channelaccess/service.go:304-401 | lists exactly the members and the identities with an override, each with the manage flag that HasManageGrant gives it |
| ManagerList.UnlistedManagers | internal/channelaccess/service.go:304-401 | an identity left out of the list has manage if and only if everyone does and it has a binding |
| ManagersByRows.UserManagesIff | internal/bots/grants.go:194-250 | a user manages a bot if and only if as its owner, or by a row to the user or to everyone that names manage, trimmed and in any case |
| ManagersByRows.ManagesIff | internal/channelaccess/service.go:80-140 | an identity has manage if and only if a decision about it says so, or there is none and it is bound to a user who manages the bot |
| ManagersByRows.ListedIff | internal/channelaccess/service.go:304-401 | the list has exactly the identities bound to the owner or to a user with an own grant, and those with a decision, each with the answer of the point query and what it would be without a decision |
| Format.UrlActionParts | internal/channel/format.go:146-163 | gives the links if and only if all actions are nothing but http links |
| Format.FormatIsAllowed | internal/channel/format.go:71-111 | on a text channel, validation rejects the coerced message for format or parts if and only if it is marked as rich without any text or part, without rich text |
| Format.ActionsAreAllowed | internal/channel/format.go:113-135 | it rejects the actions if and only if the channel has no buttons and some action is more than a link |
| Format.PartsAreKept | internal/channel/format.go:71-144 | where parts can be shown they all stay, behind the text and before links |
| Format.PartsAreRendered | internal/channel/format.go:71-176 | elsewhere they become the text, with links behind them |
| Format.ActionsSurvive | internal/channel/format.go:113-135 | the actions stay unless all of them become links |
| Format.FitTwice | internal/channel/outbound.go:211-214 | coercing twice is coercing once if and only if the message is not in the one family that is left unsettled |
| Format.FitThrice | internal/channel/outbound.go:486-493 | a third coercion never changes anything |
| Format.OnePassSettles | internal/channel/format.go:71-135 | outside that family one coercion leaves nothing to coerce |
| InlineMarkup.PairsLeft | internal/channel/format.go:48-52 | stripping leaves two stars side by side if and only if the text has two runs of an odd number of stars with only stars and ticks between |
| InlineMarkup.StripTwice | internal/channel/format.go:48-52 | so stripping twice is stripping once if and only if it has not |
| InlineMarkup.StrippingIsNotIdempotent | internal/channel/format.go:48-52 | one such text |
| InlineMarkup.StripKeeps | internal/channel/format.go:48-52 | stripping removes exactly the ticks and the stars that have a partner in their run, and keeps every other character in order |
| ShownText.TextIsShown | internal/channel/format.go:71-111 | a text without parts and links is shown verbatim, or without its markers exactly where it is Markdown and the channel shows neither Markdown nor rich text; as the one rich part if it is passed on literally; and in which format |
| ShownText.LinksComeBehind | internal/channel/format.go:113-176 | downgraded actions come behind that text, as rich parts or as a further paragraph, and nothing else does |
| ShownText.PartsAreShown | internal/channel/format.go:71-144 | text and parts of a body with parts, in order, and in which format |
| ShownText.RenderingJoins | internal/channel/parts_render.go:53-101 | the plain rendering has one line for each part that has one, trimmed, with an empty line between them |
| ShownText.RenderingSays | internal/channel/parts_render.go:53-101 | it says what the parts say, white space left out, in their order |
| ShownText.FitSays | internal/channel/format.go:71-176 | a body without parts says after coercion what its text says as the channel can show it, and then what its links say |
| ShownText.ReadySays | internal/channel/outbound.go:206-233 | so does the message that is split, with the one exception of what the Markdown renderer writes |
| ShownText.SentSaysTheText | internal/channel/outbound.go:206-352 | and so do all the messages sent, one after the other, for every message without parts; or the caption does, if the text becomes one |
| Chunkers.JoinSplit | internal/channel/outbound.go:93-165 | joining the split pieces gives the text back |
| Chunkers.SplitLongLine | internal/channel/outbound.go:171-189 | the stretches of limit characters, trimmed, blank ones left out |
| Chunkers.LongLineIsCutWell | internal/channel/outbound.go:171-189 | the pieces of a long line carry it, fit, and are not blank |
| Chunkers.PackIsGood | internal/channel/outbound.go:93-122 | greedy packing with any good cutter keeps carrying the pieces in order, within the limit, with solid ends |
| Chunkers.ChunkText | internal/channel/outbound.go:84-123 | computes the specified chunks |
| Chunkers.ChunkMarkdownText | internal/channel/outbound.go:126-165 | computes the specified chunks |
| Chunkers.TextChunksKeepTheirPromise | internal/channel/outbound.go:84-123 | chunks carry the text in order with only white space between them, fit a positive limit, begin and end with non-blank chunks, and are one trimmed chunk if the text fits |
| Chunkers.MarkdownChunksKeepTheirPromise | internal/channel/outbound.go:126-165 | the same for paragraphs |
| Chunkers.CarriesKeepsText | internal/channel/outbound.go:84-189 | so the chunks with white space erased are the text with white space erased |
| ChunkBoundaries.IndexIsFirst | internal/channel/outbound.go:92-145 | the first place where the separator stands, if there is one |
| ChunkBoundaries.SplitIsComplete | internal/channel/outbound.go:92-145 | no piece has the separator in it, and the pieces joined are the text |
| ChunkBoundaries.PackIsGreedy | internal/channel/outbound.go:93-165 | packing puts pieces into groups, each of which is one chunk: a group ends only where the next piece would not fit, and only a piece that is too long by itself is cut |
| ChunkBoundaries.TextIsCutAtLines | internal/channel/outbound.go:84-123 | so a long text is cut between lines, as late as possible, and inside a line only if that is too long |
| ChunkBoundaries.MarkdownIsCutAtParagraphs | internal/channel/outbound.go:126-165 | and Markdown between paragraphs, as late as possible, and between lines only inside a paragraph that is too long |
| ChunkBoundaries.LongLineIs | internal/channel/outbound.go:171-189 | a line that is too long is cut into stretches of the full limit, each trimmed, blank ones left out |
| ChunkBoundaries.LineWithoutLimit | internal/channel/outbound.go:171-174 | without a limit it is not cut |
| Outbound.CutText | internal/channel/outbound.go:238-272 | one piece per non-blank chunk, the id on the first and the actions on the last |
| Outbound.Composed | internal/channel/outbound.go:206-299 | text and media messages together deliver the whole message |
| Outbound.BuildOutboundMessages | internal/channel/outbound.go:206-352 | fails if and only if there is nothing to send; otherwise the actions are on the last message alone, all attachments on one, all parts on one, the text carried once or captioned, no message is empty, a new text without parts is in pieces that fit, and everything else, an edit above all, is at most one message with the whole text verbatim beside the one with the attachments |
| Outbound.SentTextIsTheText | internal/channel/outbound.go:206-299 | the texts sent, with white space erased, are the text with white space erased |
| Outbound.TextsAreCutOrWhole | internal/channel/outbound.go:234-277 | text is cut only if it is new, without parts and not a caption; otherwise there is one text message, with the text verbatim, if and only if there is a body or no attachment |
| Outbound.EditStaysWhole | internal/channel/outbound.go:235-241 | an edit is two messages if and only if it has attachments and a body, both have its id, and a text that is not a caption is whole on one of them |
| SentDetails.PolicyIs | internal/channel/outbound.go:48-71 | limits that are not set become 2000, and the text limit; all else stays |
| SentDetails.ReadyUnknown | internal/channel/outbound.go:206-233 | what is split where capabilities are not known: the message, typed, its text as the first of its parts if it has any |
| SentDetails.ReadyKnown | internal/channel/outbound.go:206-326 | where they are known: the message as it fits, with the parts of a new message as text if and only if their rendering is longer than a set limit |
| SentDetails.CaptionedIff | internal/channel/outbound.go:328-344 | the text becomes the caption of the first attachment, and is not sent beside it, if and only if the policy says so, there are no parts, and that attachment shows captions and has none; otherwise all attachments go out as they are |
| Delivery.PrepareAll | internal/channel/outbound.go:441-449 | succeeds if and only if every message can be prepared |
| Delivery.DeliveredIsAPrefix | internal/channel/outbound.go:450-456 | what is delivered is a prefix of the list, in order and without repetition, and all of it if and only if sending succeeds |
| Delivery.TriesAreBounded | internal/channel/outbound.go:520-573 | there are at most RetryMax tries for each message |
| Delivery.Adapter.SendPrepared | internal/channel/outbound.go:520-573 | tries until one succeeds, the tries are used up or the context is cancelled, and never again after a success |
| Delivery.Adapter.SendAllPrepared | internal/channel/outbound.go:450-456 | sends the list in order up to the first message that cannot be sent |
| Delivery.Adapter.SendAll | internal/channel/outbound.go:441-456 | nothing is sent unless every message can be prepared |
| Delivery.Adapter.SendMessage | internal/channel/outbound.go:699-715 | the split message is sent as a whole, or nothing of it if one part cannot be prepared |
| Delivery.SplitMessagesAreSettled | internal/channel/outbound.go:486-493 | preparing the parts of a settled message changes none of them |
| Delivery.SentAsSplit | internal/channel/outbound.go:441-456 | so a send without an error delivers exactly what was split |
| Delivery.Adapter.PushFinal | internal/channel/outbound.go:1023-1122 | a final without parts whose trimmed text is longer than a set limit goes out in more than one chunk of that text, and any other one without parts in one push of the message; one with parts as RichFinal says |
| Delivery.Adapter.PushChunked | internal/channel/outbound.go:1070-1122 | the overflow is prepared before anything goes out; then the first chunk goes into the stream and the rest directly, or all directly if that push fails |
| Delivery.PlanChunks | internal/channel/outbound.go:1186-1224 | one message per non-blank chunk, the actions on the last, or on the media message behind it |
| Delivery.ChunkedFinalIsDelivered | internal/channel/outbound.go:1023-1184 | a chunked final that succeeds has delivered its text once and in order on exactly one path, with actions and attachments once at the end |
| Delivery.LongTextsAreCut | internal/channel/outbound.go:1071-1085 | a trimmed text longer than the limit has more than one chunk |
| Delivery.PlainFinal | internal/channel/outbound.go:1023-1069 | a final without parts is cut if and only if its trimmed text is longer than the text limit; its plain text is its trimmed text |
| Delivery.RichFinal | internal/channel/outbound.go:1023-1069 | parts go out in one push unless they are too long for one message of the channel; they are then cut as text |
| LongFinals.ActsAreShort | internal/channel/outbound.go:1070-1224 | no act of a chunked final has a text longer than the limit, except the message with the actions if they become links when it is prepared |
| LongFinals.PlannedPlain | internal/channel/outbound.go:1186-1224 | the messages of a plan are new ones in the context of the final, without parts, and without actions but for the last |
| LongFinals.FirstIs | internal/channel/outbound.go:1098-1103 | what is pushed first is the final with its first chunk, without parts, actions and attachments |
| LongFinals.MediaIs | internal/channel/outbound.go:1209-1222 | the attachments follow in a message without text, with the actions |
| LongFinals.LongFinalStaysShort | internal/channel/outbound.go:1023-1224 | a final without parts that is longer than the limit, and whose actions do not become links, goes out with every text within the limit |
| LongFinals.StreamFinalsStayShort | internal/channel/outbound.go:811-837 | so does every final that the stream hands over without parts; one that is not longer goes out in one push |
| LongFinals.LinksNeedRoom | internal/channel/outbound.go:1186-1224 | a last chunk that gets links behind it is longer than the limit if and only if it leaves no room for them |
| Preparation.NormalizedIs | internal/channel/outbound.go:354-380 | a message is typed: a format is missing only where there is nothing to show |
| Preparation.LinkIs | internal/channel/format.go:146-163 | which actions are links, and what link they are |
| Preparation.AllowedIff | internal/channel/outbound.go:387-438 | a coerced message is accepted if and only if the channel can show what the incoming one becomes and carry the rest of it |
| Preparation.PreparesIff | internal/channel/outbound.go:466-518 | a message is prepared if and only if it is not empty, its attachments can be used, storage takes it, an edit has an editor, and the channel accepts it; what is sent is the message as it fits |
| Preparation.PlainTextSays | internal/channel/types.go:361-373 | the plain text of a message says what text and parts say, in order, and is trimmed |
| MarkdownPrinter.SelectFence | internal/channel/parts_render.go:291-308 | as many backticks as minRun, or one more than the longest stretch if that is longer |
| MarkdownPrinter.MaxRunIsLongest | internal/channel/parts_render.go:291-308 | no stretch of backticks in the text is longer than the computed one |
| MarkdownPrinter.MaxRunIsThere | internal/channel/parts_render.go:291-308 | and one is that long |
| MarkdownPrinter.FenceIsFound | internal/channel/parts_render.go:310-317 | a reader looking for a fence longer than all stretches finds it right behind the content |
| MarkdownPrinter.WrapInlineCode | internal/channel/parts_render.go:310-317 | computes the specified code span |
| MarkdownPrinter.CodeSpanRoundTrip | internal/channel/parts_render.go:310-317 | a trimmed text, printed as a code span and read by section 6.1 of CommonMark 0.31.2, is the text with a space for each line ending, and so the text itself if and only if it is on one line; what follows is left alone |
| MarkdownPrinter.Language | internal/channel/parts_render.go:236-248 | an accepted language hint has harmless characters only |
| MarkdownPrinter.NoLineCloses | internal/channel/parts_render.go:141-157 | no line of the code closes the computed fence |
| MarkdownPrinter.MarkdownBuilder.WriteCodeBlock | internal/channel/parts_render.go:141-157 | appends the block behind what is there, and nothing if the code is blank |
| MarkdownPrinter.CodeBlockRoundTrip | internal/channel/parts_render.go:141-157 | a block printed and read by section 4.5 of CommonMark 0.31.2 has the lines of its text and its language, and the lines behind it are those that follow |
| MarkdownPrinter.EscapeRoundTrip | internal/channel/parts_render.go:258-268 | undoing backslash escapes by section 2.4 of CommonMark 0.31.2 gives the text back, and no character of the escaped set is left bare |
| PrinterDetails.FenceIsShortest | internal/channel/parts_render.go:291-308 | a fence has at least three ticks, more than any stretch of the code, and no more than that needs |
| PrinterDetails.LanguageIs | internal/channel/parts_render.go:236-248 | a language hint is kept, trimmed, if and only if it has at most 32 characters, all of them letters, digits or four signs |
| PrinterDetails.NewlinesAreTrimmed | internal/channel/parts_render.go:141-145 | exactly the line breaks at both ends of the code are trimmed |
| PrinterDetails.BlockIsAppended | internal/channel/parts_render.go:145-149 | a block stands behind what was written before with an empty line between them |
| ModelIndex.CanonicalOf | internal/capabilities/match.go:59-106 | the loops end and compute the canonical form |
| ModelIndex.StripDateSuffixes | internal/capabilities/match.go:82-95 | the date-stripping loop ends where no date is left |
| ModelIndex.CanonicalIsClean | internal/capabilities/match.go:59-106 | a canonical form is lower-case, has no slash and no separator but dashes, no two of them side by side and none at its ends |
| ModelIndex.AfterSlashIsTail | internal/capabilities/match.go:66-67 | the part of an id that is kept is what stands right behind its last slash, or all of it if there is none |
| CanonicalDetails.CompactDatesAre | internal/capabilities/match.go:54 | a date without dashes is a dash and eight digits at the end |
| CanonicalDetails.DashedDatesEnd | internal/capabilities/match.go:55 | one with dashes is year, month and day of this century |
| ModelIndex.CanonicalTwice | internal/capabilities/match.go:59-106 | canonical is idempotent at an id if and only if, of the tokens kept of the unified id without its dates, the first does not begin and the last does not end in white space, and the last three do not read 20dd, dd, dd behind another |
| ModelIndex.DashesHideDates | internal/capabilities/match.go:82-106 | tokens that read like a date at the end were separated by two dashes side by side |
| ModelIndex.NoCompactAppears | internal/capabilities/match.go:82-106 | joining tokens never shows a date without dashes |
| ModelIndex.CanonicalIsIdempotent | internal/capabilities/match.go:59-106 | it is idempotent on ids without white space and adjacent separators |
| ModelIndex.TwoDashesHideADate | internal/capabilities/match.go:59-106 | it is not on an id with two dashes side by side, by example |
| ModelIndex.SortStrings | internal/capabilities/match.go:125-130 | sorted, and a permutation |
| ModelIndex.KeyIndex.constructor | internal/capabilities/match.go:125-150 | both tables hold, for each form, the key that comes first |
| ModelIndex.KeyIndex.Match | internal/capabilities/match.go:154-166 | answers as a linear scan: an exact key first, and otherwise the shortest key with the same canonical form, ties by sort order |
| ModelIndex.AnswerIsUnique | internal/capabilities/match.go:154-166 | there is only one such answer |
| ModelIndex.OrderOfKeysIsIrrelevant | internal/capabilities/match.go:125-166 | so permuting the keys changes no answer |
| CanonicalDetails.SpaceIsIgnored | internal/capabilities/match.go:154-166 | white space around an id makes no difference to the answer |
| CanonicalDetails.CaseIsIgnored | internal/capabilities/match.go:154-166 | neither does the case of its letters |
| CanonicalDetails.BytesOf | internal/capabilities/match.go:139-148 | the length that decides between keys is that of UTF-8 |
| CanonicalDetails.BytesOfConcat | internal/capabilities/match.go:139-148 | and the lengths of parts add up |
| Enricher.MapValue | cmd/synccaps/main.go:251-261 | the value of the first pair with the key |
| Enricher.MapSet | cmd/synccaps/main.go:276-285 | replaces the value of the first pair with the key, or appends a pair |
| Enricher.MapDelete | cmd/synccaps/main.go:263-273 | removes the first pair with the key |
| Enricher.RemoveSeqValue | cmd/synccaps/main.go:306-321 | removes every occurrence of a value, and says whether there was one |
| Enricher.GetSet | cmd/synccaps/main.go:251-285 | reading after writing gives the value written, and other keys as before |
| Enricher.GetDeleteNode | cmd/synccaps/main.go:251-273 | deleting leaves other keys as before, and the key itself with its second value, or without one if it was there once |
| Enricher.ModelEntry.ApplyToModel | cmd/synccaps/main.go:168-190 | the node after enrichment and whether it changed |
| Enricher.ModelEntry.ApplyNoReasonToModel | cmd/synccaps/main.go:195-217 | the node after correction and whether it changed |
| Enricher.EnrichedIs | cmd/synccaps/main.go:168-190 | an enriched config says what was discovered |
| Enricher.AppliedTwice | cmd/synccaps/main.go:168-190 | a second enrichment reports no change, and makes none, if and only if config is absent or a mapping |
| Enricher.ClearedIs | cmd/synccaps/main.go:195-228 | a correction that finds residue reports a change, and leaves residue if and only if efforts are listed twice, or a compatibility list that goes has another with the reasoning entry behind it |
| Enricher.NoReasonTwice | cmd/synccaps/main.go:195-217 | a second correction reports a change if and only if the first found residue and left some; otherwise it makes none |
| Enricher.OtherKeysStay | cmd/synccaps/main.go:168-217 | no other key of the model is altered or reordered |
| Enricher.OtherConfigKeysStay | cmd/synccaps/main.go:168-217 | no other key of the config is altered or reordered |
| EnrichmentDetails.EnrichedSays | cmd/synccaps/main.go:168-190 | after an enrichment the efforts are listed as discovered, or as the usual three if none were, and the mode is the scalar discovered |
| EnrichmentDetails.ChangeIsReported | cmd/synccaps/main.go:168-190 | it reports a change if and only if it makes one |
| EnrichmentDetails.ClearedSays | cmd/synccaps/main.go:195-217 | a correction leaves the mode at none |
| EnrichmentDetails.ResidueIs | cmd/synccaps/main.go:219-228 | what there is to correct: a mode other than none, efforts, or reasoning among the compatibilities |
| EnrichmentDetails.RemovedIff | cmd/synccaps/main.go:306-321 | a value is removed if and only if it is in the list, and then from every place |

## Left out

- Channel types without stored configs: configs for them are synthesized elsewhere, so none are in the store of `Lifecycle`.
- A reconcile that races with other calls is modelled by its steps (ensures and the final sweep, for any set of active ids), not as one call that keeps its list between them.
- An adapter whose Connect succeeds without returning a connection.
- Lifecycle.RollbackRestoresIff: leaves the update time of a restored config free, because writing it back is an ordinary write that sets a new one.
- ConfigStore.UpsertConfig: takes identities as maps of strings and credentials as texts, so that values of other JSON types do not appear; violations of unique external identities are among the failed writes, which are answers of the outside world.
- Lifecycle.OffMeansDisconnected: covers histories in which no call turns a connected channel off under another spelling of the bot id, because exactly those calls leave connections up (ApplyKeeps).
- Callback.ListRoundTrip: assumes that the token of the payload collides with no live payload, since 64-bit FNV hashes can collide.
- Callback data is a byte string; `SyntheticCommand` for list pages depends on a formatter that is not part of this model.
- MarkdownPrinter.CodeBlockRoundTrip: is about text whose lines end in line feeds, as a carriage return would end a line as well.
- MarkdownPrinter.CodeSpanRoundTrip: reads a span by itself; that a blank line inside it would end the paragraph is not modelled.
- RecordedTurns.TurnTables.Restore: leaves open the order in which groups, and rows with equal numbers, are sorted (it holds for every order), and does not model other database errors or the compaction epoch.
- RebuiltTurns.RebuildRestoredHistoryTurns: names a turn by its session and position instead of a generated id.
- RebuiltTurns.RebuildSucceedsIff: is about lists without repeated message ids, which are primary keys, and about turns that lie behind their session's next position.
- Lower-casing is that of ASCII letters; white space is the set of `unicode.IsSpace`.
- The regular expressions of `ContainsMarkdown`, the Markdown renderer, the plain rendering of part kinds other than text and link, and the URL check are parameters (`Format.Env`).
- The printers of links, headings, quotes and lists, which only add prefixes around escaped text.
- Custom chunkers set on a policy; the built-in ones are modelled.
- `pushFinalAfterSplit` and `trimSplitFinalDuplicateBody`, the final that follows a split stream, and chunked finals on a stream without a sender.
- Attachment storage, reference normalization and prepared-message validators are yes-or-no answers in `Delivery.Setup`; timers, backoff lengths and logging do not appear.
- Outbound streams without a way to reopen them.
- ManagerList.ListManagers: does not model display columns, the merging of profiles, and the sort by display name.
- ManagerList.ResolveUserPermissions: is about users who are not administrators; an administrator gets every permission without a query.
- The two word lists of the canonicaliser are parameters, so that its theorems hold for every pair of lists.
- Nodes of the YAML document are values here: aliases, comments, styles and the writing of files are not modelled.
- SQL, JSON, archives and encryption: tables are maps or lists with the meaning of their queries, and ids are abstract.
- Import compensation as a whole, skills, HTTP and gRPC wiring, and process supervision.
