# Reminder bot: the rules around the network calls

This project models the decision logic of a chat reminder bot written in
Rust, and proves properties of that model in Dafny. The bot turns a
`/notify` request into a reminder after the user approves it. It
keeps a todo list per user and sends a daily summary of it. It delivers
reminders on a tick an hour and a day before the reminder's time.

Every collaborator that talks to the outside world becomes an input:

- the language model is a function from a prompt and a mode to a reply
  (`CallError`, `Unparsable` or `Parsed`);
- the approval prompt, the database save and the persisting of a
  notification are given outcomes;
- Discord posts and DMs become returned effects, or a sender function
  that answers each send;
- "now", fresh UUIDs, message ids and environment variables are
  parameters.

Times are whole seconds, so one minute is 60, one hour 3600 and one day
86400.

The model follows the source file by file, one module per file:

- `Actions` (actions.dfy) models src/handlers/action.rs. The
  `ActionStore` and `ActionEngine` classes hold the action map, and
  `HandleEvent` is proved against the pure `Step`.
- `NotifyFlow` (notify_flow.dfy) models src/service/notify_flow.rs. The
  `SessionStore` class holds the session map, and `RouteNotify` is proved
  against `Route`.
- `Routing` (routing.dfy) models src/service/routing.rs. It is pure
  functions, except the `has_am_pm` scan, which is a method with a loop.
- `Reminders` (reminder.dfy) models src/reminder.rs, with a `ReminderDb`
  class.
- `NotificationLoop` (notification_loop.dfy) models
  src/tasks/notification_loop.rs. The tick is a method over the
  reminder map.
- `LegacyNotificationLoop` (legacy_notification_loop.dfy) models
  src/notification_loop.rs: the same tick, with its own message building.
- `NotificationService` and `NotificationMessageService` model the two
  message builders as pure functions.
- `EventWorker` (worker.dfy) models src/events/worker.rs, with a `Worker`
  class over the pending map.
- `LegacyHandler` (handler.dfy) models src/handler.rs. A `LegacyBot` class
  holds the pending map; the rendering is pure.
- `DiscordHandler` (discord_handler.dfy) models src/handlers/discord.rs. A
  `BotHandler` class holds the todo database and the events put on the
  bus.
- `TodoLoop` (todo_loop.dfy) models src/tasks/todo_loop.rs. The daily
  summary tick is a set of methods.
- `Todo` (todo.dfy) models src/models/todo.rs, with a `TodoDb` class.
- `Config` (config.dfy) models src/config.rs. The parsing loop is a
  method proved against a fold over the lines.

Helper modules hold what several files share:

- `Wrappers`: `Option` and `Result`;
- `Text`: Rust's `trim`, `split_once`, `split`, `starts_with`,
  `parse::<u64>()` and decimal digits;
- `Sorting`: a sort by key, like `sort_by_key`, proved ordered and a permutation;
- `Maps`: the multiset of a map's values;
- `Interaction`: the custom-id split and the modal scan;
- `Corrections`: the correction prompt.

A hash map's iteration order is not fixed. The model lets each loop over
a map visit the keys in any order, so every property proved holds for
all orders.

## Model

| member | source | states |
|---|---|---|
| Actions.Action.NotificationDraftOf | src/handlers/action.rs:65-70 | The draft is present exactly when the payload is, and it is the payload's draft. |
| Actions.WithPromptResult | src/service/approval_prompt.rs:40-62 | A prompt that was sent records its message id in the draft; the action is otherwise unchanged, and a failed prompt changes nothing. |
| Actions.CorrectedAction | src/handlers/action.rs:340-353 | The action written back after a parsed correction keeps its id, status, owner and channel, is stamped with the time, and holds the corrected draft. |
| Actions.ActionStore.Insert | src/handlers/action.rs:92-94 | The action is stored under its own id and nothing else changes. |
| Actions.ActionStore.Get | src/handlers/action.rs:96-98 | A lookup finds an action exactly when the id is a key, and returns the stored action. |
| Actions.ActionStore.Ids | src/handlers/action.rs:100-103 | Every key appears once, and nothing else appears. |
| Actions.ActionEngine.HandleEvent | src/handlers/action.rs:150-357 | The snapshot, guard, field updates and write-back leave the store and the effects exactly as `Step` describes, for all four events. |
| Actions.ActionEngine.ProcessEvents | src/handlers/action.rs:150-151 | Draining the bus in order leaves the store as `Run` describes, and returns for each event exactly the effects `Effects` gives: each event is handled on the store the previous one left. |
| Actions.StepTransitions | src/handlers/action.rs:150-357 | One event keeps every stored action and its request, adds at most the fresh id, and moves a status only from AwaitingApproval to Completed, Failed or Rejected. |
| Actions.StepKeepsNoApproved | src/handlers/action.rs:224-276 | `Approved` is never what an event stores. |
| Actions.RunKeepsNoApproved | src/handlers/action.rs:224-276 | Over any run of events, no stored action is ever `Approved`. |
| Actions.RunTransitions | src/handlers/action.rs:150-357 | Over any run with fresh ids, every action survives, keeps its request and owner, and moves its status only as the state machine allows. |
| Actions.UnguardedIsNoOp | src/handlers/action.rs:216-222 | A confirm, cancel or correction for a missing action, another user's action, or one not awaiting approval changes nothing and sends nothing. The same guard is at lines 284-290 and 309-315. |
| Actions.FailedRequestReports | src/handlers/action.rs:157-179 | A failed model call or an unparsable answer leaves the store unchanged and sends one status message to the requester. |
| Actions.ParsedRequestStoresDraft | src/handlers/action.rs:181-208 | A parsed request stores exactly one new action under the fresh id. It awaits approval, or has failed if the prompt failed. It holds the model's content and time, the request text and no note, and it expires five minutes later. |
| Actions.ConfirmPersistsDraft | src/handlers/action.rs:243-276 | Confirming asks to persist exactly the draft's content and time for its owner and channel. Only that action changes: it ends Completed with the confirmation update when the persist succeeds, and Failed with the "Failed to persist notification." message when it does not, with `updated_at` set to now. |
| Actions.ConfirmWithoutDraftFails | src/handlers/action.rs:227-241 | Confirming an action without a draft marks it Failed, reports the failure and persists nothing. |
| Actions.CancelRejects | src/handlers/action.rs:284-297 | Canceling a pending action by its owner, in any store, stores exactly that action as Rejected with `updated_at` set to now, changes no other action, persists nothing, and sends only the cancellation notice. |
| Actions.DecisionIsFinal | src/handlers/action.rs:220-222 | After a confirm or cancel, every later confirm, cancel or correction of the same action is ignored, so a second confirm does nothing. |
| Actions.CorrectionRewritesDraft | src/handlers/action.rs:317-354 | A parsed correction overwrites content and time, records the trimmed note only when it is not blank, and keeps the action awaiting approval. An unanswered correction changes nothing. |
| Actions.ContextStepWritesCorrected | src/handlers/action.rs:340-354 | A parsed correction writes back exactly the corrected action under the same id. |
| Actions.CorrectionThenConfirm | src/handlers/action.rs:243-251 | After a correction, confirming persists the corrected content and time, not the first draft's. |
| Actions.ConfirmedRequestCreatesNotification | tests/action_engine_flow.rs:53-87 | In the repository's scenario, a request followed by a confirmation persists "call mom" for channel "123" and completes the action. |
| Actions.CanceledActionIsRejected | tests/action_engine_flow.rs:90-137 | A canceled pending action is stored as Rejected. |
| Actions.ContextSubmissionUpdatesPending | tests/context_flow.rs:59-122 | The note "actually next day" rewrites the draft to the model's answer and is recorded as the note. |
| Corrections.NotePrompt | src/events/worker.rs:116-125 | With no stored note the prompt is the request alone; with a note it is the correction prompt for that note. |
| Corrections.CorrectionPromptCarries | src/handlers/action.rs:317-329 | The prompt always holds the request. A blank note leaves the request alone. A non-blank note gives "Original request: …" ending with the trimmed note. |
| Reminders.GetDbLocation | src/reminder.rs:13-15 | The location is `DB_LOCATION` when set, otherwise "./data". |
| Reminders.NewReminder | src/reminder.rs:39-58 | The stored reminder has the fresh id, copies the content and channel, splits the recipients on ',' and has the times a day and an hour before the target, sorted. |
| Reminders.SortTwo | src/reminder.rs:41-48 | Sorting the two pushed times, hour first and day second, gives day first and hour second. |
| Reminders.RecipientsRoundTrip | src/reminder.rs:39 | Joining the recipients with ',' gives back the input, because nothing is trimmed. |
| Reminders.NewReminderTimesAscending | src/reminder.rs:41-48 | The times are strictly ascending and both before the target, with no filtering against the current time. |
| Reminders.ReminderDb.CreateReminder | src/reminder.rs:32-60 | Exactly one entry is added under the fresh id and others are unchanged. The result is the save result, and a failed save keeps the insert. |
| Todo.GetDbLocation | src/models/todo.rs:9-15 | `TODO_DB_LOCATION` when set, otherwise the reminder location followed by "/todo", so "./data/todo" when neither is set. |
| Todo.NumberedLineOccurs | src/handlers/discord.rs:225-227 | Every item appears as its own line "{n}) {content}", numbered from 1 in list order. |
| Todo.Listing | src/tasks/todo_loop.rs:93-97 | A listing is the header, then the numbered lines with the trailing white space trimmed; the header itself is never trimmed. |
| Todo.BuildListing | src/handlers/discord.rs:224-228 | The push loop followed by `trim_end` builds exactly the listing. |
| Todo.TodoDb.CreateTodo | src/models/todo.rs:26-43 | One open item is added under the fresh id, with the user and content copied. The id is returned when the save succeeds. A failed save returns an error and keeps the insert. |
| EventWorker.ChannelError | src/events/worker.rs:143-152 | The error goes to the parsed channel as "<user> message", and nothing is sent when the channel does not parse. |
| EventWorker.Worker.Handle | src/events/worker.rs:22-140 | One event updates the pending map and the posts exactly as `Step` describes. |
| EventWorker.CorrectEntry | src/events/worker.rs:113-137 | The field updates through `get_mut` give exactly the corrected entry: the trimmed note first, then the prompt from the stored note, then the model's content and time. |
| EventWorker.Worker.RunWorker | src/events/worker.rs:16-22 | All events are handled in order: the pending map ends as `Run` describes, and the posts for each event are exactly those `Posts` gives. |
| EventWorker.FailedRequestInsertsNothing | src/events/worker.rs:29-51 | A failed or unparsable request inserts nothing and reports the failure text to the requester's channel. |
| EventWorker.ParsedRequestIsStored | src/events/worker.rs:53-85 | A parsed request is stored under the fresh id with no note and five minutes to live, before the channel is parsed. With a bad channel id the entry stays and nothing is posted. |
| EventWorker.DecisionsAreNoOps | src/events/worker.rs:95-100 | Confirmations and cancellations change nothing. |
| EventWorker.ForeignCorrectionIsNoOp | src/events/worker.rs:106-112 | A correction for a missing entry or from another user changes nothing. No status is checked. |
| EventWorker.CorrectionKeepsNote | src/events/worker.rs:113-137 | A non-blank note is stored trimmed, whether or not the model answers. A blank one keeps the earlier note, and that stored note is what the model is asked with. Content and time change only on a parsed answer. |
| EventWorker.RunKeepsEntries | src/events/worker.rs:22-140 | Over any run with fresh ids, no entry is lost and none changes owner or request. |
| Interaction.SplitCustomId | src/handlers/discord.rs:503 | The custom id splits at its first ':' into a prefix with no ':' and the rest. |
| Interaction.SplitCustomIdOfBuilt | src/handlers/discord.rs:503 | An id built as prefix, ':', rest splits back into the two, whatever the rest holds. |
| Interaction.LastContextValue | src/handlers/discord.rs:527-536 | The value found is that of the last "context" input, in row order, and there is none when no such input exists. |
| Interaction.FindContextValue | src/handler.rs:487-496 | The nested scan over rows and components finds exactly the last context input's value. |
| Interaction.ContextValueExamples | src/handler.rs:487-496 | A later empty input overrides an earlier value, and a modal with no context input yields none. |
| Routing.HasAmPm | src/service/routing.rs:149-165 | The scan returns true exactly when some "am" or "pm" has a non-letter or the string boundary on both sides. |
| Routing.RouteIntent | src/service/routing.rs:70-90 | The normalized text is the trimmed input. Blank input is Unknown. Otherwise the intent is Notification exactly when the time heuristic fires. |
| Routing.ParseRouterPayload | src/service/routing.rs:58-68 | A parsed payload always gives a result. Its intent is Notification exactly when the string is "notification", and its text is trimmed. |
| Routing.OpenAIRoute | src/service/routing.rs:44-49 | A failed call or an unparsable payload falls back to the heuristic; otherwise the payload decides. |
| Routing.RoutedTextIsTrimmed | src/service/routing.rs:58-90 | Whichever router answers, the normalized text is already trimmed. |
| Routing.RouteIntentIgnoresSurroundingSpace | src/service/routing.rs:70-71 | Routing a text and routing its trimmed form agree. |
| Routing.RouteIntentCaseInsensitive | src/service/routing.rs:92-93 | The heuristic ignores the case of ASCII letters. |
| Routing.SlashColonRule | src/service/routing.rs:142-144 | With no token, weekday or month, a text holding '/' or ':' is a time exactly when it holds a digit; the am/pm check is skipped. |
| Routing.KeywordInFollowUpRoutes | src/service/routing.rs:92-140 | Once a follow-up holds a token, weekday or month, the merged text routes as a notification whatever came before it. |
| Routing.AmPmWordExamples | tests/routing_intent.rs:25-29 | "call mom 5pm" holds an am/pm word, and the "am" in "spam" does not count. |
| NotifyFlow.CombinedText | src/service/notify_flow.rs:32-39 | The router gets the text alone when there is no session, the session expired or it already awaits a notification. For a live Unknown session it gets the earlier text, a space and the new text. |
| NotifyFlow.SessionFor | src/service/notify_flow.rs:42-60 | The stored session holds the combined text and the current time, and it is PendingNotification exactly when the intent is Notification. |
| NotifyFlow.DecisionFor | src/service/notify_flow.rs:42-62 | The decision is EmitNotify exactly for a Notification intent, and it carries the router's normalized text. |
| NotifyFlow.Route | src/service/notify_flow.rs:25-64 | After the call the key is present with the combined text and the current time, and every other key is unchanged. The decision is the router's on the combined text. |
| NotifyFlow.SessionStore.RouteNotify | src/service/notify_flow.rs:25-64 | The in-place removal, merge and insert leave the session map and the decision exactly as `Route` describes. |
| NotifyFlow.ExpiryBoundary | src/service/notify_flow.rs:34 | A session exactly five minutes old is still live, and one second older is expired. |
| NotifyFlow.EmitUsesRouterText | src/service/notify_flow.rs:50-52 | An emitted notification carries the router's normalized text, not the merged text the session keeps. |
| NotifyFlow.FollowUpCompletesUnknownSession | src/service/notify_flow.rs:36-49 | With the heuristic router, a follow-up holding a time word turns a live Unknown session into an emitted notification. |
| NotifyFlow.UnknownThenFollowUp | tests/notify_flow.rs:40-67 | "call mom" needs clarification, and the follow-up "tomorrow at 5" is then emitted as a notification. |
| NotificationLoop.Ticked | src/tasks/notification_loop.rs:28-33 | A reminder whose first time is strictly before now loses exactly that time; any other reminder is unchanged. |
| NotificationLoop.Tick | src/tasks/notification_loop.rs:21-39 | One tick leaves the store as `TickEntries` describes and sends exactly the deliveries of the due reminders, whatever the visiting order. |
| NotificationLoop.Scan | src/tasks/notification_loop.rs:23-35 | The first loop pops each due time, keeps every key, and collects exactly the ids of reminders that had no time left. |
| NotificationLoop.RemoveKeys | src/tasks/notification_loop.rs:36-39 | The second loop removes exactly the collected ids. |
| NotificationLoop.TickDeletesOnlyEmpty | src/tasks/notification_loop.rs:24-27 | A tick deletes exactly the reminders whose list was already empty when it started. |
| NotificationLoop.EmptiedReminderSurvives | src/tasks/notification_loop.rs:24-39 | A reminder emptied by this tick's pop is kept, and the next tick deletes it. |
| NotificationLoop.TickKeepsAscending | src/tasks/notification_loop.rs:32 | Popping the front keeps ascending times ascending. |
| NotificationLoop.ReminderLifetime | src/tasks/notification_loop.rs:21-39 | A reminder whose times have all passed loses one time per tick, so it is still stored, empty, after as many ticks as it had times, and gone one tick later. |
| NotificationLoop.SendMessage | src/tasks/notification_loop.rs:47-66 | Nothing is built or sent when the channel is not a 64-bit number; otherwise the service's message goes to that channel. |
| NotificationLoop.RunTick | src/tasks/notification_loop.rs:19-44 | One turn of the loop is the tick, with each due reminder sent through `send_message`. The save that follows is not modelled. |
| NotificationLoop.BadChannelStillPops | src/tasks/notification_loop.rs:30-33 | A due reminder with an unusable channel sends nothing, yet its time is popped. |
| LegacyNotificationLoop.LegacyMessage | src/notification_loop.rs:60-101 | A successful answer is the whole message. A failure gives the same fallback text the service builds. |
| LegacyNotificationLoop.SendMessage | src/notification_loop.rs:47-106 | An unparsable channel means no model call and no send. |
| LegacyNotificationLoop.RunTick | src/notification_loop.rs:19-44 | This loop has the same tick: a strict comparison, one pop per reminder, and deletion only of lists empty at the start. Its sends go through its own `send_message`. |
| LegacyNotificationLoop.LoopsDifferInMentionLine | src/notification_loop.rs:86-87 | The two loops send to the same channel. They differ only in that the service puts the mention line before a successful answer. |
| NotificationService.NumHours | src/service/notification_service.rs:17 | As chrono's `num_hours`, whole hours truncated toward zero, also for negative spans. |
| NotificationService.HoursRemaining | src/service/notification_service.rs:13-19 | The whole hours from the first to the last time, and 0 for an empty list. |
| NotificationService.Mentions | src/service/notification_service.rs:21-25 | Each recipient, in order, is wrapped as "<user>". |
| NotificationService.BuildMessage | src/service/notification_service.rs:9-60 | A successful answer comes after the mentions joined by ", " and a line break. A failure gives the fallback. The reminder must have a time, because `last().unwrap()` panics otherwise. |
| NotificationService.MessageMentionsEveryone | src/service/notification_service.rs:104-106 | Whichever way the model answers, every recipient is mentioned. |
| NotificationService.SuccessCarriesBody | src/service/notification_service.rs:40-45 | A successful answer appears whole in the message. |
| NotificationService.FallbackNamesContentAndHours | src/service/notification_service.rs:46-58 | The fallback names the content and "Hours remaining", as the test at lines 125-127 expects. |
| NotificationService.StructuredInputCarries | src/service/notification_service.rs:21-38 | The prompt handed to the model names every recipient's mention and the content. |
| NotificationService.FreshReminderHours | src/service/notification_service.rs:13-19 | A fresh reminder has 23 hours remaining at its first notice and 0 at its last. |
| NotificationMessageService.ContextFor | src/service/notification_message_service.rs:22-35 | The event time is the last time and the next time is the first. The hours remaining are whole hours from now to the first time. |
| NotificationMessageService.BuildMessage | src/service/notification_message_service.rs:18-45 | With no time the message is "Notification: {content}" and the model is not called. A non-blank answer is returned as is. A serialisation failure, an error or a blank answer gives "Notification: {content} at {event time}". |
| NotificationMessageService.MessageNeverBlank | src/service/notification_message_service.rs:41-43 | The message is never blank. |
| NotificationMessageService.FallbackNamesContent | src/service/notification_message_service.rs:22-43 | Every message that is not the model's own answer names the content: with no times, a failed serialisation, a model error or a blank answer. |
| LegacyHandler.RenderShowsReminder | src/handler.rs:68-80 | The preview starts with the confirmation header and shows the content. A blank note renders as no note. A non-blank note ends the preview, trimmed. |
| LegacyHandler.PendingButtons | src/handler.rs:82-94 | There are three buttons: confirm, add context and cancel. |
| LegacyHandler.ConfirmButtonRoutes | src/handler.rs:466-470 | The confirm button's id routes back to confirming the same pending id, whatever the id holds. |
| LegacyHandler.ContextButtonRoutes | src/handler.rs:474-476 | The context button's id routes back to the context modal for the same pending id. |
| LegacyHandler.CancelButtonRoutes | src/handler.rs:471-473 | The cancel button's id routes back to canceling the same pending id. |
| LegacyHandler.ModalPendingId | src/handler.rs:484-486 | The modal finds a pending id exactly when its custom id holds ':', whatever the prefix. |
| LegacyHandler.ContextModalRoutes | src/handler.rs:409 | The context modal submits back to the entry it was opened for. |
| LegacyHandler.NewPendingLiveFiveMinutes | src/handler.rs:177 | A new entry is expired exactly when more than five minutes have passed. |
| LegacyHandler.CorrectedReminder | src/handler.rs:531-533 | A given context value replaces the note, even an empty one. Owner, channel, request, expiry and message id are kept. |
| LegacyHandler.CorrectionUsesModel | src/handler.rs:535-572 | The model is asked with the request and the note the entry now has; a parsed answer replaces content and time, and any other answer keeps them. |
| LegacyHandler.Refresh | src/handler.rs:585-633 | Refreshing the preview changes only the recorded message id of the entry. |
| LegacyHandler.ModalTouchesOnlyItsEntry | src/handler.rs:484-529 | A submission touches no other entry and adds none. A missing entry, another user or an id with no ':' changes nothing. |
| LegacyHandler.ModalRefreshesPreview | src/handler.rs:574-633 | For the requester's own entry, the corrected entry is stored. Its rendering with the buttons updates the modal's message, or is posted to the entry's channel. |
| LegacyHandler.NotifyRefusalsKeepPending | src/handler.rs:109-164 | Blank text, a failed call or an unparsable answer adds nothing and replies privately. |
| LegacyHandler.NotifyKeepsParsedRequest | src/handler.rs:166-204 | A parsed answer adds one entry: the requester's, with the model's content and time, no note and five minutes to decide. The reply is its preview with buttons carrying its id. |
| LegacyHandler.LegacyBot.HandleNotify | src/handler.rs:96-205 | The pending map and the reply end exactly as `NotifyOutcome` describes. |
| LegacyHandler.LegacyBot.HandleConfirm | src/handler.rs:207-311 | A missing entry or another user changes nothing. An expired entry (`expires_at < now`) is dropped without persisting. Otherwise the reminder is created: a successful save drops the entry, and a failed one keeps it. |
| LegacyHandler.LegacyBot.HandleCancel | src/handler.rs:313-367 | Only the requester's cancel drops the entry; anyone else's changes nothing. |
| LegacyHandler.LegacyBot.HandleContextButton | src/handler.rs:369-428 | Only the requester gets the modal, and nothing is stored. |
| LegacyHandler.LegacyBot.HandleModalSubmit | src/handler.rs:481-650 | The pending map, the post and the reply end exactly as `ModalOutcome` describes. |
| LegacyHandler.LegacyBot.Revise | src/handler.rs:531-633 | The requester's own entry is corrected, stored back and shown again, as `Revised` describes. |
| LegacyHandler.LegacyBot.Correct | src/handler.rs:531-572 | The in-place correction gives exactly the corrected entry. |
| LegacyHandler.LegacyBot.RefreshPreview | src/handler.rs:585-633 | Only the entry's message id changes, and the reply or post shows the entry. |
| DiscordHandler.NotifyResponseByDecision | src/handlers/discord.rs:125-134 | Each decision has one fixed reply; the two replies differ, and neither echoes the text. |
| DiscordHandler.EmittedFor | src/handlers/discord.rs:112-120 | Only EmitNotify puts a request on the bus, with the normalized text, the user and the channel. |
| DiscordHandler.ConfirmRouteOfBuilt | src/handlers/discord.rs:503-507 | A confirm id routes back to confirming the same id. |
| DiscordHandler.CancelRouteOfBuilt | src/handlers/discord.rs:508-510 | A cancel id routes back to canceling the same id. |
| DiscordHandler.ContextRouteOfBuilt | src/handlers/discord.rs:511-513 | A context id routes back to asking for context on the same id. |
| DiscordHandler.ModalRouteOfShown | src/handlers/discord.rs:519-526 | A modal is handled only with the "action_context_modal" prefix, and it submits back to the action it was opened for. |
| DiscordHandler.ListContent | src/handlers/discord.rs:221-229 | An empty list gives "You have no open todos."; otherwise the header and the numbered lines, trimmed at the end. |
| DiscordHandler.BotHandler.HandleNotifyInternal | src/handlers/discord.rs:92-123 | The session map changes as `Route` describes, and the bus gets the events `EmittedFor` gives for the decision. |
| DiscordHandler.BotHandler.HandleNotify | src/handlers/discord.rs:57-146 | A blank text is refused before any routing and changes nothing. Otherwise the request is routed under "@user" and the reply is the decision's fixed text. |
| DiscordHandler.BotHandler.OpenTodos | src/handlers/discord.rs:214-219 | The listed items are exactly the caller's open items, counted with multiplicity, sorted by creation time. |
| DiscordHandler.BotHandler.HandleTodoAdd | src/handlers/discord.rs:148-209 | A blank text is refused. Otherwise one item is created, and the reply reports the save outcome. |
| DiscordHandler.BotHandler.HandleTodoList | src/handlers/discord.rs:211-241 | The reply lists exactly the caller's open items in creation order, numbered from 1. |
| DiscordHandler.BotHandler.HandleTodoDone | src/handlers/discord.rs:243-316 | An index of 0 or less, or past the open items, changes nothing. Otherwise exactly the index-th open item, in creation order, is marked done. |
| DiscordHandler.BotHandler.CollectCompletedIds | src/handlers/discord.rs:321-325 | The collected ids are exactly those of the caller's completed items. |
| DiscordHandler.BotHandler.RemoveIds | src/handlers/discord.rs:327-329 | Exactly the listed ids are removed. |
| DiscordHandler.BotHandler.HandleTodoClear | src/handlers/discord.rs:318-342 | Exactly the caller's completed items are removed. |
| DiscordHandler.BotHandler.HandleComponent | src/handlers/discord.rs:501-517 | Confirm and cancel go on the bus under "@user" with the "Processing" update. The context button opens the context modal. Any other id is ignored. |
| DiscordHandler.BotHandler.HandleModalSubmit | src/handlers/discord.rs:519-556 | Only an "action_context_modal" id is handled. Its action gets the last context input's text, or "" when there is none. |
| DiscordHandler.DoneMarksListedItem | src/handlers/discord.rs:286-303 | With items stored under their own ids, `/todo done` changes exactly the listed item, and only its completion time, so it leaves the caller's open items. |
| DiscordHandler.ClearRemovesCompleted | src/handlers/discord.rs:321-329 | An entry is kept exactly when it is not one of the caller's completed items. |
| TodoLoop.OwnersHaveOpenKeys | src/tasks/todo_loop.rs:81-89 | A user gets a group exactly when the user has an open item. |
| TodoLoop.GroupOpenByUser | src/tasks/todo_loop.rs:81-89 | After the pass over all items, each user's group holds that user's open items, whatever the visiting order. |
| TodoLoop.GroupedAll | src/tasks/todo_loop.rs:81-89 | The groups are exactly the users with open items, and each holds exactly that user's open items. Completed items are left out. |
| TodoLoop.SummaryBodyIsSummary | src/tasks/todo_loop.rs:92-97 | A group's body is the greeting followed by its items in creation order, numbered from 1, with trailing white space trimmed. |
| TodoLoop.Summarize | src/tasks/todo_loop.rs:92-97 | The sort and push loop build exactly that body. |
| TodoLoop.GroupSummariesAreSummaries | src/tasks/todo_loop.rs:91-98 | A summary of each group is a summary of that user's open items. |
| TodoLoop.SendSummaries | src/tasks/todo_loop.rs:91-98 | Each group's summary is sent in turn, once per user. The first failed send stops the loop with its error. |
| TodoLoop.DailySummaryTick | src/tasks/todo_loop.rs:77-102 | Exactly one summary goes to each user with open items. The first send error aborts the tick and skips the save, and the database is never modified. |
| Config.AppConfig.Get | src/config.rs:34-36 | A key is found exactly when it was stored, with its stored value. |
| Config.Lines | src/config.rs:13 | The lines hold no line break. |
| Config.LinesOfUnlines | src/config.rs:13 | Reading back lines written one per "\n" gives the lines. |
| Config.Unquote | src/config.rs:24-28 | One pair of matching surrounding quotes is removed; anything else is kept. A lone quote character is excluded, since the slice would panic. |
| Config.SkippedLines | src/config.rs:14-17 | A line is skipped exactly when it is blank or its trimmed form starts with '#'. |
| Config.ParseLineOfEntry | src/config.rs:19-29 | A line "key=value" gives back that key and value. The split is at the first '=', so the value may hold '='. |
| Config.ParseLineOfQuoted | src/config.rs:24-28 | A double-quoted value comes back without its quotes, whatever it holds. |
| Config.ExportPrefixIgnored | src/config.rs:18 | One leading "export " is ignored. An invalid line is still reported with its text as read. |
| Config.InvalidWithoutEquals | src/config.rs:19-21 | A line with text but no '=' is invalid. |
| Config.FromContent | src/config.rs:10-32 | The loop returns the settings or the error exactly as the fold over the lines does. It requires that no line the loop reaches has a lone quote as its value. |
| Config.ParseFromAppend | src/config.rs:13-30 | The fold over a prefix continues into the rest, and an error in the prefix ends it. |
| Config.LastSettingWins | src/config.rs:29 | A key set on some line and not set again by a later line reads back, through `get`, as that line's value. |
| Config.FirstInvalidLineReported | src/config.rs:19-21 | The first invalid line fails the parse with "Invalid config line {n}: {line}", where n is its 1-based number and line its text as read. |

## Behaviour taken from the code

Three rules in the code are easy to misread. The model keeps them as
written:

- The tick sends a reminder only when its first time is strictly before
  now (`<`). A time equal to now waits for the next tick.
- A reminder emptied by a pop stays stored, with no time left. The next
  tick deletes it, because the tick deletes only reminders whose list was
  already empty when the tick began.
- `create_reminder` keeps both derived times, the day before and the hour
  before, even when they are already in the past.

## Left out

- Discord I/O: HTTP calls, interaction responses and message ids are
  returned effects or parameters. Three send failures are modelled,
  because the code acts on them: a failed approval prompt marks the
  action Failed (src/handlers/action.rs:203-205), a failed preview
  refresh after a correction gets its own reply (src/handler.rs:620-657),
  and a failed daily-summary DM ends the summary tick
  (src/tasks/todo_loop.rs:96-99). Every other send failure is ignored by
  the code and is not modelled.
- The language-model clients (src/openai_client.rs,
  src/clients/openai_client.rs, src/service/openai_service.rs) and their
  prompt templates: the model call is a function parameter.
- JSON: parsing a model answer is folded into the `Parsed`/`Unparsable`
  reply. The router payload arrives already decoded as an `Option`.
  `serde_json::to_string` of the message context is a parameter that may
  fail.
- The event queue (src/events/queue.rs) is an mpsc channel. The model
  hands the engine and the worker the received events as a sequence.
- Concurrency: locks, `tokio::spawn`, the snapshot-then-write-back race in
  `handle_event` between two events for the same action, and sleeps
  between ticks.
- Clocks and ids: `Utc::now()` and `Uuid::new_v4()` are parameters. Each
  tick takes one `now`, where the code reads the clock again for each
  reminder.
- chrono: times are seconds and are shown as decimal numbers. Time-zone
  handling and the calendar of src/tasks/calendar_loop.rs and
  src/calendar_loop.rs are not part of this model, and neither is the
  next daily run time of the todo loop.
- Reminders.NewReminder: `checked_sub_signed` is taken to always succeed,
  since it fails only at the edge of chrono's date range.
- Persistence (`save_db`, `load_db`): a save is a given success or
  failure. The database error is one fixed text, and its file format is
  not modelled.
- Config.FromContent: reading the file is left out and the model starts
  from its text. A value that is one quote character makes the source
  panic; the model excludes it by precondition.
- Routing.HasAmPm: the scan is over characters, not bytes. This gives the
  same answer, since every byte of a non-ASCII character is not an ASCII
  letter.
- Routing.RouteIntent: `to_lowercase` is modelled for ASCII letters only.
- `notification_draft_mut` is not a separate member. Its one use is
  folded into `Step`.
- `NotificationService::create` and `models::notification` are not part of
  this model. The persisted notification is represented by a `Persist`
  effect. The notification that `NotificationMessageService` formats is
  the `Reminder` datatype, with the same fields.
- The tests' calls to APIs the code does not have (`EmitTodo`,
  `notification_tick`, and a two-argument `run_event_worker`) are not
  modelled.
- Integer widths: message ids and the `/todo done` index are unbounded
  integers. Only channel ids are checked against the 64-bit range, since
  `parse::<u64>` does that.
- Start-up, the command-line entry points (src/main.rs, src/cli.rs,
  src/runtime.rs, src/lib.rs, src/tasks/task_runner.rs), the registration of slash commands and the
  responder of src/handlers/discord_responder.rs are not part of this
  model.
- The reminder service (src/service/reminder_service.rs) is not part of
  this model; `create_reminder` is modelled directly.
- NotificationLoop.RunTick and LegacyNotificationLoop.RunTick: the save
  after each tick is left out. Nothing in the tick depends on it, so a
  failed save undoes no pop.
- Channel id 0: serenity's `ChannelId::new` panics on 0, so channel
  "0" kills the task that parses it. The model treats 0 as a valid channel
  instead, in the members listed on the next five lines.
- NotificationLoop.SendMessage: channel "0" gives a delivery to channel 0.
  In the code the panic at src/tasks/notification_loop.rs:53 comes before
  the pop and ends the notification loop, so the rest of that tick and
  every later tick never run.
- LegacyNotificationLoop.SendMessage: channel "0" gives a delivery to
  channel 0. In the code the panic at src/notification_loop.rs:53 ends the
  loop in the same way.
- EventWorker.ChannelError: channel "0" gives an error line posted to channel 0. In
  the code `send_channel_error` panics at src/events/worker.rs:146 and the
  event worker stops, so no later event is handled.
- EventWorker.ParsedRequestIsStored: channel "0" gives a posted prompt. In the code the
  entry is inserted first, then src/events/worker.rs:74 panics and the
  event worker stops.
- LegacyHandler.ModalRefreshesPreview: channel "0" gives a post to channel 0. In the code
  the entry has already been re-inserted, then src/handler.rs:605 panics,
  so nothing is posted, no reply is sent and the message id is not stored.
- TodoLoop.DailySummaryTick: the Discord DM sender, with its user-id
  parse, is a function parameter that answers each send.
