/** The first Discord handler: `/notify` asks the model for a reminder and
    keeps it pending, with a confirmation message and three buttons, for five
    minutes; the buttons confirm (persist), cancel or open a modal whose
    context re-asks the model and refreshes the preview. */
module LegacyHandler {
  import opened Wrappers
  import opened Text
  import opened Reminders
  import opened Corrections
  import opened Interaction

  /** A reminder awaiting its requester's decision, kept under its id. */
  datatype PendingReminder = PendingReminder(
    id: string, userId: string, channelId: string, content: string, time: int,
    originalText: string, extraContext: Option<string>, expiresAt: int, messageId: Option<nat>)

  datatype ButtonStyle = Success | Primary | Danger
  datatype Button = Button(customId: string, caption: string, style: ButtonStyle)

  /** How the handler answers an interaction: a (possibly ephemeral) message,
      a new message with buttons, an update of the message the interaction
      came from, a modal, or nothing. */
  datatype Reply =
    | Ephemeral(text: string)
    | Message(text: string, buttons: seq<Button>)
    | UpdateMessage(text: string, buttons: seq<Button>)
    | ShowModal(customId: string)
    | NoReply

  /** A message posted to a channel, with its buttons. */
  datatype Post = Post(channel: nat, text: string, buttons: seq<Button>)

  const APPROVAL_WINDOW: int := 5 * MINUTE
  const NO_LONGER_AVAILABLE: string := "This reminder is no longer available."

  function Mention(rawUserId: string): string { "@" + rawUserId }

  /** The context line of the preview: only a non-blank note shows, trimmed. */
  function ContextLine(extraContext: Option<string>): string {
    match extraContext
    case None => ""
    case Some(ctx) => if IsBlank(ctx) then "" else "\nAdditional context: " + Trim(ctx)
  }

  /** `render_pending_message`. */
  function RenderPendingMessage(p: PendingReminder): string {
    "Please confirm your reminder:\nContent: " + p.content + "\nTime: " + TimeText(p.time) + ContextLine(p.extraContext)
  }

  /** The preview always shows the content; a blank note renders as no note,
      and a non-blank one ends the preview, trimmed. */
  lemma {:induction false} RenderShowsReminder(p: PendingReminder)
    ensures StartsWith(RenderPendingMessage(p), "Please confirm your reminder:\nContent: ")
    ensures Contains(RenderPendingMessage(p), p.content)
    ensures p.extraContext.Some? && IsBlank(p.extraContext.value) ==>
              RenderPendingMessage(p) == RenderPendingMessage(p.(extraContext := None))
    ensures p.extraContext.Some? && !IsBlank(p.extraContext.value) ==>
              EndsWith(RenderPendingMessage(p), Trim(p.extraContext.value))
  {
    var header := "Please confirm your reminder:\nContent: ";
    var tail := "\nTime: " + TimeText(p.time) + ContextLine(p.extraContext);
    assert RenderPendingMessage(p) == header + p.content + tail;
    ContainsMiddle(header, p.content, tail);
    assert (header + p.content + tail)[..|header|] == header;
    if p.extraContext.Some? && !IsBlank(p.extraContext.value) {
      var note := Trim(p.extraContext.value);
      assert RenderPendingMessage(p) == (header + p.content + "\nTime: " + TimeText(p.time) + "\nAdditional context: ") + note;
    }
  }

  /** `pending_buttons`: confirm, add context, cancel, each carrying the id. */
  function PendingButtons(pendingId: string): (bs: seq<Button>)
    ensures |bs| == 3
  {
    [ Button("pending_confirm" + ":" + pendingId, "Confirm date/time", Success),
      Button("pending_context" + ":" + pendingId, "Add context", Primary),
      Button("pending_cancel" + ":" + pendingId, "Cancel", Danger) ]
  }

  /** What a button press asks for. */
  datatype ComponentAction = ConfirmPending(pendingId: string) | CancelPending(pendingId: string)
                           | ContextPending(pendingId: string) | Ignored

  /** The component branch of `interaction_create`. */
  function ComponentRoute(customId: string): ComponentAction {
    match SplitCustomId(customId)
    case None => Ignored
    case Some((action, id)) =>
      if action == "pending_confirm" then ConfirmPending(id)
      else if action == "pending_cancel" then CancelPending(id)
      else if action == "pending_context" then ContextPending(id)
      else Ignored
  }

  /** Each of the three buttons routes back to its own action on the same
      pending id, whatever the id holds. */
  lemma {:induction false} ConfirmButtonRoutes(pendingId: string)
    ensures ComponentRoute(PendingButtons(pendingId)[0].customId) == ConfirmPending(pendingId)
  {
    SplitCustomIdOfBuilt("pending_confirm", pendingId);
  }

  lemma {:induction false} ContextButtonRoutes(pendingId: string)
    ensures ComponentRoute(PendingButtons(pendingId)[1].customId) == ContextPending(pendingId)
  {
    SplitCustomIdOfBuilt("pending_context", pendingId);
    assert "pending_context" != "pending_confirm" by { assert "pending_context"[11] != "pending_confirm"[11]; }
    assert "pending_context" != "pending_cancel" by { assert |"pending_context"| != |"pending_cancel"|; }
  }

  lemma {:induction false} CancelButtonRoutes(pendingId: string)
    ensures ComponentRoute(PendingButtons(pendingId)[2].customId) == CancelPending(pendingId)
  {
    SplitCustomIdOfBuilt("pending_cancel", pendingId);
    assert "pending_cancel" != "pending_confirm" by { assert "pending_cancel"[9] != "pending_confirm"[9]; }
  }

  /** The modal shown for a pending reminder. */
  function ContextModalId(pendingId: string): string { "pending_context_modal" + ":" + pendingId }

  /** The modal branch splits at the first ':' and ignores the prefix. */
  function ModalPendingId(customId: string): (r: Option<string>)
    ensures r.None? <==> ':' !in customId
  {
    match SplitCustomId(customId)
    case None => None
    case Some((_, id)) => Some(id)
  }

  /** The context modal submits back to the reminder it was opened for. */
  lemma {:induction false} ContextModalRoutes(pendingId: string)
    ensures ModalPendingId(ContextModalId(pendingId)) == Some(pendingId)
  {
    SplitCustomIdOfBuilt("pending_context_modal", pendingId);
  }

  /** The entry `/notify` keeps for a parsed answer. */
  function NewPending(pendingId: string, text: string, userId: string, channelId: string, ai: AINotification, now: int)
    : PendingReminder
  {
    PendingReminder(pendingId, userId, channelId, ai.content, ai.time, text, None, now + APPROVAL_WINDOW, None)
  }

  /** `expires_at < now`: a new entry stays confirmable for exactly five
      minutes after its request, the last second included. */
  predicate Expired(p: PendingReminder, now: int) { p.expiresAt < now }

  lemma {:induction false} NewPendingLiveFiveMinutes(pendingId: string, text: string, userId: string,
                                                     channelId: string, ai: AINotification, created: int, now: int)
    ensures Expired(NewPending(pendingId, text, userId, channelId, ai, created), now) <==> now > created + 5 * MINUTE
  {
  }

  /** The entry after the context modal: a given context value — even an
      empty one — replaces the note; the model is asked with the note; a
      parsed answer replaces content and time. */
  function CorrectedReminder(item: PendingReminder, contextValue: Option<string>,
                             llm: (string, string) -> LlmReply<AINotification>): (r: PendingReminder)
    ensures r.id == item.id && r.userId == item.userId && r.channelId == item.channelId
    ensures r.originalText == item.originalText && r.expiresAt == item.expiresAt && r.messageId == item.messageId
    ensures r.extraContext == (if contextValue.Some? then contextValue else item.extraContext)
  {
    var noted := if contextValue.Some? then item.(extraContext := contextValue) else item;
    match llm(NotePrompt(noted.originalText, noted.extraContext), "notification_correction").AsOption()
    case None => noted
    case Some(updated) => noted.(content := updated.content, time := updated.time)
  }

  /** The model is asked about the request and the note it now has: a parsed
      answer is taken over whole, a failed one leaves content and time. */
  lemma {:induction false} CorrectionUsesModel(item: PendingReminder, contextValue: Option<string>,
                                               llm: (string, string) -> LlmReply<AINotification>)
    ensures var r := CorrectedReminder(item, contextValue, llm);
            var reply := llm(NotePrompt(item.originalText, r.extraContext), "notification_correction");
            && (reply.Parsed? ==> r.content == reply.value.content && r.time == reply.value.time)
            && (!reply.Parsed? ==> r.content == item.content && r.time == item.time)
  {
  }

  /** What the modal submission leaves and answers. */
  datatype ModalResult = ModalResult(pending: map<string, PendingReminder>, post: Option<Post>, reply: Reply)

  /** The modal branch of `interaction_create`, as a function of the pending
      map, the submitted components, the model, the message the modal came
      from (if any) and the outcome of re-posting the preview (the new
      message's id, if the post went out). */
  function ModalOutcome(pending: map<string, PendingReminder>, customId: string, rows: seq<seq<Component>>,
                        rawUserId: string, llm: (string, string) -> LlmReply<AINotification>,
                        origin: Option<nat>, sent: Option<nat>): ModalResult
  {
    match ModalPendingId(customId)
    case None => ModalResult(pending, None, NoReply)
    case Some(id) =>
      if id !in pending then ModalResult(pending, None, Ephemeral(NO_LONGER_AVAILABLE))
      else if pending[id].userId != Mention(rawUserId) then
        ModalResult(pending, None, Ephemeral("Only the original requester can edit this reminder."))
      else
        Revised(pending, id, LastContextValue(Flatten(rows)), llm, origin, sent)
  }

  /** The requester's own entry corrected, stored back and shown again. */
  function Revised(pending: map<string, PendingReminder>, id: string, contextValue: Option<string>,
                   llm: (string, string) -> LlmReply<AINotification>, origin: Option<nat>, sent: Option<nat>)
    : ModalResult
    requires id in pending
  {
    var item := CorrectedReminder(pending[id], contextValue, llm);
    var refreshed := Refresh(id, item, origin, sent);
    ModalResult(pending[id := refreshed.0], refreshed.1, refreshed.2)
  }

  /** How the preview of a corrected entry is refreshed: in the message the
      modal came from, else re-posted to the entry's channel; the entry
      records the id of the message that now shows it. */
  function Refresh(id: string, item: PendingReminder, origin: Option<nat>, sent: Option<nat>)
    : (r: (PendingReminder, Option<Post>, Reply))
    ensures r.0.(messageId := item.messageId) == item
  {
    var body := RenderPendingMessage(item);
    match origin
    case Some(mid) => (item.(messageId := Some(mid)), None, UpdateMessage(body, PendingButtons(id)))
    case None =>
      match ParseU64(item.channelId)
      case None => (item, None, Ephemeral("Failed to refresh confirmation."))
      case Some(c) =>
        var post := Some(Post(c, body, PendingButtons(id)));
        match sent
        case Some(mid) => (item.(messageId := Some(mid)), post, Ephemeral("Context updated."))
        case None => (item, post, Ephemeral("Context updated, but failed to refresh the preview."))
  }

  /** A submission touches no other entry and adds none; a missing entry, a
      foreign user or an unsplittable id changes nothing. */
  lemma {:induction false} ModalTouchesOnlyItsEntry(pending: map<string, PendingReminder>, customId: string,
                                                    rows: seq<seq<Component>>, rawUserId: string,
                                                    llm: (string, string) -> LlmReply<AINotification>,
                                                    origin: Option<nat>, sent: Option<nat>)
    ensures var r := ModalOutcome(pending, customId, rows, rawUserId, llm, origin, sent);
            && r.pending.Keys == pending.Keys
            && (forall k :: k in pending && Some(k) != ModalPendingId(customId) ==> r.pending[k] == pending[k])
            && ((ModalPendingId(customId).None? || ModalPendingId(customId).value !in pending
                 || pending[ModalPendingId(customId).value].userId != Mention(rawUserId)) ==> r.pending == pending)
  {
  }

  /** For the requester's own entry, the stored entry is the corrected one
      and the preview shown or posted is its rendering with the buttons. */
  lemma {:induction false} ModalRefreshesPreview(pending: map<string, PendingReminder>, id: string,
                                                 rows: seq<seq<Component>>, rawUserId: string,
                                                 llm: (string, string) -> LlmReply<AINotification>,
                                                 origin: Option<nat>, sent: Option<nat>)
    requires id in pending && pending[id].userId == Mention(rawUserId)
    ensures var r := ModalOutcome(pending, ContextModalId(id), rows, rawUserId, llm, origin, sent);
            var item := CorrectedReminder(pending[id], LastContextValue(Flatten(rows)), llm);
            && id in r.pending
            && r.pending[id].(messageId := item.messageId) == item
            && (origin.Some? ==> r.reply == UpdateMessage(RenderPendingMessage(item), PendingButtons(id))
                                 && r.pending[id].messageId == origin)
            && (origin.None? && ParseU64(item.channelId).Some? ==>
                  r.post == Some(Post(ParseU64(item.channelId).value, RenderPendingMessage(item), PendingButtons(id))))
  {
    ContextModalRoutes(id);
  }

  /** `/notify`: blank text is refused; a failed or unparsable model answer
      is reported; otherwise the entry is kept under the fresh id, with the
      id of the confirmation message when it can be fetched, and the preview
      is shown with its buttons. */
  function NotifyOutcome(pending: map<string, PendingReminder>, text: string, rawUserId: string, channelId: string,
                         now: int, freshId: string, llm: (string, string) -> LlmReply<AINotification>,
                         responseId: Option<nat>): (map<string, PendingReminder>, Reply)
  {
    if IsBlank(text) then (pending, Ephemeral("Missing `text` argument for /notify"))
    else
      match llm(text, "notification")
      case CallError(err) => (pending, Ephemeral("Failed to call OpenAI for reminder: " + err))
      case Unparsable(err) => (pending, Ephemeral("Failed to parse reminder JSON: " + err))
      case Parsed(ai) =>
        var item := NewPending(freshId, text, Mention(rawUserId), channelId, ai, now);
        (pending[freshId := item.(messageId := responseId)], Message(RenderPendingMessage(item), PendingButtons(freshId)))
  }

  /** Blank text, a failed call and an unparsable answer add nothing. */
  lemma {:induction false} NotifyRefusalsKeepPending(pending: map<string, PendingReminder>, text: string, rawUserId: string,
                                                     channelId: string, now: int, freshId: string,
                                                     llm: (string, string) -> LlmReply<AINotification>,
                                                     responseId: Option<nat>)
    requires IsBlank(text) || !llm(text, "notification").Parsed?
    ensures NotifyOutcome(pending, text, rawUserId, channelId, now, freshId, llm, responseId).0 == pending
    ensures NotifyOutcome(pending, text, rawUserId, channelId, now, freshId, llm, responseId).1.Ephemeral?
  {
    if !IsBlank(text) {
      match llm(text, "notification")
      case CallError(_) =>
      case Unparsable(_) =>
    }
  }

  /** A parsed answer to a non-blank request adds one entry: the
      requester's, with the model's content and time, no note, five minutes
      to decide, and a preview whose buttons carry its id. */
  lemma {:induction false} NotifyKeepsParsedRequest(pending: map<string, PendingReminder>, text: string, rawUserId: string,
                                                    channelId: string, now: int, freshId: string,
                                                    llm: (string, string) -> LlmReply<AINotification>,
                                                    responseId: Option<nat>)
    requires !IsBlank(text) && llm(text, "notification").Parsed?
    ensures var (after, reply) := NotifyOutcome(pending, text, rawUserId, channelId, now, freshId, llm, responseId);
            var ai := llm(text, "notification").value;
            && after.Keys == pending.Keys + {freshId}
            && (forall k :: k in pending && k != freshId ==> after[k] == pending[k])
            && after[freshId] == PendingReminder(freshId, Mention(rawUserId), channelId, ai.content, ai.time,
                                                 text, None, now + 5 * MINUTE, responseId)
            && reply == Message(RenderPendingMessage(after[freshId].(messageId := None)), PendingButtons(freshId))
  {
    var item := NewPending(freshId, text, Mention(rawUserId), channelId, llm(text, "notification").value, now);
    assert NotifyOutcome(pending, text, rawUserId, channelId, now, freshId, llm, responseId)
           == (pending[freshId := item.(messageId := responseId)], Message(RenderPendingMessage(item), PendingButtons(freshId)));
    assert item.(messageId := responseId).(messageId := None) == item;
  }

  class LegacyBot {
    var pending: map<string, PendingReminder>
    const db: ReminderDb

    constructor (db: ReminderDb)
      ensures this.db == db && pending == map[]
    {
      this.db := db;
      pending := map[];
    }

    /** `/notify`, updating the pending map in place. */
    method HandleNotify(text: string, rawUserId: string, channelId: string, now: int, freshId: string,
                        llm: (string, string) -> LlmReply<AINotification>, responseId: Option<nat>)
      returns (reply: Reply)
      modifies this
      ensures (pending, reply) == NotifyOutcome(old(pending), text, rawUserId, channelId, now, freshId, llm, responseId)
    {
      if IsBlank(text) {
        return Ephemeral("Missing `text` argument for /notify");
      }
      var answer := llm(text, "notification");
      if answer.CallError? {
        return Ephemeral("Failed to call OpenAI for reminder: " + answer.error);
      }
      if answer.Unparsable? {
        return Ephemeral("Failed to parse reminder JSON: " + answer.error);
      }
      var item := NewPending(freshId, text, Mention(rawUserId), channelId, answer.value, now);
      // Stored with the id of the sent message, when it can be fetched
      // (otherwise `None`).
      pending := pending[freshId := item.(messageId := responseId)];
      reply := Message(RenderPendingMessage(item), PendingButtons(freshId));
    }

    /** The confirm button: only the requester, only before expiry; an
        expired entry is dropped; a failed save keeps the entry for another
        try. */
    method HandleConfirm(pendingId: string, rawUserId: string, now: int, reminderId: string, saveOk: bool)
      returns (reply: Reply)
      modifies this, db
      ensures pendingId !in old(pending) ==>
                reply == Ephemeral(NO_LONGER_AVAILABLE) && pending == old(pending) && db.entries == old(db.entries)
      ensures pendingId in old(pending) && old(pending)[pendingId].userId != Mention(rawUserId) ==>
                reply == Ephemeral("Only the original requester can confirm this reminder.")
                && pending == old(pending) && db.entries == old(db.entries)
      ensures pendingId in old(pending) && old(pending)[pendingId].userId == Mention(rawUserId)
              && Expired(old(pending)[pendingId], now) ==>
                reply == UpdateMessage("This reminder request has expired.", [])
                && pending == old(pending) - {pendingId} && db.entries == old(db.entries)
      ensures pendingId in old(pending) && old(pending)[pendingId].userId == Mention(rawUserId)
              && !Expired(old(pending)[pendingId], now) ==>
                var item := old(pending)[pendingId];
                && db.entries == old(db.entries)[reminderId := NewReminder(reminderId, item.content, item.userId, item.time, item.channelId)]
                && (saveOk ==> pending == old(pending) - {pendingId}
                               && reply == UpdateMessage("Confirmed! I'll remind you: \"" + item.content + "\" at " + TimeText(item.time), []))
                && (!saveOk ==> pending == old(pending)
                                && reply == Ephemeral("Failed to persist reminder: " + ErrorText(SaveFailed)))
    {
      if pendingId !in pending {
        return Ephemeral(NO_LONGER_AVAILABLE);
      }
      var item := pending[pendingId];
      if item.userId != Mention(rawUserId) {
        return Ephemeral("Only the original requester can confirm this reminder.");
      }
      if item.expiresAt < now {
        pending := pending - {pendingId};
        return UpdateMessage("This reminder request has expired.", []);
      }
      var saved := db.CreateReminder(item.content, item.userId, item.time, item.channelId, reminderId, saveOk);
      if saved.Err? {
        return Ephemeral("Failed to persist reminder: " + ErrorText(saved.error));
      }
      pending := pending - {pendingId};
      reply := UpdateMessage("Confirmed! I'll remind you: \"" + item.content + "\" at " + TimeText(item.time), []);
    }

    /** The cancel button: only the requester; the entry is dropped. */
    method HandleCancel(pendingId: string, rawUserId: string) returns (reply: Reply)
      modifies this
      ensures pendingId !in old(pending) ==> reply == Ephemeral(NO_LONGER_AVAILABLE) && pending == old(pending)
      ensures pendingId in old(pending) && old(pending)[pendingId].userId != Mention(rawUserId) ==>
                reply == Ephemeral("Only the original requester can cancel this reminder.") && pending == old(pending)
      ensures pendingId in old(pending) && old(pending)[pendingId].userId == Mention(rawUserId) ==>
                reply == UpdateMessage("Canceled reminder request.", []) && pending == old(pending) - {pendingId}
    {
      if pendingId !in pending {
        return Ephemeral(NO_LONGER_AVAILABLE);
      }
      if pending[pendingId].userId != Mention(rawUserId) {
        return Ephemeral("Only the original requester can cancel this reminder.");
      }
      pending := pending - {pendingId};
      reply := UpdateMessage("Canceled reminder request.", []);
    }

    /** The context button: only the requester gets the modal; nothing is
        stored. */
    method HandleContextButton(pendingId: string, rawUserId: string) returns (reply: Reply)
      ensures pendingId !in pending ==> reply == Ephemeral(NO_LONGER_AVAILABLE)
      ensures pendingId in pending && pending[pendingId].userId != Mention(rawUserId) ==>
                reply == Ephemeral("Only the original requester can edit this reminder.")
      ensures pendingId in pending && pending[pendingId].userId == Mention(rawUserId) ==>
                reply == ShowModal(ContextModalId(pendingId))
    {
      if pendingId !in pending {
        return Ephemeral(NO_LONGER_AVAILABLE);
      }
      if pending[pendingId].userId != Mention(rawUserId) {
        return Ephemeral("Only the original requester can edit this reminder.");
      }
      reply := ShowModal(ContextModalId(pendingId));
    }

    /** The modal submission, updating the entry in place. */
    method HandleModalSubmit(customId: string, rows: seq<seq<Component>>, rawUserId: string,
                             llm: (string, string) -> LlmReply<AINotification>,
                             origin: Option<nat>, sent: Option<nat>)
      returns (post: Option<Post>, reply: Reply)
      modifies this
      ensures ModalResult(pending, post, reply) == ModalOutcome(old(pending), customId, rows, rawUserId, llm, origin, sent)
    {
      var split := SplitCustomId(customId);
      if split.None? {
        return None, NoReply;
      }
      var id := split.value.1;
      var contextValue := FindContextValue(rows);
      if id !in pending {
        return None, Ephemeral(NO_LONGER_AVAILABLE);
      }
      if pending[id].userId != Mention(rawUserId) {
        return None, Ephemeral("Only the original requester can edit this reminder.");
      }
      post, reply := Revise(id, contextValue, llm, origin, sent);
    }

    /** The requester's own entry corrected, stored back and shown again. */
    method Revise(id: string, contextValue: Option<string>, llm: (string, string) -> LlmReply<AINotification>,
                  origin: Option<nat>, sent: Option<nat>)
      returns (post: Option<Post>, reply: Reply)
      requires id in pending
      modifies this
      ensures ModalResult(pending, post, reply) == Revised(old(pending), id, contextValue, llm, origin, sent)
    {
      var item := Correct(pending[id], contextValue, llm);
      pending := pending[id := item];
      post, reply := RefreshPreview(id, item, origin, sent);
    }

    /** Stores a given context value as the note, asks the model again and
        takes over a parsed answer. */
    method Correct(item: PendingReminder, contextValue: Option<string>,
                   llm: (string, string) -> LlmReply<AINotification>)
      returns (r: PendingReminder)
      ensures r == CorrectedReminder(item, contextValue, llm)
    {
      r := item;
      if contextValue.Some? {
        r := r.(extraContext := contextValue);
      }
      var refreshed := llm(NotePrompt(r.originalText, r.extraContext), "notification_correction");
      if refreshed.Parsed? {
        r := r.(content := refreshed.value.content, time := refreshed.value.time);
      }
    }

    /** Shows the corrected entry again and records where it is shown. */
    method RefreshPreview(id: string, item: PendingReminder, origin: Option<nat>, sent: Option<nat>)
      returns (post: Option<Post>, reply: Reply)
      modifies this
      ensures pending == old(pending)[id := Refresh(id, item, origin, sent).0]
      ensures post == Refresh(id, item, origin, sent).1 && reply == Refresh(id, item, origin, sent).2
    {
      var body := RenderPendingMessage(item);
      pending := pending[id := item];
      if origin.Some? {
        pending := pending[id := item.(messageId := origin)];
        return None, UpdateMessage(body, PendingButtons(id));
      }
      var channel := ParseU64(item.channelId);
      if channel.None? {
        return None, Ephemeral("Failed to refresh confirmation.");
      }
      post := Some(Post(channel.value, body, PendingButtons(id)));
      if sent.Some? {
        pending := pending[id := item.(messageId := sent)];
        reply := Ephemeral("Context updated.");
      } else {
        reply := Ephemeral("Context updated, but failed to refresh the preview.");
      }
    }
  }
}
