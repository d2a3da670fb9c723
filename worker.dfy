/** The event worker of the older pending flow: it drains the event bus into
    a map of pending notifications. Only requests and corrections do
    anything; confirmations and cancellations are still placeholders. */
module EventWorker {
  import opened Wrappers
  import opened Text
  import opened Reminders
  import opened Corrections
  import Actions

  /** The pending entry has the fields of the engine's draft. */
  type PendingNotification = Actions.NotificationDraft

  /** The events on the bus. */
  datatype Event =
    | NotifyRequested(text: string, userId: string, channelId: string)
    | PendingConfirmed(pendingId: string, userId: string)
    | PendingCanceled(pendingId: string, userId: string)
    | ContextSubmitted(pendingId: string, userId: string, context: string)

  /** What the worker posts: a plain line in a channel, or the confirmation
      prompt (the rendered entry with its three buttons). */
  datatype Outbound =
    | Say(channel: nat, text: string)
    | PromptPosted(channel: nat, pendingId: string, item: PendingNotification)

  /** The clock, a fresh UUID and the model (call and JSON parse) for one event. */
  datatype Env = Env(now: int, freshId: string, llm: (string, string) -> LlmReply<AINotification>)

  const APPROVAL_WINDOW: int := 5 * MINUTE

  /** `send_channel_error`: "<user> message" in the channel, or nothing
      when the channel id does not parse. */
  function ChannelError(channelId: string, userId: string, message: string): (out: seq<Outbound>)
    ensures ParseU64(channelId).None? ==> out == []
    ensures ParseU64(channelId).Some? ==> out == [Say(ParseU64(channelId).value, "<" + userId + "> " + message)]
  {
    match ParseU64(channelId)
    case None => []
    case Some(c) => [Say(c, "<" + userId + "> " + message)]
  }

  function NewPending(text: string, userId: string, channelId: string, ai: AINotification, now: int): PendingNotification {
    Actions.NotificationDraft(userId, channelId, ai.content, ai.time, text, None, now + APPROVAL_WINDOW, None)
  }

  /** The entry after a correction: a non-blank note is stored trimmed before
      the model is asked; the model is asked with the STORED note; a parsed
      answer replaces content and time. */
  function Corrected(item: PendingNotification, context: string, llm: (string, string) -> LlmReply<AINotification>)
    : PendingNotification
  {
    var noted := if IsBlank(context) then item else item.(extraContext := Some(Trim(context)));
    match llm(NotePrompt(noted.originalText, noted.extraContext), "notification_correction").AsOption()
    case None => noted
    case Some(updated) => noted.(content := updated.content, time := updated.time)
  }

  /** The field-by-field update `run_event_worker` makes through `get_mut`:
      the note first, then the prompt built from the stored note, then the
      model's answer. */
  method CorrectEntry(item: PendingNotification, context: string, llm: (string, string) -> LlmReply<AINotification>)
    returns (r: PendingNotification)
    ensures r == Corrected(item, context, llm)
  {
    r := item;
    if !IsBlank(context) {
      r := r.(extraContext := Some(Trim(context)));
    }
    var combinedPrompt := r.originalText;
    if r.extraContext.Some? && !IsBlank(r.extraContext.value) {
      combinedPrompt := "Original request: " + r.originalText + "\nCorrection note: " + Trim(r.extraContext.value);
    }
    var refreshed := llm(combinedPrompt, "notification_correction").AsOption();
    if refreshed.Some? {
      r := r.(content := refreshed.value.content, time := refreshed.value.time);
    }
  }

  /** One event, as a function of the pending map. */
  function Step(pending: map<string, PendingNotification>, e: Event, env: Env): (map<string, PendingNotification>, seq<Outbound>) {
    match e
    case NotifyRequested(text, userId, channelId) =>
      (match env.llm(text, "notification")
       case CallError(err) =>
         (pending, ChannelError(channelId, userId, "Failed to call OpenAI for notification: " + err))
       case Unparsable(err) =>
         (pending, ChannelError(channelId, userId, "Failed to parse notification JSON: " + err))
       case Parsed(ai) =>
         var item := NewPending(text, userId, channelId, ai, env.now);
         var sent := match ParseU64(channelId)
           case None => ChannelError(channelId, userId, "Invalid channel id for notification.")
           case Some(c) => [PromptPosted(c, env.freshId, item)];
         (pending[env.freshId := item], sent))
    case PendingConfirmed(_, _) => (pending, [])
    case PendingCanceled(_, _) => (pending, [])
    case ContextSubmitted(id, userId, context) =>
      if id !in pending || pending[id].userId != userId then (pending, [])
      else (pending[id := Corrected(pending[id], context, env.llm)], [])
  }

  /** The whole bus, drained in order. */
  function Run(pending: map<string, PendingNotification>, events: seq<Event>, envs: seq<Env>): map<string, PendingNotification>
    requires |envs| == |events|
    decreases |events|
  {
    if events == [] then pending
    else Run(Step(pending, events[0], envs[0]).0, events[1..], envs[1..])
  }

  /** One more handled event: the rest of the run starts from the map the
      event left, and its posts follow those already collected. */
  lemma RunAdvances(pending: map<string, PendingNotification>, after: map<string, PendingNotification>,
                    out: seq<Outbound>, done: seq<seq<Outbound>>, whole: seq<seq<Outbound>>,
                    events: seq<Event>, envs: seq<Env>, i: int)
    requires |envs| == |events| && 0 <= i < |events|
    requires (after, out) == Step(pending, events[i], envs[i])
    requires whole == done + Posts(pending, events[i..], envs[i..])
    ensures whole == (done + [out]) + Posts(after, events[i + 1..], envs[i + 1..])
    ensures Run(pending, events[i..], envs[i..]) == Run(after, events[i + 1..], envs[i + 1..])
  {
    assert events[i..][1..] == events[i + 1..] && envs[i..][1..] == envs[i + 1..];
    assert Posts(pending, events[i..], envs[i..]) == [out] + Posts(after, events[i + 1..], envs[i + 1..]);
  }

  /** What the worker posts for each event of a run, in order. */
  function Posts(pending: map<string, PendingNotification>, events: seq<Event>, envs: seq<Env>): seq<seq<Outbound>>
    requires |envs| == |events|
    decreases |events|
  {
    if events == [] then []
    else [Step(pending, events[0], envs[0]).1] + Posts(Step(pending, events[0], envs[0]).0, events[1..], envs[1..])
  }

  class Worker {
    var pending: map<string, PendingNotification>

    constructor ()
      ensures pending == map[]
    {
      pending := map[];
    }

    /** One turn of `run_event_worker`'s loop, updating the entry in place. */
    method Handle(e: Event, env: Env) returns (sent: seq<Outbound>)
      modifies this
      ensures (pending, sent) == Step(old(pending), e, env)
    {
      sent := [];
      match e {
        case NotifyRequested(text, userId, channelId) =>
          var reply := env.llm(text, "notification");
          if reply.CallError? {
            sent := ChannelError(channelId, userId, "Failed to call OpenAI for notification: " + reply.error);
            return;
          }
          if reply.Unparsable? {
            sent := ChannelError(channelId, userId, "Failed to parse notification JSON: " + reply.error);
            return;
          }
          var item := NewPending(text, userId, channelId, reply.value, env.now);
          pending := pending[env.freshId := item];
          var channel := ParseU64(channelId);
          if channel.None? {
            sent := ChannelError(channelId, userId, "Invalid channel id for notification.");
            return;
          }
          sent := [PromptPosted(channel.value, env.freshId, item)];
        case PendingConfirmed(_, _) =>
        case PendingCanceled(_, _) =>
        case ContextSubmitted(id, userId, context) =>
          if id !in pending {
            return;
          }
          var item := pending[id];
          if item.userId != userId {
            return;
          }
          item := CorrectEntry(item, context, env.llm);
          pending := pending[id := item];
      }
    }

    /** `run_event_worker`: every event on the bus, in order. */
    method RunWorker(events: seq<Event>, envs: seq<Env>) returns (sent: seq<seq<Outbound>>)
      requires |envs| == |events|
      modifies this
      ensures pending == Run(old(pending), events, envs)
      ensures sent == Posts(old(pending), events, envs)
    {
      sent := [];
      var i := 0;
      while i < |events|
        invariant 0 <= i <= |events| && |sent| == i
        invariant Run(old(pending), events, envs) == Run(pending, events[i..], envs[i..])
        invariant Posts(old(pending), events, envs) == sent + Posts(pending, events[i..], envs[i..])
      {
        ghost var before := pending;
        var out := Handle(events[i], envs[i]);
        RunAdvances(before, pending, out, sent, Posts(old(pending), events, envs), events, envs, i);
        sent := sent + [out];
        i := i + 1;
      }
    }
  }

  // ------------------------------------------------------------- properties

  /** A request the model fails on, or answers unparsably, inserts nothing
      and reports at most one line, to the requester, naming the failure. */
  lemma {:induction false} FailedRequestInsertsNothing(pending: map<string, PendingNotification>, e: Event, env: Env)
    requires e.NotifyRequested? && !env.llm(e.text, "notification").Parsed?
    ensures var reply := env.llm(e.text, "notification");
      var msg := if reply.CallError? then "Failed to call OpenAI for notification: " + reply.error
                 else "Failed to parse notification JSON: " + reply.error;
      Step(pending, e, env) == (pending, ChannelError(e.channelId, e.userId, msg))
  {
  }

  /** A parsed request is stored under the fresh id BEFORE the channel is
      looked at: with a bad channel id the entry stays and nothing is posted
      (the error line needs the same channel). */
  lemma {:induction false} ParsedRequestIsStored(pending: map<string, PendingNotification>, e: Event, env: Env)
    requires e.NotifyRequested? && env.llm(e.text, "notification").Parsed?
    ensures var ai := env.llm(e.text, "notification").value;
      var (after, sent) := Step(pending, e, env);
      && after == pending[env.freshId := NewPending(e.text, e.userId, e.channelId, ai, env.now)]
      && after[env.freshId].extraContext == None && after[env.freshId].messageId == None
      && after[env.freshId].expiresAt == env.now + 5 * MINUTE
      && after[env.freshId].content == ai.content && after[env.freshId].time == ai.time
      && (ParseU64(e.channelId).None? ==> sent == [])
      && (ParseU64(e.channelId).Some? ==> sent == [PromptPosted(ParseU64(e.channelId).value, env.freshId, after[env.freshId])])
  {
  }

  /** Confirmations and cancellations change nothing and post nothing. */
  lemma {:induction false} DecisionsAreNoOps(pending: map<string, PendingNotification>, e: Event, env: Env)
    requires e.PendingConfirmed? || e.PendingCanceled?
    ensures Step(pending, e, env) == (pending, [])
  {
  }

  /** A correction for a missing entry or from another user changes nothing;
      there is no check of any status. */
  lemma {:induction false} ForeignCorrectionIsNoOp(pending: map<string, PendingNotification>, e: Event, env: Env)
    requires e.ContextSubmitted? && (e.pendingId !in pending || pending[e.pendingId].userId != e.userId)
    ensures Step(pending, e, env) == (pending, [])
  {
  }

  /** A non-blank note is recorded, trimmed, whether or not the model then
      answers; a blank one keeps the earlier note, which is what the model
      is asked with. Content and time change only on a parsed answer. */
  lemma {:induction false} CorrectionKeepsNote(item: PendingNotification, context: string,
                                               llm: (string, string) -> LlmReply<AINotification>)
    ensures var note := if IsBlank(context) then item.extraContext else Some(Trim(context));
      var reply := llm(NotePrompt(item.originalText, note), "notification_correction");
      var after := Corrected(item, context, llm);
      && after.extraContext == note
      && after.originalText == item.originalText && after.userId == item.userId
      && after.expiresAt == item.expiresAt && after.messageId == item.messageId
      && (reply.Parsed? ==> after.content == reply.value.content && after.time == reply.value.time)
      && (!reply.Parsed? ==> after.content == item.content && after.time == item.time)
  {
    var note := if IsBlank(context) then item.extraContext else Some(Trim(context));
    var reply := llm(NotePrompt(item.originalText, note), "notification_correction");
    if reply.Parsed? {
      assert reply.AsOption() == Some(reply.value);
    }
  }

  /** What one event may do to the map: keep every entry with its owner and
      original request, and add at most the fresh id. */
  predicate EntriesKept(before: map<string, PendingNotification>, after: map<string, PendingNotification>, env: Env) {
    && before.Keys <= after.Keys
    && after.Keys <= before.Keys + {env.freshId}
    && (forall k :: k in before ==> after[k].originalText == before[k].originalText && after[k].userId == before[k].userId)
  }

  lemma {:induction false} StepKeepsEntries(pending: map<string, PendingNotification>, e: Event, env: Env)
    requires e.NotifyRequested? ==> env.freshId !in pending
    ensures EntriesKept(pending, Step(pending, e, env).0, env)
  {
    if e.ContextSubmitted? && e.pendingId in pending && pending[e.pendingId].userId == e.userId {
      CorrectionKeepsNote(pending[e.pendingId], e.context, env.llm);
    }
  }

  /** Fresh ids are new to the map and distinct from each other. */
  predicate FreshIds(pending: map<string, PendingNotification>, envs: seq<Env>) {
    (forall i :: 0 <= i < |envs| ==> envs[i].freshId !in pending)
    && (forall i, j :: 0 <= i < j < |envs| ==> envs[i].freshId != envs[j].freshId)
  }

  /** Across any run with fresh ids, no entry is lost and none changes owner
      or original request: only confirm and cancel could remove one, and
      here they do nothing. */
  lemma {:induction false} RunKeepsEntries(pending: map<string, PendingNotification>, events: seq<Event>, envs: seq<Env>)
    requires |envs| == |events| && FreshIds(pending, envs)
    ensures pending.Keys <= Run(pending, events, envs).Keys
    ensures forall k :: k in pending ==> Run(pending, events, envs)[k].originalText == pending[k].originalText
                                         && Run(pending, events, envs)[k].userId == pending[k].userId
    decreases |events|
  {
    if events != [] {
      var next := Step(pending, events[0], envs[0]).0;
      StepKeepsEntries(pending, events[0], envs[0]);
      assert FreshIds(next, envs[1..]) by {
        forall i | 0 <= i < |envs[1..]|
          ensures envs[1..][i].freshId !in next
        {
          assert envs[1..][i] == envs[i + 1];
          assert envs[0].freshId != envs[i + 1].freshId;
        }
        forall i, j | 0 <= i < j < |envs[1..]|
          ensures envs[1..][i].freshId != envs[1..][j].freshId
        {
          assert envs[1..][i] == envs[i + 1] && envs[1..][j] == envs[j + 1];
        }
      }
      RunKeepsEntries(next, events[1..], envs[1..]);
    }
  }
}
