/** The approval workflow: each notification request becomes an Action that
    waits for its owner's approval. Confirming persists it, canceling
    rejects it, and a correction note rewrites its draft. The engine handles
    one event at a time over a map from action id to action. */
module Actions {
  import opened Wrappers
  import opened Text
  import opened Reminders
  import opened Corrections

  type ActionId = string

  datatype ActionType = UnknownAction | CreateNotification | CreateTodo | ToolUse

  datatype ActionStatus = Pending | AwaitingApproval | Approved | Rejected | Completed | Failed

  datatype NotificationDraft = NotificationDraft(
    userId: string, channelId: string, content: string, time: int, originalText: string,
    extraContext: Option<string>, expiresAt: int, messageId: Option<nat>)

  datatype ActionPayload = NotificationDraftPayload(draft: NotificationDraft)

  datatype Action = Action(
    id: ActionId, actionType: ActionType, status: ActionStatus, userId: string, channelId: string,
    payload: Option<ActionPayload>, createdAt: int, updatedAt: int)
  {
    /** `notification_draft`. */
    function NotificationDraftOf(): (d: Option<NotificationDraft>)
      ensures d.Some? <==> payload.Some?
      ensures d.Some? ==> payload == Some(NotificationDraftPayload(d.value))
    {
      match payload
      case Some(NotificationDraftPayload(draft)) => Some(draft)
      case None => None
    }
  }

  datatype ActionEvent =
    | NotifyRequested(text: string, userId: string, channelId: string)
    | ApprovalConfirmed(actionId: string, userId: string)
    | ApprovalCanceled(actionId: string, userId: string)
    | ContextSubmitted(actionId: string, userId: string, context: string)

  /** What the approval prompt service reports: a failure, or a prompt that
      may have been given a message id. */
  datatype PromptOutcome = PromptFailed | Prompted(messageId: Option<nat>)

  /** The outward effects of an event, in order. */
  datatype Effect =
    | StatusMessage(channelId: string, userId: string, text: string)  // `update_status_message`
    | StatusUpdate(actionId: ActionId, text: string)                   // `update_status`
    | PromptSent(actionId: ActionId)                                   // `prompt`
    | Persist(content: string, userId: string, time: int, channelId: string)  // the notification insert

  /** Everything the engine gets from outside for one event: the clock, a
      fresh UUID, the model (call and JSON parse), the prompt service and
      the outcome of the notification insert. */
  datatype Env = Env(now: int, freshId: string,
                     llm: (string, string) -> LlmReply<AINotification>,
                     prompt: Action -> PromptOutcome,
                     persistOk: bool)

  const APPROVAL_WINDOW: int := 5 * MINUTE

  datatype Outcome = Outcome(actions: map<ActionId, Action>, effects: seq<Effect>)

  // --------------------------------------------------------- the event rules

  /** Records a prompt's message id in the draft (what `prompt` does to
      `&mut action` on success). */
  function WithPromptResult(a: Action, outcome: PromptOutcome): (r: Action)
    ensures r.(payload := a.payload) == a
    ensures r.payload.Some? <==> a.payload.Some?
    ensures outcome.Prompted? && outcome.messageId.Some? && a.payload.Some? ==>
              r.payload.value.draft == a.payload.value.draft.(messageId := outcome.messageId)
    ensures !(outcome.Prompted? && outcome.messageId.Some?) ==> r == a
  {
    match (outcome, a.payload)
    case (Prompted(Some(mid)), Some(NotificationDraftPayload(d))) =>
      a.(payload := Some(NotificationDraftPayload(d.(messageId := Some(mid)))))
    case _ => a
  }

  /** The action a parsed notification request creates. */
  function NewAction(e: ActionEvent, ai: AINotification, env: Env): (a: Action)
    requires e.NotifyRequested?
  {
    Action(env.freshId, CreateNotification, AwaitingApproval, e.userId, e.channelId,
           Some(NotificationDraftPayload(NotificationDraft(
             e.userId, e.channelId, ai.content, ai.time, e.text, None, env.now + APPROVAL_WINDOW, None))),
           env.now, env.now)
  }

  function OnNotifyRequested(actions: map<ActionId, Action>, e: ActionEvent, env: Env): Outcome
    requires e.NotifyRequested?
  {
    match env.llm(e.text, "notification")
    case CallError(err) =>
      Outcome(actions, [StatusMessage(e.channelId, e.userId, "Failed to call OpenAI for notification: " + err)])
    case Unparsable(err) =>
      Outcome(actions, [StatusMessage(e.channelId, e.userId, "Failed to parse notification JSON: " + err)])
    case Parsed(ai) =>
      var a := NewAction(e, ai, env);
      var outcome := env.prompt(a);
      var stored := if outcome.PromptFailed? then a.(status := Failed) else WithPromptResult(a, outcome);
      Outcome(actions[stored.id := stored], [PromptSent(a.id)])
  }

  /** The guard every follow-up event passes first: the action exists, belongs
      to the user, and still awaits approval. */
  predicate Guarded(actions: map<ActionId, Action>, id: ActionId, userId: string) {
    id in actions && actions[id].userId == userId && actions[id].status == AwaitingApproval
  }

  function ConfirmationText(d: NotificationDraft): string {
    "Confirmed! I'll notify you: \"" + d.content + "\" at " + TimeText(d.time)
  }

  function OnConfirmed(actions: map<ActionId, Action>, e: ActionEvent, env: Env): Outcome
    requires e.ApprovalConfirmed?
  {
    if !Guarded(actions, e.actionId, e.userId) then Outcome(actions, [])
    else
      var a := actions[e.actionId].(status := Approved, updatedAt := env.now);
      match a.NotificationDraftOf()
      case None =>
        var failed := a.(status := Failed, updatedAt := env.now);
        Outcome(actions[failed.id := failed], [StatusMessage(a.channelId, a.userId, "Failed to persist notification.")])
      case Some(d) =>
        var persist := Persist(d.content, a.userId, d.time, a.channelId);
        if env.persistOk then
          var done := a.(status := Completed, updatedAt := env.now);
          Outcome(actions[done.id := done], [persist, StatusUpdate(done.id, ConfirmationText(d))])
        else
          var failed := a.(status := Failed, updatedAt := env.now);
          Outcome(actions[failed.id := failed], [persist, StatusMessage(a.channelId, a.userId, "Failed to persist notification.")])
  }

  function OnCanceled(actions: map<ActionId, Action>, e: ActionEvent, env: Env): Outcome
    requires e.ApprovalCanceled?
  {
    if !Guarded(actions, e.actionId, e.userId) then Outcome(actions, [])
    else
      var a := actions[e.actionId].(status := Rejected, updatedAt := env.now);
      Outcome(actions[a.id := a], [StatusUpdate(a.id, "Canceled notification request.")])
  }

  /** The draft after a successful correction. */
  function CorrectedDraft(d: NotificationDraft, context: string, updated: AINotification): NotificationDraft {
    d.(extraContext := if IsBlank(context) then d.extraContext else Some(Trim(context)),
       content := updated.content, time := updated.time)
  }

  /** The action written back after a successful correction: the corrected
      draft, re-prompted, stamped with the time. */
  function CorrectedAction(a: Action, d: NotificationDraft, context: string, updated: AINotification, env: Env): (r: Action)
    ensures r.id == a.id && r.status == a.status && r.userId == a.userId && r.channelId == a.channelId
    ensures r.updatedAt == env.now && r.payload.Some?
    ensures r.payload.value.draft.(messageId := d.messageId) == CorrectedDraft(d, context, updated)
  {
    var corrected := a.(payload := Some(NotificationDraftPayload(CorrectedDraft(d, context, updated))));
    WithPromptResult(corrected, env.prompt(corrected)).(updatedAt := env.now)
  }

  function OnContext(actions: map<ActionId, Action>, e: ActionEvent, env: Env): Outcome
    requires e.ContextSubmitted?
  {
    if !Guarded(actions, e.actionId, e.userId) then Outcome(actions, [])
    else
      var a := actions[e.actionId];
      match a.NotificationDraftOf()
      case None => Outcome(actions, [])
      case Some(d) =>
        match env.llm(CorrectionPrompt(d.originalText, e.context), "notification_correction").AsOption()
        case None => Outcome(actions, [])
        case Some(updated) =>
          var prompted := CorrectedAction(a, d, e.context, updated, env);
          Outcome(actions[prompted.id := prompted], [PromptSent(a.id)])
  }

  /** `handle_event`, as a function of the store and the environment. */
  function Step(actions: map<ActionId, Action>, e: ActionEvent, env: Env): Outcome {
    match e
    case NotifyRequested(_, _, _) => OnNotifyRequested(actions, e, env)
    case ApprovalConfirmed(_, _) => OnConfirmed(actions, e, env)
    case ApprovalCanceled(_, _) => OnCanceled(actions, e, env)
    case ContextSubmitted(_, _, _) => OnContext(actions, e, env)
  }

  /** Events handled one after another, each with its own environment. */
  function Run(actions: map<ActionId, Action>, events: seq<ActionEvent>, envs: seq<Env>): map<ActionId, Action>
    requires |envs| == |events|
    decreases |events|
  {
    if events == [] then actions
    else Run(Step(actions, events[0], envs[0]).actions, events[1..], envs[1..])
  }

  /** One more handled event: the rest of the run starts from the store the
      event left, and its effects follow those already collected. */
  lemma RunAdvances(actions: map<ActionId, Action>, after: map<ActionId, Action>, out: seq<Effect>,
                    done: seq<seq<Effect>>, whole: seq<seq<Effect>>,
                    events: seq<ActionEvent>, envs: seq<Env>, i: int)
    requires |envs| == |events| && 0 <= i < |events|
    requires after == Step(actions, events[i], envs[i]).actions && out == Step(actions, events[i], envs[i]).effects
    requires whole == done + Effects(actions, events[i..], envs[i..])
    ensures whole == (done + [out]) + Effects(after, events[i + 1..], envs[i + 1..])
    ensures Run(actions, events[i..], envs[i..]) == Run(after, events[i + 1..], envs[i + 1..])
  {
    assert events[i..][1..] == events[i + 1..] && envs[i..][1..] == envs[i + 1..];
    assert Effects(actions, events[i..], envs[i..]) == [out] + Effects(after, events[i + 1..], envs[i + 1..]);
  }

  /** The effects of each event of a run, in order. */
  function Effects(actions: map<ActionId, Action>, events: seq<ActionEvent>, envs: seq<Env>): seq<seq<Effect>>
    requires |envs| == |events|
    decreases |events|
  {
    if events == [] then []
    else [Step(actions, events[0], envs[0]).effects] + Effects(Step(actions, events[0], envs[0]).actions, events[1..], envs[1..])
  }

  // ------------------------------------------------------------ the store

  /** `ActionStore`: the map the engine reads snapshots from and writes back to. */
  class ActionStore {
    var actions: map<ActionId, Action>

    constructor ()
      ensures actions == map[]
    {
      actions := map[];
    }

    /** `insert`: keyed by the action's own id. */
    method Insert(action: Action)
      modifies this
      ensures actions == old(actions)[action.id := action]
    {
      actions := actions[action.id := action];
    }

    /** `get`. */
    function Get(id: ActionId): (r: Option<Action>)
      reads this
      ensures r.Some? <==> id in actions
      ensures r.Some? ==> r.value == actions[id]
    {
      if id in actions then Some(actions[id]) else None
    }

    /** `ids`: every key once, in the map's own order. */
    method Ids() returns (ids: seq<ActionId>)
      ensures forall id :: id in ids <==> id in actions
      ensures forall i, j :: 0 <= i < j < |ids| ==> ids[i] != ids[j]
    {
      var remaining := actions.Keys;
      ids := [];
      while remaining != {}
        invariant remaining <= actions.Keys
        invariant forall id :: id in ids <==> id in actions && id !in remaining
        invariant forall i, j :: 0 <= i < j < |ids| ==> ids[i] != ids[j]
        decreases remaining
      {
        var id :| id in remaining;
        ids := ids + [id];
        remaining := remaining - {id};
      }
    }
  }

  // ----------------------------------------------------------- the engine

  class ActionEngine {
    const store: ActionStore

    constructor (store: ActionStore)
      ensures this.store == store
    {
      this.store := store;
    }

    /** `handle_event`: the snapshot is taken, checked, updated field by field
        and written back, as the source does. */
    method HandleEvent(e: ActionEvent, env: Env) returns (effects: seq<Effect>)
      modifies store
      ensures store.actions == Step(old(store.actions), e, env).actions
      ensures effects == Step(old(store.actions), e, env).effects
    {
      match e {
        case NotifyRequested(text, userId, channelId) =>
          match env.llm(text, "notification") {
            case CallError(err) =>
              effects := [StatusMessage(channelId, userId, "Failed to call OpenAI for notification: " + err)];
              return;
            case Unparsable(err) =>
              effects := [StatusMessage(channelId, userId, "Failed to parse notification JSON: " + err)];
              return;
            case Parsed(ai) =>
              var action := NewAction(e, ai, env);
              var outcome := env.prompt(action);
              effects := [PromptSent(action.id)];
              if outcome.PromptFailed? {
                action := action.(status := Failed);
              } else {
                action := WithPromptResult(action, outcome);
              }
              store.Insert(action);
          }
        case ApprovalConfirmed(actionId, userId) =>
          var snapshot := store.Get(actionId);
          effects := [];
          if snapshot.None? {
            return;
          }
          var action := snapshot.value;
          if action.userId != userId || action.status != AwaitingApproval {
            return;
          }
          action := action.(status := Approved, updatedAt := env.now);
          var draft := action.NotificationDraftOf();
          if draft.None? {
            action := action.(status := Failed, updatedAt := env.now);
            effects := [StatusMessage(action.channelId, action.userId, "Failed to persist notification.")];
            store.Insert(action);
            return;
          }
          effects := [Persist(draft.value.content, action.userId, draft.value.time, action.channelId)];
          if env.persistOk {
            action := action.(status := Completed, updatedAt := env.now);
            effects := effects + [StatusUpdate(action.id, ConfirmationText(draft.value))];
          } else {
            action := action.(status := Failed, updatedAt := env.now);
            effects := effects + [StatusMessage(action.channelId, action.userId, "Failed to persist notification.")];
          }
          store.Insert(action);
        case ApprovalCanceled(actionId, userId) =>
          var snapshot := store.Get(actionId);
          effects := [];
          if snapshot.None? {
            return;
          }
          var action := snapshot.value;
          if action.userId != userId || action.status != AwaitingApproval {
            return;
          }
          action := action.(status := Rejected, updatedAt := env.now);
          effects := [StatusUpdate(action.id, "Canceled notification request.")];
          store.Insert(action);
        case ContextSubmitted(actionId, userId, context) =>
          var snapshot := store.Get(actionId);
          effects := [];
          if snapshot.None? {
            return;
          }
          var action := snapshot.value;
          if action.userId != userId || action.status != AwaitingApproval {
            return;
          }
          var draft := action.NotificationDraftOf();
          if draft.None? {
            return;
          }
          var combinedPrompt := draft.value.originalText;
          if !IsBlank(context) {
            combinedPrompt := "Original request: " + combinedPrompt + "\nCorrection note: " + Trim(context);
          }
          var refreshed := env.llm(combinedPrompt, "notification_correction").AsOption();
          if refreshed.Some? {
            var d := draft.value;
            if !IsBlank(context) {
              d := d.(extraContext := Some(Trim(context)));
            }
            d := d.(content := refreshed.value.content, time := refreshed.value.time);
            action := action.(payload := Some(NotificationDraftPayload(d)));
            var outcome := env.prompt(action);
            action := WithPromptResult(action, outcome);
            effects := [PromptSent(action.id)];
            action := action.(updatedAt := env.now);
            store.Insert(action);
          }
      }
    }

    /** The event bus drained in order: each event with its own environment. */
    method ProcessEvents(events: seq<ActionEvent>, envs: seq<Env>) returns (effects: seq<seq<Effect>>)
      requires |envs| == |events|
      modifies store
      ensures store.actions == Run(old(store.actions), events, envs)
      ensures effects == Effects(old(store.actions), events, envs)
    {
      effects := [];
      var i := 0;
      while i < |events|
        invariant 0 <= i <= |events| && |effects| == i
        invariant Run(old(store.actions), events, envs) == Run(store.actions, events[i..], envs[i..])
        invariant Effects(old(store.actions), events, envs) == effects + Effects(store.actions, events[i..], envs[i..])
      {
        ghost var before := store.actions;
        var out := HandleEvent(events[i], envs[i]);
        RunAdvances(before, store.actions, out, effects, Effects(old(store.actions), events, envs), events, envs, i);
        effects := effects + [out];
        i := i + 1;
      }
    }
  }

  // ------------------------------------------------------------- properties

  /** The statuses an action may move between in one event: it stays, or a
      pending approval is decided. */
  predicate Allowed(before: ActionStatus, after: ActionStatus) {
    before == after || (before == AwaitingApproval && (after == Completed || after == Failed || after == Rejected))
  }

  /** What no event changes about a stored action. */
  predicate SameRequest(before: Action, after: Action) {
    after.id == before.id && after.actionType == before.actionType && after.userId == before.userId
    && after.channelId == before.channelId && after.createdAt == before.createdAt
    && (after.payload.Some? <==> before.payload.Some?)
    && (before.payload.Some? ==> after.payload.value.draft.originalText == before.payload.value.draft.originalText)
  }

  /** Every action is stored under its own id. */
  predicate IdsMatch(actions: map<ActionId, Action>) {
    forall k :: k in actions ==> actions[k].id == k
  }

  predicate NoApproved(actions: map<ActionId, Action>) {
    forall k :: k in actions ==> actions[k].status != Approved
  }

  /** What one event may do to the store: keep every stored action, move its
      status only as allowed, leave its request untouched, add at most the
      fresh id, and keep every action under its own id. */
  predicate WellMoved(actions: map<ActionId, Action>, after: map<ActionId, Action>, e: ActionEvent, env: Env) {
    && actions.Keys <= after.Keys
    && (forall k :: k in actions ==> Allowed(actions[k].status, after[k].status))
    && (forall k :: k in actions ==> SameRequest(actions[k], after[k]))
    && (forall k :: k in after && k !in actions ==>
          e.NotifyRequested? && k == env.freshId && (after[k].status == AwaitingApproval || after[k].status == Failed))
    && IdsMatch(after)
  }

  /** Writing back one stored action, changed as allowed, moves the store well. */
  lemma {:induction false} WriteBackMovesWell(actions: map<ActionId, Action>, a: Action, e: ActionEvent, env: Env)
    requires IdsMatch(actions) && a.id in actions
    requires Allowed(actions[a.id].status, a.status) && SameRequest(actions[a.id], a)
    ensures WellMoved(actions, actions[a.id := a], e, env)
  {
    var after := actions[a.id := a];
    forall k | k in actions
      ensures Allowed(actions[k].status, after[k].status) && SameRequest(actions[k], after[k])
    {
      if k != a.id {
        assert after[k] == actions[k];
      }
    }
  }

  /** A notification request adds at most the fresh id, waiting or failed. */
  lemma NotifyMovesWell(actions: map<ActionId, Action>, e: ActionEvent, env: Env)
    requires IdsMatch(actions) && e.NotifyRequested? && env.freshId !in actions
    ensures WellMoved(actions, Step(actions, e, env).actions, e, env)
  {
    var after := Step(actions, e, env).actions;
    if after != actions {
      var a :| after == actions[env.freshId := a] && a.id == env.freshId
                && (a.status == AwaitingApproval || a.status == Failed);
    }
  }

  /** A confirmation writes back its action completed or failed. */
  lemma ConfirmedMovesWell(actions: map<ActionId, Action>, e: ActionEvent, env: Env)
    requires IdsMatch(actions) && e.ApprovalConfirmed?
    ensures WellMoved(actions, Step(actions, e, env).actions, e, env)
  {
    var after := Step(actions, e, env).actions;
    if after != actions {
      var a := actions[e.actionId];
      var d := a.NotificationDraftOf();
      var b := if d.None? || !env.persistOk then a.(status := Failed, updatedAt := env.now)
               else a.(status := Completed, updatedAt := env.now);
      assert after == actions[b.id := b];
      WriteBackMovesWell(actions, b, e, env);
    }
  }

  /** A cancellation writes back its action rejected. */
  lemma CanceledMovesWell(actions: map<ActionId, Action>, e: ActionEvent, env: Env)
    requires IdsMatch(actions) && e.ApprovalCanceled?
    ensures WellMoved(actions, Step(actions, e, env).actions, e, env)
  {
    var after := Step(actions, e, env).actions;
    if after != actions {
      var a := actions[e.actionId];
      WriteBackMovesWell(actions, a.(status := Rejected, updatedAt := env.now), e, env);
    }
  }

  /** A note writes back its action corrected and waiting again. */
  lemma ContextMovesWell(actions: map<ActionId, Action>, e: ActionEvent, env: Env)
    requires IdsMatch(actions) && e.ContextSubmitted?
    ensures WellMoved(actions, Step(actions, e, env).actions, e, env)
  {
    var after := Step(actions, e, env).actions;
    if after != actions {
      var a := actions[e.actionId];
      var d := a.NotificationDraftOf().value;
      var updated := env.llm(CorrectionPrompt(d.originalText, e.context), "notification_correction").AsOption().value;
      var prompted := CorrectedAction(a, d, e.context, updated, env);
      assert after == actions[prompted.id := prompted];
      WriteBackMovesWell(actions, prompted, e, env);
    }
  }

  /** One event moves the store well, provided a fresh id is really new. */
  lemma {:induction false} StepTransitions(actions: map<ActionId, Action>, e: ActionEvent, env: Env)
    requires IdsMatch(actions)
    requires e.NotifyRequested? ==> env.freshId !in actions
    ensures WellMoved(actions, Step(actions, e, env).actions, e, env)
  {
    match e
    case NotifyRequested(_, _, _) => NotifyMovesWell(actions, e, env);
    case ApprovalConfirmed(_, _) => ConfirmedMovesWell(actions, e, env);
    case ApprovalCanceled(_, _) => CanceledMovesWell(actions, e, env);
    case ContextSubmitted(_, _, _) => ContextMovesWell(actions, e, env);
  }

  /** `Approved` is only ever a passing status inside one event. */
  lemma {:induction false} StepKeepsNoApproved(actions: map<ActionId, Action>, e: ActionEvent, env: Env)
    requires NoApproved(actions)
    ensures NoApproved(Step(actions, e, env).actions)
  {
  }

  lemma {:induction false} RunKeepsNoApproved(actions: map<ActionId, Action>, events: seq<ActionEvent>, envs: seq<Env>)
    requires |envs| == |events| && NoApproved(actions)
    ensures NoApproved(Run(actions, events, envs))
    decreases |events|
  {
    if events != [] {
      StepKeepsNoApproved(actions, events[0], envs[0]);
      RunKeepsNoApproved(Step(actions, events[0], envs[0]).actions, events[1..], envs[1..]);
    }
  }

  /** Fresh ids are new to the store and distinct from each other. */
  predicate FreshIds(actions: map<ActionId, Action>, envs: seq<Env>) {
    (forall i :: 0 <= i < |envs| ==> envs[i].freshId !in actions)
    && (forall i, j :: 0 <= i < j < |envs| ==> envs[i].freshId != envs[j].freshId)
  }

  /** Over any run with fresh ids, every stored action survives, its status
      moves only as allowed and its request is never rewritten. */
  lemma {:induction false} RunTransitions(actions: map<ActionId, Action>, events: seq<ActionEvent>, envs: seq<Env>)
    requires |envs| == |events| && IdsMatch(actions) && FreshIds(actions, envs)
    ensures var after := Run(actions, events, envs);
      && actions.Keys <= after.Keys
      && (forall k :: k in actions ==> Allowed(actions[k].status, after[k].status))
      && (forall k :: k in actions ==> SameRequest(actions[k], after[k]))
      && IdsMatch(after)
    decreases |events|
  {
    if events != [] {
      var next := Step(actions, events[0], envs[0]).actions;
      StepTransitions(actions, events[0], envs[0]);
      forall i | 1 <= i < |envs|
        ensures envs[i].freshId !in next
      {
        assert envs[0].freshId != envs[i].freshId;
      }
      assert FreshIds(next, envs[1..]) by {
        forall i | 0 <= i < |envs[1..]|
          ensures envs[1..][i].freshId !in next
        {
          assert envs[1..][i] == envs[i + 1];
        }
        forall i, j | 0 <= i < j < |envs[1..]|
          ensures envs[1..][i].freshId != envs[1..][j].freshId
        {
          assert envs[1..][i] == envs[i + 1] && envs[1..][j] == envs[j + 1];
        }
      }
      RunTransitions(next, events[1..], envs[1..]);
    }
  }

  /** A follow-up event for an action that is missing, foreign or already
      decided changes nothing and says nothing. */
  lemma {:induction false} UnguardedIsNoOp(actions: map<ActionId, Action>, e: ActionEvent, env: Env)
    requires !e.NotifyRequested? && !Guarded(actions, e.actionId, e.userId)
    ensures Step(actions, e, env) == Outcome(actions, [])
  {
  }

  /** A notification request the model cannot answer, or answers with
      something unparsable, changes nothing and reports one status message
      to the requester. */
  lemma {:induction false} FailedRequestReports(actions: map<ActionId, Action>, e: ActionEvent, env: Env)
    requires e.NotifyRequested? && !env.llm(e.text, "notification").Parsed?
    ensures Step(actions, e, env).actions == actions
    ensures |Step(actions, e, env).effects| == 1
    ensures Step(actions, e, env).effects[0].StatusMessage?
    ensures Step(actions, e, env).effects[0].channelId == e.channelId
    ensures Step(actions, e, env).effects[0].userId == e.userId
  {
  }

  /** A parsed request stores exactly one action under the fresh id: it
      awaits approval (or has failed, when the prompt could not be sent),
      holds the model's content and time, remembers the request text and
      expires five minutes after it was made. */
  lemma {:induction false} ParsedRequestStoresDraft(actions: map<ActionId, Action>, e: ActionEvent, env: Env)
    requires e.NotifyRequested? && env.llm(e.text, "notification").Parsed?
    ensures var ai := env.llm(e.text, "notification").value;
      var after := Step(actions, e, env).actions;
      && after.Keys == actions.Keys + {env.freshId}
      && (forall k :: k in actions && k != env.freshId ==> after[k] == actions[k])
      && var a := after[env.freshId];
      && a.id == env.freshId && a.actionType == CreateNotification
      && (a.status == Failed <==> env.prompt(NewAction(e, ai, env)).PromptFailed?)
      && (a.status != Failed ==> a.status == AwaitingApproval)
      && a.userId == e.userId && a.channelId == e.channelId
      && a.createdAt == env.now && a.updatedAt == env.now
      && a.payload.Some?
      && var d := a.payload.value.draft;
      && d.content == ai.content && d.time == ai.time && d.originalText == e.text
      && d.extraContext == None && d.expiresAt == env.now + 5 * MINUTE
      && d.userId == e.userId && d.channelId == e.channelId
    ensures Step(actions, e, env).effects == [PromptSent(env.freshId)]
  {
  }

  /** Confirming a pending draft asks for exactly that notification to be
      stored, and the action ends Completed or Failed as the insert goes. */
  lemma {:induction false} ConfirmPersistsDraft(actions: map<ActionId, Action>, id: ActionId, userId: string, env: Env)
    requires Guarded(actions, id, userId) && actions[id].id == id && actions[id].payload.Some?
    ensures var d := actions[id].payload.value.draft;
      var out := Step(actions, ApprovalConfirmed(id, userId), env);
      && out.effects != []
      && out.effects[0] == Persist(d.content, userId, d.time, actions[id].channelId)
      && out.actions.Keys == actions.Keys
      && out.actions[id].status == (if env.persistOk then Completed else Failed)
      && out.actions[id].updatedAt == env.now
      && out.actions == actions[id := actions[id].(status := if env.persistOk then Completed else Failed,
                                                   updatedAt := env.now)]
      && (env.persistOk ==> out.effects == [out.effects[0], StatusUpdate(id, ConfirmationText(d))])
      && (!env.persistOk ==> out.effects == [out.effects[0],
                                             StatusMessage(actions[id].channelId, userId, "Failed to persist notification.")])
  {
  }

  /** A pending action without a draft fails on confirmation, with nothing
      persisted. */
  lemma {:induction false} ConfirmWithoutDraftFails(actions: map<ActionId, Action>, id: ActionId, userId: string, env: Env)
    requires Guarded(actions, id, userId) && actions[id].id == id && actions[id].payload.None?
    ensures Step(actions, ApprovalConfirmed(id, userId), env).actions[id].status == Failed
    ensures Step(actions, ApprovalConfirmed(id, userId), env).effects
            == [StatusMessage(actions[id].channelId, userId, "Failed to persist notification.")]
  {
  }

  /** Canceling a pending draft stores it as Rejected, stamped with the
      time, changes no other action and persists nothing: the one effect is
      the cancellation notice. */
  lemma {:induction false} CancelRejects(actions: map<ActionId, Action>, id: ActionId, userId: string, env: Env)
    requires Guarded(actions, id, userId) && actions[id].id == id
    ensures var out := Step(actions, ApprovalCanceled(id, userId), env);
      && out.actions == actions[id := actions[id].(status := Rejected, updatedAt := env.now)]
      && out.effects == [StatusUpdate(id, "Canceled notification request.")]
  {
  }

  /** A decision is final: once confirmed or canceled, the same action
      ignores every later confirm, cancel or correction. */
  lemma {:induction false} DecisionIsFinal(actions: map<ActionId, Action>, first: ActionEvent, later: ActionEvent,
                                           env1: Env, env2: Env)
    requires (first.ApprovalConfirmed? || first.ApprovalCanceled?) && Guarded(actions, first.actionId, first.userId)
    requires actions[first.actionId].id == first.actionId
    requires !later.NotifyRequested? && later.actionId == first.actionId
    ensures var m := Step(actions, first, env1).actions;
      Step(m, later, env2) == Outcome(m, [])
  {
    var m := Step(actions, first, env1).actions;
    assert m[first.actionId].status != AwaitingApproval;
    UnguardedIsNoOp(m, later, env2);
  }

  /** A correction the model answers rewrites the draft's content and time,
      records the trimmed note when there is one, and keeps the action
      pending; an unanswered correction changes nothing. */
  lemma {:induction false} CorrectionRewritesDraft(actions: map<ActionId, Action>, id: ActionId, userId: string,
                                                   context: string, env: Env)
    requires Guarded(actions, id, userId) && actions[id].id == id && actions[id].payload.Some?
    ensures var d := actions[id].payload.value.draft;
      var reply := env.llm(CorrectionPrompt(d.originalText, context), "notification_correction");
      var out := Step(actions, ContextSubmitted(id, userId, context), env);
      && (!reply.Parsed? ==> out == Outcome(actions, []))
      && (reply.Parsed? ==>
            && out.actions.Keys == actions.Keys
            && out.actions[id].status == AwaitingApproval
            && out.actions[id].updatedAt == env.now
            && var d2 := out.actions[id].payload.value.draft;
            && d2.content == reply.value.content && d2.time == reply.value.time
            && d2.originalText == d.originalText && d2.expiresAt == d.expiresAt
            && d2.extraContext == (if IsBlank(context) then d.extraContext else Some(Trim(context)))
            && out.effects == [PromptSent(id)])
  {
    var d := actions[id].payload.value.draft;
    var reply := env.llm(CorrectionPrompt(d.originalText, context), "notification_correction");
    if reply.Parsed? {
      assert reply.AsOption() == Some(reply.value);
    }
  }

  /** A correction the model answers writes back the corrected action. */
  lemma {:induction false} ContextStepWritesCorrected(actions: map<ActionId, Action>, e: ActionEvent, env: Env)
    requires e.ContextSubmitted? && Guarded(actions, e.actionId, e.userId)
    requires actions[e.actionId].id == e.actionId && actions[e.actionId].payload.Some?
    requires env.llm(CorrectionPrompt(actions[e.actionId].payload.value.draft.originalText, e.context),
                     "notification_correction").Parsed?
    ensures var a := actions[e.actionId];
      var u := env.llm(CorrectionPrompt(a.payload.value.draft.originalText, e.context), "notification_correction").value;
      Step(actions, e, env).actions == actions[e.actionId := CorrectedAction(a, a.payload.value.draft, e.context, u, env)]
  {
    var a := actions[e.actionId];
    assert a.NotificationDraftOf() == Some(a.payload.value.draft);
    var reply := env.llm(CorrectionPrompt(a.payload.value.draft.originalText, e.context), "notification_correction");
    assert reply.AsOption() == Some(reply.value);
  }

  /** A correction followed by a confirmation persists the corrected content
      and time, not the first draft's. */
  lemma {:induction false} CorrectionThenConfirm(actions: map<ActionId, Action>, id: ActionId, userId: string,
                                                 context: string, env1: Env, env2: Env)
    requires Guarded(actions, id, userId) && actions[id].id == id && actions[id].payload.Some?
    requires env1.llm(CorrectionPrompt(actions[id].payload.value.draft.originalText, context),
                      "notification_correction").Parsed?
    ensures var u := env1.llm(CorrectionPrompt(actions[id].payload.value.draft.originalText, context),
                              "notification_correction").value;
      var m := Step(actions, ContextSubmitted(id, userId, context), env1).actions;
      var out := Step(m, ApprovalConfirmed(id, userId), env2);
      out.effects != [] && out.effects[0] == Persist(u.content, userId, u.time, actions[id].channelId)
  {
    var a := actions[id];
    var d := a.payload.value.draft;
    var u := env1.llm(CorrectionPrompt(d.originalText, context), "notification_correction").value;
    ContextStepWritesCorrected(actions, ContextSubmitted(id, userId, context), env1);
    var m := actions[id := CorrectedAction(a, d, context, u, env1)];
    ConfirmPersistsDraft(m, id, userId, env2);
  }

  // -------------------------------------------------------------- scenarios

  /** A request answered by the model and then confirmed stores the model's
      notification for the requester's channel. */
  lemma {:induction false} ConfirmedRequestCreatesNotification(env1: Env, env2: Env, t: int)
    requires env1.llm("call mom tomorrow", "notification") == Parsed(AINotification("call mom", t))
    requires forall a :: env1.prompt(a) == Prompted(None)
    requires env2.persistOk
    ensures var m := Step(map[], NotifyRequested("call mom tomorrow", "@u", "123"), env1).actions;
      var out := Step(m, ApprovalConfirmed(env1.freshId, "@u"), env2);
      && m.Keys == {env1.freshId}
      && out.effects != [] && out.effects[0] == Persist("call mom", "@u", t, "123")
      && out.actions[env1.freshId].status == Completed
  {
    var e := NotifyRequested("call mom tomorrow", "@u", "123");
    var a := NewAction(e, AINotification("call mom", t), env1);
    var m := Step(map[], e, env1).actions;
    assert m == map[env1.freshId := a];
    ConfirmPersistsDraft(m, env1.freshId, "@u", env2);
  }

  /** A canceled pending action is marked rejected. */
  lemma {:induction false} CanceledActionIsRejected(a: Action, env: Env)
    requires a.status == AwaitingApproval && a.userId == "@u"
    ensures Step(map[a.id := a], ApprovalCanceled(a.id, "@u"), env).actions[a.id].status == Rejected
  {
  }

  /** A correction note rewrites the pending draft's time and records the note. */
  lemma {:induction false} ContextSubmissionUpdatesPending(a: Action, env: Env, t: int)
    requires a.status == AwaitingApproval && a.userId == "@u" && a.payload.Some?
    requires forall p :: env.llm(p, "notification_correction") == Parsed(AINotification("call mom", t))
    ensures var after := Step(map[a.id := a], ContextSubmitted(a.id, "@u", "actually next day"), env).actions;
      && a.id in after && after[a.id].payload.Some?
      && after[a.id].payload.value.draft.content == "call mom"
      && after[a.id].payload.value.draft.time == t
      && after[a.id].payload.value.draft.extraContext == Some("actually next day")
  {
    var context := "actually next day";
    assert !IsWhitespace(context[0]) && !IsWhitespace(context[|context| - 1]);
    assert Trim(context) == context;
    CorrectionRewritesDraft(map[a.id := a], a.id, "@u", context, env);
  }
}
