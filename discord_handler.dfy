/** The Discord front end of the approval flow: `/notify` goes through the
    session router and, when it decides on a notification, puts a request on
    the event bus; buttons and the context modal put approval events on the
    bus; `/todo` manages the caller's todo list directly. */
module DiscordHandler {
  import opened Wrappers
  import opened Text
  import opened Sorting
  import opened Maps
  import opened Todo
  import opened Interaction
  import Reminders
  import Routing
  import NotifyFlow
  import Actions

  /** How the handler answers an interaction. */
  datatype Reply = Ephemeral(text: string) | Update(text: string) | ShowModal(customId: string) | NoReply

  const MISSING_NOTIFY_TEXT: string := "Missing `text` argument for /notify"
  const MISSING_TODO_TEXT: string := "Missing `text` argument for /todo add"
  const PROCESSING: string := "Processing your request."

  /** Discord's own user id, as the flows store it. */
  function Mention(rawUserId: string): string { "@" + rawUserId }

  /** `notify_response`: one fixed reply per decision. */
  function NotifyResponse(d: NotifyFlow.NotifyDecision): (r: string) {
    match d
    case EmitNotify(_) => "Got it \U{2014} processing your notification."
    case NeedClarification => "I can set notifications. What should I notify you about, and when? Re-run /notify with a time."
  }

  /** The reply tells the two decisions apart and does not echo the text. */
  lemma {:induction false} NotifyResponseByDecision(a: string, b: string)
    ensures NotifyResponse(NotifyFlow.EmitNotify(a)) == NotifyResponse(NotifyFlow.EmitNotify(b))
    ensures NotifyResponse(NotifyFlow.EmitNotify(a)) != NotifyResponse(NotifyFlow.NeedClarification)
  {
    var emit := NotifyResponse(NotifyFlow.EmitNotify(a));
    var ask := NotifyResponse(NotifyFlow.NeedClarification);
    assert |emit| < 40 < |ask|;
  }

  /** The events one routing decision puts on the bus. */
  function EmittedFor(d: NotifyFlow.NotifyDecision, userId: string, channelId: string): (es: seq<Actions.ActionEvent>)
    ensures d.NeedClarification? ==> es == []
    ensures d.EmitNotify? ==> es == [Actions.NotifyRequested(d.normalizedText, userId, channelId)]
  {
    match d
    case EmitNotify(normalized) => [Actions.NotifyRequested(normalized, userId, channelId)]
    case NeedClarification => []
  }

  // ------------------------------------------------------------ custom ids

  /** What a button asks for. */
  datatype ButtonAction = ConfirmAction(actionId: string) | CancelAction(actionId: string)
                        | ContextAction(actionId: string) | IgnoredButton

  /** The component branch: split at the first ':' and match the prefix. */
  function ButtonRoute(customId: string): ButtonAction {
    match SplitCustomId(customId)
    case None => IgnoredButton
    case Some((action, id)) =>
      if action == "action_confirm" then ConfirmAction(id)
      else if action == "action_cancel" then CancelAction(id)
      else if action == "action_context" then ContextAction(id)
      else IgnoredButton
  }

  /** The id of the context modal shown for an action. */
  function ModalCustomId(actionId: string): string { "action_context_modal:" + actionId }

  /** The modal branch: only the context modal's prefix is accepted. */
  function ModalRoute(customId: string): Option<string> {
    match SplitCustomId(customId)
    case None => None
    case Some((prefix, id)) => if prefix == "action_context_modal" then Some(id) else None
  }

  /** A confirm button's id routes back to confirming the same id, whatever
      the id holds. */
  lemma {:induction false} ConfirmRouteOfBuilt(id: string)
    ensures ButtonRoute("action_confirm" + ":" + id) == ConfirmAction(id)
  {
    SplitCustomIdOfBuilt("action_confirm", id);
  }

  /** A cancel button's id routes back to canceling the same id. */
  lemma {:induction false} CancelRouteOfBuilt(id: string)
    ensures ButtonRoute("action_cancel" + ":" + id) == CancelAction(id)
  {
    SplitCustomIdOfBuilt("action_cancel", id);
    assert "action_cancel" != "action_confirm" by { assert "action_cancel"[8] != "action_confirm"[8]; }
  }

  /** A context button's id routes back to asking for context on the same id. */
  lemma {:induction false} ContextRouteOfBuilt(id: string)
    ensures ButtonRoute("action_context" + ":" + id) == ContextAction(id)
  {
    SplitCustomIdOfBuilt("action_context", id);
    assert "action_context" != "action_confirm" by { assert "action_context"[10] != "action_confirm"[10]; }
    assert "action_context" != "action_cancel" by { assert |"action_context"| != |"action_cancel"|; }
  }

  /** The modal shown for an action submits back to the same action; any
      other prefix is dropped. */
  lemma {:induction false} ModalRouteOfShown(id: string, customId: string)
    ensures ModalRoute(ModalCustomId(id)) == Some(id)
    ensures ModalRoute(customId).Some? ==> customId == ModalCustomId(ModalRoute(customId).value)
  {
    var prefix := "action_context_modal";
    assert "action_context_modal:" == prefix + ":";
    assert ModalCustomId(id) == prefix + ":" + id;
    SplitCustomIdOfBuilt(prefix, id);
    match SplitCustomId(customId)
    case None =>
    case Some((p, rest)) =>
      if p == prefix {
        assert ModalCustomId(rest) == prefix + ":" + rest;
      }
  }

  // -------------------------------------------------------------- todo list

  /** The `/todo list` reply for the listed items. */
  function ListContent(items: seq<TodoItem>): (r: string)
    ensures items == [] ==> r == "You have no open todos."
    ensures items != [] ==> r == "Your open todos:\n" + TrimEnd(NumberedLines(items, 1))
  {
    if items == [] then "You have no open todos." else Listing("Your open todos:\n", items)
  }

  /** The item `/todo done` marks: its completion time is set, if it is
      still stored under its id. */
  function MarkDone(m: map<string, TodoItem>, id: string, now: int): map<string, TodoItem> {
    if id in m then m[id := m[id].(completedAt := Some(now))] else m
  }

  /** The ids `/todo clear` removes: those of the caller's completed items. */
  function CompletedIds(m: map<string, TodoItem>, userId: string): set<string> {
    set k | k in m && m[k].userId == userId && m[k].completedAt.Some? :: m[k].id
  }

  class BotHandler {
    const sessions: NotifyFlow.SessionStore
    const todoDb: TodoDb
    /** The event bus, as the sequence of events put on it so far. */
    var emitted: seq<Actions.ActionEvent>

    constructor (sessions: NotifyFlow.SessionStore, todoDb: TodoDb)
      ensures this.sessions == sessions && this.todoDb == todoDb && emitted == []
    {
      this.sessions := sessions;
      this.todoDb := todoDb;
      emitted := [];
    }

    /** `handle_notify_internal`: route within the session and put a
        request on the bus only for a notification. */
    method HandleNotifyInternal(router: string -> Routing.IntentResult, text: string, userId: string,
                                channelId: string, now: int)
      returns (decision: NotifyFlow.NotifyDecision)
      modifies this, sessions
      ensures (sessions.sessions, decision) == NotifyFlow.Route(router, old(sessions.sessions), (userId, channelId), text, now)
      ensures emitted == old(emitted) + EmittedFor(decision, userId, channelId)
    {
      decision := sessions.RouteNotify(router, (userId, channelId), text, now);
      if decision.EmitNotify? {
        emitted := emitted + [Actions.NotifyRequested(decision.normalizedText, userId, channelId)];
      }
    }

    /** `/notify`: blank text is refused before any routing. */
    method HandleNotify(router: string -> Routing.IntentResult, text: string, rawUserId: string,
                        channelId: string, now: int)
      returns (reply: Reply)
      modifies this, sessions
      ensures IsBlank(text) ==> reply == Ephemeral(MISSING_NOTIFY_TEXT)
                                && sessions.sessions == old(sessions.sessions) && emitted == old(emitted)
      ensures !IsBlank(text) ==>
                var (after, d) := NotifyFlow.Route(router, old(sessions.sessions), (Mention(rawUserId), channelId), text, now);
                && sessions.sessions == after
                && emitted == old(emitted) + EmittedFor(d, Mention(rawUserId), channelId)
                && reply == Ephemeral(NotifyResponse(d))
    {
      if IsBlank(text) {
        return Ephemeral(MISSING_NOTIFY_TEXT);
      }
      var decision := HandleNotifyInternal(router, text, Mention(rawUserId), channelId, now);
      reply := Ephemeral(NotifyResponse(decision));
    }

    /** The caller's open items in creation order: each listing collects the
        map's values (in whatever order) and sorts them by creation time. */
    method OpenTodos(userId: string) returns (open: seq<TodoItem>)
      ensures SortedBy(open, CreatedAt)
      ensures multiset(open) == OpenValues(todoDb.items, userId)
    {
      var m := todoDb.items;
      ghost var ks := OpenKeys(m, userId);
      var collected: seq<TodoItem> := [];
      var remaining := m.Keys;
      while remaining != {}
        invariant remaining <= m.Keys
        invariant multiset(collected) == ValuesOf(m, ks - remaining)
        decreases remaining
      {
        var k :| k in remaining;
        if IsOpenFor(m[k], userId) {
          assert ks - (remaining - {k}) == (ks - remaining) + {k};
          ValuesOfAdd(m, ks - remaining, k);
          collected := collected + [m[k]];
        } else {
          assert ks - (remaining - {k}) == ks - remaining;
        }
        remaining := remaining - {k};
      }
      assert ks - {} == ks;
      open := SortByKey(collected, CreatedAt);
    }

    /** `/todo add`. */
    method HandleTodoAdd(text: string, rawUserId: string, freshId: string, now: int, saveOk: bool)
      returns (reply: Reply)
      modifies todoDb
      ensures IsBlank(text) ==> reply == Ephemeral(MISSING_TODO_TEXT) && todoDb.items == old(todoDb.items)
      ensures !IsBlank(text) ==>
                && todoDb.items == old(todoDb.items)[freshId := TodoItem(freshId, rawUserId, text, now, None)]
                && reply == (if saveOk then Ephemeral("Added to your todo list.")
                             else Ephemeral("Failed to create todo: " + Reminders.ErrorText(Reminders.SaveFailed)))
    {
      if IsBlank(text) {
        return Ephemeral(MISSING_TODO_TEXT);
      }
      var r := todoDb.CreateTodo(rawUserId, text, freshId, now, saveOk);
      if r.Err? {
        return Ephemeral("Failed to create todo: " + Reminders.ErrorText(r.error));
      }
      reply := Ephemeral("Added to your todo list.");
    }

    /** `/todo list`: the caller's open items, numbered from 1. */
    method HandleTodoList(rawUserId: string) returns (reply: Reply, shown: seq<TodoItem>)
      ensures SortedBy(shown, CreatedAt) && multiset(shown) == OpenValues(todoDb.items, rawUserId)
      ensures reply == Ephemeral(ListContent(shown))
    {
      shown := OpenTodos(rawUserId);
      if shown == [] {
        return Ephemeral("You have no open todos."), shown;
      }
      var content := BuildListing("Your open todos:\n", shown);
      reply := Ephemeral(content);
    }

    /** `/todo done <index>`: marks the index-th open item, counting from 1. */
    method HandleTodoDone(rawUserId: string, index: int, now: int) returns (reply: Reply, shown: seq<TodoItem>)
      modifies todoDb
      ensures index <= 0 ==> reply == Ephemeral("Provide a valid index for /todo done.")
                             && todoDb.items == old(todoDb.items)
      ensures index > 0 ==> SortedBy(shown, CreatedAt) && multiset(shown) == OpenValues(old(todoDb.items), rawUserId)
      ensures index > |shown| ==> reply == Ephemeral("That todo index does not exist.")
                                  && todoDb.items == old(todoDb.items)
      ensures 0 < index <= |shown| ==> reply == Ephemeral("Marked as done.")
                                       && todoDb.items == MarkDone(old(todoDb.items), shown[index - 1].id, now)
    {
      shown := [];
      if index <= 0 {
        return Ephemeral("Provide a valid index for /todo done."), shown;
      }
      shown := OpenTodos(rawUserId);
      if index - 1 >= |shown| {
        return Ephemeral("That todo index does not exist."), shown;
      }
      var item := shown[index - 1];
      if item.id in todoDb.items {
        todoDb.items := todoDb.items[item.id := todoDb.items[item.id].(completedAt := Some(now))];
      }
      reply := Ephemeral("Marked as done.");
    }

    /** The ids of the caller's completed items, in the map's order. */
    method CollectCompletedIds(userId: string) returns (ids: seq<string>)
      ensures forall id :: id in ids <==> id in CompletedIds(todoDb.items, userId)
    {
      var m := todoDb.items;
      var remaining := m.Keys;
      ids := [];
      while remaining != {}
        invariant remaining <= m.Keys
        invariant forall id :: id in ids <==> id in CompletedIdsAmong(m, userId, m.Keys - remaining)
        decreases remaining
      {
        var k :| k in remaining;
        CompletedIdsAmongAdd(m, userId, m.Keys - remaining, k);
        assert m.Keys - (remaining - {k}) == (m.Keys - remaining) + {k};
        if m[k].userId == userId && m[k].completedAt.Some? {
          ids := ids + [m[k].id];
        }
        remaining := remaining - {k};
      }
      assert m.Keys - {} == m.Keys;
    }

    /** Removes every listed id from the todo database. */
    method RemoveIds(ids: seq<string>)
      modifies todoDb
      ensures todoDb.items == old(todoDb.items) - IdSet(ids)
    {
      ghost var m0 := todoDb.items;
      for i := 0 to |ids|
        invariant todoDb.items == m0 - IdSet(ids[..i])
      {
        assert ids[..i + 1] == ids[..i] + [ids[i]];
        IdSetSnoc(ids[..i], ids[i]);
        todoDb.items := todoDb.items - {ids[i]};
      }
      assert ids[..|ids|] == ids;
    }

    /** `/todo clear`: removes the caller's completed items. */
    method HandleTodoClear(rawUserId: string) returns (reply: Reply)
      modifies todoDb
      ensures todoDb.items == old(todoDb.items) - CompletedIds(old(todoDb.items), rawUserId)
      ensures reply == Ephemeral("Cleared completed todos.")
    {
      var ids := CollectCompletedIds(rawUserId);
      assert IdSet(ids) == CompletedIds(todoDb.items, rawUserId);
      RemoveIds(ids);
      reply := Ephemeral("Cleared completed todos.");
    }

    /** The component branch: confirm and cancel go on the bus under the
        mentioned user; the context button opens the context modal. */
    method HandleComponent(customId: string, rawUserId: string) returns (reply: Reply)
      modifies this
      ensures match ButtonRoute(customId)
              case ConfirmAction(id) =>
                emitted == old(emitted) + [Actions.ApprovalConfirmed(id, Mention(rawUserId))] && reply == Update(PROCESSING)
              case CancelAction(id) =>
                emitted == old(emitted) + [Actions.ApprovalCanceled(id, Mention(rawUserId))] && reply == Update(PROCESSING)
              case ContextAction(id) => emitted == old(emitted) && reply == ShowModal(ModalCustomId(id))
              case IgnoredButton => emitted == old(emitted) && reply == NoReply
    {
      match ButtonRoute(customId)
      case ConfirmAction(id) =>
        emitted := emitted + [Actions.ApprovalConfirmed(id, Mention(rawUserId))];
        reply := Update(PROCESSING);
      case CancelAction(id) =>
        emitted := emitted + [Actions.ApprovalCanceled(id, Mention(rawUserId))];
        reply := Update(PROCESSING);
      case ContextAction(id) =>
        reply := ShowModal(ModalCustomId(id));
      case IgnoredButton =>
        reply := NoReply;
    }

    /** The modal branch: the last context input's text (or "") goes on the
        bus for the action the modal was opened for. */
    method HandleModalSubmit(customId: string, rows: seq<seq<Component>>, rawUserId: string) returns (reply: Reply)
      modifies this
      ensures ModalRoute(customId).None? ==> emitted == old(emitted) && reply == NoReply
      ensures ModalRoute(customId).Some? ==>
                && emitted == old(emitted) + [Actions.ContextSubmitted(ModalRoute(customId).value, Mention(rawUserId),
                                                                      LastContextValue(Flatten(rows)).GetOr(""))]
                && reply == Ephemeral("Thanks! Updating your notification preview.")
    {
      var route := ModalRoute(customId);
      if route.None? {
        return NoReply;
      }
      var value := FindContextValue(rows);
      emitted := emitted + [Actions.ContextSubmitted(route.value, Mention(rawUserId), value.GetOr(""))];
      reply := Ephemeral("Thanks! Updating your notification preview.");
    }
  }

  function IdSet(ids: seq<string>): set<string> {
    set id | id in ids
  }

  lemma IdSetSnoc(ids: seq<string>, id: string)
    ensures IdSet(ids + [id]) == IdSet(ids) + {id}
  {
  }

  /** The completed ids among some of the keys. */
  function CompletedIdsAmong(m: map<string, TodoItem>, userId: string, ks: set<string>): set<string> {
    set k | k in ks && k in m && m[k].userId == userId && m[k].completedAt.Some? :: m[k].id
  }

  lemma CompletedIdsAmongAdd(m: map<string, TodoItem>, userId: string, ks: set<string>, k: string)
    requires k in m
    ensures CompletedIdsAmong(m, userId, ks + {k})
            == CompletedIdsAmong(m, userId, ks)
               + (if m[k].userId == userId && m[k].completedAt.Some? then {m[k].id} else {})
  {
  }

  /** With every item stored under its own id, `/todo done` completes exactly
      the listed item: that one entry changes, and only its completion time,
      and it leaves the caller's open items. */
  lemma {:induction false} DoneMarksListedItem(m: map<string, TodoItem>, userId: string,
                                               shown: seq<TodoItem>, i: nat, now: int)
    requires KeyedById(m)
    requires multiset(shown) == OpenValues(m, userId)
    requires i < |shown|
    ensures shown[i].id in m && m[shown[i].id] == shown[i]
    ensures MarkDone(m, shown[i].id, now) == m[shown[i].id := shown[i].(completedAt := Some(now))]
    ensures OpenKeys(MarkDone(m, shown[i].id, now), userId) == OpenKeys(m, userId) - {shown[i].id}
  {
    assert shown[i] in multiset(shown);
    ValuesOfMember(m, OpenKeys(m, userId), shown[i]);
    var k :| k in OpenKeys(m, userId) && m[k] == shown[i];
    assert k == shown[i].id;
  }

  /** With every item stored under its own id, `/todo clear` keeps an entry
      exactly when it is not one of the caller's completed items. */
  lemma {:induction false} ClearRemovesCompleted(m: map<string, TodoItem>, userId: string, k: string)
    requires KeyedById(m)
    ensures k in m - CompletedIds(m, userId) <==> k in m && !(m[k].userId == userId && m[k].completedAt.Some?)
  {
    if k in m && m[k].userId == userId && m[k].completedAt.Some? {
      assert m[k].id in CompletedIds(m, userId);
    }
  }
}
