/** `NotificationMessageService::build_message`: the message for a stored
    notification, from the model when it gives a non-blank answer and a
    fixed line otherwise. The stored notification has the fields of a
    reminder, so `Reminder` stands for it. */
module NotificationMessageService {
  import opened Wrappers
  import opened Text
  import opened Reminders
  import NotificationService

  /** The record serialized for the model. */
  datatype MessageContext = MessageContext(content: string, eventTime: int,
                                           nextNotificationTime: Option<int>, hoursRemaining: Option<int>)

  /** The context for a notification with at least one time, at `now`. */
  function ContextFor(n: Reminder, now: int): (c: MessageContext)
    requires n.notificationTimes != []
    ensures c.content == n.content
    ensures c.eventTime == n.notificationTimes[|n.notificationTimes| - 1]
    ensures c.nextNotificationTime == Some(n.notificationTimes[0])
    ensures c.hoursRemaining == Some(NotificationService.NumHours(n.notificationTimes[0] - now))
  {
    var eventTime := n.notificationTimes[|n.notificationTimes| - 1];
    var nextTime := n.notificationTimes[0];
    MessageContext(n.content, eventTime, Some(nextTime), Some(NotificationService.NumHours(nextTime - now)))
  }

  /** "Notification: {content} at {event_time}". */
  function FallbackLine(content: string, eventTime: int): string {
    "Notification: " + content + " at " + TimeText(eventTime)
  }

  /** `build_message`: `serialize` is the JSON encoding of the context (which
      can fail), `llm` the model call. */
  function BuildMessage(n: Reminder, now: int, serialize: MessageContext -> Option<string>,
                        llm: NotificationService.Llm): (m: string)
    ensures n.notificationTimes == [] ==> m == "Notification: " + n.content
    ensures n.notificationTimes != [] ==>
              var answer := serialize(ContextFor(n, now));
              var reply := if answer.Some? then llm(answer.value, NotificationService.NOTIFICATION_MESSAGE_MODE) else Err("");
              if answer.Some? && reply.Ok? && !IsBlank(reply.value) then m == reply.value
              else m == FallbackLine(n.content, n.notificationTimes[|n.notificationTimes| - 1])
  {
    if n.notificationTimes == [] then "Notification: " + n.content
    else
      var context := ContextFor(n, now);
      match serialize(context)
      case None => FallbackLine(n.content, context.eventTime)
      case Some(structured) =>
        match llm(structured, NotificationService.NOTIFICATION_MESSAGE_MODE)
        case Ok(body) =>
          if !IsBlank(body) then body else FallbackLine(n.content, context.eventTime)
        case Err(_) => FallbackLine(n.content, context.eventTime)
  }

  // ------------------------------------------------------------- properties

  /** A line that starts with "Notification: " is not blank. */
  lemma NotificationLineNotBlank(s: string)
    requires StartsWith(s, "Notification: ")
    ensures !IsBlank(s)
  {
    BlankIffAllWhitespace(s);
    assert s[0] == 'N';
  }

  /** The message is never blank: either the model's non-blank answer or a
      line that names the content. */
  lemma {:induction false} MessageNeverBlank(n: Reminder, now: int, serialize: MessageContext -> Option<string>,
                                             llm: NotificationService.Llm)
    ensures !IsBlank(BuildMessage(n, now, serialize, llm))
  {
    var m := BuildMessage(n, now, serialize, llm);
    if n.notificationTimes == [] {
      assert m == "Notification: " + n.content;
      NotificationLineNotBlank(m);
    } else {
      var context := ContextFor(n, now);
      var answer := serialize(context);
      if answer.Some? && llm(answer.value, NotificationService.NOTIFICATION_MESSAGE_MODE).Ok?
         && !IsBlank(llm(answer.value, NotificationService.NOTIFICATION_MESSAGE_MODE).value) {
        assert m == llm(answer.value, NotificationService.NOTIFICATION_MESSAGE_MODE).value;
      } else {
        assert m == FallbackLine(n.content, context.eventTime);
        NotificationLineNotBlank(m);
      }
    }
  }

  /** Every message that is not the model's own answer names the content. */
  lemma {:induction false} FallbackNamesContent(n: Reminder, now: int, serialize: MessageContext -> Option<string>,
                                                llm: NotificationService.Llm)
    requires n.notificationTimes == [] || serialize(ContextFor(n, now)).None?
             || llm(serialize(ContextFor(n, now)).value, NotificationService.NOTIFICATION_MESSAGE_MODE).Err?
             || IsBlank(llm(serialize(ContextFor(n, now)).value, NotificationService.NOTIFICATION_MESSAGE_MODE).value)
    ensures Contains(BuildMessage(n, now, serialize, llm), n.content)
  {
    if n.notificationTimes == [] {
      ContainsMiddle("Notification: ", n.content, "");
      assert "Notification: " + n.content + "" == "Notification: " + n.content;
    } else {
      var e := n.notificationTimes[|n.notificationTimes| - 1];
      ContainsMiddle("Notification: ", n.content, " at " + TimeText(e));
      assert FallbackLine(n.content, e) == "Notification: " + n.content + (" at " + TimeText(e));
    }
  }
}
