/** The older delivery loop: the same tick, with the message built inline.
    A successful model answer is sent as it is, without the mention line the
    service adds; a failure sends the same fallback text. */
module LegacyNotificationLoop {
  import opened Wrappers
  import opened Text
  import opened Reminders
  import NotificationService
  import NotificationLoop

  /** The inline message of `send_message`. The structured input and the
      fallback are the ones the service builds. */
  function LegacyMessage(r: Reminder, llm: NotificationService.Llm): (m: string)
    requires r.notificationTimes != []
    ensures llm(NotificationService.StructuredInput(r), NotificationService.NOTIFICATION_MESSAGE_MODE).Ok? ==>
              m == llm(NotificationService.StructuredInput(r), NotificationService.NOTIFICATION_MESSAGE_MODE).value
    ensures llm(NotificationService.StructuredInput(r), NotificationService.NOTIFICATION_MESSAGE_MODE).Err? ==>
              m == NotificationService.FallbackMessage(r)
  {
    match llm(NotificationService.StructuredInput(r), NotificationService.NOTIFICATION_MESSAGE_MODE)
    case Ok(body) => body
    case Err(_) => NotificationService.FallbackMessage(r)
  }

  /** `send_message`: an unparsable channel means no model call and no send. */
  function SendMessage(r: Reminder, llm: NotificationService.Llm): (d: Option<NotificationLoop.Delivery>)
    requires r.notificationTimes != []
    ensures d.None? <==> ParseU64(r.channel).None?
    ensures d.Some? ==> d.value.channel == ParseU64(r.channel).value
    ensures d.Some? ==> d.value.message == LegacyMessage(r, llm)
  {
    match ParseU64(r.channel)
    case None => None
    case Some(channel) => Some(NotificationLoop.Delivery(channel, LegacyMessage(r, llm)))
  }

  function Sender(llm: NotificationService.Llm): Reminder --> Option<NotificationLoop.Delivery> {
    (r: Reminder) requires r.notificationTimes != [] => SendMessage(r, llm)
  }

  /** One tick of this `run_notification_loop`: the shared tick semantics. */
  method RunTick(db: ReminderDb, now: int, llm: NotificationService.Llm) returns (sent: map<string, NotificationLoop.Delivery>)
    modifies db
    ensures db.entries == NotificationLoop.TickEntries(old(db.entries), now)
    ensures sent == NotificationLoop.Deliveries(old(db.entries), old(db.entries).Keys, now, Sender(llm))
  {
    sent := NotificationLoop.Tick(db, now, Sender(llm));
  }

  /** The two loops differ only in the text: the service prefixes the mention
      line to a successful answer, this loop does not. */
  lemma {:induction false} LoopsDifferInMentionLine(r: Reminder, llm: NotificationService.Llm)
    requires r.notificationTimes != [] && ParseU64(r.channel).Some?
    ensures NotificationLoop.SendMessage(r, llm).value.channel == SendMessage(r, llm).value.channel
    ensures llm(NotificationService.StructuredInput(r), NotificationService.NOTIFICATION_MESSAGE_MODE).Ok? ==>
              NotificationLoop.SendMessage(r, llm).value.message
              == Join(NotificationService.Mentions(r.notify), ", ") + "\n" + SendMessage(r, llm).value.message
    ensures llm(NotificationService.StructuredInput(r), NotificationService.NOTIFICATION_MESSAGE_MODE).Err? ==>
              NotificationLoop.SendMessage(r, llm).value.message == SendMessage(r, llm).value.message
  {
  }
}
