/** `NotificationService::build_message`: the text sent when a reminder
    fires, written by the language model from a structured summary, with a
    fixed fallback when the model fails. */
module NotificationService {
  import opened Wrappers
  import opened Text
  import opened Reminders

  /** One call of `generate_prompt(prompt, prompt_type)`. */
  type Llm = (string, string) -> Result<string, string>

  const NOTIFICATION_MESSAGE_MODE: string := "notification_message"

  /** chrono's `num_hours`: whole hours, truncated toward zero. */
  function NumHours(seconds: int): (h: int)
    ensures seconds >= 0 ==> h >= 0 && h * HOUR <= seconds < (h + 1) * HOUR
    ensures seconds < 0 ==> h <= 0 && -h * HOUR <= -seconds < (-h + 1) * HOUR
  {
    if seconds >= 0 then seconds / HOUR else -((-seconds) / HOUR)
  }

  /** Whole hours from the first to the last notification time; 0 when empty. */
  function HoursRemaining(times: seq<int>): (h: int)
    ensures times == [] ==> h == 0
    ensures times != [] ==> h == NumHours(times[|times| - 1] - times[0])
  {
    if times == [] then 0 else NumHours(times[|times| - 1] - times[0])
  }

  /** Each recipient wrapped as a mention, in order. */
  function Mentions(users: seq<string>): (m: seq<string>)
    ensures |m| == |users|
    ensures forall i :: 0 <= i < |users| ==> m[i] == "<" + users[i] + ">"
  {
    seq(|users|, i requires 0 <= i < |users| => "<" + users[i] + ">")
  }

  /** The prompt handed to the model. */
  function StructuredInput(r: Reminder): string
    requires r.notificationTimes != []
  {
    "users: " + Join(Mentions(r.notify), ", ")
    + "\ncontent: " + r.content
    + "\nevent_time: " + TimeText(r.notificationTimes[|r.notificationTimes| - 1])
    + "\nhours_remaining: " + IntToString(HoursRemaining(r.notificationTimes))
  }

  /** The text used when the model fails (mentions joined by "," here). */
  function FallbackMessage(r: Reminder): string
    requires r.notificationTimes != []
  {
    Join(Mentions(r.notify), ",")
    + "\n You have an upcoming event at " + TimeText(r.notificationTimes[|r.notificationTimes| - 1])
    + "\n " + r.content
    + "\n Hours remaining: " + IntToString(HoursRemaining(r.notificationTimes))
  }

  /** `build_message`. The event time is the last notification time, so the
      reminder must have one (`last().unwrap()`). */
  function BuildMessage(r: Reminder, llm: Llm): (m: string)
    requires r.notificationTimes != []
    ensures llm(StructuredInput(r), NOTIFICATION_MESSAGE_MODE).Ok? ==>
              m == Join(Mentions(r.notify), ", ") + "\n" + llm(StructuredInput(r), NOTIFICATION_MESSAGE_MODE).value
    ensures llm(StructuredInput(r), NOTIFICATION_MESSAGE_MODE).Err? ==> m == FallbackMessage(r)
  {
    match llm(StructuredInput(r), NOTIFICATION_MESSAGE_MODE)
    case Ok(body) => Join(Mentions(r.notify), ", ") + "\n" + body
    case Err(_) => FallbackMessage(r)
  }

  // ------------------------------------------------------------- properties

  /** Every part of a joined list occurs in the joined text. */
  lemma {:induction false} JoinContainsPart(parts: seq<string>, sep: string, i: int)
    requires 0 <= i < |parts|
    ensures Contains(Join(parts, sep), parts[i])
    decreases |parts|
  {
    if |parts| == 1 {
      assert StartsWith(parts[0], parts[0]);
    } else if i == 0 {
      assert StartsWith(parts[0], parts[0]);
      ContainsInPrefix(parts[0], sep + Join(parts[1..], sep), parts[0]);
      assert Join(parts, sep) == parts[0] + (sep + Join(parts[1..], sep));
    } else {
      JoinContainsPart(parts[1..], sep, i - 1);
      ContainsInSuffix(parts[0] + sep, Join(parts[1..], sep), parts[i]);
      assert Join(parts, sep) == (parts[0] + sep) + Join(parts[1..], sep);
    }
  }

  /** Whichever way the model answers, every recipient is mentioned. */
  lemma {:induction false} MessageMentionsEveryone(r: Reminder, llm: Llm, i: int)
    requires r.notificationTimes != [] && 0 <= i < |r.notify|
    ensures Contains(BuildMessage(r, llm), "<" + r.notify[i] + ">")
  {
    var ms := Mentions(r.notify);
    if llm(StructuredInput(r), NOTIFICATION_MESSAGE_MODE).Ok? {
      var body := llm(StructuredInput(r), NOTIFICATION_MESSAGE_MODE).value;
      JoinContainsPart(ms, ", ", i);
      ContainsInPrefix(Join(ms, ", "), "\n" + body, ms[i]);
      assert BuildMessage(r, llm) == Join(ms, ", ") + ("\n" + body);
    } else {
      JoinContainsPart(ms, ",", i);
      var rest := FallbackMessage(r)[|Join(ms, ",")|..];
      assert FallbackMessage(r) == Join(ms, ",") + rest;
      ContainsInPrefix(Join(ms, ","), rest, ms[i]);
    }
  }

  /** A successful answer is carried whole. */
  lemma {:induction false} SuccessCarriesBody(r: Reminder, llm: Llm)
    requires r.notificationTimes != [] && llm(StructuredInput(r), NOTIFICATION_MESSAGE_MODE).Ok?
    ensures Contains(BuildMessage(r, llm), llm(StructuredInput(r), NOTIFICATION_MESSAGE_MODE).value)
  {
    var body := llm(StructuredInput(r), NOTIFICATION_MESSAGE_MODE).value;
    assert StartsWith(body, body);
    ContainsInSuffix(Join(Mentions(r.notify), ", ") + "\n", body, body);
  }

  /** The fallback, sent when the call fails, names the content and the
      hours remaining. */
  lemma {:induction false} FallbackNamesContentAndHours(r: Reminder)
    requires r.notificationTimes != []
    ensures Contains(FallbackMessage(r), r.content)
    ensures Contains(FallbackMessage(r), "Hours remaining")
  {
    var head := Join(Mentions(r.notify), ",")
      + "\n You have an upcoming event at " + TimeText(r.notificationTimes[|r.notificationTimes| - 1]) + "\n ";
    var hours := IntToString(HoursRemaining(r.notificationTimes));
    var caption := "\n Hours remaining: ";
    assert FallbackMessage(r) == head + r.content + caption + hours;
    assert StartsWith(r.content, r.content);
    ContainsInSuffix(head, r.content, r.content);
    ContainsInPrefix(head + r.content, caption, r.content);
    ContainsInPrefix(head + r.content + caption, hours, r.content);
    assert caption == "\n " + "Hours remaining" + ": ";
    ContainsMiddle("\n ", "Hours remaining", ": ");
    ContainsInSuffix(head + r.content, caption, "Hours remaining");
    ContainsInPrefix(head + r.content + caption, hours, "Hours remaining");
  }

  /** The prompt's users line, then everything after it. */
  lemma StructuredInputUsersFirst(r: Reminder)
    requires r.notificationTimes != []
    ensures var prefix := "users: " + Join(Mentions(r.notify), ", ");
            |prefix| <= |StructuredInput(r)| && StructuredInput(r) == prefix + StructuredInput(r)[|prefix|..]
  {
  }

  /** The prompt holds the content between its captions. */
  lemma StructuredInputHasContent(r: Reminder)
    requires r.notificationTimes != []
    ensures Contains(StructuredInput(r), r.content)
  {
    var head := "users: " + Join(Mentions(r.notify), ", ") + "\ncontent: ";
    var tail := "\nevent_time: " + TimeText(r.notificationTimes[|r.notificationTimes| - 1])
      + "\nhours_remaining: " + IntToString(HoursRemaining(r.notificationTimes));
    assert StructuredInput(r) == head + r.content + tail;
    ContainsMiddle(head, r.content, tail);
  }

  /** The prompt handed to the model names every recipient and the content. */
  lemma {:induction false} StructuredInputCarries(r: Reminder, i: int)
    requires r.notificationTimes != [] && 0 <= i < |r.notify|
    ensures Contains(StructuredInput(r), "<" + r.notify[i] + ">")
    ensures Contains(StructuredInput(r), r.content)
  {
    StructuredInputHasContent(r);
    var users := Join(Mentions(r.notify), ", ");
    JoinContainsPart(Mentions(r.notify), ", ", i);
    ContainsInSuffix("users: ", users, Mentions(r.notify)[i]);
    StructuredInputUsersFirst(r);
    var prefix := "users: " + users;
    ContainsInPrefix(prefix, StructuredInput(r)[|prefix|..], Mentions(r.notify)[i]);
  }

  /** A fresh reminder fires first a day ahead, 23 hours before its event. */
  lemma {:induction false} FreshReminderHours(id: string, content: string, notifyUsers: string, expiresAt: int, channel: string)
    ensures HoursRemaining(NewReminder(id, content, notifyUsers, expiresAt, channel).notificationTimes) == 23
    ensures HoursRemaining(NewReminder(id, content, notifyUsers, expiresAt, channel).notificationTimes[1..]) == 0
  {
  }
}
