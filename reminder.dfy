/** Reminders and their creation: the recipients come from splitting the
    notify string on `,`, and the notification times are one day and one hour
    before the target time, in ascending order. */
module Reminders {
  import opened Wrappers
  import opened Text
  import opened Sorting

  datatype Reminder = Reminder(id: string, content: string, notify: seq<string>,
                               notificationTimes: seq<int>, channel: string)

  /** The model's parsed answer to a notification request: what to remind of
      and when (`AIReminder`; the notification flows parse the same shape). */
  datatype AINotification = AINotification(content: string, time: int)

  /** The persistence layer's error; only its occurrence matters here. */
  datatype DbError = SaveFailed

  /** The text a failed save is reported with (the persistence library's own
      wording is not part of this model). */
  function ErrorText(e: DbError): string {
    "failed to save the database"
  }

  /** `get_db_location`: the `DB_LOCATION` environment value, or "./data". */
  function GetDbLocation(dbLocationEnv: Option<string>): (r: string)
    ensures dbLocationEnv.Some? ==> r == dbLocationEnv.value
    ensures dbLocationEnv.None? ==> r == "./data"
  {
    match dbLocationEnv
    case Some(v) => v
    case None => "./data"
  }

  ghost predicate Ascending(times: seq<int>) {
    forall i, j :: 0 <= i < j < |times| ==> times[i] < times[j]
  }

  /** The reminder `create_reminder` stores: the two pushed times sorted. */
  function NewReminder(id: string, content: string, notifyUsers: string, expiresAt: int, channel: string): (r: Reminder)
    ensures r.id == id && r.content == content && r.channel == channel
    ensures r.notify == Split(notifyUsers, ',')
    ensures r.notificationTimes == [expiresAt - DAY, expiresAt - HOUR]
  {
    var times := SortByKey([expiresAt - HOUR, expiresAt - DAY], Identity);
    SortTwo(expiresAt - DAY, expiresAt - HOUR, times);
    Reminder(id, content, Split(notifyUsers, ','), times, channel)
  }

  /** A sorted permutation of two ordered values is those two values in order. */
  lemma {:induction false} SortTwo(a: int, b: int, s: seq<int>)
    requires a < b
    requires multiset(s) == multiset([b, a]) && SortedBy(s, Identity)
    ensures s == [a, b]
  {
    assert |s| == 2 by {
      assert |multiset(s)| == |s|;
    }
    assert s[0] in multiset([b, a]) && s[1] in multiset([b, a]);
    assert Identity(s[0]) <= Identity(s[1]);
  }

  /** The recipients recorded for a reminder join back into the notify string. */
  lemma {:induction false} RecipientsRoundTrip(id: string, content: string, notifyUsers: string, expiresAt: int, channel: string)
    ensures Join(NewReminder(id, content, notifyUsers, expiresAt, channel).notify, ",") == notifyUsers
  {
    JoinSplit(notifyUsers, ',');
  }

  /** A new reminder's times are strictly ascending and both before the target. */
  lemma {:induction false} NewReminderTimesAscending(id: string, content: string, notifyUsers: string, expiresAt: int, channel: string)
    ensures Ascending(NewReminder(id, content, notifyUsers, expiresAt, channel).notificationTimes)
    ensures forall t :: t in NewReminder(id, content, notifyUsers, expiresAt, channel).notificationTimes ==> t < expiresAt
  {
  }

  /** The reminder store, a map from id to reminder updated in place. */
  class ReminderDb {
    var entries: map<string, Reminder>

    constructor ()
      ensures entries == map[]
    {
      entries := map[];
    }

    /** Every stored reminder carries its own key as its id. */
    ghost predicate IdsMatchKeys()
      reads this
    {
      forall k :: k in entries ==> entries[k].id == k
    }

    /** `create_reminder`: inserts one reminder under `freshId` (the new UUID)
        and reports the save outcome; a failed save keeps the insert. */
    method CreateReminder(content: string, notifyUsers: string, expiresAt: int, channel: string,
                          freshId: string, saveOk: bool)
      returns (r: Result<(), DbError>)
      modifies this
      ensures entries == old(entries)[freshId := NewReminder(freshId, content, notifyUsers, expiresAt, channel)]
      ensures r.Ok? <==> saveOk
      ensures old(IdsMatchKeys()) ==> IdsMatchKeys()
    {
      var users := Split(notifyUsers, ',');
      var times: seq<int> := [];
      times := times + [expiresAt - HOUR];
      times := times + [expiresAt - DAY];
      times := SortByKey(times, Identity);
      entries := entries[freshId := Reminder(freshId, content, users, times, channel)];
      r := if saveOk then Ok(()) else Err(SaveFailed);
    }
  }
}
