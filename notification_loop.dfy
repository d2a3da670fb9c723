/** One tick of the reminder delivery loop: every reminder whose first time
    has passed (strictly) is announced and loses exactly that time; a
    reminder is removed only by a tick that finds its list already empty.
    The tick is shared by both delivery loops; each supplies how one
    reminder is sent. */
module NotificationLoop {
  import opened Wrappers
  import opened Text
  import opened Reminders
  import NotificationService

  /** A message handed to the chat platform for a parsed channel id. */
  datatype Delivery = Delivery(channel: nat, message: string)

  /** The first notification time is due: strictly before `now`. */
  predicate Fires(r: Reminder, now: int) {
    r.notificationTimes != [] && r.notificationTimes[0] < now
  }

  /** A reminder after the tick's scan: a due time is popped from the front. */
  function Ticked(r: Reminder, now: int): (t: Reminder)
    ensures t.id == r.id && t.content == r.content && t.notify == r.notify && t.channel == r.channel
    ensures Fires(r, now) ==> t.notificationTimes == r.notificationTimes[1..]
    ensures !Fires(r, now) ==> t.notificationTimes == r.notificationTimes
  {
    if Fires(r, now) then r.(notificationTimes := r.notificationTimes[1..]) else r
  }

  /** The ids the scan of `keys` collects: the `id` fields of reminders whose
      list is empty. The second loop removes these ids as keys. */
  function ExpiredIds(m: map<string, Reminder>, keys: set<string>): set<string> {
    set k | k in keys && k in m && m[k].notificationTimes == [] :: m[k].id
  }

  /** The messages the scan of `keys` sends, by reminder key. */
  function Deliveries(m: map<string, Reminder>, keys: set<string>, now: int,
                      send: Reminder --> Option<Delivery>): map<string, Delivery>
    requires forall r: Reminder :: r.notificationTimes != [] ==> send.requires(r)
  {
    map k | k in keys && k in m && Fires(m[k], now) && send(m[k]).Some? :: send(m[k]).value
  }

  /** The store after a whole tick. */
  function TickEntries(m: map<string, Reminder>, now: int): map<string, Reminder> {
    map k | k in m && k !in ExpiredIds(m, m.Keys) :: Ticked(m[k], now)
  }

  predicate IdsMatch(m: map<string, Reminder>) {
    forall k :: k in m ==> m[k].id == k
  }

  /** One tick over the store. The scan visits the keys in an unspecified
      order, as a hash map does. */
  method Tick(db: ReminderDb, now: int, send: Reminder --> Option<Delivery>) returns (sent: map<string, Delivery>)
    requires forall r: Reminder :: r.notificationTimes != [] ==> send.requires(r)
    modifies db
    ensures db.entries == TickEntries(old(db.entries), now)
    ensures sent == Deliveries(old(db.entries), old(db.entries).Keys, now, send)
  {
    ghost var start := db.entries;
    var expired;
    expired, sent := Scan(db, now, send);
    ghost var scanned := db.entries;
    RemoveKeys(db, expired);
    RemovingExpiredGivesTick(start, scanned, expired, now);
  }

  /** The first loop: pops due times, sends, and collects the ids of
      reminders with no time left. */
  method Scan(db: ReminderDb, now: int, send: Reminder --> Option<Delivery>)
    returns (expired: seq<string>, sent: map<string, Delivery>)
    requires forall r: Reminder :: r.notificationTimes != [] ==> send.requires(r)
    modifies db
    ensures db.entries.Keys == old(db.entries).Keys
    ensures forall k :: k in old(db.entries) ==> db.entries[k] == Ticked(old(db.entries)[k], now)
    ensures forall x :: x in expired <==> x in ExpiredIds(old(db.entries), old(db.entries).Keys)
    ensures sent == Deliveries(old(db.entries), old(db.entries).Keys, now, send)
  {
    ghost var start := db.entries;
    var remaining := db.entries.Keys;
    expired := [];
    sent := map[];
    while remaining != {}
      invariant remaining <= start.Keys && db.entries.Keys == start.Keys
      invariant forall k :: k in start && k !in remaining ==> db.entries[k] == Ticked(start[k], now)
      invariant forall k :: k in remaining ==> db.entries[k] == start[k]
      invariant forall x :: x in expired <==> x in ExpiredIds(start, start.Keys - remaining)
      invariant sent == Deliveries(start, start.Keys - remaining, now, send)
      decreases remaining
    {
      var k :| k in remaining;
      ghost var done := start.Keys - remaining;
      var reminder := db.entries[k];
      if |reminder.notificationTimes| == 0 {
        expired := expired + [reminder.id];
      } else if reminder.notificationTimes[0] < now {
        var delivery := send(reminder);
        if delivery.Some? {
          sent := sent[k := delivery.value];
        }
        db.entries := db.entries[k := reminder.(notificationTimes := reminder.notificationTimes[1..])];
      }
      remaining := remaining - {k};
      assert start.Keys - remaining == done + {k};
      ExpiredIdsStep(start, done, k);
      DeliveriesStep(start, done, k, now, send);
    }
  }

  /** The second loop: `db.remove` of each collected id. */
  method RemoveKeys(db: ReminderDb, ids: seq<string>)
    modifies db
    ensures db.entries == map k | k in old(db.entries) && k !in ids :: old(db.entries)[k]
  {
    ghost var before := db.entries;
    var i := 0;
    while i < |ids|
      invariant 0 <= i <= |ids|
      invariant db.entries == map k | k in before && k !in ids[..i] :: before[k]
    {
      db.entries := db.entries - {ids[i]};
      assert ids[..i + 1] == ids[..i] + [ids[i]];
      i := i + 1;
    }
    assert ids[..i] == ids;
  }

  lemma {:induction false} ExpiredIdsStep(m: map<string, Reminder>, done: set<string>, k: string)
    requires k in m
    ensures ExpiredIds(m, done + {k})
            == ExpiredIds(m, done) + (if m[k].notificationTimes == [] then {m[k].id} else {})
  {
  }

  lemma {:induction false} DeliveriesStep(m: map<string, Reminder>, done: set<string>, k: string, now: int,
                                          send: Reminder --> Option<Delivery>)
    requires forall r: Reminder :: r.notificationTimes != [] ==> send.requires(r)
    requires k in m && k !in done
    ensures Deliveries(m, done + {k}, now, send)
            == if Fires(m[k], now) && send(m[k]).Some?
               then Deliveries(m, done, now, send)[k := send(m[k]).value]
               else Deliveries(m, done, now, send)
  {
  }

  lemma {:induction false} RemovingExpiredGivesTick(start: map<string, Reminder>, scanned: map<string, Reminder>,
                                                    expired: seq<string>, now: int)
    requires scanned.Keys == start.Keys
    requires forall k :: k in start ==> scanned[k] == Ticked(start[k], now)
    requires forall x :: x in expired <==> x in ExpiredIds(start, start.Keys)
    ensures (map k | k in scanned && k !in expired :: scanned[k]) == TickEntries(start, now)
  {
  }

  // ------------------------------------------------------------- properties

  /** Under matching ids, a tick deletes exactly the reminders whose list was
      already empty when it started, and keeps the ids matching. */
  lemma {:induction false} TickDeletesOnlyEmpty(m: map<string, Reminder>, now: int)
    requires IdsMatch(m)
    ensures forall k :: k in m ==> (k in TickEntries(m, now) <==> m[k].notificationTimes != [])
    ensures IdsMatch(TickEntries(m, now))
  {
    forall k | k in m
      ensures k in ExpiredIds(m, m.Keys) <==> m[k].notificationTimes == []
    {
      if k in ExpiredIds(m, m.Keys) {
        var k' :| k' in m && m[k'].notificationTimes == [] && m[k'].id == k;
        assert k' == k;
      }
    }
  }

  /** A reminder emptied by this tick's pop survives until the next tick. */
  lemma {:induction false} EmptiedReminderSurvives(m: map<string, Reminder>, now: int, k: string)
    requires IdsMatch(m) && k in m && |m[k].notificationTimes| == 1 && Fires(m[k], now)
    ensures k in TickEntries(m, now) && TickEntries(m, now)[k].notificationTimes == []
    ensures k !in TickEntries(TickEntries(m, now), now)
  {
    TickDeletesOnlyEmpty(m, now);
    TickDeletesOnlyEmpty(TickEntries(m, now), now);
  }

  /** Popping the front keeps ascending times ascending. */
  lemma {:induction false} TickKeepsAscending(m: map<string, Reminder>, now: int)
    requires forall k :: k in m ==> Ascending(m[k].notificationTimes)
    ensures forall k :: k in TickEntries(m, now) ==> Ascending(TickEntries(m, now)[k].notificationTimes)
  {
    forall k | k in TickEntries(m, now) ensures Ascending(TickEntries(m, now)[k].notificationTimes) {
      var t := m[k].notificationTimes;
      if Fires(m[k], now) {
        assert TickEntries(m, now)[k].notificationTimes == t[1..];
        forall i, j | 0 <= i < j < |t| - 1 ensures t[1..][i] < t[1..][j] {
          assert t[1..][i] == t[i + 1] && t[1..][j] == t[j + 1];
        }
      }
    }
  }

  /** `n` ticks at the same `now`. */
  function TickN(m: map<string, Reminder>, now: int, n: nat): map<string, Reminder>
    decreases n
  {
    if n == 0 then m else TickN(TickEntries(m, now), now, n - 1)
  }

  /** A reminder whose times have all passed is announced once per tick: it is
      still stored, with no time left, after as many ticks as it had times,
      and gone one tick later. */
  lemma {:induction false} ReminderLifetime(m: map<string, Reminder>, now: int, k: string)
    requires IdsMatch(m) && k in m
    requires forall t :: t in m[k].notificationTimes ==> t < now
    ensures k in TickN(m, now, |m[k].notificationTimes|)
    ensures TickN(m, now, |m[k].notificationTimes|)[k].notificationTimes == []
    ensures k !in TickN(m, now, |m[k].notificationTimes| + 1)
    decreases |m[k].notificationTimes|
  {
    var n := |m[k].notificationTimes|;
    if n == 0 {
      TickDeletesOnlyEmpty(m, now);
      assert TickN(m, now, 1) == TickN(TickEntries(m, now), now, 0);
    } else {
      TickDeletesOnlyEmpty(m, now);
      var m' := TickEntries(m, now);
      assert m[k].notificationTimes[0] in m[k].notificationTimes;
      assert m'[k].notificationTimes == m[k].notificationTimes[1..];
      assert forall t :: t in m'[k].notificationTimes ==> t in m[k].notificationTimes;
      ReminderLifetime(m', now, k);
      assert TickN(m, now, n) == TickN(m', now, n - 1);
      assert TickN(m, now, n + 1) == TickN(m', now, n);
    }
  }

  // ------------------------------------------------- src/tasks/notification_loop.rs

  /** `send_message`: nothing is built or sent when the channel is not a
      64-bit number; otherwise the service's message goes to that channel. */
  function SendMessage(r: Reminder, llm: NotificationService.Llm): (d: Option<Delivery>)
    requires r.notificationTimes != []
    ensures d.None? <==> ParseU64(r.channel).None?
    ensures d.Some? ==> d.value.channel == ParseU64(r.channel).value
    ensures d.Some? ==> d.value.message == NotificationService.BuildMessage(r, llm)
  {
    match ParseU64(r.channel)
    case None => None
    case Some(channel) => Some(Delivery(channel, NotificationService.BuildMessage(r, llm)))
  }

  /** The sending step the tick of this loop uses. */
  function Sender(llm: NotificationService.Llm): Reminder --> Option<Delivery> {
    (r: Reminder) requires r.notificationTimes != [] => SendMessage(r, llm)
  }

  /** One tick of `run_notification_loop`. */
  method RunTick(db: ReminderDb, now: int, llm: NotificationService.Llm) returns (sent: map<string, Delivery>)
    modifies db
    ensures db.entries == TickEntries(old(db.entries), now)
    ensures sent == Deliveries(old(db.entries), old(db.entries).Keys, now, Sender(llm))
  {
    sent := Tick(db, now, Sender(llm));
  }

  /** A due reminder with an unusable channel sends nothing, yet its time is
      popped all the same. */
  lemma {:induction false} BadChannelStillPops(m: map<string, Reminder>, now: int, llm: NotificationService.Llm, k: string)
    requires IdsMatch(m) && k in m && Fires(m[k], now) && ParseU64(m[k].channel).None?
    ensures k !in Deliveries(m, m.Keys, now, Sender(llm))
    ensures k in TickEntries(m, now) && TickEntries(m, now)[k].notificationTimes == m[k].notificationTimes[1..]
  {
    TickDeletesOnlyEmpty(m, now);
  }
}
