/** The daily todo summary: every user with open items gets one direct
    message listing them in creation order; the first failed message ends
    the tick, and the database is saved (not changed) at the end. */
module TodoLoop {
  import opened Wrappers
  import opened Text
  import opened Sorting
  import opened Maps
  import opened Todo
  import Reminders

  const SUMMARY_HEADER: string := "Good morning! Here is your current todo list:\n"

  /** A direct message sent by the tick. */
  datatype Dm = Dm(userId: string, body: string)

  /** The users with at least one open item. */
  function OpenOwners(m: map<string, TodoItem>): set<string> {
    set k | k in m && m[k].completedAt.None? :: m[k].userId
  }

  /** The keys of a user's open items among some of the keys. */
  function OpenKeysAmong(m: map<string, TodoItem>, userId: string, ks: set<string>): (r: set<string>)
    ensures r <= m.Keys
  {
    set k | k in ks && k in m && IsOpenFor(m[k], userId)
  }

  lemma OpenKeysAmongAll(m: map<string, TodoItem>, userId: string)
    ensures OpenKeysAmong(m, userId, m.Keys) == OpenKeys(m, userId)
  {
  }

  /** A user owns open items exactly when that user has open keys. */
  lemma {:induction false} OwnersHaveOpenKeys(m: map<string, TodoItem>, userId: string)
    ensures userId in OpenOwners(m) <==> OpenKeys(m, userId) != {}
  {
    if userId in OpenOwners(m) {
      var k :| k in m && m[k].completedAt.None? && m[k].userId == userId;
      assert k in OpenKeys(m, userId);
    }
    if OpenKeys(m, userId) != {} {
      var k :| k in OpenKeys(m, userId);
      assert m[k].userId in OpenOwners(m);
    }
  }

  /** The body of one user's summary: some creation-ordered arrangement of
      exactly that user's open items, listed under the greeting. */
  ghost predicate IsSummaryOf(m: map<string, TodoItem>, userId: string, body: string) {
    exists items: seq<TodoItem> {:trigger Listing(SUMMARY_HEADER, items)} ::
      && items != []
      && SortedBy(items, CreatedAt)
      && multiset(items) == OpenValues(m, userId)
      && body == Listing(SUMMARY_HEADER, items)
  }

  /** Every message is a summary of its user's open items. */
  ghost predicate AllSummaries(m: map<string, TodoItem>, dms: seq<Dm>) {
    forall i :: 0 <= i < |dms| ==> IsSummaryOf(m, dms[i].userId, dms[i].body)
  }

  /** Every message went out. */
  ghost predicate AllDelivered(sender: (string, string) -> Result<(), string>, dms: seq<Dm>) {
    forall i :: 0 <= i < |dms| ==> sender(dms[i].userId, dms[i].body).Ok?
  }

  lemma {:induction false} AllSummariesSnoc(m: map<string, TodoItem>, dms: seq<Dm>, dm: Dm)
    requires AllSummaries(m, dms) && IsSummaryOf(m, dm.userId, dm.body)
    ensures AllSummaries(m, dms + [dm])
  {
    var more := dms + [dm];
    assert forall i :: 0 <= i < |dms| ==> more[i] == dms[i];
    assert more[|dms|] == dm;
  }

  lemma {:induction false} AllDeliveredSnoc(sender: (string, string) -> Result<(), string>, dms: seq<Dm>, dm: Dm)
    requires AllDelivered(sender, dms)
    ensures AllDelivered(sender, dms + [dm]) <==> sender(dm.userId, dm.body).Ok?
    ensures AllDelivered(sender, (dms + [dm])[..|dms|])
  {
    var more := dms + [dm];
    assert forall i :: 0 <= i < |dms| ==> more[i] == dms[i];
    assert more[|dms|] == dm;
    assert more[..|dms|] == dms;
  }

  /** No user is messaged twice. */
  ghost predicate DistinctUsers(dms: seq<Dm>) {
    forall i, j :: 0 <= i < j < |dms| ==> dms[i].userId != dms[j].userId
  }

  function UsersOf(dms: seq<Dm>): set<string> {
    set i | 0 <= i < |dms| :: dms[i].userId
  }

  /** `by_user` after visiting some keys: exactly the users with an open
      item among them, each holding those items. */
  ghost predicate Grouped(m: map<string, TodoItem>, byUser: map<string, seq<TodoItem>>, done: set<string>) {
    && (forall u :: u in byUser <==> OpenKeysAmong(m, u, done) != {})
    && (forall u :: u in byUser ==> byUser[u] != [] && multiset(byUser[u]) == ValuesOf(m, OpenKeysAmong(m, u, done)))
  }

  /** `entry(user).or_default().push(item)` for an open item. */
  function Pushed(byUser: map<string, seq<TodoItem>>, item: TodoItem): map<string, seq<TodoItem>> {
    byUser[item.userId := (if item.userId in byUser then byUser[item.userId] else []) + [item]]
  }

  /** Visiting a completed item keeps the grouping. */
  lemma {:induction false} GroupedSkipsCompleted(m: map<string, TodoItem>, byUser: map<string, seq<TodoItem>>,
                                                 done: set<string>, k: string)
    requires done <= m.Keys && k in m && k !in done && m[k].completedAt.Some?
    requires Grouped(m, byUser, done)
    ensures Grouped(m, byUser, done + {k})
  {
    forall u
      ensures OpenKeysAmong(m, u, done + {k}) == OpenKeysAmong(m, u, done)
    {
      SkipsCompletedKey(m, u, done, k);
    }
    forall u | u in byUser
      ensures byUser[u] != [] && multiset(byUser[u]) == ValuesOf(m, OpenKeysAmong(m, u, done + {k}))
    {
      assert OpenKeysAmong(m, u, done + {k}) == OpenKeysAmong(m, u, done);
    }
  }

  /** A completed item is no one's open key. */
  lemma SkipsCompletedKey(m: map<string, TodoItem>, u: string, done: set<string>, k: string)
    requires k in m && m[k].completedAt.Some?
    ensures OpenKeysAmong(m, u, done + {k}) == OpenKeysAmong(m, u, done)
  {
    assert !IsOpenFor(m[k], u);
  }

  /** Visiting an open item adds it to its user's group only. */
  lemma {:induction false} GroupedPushesOpen(m: map<string, TodoItem>, byUser: map<string, seq<TodoItem>>,
                                             done: set<string>, k: string)
    requires done <= m.Keys && k in m && k !in done && m[k].completedAt.None?
    requires Grouped(m, byUser, done)
    ensures Grouped(m, Pushed(byUser, m[k]), done + {k})
  {
    var item := m[k];
    var u := item.userId;
    var pushed := Pushed(byUser, item);
    assert OpenKeysAmong(m, u, done + {k}) == OpenKeysAmong(m, u, done) + {k};
    ValuesOfAdd(m, OpenKeysAmong(m, u, done), k);
    if u !in byUser {
      assert OpenKeysAmong(m, u, done) == {};
    }
    assert multiset(pushed[u]) == ValuesOf(m, OpenKeysAmong(m, u, done + {k}));
    forall v | v != u
      ensures OpenKeysAmong(m, v, done + {k}) == OpenKeysAmong(m, v, done)
    {
    }
    forall v
      ensures v in pushed <==> OpenKeysAmong(m, v, done + {k}) != {}
    {
      if v == u {
        assert k in OpenKeysAmong(m, u, done + {k});
      }
    }
    forall v | v in pushed
      ensures pushed[v] != [] && multiset(pushed[v]) == ValuesOf(m, OpenKeysAmong(m, v, done + {k}))
    {
      if v != u {
        assert pushed[v] == byUser[v];
      }
    }
  }

  /** `by_user`: each user's open items, grouped in whatever order the map
      is visited. */
  method GroupOpenByUser(m: map<string, TodoItem>) returns (byUser: map<string, seq<TodoItem>>)
    ensures Grouped(m, byUser, m.Keys)
  {
    byUser := map[];
    var remaining := m.Keys;
    while remaining != {}
      invariant remaining <= m.Keys
      invariant Grouped(m, byUser, m.Keys - remaining)
      decreases remaining
    {
      var k :| k in remaining;
      assert m.Keys - (remaining - {k}) == (m.Keys - remaining) + {k};
      var item := m[k];
      if item.completedAt.None? {
        GroupedPushesOpen(m, byUser, m.Keys - remaining, k);
        var group := if item.userId in byUser then byUser[item.userId] else [];
        byUser := byUser[item.userId := group + [item]];
      } else {
        GroupedSkipsCompleted(m, byUser, m.Keys - remaining, k);
      }
      remaining := remaining - {k};
    }
    assert m.Keys - {} == m.Keys;
  }

  /** After all keys: the groups are the open owners, each with exactly its
      open items. */
  lemma {:induction false} GroupedAll(m: map<string, TodoItem>, byUser: map<string, seq<TodoItem>>)
    requires Grouped(m, byUser, m.Keys)
    ensures byUser.Keys == OpenOwners(m)
    ensures forall u :: u in byUser ==> byUser[u] != [] && multiset(byUser[u]) == OpenValues(m, u)
  {
    forall u
      ensures OpenKeysAmong(m, u, m.Keys) == OpenKeys(m, u)
      ensures u in byUser <==> u in OpenOwners(m)
    {
      OpenKeysAmongAll(m, u);
      OwnersHaveOpenKeys(m, u);
    }
  }

  /** Messaging a user not yet messaged keeps the users distinct. */
  lemma {:induction false} UsersOfSnoc(dms: seq<Dm>, dm: Dm)
    requires DistinctUsers(dms) && dm.userId !in UsersOf(dms)
    ensures UsersOf(dms + [dm]) == UsersOf(dms) + {dm.userId}
    ensures DistinctUsers(dms + [dm])
  {
    var more := dms + [dm];
    assert forall i :: 0 <= i < |dms| ==> more[i] == dms[i];
    assert more[|dms|] == dm;
    forall i | 0 <= i < |dms|
      ensures more[i].userId != dm.userId
    {
      assert dms[i].userId in UsersOf(dms);
    }
  }

  /** One group's summary: the group sorted by creation time, listed
      under the greeting. */
  function SummaryBody(group: seq<TodoItem>): string
    requires group != []
  {
    Listing(SUMMARY_HEADER, SortByKey(group, CreatedAt))
  }

  /** The summary of a user's full group is a summary of that user's
      open items. */
  lemma {:induction false} SummaryBodyIsSummary(m: map<string, TodoItem>, userId: string, group: seq<TodoItem>)
    requires group != [] && multiset(group) == OpenValues(m, userId)
    ensures IsSummaryOf(m, userId, SummaryBody(group))
  {
    var items := SortByKey(group, CreatedAt);
    assert items != [] && SortedBy(items, CreatedAt) && multiset(items) == OpenValues(m, userId)
           && SummaryBody(group) == Listing(SUMMARY_HEADER, items);
  }

  method Summarize(group: seq<TodoItem>) returns (body: string)
    requires group != []
    ensures body == SummaryBody(group)
  {
    var items := SortByKey(group, CreatedAt);
    body := BuildListing(SUMMARY_HEADER, items);
  }

  /** A message is its user's group summary. */
  ghost predicate SummarizesGroup(byUser: map<string, seq<TodoItem>>, dm: Dm) {
    dm.userId in byUser && byUser[dm.userId] != [] && dm.body == SummaryBody(byUser[dm.userId])
  }

  ghost predicate AllGroupSummaries(byUser: map<string, seq<TodoItem>>, dms: seq<Dm>) {
    forall i :: 0 <= i < |dms| ==> SummarizesGroup(byUser, dms[i])
  }

  lemma {:induction false} AllGroupSummariesSnoc(byUser: map<string, seq<TodoItem>>, dms: seq<Dm>, dm: Dm)
    requires AllGroupSummaries(byUser, dms) && SummarizesGroup(byUser, dm)
    ensures AllGroupSummaries(byUser, dms + [dm])
  {
    var more := dms + [dm];
    assert forall i :: 0 <= i < |dms| ==> more[i] == dms[i];
    assert more[|dms|] == dm;
  }

  /** With every group holding its user's open items, the group summaries
      are summaries of the open items. */
  lemma {:induction false} GroupSummariesAreSummaries(m: map<string, TodoItem>, byUser: map<string, seq<TodoItem>>,
                                                      dms: seq<Dm>)
    requires forall u :: u in byUser ==> byUser[u] != [] && multiset(byUser[u]) == OpenValues(m, u)
    requires AllGroupSummaries(byUser, dms)
    ensures AllSummaries(m, dms)
  {
    forall i | 0 <= i < |dms|
      ensures IsSummaryOf(m, dms[i].userId, dms[i].body)
    {
      assert SummarizesGroup(byUser, dms[i]);
      SummaryBodyIsSummary(m, dms[i].userId, byUser[dms[i].userId]);
    }
  }

  /** One summary sent: the loop's bookkeeping holds with it appended. */
  lemma SendStep(byUser: map<string, seq<TodoItem>>, sender: (string, string) -> Result<(), string>,
                 sent: seq<Dm>, users: set<string>, dm: Dm)
    requires users <= byUser.Keys && dm.userId in users && UsersOf(sent) == byUser.Keys - users
    requires AllGroupSummaries(byUser, sent) && DistinctUsers(sent) && AllDelivered(sender, sent)
    requires SummarizesGroup(byUser, dm)
    ensures UsersOf(sent + [dm]) == byUser.Keys - (users - {dm.userId})
    ensures AllGroupSummaries(byUser, sent + [dm]) && DistinctUsers(sent + [dm])
    ensures (sent + [dm])[..|sent|] == sent && (sent + [dm])[|sent|] == dm
    ensures sender(dm.userId, dm.body).Ok? ==> AllDelivered(sender, sent + [dm])
  {
    UsersOfSnoc(sent, dm);
    AllGroupSummariesSnoc(byUser, sent, dm);
    AllDeliveredSnoc(sender, sent, dm);
  }

  /** The send loop: each group's summary in turn, until one send fails. */
  method SendSummaries(byUser: map<string, seq<TodoItem>>, sender: (string, string) -> Result<(), string>)
    returns (sent: seq<Dm>, failure: Option<string>)
    requires forall u :: u in byUser ==> byUser[u] != []
    ensures AllGroupSummaries(byUser, sent) && DistinctUsers(sent) && UsersOf(sent) <= byUser.Keys
    ensures failure.None? ==> UsersOf(sent) == byUser.Keys && AllDelivered(sender, sent)
    ensures failure.Some? ==> sent != [] && AllDelivered(sender, sent[..|sent| - 1])
                              && sender(sent[|sent| - 1].userId, sent[|sent| - 1].body) == Err(failure.value)
  {
    sent := [];
    var users := byUser.Keys;
    while users != {}
      invariant users <= byUser.Keys
      invariant UsersOf(sent) == byUser.Keys - users
      invariant AllGroupSummaries(byUser, sent) && DistinctUsers(sent) && AllDelivered(sender, sent)
      decreases users
    {
      var u :| u in users;
      var body := Summarize(byUser[u]);
      var outcome := sender(u, body);
      SendStep(byUser, sender, sent, users, Dm(u, body));
      sent := sent + [Dm(u, body)];
      users := users - {u};
      if outcome.Err? {
        return sent, Some(outcome.error);
      }
    }
    failure := None;
  }

  /** `daily_summary_tick`: one summary per user with open items, sent in
      whatever order the groups are visited; the first failed send aborts
      the tick with its error and skips the save. The database is read only. */
  method DailySummaryTick(db: TodoDb, sender: (string, string) -> Result<(), string>, saveOk: bool)
    returns (sent: seq<Dm>, r: Result<(), string>)
    ensures AllSummaries(db.items, sent) && DistinctUsers(sent)
    ensures UsersOf(sent) <= OpenOwners(db.items)
    ensures sent != [] ==> AllDelivered(sender, sent[..|sent| - 1])
    ensures r.Ok? ==> saveOk && UsersOf(sent) == OpenOwners(db.items) && AllDelivered(sender, sent)
    ensures r.Err? ==>
              || (sent != [] && sender(sent[|sent| - 1].userId, sent[|sent| - 1].body) == Err(r.error))
              || (!saveOk && r.error == Reminders.ErrorText(Reminders.SaveFailed)
                  && UsersOf(sent) == OpenOwners(db.items) && AllDelivered(sender, sent))
  {
    var byUser := GroupOpenByUser(db.items);
    GroupedAll(db.items, byUser);
    var failure;
    sent, failure := SendSummaries(byUser, sender);
    GroupSummariesAreSummaries(db.items, byUser, sent);
    if failure.Some? {
      return sent, Err(failure.value);
    }
    if sent != [] {
      assert AllDelivered(sender, sent[..|sent| - 1]) by {
        assert forall i :: 0 <= i < |sent| - 1 ==> sent[..|sent| - 1][i] == sent[i];
      }
    }
    if !saveOk {
      return sent, Err(Reminders.ErrorText(Reminders.SaveFailed));
    }
    r := Ok(());
  }
}
