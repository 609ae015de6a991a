/**
 * The subscription checker's sweep: every active subscription is examined
 * against one reading of the clock. An expired one has its status persisted
 * as "expired", then its VPN configuration revoked, then its owner told; one
 * that expires within three days draws a warning; the processed ones are
 * reported to every admin.
 *
 * The database is the DB class. Whether an UPDATE reaches the database and
 * whether the remote revoke succeeds are oracles indexed by the
 * subscription's position in the sweep. Messages are recorded as the calls
 * the checker makes; their Markdown text is not modelled, and a failed send
 * is only logged by the checker, so its outcome does not appear.
 */
module Scheduler {
  import opened Outcomes
  import opened GoText
  import opened Models
  import opened Database

  const SecondsPerDay := 86400
  const WarnDays := 3

  /** Outcomes of the calls that can fail, by position in the sweep. */
  datatype Services = Services(persists: nat -> bool, revokes: nat -> bool)

  /** What a message says, without its wording. */
  datatype Notice =
    | ExpiredNotice(subscriptionId: int, planName: string)
    | ExpiryWarning(subscriptionId: int, planName: string, daysLeft: int)
    | Report(report: AdminReport)

  /** One numbered line of the admin report. */
  datatype ReportLine = ReportLine(number: nat, subscriptionId: int, userInfo: string,
                                   planName: string, endDate: int)

  /** The admin report: how many subscriptions were processed, and their lines. */
  datatype AdminReport = AdminReport(processed: nat, lines: seq<ReportLine>)

  /** A call the checker makes on a collaborator. */
  datatype Call =
    | Persist(sub: Subscription)                 // db.UpdateSubscription
    | Revoke(server: Server, configPath: string)  // vpnManager.RevokeClientConfig
    | Send(chatId: int, notice: Notice)           // bot.Send

  // ---------------------------------------------------------------- one subscription

  /** now.After(EndDate). */
  predicate IsExpired(s: Subscription, now: int) {
    now > s.endDate
  }

  /** int(EndDate.Sub(now).Hours() / 24): whole days left, truncated toward zero. */
  function DaysLeft(s: Subscription, now: int): int {
    var d := s.endDate - now;
    if d >= 0 then d / SecondsPerDay else -((-d) / SecondsPerDay)
  }

  /** The branch condition of the warning. */
  predicate Warned(s: Subscription, now: int) {
    !IsExpired(s, now) && 0 <= DaysLeft(s, now) <= WarnDays
  }

  /**
   * notifyUser (no daysLeft) and notifyUserAboutExpiration: the message goes
   * out only when both the user and the plan are found.
   */
  function UserNotice(db: DB, s: Subscription, daysLeft: Option<int>): seq<Call>
    reads db`users, db`plans
  {
    var user := db.GetUserByID(s.userId);
    var plan := db.GetSubscriptionPlanByID(s.planId);
    if user.Err? || plan.Err? then []
    else if daysLeft.None? then [Send(user.value.telegramId, ExpiredNotice(s.id, plan.value.name))]
    else [Send(user.value.telegramId, ExpiryWarning(s.id, plan.value.name, daysLeft.value))]
  }

  /** An expired subscription is counted and reported iff its update and its revoke both succeed. */
  predicate Processed(db: DB, svc: Services, now: int, i: nat, s: Subscription)
    reads db`servers
  {
    IsExpired(s, now) && svc.persists(i) && db.GetServerByID(s.serverId).Ok? && svc.revokes(i)
  }

  /** The calls the sweep makes for the subscription at position i. */
  function ItemCalls(db: DB, svc: Services, now: int, i: nat, s: Subscription): seq<Call>
    reads db`users, db`plans, db`servers
  {
    if IsExpired(s, now) then
      var e := s.(status := Expired);
      var server := db.GetServerByID(s.serverId);
      if !svc.persists(i) || server.Err? then [Persist(e)]
      else if !svc.revokes(i) then [Persist(e), Revoke(server.value, s.configFilePath)]
      else [Persist(e), Revoke(server.value, s.configFilePath)] + UserNotice(db, e, None)
    else if Warned(s, now) then UserNotice(db, s, Some(DaysLeft(s, now)))
    else []
  }

  // ---------------------------------------------------------------- the sweep, as folds

  /** The calls of the whole sweep, in order. */
  function SweepCalls(db: DB, svc: Services, now: int, subs: seq<Subscription>): seq<Call>
    reads db`users, db`plans, db`servers
    decreases |subs|
  {
    if subs == [] then []
    else SweepCalls(db, svc, now, subs[..|subs| - 1]) + ItemCalls(db, svc, now, |subs| - 1, subs[|subs| - 1])
  }

  /** expiredSubscriptions: the processed subscriptions, in sweep order, with their new status. */
  function Reported(db: DB, svc: Services, now: int, subs: seq<Subscription>): seq<Subscription>
    reads db`servers
    decreases |subs|
  {
    if subs == [] then []
    else
      var last := subs[|subs| - 1];
      Reported(db, svc, now, subs[..|subs| - 1])
      + (if Processed(db, svc, now, |subs| - 1, last) then [last.(status := Expired)] else [])
  }

  /** The subscriptions table after the sweep's updates. */
  function Persisted(m: map<int, Subscription>, svc: Services, now: int, subs: seq<Subscription>)
    : map<int, Subscription>
    decreases |subs|
  {
    if subs == [] then m
    else
      var last := subs[|subs| - 1];
      var before := Persisted(m, svc, now, subs[..|subs| - 1]);
      if IsExpired(last, now) && svc.persists(|subs| - 1) then WriteSubscription(before, last.(status := Expired))
      else before
  }

  // ---------------------------------------------------------------- the admin report, as a fold

  /** The user column of a report line: the username, or "ID: <telegram id>" when it is empty. */
  function UserInfo(u: User): (r: string)
    ensures u.username != "" ==> r == u.username
    ensures u.username == "" ==> r == "ID: " + Itoa(u.telegramId)
  {
    if u.username == "" then "ID: " + Itoa(u.telegramId) else u.username
  }

  /** The line for expired[k]; none when the user or the plan lookup fails. */
  function LineFor(db: DB, k: nat, s: Subscription): seq<ReportLine>
    reads db`users, db`plans
  {
    var user := db.GetUserByID(s.userId);
    var plan := db.GetSubscriptionPlanByID(s.planId);
    if user.Err? || plan.Err? then []
    else [ReportLine(k + 1, s.id, UserInfo(user.value), plan.value.name, s.endDate)]
  }

  function ReportLines(db: DB, expired: seq<Subscription>): seq<ReportLine>
    reads db`users, db`plans
    decreases |expired|
  {
    if expired == [] then []
    else ReportLines(db, expired[..|expired| - 1]) + LineFor(db, |expired| - 1, expired[|expired| - 1])
  }

  function ReportOf(db: DB, expired: seq<Subscription>): AdminReport
    reads db`users, db`plans
  {
    AdminReport(|expired|, ReportLines(db, expired))
  }

  // ---------------------------------------------------------------- the checker's methods

  /** getActiveSubscriptions: every row whose status is "active", each once. */
  method GetActiveSubscriptions(db: DB) returns (subs: seq<Subscription>)
    requires db.Valid()
    ensures forall i :: 0 <= i < |subs| ==>
      subs[i].id in db.subscriptions && db.subscriptions[subs[i].id] == subs[i] && subs[i].status == Active
    ensures forall id :: id in db.subscriptions && db.subscriptions[id].status == Active ==>
      db.subscriptions[id] in subs
    ensures forall i, j :: 0 <= i < j < |subs| ==> subs[i].id != subs[j].id
  {
    subs := [];
    var unseen := db.subscriptions.Keys;
    while unseen != {}
      invariant unseen <= db.subscriptions.Keys
      invariant forall i :: 0 <= i < |subs| ==>
        subs[i].id in db.subscriptions && subs[i].id !in unseen
        && db.subscriptions[subs[i].id] == subs[i] && subs[i].status == Active
      invariant forall id :: id in db.subscriptions && id !in unseen && db.subscriptions[id].status == Active ==>
        db.subscriptions[id] in subs
      invariant forall i, j :: 0 <= i < j < |subs| ==> subs[i].id != subs[j].id
      decreases |unseen|
    {
      SomeKey(unseen);
      var id :| id in unseen;
      if db.subscriptions[id].status == Active {
        subs := subs + [db.subscriptions[id]];
      }
      unseen := unseen - {id};
    }
  }

  /** notifyUser / notifyUserAboutExpiration. */
  method NotifyUser(db: DB, s: Subscription, daysLeft: Option<int>) returns (calls: seq<Call>)
    ensures calls == UserNotice(db, s, daysLeft)
    ensures |calls| <= 1
    ensures calls != [] <==> db.GetUserByID(s.userId).Ok? && db.GetSubscriptionPlanByID(s.planId).Ok?
  {
    var user := db.GetUserByID(s.userId);
    if user.Err? {
      return [];
    }
    var plan := db.GetSubscriptionPlanByID(s.planId);
    if plan.Err? {
      return [];
    }
    if daysLeft.None? {
      calls := [Send(user.value.telegramId, ExpiredNotice(s.id, plan.value.name))];
    } else {
      calls := [Send(user.value.telegramId, ExpiryWarning(s.id, plan.value.name, daysLeft.value))];
    }
  }

  /** revokeVPNConfig: the server must be found before the remote revoke is tried. */
  method RevokeVPNConfig(db: DB, svc: Services, i: nat, s: Subscription) returns (calls: seq<Call>, ok: bool)
    ensures ok <==> db.GetServerByID(s.serverId).Ok? && svc.revokes(i)
    ensures db.GetServerByID(s.serverId).Err? ==> calls == []
    ensures db.GetServerByID(s.serverId).Ok? ==> calls == [Revoke(db.servers[s.serverId], s.configFilePath)]
  {
    var server := db.GetServerByID(s.serverId);
    if server.Err? {
      return [], false;
    }
    calls := [Revoke(server.value, s.configFilePath)];
    ok := svc.revokes(i);
  }

  /** checkExpiredSubscriptions' handling of the subscription at position i. */
  method CheckOne(db: DB, svc: Services, now: int, i: nat, s: Subscription)
    returns (calls: seq<Call>, processed: bool)
    requires db.Valid()
    modifies db`subscriptions
    ensures db.Valid()
    ensures calls == ItemCalls(db, svc, now, i, s)
    ensures processed == Processed(db, svc, now, i, s)
    ensures db.subscriptions == if IsExpired(s, now) && svc.persists(i)
                                then WriteSubscription(old(db.subscriptions), s.(status := Expired))
                                else old(db.subscriptions)
  {
    processed := false;
    if IsExpired(s, now) {
      var e := s.(status := Expired);
      calls := [Persist(e)];
      if !svc.persists(i) {
        return;
      }
      db.UpdateSubscription(e);
      var revoked, ok := RevokeVPNConfig(db, svc, i, e);
      calls := calls + revoked;
      if !ok {
        return;
      }
      var notice := NotifyUser(db, e, None);
      calls := calls + notice;
      processed := true;
    } else {
      calls := [];
      if Warned(s, now) {
        calls := NotifyUser(db, s, Some(DaysLeft(s, now)));
      }
    }
  }

  /** The admin report, built line by line as notifyAdmins appends to its message. */
  method BuildReport(db: DB, expired: seq<Subscription>) returns (report: AdminReport)
    ensures report == ReportOf(db, expired)
  {
    var lines: seq<ReportLine> := [];
    for k := 0 to |expired|
      invariant lines == ReportLines(db, expired[..k])
    {
      assert expired[..k + 1][..k] == expired[..k];
      var s := expired[k];
      var user := db.GetUserByID(s.userId);
      if user.Err? {
        continue;
      }
      var plan := db.GetSubscriptionPlanByID(s.planId);
      if plan.Err? {
        continue;
      }
      lines := lines + [ReportLine(k + 1, s.id, UserInfo(user.value), plan.value.name, s.endDate)];
    }
    assert expired[..|expired|] == expired;
    report := AdminReport(|expired|, lines);
  }

  /**
   * notifyAdmins: nothing is sent when there are no admins; otherwise the
   * same report goes to every admin, once each.
   */
  method NotifyAdmins(db: DB, expired: seq<Subscription>) returns (sends: seq<Call>)
    requires db.Valid()
    ensures forall i :: 0 <= i < |sends| ==> sends[i].Send? && sends[i].notice == Report(ReportOf(db, expired))
    ensures forall i :: 0 <= i < |sends| ==> sends[i].chatId in AdminChats(db.users)
    ensures forall id :: id in db.users && db.users[id].isAdmin ==>
      Send(db.users[id].telegramId, Report(ReportOf(db, expired))) in sends
    ensures forall i, j :: 0 <= i < j < |sends| ==> sends[i].chatId != sends[j].chatId
  {
    var admins := db.GetAllAdmins();
    sends := [];
    if |admins| == 0 {
      return;
    }
    var report := BuildReport(db, expired);
    for k := 0 to |admins|
      invariant |sends| == k
      invariant forall i :: 0 <= i < k ==> sends[i] == Send(admins[i].telegramId, Report(report))
    {
      sends := sends + [Send(admins[k].telegramId, Report(report))];
    }
    forall id | id in db.users && db.users[id].isAdmin
      ensures Send(db.users[id].telegramId, Report(report)) in sends
    {
      var i :| 0 <= i < |admins| && admins[i] == db.users[id];
      assert sends[i] == Send(db.users[id].telegramId, Report(report));
    }
    forall i, j | 0 <= i < j < |sends| ensures sends[i].chatId != sends[j].chatId {
      assert admins[i].id != admins[j].id;
    }
  }

  /** The telegram ids of the admin rows. */
  function AdminChats(users: map<int, User>): set<int> {
    set id | id in users && users[id].isAdmin :: users[id].telegramId
  }

  /** The loop of checkExpiredSubscriptions over the fetched subscriptions. */
  method Sweep(db: DB, svc: Services, now: int, subs: seq<Subscription>)
    returns (calls: seq<Call>, expired: seq<Subscription>)
    requires db.Valid()
    modifies db`subscriptions
    ensures db.Valid()
    ensures calls == SweepCalls(db, svc, now, subs)
    ensures expired == Reported(db, svc, now, subs)
    ensures db.subscriptions == Persisted(old(db.subscriptions), svc, now, subs)
  {
    calls, expired := [], [];
    var expiredCount := 0;
    for i := 0 to |subs|
      invariant db.Valid()
      invariant calls == SweepCalls(db, svc, now, subs[..i])
      invariant expired == Reported(db, svc, now, subs[..i])
      invariant expiredCount == |expired|
      invariant db.subscriptions == Persisted(old(db.subscriptions), svc, now, subs[..i])
    {
      assert subs[..i + 1][..i] == subs[..i];
      var itemCalls, processed := CheckOne(db, svc, now, i, subs[i]);
      calls := calls + itemCalls;
      if processed {
        expiredCount := expiredCount + 1;
        expired := expired + [subs[i].(status := Expired)];
      }
    }
    assert subs[..|subs|] == subs;
  }

  /**
   * checkExpiredSubscriptions: the sweep over the active subscriptions, then
   * the admin report when at least one subscription was processed.
   */
  method CheckExpiredSubscriptions(db: DB, svc: Services, now: int)
    returns (subs: seq<Subscription>, calls: seq<Call>, expired: seq<Subscription>, reports: seq<Call>)
    requires db.Valid()
    modifies db`subscriptions
    ensures db.Valid()
    ensures calls == SweepCalls(db, svc, now, subs)
    ensures expired == Reported(db, svc, now, subs)
    ensures forall i :: 0 <= i < |subs| ==>
      subs[i].status == Active && subs[i].id in old(db.subscriptions) && old(db.subscriptions)[subs[i].id] == subs[i]
    ensures forall id :: id in old(db.subscriptions) && old(db.subscriptions)[id].status == Active ==>
      old(db.subscriptions)[id] in subs
    ensures forall i, j :: 0 <= i < j < |subs| ==> subs[i].id != subs[j].id
    ensures db.subscriptions == Persisted(old(db.subscriptions), svc, now, subs)
    ensures expired == [] ==> reports == []
    ensures forall i :: 0 <= i < |reports| ==> reports[i].Send? && reports[i].notice == Report(ReportOf(db, expired))
    ensures expired != [] ==> forall id :: id in db.users && db.users[id].isAdmin ==>
      Send(db.users[id].telegramId, Report(ReportOf(db, expired))) in reports
  {
    subs := GetActiveSubscriptions(db);
    calls, expired := Sweep(db, svc, now, subs);
    reports := [];
    if |expired| > 0 {
      reports := NotifyAdmins(db, expired);
    }
  }

  // ---------------------------------------------------------------- lemmas

  /** The clock reading equal to the end date is not expiry: that subscription is warned, with 0 days left. */
  lemma DeadlineIsNotExpiry(s: Subscription)
    ensures !IsExpired(s, s.endDate) && DaysLeft(s, s.endDate) == 0 && Warned(s, s.endDate)
  {
  }

  /** A live subscription is warned iff it ends less than four whole days from now. */
  lemma WarnWindow(s: Subscription, now: int)
    requires !IsExpired(s, now)
    ensures Warned(s, now) <==> s.endDate - now < (WarnDays + 1) * SecondsPerDay
  {
    var d := s.endDate - now;
    assert DaysLeft(s, now) == d / SecondsPerDay;
    if d < (WarnDays + 1) * SecondsPerDay {
      assert d / SecondsPerDay <= WarnDays;
    } else {
      assert d / SecondsPerDay >= WarnDays + 1;
    }
  }

  /**
   * With the subscriptions as fetched (rows of the table, distinct ids), the
   * sweep sets the status of exactly the expired ones whose update reached
   * the database, and leaves every other row as it was.
   */
  lemma {:induction false} PersistedRows(m: map<int, Subscription>, svc: Services, now: int,
                                         subs: seq<Subscription>)
    requires forall i :: 0 <= i < |subs| ==> subs[i].id in m && m[subs[i].id] == subs[i]
    requires forall i, j :: 0 <= i < j < |subs| ==> subs[i].id != subs[j].id
    ensures Persisted(m, svc, now, subs).Keys == m.Keys
    ensures forall i :: 0 <= i < |subs| ==>
      Persisted(m, svc, now, subs)[subs[i].id]
        == if IsExpired(subs[i], now) && svc.persists(i) then subs[i].(status := Expired) else subs[i]
    ensures forall id :: id in m && (forall i :: 0 <= i < |subs| ==> subs[i].id != id) ==>
      Persisted(m, svc, now, subs)[id] == m[id]
    decreases |subs|
  {
    if subs != [] {
      var n := |subs| - 1;
      var front := subs[..n];
      PersistedRows(m, svc, now, front);
      var before := Persisted(m, svc, now, front);
      var last := subs[n];
      assert forall i :: 0 <= i < n ==> front[i] == subs[i];
      assert before[last.id] == last;
      if IsExpired(last, now) && svc.persists(n) {
        var e := last.(status := Expired);
        assert WriteSubscription(before, e)[last.id] == Rewritten(last, e);
        assert Rewritten(last, e) == e;
      }
    }
  }

  /** expiredSubscriptions holds exactly the processed subscriptions, with status "expired". */
  lemma {:induction false} ReportedExactly(db: DB, svc: Services, now: int, subs: seq<Subscription>)
    ensures forall i :: 0 <= i < |subs| && Processed(db, svc, now, i, subs[i]) ==>
      subs[i].(status := Expired) in Reported(db, svc, now, subs)
    ensures forall x :: x in Reported(db, svc, now, subs) ==>
      x.status == Expired && exists i :: 0 <= i < |subs| && Processed(db, svc, now, i, subs[i])
                                         && x == subs[i].(status := Expired)
    decreases |subs|
  {
    if subs != [] {
      var n := |subs| - 1;
      var front := subs[..n];
      ReportedExactly(db, svc, now, front);
      assert forall i :: 0 <= i < n ==> front[i] == subs[i];
    }
  }

  /** The ids of the subscriptions the sweep warns about. */
  function WarnedIds(subs: seq<Subscription>, now: int): set<int> {
    set i | 0 <= i < |subs| && Warned(subs[i], now) :: subs[i].id
  }

  /** Every revoke comes straight after the persist of an expired row with the same config path. */
  predicate RevokesFollowPersists(calls: seq<Call>) {
    forall j :: 0 <= j < |calls| && calls[j].Revoke? ==>
      0 < j && calls[j - 1].Persist? && calls[j - 1].sub.status == Expired
      && calls[j - 1].sub.configFilePath == calls[j].configPath
  }

  /** Every expiry warning concerns one of the given subscription ids. */
  predicate WarningsAbout(calls: seq<Call>, ids: set<int>) {
    forall j :: 0 <= j < |calls| && calls[j].Send? && calls[j].notice.ExpiryWarning? ==>
      calls[j].notice.subscriptionId in ids
  }

  lemma ItemOrder(db: DB, svc: Services, now: int, i: nat, s: Subscription)
    ensures var item := ItemCalls(db, svc, now, i, s);
      RevokesFollowPersists(item) && (item != [] ==> !item[0].Revoke?)
      && (Warned(s, now) || WarningsAbout(item, {}))
      && WarningsAbout(item, {s.id})
  {
  }

  lemma ConcatOrder(a: seq<Call>, b: seq<Call>, ids: set<int>, more: set<int>)
    requires RevokesFollowPersists(a) && RevokesFollowPersists(b) && (b != [] ==> !b[0].Revoke?)
    requires WarningsAbout(a, ids) && WarningsAbout(b, more)
    ensures RevokesFollowPersists(a + b) && WarningsAbout(a + b, ids + more)
  {
    forall j | 0 <= j < |a + b|
      ensures (a + b)[j].Revoke? ==>
        0 < j && (a + b)[j - 1].Persist? && (a + b)[j - 1].sub.status == Expired
        && (a + b)[j - 1].sub.configFilePath == (a + b)[j].configPath
      ensures (a + b)[j].Send? && (a + b)[j].notice.ExpiryWarning? ==> (a + b)[j].notice.subscriptionId in ids + more
    {
      if j < |a| {
        assert (a + b)[j] == a[j];
        if 0 < j { assert (a + b)[j - 1] == a[j - 1]; }
      } else {
        assert (a + b)[j] == b[j - |a|];
        if |a| < j { assert (a + b)[j - 1] == b[j - 1 - |a|]; }
      }
    }
  }

  /**
   * Every revoke the sweep makes comes straight after the persist of the same
   * expired subscription, and every warning concerns a subscription that has
   * not expired.
   */
  lemma {:induction false} SweepOrder(db: DB, svc: Services, now: int, subs: seq<Subscription>)
    ensures RevokesFollowPersists(SweepCalls(db, svc, now, subs))
    ensures WarningsAbout(SweepCalls(db, svc, now, subs), WarnedIds(subs, now))
    decreases |subs|
  {
    if subs != [] {
      var n := |subs| - 1;
      var front := subs[..n];
      SweepOrder(db, svc, now, front);
      assert forall i :: 0 <= i < n ==> front[i] == subs[i];
      var ids := WarnedIds(subs, now);
      assert WarnedIds(front, now) <= ids;
      ItemOrder(db, svc, now, n, subs[n]);
      var more := if Warned(subs[n], now) then {subs[n].id} else {};
      assert more <= ids;
      ConcatOrder(SweepCalls(db, svc, now, front), ItemCalls(db, svc, now, n, subs[n]),
                  WarnedIds(front, now), more);
      assert WarnedIds(front, now) + more <= ids;
    }
  }

  /** Each line points, by its number, at the processed subscription it describes. */
  predicate NumberedAfter(lines: seq<ReportLine>, expired: seq<Subscription>) {
    forall j :: 0 <= j < |lines| ==>
      1 <= lines[j].number <= |expired| && lines[j].subscriptionId == expired[lines[j].number - 1].id
      && lines[j].endDate == expired[lines[j].number - 1].endDate
  }

  predicate Increasing(lines: seq<ReportLine>) {
    forall j, k :: 0 <= j < k < |lines| ==> lines[j].number < lines[k].number
  }

  /** The line for expired[k] exists iff both lookups succeed, and carries number k + 1. */
  lemma LineShape(db: DB, k: nat, s: Subscription)
    ensures var line := LineFor(db, k, s);
      |line| <= 1
      && (line != [] <==> db.GetUserByID(s.userId).Ok? && db.GetSubscriptionPlanByID(s.planId).Ok?)
      && (line != [] ==> line[0].number == k + 1 && line[0].subscriptionId == s.id && line[0].endDate == s.endDate)
  {
  }

  lemma AppendLine(prev: seq<ReportLine>, line: seq<ReportLine>, expired: seq<Subscription>)
    requires expired != []
    requires NumberedAfter(prev, expired[..|expired| - 1]) && Increasing(prev)
    requires |line| <= 1
    requires line != [] ==>
      line[0].number == |expired| && line[0].subscriptionId == expired[|expired| - 1].id
      && line[0].endDate == expired[|expired| - 1].endDate
    ensures NumberedAfter(prev + line, expired) && Increasing(prev + line)
  {
    var n := |expired| - 1;
    assert forall i :: 0 <= i < n ==> expired[..n][i] == expired[i];
    var lines := prev + line;
    forall j | 0 <= j < |lines|
      ensures 1 <= lines[j].number <= |expired| && lines[j].subscriptionId == expired[lines[j].number - 1].id
      ensures lines[j].endDate == expired[lines[j].number - 1].endDate
      ensures j < |prev| ==> lines[j].number <= n
    {
      if j < |prev| {
        assert lines[j] == prev[j];
      } else {
        assert lines[j] == line[0];
      }
    }
    forall j, k | 0 <= j < k < |lines|
      ensures lines[j].number < lines[k].number
    {
      if k < |prev| {
        assert lines[j] == prev[j] && lines[k] == prev[k];
      }
    }
  }

  /**
   * The report's lines: numbered by position in the processed list, in
   * increasing order.
   */
  lemma {:induction false} ReportLinesNumbered(db: DB, expired: seq<Subscription>)
    ensures NumberedAfter(ReportLines(db, expired), expired)
    ensures Increasing(ReportLines(db, expired))
    decreases |expired|
  {
    if expired != [] {
      var n := |expired| - 1;
      ReportLinesNumbered(db, expired[..n]);
      LineShape(db, n, expired[n]);
      AppendLine(ReportLines(db, expired[..n]), LineFor(db, n, expired[n]), expired);
    }
  }

  /** Every processed subscription whose user and plan are found has its line in the report. */
  lemma {:induction false} ReportLineFound(db: DB, expired: seq<Subscription>, k: nat)
    requires k < |expired|
    requires db.GetUserByID(expired[k].userId).Ok? && db.GetSubscriptionPlanByID(expired[k].planId).Ok?
    ensures LineFor(db, k, expired[k]) != [] && LineFor(db, k, expired[k])[0] in ReportLines(db, expired)
    decreases |expired|
  {
    var n := |expired| - 1;
    if k < n {
      ReportLineFound(db, expired[..n], k);
      assert expired[..n][k] == expired[k];
    }
  }
}
