/**
 * The bot's PostgreSQL database: the servers, subscription_plans, users and
 * subscriptions tables as maps from primary key to row, with the SERIAL
 * sequence of each table as the last id it handed out.
 *
 * Only what the SQL statements decide is modelled: the validation in front
 * of an insert, ON CONFLICT, RETURNING (which turns a missing row into
 * sql.ErrNoRows), the REFERENCES constraints and the columns each UPDATE
 * writes. A statement that cannot reach the database fails with a transport
 * error the model does not represent.
 */
module Database {
  import opened Outcomes
  import opened Models

  /** The errors the statements themselves produce. */
  datatype DbError =
    | EmptyIP
    | BadPort(port: int)
    | EmptySSHUser
    | EmptySSHPassword
    | BadMaxClients(maxClients: int)
    | DuplicateIP(ip: string)
    | NoRows                 // sql.ErrNoRows: the row to read or to update does not exist
    | ForeignKeyViolation    // an insert that references a missing row

  const MaxPort := 65535

  // ---------------------------------------------------------------- row facts

  /** The guards AddServer runs before it opens its transaction, first failure wins. */
  function ServerProblem(s: Server): (r: Option<DbError>)
    ensures r.None? <==> (s.ip != "" && 0 < s.port <= MaxPort && s.sshUser != ""
                          && s.sshPassword != "" && s.maxClients > 0)
    ensures s.ip == "" ==> r == Some(EmptyIP)
    ensures s.ip != "" && !(0 < s.port <= MaxPort) ==> r == Some(BadPort(s.port))
  {
    if s.ip == "" then Some(EmptyIP)
    else if s.port <= 0 || s.port > MaxPort then Some(BadPort(s.port))
    else if s.sshUser == "" then Some(EmptySSHUser)
    else if s.sshPassword == "" then Some(EmptySSHPassword)
    else if s.maxClients <= 0 then Some(BadMaxClients(s.maxClients))
    else None
  }

  /** SELECT COUNT(*) FROM servers WHERE ip = $1 is positive. */
  predicate IpTaken(servers: map<int, Server>, ip: string) {
    exists id :: id in servers && servers[id].ip == ip
  }

  /** Some row of users has this telegram_id. */
  predicate TelegramIdTaken(users: map<int, User>, telegramId: int) {
    exists id :: id in users && users[id].telegramId == telegramId
  }

  /** The ON CONFLICT (telegram_id) DO UPDATE branch of AddUser: names overwritten. */
  function Refreshed(row: User, u: User): (r: User)
    ensures r.id == row.id && r.telegramId == row.telegramId && r.isAdmin == row.isAdmin
    ensures r.username == u.username && r.firstName == u.firstName && r.lastName == u.lastName
  {
    row.(username := u.username, firstName := u.firstName, lastName := u.lastName)
  }

  /** UpdateSubscription's SET list: status, data_usage and last_connection_at. */
  function Rewritten(row: Subscription, s: Subscription): (r: Subscription)
    ensures r.status == s.status && r.dataUsage == s.dataUsage && r.lastConnectionAt == s.lastConnectionAt
    ensures r.(status := row.status, dataUsage := row.dataUsage, lastConnectionAt := row.lastConnectionAt) == row
  {
    row.(status := s.status, dataUsage := s.dataUsage, lastConnectionAt := s.lastConnectionAt)
  }

  /** The subscriptions table after UpdateSubscription(s); a missing id updates no row. */
  function WriteSubscription(m: map<int, Subscription>, s: Subscription): (r: map<int, Subscription>)
    ensures r.Keys == m.Keys
    ensures forall id :: id in m && id != s.id ==> r[id] == m[id]
    ensures s.id in m ==> r[s.id] == Rewritten(m[s.id], s)
  {
    if s.id in m then m[s.id := Rewritten(m[s.id], s)] else m
  }

  // ---------------------------------------------------------------- table invariants

  /** Every key was handed out by a sequence whose last value is last. */
  predicate Issued(keys: set<int>, last: int) {
    0 <= last && forall id :: id in keys ==> 0 < id <= last
  }

  /** A non-empty set of keys has a member to pick. */
  lemma SomeKey(keys: set<int>)
    requires keys != {}
    ensures exists id :: id in keys
  {
    if forall id :: id !in keys {
      assert false;
    }
  }

  predicate ServerIds(m: map<int, Server>) {
    forall id :: id in m ==> m[id].id == id
  }

  predicate PlanIds(m: map<int, Plan>) {
    forall id :: id in m ==> m[id].id == id
  }

  predicate UserIds(m: map<int, User>) {
    forall id :: id in m ==> m[id].id == id
  }

  predicate SubscriptionIds(m: map<int, Subscription>) {
    forall id :: id in m ==> m[id].id == id
  }

  /** The UNIQUE constraint on users.telegram_id. */
  predicate TelegramIdsUnique(users: map<int, User>) {
    forall a, b :: a in users && b in users && users[a].telegramId == users[b].telegramId ==> a == b
  }

  /** The REFERENCES constraints of subscriptions. */
  predicate Referenced(subs: map<int, Subscription>, users: map<int, User>,
                       servers: map<int, Server>, plans: map<int, Plan>) {
    forall id :: id in subs ==> subs[id].userId in users && subs[id].serverId in servers
                                && subs[id].planId in plans
  }

  class DB {
    var servers: map<int, Server>
    var plans: map<int, Plan>
    var users: map<int, User>
    var subscriptions: map<int, Subscription>
    var serverSeq: int
    var planSeq: int
    var userSeq: int
    var subscriptionSeq: int

    ghost predicate Valid()
      reads this
    {
      ServerIds(servers) && Issued(servers.Keys, serverSeq)
      && PlanIds(plans) && Issued(plans.Keys, planSeq)
      && UserIds(users) && Issued(users.Keys, userSeq) && TelegramIdsUnique(users)
      && SubscriptionIds(subscriptions) && Issued(subscriptions.Keys, subscriptionSeq)
      && Referenced(subscriptions, users, servers, plans)
    }

    /** Freshly initialised tables (InitTables on an empty database). */
    constructor ()
      ensures Valid()
      ensures servers == map[] && plans == map[] && users == map[] && subscriptions == map[]
    {
      servers, plans, users, subscriptions := map[], map[], map[], map[];
      serverSeq, planSeq, userSeq, subscriptionSeq := 0, 0, 0, 0;
    }

    // -------------------------------------------------------------- lookups by primary key

    function GetServerByID(id: int): (r: Result<Server, DbError>)
      reads this`servers
      ensures r.Ok? <==> id in servers
      ensures r.Ok? ==> r.value == servers[id]
      ensures r.Err? ==> r.error == NoRows
    {
      if id in servers then Ok(servers[id]) else Err(NoRows)
    }

    function GetUserByID(id: int): (r: Result<User, DbError>)
      reads this`users
      ensures r.Ok? <==> id in users
      ensures r.Ok? ==> r.value == users[id]
      ensures r.Err? ==> r.error == NoRows
    {
      if id in users then Ok(users[id]) else Err(NoRows)
    }

    function GetSubscriptionPlanByID(id: int): (r: Result<Plan, DbError>)
      reads this`plans
      ensures r.Ok? <==> id in plans
      ensures r.Ok? ==> r.value == plans[id]
      ensures r.Err? ==> r.error == NoRows
    {
      if id in plans then Ok(plans[id]) else Err(NoRows)
    }

    function GetSubscriptionByID(id: int): (r: Result<Subscription, DbError>)
      reads this`subscriptions
      ensures r.Ok? <==> id in subscriptions
      ensures r.Ok? ==> r.value == subscriptions[id]
      ensures r.Err? ==> r.error == NoRows
    {
      if id in subscriptions then Ok(subscriptions[id]) else Err(NoRows)
    }

    // -------------------------------------------------------------- servers

    method AddServer(s: Server) returns (r: Result<int, DbError>)
      requires Valid()
      modifies this`servers, this`serverSeq
      ensures Valid()
      ensures ServerProblem(s).Some? ==>
        r == Err(ServerProblem(s).value) && servers == old(servers) && serverSeq == old(serverSeq)
      ensures ServerProblem(s).None? && IpTaken(old(servers), s.ip) ==>
        r == Err(DuplicateIP(s.ip)) && servers == old(servers) && serverSeq == old(serverSeq)
      ensures ServerProblem(s).None? && !IpTaken(old(servers), s.ip) ==>
        r == Ok(serverSeq) && serverSeq == old(serverSeq) + 1
        && servers == old(servers)[serverSeq := s.(id := serverSeq, currentClients := 0)]
    {
      var problem := ServerProblem(s);
      if problem.Some? {
        return Err(problem.value);
      }
      if IpTaken(servers, s.ip) {
        return Err(DuplicateIP(s.ip));
      }
      serverSeq := serverSeq + 1;
      servers := servers[serverSeq := s.(id := serverSeq, currentClients := 0)];
      r := Ok(serverSeq);
    }

    /** Every column is written from s, current_clients included. */
    method UpdateServer(s: Server) returns (err: Option<DbError>)
      requires Valid()
      modifies this`servers
      ensures Valid()
      ensures err.None? <==> s.id in old(servers)
      ensures err.Some? ==> err.value == NoRows && servers == old(servers)
      ensures err.None? ==> servers == old(servers)[s.id := s]
    {
      if s.id !in servers {
        return Some(NoRows);
      }
      servers := servers[s.id := s];
      err := None;
    }

    // -------------------------------------------------------------- users

    /** The id of the user row with this telegram_id, if there is one. */
    method FindTelegramId(telegramId: int) returns (found: Option<int>)
      ensures found.Some? ==> found.value in users && users[found.value].telegramId == telegramId
      ensures found.None? ==> !TelegramIdTaken(users, telegramId)
    {
      var unseen := users.Keys;
      while unseen != {}
        invariant unseen <= users.Keys
        invariant forall id :: id in users && id !in unseen ==> users[id].telegramId != telegramId
        decreases |unseen|
      {
        SomeKey(unseen);
        var id :| id in unseen;
        if users[id].telegramId == telegramId {
          return Some(id);
        }
        unseen := unseen - {id};
      }
      found := None;
    }

    method GetUserByTelegramID(telegramId: int) returns (r: Result<User, DbError>)
      requires Valid()
      ensures r.Ok? <==> TelegramIdTaken(users, telegramId)
      ensures r.Ok? ==> r.value.id in users && users[r.value.id] == r.value
                        && r.value.telegramId == telegramId
      ensures r.Err? ==> r.error == NoRows
    {
      var found := FindTelegramId(telegramId);
      if found.None? {
        return Err(NoRows);
      }
      assert users[found.value].id == found.value;
      r := Ok(users[found.value]);
    }

    /**
     * INSERT ... ON CONFLICT (telegram_id) DO UPDATE: a new telegram_id is
     * inserted with its is_admin; an existing row keeps its is_admin. The
     * sequence advances either way.
     */
    method AddUser(u: User) returns (id: int)
      requires Valid()
      modifies this`users, this`userSeq
      ensures Valid()
      ensures userSeq == old(userSeq) + 1
      ensures TelegramIdTaken(old(users), u.telegramId) ==>
        id in old(users) && old(users)[id].telegramId == u.telegramId
        && users == old(users)[id := Refreshed(old(users)[id], u)]
      ensures !TelegramIdTaken(old(users), u.telegramId) ==>
        id == userSeq && users == old(users)[id := u.(id := id)]
    {
      var found := FindTelegramId(u.telegramId);
      userSeq := userSeq + 1;
      if found.Some? {
        id := found.value;
        users := users[id := Refreshed(users[id], u)];
      } else {
        id := userSeq;
        users := users[id := u.(id := id)];
      }
    }

    /** UPDATE users SET is_admin: a missing id updates no row and is no error. */
    method SetUserAdmin(id: int, isAdmin: bool)
      requires Valid()
      modifies this`users
      ensures Valid()
      ensures users == if id in old(users) then old(users)[id := old(users)[id].(isAdmin := isAdmin)]
                       else old(users)
    {
      if id in users {
        users := users[id := users[id].(isAdmin := isAdmin)];
      }
    }

    /** SELECT * FROM users WHERE is_admin = TRUE, each admin once. */
    method GetAllAdmins() returns (admins: seq<User>)
      requires Valid()
      ensures forall i :: 0 <= i < |admins| ==> admins[i].id in users && users[admins[i].id] == admins[i] && admins[i].isAdmin
      ensures forall id :: id in users && users[id].isAdmin ==> users[id] in admins
      ensures forall i, j :: 0 <= i < j < |admins| ==> admins[i].id != admins[j].id
    {
      admins := [];
      var unseen := users.Keys;
      while unseen != {}
        invariant unseen <= users.Keys
        invariant forall i :: 0 <= i < |admins| ==>
          admins[i].id in users && admins[i].id !in unseen && users[admins[i].id] == admins[i] && admins[i].isAdmin
        invariant forall id :: id in users && id !in unseen && users[id].isAdmin ==> users[id] in admins
        invariant forall i, j :: 0 <= i < j < |admins| ==> admins[i].id != admins[j].id
        decreases |unseen|
      {
        SomeKey(unseen);
        var id :| id in unseen;
        if users[id].isAdmin {
          admins := admins + [users[id]];
        }
        unseen := unseen - {id};
      }
    }

    // -------------------------------------------------------------- plans

    method AddSubscriptionPlan(p: Plan) returns (id: int)
      requires Valid()
      modifies this`plans, this`planSeq
      ensures Valid()
      ensures id == planSeq && planSeq == old(planSeq) + 1
      ensures plans == old(plans)[id := p.(id := id)]
    {
      planSeq := planSeq + 1;
      id := planSeq;
      plans := plans[id := p.(id := id)];
    }

    method UpdateSubscriptionPlan(p: Plan) returns (err: Option<DbError>)
      requires Valid()
      modifies this`plans
      ensures Valid()
      ensures err.None? <==> p.id in old(plans)
      ensures err.Some? ==> err.value == NoRows && plans == old(plans)
      ensures err.None? ==> plans == old(plans)[p.id := p]
    {
      if p.id !in plans {
        return Some(NoRows);
      }
      plans := plans[p.id := p];
      err := None;
    }

    /** A soft delete: only is_active is cleared, and a missing id changes nothing. */
    method DeleteSubscriptionPlan(id: int)
      requires Valid()
      modifies this`plans
      ensures Valid()
      ensures plans == if id in old(plans) then old(plans)[id := old(plans)[id].(isActive := false)]
                       else old(plans)
    {
      if id in plans {
        plans := plans[id := plans[id].(isActive := false)];
      }
    }

    /** SELECT * FROM subscription_plans WHERE is_active = TRUE, each plan once. */
    method GetAllSubscriptionPlans() returns (active: seq<Plan>)
      requires Valid()
      ensures forall i :: 0 <= i < |active| ==> active[i].id in plans && plans[active[i].id] == active[i] && active[i].isActive
      ensures forall id :: id in plans && plans[id].isActive ==> plans[id] in active
      ensures forall i, j :: 0 <= i < j < |active| ==> active[i].id != active[j].id
    {
      active := [];
      var unseen := plans.Keys;
      while unseen != {}
        invariant unseen <= plans.Keys
        invariant forall i :: 0 <= i < |active| ==>
          active[i].id in plans && active[i].id !in unseen && plans[active[i].id] == active[i] && active[i].isActive
        invariant forall id :: id in plans && id !in unseen && plans[id].isActive ==> plans[id] in active
        invariant forall i, j :: 0 <= i < j < |active| ==> active[i].id != active[j].id
        decreases |unseen|
      {
        SomeKey(unseen);
        var id :| id in unseen;
        if plans[id].isActive {
          active := active + [plans[id]];
        }
        unseen := unseen - {id};
      }
    }

    // -------------------------------------------------------------- subscriptions

    /**
     * Inserts the row (data_usage takes its default 0, last_connection_at is
     * NULL), then increments the server's current_clients by one. A missing
     * user, server or plan fails the REFERENCES check after the sequence has
     * advanced. Nothing compares current_clients with max_clients.
     */
    method AddSubscription(s: Subscription) returns (r: Result<int, DbError>)
      requires Valid()
      modifies this`subscriptions, this`subscriptionSeq, this`servers
      ensures Valid()
      ensures subscriptionSeq == old(subscriptionSeq) + 1
      ensures !(s.userId in users && s.serverId in old(servers) && s.planId in plans) ==>
        r == Err(ForeignKeyViolation) && subscriptions == old(subscriptions) && servers == old(servers)
      ensures s.userId in users && s.serverId in old(servers) && s.planId in plans ==>
        r == Ok(subscriptionSeq)
        && subscriptions == old(subscriptions)[subscriptionSeq := s.(id := subscriptionSeq, dataUsage := 0, lastConnectionAt := None)]
        && servers == old(servers)[s.serverId := old(servers)[s.serverId].(currentClients := old(servers)[s.serverId].currentClients + 1)]
    {
      subscriptionSeq := subscriptionSeq + 1;
      if !(s.userId in users && s.serverId in servers && s.planId in plans) {
        return Err(ForeignKeyViolation);
      }
      var id := subscriptionSeq;
      subscriptions := subscriptions[id := s.(id := id, dataUsage := 0, lastConnectionAt := None)];
      var server := servers[s.serverId];
      servers := servers[s.serverId := server.(currentClients := server.currentClients + 1)];
      r := Ok(id);
    }

    /** Writes status, data_usage and last_connection_at only; a missing id updates no row. */
    method UpdateSubscription(s: Subscription)
      requires Valid()
      modifies this`subscriptions
      ensures Valid()
      ensures subscriptions == WriteSubscription(old(subscriptions), s)
    {
      subscriptions := WriteSubscription(subscriptions, s);
    }
  }

  // ---------------------------------------------------------------- lemmas

  /** Once AddServer has stored a server, a second AddServer with its IP is refused. */
  lemma StoredIpTaken(servers: map<int, Server>, id: int, s: Server)
    ensures IpTaken(servers[id := s], s.ip)
  {
    assert servers[id := s][id].ip == s.ip;
  }

  /** A soft-deleted plan is still found by id, with only is_active changed. */
  lemma SoftDeletedPlanFound(plans: map<int, Plan>, id: int)
    requires id in plans
    ensures var after := plans[id := plans[id].(isActive := false)];
      id in after && !after[id].isActive
      && after[id].(isActive := plans[id].isActive) == plans[id]
  {
  }

  /** Upserting a known telegram_id twice leaves the same row as upserting it once. */
  lemma RefreshedIdempotent(row: User, u: User)
    ensures Refreshed(Refreshed(row, u), u) == Refreshed(row, u)
  {
  }

  /** An expiry written by UpdateSubscription leaves every other column of the row as it was. */
  lemma {:induction false} WriteSubscriptionKeeps(m: map<int, Subscription>, s: Subscription, id: int)
    requires id in m
    ensures var r := WriteSubscription(m, s)[id];
      r.id == m[id].id && r.userId == m[id].userId && r.serverId == m[id].serverId
      && r.planId == m[id].planId && r.startDate == m[id].startDate && r.endDate == m[id].endDate
      && r.configFilePath == m[id].configFilePath
  {
    if id == s.id {
      var r := Rewritten(m[id], s);
      assert r.(status := m[id].status, dataUsage := m[id].dataUsage, lastConnectionAt := m[id].lastConnectionAt) == m[id];
    }
  }
}
