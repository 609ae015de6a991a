/**
 * The Telegram handler's parsing and selection helpers: callback-data
 * dispatch, the invoice payload, the pre-purchase checks with their
 * first-available-server search, and the small formatting functions.
 */
module BotHelpers {
  import opened Outcomes
  import opened GoText
  import opened Models
  import opened Database

  // ---------------------------------------------------------------- admins

  /** IsAdmin: the user's id is one of the configured admin ids. */
  function IsAdmin(adminIds: seq<int>, userId: int): (r: bool)
    ensures r <==> userId in adminIds
    decreases |adminIds|
  {
    if adminIds == [] then false
    else adminIds[0] == userId || IsAdmin(adminIds[1..], userId)
  }

  // ---------------------------------------------------------------- callback data

  /** Where handleCallbackQuery sends a button press. */
  datatype Dispatch =
    | Ignored
    | AdminMenu(selection: string)
    | ServerAction(action: string, serverId: int)
    | PlanAction(action: string, planId: int)
    | UserAction(action: string, userId: int)
    | StatsAction(action: string, param: int)
    | SubscriptionAction(action: string, subscriptionId: int)
    | BuyPlan(planId: int)
    | ShowBuyPlans
    | ServerConfirmDelete(serverId: int)

  /** The action words the dispatch switch has a case for. */
  const KnownActions: set<string> :=
    {"admin_menu", "server_action", "plan_action", "user_action", "stats_action",
     "subscription_action", "buy_plan", "show_buy_plans", "server_confirm_delete"}

  /**
   * The data is split on ':'; the first part selects the case. Ids read with
   * `id, _ := Atoi` take Atoi's fallback value; only user_action rejects a
   * malformed id. The plan_status handling written inside the
   * server_confirm_delete case needs data starting "plan_status:", which that
   * case never sees, so it is absent here.
   */
  function ParseCallback(data: string): Dispatch {
    var parts := Split(data, ':');
    if |parts| < 2 then Ignored
    else
      var action := parts[0];
      if action == "admin_menu" then AdminMenu(parts[1])
      else if action == "server_action" then
        if |parts| < 3 then Ignored else ServerAction(parts[1], AtoiValue(parts[2]))
      else if action == "plan_action" then
        if |parts| < 3 then Ignored else PlanAction(parts[1], AtoiValue(parts[2]))
      else if action == "user_action" then
        if |parts| < 3 || Atoi(parts[2]).None? then Ignored else UserAction(parts[1], Atoi(parts[2]).value)
      else if action == "stats_action" then
        if |parts| < 3 then Ignored else StatsAction(parts[1], AtoiValue(parts[2]))
      else if action == "subscription_action" then
        if |parts| < 3 then Ignored else SubscriptionAction(parts[1], AtoiValue(parts[2]))
      else if action == "buy_plan" then BuyPlan(AtoiValue(parts[1]))
      else if action == "show_buy_plans" then ShowBuyPlans
      else if action == "server_confirm_delete" then ServerConfirmDelete(AtoiValue(parts[1]))
      else Ignored
  }

  /** Data without a ':' has a single part and is ignored. */
  lemma NoColonIgnored(data: string)
    requires ':' !in data
    ensures ParseCallback(data) == Ignored
  {
    SplitWithoutSep(data, ':');
  }

  /** An action word the switch does not know is ignored, whatever follows it. */
  lemma UnknownActionIgnored(action: string, rest: string)
    requires ':' !in action && action !in KnownActions
    ensures ParseCallback(action + ":" + rest) == Ignored
  {
    assert action + ":" + rest == action + [':'] + rest;
    SplitAtFirst(action, ':', rest);
  }

  /** The status buttons of the plan-editing dialog ("plan_status:...") are never handled. */
  lemma PlanStatusNeverHandled(data: string)
    requires HasPrefix(data, "plan_status:")
    ensures ParseCallback(data) == Ignored
  {
    var rest := data[12..];
    assert data == "plan_status" + ":" + rest;
    UnknownActionIgnored("plan_status", rest);
  }

  /** The cancel button of the plan-editing dialog ("plan:view:<id>") is ignored too. */
  lemma CancelEditIgnored(planId: int)
    ensures ParseCallback("plan:view:" + Itoa(planId)) == Ignored
  {
    PlanViewWords(Itoa(planId));
    UnknownActionIgnored("plan", "view:" + Itoa(planId));
  }

  lemma PlanViewWords(id: string)
    ensures "plan:view:" + id == "plan" + ":" + ("view:" + id)
    ensures ':' !in "plan" && "plan" !in KnownActions
  {
  }

  /** An id-bearing action with only two parts is ignored. */
  lemma TwoPartsIgnored(action: string, word: string)
    requires action in {"server_action", "plan_action", "user_action", "stats_action", "subscription_action"}
    requires ':' !in word
    ensures ParseCallback(action + ":" + word) == Ignored
  {
    assert action + ":" + word == action + [':'] + word;
    SplitWithoutSep(word, ':');
    SplitAtFirst(action, ':', word);
  }

  lemma ItoaNoColon(n: int)
    ensures ':' !in Itoa(n)
  {
    var t := Itoa(n);
    assert forall i :: 0 <= i < |t| ==> t[i] == '-' || IsDigit(t[i]);
  }

  /** A button "plan_action:<action>:<id>" reaches handlePlanAction with that action and id. */
  lemma PlanActionRoundTrip(action: string, planId: int)
    requires ':' !in action && MinInt64 <= planId <= MaxInt64
    ensures ParseCallback("plan_action:" + action + ":" + Itoa(planId)) == PlanAction(action, planId)
  {
    var tail := Itoa(planId);
    ItoaNoColon(planId);
    var rest := action + [':'] + tail;
    assert "plan_action:" + action + ":" + tail == "plan_action" + [':'] + rest;
    SplitWithoutSep(tail, ':');
    SplitAtFirst(action, ':', tail);
    SplitAtFirst("plan_action", ':', rest);
    assert Split("plan_action:" + action + ":" + tail, ':') == ["plan_action", action, tail];
    AtoiItoa(planId);
  }

  // ---------------------------------------------------------------- purchase

  /** Why a purchase stops before anything is provisioned. */
  datatype PurchaseError =
    | BadPayload       // not two ':'-separated parts starting with "plan"
    | BadPlanId        // the id part is not an int64
    | PlanLookup(error: DbError)
    | PlanInactive
    | NoServer

  /** fmt.Sprintf("plan:%d", planID): the invoice payload handleBuyPlan sends. */
  function PlanPayload(planId: int): string {
    "plan:" + Itoa(planId)
  }

  /** The payload check of handleSuccessfulPayment. */
  function ParsePayload(payload: string): Result<int, PurchaseError> {
    var parts := Split(payload, ':');
    if |parts| != 2 || parts[0] != "plan" then Err(BadPayload)
    else if Atoi(parts[1]).None? then Err(BadPlanId)
    else Ok(Atoi(parts[1]).value)
  }

  /** The payload handleBuyPlan sends is read back as the same plan id. */
  lemma PayloadRoundTrip(planId: int)
    requires MinInt64 <= planId <= MaxInt64
    ensures ParsePayload(PlanPayload(planId)) == Ok(planId)
  {
    var tail := Itoa(planId);
    AtoiItoa(planId);
    ItoaNoColon(planId);
    assert PlanPayload(planId) == "plan" + [':'] + tail;
    SplitWithoutSep(tail, ':');
    SplitAtFirst("plan", ':', tail);
  }

  /** An accepted payload is exactly "plan:" followed by the decimal id and nothing else. */
  lemma {:induction false} PayloadExact(payload: string)
    requires ParsePayload(payload).Ok?
    ensures var body := Split(payload, ':')[1];
      payload == "plan:" + body && ':' !in body && Atoi(body) == Some(ParsePayload(payload).value)
  {
    var parts := Split(payload, ':');
    JoinSplit(payload, ':');
    SplitNoSep(payload, ':');
    assert JoinWith(parts, ':') == parts[0] + [':'] + JoinWith(parts[1..], ':');
    assert parts[1..] == [parts[1]];
  }

  /** The condition of the server-selection loop. */
  predicate Available(s: Server) {
    s.isActive && s.currentClients < s.maxClients
  }

  /** The server loop with break: the position of the first available server, if any. */
  method FirstAvailable(servers: seq<Server>) returns (r: Option<nat>)
    ensures r.Some? ==> r.value < |servers| && Available(servers[r.value])
    ensures r.Some? ==> forall k :: 0 <= k < r.value ==> !Available(servers[k])
    ensures r.None? <==> forall k :: 0 <= k < |servers| ==> !Available(servers[k])
  {
    r := None;
    var i := 0;
    while i < |servers|
      invariant 0 <= i <= |servers|
      invariant forall k :: 0 <= k < i ==> !Available(servers[k])
    {
      if Available(servers[i]) {
        r := Some(i);
        break;
      }
      i := i + 1;
    }
  }

  /**
   * handleBuyPlan's checks before the invoice: the plan must exist and be
   * active, and some server must have room. servers is what GetAllServers
   * returned.
   */
  method CheckBuyPlan(db: DB, planId: int, servers: seq<Server>) returns (r: Result<(Plan, Server), PurchaseError>)
    ensures db.GetSubscriptionPlanByID(planId).Err? <==> r == Err(PlanLookup(NoRows))
    ensures r.Ok? ==> planId in db.plans && r.value.0 == db.plans[planId] && r.value.0.isActive
    ensures r == Err(PlanInactive) <==> planId in db.plans && !db.plans[planId].isActive
    ensures r == Err(NoServer) <==>
      planId in db.plans && db.plans[planId].isActive && forall k :: 0 <= k < |servers| ==> !Available(servers[k])
    ensures r.Ok? ==> exists k :: 0 <= k < |servers| && r.value.1 == servers[k] && Available(servers[k])
                                  && forall j :: 0 <= j < k ==> !Available(servers[j])
  {
    var plan := db.GetSubscriptionPlanByID(planId);
    if plan.Err? {
      return Err(PlanLookup(plan.error));
    }
    if !plan.value.isActive {
      return Err(PlanInactive);
    }
    var k := FirstAvailable(servers);
    if k.None? {
      return Err(NoServer);
    }
    r := Ok((plan.value, servers[k.value]));
  }

  /**
   * handleSuccessfulPayment's checks before provisioning: the payload, the
   * plan lookup and the server search. Unlike handleBuyPlan it does not look
   * at the plan's is_active flag.
   */
  method CheckPayment(db: DB, payload: string, servers: seq<Server>) returns (r: Result<(Plan, Server), PurchaseError>)
    ensures ParsePayload(payload).Err? ==> r == Err(ParsePayload(payload).error)
    ensures ParsePayload(payload).Ok? && ParsePayload(payload).value !in db.plans ==> r == Err(PlanLookup(NoRows))
    ensures r.Ok? ==> ParsePayload(payload).Ok? && ParsePayload(payload).value in db.plans
                      && r.value.0 == db.plans[ParsePayload(payload).value]
    ensures r == Err(NoServer) <==>
      ParsePayload(payload).Ok? && ParsePayload(payload).value in db.plans
      && forall k :: 0 <= k < |servers| ==> !Available(servers[k])
    ensures r.Ok? ==> exists k :: 0 <= k < |servers| && r.value.1 == servers[k] && Available(servers[k])
                                  && forall j :: 0 <= j < k ==> !Available(servers[j])
    ensures r != Err(PlanInactive)
  {
    var id := ParsePayload(payload);
    if id.Err? {
      return Err(id.error);
    }
    var plan := db.GetSubscriptionPlanByID(id.value);
    if plan.Err? {
      return Err(PlanLookup(plan.error));
    }
    var k := FirstAvailable(servers);
    if k.None? {
      return Err(NoServer);
    }
    r := Ok((plan.value, servers[k.value]));
  }

  // ---------------------------------------------------------------- formatting

  type Byte = b: int | 0 <= b < 256

  const Star: Byte := 42  // '*'

  function Stars(n: nat): (r: seq<Byte>)
    ensures |r| == n && forall i :: 0 <= i < n ==> r[i] == Star
  {
    seq(n, _ => Star)
  }

  /**
   * maskPassword over the password's bytes: two stars for up to two bytes,
   * otherwise the first and last byte around stars.
   */
  function MaskPassword(p: seq<Byte>): (r: seq<Byte>)
    ensures |p| <= 2 ==> r == [Star, Star]
    ensures |p| > 2 ==> |r| == |p| && r[0] == p[0] && r[|r| - 1] == p[|p| - 1]
    ensures |p| > 2 ==> forall i :: 0 < i < |r| - 1 ==> r[i] == Star
  {
    if |p| <= 2 then [Star, Star] else p[..1] + Stars(|p| - 2) + p[|p| - 1..]
  }

  /** The mask shows nothing beyond the length and the two end bytes. */
  lemma MaskHidesMiddle(p: seq<Byte>, q: seq<Byte>)
    requires |p| == |q| && (|p| <= 2 || (p[0] == q[0] && p[|p| - 1] == q[|q| - 1]))
    ensures MaskPassword(p) == MaskPassword(q)
  {
    if |p| > 2 {
      var a, b := MaskPassword(p), MaskPassword(q);
      assert forall i :: 0 <= i < |a| ==> a[i] == b[i];
    }
  }

  function Pow1024(e: nat): (r: nat)
    ensures r >= 1
  {
    if e == 0 then 1 else 1024 * Pow1024(e - 1)
  }

  /** What formatBytes prints: "<n> B", or the value divided by div with a unit letter. */
  datatype ByteSize = Plain(n: int) | Scaled(div: int, exp: nat, unit: char)

  const Units := "KMGTPE"

  lemma MulMono(x: nat, y: nat, k: nat)
    requires x <= y
    ensures x * k <= y * k
  {
  }

  /** One round of the loop keeps n * div <= bytes < (n + 1) * div. */
  lemma ScaleStep(n: nat, div: nat, bytes: int)
    requires n * div <= bytes < (n + 1) * div
    ensures (n / 1024) * (div * 1024) <= bytes < (n / 1024 + 1) * (div * 1024)
  {
    var m := n / 1024;
    assert m * 1024 <= n && n + 1 <= (m + 1) * 1024;
    MulMono(m * 1024, n, div);
    MulMono(n + 1, (m + 1) * 1024, div);
    assert m * (div * 1024) == (m * 1024) * div;
    assert (m + 1) * (div * 1024) == ((m + 1) * 1024) * div;
  }

  lemma ScaleEnd(n: nat, div: nat, bytes: int)
    requires 1 <= n < 1024 && n * div <= bytes < (n + 1) * div
    ensures div <= bytes < 1024 * div
  {
    MulMono(1, n, div);
    MulMono(n + 1, 1024, div);
  }

  lemma SeventhPower()
    ensures Pow1024(7) == 1180591620717411303424
  {
  }

  /**
   * The unit loop of formatBytes on an int64: below 1024 the number is printed
   * as is; otherwise div = 1024^(exp+1) is the largest power with div <= bytes,
   * and exp stays within the six unit letters.
   */
  method FormatBytes(bytes: int) returns (f: ByteSize)
    requires MinInt64 <= bytes <= MaxInt64
    ensures bytes < 1024 ==> f == Plain(bytes)
    ensures bytes >= 1024 ==> f.Scaled? && f.exp < |Units| && f.unit == Units[f.exp]
    ensures bytes >= 1024 ==> f.div == Pow1024(f.exp + 1) && f.div <= bytes < 1024 * f.div
  {
    if bytes < 1024 {
      return Plain(bytes);
    }
    var div, exp := 1024, 0;
    var n := bytes / 1024;
    SeventhPower();
    while n >= 1024
      invariant div == Pow1024(exp + 1) && 1 <= n
      invariant n * div <= bytes < (n + 1) * div
      invariant exp <= 5
      decreases n
    {
      ScaleStep(n, div, bytes);
      div := div * 1024;
      exp := exp + 1;
      n := n / 1024;
    }
    ScaleEnd(n, div, bytes);
    f := Scaled(div, exp, Units[exp]);
  }

  /** getStatusText and getStatusEmoji. */
  function StatusText(isActive: bool): string {
    if isActive then "Активен" else "Неактивен"
  }

  function StatusEmoji(isActive: bool): string {
    if isActive then "🟢" else "🔴"
  }

  /** The status text and the emoji each tell the two states apart. */
  lemma StatusDistinct(a: bool, b: bool)
    requires StatusText(a) == StatusText(b) || StatusEmoji(a) == StatusEmoji(b)
    ensures a == b
  {
  }
}
