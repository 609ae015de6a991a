/**
 * The handler's per-user dialog state machine: userStates maps a Telegram
 * user id to the dialog stage and the answers collected so far. A text
 * message first goes to the menu buttons; only otherwise does the user's
 * stage consume it, storing the answer and moving on, keeping the stage on
 * invalid input, or finishing the dialog with calls on its collaborators,
 * after which the state is gone whatever those calls returned.
 *
 * Collaborator calls are recorded as Requests. strconv.ParseFloat's verdict
 * on a price and the outcome of vpnManager.SetupServer are given in an Env;
 * the outcome of the database writes does not change the dialog state, so
 * it does not appear. Reply messages are not modelled.
 */
module Dialog {
  import opened Outcomes
  import opened GoText
  import opened Models
  import opened Database
  import opened BotHelpers

  /** UserState: the stage and the collected answers (PreviousState is never written). */
  datatype UserState = UserState(state: string, data: map<string, string>)

  /** Reading a Go map: a missing key gives "". */
  function Get(data: map<string, string>, key: string): string {
    if key in data then data[key] else ""
  }

  /** A call made when a dialog finishes. */
  datatype Request =
    | SetupServer(server: Server)       // vpnManager.SetupServer
    | AddServer(server: Server)         // db.AddServer
    | AddPlan(plan: Plan)               // db.AddSubscriptionPlan
    | UpdatePlan(plan: Plan)            // db.UpdateSubscriptionPlan

  /** Outcomes the model takes as given. */
  datatype Env = Env(isFloat: string -> bool, setupOk: bool)

  /** The reply-keyboard texts handleMenuButtonPress consumes. */
  const MenuTexts: set<string> :=
    {"💰 Купить подписку", "🔑 Мои подписки", "ℹ️ Помощь", "📞 Поддержка", "⚙️ Админ-панель"}

  // ---------------------------------------------------------------- the dialog, as a table

  /** What an answer must be for a stage to accept it. */
  datatype Check = AnyText | IntText | FloatText

  /**
   * A stage that stores its answer under key and moves to next. A stage with
   * a keep key treats "." as "keep the current value" and copies that key.
   */
  datatype Field = Field(key: string, next: string, check: Check, keep: Option<string>)

  function FieldOf(state: string): Option<Field> {
    if state == "add_server_ip" then Some(Field("ip", "add_server_port", AnyText, None))
    else if state == "add_server_port" then Some(Field("port", "add_server_username", IntText, None))
    else if state == "add_server_username" then Some(Field("username", "add_server_password", AnyText, None))
    else if state == "add_server_password" then Some(Field("password", "add_server_max_clients", AnyText, None))
    else if state == "add_plan_name" then Some(Field("name", "add_plan_description", AnyText, None))
    else if state == "add_plan_description" then Some(Field("description", "add_plan_price", AnyText, None))
    else if state == "add_plan_price" then Some(Field("price", "add_plan_duration", FloatText, None))
    else if state == "edit_plan_name" then Some(Field("new_name", "edit_plan_description", AnyText, Some("name")))
    else if state == "edit_plan_description" then
      Some(Field("new_description", "edit_plan_price", AnyText, Some("description")))
    else if state == "edit_plan_price" then Some(Field("new_price", "edit_plan_duration", FloatText, Some("price")))
    else if state == "edit_plan_duration" then
      Some(Field("new_duration", "edit_plan_status", IntText, Some("duration")))
    else None
  }

  predicate Accepts(c: Check, text: string, env: Env) {
    match c
    case AnyText => true
    case IntText => Atoi(text).Some?
    case FloatText => env.isFloat(text)
  }

  /** What one message does to the user's entry. */
  datatype Step = Stay | Move(st: UserState) | Done(requests: seq<Request>)

  /** The server the add-server dialog builds from its answers. */
  function NewServer(data: map<string, string>, maxClients: int): Server {
    Server(0, Get(data, "ip"), AtoiValue(Get(data, "port")), Get(data, "username"), Get(data, "password"),
           maxClients, 0, true)
  }

  /** The plan the edit dialog writes back. */
  function EditedPlan(data: map<string, string>): Plan {
    Plan(AtoiValue(Get(data, "plan_id")), Get(data, "new_name"), Get(data, "new_description"),
         AtoiValue(Get(data, "new_duration")), Get(data, "new_is_active") == "true")
  }

  /** The stages that finish a dialog, and every stage the switch does not know. */
  function Finish(st: UserState, text: string, env: Env): Step {
    if st.state == "add_server_max_clients" then
      if Atoi(text).None? then Stay
      else
        var server := NewServer(st.data, Atoi(text).value);
        Done(if env.setupOk then [SetupServer(server), AddServer(server)] else [SetupServer(server)])
    else if st.state == "add_plan_duration" then
      if Atoi(text).None? then Stay
      else Done([AddPlan(Plan(0, Get(st.data, "name"), Get(st.data, "description"), Atoi(text).value, true))])
    else if st.state == "edit_plan_status" then Done([UpdatePlan(EditedPlan(st.data))])
    else Done([])
  }

  function StepOf(st: UserState, text: string, env: Env): Step {
    match FieldOf(st.state)
    case Some(f) =>
      if f.keep.Some? && text == "." then Move(UserState(f.next, st.data[f.key := Get(st.data, f.keep.value)]))
      else if Accepts(f.check, text, env) then Move(UserState(f.next, st.data[f.key := text]))
      else Stay
    case None => Finish(st, text, env)
  }

  /** handleStateBasedInput on the whole table: menu texts first, then the user's stage. */
  function StatesAfter(states: map<int, UserState>, userId: int, text: string, env: Env): map<int, UserState> {
    if text in MenuTexts || userId !in states then states
    else
      match StepOf(states[userId], text, env)
      case Stay => states
      case Move(st) => states[userId := st]
      case Done(_) => states - {userId}
  }

  function RequestsAfter(states: map<int, UserState>, userId: int, text: string, env: Env): seq<Request> {
    if text in MenuTexts || userId !in states then []
    else
      match StepOf(states[userId], text, env)
      case Done(requests) => requests
      case _ => []
  }

  // ---------------------------------------------------------------- dialog entry points

  /** startServerAddition's initial state, with its unused defaults. */
  const ServerDialogStart := UserState("add_server_ip", map["port" := "22", "max_clients" := "10", "is_active" := "true"])

  /** handlePlanAction "add": the add-plan dialog starts with no answers. */
  const PlanDialogStart := UserState("add_plan_name", map[])

  /** strconv.FormatBool */
  function FormatBool(b: bool): string {
    if b then "true" else "false"
  }

  /**
   * handlePlanAction "edit": the plan's current values; priceText is the
   * price as "%.2f" prints it.
   */
  function EditDialogStart(p: Plan, priceText: string): UserState {
    UserState("edit_plan_name",
              map["plan_id" := Itoa(p.id), "name" := p.name, "description" := p.description,
                  "price" := priceText, "duration" := Itoa(p.duration), "is_active" := FormatBool(p.isActive)])
  }

  /**
   * The plan_status button handling written at the end of the
   * server_confirm_delete case, as it was evidently meant to run: in the
   * edit_plan_status stage the choice sets new_is_active (an unknown choice
   * sets nothing) and the stage is then run with an empty text.
   */
  function StatusChosen(states: map<int, UserState>, userId: int, choice: string): map<int, UserState> {
    if userId in states && states[userId].state == "edit_plan_status" then
      var st := states[userId];
      var data :=
        if choice == "active" then st.data["new_is_active" := "true"]
        else if choice == "inactive" then st.data["new_is_active" := "false"]
        else if choice == "current" then st.data["new_is_active" := Get(st.data, "is_active")]
        else st.data;
      states[userId := UserState(st.state, data)]
    else states
  }

  // ---------------------------------------------------------------- the handler

  class BotHandler {
    var userStates: map<int, UserState>
    const adminIds: seq<int>

    constructor (adminIds: seq<int>)
      ensures this.adminIds == adminIds && userStates == map[]
    {
      this.adminIds := adminIds;
      userStates := map[];
    }

    /** handleStateBasedInput for the message text from userId. */
    method HandleStateBasedInput(userId: int, text: string, env: Env) returns (requests: seq<Request>)
      modifies this`userStates
      ensures userStates == StatesAfter(old(userStates), userId, text, env)
      ensures requests == RequestsAfter(old(userStates), userId, text, env)
    {
      requests := [];
      if text != "" && text in MenuTexts {
        return;
      }
      if userId !in userStates {
        return;
      }
      var step := StateStep(userStates[userId], text, env);
      match step
      case Stay =>
      case Move(st) =>
        userStates := userStates[userId := st];
      case Done(rs) =>
        requests := rs;
        userStates := userStates - {userId};
    }

    /** startServerAddition. */
    method StartServerAddition(chatId: int)
      modifies this`userStates
      ensures userStates == old(userStates)[chatId := ServerDialogStart]
    {
      userStates := userStates[chatId := ServerDialogStart];
    }

    /**
     * The state changes of handlePlanAction: "edit" starts the edit dialog
     * when the plan is found, "add" starts the add dialog, "confirm_delete"
     * soft-deletes the plan; nothing else changes either table.
     */
    method HandlePlanAction(db: DB, chatId: int, action: string, planId: int, priceText: string)
      requires db.Valid()
      modifies this`userStates, db`plans
      ensures db.Valid()
      ensures action == "edit" && planId in db.plans ==>
        userStates == old(userStates)[chatId := EditDialogStart(db.plans[planId], priceText)]
      ensures action == "add" ==> userStates == old(userStates)[chatId := PlanDialogStart]
      ensures action != "add" && (action != "edit" || planId !in db.plans) ==> userStates == old(userStates)
      ensures action == "confirm_delete" && planId in old(db.plans) ==>
        db.plans == old(db.plans)[planId := old(db.plans)[planId].(isActive := false)]
      ensures action != "confirm_delete" || planId !in old(db.plans) ==> db.plans == old(db.plans)
    {
      if action == "edit" {
        var plan := db.GetSubscriptionPlanByID(planId);
        if plan.Err? {
          return;
        }
        userStates := userStates[chatId := EditDialogStart(plan.value, priceText)];
      } else if action == "confirm_delete" {
        db.DeleteSubscriptionPlan(planId);
      } else if action == "add" {
        userStates := userStates[chatId := PlanDialogStart];
      }
    }

    /**
     * handleServerAction "edit": a found server puts the user in the
     * "editing_server" stage, which no branch of handleStateBasedInput knows.
     */
    method StartServerEditing(db: DB, chatId: int, serverId: int)
      modifies this`userStates
      ensures serverId in db.servers ==>
        userStates == old(userStates)[chatId := UserState("editing_server", map["server_id" := Itoa(serverId)])]
      ensures serverId !in db.servers ==> userStates == old(userStates)
    {
      var server := db.GetServerByID(serverId);
      if server.Err? {
        return;
      }
      userStates := userStates[chatId := UserState("editing_server", map["server_id" := Itoa(serverId)])];
    }

    /** The intended plan_status button handling (see StatusChosen). */
    method ChoosePlanStatus(userId: int, choice: string, env: Env) returns (requests: seq<Request>)
      modifies this`userStates
      ensures userId in old(userStates) && old(userStates)[userId].state == "edit_plan_status" ==>
        userStates == StatesAfter(StatusChosen(old(userStates), userId, choice), userId, "", env)
        && requests == RequestsAfter(StatusChosen(old(userStates), userId, choice), userId, "", env)
      ensures userId !in old(userStates) || old(userStates)[userId].state != "edit_plan_status" ==>
        userStates == old(userStates) && requests == []
    {
      requests := [];
      if userId !in userStates || userStates[userId].state != "edit_plan_status" {
        return;
      }
      var st := userStates[userId];
      var data := st.data;
      if choice == "active" {
        data := data["new_is_active" := "true"];
      } else if choice == "inactive" {
        data := data["new_is_active" := "false"];
      } else if choice == "current" {
        data := data["new_is_active" := Get(st.data, "is_active")];
      }
      userStates := userStates[userId := UserState(st.state, data)];
      requests := HandleStateBasedInput(userId, "", env);
    }
  }

  // ---------------------------------------------------------------- properties of the dialog

  /** The stages the switch of handleStateBasedInput has a case for. */
  const KnownStages: set<string> :=
    {"add_server_ip", "add_server_port", "add_server_username", "add_server_password", "add_server_max_clients",
     "add_plan_name", "add_plan_description", "add_plan_price", "add_plan_duration",
     "edit_plan_name", "edit_plan_description", "edit_plan_price", "edit_plan_duration", "edit_plan_status"}

  /** A menu text, or a user without a dialog: the table is untouched and nothing is called. */
  lemma MenuFirst(states: map<int, UserState>, userId: int, text: string, env: Env)
    requires text in MenuTexts || userId !in states
    ensures StatesAfter(states, userId, text, env) == states && RequestsAfter(states, userId, text, env) == []
  {
  }

  /** A stage the switch does not know (such as "editing_server") is deleted by the next message. */
  lemma UnknownStageDropped(states: map<int, UserState>, userId: int, text: string, env: Env)
    requires userId in states && states[userId].state !in KnownStages && text !in MenuTexts
    ensures StatesAfter(states, userId, text, env) == states - {userId}
    ensures RequestsAfter(states, userId, text, env) == []
  {
    assert FieldOf(states[userId].state) == None;
  }

  /** An answer a stage rejects leaves the whole table as it was. */
  lemma RejectedKeepsState(states: map<int, UserState>, userId: int, text: string, env: Env)
    requires userId in states && text !in MenuTexts
    requires FieldOf(states[userId].state).Some?
    requires var f := FieldOf(states[userId].state).value;
      !(f.keep.Some? && text == ".") && !Accepts(f.check, text, env)
    ensures StatesAfter(states, userId, text, env) == states && RequestsAfter(states, userId, text, env) == []
  {
  }

  /** An accepted answer is stored under the stage's key and the dialog moves to the next stage. */
  lemma Advance(states: map<int, UserState>, userId: int, st: UserState, f: Field, text: string, env: Env)
    requires text !in MenuTexts && FieldOf(st.state) == Some(f)
    requires !(f.keep.Some? && text == ".") && Accepts(f.check, text, env)
    ensures StatesAfter(states[userId := st], userId, text, env) == states[userId := UserState(f.next, st.data[f.key := text])]
  {
  }

  /** "." in an edit stage copies the current value under the new key. */
  lemma KeepDot(states: map<int, UserState>, userId: int, st: UserState, f: Field, env: Env)
    requires FieldOf(st.state) == Some(f) && f.keep.Some?
    ensures StatesAfter(states[userId := st], userId, ".", env)
              == states[userId := UserState(f.next, st.data[f.key := Get(st.data, f.keep.value)])]
  {
    assert "." !in MenuTexts;
  }

  /** A whole number in the last add-server stage finishes the dialog, whatever SetupServer does. */
  lemma FinishServer(states: map<int, UserState>, userId: int, d: map<string, string>, text: string, env: Env)
    requires text !in MenuTexts && Atoi(text).Some?
    ensures var s := states[userId := UserState("add_server_max_clients", d)];
      var server := NewServer(d, Atoi(text).value);
      StatesAfter(s, userId, text, env) == states - {userId}
      && RequestsAfter(s, userId, text, env)
         == if env.setupOk then [SetupServer(server), AddServer(server)] else [SetupServer(server)]
  {
    assert FieldOf("add_server_max_clients") == None;
    var s := states[userId := UserState("add_server_max_clients", d)];
    assert s - {userId} == states - {userId};
  }

  /**
   * The add-server dialog from startServerAddition: five answers, each stored
   * under its key, then SetupServer and, only if that succeeded, AddServer
   * with the collected values; the dialog is gone either way.
   */
  lemma AddServerDialog(states: map<int, UserState>, userId: int, ip: string, port: string, user: string,
                        password: string, maxClients: string, env: Env)
    requires ip !in MenuTexts && port !in MenuTexts && user !in MenuTexts
    requires password !in MenuTexts && maxClients !in MenuTexts
    requires Atoi(port).Some? && Atoi(maxClients).Some?
    ensures
      var s1 := StatesAfter(states[userId := ServerDialogStart], userId, ip, env);
      var s2 := StatesAfter(s1, userId, port, env);
      var s3 := StatesAfter(s2, userId, user, env);
      var s4 := StatesAfter(s3, userId, password, env);
      var server := Server(0, ip, Atoi(port).value, user, password, Atoi(maxClients).value, 0, true);
      userId in s4 && s4[userId].state == "add_server_max_clients"
      && StatesAfter(s4, userId, maxClients, env) == states - {userId}
      && RequestsAfter(s4, userId, maxClients, env)
         == if env.setupOk then [SetupServer(server), AddServer(server)] else [SetupServer(server)]
  {
    var d0 := ServerDialogStart.data;
    var d1 := d0["ip" := ip];
    var d2 := d1["port" := port];
    var d3 := d2["username" := user];
    var d4 := d3["password" := password];
    Advance(states, userId, ServerDialogStart, Field("ip", "add_server_port", AnyText, None), ip, env);
    Advance(states, userId, UserState("add_server_port", d1), Field("port", "add_server_username", IntText, None), port, env);
    Advance(states, userId, UserState("add_server_username", d2), Field("username", "add_server_password", AnyText, None), user, env);
    Advance(states, userId, UserState("add_server_password", d3), Field("password", "add_server_max_clients", AnyText, None), password, env);
    assert Get(d4, "ip") == ip && Get(d4, "port") == port;
    assert Get(d4, "username") == user && Get(d4, "password") == password;
    FinishServer(states, userId, d4, maxClients, env);
  }

  /**
   * The add-plan dialog from handlePlanAction "add": name, description, a
   * price ParseFloat accepts and a whole number of days give one
   * AddSubscriptionPlan of an active plan, and the dialog is gone.
   */
  lemma AddPlanDialog(states: map<int, UserState>, userId: int, name: string, description: string,
                      price: string, duration: string, env: Env)
    requires name !in MenuTexts && description !in MenuTexts && price !in MenuTexts && duration !in MenuTexts
    requires env.isFloat(price) && Atoi(duration).Some?
    ensures
      var s1 := StatesAfter(states[userId := PlanDialogStart], userId, name, env);
      var s2 := StatesAfter(s1, userId, description, env);
      var s3 := StatesAfter(s2, userId, price, env);
      userId in s3 && s3[userId].state == "add_plan_duration"
      && StatesAfter(s3, userId, duration, env) == states - {userId}
      && RequestsAfter(s3, userId, duration, env) == [AddPlan(Plan(0, name, description, Atoi(duration).value, true))]
  {
    var d1 := map["name" := name];
    var d2 := d1["description" := description];
    var d3 := d2["price" := price];
    Advance(states, userId, PlanDialogStart, Field("name", "add_plan_description", AnyText, None), name, env);
    Advance(states, userId, UserState("add_plan_description", d1), Field("description", "add_plan_price", AnyText, None), description, env);
    Advance(states, userId, UserState("add_plan_price", d2), Field("price", "add_plan_duration", FloatText, None), price, env);
    var s3 := states[userId := UserState("add_plan_duration", d3)];
    assert Get(d3, "name") == name && Get(d3, "description") == description;
    assert s3 - {userId} == states - {userId};
  }

  /** The answers of an edit dialog in which every stage got ".". */
  function KeptData(p: Plan, priceText: string): map<string, string> {
    EditDialogStart(p, priceText).data["new_name" := p.name]["new_description" := p.description]
      ["new_price" := priceText]["new_duration" := Itoa(p.duration)]
  }

  /** Four "." answers take the edit dialog to the status stage with every current value kept. */
  lemma EditDotsReachStatus(states: map<int, UserState>, userId: int, p: Plan, priceText: string, env: Env)
    ensures
      var s1 := StatesAfter(states[userId := EditDialogStart(p, priceText)], userId, ".", env);
      var s2 := StatesAfter(s1, userId, ".", env);
      var s3 := StatesAfter(s2, userId, ".", env);
      StatesAfter(s3, userId, ".", env) == states[userId := UserState("edit_plan_status", KeptData(p, priceText))]
  {
    var d0 := EditDialogStart(p, priceText).data;
    var d1 := d0["new_name" := p.name];
    var d2 := d1["new_description" := p.description];
    var d3 := d2["new_price" := priceText];
    KeepDot(states, userId, EditDialogStart(p, priceText), Field("new_name", "edit_plan_description", AnyText, Some("name")), env);
    assert Get(d0, "name") == p.name;
    KeepDot(states, userId, UserState("edit_plan_description", d1),
            Field("new_description", "edit_plan_price", AnyText, Some("description")), env);
    assert Get(d1, "description") == p.description;
    KeepDot(states, userId, UserState("edit_plan_price", d2), Field("new_price", "edit_plan_duration", FloatText, Some("price")), env);
    assert Get(d2, "price") == priceText;
    KeepDot(states, userId, UserState("edit_plan_duration", d3),
            Field("new_duration", "edit_plan_status", IntText, Some("duration")), env);
    assert Get(d3, "duration") == Itoa(p.duration);
  }

  /** EditedPlan reads back the plan whose id and duration were stored as decimal text. */
  lemma EditedPlanOf(d: map<string, string>, p: Plan)
    requires MinInt64 <= p.id <= MaxInt64 && MinInt64 <= p.duration <= MaxInt64
    requires Get(d, "plan_id") == Itoa(p.id) && Get(d, "new_duration") == Itoa(p.duration)
    requires Get(d, "new_name") == p.name && Get(d, "new_description") == p.description
    ensures EditedPlan(d) == p.(isActive := Get(d, "new_is_active") == "true")
  {
    AtoiItoa(p.id);
    AtoiItoa(p.duration);
  }

  lemma KeptDataReads(p: Plan, priceText: string)
    ensures var d := KeptData(p, priceText);
      Get(d, "plan_id") == Itoa(p.id) && Get(d, "new_duration") == Itoa(p.duration)
      && Get(d, "new_name") == p.name && Get(d, "new_description") == p.description
      && Get(d, "is_active") == FormatBool(p.isActive) && "new_is_active" !in d
  {
  }

  /** Any message in the status stage finishes the edit with the plan built from the answers. */
  lemma FinishStatus(states: map<int, UserState>, userId: int, d: map<string, string>, text: string, env: Env)
    requires text !in MenuTexts
    ensures var s := states[userId := UserState("edit_plan_status", d)];
      RequestsAfter(s, userId, text, env) == [UpdatePlan(EditedPlan(d))]
      && StatesAfter(s, userId, text, env) == states - {userId}
  {
    assert FieldOf("edit_plan_status") == None;
    var s := states[userId := UserState("edit_plan_status", d)];
    assert s - {userId} == states - {userId};
  }

  /** A status choice in the status stage stores the chosen flag as new_is_active. */
  lemma ChoiceStored(states: map<int, UserState>, userId: int, d: map<string, string>, choice: string)
    requires choice in {"active", "inactive", "current"}
    ensures StatusChosen(states[userId := UserState("edit_plan_status", d)], userId, choice)
      == states[userId := UserState("edit_plan_status", d["new_is_active" :=
           if choice == "active" then "true" else if choice == "inactive" then "false" else Get(d, "is_active")])]
  {
  }

  /**
   * As written: the status buttons are never handled, so the next text the
   * admin sends finishes the edit with new_is_active unset, which writes the
   * plan back as inactive even though every value was kept.
   */
  lemma EditKeepingEverythingDeactivates(states: map<int, UserState>, userId: int, p: Plan, priceText: string,
                                         text: string, env: Env)
    requires MinInt64 <= p.id <= MaxInt64 && MinInt64 <= p.duration <= MaxInt64
    requires text !in MenuTexts
    ensures var s4 := states[userId := UserState("edit_plan_status", KeptData(p, priceText))];
      RequestsAfter(s4, userId, text, env) == [UpdatePlan(p.(isActive := false))]
      && StatesAfter(s4, userId, text, env) == states - {userId}
  {
    var d := KeptData(p, priceText);
    KeptDataReads(p, priceText);
    EditedPlanOf(d, p);
    FinishStatus(states, userId, d, text, env);
  }

  /**
   * With the status buttons handled as intended, keeping everything writes
   * the plan back unchanged, and choosing active or inactive sets that flag.
   */
  lemma EditKeepingEverythingIntended(states: map<int, UserState>, userId: int, p: Plan, priceText: string,
                                      choice: string, env: Env)
    requires MinInt64 <= p.id <= MaxInt64 && MinInt64 <= p.duration <= MaxInt64
    requires choice in {"active", "inactive", "current"}
    ensures var s4 := states[userId := UserState("edit_plan_status", KeptData(p, priceText))];
      var s5 := StatusChosen(s4, userId, choice);
      RequestsAfter(s5, userId, "", env)
        == [UpdatePlan(p.(isActive := if choice == "current" then p.isActive else choice == "active"))]
      && StatesAfter(s5, userId, "", env) == states - {userId}
  {
    KeptDataReads(p, priceText);
    ChosenPlan(states, userId, KeptData(p, priceText), p, choice, env);
  }

  /** A status choice followed by any message writes back the plan with the chosen flag. */
  lemma ChosenPlan(states: map<int, UserState>, userId: int, d: map<string, string>, p: Plan,
                   choice: string, env: Env)
    requires MinInt64 <= p.id <= MaxInt64 && MinInt64 <= p.duration <= MaxInt64
    requires Get(d, "plan_id") == Itoa(p.id) && Get(d, "new_duration") == Itoa(p.duration)
    requires Get(d, "new_name") == p.name && Get(d, "new_description") == p.description
    requires Get(d, "is_active") == FormatBool(p.isActive)
    requires choice in {"active", "inactive", "current"}
    ensures var s5 := StatusChosen(states[userId := UserState("edit_plan_status", d)], userId, choice);
      RequestsAfter(s5, userId, "", env)
        == [UpdatePlan(p.(isActive := if choice == "current" then p.isActive else choice == "active"))]
      && StatesAfter(s5, userId, "", env) == states - {userId}
  {
    EmptyNotMenu();
    var v := if choice == "active" then "true" else if choice == "inactive" then "false" else Get(d, "is_active");
    var d5 := d["new_is_active" := v];
    ChoiceStored(states, userId, d, choice);
    FlagKeepsAnswers(d, v);
    EditedPlanOf(d5, p);
    assert (v == "true") == (if choice == "current" then p.isActive else choice == "active");
    FinishStatus(states, userId, d5, "", env);
  }

  /** The empty answer is no menu button, so the dialog reads it as an answer. */
  lemma EmptyNotMenu()
    ensures "" !in MenuTexts
  {
  }

  /** Storing new_is_active leaves the other answers of the edit dialog as they were. */
  lemma FlagKeepsAnswers(d: map<string, string>, v: string)
    ensures var d5 := d["new_is_active" := v];
      Get(d5, "plan_id") == Get(d, "plan_id") && Get(d5, "new_duration") == Get(d, "new_duration")
      && Get(d5, "new_name") == Get(d, "new_name") && Get(d5, "new_description") == Get(d, "new_description")
      && Get(d5, "new_is_active") == v
  {
  }

  /** A finished add-server dialog calls AddServer only right after SetupServer of the same server. */
  lemma SetupBeforeAdd(states: map<int, UserState>, userId: int, text: string, env: Env)
    ensures var rs := RequestsAfter(states, userId, text, env);
      forall i :: 0 <= i < |rs| && rs[i].AddServer? ==> i == 1 && rs[0] == SetupServer(rs[1].server) && env.setupOk
  {
  }

  // ---------------------------------------------------------------- the switch, stage by stage

  /** The switch of handleStateBasedInput on the user's state, as the source writes it. */
  method StateStep(st: UserState, text: string, env: Env) returns (step: Step)
    ensures step == StepOf(st, text, env)
  {
    var data := st.data;
    var s := st.state;
    if s == "add_server_ip" || s == "add_server_port" || s == "add_server_username"
       || s == "add_server_password" || s == "add_server_max_clients" {
      step := AddServerStep(st, text, env);
    } else if s == "add_plan_name" || s == "add_plan_description" || s == "add_plan_price"
              || s == "add_plan_duration" {
      step := AddPlanStep(st, text, env);
    } else if s == "edit_plan_name" || s == "edit_plan_description" || s == "edit_plan_price"
              || s == "edit_plan_duration" || s == "edit_plan_status" {
      step := EditPlanStep(st, text, env);
    } else {
      step := Done([]);
    }
  }

  method AddServerStep(st: UserState, text: string, env: Env) returns (step: Step)
    requires st.state in {"add_server_ip", "add_server_port", "add_server_username",
                          "add_server_password", "add_server_max_clients"}
    ensures step == StepOf(st, text, env)
  {
    var data := st.data;
    if st.state == "add_server_ip" {
      data := data["ip" := text];
      step := Move(UserState("add_server_port", data));
    } else if st.state == "add_server_port" {
      if Atoi(text).None? {
        return Stay;
      }
      data := data["port" := text];
      step := Move(UserState("add_server_username", data));
    } else if st.state == "add_server_username" {
      data := data["username" := text];
      step := Move(UserState("add_server_password", data));
    } else if st.state == "add_server_password" {
      data := data["password" := text];
      step := Move(UserState("add_server_max_clients", data));
    } else {
      var maxClients := Atoi(text);
      if maxClients.None? {
        return Stay;
      }
      var server := NewServer(data, maxClients.value);
      var requests := [SetupServer(server)];
      if !env.setupOk {
        return Done(requests);
      }
      requests := requests + [AddServer(server)];
      step := Done(requests);
    }
  }

  method AddPlanStep(st: UserState, text: string, env: Env) returns (step: Step)
    requires st.state in {"add_plan_name", "add_plan_description", "add_plan_price", "add_plan_duration"}
    ensures step == StepOf(st, text, env)
  {
    var data := st.data;
    if st.state == "add_plan_name" {
      data := data["name" := text];
      step := Move(UserState("add_plan_description", data));
    } else if st.state == "add_plan_description" {
      data := data["description" := text];
      step := Move(UserState("add_plan_price", data));
    } else if st.state == "add_plan_price" {
      if !env.isFloat(text) {
        return Stay;
      }
      data := data["price" := text];
      step := Move(UserState("add_plan_duration", data));
    } else {
      var duration := Atoi(text);
      if duration.None? {
        return Stay;
      }
      step := Done([AddPlan(Plan(0, Get(data, "name"), Get(data, "description"), duration.value, true))]);
    }
  }

  method EditPlanStep(st: UserState, text: string, env: Env) returns (step: Step)
    requires st.state in {"edit_plan_name", "edit_plan_description", "edit_plan_price",
                          "edit_plan_duration", "edit_plan_status"}
    ensures step == StepOf(st, text, env)
  {
    var data := st.data;
    if st.state == "edit_plan_name" {
      if text != "." {
        data := data["new_name" := text];
      } else {
        data := data["new_name" := Get(data, "name")];
      }
      step := Move(UserState("edit_plan_description", data));
    } else if st.state == "edit_plan_description" {
      if text != "." {
        data := data["new_description" := text];
      } else {
        data := data["new_description" := Get(data, "description")];
      }
      step := Move(UserState("edit_plan_price", data));
    } else if st.state == "edit_plan_status" {
      step := Done([UpdatePlan(EditedPlan(data))]);
    } else {
      step := EditCheckedStep(st, text, env);
    }
  }

  /** The edit stages that validate a new value before storing it. */
  method EditCheckedStep(st: UserState, text: string, env: Env) returns (step: Step)
    requires st.state in {"edit_plan_price", "edit_plan_duration"}
    ensures step == StepOf(st, text, env)
  {
    var data := st.data;
    if st.state == "edit_plan_price" {
      if text != "." {
        if !env.isFloat(text) {
          return Stay;
        }
        data := data["new_price" := text];
      } else {
        data := data["new_price" := Get(data, "price")];
      }
      step := Move(UserState("edit_plan_duration", data));
    } else {
      if text != "." {
        if Atoi(text).None? {
          return Stay;
        }
        data := data["new_duration" := text];
      } else {
        data := data["new_duration" := Get(data, "duration")];
      }
      step := Move(UserState("edit_plan_status", data));
    }
  }
}
