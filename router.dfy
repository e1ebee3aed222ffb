/** The router `route_commerce_message_with_profiles`
    (router_profiles_enhanced.py, lines 403-485): look up the user's active
    session, decide whether to continue it, start a session for another
    service, or refuse, and hand the message to the conversation engine.

    `cleanup_expired_sessions`, called when a new session is forced and when
    the user switches service, is not defined anywhere in the file. The
    route takes it as an optional external step over the table: `None` is
    the file as written, where reaching the call raises `NameError` and the
    route ends with that exception; `Some(step)` applies the step to the
    rows and routing goes on. */
module Router {
  import opened Wrappers
  import opened Text
  import opened Registry
  import opened Intent
  import opened Profiles
  import opened Sessions
  import opened Engine

  /** Why the router answers without a session. */
  datatype Refusal = OutOfScope | Unsupported(tag: string)

  const ScopeText := "I specialize in commerce services like ordering food, booking rides, etc. For general questions, please use the main assistant."

  function RefusalText(r: Refusal): string {
    match r
    case OutOfScope => ScopeText
    case Unsupported(tag) => UnsupportedLead + tag + UnsupportedTail + Join(Tags(), ", ")
  }

  const UnsupportedLead := "Sorry, I don't support '"
  const UnsupportedTail := "' yet. Available services: "

  const CreateFailedLead := "Sorry, I couldn't create a session for "
  const CreateFailedTail := ". Please check your database connection and try again."

  function CreateFailedText(service: string): string {
    CreateFailedLead + service + CreateFailedTail
  }

  /** What the router does with the message. */
  datatype Action =
    | Continue(row: Row)        // reuse the active session, pass the message
    | Start(service: string)    // create a session for the service, pass ""
    | Answer(reason: Refusal)   // reply with fixed text, create nothing

  /** The action, and whether the undefined cleanup is reached on the way. */
  datatype Decision = Decision(cleanup: bool, action: Action)

  /** The routing decision over the active session, the message and the two
      overrides. */
  function Decide(active: Option<Row>, message: string, forceService: Option<string>, forceNew: bool): (d: Decision)
    ensures d.cleanup <==>
      forceNew || (active.Some? && Classify(message) != General && Classify(message) != active.value.service)
    ensures d.action.Continue? <==>
      !forceNew && active.Some? && (Classify(message) == General || Classify(message) == active.value.service)
    ensures d.action.Continue? ==> d.action.row == active.value
    ensures d.action.Start? ==> IsRegistered(d.action.service)
    ensures d.action.Answer? ==> d.action.reason == OutOfScope
    ensures !forceNew && active.Some? && d.action.Start? ==> d.action.service == Classify(message)
    ensures forceNew || active.None? ==>
      d.action == if forceService.Some? && IsRegistered(forceService.value) then Start(forceService.value)
                  else if Classify(message) == General then Answer(OutOfScope)
                  else Start(Classify(message))
  {
    ClassifySpec(message);
    var existing := if forceNew then None else active;
    match existing
    case Some(row) =>
      var intended := Classify(message);
      if intended != General && intended != row.service then Decision(true, Start(intended))
      else Decision(false, Continue(row))
    case None =>
      var intended :=
        if forceService.Some? && forceService.value != "" && IsRegistered(forceService.value) then forceService.value
        else Classify(message);
      if intended == General then Decision(forceNew, Answer(OutOfScope))
      else if !IsRegistered(intended) then Decision(forceNew, Answer(Unsupported(intended)))
      else Decision(forceNew, Start(intended))
  }

  /** A route either returns text (every user-facing outcome, errors
      included) or ends with an exception the router does not catch. */
  datatype RouteResult = Replied(text: string) | Threw(error: string)

  const NameErrorText := "NameError: name 'cleanup_expired_sessions' is not defined"

  /** The readings of the clock one route takes, in order: the lookup
      cutoff, the new session's creation and activity stamps, and the update
      stamp. */
  datatype Clock = Clock(lookup: int, created: int, seeded: int, updated: int)

  /** Which store calls of one route fail. */
  datatype Faults = Faults(lookup: bool, insert: bool, update: bool)

  /** Everything a route depends on besides the table and the request: the
      profile store, the completion service, the cleanup step (`None` as the
      file is written), the id a new session would get, the clock readings
      and the store faults. */
  datatype Env = Env(
    profiles: string -> Option<Profile>,
    complete: Request -> Response,
    cleanup: Option<seq<Row> -> seq<Row>>,
    sessionId: string,
    clock: Clock,
    faults: Faults)

  /** The reply of a route and the table it leaves. */
  datatype RouteOutcome = RouteOutcome(result: RouteResult, rows: seq<Row>)

  /** One engine turn on `row` seen from the router: the reply and the
      table afterwards. */
  function Respond(rows: seq<Row>, row: Row, message: string, complete: Request -> Response, now: int, updateFails: bool): RouteOutcome {
    var t := Turn(row, message, PromptFor(row), complete);
    RouteOutcome(Replied(t.reply), RowsAfterTurn(rows, row, t, now, updateFails))
  }

  /** The active session the router sees. */
  function ActiveFor(rows: seq<Row>, userId: string, now: int, lookupFails: bool): Option<Row> {
    if lookupFails then None else FirstQualifying(rows, userId, None, now)
  }

  /** What carrying out `action` on the table does. */
  function Perform(rows: seq<Row>, action: Action, userId: string, message: string, env: Env): RouteOutcome
    requires action.Start? ==> IsRegistered(action.service)
  {
    match action
    case Answer(reason) => RouteOutcome(Replied(RefusalText(reason)), rows)
    case Continue(row) => Respond(rows, row, message, env.complete, env.clock.updated, env.faults.update)
    case Start(service) =>
      if env.faults.insert then RouteOutcome(Replied(CreateFailedText(service)), rows)
      else
        var started := Started(userId, service, message, env);
        Respond(rows + [started], started, "", env.complete, env.clock.updated, env.faults.update)
  }

  /** The record a route creates for `service`. */
  function Started(userId: string, service: string, message: string, env: Env): Row
    requires IsRegistered(service)
  {
    NewRow(env.sessionId, userId, service, env.profiles(userId), message, env.clock.created, env.clock.seeded)
  }

  /** One route, as a function of the table and the route's inputs. */
  function RouteSpec(
    rows: seq<Row>, userId: string, message: string, forceService: Option<string>, forceNew: bool, env: Env): RouteOutcome
  {
    var d := RouteDecision(rows, userId, message, forceService, forceNew, env);
    if d.cleanup && env.cleanup.None? then RouteOutcome(Threw(NameErrorText), rows)
    else Perform(Cleaned(rows, d, env), d.action, userId, message, env)
  }

  /** The decision a route takes on the table `rows`. */
  function RouteDecision(
    rows: seq<Row>, userId: string, message: string, forceService: Option<string>, forceNew: bool, env: Env): Decision
  {
    Decide(ActiveFor(rows, userId, env.clock.lookup, env.faults.lookup), message, forceService, forceNew)
  }

  /** The table once the cleanup step, when the decision reaches it, ran. */
  function Cleaned(rows: seq<Row>, d: Decision, env: Env): seq<Row>
    requires d.cleanup ==> env.cleanup.Some?
  {
    if d.cleanup then env.cleanup.value(rows) else rows
  }

  /** The route ends with an exception exactly when the decision reaches
      the undefined cleanup: a forced new session, or an active session of
      one service and a message that names another. Every other route
      replies. */
  lemma RaisesOnlyAtCleanup(
    rows: seq<Row>, userId: string, message: string, forceService: Option<string>, forceNew: bool, env: Env)
    ensures var active := ActiveFor(rows, userId, env.clock.lookup, env.faults.lookup);
      RouteSpec(rows, userId, message, forceService, forceNew, env).result.Threw? <==>
        && env.cleanup.None?
        && (forceNew || (active.Some? && Classify(message) != General && Classify(message) != active.value.service))
    ensures RouteSpec(rows, userId, message, forceService, forceNew, env).result.Threw? ==>
      RouteSpec(rows, userId, message, forceService, forceNew, env) == RouteOutcome(Threw(NameErrorText), rows)
  {
  }

  /** A message for no service, with no session to continue and no usable
      forced service, gets the scope reply and leaves the table as it was. */
  lemma OutOfScopeLeavesTable(rows: seq<Row>, userId: string, message: string, forceService: Option<string>, env: Env)
    requires ActiveFor(rows, userId, env.clock.lookup, env.faults.lookup).None?
    requires forceService.None? || !IsRegistered(forceService.value)
    requires Classify(message) == General
    ensures RouteSpec(rows, userId, message, forceService, false, env) == RouteOutcome(Replied(ScopeText), rows)
  {
  }

  /** Continuing the active session `row` records exactly one exchange: when
      the turn completes and is stored, every row of that session gets the
      history with the user's message and the reply appended, and the
      update time; no other row changes; otherwise the table is unchanged.
      The reply is the turn's. */
  lemma ContinueRecordsExchange(
    rows: seq<Row>, userId: string, message: string, forceService: Option<string>, env: Env, row: Row)
    requires ActiveFor(rows, userId, env.clock.lookup, env.faults.lookup) == Some(row)
    requires Classify(message) == General || Classify(message) == row.service
    requires message != ""
    ensures var o := RouteSpec(rows, userId, message, forceService, false, env);
      var t := Turn(row, message, PromptFor(row), env.complete);
      && o.result == Replied(t.reply)
      && |o.rows| == |rows|
      && (t.completed && !env.faults.update ==>
            forall j :: 0 <= j < |rows| ==>
              o.rows[j] == if rows[j].sessionId != row.sessionId then rows[j]
                           else rows[j].(history := row.history + [Message(User, message), Message(Assistant, t.reply)],
                                         lastActive := env.clock.updated, context := row.context))
      && (!t.completed || env.faults.update ==> o.rows == rows)
  {
    assert RouteSpec(rows, userId, message, forceService, false, env)
        == Respond(rows, row, message, env.complete, env.clock.updated, env.faults.update);
    RespondAppendsExchange(rows, row, message, env.complete, env.clock.updated, env.faults.update);
  }

  /** One turn with a non-empty message on `row`, seen from the table. */
  lemma RespondAppendsExchange(
    rows: seq<Row>, row: Row, message: string, complete: Request -> Response, now: int, updateFails: bool)
    requires message != ""
    ensures var o := Respond(rows, row, message, complete, now, updateFails);
      var t := Turn(row, message, PromptFor(row), complete);
      && o.result == Replied(t.reply)
      && |o.rows| == |rows|
      && (t.completed && !updateFails ==>
            forall j :: 0 <= j < |rows| ==>
              o.rows[j] == if rows[j].sessionId != row.sessionId then rows[j]
                           else rows[j].(history := row.history + [Message(User, message), Message(Assistant, t.reply)],
                                         lastActive := now, context := row.context))
      && (!t.completed || updateFails ==> o.rows == rows)
  {
  }

  /** A route that starts a session for `service` (and, when the decision
      reaches the cleanup, has a cleanup step) appends one record to the
      table the cleanup left: it belongs to the user and the service, its
      history opens with the handoff that quotes the message verbatim, and
      holds the first reply after it exactly when that turn completed and
      was stored. The record exists even when the first turn fails. */
  lemma NewSessionSeedsHandoff(
    rows: seq<Row>, userId: string, message: string, forceService: Option<string>, forceNew: bool, env: Env,
    service: string)
    requires RouteDecision(rows, userId, message, forceService, forceNew, env).action == Start(service)
    requires RouteDecision(rows, userId, message, forceService, forceNew, env).cleanup ==> env.cleanup.Some?
    requires !env.faults.insert
    requires forall j :: 0 <= j < |rows| ==> rows[j].sessionId != env.sessionId
    requires env.cleanup.Some? ==>
      forall j :: 0 <= j < |env.cleanup.value(rows)| ==> env.cleanup.value(rows)[j].sessionId != env.sessionId
    ensures IsRegistered(service)
    ensures var base := Cleaned(rows, RouteDecision(rows, userId, message, forceService, forceNew, env), env);
      var o := RouteSpec(rows, userId, message, forceService, forceNew, env);
      var created := Started(userId, service, message, env);
      var t := Turn(created, "", PromptFor(created), env.complete);
      var handoff := Message(User, HandoffMessage(Lookup(service).description, env.profiles(userId), message));
      && o.result == Replied(t.reply)
      && |o.rows| == |base| + 1
      && o.rows[..|base|] == base
      && o.rows[|base|].sessionId == env.sessionId
      && o.rows[|base|].userId == userId
      && o.rows[|base|].service == service
      && o.rows[|base|].history
         == (if t.completed && !env.faults.update then [handoff, Message(Assistant, t.reply)] else [handoff])
      && Contains(o.rows[|base|].history[0].content, "'" + message + "'")
  {
    var d := RouteDecision(rows, userId, message, forceService, forceNew, env);
    var base := Cleaned(rows, d, env);
    assert RouteSpec(rows, userId, message, forceService, forceNew, env) == Perform(base, Start(service), userId, message, env);
    StartSeedsHandoff(base, userId, service, message, env);
  }

  /** Starting a session for `service` under a fresh id, seen from the
      table: one record appended after the rows, unchanged, in front of it. */
  lemma StartSeedsHandoff(rows: seq<Row>, userId: string, service: string, message: string, env: Env)
    requires IsRegistered(service)
    requires !env.faults.insert
    requires forall j :: 0 <= j < |rows| ==> rows[j].sessionId != env.sessionId
    ensures var o := Perform(rows, Start(service), userId, message, env);
      var created := Started(userId, service, message, env);
      var t := Turn(created, "", PromptFor(created), env.complete);
      var handoff := Message(User, HandoffMessage(Lookup(service).description, env.profiles(userId), message));
      && o.result == Replied(t.reply)
      && |o.rows| == |rows| + 1
      && o.rows[..|rows|] == rows
      && o.rows[|rows|].sessionId == env.sessionId
      && o.rows[|rows|].userId == userId
      && o.rows[|rows|].service == service
      && o.rows[|rows|].history
         == (if t.completed && !env.faults.update then [handoff, Message(Assistant, t.reply)] else [handoff])
      && Contains(o.rows[|rows|].history[0].content, "'" + message + "'")
  {
    var created := Started(userId, service, message, env);
    var handoff := Message(User, HandoffMessage(Lookup(service).description, env.profiles(userId), message));
    NewSessionRecord(env.sessionId, userId, service, env.profiles(userId), message, env.clock.created, env.clock.seeded);
    assert created.history == [handoff];
    var o := Perform(rows, Start(service), userId, message, env);
    assert o == Respond(rows + [created], created, "", env.complete, env.clock.updated, env.faults.update);
    RespondOnNewRow(rows, created, env.complete, env.clock.updated, env.faults.update);
    var last := o.rows[|rows|];
    assert last.sessionId == created.sessionId && last.userId == created.userId && last.service == created.service;
    assert last.history[0] == handoff;
  }

  /** The first turn of a record just appended under a fresh id: the record
      is the last row, with the reply appended to its history and the
      update time set exactly when the turn completed and was stored. */
  lemma RespondOnNewRow(rows: seq<Row>, created: Row, complete: Request -> Response, now: int, updateFails: bool)
    requires forall j :: 0 <= j < |rows| ==> rows[j].sessionId != created.sessionId
    ensures var o := Respond(rows + [created], created, "", complete, now, updateFails);
      var t := Turn(created, "", PromptFor(created), complete);
      && o.result == Replied(t.reply)
      && |o.rows| == |rows| + 1
      && o.rows[..|rows|] == rows
      && o.rows[|rows|]
         == if t.completed && !updateFails
            then created.(history := created.history + [Message(Assistant, t.reply)], lastActive := now)
            else created
  {
  }

  /** Per-user isolation: when session ids are unique and the new id is
      fresh, a route that does not reach the cleanup changes no row of
      another user, every row it adds is the user's own, and so every other
      user's lookups find what they found before. */
  lemma OtherUsersUnaffected(
    rows: seq<Row>, userId: string, message: string, forceService: Option<string>, forceNew: bool, env: Env,
    other: string, service: Option<string>, now: int)
    requires !RouteDecision(rows, userId, message, forceService, forceNew, env).cleanup
    requires forall j, k :: 0 <= j < k < |rows| ==> rows[j].sessionId != rows[k].sessionId
    requires forall j :: 0 <= j < |rows| ==> rows[j].sessionId != env.sessionId
    requires other != userId
    ensures var o := RouteSpec(rows, userId, message, forceService, forceNew, env);
      && |rows| <= |o.rows|
      && (forall j :: 0 <= j < |rows| && rows[j].userId != userId ==> o.rows[j] == rows[j])
      && (forall j :: |rows| <= j < |o.rows| ==> o.rows[j].userId == userId)
      && FirstQualifying(o.rows, other, service, now) == FirstQualifying(rows, other, service, now)
  {
    var d := RouteDecision(rows, userId, message, forceService, forceNew, env);
    assert RouteSpec(rows, userId, message, forceService, forceNew, env) == Perform(rows, d.action, userId, message, env);
    if d.action.Continue? {
      var row := d.action.row;
      var i :| FirstAt(rows, i, userId, None, env.clock.lookup) && rows[i] == row;
      ContinueIsolation(rows, i, message, env, other, service, now);
    } else if d.action.Start? {
      StartIsolation(rows, userId, d.action.service, message, env, other, service, now);
    }
  }

  /** Continuing the session at row `i`, whose id no other row has, changes
      only that row. */
  lemma ContinueIsolation(
    rows: seq<Row>, i: int, message: string, env: Env, other: string, service: Option<string>, now: int)
    requires 0 <= i < |rows|
    requires forall j, k :: 0 <= j < k < |rows| ==> rows[j].sessionId != rows[k].sessionId
    requires other != rows[i].userId
    ensures var o := Perform(rows, Continue(rows[i]), rows[i].userId, message, env);
      && |o.rows| == |rows|
      && (forall j :: 0 <= j < |rows| && rows[j].userId != rows[i].userId ==> o.rows[j] == rows[j])
      && FirstQualifying(o.rows, other, service, now) == FirstQualifying(rows, other, service, now)
  {
    assert forall j :: 0 <= j < |rows| && rows[j].sessionId == rows[i].sessionId ==> j == i;
    RespondIsolation(rows, rows[i], message, env.complete, env.clock.updated, env.faults.update, other, service, now);
  }

  /** Starting a session under a fresh id adds one row of the user and
      changes no other. */
  lemma StartIsolation(
    rows: seq<Row>, userId: string, s: string, message: string, env: Env,
    other: string, service: Option<string>, now: int)
    requires IsRegistered(s)
    requires forall j :: 0 <= j < |rows| ==> rows[j].sessionId != env.sessionId
    requires other != userId
    ensures var o := Perform(rows, Start(s), userId, message, env);
      && |rows| <= |o.rows|
      && (forall j :: 0 <= j < |rows| ==> o.rows[j] == rows[j])
      && (forall j :: |rows| <= j < |o.rows| ==> o.rows[j].userId == userId)
      && FirstQualifying(o.rows, other, service, now) == FirstQualifying(rows, other, service, now)
  {
    if !env.faults.insert {
      var created := Started(userId, s, message, env);
      NewSessionRecord(env.sessionId, userId, s, env.profiles(userId), message, env.clock.created, env.clock.seeded);
      var o := Perform(rows, Start(s), userId, message, env);
      assert o == Respond(rows + [created], created, "", env.complete, env.clock.updated, env.faults.update);
      RespondOnNewRow(rows, created, env.complete, env.clock.updated, env.faults.update);
      assert o.rows[|rows|].userId == userId;
      RespondIsolation(rows + [created], created, "", env.complete, env.clock.updated, env.faults.update, other, service, now);
      AppendOtherUser(rows, created, other, service, now);
    }
  }

  /** A turn on `row` touches only the rows with its session id; when all of
      them belong to `row`'s user, no row of another user changes and
      another user's lookups are unaffected. */
  lemma RespondIsolation(
    rows: seq<Row>, row: Row, message: string, complete: Request -> Response, now: int, updateFails: bool,
    other: string, service: Option<string>, lookupNow: int)
    requires forall j :: 0 <= j < |rows| && rows[j].sessionId == row.sessionId ==> rows[j].userId == row.userId
    requires other != row.userId
    ensures var o := Respond(rows, row, message, complete, now, updateFails);
      && |o.rows| == |rows|
      && (forall j :: 0 <= j < |rows| && rows[j].userId != row.userId ==> o.rows[j] == rows[j])
      && FirstQualifying(o.rows, other, service, lookupNow) == FirstQualifying(rows, other, service, lookupNow)
  {
    var t := Turn(row, message, PromptFor(row), complete);
    UpdateIsolation(rows, row.sessionId, t.history, now, row.context, other, service, lookupNow);
  }

  /** `route_commerce_message_with_profiles`. */
  method RouteCommerceMessage(
    table: SessionTable, userId: string, message: string, forceService: Option<string>, forceNew: bool, env: Env)
    returns (result: RouteResult)
    modifies table
    ensures RouteOutcome(result, table.rows) == RouteSpec(old(table.rows), userId, message, forceService, forceNew, env)
  {
    ghost var rows := table.rows;
    var active := table.GetAnyActiveSession(userId, env.clock.lookup, env.faults.lookup);
    assert active == ActiveFor(rows, userId, env.clock.lookup, env.faults.lookup);
    var d := Decide(active, message, forceService, forceNew);
    if d.cleanup {
      match env.cleanup {
        case None =>
          return Threw(NameErrorText);
        case Some(step) =>
          table.ApplyExternal(step);
      }
    }
    assert table.rows == Cleaned(rows, d, env);
    result := Carry(table, d.action, userId, message, env);
  }

  /** The part of the route after the decision. */
  method Carry(table: SessionTable, action: Action, userId: string, message: string, env: Env)
    returns (result: RouteResult)
    requires action.Start? ==> IsRegistered(action.service)
    modifies table
    ensures RouteOutcome(result, table.rows) == Perform(old(table.rows), action, userId, message, env)
  {
    if action.Answer? {
      result := Replied(RefusalText(action.reason));
    } else if action.Continue? {
      var reply := ContinueSession(table, action.row, message, env.complete, env.clock.updated, env.faults.update);
      result := Replied(reply);
    } else {
      result := StartSession(table, action.service, userId, message, env);
    }
  }

  /** Passing the message to the active session `row`. */
  method ContinueSession(
    table: SessionTable, row: Row, message: string, complete: Request -> Response, now: int, updateFails: bool)
    returns (reply: string)
    modifies table
    ensures RouteOutcome(Replied(reply), table.rows) == Respond(old(table.rows), row, message, complete, now, updateFails)
  {
    var session := new Session.FromRow(row);
    reply := CallModelWithProfile(table, session, message, complete, now, updateFails);
  }

  /** Creating the session for `service` and running its first turn, which
      passes no new user message (the handoff is already in the history). */
  method StartSession(table: SessionTable, service: string, userId: string, message: string, env: Env)
    returns (result: RouteResult)
    requires IsRegistered(service)
    modifies table
    ensures RouteOutcome(result, table.rows) == Perform(old(table.rows), Start(service), userId, message, env)
  {
    var session := CreateSessionWithProfile(
      table, env.profiles, userId, service, message, env.sessionId, env.clock.created, env.clock.seeded, env.faults.insert);
    if session == null {
      result := Replied(CreateFailedText(service));
    } else {
      var reply := CallModelWithProfile(table, session, "", env.complete, env.clock.updated, env.faults.update);
      result := Replied(reply);
    }
  }
}
