/** The session store (router_profiles_enhanced.py, lines 180-303): rows of
    the sessions table, the in-memory session record a handler works on,
    the two active-session lookups, the update of a session's history, and
    session creation with the profile-seeded handoff message.

    Timestamps are integers (seconds). The table is an in-memory sequence of
    rows in table order; a store failure (an exception from the database
    client, or an empty result where a row was expected) is a boolean
    parameter of the call it affects. */
module Sessions {
  import opened Wrappers
  import opened Text
  import opened Registry
  import opened Profiles

  datatype Role = User | Assistant

  /** One entry of a session's message history. */
  datatype Message = Message(role: Role, content: string)

  /** The context snapshot taken when the session is created: the service's
      registry entry and the profile fetched for the user. */
  datatype Context = Context(config: ServiceConfig, profile: Option<Profile>)

  /** A row of the sessions table. */
  datatype Row = Row(
    sessionId: string,
    userId: string,
    service: string,
    systemPrompt: string,
    history: seq<Message>,
    context: Context,
    createdAt: int,
    lastActive: int)

  /** The active window: 30 minutes. */
  const Window: int := 30 * 60

  /** A row is active at `now` when its last activity is strictly after
      `now - Window` (the lookups filter with `last_active > cutoff`). */
  predicate Active(r: Row, now: int) {
    r.lastActive > now - Window
  }

  /** The lookup filter: the given user, the given service when one is
      asked for, and active at `now`. */
  predicate Qualifies(r: Row, userId: string, service: Option<string>, now: int) {
    r.userId == userId && (service.None? || r.service == service.value) && Active(r, now)
  }

  /** Row `i` is the first row in table order that passes the filter. */
  predicate FirstAt(rows: seq<Row>, i: int, userId: string, service: Option<string>, now: int) {
    && 0 <= i < |rows|
    && Qualifies(rows[i], userId, service, now)
    && forall j :: 0 <= j < i ==> !Qualifies(rows[j], userId, service, now)
  }

  /** `result.data[0]` of a filtered select with no ordering: the first
      qualifying row in table order, if any. */
  function FirstQualifying(rows: seq<Row>, userId: string, service: Option<string>, now: int): (found: Option<Row>)
    ensures found.Some? ==> exists i :: FirstAt(rows, i, userId, service, now) && rows[i] == found.value
    ensures found.None? <==> forall i :: 0 <= i < |rows| ==> !Qualifies(rows[i], userId, service, now)
    decreases |rows|
  {
    if |rows| == 0 then None
    else if Qualifies(rows[0], userId, service, now) then Some(rows[0])
    else
      var rest := FirstQualifying(rows[1..], userId, service, now);
      assert forall i :: 1 <= i < |rows| ==> rows[i] == rows[1..][i - 1];
      assert rest.Some? ==> exists i :: FirstAt(rows, i, userId, service, now) && rows[i] == rest.value by {
        if rest.Some? {
          var i :| FirstAt(rows[1..], i, userId, service, now) && rows[1..][i] == rest.value;
          assert FirstAt(rows, i + 1, userId, service, now);
        }
      }
      rest
  }

  /** The columns `update_session` writes on one row. */
  function Touch(r: Row, history: seq<Message>, lastActive: int, context: Context): Row {
    r.(history := history, lastActive := lastActive, context := context)
  }

  /** The table after `update ... where session_id = id`: every row with that
      id gets the new history, activity time and context; nothing else
      changes. */
  function UpdateRows(rows: seq<Row>, id: string, history: seq<Message>, lastActive: int, context: Context): (r: seq<Row>)
    ensures |r| == |rows|
    ensures forall i :: 0 <= i < |rows| && rows[i].sessionId != id ==> r[i] == rows[i]
    ensures forall i :: 0 <= i < |rows| && rows[i].sessionId == id ==> r[i] == Touch(rows[i], history, lastActive, context)
  {
    seq(|rows|, i requires 0 <= i < |rows| =>
      if rows[i].sessionId == id then Touch(rows[i], history, lastActive, context) else rows[i])
  }

  /** Updating one session never changes what the lookups return for a user
      that owns no row with that session id (per-user isolation). */
  lemma UpdateIsolation(
    rows: seq<Row>, id: string, history: seq<Message>, lastActive: int, context: Context,
    userId: string, service: Option<string>, now: int)
    requires forall i :: 0 <= i < |rows| && rows[i].sessionId == id ==> rows[i].userId != userId
    ensures FirstQualifying(UpdateRows(rows, id, history, lastActive, context), userId, service, now)
         == FirstQualifying(rows, userId, service, now)
    decreases |rows|
  {
  }

  /** A row of another user added at the end of the table never changes
      what the lookups return for `userId`. */
  lemma {:induction false} AppendOtherUser(rows: seq<Row>, x: Row, userId: string, service: Option<string>, now: int)
    requires x.userId != userId
    ensures FirstQualifying(rows + [x], userId, service, now) == FirstQualifying(rows, userId, service, now)
    decreases |rows|
  {
    if |rows| == 0 {
      assert [x][1..] == [];
    } else {
      assert (rows + [x])[1..] == rows[1..] + [x];
      AppendOtherUser(rows[1..], x, userId, service, now);
    }
  }

  /** A session just updated at `now` stays active for the whole window that
      follows, whatever its last activity was before, so its user's
      any-service lookup finds a row; it finds the updated session itself
      when no earlier row of the table shares its id or is active for the
      user at that time. */
  lemma UpdatedSessionStaysActive(
    rows: seq<Row>, id: string, history: seq<Message>, now: int, context: Context, i: int, later: int)
    requires 0 <= i < |rows| && rows[i].sessionId == id
    requires now <= later < now + Window
    ensures Active(UpdateRows(rows, id, history, now, context)[i], later)
    ensures FirstQualifying(UpdateRows(rows, id, history, now, context), rows[i].userId, None, later).Some?
    ensures (forall j :: 0 <= j < i ==> rows[j].sessionId != id && !Qualifies(rows[j], rows[i].userId, None, later)) ==>
      FirstQualifying(UpdateRows(rows, id, history, now, context), rows[i].userId, None, later)
        == Some(UpdateRows(rows, id, history, now, context)[i])
  {
    var updated := UpdateRows(rows, id, history, now, context);
    var found := FirstQualifying(updated, rows[i].userId, None, later);
    assert Qualifies(updated[i], rows[i].userId, None, later);
    if forall j :: 0 <= j < i ==> rows[j].sessionId != id && !Qualifies(rows[j], rows[i].userId, None, later) {
      var k :| FirstAt(updated, k, rows[i].userId, None, later) && updated[k] == found.value;
      assert k == i;
    }
  }

  /** The row `create_session_with_profile` inserts: the registry entry's
      prompt, a history holding only the handoff message, and the context
      snapshot. */
  function NewRow(
    sessionId: string, userId: string, service: string, profile: Option<Profile>,
    initial: string, createdAt: int, lastActive: int): Row
    requires IsRegistered(service)
  {
    var config := Lookup(service);
    Row(sessionId, userId, service, config.systemPrompt,
        [Message(User, HandoffMessage(config.description, profile, initial))],
        Context(config, profile), createdAt, lastActive)
  }

  /** A new session record belongs to the given user and service, holds the
      service's registry entry and the fetched profile, and its history is a
      single user entry that quotes the initial message verbatim. */
  lemma NewSessionRecord(
    sessionId: string, userId: string, service: string, profile: Option<Profile>,
    initial: string, createdAt: int, lastActive: int)
    requires IsRegistered(service)
    ensures var r := NewRow(sessionId, userId, service, profile, initial, createdAt, lastActive);
      && r.sessionId == sessionId && r.userId == userId && r.service == service
      && r.context == Context(Lookup(service), profile) && r.context.config.tag == service
      && |r.history| == 1 && r.history[0].role == User
      && Contains(r.history[0].content, "'" + initial + "'")
      && EndsWith(r.history[0].content, QuotedRequest(initial))
  {
    HandoffQuotesMessage(Lookup(service).description, profile, initial);
  }

  /** The session record a handler holds (a dictionary in the source): the
      conversation engine appends to its history and `update_session` sets
      its last activity in place. */
  class Session {
    var sessionId: string
    var userId: string
    var service: string
    var systemPrompt: string
    var history: seq<Message>
    var context: Context
    var createdAt: int
    var lastActive: int

    /** The record as a table row. */
    function Snapshot(): Row
      reads this
    {
      Row(sessionId, userId, service, systemPrompt, history, context, createdAt, lastActive)
    }

    /** The record built from a row the store returned. */
    constructor FromRow(r: Row)
      ensures Snapshot() == r
    {
      sessionId, userId, service, systemPrompt := r.sessionId, r.userId, r.service, r.systemPrompt;
      history, context, createdAt, lastActive := r.history, r.context, r.createdAt, r.lastActive;
    }
  }

  /** The sessions table. */
  class SessionTable {
    var rows: seq<Row>

    constructor (initial: seq<Row>)
      ensures rows == initial
    {
      rows := initial;
    }

    /** `get_session`: the first row of the user for the service that is
        active at `now`; `None` when no row qualifies or the store fails. */
    method GetSession(userId: string, service: string, now: int, storeFails: bool) returns (found: Option<Row>)
      ensures found.Some? ==>
        && !storeFails
        && found.value.userId == userId && found.value.service == service
        && found.value.lastActive > now - Window
        && exists i :: FirstAt(rows, i, userId, Some(service), now) && rows[i] == found.value
      ensures found.None? <==>
        storeFails || forall i :: 0 <= i < |rows| ==> !Qualifies(rows[i], userId, Some(service), now)
    {
      if storeFails {
        return None;
      }
      found := FirstQualifying(rows, userId, Some(service), now);
    }

    /** `get_any_active_session`: the first row of the user, for any
        service, that is active at `now`; `None` when no row qualifies or the
        store fails. */
    method GetAnyActiveSession(userId: string, now: int, storeFails: bool) returns (found: Option<Row>)
      ensures found.Some? ==>
        && !storeFails
        && found.value.userId == userId
        && found.value.lastActive > now - Window
        && exists i :: FirstAt(rows, i, userId, None, now) && rows[i] == found.value
      ensures found.None? <==>
        storeFails || forall i :: 0 <= i < |rows| ==> !Qualifies(rows[i], userId, None, now)
      ensures !storeFails ==> found == FirstQualifying(rows, userId, None, now)
    {
      if storeFails {
        return None;
      }
      found := FirstQualifying(rows, userId, None, now);
    }

    /** The insert of `create_session_with_profile`: the row is appended and
        returned, or nothing changes when the store fails. */
    method Insert(row: Row, storeFails: bool) returns (stored: Option<Row>)
      modifies this
      ensures stored == if storeFails then None else Some(row)
      ensures rows == if storeFails then old(rows) else old(rows) + [row]
    {
      if storeFails {
        return None;
      }
      rows := rows + [row];
      stored := Some(row);
    }

    /** `update_session`: stamps the record's last activity with `now` (even
        when the store then fails), writes history, last activity and
        context to the rows with the record's session id, and reports
        whether any row was written. */
    method UpdateSession(session: Session, now: int, storeFails: bool) returns (ok: bool)
      modifies this, session
      ensures session.Snapshot() == old(session.Snapshot()).(lastActive := now)
      ensures rows == if storeFails then old(rows)
                      else UpdateRows(old(rows), session.sessionId, session.history, now, session.context)
      ensures ok <==> !storeFails && exists i :: 0 <= i < |old(rows)| && old(rows)[i].sessionId == session.sessionId
    {
      session.lastActive := now;
      if storeFails {
        return false;
      }
      var before := rows;
      rows := UpdateRows(rows, session.sessionId, session.history, now, session.context);
      ok := exists i :: 0 <= i < |before| && before[i].sessionId == session.sessionId;
    }

    /** An external step over the whole table, applied as given. */
    method ApplyExternal(step: seq<Row> -> seq<Row>)
      modifies this
      ensures rows == step(old(rows))
    {
      rows := step(rows);
    }
  }

  /** `create_session_with_profile`: fetch the profile, build the record with
      the handoff message and insert it. The record is returned when the
      insert succeeds; `null` (the source's `None`) when it fails, and then
      the table is unchanged. */
  method CreateSessionWithProfile(
    table: SessionTable, profiles: string -> Option<Profile>,
    userId: string, service: string, initial: string,
    sessionId: string, createdAt: int, lastActive: int, insertFails: bool)
    returns (session: Session?)
    requires IsRegistered(service)
    modifies table
    ensures session == null <==> insertFails
    ensures session != null ==>
      fresh(session) && session.Snapshot() == NewRow(sessionId, userId, service, profiles(userId), initial, createdAt, lastActive)
    ensures table.rows == if insertFails then old(table.rows)
      else old(table.rows) + [NewRow(sessionId, userId, service, profiles(userId), initial, createdAt, lastActive)]
  {
    var profile := profiles(userId);
    var row := NewRow(sessionId, userId, service, profile, initial, createdAt, lastActive);
    var stored := table.Insert(row, insertFails);
    if stored.None? {
      return null;
    }
    session := new Session.FromRow(stored.value);
  }
}
