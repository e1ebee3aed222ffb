# Commerce router with profiles — a Dafny model

This project models the core of `router_profiles_enhanced.py`: the commerce
message router. It picks a service (Domino's, OpenTable or Uber) for a user's
message and finds or creates that user's conversation session. A new session
is seeded with a handoff message built from the user's profile. The router
then runs one model turn and returns its reply.

The modules follow the parts of that file:

- `Text` (text.dfy): the string helpers the file relies on implicitly. These
  are ASCII lower-casing, substring search (`k in s`), whitespace-only tests
  (`not s.strip()`) and `", ".join`.
- `Registry` (registry.dfy): the `SERVICE_CONFIGS` table in insertion order.
  Each entry has its keywords, tool server, description and system prompt.
- `Intent` (intent.dfy): `classify_intent`, as a recursive specification
  and as the nested loops of the source.
- `Profiles` (profiles.dfy): the profile context and the handoff message of
  `create_session_with_profile`.
- `Sessions` (sessions.dfy): the `router_sessions` table as a class over a
  sequence of rows, and the session dictionary as a class.
  - The lookups `get_session` and `get_any_active_session` and the writer
    `update_session` are methods of the table class.
  - `create_session_with_profile` inserts the new row.
- `Engine` (engine.dfy): `call_background_claude_with_profile`. It builds
  the system prompt and calls the model with the tool server. On failure it
  retries once without tools. It folds the response blocks into the reply
  and appends to the history in place before persisting.
- `Router` (router.dfy): `route_commerce_message_with_profiles`. It decides
  to continue, switch, start or refuse, as a datatype-valued function.
  `RouteSpec` specifies a whole route and the method is proved against it.

External services are parameters:

- The Supabase tables become an in-memory `SessionTable` and a profile oracle
  `string -> Option<Profile>`.
- The Anthropic client becomes a completion oracle `Request -> Response`.
  A response is either the content blocks or the text of the exception
  raised.
- Clock readings become integer seconds, and `uuid4()` becomes a given
  session id.
- A failing store call (an exception, or an empty `result.data`) becomes a
  boolean per call.

Where the code and its own comments or documentation disagree, the model
follows the code:

- A session is active when `last_active > now - 30 min`: a strict
  comparison, as in the `.gt` filters at lines 252-253 and 274. A session
  exactly 30 minutes old is therefore expired.
- `get_any_active_session` returns `result.data[0]` of a query with no
  ordering. The comment at line 277 calls it "the most recent one". The
  model returns the first qualifying row in table order (`FirstQualifying`).
- `cleanup_expired_sessions` is called at lines 431 and 441 but defined
  nowhere in the file. The route therefore takes it as `Env.cleanup`:
  - `None` is the file as written: reaching the call raises `NameError`
    and the route ends with that exception.
  - `Some(step)` applies an external step to the table, and routing
    continues.
- The "not supported" branch at lines 459-461 cannot be reached. Its tag is
  either a registered `force_service` or a classification, and every
  classification is registered or "general". `Router.Decide` proves that a
  refusal is always the out-of-scope reply.

## Model

| member | source | states |
|---|---|---|
| Text.Lower | router_profiles_enhanced.py:154 | the lower-cased message has the same length, maps each character through ASCII lower-casing, and contains no upper-case letter |
| Text.ContainsIffOccurs | router_profiles_enhanced.py:158 | `keyword in message_lower` holds exactly when the keyword occurs at some position of the message |
| Registry.Lookup | router_profiles_enhanced.py:187 | `SERVICE_CONFIGS[tag]` for a registered tag is the registry entry with that tag, and it has a tool server |
| Registry.RegistryShape | router_profiles_enhanced.py:33-150 | three entries whose tags are dominos, opentable and uber in insertion order; the tags are distinct, "general" is not one of them, and every entry has an `mcp_config` |
| Intent.FirstServiceChoice | router_profiles_enhanced.py:156-161 | the scan returns the tag of the entry where it stops (the first with a matching keyword), and "general" when no entry matches |
| Intent.ClassifySpec | router_profiles_enhanced.py:152-161 | the result is "general" or a registered tag; it is "general" exactly when no service's keyword occurs in the lower-cased message; it is entry i's tag exactly when entry i matches and no earlier entry does |
| Intent.DominosWinsTies | router_profiles_enhanced.py:33-35 | a message with any Domino's keyword is classified "dominos", whatever else it mentions |
| Intent.OpenTableBeforeUber | router_profiles_enhanced.py:44-45 | a message with an OpenTable keyword and no Domino's keyword is classified "opentable", whatever it says about Uber |
| Intent.ClassifyIgnoresCase | router_profiles_enhanced.py:154 | a message and its lower-cased form are classified alike |
| Intent.PizzaAndReservation | router_profiles_enhanced.py:152-161 | "I want a Pizza and a reservation" is classified "dominos" |
| Intent.ClassifyIntent | router_profiles_enhanced.py:152-161 | the method returns `Classify(message)`, which is "general" or a registered tag |
| Intent.Scan | router_profiles_enhanced.py:156-161 | the nested loops with early return compute the first entry with a matching keyword, or "general" |
| Profiles.ProfileContext | router_profiles_enhanced.py:191-203 | the context is empty exactly when name, phone and address are all falsy; an object address is truthy when it has any key at all, even one that is neither street nor city |
| Profiles.ProfileContextSentences | router_profiles_enhanced.py:192-203 | the context holds only the truthy columns' sentences: its length is the sum of their lengths; the first truthy sentence (name, else phone, else address) opens it and the last truthy one closes it; the phone sentence directly follows a truthy name's |
| Profiles.HandoffMessage | router_profiles_enhanced.py:205-210 | the handoff opens with "I'm connecting you with {description}. " and ends with the quoted request; without a profile it is exactly those two; with one, the profile context stands on its own line between them |
| Profiles.HandoffQuotesMessage | router_profiles_enhanced.py:205-210 | both templates quote the initial message verbatim between single quotes |
| Profiles.ProfileContextMentions | router_profiles_enhanced.py:192-195 | with a truthy name and phone, the context contains both values |
| Profiles.HandoffMentionsProfile | router_profiles_enhanced.py:190-207 | with a truthy name and phone, the handoff message contains both values |
| Profiles.AddressInContext | router_profiles_enhanced.py:196-203 | a truthy address's sentence occurs in the profile context |
| Profiles.HandoffMentionsAddress | router_profiles_enhanced.py:196-207 | with a truthy address, the handoff contains "Address: street, city. " for an object (a missing key empty, a null one "None", other keys not shown) and "Address: {address}. " for a string |
| Sessions.FirstQualifying | router_profiles_enhanced.py:250-259 | the result is the row at the first index that passes the filter (user, service if asked, active), and None exactly when no row passes |
| Sessions.UpdateRows | router_profiles_enhanced.py:293-297 | the update keeps the table's length and rewrites history, last activity and context on exactly the rows with the session id; every other row is unchanged |
| Sessions.UpdateIsolation | router_profiles_enhanced.py:293-297 | updating a session never changes what the lookups return for a user who owns no row with that session id |
| Sessions.AppendOtherUser | router_profiles_enhanced.py:230 | a row of another user inserted at the end never changes what the lookups return for this user |
| Sessions.UpdatedSessionStaysActive | router_profiles_enhanced.py:291-297 | a session updated at `now` stays active for the whole window that follows, so `get_any_active_session` for its user finds a row; when no earlier row shares its id or is active for that user, the row found is the updated session |
| Sessions.NewSessionRecord | router_profiles_enhanced.py:213-223 | the new record has the given id, user and service, the service's entry and the profile as context, and a history of one user entry that quotes the initial message |
| Sessions.SessionTable.GetSession | router_profiles_enhanced.py:245-265 | None when the store fails or no row qualifies; otherwise the first row of that user and service whose last activity is after the cutoff |
| Sessions.SessionTable.GetAnyActiveSession | router_profiles_enhanced.py:267-286 | None when the store fails or no row qualifies; otherwise the first active row of that user, for any service |
| Sessions.SessionTable.Insert | router_profiles_enhanced.py:228-243 | the insert appends the row and returns it, or changes nothing and returns None when the store fails |
| Sessions.SessionTable.UpdateSession | router_profiles_enhanced.py:288-303 | the record's last activity is set to now even when the store fails; otherwise the rows are `UpdateRows` of the record; the result is true exactly when the store worked and some row had the id |
| Sessions.CreateSessionWithProfile | router_profiles_enhanced.py:180-243 | the record is returned (fresh, equal to `NewRow`) and appended to the table, or null with the table unchanged when the insert fails |
| Engine.SystemPrompt | router_profiles_enhanced.py:316-339 | the prompt starts with the service template followed by the style block; the profile block follows only when a profile exists |
| Engine.NameLineInPrompt | router_profiles_enhanced.py:328-333 | with a profile, the prompt contains its name line |
| Engine.ProfileLinesInPrompt | router_profiles_enhanced.py:334-336 | with a profile, the prompt contains its phone, email and address lines |
| Engine.MissingColumnsNotProvided | router_profiles_enhanced.py:333-336 | a missing name, phone, email or address renders "- {Column}: Not provided"; a NULL one renders "- {Column}: None" |
| Engine.CallWithRetry | router_profiles_enhanced.py:342-369 | one or two calls; the first carries the history, the prompt and the tool server; a second happens exactly when there is a tool server and the first raised; the second has no tools and the prompt plus the no-tools note; the last call's response decides |
| Engine.Complete | router_profiles_enhanced.py:342-369 | the imperative call-and-retry returns the response `CallWithRetry` specifies |
| Engine.FoldIsRender | router_profiles_enhanced.py:372-383 | accumulating the blocks from the back equals rendering them from the front |
| Engine.Fallback | router_profiles_enhanced.py:386-387 | the fallback sentence is not blank |
| Engine.ReplyText | router_profiles_enhanced.py:372-387 | the reply is never blank; it is the rendered blocks unless those are blank, and then the fallback |
| Engine.AssembleReply | router_profiles_enhanced.py:372-387 | the block loop computes `ReplyText`, so its reply is never blank |
| Engine.UserTurn | router_profiles_enhanced.py:312-313 | a user entry is added exactly when the message is non-empty, and it carries the message |
| Engine.Apology | router_profiles_enhanced.py:397-400 | the error reply is not blank and starts with "Sorry, I encountered an error with {service}: " |
| Engine.Turn | router_profiles_enhanced.py:305-400 | the calls are exactly those of `CallWithRetry` on the history with the user entry added; the turn completes exactly when the final response is an answer, and then replies with `ReplyText` of its blocks and appends the reply as assistant entry; otherwise it replies with the apology for the raised error and the history has only the user entry added; the reply is never blank |
| Engine.CallModelWithProfile | router_profiles_enhanced.py:305-400 | the returned reply and the record's new history are those of `Turn`; last activity is updated only after a completed turn; the table becomes `RowsAfterTurn` |
| Router.Decide | router_profiles_enhanced.py:425-466 | cleanup is reached exactly on force-new or a switch; a session is continued exactly when one is active, there is no force-new, and the classification is "general" or its service; a switch follows the classification and ignores `force_service`; with no session, a registered `force_service` wins, then the classification, and "general" is refused; every started service is registered; every refusal is the out-of-scope reply |
| Router.RaisesOnlyAtCleanup | router_profiles_enhanced.py:428-443 | the route raises exactly when the cleanup is undefined and there is force-new or a switch; the table is then unchanged |
| Router.OutOfScopeLeavesTable | router_profiles_enhanced.py:449-457 | with no active session, no registered `force_service` and a "general" message, the reply is the scope text and the table is unchanged |
| Router.ContinueRecordsExchange | router_profiles_enhanced.py:444-448 | continuing a session with a message returns the turn's reply; a completed and stored turn appends exactly the user message and the reply to that session's rows and stamps them; nothing else changes |
| Router.RespondAppendsExchange | router_profiles_enhanced.py:478-480 | one turn with a non-empty message appends exactly the user entry and the assistant reply to the rows of that session, or leaves the table unchanged |
| Router.NewSessionSeedsHandoff | router_profiles_enhanced.py:463-477 | starting a session appends one record of that user and service after the rows; its history is the handoff quoting the message, plus the first reply only when that turn completed and was stored; the record stays even when the turn fails |
| Router.StartSeedsHandoff | router_profiles_enhanced.py:468-477 | creating the session and running its first turn with "" leaves the earlier rows unchanged and the new record last |
| Router.RespondOnNewRow | router_profiles_enhanced.py:476-477 | the first turn of a new record passes no user message and appends only the reply to its history |
| Router.OtherUsersUnaffected | router_profiles_enhanced.py:425-480 | with unique session ids, a fresh new id and no cleanup, a route changes no other user's row, adds only rows of its own user, and leaves every other user's lookups unchanged |
| Router.ContinueIsolation | router_profiles_enhanced.py:478-480 | continuing a session whose id is unique changes only rows of its own user |
| Router.StartIsolation | router_profiles_enhanced.py:468-477 | starting a session under a fresh id changes no existing row and adds one row of the user |
| Router.RespondIsolation | router_profiles_enhanced.py:293-297 | a turn touches only the rows with its session id, so other users' rows and lookups are unchanged |
| Router.RouteCommerceMessage | router_profiles_enhanced.py:403-485 | the route's result and the table it leaves are those of `RouteSpec` |
| Router.Carry | router_profiles_enhanced.py:468-480 | what happens after the decision is what `Perform` specifies |
| Router.ContinueSession | router_profiles_enhanced.py:478-480 | continuing a session gives the reply and the table that `Respond` specifies |
| Router.StartSession | router_profiles_enhanced.py:468-477 | a failed creation replies "Sorry, I couldn't create a session for {service}..." with the table unchanged; otherwise the reply and table are those of the first turn on the new record |

## Findings

| source | as written | input that shows it | evidently intended | confidence | as-written member | corrected member |
|---|---|---|---|---|---|---|
| router_profiles_enhanced.py:431,441 | `cleanup_expired_sessions()` is called but defined nowhere in the file, so both calls raise `NameError` | `force_new_session=True` with any message, or an active "dominos" session and the message "book a ride" | clean up the old session and then start the new one | high (not executed) | Router.RaisesOnlyAtCleanup | Router.NewSessionSeedsHandoff |

The corrected behaviour is the same route with `Env.cleanup` set to a step.
`Router.NewSessionSeedsHandoff` proves that the new session is then created
and seeded, and `RouteCommerceMessage` follows it.

## Left out

- Supabase, the Anthropic client, `datetime.now()` and `uuid.uuid4()`:
  these are the parameters and oracles described above. The `print`
  logging and the model name, `max_tokens` and beta flags are dropped.
- The async structure, the `@mcp.tool()` registration, `get_user_profile_info`,
  `test_connections` and the start-up code are not modelled. Calls are
  sequential.
- `get_user_profile` (lines 163-178) is the profile oracle. It turns a
  store error into "no profile", which the oracle can return.
- mcp_server_http.py, deploy_modal.py, modal_opentable_mcp.py and
  main_chatbot_integration_example.py are transport, deployment and demo
  code, and are not part of this model.
- Text.Lower: ASCII lower-casing only; Python's `str.lower()` also folds
  non-ASCII letters.
- Engine.ReplyText: "blank" uses ASCII whitespace; Python's `str.strip()`
  also strips Unicode spaces.
- Engine.SystemPrompt: a dict address renders in a simplified form of
  Python's dict display: only its street and city keys, in that order, with
  no escaping of quotes inside values. Other keys of the object are not
  shown, though they make it truthy for the handoff.
- Profiles.Address: non-string column values (numbers, lists, nested
  objects) are not modelled; a street or city is missing, null or a string.
- The OpenTable and Uber system prompts keep only their first paragraph.
  Their usage guides (lines 53-99 and 110-148) are prose with no effect on
  any branch.
- The tool server keeps only its kind and name. The endpoint URL is
  configuration and carries a key.
- The `tool_results` list (lines 373, 382) only feeds a log line, and is
  dropped.
- Exceptions other than the completion call's inside the engine's `try`
  block, such as a `KeyError` on a malformed record, are not modelled. The
  record read back from the table is always well-formed here.
- `created_at` and the first `last_active` are two separate clock readings
  (lines 224-225), and no relation between them is assumed.
- Sessions.SessionTable.ApplyExternal: the cleanup step is an arbitrary
  function over the rows. No property of an undefined function is assumed.
