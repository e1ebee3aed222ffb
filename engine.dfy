/** The conversation engine `call_background_claude_with_profile`
    (router_profiles_enhanced.py, lines 305-400): append the user's turn,
    build the system prompt, call the model with the service's tool server
    and retry once without it on failure, fold the response blocks into the
    reply, append the assistant's turn and persist the session.

    The model call is an oracle `complete`, a function from a request to a
    response; a response is either the list of content blocks or the
    exception the call raised, given by its "Type: message" text. */
module Engine {
  import opened Wrappers
  import opened Text
  import opened Registry
  import opened Profiles
  import opened Sessions

  /** A content block of a model response. Only text blocks and tool-result
      blocks contribute to the reply; a tool-result block carries the texts
      of its content items. */
  datatype Block = TextBlock(text: string) | ToolResultBlock(content: seq<string>) | OtherBlock(kind: string)

  /** One model call: the replayed history, the system prompt, and the tool
      server attached to it, if any. */
  datatype Request = Request(history: seq<Message>, system: string, tools: Option<ToolServer>)

  datatype Response = Answered(blocks: seq<Block>) | Raised(detail: string)

  /** The response-style directive appended to every service prompt. */
  const StyleBlock := "\n\nRESPONSE STYLE:\n- Be clear, concise, and direct\n- Avoid unnecessary explanations or verbose descriptions  \n- Get straight to the point\n- Only provide essential information needed for the user's request\n"

  const NotProvided := "Not provided"

  const ProfileUsage := "Use this profile information to provide personalized service. The User ID can be used to store/retrieve service-specific authentication tokens or preferences if your MCP supports it. If the customer needs to place an order, you already have their contact information and can use it to streamline the process."

  /** `profile.get(k, 'Not provided')` on a text column: the default only for
      a missing column; a NULL column renders as Python's "None". */
  function FieldText(f: Field<string>): string {
    match f
    case Absent => NotProvided
    case Null => "None"
    case Value(v) => v
  }

  /** The entry a key of an object address shows in its dict display:
      none for a missing key, `'k': None` for a null, `'k': 'v'` for a
      string. */
  function KeyEntry(key: string, f: Field<string>): seq<string> {
    match f
    case Absent => []
    case Null => ["'" + key + "': None"]
    case Value(v) => ["'" + key + "': '" + v + "'"]
  }

  /** `profile.get('address', 'Not provided')` rendered by an f-string: a
      plain string as itself, an object as a Python dict display of its
      street and city. */
  function AddressField(f: Field<Address>): string {
    match f
    case Absent => NotProvided
    case Null => "None"
    case Value(Plain(text)) => text
    case Value(Structured(street, city, _)) =>
      "{" + Join(KeyEntry("street", street) + KeyEntry("city", city), ", ") + "}"
  }

  /** The opening of the customer-profile block, up to the user id line. */
  function ProfileHead(userId: string): string {
    "\n\nCUSTOMER PROFILE:\n- User ID: " + userId + "\n"
  }

  /** The name line of the customer-profile block. */
  function NameLine(p: Profile): string {
    "- Name: " + FieldText(p.fullName) + "\n"
  }

  /** The phone, email and address lines of the customer-profile block. */
  function PhoneLine(p: Profile): string {
    "- Phone: " + FieldText(p.phone) + "\n"
  }

  function EmailLine(p: Profile): string {
    "- Email: " + FieldText(p.email) + "\n"
  }

  function AddressLine(p: Profile): string {
    "- Address: " + AddressField(p.address) + "\n"
  }

  /** The rest of the customer-profile block: phone, email and address
      lines and the usage instruction. */
  function ProfileTail(p: Profile): string {
    PhoneLine(p) + EmailLine(p) + AddressLine(p) + UsageNote
  }

  const UsageNote := "\n" + ProfileUsage + "\n"

  /** The customer-profile block of the system prompt. */
  function ProfileBlock(userId: string, p: Profile): string {
    ProfileHead(userId) + NameLine(p) + ProfileTail(p)
  }

  /** The system prompt: the service template, then the style directive,
      then the profile block when the session holds a profile. */
  function SystemPrompt(template: string, userId: string, profile: Option<Profile>): (r: string)
    ensures StartsWith(r, template + StyleBlock)
    ensures profile.None? ==> r == template + StyleBlock
    ensures profile.Some? ==> r == template + StyleBlock + ProfileBlock(userId, profile.value)
  {
    match profile
    case None => template + StyleBlock
    case Some(p) => template + StyleBlock + ProfileBlock(userId, p)
  }

  /** The name line of the profile block occurs in the system prompt. */
  lemma NameLineInPrompt(template: string, userId: string, p: Profile)
    ensures Contains(SystemPrompt(template, userId, Some(p)), NameLine(p))
  {
    var line := NameLine(p);
    assert Contains(ProfileBlock(userId, p), line) by {
      ContainsSelf(line);
      ContainsWithin(ProfileHead(userId), line, ProfileTail(p), line);
    }
    ContainsInTail(template + StyleBlock, ProfileBlock(userId, p), line);
  }

  /** The phone, email and address lines occur in the tail of the profile
      block. */
  lemma TailLines(p: Profile)
    ensures Contains(ProfileTail(p), PhoneLine(p))
    ensures Contains(ProfileTail(p), EmailLine(p))
    ensures Contains(ProfileTail(p), AddressLine(p))
  {
    LeadingParts(PhoneLine(p), EmailLine(p), AddressLine(p), UsageNote);
  }

  /** A line of the profile block's tail occurs in the system prompt. */
  lemma TailLineInPrompt(template: string, userId: string, p: Profile, line: string)
    requires Contains(ProfileTail(p), line)
    ensures Contains(SystemPrompt(template, userId, Some(p)), line)
  {
    ContainsInTail(ProfileHead(userId) + NameLine(p), ProfileTail(p), line);
    ContainsInTail(template + StyleBlock, ProfileBlock(userId, p), line);
  }

  /** The phone, email and address lines of the profile block occur in the
      system prompt. */
  lemma ProfileLinesInPrompt(template: string, userId: string, p: Profile)
    ensures Contains(SystemPrompt(template, userId, Some(p)), PhoneLine(p))
    ensures Contains(SystemPrompt(template, userId, Some(p)), EmailLine(p))
    ensures Contains(SystemPrompt(template, userId, Some(p)), AddressLine(p))
  {
    TailLines(p);
    TailLineInPrompt(template, userId, p, PhoneLine(p));
    TailLineInPrompt(template, userId, p, EmailLine(p));
    TailLineInPrompt(template, userId, p, AddressLine(p));
  }

  /** A profile column missing from the row is announced to the model as
      "Not provided", a NULL column as "None": name, phone, email and
      address alike. */
  lemma MissingColumnsNotProvided(template: string, userId: string, p: Profile)
    ensures p.fullName.Absent? ==> Contains(SystemPrompt(template, userId, Some(p)), "- Name: " + NotProvided + "\n")
    ensures p.fullName.Null? ==> Contains(SystemPrompt(template, userId, Some(p)), "- Name: " + "None" + "\n")
    ensures p.phone.Absent? ==> Contains(SystemPrompt(template, userId, Some(p)), "- Phone: " + NotProvided + "\n")
    ensures p.phone.Null? ==> Contains(SystemPrompt(template, userId, Some(p)), "- Phone: " + "None" + "\n")
    ensures p.email.Absent? ==> Contains(SystemPrompt(template, userId, Some(p)), "- Email: " + NotProvided + "\n")
    ensures p.email.Null? ==> Contains(SystemPrompt(template, userId, Some(p)), "- Email: " + "None" + "\n")
    ensures p.address.Absent? ==> Contains(SystemPrompt(template, userId, Some(p)), "- Address: " + NotProvided + "\n")
    ensures p.address.Null? ==> Contains(SystemPrompt(template, userId, Some(p)), "- Address: " + "None" + "\n")
  {
    NameLineInPrompt(template, userId, p);
    ProfileLinesInPrompt(template, userId, p);
  }

  const NoToolsLead := "\n\nNote: I don't have access to external tools right now, but I can still help you with general information about "

  /** The note appended to the prompt of the retry without tools. */
  function NoToolsNote(service: string): string {
    NoToolsLead + service + "."
  }

  /** The retry of a request that raised: the same history, the prompt with
      the no-tools note appended, and no tool server. */
  function WithoutTools(r: Request, service: string): Request {
    Request(r.history, r.system + NoToolsNote(service), None)
  }

  /** The calls made for one turn and the response that decides it. */
  datatype Attempt = Attempt(requests: seq<Request>, response: Response)

  /** The completion with its one retry: with a tool server, a call with
      tools and, only if that raised, a second call without tools whose
      prompt carries the note; without one, a single call. */
  function CallWithRetry(
    complete: Request -> Response, history: seq<Message>, system: string,
    tools: Option<ToolServer>, service: string): (a: Attempt)
    ensures 1 <= |a.requests| <= 2
    ensures a.requests[0] == Request(history, system, tools)
    ensures |a.requests| == 2 <==> tools.Some? && complete(a.requests[0]).Raised?
    ensures |a.requests| == 2 ==> a.requests[1] == WithoutTools(a.requests[0], service)
    ensures a.response == complete(a.requests[|a.requests| - 1])
  {
    var first := Request(history, system, tools);
    if tools.Some? && complete(first).Raised? then
      var second := WithoutTools(first, service);
      Attempt([first, second], complete(second))
    else
      Attempt([first], complete(first))
  }

  /** The model call of the engine with its one retry, as the source makes
      it: the call with tools and, if it raised, the call without them. */
  method Complete(
    complete: Request -> Response, history: seq<Message>, system: string,
    tools: Option<ToolServer>, service: string)
    returns (response: Response)
    ensures response == CallWithRetry(complete, history, system, tools, service).response
  {
    if tools.Some? {
      response := complete(Request(history, system, tools));
      if response.Raised? {
        response := complete(Request(history, system + NoToolsNote(service), None));
      }
    } else {
      response := complete(Request(history, system, None));
    }
  }

  /** What one block adds to the reply: a text block its text; a tool-result
      block with content a blank line and the text of its first item;
      anything else nothing. */
  function Piece(b: Block): string {
    match b
    case TextBlock(text) => text
    case ToolResultBlock(content) => if |content| > 0 then "\n\n" + content[0] else ""
    case OtherBlock(_) => ""
  }

  /** The reply text accumulated over the blocks, as the loop builds it:
      the text of all blocks but the last, then the last one's piece. */
  function Fold(blocks: seq<Block>): string
    decreases |blocks|
  {
    if |blocks| == 0 then "" else Fold(blocks[..|blocks| - 1]) + Piece(blocks[|blocks| - 1])
  }

  /** The blocks' pieces read front to back: the first block's piece, then
      the rest. */
  function Render(blocks: seq<Block>): string
    decreases |blocks|
  {
    if |blocks| == 0 then "" else Piece(blocks[0]) + Render(blocks[1..])
  }

  /** The accumulated reply is the pieces of all blocks in the order the
      model emitted them. */
  lemma {:induction false} FoldIsRender(blocks: seq<Block>)
    ensures Fold(blocks) == Render(blocks)
    decreases |blocks|
  {
    if |blocks| > 0 {
      var n := |blocks|;
      FoldIsRender(blocks[..n - 1]);
      if n > 1 {
        RenderSnoc(blocks[..n - 1], blocks[n - 1]);
        assert blocks[..n - 1] + [blocks[n - 1]] == blocks;
      }
    }
  }

  /** Reading front to back, a block added at the end adds its piece at the
      end. */
  lemma {:induction false} RenderSnoc(blocks: seq<Block>, b: Block)
    ensures Render(blocks + [b]) == Render(blocks) + Piece(b)
    decreases |blocks|
  {
    if |blocks| == 0 {
      assert Render([b]) == Piece(b) + Render([]);
    } else {
      assert (blocks + [b])[1..] == blocks[1..] + [b];
      RenderSnoc(blocks[1..], b);
    }
  }

  const FallbackLead := "I received a response from "
  const FallbackTail := " but couldn't process it properly."

  /** The fallback reply for a response with no visible text. */
  function Fallback(service: string): (r: string)
    ensures !Blank(r)
  {
    var r := FallbackLead + service + FallbackTail;
    assert r[0] == 'I';
    r
  }

  /** The reply: the accumulated text, or the fallback when that is blank.
      The reply is never blank. */
  function ReplyText(blocks: seq<Block>, service: string): (r: string)
    ensures !Blank(r)
    ensures !Blank(Render(blocks)) ==> r == Render(blocks)
    ensures Blank(Render(blocks)) ==> r == Fallback(service)
  {
    FoldIsRender(blocks);
    var text := Fold(blocks);
    if Blank(text) then Fallback(service) else text
  }

  /** The block loop of the engine, proved to compute `ReplyText`. */
  method AssembleReply(blocks: seq<Block>, service: string) returns (reply: string)
    ensures reply == ReplyText(blocks, service)
    ensures !Blank(reply)
  {
    reply := "";
    var i := 0;
    while i < |blocks|
      invariant 0 <= i <= |blocks|
      invariant reply == Fold(blocks[..i])
    {
      var b := blocks[i];
      match b {
        case TextBlock(text) =>
          if text != "" {
            reply := reply + text;
          }
        case ToolResultBlock(content) =>
          if |content| > 0 {
            reply := reply + "\n\n" + content[0];
          }
        case OtherBlock(_) =>
      }
      assert blocks[..i + 1][..i] == blocks[..i];
      i := i + 1;
    }
    assert blocks[..i] == blocks;
    if Blank(reply) {
      reply := Fallback(service);
    }
  }

  /** The user entry a turn appends: one for a non-empty message, none for
      the empty message a new session starts with. */
  function UserTurn(message: string): (r: seq<Message>)
    ensures |r| == (if message == "" then 0 else 1)
    ensures |r| == 1 ==> r[0] == Message(User, message)
  {
    if message != "" then [Message(User, message)] else []
  }

  const ApologyLead := "Sorry, I encountered an error with "

  /** The reply when the completion (including its retry) raised. */
  function Apology(service: string, detail: string): (r: string)
    ensures !Blank(r)
    ensures StartsWith(r, ApologyLead + service + ": ")
  {
    var r := ApologyLead + service + ": " + detail;
    assert r[0] == 'S';
    r
  }

  /** The outcome of one turn: the calls made, the reply, the record's
      history afterwards, and whether the turn completed (and is then
      persisted). */
  datatype TurnOutcome = TurnOutcome(requests: seq<Request>, reply: string, history: seq<Message>, completed: bool)

  /** The system prompt a turn on `row` uses: built from the context
      snapshot's service template and profile, and the row's user id. */
  function PromptFor(row: Row): string {
    SystemPrompt(row.context.config.systemPrompt, row.userId, row.context.profile)
  }

  /** One engine turn on a session row with system prompt `system`, as a
      function of the row, the incremental message and the oracle. */
  function Turn(row: Row, message: string, system: string, complete: Request -> Response): (t: TurnOutcome)
    ensures 1 <= |t.requests| <= 2
    ensures t.requests[0] == Request(row.history + UserTurn(message), system, row.context.config.toolServer)
    ensures |t.requests| == 2 ==> t.requests[1] == WithoutTools(t.requests[0], row.service)
    ensures t.completed ==> t.history == row.history + UserTurn(message) + [Message(Assistant, t.reply)]
    ensures !t.completed ==>
      t.history == row.history + UserTurn(message)
      && StartsWith(t.reply, ApologyLead + row.service + ": ")
    ensures !Blank(t.reply)
    ensures var a := CallWithRetry(complete, row.history + UserTurn(message), system, row.context.config.toolServer, row.service);
      && t.requests == a.requests
      && (t.completed <==> a.response.Answered?)
      && (t.completed ==> t.reply == ReplyText(a.response.blocks, row.service))
      && (!t.completed ==> t.reply == Apology(row.service, a.response.detail))
  {
    var history := row.history + UserTurn(message);
    var a := CallWithRetry(complete, history, system, row.context.config.toolServer, row.service);
    match a.response
    case Raised(detail) =>
      TurnOutcome(a.requests, Apology(row.service, detail), history, false)
    case Answered(blocks) =>
      var reply := ReplyText(blocks, row.service);
      TurnOutcome(a.requests, reply, history + [Message(Assistant, reply)], true)
  }

  /** The sessions table after a turn: a completed turn writes the record's
      new history, activity time and context, unless the write fails; a
      failed turn writes nothing. */
  function RowsAfterTurn(rows: seq<Row>, row: Row, t: TurnOutcome, now: int, updateFails: bool): seq<Row> {
    if t.completed && !updateFails then UpdateRows(rows, row.sessionId, t.history, now, row.context) else rows
  }

  /** `call_background_claude_with_profile` on the record `session`. */
  method CallModelWithProfile(
    table: SessionTable, session: Session, message: string,
    complete: Request -> Response, now: int, updateFails: bool)
    returns (reply: string)
    modifies table, session
    ensures var t := Turn(old(session.Snapshot()), message, PromptFor(old(session.Snapshot())), complete);
      && reply == t.reply
      && session.Snapshot() == old(session.Snapshot()).(
           history := t.history,
           lastActive := if t.completed then now else old(session.lastActive))
      && table.rows == RowsAfterTurn(old(table.rows), old(session.Snapshot()), t, now, updateFails)
  {
    ghost var row := session.Snapshot();
    var config := session.context.config;
    var profile := session.context.profile;
    if message != "" {
      session.history := session.history + [Message(User, message)];
    }
    assert session.history == row.history + UserTurn(message);
    var system := SystemPrompt(config.systemPrompt, session.userId, profile);
    assert system == PromptFor(row);
    var response := Complete(complete, session.history, system, config.toolServer, session.service);
    ghost var t := Turn(row, message, system, complete);
    match response {
      case Raised(detail) =>
        reply := Apology(session.service, detail);
        assert reply == t.reply && session.history == t.history && !t.completed;
      case Answered(blocks) =>
        reply := AssembleReply(blocks, session.service);
        session.history := session.history + [Message(Assistant, reply)];
        assert reply == t.reply && session.history == t.history && t.completed;
        var persisted := table.UpdateSession(session, now, updateFails);
    }
  }
}
