/** backend/agents/agents.py: saving a conversation turn, the three tools
    the language model can call, and the message handler that runs the
    root agent and keeps its one-shot session flag. The model service and
    the agent runner are parameters: a gateway maps a prompt to what
    `generate_content` (and, for structured calls, `json.loads`) yields,
    and a runner maps a message to the events `run_async` produces. */
module Agents {
  import opened Wrappers
  import opened Json
  import opened PyText
  import opened Schemas
  import opened DbFile

  // ================================================================ save_conversation

  /** The record `save_conversation` builds: website 0 when none is given,
      the user message first and the assistant message second. */
  function NewConversation(id: int, websiteId: Option<int>, user: ConversationMessage,
                           ai: ConversationMessage, createdAt: string): Conversation
  {
    Conversation(id, if websiteId.None? then 0 else websiteId.value, [user, ai], createdAt)
  }

  /** What the stored record reads back as, and that it holds exactly the
      two messages of the turn in order. */
  lemma StoredConversationReadsBack(id: int, websiteId: Option<int>, user: ConversationMessage,
                                    ai: ConversationMessage, createdAt: string)
    ensures var c := ValidateConversation(ConversationFields(NewConversation(id, websiteId, user, ai, createdAt)));
      && c.Some?
      && c.value.id == id
      && c.value.websiteId == (if websiteId.None? then 0 else websiteId.value)
      && |c.value.messages| == 2 && c.value.messages[0] == user && c.value.messages[1] == ai
      && c.value.createdAt == createdAt
  {
    ConversationRoundTrip(NewConversation(id, websiteId, user, ai, createdAt));
  }

  /** What `save_conversation` returns and what the file holds afterwards:
      the store's list of conversations with the new one appended, or, when
      reading the file or the existing ids raises, that failure and the file
      as it was. */
  function Saved(file: Option<Json>, websiteId: Option<int>, user: ConversationMessage,
                 ai: ConversationMessage, createdAt: string): (Result<Conversation, StoreFault>, Option<Json>)
  {
    match ReadRecords(file, ConversationsKey)
    case Err(f) => (Err(f), file)
    case Ok((doc, convs)) =>
      match RecordIds(convs, MissingIsZero)
      case None => (Err(Malformed), file)
      case Some(ids) =>
        var c := NewConversation(NextIdOf(ids), websiteId, user, ai, createdAt);
        (Ok(c), Some(JObj(Appended(doc, ConversationsKey, convs, JObj(ConversationFields(c))))))
  }

  /** `save_conversation`: appends one conversation to the store. `clock`
      is what `datetime.utcnow().isoformat()` returns. */
  method SaveConversation(db: Db, websiteId: Option<int>, user: ConversationMessage,
                          ai: ConversationMessage, clock: string)
    returns (r: Result<Conversation, StoreFault>)
    modifies db
    ensures (r, db.file) == Saved(old(db.file), websiteId, user, ai, clock + "Z")
  {
    var createdAt := clock + "Z";
    var id := Append(db, ConversationsKey, MissingIsZero,
                     id => JObj(ConversationFields(NewConversation(id, websiteId, user, ai, createdAt))));
    if id.Err? {
      return Err(id.error);
    }
    r := Ok(NewConversation(id.value, websiteId, user, ai, createdAt));
  }

  /** A successful save leaves the earlier conversations in place, leaves
      every other key of the document (such as `websites`) untouched, and
      adds one conversation whose id is above every earlier one. */
  lemma SaveAppendsOne(file: Option<Json>, websiteId: Option<int>, user: ConversationMessage,
                       ai: ConversationMessage, createdAt: string)
    requires Saved(file, websiteId, user, ai, createdAt).0.Ok?
    ensures var (r, after) := Saved(file, websiteId, user, ai, createdAt);
      var (doc, convs) := ReadRecords(file, ConversationsKey).value;
      && after.Some? && after.value.JObj?
      && (forall k :: k in doc && k != ConversationsKey ==> k in after.value.fields && after.value.fields[k] == doc[k])
      && ConversationsKey in after.value.fields
      && after.value.fields[ConversationsKey] == JArr(convs + [JObj(ConversationFields(r.value))])
      && (forall c :: c in convs ==> RecordId(c, MissingIsZero).Some? && RecordId(c, MissingIsZero).value < r.value.id)
  {
    var (doc, convs) := ReadRecords(file, ConversationsKey).value;
    var ids := RecordIds(convs, MissingIsZero).value;
    forall c | c in convs
      ensures RecordId(c, MissingIsZero).Some? && RecordId(c, MissingIsZero).value < NextIdOf(ids)
    {
      var k :| 0 <= k < |convs| && convs[k] == c;
    }
  }

  // ================================================================ the model service

  /** What a structured `generate_content` call followed by `json.loads`
      yields: the call raised, its text was not JSON, or the decoded value
      (with the message pydantic would raise should it not fit the schema). */
  datatype StructuredReply =
    | CallFailed(detail: string)
    | Undecodable(detail: string)
    | Decoded(data: Json, rejection: string)

  /** What a plain-text `generate_content` call yields. */
  datatype TextReply = TextCallFailed(detail: string) | Text(text: string)

  const ClientName: string := "Gemini client"

  /** The message `client` being unset produces. */
  const NotConfigured: string := ClientName + " not configured."

  // ================================================================ product_info

  const ProductFailurePrefix := "Failed to get product info: "

  /** `product.dict()` on success, or the `{"error": ...}` dict. */
  datatype ProductReply = ProductFound(info: ProductInfo) | ProductError(error: string)

  const QueryLabel: string := "User Query: "
  const WebsiteLabel: string := "\nWebsite: "

  function ProductPrompt(query: string, websiteUrl: string): string {
    QueryLabel + query + WebsiteLabel + websiteUrl
  }

  /** `product_info`. Never raises: no client, a failed call, undecodable
      text and a record that does not fit `ProductInfo` all become errors. */
  function ProductInfoTool(query: string, websiteUrl: string, configured: bool,
                           gateway: string -> StructuredReply): (r: ProductReply)
    ensures !configured ==> r == ProductError(NotConfigured)
    ensures configured && r.ProductError? ==> HasPrefix(r.error, ProductFailurePrefix)
    ensures r.ProductFound? <==>
      && configured
      && gateway(ProductPrompt(query, websiteUrl)).Decoded?
      && gateway(ProductPrompt(query, websiteUrl)).data.JObj?
      && ValidateProductInfo(gateway(ProductPrompt(query, websiteUrl)).data.fields).Some?
    ensures r.ProductFound? ==>
      ValidateProductInfo(gateway(ProductPrompt(query, websiteUrl)).data.fields) == Some(r.info)
  {
    if !configured then ProductError(NotConfigured)
    else
      match gateway(ProductPrompt(query, websiteUrl))
      case CallFailed(e) => ProductError(ProductFailurePrefix + e)
      case Undecodable(e) => ProductError(ProductFailurePrefix + e)
      case Decoded(data, rejection) =>
        var info := if data.JObj? then ValidateProductInfo(data.fields) else None;
        match info
        case Some(p) => ProductFound(p)
        case None => ProductError(ProductFailurePrefix + rejection)
  }

  // ================================================================ support_agent_info

  const NoWebsiteUrl := "No website URL provided."
  const SupportFailurePrefix := "Support agent failed: "
  /** What `client.models` raises when no client was configured. */
  const NoClientAttribute := "'NoneType' object has no attribute 'models'"

  /** `{"content": text}` or `{"error": ...}`. */
  datatype SupportReply = SupportContent(content: string) | SupportError(error: string)

  /** The fixed text around the query in the support prompt. */
  const SupportPreamble: string :=
    "You are a support agent. Use the following website content to answer the user's question.\n"
    + "Website Content: User Query: "
  const SupportClosing: string := "\nRespond concisely and helpfully."

  /** The support prompt; the website URL does not appear in it. */
  function SupportPrompt(query: string): string {
    SupportPreamble + query + SupportClosing
  }

  /** `support_agent_info`. The URL is checked first; the client is not
      checked at all, so an unset client fails on attribute access. */
  function SupportAgentInfo(query: string, websiteUrl: string, configured: bool,
                            gateway: string -> TextReply): (r: SupportReply)
    ensures websiteUrl == "" ==> r == SupportError(NoWebsiteUrl)
    ensures websiteUrl != "" && !configured ==> r == SupportError(SupportFailurePrefix + NoClientAttribute)
    ensures r.SupportContent? <==> websiteUrl != "" && configured && gateway(SupportPrompt(query)).Text?
    ensures r.SupportContent? ==> r.content == gateway(SupportPrompt(query)).text
    ensures websiteUrl != "" && r.SupportError? ==> HasPrefix(r.error, SupportFailurePrefix)
  {
    if websiteUrl == "" then SupportError(NoWebsiteUrl)
    else if !configured then SupportError(SupportFailurePrefix + NoClientAttribute)
    else
      match gateway(SupportPrompt(query))
      case TextCallFailed(e) => SupportError(SupportFailurePrefix + e)
      case Text(t) => SupportContent(t)
  }

  // ================================================================ compare_product_info

  const CompareFailurePrefix := "Failed to compare products: "

  /** `result.dict()` (possibly the degraded one) or the bare `{"error": ...}`
      dict returned when no client is configured. */
  datatype CompareReply = Compared(result: ProductComparisonResult) | CompareError(error: string)

  /** The fixed instructions that end the comparison prompt. */
  const CompareInstructions: string :=
    "Return a JSON object with these fields: 'product1' (object: name, image, price, link, summary), "
    + "'product2' (object: name, image, price, link, summary), "
    + "'comparison' (array of {label, product1_value, product2_value}), 'winner' (string), and 'summary' (string).\n"
    + "If you cannot compare, still return the JSON object with the above fields, and provide an explanation in the 'summary' field."

  function ComparePrompt(product1: string, product2: string, websiteUrl: string): string {
    "Compare the following two products from the website: " + websiteUrl + ".\n"
    + "Product 1: " + product1 + "\n"
    + "Product 2: " + product2 + "\n"
    + CompareInstructions
  }

  /** The comparison returned when the call, the decoding or the
      validation raises: both names echoed, nothing compared, no winner,
      and the failure in `summary`. */
  function Degraded(product1: string, product2: string, detail: string): (c: ProductComparisonResult)
    ensures c.product1.name == product1 && c.product2.name == product2
    ensures c.comparison == [] && c.winner == None
    ensures c.summary.Some? && HasPrefix(c.summary.value, CompareFailurePrefix)
  {
    var side := (name: string) => ProductComparisonProduct(name, None, None, None, None);
    var summary := CompareFailurePrefix + detail;
    assert summary[..|CompareFailurePrefix|] == CompareFailurePrefix;
    ProductComparisonResult(side(product1), side(product2), [], None, Some(summary))
  }

  /** `compare_product_info`. With a client it always yields a comparison
      record, degraded on failure; without one, the bare error dict. */
  function CompareProductInfo(product1: string, product2: string, websiteUrl: string, configured: bool,
                              gateway: string -> StructuredReply): (r: CompareReply)
    ensures !configured ==> r == CompareError(NotConfigured)
    ensures configured ==> r.Compared?
    ensures r.Compared? ==>
      var reply := gateway(ComparePrompt(product1, product2, websiteUrl));
      if reply.Decoded? && reply.data.JObj? && ValidateComparisonResult(reply.data.fields).Some? then
        ValidateComparisonResult(reply.data.fields) == Some(r.result)
      else
        && r.result.product1.name == product1 && r.result.product2.name == product2
        && r.result.comparison == [] && r.result.winner == None
        && r.result.summary.Some? && HasPrefix(r.result.summary.value, CompareFailurePrefix)
  {
    if !configured then CompareError(NotConfigured)
    else
      match gateway(ComparePrompt(product1, product2, websiteUrl))
      case CallFailed(e) => Compared(Degraded(product1, product2, e))
      case Undecodable(e) => Compared(Degraded(product1, product2, e))
      case Decoded(data, rejection) =>
        var result := if data.JObj? then ValidateComparisonResult(data.fields) else None;
        match result
        case Some(c) => Compared(c)
        case None => Compared(Degraded(product1, product2, rejection))
  }

  // ================================================================ handle_message

  datatype Part = Part(text: string)
  datatype Content = Content(parts: seq<Part>)
  datatype Event = Event(isFinal: bool, content: Option<Content>)

  /** What `runner.run_async` does for one message: the events it yields,
      and the exception it raises after them, if any. */
  datatype Run = Run(events: seq<Event>, raised: Option<string>)

  const NoFinalResponse := "Agent did not produce a final response."
  const ErrorPrefix := "Error processing request: "

  /** The text a final event contributes: part 0 when it has content and
      parts, the placeholder otherwise. */
  function FinalText(e: Event): string {
    if e.content.Some? && |e.content.value.parts| > 0 then e.content.value.parts[0].text
    else NoFinalResponse
  }

  /** The reply to a run: decided by the first final event; without one,
      the runner's exception or else the placeholder. */
  function Reply(events: seq<Event>, raised: Option<string>): string {
    if events == [] then
      match raised
      case None => NoFinalResponse
      case Some(e) => ErrorPrefix + e
    else if events[0].isFinal then FinalText(events[0])
    else Reply(events[1..], raised)
  }

  /** The first final event decides the reply; later events, and an
      exception the runner would raise after them, change nothing. */
  lemma {:induction false} FirstFinalDecides(before: seq<Event>, e: Event, after: seq<Event>, raised: Option<string>)
    requires forall j :: 0 <= j < |before| ==> !before[j].isFinal
    requires e.isFinal
    ensures Reply(before + [e] + after, raised) == FinalText(e)
  {
    if before != [] {
      assert (before + [e] + after)[1..] == before[1..] + [e] + after;
      FirstFinalDecides(before[1..], e, after, raised);
    }
  }

  /** Without a final event, the reply is the placeholder, or the error
      text when the runner raised. */
  lemma {:induction false} NoFinalEvent(events: seq<Event>, raised: Option<string>)
    requires forall j :: 0 <= j < |events| ==> !events[j].isFinal
    ensures raised.None? ==> Reply(events, raised) == NoFinalResponse
    ensures raised.Some? ==> Reply(events, raised) == ErrorPrefix + raised.value
  {
    if events != [] {
      NoFinalEvent(events[1..], raised);
    }
  }

  /** The loop of `handle_message` over the runner's events. */
  method ScanEvents(run: Run) returns (reply: string)
    ensures reply == Reply(run.events, run.raised)
  {
    reply := NoFinalResponse;
    var i := 0;
    while i < |run.events|
      invariant 0 <= i <= |run.events|
      invariant reply == NoFinalResponse
      invariant Reply(run.events, run.raised) == Reply(run.events[i..], run.raised)
    {
      var event := run.events[i];
      if event.isFinal {
        if event.content.Some? && |event.content.value.parts| > 0 {
          reply := event.content.value.parts[0].text;
        }
        break;
      }
      assert run.events[i..][1..] == run.events[i + 1..];
      i := i + 1;
    }
    if i == |run.events| && run.raised.Some? {
      reply := ErrorPrefix + run.raised.value;
    }
  }

  /** The module-level state of agents.py that outlives a request: the
      `session_initialized` flag and whether the in-memory session service
      holds the session. `sessionCalls` counts the `ensure_session` calls
      made through this runtime; `Valid` ties it to the flag. */
  class Runtime {
    var sessionInitialized: bool
    var sessionExists: bool
    ghost var sessionCalls: nat

    ghost predicate Valid()
      reads this
    {
      sessionCalls == if sessionInitialized then 1 else 0
    }

    constructor ()
      ensures Valid() && !sessionInitialized && !sessionExists
    {
      sessionInitialized := false;
      sessionExists := false;
      sessionCalls := 0;
    }

    /** `ensure_session`: asks the session service to create the session
      (`created` says whether that succeeds) and swallows every error. */
    method EnsureSession(created: bool)
      modifies this`sessionExists, this`sessionCalls
      ensures sessionExists == (old(sessionExists) || created)
      ensures sessionCalls == old(sessionCalls) + 1
    {
      sessionCalls := sessionCalls + 1;
      if created {
        sessionExists := true;
      }
    }

    /** `handle_message`: sets the flag before the first `ensure_session`
      and never clears it, so that call happens at most once; then scans
      the events the runner yields for this message. */
    method HandleMessage(message: string, created: bool, runner: string -> Run) returns (reply: string)
      requires Valid()
      modifies this
      ensures Valid() && sessionInitialized && sessionCalls <= 1
      ensures sessionCalls == old(sessionCalls) + (if old(sessionInitialized) then 0 else 1)
      ensures old(sessionInitialized) ==> sessionExists == old(sessionExists)
      ensures !old(sessionInitialized) ==> sessionExists == (old(sessionExists) || created)
      ensures reply == Reply(runner(message).events, runner(message).raised)
    {
      if !sessionInitialized {
        sessionInitialized := true;
        EnsureSession(created);
      }
      reply := ScanEvents(runner(message));
    }
  }
}
