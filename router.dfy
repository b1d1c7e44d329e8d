/** backend/agents/router.py: the chat endpoint. A request that names a
    stored website with a non-empty URL takes the product path (the
    `product_info` tool directly); every other request takes the
    conversational path (the root agent through `handle_message`). Either
    way one two-message conversation is saved. */
module Router {
  import opened Wrappers
  import opened Json
  import opened PyText
  import opened Schemas
  import opened DbFile
  import opened Agents
  import Websites

  datatype ChatRequest = ChatRequest(message: string, websiteId: Option<int>)

  /** `{"response": ..., "product": ...}`; `product` is None when the key
      is absent from the reply. */
  datatype ChatReply = ChatReply(response: string, product: Option<ProductReply>)

  /** `if website_id:` — None and 0 are false. */
  predicate Truthy(id: Option<int>) {
    id.Some? && id.value != 0
  }

  /** `website_id or 0`. */
  function OrZero(id: Option<int>): (n: int)
    ensures Truthy(id) ==> n == id.value
    ensures !Truthy(id) ==> n == 0
  {
    if Truthy(id) then id.value else 0
  }

  // ================================================================ website lookup

  /** What `for w in db.get('websites', [])` iterates over. An empty string
      or object iterates nothing; a non-empty one yields strings, whose
      `.get` raises; any other non-list value cannot be iterated. */
  function LookupItems(file: Option<Json>): (r: Result<seq<Json>, StoreFault>)
    ensures file.None? ==> r == Err(Unreadable)
    ensures r.Ok? ==> file.Some? && file.value.JObj?
    ensures ReadRecords(file, WebsitesKey).Ok? ==> r == Ok(ReadRecords(file, WebsitesKey).value.1)
  {
    match file
    case None => Err(Unreadable)
    case Some(JObj(doc)) =>
      if WebsitesKey !in doc then Ok([])
      else (match doc[WebsitesKey]
        case JArr(items) => Ok(items)
        case JStr(s) => if s == "" then Ok([]) else Err(Malformed)
        case JObj(m) => if m == map[] then Ok([]) else Err(Malformed)
        case _ => Err(Malformed))
    case Some(_) => Err(Malformed)
  }

  /** `w.get('id') == website_id`, with Python's `True == 1`. */
  predicate IdMatches(w: map<string, Json>, id: int) {
    "id" in w && AsNumber(w["id"]) == Some(id)
  }

  /** The first website whose id matches, validated by `WebsiteInfo(**w)`.
      A non-object before the match, or a match that does not validate,
      raises. */
  function Lookup(ws: seq<Json>, id: int): (r: Result<Option<WebsiteInfo>, StoreFault>)
    ensures r.Ok? && r.value.Some? ==> r.value.value.id == Some(id)
  {
    if ws == [] then Ok(None)
    else if !ws[0].JObj? then Err(Malformed)
    else if IdMatches(ws[0].fields, id) then
      match ValidateWebsiteInfo(ws[0].fields)
      case Some(w) => Ok(Some(w))
      case None => Err(Malformed)
    else Lookup(ws[1..], id)
  }

  /** The first match wins: whatever follows it is never looked at. */
  lemma {:induction false} FirstMatchWins(before: seq<Json>, w: map<string, Json>, after: seq<Json>, id: int)
    requires forall j :: 0 <= j < |before| ==> before[j].JObj? && !IdMatches(before[j].fields, id)
    requires IdMatches(w, id)
    ensures Lookup(before + [JObj(w)] + after, id) ==
      match ValidateWebsiteInfo(w)
      case Some(site) => Ok(Some(site))
      case None => Err(Malformed)
  {
    if before != [] {
      assert (before + [JObj(w)] + after)[1..] == before[1..] + [JObj(w)] + after;
      FirstMatchWins(before[1..], w, after, id);
    }
  }

  /** An id no stored website carries resolves to nothing. */
  lemma {:induction false} NoMatchResolvesToNothing(ws: seq<Json>, id: int)
    requires forall j :: 0 <= j < |ws| ==> ws[j].JObj? && !IdMatches(ws[j].fields, id)
    ensures Lookup(ws, id) == Ok(None)
  {
    if ws != [] {
      NoMatchResolvesToNothing(ws[1..], id);
    }
  }

  /** The lookup loop of `chat`, which stops at the first match. */
  method FindWebsite(ws: seq<Json>, id: int) returns (r: Result<Option<WebsiteInfo>, StoreFault>)
    ensures r == Lookup(ws, id)
  {
    r := Ok(None);
    var i := 0;
    while i < |ws|
      invariant 0 <= i <= |ws|
      invariant r == Ok(None)
      invariant Lookup(ws, id) == Lookup(ws[i..], id)
    {
      var w := ws[i];
      if !w.JObj? {
        return Err(Malformed);
      }
      if IdMatches(w.fields, id) {
        var site := ValidateWebsiteInfo(w.fields);
        if site.None? {
          return Err(Malformed);
        }
        r := Ok(site);
        break;
      }
      assert ws[i..][1..] == ws[i + 1..];
      i := i + 1;
    }
  }

  /** The website a request resolves to. The file is read only when the
      id is truthy. */
  function Resolve(file: Option<Json>, websiteId: Option<int>): (r: Result<Option<WebsiteInfo>, StoreFault>)
    ensures !Truthy(websiteId) ==> r == Ok(None)
    ensures r.Ok? && r.value.Some? ==> Truthy(websiteId) && r.value.value.id == websiteId
  {
    if !Truthy(websiteId) then Ok(None)
    else
      match LookupItems(file)
      case Err(f) => Err(f)
      case Ok(ws) => Lookup(ws, websiteId.value)
  }

  /** A website registered by `add_website` is what a chat request naming
      its id resolves to: every earlier record carries a smaller id, so the
      scan reaches the new record, which validates back to the website.
      (An id of 0, possible only when every stored id is negative, is
      falsy and never looked up.) */
  lemma AddedWebsiteResolves(file: Option<Json>, url: string, details: Option<Websites.SiteDetails>, createdAt: string)
    requires Websites.Added(file, url, details, createdAt).0.Ok?
    ensures var (r, after) := Websites.Added(file, url, details, createdAt);
      r.value.id != Some(0) ==> Resolve(after, r.value.id) == Ok(Some(r.value))
  {
    var (r, after) := Websites.Added(file, url, details, createdAt);
    var w := r.value;
    if w.id == Some(0) {
      return;
    }
    var (doc, ws) := ReadRecords(file, WebsitesKey).value;
    Websites.AddAppendsOne(file, url, details, createdAt);
    var id := w.id.value;
    forall j | 0 <= j < |ws|
      ensures ws[j].JObj? && !IdMatches(ws[j].fields, id)
    {
      assert ws[j] in ws;
    }
    assert after.value.fields[WebsitesKey] == JArr(ws + [JObj(WebsiteInfoFields(w))]);
    assert LookupItems(after) == Ok(ws + [JObj(WebsiteInfoFields(w))]);
    WebsiteInfoRoundTrip(w);
    assert IdMatches(WebsiteInfoFields(w), id);
    FirstMatchWins(ws, WebsiteInfoFields(w), [], id);
    assert ws + [JObj(WebsiteInfoFields(w))] + [] == ws + [JObj(WebsiteInfoFields(w))];
  }

  // ================================================================ dispatch and shaping

  /** The URL that sends a request down the product path: that of a
      resolved website, when it is present and non-empty. */
  function ProductUrl(site: Option<WebsiteInfo>): (url: Option<string>)
    ensures url.Some? <==> site.Some? && site.value.url.Some? && site.value.url.value != ""
    ensures url.Some? ==> url == site.value.url
  {
    match site
    case Some(WebsiteInfo(_, _, Some(u), _, _, _)) => if u == "" then None else Some(u)
    case _ => None
  }

  /** `str({"error": e})`. */
  const ErrorDictOpen: string := "{'error': "

  function ErrorDictText(error: string): string {
    ErrorDictOpen + Repr(error) + "}"
  }

  /** `product.get('content', str(product))`: the product's content, or
      the printed error dict. */
  function ProductResponse(p: ProductReply): (text: string)
    ensures p.ProductFound? ==> text == p.info.content
    ensures p.ProductError? ==>
      && |text| >= 13 && text[..10] == ErrorDictOpen && text[|text| - 1] == '}'
      && Unescape(text[11..|text| - 2]) == p.error
  {
    match p
    case ProductFound(info) => info.content
    case ProductError(e) =>
      var text := ErrorDictText(e);
      ReprReadsBack(e);
      assert text[11..|text| - 2] == Repr(e)[1..|Repr(e)| - 1];
      text
  }

  function UserMessage(text: string): ConversationMessage {
    ConversationMessage("user", text, None, None, None)
  }

  /** The assistant message of a product turn: the response text plus the
      product's image, price and link (all None for an error). */
  function ProductMessage(p: ProductReply): (m: ConversationMessage)
    ensures m.role == "assistant" && m.content == ProductResponse(p)
    ensures p.ProductFound? ==> m.image == p.info.image && m.price == p.info.price && m.link == p.info.link
    ensures p.ProductError? ==> m.image == None && m.price == None && m.link == None
  {
    match p
    case ProductFound(info) => ConversationMessage("assistant", ProductResponse(p), info.image, info.price, info.link)
    case ProductError(_) => ConversationMessage("assistant", ProductResponse(p), None, None, None)
  }

  function ReplyMessage(text: string): ConversationMessage {
    ConversationMessage("assistant", text, None, None, None)
  }

  // ================================================================ chat

  /** A product turn: the `product_info` reply, and what saving the turn
      returns and leaves in the file. */
  function ProductTurn(file: Option<Json>, request: ChatRequest, url: string, createdAt: string,
                       configured: bool, gateway: string -> StructuredReply)
    : (Result<ChatReply, StoreFault>, Option<Json>)
  {
    var product := ProductInfoTool(request.message, url, configured, gateway);
    var (saved, after) := Saved(file, request.websiteId, UserMessage(request.message), ProductMessage(product), createdAt);
    (if saved.Ok? then Ok(ChatReply(ProductResponse(product), Some(product))) else Err(saved.error), after)
  }

  /** A conversational turn whose agent reply is `reply`: what saving the
      turn under `website_id or 0` returns and leaves in the file. */
  function ConversationalTurn(file: Option<Json>, request: ChatRequest, reply: string, createdAt: string)
    : (Result<ChatReply, StoreFault>, Option<Json>)
  {
    var (saved, after) := Saved(file, Some(OrZero(request.websiteId)), UserMessage(request.message),
                                ReplyMessage(reply), createdAt);
    (if saved.Ok? then Ok(ChatReply(reply, None)) else Err(saved.error), after)
  }

  /** The lookup of `chat`: the file is read only for a truthy id. */
  method ResolveWebsite(db: Db, websiteId: Option<int>) returns (r: Result<Option<WebsiteInfo>, StoreFault>)
    ensures r == Resolve(db.file, websiteId)
  {
    if !Truthy(websiteId) {
      return Ok(None);
    }
    var items := LookupItems(db.file);
    if items.Err? {
      return Err(items.error);
    }
    r := FindWebsite(items.value, websiteId.value);
  }

  /** The product path of `chat`. */
  method ProductPath(db: Db, request: ChatRequest, url: string, clock: string,
                     configured: bool, gateway: string -> StructuredReply)
    returns (r: Result<ChatReply, StoreFault>)
    modifies db
    ensures (r, db.file) == ProductTurn(old(db.file), request, url, clock + "Z", configured, gateway)
  {
    var product := ProductInfoTool(request.message, url, configured, gateway);
    var content := ProductResponse(product);
    var saved := SaveConversation(db, request.websiteId, UserMessage(request.message), ProductMessage(product), clock);
    if saved.Err? {
      return Err(saved.error);
    }
    r := Ok(ChatReply(content, Some(product)));
  }

  /** The conversational path of `chat`. */
  method ConversationalPath(db: Db, runtime: Runtime, request: ChatRequest, clock: string,
                            created: bool, runner: string -> Run)
    returns (r: Result<ChatReply, StoreFault>)
    requires runtime.Valid()
    modifies db, runtime
    ensures runtime.Valid() && runtime.sessionInitialized
    ensures old(runtime.sessionInitialized) ==> runtime.sessionExists == old(runtime.sessionExists)
    ensures !old(runtime.sessionInitialized) ==> runtime.sessionExists == (old(runtime.sessionExists) || created)
    ensures (r, db.file) == ConversationalTurn(old(db.file), request,
                              Reply(runner(request.message).events, runner(request.message).raised), clock + "Z")
  {
    var reply := runtime.HandleMessage(request.message, created, runner);
    var saved := SaveConversation(db, Some(OrZero(request.websiteId)), UserMessage(request.message), ReplyMessage(reply), clock);
    if saved.Err? {
      return Err(saved.error);
    }
    r := Ok(ChatReply(reply, None));
  }

  /** `chat`. The model service (`configured`, `gateway`), the agent runner
      (`runner`), whether the session service creates the session
      (`created`) and the clock are parameters. A failure is an exception
      the endpoint does not catch. */
  method Chat(db: Db, runtime: Runtime, request: ChatRequest, clock: string,
              configured: bool, gateway: string -> StructuredReply,
              created: bool, runner: string -> Run)
    returns (r: Result<ChatReply, StoreFault>)
    requires runtime.Valid()
    modifies db, runtime
    ensures runtime.Valid()
    ensures Resolve(old(db.file), request.websiteId).Err? ==>
      && r == Err(Resolve(old(db.file), request.websiteId).error) && db.file == old(db.file)
      && runtime.sessionInitialized == old(runtime.sessionInitialized)
      && runtime.sessionExists == old(runtime.sessionExists)
    ensures Resolve(old(db.file), request.websiteId).Ok? ==>
      var url := ProductUrl(Resolve(old(db.file), request.websiteId).value);
      && (url.Some? ==>
            && (r, db.file) == ProductTurn(old(db.file), request, url.value, clock + "Z", configured, gateway)
            && runtime.sessionInitialized == old(runtime.sessionInitialized)
            && runtime.sessionExists == old(runtime.sessionExists))
      && (url.None? ==>
            && (r, db.file) == ConversationalTurn(old(db.file), request,
                                 Reply(runner(request.message).events, runner(request.message).raised), clock + "Z")
            && runtime.sessionInitialized
            && (old(runtime.sessionInitialized) ==> runtime.sessionExists == old(runtime.sessionExists))
            && (!old(runtime.sessionInitialized) ==>
                  runtime.sessionExists == (old(runtime.sessionExists) || created)))
  {
    var site := ResolveWebsite(db, request.websiteId);
    if site.Err? {
      return Err(site.error);
    }
    var url := ProductUrl(site.value);
    if url.Some? {
      r := ProductPath(db, request, url.value, clock, configured, gateway);
    } else {
      r := ConversationalPath(db, runtime, request, clock, created, runner);
    }
  }
}
