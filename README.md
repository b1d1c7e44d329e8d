# SoGent backend core in Dafny

SoGent is a customer-service chat backend. A user registers websites by URL. For each one
the backend fetches the page, picks a name, a description and an icon, and stores the record
in a JSON file (`db.json`). A chat request either names a stored website with a non-empty URL and goes down the
product path, which calls the `product_info` tool directly, or goes down the conversational
path, which runs the root agent through `handle_message`. Either way the turn is appended to
the same JSON file as a two-message conversation.

The model covers:

- **Schemas**: the pydantic records as datatypes. Each has a validator from a JSON object
  and the field map that `.dict()` writes out, with the round trip proved.
- **DbFile**: the JSON store as a class `Db` holding the file's parsed contents. It covers
  reading a record list, the `max(ids, default=0) + 1` id rule (a loop method proved against
  a specification function) and appending a record.
- **Agents**: `save_conversation`, the three tools (`product_info`, `support_agent_info`,
  `compare_product_info`) and `handle_message`. The module-level `session_initialized`
  flag lives in a class `Runtime`.
- **Router**: the chat endpoint. This includes the first-match website lookup loop, the
  choice of path, the product reply text (`str(product)` for an error dict) and the
  saved turn.
- **Websites**: `add_website` (page name, description, icon link, icon URL, data URL or
  fallback, new id, append) and `get_websites`.

Everything outside the program is a parameter of the operation that uses it:

- the model service: whether a client is configured, plus a gateway from prompt to reply;
- the agent runner: a map from message to the events it yields and any exception it
  raises afterwards;
- the session service's success;
- the HTTP fetches of the page and the icon;
- the HTML parser's `find` results;
- `urljoin`;
- `base64.b64encode`;
- `mimetypes.types_map`;
- the clock's ISO text.

An exception that an endpoint turns into an HTTP error is an `Err` carrying the status.
An exception the chat endpoint lets escape is an `Err` carrying a `StoreFault`.

## Model

| member | source | states |
|---|---|---|
| Json.AsNumber | backend/agents/router.py:29 | a JSON value compares and orders as a number exactly when it is an int or a bool, with `True`/`False` as 1/0 |
| Json.OptStrField | backend/agents/schemas.py:6-10 | an `Optional[str]` field accepts an absent key or null as None and a string as itself, and rejects anything else |
| Json.OptIntField | backend/agents/schemas.py:5 | an `Optional[int]` field accepts an absent key or null as None and an int as itself, and rejects anything else |
| PyText.Strip | backend/websites.py:21 | the result has no whitespace at either end |
| PyText.StripKeepsMiddle | backend/websites.py:21 | `strip` removes only whitespace and only from the ends; the result is a contiguous slice of the input |
| PyText.StripIdempotent | backend/websites.py:21 | stripping twice equals stripping once |
| PyText.AfterLastDot | backend/websites.py:45 | `split('.')[-1]` is the longest dot-free suffix, preceded by a '.' whenever it is not the whole string |
| PyText.Repr | backend/agents/router.py:37 | `repr` of a string is at least two longer than the string and starts and ends with the chosen quote |
| PyText.UnescapeEscape | backend/agents/router.py:37 | undoing the escapes of a repr body gives back the original string, for either quote |
| PyText.ReprReadsBack | backend/agents/router.py:37 | the text between the quotes of `repr(s)` reads back as `s` |
| Schemas.ValidateWebsiteInfo | backend/agents/schemas.py:4-10 | `WebsiteInfo(**w)` succeeds exactly when every field is absent, null or of its type; each field is read from its key |
| Schemas.WebsiteInfoRoundTrip | backend/agents/schemas.py:4-10 | validating the `.dict()` of a website gives the same website |
| Schemas.ValidateProductInfo | backend/agents/schemas.py:12-17 | `ProductInfo(**data)` needs string `name` and `content` and optional string image, price and link |
| Schemas.ProductInfoRoundTrip | backend/agents/schemas.py:12-17 | validating the `.dict()` of a product gives the same product |
| Schemas.ValidateMessage | backend/agents/schemas.py:19-24 | a message needs string `role` and `content`; image, price and link are optional strings |
| Schemas.MessageRoundTrip | backend/agents/schemas.py:19-24 | validating the `.dict()` of a message gives the same message |
| Schemas.ValidateList | backend/agents/schemas.py:29 | a `list[...]` field validates exactly when every element is an object that validates; the result has the same length and is element-wise |
| Schemas.ListRoundTrip | backend/agents/schemas.py:29 | a list written out element by element validates back to the same list |
| Schemas.ValidateConversation | backend/agents/schemas.py:26-30 | a conversation needs int ids, a valid message list and a string `created_at` |
| Schemas.ConversationRoundTrip | backend/agents/schemas.py:26-30 | validating the `.dict()` of a conversation gives the same conversation |
| Schemas.ValidateComparisonItem | backend/agents/schemas.py:32-35 | a comparison row needs three strings |
| Schemas.ValidateComparisonProduct | backend/agents/schemas.py:37-42 | a compared product needs a string name; the other four fields are optional strings |
| Schemas.ComparisonProductRoundTrip | backend/agents/schemas.py:37-42 | validating the `.dict()` of a compared product gives it back |
| Schemas.ValidateComparisonResult | backend/agents/schemas.py:44-49 | a comparison is accepted exactly when it has two valid product objects and a valid row list and winner and summary are each absent, null or a string |
| Schemas.ComparisonResultRoundTrip | backend/agents/schemas.py:44-49 | validating the `.dict()` of a comparison gives the same comparison |
| DbFile.ReadRecords | backend/agents/agents.py:30-32 | an unreadable file fails; a readable object yields its list under the key, [] when the key is absent; any other value fails |
| DbFile.RecordId | backend/agents/agents.py:33 | a record's id is its numeric `id`; a missing key counts as 0 for conversations and raises for websites |
| DbFile.RecordIds | backend/agents/agents.py:33 | the id list exists exactly when every record has a numeric id, and then matches the records one by one |
| DbFile.MaxOf | backend/agents/agents.py:33 | `max` of a non-empty list is an element and bounds every element |
| DbFile.NextIdOf | backend/agents/agents.py:33 | the new id is above every existing id, is not one of them, is 1 for an empty list and is otherwise one past the largest |
| DbFile.NextIdOfSnoc | backend/agents/agents.py:33 | appending an id changes the next id only when it is at least the current next id |
| DbFile.SequentialIds | backend/websites.py:60 | when the stored ids are 1..n in order, the next id is n+1 |
| DbFile.NextId | backend/agents/agents.py:33 | the loop over the records computes `NextIdOf` of their ids, and fails exactly when some record has no numeric id |
| DbFile.AppendKeepsIdsIncreasing | backend/agents/agents.py:40-41 | appending a record with the next id extends the id list by that id and keeps a strictly increasing id list increasing |
| DbFile.Appended | backend/agents/agents.py:40-41 | the document after `append` and reassignment holds the old records then the new one under the key, with every other key unchanged |
| DbFile.Append | backend/agents/agents.py:30-43 | the file afterwards is the appended document, or is unchanged when reading or numbering fails |
| Agents.StoredConversationReadsBack | backend/agents/agents.py:34-39 | the stored conversation validates back with the new id, website 0 when none is given, and exactly the user then the assistant message |
| Agents.SaveConversation | backend/agents/agents.py:28-44 | the result and the new file are those of appending the new conversation to the stored list |
| Agents.SaveAppendsOne | backend/agents/agents.py:32-43 | a successful save keeps the earlier conversations and every other key, such as `websites`, and gives an id above every earlier one |
| Agents.ProductInfoTool | backend/agents/agents.py:47-70 | without a client it returns the fixed error; otherwise it returns a product exactly when the reply decodes to an object that validates as `ProductInfo`, and every failure is prefixed |
| Agents.SupportAgentInfo | backend/agents/agents.py:73-86 | an empty URL is refused first; an unset client fails on attribute access; the content is the model's text whenever the call succeeds |
| Agents.Degraded | backend/agents/agents.py:116-123 | the fallback comparison echoes both names, compares nothing, names no winner and puts the failure in the summary |
| Agents.CompareProductInfo | backend/agents/agents.py:89-123 | without a client it returns the fixed error; with one it always returns a comparison: the validated reply, or the fallback |
| Agents.FirstFinalDecides | backend/agents/agents.py:215-219 | the first final event decides the reply; later events and a later exception are ignored |
| Agents.NoFinalEvent | backend/agents/agents.py:213-221 | without a final event the reply is the placeholder, or the error text when the runner raised |
| Agents.ScanEvents | backend/agents/agents.py:212-221 | the event loop with `break` computes the reply the first final event determines |
| Agents.Runtime.constructor | backend/agents/agents.py:190 | the runtime starts with the flag unset and no session |
| Agents.Runtime.EnsureSession | backend/agents/agents.py:180-187 | the session exists afterwards exactly when it existed or creation succeeded; failures are swallowed; each call is counted |
| Agents.Runtime.HandleMessage | backend/agents/agents.py:195-224 | the flag is set before the first session call, so `HandleMessage` makes a session call only on its first run and at most one in all; the reply is that of the run |
| Router.OrZero | backend/agents/router.py:47 | `website_id or 0` keeps a truthy id and maps None and 0 to 0 |
| Router.LookupItems | backend/agents/router.py:26-28 | the lookup iterates the stored website list when there is one, [] when the key is absent, and fails on an unreadable file |
| Router.Lookup | backend/agents/router.py:28-32 | a website found for an id carries that id |
| Router.FirstMatchWins | backend/agents/router.py:28-32 | the first record whose id matches decides the lookup; later records are never read |
| Router.NoMatchResolvesToNothing | backend/agents/router.py:28-32 | an id no record carries resolves to no website |
| Router.FindWebsite | backend/agents/router.py:28-32 | the loop with `break` computes the first-match lookup |
| Router.Resolve | backend/agents/router.py:22-32 | a falsy id resolves to no website without reading the file; a resolved website carries the requested id |
| Router.AddedWebsiteResolves | backend/agents/router.py:24-32 | a website just registered by `add_website` is what a chat request naming its (non-zero) id resolves to |
| Router.ProductUrl | backend/agents/router.py:31-34 | the product path is taken exactly when a website was resolved and its URL is present and non-empty |
| Router.ProductResponse | backend/agents/router.py:37 | the reply text is the product's content, or `str` of the error dict, from which the error reads back |
| Router.ProductMessage | backend/agents/router.py:38 | the saved assistant message carries the reply text and the product's image, price and link (None for an error) |
| Router.ResolveWebsite | backend/agents/router.py:24-32 | the lookup step of `chat` computes `Resolve` on the current file |
| Router.ProductPath | backend/agents/router.py:34-41 | the product path calls `product_info` with the website URL, saves the turn under the request's id and replies with the content and the product |
| Router.ConversationalPath | backend/agents/router.py:42-48 | the conversational path replies with the agent's text, saves the turn under `website_id or 0`, leaves the session flag set, and the session exists afterwards exactly as `handle_message` leaves it |
| Router.Chat | backend/agents/router.py:18-48 | the resolved website chooses the path; the reply, the saved turn, the file, the session flag and the session are those of that path; the product path and a failing lookup leave the session untouched, and a failing lookup changes nothing |
| Websites.SiteName | backend/websites.py:25 | the name is the stripped title, the URL when there is no title, and raises when the title has no single string |
| Websites.Description | backend/websites.py:27-28 | the description is the stripped `content` of the description tag, or '' |
| Websites.IconLink | backend/websites.py:30-34 | the icon tag is the first of the three searches that found one |
| Websites.IconHref | backend/websites.py:35 | the href is that of the chosen tag, or '/favicon.ico' |
| Websites.IconUrl | backend/websites.py:37 | an href starting with "http" is kept; any other is joined onto the page URL |
| Websites.ContentType | backend/websites.py:42-46 | a non-empty Content-Type header wins; otherwise the type registered for the URL's last extension, else 'image/x-icon' |
| Websites.Icon | backend/websites.py:39-55 | the icon is a base64 data URL of the body on status 200, and the icon URL on any other status or a failed fetch |
| Websites.DataUriParses | backend/websites.py:48 | for a media type without a comma, the icon data URL parses under RFC 2397 as its media type, the base64 flag and the encoded body |
| Websites.AddWebsite | backend/websites.py:19-75 | the result and the new file are those of appending a website with the stripped URL and the next id; every failure is a 400 that leaves the file unchanged |
| Websites.AddAppendsOne | backend/websites.py:56-72 | a registration keeps the earlier websites and every other key, such as `conversations`, and gives an id above every earlier one |
| Websites.Listing | backend/websites.py:77-84 | `get_websites` on the current file: the listing is the stored `websites` value, [] when absent; an unreadable or non-object file is a 500 |
| Websites.ListingAfterAdd | backend/websites.py:69-82 | after a registration the listing is the earlier websites followed by the new one |

## Left out

- Pydantic lax coercion: a numeric string or a JSON boolean for an `int` field, or a number for a `str` field, is rejected by the validators, where pydantic may coerce it. So `Router.Resolve` reports a stored website whose `id` is `true` as malformed, where the source matches it against `website_id` 1.
- JSON floats are not in the value model. A float id, which the source treats as a number (`3.0 == 3` in the lookup, `max(...) + 1` for the next id), cannot be represented.
- Key order of JSON objects and the file's indentation are not modelled. A document is a map.
- `PyText.Repr` escapes only the backslash, the quote and `\n`, `\r`, `\t`. Python's escaping of other non-printable characters is not modelled.
- `Agents.SupportAgentInfo`: a model reply whose `text` is None, which the source returns as `{"content": None}`, is not modelled. The reply text is always a string.
- A final event whose first part has no text (`text` is None) is not modelled. Part text is always a string.
- `Websites.DataUriParses`: a media type containing a comma (a Content-Type header sent twice and joined with ", ") is not covered. Such a data URL splits at the first comma, so its media type does not read back.
- The parser's matching rules (how BeautifulSoup picks the title, the meta tag and the `rel` filters) are not modelled. The `find` results are inputs.
- The exception texts that form the HTTP `detail` strings of `add_website` and `get_websites` are not modelled. Only the status codes are.
- The text of exceptions raised by the model client, `json.loads` and pydantic is an input of the gateway.
- Writing the file is assumed to succeed. A failed write and concurrent requests racing on the same file are not modelled.
- The agents' instructions and the root agent's delegation to sub-agents run inside the agent runner, which is a parameter.
- `main.py` startup, logging and `print` output are not modelled.
- The `RuntimeError` branch of `handle_message` is dead code and is not modelled, because `ensure_session` catches every exception.
- The frontend is not part of this model.
