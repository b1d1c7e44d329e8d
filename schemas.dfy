/** The pydantic record types of the backend (backend/agents/schemas.py).
    Each has a validator, standing for `Model(**fields)`: it accepts a
    decoded JSON object exactly when every required field is present with
    the right type and every optional field is absent, null or of the right
    type; extra keys are ignored. Each also has the field map `.dict()`
    produces, and the two are shown to be inverse. */
module Schemas {
  import opened Wrappers
  import opened Json

  datatype WebsiteInfo = WebsiteInfo(
    id: Option<int>,
    name: Option<string>,
    url: Option<string>,
    icon: Option<string>,
    description: Option<string>,
    createdAt: Option<string>)

  datatype ProductInfo = ProductInfo(
    name: string,
    content: string,
    image: Option<string>,
    price: Option<string>,
    link: Option<string>)

  /** `role` is 'user' or 'assistant' by convention; the schema accepts any string. */
  datatype ConversationMessage = ConversationMessage(
    role: string,
    content: string,
    image: Option<string>,
    price: Option<string>,
    link: Option<string>)

  datatype Conversation = Conversation(
    id: int,
    websiteId: int,
    messages: seq<ConversationMessage>,
    createdAt: string)

  datatype ProductComparisonItem = ProductComparisonItem(
    labelText: string,
    product1Value: string,
    product2Value: string)

  datatype ProductComparisonProduct = ProductComparisonProduct(
    name: string,
    image: Option<string>,
    price: Option<string>,
    link: Option<string>,
    summary: Option<string>)

  datatype ProductComparisonResult = ProductComparisonResult(
    product1: ProductComparisonProduct,
    product2: ProductComparisonProduct,
    comparison: seq<ProductComparisonItem>,
    winner: Option<string>,
    summary: Option<string>)

  // ---------------------------------------------------------------- WebsiteInfo

  /** Every field is optional: any subset of the six keys is accepted. */
  function ValidateWebsiteInfo(m: map<string, Json>): (r: Option<WebsiteInfo>)
    ensures r.Some? <==>
      && OptIntField(m, "id").Some?
      && (forall k :: k in {"name", "url", "icon", "description", "created_at"} ==> OptStrField(m, k).Some?)
    ensures r.Some? ==>
      && OptIntField(m, "id") == Some(r.value.id)
      && OptStrField(m, "name") == Some(r.value.name)
      && OptStrField(m, "url") == Some(r.value.url)
      && OptStrField(m, "icon") == Some(r.value.icon)
      && OptStrField(m, "description") == Some(r.value.description)
      && OptStrField(m, "created_at") == Some(r.value.createdAt)
    ensures m == map[] ==> r == Some(WebsiteInfo(None, None, None, None, None, None))
  {
    var id :- OptIntField(m, "id");
    var name :- OptStrField(m, "name");
    var url :- OptStrField(m, "url");
    var icon :- OptStrField(m, "icon");
    var description :- OptStrField(m, "description");
    var createdAt :- OptStrField(m, "created_at");
    Some(WebsiteInfo(id, name, url, icon, description, createdAt))
  }

  function WebsiteInfoFields(w: WebsiteInfo): map<string, Json> {
    map["id" := OptInt(w.id), "name" := OptStr(w.name), "url" := OptStr(w.url),
        "icon" := OptStr(w.icon), "description" := OptStr(w.description),
        "created_at" := OptStr(w.createdAt)]
  }

  lemma WebsiteInfoRoundTrip(w: WebsiteInfo)
    ensures ValidateWebsiteInfo(WebsiteInfoFields(w)) == Some(w)
  {
    var m := WebsiteInfoFields(w);
    assert OptIntField(m, "id") == Some(w.id);
    assert OptStrField(m, "name") == Some(w.name);
    assert OptStrField(m, "url") == Some(w.url);
    assert OptStrField(m, "icon") == Some(w.icon);
    assert OptStrField(m, "description") == Some(w.description);
    assert OptStrField(m, "created_at") == Some(w.createdAt);
  }

  // ---------------------------------------------------------------- ProductInfo

  /** `name` and `content` are required strings; `image`, `price`, `link`
      default to None. */
  function ValidateProductInfo(m: map<string, Json>): (r: Option<ProductInfo>)
    ensures r.Some? <==>
      && StrField(m, "name").Some? && StrField(m, "content").Some?
      && OptStrField(m, "image").Some? && OptStrField(m, "price").Some? && OptStrField(m, "link").Some?
    ensures r.Some? ==>
      && m["name"] == JStr(r.value.name) && m["content"] == JStr(r.value.content)
      && OptStrField(m, "image") == Some(r.value.image)
      && OptStrField(m, "price") == Some(r.value.price)
      && OptStrField(m, "link") == Some(r.value.link)
  {
    var name :- StrField(m, "name");
    var content :- StrField(m, "content");
    var image :- OptStrField(m, "image");
    var price :- OptStrField(m, "price");
    var link :- OptStrField(m, "link");
    Some(ProductInfo(name, content, image, price, link))
  }

  function ProductInfoFields(p: ProductInfo): map<string, Json> {
    map["name" := JStr(p.name), "content" := JStr(p.content), "image" := OptStr(p.image),
        "price" := OptStr(p.price), "link" := OptStr(p.link)]
  }

  lemma ProductInfoRoundTrip(p: ProductInfo)
    ensures ValidateProductInfo(ProductInfoFields(p)) == Some(p)
  {
    var m := ProductInfoFields(p);
    assert OptStrField(m, "image") == Some(p.image);
    assert OptStrField(m, "price") == Some(p.price);
    assert OptStrField(m, "link") == Some(p.link);
  }

  // ---------------------------------------------------------------- ConversationMessage

  /** `role` and `content` are required strings; `image`, `price`, `link`
      default to None. */
  function ValidateMessage(m: map<string, Json>): (r: Option<ConversationMessage>)
    ensures r.Some? <==>
      && StrField(m, "role").Some? && StrField(m, "content").Some?
      && OptStrField(m, "image").Some? && OptStrField(m, "price").Some? && OptStrField(m, "link").Some?
    ensures r.Some? ==>
      && m["role"] == JStr(r.value.role) && m["content"] == JStr(r.value.content)
      && OptStrField(m, "image") == Some(r.value.image)
      && OptStrField(m, "price") == Some(r.value.price)
      && OptStrField(m, "link") == Some(r.value.link)
  {
    var role :- StrField(m, "role");
    var content :- StrField(m, "content");
    var image :- OptStrField(m, "image");
    var price :- OptStrField(m, "price");
    var link :- OptStrField(m, "link");
    Some(ConversationMessage(role, content, image, price, link))
  }

  function MessageFields(c: ConversationMessage): map<string, Json> {
    map["role" := JStr(c.role), "content" := JStr(c.content), "image" := OptStr(c.image),
        "price" := OptStr(c.price), "link" := OptStr(c.link)]
  }

  lemma MessageRoundTrip(c: ConversationMessage)
    ensures ValidateMessage(MessageFields(c)) == Some(c)
  {
    var m := MessageFields(c);
    assert OptStrField(m, "image") == Some(c.image);
    assert OptStrField(m, "price") == Some(c.price);
    assert OptStrField(m, "link") == Some(c.link);
  }

  // ---------------------------------------------------------------- lists of records

  /** A `list[Model]` field: every element must be an object the element
      validator accepts; the records keep the order of the elements. */
  function ValidateList<T>(xs: seq<Json>, validate: map<string, Json> -> Option<T>): (r: Option<seq<T>>)
    ensures r.Some? <==> forall i :: 0 <= i < |xs| ==> xs[i].JObj? && validate(xs[i].fields).Some?
    ensures r.Some? ==> |r.value| == |xs|
    ensures r.Some? ==> forall i :: 0 <= i < |xs| ==> validate(xs[i].fields) == Some(r.value[i])
  {
    if xs == [] then Some([])
    else if !xs[0].JObj? then None
    else
      var head :- validate(xs[0].fields);
      var tail :- ValidateList(xs[1..], validate);
      Some([head] + tail)
  }

  function ListJson<T>(ys: seq<T>, fields: T -> map<string, Json>): (r: seq<Json>)
    ensures |r| == |ys| && forall i :: 0 <= i < |ys| ==> r[i] == JObj(fields(ys[i]))
  {
    if ys == [] then [] else [JObj(fields(ys[0]))] + ListJson(ys[1..], fields)
  }

  /** A list written by `.dict()` validates back to the same records when
      each element does. */
  lemma {:induction false} ListRoundTrip<T>(ys: seq<T>, fields: T -> map<string, Json>,
                                             validate: map<string, Json> -> Option<T>)
    requires forall y :: validate(fields(y)) == Some(y)
    ensures ValidateList(ListJson(ys, fields), validate) == Some(ys)
  {
    if ys != [] {
      var xs := ListJson(ys, fields);
      var tail := ListJson(ys[1..], fields);
      assert xs == [JObj(fields(ys[0]))] + tail;
      assert xs[1..] == tail;
      ListRoundTrip(ys[1..], fields, validate);
      assert validate(fields(ys[0])) == Some(ys[0]);
      assert ValidateList(xs, validate) == Some([ys[0]] + ys[1..]);
      assert ys == [ys[0]] + ys[1..];
    }
  }

  // ---------------------------------------------------------------- Conversation

  /** `id`, `website_id`, `messages` and `created_at` are all required. */
  function ValidateConversation(m: map<string, Json>): (r: Option<Conversation>)
    ensures r.Some? ==>
      && IntField(m, "id") == Some(r.value.id)
      && IntField(m, "website_id") == Some(r.value.websiteId)
      && StrField(m, "created_at") == Some(r.value.createdAt)
      && "messages" in m && m["messages"].JArr?
      && ValidateList(m["messages"].items, ValidateMessage) == Some(r.value.messages)
    ensures
      && IntField(m, "id").Some? && IntField(m, "website_id").Some? && StrField(m, "created_at").Some?
      && "messages" in m && m["messages"].JArr? && ValidateList(m["messages"].items, ValidateMessage).Some?
      ==> r.Some?
  {
    var id :- IntField(m, "id");
    var websiteId :- IntField(m, "website_id");
    var messages :- if "messages" in m && m["messages"].JArr?
                    then ValidateList(m["messages"].items, ValidateMessage) else None;
    var createdAt :- StrField(m, "created_at");
    Some(Conversation(id, websiteId, messages, createdAt))
  }

  function ConversationFields(c: Conversation): map<string, Json> {
    map["id" := JInt(c.id), "website_id" := JInt(c.websiteId),
        "messages" := JArr(ListJson(c.messages, MessageFields)),
        "created_at" := JStr(c.createdAt)]
  }

  lemma MessagesRoundTrip(messages: seq<ConversationMessage>)
    ensures ValidateList(ListJson(messages, MessageFields), ValidateMessage) == Some(messages)
  {
    forall y ensures ValidateMessage(MessageFields(y)) == Some(y) { MessageRoundTrip(y); }
    ListRoundTrip(messages, MessageFields, ValidateMessage);
  }

  lemma ConversationRoundTrip(c: Conversation)
    ensures ValidateConversation(ConversationFields(c)) == Some(c)
  {
    var m := ConversationFields(c);
    MessagesRoundTrip(c.messages);
    assert m["messages"] == JArr(ListJson(c.messages, MessageFields));
    assert IntField(m, "id") == Some(c.id);
    assert IntField(m, "website_id") == Some(c.websiteId);
    assert StrField(m, "created_at") == Some(c.createdAt);
  }

  // ---------------------------------------------------------------- comparison records

  /** `label`, `product1_value` and `product2_value` are all required strings. */
  function ValidateComparisonItem(m: map<string, Json>): (r: Option<ProductComparisonItem>)
    ensures r.Some? <==>
      StrField(m, "label").Some? && StrField(m, "product1_value").Some? && StrField(m, "product2_value").Some?
    ensures r.Some? ==>
      && m["label"] == JStr(r.value.labelText)
      && m["product1_value"] == JStr(r.value.product1Value)
      && m["product2_value"] == JStr(r.value.product2Value)
  {
    var labelText :- StrField(m, "label");
    var v1 :- StrField(m, "product1_value");
    var v2 :- StrField(m, "product2_value");
    Some(ProductComparisonItem(labelText, v1, v2))
  }

  function ComparisonItemFields(i: ProductComparisonItem): map<string, Json> {
    map["label" := JStr(i.labelText), "product1_value" := JStr(i.product1Value),
        "product2_value" := JStr(i.product2Value)]
  }

  /** Only `name` is required; `image`, `price`, `link`, `summary` default to None. */
  function ValidateComparisonProduct(m: map<string, Json>): (r: Option<ProductComparisonProduct>)
    ensures r.Some? <==>
      && StrField(m, "name").Some?
      && (forall k :: k in {"image", "price", "link", "summary"} ==> OptStrField(m, k).Some?)
    ensures r.Some? ==>
      && m["name"] == JStr(r.value.name)
      && OptStrField(m, "image") == Some(r.value.image)
      && OptStrField(m, "price") == Some(r.value.price)
      && OptStrField(m, "link") == Some(r.value.link)
      && OptStrField(m, "summary") == Some(r.value.summary)
  {
    var name :- StrField(m, "name");
    var image :- OptStrField(m, "image");
    var price :- OptStrField(m, "price");
    var link :- OptStrField(m, "link");
    var summary :- OptStrField(m, "summary");
    Some(ProductComparisonProduct(name, image, price, link, summary))
  }

  function ComparisonProductFields(p: ProductComparisonProduct): map<string, Json> {
    map["name" := JStr(p.name), "image" := OptStr(p.image), "price" := OptStr(p.price),
        "link" := OptStr(p.link), "summary" := OptStr(p.summary)]
  }

  /** A nested model field: an object the nested validator accepts. */
  function NestedField<T>(m: map<string, Json>, k: string, validate: map<string, Json> -> Option<T>): Option<T> {
    if k in m && m[k].JObj? then validate(m[k].fields) else None
  }

  /** `product1`, `product2` and `comparison` are required; `winner` and
      `summary` default to None. */
  function ValidateComparisonResult(m: map<string, Json>): (r: Option<ProductComparisonResult>)
    ensures r.Some? ==> "product1" in m && "product2" in m && "comparison" in m
    ensures r.Some? ==>
      && NestedField(m, "product1", ValidateComparisonProduct) == Some(r.value.product1)
      && NestedField(m, "product2", ValidateComparisonProduct) == Some(r.value.product2)
      && m["comparison"].JArr?
      && ValidateList(m["comparison"].items, ValidateComparisonItem) == Some(r.value.comparison)
      && OptStrField(m, "winner") == Some(r.value.winner)
      && OptStrField(m, "summary") == Some(r.value.summary)
    ensures && NestedField(m, "product1", ValidateComparisonProduct).Some?
            && NestedField(m, "product2", ValidateComparisonProduct).Some?
            && "comparison" in m && m["comparison"].JArr?
            && ValidateList(m["comparison"].items, ValidateComparisonItem).Some?
            && OptStrField(m, "winner").Some? && OptStrField(m, "summary").Some?
            ==> r.Some?
  {
    var product1 :- NestedField(m, "product1", ValidateComparisonProduct);
    var product2 :- NestedField(m, "product2", ValidateComparisonProduct);
    var comparison :- if "comparison" in m && m["comparison"].JArr?
                      then ValidateList(m["comparison"].items, ValidateComparisonItem) else None;
    var winner :- OptStrField(m, "winner");
    var summary :- OptStrField(m, "summary");
    Some(ProductComparisonResult(product1, product2, comparison, winner, summary))
  }

  function ComparisonResultFields(c: ProductComparisonResult): map<string, Json> {
    map["product1" := JObj(ComparisonProductFields(c.product1)),
        "product2" := JObj(ComparisonProductFields(c.product2)),
        "comparison" := JArr(ListJson(c.comparison, ComparisonItemFields)),
        "winner" := OptStr(c.winner), "summary" := OptStr(c.summary)]
  }

  lemma ComparisonProductRoundTrip(p: ProductComparisonProduct)
    ensures ValidateComparisonProduct(ComparisonProductFields(p)) == Some(p)
  {
    var m := ComparisonProductFields(p);
    assert OptStrField(m, "image") == Some(p.image);
    assert OptStrField(m, "price") == Some(p.price);
    assert OptStrField(m, "link") == Some(p.link);
    assert OptStrField(m, "summary") == Some(p.summary);
  }

  lemma ComparisonItemsRoundTrip(items: seq<ProductComparisonItem>)
    ensures ValidateList(ListJson(items, ComparisonItemFields), ValidateComparisonItem) == Some(items)
  {
    forall y ensures ValidateComparisonItem(ComparisonItemFields(y)) == Some(y) { }
    ListRoundTrip(items, ComparisonItemFields, ValidateComparisonItem);
  }

  lemma ComparisonResultRoundTrip(c: ProductComparisonResult)
    ensures ValidateComparisonResult(ComparisonResultFields(c)) == Some(c)
  {
    var m := ComparisonResultFields(c);
    ComparisonProductRoundTrip(c.product1);
    ComparisonProductRoundTrip(c.product2);
    assert m["product1"] == JObj(ComparisonProductFields(c.product1));
    assert m["product2"] == JObj(ComparisonProductFields(c.product2));
    assert NestedField(m, "product1", ValidateComparisonProduct) == Some(c.product1);
    assert NestedField(m, "product2", ValidateComparisonProduct) == Some(c.product2);
    ComparisonItemsRoundTrip(c.comparison);
    assert m["comparison"] == JArr(ListJson(c.comparison, ComparisonItemFields));
    assert OptStrField(m, "winner") == Some(c.winner);
    assert OptStrField(m, "summary") == Some(c.summary);
  }
}
