/** backend/websites.py: registering a website from its URL and listing
    the registered ones. The network (`requests.get`), the HTML parser
    (BeautifulSoup's `find` results), `urljoin`, `base64.b64encode` and
    `mimetypes.types_map` are parameters; the selections the endpoint
    makes among their results are modelled. */
module Websites {
  import opened Wrappers
  import opened Json
  import opened PyText
  import opened Schemas
  import opened DbFile

  /** An `HTTPException` raised by an endpoint, by status code. */
  datatype HttpError = HttpError(status: int)

  // ================================================================ the parsed page

  /** `soup.title`: absent, or a tag whose `.string` is a text or None. */
  datatype Title = NoTitle | TitleString(text: string) | TitleWithoutString

  /** A tag as far as the endpoint reads it: one attribute, if present
      (`content` for the description meta tag, `href` for an icon link). */
  datatype Tag = Tag(attr: Option<string>)

  /** The results of the parser's `find` calls on the fetched page: the
      title, the `<meta name="description">` tag, and the link tags its
      three `rel` filters select (`icon`, `shortcut icon`,
      `apple-touch-icon`). */
  datatype Page = Page(
    title: Title,
    descriptionMeta: Option<Tag>,
    iconLink: Option<Tag>,
    shortcutIconLink: Option<Tag>,
    appleTouchIconLink: Option<Tag>)

  /** `requests.get(url)`: raises, or a page (whatever its status). */
  datatype PageFetch = PageFailed | PageFetched(page: Page)

  /** `requests.get(icon_url)`: raises, or a status, the Content-Type
      header if sent, and the body. */
  datatype IconFetch = IconFailed | IconResponse(status: int, contentType: Option<string>, body: seq<bv8>)

  const DefaultIconHref := "/favicon.ico"
  const DefaultIconType := "image/x-icon"

  /** The site name: the stripped title text, the URL when there is no
      title; None when the title has no single string (`.strip()` on None
      raises). */
  function SiteName(title: Title, url: string): (name: Option<string>)
    ensures title.NoTitle? ==> name == Some(url)
    ensures title.TitleString? ==> name == Some(Strip(title.text))
    ensures title.TitleWithoutString? ==> name == None
  {
    match title
    case NoTitle => Some(url)
    case TitleString(t) => Some(Strip(t))
    case TitleWithoutString => None
  }

  /** The stripped `content` of the description meta tag, or ''. */
  function Description(meta: Option<Tag>): (d: string)
    ensures meta.Some? && meta.value.attr.Some? ==> d == Strip(meta.value.attr.value)
    ensures meta.None? || meta.value.attr.None? ==> d == ""
  {
    if meta.Some? && meta.value.attr.Some? then Strip(meta.value.attr.value) else ""
  }

  /** The first of the three link searches that found a tag. */
  function IconLink(page: Page): (t: Option<Tag>)
    ensures t.None? <==> page.iconLink.None? && page.shortcutIconLink.None? && page.appleTouchIconLink.None?
    ensures page.iconLink.Some? ==> t == page.iconLink
    ensures page.iconLink.None? && page.shortcutIconLink.Some? ==> t == page.shortcutIconLink
    ensures page.iconLink.None? && page.shortcutIconLink.None? ==> t == page.appleTouchIconLink
  {
    if page.iconLink.Some? then page.iconLink
    else if page.shortcutIconLink.Some? then page.shortcutIconLink
    else page.appleTouchIconLink
  }

  /** The icon's `href`, or '/favicon.ico' when no tag was found or the
      chosen tag has none (a later tag is not consulted). */
  function IconHref(link: Option<Tag>): (href: string)
    ensures link.Some? && link.value.attr.Some? ==> href == link.value.attr.value
    ensures link.None? || link.value.attr.None? ==> href == DefaultIconHref
  {
    if link.Some? && link.value.attr.Some? then link.value.attr.value else DefaultIconHref
  }

  /** An href starting with "http" is used as it is; any other is
      resolved against the page URL. */
  function IconUrl(url: string, href: string, urljoin: (string, string) -> string): (u: string)
    ensures HasPrefix(href, "http") ==> u == href
    ensures !HasPrefix(href, "http") ==> u == urljoin(url, href)
  {
    if HasPrefix(href, "http") then href else urljoin(url, href)
  }

  /** The icon's media type: the Content-Type header when it is non-empty,
      otherwise the type registered for the text after the last '.' of the
      icon URL, or 'image/x-icon'. */
  function ContentType(iconUrl: string, header: Option<string>, mimeTypes: map<string, string>): (t: string)
    ensures header.Some? && header.value != "" ==> t == header.value
    ensures (header.None? || header.value == "") && "." + AfterLastDot(iconUrl) in mimeTypes ==>
      t == mimeTypes["." + AfterLastDot(iconUrl)]
    ensures (header.None? || header.value == "") && "." + AfterLastDot(iconUrl) !in mimeTypes ==>
      t == DefaultIconType
  {
    if header.Some? && header.value != "" then header.value
    else
      var ext := AfterLastDot(iconUrl);
      if "." + ext in mimeTypes then mimeTypes["." + ext] else DefaultIconType
  }

  /** The `data:` URL of section 3 of RFC 2397, base64 form. */
  function DataUri(mediaType: string, payload: string): string {
    "data:" + mediaType + ";base64," + payload
  }

  /** The stored icon: a data URL of the fetched icon on status 200, the
      icon URL on any other status or when the fetch raises. */
  function Icon(iconUrl: string, fetch: IconFetch, mimeTypes: map<string, string>, b64encode: seq<bv8> -> string): (icon: string)
    ensures fetch.IconResponse? && fetch.status == 200 ==>
      icon == DataUri(ContentType(iconUrl, fetch.contentType, mimeTypes), b64encode(fetch.body))
    ensures !(fetch.IconResponse? && fetch.status == 200) ==> icon == iconUrl
  {
    var encoded :=
      if fetch.IconResponse? && fetch.status == 200
      then DataUri(ContentType(iconUrl, fetch.contentType, mimeTypes), b64encode(fetch.body))
      else "";
    if encoded == "" then iconUrl else encoded
  }

  // ================================================================ reading a data URL back

  /** The parts of a `data:` URL: media type, whether it says ";base64",
      and the data after the first comma. */
  datatype DataUrl = DataUrl(mediaType: string, base64: bool, data: string)

  function IndexOf(s: string, c: char): (r: Option<nat>)
    ensures r.None? <==> c !in s
    ensures r.Some? ==> r.value < |s| && s[r.value] == c && c !in s[..r.value]
  {
    if s == [] then None
    else if s[0] == c then Some(0)
    else
      match IndexOf(s[1..], c)
      case None => None
      case Some(i) =>
        assert s[..i + 1] == [s[0]] + s[1..][..i];
        Some(i + 1)
  }

  /** Splits a `data:` URL as RFC 2397 defines it: "data:", an optional
      media type, an optional ";base64", a comma, the data. */
  function ParseDataUri(s: string): Option<DataUrl> {
    if !HasPrefix(s, "data:") then None
    else
      var rest := s[5..];
      match IndexOf(rest, ',')
      case None => None
      case Some(comma) =>
        var header := rest[..comma];
        if |header| >= 7 && header[|header| - 7..] == ";base64"
        then Some(DataUrl(header[..|header| - 7], true, rest[comma + 1..]))
        else Some(DataUrl(header, false, rest[comma + 1..]))
  }

  /** An icon data URL reads back as its media type, the base64 flag and
      the encoded body, provided the media type has no comma. */
  lemma DataUriParses(mediaType: string, payload: string)
    requires ',' !in mediaType
    ensures ParseDataUri(DataUri(mediaType, payload)) == Some(DataUrl(mediaType, true, payload))
  {
    var s := DataUri(mediaType, payload);
    var rest := s[5..];
    assert rest == mediaType + ";base64," + payload;
    var comma := |mediaType| + 7;
    assert rest[..comma] == mediaType + ";base64";
    assert ',' !in rest[..comma];
    assert rest[comma] == ',';
    assert rest[comma + 1..] == payload;
  }

  // ================================================================ add_website

  /** Name, description and icon of a site, computed before the store is
      read. */
  datatype SiteDetails = SiteDetails(name: string, description: string, icon: string)

  /** Everything `add_website` derives from the network; None when a step
      raises (the page fetch, or a title without a single string). */
  function Details(url: string, fetchPage: string -> PageFetch, fetchIcon: string -> IconFetch,
                   urljoin: (string, string) -> string, mimeTypes: map<string, string>,
                   b64encode: seq<bv8> -> string): Option<SiteDetails>
  {
    match fetchPage(url)
    case PageFailed => None
    case PageFetched(page) =>
      var name :- SiteName(page.title, url);
      var iconUrl := IconUrl(url, IconHref(IconLink(page)), urljoin);
      Some(SiteDetails(name, Description(page.descriptionMeta), Icon(iconUrl, fetchIcon(iconUrl), mimeTypes, b64encode)))
  }

  function NewWebsite(id: int, url: string, d: SiteDetails, createdAt: string): WebsiteInfo {
    WebsiteInfo(Some(id), Some(d.name), Some(url), Some(d.icon), Some(d.description), Some(createdAt))
  }

  /** What `add_website` returns and what the file holds afterwards. Every
      failure is a 400 and leaves the file as it was, since the write is
      the last step that can raise. */
  function Added(file: Option<Json>, url: string, details: Option<SiteDetails>, createdAt: string)
    : (Result<WebsiteInfo, HttpError>, Option<Json>)
  {
    if details.None? then (Err(HttpError(400)), file)
    else
      match ReadRecords(file, WebsitesKey)
      case Err(_) => (Err(HttpError(400)), file)
      case Ok((doc, ws)) =>
        match RecordIds(ws, MissingRaises)
        case None => (Err(HttpError(400)), file)
        case Some(ids) =>
          var w := NewWebsite(NextIdOf(ids), url, details.value, createdAt);
          (Ok(w), Some(JObj(Appended(doc, WebsitesKey, ws, JObj(WebsiteInfoFields(w))))))
  }

  /** `add_website`. `clock` is what `datetime.utcnow().isoformat()` returns. */
  method AddWebsite(db: Db, rawUrl: string, fetchPage: string -> PageFetch, fetchIcon: string -> IconFetch,
                    urljoin: (string, string) -> string, mimeTypes: map<string, string>,
                    b64encode: seq<bv8> -> string, clock: string)
    returns (r: Result<WebsiteInfo, HttpError>)
    modifies db
    ensures var url := Strip(rawUrl);
      (r, db.file) == Added(old(db.file), url, Details(url, fetchPage, fetchIcon, urljoin, mimeTypes, b64encode), clock + "Z")
  {
    var url := Strip(rawUrl);
    var page := fetchPage(url);
    if page.PageFailed? {
      return Err(HttpError(400));
    }
    var name := SiteName(page.page.title, url);
    if name.None? {
      return Err(HttpError(400));
    }
    var description := Description(page.page.descriptionMeta);
    var iconHref := IconHref(IconLink(page.page));
    var iconUrl := IconUrl(url, iconHref, urljoin);
    var icon := Icon(iconUrl, fetchIcon(iconUrl), mimeTypes, b64encode);
    var details := SiteDetails(name.value, description, icon);
    var createdAt := clock + "Z";
    var id := Append(db, WebsitesKey, MissingRaises,
                     id => JObj(WebsiteInfoFields(NewWebsite(id, url, details, createdAt))));
    if id.Err? {
      return Err(HttpError(400));
    }
    r := Ok(NewWebsite(id.value, url, details, createdAt));
  }

  /** A registered website carries the stripped URL and the next id, and
      the earlier websites and every other key of the document (such as
      `conversations`) are left as they were. */
  lemma AddAppendsOne(file: Option<Json>, url: string, details: Option<SiteDetails>, createdAt: string)
    requires Added(file, url, details, createdAt).0.Ok?
    ensures var (r, after) := Added(file, url, details, createdAt);
      var (doc, ws) := ReadRecords(file, WebsitesKey).value;
      && r.value.url == Some(url) && r.value.id.Some?
      && (forall w :: w in ws ==> RecordId(w, MissingRaises).Some? && RecordId(w, MissingRaises).value < r.value.id.value)
      && after.Some? && after.value.JObj?
      && (forall k :: k in doc && k != WebsitesKey ==> k in after.value.fields && after.value.fields[k] == doc[k])
      && after.value.fields[WebsitesKey] == JArr(ws + [JObj(WebsiteInfoFields(r.value))])
  {
    var (doc, ws) := ReadRecords(file, WebsitesKey).value;
    var ids := RecordIds(ws, MissingRaises).value;
    forall w | w in ws
      ensures RecordId(w, MissingRaises).Some? && RecordId(w, MissingRaises).value < NextIdOf(ids)
    {
      var k :| 0 <= k < |ws| && ws[k] == w;
    }
  }

  // ================================================================ get_websites

  /** `get_websites`: the value stored under `websites` ([] when absent);
      a file that cannot be read or is not an object is a 500. */
  function Listing(file: Option<Json>): (r: Result<Json, HttpError>)
    ensures r.Err? <==> file.None? || !file.value.JObj?
    ensures r.Err? ==> r.error == HttpError(500)
    ensures r.Ok? && WebsitesKey in file.value.fields ==> r.value == file.value.fields[WebsitesKey]
    ensures r.Ok? && WebsitesKey !in file.value.fields ==> r.value == JArr([])
  {
    match file
    case Some(JObj(doc)) => Ok(if WebsitesKey in doc then doc[WebsitesKey] else JArr([]))
    case _ => Err(HttpError(500))
  }

  /** After a registration the listing shows the earlier websites followed
      by the new one. */
  lemma ListingAfterAdd(file: Option<Json>, url: string, details: Option<SiteDetails>, createdAt: string)
    requires Added(file, url, details, createdAt).0.Ok?
    ensures var (r, after) := Added(file, url, details, createdAt);
      Listing(after) == Ok(JArr(ReadRecords(file, WebsitesKey).value.1 + [JObj(WebsiteInfoFields(r.value))]))
  {
  }
}
