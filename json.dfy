/** JSON values as the Python code sees them after `json.load`, and the
    field readers that a pydantic model applies to a decoded object. */
module Json {
  import opened Wrappers

  /** A decoded JSON value. Floating-point numbers are not modelled. */
  datatype Json =
    | JNull
    | JBool(b: bool)
    | JInt(i: int)
    | JStr(s: string)
    | JArr(items: seq<Json>)
    | JObj(fields: map<string, Json>)

  /** The integer Python sees when it compares or adds this value:
      an int, or a bool (True is 1, False is 0); anything else makes
      `max(...)` or `+ 1` raise. */
  function AsNumber(j: Json): (r: Option<int>)
    ensures r.Some? <==> j.JInt? || j.JBool?
    ensures j.JInt? ==> r == Some(j.i)
    ensures j.JBool? ==> r == Some(if j.b then 1 else 0)
  {
    match j
    case JInt(i) => Some(i)
    case JBool(b) => Some(if b then 1 else 0)
    case _ => None
  }

  /** A required `str` field: present and a JSON string. */
  function StrField(m: map<string, Json>, k: string): (r: Option<string>)
    ensures r.Some? <==> k in m && m[k].JStr?
    ensures r.Some? ==> m[k] == JStr(r.value)
  {
    if k in m && m[k].JStr? then Some(m[k].s) else None
  }

  /** A required `int` field: present and a JSON integer. */
  function IntField(m: map<string, Json>, k: string): (r: Option<int>)
    ensures r.Some? <==> k in m && m[k].JInt?
    ensures r.Some? ==> m[k] == JInt(r.value)
  {
    if k in m && m[k].JInt? then Some(m[k].i) else None
  }

  /** An `Optional[str] = None` field: absent or null reads as None, a
      string as Some; any other value is rejected (outer None). */
  function OptStrField(m: map<string, Json>, k: string): (r: Option<Option<string>>)
    ensures r.Some? <==> k !in m || m[k].JNull? || m[k].JStr?
    ensures r == Some(None) <==> k !in m || m[k].JNull?
    ensures r.Some? && r.value.Some? ==> m[k] == JStr(r.value.value)
  {
    if k !in m then Some(None)
    else match m[k]
      case JNull => Some(None)
      case JStr(s) => Some(Some(s))
      case _ => None
  }

  /** An `Optional[int] = None` field. */
  function OptIntField(m: map<string, Json>, k: string): (r: Option<Option<int>>)
    ensures r.Some? <==> k !in m || m[k].JNull? || m[k].JInt?
    ensures r == Some(None) <==> k !in m || m[k].JNull?
    ensures r.Some? && r.value.Some? ==> m[k] == JInt(r.value.value)
  {
    if k !in m then Some(None)
    else match m[k]
      case JNull => Some(None)
      case JInt(i) => Some(Some(i))
      case _ => None
  }

  /** How `.dict()` writes an optional string: null for None. */
  function OptStr(o: Option<string>): Json {
    match o
    case None => JNull
    case Some(s) => JStr(s)
  }

  function OptInt(o: Option<int>): Json {
    match o
    case None => JNull
    case Some(i) => JInt(i)
  }
}
