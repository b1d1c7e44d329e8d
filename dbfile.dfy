/** The JSON document file both routers share (backend/db.json): an
    object with a `websites` list and a `conversations` list. Both
    `save_conversation` and `add_website` read the whole document, give the
    new record the largest existing id plus one, append it to their list
    and write the whole document back; that shared step is `Append`. */
module DbFile {
  import opened Wrappers
  import opened Json

  const WebsitesKey := "websites"
  const ConversationsKey := "conversations"

  /** Why a store operation raised: the file could not be opened or
      decoded, or its contents lack the shape the code indexes into. */
  datatype StoreFault = Unreadable | Malformed

  /** The file, as `json.load` would return it; None when opening or
      decoding it fails. */
  class Db {
    var file: Option<Json>

    constructor (file: Option<Json>)
      ensures this.file == file
    {
      this.file := file;
    }
  }

  /** `db = json.load(f); records = db.get(key, [])`, where the caller goes
      on to iterate the records and append to them: the document must be an
      object and the value under `key`, when present, a list. (A string or
      an object there makes the later `.get`, `['id']` or `.append` raise,
      even when it is empty.) */
  function ReadRecords(file: Option<Json>, key: string): (r: Result<(map<string, Json>, seq<Json>), StoreFault>)
    ensures file.None? ==> r == Err(Unreadable)
    ensures r.Ok? ==> file == Some(JObj(r.value.0))
    ensures r.Ok? && key in r.value.0 ==> r.value.0[key] == JArr(r.value.1)
    ensures r.Ok? && key !in r.value.0 ==> r.value.1 == []
    ensures file.Some? && file.value.JObj? && (key !in file.value.fields || file.value.fields[key].JArr?) ==> r.Ok?
  {
    match file
    case None => Err(Unreadable)
    case Some(JObj(doc)) =>
      if key !in doc then Ok((doc, []))
      else if doc[key].JArr? then Ok((doc, doc[key].items))
      else Err(Malformed)
    case Some(_) => Err(Malformed)
  }

  /** How a record's id is read: `c.get('id', 0)` for conversations, where a
      record without an id counts as 0, and `w['id']` for websites, where it
      raises. */
  datatype MissingId = MissingIsZero | MissingRaises

  /** The id of one record as `max(...) + 1` sees it; None when reading it
      raises or when the value is not a number. */
  function RecordId(rec: Json, missing: MissingId): (r: Option<int>)
    ensures r.Some? ==> rec.JObj?
    ensures rec.JObj? && "id" in rec.fields ==> r == AsNumber(rec.fields["id"])
    ensures rec.JObj? && "id" !in rec.fields ==> r == (if missing == MissingIsZero then Some(0) else None)
  {
    if !rec.JObj? then None
    else if "id" in rec.fields then AsNumber(rec.fields["id"])
    else if missing == MissingIsZero then Some(0)
    else None
  }

  /** The list `[id of r for r in records]`; None when any element raises. */
  function RecordIds(recs: seq<Json>, missing: MissingId): (r: Option<seq<int>>)
    ensures r.Some? <==> forall i :: 0 <= i < |recs| ==> RecordId(recs[i], missing).Some?
    ensures r.Some? ==> |r.value| == |recs|
    ensures r.Some? ==> forall i :: 0 <= i < |recs| ==> RecordId(recs[i], missing) == Some(r.value[i])
  {
    if recs == [] then Some([])
    else
      var head :- RecordId(recs[0], missing);
      var tail :- RecordIds(recs[1..], missing);
      Some([head] + tail)
  }

  /** The largest id, scanning left to right. */
  function MaxOf(ids: seq<int>): (m: int)
    requires ids != []
    ensures forall i :: 0 <= i < |ids| ==> ids[i] <= m
    ensures m in ids
  {
    if |ids| == 1 then ids[0]
    else
      var front := MaxOf(ids[..|ids| - 1]);
      assert front in ids[..|ids| - 1];
      if ids[|ids| - 1] > front then ids[|ids| - 1] else front
  }

  /** `max(ids, default=0) + 1`. */
  function NextIdOf(ids: seq<int>): (n: int)
    ensures forall i :: 0 <= i < |ids| ==> ids[i] < n
    ensures n !in ids
    ensures ids == [] ==> n == 1
    ensures ids != [] ==> n - 1 in ids
  {
    if ids == [] then 1 else MaxOf(ids) + 1
  }

  /** One more id extends the maximum the way the scan in `NextId` does. */
  lemma NextIdOfSnoc(ids: seq<int>, x: int)
    ensures NextIdOf(ids + [x]) == if ids == [] || x + 1 > NextIdOf(ids) then x + 1 else NextIdOf(ids)
  {
    if ids != [] {
      assert (ids + [x])[..|ids|] == ids;
    }
  }

  /** Ids assigned from an empty list by successive appends are 1, 2, ...:
      after `1..n` the next is `n + 1`. */
  lemma {:induction false} SequentialIds(ids: seq<int>)
    requires forall i :: 0 <= i < |ids| ==> ids[i] == i + 1
    ensures NextIdOf(ids) == |ids| + 1
  {
    if ids != [] {
      var m := NextIdOf(ids) - 1;
      assert ids[|ids| - 1] == |ids|;
      assert m >= |ids|;
      var k :| 0 <= k < |ids| && ids[k] == m;
      assert m <= |ids|;
    }
  }

  /** The id the next record gets, or None when computing it raises. */
  method NextId(recs: seq<Json>, missing: MissingId) returns (r: Option<int>)
    ensures r.None? <==> RecordIds(recs, missing).None?
    ensures r.Some? ==> r.value == NextIdOf(RecordIds(recs, missing).value)
  {
    ghost var ids: seq<int> := [];
    var next := 1;
    var i := 0;
    while i < |recs|
      invariant 0 <= i <= |recs| && |ids| == i
      invariant forall k :: 0 <= k < i ==> RecordId(recs[k], missing) == Some(ids[k])
      invariant next == NextIdOf(ids)
    {
      var id := RecordId(recs[i], missing);
      if id.None? {
        return None;
      }
      NextIdOfSnoc(ids, id.value);
      if i == 0 || id.value + 1 > next {
        next := id.value + 1;
      }
      ids := ids + [id.value];
      i := i + 1;
    }
    RecordIdsAre(recs, missing, ids);
    r := Some(next);
  }

  /** Ids in strictly increasing order, as successive appends leave them. */
  ghost predicate Increasing(ids: seq<int>) {
    forall i, j :: 0 <= i < j < |ids| ==> ids[i] < ids[j]
  }

  /** Records whose ids are, one by one, those of `ids` have exactly that
      id list. */
  lemma RecordIdsAre(recs: seq<Json>, missing: MissingId, ids: seq<int>)
    requires |ids| == |recs|
    requires forall i :: 0 <= i < |recs| ==> RecordId(recs[i], missing) == Some(ids[i])
    ensures RecordIds(recs, missing) == Some(ids)
  {
    var got := RecordIds(recs, missing);
    assert got.Some?;
    assert forall i :: 0 <= i < |ids| ==> got.value[i] == ids[i];
    assert got.value == ids;
  }

  /** Appending a record that carries the next id extends the id list by
      that id, and keeps the ids strictly increasing when they were. */
  lemma AppendKeepsIdsIncreasing(recs: seq<Json>, missing: MissingId, record: Json)
    requires RecordIds(recs, missing).Some?
    requires RecordId(record, missing) == Some(NextIdOf(RecordIds(recs, missing).value))
    ensures RecordIds(recs + [record], missing) == Some(RecordIds(recs, missing).value + [NextIdOf(RecordIds(recs, missing).value)])
    ensures Increasing(RecordIds(recs, missing).value) ==> Increasing(RecordIds(recs + [record], missing).value)
  {
    var ids := RecordIds(recs, missing).value;
    var all := recs + [record];
    var expected := ids + [NextIdOf(ids)];
    forall i | 0 <= i < |all| ensures RecordId(all[i], missing) == Some(expected[i]) {
      if i < |recs| {
        assert all[i] == recs[i] && expected[i] == ids[i];
      }
    }
    RecordIdsAre(all, missing, expected);
    if Increasing(ids) {
      forall i, j | 0 <= i < j < |expected| ensures expected[i] < expected[j] {
        if j < |ids| {
          assert expected[i] == ids[i] && expected[j] == ids[j];
        }
      }
    }
  }

  /** The document with `record` appended to the list under `key`: every
      earlier record stays where it was and every other key is untouched. */
  function Appended(doc: map<string, Json>, key: string, recs: seq<Json>, record: Json): (d: map<string, Json>)
    ensures key in d && d[key].JArr? && |d[key].items| == |recs| + 1
    ensures d[key].items[..|recs|] == recs && d[key].items[|recs|] == record
    ensures d.Keys == doc.Keys + {key}
    ensures forall k :: k in doc && k != key ==> d[k] == doc[k]
  {
    var items := recs + [record];
    assert items[..|recs|] == recs;
    doc[key := JArr(items)]
  }

  /** Reads the document, gives the new record the next id, appends it to
      the list under `key` and writes the document back. Nothing is written
      when any step raises. */
  method Append(db: Db, key: string, missing: MissingId, record: int -> Json) returns (r: Result<int, StoreFault>)
    modifies db
    ensures match ReadRecords(old(db.file), key)
      case Err(f) => r == Err(f) && db.file == old(db.file)
      case Ok((doc, recs)) =>
        match RecordIds(recs, missing)
        case None => r == Err(Malformed) && db.file == old(db.file)
        case Some(ids) =>
          && r == Ok(NextIdOf(ids))
          && db.file == Some(JObj(Appended(doc, key, recs, record(r.value))))
  {
    var read := ReadRecords(db.file, key);
    if read.Err? {
      return Err(read.error);
    }
    var (doc, recs) := read.value;
    var id := NextId(recs, missing);
    if id.None? {
      return Err(Malformed);
    }
    db.file := Some(JObj(Appended(doc, key, recs, record(id.value))));
    r := Ok(id.value);
  }
}
