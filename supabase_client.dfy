/** The database-facing part of the bot (`SupabaseClient`): the retrieval used by the answer
    pipeline, which maps stored document rows and video rows into one result list, and the
    user lookup and registration. Each query to a table is replaced by its outcome: the rows
    the table holds, or a failure of the query. */
module SupabaseClient {
  import opened Common
  import opened Values

  /** The outcome of a query: the rows the table returned, or an exception (missing table,
      wrong schema, transport error). */
  datatype Query = Rows(rows: seq<Row>) | Unavailable

  /** Every retrieved entry gets this fixed similarity; nothing is scored or ranked. */
  const Confidence: real := 0.8

  /** The metadata keys tried, in this order, for a document's title. */
  const TitleKeys: seq<string> := ["filename", "file_name", "source", "title"]

  /** `s[:n]` for a non-negative `n`. */
  function Take<T>(s: seq<T>, n: nat): (r: seq<T>)
    ensures |r| <= n && r <= s
    ensures |s| <= n ==> r == s
    ensures n <= |s| ==> |r| == n
  {
    if |s| <= n then s else s[..n]
  }

  // ------------------------------------------------------------------ title fallback chain

  /** `vs[i]` is the first truthy value of `vs`. */
  predicate FirstTruthyAt(vs: seq<Value>, i: int) {
    0 <= i < |vs| && Truthy(vs[i]) && forall j :: 0 <= j < i ==> !Truthy(vs[j])
  }

  /** Python's `vs[0] or vs[1] or ... or fallback`. */
  function FirstTruthy(vs: seq<Value>, fallback: Value): (r: Value)
    ensures (forall j :: 0 <= j < |vs| ==> !Truthy(vs[j])) ==> r == fallback
    ensures forall i :: FirstTruthyAt(vs, i) ==> r == vs[i]
    decreases |vs|
  {
    if vs == [] then fallback
    else if Truthy(vs[0]) then vs[0]
    else
      var r := FirstTruthy(vs[1..], fallback);
      assert forall i :: FirstTruthyAt(vs, i) ==> i > 0 && FirstTruthyAt(vs[1..], i - 1);
      r
  }

  /** The metadata value under `key`, `None` when absent. */
  function Meta(metadata: Row, key: string): Value {
    Get(metadata, key, VNone)
  }

  /** A document's title: `filename`, `file_name`, `source`, `title` of its metadata,
      whichever is first truthy, else `"Document {id}"`. */
  function DocTitle(metadata: Row, id: Value): (r: Value)
    ensures Truthy(Meta(metadata, "filename")) ==> r == metadata["filename"]
    ensures (!Truthy(Meta(metadata, "filename")) && Truthy(Meta(metadata, "file_name")))
      ==> r == metadata["file_name"]
    ensures (!Truthy(Meta(metadata, "filename")) && !Truthy(Meta(metadata, "file_name"))
             && Truthy(Meta(metadata, "source")))
      ==> r == metadata["source"]
    ensures (!Truthy(Meta(metadata, "filename")) && !Truthy(Meta(metadata, "file_name"))
             && !Truthy(Meta(metadata, "source")) && Truthy(Meta(metadata, "title")))
      ==> r == metadata["title"]
    ensures (forall k :: k in TitleKeys ==> !Truthy(Meta(metadata, k)))
      ==> r == VStr("Document " + Show(id))
  {
    var candidates := [Meta(metadata, "filename"), Meta(metadata, "file_name"),
                       Meta(metadata, "source"), Meta(metadata, "title")];
    assert Truthy(candidates[0]) ==> FirstTruthyAt(candidates, 0);
    assert (!Truthy(candidates[0]) && Truthy(candidates[1])) ==> FirstTruthyAt(candidates, 1);
    assert (!Truthy(candidates[0]) && !Truthy(candidates[1]) && Truthy(candidates[2]))
      ==> FirstTruthyAt(candidates, 2);
    assert (!Truthy(candidates[0]) && !Truthy(candidates[1]) && !Truthy(candidates[2])
            && Truthy(candidates[3]))
      ==> FirstTruthyAt(candidates, 3);
    FirstTruthy(candidates, VStr("Document " + Show(id)))
  }

  // ------------------------------------------------------------------ row mapping

  /** The keys of a mapped document entry. */
  const DocumentKeys: set<string> := {"id", "title", "content_text", "type", "similarity", "metadata"}

  /** Maps one row of the `documents` table to a result entry. `doc.get('metadata', {})`
      that is present but not a dict has no `.get`, so the mapping raises: `None`. */
  function MapDocument(doc: Row): (r: Option<Row>)
    ensures r.Some? <==> Get(doc, "metadata", VDict(map[])).VDict?
    ensures r.Some? ==> r.value.Keys == DocumentKeys
    ensures r.Some? ==> r.value["type"] == VStr("document") && r.value["similarity"] == VNum(Confidence)
    ensures r.Some? ==> r.value["id"] == Get(doc, "id", VNone)
    ensures r.Some? ==> r.value["content_text"] == Get(doc, "content", VStr(""))
    ensures r.Some? ==> r.value["metadata"] == Get(doc, "metadata", VDict(map[]))
    ensures r.Some? ==> r.value["title"] == DocTitle(Get(doc, "metadata", VDict(map[])).d, Get(doc, "id", VStr("")))
  {
    var metadata := Get(doc, "metadata", VDict(map[]));
    if !metadata.VDict? then None
    else
      Some(map[
        "id" := Get(doc, "id", VNone),
        "title" := DocTitle(metadata.d, Get(doc, "id", VStr(""))),
        "content_text" := Get(doc, "content", VStr("")),
        "type" := VStr("document"),
        "similarity" := VNum(Confidence),
        "metadata" := metadata])
  }

  /** The entries the document loop appends before it finishes or raises: the mapping of the
      longest prefix of `rows` whose every row maps. */
  function DocEntries(rows: seq<Row>): (r: seq<Row>)
    ensures |r| <= |rows|
    ensures forall i :: 0 <= i < |r| ==> MapDocument(rows[i]) == Some(r[i])
    ensures |r| < |rows| ==> MapDocument(rows[|r|]).None?
    decreases |rows|
  {
    if rows == [] then []
    else match MapDocument(rows[0])
      case None => []
      case Some(e) => [e] + DocEntries(rows[1..])
  }

  /** `{**video, 'type': 'video', 'similarity': 0.8}`: the row with two keys overwritten. */
  function MapVideo(video: Row): (r: Row)
    ensures r.Keys == video.Keys + {"type", "similarity"}
    ensures r["type"] == VStr("video") && r["similarity"] == VNum(Confidence)
    ensures forall k :: k in video && k != "type" && k != "similarity" ==> r[k] == video[k]
  {
    video["type" := VStr("video")]["similarity" := VNum(Confidence)]
  }

  /** `documents.select('*').limit(limit)` */
  function DocumentRows(documents: Query, limit: nat): (r: Query)
    ensures r.Rows? <==> documents.Rows?
    ensures r.Rows? ==> r.rows == Take(documents.rows, limit)
  {
    match documents
    case Unavailable => Unavailable
    case Rows(rows) => Rows(Take(rows, limit))
  }

  predicate OwnedBy(row: Row, userId: Value) {
    Get(row, "user_id", VNone) == userId
  }

  /** The rows of one user, in table order. */
  function RowsOf(rows: seq<Row>, userId: Value): (r: seq<Row>)
    ensures |r| <= |rows|
    ensures forall row :: row in r <==> row in rows && OwnedBy(row, userId)
    decreases |rows|
  {
    if rows == [] then []
    else if OwnedBy(rows[0], userId) then [rows[0]] + RowsOf(rows[1..], userId)
    else RowsOf(rows[1..], userId)
  }

  /** `video_contents.select('*').eq('user_id', user_id).limit(limit)` */
  function VideoRows(videos: Query, userId: Value, limit: nat): (r: Query)
    ensures r.Rows? <==> videos.Rows?
    ensures r.Rows? ==> |r.rows| <= limit && forall row :: row in r.rows ==> OwnedBy(row, userId)
    ensures r.Rows? ==> r.rows == Take(RowsOf(videos.rows, userId), limit)
  {
    match videos
    case Unavailable => Unavailable
    case Rows(rows) => Rows(Take(RowsOf(rows, userId), limit))
  }

  /** What the first try-block contributes: nothing when the query fails. */
  function DocumentPart(documents: Query, limit: nat): seq<Row> {
    match DocumentRows(documents, limit)
    case Unavailable => []
    case Rows(rows) => DocEntries(rows)
  }

  /** What the second try-block contributes: nothing when the query fails. */
  function VideoPart(videos: Query, userId: Value, limit: nat): (r: seq<Row>)
    ensures videos.Unavailable? ==> r == []
    ensures videos.Rows? ==> var rows := VideoRows(videos, userId, limit).rows;
      |r| == |rows| && forall i :: 0 <= i < |r| ==> r[i] == MapVideo(rows[i])
  {
    match VideoRows(videos, userId, limit)
    case Unavailable => []
    case Rows(rows) => seq(|rows|, i requires 0 <= i < |rows| => MapVideo(rows[i]))
  }

  predicate IsDocument(entry: Row) {
    Get(entry, "type", VNone) == VStr("document")
  }

  /** What `search_content` returns: document entries, then the user's video entries,
      cut to `limit`. */
  function SearchResults(userId: Value, documents: Query, videos: Query, limit: nat): seq<Row> {
    Take(DocumentPart(documents, limit) + VideoPart(videos, userId, limit), limit)
  }

  /** The document loop of `search_content`: append mapped rows one by one; a row that cannot
      be mapped raises out of the loop, keeping what was appended before it. */
  method CollectDocuments(rows: seq<Row>) returns (entries: seq<Row>)
    ensures entries == DocEntries(rows)
  {
    entries := [];
    var i := 0;
    while i < |rows|
      invariant 0 <= i <= |rows| && i <= |DocEntries(rows)|
      invariant entries == DocEntries(rows)[..i]
    {
      var entry := MapDocument(rows[i]);
      if entry.None? {
        break;
      }
      entries := entries + [entry.value];
      i := i + 1;
    }
  }

  /** `search_content`, step by step as the source does it: the document entries, then the
      video entries, cut to `limit`. */
  method SearchContent(userId: Value, documents: Query, videos: Query, limit: nat)
    returns (results: seq<Row>)
    ensures results == SearchResults(userId, documents, videos, limit)
  {
    var acc: seq<Row> := [];
    var docs := DocumentRows(documents, limit);
    if docs.Rows? {
      acc := CollectDocuments(docs.rows);
    }
    acc := acc + VideoPart(videos, userId, limit);
    results := Take(acc, limit);
  }

  /** Every entry of the document part is a document entry with the fixed similarity. */
  lemma DocumentPartShape(documents: Query, limit: nat)
    ensures forall e :: e in DocumentPart(documents, limit) ==> IsDocument(e) && e["similarity"] == VNum(Confidence)
    ensures |DocumentPart(documents, limit)| <= limit
  {
    match DocumentRows(documents, limit) {
      case Unavailable =>
      case Rows(rows) =>
        var d := DocEntries(rows);
        forall e | e in d ensures IsDocument(e) && e["similarity"] == VNum(Confidence) {
          var i :| 0 <= i < |d| && d[i] == e;
          assert MapDocument(rows[i]) == Some(e);
        }
    }
  }

  /** Every entry of the video part is a non-document entry with the fixed similarity. */
  lemma VideoPartShape(videos: Query, userId: Value, limit: nat)
    ensures forall e :: e in VideoPart(videos, userId, limit) ==> !IsDocument(e) && e["similarity"] == VNum(Confidence)
  {
  }

  /** In a prefix of documents followed by non-documents, no document follows a non-document. */
  lemma {:induction false} DocumentsFirst(d: seq<Row>, v: seq<Row>, limit: nat)
    requires forall e :: e in d ==> IsDocument(e)
    requires forall e :: e in v ==> !IsDocument(e)
    ensures var r := Take(d + v, limit);
      forall i, j :: 0 <= i < j < |r| && IsDocument(r[j]) ==> IsDocument(r[i])
  {
    var all := d + v;
    var r := Take(all, limit);
    forall i, j | 0 <= i < j < |r| && IsDocument(r[j]) ensures IsDocument(r[i]) {
      assert r[j] == all[j];
      if j < |d| {
        assert r[i] == all[i] == d[i];
        assert d[i] in d;
      }
    }
  }

  /** The properties `search_content` promises: at most `limit` entries, all with similarity
      0.8, documents before videos, and a failing table contributes no entries. */
  lemma SearchResultsShape(userId: Value, documents: Query, videos: Query, limit: nat)
    ensures |SearchResults(userId, documents, videos, limit)| <= limit
    ensures var r := SearchResults(userId, documents, videos, limit);
      forall i :: 0 <= i < |r| ==> Get(r[i], "similarity", VNone) == VNum(Confidence)
    ensures var r := SearchResults(userId, documents, videos, limit);
      forall i, j :: 0 <= i < j < |r| && IsDocument(r[j]) ==> IsDocument(r[i])
    ensures var r := SearchResults(userId, documents, videos, limit);
      documents.Unavailable? ==> forall i :: 0 <= i < |r| ==> !IsDocument(r[i])
    ensures var r := SearchResults(userId, documents, videos, limit);
      videos.Unavailable? ==> forall i :: 0 <= i < |r| ==> IsDocument(r[i])
    ensures documents.Unavailable? ==> SearchResults(userId, documents, videos, limit) == VideoPart(videos, userId, limit)
  {
    var d := DocumentPart(documents, limit);
    var v := VideoPart(videos, userId, limit);
    var r := SearchResults(userId, documents, videos, limit);
    DocumentPartShape(documents, limit);
    VideoPartShape(videos, userId, limit);
    DocumentsFirst(d, v, limit);
    forall i | 0 <= i < |r| ensures r[i] in d || r[i] in v {
      assert r[i] == (d + v)[i];
    }
    if documents.Unavailable? {
      assert d == [];
      assert d + v == v;
    }
    if videos.Unavailable? {
      assert v == [];
    }
  }

  /** A video of the user reaches the results when the user has no more than `limit` videos
      and the document table contributes nothing. */
  lemma UserVideoFound(userId: Value, documents: Query, videos: Query, limit: nat, row: Row)
    requires documents.Unavailable? && videos.Rows?
    requires row in videos.rows && OwnedBy(row, userId)
    requires |RowsOf(videos.rows, userId)| <= limit
    ensures MapVideo(row) in SearchResults(userId, documents, videos, limit)
  {
    var own := RowsOf(videos.rows, userId);
    assert row in own;
    var i :| 0 <= i < |own| && own[i] == row;
    var v := VideoPart(videos, userId, limit);
    assert v[i] == MapVideo(row);
    SearchResultsShape(userId, documents, videos, limit);
  }

  // ------------------------------------------------------------------ users

  predicate HasTelegramId(row: Row, telegramId: int) {
    Get(row, "telegram_id", VNone) == VInt(telegramId)
  }

  /** `rows[i]` is the first row with the given Telegram id. */
  predicate FirstMatchAt(rows: seq<Row>, telegramId: int, i: int) {
    0 <= i < |rows| && HasTelegramId(rows[i], telegramId)
    && forall j :: 0 <= j < i ==> !HasTelegramId(rows[j], telegramId)
  }

  /** The first row of `rows` with the given Telegram id. */
  function FirstWithTelegramId(rows: seq<Row>, telegramId: int): (r: Option<Row>)
    ensures r.None? <==> forall i :: 0 <= i < |rows| ==> !HasTelegramId(rows[i], telegramId)
    ensures r.Some? ==> exists i :: FirstMatchAt(rows, telegramId, i) && rows[i] == r.value
    decreases |rows|
  {
    if rows == [] then None
    else if HasTelegramId(rows[0], telegramId) then Some(rows[0])
    else
      var r := FirstWithTelegramId(rows[1..], telegramId);
      if r.Some? then
        ghost var i :| FirstMatchAt(rows[1..], telegramId, i) && rows[1..][i] == r.value;
        assert FirstMatchAt(rows, telegramId, i + 1);
        r
      else r
  }

  /** `get_user_by_telegram_id`: the first matching row, or `None` when there is none or the
      query raises. */
  function GetUserByTelegramId(users: Query, telegramId: int): (r: Option<Row>)
    ensures users.Unavailable? ==> r.None?
    ensures users.Rows? ==> r == FirstWithTelegramId(users.rows, telegramId)
  {
    match users
    case Unavailable => None
    case Rows(rows) => FirstWithTelegramId(rows, telegramId)
  }

  /** `{k: v for k, v in user_data.items() if v is not None}` */
  function WithoutNone(data: Row): (r: Row)
    ensures r.Keys == set k | k in data && data[k] != VNone
    ensures forall k :: k in r ==> r[k] == data[k]
  {
    map k | k in data && data[k] != VNone :: data[k]
  }

  /** The record `create_user` inserts. */
  function NewUserRecord(telegramId: int, username: Option<string>): (r: Row)
    ensures "telegram_id" in r && r["telegram_id"] == VInt(telegramId)
    ensures "username" in r <==> username.Some?
    ensures username.Some? ==> r["username"] == VStr(username.value)
    ensures r.Keys <= {"telegram_id", "username"}
  {
    WithoutNone(map["telegram_id" := VInt(telegramId),
                    "username" := if username.Some? then VStr(username.value) else VNone])
  }

  /** `create_user`: returns an existing user without inserting; otherwise inserts the record
      of the non-None fields and returns the first row the insert reports, if any.
      `inserted` is the record sent to the insert, `None` when nothing was inserted. */
  method CreateUser(users: Query, insertReply: Query, telegramId: int, username: Option<string>)
    returns (user: Option<Row>, inserted: Option<Row>)
    ensures var existing := GetUserByTelegramId(users, telegramId);
      existing.Some? && existing.value != map[] ==> user == existing && inserted.None?
    ensures var existing := GetUserByTelegramId(users, telegramId);
      !(existing.Some? && existing.value != map[]) ==>
        inserted == Some(NewUserRecord(telegramId, username)) &&
        user == (if insertReply.Rows? && insertReply.rows != [] then Some(insertReply.rows[0]) else None)
  {
    var existing := GetUserByTelegramId(users, telegramId);
    if existing.Some? && existing.value != map[] {
      return existing, None;
    }
    var userData: Row := map["telegram_id" := VInt(telegramId),
                             "username" := if username.Some? then VStr(username.value) else VNone];
    userData := WithoutNone(userData);
    inserted := Some(userData);
    match insertReply {
      case Unavailable => user := None;
      case Rows(data) => user := if data != [] then Some(data[0]) else None;
    }
  }
}
