/** Lookups in the video descriptions file: a display name for a video file and its full
    description record with defaults filled in. */
module VideoManager {
  import opened Common
  import opened Values

  /** The `videos` object of the descriptions file, or `Unreadable` when the file is missing,
      is not JSON, has no `videos` key or that key does not hold an object. */
  datatype Descriptions = Loaded(videos: map<string, Value>) | Unreadable

  /** `filename.split('.')[0]`: the file name up to its first dot. */
  function Stem(filename: string): (r: string)
    ensures '.' !in r && r <= filename
    ensures |r| < |filename| ==> filename[|r|] == '.'
    ensures '.' !in filename ==> r == filename
  {
    match IndexOf(filename, '.')
    case None => filename
    case Some(k) => filename[..k]
  }

  /** The descriptions file has an entry for the file's stem that is an object with a truthy
      `field`. */
  predicate Described(file: Descriptions, filename: string, field: string) {
    file.Loaded? && Stem(filename) in file.videos && file.videos[Stem(filename)].VDict?
    && field in file.videos[Stem(filename)].d && Truthy(file.videos[Stem(filename)].d[field])
  }

  /** `get_video_name`: the described `field` when there is one, the file name itself
      otherwise (an unreadable file or an entry that is not an object falls back too). */
  function GetVideoName(file: Descriptions, filename: string, field: string): (r: Value)
    ensures Described(file, filename, field) ==> r == file.videos[Stem(filename)].d[field] && Truthy(r)
    ensures !Described(file, filename, field) ==> r == VStr(filename)
  {
    match file
    case Unreadable => VStr(filename)
    case Loaded(videos) =>
      var info := Get(videos, Stem(filename), VNone);
      if Truthy(info) && info.VDict? && Truthy(Get(info.d, field, VNone)) then info.d[field]
      else VStr(filename)
  }

  /** The fields every description record is given, with their defaults. */
  function DefaultInfo(videoName: string): seq<(string, Value)> {
    [("name", VStr(videoName)),
     ("short_description", VStr("No description available")),
     ("long_description", VStr("No detailed description available"))]
  }

  predicate DistinctKeys(defaults: seq<(string, Value)>) {
    forall i, j :: 0 <= i < j < |defaults| ==> defaults[i].0 != defaults[j].0
  }

  function KeysOf(defaults: seq<(string, Value)>): set<string> {
    set i | 0 <= i < |defaults| :: defaults[i].0
  }

  predicate Kept(info: Row, k: string) {
    k in info && Truthy(info[k])
  }

  /** The merge loop of `get_video_info`: a default replaces a field that is missing or falsy;
      truthy fields and fields without a default stay as they are. */
  function Fill(info: Row, defaults: seq<(string, Value)>): (r: Row)
    requires DistinctKeys(defaults)
    ensures r.Keys == info.Keys + KeysOf(defaults)
    ensures forall k :: Kept(info, k) ==> r[k] == info[k]
    ensures forall k :: k in info && k !in KeysOf(defaults) ==> r[k] == info[k]
    ensures forall i :: 0 <= i < |defaults| && !Kept(info, defaults[i].0) ==> r[defaults[i].0] == defaults[i].1
    decreases |defaults|
  {
    if defaults == [] then info
    else
      var (k, v) := defaults[0];
      var next := if Kept(info, k) then info else info[k := v];
      var r := Fill(next, defaults[1..]);
      assert forall i :: 1 <= i < |defaults| ==> defaults[i] == defaults[1..][i - 1];
      assert KeysOf(defaults) == {k} + KeysOf(defaults[1..]) by {
        forall x | x in KeysOf(defaults) ensures x in {k} + KeysOf(defaults[1..]) {
          var i :| 0 <= i < |defaults| && defaults[i].0 == x;
          if i > 0 {
            assert defaults[1..][i - 1].0 == x;
          }
        }
      }
      assert k !in KeysOf(defaults[1..]);
      forall i | 0 <= i < |defaults| && !Kept(info, defaults[i].0)
        ensures r[defaults[i].0] == defaults[i].1
      {
        if i > 0 {
          assert defaults[1..][i - 1] == defaults[i];
          assert !Kept(next, defaults[i].0);
        }
      }
      r
  }

  /** What `get_video_info` returns: the entry for the file's stem with its defaults filled
      in, or `None` when the file is unreadable or the entry is missing, falsy or not an
      object. */
  function VideoInfo(file: Descriptions, filename: string): (r: Option<Row>)
    ensures r.Some? <==> file.Loaded? && Stem(filename) in file.videos && Truthy(file.videos[Stem(filename)])
                         && file.videos[Stem(filename)].VDict?
    ensures r.Some? ==> r.value == Fill(file.videos[Stem(filename)].d, DefaultInfo(Stem(filename)))
  {
    match file
    case Unreadable => None
    case Loaded(videos) =>
      var info := Get(videos, Stem(filename), VNone);
      if Truthy(info) && info.VDict? then Some(Fill(info.d, DefaultInfo(Stem(filename)))) else None
  }

  /** A returned record always has the three fields; the descriptions are never empty, the
      name is the stem unless the entry names the video itself, and the entry's own truthy
      fields are kept. */
  lemma VideoInfoComplete(file: Descriptions, filename: string)
    requires VideoInfo(file, filename).Some?
    ensures var r := VideoInfo(file, filename).value;
            var entry := file.videos[Stem(filename)].d;
            && "name" in r && "short_description" in r && "long_description" in r
            && Truthy(r["short_description"]) && Truthy(r["long_description"])
            && (Kept(entry, "name") ==> r["name"] == entry["name"])
            && (!Kept(entry, "name") ==> r["name"] == VStr(Stem(filename)))
            && (forall k :: Kept(entry, k) ==> r[k] == entry[k])
  {
    var defaults := DefaultInfo(Stem(filename));
    assert KeysOf(defaults) == {"name", "short_description", "long_description"} by {
      assert defaults[0].0 == "name" && defaults[1].0 == "short_description" && defaults[2].0 == "long_description";
    }
    assert defaults[1].0 == "short_description" && defaults[2].0 == "long_description";
    assert defaults[0] == ("name", VStr(Stem(filename)));
  }

  /** `get_video_info`, step by step: read the entry, then fill in each default in turn. */
  method GetVideoInfo(file: Descriptions, filename: string) returns (info: Option<Row>)
    ensures info == VideoInfo(file, filename)
  {
    var videoName := if '.' in filename then Stem(filename) else filename;
    if file.Unreadable? {
      return None;
    }
    var entry := Get(file.videos, videoName, VNone);
    if !Truthy(entry) || !entry.VDict? {
      return None;
    }
    var defaults := DefaultInfo(videoName);
    var record := entry.d;
    var i := 0;
    while i < |defaults|
      invariant 0 <= i <= |defaults|
      invariant Fill(record, defaults[i..]) == Fill(entry.d, defaults)
    {
      var (k, v) := defaults[i];
      assert defaults[i..][1..] == defaults[i + 1..];
      if k !in record || !Truthy(record[k]) {
        record := record[k := v];
      }
      i := i + 1;
    }
    assert defaults[i..] == [];
    info := Some(record);
  }
}
