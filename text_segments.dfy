/** Transcript segments of the videos: a store of segments, a case-insensitive substring
    search over their text, and a numbered listing of the hits. */
module TextSegments {
  import opened Common

  /** One stretch of a transcript. */
  datatype TextSegment = TextSegment(text: string, speaker: string, startTime: string, endTime: string,
                                     videoFile: string)

  /** A search hit: the segment's text, speaker, time range and video. */
  datatype Hit = Hit(text: string, speaker: string, timestamp: string, videoFile: string)

  const NoMatches: string := "No matching segments found."
  const Header: string := "Found relevant segments:\n\n"

  /** The lowercased query occurs in the lowercased text; `lower` stands for Python's
      character lowercasing. */
  predicate Matches(segment: TextSegment, query: string, lower: char -> char) {
    Contains(Lower(segment.text, lower), Lower(query, lower))
  }

  function HitOf(segment: TextSegment): Hit {
    Hit(segment.text, segment.speaker, segment.startTime + " - " + segment.endTime, segment.videoFile)
  }

  /** The hits for the matching segments, in segment order. */
  function Search(segments: seq<TextSegment>, query: string, lower: char -> char): (r: seq<Hit>)
    ensures |r| <= |segments|
    decreases |segments|
  {
    if segments == [] then []
    else
      var last := segments[|segments| - 1];
      Search(segments[..|segments| - 1], query, lower) + (if Matches(last, query, lower) then [HitOf(last)] else [])
  }

  /** `picked[k]` is the position of the segment that gave hit `k`. */
  predicate PicksHits(segments: seq<TextSegment>, query: string, lower: char -> char, r: seq<Hit>, picked: seq<nat>) {
    |picked| == |r|
    && forall k :: 0 <= k < |picked| ==>
         picked[k] < |segments| && Matches(segments[picked[k]], query, lower) && r[k] == HitOf(segments[picked[k]])
  }

  predicate Increasing(picked: seq<nat>) {
    forall k, l :: 0 <= k < l < |picked| ==> picked[k] < picked[l]
  }

  predicate CoversMatches(segments: seq<TextSegment>, query: string, lower: char -> char, picked: seq<nat>) {
    forall i :: 0 <= i < |segments| && Matches(segments[i], query, lower) ==> i in picked
  }

  /** The positions of the matching segments, in order. */
  function Picked(segments: seq<TextSegment>, query: string, lower: char -> char): (p: seq<nat>)
    ensures forall k :: 0 <= k < |p| ==> p[k] < |segments|
    decreases |segments|
  {
    if segments == [] then []
    else
      var n := |segments| - 1;
      Picked(segments[..n], query, lower) + (if Matches(segments[n], query, lower) then [n] else [])
  }

  /** Hit `k` comes from the matching segment at position `Picked(..)[k]`. */
  lemma {:induction false} SearchPicksHits(segments: seq<TextSegment>, query: string, lower: char -> char)
    ensures PicksHits(segments, query, lower, Search(segments, query, lower), Picked(segments, query, lower))
    decreases |segments|
  {
    if segments != [] {
      var n := |segments| - 1;
      var init := segments[..n];
      SearchPicksHits(init, query, lower);
      var rest := Picked(init, query, lower);
      forall k | 0 <= k < |rest| ensures segments[rest[k]] == init[rest[k]] {
      }
    }
  }

  /** The positions strictly increase: the hits keep segment order and repeat none. */
  lemma {:induction false} PickedIncreasing(segments: seq<TextSegment>, query: string, lower: char -> char)
    ensures Increasing(Picked(segments, query, lower))
    decreases |segments|
  {
    if segments != [] {
      PickedIncreasing(segments[..|segments| - 1], query, lower);
    }
  }

  /** No matching segment is left out. */
  lemma {:induction false} PickedCovers(segments: seq<TextSegment>, query: string, lower: char -> char)
    ensures CoversMatches(segments, query, lower, Picked(segments, query, lower))
    decreases |segments|
  {
    if segments != [] {
      var n := |segments| - 1;
      var init := segments[..n];
      PickedCovers(init, query, lower);
      forall i | 0 <= i < n && Matches(segments[i], query, lower) ensures i in Picked(segments, query, lower) {
        assert segments[i] == init[i];
      }
    }
  }

  /** Every hit comes from a matching segment, and every matching segment gives a hit. */
  lemma SearchMembership(segments: seq<TextSegment>, query: string, lower: char -> char)
    ensures forall h :: h in Search(segments, query, lower) <==>
      exists i :: 0 <= i < |segments| && Matches(segments[i], query, lower) && h == HitOf(segments[i])
  {
    var r := Search(segments, query, lower);
    var picked := Picked(segments, query, lower);
    SearchPicksHits(segments, query, lower);
    PickedCovers(segments, query, lower);
    forall h | h in r
      ensures exists i :: 0 <= i < |segments| && Matches(segments[i], query, lower) && h == HitOf(segments[i])
    {
      var k :| 0 <= k < |r| && r[k] == h;
      assert Matches(segments[picked[k]], query, lower) && h == HitOf(segments[picked[k]]);
    }
    forall i | 0 <= i < |segments| && Matches(segments[i], query, lower) ensures HitOf(segments[i]) in r {
      assert i in picked;
      var k :| 0 <= k < |picked| && picked[k] == i;
      assert r[k] == HitOf(segments[i]);
    }
  }

  /** An empty query matches every segment. */
  lemma {:induction false} EmptyQueryMatchesAll(segments: seq<TextSegment>, lower: char -> char)
    ensures Search(segments, "", lower) == seq(|segments|, i requires 0 <= i < |segments| => HitOf(segments[i]))
    decreases |segments|
  {
    if segments != [] {
      var n := |segments| - 1;
      EmptyQueryMatchesAll(segments[..n], lower);
      assert Lower("", lower) == "";
      assert Lower(segments[n].text, lower)[..0] == "";
    }
  }

  /** The listing block of the `i`-th hit. */
  function Block(i: nat, hit: Hit): string {
    NatToString(i) + ". Speaker: " + hit.speaker + "\n"
    + "   Time: " + hit.timestamp + "\n"
    + "   Video: " + hit.videoFile + "\n"
    + "   Text: " + hit.text + "\n\n"
  }

  function Blocks(hits: seq<Hit>): (r: seq<string>)
    ensures |r| == |hits|
  {
    seq(|hits|, i requires 0 <= i < |hits| => Block(i + 1, hits[i]))
  }

  lemma BlocksSnoc(hits: seq<Hit>, hit: Hit)
    ensures Blocks(hits + [hit]) == Blocks(hits) + [Block(|hits| + 1, hit)]
  {
    assert forall j :: 0 <= j < |hits| ==> (hits + [hit])[j] == hits[j];
  }

  /** The listing: a fixed line when nothing matched, otherwise the header and one numbered
      block per hit, in order. */
  function Formatted(hits: seq<Hit>): (r: string)
    ensures r == NoMatches <==> hits == []
    ensures hits != [] ==> r == Header + Concat(Blocks(hits))
  {
    if hits == [] then NoMatches
    else
      assert (Header + Concat(Blocks(hits)))[0] == 'F';
      Header + Concat(Blocks(hits))
  }

  /** The `i`-th block of a listing is numbered `i` and shows that hit's fields. */
  lemma BlockShowsHit(hits: seq<Hit>, i: nat)
    requires 1 <= i <= |hits|
    ensures Blocks(hits)[i - 1] == NatToString(i) + ". Speaker: " + hits[i - 1].speaker + "\n   Time: "
      + hits[i - 1].timestamp + "\n   Video: " + hits[i - 1].videoFile + "\n   Text: " + hits[i - 1].text + "\n\n"
  {
  }

  /** The listing shows every hit, in a block numbered with its position. */
  lemma FormattedShowsEveryHit(hits: seq<Hit>, i: nat)
    requires 1 <= i <= |hits|
    ensures Contains(Formatted(hits), Block(i, hits[i - 1]))
  {
    ConcatContainsEach(Blocks(hits), i - 1);
    ContainsAfter(Header, Concat(Blocks(hits)), Block(i, hits[i - 1]));
  }

  class SegmentManager {
    var segments: seq<TextSegment>

    constructor()
      ensures segments == []
    {
      segments := [];
    }

    /** `load_segments`: `data` is the parsed file, `None` when it cannot be read or a record
        does not fit; then the segments stay as they were and the result is false. */
    method LoadSegments(data: Option<seq<TextSegment>>) returns (ok: bool)
      modifies this
      ensures ok <==> data.Some?
      ensures ok ==> segments == data.value
      ensures !ok ==> segments == old(segments)
    {
      if data.None? {
        return false;
      }
      segments := data.value;
      ok := true;
    }

    /** `search_segments`, step by step; it changes nothing. */
    method SearchSegments(query: string, lower: char -> char) returns (results: seq<Hit>)
      ensures results == Search(segments, query, lower)
    {
      results := [];
      var q := Lower(query, lower);
      var i := 0;
      while i < |segments|
        invariant 0 <= i <= |segments|
        invariant results == Search(segments[..i], query, lower)
      {
        var segment := segments[i];
        assert segments[..i + 1][..i] == segments[..i];
        if Contains(Lower(segment.text, lower), q) {
          results := results + [Hit(segment.text, segment.speaker, segment.startTime + " - " + segment.endTime,
                                    segment.videoFile)];
        }
        i := i + 1;
      }
      assert segments[..i] == segments;
    }

    /** `format_search_result`, accumulating the listing block by block. */
    method FormatSearchResult(results: seq<Hit>) returns (formatted: string)
      ensures formatted == Formatted(results)
    {
      if results == [] {
        return NoMatches;
      }
      formatted := Header;
      ghost var blocks: seq<string> := [];
      var i := 0;
      while i < |results|
        invariant 0 <= i <= |results|
        invariant blocks == Blocks(results[..i]) && formatted == Header + Concat(blocks)
      {
        var block := Block(i + 1, results[i]);
        BlocksSnoc(results[..i], results[i]);
        AccumulateStep(Header, formatted, blocks, block);
        assert results[..i + 1] == results[..i] + [results[i]];
        formatted := formatted + block;
        blocks := blocks + [block];
        i := i + 1;
      }
      assert results[..i] == results;
    }
  }
}
