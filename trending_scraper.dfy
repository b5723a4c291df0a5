/**
 * The post-processing of `YouTubeContentScraper.getTrendingAIVideos` (server.js):
 * keep the videos with at least 500000 views, sort them by view count (highest
 * first) and return at most `maxResults` of them.
 */
module TrendingScraper {

  /** The view threshold of server.js:298. */
  const MinViews: int := 500000

  /** The statistics fetched for one search hit (after `parseInt`, missing counts as 0). */
  datatype VideoStats = VideoStats(videoId: string, title: string, viewCount: int, likeCount: int, commentCount: int)

  /** One trending video record as the scraper builds it. */
  datatype TrendingVideo = TrendingVideo(
    videoId: string,
    title: string,
    viewCount: int,
    likeCount: int,
    commentCount: int,
    engagementRate: real)

  function ToVideo(s: VideoStats): (v: TrendingVideo)
    requires s.viewCount >= MinViews
    ensures v.viewCount == s.viewCount && v.title == s.title
    ensures v.videoId == s.videoId && v.likeCount == s.likeCount && v.commentCount == s.commentCount
    ensures v.engagementRate * (v.viewCount as real) == (s.likeCount + s.commentCount) as real
  {
    TrendingVideo(s.videoId, s.title, s.viewCount, s.likeCount, s.commentCount,
      (s.likeCount + s.commentCount) as real / s.viewCount as real)
  }

  /** The records the scraper pushes, in fetch order. */
  function Qualifying(items: seq<VideoStats>): (r: seq<TrendingVideo>)
    ensures |r| <= |items|
    ensures forall v :: v in r ==> v.viewCount >= MinViews
  {
    if items == [] then []
    else if items[0].viewCount >= MinViews then [ToVideo(items[0])] + Qualifying(items[1..])
    else Qualifying(items[1..])
  }

  /** Qualifying filters each part of a concatenation on its own, so fetch order is kept. */
  lemma {:induction false} QualifyingDistributes(a: seq<VideoStats>, b: seq<VideoStats>)
    ensures Qualifying(a + b) == Qualifying(a) + Qualifying(b)
  {
    if a != [] {
      assert (a + b)[0] == a[0] && (a + b)[1..] == a[1..] + b;
      QualifyingDistributes(a[1..], b);
    } else {
      assert a + b == b;
    }
  }

  /** A record is pushed exactly when it is built from a fetched video over the threshold. */
  lemma {:induction false} QualifyingIsExact(items: seq<VideoStats>)
    ensures forall v :: v in Qualifying(items) <==>
      exists x :: x in items && x.viewCount >= MinViews && v == ToVideo(x)
  {
    if items != [] {
      QualifyingIsExact(items[1..]);
      assert items == [items[0]] + items[1..];
    }
  }

  predicate SortedByViewsDesc(vs: seq<TrendingVideo>) {
    forall a, b :: 0 <= a < b < |vs| ==> vs[a].viewCount >= vs[b].viewCount
  }

  /** Insertion of v before the first video with fewer views (earlier videos win ties). */
  function InsertByViews(v: TrendingVideo, sorted: seq<TrendingVideo>): (r: seq<TrendingVideo>)
    ensures multiset(r) == multiset(sorted) + multiset{v}
  {
    if sorted == [] || v.viewCount >= sorted[0].viewCount then [v] + sorted
    else
      assert sorted == [sorted[0]] + sorted[1..];
      [sorted[0]] + InsertByViews(v, sorted[1..])
  }

  lemma {:induction false} InsertKeepsSorted(v: TrendingVideo, sorted: seq<TrendingVideo>)
    requires SortedByViewsDesc(sorted)
    ensures SortedByViewsDesc(InsertByViews(v, sorted))
  {
    if sorted == [] || v.viewCount >= sorted[0].viewCount {
    } else {
      var tail := sorted[1..];
      assert SortedByViewsDesc(tail);
      InsertKeepsSorted(v, tail);
      var r := InsertByViews(v, tail);
      forall x | x in r ensures x.viewCount <= sorted[0].viewCount {
        assert x in multiset(r);
        if x != v {
          assert x in multiset(tail);
          assert x in tail;
        }
      }
      assert InsertByViews(v, sorted) == [sorted[0]] + r;
    }
  }

  /** The stable sort `(a, b) => b.viewCount - a.viewCount` of server.js:331. */
  function SortByViewsDesc(vs: seq<TrendingVideo>): (r: seq<TrendingVideo>)
    ensures multiset(r) == multiset(vs)
  {
    if vs == [] then []
    else
      assert vs == [vs[0]] + vs[1..];
      InsertByViews(vs[0], SortByViewsDesc(vs[1..]))
  }

  lemma {:induction false} SortIsSorted(vs: seq<TrendingVideo>)
    ensures SortedByViewsDesc(SortByViewsDesc(vs))
  {
    if vs != [] {
      SortIsSorted(vs[1..]);
      InsertKeepsSorted(vs[0], SortByViewsDesc(vs[1..]));
    }
  }

  function Min(a: nat, b: nat): nat {
    if a < b then a else b
  }

  /**
   * What getTrendingAIVideos returns: the sorted qualifying videos, cut to maxResults.
   * There are min(qualifying, maxResults) of them, each over the threshold, all drawn
   * from the qualifying ones.
   */
  function TopTrending(items: seq<VideoStats>, maxResults: nat): (r: seq<TrendingVideo>)
    ensures |r| == Min(|Qualifying(items)|, maxResults)
    ensures forall v :: v in r ==> v.viewCount >= MinViews
    ensures multiset(r) <= multiset(Qualifying(items))
  {
    var q := Qualifying(items);
    var sorted := SortByViewsDesc(q);
    var n := Min(|sorted|, maxResults);
    assert sorted == sorted[..n] + sorted[n..];
    assert multiset(sorted) == multiset(sorted[..n]) + multiset(sorted[n..]);
    assert forall v :: v in sorted[..n] ==> v in multiset(q);
    sorted[..n]
  }

  /** Highest view count first. */
  lemma TopTrendingSorted(items: seq<VideoStats>, maxResults: nat)
    ensures SortedByViewsDesc(TopTrending(items, maxResults))
  {
    SortIsSorted(Qualifying(items));
  }

  /** An element counted in s beyond its prefix of length n occurs at or after position n. */
  lemma BeyondPrefix(s: seq<TrendingVideo>, n: nat, v: TrendingVideo) returns (k: nat)
    requires n <= |s| && v in multiset(s) - multiset(s[..n])
    ensures n <= k < |s| && s[k] == v
  {
    assert s == s[..n] + s[n..];
    assert multiset(s) == multiset(s[..n]) + multiset(s[n..]);
    assert v in s[n..];
    var j :| 0 <= j < |s[n..]| && s[n..][j] == v;
    k := n + j;
  }

  /** Every qualifying video that was cut has no more views than any video kept. */
  lemma TopTrendingKeepsBest(items: seq<VideoStats>, maxResults: nat, v: TrendingVideo)
    requires v in multiset(Qualifying(items)) - multiset(TopTrending(items, maxResults))
    ensures forall m :: 0 <= m < |TopTrending(items, maxResults)| ==>
      TopTrending(items, maxResults)[m].viewCount >= v.viewCount
  {
    var s := SortByViewsDesc(Qualifying(items));
    SortIsSorted(Qualifying(items));
    var k := BeyondPrefix(s, Min(|s|, maxResults), v);
  }

  /**
   * The filter loop of getTrendingAIVideos over the fetched statistics, then the
   * sort and `slice(0, maxResults)`.
   */
  method CollectTrending(items: seq<VideoStats>, maxResults: nat) returns (top: seq<TrendingVideo>)
    ensures top == TopTrending(items, maxResults)
  {
    var all: seq<TrendingVideo> := [];
    for i := 0 to |items|
      invariant all + Qualifying(items[i..]) == Qualifying(items)
    {
      assert items[i..][1..] == items[i + 1..];
      if items[i].viewCount >= MinViews {
        all := all + [ToVideo(items[i])];
      }
    }
    assert items[|items|..] == [];
    assert all == Qualifying(items);
    var sorted := SortByViewsDesc(all);
    top := sorted[..Min(|sorted|, maxResults)];
  }
}
