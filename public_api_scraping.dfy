/**
 * The pure helpers of `PublicAPIScrapingService` (PublicAPIScrapingService.ts):
 * hashtag extraction with the regular expression `/#\w+/g`, the engagement rate,
 * and the mapping of Instagram posts to scraping results.
 */
module PublicApiScraping {
  import opened Wrappers

  /** `\w` without the Unicode flag: ASCII letters, digits and underscore. */
  predicate IsWordChar(c: char) {
    'a' <= c <= 'z' || 'A' <= c <= 'Z' || '0' <= c <= '9' || c == '_'
  }

  predicate AllWordChars(s: string) {
    forall i :: 0 <= i < |s| ==> IsWordChar(s[i])
  }

  /** The longest prefix of s made of word characters (what `\w+` consumes). */
  function WordRun(s: string): (w: string)
    ensures |w| <= |s| && w == s[..|w|] && AllWordChars(w)
    ensures |w| == |s| || !IsWordChar(s[|w|])
  {
    if s != [] && IsWordChar(s[0]) then [s[0]] + WordRun(s[1..]) else []
  }

  /** The matches of `/#\w+/g` in s, left to right, each with its '#' removed. */
  function Tags(s: string): (r: seq<string>)
    ensures forall t :: t in r ==> t != [] && AllWordChars(t)
    decreases |s|
  {
    if |s| < 2 then []
    else if s[0] == '#' && IsWordChar(s[1]) then
      var w := WordRun(s[1..]);
      [w] + Tags(s[1 + |w|..])
    else Tags(s[1..])
  }

  /**
   * `extractHashtags`: nothing for absent or empty text, otherwise the word run after
   * every position that starts a hashtag, in text order.
   */
  function ExtractHashtags(text: Option<string>): (r: seq<string>)
    ensures text.None? || text.value == "" ==> r == []
    ensures text.Some? ==> r == TagsFrom(text.value, 0)
    ensures forall t :: t in r ==> t != [] && AllWordChars(t) && '#' !in t
  {
    if text.None? || text.value == "" then []
    else
      TagsAreWords(text.value);
      TagsAreTagsFrom(text.value, 0);
      Tags(text.value)
  }

  /** A hashtag starts at position i: a '#' followed by a word character. */
  predicate TagAt(s: string, i: int) {
    0 <= i && i + 1 < |s| && s[i] == '#' && IsWordChar(s[i + 1])
  }

  /**
   * A reference definition of the matches: position by position from i, the word run
   * after each position where a hashtag starts.
   */
  function TagsFrom(s: string, i: nat): seq<string>
    requires i <= |s|
    decreases |s| - i
  {
    if i == |s| then []
    else (if TagAt(s, i) then [WordRun(s[i + 1..])] else []) + TagsFrom(s, i + 1)
  }

  /** No hashtag starts at a word character, so a run of them adds nothing. */
  lemma {:induction false} TagsFromSkipsWords(s: string, a: nat, b: nat)
    requires a <= b <= |s| && forall k :: a <= k < b ==> IsWordChar(s[k])
    ensures TagsFrom(s, a) == TagsFrom(s, b)
    decreases b - a
  {
    if a < b {
      assert !TagAt(s, a);
      TagsFromSkipsWords(s, a + 1, b);
    }
  }

  /** Scanning with the regular expression finds exactly the hashtags the reference lists. */
  lemma {:induction false} TagsAreTagsFrom(s: string, i: nat)
    requires i <= |s|
    ensures Tags(s[i..]) == TagsFrom(s, i)
    decreases |s| - i
  {
    if i < |s| {
      if TagAt(s, i) {
        var w := TagStep(s, i);
        TagsAreTagsFrom(s, i + 1 + |w|);
      } else {
        NonTagStep(s, i);
        TagsAreTagsFrom(s, i + 1);
      }
    }
  }

  /** Elsewhere both definitions move on by one character. */
  lemma NonTagStep(s: string, i: nat)
    requires i < |s| && !TagAt(s, i)
    ensures Tags(s[i..]) == Tags(s[i + 1..])
    ensures TagsFrom(s, i) == TagsFrom(s, i + 1)
  {
    var t := s[i..];
    assert t[1..] == s[i + 1..];
  }

  /** At a hashtag both definitions take its word run and resume after it. */
  lemma TagStep(s: string, i: nat) returns (w: string)
    requires TagAt(s, i)
    ensures w == WordRun(s[i + 1..]) && i + 1 + |w| <= |s|
    ensures Tags(s[i..]) == [w] + Tags(s[i + 1 + |w|..])
    ensures TagsFrom(s, i) == [w] + TagsFrom(s, i + 1 + |w|)
  {
    var t := s[i..];
    assert t[0] == '#' && IsWordChar(t[1]) && t[1..] == s[i + 1..];
    w := WordRun(s[i + 1..]);
    assert t[1 + |w|..] == s[i + 1 + |w|..];
    forall k | i + 1 <= k < i + 1 + |w| ensures IsWordChar(s[k]) {
      assert s[k] == w[k - i - 1];
    }
    TagsFromSkipsWords(s, i + 1, i + 1 + |w|);
  }

  /** The reference lists the tag of every hashtag from its first position on. */
  lemma {:induction false} TagsFromHas(s: string, j: nat, k: nat)
    requires j <= k < |s| && TagAt(s, k)
    ensures WordRun(s[k + 1..]) in TagsFrom(s, j)
    decreases k - j
  {
    if j < k {
      TagsFromHas(s, j + 1, k);
    }
  }

  /** Every hashtag in the text contributes its tag. */
  lemma EveryTagExtracted(s: string, k: nat)
    requires TagAt(s, k)
    ensures WordRun(s[k + 1..]) in Tags(s)
  {
    TagsAreTagsFrom(s, 0);
    assert s[0..] == s;
    TagsFromHas(s, 0, k);
  }

  /** Every extracted tag is a non-empty run of word characters, so it holds no '#'. */
  lemma {:induction false} TagsAreWords(s: string)
    ensures forall t :: t in Tags(s) ==> t != [] && AllWordChars(t) && '#' !in t
    decreases |s|
  {
    if |s| >= 2 {
      if s[0] == '#' && IsWordChar(s[1]) {
        var w := WordRun(s[1..]);
        TagsAreWords(s[1 + |w|..]);
      } else {
        TagsAreWords(s[1..]);
      }
    }
  }

  /** Text gives no tags exactly when no '#' in it is followed by a word character. */
  lemma {:induction false} NoTagsIff(s: string)
    ensures Tags(s) == [] <==> forall i :: 0 <= i < |s| ==> !TagAt(s, i)
    decreases |s|
  {
    if |s| >= 2 {
      if TagAt(s, 0) {
        assert Tags(s) == [WordRun(s[1..])] + Tags(s[1 + |WordRun(s[1..])|..]);
      } else {
        assert Tags(s) == Tags(s[1..]);
        NoTagsIff(s[1..]);
        if Tags(s) == [] {
          forall i | 0 <= i < |s| ensures !TagAt(s, i) {
            if i > 0 {
              assert !TagAt(s[1..], i - 1);
            }
          }
        } else {
          var j :| 0 <= j < |s| - 1 && TagAt(s[1..], j);
          assert TagAt(s, j + 1);
        }
      }
    } else {
      forall i | 0 <= i < |s| ensures !TagAt(s, i) {
      }
    }
  }

  /**
   * Every tag is a maximal hashtag of s: '#', then the tag, then the end of the
   * text or a character that is not a word character.
   */
  ghost predicate MaximalTagAt(s: string, i: int, t: string) {
    && 0 <= i && i + 1 + |t| <= |s| && s[i] == '#' && s[i + 1..i + 1 + |t|] == t
    && (i + 1 + |t| == |s| || !IsWordChar(s[i + 1 + |t|]))
  }

  /** A maximal tag in a suffix of s is one in s, shifted by where the suffix starts. */
  lemma ShiftTag(s: string, k: int, i: int, t: string)
    requires 0 <= k <= |s| && MaximalTagAt(s[k..], i, t)
    ensures MaximalTagAt(s, k + i, t)
  {
    assert s[k + i + 1..k + i + 1 + |t|] == s[k..][i + 1..i + 1 + |t|];
  }

  lemma {:induction false} TagsOccur(s: string)
    ensures forall t :: t in Tags(s) ==> exists i :: MaximalTagAt(s, i, t)
    decreases |s|
  {
    if |s| >= 2 {
      var k := 1;
      if s[0] == '#' && IsWordChar(s[1]) {
        var w := WordRun(s[1..]);
        assert s[1..][..|w|] == s[1..1 + |w|];
        assert MaximalTagAt(s, 0, w);
        k := 1 + |w|;
      }
      TagsOccur(s[k..]);
      forall t | t in Tags(s[k..]) ensures exists i :: MaximalTagAt(s, i, t) {
        var i :| MaximalTagAt(s[k..], i, t);
        ShiftTag(s, k, i, t);
      }
    }
  }

  lemma TagsExample()
    ensures Tags("#ai #b!") == ["ai", "b"]
  {
    var s := "#ai #b!";
    assert s[1..] == "ai #b!" && s[1..][1..] == "i #b!" && s[1..][1..][1..] == " #b!";
    assert WordRun(" #b!") == [];
    assert WordRun(s[1..]) == "ai";
    assert s[3..] == " #b!" && s[3..][1..] == "#b!";
    assert Tags(s[3..]) == Tags("#b!");
    assert "#b!"[1..] == "b!" && "b!"[1..] == "!";
    assert WordRun("!") == [];
    assert WordRun("b!") == "b";
    assert "#b!"[2..] == "!";
    assert Tags("#b!") == ["b"];
  }

  // ---------------------------------------------------------------- engagement

  /** `calculateEngagementRate`: 0 when views is absent or 0, likes per view in percent otherwise. */
  function EngagementRate(likes: real, views: Option<real>): (r: real)
    ensures views.None? || views.value == 0.0 ==> r == 0.0
    ensures views.Some? && views.value != 0.0 ==> r * views.value == likes * 100.0
  {
    if views.None? || views.value == 0.0 then 0.0 else likes / views.value * 100.0
  }

  // ---------------------------------------------------------------- Instagram

  /** A post of the Instagram media endpoint. */
  datatype Post = Post(id: string, caption: Option<string>, likeCount: int, commentsCount: int)

  /** The fields of the ScrapingResult built from a post. */
  datatype Item = Item(
    id: string,
    title: string,
    description: string,
    viewCount: int,
    likeCount: int,
    commentCount: int,
    hashtags: seq<string>,
    engagementRate: real)

  const MinLikes: int := 10000

  function Prefix(s: string, n: nat): (r: string)
    ensures |r| <= n && |r| <= |s| && r == s[..|r|] && (|s| <= n ==> r == s)
  {
    if |s| <= n then s else s[..n]
  }

  /** Ten views per like give an engagement rate of 10%, or 0 when there are no likes. */
  lemma TenViewsPerLike(likes: int)
    ensures EngagementRate(likes as real, Some((likes * 10) as real)) == if likes == 0 then 0.0 else 10.0
  {
    var l := likes as real;
    var v := (likes * 10) as real;
    assert v == l * 10.0;
    if likes != 0 {
      assert 0.1 * v == l;
      ExactQuotient(l, v, 0.1);
    }
  }

  lemma ExactQuotient(x: real, y: real, q: real)
    requires y != 0.0 && q * y == x
    ensures x / y == q
  {
  }

  /**
   * The result built from one post: the caption (empty when absent) as description,
   * its first 100 characters as title, views estimated at ten per like, and the
   * engagement rate that estimate gives.
   */
  function ToItem(p: Post): (r: Item)
    ensures r.id == p.id && r.likeCount == p.likeCount && r.commentCount == p.commentsCount
    ensures r.description == (if p.caption.Some? then p.caption.value else "")
    ensures |r.title| <= 100 && |r.title| <= |r.description| && r.title == r.description[..|r.title|]
    ensures |r.description| <= 100 ==> r.title == r.description
    ensures |r.description| > 100 ==> |r.title| == 100
    ensures r.viewCount == 10 * p.likeCount && r.hashtags == ExtractHashtags(p.caption)
    ensures r.engagementRate == if p.likeCount == 0 then 0.0 else 10.0
  {
    var caption := if p.caption.Some? then p.caption.value else "";
    TenViewsPerLike(p.likeCount);
    Item(p.id, Prefix(caption, 100), caption, p.likeCount * 10, p.likeCount, p.commentsCount,
      ExtractHashtags(p.caption), EngagementRate(p.likeCount as real, Some((p.likeCount * 10) as real)))
  }

  /** scrapeInstagram's mapping: posts with at least 10000 likes, views estimated as ten per like. */
  function InstagramResults(posts: seq<Post>): (r: seq<Item>)
    ensures |r| <= |posts|
    ensures forall x :: x in r ==> x.likeCount >= MinLikes && x.viewCount == 10 * x.likeCount
  {
    if posts == [] then []
    else (if posts[0].likeCount >= MinLikes then [ToItem(posts[0])] else []) + InstagramResults(posts[1..])
  }

  /** Each result comes from a post over the like threshold, and every such post gives one. */
  lemma {:induction false} InstagramResultsExact(posts: seq<Post>)
    ensures forall x :: x in InstagramResults(posts) ==>
      exists p :: p in posts && p.likeCount >= MinLikes && x == ToItem(p)
    ensures forall p :: p in posts && p.likeCount >= MinLikes ==> ToItem(p) in InstagramResults(posts)
  {
    if posts != [] {
      InstagramResultsExact(posts[1..]);
      assert posts == [posts[0]] + posts[1..];
    }
  }
}
