/**
 * `AffiliateOptimizer` (server.js): the high-ticket and recurring affiliate program
 * catalog, the choice of the program to promote from the trending video titles and
 * the hour of day, and the revenue projection for a program.
 */
module Affiliate {
  import opened Wrappers
  import opened TrendingScraper

  /** One affiliate program; only the fields the optimizer reads. */
  datatype Program = Program(
    name: string,
    commission: real,
    conversionRate: real,
    category: string,
    targetAudience: string,
    recurring: bool,   // commissionType === 'recurring' (otherwise 'one-time')
    trending: bool)

  /** The program database AI_AFFILIATE_PROGRAMS, high-ticket programs first. */
  function HighTicket(): seq<Program> {
    [ Program("Jasper AI Enterprise", 2400.0, 0.08, "ai-content", "businesses", false, true),
      Program("Copy.ai Pro Max", 1800.0, 0.12, "ai-copywriting", "marketers", false, true),
      Program("Synthesia Enterprise", 3200.0, 0.06, "ai-video", "enterprises", false, true),
      Program("Midjourney Business", 960.0, 0.15, "ai-art", "creatives", false, false) ]
  }

  function RecurringPrograms(): seq<Program> {
    [ Program("ChatGPT Plus", 60.0, 0.25, "ai-chat", "general", true, true),
      Program("Notion AI Premium", 120.0, 0.18, "ai-productivity", "professionals", true, true),
      Program("Descript Pro", 180.0, 0.14, "ai-editing", "content-creators", true, false) ]
  }

  function Catalog(): seq<Program> {
    HighTicket() + RecurringPrograms()
  }

  /** The hours at which trending programs are considered first. */
  const PeakHours: set<int> := {9, 10, 11, 14, 15, 16, 19, 20, 21}

  // ---------------------------------------------------------------- text

  /** ASCII lower-casing. */
  function LowerChar(c: char): (d: char)
    ensures 'A' <= c <= 'Z' ==> 'a' <= d <= 'z'
    ensures !('A' <= c <= 'Z') ==> d == c
  {
    if 'A' <= c <= 'Z' then (c as int - 'A' as int + 'a' as int) as char else c
  }

  function Lower(s: string): (r: string)
    ensures |r| == |s|
    ensures forall i :: 0 <= i < |s| ==> r[i] == LowerChar(s[i])
  {
    if s == [] then [] else [LowerChar(s[0])] + Lower(s[1..])
  }

  /** `hay.includes(needle)`; the empty needle occurs in every string. */
  predicate Contains(hay: string, needle: string) {
    |needle| <= |hay| && (hay[..|needle|] == needle || Contains(hay[1..], needle))
  }

  /** `needle` occurs in `hay` starting at position `i`. */
  ghost predicate OccursAt(hay: string, needle: string, i: int) {
    0 <= i && i + |needle| <= |hay| && hay[i..i + |needle|] == needle
  }

  lemma OccursShift(hay: string, needle: string, i: int)
    requires hay != [] && i >= 0
    ensures OccursAt(hay[1..], needle, i) <==> OccursAt(hay, needle, i + 1)
  {
    if 0 <= i && i + 1 + |needle| <= |hay| {
      assert hay[1..][i..i + |needle|] == hay[i + 1..i + 1 + |needle|];
    }
  }

  /** Contains means occurring at some position. */
  lemma {:induction false} ContainsIffOccurs(hay: string, needle: string)
    ensures Contains(hay, needle) <==> exists i :: OccursAt(hay, needle, i)
    decreases |hay|
  {
    if |needle| <= |hay| {
      if hay[..|needle|] == needle {
        assert OccursAt(hay, needle, 0);
      } else {
        assert hay != [];
        ContainsIffOccurs(hay[1..], needle);
        if Contains(hay[1..], needle) {
          var i :| OccursAt(hay[1..], needle, i);
          OccursShift(hay, needle, i);
        }
        if exists i :: OccursAt(hay, needle, i) {
          var i :| OccursAt(hay, needle, i);
          assert i != 0;
          OccursShift(hay, needle, i - 1);
        }
      }
    }
  }

  /**
   * The lower-cased titles joined with single spaces: no upper-case ASCII letter is
   * left, and every title occurs in it lower-cased (`EveryTitleOccurs`).
   */
  function TrendingKeywords(videos: seq<TrendingVideo>): (r: string)
    ensures videos == [] ==> r == ""
    ensures forall i :: 0 <= i < |r| ==> !('A' <= r[i] <= 'Z')
    ensures videos != [] ==> |videos[0].title| <= |r| && r[..|videos[0].title|] == Lower(videos[0].title)
  {
    if videos == [] then ""
    else if |videos| == 1 then Lower(videos[0].title)
    else Lower(videos[0].title) + " " + TrendingKeywords(videos[1..])
  }

  lemma OccursAfter(front: string, rest: string, needle: string, k: int)
    requires OccursAt(rest, needle, k)
    ensures OccursAt(front + rest, needle, k + |front|)
  {
    assert (front + rest)[k + |front|..k + |front| + |needle|] == rest[k..k + |needle|];
  }

  /** The i-th title, lower-cased, occurs in the joined keywords. */
  lemma {:induction false} TitleOccurs(videos: seq<TrendingVideo>, i: int)
    requires 0 <= i < |videos|
    ensures exists k :: OccursAt(TrendingKeywords(videos), Lower(videos[i].title), k)
  {
    var r := TrendingKeywords(videos);
    var first := Lower(videos[0].title);
    if |videos| == 1 {
      assert r[0..|first|] == first;
      assert OccursAt(r, first, 0);
    } else {
      var front := first + " ";
      var rest := TrendingKeywords(videos[1..]);
      assert r == front + rest;
      if i == 0 {
        assert r[0..|first|] == first;
        assert OccursAt(r, first, 0);
      } else {
        TitleOccurs(videos[1..], i - 1);
        assert videos[1..][i - 1] == videos[i];
        var k :| OccursAt(rest, Lower(videos[i].title), k);
        OccursAfter(front, rest, Lower(videos[i].title), k);
      }
    }
  }

  /** Every title, lower-cased, is found by `includes` in the joined keywords. */
  lemma EveryTitleOccurs(videos: seq<TrendingVideo>)
    ensures forall i :: 0 <= i < |videos| ==>
      Contains(TrendingKeywords(videos), Lower(videos[i].title))
  {
    forall i | 0 <= i < |videos|
      ensures Contains(TrendingKeywords(videos), Lower(videos[i].title))
    {
      TitleOccurs(videos, i);
      ContainsIffOccurs(TrendingKeywords(videos), Lower(videos[i].title));
    }
  }

  // ---------------------------------------------------------------- scoring

  /** How many of the category, name and target audience occur in the keywords. */
  function Matches(p: Program, keywords: string): (m: nat)
    ensures m <= 3
  {
    (if Contains(keywords, Lower(p.category)) then 1 else 0)
    + (if Contains(keywords, Lower(Lower(p.name))) then 1 else 0)
    + (if Contains(keywords, Lower(p.targetAudience)) then 1 else 0)
  }

  /**
   * A program's score: commission times conversion rate, raised by 40% per matching
   * keyword, by 80% for a recurring program and by 30% for a trending one.
   */
  function Score(p: Program, keywords: string): real {
    p.commission * p.conversionRate
      * (1.0 + Matches(p, keywords) as real * 0.4)
      * (if p.recurring then 1.8 else 1.0)
      * (if p.trending then 1.3 else 1.0)
  }

  lemma ScoreNonnegative(p: Program, keywords: string)
    requires p.commission >= 0.0 && p.conversionRate >= 0.0
    ensures Score(p, keywords) >= 0.0
  {
    var base := p.commission * p.conversionRate;
    assert base >= 0.0;
    var boosted := base * (1.0 + Matches(p, keywords) as real * 0.4);
    assert boosted >= 0.0;
    var withRecurring := boosted * (if p.recurring then 1.8 else 1.0);
    assert withRecurring >= 0.0;
  }

  // ---------------------------------------------------------------- selection

  function TrendingOnly(ps: seq<Program>): seq<Program> {
    if ps == [] then [] else (if ps[0].trending then [ps[0]] else []) + TrendingOnly(ps[1..])
  }

  function NotTrending(ps: seq<Program>): seq<Program> {
    if ps == [] then [] else (if ps[0].trending then [] else [ps[0]]) + NotTrending(ps[1..])
  }

  /** The order in which the programs are scored at the given hour. */
  function Considered(ps: seq<Program>, hour: int): seq<Program> {
    if hour in PeakHours then TrendingOnly(ps) + NotTrending(ps) else ps
  }

  lemma {:induction false} PartitionSides(ps: seq<Program>)
    ensures forall p :: p in TrendingOnly(ps) ==> p.trending
    ensures forall p :: p in NotTrending(ps) ==> !p.trending
  {
    if ps != [] {
      PartitionSides(ps[1..]);
    }
  }

  /** At peak hours every trending program is considered before every other one. */
  lemma TrendingFirst(ps: seq<Program>, hour: int)
    requires hour in PeakHours
    ensures var r: seq<Program> := Considered(ps, hour);
      forall a, b :: 0 <= a < b < |r| && r[b].trending ==> r[a].trending
  {
    var t, o := TrendingOnly(ps), NotTrending(ps);
    PartitionSides(ps);
    var r := t + o;
    assert Considered(ps, hour) == r;
    forall a: int, b: int | 0 <= a < b < |r| && r[b].trending ensures r[a].trending {
      if b < |t| {
        assert r[a] == t[a] && t[a] in t;
      }
    }
  }

  /** The score of every program, in order. */
  function Scores(cs: seq<Program>, keywords: string): (r: seq<real>)
    ensures |r| == |cs|
  {
    if cs == [] then [] else [Score(cs[0], keywords)] + Scores(cs[1..], keywords)
  }

  lemma {:induction false} ScoresAt(cs: seq<Program>, keywords: string)
    ensures forall j :: 0 <= j < |cs| ==> Scores(cs, keywords)[j] == Score(cs[j], keywords)
  {
    if cs != [] {
      ScoresAt(cs[1..], keywords);
      assert forall j :: 0 < j < |cs| ==> cs[1..][j - 1] == cs[j];
    }
  }

  ghost predicate SomePositive(s: seq<real>) {
    exists j :: 0 <= j < |s| && s[j] > 0.0
  }

  /**
   * k is where a scan keeping the first strictly better score, starting from 0,
   * settles: when some score is positive, the first highest score; otherwise 0.
   */
  ghost predicate FirstMaximum(s: seq<real>, k: nat) {
    && k < |s|
    && if SomePositive(s) then
         && (forall j :: 0 <= j < |s| ==> s[j] <= s[k])
         && (forall j :: 0 <= j < k ==> s[j] < s[k])
       else k == 0
  }

  /** k is the program the optimizer settles on. */
  ghost predicate IsPick(cs: seq<Program>, keywords: string, k: nat) {
    FirstMaximum(Scores(cs, keywords), k)
  }

  lemma PickIsUnique(s: seq<real>, k1: nat, k2: nat)
    requires FirstMaximum(s, k1) && FirstMaximum(s, k2)
    ensures k1 == k2
  {
  }

  /**
   * `selectOptimalProgram`: score every program in the order of `Considered` and
   * keep the first one whose score beats the best so far, starting from 0; the
   * first program is returned when no score is positive, and nothing when there
   * are no programs. The source passes `Catalog()`.
   */
  method SelectOptimalProgram(programs: seq<Program>, videos: seq<TrendingVideo>, hour: int)
    returns (best: Option<Program>, ghost k: nat)
    ensures best.None? <==> Considered(programs, hour) == []
    ensures best.Some? ==>
      IsPick(Considered(programs, hour), TrendingKeywords(videos), k) && best.value == Considered(programs, hour)[k]
  {
    var cs := Considered(programs, hour);
    var keywords := TrendingKeywords(videos);
    k := 0;
    if cs == [] {
      return None, k;
    }
    ghost var scores := Scores(cs, keywords);
    ScoresAt(cs, keywords);
    var bestMatch := cs[0];
    var maxScore := 0.0;
    for i := 0 to |cs|
      invariant k < |cs| && bestMatch == cs[k] && maxScore >= 0.0
      invariant forall j :: 0 <= j < i ==> scores[j] <= maxScore
      invariant maxScore > 0.0 ==>
        k < i && scores[k] == maxScore && forall j :: 0 <= j < k ==> scores[j] < maxScore
      invariant maxScore == 0.0 ==> k == 0
    {
      var score := Score(cs[i], keywords);
      if score > maxScore {
        maxScore := score;
        bestMatch := cs[i];
        k := i;
      }
    }
    best := Some(bestMatch);
  }

  lemma {:induction false} PartitionKeepsPrograms(ps: seq<Program>)
    ensures multiset(TrendingOnly(ps)) + multiset(NotTrending(ps)) == multiset(ps)
  {
    if ps != [] {
      PartitionKeepsPrograms(ps[1..]);
      assert ps == [ps[0]] + ps[1..];
    }
  }

  /** The peak-hour reordering is a permutation of the programs. */
  lemma ConsideredIsPermutation(ps: seq<Program>, hour: int)
    ensures multiset(Considered(ps, hour)) == multiset(ps)
  {
    PartitionKeepsPrograms(ps);
  }

  lemma SameProgramsSamePositive(c1: seq<Program>, c2: seq<Program>, keywords: string)
    requires multiset(c1) == multiset(c2) && SomePositive(Scores(c1, keywords))
    ensures SomePositive(Scores(c2, keywords))
  {
    ScoresAt(c1, keywords);
    ScoresAt(c2, keywords);
    var j :| 0 <= j < |c1| && Scores(c1, keywords)[j] > 0.0;
    assert c1[j] in multiset(c2);
    var j2 :| 0 <= j2 < |c2| && c2[j2] == c1[j];
    assert Scores(c2, keywords)[j2] > 0.0;
  }

  lemma PickDominates(c1: seq<Program>, k1: nat, c2: seq<Program>, k2: nat, keywords: string)
    requires multiset(c1) == multiset(c2)
    requires IsPick(c1, keywords, k1) && IsPick(c2, keywords, k2) && SomePositive(Scores(c1, keywords))
    ensures Score(c2[k2], keywords) <= Score(c1[k1], keywords)
  {
    ScoresAt(c1, keywords);
    ScoresAt(c2, keywords);
    assert c2[k2] in multiset(c1);
    var j :| 0 <= j < |c1| && c1[j] == c2[k2];
    assert Scores(c1, keywords)[j] <= Scores(c1, keywords)[k1];
  }

  /**
   * With non-negative commissions and conversion rates, the winning score does not
   * depend on the hour: the peak-hour reordering changes the chosen program only
   * between programs with equal scores.
   */
  lemma ReorderOnlyBreaksTies(ps: seq<Program>, keywords: string, h1: int, h2: int, k1: nat, k2: nat)
    requires forall p :: p in ps ==> p.commission >= 0.0 && p.conversionRate >= 0.0
    requires IsPick(Considered(ps, h1), keywords, k1) && IsPick(Considered(ps, h2), keywords, k2)
    ensures Score(Considered(ps, h1)[k1], keywords) == Score(Considered(ps, h2)[k2], keywords)
  {
    var c1, c2 := Considered(ps, h1), Considered(ps, h2);
    ConsideredIsPermutation(ps, h1);
    ConsideredIsPermutation(ps, h2);
    if SomePositive(Scores(c1, keywords)) {
      SameProgramsSamePositive(c1, c2, keywords);
      PickDominates(c1, k1, c2, k2, keywords);
      PickDominates(c2, k2, c1, k1, keywords);
    } else {
      if SomePositive(Scores(c2, keywords)) {
        SameProgramsSamePositive(c2, c1, keywords);
      }
      ScoresAt(c1, keywords);
      ScoresAt(c2, keywords);
      assert c1[k1] in multiset(ps) && c2[k2] in multiset(ps);
      ScoreNonnegative(c1[k1], keywords);
      ScoreNonnegative(c2[k2], keywords);
      assert Scores(c1, keywords)[k1] <= 0.0 && Scores(c2, keywords)[k2] <= 0.0;
    }
  }

  /** Nothing but the empty string occurs in the empty keyword string. */
  lemma NoMatchesWithoutKeywords(p: Program)
    requires p.category != [] && p.name != [] && p.targetAudience != []
    ensures Score(p, "") == p.commission * p.conversionRate
      * (if p.recurring then 1.8 else 1.0) * (if p.trending then 1.3 else 1.0)
  {
    assert Matches(p, "") == 0;
  }

  /** Two programs with equal scores: the peak hours promote the trending one. */
  lemma PeakHourTieBreak()
    ensures var a := Program("a", 13.0, 1.0, "x", "y", false, false);
            var b := Program("b", 10.0, 1.0, "x", "y", false, true);
            && IsPick(Considered([a, b], 3), "", 0) && Considered([a, b], 3)[0] == a
            && IsPick(Considered([a, b], 9), "", 0) && Considered([a, b], 9)[0] == b
  {
    var a := Program("a", 13.0, 1.0, "x", "y", false, false);
    var b := Program("b", 10.0, 1.0, "x", "y", false, true);
    NoMatchesWithoutKeywords(a);
    NoMatchesWithoutKeywords(b);
    assert 3 !in PeakHours && 9 in PeakHours;
    assert [a, b][1..] == [b] && [b][1..] == [];
    assert TrendingOnly([b]) == [b];
    assert NotTrending([b]) == [] + NotTrending([]);
    assert TrendingOnly([a, b]) == [b];
    assert NotTrending([a, b]) == [a];
    assert Considered([a, b], 9) == [b, a];
    assert [b, a][1..] == [a] && [a][1..] == [];
    assert Scores([a, b], "") == [13.0, 13.0];
    assert Scores([b, a], "") == [13.0, 13.0];
  }

  // The catalog's scores when no keyword matches, one program at a time: Copy.ai Pro Max
  // scores highest, and Jasper AI Enterprise and Synthesia Enterprise tie behind it.

  lemma ScoreJasper()
    ensures Score(Catalog()[0], "") == 249.6
  {
    NoMatchesWithoutKeywords(Catalog()[0]);
  }

  lemma ScoreCopyAi()
    ensures Score(Catalog()[1], "") == 280.8
  {
    NoMatchesWithoutKeywords(Catalog()[1]);
  }

  lemma ScoreSynthesia()
    ensures Score(Catalog()[2], "") == 249.6
  {
    NoMatchesWithoutKeywords(Catalog()[2]);
  }

  lemma ScoreMidjourney()
    ensures Score(Catalog()[3], "") == 144.0
  {
    NoMatchesWithoutKeywords(Catalog()[3]);
  }

  lemma ScoreChatGpt()
    ensures Score(Catalog()[4], "") == 35.1
  {
    NoMatchesWithoutKeywords(Catalog()[4]);
  }

  lemma ScoreNotion()
    ensures Score(Catalog()[5], "") == 50.544
  {
    NoMatchesWithoutKeywords(Catalog()[5]);
  }

  lemma ScoreDescript()
    ensures Score(Catalog()[6], "") == 45.36
  {
    NoMatchesWithoutKeywords(Catalog()[6]);
  }

  // ---------------------------------------------------------------- projection

  /** `calculateRevenueProjection`'s result, with the floors and roundings applied. */
  datatype Projection = Projection(
    estimatedClicks: int,
    estimatedConversions: int,
    projectedRevenue: int,
    dailyRecurring: int,
    monthlyProjection: int,
    program: string,
    conversionRate: real,
    engagementBoost: real)

  /** The default video engagement. */
  const DefaultEngagement: real := 0.05

  /** The click-through rate assumed for the AI niche. */
  const ClickThroughRate: real := 0.08

  /** `Math.round`: halves go up. */
  function Round(x: real): int {
    (x + 0.5).Floor
  }

  /**
   * The engagement boost: linear in the engagement, equal to 1 at the default 0.05,
   * capped at 2.5 from an engagement of 0.125 on.
   */
  function EngagementMultiplier(engagement: real): (m: real)
    ensures m <= 2.5 && (engagement >= 0.0 ==> m >= 0.0)
    ensures engagement <= 0.125 ==> m == engagement * 20.0
    ensures engagement >= 0.125 ==> m == 2.5
  {
    if engagement / 0.05 < 2.5 then engagement / 0.05 else 2.5
  }

  function Conversions(p: Program, views: int, engagement: real): real {
    views as real * ClickThroughRate * (p.conversionRate * EngagementMultiplier(engagement))
  }

  function Revenue(p: Program, views: int, engagement: real): real {
    if p.recurring then Conversions(p, views, engagement) * p.commission * 12.0
    else Conversions(p, views, engagement) * p.commission
  }

  /**
   * The projection for a program: it names the program, its boost is at most 2.5, a
   * one-time program has no daily recurring revenue, and with non-negative views,
   * engagement, commission and conversion rate nothing projected is negative.
   */
  function CalculateRevenueProjection(p: Program, views: int, engagement: real): (r: Projection)
    ensures r.program == p.name && r.engagementBoost <= 2.5
    ensures !p.recurring ==> r.dailyRecurring == 0
    ensures views >= 0 && engagement >= 0.0 && p.commission >= 0.0 && p.conversionRate >= 0.0 ==>
      && r.estimatedClicks >= 0 && r.estimatedConversions >= 0 && r.projectedRevenue >= 0
      && r.dailyRecurring >= 0 && r.monthlyProjection >= 0 && r.conversionRate >= 0.0
  {
    var conversions := Conversions(p, views, engagement);
    var revenue := Revenue(p, views, engagement);
    ProjectionNonnegative(p, views, engagement);
    Projection(
      (views as real * ClickThroughRate).Floor,
      conversions.Floor,
      revenue.Floor,
      if p.recurring then (conversions * p.commission / 30.0).Floor else 0,
      (revenue / 12.0).Floor,
      p.name,
      Round(p.conversionRate * EngagementMultiplier(engagement) * 10000.0) as real / 100.0,
      Round(EngagementMultiplier(engagement) * 100.0) as real / 100.0)
  }

  lemma ProjectionNonnegative(p: Program, views: int, engagement: real)
    ensures views >= 0 && engagement >= 0.0 && p.commission >= 0.0 && p.conversionRate >= 0.0 ==>
      && views as real * ClickThroughRate >= 0.0
      && Conversions(p, views, engagement) >= 0.0
      && Conversions(p, views, engagement) * p.commission >= 0.0
      && Revenue(p, views, engagement) >= 0.0
      && p.conversionRate * EngagementMultiplier(engagement) >= 0.0
  {
    if views >= 0 && engagement >= 0.0 && p.commission >= 0.0 && p.conversionRate >= 0.0 {
      var rate := p.conversionRate * EngagementMultiplier(engagement);
      MulMonotone(0.0, p.conversionRate, EngagementMultiplier(engagement));
      MulMonotone(0.0, views as real * ClickThroughRate, rate);
      MulMonotone(0.0, Conversions(p, views, engagement), p.commission);
    }
  }

  /** A 10% converting, $100 program at 10000 views and the default engagement. */
  lemma ProjectionExample()
    ensures var p := Program("p", 100.0, 0.1, "c", "t", false, false);
      CalculateRevenueProjection(p, 10000, DefaultEngagement)
        == Projection(800, 80, 8000, 0, 666, "p", 10.0, 1.0)
    ensures var p := Program("p", 100.0, 0.1, "c", "t", true, false);
      CalculateRevenueProjection(p, 10000, DefaultEngagement)
        == Projection(800, 80, 96000, 266, 8000, "p", 10.0, 1.0)
  {
    var p := Program("p", 100.0, 0.1, "c", "t", false, false);
    assert Conversions(p, 10000, DefaultEngagement) == 80.0;
    assert Conversions(p.(recurring := true), 10000, DefaultEngagement) == 80.0;
  }

  lemma FloorMonotone(a: real, b: real)
    requires a <= b
    ensures a.Floor <= b.Floor
  {
  }

  lemma MulMonotone(a: real, b: real, c: real)
    requires a <= b && c >= 0.0
    ensures a * c <= b * c && c * a <= c * b
  {
  }

  /** More views never project fewer clicks, conversions or revenue. */
  lemma ProjectionMonotoneInViews(p: Program, v1: int, v2: int, engagement: real)
    requires p.commission >= 0.0 && p.conversionRate >= 0.0 && engagement >= 0.0 && v1 <= v2
    ensures var r1, r2 := CalculateRevenueProjection(p, v1, engagement), CalculateRevenueProjection(p, v2, engagement);
      && r1.estimatedClicks <= r2.estimatedClicks
      && r1.estimatedConversions <= r2.estimatedConversions
      && r1.projectedRevenue <= r2.projectedRevenue
      && r1.dailyRecurring <= r2.dailyRecurring
      && r1.monthlyProjection <= r2.monthlyProjection
  {
    ConversionsMonotone(p, v1, v2, engagement);
    var c1, c2 := Conversions(p, v1, engagement), Conversions(p, v2, engagement);
    var e1, e2 := c1 * p.commission, c2 * p.commission;
    var r1, r2 := Revenue(p, v1, engagement), Revenue(p, v2, engagement);
    MulMonotone(r1, r2, 1.0 / 12.0);
    MulMonotone(e1, e2, 1.0 / 30.0);
    assert r1 / 12.0 <= r2 / 12.0 && e1 / 30.0 <= e2 / 30.0;
    FloorMonotone(v1 as real * ClickThroughRate, v2 as real * ClickThroughRate);
    FloorMonotone(c1, c2);
    FloorMonotone(r1, r2);
    FloorMonotone(r1 / 12.0, r2 / 12.0);
    FloorMonotone(e1 / 30.0, e2 / 30.0);
  }

  /** Clicks, conversions, commissions and revenue before rounding grow with the views. */
  lemma ConversionsMonotone(p: Program, v1: int, v2: int, engagement: real)
    requires p.commission >= 0.0 && p.conversionRate >= 0.0 && engagement >= 0.0 && v1 <= v2
    ensures v1 as real * ClickThroughRate <= v2 as real * ClickThroughRate
    ensures Conversions(p, v1, engagement) <= Conversions(p, v2, engagement)
    ensures Conversions(p, v1, engagement) * p.commission <= Conversions(p, v2, engagement) * p.commission
    ensures Revenue(p, v1, engagement) <= Revenue(p, v2, engagement)
  {
    var rate := p.conversionRate * EngagementMultiplier(engagement);
    MulMonotone(0.0, p.conversionRate, EngagementMultiplier(engagement));
    MulMonotone(v1 as real, v2 as real, ClickThroughRate);
    MulMonotone(v1 as real * ClickThroughRate, v2 as real * ClickThroughRate, rate);
    var c1, c2 := Conversions(p, v1, engagement), Conversions(p, v2, engagement);
    MulMonotone(c1, c2, p.commission);
    MulMonotone(c1 * p.commission, c2 * p.commission, 12.0);
  }

  /**
   * A recurring program's projected revenue is twelve months of commissions: the
   * monthly projection is one month's, and thirty daily shares fit within it.
   */
  lemma RecurringProjection(p: Program, views: int, engagement: real)
    requires p.recurring
    ensures var r := CalculateRevenueProjection(p, views, engagement);
      && r.projectedRevenue == (Conversions(p, views, engagement) * p.commission * 12.0).Floor
      && r.monthlyProjection == (Conversions(p, views, engagement) * p.commission).Floor
      && r.projectedRevenue >= 12 * r.monthlyProjection
      && 30 * r.dailyRecurring <= r.monthlyProjection
  {
    var x := Conversions(p, views, engagement) * p.commission;
    assert Revenue(p, views, engagement) / 12.0 == x;
    assert (12 * x.Floor) as real <= 12.0 * x;
    var d := (x / 30.0).Floor;
    assert (30 * d) as real <= x;
  }

  /** A one-time program has no daily recurring share and a monthly twelfth of its revenue. */
  lemma OneTimeProjection(p: Program, views: int, engagement: real)
    requires !p.recurring
    ensures var r := CalculateRevenueProjection(p, views, engagement);
      && r.dailyRecurring == 0
      && r.projectedRevenue == (Conversions(p, views, engagement) * p.commission).Floor
      && 12 * r.monthlyProjection <= r.projectedRevenue
      && r.projectedRevenue < 12 * (r.monthlyProjection + 1)
  {
    var x := Conversions(p, views, engagement) * p.commission;
    var m := (x / 12.0).Floor;
    assert (12 * m) as real <= x;
  }
}
