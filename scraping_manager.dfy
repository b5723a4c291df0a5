/**
 * `ScrapingManager` (ScrapingManager.ts): a fixed list of scraping services used
 * round-robin through the persistent `currentServiceIndex`, with retry on failure
 * and threshold filters on the results. What each service's `isAvailable` answers
 * and what each scrape call returns are inputs.
 */
module ScrapingManager {
  import opened Wrappers

  /** The answer of a service's `isAvailable()` probe. */
  datatype Availability = Available | Unavailable | Throws

  datatype Platform = YouTube | Instagram | TikTok

  /** The fields of a ScrapingResult the manager reads. */
  datatype Item = Item(id: string, viewCount: int, likeCount: int)

  const MinViews: int := 500000
  const MinLikes: int := 10000

  /** The filter applied to one platform's results. */
  predicate Passes(p: Platform, x: Item) {
    if p == Instagram then x.likeCount >= MinLikes else x.viewCount >= MinViews
  }

  function Keep(p: Platform, xs: seq<Item>): (r: seq<Item>)
    ensures |r| <= |xs|
  {
    if xs == [] then [] else (if Passes(p, xs[0]) then [xs[0]] else []) + Keep(p, xs[1..])
  }

  /** Kept results pass the threshold, and every result that passes is kept. */
  lemma {:induction false} KeepIsExact(p: Platform, xs: seq<Item>)
    ensures forall x :: x in Keep(p, xs) <==> x in xs && Passes(p, x)
  {
    if xs != [] {
      KeepIsExact(p, xs[1..]);
      assert xs == [xs[0]] + xs[1..];
    }
  }

  /** Filtering preserves order: it distributes over concatenation. */
  lemma {:induction false} KeepDistributes(p: Platform, xs: seq<Item>, ys: seq<Item>)
    ensures Keep(p, xs + ys) == Keep(p, xs) + Keep(p, ys)
  {
    if xs == [] {
      assert xs + ys == ys;
    } else {
      var zs := xs + ys;
      var head := if Passes(p, xs[0]) then [xs[0]] else [];
      assert zs[0] == xs[0] && zs[1..] == xs[1..] + ys;
      assert Keep(p, zs) == head + Keep(p, xs[1..] + ys);
      KeepDistributes(p, xs[1..], ys);
      assert head + (Keep(p, xs[1..]) + Keep(p, ys)) == (head + Keep(p, xs[1..])) + Keep(p, ys);
    }
  }

  function NoServicesMessage(p: Platform): string {
    match p
    case YouTube => "No YouTube scraping services available"
    case Instagram => "No Instagram scraping services available"
    case TikTok => "No TikTok scraping services available"
  }

  // ---------------------------------------------------------------- the cyclic scan

  /** The index d steps after `start` in a cyclic list of n services. */
  function Pos(start: nat, d: nat, n: nat): (i: nat)
    requires start < n && d < n
    ensures i < n
  {
    if start + d < n then start + d else start + d - n
  }

  /** Advancing the index with `(i + 1) % length` moves one step along the cycle. */
  lemma Advance(start: nat, d: nat, n: nat)
    requires start < n && d < n
    ensures (Pos(start, d, n) + 1) % n == if d + 1 < n then Pos(start, d + 1, n) else start
  {
  }

  /** The indices probed from `start`, in order, after d steps. */
  function Rotation(start: nat, n: nat, d: nat): (r: seq<nat>)
    requires start < n && d <= n
    ensures |r| == d && forall k :: 0 <= k < d ==> r[k] == Pos(start, k, n)
  {
    if d == 0 then [] else Rotation(start, n, d - 1) + [Pos(start, d - 1, n)]
  }

  /**
   * The first available service met when probing cyclically from `start`, having
   * already probed d services without success.
   */
  function Scan(avail: seq<Availability>, start: nat, d: nat): (r: Option<nat>)
    requires start < |avail| && d <= |avail|
    ensures r.Some? ==> r.value < |avail|
    decreases |avail| - d
  {
    if d == |avail| then None
    else if avail[Pos(start, d, |avail|)] == Available then Some(Pos(start, d, |avail|))
    else Scan(avail, start, d + 1)
  }

  ghost predicate NoneAvailableBetween(avail: seq<Availability>, start: nat, d: nat, e: nat)
    requires start < |avail| && d <= e <= |avail|
  {
    forall e' :: d <= e' < e ==> avail[Pos(start, e', |avail|)] != Available
  }

  /**
   * Scan finds the first available service in cyclic order: it is available and
   * every service probed before it is not; None means no service is available.
   */
  lemma {:induction false} ScanIsFirstAvailable(avail: seq<Availability>, start: nat, d: nat)
    requires start < |avail| && d <= |avail|
    ensures Scan(avail, start, d).None? <==> NoneAvailableBetween(avail, start, d, |avail|)
    ensures Scan(avail, start, d).Some? ==>
      exists e :: d <= e < |avail| && Scan(avail, start, d).value == Pos(start, e, |avail|)
        && avail[Pos(start, e, |avail|)] == Available && NoneAvailableBetween(avail, start, d, e)
    decreases |avail| - d
  {
    if d < |avail| && avail[Pos(start, d, |avail|)] != Available {
      ScanIsFirstAvailable(avail, start, d + 1);
      if Scan(avail, start, d).Some? {
        var e :| d + 1 <= e < |avail| && Scan(avail, start, d).value == Pos(start, e, |avail|)
          && avail[Pos(start, e, |avail|)] == Available && NoneAvailableBetween(avail, start, d + 1, e);
        assert NoneAvailableBetween(avail, start, d, e);
      }
    } else if d < |avail| {
      assert NoneAvailableBetween(avail, start, d, d);
    }
  }

  /** A full rotation probes every service exactly once. */
  lemma RotationCoversAll(start: nat, n: nat)
    requires start < n
    ensures forall a, b :: 0 <= a < b < n ==> Rotation(start, n, n)[a] != Rotation(start, n, n)[b]
    ensures forall j :: 0 <= j < n ==> j in Rotation(start, n, n)
  {
    var r := Rotation(start, n, n);
    forall j | 0 <= j < n ensures j in r {
      var k := if j >= start then j - start else j + n - start;
      assert r[k] == j;
    }
  }

  /** A service whose probe throws is skipped exactly like an unavailable one. */
  lemma {:induction false} ThrowingIsUnavailable(avail: seq<Availability>, j: nat, start: nat, d: nat)
    requires start < |avail| && d <= |avail| && j < |avail|
    ensures Scan(avail[j := Throws], start, d) == Scan(avail[j := Unavailable], start, d)
    decreases |avail| - d
  {
    if d < |avail| {
      ThrowingIsUnavailable(avail, j, start, d + 1);
    }
  }

  // ---------------------------------------------------------------- scraping with retry

  datatype ScrapeOutcome =
    | Scraped(results: seq<Item>)       // the filtered results of a successful call
    | NoServices(message: string)        // getNextAvailableService found nothing
    | ScrapeFailed                       // the index wrapped to 0: the error is rethrown
    | OutOfAttempts                      // the attempt bound of the model was reached

  datatype Scrape = Scrape(outcome: ScrapeOutcome, index: nat)

  /**
   * One scrapeYouTube / scrapeInstagram / scrapeTikTok call with the service index
   * at `index`. `calls[k]` is what the k-th scrape call returns (None when it
   * throws); when the list runs out the model stops with OutOfAttempts, since the
   * source's retry recursion need not end.
   */
  function ScrapeFrom(p: Platform, avail: seq<Availability>, index: nat, calls: seq<Option<seq<Item>>>): (r: Scrape)
    requires index < |avail|
    ensures r.index < |avail|
    decreases |calls|
  {
    match Scan(avail, index, 0)
    case None => Scrape(NoServices(NoServicesMessage(p)), index)
    case Some(s) =>
      if calls == [] then Scrape(OutOfAttempts, s)
      else match calls[0]
        case Some(results) => Scrape(Scraped(Keep(p, results)), s)
        case None =>
          var next := (s + 1) % |avail|;
          if next != 0 then ScrapeFrom(p, avail, next, calls[1..]) else Scrape(ScrapeFailed, next)
  }

  /** Every result a scrape returns passes the platform's threshold. */
  lemma {:induction false} ScrapedPassThreshold(p: Platform, avail: seq<Availability>, index: nat,
                                                calls: seq<Option<seq<Item>>>)
    requires index < |avail|
    ensures var r := ScrapeFrom(p, avail, index, calls);
      r.outcome.Scraped? ==> forall x :: x in r.outcome.results ==> Passes(p, x)
    decreases |calls|
  {
    var s := Scan(avail, index, 0);
    if s.Some? && calls != [] {
      match calls[0]
      case Some(results) => KeepIsExact(p, results);
      case None =>
        var next := (s.value + 1) % |avail|;
        if next != 0 {
          ScrapedPassThreshold(p, avail, next, calls[1..]);
        }
    }
  }

  /** One failed call on service s moves the index to the next one and retries there. */
  lemma FailedCall(p: Platform, avail: seq<Availability>, index: nat, s: nat, calls: seq<Option<seq<Item>>>)
    requires index < |avail| && Scan(avail, index, 0) == Some(s)
    requires calls != [] && calls[0] == None && (s + 1) % |avail| != 0
    ensures ScrapeFrom(p, avail, index, calls) == ScrapeFrom(p, avail, (s + 1) % |avail|, calls[1..])
  {
  }

  /**
   * When some service at or after `index` is available, the scan stops at the first
   * one, before wrapping past the end of the list.
   */
  lemma ScanForward(avail: seq<Availability>, index: nat, j: nat) returns (s: nat)
    requires index <= j < |avail| && avail[j] == Available
    ensures Scan(avail, index, 0) == Some(s)
    ensures index <= s <= j && avail[s] == Available
    ensures forall m :: index <= m < s ==> avail[m] != Available
  {
    var n := |avail|;
    ScanIsFirstAvailable(avail, index, 0);
    assert Pos(index, j - index, n) == j;
    assert !NoneAvailableBetween(avail, index, 0, n);
    var e :| 0 <= e < n && Scan(avail, index, 0).value == Pos(index, e, n)
      && avail[Pos(index, e, n)] == Available && NoneAvailableBetween(avail, index, 0, e);
    s := index + e;
    forall m | index <= m < s ensures avail[m] != Available {
      assert Pos(index, m - index, n) == m;
    }
  }

  /** Some service is available exactly when the scan from any index finds one, which is available. */
  lemma ScanFindsAvailable(avail: seq<Availability>, index: nat)
    requires index < |avail|
    ensures Scan(avail, index, 0).None? <==> forall j :: 0 <= j < |avail| ==> avail[j] != Available
    ensures Scan(avail, index, 0).Some? ==> avail[Scan(avail, index, 0).value] == Available
  {
    var n := |avail|;
    ScanIsFirstAvailable(avail, index, 0);
    if Scan(avail, index, 0).None? {
      forall j | 0 <= j < n ensures avail[j] != Available {
        var d := if j >= index then j - index else j + n - index;
        assert Pos(index, d, n) == j;
      }
    }
  }

  /**
   * When the last service is available and each call fails, the retry moves through
   * the available services after the index in list order and rethrows when the
   * index wraps to 0 after the last one.
   */
  lemma {:induction false} FailuresRethrowAtWrap(p: Platform, avail: seq<Availability>, index: nat,
                                                 calls: seq<Option<seq<Item>>>)
    requires index < |avail| && avail[|avail| - 1] == Available
    requires |calls| >= |avail| - index && forall j :: 0 <= j < |calls| ==> calls[j] == None
    ensures ScrapeFrom(p, avail, index, calls) == Scrape(ScrapeFailed, 0)
    decreases |avail| - index
  {
    var n := |avail|;
    var s := FailureStep(p, avail, index, calls);
    if s + 1 < n {
      FailuresRethrowAtWrap(p, avail, s + 1, calls[1..]);
    }
  }

  /**
   * A failed call moves from the first available service s at or after `index` to
   * s + 1, or rethrows when s is the last service.
   */
  lemma FailureStep(p: Platform, avail: seq<Availability>, index: nat, calls: seq<Option<seq<Item>>>) returns (s: nat)
    requires index < |avail| && avail[|avail| - 1] == Available
    requires calls != [] && calls[0] == None
    ensures index <= s < |avail|
    ensures s + 1 < |avail| ==> ScrapeFrom(p, avail, index, calls) == ScrapeFrom(p, avail, s + 1, calls[1..])
    ensures s + 1 == |avail| ==> ScrapeFrom(p, avail, index, calls) == Scrape(ScrapeFailed, 0)
  {
    var n := |avail|;
    s := ScanForward(avail, index, n - 1);
    if s + 1 < n {
      assert (s + 1) % n == s + 1;
    } else {
      assert (s + 1) % n == 0;
    }
  }

  /**
   * When the last service is not available and each call fails, the index never
   * wraps to 0 at a failure, so the error is never rethrown: the retry goes on for as
   * many calls as are given, unless no service is available at all.
   */
  lemma {:induction false} FailuresNeverRethrowWithoutLast(p: Platform, avail: seq<Availability>, index: nat,
                                                           calls: seq<Option<seq<Item>>>)
    requires index < |avail| && avail[|avail| - 1] != Available
    requires forall j :: 0 <= j < |calls| ==> calls[j] == None
    ensures (exists j :: 0 <= j < |avail| && avail[j] == Available) ==>
      ScrapeFrom(p, avail, index, calls).outcome == OutOfAttempts
    ensures (forall j :: 0 <= j < |avail| ==> avail[j] != Available) ==>
      ScrapeFrom(p, avail, index, calls).outcome == NoServices(NoServicesMessage(p))
    decreases |calls|
  {
    var n := |avail|;
    ScanFindsAvailable(avail, index);
    if Scan(avail, index, 0).Some? && calls != [] {
      var s := Scan(avail, index, 0).value;
      assert s != n - 1 && (s + 1) % n == s + 1;
      assert calls[0] == None;
      FailedCall(p, avail, index, s, calls);
      FailuresNeverRethrowWithoutLast(p, avail, s + 1, calls[1..]);
    }
  }

  /**
   * With some service available and enough calls that all fail, the request rethrows
   * exactly when the last service of the list is available.
   */
  lemma AllFailuresRethrowIff(p: Platform, avail: seq<Availability>, index: nat, calls: seq<Option<seq<Item>>>)
    requires index < |avail| && exists j :: 0 <= j < |avail| && avail[j] == Available
    requires |calls| >= |avail| && forall j :: 0 <= j < |calls| ==> calls[j] == None
    ensures ScrapeFrom(p, avail, index, calls).outcome == ScrapeFailed <==> avail[|avail| - 1] == Available
  {
    if avail[|avail| - 1] == Available {
      FailuresRethrowAtWrap(p, avail, index, calls);
    } else {
      FailuresNeverRethrowWithoutLast(p, avail, index, calls);
    }
  }

  /** The services of the non-terminating case: the last one is unavailable. */
  function LastUnavailable(): seq<Availability> {
    [Available, Available, Available, Available, Unavailable]
  }

  lemma LastUnavailableScans()
    ensures forall i :: 0 <= i < 4 ==> Scan(LastUnavailable(), i, 0) == Some(i)
    ensures Scan(LastUnavailable(), 4, 0) == Some(0)
  {
    assert Scan(LastUnavailable(), 4, 1) == Some(0);
  }

  lemma {:induction false} LastUnavailableCycle(p: Platform, rest: seq<Option<seq<Item>>>)
    ensures ScrapeFrom(p, LastUnavailable(), 0, [None, None, None, None] + rest)
         == ScrapeFrom(p, LastUnavailable(), 0, rest)
  {
    var avail := LastUnavailable();
    var calls := [None, None, None, None] + rest;
    LastUnavailableScans();
    FailedCall(p, avail, 0, 0, calls);
    FailedCall(p, avail, 1, 1, calls[1..]);
    assert calls[1..][1..] == calls[2..];
    FailedCall(p, avail, 2, 2, calls[2..]);
    assert calls[2..][1..] == calls[3..];
    FailedCall(p, avail, 3, 3, calls[3..]);
    assert calls[3..][1..] == rest;
  }

  /**
   * On that list, whatever the number of calls, failing calls never rethrow: the
   * retry runs out of the calls given.
   */
  lemma FailuresNeverRethrow(p: Platform, n: nat)
    ensures ScrapeFrom(p, LastUnavailable(), 0, seq(n, _ => None)).outcome == OutOfAttempts
  {
    assert LastUnavailable()[0] == Available;
    FailuresNeverRethrowWithoutLast(p, LastUnavailable(), 0, seq(n, _ => None));
  }

  // ---------------------------------------------------------------- service status

  /** What probing one service for getServiceStatus yields. */
  datatype Probe = Answered(available: bool, remainingQuota: int) | ProbeThrows(message: string)

  datatype ServiceState = Active | Inactive | Errored

  datatype ServiceStatus = ServiceStatus(
    name: string,
    available: bool,
    remainingQuota: int,
    status: ServiceState,
    error: Option<string>)

  function StatusOf(name: string, probe: Probe): (r: ServiceStatus)
    ensures r.name == name
    ensures r.status == Active <==> probe.Answered? && probe.available
    ensures r.status == Errored <==> probe.ProbeThrows?
    ensures r.status == Errored ==> !r.available && r.remainingQuota == 0
    ensures r.available == (r.status == Active)
    ensures probe.Answered? ==> r.remainingQuota == probe.remainingQuota && r.error.None?
    ensures probe.ProbeThrows? ==> r.error == Some(probe.message)
  {
    match probe
    case Answered(available, quota) =>
      ServiceStatus(name, available, quota, if available then Active else Inactive, None)
    case ProbeThrows(message) => ServiceStatus(name, false, 0, Errored, Some(message))
  }

  const ServiceNames: seq<string> := ["Apify", "Puppeteer", "Playwright", "Public APIs", "Cheerio Web Scraper"]

  class ScrapingManager {
    const names: seq<string>
    var currentServiceIndex: nat

    ghost predicate Valid()
      reads this
    {
      |names| > 0 && currentServiceIndex < |names|
    }

    constructor ()
      ensures Valid() && names == ServiceNames && currentServiceIndex == 0
    {
      names := ServiceNames;
      currentServiceIndex := 0;
    }

    /**
     * getNextAvailableService: probe from the current index onwards, cyclically,
     * and stop at the first available service, leaving the index on it; when the
     * scan comes back to its start, return nothing.
     */
    method GetNextAvailableService(avail: seq<Availability>) returns (service: Option<nat>, ghost probed: seq<nat>)
      requires Valid() && |avail| == |names|
      modifies this
      ensures Valid()
      ensures service == Scan(avail, old(currentServiceIndex), 0)
      ensures service.Some? ==> currentServiceIndex == service.value
      ensures service.None? ==> currentServiceIndex == old(currentServiceIndex)
      ensures |probed| <= |names| && probed == Rotation(old(currentServiceIndex), |names|, |probed|)
      ensures service.None? ==> |probed| == |names|
    {
      var n := |names|;
      var start := currentServiceIndex;
      ghost var d: nat := 0;
      probed := [];
      while true
        invariant d < n && currentServiceIndex == Pos(start, d, n)
        invariant Scan(avail, start, 0) == Scan(avail, start, d)
        invariant probed == Rotation(start, n, d)
        decreases n - d
      {
        probed := probed + [currentServiceIndex];
        if avail[currentServiceIndex] == Available {
          return Some(currentServiceIndex), probed;
        }
        Advance(start, d, n);
        currentServiceIndex := (currentServiceIndex + 1) % n;
        d := d + 1;
        if currentServiceIndex == start {
          if d < n {
            assert Pos(start, d, n) != start;
          }
          return None, probed;
        }
      }
    }

    /** scrapeYouTube / scrapeInstagram / scrapeTikTok, with the attempt bound of ScrapeFrom. */
    method ScrapePlatform(p: Platform, avail: seq<Availability>, calls: seq<Option<seq<Item>>>)
      returns (outcome: ScrapeOutcome)
      requires Valid() && |avail| == |names|
      modifies this
      ensures Valid()
      ensures Scrape(outcome, currentServiceIndex) == ScrapeFrom(p, avail, old(currentServiceIndex), calls)
      decreases |calls|
    {
      var service, _ := GetNextAvailableService(avail);
      if service.None? {
        return NoServices(NoServicesMessage(p));
      }
      if calls == [] {
        return OutOfAttempts;
      }
      match calls[0]
      case Some(results) =>
        outcome := Scraped(Keep(p, results));
      case None =>
        currentServiceIndex := (currentServiceIndex + 1) % |names|;
        if currentServiceIndex != 0 {
          outcome := ScrapePlatform(p, avail, calls[1..]);
        } else {
          outcome := ScrapeFailed;
        }
    }

    /** getServiceStatus: one entry per service, in service order. */
    method GetServiceStatus(probes: seq<Probe>) returns (status: seq<ServiceStatus>)
      requires |probes| == |names|
      ensures |status| == |names|
      ensures forall j :: 0 <= j < |names| ==> status[j] == StatusOf(names[j], probes[j])
    {
      status := [];
      for j := 0 to |names|
        invariant |status| == j
        invariant forall i :: 0 <= i < j ==> status[i] == StatusOf(names[i], probes[i])
      {
        status := status + [StatusOf(names[j], probes[j])];
      }
    }
  }
}
