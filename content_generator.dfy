/**
 * The generation-provider catalog of server.js (`AI_PROVIDERS`) and the quota and
 * failover logic of `AIContentGenerator`: picking a provider by priority and
 * remaining quota, recycling all quotas when every provider is exhausted, charging
 * a successful generation, marking a failed provider exhausted and retrying with a
 * different one, and the midnight reset of all usage counters.
 */
module ContentGenerator {
  import opened Wrappers

  /** The two media types the catalog holds. */
  datatype MediaType = Video | Image

  function Other(t: MediaType): MediaType {
    match t
    case Video => Image
    case Image => Video
  }

  /** One catalog entry; `hasKey` stands for a truthy `apiKey`. */
  datatype Provider = Provider(
    name: string,
    priority: int,
    dailyLimit: int,
    currentUsage: int,
    active: bool,
    hasKey: bool)

  /** The filter of getAvailableProvider: active and configured with a key. */
  predicate Eligible(p: Provider) {
    p.active && p.hasKey
  }

  predicate HasQuota(p: Provider) {
    p.currentUsage < p.dailyLimit
  }

  /**
   * Provider i comes before provider j in the order the stable sort by ascending
   * priority produces from declaration order: lower priority first, and on equal
   * priority the one declared first.
   */
  predicate Precedes(ps: seq<Provider>, i: nat, j: nat)
    requires i < |ps| && j < |ps|
  {
    ps[i].priority < ps[j].priority || (ps[i].priority == ps[j].priority && i < j)
  }

  predicate InRange(ps: seq<Provider>, idx: seq<nat>) {
    forall m :: 0 <= m < |idx| ==> idx[m] < |ps|
  }

  predicate SortedByPriority(ps: seq<Provider>, idx: seq<nat>)
    requires InRange(ps, idx)
  {
    forall a, b :: 0 <= a < b < |idx| ==> Precedes(ps, idx[a], idx[b])
  }

  /** Indices of the eligible providers among ps[k..], in declaration order. */
  function EligibleFrom(ps: seq<Provider>, k: nat): (r: seq<nat>)
    requires k <= |ps|
    ensures forall m :: 0 <= m < |r| ==> k <= r[m] < |ps| && Eligible(ps[r[m]])
    ensures forall j :: k <= j < |ps| && Eligible(ps[j]) ==> j in r
    ensures forall a, b :: 0 <= a < b < |r| ==> r[a] < r[b]
    decreases |ps| - k
  {
    if k == |ps| then []
    else if Eligible(ps[k]) then [k] + EligibleFrom(ps, k + 1)
    else EligibleFrom(ps, k + 1)
  }

  /** Inserts index i into an index list sorted by priority. */
  function InsertByPriority(ps: seq<Provider>, i: nat, sorted: seq<nat>): (r: seq<nat>)
    requires i < |ps| && InRange(ps, sorted)
    ensures InRange(ps, r) && |r| == |sorted| + 1
    ensures forall x :: x in r <==> x == i || x in sorted
  {
    if sorted == [] then [i]
    else if Precedes(ps, i, sorted[0]) then [i] + sorted
    else
      var r := InsertByPriority(ps, i, sorted[1..]);
      assert forall x :: x in sorted[1..] ==> x in sorted;
      [sorted[0]] + r
  }

  lemma {:induction false} InsertKeepsSorted(ps: seq<Provider>, i: nat, sorted: seq<nat>)
    requires i < |ps| && InRange(ps, sorted)
    requires SortedByPriority(ps, sorted) && i !in sorted
    ensures SortedByPriority(ps, InsertByPriority(ps, i, sorted))
  {
    if sorted != [] && !Precedes(ps, i, sorted[0]) {
      var tail := sorted[1..];
      assert SortedByPriority(ps, tail);
      assert forall x :: x in tail ==> Precedes(ps, sorted[0], x);
      InsertKeepsSorted(ps, i, tail);
      var r := InsertByPriority(ps, i, tail);
      assert forall x :: x in r ==> Precedes(ps, sorted[0], x);
    }
  }

  /** Insertion sort of an index list by priority (the `sort` call at server.js:376). */
  function SortByPriority(ps: seq<Provider>, idx: seq<nat>): (r: seq<nat>)
    requires InRange(ps, idx)
    ensures InRange(ps, r) && |r| == |idx|
    ensures forall x :: x in r <==> x in idx
  {
    if idx == [] then []
    else InsertByPriority(ps, idx[0], SortByPriority(ps, idx[1..]))
  }

  /** A list of distinct indices comes out sorted by priority. */
  lemma {:induction false} SortIsSorted(ps: seq<Provider>, idx: seq<nat>)
    requires InRange(ps, idx)
    requires forall a, b :: 0 <= a < b < |idx| ==> idx[a] != idx[b]
    ensures SortedByPriority(ps, SortByPriority(ps, idx))
  {
    if idx != [] {
      assert forall a, b :: 0 <= a < b < |idx| - 1 ==> idx[1..][a] == idx[a + 1] && idx[1..][b] == idx[b + 1];
      SortIsSorted(ps, idx[1..]);
      assert idx[0] !in idx[1..];
      InsertKeepsSorted(ps, idx[0], SortByPriority(ps, idx[1..]));
    }
  }

  /** The eligible providers, ordered by priority: the list getAvailableProvider scans. */
  function PriorityOrder(ps: seq<Provider>): (r: seq<nat>)
    ensures InRange(ps, r) && SortedByPriority(ps, r)
    ensures forall j :: 0 <= j < |ps| ==> (j in r <==> Eligible(ps[j]))
  {
    SortIsSorted(ps, EligibleFrom(ps, 0));
    SortByPriority(ps, EligibleFrom(ps, 0))
  }

  /** The first provider of `order` that still has quota. */
  function FirstWithQuota(ps: seq<Provider>, order: seq<nat>): (r: Option<nat>)
    requires InRange(ps, order)
    ensures r.Some? ==> r.value in order && HasQuota(ps[r.value])
  {
    if order == [] then None
    else if HasQuota(ps[order[0]]) then Some(order[0])
    else FirstWithQuota(ps, order[1..])
  }

  /** The usage counters of the eligible providers set back to 0 (server.js:386). */
  function ResetEligible(ps: seq<Provider>): (r: seq<Provider>)
    ensures |r| == |ps|
    ensures forall j :: 0 <= j < |ps| ==> r[j] == if Eligible(ps[j]) then ps[j].(currentUsage := 0) else ps[j]
  {
    if ps == [] then []
    else [if Eligible(ps[0]) then ps[0].(currentUsage := 0) else ps[0]] + ResetEligible(ps[1..])
  }

  /** Eligible, and with quota left when `withQuota` holds. */
  predicate Qualifies(p: Provider, withQuota: bool) {
    Eligible(p) && (withQuota ==> HasQuota(p))
  }

  /**
   * Reference definition of "the first provider by priority": the index j >= k of a
   * qualifying provider that precedes every other qualifying one, found without sorting.
   */
  function Best(ps: seq<Provider>, k: nat, withQuota: bool): (r: Option<nat>)
    requires k <= |ps|
    ensures r.Some? ==> k <= r.value < |ps|
    decreases |ps| - k
  {
    if k == |ps| then None
    else
      var rest := Best(ps, k + 1, withQuota);
      if !Qualifies(ps[k], withQuota) then rest
      else if rest.None? || ps[k].priority <= ps[rest.value].priority then Some(k)
      else rest
  }

  /** What getAvailableProvider returns (an index into the catalog) and the catalog afterwards. */
  datatype Selection = Selection(choice: Option<nat>, after: seq<Provider>)

  /**
   * getAvailableProvider as a function: the first eligible provider with quota; when
   * there is none, all eligible providers recycled and the first eligible one.
   */
  function Select(ps: seq<Provider>): (r: Selection)
    ensures |r.after| == |ps|
    ensures r.choice.Some? ==> r.choice.value < |ps|
  {
    match Best(ps, 0, true)
    case Some(i) => Selection(Some(i), ps)
    case None => Selection(Best(ps, 0, false), ResetEligible(ps))
  }

  /**
   * i is the first provider by priority among the eligible ones, restricted to
   * those with quota left when `withQuota` holds.
   */
  ghost predicate FirstByPriority(ps: seq<Provider>, i: nat, withQuota: bool) {
    && i < |ps| && Qualifies(ps[i], withQuota)
    && forall j :: 0 <= j < |ps| && j != i && Qualifies(ps[j], withQuota) ==> Precedes(ps, i, j)
  }

  ghost predicate SomeQualifies(ps: seq<Provider>, withQuota: bool) {
    exists j :: 0 <= j < |ps| && Qualifies(ps[j], withQuota)
  }

  ghost predicate SomeEligibleWithQuota(ps: seq<Provider>) {
    SomeQualifies(ps, true)
  }

  ghost predicate SomeEligible(ps: seq<Provider>) {
    SomeQualifies(ps, false)
  }

  lemma {:induction false} BestFromIsFirst(ps: seq<Provider>, k: nat, withQuota: bool)
    requires k <= |ps|
    ensures Best(ps, k, withQuota).None? ==> forall j :: k <= j < |ps| ==> !Qualifies(ps[j], withQuota)
    ensures Best(ps, k, withQuota).Some? ==>
      var i := Best(ps, k, withQuota).value;
      Qualifies(ps[i], withQuota) &&
      forall j :: k <= j < |ps| && j != i && Qualifies(ps[j], withQuota) ==> Precedes(ps, i, j)
    decreases |ps| - k
  {
    if k < |ps| {
      BestFromIsFirst(ps, k + 1, withQuota);
    }
  }

  /** Best finds exactly the first qualifying provider by priority, and nothing when none qualifies. */
  lemma BestIsFirst(ps: seq<Provider>, withQuota: bool)
    ensures Best(ps, 0, withQuota).None? <==> !SomeQualifies(ps, withQuota)
    ensures Best(ps, 0, withQuota).Some? ==> FirstByPriority(ps, Best(ps, 0, withQuota).value, withQuota)
  {
    BestFromIsFirst(ps, 0, withQuota);
  }

  lemma FirstByPriorityUnique(ps: seq<Provider>, i: nat, j: nat, withQuota: bool)
    requires FirstByPriority(ps, i, withQuota) && FirstByPriority(ps, j, withQuota)
    ensures i == j
  {
  }

  lemma {:induction false} FirstWithQuotaIsEarliest(ps: seq<Provider>, order: seq<nat>)
    requires InRange(ps, order)
    ensures FirstWithQuota(ps, order).None? ==> forall m :: 0 <= m < |order| ==> !HasQuota(ps[order[m]])
    ensures FirstWithQuota(ps, order).Some? ==>
      exists k :: 0 <= k < |order| && order[k] == FirstWithQuota(ps, order).value &&
        forall m :: 0 <= m < k ==> !HasQuota(ps[order[m]])
  {
    if order != [] && !HasQuota(ps[order[0]]) {
      FirstWithQuotaIsEarliest(ps, order[1..]);
      if FirstWithQuota(ps, order[1..]).Some? {
        var k :| 0 <= k < |order[1..]| && order[1..][k] == FirstWithQuota(ps, order[1..]).value &&
          forall m :: 0 <= m < k ==> !HasQuota(ps[order[1..][m]]);
        assert order[k + 1] == FirstWithQuota(ps, order).value;
        forall m | 0 <= m < k + 1 ensures !HasQuota(ps[order[m]]) {
          if m > 0 { assert order[m] == order[1..][m - 1]; }
        }
      }
    } else if order != [] {
      assert order[0] == FirstWithQuota(ps, order).value;
    }
  }

  /**
   * The source's scan (filter, stable sort by priority, first with quota) agrees
   * with the reference definition `Best`.
   */
  lemma ScanAgreesWithBest(ps: seq<Provider>)
    ensures FirstWithQuota(ps, PriorityOrder(ps)) == Best(ps, 0, true)
  {
    var order := PriorityOrder(ps);
    BestIsFirst(ps, true);
    FirstWithQuotaIsEarliest(ps, order);
    match FirstWithQuota(ps, order)
    case Some(i) =>
      var k :| 0 <= k < |order| && order[k] == i && forall m :: 0 <= m < k ==> !HasQuota(ps[order[m]]);
      forall j | 0 <= j < |ps| && j != i && Qualifies(ps[j], true) ensures Precedes(ps, i, j) {
        var m :| 0 <= m < |order| && order[m] == j;
        assert m != k && !(m < k);
      }
      assert Qualifies(ps[i], true);
      FirstByPriorityUnique(ps, i, Best(ps, 0, true).value, true);
    case None =>
      forall j | 0 <= j < |ps| && Eligible(ps[j]) ensures !HasQuota(ps[j]) {
        var m :| 0 <= m < |order| && order[m] == j;
      }
  }

  /** The fallback (the head of the sorted eligible list) is the reference `Best` without the quota test. */
  lemma HeadAgreesWithBest(ps: seq<Provider>)
    ensures (if PriorityOrder(ps) == [] then None else Some(PriorityOrder(ps)[0])) == Best(ps, 0, false)
  {
    var order := PriorityOrder(ps);
    BestIsFirst(ps, false);
    if order != [] {
      var i := order[0];
      forall j | 0 <= j < |ps| && j != i && Qualifies(ps[j], false) ensures Precedes(ps, i, j) {
        var m :| 0 <= m < |order| && order[m] == j;
      }
      FirstByPriorityUnique(ps, i, Best(ps, 0, false).value, false);
    } else {
      forall j | 0 <= j < |ps| ensures !Eligible(ps[j]) {
        assert j !in order;
      }
    }
  }

  /** The `for` loop of getAvailableProvider over the sorted eligible providers. */
  method FindWithQuota(ps: seq<Provider>, order: seq<nat>) returns (r: Option<nat>)
    requires InRange(ps, order)
    ensures r == FirstWithQuota(ps, order)
  {
    var k := 0;
    while k < |order|
      invariant 0 <= k <= |order|
      invariant FirstWithQuota(ps, order) == FirstWithQuota(ps, order[k..])
    {
      assert order[k..][1..] == order[k + 1..];
      if HasQuota(ps[order[k]]) {
        return Some(order[k]);
      }
      k := k + 1;
    }
    return None;
  }

  /**
   * getAvailableProvider when some eligible provider has quota: it returns the first
   * such provider by priority (ties in declaration order) and changes nothing.
   */
  lemma SelectPrefersQuota(ps: seq<Provider>)
    requires SomeEligibleWithQuota(ps)
    ensures Select(ps).choice.Some?
    ensures FirstByPriority(ps, Select(ps).choice.value, true)
    ensures Select(ps).after == ps
  {
    BestIsFirst(ps, true);
  }

  /**
   * getAvailableProvider when no eligible provider has quota: exactly the eligible
   * providers get usage 0, everything else is untouched, and the result is the
   * first eligible provider by priority, or nothing when none is eligible.
   */
  lemma SelectExhausted(ps: seq<Provider>)
    requires !SomeEligibleWithQuota(ps)
    ensures forall j :: 0 <= j < |ps| ==>
      Select(ps).after[j] == if Eligible(ps[j]) then ps[j].(currentUsage := 0) else ps[j]
    ensures Select(ps).choice.None? <==> !SomeEligible(ps)
    ensures Select(ps).choice.Some? ==> FirstByPriority(ps, Select(ps).choice.value, false)
  {
    BestIsFirst(ps, true);
    BestIsFirst(ps, false);
  }

  // ---------------------------------------------------------------------------
  // generateVideoContent / generateImageContent

  /** How one generation request ends. */
  datatype Outcome =
    | Generated(provider: nat)   // a provider produced the media; its index
    | NoProviders                // 'No video providers available' / 'No image providers available'
    | Failed(provider: nat)      // the last provider's error is rethrown
    | OutOfAttempts              // the attempt bound of the model was reached

  function NoProvidersMessage(t: MediaType): string {
    match t
    case Video => "No video providers available"
    case Image => "No image providers available"
  }

  datatype Generation = Generation(outcome: Outcome, after: seq<Provider>)

  /**
   * A generation request against catalog ps. `succeeds[k]` is whether the k-th call
   * to a provider's API succeeds; when the list runs out, the request stops with
   * OutOfAttempts. The source recursion itself has no bound (see RetryCycle).
   */
  function Generate(ps: seq<Provider>, succeeds: seq<bool>): (r: Generation)
    ensures |r.after| == |ps|
    decreases |succeeds|
  {
    var sel := Select(ps);
    if sel.choice.None? then Generation(NoProviders, sel.after)
    else if |succeeds| == 0 then Generation(OutOfAttempts, sel.after)
    else
      var i := sel.choice.value;
      var p := sel.after[i];
      if succeeds[0] then
        Generation(Generated(i), sel.after[i := p.(currentUsage := p.currentUsage + 1)])
      else
        var marked := sel.after[i := p.(currentUsage := p.dailyLimit)];
        var next := Select(marked);
        if next.choice.Some? && next.after[next.choice.value].name != p.name then
          Generate(next.after, succeeds[1..])
        else
          Generation(Failed(i), next.after)
  }

  /**
   * qs differs from ps at most in the usage counters, and only in those of eligible
   * providers.
   */
  ghost predicate UsageOnlyChanges(ps: seq<Provider>, qs: seq<Provider>) {
    |ps| == |qs| &&
    forall j :: 0 <= j < |ps| ==>
      qs[j] == ps[j].(currentUsage := qs[j].currentUsage) && (!Eligible(ps[j]) ==> qs[j] == ps[j])
  }

  lemma UsageOnlyChangesTrans(a: seq<Provider>, b: seq<Provider>, c: seq<Provider>)
    requires UsageOnlyChanges(a, b) && UsageOnlyChanges(b, c)
    ensures UsageOnlyChanges(a, c)
  {
  }

  /** A Generated or Failed outcome names an eligible provider of ps. */
  ghost predicate ReportsEligible(ps: seq<Provider>, o: Outcome) {
    (o.Generated? || o.Failed?) ==> o.provider < |ps| && Eligible(ps[o.provider])
  }

  lemma SelectKeepsConfiguration(ps: seq<Provider>)
    ensures UsageOnlyChanges(ps, Select(ps).after)
    ensures Select(ps).choice.Some? ==> Eligible(ps[Select(ps).choice.value])
  {
    if SomeEligibleWithQuota(ps) { SelectPrefersQuota(ps); } else { SelectExhausted(ps); }
  }

  /**
   * A whole generation request, with all its retries, changes usage counters only,
   * never touches an inactive or keyless provider, and only ever reports an
   * eligible provider.
   */
  lemma {:induction false} GenerateKeepsConfiguration(ps: seq<Provider>, succeeds: seq<bool>)
    ensures UsageOnlyChanges(ps, Generate(ps, succeeds).after)
    ensures ReportsEligible(ps, Generate(ps, succeeds).outcome)
    decreases |succeeds|
  {
    var sel := Select(ps);
    SelectKeepsConfiguration(ps);
    if sel.choice.None? || |succeeds| == 0 {
      assert Generate(ps, succeeds).after == sel.after;
    } else {
      var i := sel.choice.value;
      var p := sel.after[i];
      if succeeds[0] {
        var after := sel.after[i := p.(currentUsage := p.currentUsage + 1)];
        assert Generate(ps, succeeds) == Generation(Generated(i), after);
        assert UsageOnlyChanges(sel.after, after);
        UsageOnlyChangesTrans(ps, sel.after, after);
      } else {
        var marked := sel.after[i := p.(currentUsage := p.dailyLimit)];
        assert UsageOnlyChanges(sel.after, marked);
        UsageOnlyChangesTrans(ps, sel.after, marked);
        var next := Select(marked);
        SelectKeepsConfiguration(marked);
        UsageOnlyChangesTrans(ps, marked, next.after);
        if next.choice.Some? && next.after[next.choice.value].name != p.name {
          assert Generate(ps, succeeds) == Generate(next.after, succeeds[1..]);
          GenerateKeepsConfiguration(next.after, succeeds[1..]);
          UsageOnlyChangesTrans(ps, next.after, Generate(next.after, succeeds[1..]).after);
        } else {
          assert Generate(ps, succeeds) == Generation(Failed(i), next.after);
        }
      }
    }
  }

  /** A request fails with 'No … providers available' exactly when no provider is eligible. */
  lemma {:induction false} GenerateNoProvidersIff(ps: seq<Provider>, succeeds: seq<bool>)
    ensures Generate(ps, succeeds).outcome == NoProviders <==> !SomeEligible(ps)
    decreases |succeeds|
  {
    var sel := Select(ps);
    if SomeEligibleWithQuota(ps) { SelectPrefersQuota(ps); } else { SelectExhausted(ps); }
    if sel.choice.Some? && |succeeds| > 0 && !succeeds[0] {
      var i := sel.choice.value;
      var p := sel.after[i];
      var marked := sel.after[i := p.(currentUsage := p.dailyLimit)];
      var next := Select(marked);
      if next.choice.Some? && next.after[next.choice.value].name != p.name {
        assert Generate(ps, succeeds) == Generate(next.after, succeeds[1..]);
        SelectKeepsConfiguration(ps);
        SelectKeepsConfiguration(marked);
        assert Eligible(next.after[next.choice.value]);
        GenerateNoProvidersIff(next.after, succeeds[1..]);
        assert UsageOnlyChanges(ps, sel.after) && UsageOnlyChanges(sel.after, marked);
        UsageOnlyChangesTrans(ps, sel.after, marked);
        UsageOnlyChangesTrans(ps, marked, next.after);
        var k := next.choice.value;
        assert Eligible(ps[k]);
      }
    }
  }

  /**
   * When the first call succeeds and some eligible provider has quota, the first such
   * provider by priority is charged exactly one request and nothing else changes.
   */
  lemma FirstAttemptSucceeds(ps: seq<Provider>, rest: seq<bool>)
    requires SomeEligibleWithQuota(ps)
    ensures Generate(ps, [true] + rest).outcome.Generated?
    ensures var i := Generate(ps, [true] + rest).outcome.provider;
      FirstByPriority(ps, i, true) &&
      Generate(ps, [true] + rest).after == ps[i := ps[i].(currentUsage := ps[i].currentUsage + 1)]
  {
    SelectPrefersQuota(ps);
  }

  /**
   * A failed call marks its provider exhausted (usage := dailyLimit) before the next
   * selection; the request retries only when that selection yields a provider with a
   * different name, and otherwise rethrows.
   */
  lemma FailureMarksExhausted(ps: seq<Provider>, rest: seq<bool>)
    requires Select(ps).choice.Some?
    ensures var sel := Select(ps);
      var i := sel.choice.value;
      var marked := sel.after[i := sel.after[i].(currentUsage := sel.after[i].dailyLimit)];
      var next := Select(marked);
      && marked[i].currentUsage == marked[i].dailyLimit
      && (forall j :: 0 <= j < |ps| && j != i ==> marked[j] == sel.after[j])
      && (if next.choice.Some? && next.after[next.choice.value].name != sel.after[i].name
          then Generate(ps, [false] + rest) == Generate(next.after, rest)
          else Generate(ps, [false] + rest) == Generation(Failed(i), next.after))
  {
    assert ([false] + rest)[1..] == rest;
  }

  /**
   * A failed call on provider i when another eligible provider still has quota: the
   * next selection is the first provider with quota by priority in the catalog where
   * i is marked exhausted. If its name differs the request carries on from that
   * catalog, so a second call that succeeds is charged to it while i stays at its
   * daily limit; if the names coincide the error is rethrown.
   */
  lemma FailureRetriesNext(ps: seq<Provider>, i: nat, rest: seq<bool>) returns (j: nat)
    requires Select(ps).choice == Some(i)
    requires exists k :: 0 <= k < |ps| && k != i && Qualifies(Select(ps).after[k], true)
    ensures j < |ps| && j != i
    ensures var s := Select(ps).after[i := Select(ps).after[i].(currentUsage := ps[i].dailyLimit)];
      && FirstByPriority(s, j, true)
      && (ps[j].name != ps[i].name ==> Generate(ps, [false] + rest) == Generate(s, rest))
      && (ps[j].name == ps[i].name ==> Generate(ps, [false] + rest) == Generation(Failed(i), s))
      && (ps[j].name != ps[i].name ==>
            Generate(ps, [false, true] + rest) == Generation(Generated(j), s[j := s[j].(currentUsage := s[j].currentUsage + 1)]))
  {
    var sel := Select(ps);
    var s := sel.after[i := sel.after[i].(currentUsage := ps[i].dailyLimit)];
    j := NextAfterMark(ps, i);
    var p := sel.after[i];
    assert s == sel.after[i := p.(currentUsage := p.dailyLimit)];
    assert ([false] + rest)[0] == false && ([false] + rest)[1..] == rest;
    if ps[j].name != ps[i].name {
      assert ([false, true] + rest)[0] == false && ([false, true] + rest)[1..] == [true] + rest;
      assert Generate(ps, [false, true] + rest) == Generate(s, [true] + rest);
      FirstAttemptSucceeds(s, rest);
      FirstByPriorityUnique(s, j, Generate(s, [true] + rest).outcome.provider, true);
    }
  }

  /** The selection after provider i is marked exhausted, when another provider has quota. */
  lemma NextAfterMark(ps: seq<Provider>, i: nat) returns (j: nat)
    requires Select(ps).choice == Some(i)
    requires exists k :: 0 <= k < |ps| && k != i && Qualifies(Select(ps).after[k], true)
    ensures var s := Select(ps).after[i := Select(ps).after[i].(currentUsage := ps[i].dailyLimit)];
      && j < |ps| && j != i && FirstByPriority(s, j, true) && Select(s) == Selection(Some(j), s)
      && s[j].name == ps[j].name && Select(ps).after[i].name == ps[i].name
      && Select(ps).after[i].dailyLimit == ps[i].dailyLimit
  {
    var sel := Select(ps);
    SelectKeepsConfiguration(ps);
    var s := sel.after[i := sel.after[i].(currentUsage := ps[i].dailyLimit)];
    var k :| 0 <= k < |ps| && k != i && Qualifies(sel.after[k], true);
    assert Qualifies(s[k], true);
    SelectPrefersQuota(s);
    j := Select(s).choice.value;
    assert !HasQuota(s[i]);
  }

  /**
   * When every eligible provider is at its limit, a successful call recycles their
   * quotas and is charged to the first eligible provider by priority: it ends the
   * request at one use, the other eligible providers at 0.
   */
  lemma ExhaustedThenSucceeds(ps: seq<Provider>, rest: seq<bool>) returns (i: nat)
    requires SomeEligible(ps) && !SomeEligibleWithQuota(ps)
    ensures FirstByPriority(ps, i, false)
    ensures Generate(ps, [true] + rest).outcome == Generated(i)
    ensures Generate(ps, [true] + rest).after == ResetEligible(ps)[i := ps[i].(currentUsage := 1)]
  {
    SelectExhausted(ps);
    i := Select(ps).choice.value;
  }

  /**
   * When the only eligible provider fails, the request rethrows: marking it exhausted
   * makes every eligible provider exhausted, so the next selection recycles its quota
   * (usage ends at 0, not at dailyLimit) and hands back the same provider.
   */
  lemma SoleProviderFailure(ps: seq<Provider>, i: nat, rest: seq<bool>)
    requires i < |ps| && Eligible(ps[i])
    requires forall j :: 0 <= j < |ps| && j != i ==> !Eligible(ps[j])
    ensures Generate(ps, [false] + rest).outcome == Failed(i)
    ensures Generate(ps, [false] + rest).after == ps[i := ps[i].(currentUsage := 0)]
  {
    var sel := Select(ps);
    SelectKeepsConfiguration(ps);
    BestIsFirst(ps, false);
    assert sel.choice == Some(i) by {
      if SomeEligibleWithQuota(ps) { SelectPrefersQuota(ps); } else { SelectExhausted(ps); }
    }
    var p := sel.after[i];
    var marked := sel.after[i := p.(currentUsage := p.dailyLimit)];
    assert forall j :: 0 <= j < |ps| ==> Eligible(marked[j]) == (j == i);
    assert !SomeEligibleWithQuota(marked);
    assert Eligible(marked[i]);
    SelectExhausted(marked);
    var next := Select(marked);
    assert next.choice == Some(i);
    assert next.after == ps[i := ps[i].(currentUsage := 0)];
    FailureMarksExhausted(ps, rest);
  }

  /** Two eligible providers with one request of quota each, both unused. */
  function CyclingCatalog(): seq<Provider> {
    [Provider("huggingface", 1, 1, 0, true, true), Provider("stability", 2, 1, 0, true, true)]
  }

  /**
   * The retry recursion of server.js:451-454 need not terminate: after two failed
   * calls the catalog is back in its initial state (the second failure recycles both
   * quotas and hands back the first provider, whose name differs).
   */
  lemma RetryCycle(rest: seq<bool>)
    ensures Generate(CyclingCatalog(), [false, false] + rest) == Generate(CyclingCatalog(), rest)
  {
    CycleFirstFailure([false] + rest);
    assert [false, false] + rest == [false] + ([false] + rest);
    CycleSecondFailure(rest);
  }

  /** First failure: huggingface is marked exhausted and stability is tried next. */
  lemma CycleFirstFailure(rest: seq<bool>)
    ensures var s0 := CyclingCatalog();
      Generate(s0, [false] + rest) == Generate(s0[0 := s0[0].(currentUsage := 1)], rest)
  {
    var s0 := CyclingCatalog();
    CycleSelectsHuggingface();
    CycleSelectsStability();
    FailureMarksExhausted(s0, rest);
  }

  lemma CycleSelectsHuggingface()
    ensures Select(CyclingCatalog()) == Selection(Some(0), CyclingCatalog())
  {
    var s0 := CyclingCatalog();
    assert Qualifies(s0[0], true);
    SelectPrefersQuota(s0);
  }

  lemma CycleSelectsStability()
    ensures var s0 := CyclingCatalog();
      var m0 := s0[0 := s0[0].(currentUsage := 1)];
      Select(m0) == Selection(Some(1), m0)
  {
    var s0 := CyclingCatalog();
    var m0 := s0[0 := s0[0].(currentUsage := 1)];
    assert Qualifies(m0[1], true);
    SelectPrefersQuota(m0);
  }

  /** Second failure: both are exhausted, both are recycled, huggingface comes back. */
  lemma CycleSecondFailure(rest: seq<bool>)
    ensures var s0 := CyclingCatalog();
      Generate(s0[0 := s0[0].(currentUsage := 1)], [false] + rest) == Generate(s0, rest)
  {
    var s0 := CyclingCatalog();
    var m0 := s0[0 := s0[0].(currentUsage := 1)];
    CycleSelectsStability();
    var m1 := m0[1 := m0[1].(currentUsage := 1)];
    assert !SomeEligibleWithQuota(m1);
    assert Eligible(m1[0]);
    SelectExhausted(m1);
    assert Select(m1).choice == Some(0);
    assert Select(m1).after == s0;
    FailureMarksExhausted(m0, rest);
  }

  /** Hence, when every call fails, no attempt bound is ever enough on that catalog. */
  lemma {:induction false} AllFailuresNeverFinish(n: nat)
    ensures Generate(CyclingCatalog(), seq(n, _ => false)).outcome == OutOfAttempts
  {
    var s0 := CyclingCatalog();
    CycleSelectsHuggingface();
    if n >= 2 {
      assert seq(n, _ => false) == [false, false] + seq(n - 2, _ => false);
      RetryCycle(seq(n - 2, _ => false));
      AllFailuresNeverFinish(n - 2);
    } else if n == 1 {
      assert seq(n, _ => false) == [false] + [];
      CycleFirstFailure([]);
      CycleSelectsStability();
    }
  }

  // ---------------------------------------------------------------------------
  // The midnight job (server.js:1453-1460)

  /** Every usage counter of a provider list set to 0. */
  function ZeroUsage(ps: seq<Provider>): (r: seq<Provider>)
    ensures |r| == |ps| && forall j :: 0 <= j < |ps| ==> r[j] == ps[j].(currentUsage := 0)
  {
    if ps == [] then [] else [ps[0].(currentUsage := 0)] + ZeroUsage(ps[1..])
  }

  /** The mutable catalog `AI_PROVIDERS`, one provider list per media type. */
  class ProviderCatalog {
    var video: seq<Provider>
    var image: seq<Provider>

    constructor (video: seq<Provider>, image: seq<Provider>)
      ensures this.video == video && this.image == image
    {
      this.video := video;
      this.image := image;
    }

    function Of(t: MediaType): seq<Provider>
      reads this
    {
      match t
      case Video => video
      case Image => image
    }

    method Put(t: MediaType, ps: seq<Provider>)
      modifies this
      ensures Of(t) == ps && Of(Other(t)) == old(Of(Other(t)))
    {
      match t
      case Video => video := ps;
      case Image => image := ps;
    }

    /** `getAvailableProvider(type)` (server.js:373-388); the result is a catalog index. */
    method GetAvailableProvider(t: MediaType) returns (choice: Option<nat>)
      modifies this
      ensures Selection(choice, Of(t)) == Select(old(Of(t)))
      ensures Of(Other(t)) == old(Of(Other(t)))
    {
      var ps := Of(t);
      var order := PriorityOrder(ps);
      ScanAgreesWithBest(ps);
      choice := FindWithQuota(ps, order);
      if choice.Some? {
        return;
      }
      // Every eligible provider is at its limit: reset them and return the first.
      HeadAgreesWithBest(ps);
      ResetCounters(t, order);
      choice := if order == [] then None else Some(order[0]);
    }

    /** The `forEach` of server.js:386 over the sorted eligible providers. */
    method ResetCounters(t: MediaType, order: seq<nat>)
      requires order == PriorityOrder(Of(t))
      modifies this
      ensures Of(t) == ResetEligible(old(Of(t)))
      ensures Of(Other(t)) == old(Of(Other(t)))
    {
      var ps := Of(t);
      var reset := ps;
      var k := 0;
      while k < |order|
        invariant 0 <= k <= |order| && |reset| == |ps|
        invariant forall j :: 0 <= j < |ps| ==>
          reset[j] == if j in order[..k] then ps[j].(currentUsage := 0) else ps[j]
      {
        assert forall j :: j in order[..k + 1] <==> j in order[..k] || j == order[k];
        reset := reset[order[k] := reset[order[k]].(currentUsage := 0)];
        k := k + 1;
      }
      assert order[..k] == order;
      Put(t, reset);
    }

    /** `generateVideoContent` / `generateImageContent`: quota bookkeeping and retries. */
    method GenerateContent(t: MediaType, succeeds: seq<bool>) returns (outcome: Outcome)
      modifies this
      ensures Generation(outcome, Of(t)) == Generate(old(Of(t)), succeeds)
      ensures Of(Other(t)) == old(Of(Other(t)))
      decreases |succeeds|
    {
      var choice := GetAvailableProvider(t);
      if choice.None? {
        return NoProviders;
      }
      if |succeeds| == 0 {
        return OutOfAttempts;
      }
      var i := choice.value;
      var p := Of(t)[i];
      if succeeds[0] {
        Put(t, Of(t)[i := p.(currentUsage := p.currentUsage + 1)]);
        return Generated(i);
      }
      // Mark the provider as temporarily unavailable, then look for another one.
      Put(t, Of(t)[i := p.(currentUsage := p.dailyLimit)]);
      var next := GetAvailableProvider(t);
      if next.Some? && Of(t)[next.value].name != p.name {
        outcome := GenerateContent(t, succeeds[1..]);
      } else {
        outcome := Failed(i);
      }
    }

    /** The body of the midnight cron job: every counter of every media type to 0. */
    method ResetDailyUsage()
      modifies this
      ensures video == ZeroUsage(old(video)) && image == ZeroUsage(old(image))
    {
      var types := [Video, Image];
      for n := 0 to |types|
        invariant n == 0 ==> video == old(video) && image == old(image)
        invariant n == 1 ==> video == ZeroUsage(old(video)) && image == old(image)
        invariant n == 2 ==> video == ZeroUsage(old(video)) && image == ZeroUsage(old(image))
      {
        var t := types[n];
        var ps := Of(t);
        for k := 0 to |ps|
          invariant |ps| == |Of(t)|
          invariant forall j :: 0 <= j < |ps| ==> ps[j] == (if j < k then Of(t)[j].(currentUsage := 0) else Of(t)[j])
        {
          ps := ps[k := ps[k].(currentUsage := 0)];
        }
        ZeroUsageIsPointwise(Of(t), ps);
        Put(t, ps);
      }
    }
  }

  /** The midnight reset is idempotent: applying it twice equals applying it once. */
  lemma ZeroUsageIdempotent(ps: seq<Provider>)
    ensures ZeroUsage(ZeroUsage(ps)) == ZeroUsage(ps)
  {
    ZeroUsageIsPointwise(ZeroUsage(ps), ZeroUsage(ps));
  }

  lemma {:induction false} ZeroUsageIsPointwise(ps: seq<Provider>, qs: seq<Provider>)
    requires |qs| == |ps| && forall j :: 0 <= j < |ps| ==> qs[j] == ps[j].(currentUsage := 0)
    ensures qs == ZeroUsage(ps)
  {
    if ps != [] {
      ZeroUsageIsPointwise(ps[1..], qs[1..]);
    }
  }
}
