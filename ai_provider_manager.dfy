/**
 * `AIProviderManager` (AIProviderManager.ts): bookkeeping over the stored AI
 * provider records. The Mongo collection is an in-memory sequence of records;
 * a query, a `save` or an `updateMany` becomes a new value of that sequence.
 */
module AIProviderManager {
  import opened Wrappers

  datatype Kind = Image | Video | Voice | Text

  datatype Status = Active | Standby | QuotaReached | Error

  /** A stored provider (models/AIProvider.ts), with the fields this manager reads or writes. */
  datatype Record = Record(
    id: string,
    name: string,
    kind: Kind,
    status: Status,
    dailyLimit: int,
    usageToday: nat,
    successRate: real,
    avgResponseTime: real,
    quality: real,
    lastUsed: string,
    resetTime: string)

  function KindName(t: Kind): string {
    match t
    case Image => "image"
    case Video => "video"
    case Voice => "voice"
    case Text => "text"
  }

  function NoAvailableMessage(t: Kind): string {
    "No available " + KindName(t) + " providers"
  }

  /** The query filter: the requested type, active or on standby, and quota left. */
  predicate Eligible(p: Record, t: Kind) {
    p.kind == t && (p.status == Active || p.status == Standby) && p.usageToday < p.dailyLimit
  }

  predicate NoneEligible(ps: seq<Record>, t: Kind) {
    forall j :: 0 <= j < |ps| ==> !Eligible(ps[j], t)
  }

  /** The query order: higher quality first, then higher success rate. */
  predicate Better(a: Record, b: Record) {
    a.quality > b.quality || (a.quality == b.quality && a.successRate > b.successRate)
  }

  /**
   * Index `i` is the first document of the sorted query result: eligible, beaten
   * by no eligible record, and strictly better than every eligible record stored
   * before it (records equal in the sort keys keep collection order).
   */
  ghost predicate IsBest(ps: seq<Record>, t: Kind, i: int) {
    && 0 <= i < |ps|
    && Eligible(ps[i], t)
    && (forall j :: 0 <= j < |ps| && Eligible(ps[j], t) ==> !Better(ps[j], ps[i]))
    && (forall j :: 0 <= j < i && Eligible(ps[j], t) ==> Better(ps[i], ps[j]))
  }

  /** At most one index is the first of the sorted result. */
  lemma BestIsUnique(ps: seq<Record>, t: Kind, i: int, k: int)
    requires IsBest(ps, t, i) && IsBest(ps, t, k)
    ensures i == k
  {
  }

  /** The head of the sorted, filtered query, computed left to right. */
  function Top(ps: seq<Record>, t: Kind): (r: Option<nat>)
    ensures r.Some? ==> r.value < |ps| && Eligible(ps[r.value], t)
    decreases |ps|
  {
    if ps == [] then None
    else
      var r := Top(ps[..|ps| - 1], t);
      var last := |ps| - 1;
      if !Eligible(ps[last], t) then r
      else if r.None? || Better(ps[last], ps[r.value]) then Some(last)
      else r
  }

  /** `Top` finds the first record of the sorted result, and finds none exactly when none qualifies. */
  lemma {:induction false} TopIsBest(ps: seq<Record>, t: Kind)
    ensures Top(ps, t).Some? ==> IsBest(ps, t, Top(ps, t).value)
    ensures Top(ps, t).None? <==> NoneEligible(ps, t)
    decreases |ps|
  {
    if ps != [] {
      var init := ps[..|ps| - 1];
      TopIsBest(init, t);
      assert forall j :: 0 <= j < |init| ==> init[j] == ps[j];
    }
  }

  /** `Top` reads only the eligibility, quality and success rate of each record. */
  lemma {:induction false} TopSameKeys(ps: seq<Record>, qs: seq<Record>, t: Kind)
    requires |ps| == |qs|
    requires forall j :: 0 <= j < |ps| ==>
      && (Eligible(ps[j], t) <==> Eligible(qs[j], t))
      && ps[j].quality == qs[j].quality
      && ps[j].successRate == qs[j].successRate
    ensures Top(ps, t) == Top(qs, t)
    decreases |ps|
  {
    if ps != [] {
      TopSameKeys(ps[..|ps| - 1], qs[..|qs| - 1], t);
    }
  }

  /** A chosen standby provider is promoted to active; any other status stays. */
  function Promote(p: Record): Record {
    if p.status == Standby then p.(status := Active) else p
  }

  /**
   * getAvailableProvider: the reply and the collection after the promotion is saved.
   * A provider handed out is of the type asked for, active and under its quota; a
   * failure carries the source's message and saves nothing.
   */
  function Acquire(ps: seq<Record>, t: Kind): (r: (Result<Record>, seq<Record>))
    ensures |r.1| == |ps|
    ensures r.0.Success? ==> r.0.value.kind == t && r.0.value.status == Active && r.0.value.usageToday < r.0.value.dailyLimit
    ensures r.0.Failure? ==> r.0.message == NoAvailableMessage(t) && r.1 == ps
  {
    match Top(ps, t)
    case None => (Failure(NoAvailableMessage(t)), ps)
    case Some(i) => (Success(Promote(ps[i])), ps[i := Promote(ps[i])])
  }

  /** The request fails, with the source's message and nothing saved, exactly when no provider qualifies. */
  lemma AcquireFailsIff(ps: seq<Record>, t: Kind)
    ensures Acquire(ps, t).0.Failure? <==> NoneEligible(ps, t)
    ensures Acquire(ps, t).0.Failure? ==>
      Acquire(ps, t).0.message == NoAvailableMessage(t) && Acquire(ps, t).1 == ps
  {
    TopIsBest(ps, t);
  }

  /**
   * On success the reply is the first record of the sorted query, now marked
   * active, and that record is the only one that changes.
   */
  lemma AcquireChoosesBest(ps: seq<Record>, t: Kind) returns (i: nat)
    requires Acquire(ps, t).0.Success?
    ensures IsBest(ps, t, i)
    ensures Acquire(ps, t).0.value == ps[i].(status := Active)
    ensures Acquire(ps, t).1 == ps[i := ps[i].(status := Active)]
  {
    TopIsBest(ps, t);
    i := Top(ps, t).value;
  }

  /** The promotion does not change the choice: asking again returns the same provider. */
  lemma AcquireIsStable(ps: seq<Record>, t: Kind)
    ensures Acquire(Acquire(ps, t).1, t).0 == Acquire(ps, t).0
  {
    var qs := Acquire(ps, t).1;
    if Top(ps, t).Some? {
      var i := Top(ps, t).value;
      assert forall j :: 0 <= j < |ps| ==> qs[j] == if j == i then Promote(ps[i]) else ps[j];
      TopSameKeys(ps, qs, t);
    }
  }

  /** The first index holding `id`, as `findById` finds it. */
  function Lookup(ps: seq<Record>, id: string): (r: Option<nat>)
    ensures r.None? <==> forall j :: 0 <= j < |ps| ==> ps[j].id != id
    ensures r.Some? ==> r.value < |ps| && ps[r.value].id == id
    ensures r.Some? ==> forall j :: 0 <= j < r.value ==> ps[j].id != id
  {
    if ps == [] then None
    else if ps[0].id == id then Some(0)
    else match Lookup(ps[1..], id)
      case None => None
      case Some(k) => Some(k + 1)
  }

  /** `(mean * (n - 1) + x) / n`: the mean of `n` values given the mean of the first `n - 1`. */
  function Mean(mean: real, n: nat, x: real): real
    requires n >= 1
  {
    (mean * (n - 1) as real + x) / n as real
  }

  /** Folding one more value in keeps the mean inside any interval holding the old mean and the value. */
  lemma MeanWithin(mean: real, n: nat, x: real, lo: real, hi: real)
    requires n >= 1
    requires lo <= mean <= hi && lo <= x <= hi
    ensures lo <= Mean(mean, n, x) <= hi
  {
    var k := (n - 1) as real;
    assert lo * k <= mean * k <= hi * k;
    assert lo * (k + 1.0) <= mean * k + x <= hi * (k + 1.0);
  }

  /**
   * One call of updateProviderUsage on the record it found: one more use at the
   * call's time, `QuotaReached` once the usage reaches the limit and the status
   * unchanged before that; identity, type, limit, quality and reset time stay.
   */
  function Used(p: Record, success: bool, responseTime: real, now: string): (r: Record)
    ensures r.usageToday == p.usageToday + 1 && r.lastUsed == now
    ensures r.status == if p.usageToday + 1 >= p.dailyLimit then QuotaReached else p.status
    ensures r.id == p.id && r.name == p.name && r.kind == p.kind && r.dailyLimit == p.dailyLimit
    ensures r.quality == p.quality && r.resetTime == p.resetTime
  {
    var n := p.usageToday + 1;
    p.(usageToday := n,
       lastUsed := now,
       successRate := Mean(p.successRate, n, if success then 100.0 else 0.0),
       avgResponseTime := Mean(p.avgResponseTime, n, responseTime),
       status := if n >= p.dailyLimit then QuotaReached else p.status)
  }

  /**
   * updateProviderUsage over the collection: an unknown id changes nothing, and no
   * call adds, removes or renames a record.
   */
  function RecordUsage(ps: seq<Record>, id: string, success: bool, responseTime: real, now: string): (r: seq<Record>)
    ensures |r| == |ps|
    ensures (forall j :: 0 <= j < |ps| ==> ps[j].id != id) ==> r == ps
    ensures forall j :: 0 <= j < |ps| ==> r[j].id == ps[j].id && r[j].kind == ps[j].kind
  {
    match Lookup(ps, id)
    case None => ps
    case Some(i) => ps[i := Used(ps[i], success, responseTime, now)]
  }

  /**
   * An unknown id leaves the collection as it was; otherwise exactly the record
   * found is replaced, with one more use, the call's time, the same identity,
   * kind, limit and quality, and a status that is `QuotaReached` once usage
   * reaches the limit and unchanged before that.
   */
  lemma RecordUsageEffect(ps: seq<Record>, id: string, success: bool, responseTime: real, now: string)
    ensures (forall j :: 0 <= j < |ps| ==> ps[j].id != id) ==> RecordUsage(ps, id, success, responseTime, now) == ps
    ensures Lookup(ps, id).Some? ==>
      var i := Lookup(ps, id).value;
      var r := RecordUsage(ps, id, success, responseTime, now);
      && |r| == |ps|
      && (forall j :: 0 <= j < |ps| && j != i ==> r[j] == ps[j])
      && r[i].usageToday == ps[i].usageToday + 1
      && r[i].lastUsed == now
      && r[i].id == ps[i].id && r[i].name == ps[i].name && r[i].kind == ps[i].kind
      && r[i].dailyLimit == ps[i].dailyLimit && r[i].quality == ps[i].quality
      && (r[i].status == QuotaReached <==> r[i].usageToday >= ps[i].dailyLimit || ps[i].status == QuotaReached)
      && (r[i].usageToday < ps[i].dailyLimit ==> r[i].status == ps[i].status)
  {
  }

  /** A success rate in [0, 100] stays there, whatever the outcome. */
  lemma UsedKeepsRateInRange(p: Record, success: bool, responseTime: real, now: string)
    requires 0.0 <= p.successRate <= 100.0
    ensures 0.0 <= Used(p, success, responseTime, now).successRate <= 100.0
  {
    MeanWithin(p.successRate, p.usageToday + 1, if success then 100.0 else 0.0, 0.0, 100.0);
  }

  /** The first update after a reset sets the success rate to exactly 100 or 0. */
  lemma FirstUseSetsRate(p: Record, success: bool, responseTime: real, now: string)
    requires p.usageToday == 0
    ensures Used(p, success, responseTime, now).successRate == if success then 100.0 else 0.0
    ensures Used(p, success, responseTime, now).avgResponseTime == responseTime
  {
  }

  /** A record after a sequence of updateProviderUsage calls with the given outcomes. */
  function Replay(p: Record, outcomes: seq<bool>, responseTime: real, now: string): Record
    decreases |outcomes|
  {
    if outcomes == [] then p
    else Used(Replay(p, outcomes[..|outcomes| - 1], responseTime, now), outcomes[|outcomes| - 1], responseTime, now)
  }

  function Successes(outcomes: seq<bool>): nat
    decreases |outcomes|
  {
    if outcomes == [] then 0
    else Successes(outcomes[..|outcomes| - 1]) + (if outcomes[|outcomes| - 1] then 1 else 0)
  }

  /**
   * From a reset record, usageToday counts the calls and successRate is the mean
   * of 100 per success and 0 per failure over them.
   */
  lemma {:induction false} ReplayIsRunningMean(p: Record, outcomes: seq<bool>, responseTime: real, now: string)
    requires p.usageToday == 0 && |outcomes| > 0
    ensures Replay(p, outcomes, responseTime, now).usageToday == |outcomes|
    ensures Replay(p, outcomes, responseTime, now).successRate
         == 100.0 * Successes(outcomes) as real / |outcomes| as real
    decreases |outcomes|
  {
    var init := outcomes[..|outcomes| - 1];
    var n := |outcomes|;
    var x := if outcomes[n - 1] then 100.0 else 0.0;
    var q := Replay(p, init, responseTime, now);
    assert Replay(p, outcomes, responseTime, now) == Used(q, outcomes[n - 1], responseTime, now);
    assert Successes(outcomes) == Successes(init) + (if outcomes[n - 1] then 1 else 0);
    if init == [] {
      assert q == p;
    } else {
      ReplayIsRunningMean(p, init, responseTime, now);
      MeanOfTotals(q.successRate, 100.0 * Successes(init) as real, n, x);
    }
  }

  /** If `mean` is `total / (n - 1)`, folding `x` in gives `(total + x) / n`. */
  lemma MeanOfTotals(mean: real, total: real, n: nat, x: real)
    requires n >= 2 && mean == total / (n - 1) as real
    ensures Mean(mean, n, x) == (total + x) / n as real
  {
    assert mean * (n - 1) as real == total;
  }

  /**
   * Usage grows by one per call; the provider is `QuotaReached`, and so no
   * longer eligible, once the calls reach its daily limit, and its status is
   * untouched while they stay below it.
   */
  lemma {:induction false} ReplayReachesQuota(p: Record, outcomes: seq<bool>, responseTime: real, now: string, t: Kind)
    ensures Replay(p, outcomes, responseTime, now).usageToday == p.usageToday + |outcomes|
    ensures Replay(p, outcomes, responseTime, now).dailyLimit == p.dailyLimit
    ensures p.usageToday + |outcomes| < p.dailyLimit ==> Replay(p, outcomes, responseTime, now).status == p.status
    ensures |outcomes| > 0 && p.usageToday + |outcomes| >= p.dailyLimit ==>
      Replay(p, outcomes, responseTime, now).status == QuotaReached
      && !Eligible(Replay(p, outcomes, responseTime, now), t)
    decreases |outcomes|
  {
    if outcomes != [] {
      var init := outcomes[..|outcomes| - 1];
      ReplayReachesQuota(p, init, responseTime, now, t);
      var q := Replay(p, init, responseTime, now);
      assert init == [] ==> q == p;
      assert Replay(p, outcomes, responseTime, now) == Used(q, outcomes[|outcomes| - 1], responseTime, now);
    }
  }

  /** resetDailyQuotas on one record. */
  function Reset(p: Record, now: string): Record {
    p.(usageToday := 0, status := Standby, resetTime := now)
  }

  function ResetAll(ps: seq<Record>, now: string): (r: seq<Record>)
    ensures |r| == |ps|
    ensures forall i :: 0 <= i < |ps| ==> r[i] == Reset(ps[i], now)
  {
    seq(|ps|, i requires 0 <= i < |ps| => Reset(ps[i], now))
  }

  /** The bulk reset is idempotent: a second reset only moves the reset time. */
  lemma ResetAllIdempotent(ps: seq<Record>, now: string, later: string)
    ensures ResetAll(ResetAll(ps, now), later) == ResetAll(ps, later)
  {
  }

  /** After the reset a provider qualifies exactly when it is of the type asked for and has a positive limit. */
  lemma ResetRestoresEligibility(ps: seq<Record>, now: string, t: Kind)
    ensures forall i :: 0 <= i < |ps| ==>
      (Eligible(ResetAll(ps, now)[i], t) <==> ps[i].kind == t && ps[i].dailyLimit > 0)
  {
  }

  /** After the reset, a request fails only if no provider of that type has a positive daily limit. */
  lemma AcquireAfterReset(ps: seq<Record>, now: string, t: Kind)
    ensures Acquire(ResetAll(ps, now), t).0.Failure?
        <==> forall j :: 0 <= j < |ps| ==> ps[j].kind != t || ps[j].dailyLimit <= 0
  {
    AcquireFailsIff(ResetAll(ps, now), t);
  }

  /** The provider collection the manager queries and saves. */
  class ProviderStore {
    var providers: seq<Record>

    constructor(providers: seq<Record>)
      ensures this.providers == providers
    {
      this.providers := providers;
    }

    method GetAvailableProvider(t: Kind) returns (r: Result<Record>)
      modifies this
      ensures (r, providers) == Acquire(old(providers), t)
    {
      var top := Top(providers, t);
      if top.None? {
        r := Failure(NoAvailableMessage(t));
      } else {
        var provider := providers[top.value];
        if provider.status == Standby {
          provider := provider.(status := Active);
          providers := providers[top.value := provider];
        }
        r := Success(provider);
        assert providers == old(providers)[top.value := provider];
      }
    }

    method UpdateProviderUsage(id: string, success: bool, responseTime: real, now: string)
      modifies this
      ensures providers == RecordUsage(old(providers), id, success, responseTime, now)
    {
      var found := Lookup(providers, id);
      if found.Some? {
        var i := found.value;
        providers := providers[i := Used(providers[i], success, responseTime, now)];
      }
    }

    method ResetDailyQuotas(now: string)
      modifies this
      ensures providers == ResetAll(old(providers), now)
    {
      providers := ResetAll(providers, now);
    }
  }
}
