/**
 * `AutomationOrchestrator.runFullCampaign` (server.js): a single-flight campaign run
 * guarded by `isRunning`. The scraper's result, the hour, the outcomes of the
 * provider calls and of the upload, the campaign id and the clock are inputs.
 */
module Orchestrator {
  import opened Wrappers
  import opened TrendingScraper
  import opened Affiliate
  import opened ContentGenerator

  datatype CampaignStatus = Completed | CampaignFailed

  /** `currentCampaign`; the fields of the success and the failure records together. */
  datatype Campaign = Campaign(
    campaignId: string,
    status: CampaignStatus,
    program: Option<Program>,
    projection: Option<Projection>,
    trendingVideoAnalyzed: Option<string>,
    error: Option<string>,
    timestamp: string)

  /**
   * An entry of `systemStats.errors`: one written by a failed campaign (function
   * 'runFullCampaign') or by a failed upload (function 'uploadVideo').
   */
  datatype ErrorEntry =
    | CampaignError(campaignId: string, error: string, timestamp: string)
    | UploadError(error: string, timestamp: string)

  /** The part of the global `systemStats` that runFullCampaign and the uploader write. */
  datatype Stats = Stats(
    successfulCampaigns: nat,
    uploadsCompleted: nat,
    dailyRevenue: int,
    monthlyRevenue: int,
    yearlyRevenue: int,
    lastProcessed: Option<string>,
    errors: seq<ErrorEntry>)

  datatype RunResult =
    | AlreadyRunning
    | Succeeded(campaign: Campaign)
    | Errored(error: string, campaign: Campaign)

  /** What the environment does during one run. */
  datatype Inputs = Inputs(
    campaignId: string,
    trending: seq<TrendingVideo>,   // what getTrendingAIVideos(20) returned
    hour: int,                      // the local hour used by selectOptimalProgram
    videoCalls: seq<bool>,          // success of each video provider API call
    imageCalls: seq<bool>,          // success of each image provider API call
    generationError: string,        // the message of a provider API error
    uploadOk: bool,                 // uploadResult.success
    uploadError: string,            // the message of an upload error
    now: string)                    // new Date().toISOString()

  const NoTrendingMessage: string := "No trending videos found"

  function SumViews(vs: seq<TrendingVideo>): int {
    if vs == [] then 0 else vs[0].viewCount + SumViews(vs[1..])
  }

  /** `Math.floor(avgViews * 0.3)`: 30% of the mean view count of the trending videos. */
  function EstimatedViews(vs: seq<TrendingVideo>): int
    requires vs != []
  {
    (SumViews(vs) as real / |vs| as real * 0.3).Floor
  }

  lemma {:induction false} SumViewsBetween(vs: seq<TrendingVideo>, lo: int, hi: int)
    requires forall i :: 0 <= i < |vs| ==> lo <= vs[i].viewCount <= hi
    ensures |vs| * lo <= SumViews(vs) <= |vs| * hi
  {
    if vs != [] {
      var rest := vs[1..];
      assert forall i :: 0 <= i < |rest| ==> rest[i] == vs[i + 1];
      SumViewsBetween(rest, lo, hi);
      assert |vs| * lo == |rest| * lo + lo && |vs| * hi == |rest| * hi + hi;
    }
  }

  /** Dividing bounds on a sum by a positive count bounds the mean. */
  lemma MeanBetween(sum: real, n: real, lo: real, hi: real)
    requires n > 0.0 && lo * n <= sum <= hi * n
    ensures lo <= sum / n <= hi
  {
  }

  /**
   * When every trending video has between lo and hi views, the estimate lies between
   * 30% of lo and 30% of hi, floored.
   */
  lemma EstimatedViewsBetween(vs: seq<TrendingVideo>, lo: int, hi: int)
    requires vs != []
    requires forall i :: 0 <= i < |vs| ==> lo <= vs[i].viewCount <= hi
    ensures (lo as real * 0.3).Floor <= EstimatedViews(vs) <= (hi as real * 0.3).Floor
  {
    SumViewsBetween(vs, lo, hi);
    var n := |vs|;
    assert (n * lo) as real == lo as real * n as real && (n * hi) as real == hi as real * n as real;
    MeanBetween(SumViews(vs) as real, n as real, lo as real, hi as real);
  }

  /**
   * The stats after a campaign whose upload went through: one more successful
   * campaign, the projection's daily recurring, monthly and yearly revenue added to
   * the totals, and the time recorded; the upload count and the error log stay.
   */
  function Credit(s: Stats, p: Projection, now: string): (r: Stats)
    ensures r.successfulCampaigns == s.successfulCampaigns + 1
    ensures r.dailyRevenue == s.dailyRevenue + p.dailyRecurring
    ensures r.monthlyRevenue == s.monthlyRevenue + p.monthlyProjection
    ensures r.yearlyRevenue == s.yearlyRevenue + p.projectedRevenue
    ensures r.lastProcessed == Some(now)
    ensures r.uploadsCompleted == s.uploadsCompleted && r.errors == s.errors
  {
    s.(successfulCampaigns := s.successfulCampaigns + 1,
       dailyRevenue := s.dailyRevenue + p.dailyRecurring,
       monthlyRevenue := s.monthlyRevenue + p.monthlyProjection,
       yearlyRevenue := s.yearlyRevenue + p.projectedRevenue,
       lastProcessed := Some(now))
  }

  /** The message a generation outcome other than `Generated` throws. */
  function GenerationMessage(t: MediaType, o: Outcome, providerError: string): string {
    if o.NoProviders? then NoProvidersMessage(t) else providerError
  }

  function FailedCampaign(inp: Inputs, message: string): Campaign {
    Campaign(inp.campaignId, CampaignFailed, None, None, None, Some(message), inp.now)
  }

  /** The `catch` of runFullCampaign appends one campaign error and changes nothing else. */
  function LogError(s: Stats, inp: Inputs, message: string): (r: Stats)
    ensures r == s.(errors := s.errors + [CampaignError(inp.campaignId, message, inp.now)])
  {
    s.(errors := s.errors + [CampaignError(inp.campaignId, message, inp.now)])
  }

  /**
   * What `uploadVideo` does to the stats: a successful upload counts one more
   * completed upload; a failed one appends an 'uploadVideo' error entry. Nothing
   * else changes.
   */
  function Upload(s: Stats, inp: Inputs): (r: Stats)
    ensures r.uploadsCompleted == s.uploadsCompleted + (if inp.uploadOk then 1 else 0)
    ensures inp.uploadOk ==> r.errors == s.errors
    ensures !inp.uploadOk ==> r.errors == s.errors + [UploadError(inp.uploadError, inp.now)]
    ensures r.successfulCampaigns == s.successfulCampaigns && r.lastProcessed == s.lastProcessed
    ensures r.dailyRevenue == s.dailyRevenue && r.monthlyRevenue == s.monthlyRevenue
    ensures r.yearlyRevenue == s.yearlyRevenue
  {
    if inp.uploadOk then s.(uploadsCompleted := s.uploadsCompleted + 1)
    else s.(errors := s.errors + [UploadError(inp.uploadError, inp.now)])
  }

  /**
   * The stats after the upload step of a campaign that produced its content: a
   * successful upload counts once as an upload and once as a successful campaign, a
   * failed one leaves both counts and the revenue as they were and logs one error.
   */
  function AfterUpload(s: Stats, inp: Inputs, p: Projection): (r: Stats)
    ensures inp.uploadOk ==>
      && r.successfulCampaigns == s.successfulCampaigns + 1
      && r.uploadsCompleted == s.uploadsCompleted + 1
      && r.dailyRevenue == s.dailyRevenue + p.dailyRecurring
      && r.monthlyRevenue == s.monthlyRevenue + p.monthlyProjection
      && r.yearlyRevenue == s.yearlyRevenue + p.projectedRevenue
      && r.lastProcessed == Some(inp.now) && r.errors == s.errors
    ensures !inp.uploadOk ==> r == s.(errors := s.errors + [UploadError(inp.uploadError, inp.now)])
  {
    if inp.uploadOk then Credit(Upload(s, inp), p, inp.now) else Upload(s, inp)
  }

  /** The stages after the program choice, as runFullCampaign goes through them. */
  ghost predicate StagesFrom(inp: Inputs, video0: seq<Provider>, image0: seq<Provider>,
                             video1: seq<Provider>, image1: seq<Provider>, result: RunResult)
  {
    var v := Generate(video0, inp.videoCalls);
    && video1 == v.after
    && if !v.outcome.Generated? then
         var m := GenerationMessage(Video, v.outcome, inp.generationError);
         image1 == image0 && result == Errored(m, FailedCampaign(inp, m))
       else
         var i := Generate(image0, inp.imageCalls);
         && image1 == i.after
         && if !i.outcome.Generated? then
              var m := GenerationMessage(Image, i.outcome, inp.generationError);
              result == Errored(m, FailedCampaign(inp, m))
            else result.Succeeded?
  }

  /**
   * With no active, keyed video provider the run stops at the video stage with the
   * generator's 'No video providers available' and never asks for a thumbnail.
   */
  lemma NoVideoProvidersFails(inp: Inputs, video0: seq<Provider>, image0: seq<Provider>,
                              video1: seq<Provider>, image1: seq<Provider>, result: RunResult)
    requires StagesFrom(inp, video0, image0, video1, image1, result)
    requires !SomeEligible(video0)
    ensures result == Errored(NoProvidersMessage(Video), FailedCampaign(inp, NoProvidersMessage(Video)))
    ensures image1 == image0
  {
    GenerateNoProvidersIff(video0, inp.videoCalls);
  }

  class AutomationOrchestrator {
    var isRunning: bool
    var currentCampaign: Option<Campaign>
    var stats: Stats
    const generator: ProviderCatalog
    /** The affiliate program database the optimizer reads. */
    const programs: seq<Program>

    ghost predicate Valid()
      reads this
    {
      programs != []
    }

    constructor (generator: ProviderCatalog, stats: Stats)
      ensures Valid() && programs == Catalog()
      ensures !isRunning && currentCampaign == None && this.stats == stats && this.generator == generator
    {
      this.generator := generator;
      this.stats := stats;
      programs := Catalog();
      isRunning := false;
      currentCampaign := None;
    }

    /**
     * runFullCampaign. A run that finds one in progress returns `already_running`
     * and changes nothing; otherwise `isRunning` is set for the run and cleared on
     * every exit.
     */
    method RunFullCampaign(inp: Inputs) returns (result: RunResult, ghost k: nat)
      requires Valid()
      modifies this, generator
      ensures old(isRunning) ==>
        && result == AlreadyRunning && isRunning
        && currentCampaign == old(currentCampaign) && stats == old(stats)
        && generator.video == old(generator.video) && generator.image == old(generator.image)
      ensures Valid()
      ensures !old(isRunning) ==> !isRunning && Finished(inp, old(stats), old(generator.video), old(generator.image), result, k)
    {
      if isRunning {
        return AlreadyRunning, 0;
      }
      isRunning := true;
      result, k := RunStages(inp);
      isRunning := false;
    }

    /**
     * What a run that was not refused leaves behind: an empty trending list fails at
     * once; otherwise the program chosen is the optimizer's pick, the generation
     * stages run in order, and the stats record an error on failure and are
     * credited only when the campaign succeeded and its upload went through.
     */
    ghost predicate Finished(inp: Inputs, stats0: Stats, video0: seq<Provider>, image0: seq<Provider>,
                             result: RunResult, k: nat)
      reads this, generator
    {
      && !result.AlreadyRunning?
      && (result.Errored? ==>
            && currentCampaign == Some(result.campaign)
            && result.campaign == FailedCampaign(inp, result.error)
            && stats == LogError(stats0, inp, result.error))
      && if inp.trending == [] then
           && result == Errored(NoTrendingMessage, FailedCampaign(inp, NoTrendingMessage))
           && generator.video == video0 && generator.image == image0
         else
           var cs := Considered(programs, inp.hour);
           && IsPick(cs, TrendingKeywords(inp.trending), k)
           && StagesFrom(inp, video0, image0, generator.video, generator.image, result)
           && (result.Succeeded? ==>
                 var projection := CalculateRevenueProjection(cs[k], EstimatedViews(inp.trending), DefaultEngagement);
                 && currentCampaign == Some(result.campaign)
                 && result.campaign == Campaign(inp.campaignId, if inp.uploadOk then Completed else CampaignFailed,
                      Some(cs[k]), Some(projection), Some(inp.trending[0].title), None, inp.now)
                 && stats == AfterUpload(stats0, inp, projection))
    }

    /** The body of the `try` and its `catch`, run while `isRunning` is set. */
    method RunStages(inp: Inputs) returns (result: RunResult, ghost k: nat)
      requires isRunning && Valid()
      modifies this, generator
      ensures isRunning
      ensures Finished(inp, old(stats), old(generator.video), old(generator.image), result, k)
    {
      k := 0;
      if inp.trending == [] {
        result := Fail(inp, NoTrendingMessage);
        return;
      }
      ConsideredIsPermutation(programs, inp.hour);
      assert |multiset(Considered(programs, inp.hour))| == |multiset(programs)|;
      var selected;
      selected, k := SelectOptimalProgram(programs, inp.trending, inp.hour);
      var program := selected.value;
      var projection := CalculateRevenueProjection(program, EstimatedViews(inp.trending), DefaultEngagement);
      result := Produce(inp, program, projection);
    }

    /** Steps 4 to 6 and the stats update: video, thumbnail, upload. */
    method Produce(inp: Inputs, program: Program, projection: Projection) returns (result: RunResult)
      requires inp.trending != []
      modifies this, generator
      ensures isRunning == old(isRunning)
      ensures StagesFrom(inp, old(generator.video), old(generator.image), generator.video, generator.image, result)
      ensures result.Errored? ==>
        && currentCampaign == Some(result.campaign)
        && result.campaign == FailedCampaign(inp, result.error)
        && stats == LogError(old(stats), inp, result.error)
      ensures result.Succeeded? ==>
        && currentCampaign == Some(result.campaign)
        && result.campaign == Campaign(inp.campaignId, if inp.uploadOk then Completed else CampaignFailed,
             Some(program), Some(projection), Some(inp.trending[0].title), None, inp.now)
        && stats == AfterUpload(old(stats), inp, projection)
    {
      var video := generator.GenerateContent(Video, inp.videoCalls);
      if !video.Generated? {
        result := Fail(inp, GenerationMessage(Video, video, inp.generationError));
        return;
      }
      var image := generator.GenerateContent(Image, inp.imageCalls);
      if !image.Generated? {
        result := Fail(inp, GenerationMessage(Image, image, inp.generationError));
        return;
      }
      stats := Upload(stats, inp);
      if inp.uploadOk {
        stats := Credit(stats, projection, inp.now);
      }
      var campaign := Campaign(inp.campaignId, if inp.uploadOk then Completed else CampaignFailed,
        Some(program), Some(projection), Some(inp.trending[0].title), None, inp.now);
      currentCampaign := Some(campaign);
      result := Succeeded(campaign);
    }

    /** The `catch` block: log the error and record the failed campaign. */
    method Fail(inp: Inputs, message: string) returns (result: RunResult)
      modifies this
      ensures result == Errored(message, FailedCampaign(inp, message))
      ensures stats == LogError(old(stats), inp, message)
      ensures currentCampaign == Some(FailedCampaign(inp, message))
      ensures isRunning == old(isRunning)
    {
      stats := LogError(stats, inp, message);
      currentCampaign := Some(FailedCampaign(inp, message));
      result := Errored(message, FailedCampaign(inp, message));
    }
  }
}
