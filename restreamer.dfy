/**
 * The `prePublish` handler: it reads the destination table, plans the
 * launches and performs them one after the other against the process
 * registry. `donePublish` is `ActiveStreams.DonePublish`; the close/error
 * callbacks as app.js writes them are `ActiveStreams.OnProcessEndAsWritten`
 * (`ActiveStreams.OnProcessEnd` is the corrected variant). Whole sessions
 * are stated as lemmas in module `Scenarios`.
 */
module Restreamer {
  import opened Wrappers
  import opened OrderedMap
  import opened StreamConfig
  import opened Ffmpeg
  import opened Planner
  import opened Registry

  /** The spawn calls a plan makes, in launch order. */
  function SpawnsFor(plan: PublishPlan): seq<SpawnCall>
  {
    seq(|plan.launches|, i requires 0 <= i < |plan.launches| =>
      SpawnCall(plan.launches[i].platform, FFMPEG_PATH, Args(plan.inputUrl, plan.launches[i].url)))
  }

  /**
   * A plan makes one spawn call per launch, in launch order, each running
   * ffmpeg on 27 arguments that read from the plan's input and end in the
   * launch's target.
   */
  lemma SpawnsForCalls(plan: PublishPlan)
    ensures var calls := SpawnsFor(plan);
      && |calls| == |plan.launches|
      && forall i :: 0 <= i < |calls| ==>
        && calls[i].platform == plan.launches[i].platform && calls[i].program == FFMPEG_PATH
        && |calls[i].args| == 27 && calls[i].args[..2] == ["-i", plan.inputUrl]
        && calls[i].args[26] == plan.launches[i].url
  {
  }

  /** The spawn calls of two runs of launches are those of the first run, then those of the second. */
  lemma SpawnsForSplit(inputUrl: string, first: seq<Launch>, second: seq<Launch>)
    ensures SpawnsFor(PublishPlan(inputUrl, first + second))
      == SpawnsFor(PublishPlan(inputUrl, first)) + SpawnsFor(PublishPlan(inputUrl, second))
  {
    var all := SpawnsFor(PublishPlan(inputUrl, first + second));
    var split := SpawnsFor(PublishPlan(inputUrl, first)) + SpawnsFor(PublishPlan(inputUrl, second));
    assert |all| == |split|;
    forall i | 0 <= i < |all|
      ensures all[i] == split[i]
    {
      if i >= |first| {
        assert (first + second)[i] == second[i - |first|];
      }
    }
  }

  /** `tracked` is a process handed out while the fresh handles ran from `lo` up to `hi`. */
  predicate FreshIn(tracked: Option<Handle>, lo: Handle, hi: Handle)
  {
    tracked.Some? && lo <= tracked.value < hi
  }

  /**
   * One `if` of the handler, on the registry (`entries`, with `next` the
   * next fresh handle): if `p` is eligible it is launched, and a spawn that
   * succeeds registers the next handle under `p`.
   */
  function LaunchStep(entries: Streams, next: Handle, c: Config, p: Platform, spawnFails: set<Platform>)
    : (Streams, Handle)
  {
    if Eligible(Entry(c, p)) && p !in spawnFails then (entries.Set(p, next), next + 1) else (entries, next)
  }

  /**
   * The registry after the launches of a `/live/` publish: facebook's step,
   * then youtube's. Per platform: one that is eligible and whose spawn
   * succeeds holds a process spawned by this publish; every other platform's
   * entry is as before, so a failed spawn neither clears its own entry nor
   * prevents the other platform's launch.
   */
  function Published(entries: Streams, next: Handle, c: Config, spawnFails: set<Platform>): (Streams, Handle)
  {
    var afterFacebook := LaunchStep(entries, next, c, Facebook, spawnFails);
    LaunchStep(afterFacebook.0, afterFacebook.1, c, Youtube, spawnFails)
  }

  /**
   * After a publish, each platform that is eligible and whose spawn
   * succeeds holds a process of its own spawned by this publish; every
   * other platform's entry is as before.
   */
  lemma PublishedTracks(entries: Streams, next: Handle, c: Config, spawnFails: set<Platform>)
    ensures var r := Published(entries, next, c, spawnFails);
      && next <= r.1
      && (forall q :: Eligible(Entry(c, q)) && q !in spawnFails ==> FreshIn(r.0.Get(q), next, r.1))
      && (forall q :: !Eligible(Entry(c, q)) || q in spawnFails ==> r.0.Get(q) == entries.Get(q))
  {
  }

  /**
   * One `if` of the handler: when `p`'s entry of `c` is eligible, build its
   * target URL and start its process (`startStreamWithDelay`, its delay
   * being the plan's business); otherwise do nothing.
   */
  method StartIfEligible(streams: ActiveStreams, c: Config, p: Platform, inputUrl: string, spawnFails: set<Platform>)
    requires streams.Valid()
    modifies streams
    ensures streams.Valid()
    ensures streams.spawns == old(streams.spawns) + SpawnsFor(PublishPlan(inputUrl, LaunchIfEligible(c, p)))
    ensures streams.kills == old(streams.kills)
    ensures (streams.active, streams.nextHandle)
      == LaunchStep(old(streams.active), old(streams.nextHandle), c, p, spawnFails)
  {
    if Eligible(Entry(c, p)) {
      var _ := streams.Launch(p, inputUrl, TargetUrl(Entry(c, p)), p !in spawnFails);
    }
  }

  /**
   * `prePublish` for `streamPath`. A path outside `/live/` changes nothing.
   * Otherwise each eligible platform, facebook first, gets one spawn of
   * ffmpeg from the local input to its target; `spawnFails` are the
   * platforms whose spawn throws. The returned plan carries the launches
   * with their delays.
   */
  method PrePublish(streamPath: string, store: ConfigStore, streams: ActiveStreams, spawnFails: set<Platform>)
    returns (plan: Option<PublishPlan>)
    requires streams.Valid()
    modifies streams
    ensures streams.Valid()
    ensures plan == PlanPublish(streamPath, store.config)
    ensures plan.None? ==> unchanged(streams)
    ensures plan.Some? ==>
      && streams.spawns == old(streams.spawns) + SpawnsFor(plan.value)
      && streams.kills == old(streams.kills)
      && (streams.active, streams.nextHandle)
         == Published(old(streams.active), old(streams.nextHandle), store.config, spawnFails)
  {
    if !IsLivePath(streamPath) {
      return None;
    }
    var inputUrl := InputUrl(streamPath);
    var config := store.config;
    plan := PlanPublish(streamPath, config);
    ghost var spawns0 := streams.spawns;
    StartIfEligible(streams, config, Facebook, inputUrl, spawnFails);
    StartIfEligible(streams, config, Youtube, inputUrl, spawnFails);
    ghost var first := SpawnsFor(PublishPlan(inputUrl, LaunchIfEligible(config, Facebook)));
    ghost var second := SpawnsFor(PublishPlan(inputUrl, LaunchIfEligible(config, Youtube)));
    SpawnsForSplit(inputUrl, LaunchIfEligible(config, Facebook), LaunchIfEligible(config, Youtube));
    assert spawns0 + first + second == spawns0 + (first + second);
  }
}
