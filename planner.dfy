/**
 * What the `prePublish` handler decides before it starts any process: whether
 * the stream is restreamed at all, the local input address, and, in the fixed
 * order facebook then youtube, which platforms get a process, with which
 * target URL and after which delay.
 */
module Planner {
  import opened Wrappers
  import opened StreamConfig
  import opened Ffmpeg

  /** The delay before the second platform's launch. */
  const STAGGER_MS: nat := 2000

  /** The delay each platform's launch waits, whether or not the other platform launches. */
  function DelayOf(p: Platform): nat
  {
    match p
    case Facebook => 0
    case Youtube => STAGGER_MS
  }

  /** Position of a platform in the launch order. */
  function Rank(p: Platform): nat
  {
    match p
    case Facebook => 0
    case Youtube => 1
  }

  /** One process start: after `delayMs`, restream to `url`. */
  datatype Launch = Launch(platform: Platform, url: string, delayMs: nat)

  datatype PublishPlan = PublishPlan(inputUrl: string, launches: seq<Launch>)

  /** The platforms a sequence of launches starts. */
  function LaunchedPlatforms(ls: seq<Launch>): set<Platform>
  {
    if ls == [] then {} else {ls[0].platform} + LaunchedPlatforms(ls[1..])
  }

  /** The launch for `p`, if its entry is eligible. */
  function LaunchIfEligible(c: Config, p: Platform): seq<Launch>
  {
    if Eligible(Entry(c, p)) then [Launch(p, TargetUrl(Entry(c, p)), DelayOf(p))] else []
  }

  /**
   * The plan for a publish of `streamPath` under table `c`: nothing for a
   * path outside `/live/`; otherwise the local input and the launches of
   * the eligible platforms in the fixed order.
   */
  function PlanPublish(streamPath: string, c: Config): Option<PublishPlan>
  {
    if !IsLivePath(streamPath) then None
    else Some(PublishPlan(InputUrl(streamPath), LaunchIfEligible(c, Facebook) + LaunchIfEligible(c, Youtube)))
  }

  /**
   * What the plan promises: it exists exactly for `/live/` paths and reads
   * from the local server; a platform is launched exactly when its entry is
   * eligible, to the platform's prefix followed by its key, after the
   * platform's delay; and facebook's launch comes before youtube's.
   */
  lemma PlanPublishSpec(streamPath: string, c: Config)
    ensures var r := PlanPublish(streamPath, c);
      && (r.None? <==> !IsLivePath(streamPath))
      && (r.Some? ==> r.value.inputUrl == InputUrl(streamPath))
      && (r.Some? ==> forall p :: p in LaunchedPlatforms(r.value.launches) <==> Eligible(Entry(c, p)))
      && (r.Some? ==> forall l :: l in r.value.launches ==>
            l.url == TargetUrl(Entry(c, l.platform)) && l.delayMs == DelayOf(l.platform))
      && (r.Some? ==> forall i, j :: 0 <= i < j < |r.value.launches| ==>
            Rank(r.value.launches[i].platform) < Rank(r.value.launches[j].platform))
  {
  }

  /** The n-th launch of a plan (counting from 0) waits at least n stagger intervals. */
  lemma LaunchesStaggered(streamPath: string, c: Config)
    requires IsLivePath(streamPath)
    ensures var ls := PlanPublish(streamPath, c).value.launches;
      |ls| <= 2 && forall i :: 0 <= i < |ls| ==> ls[i].delayMs >= i * STAGGER_MS
  {
    PlanPublishSpec(streamPath, c);
    var ls := PlanPublish(streamPath, c).value.launches;
    if |ls| == 2 {
      assert Rank(ls[0].platform) < Rank(ls[1].platform);
      assert ls[1] in ls;
    }
  }

  /**
   * An accepted update takes effect at the next `/live/` publish: the
   * updated platform is launched, to its unchanged ingest prefix followed by
   * the new key, and the other platform's launches are as before.
   */
  lemma AcceptedUpdateIsRestreamed(streamPath: string, c: Config, req: UpdateRequest)
    requires IsLivePath(streamPath) && Validate(req).Accept?
    ensures var v := Validate(req);
      var ls := PlanPublish(streamPath, WithKey(c, v.platform, v.key)).value.launches;
      && Launch(v.platform, Entry(c, v.platform).rtmpUrl + v.key, DelayOf(v.platform)) in ls
      && forall q :: q != v.platform ==> LaunchIfEligible(WithKey(c, v.platform, v.key), q) == LaunchIfEligible(c, q)
  {
    var v := Validate(req);
    var c' := WithKey(c, v.platform, v.key);
    assert LaunchIfEligible(c', v.platform) == [Launch(v.platform, Entry(c, v.platform).rtmpUrl + v.key, DelayOf(v.platform))];
  }
}
