/**
 * Whole sessions of the restreamer, from startup through configuration,
 * publish and unpublish, stated on the functions the handlers are proved
 * against: `Validate`/`WithKey` for the update endpoint, `PlanPublish`,
 * `SpawnsFor` and `Published` for `prePublish`, `Values` of the registry for
 * what `donePublish` kills (after which the registry is `Empty()` again), and
 * `EndAsWritten`/`EndOwn` for a process's close event.
 */
module Scenarios {
  import opened Wrappers
  import opened OrderedMap
  import opened StreamConfig
  import opened Ffmpeg
  import opened Planner
  import opened Registry
  import opened Restreamer

  /** Both platforms enabled with keys "F" and "Y". */
  const BOTH := Config(Destination(true, FACEBOOK_RTMP_URL, "F"), Destination(true, YOUTUBE_RTMP_URL, "Y"))

  /** Facebook enabled with key "F"; youtube as in the default table. */
  const FACEBOOK_ONLY := Config(Destination(true, FACEBOOK_RTMP_URL, "F"), Destination(false, YOUTUBE_RTMP_URL, ""))

  /**
   * No config file, so the default table; the operator sets youtube's key
   * to "K"; a stream is published to `/live/s1`. Only youtube is
   * restreamed, after its 2 s delay, as process 0, and the end of the
   * stream kills exactly that process.
   */
  lemma ConfigureThenPublish()
    ensures Validate(UpdateRequest(Some("youtube"), Some("K"))) == Accept(Youtube, "K")
    ensures var c := WithKey(LoadConfig(None), Youtube, "K");
      && PlanPublish("/live/s1", c)
         == Some(PublishPlan(InputUrl("/live/s1"), [Launch(Youtube, YOUTUBE_RTMP_URL + "K", 2000)]))
      && Published(Empty(), 0, c, {}).0.Values() == [0]
  {
    var c := WithKey(LoadConfig(None), Youtube, "K");
    assert "/live/s1" == LIVE_PREFIX + "s1";
    assert LaunchIfEligible(c, Facebook) == [];
    assert Entry(c, Youtube) == Destination(true, YOUTUBE_RTMP_URL, "K");
    assert LaunchIfEligible(c, Youtube) == [Launch(Youtube, YOUTUBE_RTMP_URL + "K", 2000)];
    assert LaunchIfEligible(c, Facebook) + LaunchIfEligible(c, Youtube) == [Launch(Youtube, YOUTUBE_RTMP_URL + "K", 2000)];
    assert Published(Empty(), 0, c, {}).0 == Dict([Youtube], map[Youtube := 0]);
  }

  /** A publish outside the `live` application starts nothing, even with both platforms configured. */
  lemma NonLivePublish()
    ensures PlanPublish("/other/s1", BOTH) == None
  {
    assert "/other/s1"[1] != LIVE_PREFIX[1];
  }

  /**
   * Both platforms are configured and facebook's spawn throws: both spawns
   * are attempted, youtube is still tracked, as process 0, and the end of
   * the stream kills that one process.
   */
  lemma FirstSpawnFails()
    ensures var calls := SpawnsFor(PlanPublish("/live/s1", BOTH).value);
      |calls| == 2 && calls[0].platform == Facebook && calls[1].platform == Youtube
    ensures var r := Published(Empty(), 0, BOTH, {Facebook});
      r.0.Get(Facebook) == None && r.0.Get(Youtube) == Some(0) && r.0.Values() == [0]
  {
    assert "/live/s1" == LIVE_PREFIX + "s1";
  }

  /**
   * A quick reconnect with the close callback as app.js writes it: the
   * stream ends (process 0 is killed and the map emptied), is published
   * again at once (process 1 starts under facebook), and only then does
   * process 0 report its exit. That report deletes facebook's entry, which
   * now holds process 1, so the final end of the stream kills nothing and
   * process 1 is never killed.
   */
  lemma QuickReconnectAsWritten()
    ensures var first := Published(Empty(), 0, FACEBOOK_ONLY, {});
      var second := Published(Empty(), first.1, FACEBOOK_ONLY, {});
      && first.0.Values() == [0]
      && second.0.Get(Facebook) == Some(1)
      && EndAsWritten(second.0, Facebook, 0).Values() == []
  {
  }

  /** The same session with each process deregistering only itself: the final end kills process 1. */
  lemma QuickReconnect()
    ensures var first := Published(Empty(), 0, FACEBOOK_ONLY, {});
      var second := Published(Empty(), first.1, FACEBOOK_ONLY, {});
      && first.0.Values() == [0]
      && EndOwn(second.0, Facebook, 0).Values() == [1]
  {
  }

  /**
   * Two `/live/` publishes with no end between them, as app.js handles
   * them: the second launch for facebook replaces process 0's entry with
   * process 1 without killing process 0 (`prePublish` kills nothing), so
   * process 0 is no longer tracked and no later end of stream kills it.
   */
  lemma RepublishOrphansProcess()
    ensures var first := Published(Empty(), 0, FACEBOOK_ONLY, {});
      var second := Published(first.0, first.1, FACEBOOK_ONLY, {});
      && first.0.Get(Facebook) == Some(0)
      && second.0.Get(Facebook) == Some(1)
      && second.0.Values() == [1]
  {
  }

  /**
   * The same two publishes with the previous process stopped first: the
   * second launch kills process 0, and the end of the stream kills process
   * 1, so every process started is killed.
   */
  lemma RepublishStopsPrevious()
    ensures var first := Published(Empty(), 0, FACEBOOK_ONLY, {});
      var stopped := StopPrevious(first.0, [], Facebook);
      var second := stopped.0.Set(Facebook, first.1);
      && stopped.1 == [0]
      && second.Get(Facebook) == Some(1)
      && stopped.1 + second.Values() == [0, 1]
  {
    var first := Published(Empty(), 0, FACEBOOK_ONLY, {});
    assert first.0 == Dict([Facebook], map[Facebook := 0]);
    var stopped := StopPrevious(first.0, [], Facebook);
    assert stopped.0.order == [];
    var second := stopped.0.Set(Facebook, first.1);
    assert second.order == [Facebook] && second.table[Facebook] == 1;
    assert second.Values() == [1] + ValuesOf(second.order[1..], second.table);
  }
}
