/**
 * The destination table (`streamConfig` in app.js): one entry per supported
 * platform with its enabled flag, RTMP ingest prefix and stream key; how it is
 * loaded, how the status endpoint reports it, and how the update endpoint
 * validates a request and rewrites one entry in place.
 */
module StreamConfig {
  import opened Wrappers

  /** The two supported platforms. */
  datatype Platform = Facebook | Youtube

  /** The identifier a platform has in the config file and in requests. */
  function Name(p: Platform): string
  {
    match p
    case Facebook => "facebook"
    case Youtube => "youtube"
  }

  /** The `['youtube', 'facebook'].includes(platform)` test, returning the platform it names. */
  function ParsePlatform(s: string): (r: Option<Platform>)
    ensures forall p :: r == Some(p) <==> Name(p) == s
  {
    if s == "youtube" then Some(Youtube)
    else if s == "facebook" then Some(Facebook)
    else None
  }

  datatype Destination = Destination(enabled: bool, rtmpUrl: string, streamKey: string)

  /** The whole table: one destination per platform. */
  datatype Config = Config(facebook: Destination, youtube: Destination)

  /** `streamConfig[platform]`. */
  function Entry(c: Config, p: Platform): Destination
  {
    match p
    case Facebook => c.facebook
    case Youtube => c.youtube
  }

  /** The table with the entry of `p` replaced by `d`. */
  function Put(c: Config, p: Platform, d: Destination): (r: Config)
    ensures Entry(r, p) == d
    ensures forall q :: q != p ==> Entry(r, q) == Entry(c, q)
  {
    match p
    case Facebook => c.(facebook := d)
    case Youtube => c.(youtube := d)
  }

  const FACEBOOK_RTMP_URL := "rtmps://live-api-s.facebook.com:443/rtmp/"
  const YOUTUBE_RTMP_URL := "rtmp://a.rtmp.youtube.com/live2/"

  /** The built-in table used when the config file cannot be read or parsed. */
  const DEFAULT_CONFIG := Config(
    Destination(false, FACEBOOK_RTMP_URL, ""),
    Destination(false, YOUTUBE_RTMP_URL, ""))

  /**
   * A destination is restreamed to iff it is enabled and its key is a
   * non-empty string (the truthiness test on `enabled` and `streamKey`).
   */
  predicate Eligible(d: Destination)
  {
    d.enabled && d.streamKey != ""
  }

  /**
   * Startup load: `file` is the parsed config file, or `None` when reading or
   * parsing it failed. A failure falls back to the default table, in which no
   * platform is enabled, none has a key, so none is eligible.
   */
  function LoadConfig(file: Option<Config>): (r: Config)
    ensures file.Some? ==> r == file.value
    ensures file.None? ==> forall p :: !Entry(r, p).enabled && Entry(r, p).streamKey == "" && !Eligible(Entry(r, p))
    ensures file.None? ==> Entry(r, Facebook).rtmpUrl == FACEBOOK_RTMP_URL && Entry(r, Youtube).rtmpUrl == YOUTUBE_RTMP_URL
  {
    match file
    case Some(c) => c
    case None => DEFAULT_CONFIG
  }

  /** The restream target: the platform's ingest prefix followed directly by the stream key. */
  function TargetUrl(d: Destination): (u: string)
    ensures |u| == |d.rtmpUrl| + |d.streamKey|
    ensures u[..|d.rtmpUrl|] == d.rtmpUrl && u[|d.rtmpUrl|..] == d.streamKey
  {
    d.rtmpUrl + d.streamKey
  }

  /** One platform's entry in the `GET /api/stream-config` reply. */
  datatype PlatformStatus = PlatformStatus(enabled: bool, status: string)

  datatype StatusReport = StatusReport(facebook: PlatformStatus, youtube: PlatformStatus)

  function ReportFor(r: StatusReport, p: Platform): PlatformStatus
  {
    match p
    case Facebook => r.facebook
    case Youtube => r.youtube
  }

  function StatusOf(d: Destination): (s: PlatformStatus)
    ensures s.enabled == d.enabled
    ensures s.status == "Connected" <==> d.enabled
    ensures s.status == "Connected" || s.status == "Disabled"
  {
    PlatformStatus(d.enabled, if d.enabled then "Connected" else "Disabled")
  }

  /**
   * `GET /api/stream-config`: for every platform, its enabled flag and
   * "Connected" exactly when it is enabled. The stream key does not appear.
   */
  function StatusView(c: Config): (r: StatusReport)
    ensures forall p :: ReportFor(r, p).enabled == Entry(c, p).enabled
    ensures forall p :: ReportFor(r, p).status == "Connected" <==> Entry(c, p).enabled
    ensures forall p :: ReportFor(r, p).status == "Disabled" <==> !Entry(c, p).enabled
  {
    StatusReport(StatusOf(c.facebook), StatusOf(c.youtube))
  }

  /** Two tables that differ at most in their stream keys. */
  ghost predicate SameExceptKeys(c: Config, c': Config)
  {
    forall p :: Entry(c, p).enabled == Entry(c', p).enabled && Entry(c, p).rtmpUrl == Entry(c', p).rtmpUrl
  }

  /** The status view never reveals a stream key: changing only keys cannot change the reply. */
  lemma StatusViewHidesKeys(c: Config, c': Config)
    requires SameExceptKeys(c, c')
    ensures StatusView(c) == StatusView(c')
  {
    assert Entry(c, Facebook).enabled == Entry(c', Facebook).enabled;
    assert Entry(c, Youtube).enabled == Entry(c', Youtube).enabled;
  }

  /**
   * The JSON body of `POST /api/update-stream-config`; a field that is absent
   * is `None`.
   */
  datatype UpdateRequest = UpdateRequest(platform: Option<string>, streamKey: Option<string>)

  /** JavaScript truthiness of an optional string field: present and non-empty. */
  predicate Present(f: Option<string>)
  {
    f.Some? && f.value != ""
  }

  const MISSING_FIELD_ERROR := "Missing platform or stream key"
  const INVALID_PLATFORM_ERROR := "Invalid platform"
  const WRITE_FAILED_ERROR := "Failed to update configuration"

  datatype Validated = Accept(platform: Platform, key: string) | Reject(error: string)

  /**
   * The two checks of the update handler, in the order it makes them: both
   * fields must be present and non-empty, then the platform must be one of
   * the two supported ones.
   */
  function Validate(req: UpdateRequest): (r: Validated)
    ensures r.Accept? <==> Present(req.platform) && Present(req.streamKey) && ParsePlatform(req.platform.value).Some?
    ensures r.Accept? ==> Name(r.platform) == req.platform.value && r.key == req.streamKey.value && r.key != ""
    ensures r.Reject? && !(Present(req.platform) && Present(req.streamKey)) ==> r.error == MISSING_FIELD_ERROR
    ensures r.Reject? && Present(req.platform) && Present(req.streamKey) ==> r.error == INVALID_PLATFORM_ERROR
  {
    if !Present(req.platform) || !Present(req.streamKey) then Reject(MISSING_FIELD_ERROR)
    else match ParsePlatform(req.platform.value)
      case None => Reject(INVALID_PLATFORM_ERROR)
      case Some(p) => Accept(p, req.streamKey.value)
  }

  /**
   * The in-place update: the named platform gets the new key and is enabled,
   * its ingest prefix stays, and the other platform is untouched.
   */
  function WithKey(c: Config, p: Platform, key: string): (r: Config)
    ensures Entry(r, p).streamKey == key && Entry(r, p).enabled
    ensures Entry(r, p).rtmpUrl == Entry(c, p).rtmpUrl
    ensures forall q :: q != p ==> Entry(r, q) == Entry(c, q)
    ensures Eligible(Entry(r, p)) <==> key != ""
  {
    var d := Entry(c, p);
    Put(c, p, d.(streamKey := key, enabled := true))
  }

  /** Every enabled platform has a key: what the update endpoint leaves behind. */
  predicate WellKeyed(c: Config)
  {
    forall p :: Entry(c, p).enabled ==> Entry(c, p).streamKey != ""
  }

  /**
   * The default table is well keyed, and an accepted update keeps a table
   * well keyed: the endpoint only enables a platform together with a
   * non-empty key.
   */
  lemma UpdatesKeepWellKeyed(c: Config, req: UpdateRequest)
    requires WellKeyed(c)
    ensures WellKeyed(LoadConfig(None))
    ensures Validate(req).Accept? ==> WellKeyed(WithKey(c, Validate(req).platform, Validate(req).key))
  {
    var v := Validate(req);
    if v.Accept? {
      var r := WithKey(c, v.platform, v.key);
      forall q | Entry(r, q).enabled
        ensures Entry(r, q).streamKey != ""
      {
        if q != v.platform {
          assert Entry(r, q) == Entry(c, q);
        }
      }
    }
  }

  /**
   * On a well-keyed table the status view is exact: a platform is reported
   * "Connected" exactly when it would be restreamed. On a table loaded from
   * a file that enables a platform without a key, "Connected" is reported
   * for a platform that is not restreamed.
   */
  lemma ConnectedIffEligible(c: Config, p: Platform)
    ensures WellKeyed(c) ==> (ReportFor(StatusView(c), p).status == "Connected" <==> Eligible(Entry(c, p)))
    ensures Entry(c, p).enabled && Entry(c, p).streamKey == "" ==>
      ReportFor(StatusView(c), p).status == "Connected" && !Eligible(Entry(c, p))
  {
  }

  /** The reply of the update endpoint, with its HTTP status code. */
  datatype UpdateResponse = Updated | BadRequest(error: string) | ServerError(error: string)
  {
    function StatusCode(): int
    {
      match this
      case Updated => 200
      case BadRequest(_) => 400
      case ServerError(_) => 500
    }
  }

  /**
   * The live table together with the config file on disk (`None` when it is
   * missing or unreadable). Only the update endpoint writes either.
   */
  /**
   * How a write of the config file ends: written in full, failed when the
   * file is opened (it is untouched), or failed after the open emptied it
   * (out of space, an I/O error, the process dying mid-write).
   */
  datatype WriteOutcome = Written | OpenFailed | FailedAfterTruncate

  class ConfigStore {
    var config: Config
    var file: Option<Config>

    /** Startup: read `file`, falling back to the default table when it is `None`. */
    constructor Load(file: Option<Config>)
      ensures this.file == file
      ensures config == LoadConfig(file)
    {
      this.file := file;
      config := LoadConfig(file);
    }

    /**
     * `POST /api/update-stream-config`. `write` is how `writeFileSync` ends.
     * A rejected request changes nothing. An accepted one updates the table
     * in memory whether or not the write then fails. The file is written in
     * place, not through a temporary file and a rename: a failure when
     * opening it leaves it as it was, but a failure after the open has
     * truncated it leaves a file that no longer parses (`None`).
     */
    method Update(req: UpdateRequest, write: WriteOutcome) returns (resp: UpdateResponse)
      modifies this
      ensures Validate(req).Reject? ==> resp == BadRequest(Validate(req).error) && config == old(config) && file == old(file)
      ensures Validate(req).Accept? ==>
        var v := Validate(req);
        && config == WithKey(old(config), v.platform, v.key)
        && (write == Written ==> resp == Updated && file == Some(config))
        && (write == OpenFailed ==> resp == ServerError(WRITE_FAILED_ERROR) && file == old(file))
        && (write == FailedAfterTruncate ==> resp == ServerError(WRITE_FAILED_ERROR) && file == None)
      ensures resp.StatusCode() == 400 <==> Validate(req).Reject?
    {
      var v := Validate(req);
      if v.Reject? {
        return BadRequest(v.error);
      }
      config := WithKey(config, v.platform, v.key);
      match write {
        case Written =>
          file := Some(config);
          resp := Updated;
        case OpenFailed =>
          resp := ServerError(WRITE_FAILED_ERROR);
        case FailedAfterTruncate =>
          file := None;
          resp := ServerError(WRITE_FAILED_ERROR);
      }
    }
  }
}
