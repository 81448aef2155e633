/**
 * The command line of one restream process (`startRestream` in app.js) and
 * the two strings it is built from: the local RTMP address of the incoming
 * stream and the platform's target URL.
 */
module Ffmpeg {

  /** The executable every restream process runs. */
  const FFMPEG_PATH := "/opt/homebrew/bin/ffmpeg"

  /** The local RTMP server's own address: host `localhost`, port 1936 of the server configuration. */
  const LOCAL_RTMP_BASE := "rtmp://localhost:1936"

  /** Only streams published under this application prefix are restreamed. */
  const LIVE_PREFIX := "/live/"

  predicate IsLivePath(streamPath: string)
  {
    LIVE_PREFIX <= streamPath
  }

  /** The address a restream process reads the incoming stream from. */
  function InputUrl(streamPath: string): (u: string)
    ensures |u| == |LOCAL_RTMP_BASE| + |streamPath|
    ensures u[..|LOCAL_RTMP_BASE|] == LOCAL_RTMP_BASE && u[|LOCAL_RTMP_BASE|..] == streamPath
  {
    LOCAL_RTMP_BASE + streamPath
  }

  /** Encoder settings: rate control, H.264 video at 30 fps with a 60-frame GOP, AAC audio. */
  const ENCODER_OPTIONS: seq<string> := [
    "-bufsize", "6000k",
    "-maxrate", "4500k",
    "-c:v", "libx264",
    "-preset", "veryfast",
    "-g", "60",
    "-r", "30",
    "-b:v", "4000k",
    "-c:a", "aac",
    "-b:a", "128k",
    "-ar", "44100"]

  /**
   * The argument vector passed to ffmpeg: the input first, then the fixed
   * encoder settings, then FLV output tuned for low latency to the target.
   */
  function Args(inputUrl: string, outputUrl: string): (args: seq<string>)
    ensures |args| == 27
    ensures args[..2] == ["-i", inputUrl]
    ensures args[2..22] == ENCODER_OPTIONS
    ensures args[|args| - 5..] == ["-f", "flv", "-tune", "zerolatency", outputUrl]
  {
    ["-i", inputUrl] + ENCODER_OPTIONS + ["-f", "flv", "-tune", "zerolatency", outputUrl]
  }
}
