# Restream orchestration, modelled in Dafny

This project models the restreaming core of a small RTMP relay (`app.js`).
A streamer publishes one stream to the local media server. The relay then
starts one ffmpeg process per configured destination, facebook and youtube,
each reading the local stream and pushing it to the platform's ingest URL.
When the stream ends, every process is killed.

Two HTTP endpoints are modelled with the core:
- one reports which destinations are enabled;
- one stores a new stream key for a platform.

Modules, in dependency order:

- `Wrappers`: the `Option` type.
- `OrderedMap`: the JavaScript `Map` that holds the running processes.
  - It is an insertion-ordered dictionary (`Dict`): `set` on a new key appends it, and `delete` removes one key.
  - Iteration follows insertion order.
- `StreamConfig`: the destination table `streamConfig`.
  - Loading it at startup, with the built-in default when the file cannot be read.
  - Eligibility: enabled and a non-empty key.
  - The target URL, the status view, and the validation and in-place update done by the update endpoint.
  - `ConfigStore` is the table in memory together with the file on disk.
- `Ffmpeg`: the `/live/` path filter, the local input URL and the 27-argument ffmpeg command line.
- `Planner`: which launches a publish makes, in which order, to which URL and after which delay.
- `Registry`: the process registry `activeStreams` (class `ActiveStreams`).
  - Spawning is an action with a success flag; a successful spawn yields a fresh handle.
  - Kills and spawn calls are recorded in order.
  - The invariant kept by every operation:
    - every tracked process was spawned and not yet killed;
    - no process is tracked under two platforms;
    - no process is killed twice.
- `Restreamer`: the `prePublish` handler, proved against `PlanPublish` and `Published`.
- `Scenarios`: whole sessions (configure, publish, end, reconnect), stated on the functions the handlers are proved against.

Where the design description and the code disagree, the model follows the
code:
- **Youtube's delay.** The design says the first eligible launch starts at once and each later one waits a further stagger interval. In the code, facebook always waits 0 ms and youtube always waits 2000 ms, even when facebook is not launched (`DelayOf`, `LaunchesStaggered`).
- **Delays are chained.** The design says the delays are absolute offsets. In the code they are chained: youtube's wait starts after facebook's launch returns. Since facebook waits 0 ms and `spawn` returns at once, this makes no difference to the plan. The model records each launch's delay as data.
- **No cancellation.** The design asks that a stream end cancel launches still waiting. The code has no cancellation. A youtube launch still waiting when the stream ends happens anyway, and its process stays tracked until the next end event. `ActiveStreams.Launch` can be called after `ActiveStreams.DonePublish`, which is exactly this order.
- **A second publish replaces a running process.** The design says a destination must never have two live ffmpeg processes: an existing one is stopped, or the new launch refused. In the code, `activeStreams.set` (app.js:136) overwrites the entry of a platform that already holds a process, without killing it. This happens when a second `/live/` stream is published before the first one ends, since `donePublish` ignores the path. The replaced process keeps running and is no longer tracked (see "## Findings").
- **The config file is not written atomically.** The design asks for an atomic update: the new table is written elsewhere and renamed over the file, so a failure never damages the old one. The code calls `fs.writeFileSync` on the file itself (app.js:229), which empties it before writing. A failure after that point leaves a truncated file. The next start cannot parse it and falls back to the default table (app.js:11-29), losing every stored key. `ConfigStore.Update` models this with its `FailedAfterTruncate` outcome.

## Model

| member | source | states |
|---|---|---|
| StreamConfig.ParsePlatform | app.js:219 | a platform string is accepted exactly when it is the name of a supported platform, and the result is that platform |
| StreamConfig.Eligible | app.js:143-156 | no contract of its own: a platform is restreamed iff it is enabled and its key is non-empty (JavaScript truthiness of the key string); what it means for the plan is stated by `Planner.PlanPublishSpec`, and on keyed tables by `StreamConfig.ConnectedIffEligible` |
| StreamConfig.LoadConfig | app.js:11-29 | a readable file gives its table unchanged; otherwise the default table, where neither platform is enabled or has a key (so neither is eligible) and the ingest prefixes are the facebook and youtube defaults |
| StreamConfig.ConfigStore.Load | app.js:11-29 | at startup the live table is the loaded table and the file is what was found on disk |
| StreamConfig.TargetUrl | app.js:145-152 | the restream target is the platform's ingest prefix immediately followed by the stream key, with no separator |
| StreamConfig.StatusOf | app.js:200-207 | a platform's status copies its enabled flag, and reads "Connected" exactly when enabled and "Disabled" otherwise |
| StreamConfig.StatusView | app.js:198-209 | for every platform, the reply's enabled flag is the table's, and its status is "Connected" iff enabled and "Disabled" iff not |
| StreamConfig.StatusViewHidesKeys | app.js:198-209 | two tables that differ only in stream keys give the same status reply, so the endpoint never reveals a key |
| StreamConfig.Validate | app.js:213-221 | a request is accepted iff both fields are present and non-empty and the platform is supported; an accepted request yields that platform and key; a missing field is rejected with "Missing platform or stream key", a present but unknown platform with "Invalid platform" |
| StreamConfig.WithKey | app.js:225-226 | the named platform gets the new key and is enabled, keeps its ingest prefix and is eligible iff the key is non-empty; the other platform is unchanged |
| StreamConfig.UpdatesKeepWellKeyed | app.js:215-226 | the default table enables nothing without a key, and an accepted update preserves that: no platform is enabled without a key |
| StreamConfig.ConnectedIffEligible | app.js:198-209 | on such a table "Connected" means the platform is restreamed; a platform enabled with an empty key (possible only from a hand-edited file) is reported "Connected" but not restreamed |
| StreamConfig.ConfigStore.Update | app.js:212-236 | a rejected request answers 400 with its error and changes nothing; an accepted one changes only the named platform in memory, whatever happens to the write; a completed write answers 200 and puts that table on disk; a failed write answers 500 "Failed to update configuration" and keeps the in-memory change; the file is left as it was when the open fails, and unreadable (so the next start falls back to the default table) when the write fails after the open has truncated it |
| Ffmpeg.InputUrl | app.js:128 | the input is the local server's address on port 1936 followed by the stream path |
| Ffmpeg.Args | app.js:69-89 | ffmpeg gets 27 arguments: `-i` and the input, the 20 fixed encoder settings, then FLV output tuned for zero latency to the target as the last argument |
| Ffmpeg.IsLivePath | app.js:123 | no contract of its own: `StreamPath.startsWith('/live/')`; that it decides whether a publish is restreamed at all is stated by `Planner.PlanPublishSpec` and `Scenarios.NonLivePublish` |
| Planner.PlanPublish | app.js:122-156 | no contract of its own: the launches a publish makes; its meaning (a plan iff `/live/`, one launch per eligible platform, facebook first, URL and delay per platform) is proved for all inputs by `Planner.PlanPublishSpec` |
| Planner.PlanPublishSpec | app.js:122-156 | a plan exists iff the path starts with `/live/`; it reads from the local input URL; a platform is launched iff its entry is eligible; each launch goes to that entry's target URL after the platform's delay; facebook's launch precedes youtube's |
| Planner.LaunchesStaggered | app.js:143-156 | a publish makes at most two launches, and the n-th waits at least n times the 2000 ms stagger |
| Planner.AcceptedUpdateIsRestreamed | app.js:144-156 | after an accepted update, the next `/live/` publish launches that platform to its prefix followed by the new key; the other platform's launches are unchanged |
| OrderedMap.Empty | app.js:64 | a new map is well formed, has no keys and maps every key to nothing |
| OrderedMap.Dict.Set | app.js:136 | after `set`, the key maps to the new value and every other key is unchanged; a new key is appended to the iteration order, an existing one keeps its place; well-formedness is kept |
| OrderedMap.Dict.Delete | app.js:171 | after `delete`, the key maps to nothing, every other key is unchanged and the others keep their order; deleting an absent key changes nothing; well-formedness is kept |
| OrderedMap.ValuesDeleteFirst | app.js:168-172 | deleting the first key visited leaves the remaining keys in order, and the values are the first key's value followed by the values that remain |
| OrderedMap.ValuesCover | app.js:168-172 | iterating a well-formed map visits one value per key, every key's value is visited, and every value visited belongs to some key |
| OrderedMap.NoKeysIsEmpty | app.js:168-172 | a well-formed map with no keys left is the empty map |
| Registry.EndAsWritten | app.js:101-109 | a process's close or error event, as written, removes its platform's entry whichever process that entry holds, and leaves the other platform's entry alone |
| Registry.StaleEndDropsSuccessor | app.js:101-104 | as written, the exit of process 0 removes facebook's entry even though that entry holds the later process 1 |
| Registry.EndOwn | app.js:101-109 | corrected: the event removes the platform's entry only if it still holds the process that ended; an entry holding any other process is untouched |
| Registry.RegisterFreshKeepsInv | app.js:135-136 | registering a freshly spawned process keeps the registry invariant |
| Registry.KillFirstKeepsInv | app.js:168-172 | killing and deleting the first entry keeps the invariant: no process is killed twice and the rest stay tracked; the kills so far plus the values still in the map are the same before and after the step |
| Registry.ActiveStreams.constructor | app.js:64 | the registry starts empty, with no spawns or kills recorded |
| Registry.ActiveStreams.Launch | app.js:132-141 | every launch records one spawn of ffmpeg with the argument vector for its input and target; a successful spawn registers a fresh process under the platform, replacing any earlier entry; a spawn that throws leaves the registry and the handle counter unchanged; nothing is killed |
| Registry.StopPrevious | app.js:136 | corrected: before a new launch for a platform, its process, if any, is killed and its entry removed; other platforms' entries are untouched; with no process nothing is killed |
| Registry.StopPreviousAccounts | app.js:136 | corrected: stopping the previous process and then registering a fresh one keeps the registry invariant, and every process tracked before is either still tracked under its platform or killed |
| Registry.ActiveStreams.LaunchStoppingPrevious | app.js:132-141 | corrected launch: records the same spawn call as `Launch`, first kills and deregisters the platform's previous process, then registers the fresh process on success; the invariant is kept |
| Registry.ActiveStreams.OnProcessEndAsWritten | app.js:101-109 | the registry afterwards is `EndAsWritten` of the one before, and the invariant holds |
| Registry.ActiveStreams.OnProcessEnd | app.js:101-109 | the registry afterwards is `EndOwn` of the one before, and the invariant holds |
| Registry.ActiveStreams.DonePublish | app.js:160-173 | afterwards the map is empty; the kill log grows by exactly the tracked processes, in insertion order, one kill per tracked entry and no process twice; the handle of every entry tracked beforehand is among the new kills; with nothing tracked nothing happens |
| Restreamer.SpawnsForCalls | app.js:67-89 | a plan makes one spawn call per launch, in launch order, each running ffmpeg with 27 arguments that read the plan's input and end with the launch's target |
| Restreamer.SpawnsForSplit | app.js:143-156 | the spawn calls of two runs of launches, one after the other, are the calls of the first run followed by those of the second |
| Restreamer.LaunchStep | app.js:144-156 | no contract of its own: one platform's `if` and `startStreamWithDelay`: an eligible platform whose spawn does not throw is `set` to the next handle; its effect is stated per platform by `Restreamer.PublishedTracks` and carried out by `Restreamer.StartIfEligible` |
| Restreamer.Published | app.js:132-156 | no contract of its own: facebook's step, then youtube's; its meaning is stated by `Restreamer.PublishedTracks`, and `Restreamer.PrePublish` is proved to produce it |
| Restreamer.PublishedTracks | app.js:132-156 | after a publish, each platform that is eligible and whose spawn succeeds holds a process spawned by this publish; every other entry is as before, so a failed spawn affects no other platform |
| Restreamer.StartIfEligible | app.js:144-149 | an eligible platform gets one spawn toward its target, registered as `LaunchStep` says; an ineligible one changes nothing |
| Restreamer.PrePublish | app.js:115-157 | returns the plan `PlanPublish` gives for the current table; a path outside `/live/` changes nothing; otherwise the spawns recorded are those of the plan's launches, nothing is killed, the registry becomes `Published` of the old one, and the invariant holds |
| Scenarios.ConfigureThenPublish | app.js:115-157 | from the default table, setting youtube's key "K" is accepted; a publish to `/live/s1` then plans one youtube launch after 2000 ms to the youtube prefix followed by "K", and the end of that stream kills exactly process 0 |
| Scenarios.NonLivePublish | app.js:122-126 | a publish outside `/live/` starts nothing, even with both platforms configured |
| Scenarios.FirstSpawnFails | app.js:134-140 | with both platforms configured, both spawns are attempted; when facebook's throws, youtube is still tracked and is the only process killed at the end |
| Scenarios.QuickReconnectAsWritten | app.js:101-109 | as written: after an end, an immediate re-publish and the late exit of the killed process, the entry of the new process is gone, and the final end kills nothing |
| Scenarios.QuickReconnect | app.js:101-109 | corrected: the same session's final end kills the new process 1 |
| Scenarios.RepublishOrphansProcess | app.js:132-141 | as written: two `/live/` publishes for facebook with no end between them; the second replaces process 0 with process 1, so process 0 is tracked no more and the end of the stream kills only process 1 |
| Scenarios.RepublishStopsPrevious | app.js:132-141 | corrected: the same two publishes with the previous process stopped first; process 0 is killed by the second launch and process 1 by the end, so every process started is killed |

## Left out

- The media server's own setup: ports, HLS/DASH transcoding tasks and starting the server. Also the express application, static file serving, the `/api/status` endpoint, the media server's `error` event handler and every log line. None of these touch the restream state.
- The stdout/stderr handlers of a process. They only log.
- Real time:
  - The delays before launches are data in the plan; no timer runs.
  - `PrePublish` performs both launches in one step, so an end event or a config update during youtube's 2 s wait is not interleaved inside it. Such orders can be composed from the separate `ActiveStreams` operations instead. In the source, youtube's entry is re-read after facebook's launch.
- Real processes:
  - `spawn` is modelled by its outcome (a fresh handle, or an exception for the platforms in `spawnFails`), and `kill()` by an entry in a log.
  - Exit codes, signals, and the time between a kill and the process's close event are not modelled.
  - A spawn failure reported asynchronously arrives as an end event: `OnProcessEndAsWritten` as app.js handles it (`OnProcessEnd` is the corrected variant).
- File I/O and JSON:
  - Reading the config file is an `Option<Config>`, and writing it ends in one of three `WriteOutcome`s.
  - A file that parses but lacks a platform entry, or holds values of other JSON types, is not modelled. The table type always has both entries with a boolean flag and string fields.
  - Consequently, truthiness is modelled only for strings and booleans.
- The update endpoint's success body (`success: true` and a fixed message) is not modelled; `Updated` stands for it.
- `config/stream-endpoints.js` is not part of this model.
- `donePublish` and `prePublish` ignore the session id and arguments. `donePublish` ignores the stream path too: any stream's end stops every restream. The model keeps this: `DonePublish` takes no path.

## Findings

| source | as written | input that shows it | evidently intended | confidence | as-written member | corrected member |
|---|---|---|---|---|---|---|
| app.js:101-109 | the close and error callbacks of a process delete the entry of its platform, whichever process that entry now holds | facebook configured; publish (process 0), end (process 0 killed), publish again at once (process 1 registered), then process 0's close event arrives; the facebook entry is deleted, so the next end does not kill process 1 | a process that exits removes only its own entry | medium; not executed | Registry.EndAsWritten, Registry.StaleEndDropsSuccessor, Scenarios.QuickReconnectAsWritten | Registry.EndOwn, Registry.ActiveStreams.OnProcessEnd, Scenarios.QuickReconnect |
| app.js:136 | a launch stores the new process under its platform with `activeStreams.set`, replacing any process already there without killing it | facebook configured; `/live/a` is published (process 0), then `/live/b` is published before `/live/a` ends; process 1 replaces process 0 in the map, and process 0 keeps running and is never killed | a platform never has two live processes: the running one is stopped (or the launch refused) before the new one is registered | medium; not executed | Registry.ActiveStreams.Launch, Scenarios.RepublishOrphansProcess | Registry.StopPrevious, Registry.StopPreviousAccounts, Registry.ActiveStreams.LaunchStoppingPrevious, Scenarios.RepublishStopsPrevious |
