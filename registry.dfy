/**
 * The registry of running restream processes (`activeStreams` in app.js): a
 * `Map` from platform to process, filled when a launch succeeds, cleared
 * entry by entry when a process closes or fails, and emptied, killing each
 * process, when the publish ends. Processes are opaque handles; spawning is
 * an action that either yields a fresh handle or fails, and killing is
 * recorded rather than performed.
 */
module Registry {
  import opened Wrappers
  import opened OrderedMap
  import opened StreamConfig
  import opened Ffmpeg

  /** An opaque process handle. */
  type Handle = nat

  type Streams = Dict<Platform, Handle>

  /** One call of `spawn`: which platform it was for, the program and its arguments. */
  datatype SpawnCall = SpawnCall(platform: Platform, program: string, args: seq<string>)

  /**
   * The close/error callback as app.js writes it: it deletes the entry of the
   * process's platform, whatever process that entry now holds. The handle of
   * the process that ended plays no part.
   */
  function EndAsWritten(active: Streams, p: Platform, ended: Handle): (r: Streams)
    ensures r.Get(p) == None
    ensures forall q :: q != p ==> r.Get(q) == active.Get(q)
  {
    active.Delete(p)
  }

  /**
   * The callback as intended: the process that ended deregisters its own
   * entry, and an entry that holds a later process for the same platform
   * stays.
   */
  function EndOwn(active: Streams, p: Platform, ended: Handle): (r: Streams)
    ensures r.Get(p) == if active.Get(p) == Some(ended) then None else active.Get(p)
    ensures forall q :: q != p ==> r.Get(q) == active.Get(q)
    ensures forall q :: active.Get(q).Some? && active.Get(q).value != ended ==> r.Get(q) == active.Get(q)
  {
    if active.Get(p) == Some(ended) then active.Delete(p) else active
  }

  /**
   * A stale end event removes a process that is still running: the
   * facebook entry holds process 1, the earlier process 0 reports its end,
   * and the entry of process 1 is gone.
   */
  lemma StaleEndDropsSuccessor()
    ensures var active := Empty<Platform, Handle>().Set(Facebook, 1);
      active.Get(Facebook) == Some(1) && EndAsWritten(active, Facebook, 0).Get(Facebook) == None
  {
  }

  ghost predicate NoRepeats(s: seq<Handle>)
  {
    forall i, j :: 0 <= i < j < |s| ==> s[i] != s[j]
  }

  ghost predicate AllBelow(s: seq<Handle>, bound: Handle)
  {
    forall i :: 0 <= i < |s| ==> s[i] < bound
  }

  /**
   * The registry invariant: a well-formed map; every tracked process was
   * spawned earlier, has not been killed, and is tracked under one platform
   * only; no process was ever killed twice, and only spawned ones were killed.
   */
  ghost predicate Inv(active: Streams, next: Handle, kills: seq<Handle>)
  {
    && active.Valid()
    && (forall p :: p in active.table ==> active.table[p] < next && active.table[p] !in kills)
    && (forall p, q :: p in active.table && q in active.table && p != q ==> active.table[p] != active.table[q])
    && NoRepeats(kills)
    && AllBelow(kills, next)
  }

  /**
   * One round of the `donePublish` loop keeps the invariant: killing the
   * first process in iteration order and deleting its entry leaves a kill
   * log that still names no process twice.
   */
  lemma KillFirstKeepsInv(active: Streams, next: Handle, kills: seq<Handle>)
    requires Inv(active, next, kills) && active.order != []
    ensures Inv(active.Delete(active.order[0]), next, kills + [active.table[active.order[0]]])
    ensures active.Delete(active.order[0]).order == active.order[1..]
    ensures kills + [active.table[active.order[0]]] + active.Delete(active.order[0]).Values()
      == kills + active.Values()
  {
    var first := active.order[0];
    var process := active.table[first];
    var rest := active.Delete(first);
    ValuesDeleteFirst(active);
    assert kills + [process] + rest.Values() == kills + ([process] + rest.Values());
    forall p | p in rest.table
      ensures rest.table[p] !in kills + [process]
    {
      assert p != first;
    }
  }

  /**
   * Registering a freshly spawned process keeps the invariant: it is new, so
   * it is not yet killed and no other platform holds it.
   */
  lemma RegisterFreshKeepsInv(active: Streams, next: Handle, kills: seq<Handle>, p: Platform)
    requires Inv(active, next, kills)
    ensures Inv(active.Set(p, next), next + 1, kills)
  {
    var r := active.Set(p, next);
    assert next !in kills;
    forall q | q in r.table
      ensures r.table[q] < next + 1 && r.table[q] !in kills
    {
      if q != p {
        assert r.table[q] == active.table[q];
      }
    }
  }

  /**
   * Stopping the process registered under `p` before a new launch for `p`,
   * as a registry that must never run two processes for one destination
   * would do: the process, if any, is killed and its entry dropped.
   */
  function StopPrevious(active: Streams, kills: seq<Handle>, p: Platform): (r: (Streams, seq<Handle>))
    ensures r.0.Get(p) == None
    ensures forall q :: q != p ==> r.0.Get(q) == active.Get(q)
    ensures active.Get(p).Some? ==> r.1 == kills + [active.Get(p).value]
    ensures active.Get(p).None? ==> r.1 == kills
  {
    (active.Delete(p), if p in active.table then kills + [active.table[p]] else kills)
  }

  /**
   * With the previous process stopped first, registering a fresh process
   * under `p` loses none: every process tracked before is still tracked
   * under its platform or has been killed, and the invariant is kept.
   */
  lemma StopPreviousAccounts(active: Streams, next: Handle, kills: seq<Handle>, p: Platform)
    requires Inv(active, next, kills)
    ensures var stopped := StopPrevious(active, kills, p);
      var after := stopped.0.Set(p, next);
      && Inv(stopped.0, next, stopped.1)
      && Inv(after, next + 1, stopped.1)
      && forall q :: q in active.table ==>
           (q in after.table && after.table[q] == active.table[q]) || active.table[q] in stopped.1
  {
    var stopped := StopPrevious(active, kills, p);
    if p in active.table {
      var process := active.table[p];
      forall q | q in stopped.0.table
        ensures stopped.0.table[q] !in stopped.1
      {
        assert q != p;
      }
    }
    RegisterFreshKeepsInv(stopped.0, next, stopped.1, p);
  }

  class ActiveStreams {
    /** The `Map` itself. */
    var active: Streams
    /** The handle the next successful spawn yields. */
    var nextHandle: Handle
    /** Every `kill()` issued, in order. */
    var kills: seq<Handle>
    /** Every `spawn` call, in order, whether or not it succeeded. */
    var spawns: seq<SpawnCall>

    /** The registry invariant holds of the current state. */
    ghost predicate Valid()
      reads this
    {
      Inv(active, nextHandle, kills)
    }

    constructor ()
      ensures Valid()
      ensures active == Empty() && nextHandle == 0 && kills == [] && spawns == []
    {
      active, nextHandle, kills, spawns := Empty(), 0, [], [];
    }

    /**
     * One launch once its delay has passed: spawn ffmpeg for `p`; on success
     * register the new process under `p` (replacing any process registered
     * there before, which is neither killed nor tracked any more); when the
     * spawn throws, leave the registry as it was.
     */
    method Launch(p: Platform, inputUrl: string, url: string, spawnOk: bool) returns (h: Option<Handle>)
      requires Valid()
      modifies this
      ensures Valid()
      ensures spawns == old(spawns) + [SpawnCall(p, FFMPEG_PATH, Args(inputUrl, url))]
      ensures kills == old(kills)
      ensures spawnOk ==>
        h == Some(old(nextHandle)) && nextHandle == old(nextHandle) + 1 && active == old(active).Set(p, old(nextHandle))
      ensures !spawnOk ==> h == None && nextHandle == old(nextHandle) && active == old(active)
    {
      spawns := spawns + [SpawnCall(p, FFMPEG_PATH, Args(inputUrl, url))];
      if spawnOk {
        h := Some(nextHandle);
        RegisterFreshKeepsInv(active, nextHandle, kills, p);
        active := active.Set(p, nextHandle);
        nextHandle := nextHandle + 1;
      } else {
        h := None;
      }
    }

    /**
     * `Launch` as it should be: the process already registered under `p`, if
     * any, is killed and deregistered before the new spawn, so a platform
     * never has two processes and none leaves the registry unkilled.
     */
    method LaunchStoppingPrevious(p: Platform, inputUrl: string, url: string, spawnOk: bool) returns (h: Option<Handle>)
      requires Valid()
      modifies this
      ensures Valid()
      ensures spawns == old(spawns) + [SpawnCall(p, FFMPEG_PATH, Args(inputUrl, url))]
      ensures kills == StopPrevious(old(active), old(kills), p).1
      ensures spawnOk ==>
        && h == Some(old(nextHandle)) && nextHandle == old(nextHandle) + 1
        && active == StopPrevious(old(active), old(kills), p).0.Set(p, old(nextHandle))
      ensures !spawnOk ==> h == None && nextHandle == old(nextHandle) && active == StopPrevious(old(active), old(kills), p).0
    {
      StopPreviousAccounts(active, nextHandle, kills, p);
      var stopped := StopPrevious(active, kills, p);
      active, kills := stopped.0, stopped.1;
      h := Launch(p, inputUrl, url, spawnOk);
    }

    /** The close/error callback of process `ended`, launched for `p`, as app.js writes it. */
    method OnProcessEndAsWritten(p: Platform, ended: Handle)
      requires Valid()
      modifies this`active
      ensures Valid()
      ensures active == EndAsWritten(old(active), p, ended)
    {
      active := active.Delete(p);
    }

    /** The close/error callback of process `ended`, launched for `p`, removing only its own entry. */
    method OnProcessEnd(p: Platform, ended: Handle)
      requires Valid()
      modifies this`active
      ensures Valid()
      ensures active == EndOwn(old(active), p, ended)
    {
      if active.Get(p) == Some(ended) {
        active := active.Delete(p);
      }
    }

    /**
     * `donePublish`: walk the map in insertion order, kill each process and
     * delete its entry. Afterwards the map is empty and every process that
     * was tracked has been killed exactly once; on an empty map nothing
     * happens.
     */
    method DonePublish()
      requires Valid()
      modifies this`active, this`kills
      ensures Valid()
      ensures active == Empty()
      ensures kills == old(kills) + old(active).Values()
      ensures |kills| == |old(kills)| + |old(active).order|
      ensures forall p :: p in old(active).table ==> old(active).table[p] in kills[|old(kills)|..]
    {
      ValuesCover(active);
      var remaining, killed := active, kills;
      while remaining.order != []
        invariant Inv(remaining, nextHandle, killed)
        invariant killed + remaining.Values() == old(kills) + old(active).Values()
        decreases |remaining.order|
      {
        var p := remaining.order[0];
        var process := remaining.table[p];
        KillFirstKeepsInv(remaining, nextHandle, killed);
        killed := killed + [process];
        remaining := remaining.Delete(p);
      }
      NoKeysIsEmpty(remaining);
      assert killed == old(kills) + old(active).Values() by {
        assert remaining.Values() == [];
      }
      active, kills := remaining, killed;
      assert kills[|old(kills)|..] == old(active).Values();
    }
  }
}
