/**
 * The checkpoint-and-restart controller: it snapshots the state of every
 * task into one file at most every ten seconds and once more on failure,
 * deletes that file on success, and on restart copies back the COMPLETED
 * and SKIP states it finds there.
 */
module Checkpoints {
  import opened Executors
  import opened Files

  /** Minimum number of seconds between two throttled writes. */
  const ThrottleSeconds: int := 10

  const TmpSuffix: string := ".tmp"

  /** Result of `on_restart`: done, or the checkpoint file did not load. */
  datatype Outcome = Pass | Fail(error: LoadError)

  function PermPath(dir: Path, name: string): (p: Path)
  {
    Join(dir, name)
  }

  function TmpPath(dir: Path, name: string): (p: Path)
  {
    Join(dir, name + TmpSuffix)
  }

  /** The staging file never coincides with the checkpoint file. */
  lemma TmpIsNotPerm(dir: Path, name: string)
    ensures TmpPath(dir, name) != PermPath(dir, name)
  {
    assert |TmpPath(dir, name)| == |PermPath(dir, name)| + |TmpSuffix|;
  }

  // ---------------------------------------------------------------------
  // Snapshot and restore
  // ---------------------------------------------------------------------

  /** The states a restart may take over: a task that finished or was skipped. */
  predicate IsResumable(s: ExecutionState)
  {
    s == Completed || s == Skip
  }

  /** The full snapshot written at every checkpoint: one entry per task of
      the registry, and, when the registry files every task under its own
      name, each executor's name mapped to its current state. */
  function Snapshot(tasks: map<string, Executor>): (snap: map<string, ExecutionState>)
    ensures snap.Keys == tasks.Keys
    ensures WellKeyed(tasks) ==>
      forall ex :: ex in tasks.Values ==> ex.name in snap && snap[ex.name] == ex.state
  {
    map n | n in tasks :: tasks[n].state
  }

  /** The snapshot is keyed by the tasks' own names, holds every task of the
      registry and nothing else, and records each one's current state, of
      whatever variant. */
  lemma SnapshotByName(tasks: map<string, Executor>)
    requires WellKeyed(tasks)
    ensures Snapshot(tasks).Keys == set ex | ex in tasks.Values :: ex.name
    ensures forall ex :: ex in tasks.Values ==> ex.name in Snapshot(tasks) && Snapshot(tasks)[ex.name] == ex.state
  {
    var names := set ex | ex in tasks.Values :: ex.name;
    forall n | n in tasks ensures n in names {
      assert tasks[n] in tasks.Values;
    }
    forall ex | ex in tasks.Values ensures ex.name in tasks && tasks[ex.name] == ex {
      var k :| k in tasks && tasks[k] == ex;
    }
  }

  /** The registry after a restart from `stored`: a task takes the stored
      state only when that state is COMPLETED or SKIP. */
  function Restored(tasks: map<string, Executor>, stored: map<string, ExecutionState>): (r: map<string, Executor>)
    ensures r.Keys == tasks.Keys
    ensures forall n :: n in tasks ==> r[n].name == tasks[n].name
    ensures forall n :: n in tasks && n in stored && IsResumable(stored[n]) ==> r[n].state == stored[n]
    ensures forall n :: n in tasks && r[n] != tasks[n] ==> n in stored && IsResumable(stored[n])
    ensures WellKeyed(tasks) ==> WellKeyed(r)
  {
    map n | n in tasks :: if n in stored && IsResumable(stored[n]) then tasks[n].(state := stored[n]) else tasks[n]
  }

  /** With no checkpoint file the loaded map is empty and a restart leaves
      the registry exactly as it was. */
  lemma RestoreFromNothing(tasks: map<string, Executor>)
    ensures Restored(tasks, map[]) == tasks
  {
  }

  /** Restarting twice from the same file is the same as restarting once. */
  lemma RestoreIdempotent(tasks: map<string, Executor>, stored: map<string, ExecutionState>)
    ensures Restored(Restored(tasks, stored), stored) == Restored(tasks, stored)
  {
  }

  /** Restoring a registry from its own snapshot changes nothing. */
  lemma RestoreOwnSnapshot(tasks: map<string, Executor>)
    ensures Restored(tasks, Snapshot(tasks)) == tasks
  {
  }

  // ---------------------------------------------------------------------
  // Throttle
  // ---------------------------------------------------------------------

  /** `update` writes when at least ten seconds have passed since the last
      throttled write. */
  predicate Due(last: int, now: int)
  {
    now - last >= ThrottleSeconds
  }

  /** The timer after an `update` at time `now`. */
  function Tick(last: int, now: int): (r: int)
    ensures Due(last, now) ==> r == now
    ensures !Due(last, now) ==> r == last
    ensures now - r < ThrottleSeconds
  {
    if Due(last, now) then now else last
  }

  /** The timer starts at zero, so the first update writes exactly when the
      clock reads at least ten. */
  lemma FirstUpdate(now: int)
    ensures Due(0, now) <==> now >= 10
  {
  }

  datatype TimerRun = TimerRun(last: int, writes: nat)

  /** Timer and number of writes after `update` is called at each time of
      `clocks` in turn, starting from timer `last`. */
  function RunUpdates(last: int, clocks: seq<int>): (r: TimerRun)
    ensures r.writes <= |clocks|
    ensures clocks != [] ==> clocks[|clocks| - 1] - r.last < ThrottleSeconds
    ensures clocks == [] ==> r == TimerRun(last, 0)
    decreases |clocks|
  {
    if clocks == [] then TimerRun(last, 0)
    else
      var rest := RunUpdates(Tick(last, clocks[0]), clocks[1..]);
      TimerRun(rest.last, rest.writes + if Due(last, clocks[0]) then 1 else 0)
  }

  /** Running the updates of `clocks` and then one more at `now` is one
      more `Tick` after the run, writing once more exactly when it is due. */
  lemma {:induction false} RunUpdatesThenOne(last: int, clocks: seq<int>, now: int)
    ensures var before := RunUpdates(last, clocks);
      RunUpdates(last, clocks + [now]) ==
        TimerRun(Tick(before.last, now), before.writes + if Due(before.last, now) then 1 else 0)
    decreases |clocks|
  {
    if clocks == [] {
      assert [now][1..] == [];
    } else {
      assert (clocks + [now])[1..] == clocks[1..] + [now];
      RunUpdatesThenOne(Tick(last, clocks[0]), clocks[1..], now);
    }
  }

  /** Once the timer is at or after `t`, updates before `t + 10` write nothing. */
  lemma {:induction false} NoWriteBeforeDue(last: int, clocks: seq<int>, t: int)
    requires t <= last
    requires forall i :: 0 <= i < |clocks| ==> clocks[i] < t + ThrottleSeconds
    ensures RunUpdates(last, clocks) == TimerRun(last, 0)
    decreases |clocks|
  {
    if clocks != [] {
      assert !Due(last, clocks[0]);
      NoWriteBeforeDue(last, clocks[1..], t);
    }
  }

  /** However many times `update` is called, and in whatever order the
      clock readings come, calls whose readings all lie in one window of
      less than ten seconds write at most once. */
  lemma {:induction false} AtMostOneWritePerWindow(last: int, clocks: seq<int>, t: int)
    requires forall i :: 0 <= i < |clocks| ==> t <= clocks[i] < t + ThrottleSeconds
    ensures RunUpdates(last, clocks).writes <= 1
    decreases |clocks|
  {
    if clocks != [] {
      if Due(last, clocks[0]) {
        NoWriteBeforeDue(clocks[0], clocks[1..], t);
      } else {
        AtMostOneWritePerWindow(last, clocks[1..], t);
      }
    }
  }

  /** Two successive updates less than ten seconds apart write at most once. */
  lemma TwoUpdatesWriteAtMostOnce(last: int, t1: int, t2: int)
    requires t2 - t1 < ThrottleSeconds
    ensures RunUpdates(last, [t1, t2]).writes <= 1
  {
    assert [t1, t2][1..] == [t2];
    assert [t2][1..] == [];
  }

  /** A checkpoint that is ten seconds stale is always refreshed: if some
      update sees the clock at least ten seconds past the starting timer,
      the run writes at least once. */
  lemma {:induction false} StaleTimerForcesWrite(last: int, clocks: seq<int>, i: nat)
    requires i < |clocks| && Due(last, clocks[i])
    ensures RunUpdates(last, clocks).writes >= 1
    decreases |clocks|
  {
    if !Due(last, clocks[0]) {
      StaleTimerForcesWrite(last, clocks[1..], i - 1);
    }
  }

  // ---------------------------------------------------------------------
  // The write protocol: dump to the staging file, unlink, rename
  // ---------------------------------------------------------------------

  /** How far a write has got: nothing done, the dump to the staging file
      cut short, the dump complete, the old checkpoint unlinked, the
      staging file renamed into place. */
  datatype WriteStage = Before | TempTorn | TempWritten | OldRemoved | Done

  /** The files after a write of `snap` to the checkpoint `name` in `dir`
      has reached `stage`. */
  function FilesAfter(files: map<Path, FileContent>, dir: Path, name: string,
                      snap: map<string, ExecutionState>, stage: WriteStage): (f: map<Path, FileContent>)
    ensures stage == TempTorn ==> TmpPath(dir, name) in f && f[TmpPath(dir, name)] == Unreadable
    ensures stage in {TempWritten, OldRemoved} ==> TmpPath(dir, name) in f && f[TmpPath(dir, name)] == Pickled(snap)
    ensures stage == Done ==> TmpPath(dir, name) !in f
    ensures forall p :: p != PermPath(dir, name) && p != TmpPath(dir, name) ==>
      (p in f <==> p in files) && (p in files ==> f[p] == files[p])
  {
    TmpIsNotPerm(dir, name);
    var perm, tmp := PermPath(dir, name), TmpPath(dir, name);
    var written := files[tmp := Pickled(snap)];
    var unlinked := written - {perm};
    match stage
    case Before => files
    case TempTorn => files[tmp := Unreadable]
    case TempWritten => written
    case OldRemoved => unlinked
    case Done => Moved(unlinked, tmp, perm)
  }

  /** `_load_checkpoint`: the stored states, the empty map when there is
      no checkpoint file, an error when the file does not unpickle. */
  function LoadedFrom(files: map<Path, FileContent>, perm: Path): (r: Result<map<string, ExecutionState>>)
    ensures perm !in files ==> r == Ok(map[])
    ensures perm in files && files[perm].Pickled? ==> r == Ok(files[perm].states)
    ensures perm in files && files[perm].Unreadable? ==> r.Err?
  {
    if perm !in files then Ok(map[]) else Unpickle(perm, files[perm])
  }

  /** A complete write leaves the new snapshot at the checkpoint path, no
      staging file, and every other file as it was. */
  lemma WriteOutcome(files: map<Path, FileContent>, dir: Path, name: string, snap: map<string, ExecutionState>)
    ensures var f := FilesAfter(files, dir, name, snap, Done);
      && PermPath(dir, name) in f && f[PermPath(dir, name)] == Pickled(snap)
      && TmpPath(dir, name) !in f
      && forall p :: p != PermPath(dir, name) && p != TmpPath(dir, name) ==>
           (p in f <==> p in files) && (p in files ==> f[p] == files[p])
  {
    TmpIsNotPerm(dir, name);
  }

  /** Loading after a write gives back exactly the snapshot written, for
      every state, not only COMPLETED and SKIP. */
  lemma WriteThenLoad(files: map<Path, FileContent>, dir: Path, name: string, snap: map<string, ExecutionState>)
    ensures LoadedFrom(FilesAfter(files, dir, name, snap, Done), PermPath(dir, name)) == Ok(snap)
  {
    WriteOutcome(files, dir, name, snap);
  }

  /** At every point of a write the checkpoint path holds the complete old
      snapshot, nothing, or the complete new snapshot; it holds nothing only
      between the unlink and the rename, and up to the unlink it still
      holds what it held before. Only the staging file and the checkpoint
      file ever change. */
  lemma CanonicalDuringWrite(files: map<Path, FileContent>, dir: Path, name: string,
                             snap: map<string, ExecutionState>, stage: WriteStage)
    ensures var perm, f := PermPath(dir, name), FilesAfter(files, dir, name, snap, stage);
      && (stage in {Before, TempTorn, TempWritten} ==> (perm in f <==> perm in files) && (perm in files ==> f[perm] == files[perm]))
      && (stage == OldRemoved ==> perm !in f)
      && (stage == Done ==> perm in f && f[perm] == Pickled(snap))
    ensures var f := FilesAfter(files, dir, name, snap, stage);
      forall p :: p != PermPath(dir, name) && p != TmpPath(dir, name) ==>
        (p in f <==> p in files) && (p in files ==> f[p] == files[p])
  {
    TmpIsNotPerm(dir, name);
  }

  /** A restart after a write stopped at any point loads the old states, no
      states at all, or the new states; it never meets a torn file at the
      checkpoint path, so it fails only if the old file already did. */
  lemma RestartAfterCrash(files: map<Path, FileContent>, dir: Path, name: string,
                          snap: map<string, ExecutionState>, stage: WriteStage)
    ensures var perm := PermPath(dir, name);
      var loaded := LoadedFrom(FilesAfter(files, dir, name, snap, stage), perm);
      loaded == LoadedFrom(files, perm) || loaded == Ok(map[]) || loaded == Ok(snap)
    ensures var perm := PermPath(dir, name);
      LoadedFrom(FilesAfter(files, dir, name, snap, stage), perm).Err? ==>
        stage in {Before, TempTorn, TempWritten} && LoadedFrom(files, perm).Err?
  {
    CanonicalDuringWrite(files, dir, name, snap, stage);
  }

  /** A run that failed, then restarts with the same tasks back at their
      defaults, takes over exactly the tasks that had COMPLETED or been
      SKIPped when the failure snapshot was written. */
  lemma RestartAfterFailure(files: map<Path, FileContent>, dir: Path, name: string,
                            atFailure: map<string, Executor>, defaults: map<string, Executor>)
    requires defaults.Keys == atFailure.Keys
    ensures var perm := PermPath(dir, name);
      var loaded := LoadedFrom(FilesAfter(files, dir, name, Snapshot(atFailure), Done), perm);
      && loaded.Ok?
      && forall n :: n in defaults ==>
           Restored(defaults, loaded.value)[n].state ==
             if IsResumable(atFailure[n].state) then atFailure[n].state else defaults[n].state
  {
    WriteThenLoad(files, dir, name, Snapshot(atFailure));
  }

  /** The window the unlink opens: a stop after the unlink and before the
      rename leaves the new snapshot only in the staging file, so the next
      restart loads no states and restores no task. */
  lemma CrashAfterUnlink(files: map<Path, FileContent>, dir: Path, name: string,
                         tasks: map<string, Executor>)
    ensures var f := FilesAfter(files, dir, name, Snapshot(tasks), OldRemoved);
      && TmpPath(dir, name) in f && f[TmpPath(dir, name)] == Pickled(Snapshot(tasks))
      && LoadedFrom(f, PermPath(dir, name)) == Ok(map[])
      && Restored(tasks, LoadedFrom(f, PermPath(dir, name)).value) == tasks
  {
  }

  /** Deleting the checkpoint leaves no file at its path; deleting twice is
      deleting once, and a later restart finds nothing to restore. */
  lemma DeleteIdempotent(files: map<Path, FileContent>, perm: Path)
    ensures perm !in files - {perm}
    ensures (files - {perm}) - {perm} == files - {perm}
    ensures LoadedFrom(files - {perm}, perm) == Ok(map[])
  {
  }

  // ---------------------------------------------------------------------
  // The controller
  // ---------------------------------------------------------------------

  class Checkpoint {
    const checkpointName: string
    const checkpointDir: Path
    /** Time of the last throttled write (`_checkpoint`). */
    var lastWrite: int
    const executors: ExecutorRegistry
    const fs: FileSystem

    constructor (checkpointName: string, checkpointDir: Path, executors: ExecutorRegistry, fs: FileSystem)
      ensures this.checkpointName == checkpointName && this.checkpointDir == checkpointDir
      ensures this.executors == executors && this.fs == fs
      ensures lastWrite == 0
    {
      this.checkpointName := checkpointName;
      this.checkpointDir := checkpointDir;
      this.executors := executors;
      this.fs := fs;
      lastWrite := 0;
    }

    function Perm(): Path
    {
      PermPath(checkpointDir, checkpointName)
    }

    function Tmp(): Path
    {
      TmpPath(checkpointDir, checkpointName)
    }

    method OnRestart() returns (outcome: Outcome)
      requires executors.Valid()
      modifies executors
      ensures executors.Valid()
      ensures LoadedFrom(fs.files, Perm()).Err? ==>
        outcome == Fail(LoadedFrom(fs.files, Perm()).error) && executors.executors == old(executors.executors)
      ensures LoadedFrom(fs.files, Perm()).Ok? ==>
        outcome == Pass && executors.executors == Restored(old(executors.executors), LoadedFrom(fs.files, Perm()).value)
    {
      var loaded := LoadCheckpoint();
      if loaded.Err? {
        return Fail(loaded.error);
      }
      var stored := loaded.value;
      var pending := stored.Keys;
      while pending != {}
        invariant pending <= stored.Keys
        invariant executors.Valid()
        invariant executors.executors == Restored(old(executors.executors), stored - pending)
        decreases pending
      {
        var name :| name in pending;
        var state := stored[name];
        ghost var before := executors.executors;
        if state == Completed || state == Skip {
          executors.SetStateForExecutor(name, state);
        }
        pending := pending - {name};
        assert executors.executors == Restored(old(executors.executors), stored - pending) by {
          var done := stored - pending;
          forall n | n in executors.executors
            ensures executors.executors[n] == Restored(old(executors.executors), done)[n]
          {
            if n != name {
              assert (n in done && IsResumable(done[n])) <==> (n in stored - (pending + {name}) && IsResumable(stored[n]));
            }
          }
        }
      }
      assert stored - pending == stored;
      return Pass;
    }

    method Update(now: int)
      requires executors.Valid()
      modifies this, fs
      ensures lastWrite == Tick(old(lastWrite), now)
      ensures Due(old(lastWrite), now) ==>
        fs.files == FilesAfter(old(fs.files), checkpointDir, checkpointName, Snapshot(executors.executors), Done)
      ensures !Due(old(lastWrite), now) ==> fs.files == old(fs.files)
    {
      if now - lastWrite >= ThrottleSeconds {
        lastWrite := now;
        WriteCheckpoint();
      }
    }

    method OnSuccess()
      modifies fs
      ensures fs.files == old(fs.files) - {Perm()}
      ensures Perm() !in fs.files
    {
      DeleteCheckpoint();
    }

    method OnFailure()
      requires executors.Valid()
      modifies fs
      ensures fs.files == FilesAfter(old(fs.files), checkpointDir, checkpointName, Snapshot(executors.executors), Done)
      ensures lastWrite == old(lastWrite)
    {
      WriteCheckpoint();
    }

    method CheckpointExists() returns (b: bool)
      ensures b <==> Perm() in fs.files
    {
      b := fs.Exists(Perm());
    }

    method DeleteCheckpoint()
      modifies fs
      ensures fs.files == old(fs.files) - {Perm()}
    {
      var present := CheckpointExists();
      if present {
        fs.Unlink(Perm());
      }
    }

    method WriteCheckpoint()
      requires executors.Valid()
      modifies fs
      ensures fs.files == FilesAfter(old(fs.files), checkpointDir, checkpointName, Snapshot(executors.executors), Done)
    {
      var states := Snapshot(executors.executors);
      var tmp, perm := Tmp(), Perm();
      fs.DumpPickle(tmp, states);
      var isFile := fs.Exists(perm);
      if isFile {
        fs.Unlink(perm);
      }
      assert fs.files == FilesAfter(old(fs.files), checkpointDir, checkpointName, states, OldRemoved);
      fs.Rename(tmp, perm);
    }

    method LoadCheckpoint() returns (r: Result<map<string, ExecutionState>>)
      ensures r == LoadedFrom(fs.files, Perm())
    {
      var perm := Perm();
      var present := fs.Exists(perm);
      if !present {
        return Ok(map[]);
      }
      r := fs.LoadPickle(perm);
    }
  }

  /** The host's scheduling loop calling `update` at each time of `clocks`,
      counting the calls that write. The timer and the number of writes are
      those of `RunUpdates`; the directory is unchanged if nothing was
      written, and otherwise holds the registry's snapshot at the
      checkpoint path and no staging file. */
  method HostUpdates(cp: Checkpoint, clocks: seq<int>) returns (writes: nat)
    requires cp.executors.Valid()
    modifies cp, cp.fs
    ensures RunUpdates(old(cp.lastWrite), clocks) == TimerRun(cp.lastWrite, writes)
    ensures writes == 0 ==> cp.fs.files == old(cp.fs.files)
    ensures writes > 0 ==>
      && cp.Perm() in cp.fs.files && cp.fs.files[cp.Perm()] == Pickled(Snapshot(cp.executors.executors))
      && cp.Tmp() !in cp.fs.files
  {
    writes := 0;
    var i := 0;
    while i < |clocks|
      invariant 0 <= i <= |clocks|
      invariant cp.executors.Valid() && cp.executors.executors == old(cp.executors.executors)
      invariant RunUpdates(old(cp.lastWrite), clocks[..i]) == TimerRun(cp.lastWrite, writes)
      invariant writes == 0 ==> cp.fs.files == old(cp.fs.files)
      invariant writes > 0 ==>
        && cp.Perm() in cp.fs.files && cp.fs.files[cp.Perm()] == Pickled(Snapshot(cp.executors.executors))
        && cp.Tmp() !in cp.fs.files
    {
      RunUpdatesThenOne(old(cp.lastWrite), clocks[..i], clocks[i]);
      assert clocks[..i + 1] == clocks[..i] + [clocks[i]];
      if Due(cp.lastWrite, clocks[i]) {
        writes := writes + 1;
      }
      ghost var files := cp.fs.files;
      cp.Update(clocks[i]);
      WriteOutcome(files, cp.checkpointDir, cp.checkpointName, Snapshot(cp.executors.executors));
      i := i + 1;
    }
    assert clocks[..i] == clocks;
  }
}
