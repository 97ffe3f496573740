# Flowmancer checkpoint controller in Dafny

This project models the checkpoint-and-restart controller of flowmancer, the
`Checkpoint` observer. A running job records the execution state of every task
(executor) in one checkpoint file. A restarted job can then skip the tasks
already known to be finished.

The controller has four lifecycle hooks:

- `on_restart` copies the COMPLETED and SKIP states found in the checkpoint back
  into the executor registry.
- `update` is a ten-second polled throttle around a full snapshot write.
- `on_success` deletes the checkpoint.
- `on_failure` forces one last write.

A write has three steps. It pickles the snapshot into `<name>.tmp`, unlinks the
old checkpoint, and renames the staging file into place.

Files:

- `executors.dfy` (module `Executors`): the execution state, the task record and
  the executor registry. The registry belongs to the host runtime. Only
  `set_state_for_executor` is modelled, and its behaviour is an assumption: it
  updates a task that the registry knows and ignores any other name.
- `files.dfy` (module `Files`): the checkpoint directory as a map from path to
  stored content. It provides the primitives `exists`, `os.unlink`, `os.rename`
  (with POSIX replace semantics), `pickle.dump` and `pickle.load`. A file holds
  either a pickled `{"states": ...}` record or unreadable bytes.
- `checkpoint.dfy` (module `Checkpoints`): the class `Checkpoint` with the four
  hooks and the helpers `_checkpoint_exists`, `_delete_checkpoint`,
  `_write_checkpoint` and `_load_checkpoint`. The same module holds the
  specification functions and the lemmas about them:
  - `Snapshot`, `Restored` and `LoadedFrom` specify what is written, what a
    restart restores and what is loaded.
  - `Tick` and `RunUpdates` specify the throttle timer.
  - `FilesAfter` specifies the directory after each stage of a write, including
    a dump cut short.

The clock is an integer parameter of `Update`. The registry and the file system
are objects passed to the constructor.

Notes on what the code does, each stated by the model:

- The write does not replace the checkpoint atomically. Between the unlink
  (checkpoint.py:48) and the rename (checkpoint.py:49) the checkpoint path is
  empty. A crash there makes the next restart load the empty map and re-run
  every task, although `<name>.tmp` holds the new snapshot (`CrashAfterUnlink`).
  Before the unlink the old checkpoint is intact, and after the rename the new
  one is.
- The timer starts at 0 (checkpoint.py:11), that is at the epoch of
  `time.time()`, not at process start. With a real clock the first update
  therefore always writes (`FirstUpdate`).
- The timer `_checkpoint` is set before the write starts, not after a
  successful write (checkpoint.py:20-21).
- `on_failure` does not reset the timer.
- A corrupt checkpoint file makes `_load_checkpoint` fail before any registry
  entry is changed. `OnRestart` returns `Fail` in that case and leaves the
  registry untouched.

## Model

| member | source | states |
|---|---|---|
| Executors.SetState | flowmancer/observers/checkpoint.py:16 | the assumed effect of `set_state_for_executor`: only the named task's state changes, to exactly the given state; an unknown name changes nothing; the keys and the name-keying are preserved |
| Executors.ExecutorRegistry.SetStateForExecutor | flowmancer/observers/checkpoint.py:16 | the registry afterwards is `SetState` of the one before, and it stays keyed by task name |
| Files.Join | flowmancer/observers/checkpoint.py:44-45 | `dir / name` is the directory, a separator, then the name |
| Files.Unpickle | flowmancer/observers/checkpoint.py:55-56 | loading succeeds exactly on a pickled record and gives back its `states` unchanged; anything else is an error naming the path |
| Files.Moved | flowmancer/observers/checkpoint.py:49 | after a rename, the target holds what the source held, the source is gone, and every other path is unchanged |
| Files.FileSystem.Exists | flowmancer/observers/checkpoint.py:32 | true exactly when a file is stored at the path; serves `.exists()` (lines 32, 53) and `os.path.isfile` (line 47) alike |
| Files.FileSystem.Unlink | flowmancer/observers/checkpoint.py:48 | the unlinked path disappears and nothing else changes |
| Files.FileSystem.Rename | flowmancer/observers/checkpoint.py:49 | the directory afterwards is `Moved` of the one before |
| Files.FileSystem.DumpPickle | flowmancer/observers/checkpoint.py:46 | the path is created or overwritten with the pickled states; no other path changes |
| Files.FileSystem.LoadPickle | flowmancer/observers/checkpoint.py:55 | the result is the unpickling of the file's content |
| Checkpoints.TmpIsNotPerm | flowmancer/observers/checkpoint.py:44-45 | the staging path `<name>.tmp` never equals the checkpoint path |
| Checkpoints.Snapshot | flowmancer/observers/checkpoint.py:39-42 | one entry per task of the registry; for a registry keyed by name, each executor's name maps to its current state |
| Checkpoints.SnapshotByName | flowmancer/observers/checkpoint.py:39-42 | the snapshot's keys are exactly the names of the registry's executors, and each name maps to that executor's current state |
| Checkpoints.Restored | flowmancer/observers/checkpoint.py:13-16 | a restart keeps every task and its name; a task stored as COMPLETED or SKIP takes exactly that state; a task changes only if it is stored as COMPLETED or SKIP |
| Checkpoints.RestoreFromNothing | flowmancer/observers/checkpoint.py:51-54 | a restart with no checkpoint file loads the empty map and leaves the registry exactly as it was |
| Checkpoints.RestoreIdempotent | flowmancer/observers/checkpoint.py:13-16 | restoring twice from the same checkpoint equals restoring once |
| Checkpoints.RestoreOwnSnapshot | flowmancer/observers/checkpoint.py:13-16 | restoring a registry from its own snapshot changes nothing |
| Checkpoints.Tick | flowmancer/observers/checkpoint.py:18-21 | an update moves the timer to `now` exactly when `now - last >= 10`, and leaves it otherwise; afterwards `now - timer < 10` |
| Checkpoints.FirstUpdate | flowmancer/observers/checkpoint.py:11 | because the timer starts at 0, the first update writes if and only if the clock reads at least 10 |
| Checkpoints.RunUpdates | flowmancer/observers/checkpoint.py:18-21 | a run of updates writes at most once per call, and after the last call the timer is less than 10 seconds behind that call's clock |
| Checkpoints.RunUpdatesThenOne | flowmancer/observers/checkpoint.py:18-21 | one more `update` after a run is one more `Tick` of the run's timer, adding a write exactly when it is due |
| Checkpoints.NoWriteBeforeDue | flowmancer/observers/checkpoint.py:19 | once the timer is at or after `t`, updates with clocks before `t + 10` neither write nor move the timer |
| Checkpoints.AtMostOneWritePerWindow | flowmancer/observers/checkpoint.py:18-21 | any sequence of updates whose clock readings all lie in one window shorter than 10 seconds writes at most once, from any starting timer and in any reading order |
| Checkpoints.TwoUpdatesWriteAtMostOnce | flowmancer/observers/checkpoint.py:19-21 | two successive updates less than 10 seconds apart write at most once |
| Checkpoints.StaleTimerForcesWrite | flowmancer/observers/checkpoint.py:19-21 | if any update in a run sees the clock at least 10 seconds past the starting timer, the run writes at least once |
| Checkpoints.LoadedFrom | flowmancer/observers/checkpoint.py:51-56 | with no checkpoint file the result is the empty map; with a pickled file it is the stored states; with an unreadable file it is an error |
| Checkpoints.FilesAfter | flowmancer/observers/checkpoint.py:46-49 | the directory at each stage of a write: the staging file is torn after a cut-short dump, holds the new snapshot after the dump and after the unlink, and is gone after the rename; no path other than the staging file and the checkpoint changes |
| Checkpoints.WriteOutcome | flowmancer/observers/checkpoint.py:38-49 | after a complete write, the checkpoint path holds the new snapshot, the staging file is gone, and every other file is unchanged |
| Checkpoints.WriteThenLoad | flowmancer/observers/checkpoint.py:43-56 | loading after a write returns exactly the snapshot written, for every execution state |
| Checkpoints.CanonicalDuringWrite | flowmancer/observers/checkpoint.py:46-49 | at every stage of a write, the checkpoint path holds the old content (up to and including the completed dump), nothing (only between unlink and rename), or the new snapshot (after the rename); no file other than the staging file and the checkpoint changes |
| Checkpoints.RestartAfterCrash | flowmancer/observers/checkpoint.py:44-56 | a restart after a write stopped at any stage loads the old states, nothing, or the new states; it fails only if the old file was already unreadable and the unlink had not happened |
| Checkpoints.RestartAfterFailure | flowmancer/observers/checkpoint.py:27-29 | after the failure write, a restart with the same tasks gives each task its state at failure if that state was COMPLETED or SKIP, and otherwise leaves its default |
| Checkpoints.CrashAfterUnlink | flowmancer/observers/checkpoint.py:47-49 | a stop between unlink and rename leaves the new snapshot only in the staging file; the next restart loads the empty map and restores no task |
| Checkpoints.DeleteIdempotent | flowmancer/observers/checkpoint.py:34-36 | after a delete, no checkpoint file exists; a second delete changes nothing; a later load finds the empty map |
| Checkpoints.Checkpoint.constructor | flowmancer/observers/checkpoint.py:8-11 | stores the name, the directory and the collaborators, and starts the timer at 0 |
| Checkpoints.Checkpoint.OnRestart | flowmancer/observers/checkpoint.py:13-16 | if the load fails, returns `Fail` and leaves the registry untouched; otherwise the registry becomes `Restored` of the old registry by the loaded states, and stays keyed by name |
| Checkpoints.Checkpoint.Update | flowmancer/observers/checkpoint.py:18-21 | if due, sets the timer to `now` and the directory to a complete write of the current snapshot; otherwise the timer and the directory are unchanged |
| Checkpoints.Checkpoint.OnSuccess | flowmancer/observers/checkpoint.py:23-25 | afterwards no checkpoint file exists, whether or not one existed before, and no other file changes |
| Checkpoints.Checkpoint.OnFailure | flowmancer/observers/checkpoint.py:27-29 | always writes the current snapshot, whatever the timer says, and leaves the timer unchanged |
| Checkpoints.Checkpoint.CheckpointExists | flowmancer/observers/checkpoint.py:31-32 | true exactly when a file exists at the checkpoint path |
| Checkpoints.Checkpoint.DeleteCheckpoint | flowmancer/observers/checkpoint.py:34-36 | removes the checkpoint path if present, and changes nothing else |
| Checkpoints.Checkpoint.WriteCheckpoint | flowmancer/observers/checkpoint.py:38-49 | the directory afterwards is the old one after all three write steps with the registry's current snapshot |
| Checkpoints.Checkpoint.LoadCheckpoint | flowmancer/observers/checkpoint.py:51-56 | the result is `LoadedFrom` of the directory at the checkpoint path |
| Checkpoints.HostUpdates | flowmancer/observers/checkpoint.py:18-21 | a host loop calling `update` at each clock reading ends with the timer and write count of `RunUpdates`; with no write the directory is unchanged, otherwise it holds the registry's snapshot at the checkpoint path and no staging file |

## Left out

- The pickle byte format: a file holds either the stored map itself or unreadable bytes.
- Wall-clock time: `time.time()` is a float read twice in `update`; the model reads one integer clock `now` for both the comparison and the assignment.
- Operating-system errors are not modelled: a missing directory, permissions, a full disk, a directory at the checkpoint path. The model has no directories, so `exists()` and `isfile()` mean the same.
- File-handle lifetime and flushing (`open` without `close`), and durability across power loss (no fsync).
- Path normalisation: a path join is `dir + "/" + name`.
- Iteration order in `on_restart`: the model applies the stored entries in an arbitrary order, not the dict's iteration order. This is harmless because the keys are distinct.
- The registry is assumed to file every executor under its own name (`ExecutorRegistry.Valid`). The hooks that write require it, because only then does the snapshot keyed by registry key equal the source's comprehension keyed by `ex.name`.
- The `Observer` base class and the real registry are not part of this model. `set_state_for_executor` is assumed to ignore names it does not know.
- The full `ExecutionState` enumeration is not part of this model. Every member other than COMPLETED and SKIP is `Other(tag)`.
- Concurrent access to the registry by the host runtime is not modelled; the controller itself is sequential.
- `flowmancer/plugins/notifications/email.py` is an SMTP wrapper made only of network I/O, with no logic to model.
