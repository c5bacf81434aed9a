# Remote change watching and merge sequencing of a Drive sync daemon

This project models two stateful pieces of a bidirectional file-synchronisation
daemon that keeps a local directory and a Google Drive tree in step.

- **RemoteChangesWatcher** (module `RemoteWatching`, file
  `remote_changes_watcher.dfy`). It holds the file system's revision cursor and
  the pending set of remote changes. `start` seeds the cursor from the backend's
  largest change id, but only while the cursor is still the sentinel `0`. It
  then registers the poll task with a fixed delay of 10 seconds. Each poll asks
  the backend for the changes since the cursor. On success it adds them to the
  pending set and sets the cursor to the revision the backend reported. On an
  `IOException` it changes nothing. The pure step functions `StartStep` and
  `PollStep` specify the class methods `RemoteChangesWatcher.Start` and
  `RemoteChangesWatcher.Poll`.
- **ChangesApplier** (module `Merging`, file `changes_applier.dfy`). `start`
  registers one merge task with initial delay 0 and fixed delay 15 seconds.
  One merge iteration runs four calls in order:
  1. the local handler;
  2. the remote watcher's `ignoreChanges`, fed with what the local handler returned;
  3. the remote handler;
  4. the local watcher's `ignoreChanges`, fed with what the remote handler returned.

  `MergeIteration` gives the resulting state together with the list of calls
  and the sets that flow through them. `ChangesApplier.RunMergeTask` is proved
  against it.
- **Shared vocabulary** (module `Changes`, file `changes.dfy`): the pending
  change set of a watcher (`ChangesWatcher<T>`), the handler results and the
  scheduler record (`Executor`).
- **The daemon as a sequence of task runs** (module `SyncDaemon`, file
  `sync_daemon.dfy`): polls and merge iterations run one at a time in any order.
  The lemmas there relate whole runs. The cursor depends on the polls alone.
  It never decreases as long as the backend never answers with a revision
  older than the one asked for. After a merge, the identifiers the local
  handler touched are not pending, and later merges keep it so. A poll that
  reports one of them makes it pending again.

The remote backend is an input to every step. `about` is an `AboutOutcome`
(a largest change id, or a failure). `getChanges` is a function from the
requested revision to a `PollOutcome` (`Success(changes, revision)` or
`IOFailure`). Passing a function lets a contract say which revision a poll asks
for. The two handlers are inputs too. Each is a function from the pending set
it sees to the entries it consumed and the identities it touched on the other
side.

Modelling assumptions, for code that is not part of this model:
- `filesystem/change/ChangesWatcher.java` is not part of this model. Its
  `changes` collection is a set of identities, and `ignoreChanges(s)` removes
  the members of `s` from it.
- The handlers are not part of this model. A handler sees its own watcher's
  pending set. The entries it reports as handled leave that set. It returns the
  identities it touched.
- `filesystem/FileSystem.java` is not part of this model. It is reduced to
  the revision field that `getFileSystemRevision` reads and
  `updateFileSystemRevision` writes.

One consequence of the code as written:
- **The cursor trusts the backend.** The poll task sets the cursor to the
  revision the backend reports (`RemoteChangesWatcher.java:46`). It does not
  take the larger of that revision and the old cursor. The cursor therefore
  never decreases only because the backend promises that a change package's
  revision is at least the one asked for. The code relies on that promise
  without checking it. `CursorNonDecreasing` and
  `SyncDaemon.CursorNeverDecreases` are proved under that promise, written
  `NeverRewinds`. `CursorFollowsRewindingBackend` shows a backend that
  breaks it taking the cursor from 5 back to 4.

One fact of the model, where every task runs whole:
- **Echo suppression is a one-off removal.** The ignore in a merge iteration
  removes only identifiers that are pending when `ignoreChanges` is called
  (`ChangesApplier.java:46`). In the model a merge runs whole, so the remote
  change caused by an upload can only arrive with a poll after that
  iteration, and that poll makes the identifier pending again
  (`SyncDaemon.EchoReturnsAfterLaterPoll`). Between merges with no poll in
  between, ignored identifiers stay out of the remote handler's view
  (`SyncDaemon.NoEchoWhileNoPoll`). In the code the poll task and the merge
  task can run at the same time on the threads of one 3-thread scheduled
  pool (`Main.java:36`, `Main.java:53`). The local handler's uploads block before
  `ignoreChanges` is called. So the ignore suppresses the echo of an upload
  from its own iteration exactly when a poll lands between that upload and
  the `ignoreChanges` call. The model does not capture that interleaving.
  The base class that could filter later additions is not part of this
  model.

## Model

| member | source | states |
|---|---|---|
| `Changes.ChangesWatcher.AddAll` | src/main/java/filesystem/change/remote/RemoteChangesWatcher.java:45 | the pending set becomes the old set plus the found changes |
| `Changes.ChangesWatcher.IgnoreChanges` | src/main/java/filesystem/change/ChangesApplier.java:46-47 | the ignored identities leave the pending set, and nothing else does |
| `Changes.ChangesWatcher.Drain` | src/main/java/filesystem/change/ChangesApplier.java:46-47 | the handler sees the pending set as it was; only the entries it handled leave; its touched set is returned |
| `Changes.Executor.ScheduleWithFixedDelay` | src/main/java/filesystem/change/ChangesApplier.java:37 | exactly one task with the given delays is added to the schedule |
| `RemoteWatching.StartStep` | src/main/java/filesystem/change/remote/RemoteChangesWatcher.java:29-34 | start fails exactly when the cursor is 0 and `about` fails; from 0 the cursor becomes the largest change id; a non-zero cursor is kept; the pending set is never changed |
| `RemoteWatching.PollStep` | src/main/java/filesystem/change/remote/RemoteChangesWatcher.java:42-50 | the backend is asked at the current cursor; on success the cursor is the returned revision and pending is old pending plus the returned changes; on failure the state is unchanged; nothing pending is ever removed |
| `RemoteWatching.StartIgnoresAboutOnceSeeded` | src/main/java/filesystem/change/remote/RemoteChangesWatcher.java:29 | with a non-zero cursor the outcome of `about`, even a failure, has no effect on start |
| `RemoteWatching.FirstPollAsksFromSeed` | src/main/java/filesystem/change/remote/RemoteChangesWatcher.java:29-44 | after seeding from 0 to the largest id, the next poll's outcome is the backend's answer at that id: on failure the seeded state stays, on success the cursor is the returned revision and the returned changes join pending |
| `RemoteWatching.CursorFollowsRewindingBackend` | src/main/java/filesystem/change/remote/RemoteChangesWatcher.java:46 | a backend answering with an older revision than asked takes the cursor back from 5 to 4, because the cursor is not clamped |
| `RemoteWatching.QuietPollIsNoOp` | src/test/java/net/edgefox/googledrive/service/GoogleDriveServiceTest.java:156-161 | a poll at the largest change id, answered with no changes and the same revision, leaves the whole state unchanged |
| `RemoteWatching.QuietPollsAreNoOps` | src/test/java/net/edgefox/googledrive/service/GoogleDriveServiceTest.java:156-161 | any number of such polls leave the whole state unchanged |
| `RemoteWatching.PollsKeepPending` | src/main/java/filesystem/change/remote/RemoteChangesWatcher.java:45 | over any sequence of polls, nothing pending is removed |
| `RemoteWatching.CursorNonDecreasing` | src/main/java/filesystem/change/remote/RemoteChangesWatcher.java:46 | if the backend never rewinds, the cursor after a later poll is at least the cursor after an earlier one |
| `RemoteWatching.RemoteChangesWatcher.Start` | src/main/java/filesystem/change/remote/RemoteChangesWatcher.java:27-37 | the new cursor is as `StartStep` says; on success exactly one poll task (delay 0, then every 10 s) is registered; on failure nothing is registered or changed; the pending set is untouched |
| `RemoteWatching.RemoteChangesWatcher.Poll` | src/main/java/filesystem/change/remote/RemoteChangesWatcher.java:39-52 | the new cursor and pending set are those of `PollStep` on the old ones |
| `Merging.MergeIteration` | src/main/java/filesystem/change/ChangesApplier.java:44-49 | four calls: local handle on the local pending set, remote ignore of exactly what the local handler returned, remote handle on the remote pending set minus that, local ignore of exactly what the remote handler returned; the new remote pending set is what the remote handler saw minus what it handled; the new local pending set is the old one minus what the local handler handled minus what the remote handler touched; the remote handler never sees what the local handler just touched; the cursor is kept |
| `Merging.HandlersRunOnceLocalFirst` | src/main/java/filesystem/change/ChangesApplier.java:46-47 | each handler runs exactly once per iteration, the local one before the remote one (a corollary of the call list `MergeIteration` states) |
| `Merging.MergeIgnoresCursor` | src/main/java/filesystem/change/ChangesApplier.java:41-50 | the calls and pending sets of an iteration do not depend on the cursor, and the cursor passes through unchanged |
| `Merging.ChangesApplier.Start` | src/main/java/filesystem/change/ChangesApplier.java:35-39 | exactly one merge task (delay 0, then every 15 s) is registered, and no pending set or cursor changes |
| `Merging.ChangesApplier.RunMergeTask` | src/main/java/filesystem/change/ChangesApplier.java:41-50 | the watchers' new pending sets and the calls made are those of `MergeIteration`; the file system's cursor is unchanged |
| `SyncDaemon.CursorFollowsPollsOnly` | src/main/java/filesystem/change/remote/RemoteChangesWatcher.java:44-46 | for any interleaving of polls and merges, the cursor is the one the polls alone produce |
| `SyncDaemon.CursorNeverDecreases` | src/main/java/filesystem/change/remote/RemoteChangesWatcher.java:46 | for any interleaving, if the backend never rewinds, the cursor never decreases |
| `SyncDaemon.MergesOnlyDrain` | src/main/java/filesystem/change/ChangesApplier.java:46-47 | merge iterations alone never add remote pending changes |
| `SyncDaemon.NoEchoWhileNoPoll` | src/main/java/filesystem/change/ChangesApplier.java:46 | identifiers ignored by the remote watcher reach no remote handler in later merge iterations, as long as no poll runs in between |
| `SyncDaemon.EchoReturnsAfterLaterPoll` | src/main/java/filesystem/change/ChangesApplier.java:46 | for any state and handlers, an identifier the local handler returned is not pending after the merge, and is pending again after a following poll that reports it |

## Left out

- Bootstrap in `src/main/java/Main.java`: Guice bindings, configuration loading and the 3-thread scheduled pool. It is wiring with no logic.
- Concurrency: the scheduled executor runs the tasks. It interleaves the poll and merge tasks on separate threads, and `volatile` fields share state between them. The model runs one task at a time, to completion, in any order. In particular it does not capture a poll that lands inside a merge iteration, between the local handler's uploads and the remote `ignoreChanges` call, where the ignore would remove that poll's echo. The executor only records what was registered.
- Timing: the delays are recorded as numbers of seconds. The passage of time is not modelled.
- The backend client (`GoogleDriveService.about`, `getChanges`): it is replaced by the inputs `AboutOutcome` and `ChangesSince`.
- The handlers' upload, download and delete work, and `LocalChangesWatcher`'s file-system event plumbing. These are not part of this model. Handler results are arbitrary inputs.
- The content of a change: a pending change is its identity alone. The kind of change (created, modified, deleted, moved) is not modelled.
- The revision is a Java `Long` and is modelled as an unbounded `int`. The code does no arithmetic on it, so its width makes no difference. A `null` largest change id is not modelled.
- Logging: it has no effect on the behaviour.
- Unchecked exceptions: the poll task catches only `IOException` and the merge task catches nothing. Any other exception ends that periodic task for good, because the scheduled executor suppresses all later runs of a task that threw. Examples are a `null` change package or change list, or a runtime exception from the backend client or from either handler. A merge that throws in its local handler also skips both `ignoreChanges` calls. The model has only `Success` and `IOFailure` as backend outcomes, and its handlers always return, so every trace assumes both tasks keep running.
- `RemoteWatching.CursorNonDecreasing`: holds only if the backend never rewinds, because the code does not clamp the cursor.
- `SyncDaemon.CursorNeverDecreases`: holds only if the backend never rewinds, for the same reason.
