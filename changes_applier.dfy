/** The merge orchestrator: one iteration runs the local handler, tells the
    remote watcher to ignore what it touched, runs the remote handler, and
    tells the local watcher to ignore what that touched. */
module Merging {
  import opened Changes
  import opened RemoteWatching

  /** Fixed delay between two merge iterations, in seconds. */
  const MERGE_DELAY: nat := 15

  /** Everything the merge task can reach: the remote watcher's state (cursor
      and pending remote changes) and the local pending set. */
  datatype SyncState = SyncState(remote: RemoteState, localPending: set<Path>)

  /** The four calls of one iteration, with the sets that flow through them:
      what each handler saw and returned, and what each ignore received. */
  datatype Call =
    | HandleLocal(seenPaths: set<Path>, touchedIds: set<RemoteId>)
    | IgnoreRemote(ids: set<RemoteId>)
    | HandleRemote(seenIds: set<RemoteId>, touchedPaths: set<Path>)
    | IgnoreLocal(paths: set<Path>)

  datatype Iteration = Iteration(after: SyncState, calls: seq<Call>)

  /** One merge iteration, with the calls it makes in the order it makes them. */
  function MergeIteration(s: SyncState, localHandler: LocalHandler, remoteHandler: RemoteHandler): (it: Iteration)
    // the four calls, local first, each ignore fed by the handler just before it
    ensures |it.calls| == 4
    ensures it.calls[0].HandleLocal? && it.calls[0].seenPaths == s.localPending
    ensures it.calls[0].touchedIds == localHandler(s.localPending).touched
    ensures it.calls[1] == IgnoreRemote(it.calls[0].touchedIds)
    ensures it.calls[2].HandleRemote?
    ensures it.calls[2].seenIds == s.remote.pending - it.calls[0].touchedIds
    ensures it.calls[2].touchedPaths == remoteHandler(it.calls[2].seenIds).touched
    ensures it.calls[3] == IgnoreLocal(it.calls[2].touchedPaths)
    // echo suppression: the remote handler never sees what the local handler just touched
    ensures it.calls[2].seenIds <= s.remote.pending
    ensures it.calls[2].seenIds !! it.calls[0].touchedIds
    ensures it.after.remote.pending !! it.calls[0].touchedIds
    ensures it.after.localPending !! it.calls[2].touchedPaths
    // exactly what the handlers consumed and what the ignores named leave the pending sets
    ensures it.after.remote.pending == it.calls[2].seenIds - remoteHandler(it.calls[2].seenIds).handled
    ensures it.after.localPending == (s.localPending - localHandler(s.localPending).handled) - it.calls[2].touchedPaths
    // an iteration only drains pending work and never moves the cursor
    ensures it.after.remote.cursor == s.remote.cursor
    ensures it.after.remote.pending <= s.remote.pending
    ensures it.after.localPending <= s.localPending
  {
    var local := localHandler(s.localPending);
    var localLeft := s.localPending - local.handled;
    var remoteSeen := s.remote.pending - local.touched;
    var remote := remoteHandler(remoteSeen);
    var remoteLeft := remoteSeen - remote.handled;
    Iteration(
      SyncState(RemoteState(s.remote.cursor, remoteLeft), localLeft - remote.touched),
      [HandleLocal(s.localPending, local.touched), IgnoreRemote(local.touched),
       HandleRemote(remoteSeen, remote.touched), IgnoreLocal(remote.touched)])
  }

  /** The number of calls in `calls` that run a handler of the given side. */
  function HandlerRuns(calls: seq<Call>, local: bool): nat
  {
    if calls == [] then 0
    else HandlerRuns(calls[..|calls| - 1], local) +
         (if (local && calls[|calls| - 1].HandleLocal?) || (!local && calls[|calls| - 1].HandleRemote?) then 1 else 0)
  }

  /** Each handler runs exactly once per iteration, the local one first. */
  lemma HandlersRunOnceLocalFirst(s: SyncState, localHandler: LocalHandler, remoteHandler: RemoteHandler)
    ensures var calls := MergeIteration(s, localHandler, remoteHandler).calls;
            HandlerRuns(calls, true) == 1 && HandlerRuns(calls, false) == 1 &&
            forall i, j :: 0 <= i < |calls| && 0 <= j < |calls| && calls[i].HandleLocal? && calls[j].HandleRemote? ==> i < j
  {
    var calls := MergeIteration(s, localHandler, remoteHandler).calls;
    assert calls[..1][..0] == [];
    assert calls[..2][..1] == calls[..1];
    assert calls[..3][..2] == calls[..2];
    assert calls[..4] == calls;
    assert HandlerRuns(calls[..1], true) == 1 && HandlerRuns(calls[..1], false) == 0;
    assert HandlerRuns(calls[..2], true) == 1 && HandlerRuns(calls[..2], false) == 0;
    assert HandlerRuns(calls[..3], true) == 1 && HandlerRuns(calls[..3], false) == 1;
  }

  /** What the iteration computes depends on the pending sets only: the cursor
      is neither read nor written. */
  lemma MergeIgnoresCursor(s: SyncState, cursor: int, localHandler: LocalHandler, remoteHandler: RemoteHandler)
    ensures var moved := s.(remote := s.remote.(cursor := cursor));
            MergeIteration(moved, localHandler, remoteHandler).calls == MergeIteration(s, localHandler, remoteHandler).calls &&
            MergeIteration(moved, localHandler, remoteHandler).after == MergeIteration(s, localHandler, remoteHandler).after.(remote := MergeIteration(s, localHandler, remoteHandler).after.remote.(cursor := cursor))
  {
  }

  /** The orchestrator. */
  class ChangesApplier {
    const localWatcher: ChangesWatcher<Path>
    const remoteWatcher: RemoteChangesWatcher
    const executor: Executor

    constructor (localWatcher: ChangesWatcher<Path>, remoteWatcher: RemoteChangesWatcher, executor: Executor)
      ensures this.localWatcher == localWatcher && this.remoteWatcher == remoteWatcher && this.executor == executor
    {
      this.localWatcher := localWatcher;
      this.remoteWatcher := remoteWatcher;
      this.executor := executor;
    }

    function State(): SyncState
      reads localWatcher, remoteWatcher.pending, remoteWatcher.fileSystem
    {
      SyncState(remoteWatcher.State(), localWatcher.changes)
    }

    /** Registers the merge task; no iteration runs here. */
    method Start()
      modifies executor
      ensures executor.tasks == old(executor.tasks) + [ScheduledTask(MergeTask, 0, MERGE_DELAY)]
      ensures State() == old(State())
    {
      executor.ScheduleWithFixedDelay(MergeTask, 0, MERGE_DELAY);
    }

    /** One run of the merge task. */
    method RunMergeTask(localHandler: LocalHandler, remoteHandler: RemoteHandler) returns (ghost calls: seq<Call>)
      modifies localWatcher, remoteWatcher.pending
      ensures State() == MergeIteration(old(State()), localHandler, remoteHandler).after
      ensures calls == MergeIteration(old(State()), localHandler, remoteHandler).calls
      ensures unchanged(remoteWatcher.fileSystem)
    {
      var seenPaths := localWatcher.changes;
      var touchedIds := localWatcher.Drain(localHandler);
      remoteWatcher.pending.IgnoreChanges(touchedIds);
      var seenIds := remoteWatcher.pending.changes;
      var touchedPaths := remoteWatcher.pending.Drain(remoteHandler);
      localWatcher.IgnoreChanges(touchedPaths);
      calls := [HandleLocal(seenPaths, touchedIds), IgnoreRemote(touchedIds),
                HandleRemote(seenIds, touchedPaths), IgnoreLocal(touchedPaths)];
    }
  }
}
