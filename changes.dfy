/** Shared change-detection vocabulary: identities of the two sides, the pending
    change set every watcher owns, the handlers that drain it and the scheduler
    the periodic tasks are registered with. */
module Changes {

  /** A remote file identifier, as the remote backend assigns it. */
  type RemoteId = string

  /** A path in the local tracked tree. A separate type from RemoteId, so that a
      local watcher and a remote watcher are never the same object. */
  datatype Path = Path(name: string)

  /** What one run of a handler did: the pending entries it consumed (drained
      from its own watcher) and the identities on the opposite side it touched. */
  datatype HandleResult<T, U> = HandleResult(handled: set<T>, touched: set<U>)

  /** The local handler: sees the local pending set, reports the remote
      identifiers it created or touched. */
  type LocalHandler = set<Path> -> HandleResult<Path, RemoteId>

  /** The remote handler: sees the remote pending set, reports the local paths
      it created or touched. */
  type RemoteHandler = set<RemoteId> -> HandleResult<RemoteId, Path>

  /** A watcher's pending change set, keyed by identity. `IgnoreChanges` is the
      echo-suppression entry point used by the opposite side. */
  class ChangesWatcher<T(==)> {
    var changes: set<T>

    constructor ()
      ensures changes == {}
    {
      changes := {};
    }

    /** Appends newly observed changes; nothing already pending is removed. */
    method AddAll(found: set<T>)
      modifies this
      ensures changes == old(changes) + found
    {
      changes := changes + found;
    }

    /** Marks the given identities as already accounted for: they leave the
        pending set. */
    method IgnoreChanges(ids: set<T>)
      modifies this
      ensures changes == old(changes) - ids
      ensures changes !! ids
    {
      changes := changes - ids;
    }

    /** Runs a handler over the pending set: the handler sees the set as it is
        now, the entries it handled leave the set, and what it touched on the
        other side is returned. */
    method Drain<U>(handler: set<T> -> HandleResult<T, U>) returns (touched: set<U>)
      modifies this
      ensures touched == handler(old(changes)).touched
      ensures changes == old(changes) - handler(old(changes)).handled
      ensures changes <= old(changes)
    {
      var result := handler(changes);
      changes := changes - result.handled;
      touched := result.touched;
    }
  }

  /** The periodic tasks of the daemon. */
  datatype TaskKind = PollTask | MergeTask

  /** A task registered for fixed-delay execution; delays are in seconds. */
  datatype ScheduledTask = ScheduledTask(task: TaskKind, initialDelay: nat, delay: nat)

  /** The shared scheduled executor, reduced to the record of what was
      registered with it. Running the tasks is left to the callers of the
      step methods. */
  class Executor {
    var tasks: seq<ScheduledTask>

    constructor ()
      ensures tasks == []
    {
      tasks := [];
    }

    method ScheduleWithFixedDelay(task: TaskKind, initialDelay: nat, delay: nat)
      modifies this
      ensures tasks == old(tasks) + [ScheduledTask(task, initialDelay, delay)]
    {
      tasks := tasks + [ScheduledTask(task, initialDelay, delay)];
    }
  }
}
