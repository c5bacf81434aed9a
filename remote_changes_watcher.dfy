/** The remote revision-cursor state machine: `start` seeds the file system's
    revision cursor, and each poll asks the backend for the changes since the
    cursor, appends them to the pending set and moves the cursor to the
    revision the backend reported. */
module RemoteWatching {
  import opened Changes

  /** Sentinel value of the cursor before the first successful start. */
  const UNSEEDED: int := 0

  /** Fixed delay between two polls, in seconds. */
  const POLL_DELAY: nat := 10

  /** The backend's `about` call: the largest change id, or a transport error. */
  datatype AboutOutcome = About(largestChangeId: int) | AboutFailure

  /** The backend's `getChanges(since)` call: a change package, or a transport error. */
  datatype PollOutcome = Success(changes: set<RemoteId>, revision: int) | IOFailure

  /** The backend's delta endpoint, as a function of the revision asked for. */
  type ChangesSince = int -> PollOutcome

  /** The failure `start` propagates to its caller. */
  datatype StartError = IOException

  datatype StartResult = Started(state: RemoteState) | StartFailed(error: StartError)

  /** What the watcher owns: the file system's revision cursor and the pending
      remote changes. */
  datatype RemoteState = RemoteState(cursor: int, pending: set<RemoteId>)

  /** `start`, without the scheduling: the cursor is seeded from the backend's
      largest change id only while it is still the sentinel. */
  function StartStep(s: RemoteState, about: AboutOutcome): (r: StartResult)
    ensures r.StartFailed? <==> s.cursor == UNSEEDED && about.AboutFailure?
    ensures s.cursor == UNSEEDED && about.About? ==> r == Started(RemoteState(about.largestChangeId, s.pending))
    ensures s.cursor != UNSEEDED ==> r == Started(s)
    ensures r.Started? ==> r.state.pending == s.pending
  {
    if s.cursor == UNSEEDED then
      match about
      case About(id) => Started(s.(cursor := id))
      case AboutFailure => StartFailed(IOException)
    else
      Started(s)
  }

  /** One run of the poll task: the backend is asked for the changes since the
      current cursor; on success they join the pending set and the cursor
      becomes the reported revision, on failure nothing changes. */
  function PollStep(s: RemoteState, changesSince: ChangesSince): (r: RemoteState)
    ensures s.pending <= r.pending
    ensures changesSince(s.cursor).IOFailure? ==> r == s
    ensures changesSince(s.cursor).Success? ==>
              r.cursor == changesSince(s.cursor).revision &&
              r.pending == s.pending + changesSince(s.cursor).changes
  {
    match changesSince(s.cursor)
    case Success(changes, revision) => RemoteState(revision, s.pending + changes)
    case IOFailure => s
  }

  /** The backend never reports a revision older than the one asked for. */
  ghost predicate NeverRewinds(changesSince: ChangesSince) {
    forall since :: changesSince(since).Success? ==> changesSince(since).revision >= since
  }

  /** The backend has nothing new at revision `c`: an empty package that
      carries `c` back. */
  predicate QuietAt(changesSince: ChangesSince, c: int) {
    changesSince(c) == Success({}, c)
  }

  /** Consecutive polls, the last element of `polls` being the latest. */
  function RunPolls(s: RemoteState, polls: seq<ChangesSince>): RemoteState
  {
    if polls == [] then s else PollStep(RunPolls(s, polls[..|polls| - 1]), polls[|polls| - 1])
  }

  lemma StartIgnoresAboutOnceSeeded(s: RemoteState, a1: AboutOutcome, a2: AboutOutcome)
    requires s.cursor != UNSEEDED
    ensures StartStep(s, a1) == StartStep(s, a2) == Started(s)
  {
  }

  /** Seeding from 0 to the largest id makes the very next poll ask for the
      changes since that id. */
  lemma FirstPollAsksFromSeed(pending: set<RemoteId>, largest: int, changesSince: ChangesSince)
    ensures StartStep(RemoteState(UNSEEDED, pending), About(largest)).Started?
    ensures var seeded := StartStep(RemoteState(UNSEEDED, pending), About(largest)).state;
            changesSince(largest).IOFailure? ==> PollStep(seeded, changesSince) == seeded
    ensures var seeded := StartStep(RemoteState(UNSEEDED, pending), About(largest)).state;
            changesSince(largest).Success? ==>
              PollStep(seeded, changesSince) ==
              RemoteState(changesSince(largest).revision, pending + changesSince(largest).changes)
  {
  }

  /** The poll trusts the backend's revision: a backend that answers with an
      older revision than the one asked for takes the cursor back. */
  lemma CursorFollowsRewindingBackend(pending: set<RemoteId>)
    ensures var rewinding: ChangesSince := since => Success({}, since - 1);
            PollStep(RemoteState(5, pending), rewinding).cursor == 4
  {
  }

  /** A poll at a revision where the backend is quiet changes nothing. */
  lemma QuietPollIsNoOp(s: RemoteState, changesSince: ChangesSince)
    requires QuietAt(changesSince, s.cursor)
    ensures PollStep(s, changesSince) == s
  {
  }

  /** Any number of polls against a backend that stays quiet at the cursor
      leave the whole state as it was. */
  lemma {:induction false} QuietPollsAreNoOps(s: RemoteState, polls: seq<ChangesSince>)
    requires forall i :: 0 <= i < |polls| ==> QuietAt(polls[i], s.cursor)
    ensures RunPolls(s, polls) == s
  {
    if polls != [] {
      var front := polls[..|polls| - 1];
      QuietPollsAreNoOps(s, front);
      QuietPollIsNoOp(s, polls[|polls| - 1]);
    }
  }

  /** Polling never removes a pending change. */
  lemma {:induction false} PollsKeepPending(s: RemoteState, polls: seq<ChangesSince>)
    ensures s.pending <= RunPolls(s, polls).pending
  {
    if polls != [] {
      PollsKeepPending(s, polls[..|polls| - 1]);
    }
  }

  /** The cursor never decreases from one poll to a later one, provided the
      backend never reports a revision older than the one asked for. */
  lemma {:induction false} CursorNonDecreasing(s: RemoteState, polls: seq<ChangesSince>, i: nat, j: nat)
    requires i <= j <= |polls|
    requires forall k :: 0 <= k < |polls| ==> NeverRewinds(polls[k])
    ensures RunPolls(s, polls[..i]).cursor <= RunPolls(s, polls[..j]).cursor
  {
    if i < j {
      CursorNonDecreasing(s, polls, i, j - 1);
      var before := RunPolls(s, polls[..j - 1]);
      assert polls[..j][..j - 1] == polls[..j - 1];
      assert RunPolls(s, polls[..j]) == PollStep(before, polls[j - 1]);
      assert NeverRewinds(polls[j - 1]);
    }
  }

  /** The file system model, reduced to the revision cursor it persists. */
  class FileSystem {
    var revision: int

    constructor (revision: int)
      ensures this.revision == revision
    {
      this.revision := revision;
    }
  }

  /** The remote watcher: the revision cursor lives in the shared file system
      model, the pending set in the change collection it inherits. */
  class RemoteChangesWatcher {
    const pending: ChangesWatcher<RemoteId>
    const fileSystem: FileSystem
    const executor: Executor

    constructor (fileSystem: FileSystem, executor: Executor)
      ensures this.fileSystem == fileSystem && this.executor == executor
      ensures fresh(pending) && pending.changes == {}
    {
      this.pending := new ChangesWatcher();
      this.fileSystem := fileSystem;
      this.executor := executor;
    }

    function State(): RemoteState
      reads pending, fileSystem
    {
      RemoteState(fileSystem.revision, pending.changes)
    }

    /** Seeds the cursor if needed, then registers the poll task. A failing
        `about` call aborts before anything is registered. */
    method Start(about: AboutOutcome) returns (r: StartResult)
      modifies fileSystem, executor
      ensures r == StartStep(old(State()), about)
      ensures r.Started? ==> State() == r.state
      ensures r.Started? ==> executor.tasks == old(executor.tasks) + [ScheduledTask(PollTask, 0, POLL_DELAY)]
      ensures r.StartFailed? ==> State() == old(State()) && executor.tasks == old(executor.tasks)
      ensures unchanged(pending)
    {
      if fileSystem.revision == UNSEEDED {
        match about {
          case About(id) =>
            fileSystem.revision := id;
          case AboutFailure =>
            return StartFailed(IOException);
        }
      }
      r := Started(State());
      executor.ScheduleWithFixedDelay(PollTask, 0, POLL_DELAY);
    }

    /** One run of the poll task. */
    method Poll(changesSince: ChangesSince)
      modifies pending, fileSystem
      ensures State() == PollStep(old(State()), changesSince)
    {
      var outcome := changesSince(fileSystem.revision);
      match outcome {
        case Success(changes, revision) =>
          pending.AddAll(changes);
          fileSystem.revision := revision;
        case IOFailure =>
      }
    }
  }
}
