/** The daemon as a sequence of task runs: the poll task and the merge task
    run in some order, one at a time, and share only the pending sets and the
    revision cursor. */
module SyncDaemon {
  import opened Changes
  import opened RemoteWatching
  import opened Merging

  /** One run of a periodic task, with the outcomes of the collaborators it calls. */
  datatype Tick =
    | PollTick(changesSince: ChangesSince)
    | MergeTick(localHandler: LocalHandler, remoteHandler: RemoteHandler)

  function Step(s: SyncState, t: Tick): SyncState
  {
    match t
    case PollTick(changesSince) => s.(remote := PollStep(s.remote, changesSince))
    case MergeTick(localHandler, remoteHandler) => MergeIteration(s, localHandler, remoteHandler).after
  }

  /** The state after the ticks, the last element of `ticks` being the latest. */
  function Run(s: SyncState, ticks: seq<Tick>): SyncState
  {
    if ticks == [] then s else Step(Run(s, ticks[..|ticks| - 1]), ticks[|ticks| - 1])
  }

  /** The poll ticks among `ticks`, in order. */
  function PollsOf(ticks: seq<Tick>): seq<ChangesSince>
  {
    if ticks == [] then []
    else
      var last := ticks[|ticks| - 1];
      PollsOf(ticks[..|ticks| - 1]) + (if last.PollTick? then [last.changesSince] else [])
  }

  /** However merge runs are interleaved with polls, the cursor is the one the
      polls alone would have produced. */
  lemma {:induction false} CursorFollowsPollsOnly(s: SyncState, ticks: seq<Tick>)
    ensures Run(s, ticks).remote.cursor == RunPolls(s.remote, PollsOf(ticks)).cursor
  {
    if ticks != [] {
      var front := ticks[..|ticks| - 1];
      var last := ticks[|ticks| - 1];
      CursorFollowsPollsOnly(s, front);
      if last.PollTick? {
        var polls := PollsOf(front) + [last.changesSince];
        assert polls[..|polls| - 1] == PollsOf(front);
      } else {
        assert PollsOf(ticks) == PollsOf(front) + [] == PollsOf(front);
        var it := MergeIteration(Run(s, front), last.localHandler, last.remoteHandler);
        assert Run(s, ticks) == it.after;
        assert it.after.remote.cursor == Run(s, front).remote.cursor;
      }
    }
  }

  /** The cursor never decreases over any interleaving of polls and merges,
      provided the backend never reports a revision older than the one asked for. */
  lemma {:induction false} CursorNeverDecreases(s: SyncState, ticks: seq<Tick>, i: nat, j: nat)
    requires i <= j <= |ticks|
    requires forall k :: 0 <= k < |ticks| && ticks[k].PollTick? ==> NeverRewinds(ticks[k].changesSince)
    ensures Run(s, ticks[..i]).remote.cursor <= Run(s, ticks[..j]).remote.cursor
  {
    if i < j {
      CursorNeverDecreases(s, ticks, i, j - 1);
      assert ticks[..j][..j - 1] == ticks[..j - 1];
      var t := ticks[j - 1];
      if t.PollTick? {
        assert NeverRewinds(t.changesSince);
      }
    }
  }

  /** Once a merge has told the remote watcher to ignore what the local handler
      touched, no later remote handler sees those identifiers, as long as only
      merges run in between. */
  lemma {:induction false} NoEchoWhileNoPoll(s: SyncState, ignored: set<RemoteId>, merges: seq<Tick>, i: nat)
    requires s.remote.pending !! ignored
    requires forall k :: 0 <= k < |merges| ==> merges[k].MergeTick?
    requires i < |merges|
    ensures var before := Run(s, merges[..i]);
            MergeIteration(before, merges[i].localHandler, merges[i].remoteHandler).calls[2].seenIds !! ignored
  {
    MergesOnlyDrain(s, merges, i);
  }

  /** Merges alone only ever remove remote pending changes. */
  lemma {:induction false} MergesOnlyDrain(s: SyncState, merges: seq<Tick>, i: nat)
    requires forall k :: 0 <= k < |merges| ==> merges[k].MergeTick?
    requires i <= |merges|
    ensures Run(s, merges[..i]).remote.pending <= s.remote.pending
  {
    if i > 0 {
      MergesOnlyDrain(s, merges, i - 1);
      assert merges[..i][..i - 1] == merges[..i - 1];
    }
  }

  /** The suppression is a removal that happens once, inside the merge: an
      identifier the local handler uploads is not pending when the merge
      ends, but a later poll that reports it makes it pending again. */
  lemma EchoReturnsAfterLaterPoll(s: SyncState, localHandler: LocalHandler, remoteHandler: RemoteHandler,
                                  changesSince: ChangesSince, x: RemoteId)
    requires x in localHandler(s.localPending).touched
    requires changesSince(s.remote.cursor).Success? && x in changesSince(s.remote.cursor).changes
    ensures x !in Run(s, [MergeTick(localHandler, remoteHandler)]).remote.pending
    ensures x in Run(s, [MergeTick(localHandler, remoteHandler), PollTick(changesSince)]).remote.pending
  {
  }
}
