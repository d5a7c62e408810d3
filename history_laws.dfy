/**
 * Laws of the store's history that relate several operations: undo and redo
 * are inverse, N undos followed by N redos restore the state, a paused batch
 * of mutations becomes one history entry that a single undo reverts, and
 * nested pauses collapse to the outermost pair.
 */
module HistoryLaws {
  import opened Wrappers
  import opened Liveblocks

  // ---------------------------------------------------------------------------
  // Undo and redo

  /** A redo right after a successful undo gives back the state from before the undo. */
  lemma UndoThenRedo(st: LocalState)
    requires st.past != []
    ensures AfterRedo(AfterUndo(st)) == st.(version := st.version + 2)
  {
    var n := |st.past|;
    assert st.past[..n - 1] + [st.past[n - 1]] == st.past;
  }

  /** An undo right after a successful redo gives back the state from before the redo. */
  lemma RedoThenUndo(st: LocalState)
    requires st.future != []
    ensures AfterUndo(AfterRedo(st)) == st.(version := st.version + 2)
  {
    var n := |st.future|;
    assert st.future[..n - 1] + [st.future[n - 1]] == st.future;
  }

  /** `n` undos in a row. */
  function UndoN(st: LocalState, n: nat): LocalState
    decreases n
  {
    if n == 0 then st else UndoN(AfterUndo(st), n - 1)
  }

  /** `n` redos in a row. */
  function RedoN(st: LocalState, n: nat): LocalState {
    if n == 0 then st else AfterRedo(RedoN(st, n - 1))
  }

  /** Redo commutes with the render counter. */
  lemma RedoIgnoresVersion(st: LocalState, v: nat)
    requires st.future != []
    ensures AfterRedo(st.(version := v)) == AfterRedo(st).(version := v + 1)
  {
  }

  /** The inductive step of the round trip: one more undo in front, one more redo behind. */
  lemma RoundTripStep(st: LocalState, n: nat)
    requires 0 < n <= |st.past|
    requires var u := AfterUndo(st); RedoN(UndoN(u, n - 1), n - 1) == u.(version := u.version + 2 * (n - 1))
    ensures RedoN(UndoN(st, n), n) == st.(version := st.version + 2 * n)
  {
    var u := AfterUndo(st);
    var v := u.version + 2 * (n - 1);
    assert UndoN(st, n) == UndoN(u, n - 1);
    RedoIgnoresVersion(u, v);
    UndoThenRedo(st);
  }

  /**
   * Undoing `n` history entries and redoing them again restores document,
   * presence and both stacks exactly; only the render counter moved on.
   */
  lemma {:induction false} UndoRedoRoundTrip(st: LocalState, n: nat)
    requires n <= |st.past|
    ensures RedoN(UndoN(st, n), n) == st.(version := st.version + 2 * n)
    decreases n
  {
    if n > 0 {
      UndoRedoRoundTrip(AfterUndo(st), n - 1);
      RoundTripStep(st, n);
    }
  }

  /** What an undo installs is never lost: redo can always bring the undone state back. */
  lemma UndoEnablesRedo(st: LocalState)
    requires CanUndo(st)
    ensures CanRedo(AfterUndo(st))
    ensures AfterUndo(st).future[|AfterUndo(st).future| - 1] == SnapshotOf(st)
  {
  }

  /** A recorded change outside a pause makes redo impossible and undo possible. */
  lemma NewChangeInvalidatesRedo(st: LocalState, m: Mutation)
    requires st.pauseDepth == 0 && Qualifies(st, m)
    ensures !CanRedo(AfterMutation(st, m)) && CanUndo(AfterMutation(st, m))
    ensures AfterUndo(AfterMutation(st, m)).root == st.root
    ensures AfterUndo(AfterMutation(st, m)).presence == st.presence
  {
  }

  // ---------------------------------------------------------------------------
  // The document invariant

  /** A mutation that installs an in-sync document keeps every document of the history in sync. */
  lemma MutationKeepsInSync(st: LocalState, m: Mutation)
    requires AllInSync(st) && InSync(m.root)
    ensures AllInSync(AfterMutation(st, m))
  {
  }

  /** Pausing and resuming only move snapshots of in-sync documents around. */
  lemma PauseKeepsInSync(st: LocalState)
    requires AllInSync(st)
    ensures AllInSync(AfterPause(st)) && AllInSync(AfterResume(st))
  {
  }

  /** Undo and redo only move snapshots of in-sync documents between the stacks. */
  lemma UndoRedoKeepInSync(st: LocalState)
    requires AllInSync(st)
    ensures AllInSync(AfterUndo(st)) && AllInSync(AfterRedo(st))
  {
  }

  // ---------------------------------------------------------------------------
  // Batches of mutations

  /** Runs the mutations in order. */
  function MutateAll(st: LocalState, ms: seq<Mutation>): LocalState
    decreases |ms|
  {
    if ms == [] then st else MutateAll(AfterMutation(st, ms[0]), ms[1..])
  }

  /** Some mutation of the batch is recorded, judged against the state it runs on. */
  predicate AnyQualifies(st: LocalState, ms: seq<Mutation>)
    decreases |ms|
  {
    ms != [] && (Qualifies(st, ms[0]) || AnyQualifies(AfterMutation(st, ms[0]), ms[1..]))
  }

  /**
   * Mutations inside a pause leave both stacks and the entry snapshot alone;
   * the batch is dirty after them exactly when it was before or one of them
   * qualified, and the last mutation's outcome is live.
   */
  lemma {:induction false} MutationsWhilePaused(st: LocalState, ms: seq<Mutation>)
    requires st.pauseDepth > 0 && st.pausedSnapshot.Some?
    ensures var r := MutateAll(st, ms);
      && r.past == st.past && r.future == st.future
      && r.pauseDepth == st.pauseDepth && r.pausedSnapshot == st.pausedSnapshot
      && (r.pausedChanged <==> st.pausedChanged || AnyQualifies(st, ms))
      && (ms != [] ==> r.root == ms[|ms| - 1].root && r.presence == ms[|ms| - 1].presence)
      && (ms == [] ==> r == st)
    decreases |ms|
  {
    if ms != [] {
      var next := AfterMutation(st, ms[0]);
      MutationsWhilePaused(next, ms[1..]);
      if |ms| > 1 {
        assert ms[1..][|ms[1..]| - 1] == ms[|ms| - 1];
      }
    }
  }

  /**
   * A batch wrapped in pause/resume at depth 0: at most one history entry
   * appears, it appears exactly when some mutation of the batch qualified, it
   * is the snapshot taken when the pause began, and one undo brings back the
   * document and presence from before the batch.
   */
  lemma PauseBatching(st: LocalState, ms: seq<Mutation>)
    requires Consistent(st) && st.pauseDepth == 0
    ensures var r := AfterResume(MutateAll(AfterPause(st), ms));
      && r.pauseDepth == 0 && r.pausedSnapshot.None? && !r.pausedChanged
      && (AnyQualifies(AfterPause(st), ms) ==> r.past == st.past + [SnapshotOf(st)] && r.future == [])
      && (!AnyQualifies(AfterPause(st), ms) ==> r.past == st.past && r.future == st.future)
      && (AnyQualifies(AfterPause(st), ms) ==>
            AfterUndo(r).root == st.root && AfterUndo(r).presence == st.presence)
  {
    var paused := AfterPause(st);
    MutationsWhilePaused(paused, ms);
  }

  /** A pause directly followed by a resume, at any depth, changes nothing. */
  lemma PauseResumeIsIdle(st: LocalState)
    requires Consistent(st)
    ensures AfterResume(AfterPause(st)) == st
  {
  }

  /** A batch run at one positive depth runs the same at any other positive depth. */
  lemma {:induction false} MutateAllAtDepth(st: LocalState, ms: seq<Mutation>, depth: nat)
    requires st.pauseDepth > 0 && depth > 0
    ensures MutateAll(st.(pauseDepth := depth), ms) == MutateAll(st, ms).(pauseDepth := depth)
    decreases |ms|
  {
    if ms != [] {
      var next := AfterMutation(st, ms[0]);
      assert AfterMutation(st.(pauseDepth := depth), ms[0]) == next.(pauseDepth := depth);
      MutateAllAtDepth(next, ms[1..], depth);
    }
  }

  /** No mutation of a batch changes the pause depth. */
  lemma {:induction false} MutateAllKeepsDepth(st: LocalState, ms: seq<Mutation>)
    ensures MutateAll(st, ms).pauseDepth == st.pauseDepth
    decreases |ms|
  {
    if ms != [] {
      MutateAllKeepsDepth(AfterMutation(st, ms[0]), ms[1..]);
    }
  }

  /**
   * An inner pause/resume pair inside an open pause collapses: the batch has
   * exactly the effect it has without the pair, and the outer pause's depth,
   * snapshot and stacks are as they were.
   */
  lemma NestedPauseCollapses(st: LocalState, ms: seq<Mutation>)
    requires st.pauseDepth > 0
    ensures AfterResume(MutateAll(AfterPause(st), ms)) == MutateAll(st, ms)
    ensures st.pausedSnapshot.Some? ==>
      var r := AfterResume(MutateAll(AfterPause(st), ms));
      && r.pauseDepth == st.pauseDepth && r.pausedSnapshot == st.pausedSnapshot
      && r.past == st.past && r.future == st.future
  {
    MutateAllAtDepth(st, ms, st.pauseDepth + 1);
    MutateAllKeepsDepth(st, ms);
    assert MutateAll(st, ms).(pauseDepth := st.pauseDepth + 1).(pauseDepth := st.pauseDepth) == MutateAll(st, ms);
    if st.pausedSnapshot.Some? {
      MutationsWhilePaused(st, ms);
    }
  }

  // ---------------------------------------------------------------------------
  // Presence merge

  /** Merging a patch twice is merging it once. */
  lemma MergeIdempotent(p: Presence, patch: PresencePatch)
    ensures MergePresence(MergePresence(p, patch), patch) == MergePresence(p, patch)
  {
  }

  /** The empty patch is the identity, and a presence-only mutation with it is invisible. */
  lemma EmptyPatchIsNoOp(st: LocalState, addToHistory: bool)
    ensures var empty := PresencePatch(None, None, None, None);
      && MergePresence(st.presence, empty) == st.presence
      && AfterMutation(st, Mutation(st.root, MergePresence(st.presence, empty), addToHistory)) == st
  {
  }

  /** A presence change without `addToHistory` moves the counter but never the history. */
  lemma PresenceWithoutHistory(st: LocalState, patch: PresencePatch)
    ensures var r := AfterMutation(st, Mutation(st.root, MergePresence(st.presence, patch), false));
      && r.past == st.past && r.future == st.future
      && r.pausedSnapshot == st.pausedSnapshot && r.pausedChanged == st.pausedChanged
      && r.presence == MergePresence(st.presence, patch)
  {
  }
}
