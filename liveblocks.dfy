/**
 * The local collaborative store of src/lib/liveblocks.tsx: a live document, the
 * local user's presence, and a linear undo/redo history over both, with
 * reentrant pausing that batches several mutations into one history entry.
 *
 * The transitions are given twice, as the source's own two layers suggest:
 * pure functions over a `LocalState` value (`AfterMutation`, `AfterPause`,
 * `AfterResume`, `AfterUndo`, `AfterRedo`), which the lemmas in HistoryLaws
 * reason about, and the class `Room`, whose methods update its fields step by
 * step as the source does and are proved to produce exactly those states.
 */
module Liveblocks {
  import opened Wrappers
  import opened Types

  /** The local user's ephemeral state. */
  datatype Presence = Presence(
    selection: seq<string>,
    cursor: Option<Point>,
    penColor: Option<Color>,
    pencilDraft: Option<seq<seq<real>>>)

  /**
   * A `Partial<Presence>`: `None` is an absent key, `Some(v)` a key carrying
   * `v` (for the nullable fields `v` may itself be `None`, i.e. `null`).
   */
  datatype PresencePatch = PresencePatch(
    selection: Option<seq<string>>,
    cursor: Option<Option<Point>>,
    penColor: Option<Option<Color>>,
    pencilDraft: Option<Option<seq<seq<real>>>>)

  /** The shared document: background colour, layers by id, and the z-order of ids. */
  datatype RootStorage = RootStorage(roomColor: Color, layers: map<string, Layer>, layerIds: seq<string>)

  datatype Snapshot = Snapshot(storage: RootStorage, presence: Presence)

  /** Everything the store owns; `version` is the render counter readers watch. */
  datatype LocalState = LocalState(
    root: RootStorage,
    presence: Presence,
    past: seq<Snapshot>,
    future: seq<Snapshot>,
    pauseDepth: nat,
    pausedSnapshot: Option<Snapshot>,
    pausedChanged: bool,
    version: nat)

  /**
   * What a mutation callback leaves behind: the document and presence after it
   * ran, and whether it called `setMyPresence` with `addToHistory` set.
   */
  datatype Mutation = Mutation(root: RootStorage, presence: Presence, presenceWantsHistory: bool)

  // ---------------------------------------------------------------------------
  // Copies

  /** Copies every collection of a presence record; the copy equals the original. */
  function ClonePresence(p: Presence): (r: Presence)
    ensures r == p
  {
    Presence(
      p.selection[..],
      (match p.cursor case Some(c) => Some(Point(c.x, c.y)) case None => None),
      (match p.penColor case Some(c) => Some(Color(c.r, c.g, c.b)) case None => None),
      (match p.pencilDraft
       case Some(d) =>
         var copy := seq(|d|, i requires 0 <= i < |d| => d[i][..]);
         assert copy == d;
         Some(copy)
       case None => None))
  }

  /**
   * Fills a fresh layer map entry by entry from `root.layers` and copies the
   * colour and the id list; the copy equals the original document.
   */
  method CloneStorage(root: RootStorage) returns (copy: RootStorage)
    ensures copy == root
  {
    var nextLayers: map<string, Layer> := map[];
    var rest := root.layers.Keys;
    while rest != {}
      invariant rest <= root.layers.Keys
      invariant nextLayers.Keys == root.layers.Keys - rest
      invariant forall id :: id in nextLayers ==> nextLayers[id] == root.layers[id]
      decreases rest
    {
      var id :| id in rest;
      nextLayers := nextLayers[id := root.layers[id]];
      rest := rest - {id};
    }
    copy := RootStorage(root.roomColor, nextLayers, root.layerIds[..]);
  }

  /** The snapshot `createSnapshot` takes of a state. */
  function SnapshotOf(st: LocalState): Snapshot {
    Snapshot(st.root, st.presence)
  }

  /** The state of a freshly opened room. */
  function Initial(storage: RootStorage, presence: Presence): LocalState {
    LocalState(storage, presence, [], [], 0, None, false, 0)
  }

  // ---------------------------------------------------------------------------
  // Presence merge

  /** `{ ...presence, ...patch }`: keys in the patch win, every other field is kept. */
  function MergePresence(p: Presence, patch: PresencePatch): (r: Presence)
    ensures r.selection == (if patch.selection.Some? then patch.selection.value else p.selection)
    ensures r.cursor == (if patch.cursor.Some? then patch.cursor.value else p.cursor)
    ensures r.penColor == (if patch.penColor.Some? then patch.penColor.value else p.penColor)
    ensures r.pencilDraft == (if patch.pencilDraft.Some? then patch.pencilDraft.value else p.pencilDraft)
  {
    Presence(
      patch.selection.GetOr(p.selection),
      patch.cursor.GetOr(p.cursor),
      patch.penColor.GetOr(p.penColor),
      patch.pencilDraft.GetOr(p.pencilDraft))
  }

  // ---------------------------------------------------------------------------
  // Invariants

  /**
   * The pause bookkeeping: outside a pause there is no pending snapshot and
   * nothing is marked dirty; inside one the entry snapshot is held.
   */
  predicate Consistent(st: LocalState) {
    && (st.pauseDepth == 0 <==> st.pausedSnapshot.None?)
    && (st.pauseDepth == 0 ==> !st.pausedChanged)
  }

  /** The document invariant: every id in the z-order has a layer and vice versa. */
  predicate InSync(root: RootStorage) {
    && (forall id :: id in root.layerIds ==> id in root.layers)
    && (forall id :: id in root.layers ==> id in root.layerIds)
  }

  /** The live document and every document the history holds are in sync. */
  predicate AllInSync(st: LocalState) {
    && InSync(st.root)
    && (forall i :: 0 <= i < |st.past| ==> InSync(st.past[i].storage))
    && (forall i :: 0 <= i < |st.future| ==> InSync(st.future[i].storage))
    && (st.pausedSnapshot.Some? ==> InSync(st.pausedSnapshot.value.storage))
  }

  // ---------------------------------------------------------------------------
  // Transitions

  /** A mutation is recorded in history when storage changed, or presence changed and the caller asked for it. */
  predicate Qualifies(st: LocalState, m: Mutation) {
    m.root != st.root || (m.presence != st.presence && m.presenceWantsHistory)
  }

  /** `runMutation`: install the callback's outcome, decide on history, bump the version on any change. */
  function AfterMutation(st: LocalState, m: Mutation): (r: LocalState)
    // the outcome becomes the live state
    ensures r.root == m.root && r.presence == m.presence
    // a mutation that changes nothing is invisible
    ensures m.root == st.root && m.presence == st.presence ==> r == st
    // any change, recorded or not, notifies readers exactly once
    ensures r.version == if m.root != st.root || m.presence != st.presence then st.version + 1 else st.version
    ensures r.pauseDepth == st.pauseDepth
    // a change that does not qualify leaves history alone
    ensures !Qualifies(st, m) ==>
      r.past == st.past && r.future == st.future &&
      r.pausedSnapshot == st.pausedSnapshot && r.pausedChanged == st.pausedChanged
    // outside a pause: push the state from before, drop redo
    ensures Qualifies(st, m) && st.pauseDepth == 0 ==>
      r.past == st.past + [SnapshotOf(st)] && r.future == [] &&
      r.pausedSnapshot == st.pausedSnapshot && r.pausedChanged == st.pausedChanged
    // inside a pause: keep the first pending snapshot, mark the batch dirty
    ensures Qualifies(st, m) && st.pauseDepth > 0 ==>
      r.past == st.past && r.future == st.future && r.pausedChanged &&
      r.pausedSnapshot == (if st.pausedSnapshot.Some? then st.pausedSnapshot else Some(SnapshotOf(st)))
    ensures Consistent(st) ==> Consistent(r)
  {
    var storageChanged := m.root != st.root;
    var presenceChanged := m.presence != st.presence;
    var live := st.(root := m.root, presence := m.presence);
    if !(storageChanged || presenceChanged) then
      live
    else
      var shouldTrackHistory := storageChanged || m.presenceWantsHistory;
      var recorded :=
        if !shouldTrackHistory then live
        else if st.pauseDepth > 0 then
          live.(pausedSnapshot := if st.pausedSnapshot.None? then Some(SnapshotOf(st)) else st.pausedSnapshot,
                pausedChanged := true)
        else
          live.(past := st.past + [SnapshotOf(st)], future := []);
      recorded.(version := st.version + 1)
  }

  /** `pauseHistory`: only the outermost pause takes the entry snapshot. */
  function AfterPause(st: LocalState): (r: LocalState)
    ensures r.pauseDepth == st.pauseDepth + 1
    ensures st.pauseDepth == 0 ==> r.pausedSnapshot == Some(SnapshotOf(st)) && !r.pausedChanged
    ensures st.pauseDepth > 0 ==> r == st.(pauseDepth := st.pauseDepth + 1)
    ensures r.root == st.root && r.presence == st.presence && r.past == st.past && r.future == st.future
    ensures r.version == st.version
    ensures Consistent(st) ==> Consistent(r)
  {
    var captured :=
      if st.pauseDepth == 0 then st.(pausedSnapshot := Some(SnapshotOf(st)), pausedChanged := false)
      else st;
    captured.(pauseDepth := st.pauseDepth + 1)
  }

  /**
   * `resumeHistory`: a no-op at depth 0; on the last resume the batch becomes
   * one history entry if (and only if) it was dirty.
   */
  function AfterResume(st: LocalState): (r: LocalState)
    ensures st.pauseDepth == 0 ==> r == st
    ensures st.pauseDepth > 1 ==> r == st.(pauseDepth := st.pauseDepth - 1)
    ensures st.pauseDepth == 1 ==>
      r.pauseDepth == 0 && r.pausedSnapshot.None? && !r.pausedChanged &&
      r.root == st.root && r.presence == st.presence
    ensures Consistent(st) && st.pauseDepth == 1 ==>
      (st.pausedChanged <==> r.past == st.past + [st.pausedSnapshot.value]) &&
      (st.pausedChanged ==> r.future == [] && r.version == st.version + 1) &&
      (!st.pausedChanged ==> r.past == st.past && r.future == st.future && r.version == st.version)
    ensures Consistent(st) ==> Consistent(r)
  {
    if st.pauseDepth == 0 then st
    else
      var depth := st.pauseDepth - 1;
      if depth > 0 then st.(pauseDepth := depth)
      else
        var pushed :=
          if st.pausedChanged && st.pausedSnapshot.Some? then
            st.(past := st.past + [st.pausedSnapshot.value], future := [], version := st.version + 1)
          else st;
        pushed.(pauseDepth := 0, pausedSnapshot := None, pausedChanged := false)
  }

  /** `undo`: pop `past`, push the current state onto `future`, install the popped snapshot. */
  function AfterUndo(st: LocalState): (r: LocalState)
    ensures st.past == [] ==> r == st
    ensures st.past != [] ==>
      var previous := st.past[|st.past| - 1];
      r.past == st.past[..|st.past| - 1] && r.future == st.future + [SnapshotOf(st)] &&
      r.root == previous.storage && r.presence == previous.presence &&
      r.version == st.version + 1
    ensures |r.past| + |r.future| == |st.past| + |st.future|
    ensures r.pauseDepth == st.pauseDepth && r.pausedSnapshot == st.pausedSnapshot && r.pausedChanged == st.pausedChanged
    ensures Consistent(st) ==> Consistent(r)
  {
    if st.past == [] then st
    else
      var previous := st.past[|st.past| - 1];
      st.(past := st.past[..|st.past| - 1],
          future := st.future + [SnapshotOf(st)],
          root := previous.storage,
          presence := previous.presence,
          version := st.version + 1)
  }

  /** `redo`: pop `future`, push the current state onto `past`, install the popped snapshot. */
  function AfterRedo(st: LocalState): (r: LocalState)
    ensures st.future == [] ==> r == st
    ensures st.future != [] ==>
      var next := st.future[|st.future| - 1];
      r.future == st.future[..|st.future| - 1] && r.past == st.past + [SnapshotOf(st)] &&
      r.root == next.storage && r.presence == next.presence &&
      r.version == st.version + 1
    ensures |r.past| + |r.future| == |st.past| + |st.future|
    ensures r.pauseDepth == st.pauseDepth && r.pausedSnapshot == st.pausedSnapshot && r.pausedChanged == st.pausedChanged
    ensures Consistent(st) ==> Consistent(r)
  {
    if st.future == [] then st
    else
      var next := st.future[|st.future| - 1];
      st.(future := st.future[..|st.future| - 1],
          past := st.past + [SnapshotOf(st)],
          root := next.storage,
          presence := next.presence,
          version := st.version + 1)
  }

  /** `useCanUndo`: undo has an effect exactly when `past` is non-empty. */
  function CanUndo(st: LocalState): (r: bool)
    ensures r <==> |st.past| > 0
    ensures r <==> AfterUndo(st) != st
  {
    |st.past| > 0
  }

  /** `useCanRedo`: redo has an effect exactly when `future` is non-empty. */
  function CanRedo(st: LocalState): (r: bool)
    ensures r <==> |st.future| > 0
    ensures r <==> AfterRedo(st) != st
  {
    |st.future| > 0
  }

  // ---------------------------------------------------------------------------
  // The store object

  /** The mutable `LocalState` held by a room, with the operations the provider exposes. */
  class Room {
    var root: RootStorage
    var presence: Presence
    var past: seq<Snapshot>
    var future: seq<Snapshot>
    var pauseDepth: nat
    var pausedSnapshot: Option<Snapshot>
    var pausedChanged: bool
    var version: nat

    /** The value of every field, as one state. */
    function State(): LocalState
      reads this
    {
      LocalState(root, presence, past, future, pauseDepth, pausedSnapshot, pausedChanged, version)
    }

    ghost predicate Valid()
      reads this
    {
      Consistent(State())
    }

    /** Opens a room on copies of the initial document and presence, with empty history. */
    constructor (initialStorage: RootStorage, initialPresence: Presence)
      ensures Valid()
      ensures State() == Initial(initialStorage, initialPresence)
    {
      var storage := CloneStorage(initialStorage);
      root := storage;
      presence := ClonePresence(initialPresence);
      past := [];
      future := [];
      pauseDepth := 0;
      pausedSnapshot := None;
      pausedChanged := false;
      version := 0;
    }

    /** `createSnapshot`: an independent copy of the live document and presence. */
    method CreateSnapshot() returns (s: Snapshot)
      ensures s == SnapshotOf(State())
    {
      var storage := CloneStorage(root);
      s := Snapshot(storage, ClonePresence(presence));
    }

    /** `restoreSnapshot`: install copies of a snapshot as the live state; nothing else changes. */
    method RestoreSnapshot(s: Snapshot)
      modifies this
      ensures State() == old(State()).(root := s.storage, presence := s.presence)
    {
      var storage := CloneStorage(s.storage);
      root := storage;
      presence := ClonePresence(s.presence);
    }

    /** `runMutation` for a callback whose outcome is `m`. */
    method RunMutation(m: Mutation)
      modifies this
      ensures old(Valid()) ==> Valid()
      ensures State() == AfterMutation(old(State()), m)
    {
      var storageBefore := root;
      var presenceBefore := presence;
      var snapshotBefore := CreateSnapshot();

      root := m.root;
      presence := m.presence;

      var storageChanged := storageBefore != root;
      var presenceChanged := presenceBefore != presence;
      if storageChanged || presenceChanged {
        var shouldTrackHistory := storageChanged || m.presenceWantsHistory;
        if shouldTrackHistory {
          if pauseDepth > 0 {
            if pausedSnapshot.None? {
              pausedSnapshot := Some(snapshotBefore);
            }
            pausedChanged := true;
          } else {
            past := past + [snapshotBefore];
            future := [];
          }
        }
        version := version + 1;
      }
    }

    /** The provider's `setMyPresence`: a mutation whose only effect is the shallow merge of `patch`. */
    method SetMyPresence(patch: PresencePatch, addToHistory: bool)
      modifies this
      ensures old(Valid()) ==> Valid()
      ensures State() == AfterMutation(old(State()), Mutation(old(root), MergePresence(old(presence), patch), addToHistory))
    {
      RunMutation(Mutation(root, MergePresence(presence, patch), addToHistory));
    }

    method PauseHistory()
      modifies this
      ensures old(Valid()) ==> Valid()
      ensures State() == AfterPause(old(State()))
    {
      if pauseDepth == 0 {
        var s := CreateSnapshot();
        pausedSnapshot := Some(s);
        pausedChanged := false;
      }
      pauseDepth := pauseDepth + 1;
    }

    method ResumeHistory()
      modifies this
      ensures old(Valid()) ==> Valid()
      ensures State() == AfterResume(old(State()))
    {
      if pauseDepth == 0 {
        return;
      }
      pauseDepth := pauseDepth - 1;
      if pauseDepth == 0 {
        if pausedChanged && pausedSnapshot.Some? {
          past := past + [pausedSnapshot.value];
          future := [];
          version := version + 1;
        }
        pausedSnapshot := None;
        pausedChanged := false;
      }
    }

    method Undo()
      modifies this
      ensures old(Valid()) ==> Valid()
      ensures State() == AfterUndo(old(State()))
    {
      if past == [] {
        return;
      }
      var previous := past[|past| - 1];
      past := past[..|past| - 1];
      var current := CreateSnapshot();
      future := future + [current];
      RestoreSnapshot(previous);
      version := version + 1;
    }

    method Redo()
      modifies this
      ensures old(Valid()) ==> Valid()
      ensures State() == AfterRedo(old(State()))
    {
      if future == [] {
        return;
      }
      var next := future[|future| - 1];
      future := future[..|future| - 1];
      var current := CreateSnapshot();
      past := past + [current];
      RestoreSnapshot(next);
      version := version + 1;
    }
  }
}
