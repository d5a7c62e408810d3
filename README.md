# Collaborative whiteboard: local store and design-panel edits

This project models two parts of a collaborative whiteboard application and proves properties about them.

**The local collaborative store** (`src/lib/liveblocks.tsx`) keeps:

- a live document: the room colour, a map of layers by id, and the z-ordered list of layer ids;
- the local user's presence: selection, cursor, pen colour and pencil draft;
- a linear undo/redo history over both.

Each mutation is judged by comparing the document and presence before and after it runs:

- a change to the document always goes into history;
- a presence-only change goes into history only when the caller asked for that;
- any change bumps the render counter.

`pauseHistory`/`resumeHistory` nest. While they are paused, every recorded change collapses into one history entry, the snapshot taken when the pause began. `undo` and `redo` pop one stack, push a snapshot of the current state onto the other, and install the popped snapshot.

**The design panel's edit logic** (`src/components/sidebars/Sidebars.tsx`) covers:

- `clamp`;
- the hex-colour normaliser `normalizeHex`;
- the rule that only a single selected layer is edited;
- the `updateLayer` mutation. It turns a partial update from the panel into a patch: sizes are clamped, percentages and font weights are brought into range, colours that do not normalise are dropped, and a shadow update is merged over the current shadow or the default one. The patch is then written onto the selected layer through the store's mutation runner.

What the files hold:

- `types.dfy` has the document entities of `src/types.ts`. The five-way layer union is one record: the variant tag is `kind`, and each variant's fields are optional fields. `WellTyped` says which optional fields each variant must carry. The live layer object accepts any key, so this flat record is the faithful shape.
- `liveblocks.dfy` defines the store twice:
  - as pure transitions over a `LocalState` value (`AfterMutation`, `AfterPause`, `AfterResume`, `AfterUndo`, `AfterRedo`);
  - as the class `Room`, whose methods update the fields step by step, as the source does. Each method is proved to produce exactly the state its transition function gives.
- `history_laws.dfy` proves laws that relate several operations:
  - undo and redo are inverses;
  - N undos followed by N redos restore the state;
  - a paused batch becomes one entry that one undo reverts;
  - nested pauses collapse;
  - the document invariant (z-order and layer map agree) is preserved.
- `sidebars.dfy` models the panel's helpers and `updateLayer`. `UpdateLayer` runs on a `Room` through `RunMutation`, the way the source's `useMutation` callback runs through the store.

Modelling choices:

- **The mutation callback.** It is taken as its outcome, `Mutation(root, presence, presenceWantsHistory)`: the document and presence it leaves behind, and whether it called `setMyPresence` with `addToHistory`.
- **Change detection.** The source compares JSON serialisations. Here it is value inequality.
- **Copies.** `cloneStorage` and `clonePresence` produce values equal to their input.
- **Numbers** are `real`.
- **`hexToRgb`** is a parameter of the panel functions. Its module is not part of this model.

Two details of the code that the model follows exactly:

- `resumeHistory` pushes the paused snapshot only when `pausedSnapshot` is also present (`src/lib/liveblocks.tsx:311`). Under the invariant `Consistent`, which every operation preserves, this guard never matters.
- `if (!selectedLayerId) return` also treats the empty-string id as absent. That is modelled by `Truthy`.

## Model

| member | source | states |
|---|---|---|
| Liveblocks.ClonePresence | src/lib/liveblocks.tsx:105-114 | The copied presence equals the original in every field, including the nested point lists of the pencil draft. |
| Liveblocks.CloneStorage | src/lib/liveblocks.tsx:93-103 | The loop that fills a fresh layer map entry by entry ends with a document equal to the original: same colour, same layers under the same ids, same id order. |
| Liveblocks.MergePresence | src/lib/liveblocks.tsx:247-250 | The shallow merge: each key present in the patch takes the patch's value, and every other presence field is unchanged. |
| Liveblocks.AfterMutation | src/lib/liveblocks.tsx:226-282 | The callback's outcome becomes live. An unchanged document and presence leave the whole state equal, with no version bump. Any change bumps the version exactly once. A non-qualifying change leaves history and pause state alone. A qualifying change at depth 0 appends exactly the pre-mutation snapshot and clears redo. Inside a pause it keeps both stacks, marks the batch dirty and keeps the first pending snapshot. `Consistent` is preserved. |
| Liveblocks.AfterPause | src/lib/liveblocks.tsx:295-302 | The depth goes up by one. Only the 0 to 1 step captures the entry snapshot and clears the dirty flag. A deeper pause changes nothing else. The document, presence and stacks are untouched. |
| Liveblocks.AfterResume | src/lib/liveblocks.tsx:304-319 | At depth 0 it is a no-op, so the depth never goes below 0. At depth above 1 it only decrements. On the 1 to 0 step, `past` grows by exactly the entry snapshot if and only if the batch was dirty; in that case `future` is cleared and the version bumped, and otherwise both stacks are kept. The pause state is then reset. |
| Liveblocks.AfterUndo | src/lib/liveblocks.tsx:321-329 | On an empty `past` nothing changes. Otherwise it pops `past`, pushes the current snapshot onto `future`, installs the popped snapshot and bumps the version. The total `past` plus `future` length and the pause state are preserved. |
| Liveblocks.AfterRedo | src/lib/liveblocks.tsx:331-339 | The mirror image of undo, with the roles of `past` and `future` exchanged. |
| Liveblocks.CanUndo | src/lib/liveblocks.tsx:466-471 | True exactly when `past` is non-empty, and exactly when undo would change the state. |
| Liveblocks.CanRedo | src/lib/liveblocks.tsx:473-478 | True exactly when `future` is non-empty, and exactly when redo would change the state. |
| Liveblocks.Room.constructor | src/lib/liveblocks.tsx:187-202 | A new room holds copies of the initial document and presence, empty stacks, depth 0, no pending snapshot and version 0, and satisfies `Valid`. |
| Liveblocks.Room.CreateSnapshot | src/lib/liveblocks.tsx:116-121 | The snapshot equals the live document and presence. |
| Liveblocks.Room.RestoreSnapshot | src/lib/liveblocks.tsx:123-129 | Only the document and presence are replaced, by the snapshot's. Every other field is unchanged. |
| Liveblocks.Room.RunMutation | src/lib/liveblocks.tsx:226-282 | The step-by-step field updates produce exactly `AfterMutation` of the old state, and preserve `Valid`. |
| Liveblocks.Room.SetMyPresence | src/lib/liveblocks.tsx:286-293 | A mutation whose only effect is the shallow presence merge, with `addToHistory` passed through. |
| Liveblocks.Room.PauseHistory | src/lib/liveblocks.tsx:295-302 | The new state is exactly `AfterPause` of the old one, and `Valid` is preserved. |
| Liveblocks.Room.ResumeHistory | src/lib/liveblocks.tsx:304-319 | The new state is exactly `AfterResume` of the old one, and `Valid` is preserved. |
| Liveblocks.Room.Undo | src/lib/liveblocks.tsx:321-329 | The new state is exactly `AfterUndo` of the old one, and `Valid` is preserved. |
| Liveblocks.Room.Redo | src/lib/liveblocks.tsx:331-339 | The new state is exactly `AfterRedo` of the old one, and `Valid` is preserved. |
| HistoryLaws.UndoThenRedo | src/lib/liveblocks.tsx:321-339 | A redo straight after a successful undo restores the state from before the undo, with only the version two higher. |
| HistoryLaws.RedoThenUndo | src/lib/liveblocks.tsx:321-339 | An undo straight after a successful redo restores the state from before the redo, with only the version two higher. |
| HistoryLaws.RedoIgnoresVersion | src/lib/liveblocks.tsx:331-339 | Redo does not read the render counter; it only increments it. |
| HistoryLaws.RoundTripStep | src/lib/liveblocks.tsx:321-339 | The induction step of the round trip: one more undo in front and one more redo behind keeps the state, with the version two higher. |
| HistoryLaws.UndoRedoRoundTrip | src/lib/liveblocks.tsx:321-339 | For any n up to the length of `past`, n undos followed by n redos give back the document, presence and both stacks exactly. |
| HistoryLaws.UndoEnablesRedo | src/lib/liveblocks.tsx:321-329 | After a successful undo, redo is possible, and the top of `future` is the state from before the undo. |
| HistoryLaws.NewChangeInvalidatesRedo | src/lib/liveblocks.tsx:264-274 | A recorded change outside a pause empties `future`, makes undo possible, and one undo restores the pre-change document and presence. |
| HistoryLaws.MutationKeepsInSync | src/lib/liveblocks.tsx:226-282 | A mutation that installs an in-sync document keeps the live document, every history entry and the pending snapshot in sync. |
| HistoryLaws.PauseKeepsInSync | src/lib/liveblocks.tsx:295-319 | Pause and resume keep every document of the state in sync. |
| HistoryLaws.UndoRedoKeepInSync | src/lib/liveblocks.tsx:321-339 | Undo and redo keep every document of the state in sync. |
| HistoryLaws.MutationsWhilePaused | src/lib/liveblocks.tsx:264-271 | During a pause, any sequence of mutations leaves both stacks, the depth and the entry snapshot unchanged. The batch is dirty afterwards exactly when it was before or one of the mutations qualified. The last mutation's outcome is live. |
| HistoryLaws.PauseBatching | src/lib/liveblocks.tsx:264-271 | A batch wrapped in pause/resume at depth 0 adds at most one history entry. It adds one exactly when some mutation qualified, and that entry is the snapshot from before the batch, so one undo restores the pre-batch document and presence. Otherwise both stacks are unchanged. |
| HistoryLaws.PauseResumeIsIdle | src/lib/liveblocks.tsx:295-319 | A pause followed directly by a resume changes nothing, at any depth. |
| HistoryLaws.NestedPauseCollapses | src/lib/liveblocks.tsx:295-319 | Inside an open pause, an inner pause/resume pair around a batch is invisible: the result equals the batch run without it. With a pending snapshot, the outer pause's depth, snapshot and stacks are as they were. |
| HistoryLaws.MutateAllAtDepth | src/lib/liveblocks.tsx:264-271 | A mutation batch depends on the pause depth only through whether it is positive. |
| HistoryLaws.MutateAllKeepsDepth | src/lib/liveblocks.tsx:257-279 | No mutation of a batch changes the pause depth. |
| HistoryLaws.MergeIdempotent | src/lib/liveblocks.tsx:247-250 | Merging the same presence patch twice is merging it once. |
| HistoryLaws.EmptyPatchIsNoOp | src/lib/liveblocks.tsx:247-263 | The empty patch leaves presence equal, so a `setMyPresence` with it changes nothing at all, not even the version. |
| HistoryLaws.PresenceWithoutHistory | src/lib/liveblocks.tsx:251-267 | A presence change without `addToHistory` never touches the stacks or pause state, but does install the merged presence. |
| Sidebars.Clamp | src/components/sidebars/Sidebars.tsx:76-81 | With `max` given the result is at most `max`. With a consistent `min` it is at least `min`. A conflict resolves to `max`. A value inside the bounds is unchanged. A value outside is moved to the violated bound. |
| Sidebars.ClampLaws | src/components/sidebars/Sidebars.tsx:76-81 | With no bounds `clamp` is the identity. With consistent bounds, clamping twice is clamping once. |
| Sidebars.TrimStart | src/components/sidebars/Sidebars.tsx:84 | The result is a suffix of the input. Everything dropped is white space. What is left does not start with white space. |
| Sidebars.TrimEnd | src/components/sidebars/Sidebars.tsx:84 | The result is a prefix of the input. Everything dropped is white space. What is left does not end with white space. |
| Sidebars.Trim | src/components/sidebars/Sidebars.tsx:84 | No white space is left at either end. A string with none at its ends is unchanged. |
| Sidebars.TrimStartSkips | src/components/sidebars/Sidebars.tsx:84 | Leading white space does not affect the start-trimmed result. |
| Sidebars.TrimEndSkips | src/components/sidebars/Sidebars.tsx:84 | Trailing white space does not affect the end-trimmed result. |
| Sidebars.TrimStartOfConcat | src/components/sidebars/Sidebars.tsx:84 | Appending white space appends it to the start-trimmed string, unless that string is empty. |
| Sidebars.TrimIgnoresWhitespace | src/components/sidebars/Sidebars.tsx:84 | Trimming ignores white space added at either end. |
| Sidebars.UpperChar | src/components/sidebars/Sidebars.tsx:97 | Each of `a`-`f` becomes the same letter in upper case (its code minus 32), and every other character is kept. So a hex digit becomes an upper-case hex digit, and an upper-case hex digit is unchanged. |
| Sidebars.Upper | src/components/sidebars/Sidebars.tsx:97 | Upper-casing keeps the length and works character by character. |
| Sidebars.UpperOfUpperHex | src/components/sidebars/Sidebars.tsx:97 | Upper-casing leaves a string of upper-case hex digits unchanged. |
| Sidebars.NormalizeBody | src/components/sidebars/Sidebars.tsx:89-100 | An accepted body always yields `#` followed by six upper-case hex digits. |
| Sidebars.NormalizeBodyAccepts | src/components/sidebars/Sidebars.tsx:89-100 | A body is accepted exactly when it is six hex digits, or three hex digits. Six digits are upper-cased, and three are each doubled and upper-cased. |
| Sidebars.NormalizeHex | src/components/sidebars/Sidebars.tsx:83-101 | A non-null result is always `#` followed by six upper-case hex digits. |
| Sidebars.NormalizeHexAccepts | src/components/sidebars/Sidebars.tsx:83-101 | An input is accepted exactly when its trimmed body, after dropping one `#`, is six or three hex digits. The result is the upper-cased body, or the upper-cased doubled body. |
| Sidebars.NormalizeHexExpandsShortForm | src/components/sidebars/Sidebars.tsx:89-94 | Any input whose body is `abc` normalises to `#AABBCC`. |
| Sidebars.NormalizeHexStripsOneHash | src/components/sidebars/Sidebars.tsx:85-87 | Only one `#` is dropped: any input whose trimmed body still starts with `#` after that is rejected. |
| Sidebars.NormalizeHexKeepsLongForm | src/components/sidebars/Sidebars.tsx:89-100 | Any input whose trimmed, hash-stripped body has four characters is neither expanded nor accepted. |
| Sidebars.NormalizeHexRejectsNonHex | src/components/sidebars/Sidebars.tsx:96-100 | Any input whose trimmed, hash-stripped body has six characters, one of them not a hex digit, is rejected. |
| Sidebars.NormalizeHexOfTrim | src/components/sidebars/Sidebars.tsx:83-101 | The result depends on the input only through its trimmed form. |
| Sidebars.NormalizeHexIgnoresWhitespace | src/components/sidebars/Sidebars.tsx:83-101 | White space added at either end never changes the result. |
| Sidebars.NormalizeHexOptionalHash | src/components/sidebars/Sidebars.tsx:83-101 | For an input without white space at its ends, a leading `#` is optional: the input normalises the same with or without it. |
| Sidebars.NormalizeHexOfPlain | src/components/sidebars/Sidebars.tsx:83-101 | On an input without white space at its ends, only the `#` is dropped before the body is checked. |
| Sidebars.NormalHexIsFixed | src/components/sidebars/Sidebars.tsx:83-101 | A string already in normal form normalises to itself. |
| Sidebars.NormalizeHexIdempotent | src/components/sidebars/Sidebars.tsx:83-101 | Normalising a normalised colour gives the same colour. |
| Sidebars.SelectedLayerId | src/components/sidebars/Sidebars.tsx:470-473 | An id is selected exactly when the selection has length 1, and it is that single element. |
| Sidebars.MergeShadow | src/components/sidebars/Sidebars.tsx:557-562 | Shadow keys in the update win, and every other shadow field comes from the base. |
| Sidebars.ParsedColor | src/components/sidebars/Sidebars.tsx:522-533 | A colour is produced exactly when the hex text is given and normalises. It is `hexToRgb` of the normalised text. |
| Sidebars.PatchFor | src/components/sidebars/Sidebars.tsx:507-562 | Pass-through keys are copied. Width, height and font size are present exactly when requested, and are at least 1. Corner radius and stroke width are at least 0. The three opacities are within [0, 100] and font weight within [100, 900]. Each of these is unchanged when already in range and moved to the bound otherwise. Colours appear only when the hex normalises. A shadow update is merged over the current shadow or `DEFAULT_SHADOW`. No updates give the empty patch. |
| Sidebars.AtLeastUpdate | src/components/sidebars/Sidebars.tsx:511-546 | The guarded `Math.max` step yields the key `PatchFor` specifies. |
| Sidebars.BetweenUpdate | src/components/sidebars/Sidebars.tsx:515-549 | The guarded `clamp` step yields the key `PatchFor` specifies. |
| Sidebars.ParseColorUpdate | src/components/sidebars/Sidebars.tsx:522-533 | The guarded normalise-then-convert step yields the colour key `PatchFor` specifies. |
| Sidebars.BuildPatch | src/components/sidebars/Sidebars.tsx:507-562 | Building the patch key by key yields exactly `PatchFor`. |
| Sidebars.UpdatedLayer | src/components/sidebars/Sidebars.tsx:506-564 | The variant tag and points are never patched, and a well-typed layer stays well-typed. Every field the update does not name keeps its value, and no updates leave the layer equal. `fill` and `stroke` change only to a colour that normalised. Every named numeric field meets its bound. A shadow update is merged over the current or default shadow. The values written for named keys are stated by `UpdatedLayerWrites`. |
| Sidebars.UpdatedLayerWrites | src/components/sidebars/Sidebars.tsx:509-555 | Every key the update names is written onto the layer. `x`, `y`, `rotation`, `clipContent`, `strokeAlign`, `fontFamily` and `text` get the given value. Each numeric key gets the given value when it is inside its range, and otherwise the violated bound. |
| Sidebars.UpdatedLayerIdempotent | src/components/sidebars/Sidebars.tsx:506-564 | Applying the same panel edit twice gives the same layer as applying it once. |
| Sidebars.UpdatedRoot | src/components/sidebars/Sidebars.tsx:499-566 | With no truthy selected id, or no such layer, the document is unchanged. Otherwise only that layer changes, to `UpdatedLayer` of it. The colour, id list and key set are kept, and so is the document invariant. |
| Sidebars.UpdatedRootIdempotent | src/components/sidebars/Sidebars.tsx:499-566 | Applying the same edit to the document twice is applying it once. |
| Sidebars.UpdateLayerTwiceIsOnce | src/components/sidebars/Sidebars.tsx:499-566 | Re-running the same edit after it took effect records nothing and does not bump the version. |
| Sidebars.UpdateLayerIsOneUndoStep | src/components/sidebars/Sidebars.tsx:499-566 | Outside a pause, an edit that changes the document appends one history entry, clears redo, and is reverted by one undo. |
| Sidebars.UpdateLayer | src/components/sidebars/Sidebars.tsx:499-566 | On a room, the edit runs as one mutation whose outcome is `UpdatedRoot` with presence unchanged. Without a truthy id or an existing layer, the room's whole state is unchanged. `Valid` is preserved. |

## Left out

- Serialisation: `serializeStorage`/`serializePresence` compare JSON text, and the model compares values. The two agree except where JSON depends on key insertion order: in the layer map and in every object (colours, points, layer records, shadows, and `cursor`/`penColor` in the presence). So a mutation that rewrites an equal value with its keys in another order counts as a change in the source, pushing history and bumping the version, but leaves the model's state unchanged.
- Deep cloning (`structuredClone`, `deepClone`): copies are values. The absence of aliasing between a snapshot and the live objects is therefore automatic, not proved.
- `Liveblocks.Room.RunMutation`: the callback's return value is not modelled, and neither are a callback that throws or one that mutates outside `storage` and `setMyPresence`.
- `version`: in the source it is React state updated by `commitRender`, with React's batching of updates. Here it is a counter in the state that each `commitRender` increments.
- The React plumbing is not modelled: the context, hooks (`useStorage`, `useSelf`, `useOthers*`, `useMyPresence`, `useMutation`), `others`, `connectionId`, user info and the provider's reset on a room id change.
- `shallow` (`src/lib/liveblocks.tsx:480-502`) relies on JavaScript reflection and is not used by the store.
- `hexToRgb`, `colorToCss`, `connectionIdToColor` and `Number.parseFloat` live in modules that are not part of this model. `hexToRgb` is a parameter.
- Numbers are reals: NaN, infinities, and floating-point `Math.max`/`Math.min` on them are not modelled.
- Strings are sequences of Unicode code points, not UTF-16 units. For the hex inputs accepted here the two agree.
- `Sidebars.UpperChar`: only `a`-`f` are upper-cased. JavaScript's `toUpperCase` also maps other letters, but it runs only on a body already checked to be hex, so no accepted or rejected result differs.
- `undefined` keys of a patch as distinct from absent ones are not modelled. An update key is either absent or carries a value.
- The selected id is taken as a parameter (the value captured at render time) rather than read from a live presence.
- The canvas renderers, the toolbar, and the panel's JSX and draft-input state are not modelled.
