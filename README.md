# Timeline registries and the project clip bin, in Dafny

This project models two stateful registries of a video editor and proves properties about them.

**The timeline model** (`TimelineModel`) is the aggregate root of the timeline. It keeps:
- an ordered list of tracks;
- a table from track id to the list element;
- a clip registry;
- a set of group ids;
- the group forest;
- a history of labelled (undo, redo) entries.

It draws every id from one process-wide counter. The model keeps this shape in the class `Timeline.TimelineModel`:
- a `seq` of `TrackModel` objects;
- a `map` from id to object;
- maps and sets for clips, groups and the forest;
- a shared `IdCounter` object.

`Abs()` reads the class state as an `Edits.State` value. Module `Edits` specifies every edit on such values:
- the reversible steps (`Op`) that edits gather into undo and redo lists;
- the invariant `Consistent`, which every edit keeps;
- the state a move, resize, group or ungroup produces;
- the proof that each pushed history entry replays exactly: redo from the old state gives the new one, and undo from the new state gives the old one.

Module `Placements` is the contract a track is held to. A track holds its clip placements sorted, without overlap, and with each clip at most once. An insertion that does not fit is refused and changes nothing.

**The clip bin** (`ClipManager`) is modelled imperatively in `ClipManagement.ClipManager`. It holds:
- the document's clip list;
- the folder map;
- two id counters that stay above every id they have seen;
- the audio-thumbnail queue.

The queue is a small state machine. `StartAudioThumbsGeneration` and `EndAudioThumbsGeneration` call each other. They are proved against `Pump`, the state in which generation settles. Two things are method parameters:
- the "audiothumbnails" setting;
- which clips accept to generate (the result of `slotGetAudioThumbs()`).

## Model

| member | source | states |
|---|---|---|
| Placements.InsertKeepsOrder | src/timeline2/model/timelinemodel.cpp:301 | A track insertion that fits keeps the track sorted and non-overlapping, with each clip at most once |
| Placements.RemoveKeepsOrder | src/timeline2/model/timelinemodel.cpp:295 | A track deletion keeps the track ordered and leaves exactly the other clips' placements |
| Placements.InsertThenRemove | src/timeline2/model/timelinemodel.cpp:301-303 | Deleting the clip just inserted gives back the track as it was (the reverse step of an insertion) |
| Placements.RemoveThenInsert | src/timeline2/model/timelinemodel.cpp:295-297 | Putting back the placement just deleted gives back the track as it was (the reverse step of a deletion) |
| Placements.RemovedFits | src/timeline2/model/timelinemodel.cpp:295-297 | A placement just deleted always fits back, so the rollback of a deletion cannot be refused |
| Edits.RunAppend | src/timeline2/model/timelinemodel.cpp:314 | Chaining step lists replays the first list and then the second from where it left off, failing when either fails |
| Edits.DetachUndone | src/timeline2/model/timelinemodel.cpp:294-305 | After the deletion step of a move, running the undo gathered so far gives back the state before the move |
| Edits.MoveReplays | src/timeline2/model/timelinemodel.cpp:306-316 | The "Move clip" entry's redo takes the old state to the moved one, and its undo takes the moved state back |
| Edits.MoveKeepsConsistent | src/timeline2/model/timelinemodel.cpp:287-317 | A move the target track accepts keeps every registry invariant |
| Edits.MoveEffect | src/timeline2/model/timelinemodel.cpp:287-317 | After a move the clip's track id is tid and its position is the requested one; no other clip, track or group changes |
| Edits.MoveBack | src/timeline2/model/timelinemodel.cpp:287-317 | Moving a placed clip and then moving it back to its old track and start restores the whole state |
| Edits.ReleasedMoveLosesClip | src/timeline2/model/timelinemodel.cpp:302-305 | When the rollback is not run (a release build), a refused move leaves the registries inconsistent, shown on a concrete two-track state |
| Edits.ResizeRedoRuns | src/timeline2/model/timelinemodel.cpp:323 | A resize's redo step succeeds exactly when the new extent fits, and then gives the reshaped state |
| Edits.ResizeUndoRuns | src/timeline2/model/timelinemodel.cpp:319-328 | Running a resize's undo step from the reshaped state gives back the old state |
| Edits.ResizeKeepsConsistent | src/timeline2/model/timelinemodel.cpp:319-328 | A resize that fits keeps every registry invariant |
| Edits.ResizeEffect | src/timeline2/model/timelinemodel.cpp:319-328 | A resize gives the clip its new length, keeps its start (right) or its end (left), and moves no other clip |
| Edits.GroupKeepsConsistent | src/timeline2/model/timelinemodel.cpp:331-340 | Grouping under a fresh id keeps the invariants; the group is a registered root; exactly the chosen items point to it |
| Edits.GroupReplays | src/timeline2/model/timelinemodel.cpp:331-340 | The "Group clips" entry replays exactly in both directions |
| Edits.UngroupKeepsConsistent | src/timeline2/model/timelinemodel.cpp:342-351 | Ungrouping makes the item a root, changes no other item, and keeps the invariants |
| Edits.UngroupReplays | src/timeline2/model/timelinemodel.cpp:342-351 | The "Ungroup clips" entry replays exactly in both directions |
| Edits.UngroupOneMember | src/timeline2/model/timelinemodel.cpp:331-351 | Ungrouping one member of a new group frees that member only; the others stay in the group |
| Edits.AncestorAbove | src/timeline2/model/timelinemodel.cpp:331-340 | In a consistent forest every ancestor of an item has a larger id, so no item is its own ancestor |
| Timeline.TrackModel.RequestClipInsertion | src/timeline2/model/timelinemodel.cpp:301 | The track inserts the clip exactly when it fits, gathering the step and its reverse; a refusal changes nothing |
| Timeline.TrackModel.RequestClipDeletion | src/timeline2/model/timelinemodel.cpp:295 | The track deletes the clip exactly when it holds it, gathering the step and its reverse; a refusal changes nothing |
| Timeline.IndexedInsert | src/timeline2/model/timelinemodel.cpp:366-372 | Inserting a track with an unused id into the list and the table keeps the two describing the same tracks |
| Timeline.IndexedRemove | src/timeline2/model/timelinemodel.cpp:389-395 | Erasing a track from the table and from the list, at its own row, keeps the two describing the same tracks |
| Timeline.TimelineModel.constructor | src/timeline2/model/timelinemodel.cpp:46-53 | A new timeline has no track, clip or group, an empty history, and satisfies the invariant |
| Timeline.TimelineModel.GetNextId | src/timeline2/model/timelinemodel.cpp:427-430 | Returns the counter and then increments it, so successive ids strictly increase; the invariant is kept |
| Timeline.TimelineModel.RegisterTrack | src/timeline2/model/timelinemodel.cpp:353-373 | pos -1 appends, otherwise the track lands at index pos; the other tracks keep their order; the table maps the id to the track; the track count grows by one |
| Timeline.TimelineModel.DeregisterTrack | src/timeline2/model/timelinemodel.cpp:389-396 | Removes the id from the table and the track at its own row from the list; the others keep their order; the track count drops by one |
| Timeline.TimelineModel.RegisterClip | src/timeline2/model/timelinemodel.cpp:375-381 | A fresh clip id enters the clip map and the group forest as a root, so the clip count rises by one; nothing else changes |
| Timeline.TimelineModel.DeregisterClip | src/timeline2/model/timelinemodel.cpp:398-407 | A present clip id leaves the clip map and the group forest; the clip count drops by one; nothing else changes |
| Timeline.TimelineModel.RegisterGroup | src/timeline2/model/timelinemodel.cpp:383-387 | A fresh group id enters the group set; nothing else changes |
| Timeline.TimelineModel.DeregisterGroup | src/timeline2/model/timelinemodel.cpp:409-413 | A present group id leaves the group set; nothing else changes |
| Timeline.TimelineModel.IsTrack | src/timeline2/model/timelinemodel.cpp:437-440 | An id is a track exactly when a track of the list has that id |
| Timeline.TimelineModel.ClipItems | src/timeline2/model/timelinemodel.cpp:432-435 | `IsClip(id)` models `isClip`; on a valid timeline an id is a clip exactly when it is a group-forest item that is not a group, and a clip id is never a track id (what `parent` and `rowCount` rely on) |
| Timeline.TimelineModel.GetTracksCount | src/timeline2/model/timelinemodel.cpp:242-248 | The composition's track count equals the length of the track list |
| Timeline.TimelineModel.ClipsCounted | src/timeline2/model/timelinemodel.cpp:250-253 | `GetClipsCount()` models `getClipsCount`; on a valid timeline the clip count is the number of group-forest items less the number of groups |
| Timeline.TimelineModel.TrackClipsCounted | src/timeline2/model/timelinemodel.cpp:255-258 | `GetTrackClipsCount(tid)` models `getTrackClipsCount`; on a valid timeline a track's clip count is the number of registered clips that say they are on that track |
| Timeline.TimelineModel.GetClipTrackId | src/timeline2/model/timelinemodel.cpp:273-278 | A clip's track id, when not -1, names a registered track that holds the clip; when it is -1, no track holds the clip |
| Timeline.TimelineModel.GetClipPosition | src/timeline2/model/timelinemodel.cpp:280-285 | -1 exactly for an unplaced clip; otherwise the start of the clip's placement on its track |
| Timeline.TimelineModel.Index | src/timeline2/model/timelinemodel.cpp:84-104 | A column above 0 gives an invalid index; a valid result sits at the requested row |
| Timeline.TimelineModel.Parent | src/timeline2/model/timelinemodel.cpp:111-125 | The root for an invalid index or a track; for a clip, a node naming the clip's own track, at that track's row in the list and column 0 |
| Timeline.TimelineModel.RowCount | src/timeline2/model/timelinemodel.cpp:128-141 | An invalid parent gives the track count; a parent that is no track gives 0 |
| Timeline.TimelineModel.ColumnCount | src/timeline2/model/timelinemodel.cpp:143-147 | Every item has one column |
| Timeline.TimelineModel.RootRows | src/timeline2/model/timelinemodel.cpp:84-141 | Each root row below the row count indexes the track at that row; its parent is the root; its row count is its number of clips |
| Timeline.TimelineModel.MakeIndex | src/timeline2/model/timelinemodel.cpp:106-109 | The index of the clip placed at that row of the track at that row; the root when the track has fewer clips; for a track row past the last track, the root-level index at the clip row (a track index when that row is a track's, the root otherwise) |
| Timeline.TimelineModel.ClipRows | src/timeline2/model/timelinemodel.cpp:84-141 | Under a track, row k below its count names the track's k-th placement, a clip with no children whose parent is the track's index (as makeIndex builds it); other rows are invalid |
| Timeline.TimelineModel.ClipRowsByPosition | src/timeline2/model/timelinemodel.cpp:84-104 | A track's clip rows are in position order: a lower row names a clip that starts earlier |
| Timeline.TimelineModel.RunOps | src/timeline2/model/timelinemodel.cpp:314 | Replaying gathered steps on the objects succeeds exactly when the value-level replay does, and gives its state |
| Timeline.TimelineModel.RequestClipMove | src/timeline2/model/timelinemodel.cpp:287-317 | Succeeds exactly when the target track accepts; then the clip is moved and one "Move clip" entry is pushed; otherwise nothing changes and nothing is pushed |
| Timeline.TimelineModel.DetachForMove | src/timeline2/model/timelinemodel.cpp:293-300 | The clip's current track, if any, deletes it, and the reverse step is gathered |
| Timeline.TimelineModel.RollbackMove | src/timeline2/model/timelinemodel.cpp:296-305 | Running the gathered undo after a refusal restores the state before the move |
| Timeline.TimelineModel.CommitMove | src/timeline2/model/timelinemodel.cpp:306-316 | The clip's own step goes first in undo and last in redo; the entry is pushed and the clip records its new track |
| Timeline.TimelineModel.RequestClipResize | src/timeline2/model/timelinemodel.cpp:319-328 | Succeeds exactly when the size is non-negative and the new extent fits; then one "Resize clip" entry is pushed; otherwise nothing changes |
| Timeline.TimelineModel.ClipResize | src/timeline2/model/timelinemodel.cpp:323 | The clip's resize request, with the redo step and its reverse gathered on success |
| Timeline.TimelineModel.PushEntry | src/timeline2/model/timelinemodel.cpp:37-43 | Pushes one entry on the history; the registries are untouched |
| Timeline.TimelineModel.RequestGroupClips | src/timeline2/model/timelinemodel.cpp:331-340 | Succeeds exactly when the grouping gives a gid other than -1; then one "Group clips" entry is pushed and the counter moves on; otherwise nothing changes |
| Timeline.TimelineModel.GroupItems | src/timeline2/model/timelinemodel.cpp:335 | Returns -1 with no effect for an empty set or an unknown item; otherwise a fresh id becomes a root holding the items |
| Timeline.TimelineModel.RequestUngroupClip | src/timeline2/model/timelinemodel.cpp:342-351 | Succeeds exactly when the item has a parent; then one "Ungroup clips" entry is pushed; otherwise nothing changes |
| Timeline.TimelineModel.UngroupItem | src/timeline2/model/timelinemodel.cpp:346 | An item with a parent becomes a root; the step and its reverse are gathered |
| ClipManagement.ToInt | src/clipmanager.cpp:108 | QString::toInt gives a 32-bit value; a non-zero result comes only from an optional sign followed by digits only, and a digit string in range gives its decimal value |
| ClipManagement.NumberRoundTrip | src/clipmanager.cpp:108 | Converting a 32-bit number written in decimal gives the number back |
| ClipManagement.Section0 | src/clipmanager.cpp:141 | The result is the prefix of the id up to, but not including, the first '_' |
| ClipManagement.SectionOfSuffixed | src/clipmanager.cpp:141 | An id without '_' is kept whole, and any '_' suffix added to it is cut off |
| ClipManagement.IndexOf | src/clipmanager.cpp:142-148 | The first position holding the key, or -1 exactly when no position does |
| ClipManagement.FindById | src/clipmanager.cpp:139-149 | Finds the first clip whose id is the query up to its first '_'; null exactly when no clip has that id |
| ClipManagement.FindByResource | src/clipmanager.cpp:151-158 | Finds the first clip with that resource; null exactly when no clip has it |
| ClipManagement.RemoveFirst | src/clipmanager.cpp:124-133 | An absent id changes nothing; otherwise only the first matching clip goes and the others keep their order |
| ClipManagement.AddedClipFound | src/clipmanager.cpp:106-149 | A clip added under a fresh id is what a lookup of that id, with or without a '_' suffix, finds |
| ClipManagement.DeleteAddedClip | src/clipmanager.cpp:106-133 | Deleting a clip just added under a fresh id gives back the list as it was |
| ClipManagement.RemoveFirstKeepsLater | src/clipmanager.cpp:124-133 | A later clip with the same id stays in the list, and the list shrinks by exactly one |
| ClipManagement.ClipManager.constructor | src/clipmanager.cpp:31-34 | Both counters start at 1; thumbnails are off, nothing is queued and no clip is being generated |
| ClipManagement.ClipManager.AddClip | src/clipmanager.cpp:106-112 | Appends the clip; the clip counter rises above the clip's id and never decreases; the folder counter rises above a non-empty group id and is unchanged for an empty one |
| ClipManagement.ClipManager.DeleteClip | src/clipmanager.cpp:124-133 | The list becomes the first-match removal of the id; nothing else changes |
| ClipManagement.ClipManager.GetClipAt | src/clipmanager.cpp:135-137 | The clip at a valid position of the list; on a valid bin its id is at most the last id handed out |
| ClipManagement.ClipManager.GetClipById | src/clipmanager.cpp:139-149 | The index loop returns the first clip whose id is the query up to its first '_', or null |
| ClipManagement.ClipManager.GetClipByResource | src/clipmanager.cpp:151-158 | The index loop returns the first clip whose resource is the argument, or null |
| ClipManagement.ClipManager.GetFreeClipId | src/clipmanager.cpp:307-309 | Returns the counter, then increments it; the id is above every clip's id; lastClipId then returns it |
| ClipManagement.ClipManager.GetFreeFolderId | src/clipmanager.cpp:311-313 | Returns the folder counter, then increments it; the id is above every clip's folder id |
| ClipManagement.ClipManager.LastClipId | src/clipmanager.cpp:315-317 | The counter minus 1, which is at least every clip's id |
| ClipManagement.ClipManager.AddFolder | src/clipmanager.cpp:323-325 | Inserts or overwrites the folder's name; no other entry changes |
| ClipManagement.ClipManager.DeleteFolder | src/clipmanager.cpp:327-329 | Removes the folder id; no other entry changes |
| ClipManagement.ClipManager.CheckAudioThumbs | src/clipmanager.cpp:40-53 | A no-op when the setting is unchanged; switching on queues every clip and starts unless a clip is in progress; switching off clears the queue and the current id |
| ClipManagement.ClipManager.AskForAudioThumb | src/clipmanager.cpp:55-61 | A known clip is queued when thumbnails are on, and generation starts when nothing is in progress; otherwise nothing changes |
| ClipManagement.ClipManager.StartAudioThumbsGeneration | src/clipmanager.cpp:63-77 | With the setting off, the queue and current id are cleared; otherwise generation settles where Pump says |
| ClipManagement.ClipManager.EndAudioThumbsGeneration | src/clipmanager.cpp:79-92 | Setting off or an empty queue clears; otherwise it advances only when the finished id is the current one |
| ClipManagement.Pump | src/clipmanager.cpp:63-92 | The remaining queue is a suffix of the queue; the current id is the accepted id just before it, or nothing is left |
| ClipManagement.PumpFirstAccepted | src/clipmanager.cpp:63-77 | Generation settles on the first queued clip that accepts; the ids after it stay queued |
| ClipManagement.PumpNoneAccepted | src/clipmanager.cpp:63-92 | When no queued clip accepts, the queue empties and nothing is being generated |

## Left out

- The MLT composition (`Mlt::Tractor`, `Mlt::Profile`, producers) is a foreign library. Only its track count is kept, as a number that equals the list length.
- `construct(populate)` builds MLT producers for tests; it and the destructors are not modelled. The same goes for `deleteTrackById` and `deleteClipById`, which only call a collaborator's `destruct`.
- `data()` and `roleNames()` return fixed placeholder view data; they are not modelled.
- `TrackModel`, `ClipModel`, `GroupsModel`, the undo stack and `FunctionalUndoCommand` are not part of this model. They are specified by contracts only:
  - a track is a sorted list of placements that refuses, with no effect, an insertion that does not fit;
  - a clip's resize asks its track for the new extent;
  - a clip's position (`ClipModel::getPosition`) is -1 while the clip is on no track, and otherwise the start of its placement;
  - grouping is refused (-1) for an empty set or an unknown item, and checks this before it takes an id;
  - ungrouping makes an item with a parent a root;
  - a group emptied by ungrouping is not destroyed.
- Closures are modelled as lists of command objects (`Op`), and undo/redo chaining as list concatenation. Replaying a list stops at the first step that fails; whether the timeline model's chained closures run the later steps after a failure is not modelled (every replay proved here succeeds).
- History labels are kept as plain strings; translation (`i18n`) is not modelled.
- The undo stack is assumed to be always reachable. The `PUSH_UNDO` branch that reports an unreachable stack is not modelled.
- Clips are values in both registries. Sharing of clip objects between a registry and pending closures is not modelled.
- Timeline.TimelineModel.Index: requires `0 <= row`. In Kdenlive's timeline model a negative row under the root passes the `row < getTracksCount()` test and `std::advance` moves the list iterator before its first element, which is undefined behaviour. A negative row under a track, which the timeline model passes on to `getClipByRow`, is excluded as well.
- Timeline.TimelineModel.Parent: requires that a valid clip index names a clip on a registered track. For an unplaced clip the timeline model calls `m_iteratorTable.at(-1)`, which throws `std::out_of_range`; exceptions are not modelled.
- Timeline.TimelineModel.DeregisterTrack: keeps the invariant only for a track without clips, and DeregisterClip only for an unplaced clip. The timeline model leaves the emptying of a track, or the deletion of a clip from its track, to the caller.
- Timeline.TimelineModel.GetNextId: the counter is unbounded; the timeline model's `int` would overflow after 2^31 ids.
- ClipManagement.ClipManager.AddClip: the counters are unbounded. For the id 2147483647 the clip manager's `id.toInt() + 1` overflows a 32-bit `int`; here it gives 2147483648.
- ClipManagement.ToInt: surrounding whitespace, which QString::toInt skips, is not skipped here, so such ids convert to 0.
- `slotClearAudioCache()`, which `checkAudioThumbs` calls on each clip when thumbnails are switched off, only drops cached data and is not modelled.
- The `KdenliveSettings::audiothumbnails()` reads are the `setting` parameter. The result of `slotGetAudioThumbs()` is the parameter `starts`, the set of clip ids that accept.
- `slotAdd*ClipFile`, `slotAddClipList`, `slotDeleteClip`, `updatePreviewSettings`, `setThumbsProgress` and `projectFolder` work through file I/O, XML documents, the command stack and the document. They are not modelled.

## Findings

| source | as written | input that shows it | evidently intended | confidence | as-written member | corrected member |
|---|---|---|---|---|---|---|
| src/timeline2/model/timelinemodel.cpp:297,303 | The rollback of a refused move runs as `Q_ASSERT(undo())`. Release builds do not evaluate this, so the undo never runs there. | Tracks 10 and 11 each hold one clip over frames 0-5 (clip 1 on 10, clip 2 on 11). Clip 1 is moved to track 11 at frame 0. The insertion is refused, and clip 1 is left deleted from track 10 while it still names track 10. | The gathered undo always runs, so a refused move leaves the state unchanged | not executed | Edits.ReleasedMoveLosesClip | Timeline.TimelineModel.RequestClipMove |
