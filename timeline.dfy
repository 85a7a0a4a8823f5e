/**
 * The timeline's aggregate root: the registries of tracks, clips and groups,
 * the id counter they share, the history of edits, and the two-level tree
 * the registries are shown as (tracks at the top, in track order, and each
 * track's clips below it, in position order).
 *
 * The model keeps the shape of Kdenlive's TimelineModel: a list of track objects, a table from
 * track id to the list element, a clip map, a group-id set, and the group
 * forest that the groups collaborator keeps. `Abs()` reads this state as an
 * `Edits.State` value, and every edit is proved against the specification
 * functions of module Edits.
 */
module Timeline {

  import opened Base
  import opened Placements
  import opened Edits

  /** The process-wide counter that hands out track, clip and group ids. */
  class IdCounter {
    var next: int

    constructor()
      ensures next == 0
    {
      next := 0;
    }
  }

  /**
   * One track: its id and its clip placements, kept sorted by start frame.
   * Only the operations the timeline calls are modelled, by their contracts.
   */
  class TrackModel {
    const id: int
    var clips: seq<Placement>

    constructor(id: int)
      ensures this.id == id && clips == []
    {
      this.id := id;
      clips := [];
    }

    /** The track's own insertion step: refused, with no effect, unless p fits. */
    method InsertPlacement(p: Placement) returns (ok: bool)
      modifies this
      ensures ok == Fits(old(clips), p)
      ensures clips == if ok then Insert(old(clips), p) else old(clips)
    {
      ok := Fits(clips, p);
      if ok {
        clips := Insert(clips, p);
      }
    }

    /** The track's own deletion step: refused, with no effect, unless the clip is on the track. */
    method DeletePlacement(cid: int) returns (ok: bool)
      modifies this
      ensures ok == HasClip(old(clips), cid)
      ensures clips == if ok then Remove(old(clips), cid) else old(clips)
    {
      ok := HasClip(clips, cid);
      if ok {
        clips := Remove(clips, cid);
      }
    }

    /**
     * Inserts clip cid at position, lasting playtime frames; on success the
     * step and its reverse are added to the redo and undo lists.
     */
    method RequestClipInsertion(cid: int, position: int, playtime: nat, undo: seq<Op>, redo: seq<Op>)
      returns (ok: bool, undo': seq<Op>, redo': seq<Op>)
      modifies this
      ensures ok == Fits(old(clips), Placement(cid, position, playtime))
      ensures clips == if ok then Insert(old(clips), Placement(cid, position, playtime)) else old(clips)
      ensures undo' == if ok then [Unplace(id, cid)] + undo else undo
      ensures redo' == if ok then redo + [Place(id, Placement(cid, position, playtime))] else redo
    {
      var p := Placement(cid, position, playtime);
      ok := InsertPlacement(p);
      if ok {
        undo' := [Unplace(id, cid)] + undo;
        redo' := redo + [Place(id, p)];
      } else {
        undo', redo' := undo, redo;
      }
    }

    /** Deletes clip cid; on success the step and its reverse are added to the redo and undo lists. */
    method RequestClipDeletion(cid: int, undo: seq<Op>, redo: seq<Op>)
      returns (ok: bool, undo': seq<Op>, redo': seq<Op>)
      modifies this
      ensures ok == HasClip(old(clips), cid)
      ensures clips == if ok then Remove(old(clips), cid) else old(clips)
      ensures undo' == if ok then [Place(id, PlacementOf(old(clips), cid))] + undo else undo
      ensures redo' == if ok then redo + [Unplace(id, cid)] else redo
    {
      if HasClip(clips, cid) {
        var q := PlacementOf(clips, cid);
        ok := DeletePlacement(cid);
        undo' := [Place(id, q)] + undo;
        redo' := redo + [Unplace(id, cid)];
      } else {
        ok := false;
        undo', redo' := undo, redo;
      }
    }

    /** The track's own resize step: the clip's placement is replaced by p, which fits once it is gone. */
    method ReplacePlacement(p: Placement)
      requires HasClip(clips, p.cid) && Fits(Remove(clips, p.cid), p)
      modifies this
      ensures clips == Insert(Remove(old(clips), p.cid), p)
    {
      var deleted := DeletePlacement(p.cid);
      var inserted := InsertPlacement(p);
    }

    /** The id of the clip at the given row (rows follow position order), or -1 when there is none. */
    function ClipByRow(row: int): int
      reads this
    {
      if 0 <= row < |clips| then clips[row].cid else -1
    }
  }

  /** The ids of a list of tracks, in list order. */
  function TrackIds(ts: seq<TrackModel>): (r: seq<int>)
    ensures |r| == |ts|
    ensures forall i :: 0 <= i < |ts| ==> r[i] == ts[i].id
    decreases |ts|
  {
    if ts == [] then [] else [ts[0].id] + TrackIds(ts[1..])
  }

  /** The position in the list of the track with the given id. */
  function TrackRow(ts: seq<TrackModel>, id: int): (i: int)
    requires exists k :: 0 <= k < |ts| && ts[k].id == id
    ensures 0 <= i < |ts| && ts[i].id == id
    ensures forall k :: 0 <= k < i ==> ts[k].id != id
    decreases |ts|
  {
    if ts[0].id == id then 0
    else
      assert exists k :: 0 <= k < |ts[1..]| && ts[1..][k].id == id by {
        var k :| 0 <= k < |ts| && ts[k].id == id;
        assert ts[1..][k - 1] == ts[k];
      }
      1 + TrackRow(ts[1..], id)
  }

  /**
   * The list and the table describe the same tracks: list ids are distinct,
   * each list element is in the table under its own id, and each table entry
   * is a list element.
   */
  predicate Indexed(ts: seq<TrackModel>, table: map<int, TrackModel>)
  {
    && (forall i, j :: 0 <= i < j < |ts| ==> ts[i].id != ts[j].id)
    && (forall i :: 0 <= i < |ts| ==> ts[i].id in table && table[ts[i].id] == ts[i])
    && (forall t :: t in table ==> table[t] in ts && table[t].id == t)
  }

  /** Each track id's placements. */
  function TrackMap(table: map<int, TrackModel>): map<int, seq<Placement>>
    reads table.Values
  {
    map t | t in table :: table[t].clips
  }

  /** Inserting a track with a new id into the list at p and into the table keeps them in step. */
  lemma IndexedInsert(ts: seq<TrackModel>, table: map<int, TrackModel>, track: TrackModel, p: int)
    requires Indexed(ts, table) && track.id !in table && 0 <= p <= |ts|
    ensures Indexed(ts[..p] + [track] + ts[p..], table[track.id := track])
  {
    var r := ts[..p] + [track] + ts[p..];
    assert forall i :: 0 <= i < |r| ==> r[i] == (if i < p then ts[i] else if i == p then track else ts[i - 1]);
    InsertedInList(ts, table, track, p);
  }

  /** After the insertion every old table entry is still a list element. */
  lemma InsertedInList(ts: seq<TrackModel>, table: map<int, TrackModel>, track: TrackModel, p: int)
    requires forall t :: t in table ==> table[t] in ts
    requires 0 <= p <= |ts|
    ensures forall t :: t in table ==> table[t] in ts[..p] + [track] + ts[p..]
  {
    var r := ts[..p] + [track] + ts[p..];
    forall t | t in table ensures table[t] in r {
      var k :| 0 <= k < |ts| && ts[k] == table[t];
      if k < p {
        assert r[k] == ts[k];
      } else {
        assert r[k + 1] == ts[k];
      }
    }
  }

  /** Removing a track from the list, at its own row, and from the table keeps them in step. */
  lemma IndexedRemove(ts: seq<TrackModel>, table: map<int, TrackModel>, id: int)
    requires Indexed(ts, table) && id in table
    ensures exists k :: 0 <= k < |ts| && ts[k].id == id
    ensures var i := TrackRow(ts, id);
      Indexed(ts[..i] + ts[i + 1..], table - {id})
  {
    TableRows(ts, table, id);
    var i := TrackRow(ts, id);
    RemovedDistinct(ts, i);
    RemovedInList(ts, table, id, i);
  }

  /** Dropping row i from a list of distinct ids leaves distinct ids, none of them the dropped one. */
  lemma RemovedDistinct(ts: seq<TrackModel>, i: int)
    requires forall a, b :: 0 <= a < b < |ts| ==> ts[a].id != ts[b].id
    requires 0 <= i < |ts|
    ensures var r := ts[..i] + ts[i + 1..];
      && (forall a, b :: 0 <= a < b < |r| ==> r[a].id != r[b].id)
      && (forall k :: 0 <= k < |r| ==> r[k].id != ts[i].id && r[k] in ts)
  {
    var r := ts[..i] + ts[i + 1..];
    assert forall k :: 0 <= k < |r| ==> r[k] == (if k < i then ts[k] else ts[k + 1]);
  }

  /** After the removal every other table entry is still a list element. */
  lemma RemovedInList(ts: seq<TrackModel>, table: map<int, TrackModel>, id: int, i: int)
    requires forall t :: t in table ==> table[t] in ts && table[t].id == t
    requires 0 <= i < |ts| && ts[i].id == id
    ensures forall t :: t in table && t != id ==> table[t] in ts[..i] + ts[i + 1..]
  {
    var r := ts[..i] + ts[i + 1..];
    forall t | t in table && t != id ensures table[t] in r {
      var k :| 0 <= k < |ts| && ts[k] == table[t];
      assert k != i;
      if k < i {
        assert r[k] == ts[k];
      } else {
        assert r[k - 1] == ts[k];
      }
    }
  }

  /** A table entry is a list element, so its id has a row. */
  lemma TableRows(ts: seq<TrackModel>, table: map<int, TrackModel>, id: int)
    requires Indexed(ts, table) && id in table
    ensures exists k :: 0 <= k < |ts| && ts[k].id == id
  {
    var k :| 0 <= k < |ts| && ts[k] == table[id];
  }

  /** A node of the tree view: the root (an invalid index) or a (row, column, id) triple. */
  datatype ModelIndex = Invalid | Node(row: int, column: int, internalId: int)

  /** An index is valid when it is a node with a non-negative row and column. */
  predicate IsValidIndex(ix: ModelIndex)
  {
    ix.Node? && 0 <= ix.row && 0 <= ix.column
  }

  class TimelineModel {
    /** The tracks, in track order. */
    var allTracks: seq<TrackModel>
    /** Track id -> the list element holding that track. */
    var iteratorTable: map<int, TrackModel>
    /** Clip id -> the clip's record. */
    var allClips: map<int, Clip>
    /** The registered group ids. */
    var allGroups: set<int>
    /** The group forest kept by the groups collaborator: item id -> parent group id, or NoParent. */
    var upLink: map<int, int>
    /** The history: one labelled (undo, redo) entry per successful edit, oldest first. */
    var undoStack: seq<Entry>
    /** The number of tracks of the underlying composition. */
    var tractorCount: int
    /** The id counter shared by every timeline. */
    const counter: IdCounter

    /** The list and the table describe the same tracks, and the composition has as many tracks as the list. */
    predicate Wf()
      reads this
    {
      Indexed(allTracks, iteratorTable) && tractorCount == |allTracks|
    }

    /** The registries read as a state value. */
    function Abs(): State
      reads this, iteratorTable.Values
      requires Wf()
    {
      State(TrackIds(allTracks), TrackMap(iteratorTable), allClips, allGroups, upLink)
    }

    /** The invariant between edits: the registries are consistent and every id in use came from the counter. */
    predicate Valid()
      reads this, iteratorTable.Values, counter
    {
      Wf() && Consistent(Abs()) && IdsBelow(Abs(), counter.next)
    }

    /** A new timeline: no track, no clip, no group, an empty history. */
    constructor(counter: IdCounter)
      requires 0 <= counter.next
      ensures this.counter == counter && Valid()
      ensures allTracks == [] && allClips == map[] && allGroups == {} && upLink == map[] && undoStack == []
    {
      this.counter := counter;
      allTracks := [];
      iteratorTable := map[];
      allClips := map[];
      allGroups := {};
      upLink := map[];
      undoStack := [];
      tractorCount := 0;
    }

    /** Hands out the counter's current value and moves the counter past it. */
    method GetNextId() returns (id: int)
      modifies counter
      ensures id == old(counter.next) && counter.next == id + 1
      ensures old(Valid()) ==> Valid()
    {
      id := counter.next;
      counter.next := counter.next + 1;
    }

    // ------------------------------------------------------------ registries

    /**
     * Puts track at list position pos (at the end when pos is -1) and enters
     * it in the table; the composition gains a track.
     */
    method RegisterTrack(track: TrackModel, pos: int)
      requires Wf() && track.id !in iteratorTable
      requires pos == -1 || 0 <= pos <= |allTracks|
      modifies this
      ensures var p := if pos == -1 then |old(allTracks)| else pos;
        allTracks == old(allTracks)[..p] + [track] + old(allTracks)[p..]
      ensures iteratorTable == old(iteratorTable)[track.id := track]
      ensures tractorCount == old(tractorCount) + 1
      ensures allClips == old(allClips) && allGroups == old(allGroups) && upLink == old(upLink)
      ensures undoStack == old(undoStack)
      ensures Wf()
      ensures old(Valid()) && track.clips == [] && 0 <= track.id < counter.next && track.id !in upLink ==> Valid()
    {
      ghost var s := Abs();
      ghost var keep := Valid() && track.clips == [] && 0 <= track.id < counter.next && track.id !in upLink;
      InsertTrack(track, if pos == -1 then |allTracks| else pos);
      if keep {
        RegisteredTrackValid(s, Abs(), track.id);
      }
    }

    /** The list and table half of RegisterTrack. */
    method InsertTrack(track: TrackModel, p: int)
      requires Wf() && track.id !in iteratorTable && 0 <= p <= |allTracks|
      modifies this
      ensures allTracks == old(allTracks)[..p] + [track] + old(allTracks)[p..]
      ensures iteratorTable == old(iteratorTable)[track.id := track]
      ensures tractorCount == old(tractorCount) + 1
      ensures allClips == old(allClips) && allGroups == old(allGroups) && upLink == old(upLink)
      ensures undoStack == old(undoStack)
      ensures Wf() && Abs().tracks == old(Abs()).tracks[track.id := track.clips]
    {
      ghost var s := Abs();
      IndexedInsert(allTracks, iteratorTable, track, p);
      tractorCount := tractorCount + 1;
      allTracks := allTracks[..p] + [track] + allTracks[p..];
      iteratorTable := iteratorTable[track.id := track];
      assert TrackMap(iteratorTable) == s.tracks[track.id := track.clips];
    }

    /** Takes the track with the given id out of the list and the table; the composition loses a track. */
    method DeregisterTrack(id: int)
      requires Wf() && id in iteratorTable
      modifies this
      ensures var i := TrackRow(old(allTracks), id);
        allTracks == old(allTracks)[..i] + old(allTracks)[i + 1..]
      ensures iteratorTable == old(iteratorTable) - {id}
      ensures tractorCount == old(tractorCount) - 1
      ensures allClips == old(allClips) && allGroups == old(allGroups) && upLink == old(upLink)
      ensures undoStack == old(undoStack)
      ensures Wf()
      ensures old(Valid()) && old(iteratorTable[id].clips) == [] ==> Valid()
    {
      ghost var s := Abs();
      ghost var keep := Valid() && iteratorTable[id].clips == [];
      EraseTrack(id);
      if keep {
        DeregisteredTrackValid(s, Abs(), id);
      }
    }

    /** The list and table half of DeregisterTrack. */
    method EraseTrack(id: int)
      requires Wf() && id in iteratorTable
      modifies this
      ensures var i := TrackRow(old(allTracks), id);
        allTracks == old(allTracks)[..i] + old(allTracks)[i + 1..]
      ensures iteratorTable == old(iteratorTable) - {id}
      ensures tractorCount == old(tractorCount) - 1
      ensures allClips == old(allClips) && allGroups == old(allGroups) && upLink == old(upLink)
      ensures undoStack == old(undoStack)
      ensures Wf() && Abs().tracks == old(Abs()).tracks - {id}
    {
      ghost var s := Abs();
      IndexedRemove(allTracks, iteratorTable, id);
      var i := TrackRow(allTracks, id);
      tractorCount := tractorCount - 1;
      allTracks := allTracks[..i] + allTracks[i + 1..];
      iteratorTable := iteratorTable - {id};
      assert TrackMap(iteratorTable) == s.tracks - {id};
    }

    /** Enters a clip in the clip map and makes it a root of the group forest. */
    method RegisterClip(id: int, clip: Clip)
      requires Wf() && id !in allClips && id !in upLink
      modifies this
      ensures allClips == old(allClips)[id := clip] && upLink == old(upLink)[id := NoParent]
      ensures allTracks == old(allTracks) && iteratorTable == old(iteratorTable) && tractorCount == old(tractorCount)
      ensures allGroups == old(allGroups) && undoStack == old(undoStack)
      ensures GetClipsCount() == old(GetClipsCount()) + 1
      ensures old(Valid()) && clip.trackId == NoTrack && 0 < clip.playtime && 0 <= id < counter.next && id !in iteratorTable ==> Valid()
    {
      ghost var s := Abs();
      allClips := allClips[id := clip];
      upLink := upLink[id := NoParent];
      assert Abs() == s.(clips := s.clips[id := clip], upLink := s.upLink[id := NoParent]);
      if old(Valid()) && clip.trackId == NoTrack && 0 < clip.playtime && 0 <= id < counter.next && id !in iteratorTable {
        RegisteredClipValid(s, Abs(), id, clip);
      }
    }

    /** Takes a clip out of the clip map and out of the group forest. */
    method DeregisterClip(id: int)
      requires Wf() && id in allClips
      modifies this
      ensures allClips == old(allClips) - {id} && upLink == old(upLink) - {id}
      ensures allTracks == old(allTracks) && iteratorTable == old(iteratorTable) && tractorCount == old(tractorCount)
      ensures allGroups == old(allGroups) && undoStack == old(undoStack)
      ensures GetClipsCount() == old(GetClipsCount()) - 1
      ensures old(Valid()) && old(allClips[id].trackId) == NoTrack ==> Valid()
    {
      ghost var s := Abs();
      allClips := allClips - {id};
      upLink := upLink - {id};
      assert Abs() == s.(clips := s.clips - {id}, upLink := s.upLink - {id});
      if old(Valid()) && old(allClips[id].trackId) == NoTrack {
        DeregisteredClipValid(s, Abs(), id);
      }
    }

    /** Enters a group id in the group set. */
    method RegisterGroup(groupId: int)
      requires groupId !in allGroups
      modifies this
      ensures allGroups == old(allGroups) + {groupId}
      ensures allTracks == old(allTracks) && iteratorTable == old(iteratorTable) && tractorCount == old(tractorCount)
      ensures allClips == old(allClips) && upLink == old(upLink) && undoStack == old(undoStack)
    {
      allGroups := allGroups + {groupId};
    }

    /** Takes a group id out of the group set. */
    method DeregisterGroup(groupId: int)
      requires groupId in allGroups
      modifies this
      ensures allGroups == old(allGroups) - {groupId}
      ensures allTracks == old(allTracks) && iteratorTable == old(iteratorTable) && tractorCount == old(tractorCount)
      ensures allClips == old(allClips) && upLink == old(upLink) && undoStack == old(undoStack)
    {
      allGroups := allGroups - {groupId};
    }

    // ------------------------------------------------------------ queries

    /** Whether id is a registered track: a track of the list has that id. */
    function IsTrack(id: int): (r: bool)
      reads this
      ensures Wf() ==> (r <==> exists k :: 0 <= k < |allTracks| && allTracks[k].id == id)
    {
      id in iteratorTable
    }

    /** Whether id is a registered clip. */
    function IsClip(id: int): (r: bool)
      reads this
      ensures Wf() ==> (r <==> id in Abs().clips)
    {
      id in allClips
    }

    /** The number of tracks, as the composition counts them: the length of the track list. */
    function GetTracksCount(): (n: int)
      reads this
      requires Wf()
      ensures n == |allTracks| && n == |Abs().order|
    {
      tractorCount
    }

    /** The number of registered clips. */
    function GetClipsCount(): (n: int)
      reads this
      ensures Wf() ==> n == |Abs().clips|
    {
      |allClips|
    }

    /** The number of clips on track tid. */
    function GetTrackClipsCount(tid: int): (n: int)
      reads this, iteratorTable.Values
      requires Wf() && tid in iteratorTable
      ensures n == |Abs().tracks[tid]|
    {
      |iteratorTable[tid].clips|
    }

    /** The track clip cid is on, or NoTrack; on a valid timeline that track is registered and holds the clip. */
    function GetClipTrackId(cid: int): (t: int)
      reads this, iteratorTable.Values, counter
      requires cid in allClips
      ensures Valid() && t != NoTrack ==> IsTrack(t) && HasClip(iteratorTable[t].clips, cid)
      ensures Valid() && t == NoTrack ==> forall u :: u in Abs().tracks ==> !HasClip(Abs().tracks[u], cid)
    {
      allClips[cid].trackId
    }

    /**
     * Where clip cid starts: on a valid timeline, -1 exactly when the clip is
     * on no track, and otherwise the start of its placement on its track.
     */
    function GetClipPosition(cid: int): (pos: int)
      reads this, iteratorTable.Values, counter
      requires Wf() && cid in allClips
      ensures Valid() ==> (pos == -1 <==> allClips[cid].trackId == NoTrack)
      ensures Valid() && allClips[cid].trackId != NoTrack ==>
        Placement(cid, pos, allClips[cid].playtime) in iteratorTable[allClips[cid].trackId].clips
    {
      ClipPosition(Abs(), cid)
    }

    // ------------------------------------------------------------ the tree view

    /**
     * The index of the item at (row, column) under parent: under the root,
     * the track at that row; under a track, the clip at that row.
     */
    function Index(row: int, column: int, parent: ModelIndex): (ix: ModelIndex)
      reads this, iteratorTable.Values
      requires Wf() && 0 <= row
      requires IsValidIndex(parent) && column <= 0 ==> IsTrack(parent.internalId)
      ensures column > 0 ==> ix == Invalid
      ensures ix.Node? ==> ix.row == row
    {
      if column > 0 then Invalid
      else if IsValidIndex(parent) then
        var clipId := iteratorTable[parent.internalId].ClipByRow(row);
        if clipId != -1 then Node(row, 0, clipId) else Invalid
      else if row < GetTracksCount() then Node(row, column, allTracks[row].id)
      else Invalid
    }

    /**
     * The index of the clip at row clipIndex of the track at row trackIndex:
     * the clip placed clipIndex-th on that track, or the root when the track
     * has fewer clips (or the clip's id is the sentinel -1). A track row past
     * the last track names no track, so the result is then the root-level
     * index at row clipIndex.
     */
    function MakeIndex(trackIndex: int, clipIndex: int): (ix: ModelIndex)
      reads this, iteratorTable.Values
      requires Wf() && 0 <= trackIndex && 0 <= clipIndex
      ensures trackIndex < |allTracks| ==>
        var clips := allTracks[trackIndex].clips;
        && (clipIndex >= |clips| ==> ix == Invalid)
        && (clipIndex < |clips| && clips[clipIndex].cid != -1 ==> ix == Node(clipIndex, 0, clips[clipIndex].cid))
      ensures trackIndex >= |allTracks| ==>
        && (clipIndex < |allTracks| ==> ix == Node(clipIndex, 0, allTracks[clipIndex].id))
        && (clipIndex >= |allTracks| ==> ix == Invalid)
    {
      var p := Index(trackIndex, 0, Invalid);
      assert p.Node? ==> IsTrack(p.internalId) by {
        if trackIndex < |allTracks| {
          assert allTracks[trackIndex].id in iteratorTable;
        }
      }
      Index(clipIndex, 0, p)
    }

    /** The parent of an index: the root for a track or an invalid index, the clip's track for a clip. */
    function Parent(ix: ModelIndex): (p: ModelIndex)
      reads this
      requires Wf()
      requires IsValidIndex(ix) && !IsTrack(ix.internalId) ==>
        IsClip(ix.internalId) && IsTrack(allClips[ix.internalId].trackId)
      ensures (!IsValidIndex(ix) || IsTrack(ix.internalId)) ==> p == Invalid
      ensures IsValidIndex(ix) && !IsTrack(ix.internalId) ==> p.Node? && p.internalId == allClips[ix.internalId].trackId
      ensures p.Node? ==> 0 <= p.row < |allTracks| && allTracks[p.row].id == p.internalId && p.column == 0
    {
      if !IsValidIndex(ix) || IsTrack(ix.internalId) then Invalid
      else
        var t := allClips[ix.internalId].trackId;
        TableRows(allTracks, iteratorTable, t);
        Node(TrackRow(allTracks, t), 0, t)
    }

    /** The number of children of parent: the tracks under the root, a track's clips, none under a clip or an unknown id. */
    function RowCount(parent: ModelIndex): (n: int)
      reads this, iteratorTable.Values
      requires Wf()
      ensures !IsValidIndex(parent) ==> n == |allTracks|
      ensures IsValidIndex(parent) && !IsTrack(parent.internalId) ==> n == 0
    {
      if IsValidIndex(parent) then
        var id := parent.internalId;
        if IsClip(id) || !IsTrack(id) then 0 else GetTrackClipsCount(id)
      else GetTracksCount()
    }

    /** Every item has one column. */
    function ColumnCount(parent: ModelIndex): (n: int)
      ensures n == 1
    {
      1
    }

    /**
     * Each root row below the row count is a valid index naming the track at
     * that row; its parent is the root and its children are the track's clips.
     */
    lemma RootRows(row: int)
      requires Valid() && 0 <= row < RowCount(Invalid)
      ensures var ix := Index(row, 0, Invalid);
        && IsValidIndex(ix) && ix.internalId == allTracks[row].id && IsTrack(ix.internalId)
        && Parent(ix) == Invalid && RowCount(ix) == |allTracks[row].clips|
    {
      var id := allTracks[row].id;
      assert id in Abs().tracks;
      assert !IsClip(id) by {
        assert id !in Abs().upLink;
      }
    }

    /**
     * Under the track at row tr, each row below its row count is a valid index
     * naming a clip, whose parent is that track's index and which has no
     * children; rows beyond the count give an invalid index.
     */
    lemma ClipRows(tr: int, k: int)
      requires Valid() && 0 <= tr < |allTracks| && 0 <= k
      ensures var p := Index(tr, 0, Invalid);
        && IsTrack(p.internalId)
        && var ix := Index(k, 0, p);
           && ix == MakeIndex(tr, k)
           && (k < RowCount(p) ==> IsValidIndex(ix) && IsClip(ix.internalId) && Parent(ix) == p && RowCount(ix) == 0)
           && (k < RowCount(p) ==> ix.internalId == allTracks[tr].clips[k].cid)
           && (k >= RowCount(p) ==> ix == Invalid)
    {
      var id := allTracks[tr].id;
      assert id in iteratorTable;
      var s := Abs();
      assert !IsClip(id) by {
        assert id in s.tracks && id !in s.upLink;
      }
      var track := iteratorTable[id];
      assert track == allTracks[tr];
      if k < |track.clips| {
        var q := track.clips[k];
        assert q in s.tracks[id];
        assert q.cid in s.clips && s.clips[q.cid].trackId == id;
        assert q.cid != -1 && !IsTrack(q.cid) by {
          assert q.cid in s.upLink;
        }
        var t := TrackRow(allTracks, id);
        assert t == tr;
      }
    }

    /**
     * The clip rows of a track are in position order: a lower row names a
     * clip that starts earlier.
     */
    lemma ClipRowsByPosition(tr: int, k1: int, k2: int)
      requires Valid() && 0 <= tr < |allTracks|
      requires 0 <= k1 < k2 < RowCount(Index(tr, 0, Invalid))
      ensures var p := Index(tr, 0, Invalid);
        && IsTrack(p.internalId)
        && var a := Index(k1, 0, p).internalId;
           var b := Index(k2, 0, p).internalId;
           && IsClip(a) && IsClip(b)
           && GetClipPosition(a) < GetClipPosition(b)
    {
      ClipRows(tr, k1);
      ClipRows(tr, k2);
      var id := allTracks[tr].id;
      var s := Abs();
      var ps := s.tracks[id];
      assert ps == allTracks[tr].clips;
      assert ps[k1] in ps && ps[k2] in ps;
      PlacementUnique(ps, ps[k1]);
      PlacementUnique(ps, ps[k2]);
      assert End(ps[k1]) <= ps[k2].start;
    }

    /** On a valid timeline the clips are exactly the forest's items that are not groups, and no clip is a track. */
    lemma ClipItems(id: int)
      requires Valid()
      ensures IsClip(id) <==> id in upLink && id !in allGroups
      ensures IsClip(id) ==> !IsTrack(id)
    {
      assert id in Abs().tracks <==> IsTrack(id);
    }

    /** On a valid timeline the clip count is the number of forest items less the number of groups. */
    lemma ClipsCounted()
      requires Valid()
      ensures GetClipsCount() == |upLink| - |allGroups|
    {
      var items := upLink.Keys;
      var clips := allClips.Keys;
      assert items == clips + allGroups && clips !! allGroups;
      assert |items| == |clips| + |allGroups|;
    }

    /** On a valid timeline a track's row count is the number of clips that say they are on it. */
    lemma TrackClipsCounted(tid: int)
      requires Valid() && IsTrack(tid)
      ensures GetTrackClipsCount(tid) == |set c | c in allClips && allClips[c].trackId == tid|
    {
      ClipsOnTrack(Abs(), tid);
    }

    // ------------------------------------------------------------ replaying steps

    /** Replays one step; a refused step changes nothing. */
    method ApplyOp(op: Op) returns (ok: bool)
      requires Wf()
      modifies this, iteratorTable.Values
      ensures Wf() && allTracks == old(allTracks) && iteratorTable == old(iteratorTable)
      ensures undoStack == old(undoStack)
      ensures ok == Apply(old(Abs()), op).Some?
      ensures Abs() == if ok then Apply(old(Abs()), op).value else old(Abs())
    {
      match op
      case Place(tid, p) => ok := PlaceOp(tid, p);
      case Unplace(tid, cid) => ok := UnplaceOp(tid, cid);
      case SetTrack(cid, tid) => ok := SetTrackOp(cid, tid);
      case Reshape(cid, start, length) => ok := ReshapeOp(cid, start, length);
      case AddGroup(gid) => ok := AddGroupOp(gid);
      case RemoveGroup(gid) => ok := RemoveGroupOp(gid);
      case Relink(links) => ok := RelinkOp(links);
    }

    /**
     * Replays ops in order and, as `Run` does, stops at the first refused
     * step; when every step succeeds the state is the one `Run` gives.
     */
    method RunOps(ops: seq<Op>) returns (ok: bool)
      requires Wf()
      modifies this, iteratorTable.Values
      ensures Wf() && allTracks == old(allTracks) && iteratorTable == old(iteratorTable)
      ensures undoStack == old(undoStack)
      ensures ok == Run(old(Abs()), ops).Some?
      ensures ok ==> Abs() == Run(old(Abs()), ops).value
    {
      ok := true;
      var i := 0;
      while i < |ops| && ok
        invariant 0 <= i <= |ops|
        invariant Wf() && allTracks == old(allTracks) && iteratorTable == old(iteratorTable)
        invariant undoStack == old(undoStack)
        invariant ok ==> Run(old(Abs()), ops[..i]) == Some(Abs())
        invariant !ok ==> Run(old(Abs()), ops) == None
      {
        ghost var before := Abs();
        ok := ApplyOp(ops[i]);
        RunOne(before, ops[i]);
        RunAppend(old(Abs()), ops[..i], [ops[i]]);
        assert ops[..i + 1] == ops[..i] + [ops[i]];
        if !ok {
          RunAppend(old(Abs()), ops[..i + 1], ops[i + 1..]);
          assert ops == ops[..i + 1] + ops[i + 1..];
        }
        i := i + 1;
      }
      if ok {
        assert ops[..i] == ops;
      }
    }

    method PlaceOp(tid: int, p: Placement) returns (ok: bool)
      requires Wf()
      modifies iteratorTable.Values
      ensures ok == Apply(old(Abs()), Place(tid, p)).Some?
      ensures Abs() == if ok then Apply(old(Abs()), Place(tid, p)).value else old(Abs())
    {
      if tid in iteratorTable {
        var t := iteratorTable[tid];
        ok := t.InsertPlacement(p);
        forall u | u in iteratorTable
          ensures TrackMap(iteratorTable)[u] == old(TrackMap(iteratorTable))[tid := t.clips][u]
        {
          if u != tid {
            assert iteratorTable[u] != t;
          }
        }
        assert TrackMap(iteratorTable) == old(TrackMap(iteratorTable))[tid := t.clips];
      } else {
        ok := false;
      }
    }

    method UnplaceOp(tid: int, cid: int) returns (ok: bool)
      requires Wf()
      modifies iteratorTable.Values
      ensures ok == Apply(old(Abs()), Unplace(tid, cid)).Some?
      ensures Abs() == if ok then Apply(old(Abs()), Unplace(tid, cid)).value else old(Abs())
    {
      if tid in iteratorTable {
        var t := iteratorTable[tid];
        ok := t.DeletePlacement(cid);
        forall u | u in iteratorTable
          ensures TrackMap(iteratorTable)[u] == old(TrackMap(iteratorTable))[tid := t.clips][u]
        {
          if u != tid {
            assert iteratorTable[u] != t;
          }
        }
        assert TrackMap(iteratorTable) == old(TrackMap(iteratorTable))[tid := t.clips];
      } else {
        ok := false;
      }
    }

    /** The clip's own step of a move: it records its new track id. */
    method SetTrackOp(cid: int, tid: int) returns (ok: bool)
      requires Wf()
      modifies this
      ensures allTracks == old(allTracks) && iteratorTable == old(iteratorTable) && tractorCount == old(tractorCount)
      ensures undoStack == old(undoStack)
      ensures ok == Apply(old(Abs()), SetTrack(cid, tid)).Some?
      ensures Abs() == if ok then Apply(old(Abs()), SetTrack(cid, tid)).value else old(Abs())
    {
      ok := cid in allClips;
      if ok {
        allClips := allClips[cid := allClips[cid].(trackId := tid)];
      }
    }

    /** The clip's own resize step: its length changes, and its placement with it when it is on a track. */
    method ReshapeOp(cid: int, start: int, length: nat) returns (ok: bool)
      requires Wf()
      modifies this, iteratorTable.Values
      ensures allTracks == old(allTracks) && iteratorTable == old(iteratorTable) && tractorCount == old(tractorCount)
      ensures undoStack == old(undoStack)
      ensures ok == Apply(old(Abs()), Reshape(cid, start, length)).Some?
      ensures Abs() == if ok then Apply(old(Abs()), Reshape(cid, start, length)).value else old(Abs())
    {
      ok := false;
      if cid in allClips {
        var c := allClips[cid];
        var p := Placement(cid, start, length);
        if c.trackId == NoTrack {
          if 0 < length {
            allClips := allClips[cid := c.(playtime := length)];
            ok := true;
          }
        } else if c.trackId in iteratorTable {
          var t := iteratorTable[c.trackId];
          if HasClip(t.clips, cid) && Fits(Remove(t.clips, cid), p) {
            TrackReplacement(c.trackId, p);
            allClips := allClips[cid := c.(playtime := length)];
            ok := true;
          }
        }
      }
    }

    /** Track tid replaces the placement of p's clip by p, which fits there. */
    method TrackReplacement(tid: int, p: Placement)
      requires Wf() && tid in iteratorTable
      requires HasClip(iteratorTable[tid].clips, p.cid) && Fits(Remove(iteratorTable[tid].clips, p.cid), p)
      modifies iteratorTable[tid]
      ensures TrackMap(iteratorTable) == old(TrackMap(iteratorTable))[tid := Insert(Remove(old(iteratorTable[tid].clips), p.cid), p)]
    {
      var t := iteratorTable[tid];
      t.ReplacePlacement(p);
      forall u | u in iteratorTable
        ensures TrackMap(iteratorTable)[u] == old(TrackMap(iteratorTable))[tid := t.clips][u]
      {
        if u != tid {
          assert iteratorTable[u] != t;
        }
      }
      assert TrackMap(iteratorTable) == old(TrackMap(iteratorTable))[tid := t.clips];
    }

    /** A new group enters the forest as a root and is registered. */
    method AddGroupOp(gid: int) returns (ok: bool)
      requires Wf()
      modifies this
      ensures allTracks == old(allTracks) && iteratorTable == old(iteratorTable) && tractorCount == old(tractorCount)
      ensures undoStack == old(undoStack)
      ensures ok == Apply(old(Abs()), AddGroup(gid)).Some?
      ensures Abs() == if ok then Apply(old(Abs()), AddGroup(gid)).value else old(Abs())
    {
      ok := gid !in upLink;
      if ok {
        upLink := upLink[gid := NoParent];
        if gid !in allGroups {
          RegisterGroup(gid);
        }
      }
    }

    /** A group leaves the forest and is deregistered. */
    method RemoveGroupOp(gid: int) returns (ok: bool)
      requires Wf()
      modifies this
      ensures allTracks == old(allTracks) && iteratorTable == old(iteratorTable) && tractorCount == old(tractorCount)
      ensures undoStack == old(undoStack)
      ensures ok == Apply(old(Abs()), RemoveGroup(gid)).Some?
      ensures Abs() == if ok then Apply(old(Abs()), RemoveGroup(gid)).value else old(Abs())
    {
      ok := gid in allGroups && gid in upLink;
      if ok {
        DeregisterGroup(gid);
        upLink := upLink - {gid};
      }
    }

    /** Items get new parents. */
    method RelinkOp(links: map<int, int>) returns (ok: bool)
      requires Wf()
      modifies this
      ensures allTracks == old(allTracks) && iteratorTable == old(iteratorTable) && tractorCount == old(tractorCount)
      ensures undoStack == old(undoStack)
      ensures ok == Apply(old(Abs()), Relink(links)).Some?
      ensures Abs() == if ok then Apply(old(Abs()), Relink(links)).value else old(Abs())
    {
      ok := links.Keys <= upLink.Keys;
      if ok {
        upLink := upLink + links;
      }
    }
    // ------------------------------------------------------------ edits

    /**
     * Moves clip cid to track tid at position: its current track deletes it,
     * the target track inserts it, and the clip records its new track. When a
     * track refuses, the steps gathered so far are undone and false is
     * returned; on success one "Move clip" entry is pushed.
     */
    method RequestClipMove(cid: int, tid: int, position: int) returns (ok: bool)
      requires Valid() && cid in allClips && tid in iteratorTable
      modifies this, iteratorTable.Values
      ensures Valid() && allTracks == old(allTracks) && iteratorTable == old(iteratorTable)
      ensures ok == MoveFits(old(Abs()), cid, tid, position)
      ensures Abs() == if ok then Moved(old(Abs()), cid, tid, position) else old(Abs())
      ensures undoStack == old(undoStack) +
        if ok then [Entry("Move clip", MoveUndo(old(Abs()), cid, tid), MoveRedo(old(Abs()), cid, tid, position))] else []
    {
      ghost var s := Abs();
      var oldTid := allClips[cid].trackId;
      var undo, redo := DetachForMove(cid);
      ok, undo, redo := TrackInsertion(tid, Placement(cid, position, allClips[cid].playtime), undo, redo);
      if !ok {
        RollbackMove(s, cid, undo);
        return;
      }
      MoveStep(s, cid, tid, position, counter.next);
      MoveLists(s, cid, tid, position);
      CommitMove(Moved(s, cid, tid, position), cid, tid, oldTid, undo, redo);
    }

    /** The deletion half of a move: the clip's current track, if any, deletes it. */
    method DetachForMove(cid: int) returns (undo: seq<Op>, redo: seq<Op>)
      requires Wf() && Consistent(Abs()) && cid in allClips
      modifies iteratorTable.Values
      ensures Abs() == Detach(old(Abs()), cid) && undo == Rollback(old(Abs()), cid)
      ensures var t0 := old(allClips[cid].trackId);
        redo == if t0 != NoTrack then [Unplace(t0, cid)] else []
    {
      ghost var s := Abs();
      DetachStep(s, cid);
      undo, redo := [], [];
      var oldTid := allClips[cid].trackId;
      if oldTid != NoTrack {
        var ok;
        ok, undo, redo := TrackDeletion(oldTid, cid, undo, redo);
        if !ok {
          // the clip is on its track, so its track cannot refuse to delete it
          assert false;
        }
      }
    }

    /** A refused move runs the undo steps gathered so far (the Q_ASSERT(undo()) of requestClipMove), which succeed. */
    method RollbackMove(ghost s: State, cid: int, undo: seq<Op>)
      requires Wf() && Consistent(s) && IdsBelow(s, counter.next) && cid in s.clips
      requires Abs() == Detach(s, cid) && undo == Rollback(s, cid)
      modifies this, iteratorTable.Values
      ensures Valid() && Abs() == s
      ensures allTracks == old(allTracks) && iteratorTable == old(iteratorTable) && undoStack == old(undoStack)
    {
      DetachUndone(s, cid);
      var undone := RunOps(undo);
      assert undone;
    }

    /**
     * The clip's own step of a move, added first to the undo steps and last
     * to the redo steps; the entry is pushed, then the step is done.
     */
    method CommitMove(ghost m: State, cid: int, tid: int, oldTid: int, undo: seq<Op>, redo: seq<Op>)
      requires Wf() && cid in allClips && Consistent(m) && IdsBelow(m, counter.next)
      requires m == Abs().(clips := allClips[cid := allClips[cid].(trackId := tid)])
      modifies this
      ensures Valid() && Abs() == m
      ensures allTracks == old(allTracks) && iteratorTable == old(iteratorTable)
      ensures undoStack == old(undoStack) + [Entry("Move clip", [SetTrack(cid, oldTid)] + undo, redo + [SetTrack(cid, tid)])]
    {
      var undo' := [SetTrack(cid, oldTid)] + undo;
      var redo' := redo + [SetTrack(cid, tid)];
      undoStack := undoStack + [Entry("Move clip", undo', redo')];
      allClips := allClips[cid := allClips[cid].(trackId := tid)];
    }

    /**
     * Resizes clip cid to size frames, keeping its start (right) or its end
     * (left); one "Resize clip" entry is pushed exactly when the clip accepts.
     */
    method RequestClipResize(cid: int, size: int, right: bool) returns (ok: bool)
      requires Valid() && cid in allClips
      modifies this, iteratorTable.Values
      ensures Valid() && allTracks == old(allTracks) && iteratorTable == old(iteratorTable)
      ensures ok == (0 <= size && ResizeFits(old(Abs()), cid, size, right))
      ensures Abs() == if ok then Reshaped(old(Abs()), cid, size, right) else old(Abs())
      ensures undoStack == old(undoStack) +
        if ok then [Entry("Resize clip", ResizeUndo(old(Abs()), cid), ResizeRedo(old(Abs()), cid, size, right))] else []
    {
      ghost var s := Abs();
      var undo, redo;
      ok, undo, redo := ClipResize(cid, size, right);
      if ok {
        ResizeStep(s, cid, size, right, counter.next);
        PushEntry(Reshaped(s, cid, size, right), Entry("Resize clip", undo, redo));
      }
    }

    /**
     * The clip's own resize request: it works out the extent it asks its track
     * for and does the resize step, gathering the step and its reverse.
     */
    method ClipResize(cid: int, size: int, right: bool) returns (ok: bool, undo: seq<Op>, redo: seq<Op>)
      requires Wf() && OnItsTrack(Abs(), cid)
      modifies this, iteratorTable.Values
      ensures Wf() && allTracks == old(allTracks) && iteratorTable == old(iteratorTable) && undoStack == old(undoStack)
      ensures ok == (0 <= size && ResizeFits(old(Abs()), cid, size, right))
      ensures Abs() == if ok then Reshaped(old(Abs()), cid, size, right) else old(Abs())
      ensures ok ==> undo == ResizeUndo(old(Abs()), cid) && redo == ResizeRedo(old(Abs()), cid, size, right)
    {
      undo, redo := [], [];
      if size < 0 {
        return false, undo, redo;
      }
      ghost var s := Abs();
      var c := allClips[cid];
      var start, oldStart := 0, 0;
      if c.trackId != NoTrack {
        var q := PlacementOf(iteratorTable[c.trackId].clips, cid);
        oldStart := q.start;
        start := if right then q.start else q.start + q.length - size;
      }
      assert Reshape(cid, start, size) == ResizeRedo(s, cid, size, right)[0];
      ResizeRedoRuns(s, cid, size, right);
      RunOne(s, Reshape(cid, start, size));
      ok := ReshapeOp(cid, start, size);
      if ok {
        undo := [Reshape(cid, oldStart, c.playtime)];
        redo := [Reshape(cid, start, size)];
      }
    }

    /** Pushes one entry on the history of a timeline that reads as the consistent state m; nothing else changes. */
    method PushEntry(ghost m: State, e: Entry)
      requires Wf() && Abs() == m && Consistent(m) && IdsBelow(m, counter.next)
      modifies this
      ensures Valid() && Abs() == m && undoStack == old(undoStack) + [e]
      ensures allTracks == old(allTracks) && iteratorTable == old(iteratorTable)
    {
      undoStack := undoStack + [e];
    }

    /**
     * Groups the items ids under a new group; one "Group clips" entry is
     * pushed exactly when the groups collaborator accepts, which it does when
     * the set is non-empty and every item is known.
     */
    method RequestGroupClips(ids: set<int>) returns (ok: bool)
      requires Valid()
      modifies this, counter
      ensures Valid() && allTracks == old(allTracks) && iteratorTable == old(iteratorTable)
      ensures ok == GroupFits(old(Abs()), ids)
      ensures ok ==> counter.next == old(counter.next) + 1
      ensures Abs() == if ok then Grouped(old(Abs()), ids, old(counter.next)) else old(Abs())
      ensures undoStack == old(undoStack) +
        if ok then [Entry("Group clips", GroupUndo(old(Abs()), ids, old(counter.next)), GroupRedo(ids, old(counter.next)))] else []
      ensures !ok ==> counter.next == old(counter.next)
    {
      ghost var s := Abs();
      var gid, undo, redo := GroupItems(ids);
      if gid != -1 {
        GroupKeepsConsistent(s, ids, gid);
        PushEntry(Grouped(s, ids, gid), Entry("Group clips", undo, redo));
      }
      ok := gid != -1;
    }

    /**
     * The groups collaborator's grouping: refused with -1, and no effect, for
     * an empty set or an unknown item; otherwise a fresh id becomes a group
     * root holding the items, and that id is returned.
     */
    method GroupItems(ids: set<int>) returns (gid: int, undo: seq<Op>, redo: seq<Op>)
      requires Wf() && IdsBelow(Abs(), counter.next)
      modifies this, counter
      ensures Wf() && allTracks == old(allTracks) && iteratorTable == old(iteratorTable) && undoStack == old(undoStack)
      ensures gid != -1 <==> GroupFits(old(Abs()), ids)
      ensures gid != -1 ==> gid == old(counter.next) && counter.next == gid + 1
      ensures gid != -1 ==> Abs() == Grouped(old(Abs()), ids, gid)
      ensures gid != -1 ==> undo == GroupUndo(old(Abs()), ids, gid) && redo == GroupRedo(ids, gid)
      ensures gid == -1 ==> Abs() == old(Abs()) && counter.next == old(counter.next)
    {
      ghost var s := Abs();
      if !(ids != {} && ids <= upLink.Keys) {
        return -1, [], [];
      }
      gid := GetNextId();
      var links := map x | x in ids :: gid;
      undo := [Relink(map x | x in ids :: upLink[x]), RemoveGroup(gid)];
      redo := [AddGroup(gid), Relink(links)];
      GroupRedoRuns(s, ids, gid);
      RunTwo(s, AddGroup(gid), Relink(links));
      var added := AddGroupOp(gid);
      var linked := RelinkOp(links);
    }

    /**
     * Takes item id out of its group; one "Ungroup clips" entry is pushed
     * exactly when the groups collaborator accepts, which it does when the
     * item has a parent.
     */
    method RequestUngroupClip(id: int) returns (ok: bool)
      requires Valid()
      modifies this
      ensures Valid() && allTracks == old(allTracks) && iteratorTable == old(iteratorTable)
      ensures ok == UngroupFits(old(Abs()), id)
      ensures Abs() == if ok then Ungrouped(old(Abs()), id) else old(Abs())
      ensures undoStack == old(undoStack) +
        if ok then [Entry("Ungroup clips", UngroupUndo(old(Abs()), id), UngroupRedo(id))] else []
    {
      ghost var s := Abs();
      var undo, redo;
      ok, undo, redo := UngroupItem(id);
      if ok {
        UngroupKeepsConsistent(s, id);
        PushEntry(Ungrouped(s, id), Entry("Ungroup clips", undo, redo));
      }
    }

    /** The groups collaborator's ungrouping: an item with a parent becomes a root. */
    method UngroupItem(id: int) returns (ok: bool, undo: seq<Op>, redo: seq<Op>)
      requires Wf()
      modifies this
      ensures Wf() && allTracks == old(allTracks) && iteratorTable == old(iteratorTable) && undoStack == old(undoStack)
      ensures ok == UngroupFits(old(Abs()), id)
      ensures Abs() == if ok then Ungrouped(old(Abs()), id) else old(Abs())
      ensures ok ==> undo == UngroupUndo(old(Abs()), id) && redo == UngroupRedo(id)
    {
      ghost var s := Abs();
      undo, redo := [], [];
      ok := id in upLink && upLink[id] != NoParent;
      if ok {
        UngroupReplays(s, id);
        RunOne(s, Relink(map[id := NoParent]));
        undo := [Relink(map[id := upLink[id]])];
        redo := [Relink(map[id := NoParent])];
        var linked := RelinkOp(map[id := NoParent]);
      }
    }

    /** Track tid's deletion request for clip cid, with the step and its reverse gathered on success. */
    method TrackDeletion(tid: int, cid: int, undo: seq<Op>, redo: seq<Op>) returns (ok: bool, undo': seq<Op>, redo': seq<Op>)
      requires Wf() && tid in iteratorTable
      modifies iteratorTable[tid]
      ensures ok == HasClip(old(Abs()).tracks[tid], cid)
      ensures Abs() == if ok then Apply(old(Abs()), Unplace(tid, cid)).value else old(Abs())
      ensures undo' == if ok then [Place(tid, PlacementOf(old(Abs()).tracks[tid], cid))] + undo else undo
      ensures redo' == if ok then redo + [Unplace(tid, cid)] else redo
    {
      var track := iteratorTable[tid];
      ok, undo', redo' := track.RequestClipDeletion(cid, undo, redo);
      forall u | u in iteratorTable
        ensures TrackMap(iteratorTable)[u] == old(TrackMap(iteratorTable))[tid := track.clips][u]
      {
        if u != tid {
          assert iteratorTable[u] != track;
        }
      }
      assert TrackMap(iteratorTable) == old(TrackMap(iteratorTable))[tid := track.clips];
    }

    /** Track tid's insertion request for placement p, with the step and its reverse gathered on success. */
    method TrackInsertion(tid: int, p: Placement, undo: seq<Op>, redo: seq<Op>) returns (ok: bool, undo': seq<Op>, redo': seq<Op>)
      requires Wf() && tid in iteratorTable
      modifies iteratorTable[tid]
      ensures ok == Fits(old(Abs()).tracks[tid], p)
      ensures Abs() == if ok then Apply(old(Abs()), Place(tid, p)).value else old(Abs())
      ensures undo' == if ok then [Unplace(tid, p.cid)] + undo else undo
      ensures redo' == if ok then redo + [Place(tid, p)] else redo
    {
      var track := iteratorTable[tid];
      ok, undo', redo' := track.RequestClipInsertion(p.cid, p.start, p.length, undo, redo);
      forall u | u in iteratorTable
        ensures TrackMap(iteratorTable)[u] == old(TrackMap(iteratorTable))[tid := track.clips][u]
      {
        if u != tid {
          assert iteratorTable[u] != track;
        }
      }
      assert TrackMap(iteratorTable) == old(TrackMap(iteratorTable))[tid := track.clips];
    }
  }

  /** A new, empty track entered under a fresh id keeps the registries consistent. */
  lemma RegisteredTrackValid(s: State, r: State, id: int)
    requires Consistent(s) && id !in s.tracks && id !in s.upLink && id != NoTrack
    requires r.tracks == s.tracks[id := []] && r.clips == s.clips && r.groups == s.groups && r.upLink == s.upLink
    ensures Consistent(r)
  {
    forall t, p | t in r.tracks && p in r.tracks[t]
      ensures p.cid in r.clips && r.clips[p.cid].trackId == t && r.clips[p.cid].playtime == p.length
    {
      assert t != id;
    }
  }

  /** A new, unplaced clip entered under a fresh id, as a root of the forest, keeps the registries consistent. */
  lemma RegisteredClipValid(s: State, r: State, id: int, clip: Clip)
    requires Consistent(s) && id !in s.clips && id !in s.upLink && id !in s.tracks && id != NoParent
    requires clip.trackId == NoTrack && 0 < clip.playtime
    requires r == s.(clips := s.clips[id := clip], upLink := s.upLink[id := NoParent])
    ensures Consistent(r)
  {
    assert r.upLink.Keys == s.upLink.Keys + {id} && r.clips.Keys == s.clips.Keys + {id};
    forall t, p | t in r.tracks && p in r.tracks[t]
      ensures p.cid in r.clips && r.clips[p.cid].trackId == t && r.clips[p.cid].playtime == p.length
    {
      assert p.cid in s.clips;
    }
  }

  /** Taking out an unplaced clip, and its forest entry, keeps the registries consistent. */
  lemma DeregisteredClipValid(s: State, r: State, id: int)
    requires Consistent(s) && id in s.clips && s.clips[id].trackId == NoTrack
    requires r == s.(clips := s.clips - {id}, upLink := s.upLink - {id})
    ensures Consistent(r)
  {
    assert TracksOrdered(r);
    forall t, p | t in r.tracks && p in r.tracks[t]
      ensures p.cid in r.clips && r.clips[p.cid].trackId == t && r.clips[p.cid].playtime == p.length
    {
      assert p.cid in s.clips && s.clips[p.cid].trackId == t;
    }
    assert PlacementsOwned(r);
    assert ClipsPlaced(r) && ClipsLast(r);
    assert r.upLink.Keys == s.upLink.Keys - {id} && r.clips.Keys == s.clips.Keys - {id};
    assert r.upLink.Keys - r.clips.Keys == s.upLink.Keys - s.clips.Keys by {
      forall x ensures x in r.upLink.Keys - r.clips.Keys <==> x in s.upLink.Keys - s.clips.Keys {
        assert x in r.upLink <==> x in s.upLink && x != id;
        assert x in r.clips <==> x in s.clips && x != id;
      }
    }
    assert IdsSeparate(r);
    forall x | x in r.upLink && r.upLink[x] != NoParent
      ensures r.upLink[x] in r.groups && x < r.upLink[x]
    {
      assert s.upLink[x] in s.groups;
    }
    assert ForestRanked(r);
  }

  /** Taking out a track that holds no clip keeps the registries consistent. */
  lemma DeregisteredTrackValid(s: State, r: State, id: int)
    requires Consistent(s) && id in s.tracks && s.tracks[id] == []
    requires r.tracks == s.tracks - {id} && r.clips == s.clips && r.groups == s.groups && r.upLink == s.upLink
    ensures Consistent(r)
  {
    forall c | c in r.clips && r.clips[c].trackId != NoTrack
      ensures r.clips[c].trackId in r.tracks && HasClip(r.tracks[r.clips[c].trackId], c)
    {
      assert s.clips[c].trackId != id;
    }
  }

}
