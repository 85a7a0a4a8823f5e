/**
 * The timeline's editable state and its undo/redo protocol, on values.
 *
 * Every edit of the timeline threads two accumulating step lists through the
 * collaborators it calls: an undo list (each new step goes in front, so undo
 * replays in reverse order) and a redo list (each new step goes at the end).
 * A step is a small command object (`Op`); `Run` replays a list of them and,
 * by the choice of this model, stops at the first step that fails.
 * A successful edit pushes one labelled (undo, redo) entry on the history.
 *
 * `Consistent` is the invariant the registries keep between edits; the
 * lemmas below prove that each edit keeps it and that the entry it pushes
 * replays exactly: redo from the old state gives the new one, undo from the
 * new state gives the old one.
 */
module Edits {

  import opened Base
  import opened Placements

  /** A clip's track id when the clip is on no track. */
  const NoTrack := -1
  /** An item's parent id when the item is a root of the group forest. */
  const NoParent := -1

  /** What the timeline registry holds of a clip: its current track and its length in frames. */
  datatype Clip = Clip(trackId: int, playtime: nat)

  /** The state edits change and undo restores. */
  datatype State = State(
    order: seq<int>,                   // track ids in track order
    tracks: map<int, seq<Placement>>,  // track id -> the track's placements
    clips: map<int, Clip>,             // clip registry
    groups: set<int>,                  // registered group ids
    upLink: map<int, int>)             // group forest: item id -> parent group id or NoParent

  /** One reversible step. */
  datatype Op =
    | Place(tid: int, p: Placement)             // a track inserts a placement
    | Unplace(tid: int, cid: int)               // a track deletes a clip's placement
    | SetTrack(cid: int, tid: int)              // a clip's current track id is set
    | Reshape(cid: int, start: int, length: nat) // a clip takes a new extent (and its track's placement with it)
    | AddGroup(gid: int)                        // a new group enters the forest as a root
    | RemoveGroup(gid: int)                     // a group leaves the forest
    | Relink(links: map<int, int>)              // items get new parents

  /** One history entry: a label (its text) and the step lists undo and redo replay. */
  datatype Entry = Entry(text: string, undo: seq<Op>, redo: seq<Op>)

  function Apply(s: State, op: Op): Option<State>
  {
    match op
    case Place(tid, p) =>
      if tid in s.tracks && Fits(s.tracks[tid], p)
      then Some(s.(tracks := s.tracks[tid := Insert(s.tracks[tid], p)]))
      else None
    case Unplace(tid, cid) =>
      if tid in s.tracks && HasClip(s.tracks[tid], cid)
      then Some(s.(tracks := s.tracks[tid := Remove(s.tracks[tid], cid)]))
      else None
    case SetTrack(cid, tid) =>
      if cid in s.clips
      then Some(s.(clips := s.clips[cid := s.clips[cid].(trackId := tid)]))
      else None
    case Reshape(cid, start, length) =>
      if cid !in s.clips then None
      else
        var c := s.clips[cid];
        var clips' := s.clips[cid := c.(playtime := length)];
        if c.trackId == NoTrack then
          if 0 < length then Some(s.(clips := clips')) else None
        else if c.trackId in s.tracks && HasClip(s.tracks[c.trackId], cid)
                && Fits(Remove(s.tracks[c.trackId], cid), Placement(cid, start, length)) then
          var track' := Insert(Remove(s.tracks[c.trackId], cid), Placement(cid, start, length));
          Some(s.(tracks := s.tracks[c.trackId := track'], clips := clips'))
        else None
    case AddGroup(gid) =>
      if gid !in s.upLink
      then Some(s.(groups := s.groups + {gid}, upLink := s.upLink[gid := NoParent]))
      else None
    case RemoveGroup(gid) =>
      if gid in s.groups && gid in s.upLink
      then Some(s.(groups := s.groups - {gid}, upLink := s.upLink - {gid}))
      else None
    case Relink(links) =>
      if links.Keys <= s.upLink.Keys
      then Some(s.(upLink := s.upLink + links))
      else None
  }

  /** Replays ops from s, in order, stopping at the first step that fails. */
  function Run(s: State, ops: seq<Op>): Option<State>
    decreases |ops|
  {
    if ops == [] then Some(s)
    else match Apply(s, ops[0])
      case None => None
      case Some(s') => Run(s', ops[1..])
  }

  /** Replaying a + b is replaying a, then b from where a left off. */
  lemma {:induction false} RunAppend(s: State, a: seq<Op>, b: seq<Op>)
    decreases |a|
    ensures Run(s, a + b) == (match Run(s, a) case None => None case Some(t) => Run(t, b))
  {
    if a == [] {
      assert a + b == b;
    } else {
      assert (a + b)[0] == a[0] && (a + b)[1..] == a[1..] + b;
      match Apply(s, a[0])
      case None =>
      case Some(s') => RunAppend(s', a[1..], b);
    }
  }

  lemma RunOne(s: State, op: Op)
    ensures Run(s, [op]) == Apply(s, op)
  {
    assert [op][1..] == [];
  }

  lemma RunTwo(s: State, a: Op, b: Op)
    ensures Run(s, [a, b]) == (match Apply(s, a) case None => None case Some(t) => Apply(t, b))
  {
    assert [a, b][1..] == [b];
    RunOne(s, b);
    if Apply(s, a).Some? {
      RunOne(Apply(s, a).value, b);
    }
  }

  /** Each track keeps its placements ordered. */
  predicate TracksOrdered(s: State)
  {
    forall t :: t in s.tracks ==> Ordered(s.tracks[t])
  }

  /** A placement belongs to a registered clip that says it is on that track, with that length. */
  predicate PlacementsOwned(s: State)
  {
    forall t, p :: t in s.tracks && p in s.tracks[t] ==>
      p.cid in s.clips && s.clips[p.cid].trackId == t && s.clips[p.cid].playtime == p.length
  }

  /** A clip that says it is on a track is placed there. */
  predicate ClipsPlaced(s: State)
  {
    forall c :: c in s.clips && s.clips[c].trackId != NoTrack ==>
      s.clips[c].trackId in s.tracks && HasClip(s.tracks[s.clips[c].trackId], c)
  }

  /**
   * The sentinels are no ids, tracks are not group items, every clip is a
   * group item, and the other items are exactly the registered groups.
   */
  predicate IdsSeparate(s: State)
  {
    && NoTrack !in s.tracks && NoParent !in s.upLink
    && s.tracks.Keys !! s.upLink.Keys
    && s.clips.Keys <= s.upLink.Keys
    && s.groups == s.upLink.Keys - s.clips.Keys
  }

  /** Every clip lasts at least one frame. */
  predicate ClipsLast(s: State)
  {
    forall c :: c in s.clips ==> 0 < s.clips[c].playtime
  }

  /** A parent is a registered group with a larger id than its child, so the forest has no cycle. */
  predicate ForestRanked(s: State)
  {
    forall x :: x in s.upLink && s.upLink[x] != NoParent ==> s.upLink[x] in s.groups && x < s.upLink[x]
  }

  /** The invariant the registries keep between edits. */
  predicate Consistent(s: State)
  {
    TracksOrdered(s) && PlacementsOwned(s) && ClipsPlaced(s) && ClipsLast(s) && IdsSeparate(s) && ForestRanked(s)
  }

  /** On a consistent state a track holds one placement for each clip that says it is on that track. */
  lemma ClipsOnTrack(s: State, t: int)
    requires Consistent(s) && t in s.tracks
    ensures |s.tracks[t]| == |set c | c in s.clips && s.clips[c].trackId == t|
  {
    var ps := s.tracks[t];
    var cs := set c | c in s.clips && s.clips[c].trackId == t;
    forall c | c in cs ensures c in Cids(ps) {
      var q :| q in ps && q.cid == c;
    }
    assert Cids(ps) <= cs;
    assert cs == Cids(ps);
    OrderedCids(ps);
  }

  /**
   * An edit that changes one clip c only (its record, and its placement P
   * wherever it now lies) and leaves the groups alone keeps the registries
   * consistent, provided it keeps every track ordered.
   */
  lemma OneClipEdited(s: State, r: State, c: int, P: Placement)
    requires Consistent(s) && c in s.clips && P.cid == c
    requires r.upLink == s.upLink && r.groups == s.groups
    requires r.clips.Keys == s.clips.Keys && r.tracks.Keys == s.tracks.Keys
    requires TracksOrdered(r)
    requires forall x :: x in s.clips && x != c ==> r.clips[x] == s.clips[x]
    requires r.clips[c].playtime == P.length && 0 < P.length
    requires r.clips[c].trackId != NoTrack ==> r.clips[c].trackId in r.tracks && P in r.tracks[r.clips[c].trackId]
    requires forall t, p :: t in r.tracks && p in r.tracks[t] ==>
      (p in s.tracks[t] && p.cid != c) || (t == r.clips[c].trackId && p == P)
    requires forall t, p :: t in s.tracks && p in s.tracks[t] && p.cid != c ==> p in r.tracks[t]
    ensures Consistent(r)
  {
    forall x | x in r.clips && r.clips[x].trackId != NoTrack
      ensures r.clips[x].trackId in r.tracks && HasClip(r.tracks[r.clips[x].trackId], x)
    {
      if x != c {
        var t := s.clips[x].trackId;
        var q := PlacementOf(s.tracks[t], x);
        assert q in r.tracks[t];
      }
    }
  }

  /** Every id in use was handed out by a counter that now stands at next. */
  predicate IdsBelow(s: State, next: int)
  {
    && 0 <= next
    && (forall t :: t in s.tracks ==> 0 <= t < next)
    && (forall x :: x in s.upLink ==> 0 <= x < next)
  }

  // ---------------------------------------------------------------- queries

  /** Where a clip starts: the start of its placement, or -1 when it is on no track. */
  function ClipPosition(s: State, cid: int): int
    requires cid in s.clips
  {
    var t := s.clips[cid].trackId;
    if t in s.tracks && HasClip(s.tracks[t], cid) then PlacementOf(s.tracks[t], cid).start else -1
  }

  /** Clip cid is registered and, when it says it is on a track, that track holds it. */
  predicate OnItsTrack(s: State, cid: int)
  {
    && cid in s.clips
    && var t := s.clips[cid].trackId;
       t != NoTrack ==> t in s.tracks && HasClip(s.tracks[t], cid)
  }

  // ---------------------------------------------------------------- moving a clip

  /** The state once the clip's current track has deleted it; the clip's own track id is not touched yet. */
  function Detach(s: State, cid: int): State
    requires cid in s.clips
  {
    var t := s.clips[cid].trackId;
    if t != NoTrack && t in s.tracks then s.(tracks := s.tracks[t := Remove(s.tracks[t], cid)]) else s
  }

  /** The placement a move asks the target track for. */
  function Target(s: State, cid: int, pos: int): Placement
    requires cid in s.clips
  {
    Placement(cid, pos, s.clips[cid].playtime)
  }

  /** Whether the target track accepts the clip at pos once it is off its current track. */
  predicate MoveFits(s: State, cid: int, tid: int, pos: int)
    requires cid in s.clips
  {
    tid in s.tracks && Fits(Detach(s, cid).tracks[tid], Target(s, cid, pos))
  }

  /** The state after a successful move. */
  function Moved(s: State, cid: int, tid: int, pos: int): State
    requires cid in s.clips && MoveFits(s, cid, tid, pos)
  {
    var d := Detach(s, cid);
    d.(tracks := d.tracks[tid := Insert(d.tracks[tid], Target(s, cid, pos))],
       clips := d.clips[cid := d.clips[cid].(trackId := tid)])
  }

  /** The undo steps a move has gathered once its deletion step has run. */
  function Rollback(s: State, cid: int): seq<Op>
    requires OnItsTrack(s, cid)
  {
    var t := s.clips[cid].trackId;
    if t != NoTrack then [Place(t, PlacementOf(s.tracks[t], cid))] else []
  }

  function MoveUndo(s: State, cid: int, tid: int): seq<Op>
    requires OnItsTrack(s, cid)
  {
    [SetTrack(cid, s.clips[cid].trackId), Unplace(tid, cid)] + Rollback(s, cid)
  }

  function MoveRedo(s: State, cid: int, tid: int, pos: int): seq<Op>
    requires cid in s.clips
  {
    var t := s.clips[cid].trackId;
    (if t != NoTrack then [Unplace(t, cid)] else []) + [Place(tid, Target(s, cid, pos)), SetTrack(cid, tid)]
  }

  /** Running the undo gathered after the deletion step puts the clip back: the failed move leaves no trace. */
  lemma DetachUndone(s: State, cid: int)
    requires Consistent(s) && cid in s.clips
    ensures Run(Detach(s, cid), Rollback(s, cid)) == Some(s)
  {
    var t := s.clips[cid].trackId;
    if t != NoTrack {
      var q := PlacementOf(s.tracks[t], cid);
      RemovedFits(s.tracks[t], q);
      RemoveThenInsert(s.tracks[t], q);
      RunOne(Detach(s, cid), Place(t, q));
      assert s.tracks[t := Remove(s.tracks[t], cid)][t := s.tracks[t]] == s.tracks;
    }
  }

  /**
   * A move as a release build runs it: the rollback sits inside Q_ASSERT,
   * whose argument is not evaluated there, so a refused insertion leaves the
   * clip deleted from its old track.
   */
  function MoveAsReleased(s: State, cid: int, tid: int, pos: int): State
    requires cid in s.clips
  {
    if MoveFits(s, cid, tid, pos) then Moved(s, cid, tid, pos) else Detach(s, cid)
  }

  /** Two tracks, 10 and 11, each holding one clip over frames [0, 5): clip 1 on 10, clip 2 on 11. */
  function TwoTracks(): State
  {
    State([10, 11], map[10 := [Placement(1, 0, 5)], 11 := [Placement(2, 0, 5)]],
          map[1 := Clip(10, 5), 2 := Clip(11, 5)], {}, map[1 := NoParent, 2 := NoParent])
  }

  lemma TwoTracksConsistent()
    ensures Consistent(TwoTracks())
  {
    var s := TwoTracks();
    assert s.tracks.Keys == {10, 11} && s.clips.Keys == {1, 2} && s.upLink.Keys == {1, 2};
    assert TracksOrdered(s);
    assert PlacementsOwned(s);
    assert Placement(1, 0, 5) in s.tracks[10];
    assert Placement(2, 0, 5) in s.tracks[11];
    assert ClipsPlaced(s);
    assert IdsSeparate(s);
  }

  /**
   * A refused move in a release build breaks the registries: moving clip 1
   * onto clip 2 is refused, and clip 1 still says it is on track 10, which
   * no longer holds it.
   */
  lemma ReleasedMoveLosesClip()
    ensures Consistent(TwoTracks()) && !MoveFits(TwoTracks(), 1, 11, 0)
    ensures !Consistent(MoveAsReleased(TwoTracks(), 1, 11, 0))
  {
    var s := TwoTracks();
    TwoTracksConsistent();
    assert Placement(2, 0, 5) in Detach(s, 1).tracks[11];
    assert !Apart(Placement(2, 0, 5), Target(s, 1, 0));
    var r := MoveAsReleased(s, 1, 11, 0);
    assert r.tracks[10] == [];
  }

  /** Facts about the detached state that both the move and the undo rely on. */
  lemma DetachFacts(s: State, cid: int)
    requires Consistent(s) && cid in s.clips
    ensures Detach(s, cid).clips == s.clips && Detach(s, cid).tracks.Keys == s.tracks.Keys
    ensures forall t :: t in s.tracks ==> Ordered(Detach(s, cid).tracks[t]) && !HasClip(Detach(s, cid).tracks[t], cid)
    ensures forall t, p :: t in s.tracks ==> (p in Detach(s, cid).tracks[t] <==> p in s.tracks[t] && p.cid != cid)
  {
    var d := Detach(s, cid);
    var t0 := s.clips[cid].trackId;
    forall t | t in s.tracks
      ensures Ordered(d.tracks[t]) && !HasClip(d.tracks[t], cid)
      ensures forall p :: p in d.tracks[t] <==> p in s.tracks[t] && p.cid != cid
    {
      if t == t0 {
        RemoveKeepsOrder(s.tracks[t], cid);
      } else {
        forall p | p in s.tracks[t] ensures p.cid != cid { }
      }
    }
  }

  /** The deletion step of a move: the clip's current track deletes it, and the reverse step is the rollback. */
  lemma DetachStep(s: State, cid: int)
    requires Consistent(s) && cid in s.clips
    ensures var t0 := s.clips[cid].trackId;
      if t0 == NoTrack then Detach(s, cid) == s && Rollback(s, cid) == []
      else && t0 in s.tracks && HasClip(s.tracks[t0], cid)
           && Apply(s, Unplace(t0, cid)) == Some(Detach(s, cid))
           && Rollback(s, cid) == [Place(t0, PlacementOf(s.tracks[t0], cid))]
  {
  }

  /**
   * The insertion step of a move and the clip's own step after it give the
   * moved state, which is consistent and uses no new id.
   */
  lemma MoveStep(s: State, cid: int, tid: int, pos: int, next: int)
    requires Consistent(s) && IdsBelow(s, next) && cid in s.clips && MoveFits(s, cid, tid, pos)
    ensures var d := Detach(s, cid);
      && Apply(d, Place(tid, Target(s, cid, pos))).Some?
      && var e := Apply(d, Place(tid, Target(s, cid, pos))).value;
         && cid in e.clips
         && e.(clips := e.clips[cid := e.clips[cid].(trackId := tid)]) == Moved(s, cid, tid, pos)
    ensures Consistent(Moved(s, cid, tid, pos)) && IdsBelow(Moved(s, cid, tid, pos), next)
  {
    MoveFacts(s, cid, tid, pos);
    MoveKeepsConsistent(s, cid, tid, pos);
  }

  /** The step lists a successful move has gathered are its history entry's undo and redo. */
  lemma MoveLists(s: State, cid: int, tid: int, pos: int)
    requires OnItsTrack(s, cid)
    ensures var t0 := s.clips[cid].trackId;
      && [SetTrack(cid, t0)] + ([Unplace(tid, cid)] + Rollback(s, cid)) == MoveUndo(s, cid, tid)
      && ((if t0 != NoTrack then [Unplace(t0, cid)] else []) + [Place(tid, Target(s, cid, pos))]) + [SetTrack(cid, tid)]
         == MoveRedo(s, cid, tid, pos)
  {
  }

  /** What a move does to each field of the state. */
  lemma MoveFacts(s: State, cid: int, tid: int, pos: int)
    requires Consistent(s) && cid in s.clips && MoveFits(s, cid, tid, pos)
    ensures var r := Moved(s, cid, tid, pos);
      && r.order == s.order && r.groups == s.groups && r.upLink == s.upLink
      && r.tracks.Keys == s.tracks.Keys
      && r.clips == s.clips[cid := Clip(tid, s.clips[cid].playtime)]
      && TracksOrdered(r)
      && (forall t, p :: t in s.tracks ==>
            (p in r.tracks[t] <==> (p in s.tracks[t] && p.cid != cid) || (t == tid && p == Target(s, cid, pos))))
  {
    DetachFacts(s, cid);
    MoveOrders(s, cid, tid, pos);
    MoveMembers(s, cid, tid, pos);
  }

  lemma MoveOrders(s: State, cid: int, tid: int, pos: int)
    requires Consistent(s) && cid in s.clips && MoveFits(s, cid, tid, pos)
    requires forall t :: t in s.tracks ==> Ordered(Detach(s, cid).tracks[t])
    ensures TracksOrdered(Moved(s, cid, tid, pos))
  {
    var d := Detach(s, cid);
    var P := Target(s, cid, pos);
    var r := Moved(s, cid, tid, pos);
    assert r.tracks == d.tracks[tid := Insert(d.tracks[tid], P)];
    InsertKeepsOrder(d.tracks[tid], P);
    forall t | t in r.tracks
      ensures Ordered(r.tracks[t])
    {
      if t != tid {
        assert r.tracks[t] == d.tracks[t];
      }
    }
  }

  lemma MoveMembers(s: State, cid: int, tid: int, pos: int)
    requires cid in s.clips && MoveFits(s, cid, tid, pos)
    requires Detach(s, cid).tracks.Keys == s.tracks.Keys
    requires forall t, p :: t in s.tracks ==> (p in Detach(s, cid).tracks[t] <==> p in s.tracks[t] && p.cid != cid)
    ensures forall t, p :: t in s.tracks ==>
      (p in Moved(s, cid, tid, pos).tracks[t] <==> (p in s.tracks[t] && p.cid != cid) || (t == tid && p == Target(s, cid, pos)))
  {
    forall t | t in s.tracks
      ensures forall p ::
        p in Moved(s, cid, tid, pos).tracks[t] <==> (p in s.tracks[t] && p.cid != cid) || (t == tid && p == Target(s, cid, pos))
    {
      forall p
        ensures p in Moved(s, cid, tid, pos).tracks[t] <==> (p in s.tracks[t] && p.cid != cid) || (t == tid && p == Target(s, cid, pos))
      {
        MovedMember(s, cid, tid, pos, t, p);
      }
    }
  }

  lemma MovedMember(s: State, cid: int, tid: int, pos: int, t: int, p: Placement)
    requires cid in s.clips && MoveFits(s, cid, tid, pos) && t in s.tracks
    requires Detach(s, cid).tracks.Keys == s.tracks.Keys
    requires p in Detach(s, cid).tracks[t] <==> p in s.tracks[t] && p.cid != cid
    ensures p in Moved(s, cid, tid, pos).tracks[t] <==> (p in s.tracks[t] && p.cid != cid) || (t == tid && p == Target(s, cid, pos))
  {
    var d := Detach(s, cid);
    var P := Target(s, cid, pos);
    assert Moved(s, cid, tid, pos).tracks == d.tracks[tid := Insert(d.tracks[tid], P)];
    if t == tid {
      InsertMember(d.tracks[tid], P, p);
    }
  }

  /** A move keeps the registries consistent. */
  lemma MoveKeepsConsistent(s: State, cid: int, tid: int, pos: int)
    requires Consistent(s) && cid in s.clips && MoveFits(s, cid, tid, pos)
    ensures Consistent(Moved(s, cid, tid, pos))
  {
    MoveFacts(s, cid, tid, pos);
    OneClipEdited(s, Moved(s, cid, tid, pos), cid, Target(s, cid, pos));
  }

  /** Replaying a move's redo steps from the old state gives the moved state. */
  lemma MoveRedoRuns(s: State, cid: int, tid: int, pos: int)
    requires cid in s.clips && MoveFits(s, cid, tid, pos)
    requires var t0 := s.clips[cid].trackId; t0 != NoTrack ==> t0 in s.tracks && HasClip(s.tracks[t0], cid)
    ensures Run(s, MoveRedo(s, cid, tid, pos)) == Some(Moved(s, cid, tid, pos))
  {
    var t0 := s.clips[cid].trackId;
    var d := Detach(s, cid);
    var P := Target(s, cid, pos);
    var unplace: seq<Op> := if t0 != NoTrack then [Unplace(t0, cid)] else [];
    RunAppend(s, unplace, [Place(tid, P), SetTrack(cid, tid)]);
    if t0 != NoTrack {
      RunOne(s, Unplace(t0, cid));
    }
    assert Run(s, unplace) == Some(d);
    RunTwo(d, Place(tid, P), SetTrack(cid, tid));
  }

  /** Replaying a move's undo steps from the moved state gives back the old state. */
  lemma MoveUndoRuns(s: State, cid: int, tid: int, pos: int)
    requires Consistent(s) && cid in s.clips && MoveFits(s, cid, tid, pos)
    ensures Run(Moved(s, cid, tid, pos), MoveUndo(s, cid, tid)) == Some(s)
  {
    var t0 := s.clips[cid].trackId;
    RunAppend(Moved(s, cid, tid, pos), [SetTrack(cid, t0), Unplace(tid, cid)], Rollback(s, cid));
    MoveLifted(s, cid, tid, pos);
    DetachUndone(s, cid);
  }

  /** The first two undo steps of a move take the clip back off the target track. */
  lemma MoveLifted(s: State, cid: int, tid: int, pos: int)
    requires Consistent(s) && cid in s.clips && MoveFits(s, cid, tid, pos)
    ensures Run(Moved(s, cid, tid, pos), [SetTrack(cid, s.clips[cid].trackId), Unplace(tid, cid)]) == Some(Detach(s, cid))
  {
    var t0 := s.clips[cid].trackId;
    var d := Detach(s, cid);
    var P := Target(s, cid, pos);
    var r := Moved(s, cid, tid, pos);
    var e := d.(tracks := d.tracks[tid := Insert(d.tracks[tid], P)]);
    DetachFacts(s, cid);
    RunTwo(r, SetTrack(cid, t0), Unplace(tid, cid));
    PutBack(d.clips, cid, d.clips[cid].(trackId := tid));
    assert Apply(r, SetTrack(cid, t0)) == Some(e);
    InsertThenRemove(d.tracks[tid], P);
    PutBack(d.tracks, tid, Insert(d.tracks[tid], P));
    assert Apply(e, Unplace(tid, cid)) == Some(d) by {
      assert P in multiset(e.tracks[tid]);
    }
  }

  /** A successful move's history entry replays exactly: redo from the old state, undo from the new one. */
  lemma MoveReplays(s: State, cid: int, tid: int, pos: int)
    requires Consistent(s) && cid in s.clips && MoveFits(s, cid, tid, pos)
    ensures Run(s, MoveRedo(s, cid, tid, pos)) == Some(Moved(s, cid, tid, pos))
    ensures Run(Moved(s, cid, tid, pos), MoveUndo(s, cid, tid)) == Some(s)
  {
    MoveRedoRuns(s, cid, tid, pos);
    MoveUndoRuns(s, cid, tid, pos);
  }

  /** A clip whose placement is still on its track keeps its position. */
  lemma PositionKept(s: State, r: State, c: int)
    requires Consistent(s) && Consistent(r) && c in s.clips && c in r.clips
    requires r.clips[c] == s.clips[c] && r.tracks.Keys == s.tracks.Keys
    requires forall t, p :: t in s.tracks && p in s.tracks[t] && p.cid == c ==> p in r.tracks[t]
    ensures ClipPosition(r, c) == ClipPosition(s, c)
  {
    var t := s.clips[c].trackId;
    if t != NoTrack {
      var q := PlacementOf(s.tracks[t], c);
      PlacementUnique(r.tracks[t], q);
    }
  }

  /** After a move the clip is on the target track, at the target position, and no other clip changed. */
  lemma MoveEffect(s: State, cid: int, tid: int, pos: int)
    requires Consistent(s) && cid in s.clips && MoveFits(s, cid, tid, pos)
    ensures var r := Moved(s, cid, tid, pos);
      && r.clips.Keys == s.clips.Keys && r.tracks.Keys == s.tracks.Keys && r.order == s.order
      && r.clips[cid].trackId == tid && ClipPosition(r, cid) == pos
      && (forall c :: c in s.clips && c != cid ==> r.clips[c] == s.clips[c] && ClipPosition(r, c) == ClipPosition(s, c))
      && r.groups == s.groups && r.upLink == s.upLink
  {
    var r := Moved(s, cid, tid, pos);
    var P := Target(s, cid, pos);
    MoveFacts(s, cid, tid, pos);
    MoveKeepsConsistent(s, cid, tid, pos);
    PlacementUnique(r.tracks[tid], P);
    forall c | c in s.clips && c != cid
      ensures ClipPosition(r, c) == ClipPosition(s, c)
    {
      PositionKept(s, r, c);
    }
  }

  /** Lifting a just-moved clip off its new track gives the detached state of the old one. */
  lemma DetachMoved(s: State, cid: int, tid: int, pos: int)
    requires Consistent(s) && cid in s.clips && MoveFits(s, cid, tid, pos)
    ensures var m := Moved(s, cid, tid, pos);
      cid in m.clips && Detach(m, cid) == Detach(s, cid).(clips := m.clips)
  {
    var d := Detach(s, cid);
    var P := Target(s, cid, pos);
    var m := Moved(s, cid, tid, pos);
    DetachFacts(s, cid);
    InsertThenRemove(d.tracks[tid], P);
    assert m.tracks[tid := Remove(m.tracks[tid], cid)] == d.tracks;
  }

  /** Moving a placed clip and then moving it back to where it was restores the state. */
  lemma MoveBack(s: State, cid: int, tid: int, pos: int)
    requires Consistent(s) && cid in s.clips && s.clips[cid].trackId != NoTrack
    requires MoveFits(s, cid, tid, pos)
    ensures var t0 := s.clips[cid].trackId;
      var back := PlacementOf(s.tracks[t0], cid).start;
      var m := Moved(s, cid, tid, pos);
      cid in m.clips && MoveFits(m, cid, t0, back) && Moved(m, cid, t0, back) == s
  {
    var t0 := s.clips[cid].trackId;
    var q := PlacementOf(s.tracks[t0], cid);
    var d := Detach(s, cid);
    var m := Moved(s, cid, tid, pos);
    MoveFacts(s, cid, tid, pos);
    DetachMoved(s, cid, tid, pos);
    var dm := Detach(m, cid);
    assert dm.tracks == d.tracks && dm.clips == m.clips;
    assert d.tracks == s.tracks[t0 := Remove(s.tracks[t0], cid)];
    assert Target(m, cid, q.start) == q;
    RemovedFits(s.tracks[t0], q);
    assert MoveFits(m, cid, t0, q.start);
    RemoveThenInsert(s.tracks[t0], q);
    MoveBackEquals(s, m, dm, cid, t0, q);
  }

  lemma MoveBackEquals(s: State, m: State, dm: State, cid: int, t0: int, q: Placement)
    requires cid in m.clips && cid in s.clips && s.clips[cid].trackId == t0 && t0 in s.tracks
    requires MoveFits(m, cid, t0, q.start) && Detach(m, cid) == dm && Target(m, cid, q.start) == q
    requires dm.order == s.order && dm.groups == s.groups && dm.upLink == s.upLink
    requires dm.tracks == s.tracks[t0 := Remove(s.tracks[t0], cid)] && Insert(Remove(s.tracks[t0], cid), q) == s.tracks[t0]
    requires dm.clips == s.clips[cid := Clip(dm.clips[cid].trackId, s.clips[cid].playtime)]
    ensures Moved(m, cid, t0, q.start) == s
  {
    var b := Moved(m, cid, t0, q.start);
    assert b == dm.(tracks := dm.tracks[t0 := Insert(dm.tracks[t0], q)], clips := dm.clips[cid := dm.clips[cid].(trackId := t0)]);
    TrackPutBack(s.tracks, dm.tracks, t0, Insert(dm.tracks[t0], q));
    ClipPutBack(s.clips, dm.clips, cid, t0);
  }

  lemma TrackPutBack(ts: map<int, seq<Placement>>, d: map<int, seq<Placement>>, t: int, x: seq<Placement>)
    requires t in ts && d.Keys == ts.Keys && x == ts[t]
    requires forall u :: u in ts && u != t ==> d[u] == ts[u]
    ensures d[t := x] == ts
  {
    assert d[t := x].Keys == ts.Keys;
    forall u | u in ts ensures d[t := x][u] == ts[u] {
      if u != t {
        assert d[u] == ts[u];
      }
    }
  }

  lemma ClipPutBack(cs: map<int, Clip>, d: map<int, Clip>, cid: int, t: int)
    requires cid in cs && cs[cid].trackId == t && d.Keys == cs.Keys && d[cid].playtime == cs[cid].playtime
    requires forall x :: x in cs && x != cid ==> d[x] == cs[x]
    ensures d[cid := d[cid].(trackId := t)] == cs
  {
    forall x | x in cs ensures d[cid := d[cid].(trackId := t)][x] == cs[x] {
      if x != cid {
        assert d[x] == cs[x];
      }
    }
  }

  // ---------------------------------------------------------------- resizing a clip

  /** The extent a resize to size frames asks for: at the right the start stays, at the left the end stays. */
  function Resized(p: Placement, size: nat, right: bool): (q: Placement)
    ensures q.cid == p.cid && q.length == size
    ensures right ==> q.start == p.start
    ensures !right ==> End(q) == End(p)
  {
    if right then Placement(p.cid, p.start, size) else Placement(p.cid, End(p) - size, size)
  }

  /** The placement a resize asks the clip's track for (its start is 0 when the clip is on no track). */
  function ResizeTarget(s: State, cid: int, size: nat, right: bool): Placement
    requires OnItsTrack(s, cid)
  {
    var t := s.clips[cid].trackId;
    if t == NoTrack then Placement(cid, 0, size) else Resized(PlacementOf(s.tracks[t], cid), size, right)
  }

  /**
   * Whether a resize can be done: the clip keeps at least one frame and, on a
   * track, its new extent starts at or after frame 0 and overlaps no other clip.
   */
  predicate ResizeFits(s: State, cid: int, size: nat, right: bool)
    requires OnItsTrack(s, cid)
  {
    var t := s.clips[cid].trackId;
    if t == NoTrack then 0 < size else Fits(Remove(s.tracks[t], cid), ResizeTarget(s, cid, size, right))
  }

  /** The state after a successful resize. */
  function Reshaped(s: State, cid: int, size: nat, right: bool): State
    requires OnItsTrack(s, cid)
  {
    var t := s.clips[cid].trackId;
    var clips' := s.clips[cid := s.clips[cid].(playtime := size)];
    if t == NoTrack then s.(clips := clips')
    else s.(tracks := s.tracks[t := Insert(Remove(s.tracks[t], cid), ResizeTarget(s, cid, size, right))], clips := clips')
  }

  function ResizeRedo(s: State, cid: int, size: nat, right: bool): seq<Op>
    requires OnItsTrack(s, cid)
  {
    [Reshape(cid, ResizeTarget(s, cid, size, right).start, size)]
  }

  function ResizeUndo(s: State, cid: int): seq<Op>
    requires OnItsTrack(s, cid)
  {
    var t := s.clips[cid].trackId;
    var start := if t == NoTrack then 0 else PlacementOf(s.tracks[t], cid).start;
    [Reshape(cid, start, s.clips[cid].playtime)]
  }

  /** A resize's redo succeeds exactly when the resize fits, and then gives the reshaped state. */
  lemma ResizeRedoRuns(s: State, cid: int, size: nat, right: bool)
    requires OnItsTrack(s, cid)
    ensures Run(s, ResizeRedo(s, cid, size, right)) == if ResizeFits(s, cid, size, right) then Some(Reshaped(s, cid, size, right)) else None
  {
    RunOne(s, Reshape(cid, ResizeTarget(s, cid, size, right).start, size));
  }

  /** What a resize on a track does to that track. */
  lemma ResizeFacts(s: State, cid: int, size: nat, right: bool)
    requires Consistent(s) && cid in s.clips && s.clips[cid].trackId != NoTrack && ResizeFits(s, cid, size, right)
    ensures var t := s.clips[cid].trackId;
      var r := Reshaped(s, cid, size, right);
      && r.tracks.Keys == s.tracks.Keys
      && TracksOrdered(r)
      && (forall u :: u in s.tracks && u != t ==> r.tracks[u] == s.tracks[u])
      && (forall p :: p in r.tracks[t] <==> (p in s.tracks[t] && p.cid != cid) || p == ResizeTarget(s, cid, size, right))
  {
    var t := s.clips[cid].trackId;
    var r := Reshaped(s, cid, size, right);
    var nq := ResizeTarget(s, cid, size, right);
    RemoveKeepsOrder(s.tracks[t], cid);
    InsertKeepsOrder(Remove(s.tracks[t], cid), nq);
    forall p ensures p in r.tracks[t] <==> (p in s.tracks[t] && p.cid != cid) || p == nq {
      assert p in r.tracks[t] <==> p in multiset(r.tracks[t]);
    }
  }

  /** A resize keeps the registries consistent. */
  lemma ResizeKeepsConsistent(s: State, cid: int, size: nat, right: bool)
    requires Consistent(s) && cid in s.clips && ResizeFits(s, cid, size, right)
    ensures Consistent(Reshaped(s, cid, size, right))
  {
    var r := Reshaped(s, cid, size, right);
    var nq := ResizeTarget(s, cid, size, right);
    if s.clips[cid].trackId != NoTrack {
      ResizeFacts(s, cid, size, right);
    }
    OneClipEdited(s, r, cid, nq);
  }

  /** A resize keeps the registries consistent and uses no new id. */
  lemma ResizeStep(s: State, cid: int, size: nat, right: bool, next: int)
    requires Consistent(s) && IdsBelow(s, next) && cid in s.clips && ResizeFits(s, cid, size, right)
    ensures Consistent(Reshaped(s, cid, size, right)) && IdsBelow(Reshaped(s, cid, size, right), next)
  {
    ResizeKeepsConsistent(s, cid, size, right);
  }

  /** Replaying a resize's undo steps from the reshaped state gives back the old state. */
  lemma ResizeUndoRuns(s: State, cid: int, size: nat, right: bool)
    requires Consistent(s) && cid in s.clips && ResizeFits(s, cid, size, right)
    ensures Run(Reshaped(s, cid, size, right), ResizeUndo(s, cid)) == Some(s)
  {
    var t := s.clips[cid].trackId;
    var r := Reshaped(s, cid, size, right);
    var undo := ResizeUndo(s, cid);
    RunOne(r, undo[0]);
    assert r.clips[cid := r.clips[cid].(playtime := s.clips[cid].playtime)] == s.clips;
    if t != NoTrack {
      ResizeUndoOnTrack(s, cid, size, right);
    }
  }

  lemma ResizeUndoOnTrack(s: State, cid: int, size: nat, right: bool)
    requires OnItsTrack(s, cid) && s.clips[cid].trackId != NoTrack && ResizeFits(s, cid, size, right)
    requires Ordered(s.tracks[s.clips[cid].trackId])
    requires PlacementOf(s.tracks[s.clips[cid].trackId], cid).length == s.clips[cid].playtime
    ensures Apply(Reshaped(s, cid, size, right), ResizeUndo(s, cid)[0]) == Some(s)
  {
    var t := s.clips[cid].trackId;
    var r := Reshaped(s, cid, size, right);
    var tr := s.tracks[t];
    var q := PlacementOf(tr, cid);
    var nq := ResizeTarget(s, cid, size, right);
    assert r.tracks == s.tracks[t := Insert(Remove(tr, cid), nq)];
    ReplaceThenRemove(tr, nq);
    RemovedFits(tr, q);
    RemoveThenInsert(tr, q);
    assert ResizeUndo(s, cid)[0] == Reshape(cid, q.start, q.length);
    assert q == Placement(cid, q.start, q.length);
    assert Fits(Remove(r.tracks[t], cid), q);
    assert r.clips[cid].trackId == t;
    var back := r.(tracks := r.tracks[t := tr], clips := r.clips[cid := r.clips[cid].(playtime := q.length)]);
    assert Apply(r, Reshape(cid, q.start, q.length)) == Some(back);
    PutBack(s.tracks, t, Insert(Remove(tr, cid), nq));
    assert r.clips == s.clips[cid := s.clips[cid].(playtime := size)];
    PutBack(s.clips, cid, s.clips[cid].(playtime := size));
  }

  /** Writing a key's old value back over a new one gives back the map. */
  lemma PutBack<K, V>(m: map<K, V>, k: K, x: V)
    requires k in m
    ensures m[k := x][k := m[k]] == m
  {
  }

  /** A resize changes the clip's length and keeps its start (right) or its end (left); no other clip moves. */
  lemma ResizeEffect(s: State, cid: int, size: nat, right: bool)
    requires Consistent(s) && cid in s.clips && ResizeFits(s, cid, size, right)
    ensures var r := Reshaped(s, cid, size, right);
      && r.clips.Keys == s.clips.Keys && r.clips[cid] == Clip(s.clips[cid].trackId, size)
      && (s.clips[cid].trackId != NoTrack ==>
            var q := PlacementOf(s.tracks[s.clips[cid].trackId], cid);
            if right then ClipPosition(r, cid) == q.start else ClipPosition(r, cid) + size == End(q))
      && (forall c :: c in s.clips && c != cid ==> r.clips[c] == s.clips[c] && ClipPosition(r, c) == ClipPosition(s, c))
  {
    var r := Reshaped(s, cid, size, right);
    ResizeKeepsConsistent(s, cid, size, right);
    if s.clips[cid].trackId != NoTrack {
      ResizeFacts(s, cid, size, right);
      PlacementUnique(r.tracks[s.clips[cid].trackId], ResizeTarget(s, cid, size, right));
    }
    forall c | c in s.clips && c != cid
      ensures ClipPosition(r, c) == ClipPosition(s, c)
    {
      PositionKept(s, r, c);
    }
  }

  // ---------------------------------------------------------------- groups

  /** Grouping needs a non-empty set of known items. */
  predicate GroupFits(s: State, ids: set<int>)
  {
    ids != {} && ids <= s.upLink.Keys
  }

  /** The state after ids are grouped under the new group gid, which becomes a registered root. */
  function Grouped(s: State, ids: set<int>, gid: int): State
  {
    s.(groups := s.groups + {gid}, upLink := s.upLink[gid := NoParent] + map x | x in ids :: gid)
  }

  function GroupRedo(ids: set<int>, gid: int): seq<Op>
  {
    [AddGroup(gid), Relink(map x | x in ids :: gid)]
  }

  function GroupUndo(s: State, ids: set<int>, gid: int): seq<Op>
    requires ids <= s.upLink.Keys
  {
    [Relink(map x | x in ids :: s.upLink[x]), RemoveGroup(gid)]
  }

  /**
   * Grouping under a fresh id (one above every id in use) keeps the registries
   * consistent and puts every item of the set, and no other, under the new group.
   */
  lemma GroupKeepsConsistent(s: State, ids: set<int>, gid: int)
    requires Consistent(s) && 0 <= gid && IdsBelow(s, gid) && GroupFits(s, ids)
    ensures var g := Grouped(s, ids, gid);
      && Consistent(g) && IdsBelow(g, gid + 1)
      && gid in g.groups && g.upLink[gid] == NoParent
      && (forall x :: x in ids ==> g.upLink[x] == gid)
      && (forall x :: x in s.upLink && x !in ids ==> g.upLink[x] == s.upLink[x])
      && g.tracks == s.tracks && g.clips == s.clips
  {
    GroupedForest(s, ids, gid);
  }

  lemma GroupedForest(s: State, ids: set<int>, gid: int)
    requires IdsSeparate(s) && ForestRanked(s) && 0 <= gid && IdsBelow(s, gid) && GroupFits(s, ids)
    ensures IdsSeparate(Grouped(s, ids, gid)) && ForestRanked(Grouped(s, ids, gid))
  {
    var g := Grouped(s, ids, gid);
    assert gid !in s.upLink && gid !in s.tracks;
    assert g.upLink.Keys == s.upLink.Keys + {gid};
    forall x | x in g.upLink && g.upLink[x] != NoParent
      ensures g.upLink[x] in g.groups && x < g.upLink[x]
    {
      if x !in ids {
        assert x in s.upLink && x != gid;
      }
    }
  }

  /** Replaying a grouping's redo steps gives the grouped state. */
  lemma GroupRedoRuns(s: State, ids: set<int>, gid: int)
    requires IdsBelow(s, gid) && GroupFits(s, ids)
    ensures Run(s, GroupRedo(ids, gid)) == Some(Grouped(s, ids, gid))
  {
    var links := map x | x in ids :: gid;
    RunTwo(s, AddGroup(gid), Relink(links));
    var a := s.(groups := s.groups + {gid}, upLink := s.upLink[gid := NoParent]);
    assert gid !in s.upLink;
    assert Apply(s, AddGroup(gid)) == Some(a);
    assert links.Keys <= a.upLink.Keys;
  }

  /** Replaying a grouping's undo steps from the grouped state gives back the old state. */
  lemma GroupUndoRuns(s: State, ids: set<int>, gid: int)
    requires IdsSeparate(s) && IdsBelow(s, gid) && GroupFits(s, ids)
    ensures Run(Grouped(s, ids, gid), GroupUndo(s, ids, gid)) == Some(s)
  {
    var g := Grouped(s, ids, gid);
    var a := s.(groups := s.groups + {gid}, upLink := s.upLink[gid := NoParent]);
    var back := map x | x in ids :: s.upLink[x];
    RunTwo(g, Relink(back), RemoveGroup(gid));
    assert gid !in s.upLink && gid !in s.groups;
    assert back.Keys <= g.upLink.Keys;
    assert g.upLink + back == a.upLink;
    assert a.upLink - {gid} == s.upLink;
    assert a.groups - {gid} == s.groups;
  }

  /** A grouping's history entry replays exactly: redo from the old state, undo from the grouped one. */
  lemma GroupReplays(s: State, ids: set<int>, gid: int)
    requires Consistent(s) && IdsBelow(s, gid) && GroupFits(s, ids)
    ensures Run(s, GroupRedo(ids, gid)) == Some(Grouped(s, ids, gid))
    ensures Run(Grouped(s, ids, gid), GroupUndo(s, ids, gid)) == Some(s)
  {
    GroupRedoRuns(s, ids, gid);
    GroupUndoRuns(s, ids, gid);
  }

  /** Ungrouping needs an item that has a parent. */
  predicate UngroupFits(s: State, id: int)
  {
    id in s.upLink && s.upLink[id] != NoParent
  }

  function Ungrouped(s: State, id: int): State
  {
    s.(upLink := s.upLink[id := NoParent])
  }

  function UngroupRedo(id: int): seq<Op>
  {
    [Relink(map[id := NoParent])]
  }

  function UngroupUndo(s: State, id: int): seq<Op>
    requires id in s.upLink
  {
    [Relink(map[id := s.upLink[id]])]
  }

  /** Ungrouping makes the item a root, changes no other item and keeps the registries consistent. */
  lemma UngroupKeepsConsistent(s: State, id: int)
    requires Consistent(s) && UngroupFits(s, id)
    ensures var u := Ungrouped(s, id);
      && Consistent(u) && u.upLink[id] == NoParent
      && (forall x :: x in s.upLink && x != id ==> u.upLink[x] == s.upLink[x])
      && u.tracks == s.tracks && u.clips == s.clips && u.groups == s.groups
  {
  }

  /** An ungrouping's history entry replays exactly: redo from the old state, undo from the new one. */
  lemma UngroupReplays(s: State, id: int)
    requires UngroupFits(s, id)
    ensures Run(s, UngroupRedo(id)) == Some(Ungrouped(s, id))
    ensures Run(Ungrouped(s, id), UngroupUndo(s, id)) == Some(s)
  {
    var u := Ungrouped(s, id);
    RunOne(s, Relink(map[id := NoParent]));
    RunOne(u, Relink(map[id := s.upLink[id]]));
    assert s.upLink + map[id := NoParent] == u.upLink;
    assert u.upLink + map[id := s.upLink[id]] == s.upLink;
  }

  /** Grouping a set and then ungrouping one member frees that member only: the others stay in the group. */
  lemma UngroupOneMember(s: State, ids: set<int>, gid: int, x: int)
    requires Consistent(s) && 0 <= gid && IdsBelow(s, gid) && GroupFits(s, ids) && x in ids
    ensures var g := Grouped(s, ids, gid);
      && UngroupFits(g, x)
      && Ungrouped(g, x).upLink[x] == NoParent
      && (forall y :: y in ids && y != x ==> Ungrouped(g, x).upLink[y] == gid)
  {
    GroupKeepsConsistent(s, ids, gid);
  }

  /** The k-th ancestor of item x in the group forest, NoParent once the chain runs out. */
  function Ancestor(up: map<int, int>, x: int, k: nat): int
    decreases k
  {
    if k == 0 then x
    else if x in up && up[x] != NoParent then Ancestor(up, up[x], k - 1)
    else NoParent
  }

  /** Every ancestor of an item has a larger id than the item: no item is its own ancestor. */
  lemma {:induction false} AncestorAbove(s: State, x: int, k: nat)
    decreases k
    requires Consistent(s) && 0 < k && Ancestor(s.upLink, x, k) != NoParent
    ensures Ancestor(s.upLink, x, k) > x
  {
    var y := s.upLink[x];
    if k > 1 {
      assert Ancestor(s.upLink, y, k - 1) != NoParent;
      AncestorAbove(s, y, k - 1);
    }
  }

}
