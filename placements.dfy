/**
 * The clip placements of one timeline track.
 *
 * A track keeps its clips as a sequence of placements sorted by start frame.
 * Two placements on the same track never share a frame and no clip is placed
 * twice; an insertion that would break this is refused and changes nothing.
 * The track's own code is not part of this model: these functions are the
 * contract its insertion, deletion and resize requests are held to here.
 */
module Placements {

  /** One clip laid on a track: the clip's id and the frames [start, start + length) it covers. */
  datatype Placement = Placement(cid: int, start: int, length: nat)

  function End(p: Placement): int
  {
    p.start + p.length
  }

  /** A placement a track can hold: it starts at or after frame 0 and covers at least one frame. */
  predicate Sound(p: Placement)
  {
    0 <= p.start && 0 < p.length
  }

  /** p and q share no frame. */
  predicate Apart(p: Placement, q: Placement)
  {
    End(p) <= q.start || End(q) <= p.start
  }

  predicate HasClip(s: seq<Placement>, cid: int)
  {
    exists p :: p in s && p.cid == cid
  }

  /** The track invariant: sound placements, sorted by start, pairwise apart, each clip at most once. */
  predicate Ordered(s: seq<Placement>)
  {
    && (forall p :: p in s ==> Sound(p))
    && (forall i, j :: 0 <= i < j < |s| ==> End(s[i]) <= s[j].start && s[i].cid != s[j].cid)
  }

  /** Whether a track holding s accepts p: p is sound, its clip is not there yet and it overlaps nothing. */
  predicate Fits(s: seq<Placement>, p: Placement)
  {
    Sound(p) && !HasClip(s, p.cid) && forall q :: q in s ==> Apart(q, p)
  }

  /** s with p put in front of the first placement that starts at or after p's end. */
  function Insert(s: seq<Placement>, p: Placement): (r: seq<Placement>)
    ensures multiset(r) == multiset(s) + multiset{p}
  {
    if s == [] || End(p) <= s[0].start then [p] + s
    else
      assert s == [s[0]] + s[1..];
      [s[0]] + Insert(s[1..], p)
  }

  /** s without the first placement of clip cid. */
  function Remove(s: seq<Placement>, cid: int): (r: seq<Placement>)
    ensures forall q :: q in r ==> q in s
    ensures !HasClip(s, cid) ==> r == s
    ensures HasClip(s, cid) ==> |r| == |s| - 1
  {
    if s == [] then []
    else if s[0].cid == cid then s[1..]
    else
      assert forall q :: q in s[1..] ==> q in s;
      [s[0]] + Remove(s[1..], cid)
  }

  /** The placement of clip cid on a track holding s. */
  function PlacementOf(s: seq<Placement>, cid: int): (p: Placement)
    requires HasClip(s, cid)
    ensures p in s && p.cid == cid
  {
    if s[0].cid == cid then s[0]
    else
      assert HasClip(s[1..], cid) by {
        var q :| q in s && q.cid == cid;
        assert q in s[1..];
      }
      PlacementOf(s[1..], cid)
  }

  /** The clips a track holding s places. */
  function Cids(s: seq<Placement>): set<int>
  {
    set q | q in s :: q.cid
  }

  /** An ordered track places as many clips as it has placements. */
  lemma {:induction false} OrderedCids(s: seq<Placement>)
    requires Ordered(s)
    ensures |Cids(s)| == |s|
  {
    if s != [] {
      var x, t := s[0], s[1..];
      OrderedTail(s);
      OrderedCids(t);
      forall c | c in Cids(s) ensures c == x.cid || c in Cids(t) {
        var q :| q in s && q.cid == c;
        if q != x {
          var i :| 0 <= i < |s| && s[i] == q;
          assert t[i - 1] == q;
        }
      }
      assert Cids(s) == {x.cid} + Cids(t);
      assert x.cid !in Cids(t);
    }
  }

  /** Two different placements of an ordered track are apart and belong to different clips. */
  lemma OrderedApart(s: seq<Placement>, x: Placement, y: Placement)
    requires Ordered(s) && x in s && y in s && x != y
    ensures Apart(x, y) && x.cid != y.cid
  {
    var i :| 0 <= i < |s| && s[i] == x;
    var j :| 0 <= j < |s| && s[j] == y;
    if i < j {
      assert End(s[i]) <= s[j].start && s[i].cid != s[j].cid;
    } else {
      assert End(s[j]) <= s[i].start && s[j].cid != s[i].cid;
    }
  }

  /** On an ordered track a clip has one placement only, the one PlacementOf finds. */
  lemma PlacementUnique(s: seq<Placement>, p: Placement)
    requires Ordered(s) && p in s
    ensures HasClip(s, p.cid) && PlacementOf(s, p.cid) == p
  {
    var q := PlacementOf(s, p.cid);
    if q != p {
      OrderedApart(s, q, p);
    }
  }

  lemma OrderedCons(x: Placement, r: seq<Placement>)
    requires Ordered(r) && Sound(x)
    requires forall q :: q in r ==> End(x) <= q.start && x.cid != q.cid
    ensures Ordered([x] + r)
  {
    var s := [x] + r;
    forall i, j | 0 <= i < j < |s|
      ensures End(s[i]) <= s[j].start && s[i].cid != s[j].cid
    {
      if i == 0 {
        assert s[j] == r[j - 1] && s[j] in r;
      } else {
        assert s[i] == r[i - 1] && s[j] == r[j - 1];
      }
    }
  }

  lemma OrderedTail(s: seq<Placement>)
    requires Ordered(s) && s != []
    ensures Ordered(s[1..])
    ensures forall q :: q in s[1..] ==> End(s[0]) <= q.start && s[0].cid != q.cid
  {
    var t := s[1..];
    forall i, j | 0 <= i < j < |t|
      ensures End(t[i]) <= t[j].start && t[i].cid != t[j].cid
    {
      assert t[i] == s[i + 1] && t[j] == s[j + 1];
    }
    forall q | q in t
      ensures End(s[0]) <= q.start && s[0].cid != q.cid
    {
      var j :| 0 <= j < |t| && t[j] == q;
      assert s[j + 1] == q;
    }
  }

  /** A fitting insertion keeps the track ordered and places the clip. */
  lemma {:induction false} InsertKeepsOrder(s: seq<Placement>, p: Placement)
    requires Ordered(s) && Fits(s, p)
    ensures Ordered(Insert(s, p))
  {
    if s == [] || End(p) <= s[0].start {
      forall q | q in s
        ensures End(p) <= q.start && p.cid != q.cid
      {
        if q != s[0] {
          var j :| 0 <= j < |s| && s[j] == q;
          assert End(s[0]) <= s[j].start;
        }
      }
      OrderedCons(p, s);
    } else {
      OrderedTail(s);
      assert forall q :: q in s[1..] ==> q in s;
      InsertKeepsOrder(s[1..], p);
      var r := Insert(s[1..], p);
      assert End(s[0]) <= p.start by {
        assert Apart(s[0], p);
      }
      forall q | q in r
        ensures End(s[0]) <= q.start && s[0].cid != q.cid
      {
        assert q in multiset(r);
      }
      OrderedCons(s[0], r);
    }
  }

  /** Deleting a clip keeps the track ordered and leaves exactly the other clips' placements. */
  lemma RemoveKeepsOrder(s: seq<Placement>, cid: int)
    requires Ordered(s)
    ensures Ordered(Remove(s, cid))
    ensures forall q :: q in Remove(s, cid) <==> q in s && q.cid != cid
  {
    RemoveOrdered(s, cid);
    RemoveMembers(s, cid);
  }

  lemma {:induction false} RemoveOrdered(s: seq<Placement>, cid: int)
    requires Ordered(s)
    ensures Ordered(Remove(s, cid))
  {
    if s != [] {
      OrderedTail(s);
      if s[0].cid != cid {
        RemoveOrdered(s[1..], cid);
        OrderedCons(s[0], Remove(s[1..], cid));
      }
    }
  }

  lemma {:induction false} RemoveMembers(s: seq<Placement>, cid: int)
    requires Ordered(s)
    ensures forall q :: q in Remove(s, cid) <==> q in s && q.cid != cid
  {
    if s == [] {
    } else if s[0].cid == cid {
      OrderedTail(s);
      forall q | q in s
        ensures q in s[1..] <==> q.cid != cid
      {
        if q != s[0] {
          var j :| 0 <= j < |s| && s[j] == q;
          assert q in s[1..];
        }
      }
    } else {
      OrderedTail(s);
      RemoveMembers(s[1..], cid);
      assert s == [s[0]] + s[1..];
    }
  }

  /** A placement is in a track after an insertion exactly when it was there before or is the one inserted. */
  lemma InsertMember(s: seq<Placement>, p: Placement, q: Placement)
    ensures q in Insert(s, p) <==> q in s || q == p
  {
    assert q in Insert(s, p) <==> q in multiset(Insert(s, p));
  }

  /** Deleting the clip just inserted gives back the track as it was. */
  lemma {:induction false} InsertThenRemove(s: seq<Placement>, p: Placement)
    requires !HasClip(s, p.cid)
    ensures Remove(Insert(s, p), p.cid) == s
  {
    if s == [] || End(p) <= s[0].start {
    } else {
      assert s[0] in s;
      assert !HasClip(s[1..], p.cid) by {
        forall q | q in s[1..] ensures q.cid != p.cid {
          assert q in s;
        }
      }
      InsertThenRemove(s[1..], p);
      assert s == [s[0]] + s[1..];
    }
  }

  /** Putting back a placement just deleted from an ordered track gives back the track as it was. */
  lemma {:induction false} RemoveThenInsert(s: seq<Placement>, q: Placement)
    requires Ordered(s) && q in s
    ensures Insert(Remove(s, q.cid), q) == s
  {
    if s[0] == q {
      OrderedTail(s);
      if s[1..] != [] {
        assert s[1..][0] in s[1..];
      }
      assert s == [s[0]] + s[1..];
    } else {
      OrderedApart(s, s[0], q);
      assert End(s[0]) <= q.start by {
        var k :| 0 <= k < |s| && s[k] == q;
        assert 0 < k;
      }
      OrderedTail(s);
      assert q in s[1..];
      RemoveThenInsert(s[1..], q);
      assert s == [s[0]] + s[1..];
    }
  }

  /** Once a clip's placement is replaced by another, deleting the clip again leaves the same track. */
  lemma ReplaceThenRemove(s: seq<Placement>, p: Placement)
    requires Ordered(s)
    ensures HasClip(Insert(Remove(s, p.cid), p), p.cid)
    ensures Remove(Insert(Remove(s, p.cid), p), p.cid) == Remove(s, p.cid)
  {
    RemoveKeepsOrder(s, p.cid);
    InsertThenRemove(Remove(s, p.cid), p);
    assert p in multiset(Insert(Remove(s, p.cid), p));
  }

  /** A placement deleted from an ordered track would fit back where it was. */
  lemma RemovedFits(s: seq<Placement>, q: Placement)
    requires Ordered(s) && q in s
    ensures Fits(Remove(s, q.cid), q)
  {
    RemoveKeepsOrder(s, q.cid);
    forall x | x in Remove(s, q.cid)
      ensures Apart(x, q)
    {
      OrderedApart(s, x, q);
    }
  }

}
