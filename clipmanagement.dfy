/**
 * The project clip bin: the document's list of clips, its folders, the two
 * id counters new clips and folders draw from, and the queue of clips whose
 * audio thumbnails are still to be generated.
 *
 * Clips are values here: the bin only reads a clip's id and two of its
 * properties ("groupid" and "resource"). Whether a clip accepts to start
 * generating its audio thumbnail, and the "audiothumbnails" setting, are
 * parameters of the methods that consult them.
 */
module ClipManagement {

  import opened Base

  const IntMin: int := -0x8000_0000
  const IntMax: int := 0x7fff_ffff

  /** A document clip as the bin sees it; "groupid" is empty when the clip lies in no folder. */
  datatype DocClip = DocClip(id: string, groupId: string, resource: string)

  /** The audio thumbnail queue and the id whose thumbnail is being generated ("" for none). */
  datatype Pending = Pending(queue: seq<string>, generating: string)

  // ---------------------------------------------------------------------------
  // Text
  // ---------------------------------------------------------------------------

  predicate IsDigit(c: char)
  {
    '0' <= c <= '9'
  }

  predicate AllDigits(s: string)
  {
    forall i :: 0 <= i < |s| ==> IsDigit(s[i])
  }

  /** The number a string of decimal digits denotes. */
  function DigitsValue(s: string): nat
    requires AllDigits(s)
  {
    if s == [] then 0
    else DigitsValue(s[..|s| - 1]) * 10 + (s[|s| - 1] as int - '0' as int)
  }

  /** The decimal digits of n, without leading zeros. */
  function NumberText(n: nat): string
  {
    if n < 10 then [('0' as int + n) as char]
    else NumberText(n / 10) + [('0' as int + n % 10) as char]
  }

  /** n written in decimal, with a leading '-' when negative: QString::number. */
  function IntText(n: int): string
  {
    if n < 0 then "-" + NumberText(-n) else NumberText(n)
  }

  /**
   * QString::toInt in base 10: an optional sign followed by at least one
   * digit, whose value must fit a 32-bit int; anything else converts to 0.
   */
  function ToInt(s: string): (r: int)
    ensures IntMin <= r <= IntMax
    ensures r != 0 ==> s != [] && (IsDigit(s[0]) || s[0] == '-' || s[0] == '+')
    ensures r != 0 ==> s != [] && var d := if s[0] == '-' || s[0] == '+' then s[1..] else s;
      d != [] && AllDigits(d)
    ensures s != [] && AllDigits(s) && DigitsValue(s) <= IntMax ==> r == DigitsValue(s)
  {
    var negative := |s| > 0 && s[0] == '-';
    var digits := if |s| > 0 && (s[0] == '-' || s[0] == '+') then s[1..] else s;
    if digits == [] || !AllDigits(digits) then 0
    else
      var v: int := if negative then -(DigitsValue(digits) as int) else DigitsValue(digits);
      if IntMin <= v <= IntMax then v else 0
  }

  lemma {:induction false} NumberTextDigits(n: nat)
    ensures NumberText(n) != [] && AllDigits(NumberText(n))
    ensures DigitsValue(NumberText(n)) == n
  {
    var s := NumberText(n);
    if n >= 10 {
      NumberTextDigits(n / 10);
      assert s[..|s| - 1] == NumberText(n / 10);
    }
  }

  /** Converting back a number QString::number wrote gives the number. */
  lemma NumberRoundTrip(n: int)
    requires IntMin <= n <= IntMax
    ensures ToInt(IntText(n)) == n
  {
    if n < 0 {
      NumberTextDigits(-n);
      assert IntText(n)[1..] == NumberText(-n);
    } else {
      NumberTextDigits(n);
    }
  }

  /** QString::section('_', 0, 0): the text before the first '_', or all of s when it has none. */
  function Section0(s: string): (r: string)
    ensures r <= s && '_' !in r
    ensures |r| < |s| ==> s[|r|] == '_'
  {
    if s == [] || s[0] == '_' then []
    else [s[0]] + Section0(s[1..])
  }

  /** A clip id followed by a '_' suffix still names the clip. */
  lemma {:induction false} SectionOfSuffixed(id: string, suffix: string)
    requires '_' !in id
    ensures Section0(id + "_" + suffix) == id
    ensures Section0(id) == id
  {
    if id != [] {
      assert (id + "_" + suffix)[1..] == id[1..] + "_" + suffix;
      SectionOfSuffixed(id[1..], suffix);
    }
  }

  // ---------------------------------------------------------------------------
  // Clip lists
  // ---------------------------------------------------------------------------

  function Ids(clips: seq<DocClip>): seq<string>
  {
    seq(|clips|, i requires 0 <= i < |clips| => clips[i].id)
  }

  function Resources(clips: seq<DocClip>): seq<string>
  {
    seq(|clips|, i requires 0 <= i < |clips| => clips[i].resource)
  }

  /** The position of the first x in xs, or -1 when there is none. */
  function IndexOf(xs: seq<string>, x: string): (r: int)
    ensures -1 <= r < |xs|
    ensures 0 <= r ==> xs[r] == x && forall j :: 0 <= j < r ==> xs[j] != x
    ensures r == -1 <==> x !in xs
  {
    if xs == [] then -1
    else if xs[0] == x then 0
    else
      var k := IndexOf(xs[1..], x);
      assert forall j :: 0 < j < |xs| ==> xs[j] == xs[1..][j - 1];
      if k < 0 then -1 else k + 1
  }

  /** The first clip whose id is the part of clipId before its first '_'. */
  function FindById(clips: seq<DocClip>, clipId: string): (r: Option<DocClip>)
    ensures r.Some? ==> r.value in clips && r.value.id == Section0(clipId)
    ensures r.Some? ==> exists i ::
      0 <= i < |clips| && clips[i] == r.value && forall j :: 0 <= j < i ==> clips[j].id != Section0(clipId)
    ensures r.None? <==> forall c :: c in clips ==> c.id != Section0(clipId)
  {
    var i := IndexOf(Ids(clips), Section0(clipId));
    if i < 0 then
      assert forall c :: c in clips ==> c.id in Ids(clips) by {
        forall c | c in clips ensures c.id in Ids(clips) {
          var k :| 0 <= k < |clips| && clips[k] == c;
          assert Ids(clips)[k] == c.id;
        }
      }
      None
    else
      assert forall j :: 0 <= j < i ==> clips[j].id == Ids(clips)[j];
      Some(clips[i])
  }

  /** The first clip whose "resource" property is resource. */
  function FindByResource(clips: seq<DocClip>, resource: string): (r: Option<DocClip>)
    ensures r.Some? ==> r.value in clips && r.value.resource == resource
    ensures r.Some? ==> exists i ::
      0 <= i < |clips| && clips[i] == r.value && forall j :: 0 <= j < i ==> clips[j].resource != resource
    ensures r.None? <==> forall c :: c in clips ==> c.resource != resource
  {
    var i := IndexOf(Resources(clips), resource);
    if i < 0 then
      assert forall c :: c in clips ==> c.resource in Resources(clips) by {
        forall c | c in clips ensures c.resource in Resources(clips) {
          var k :| 0 <= k < |clips| && clips[k] == c;
          assert Resources(clips)[k] == c.resource;
        }
      }
      None
    else
      assert forall j :: 0 <= j < i ==> clips[j].resource == Resources(clips)[j];
      Some(clips[i])
  }

  /** clips without the first clip whose id is exactly clipId; the others keep their order. */
  function RemoveFirst(clips: seq<DocClip>, clipId: string): (r: seq<DocClip>)
    ensures clipId !in Ids(clips) ==> r == clips
    ensures clipId in Ids(clips) ==>
      exists i :: 0 <= i < |clips| && clips[i].id == clipId
        && (forall j :: 0 <= j < i ==> clips[j].id != clipId)
        && r == clips[..i] + clips[i + 1..]
  {
    var i := IndexOf(Ids(clips), clipId);
    if i < 0 then clips
    else
      assert Ids(clips)[i] == clips[i].id;
      assert forall j :: 0 <= j < i ==> clips[j].id == Ids(clips)[j];
      clips[..i] + clips[i + 1..]
  }

  /** A clip added under a fresh id is what a lookup of that id, with or without a '_' suffix, finds. */
  lemma AddedClipFound(clips: seq<DocClip>, c: DocClip, suffix: string)
    requires '_' !in c.id && c.id !in Ids(clips)
    ensures FindById(clips + [c], c.id) == Some(c)
    ensures FindById(clips + [c], c.id + "_" + suffix) == Some(c)
  {
    SectionOfSuffixed(c.id, suffix);
    var all := clips + [c];
    assert Ids(all) == Ids(clips) + [c.id];
    assert IndexOf(Ids(all), c.id) == |clips|;
  }

  /** Deleting a clip just added under a fresh id gives back the list as it was. */
  lemma DeleteAddedClip(clips: seq<DocClip>, c: DocClip)
    requires c.id !in Ids(clips)
    ensures RemoveFirst(clips + [c], c.id) == clips
  {
    var all := clips + [c];
    assert Ids(all) == Ids(clips) + [c.id];
    assert IndexOf(Ids(all), c.id) == |clips|;
    assert all[..|clips|] == clips;
  }

  /** Only the first clip with the id goes: a later clip with the same id stays, with all others. */
  lemma RemoveFirstKeepsLater(clips: seq<DocClip>, clipId: string, j: int, k: int)
    requires 0 <= j < k < |clips| && clips[j].id == clipId
    ensures clips[k] in RemoveFirst(clips, clipId)
    ensures |RemoveFirst(clips, clipId)| == |clips| - 1
  {
    var ids := Ids(clips);
    assert ids[j] == clipId && ids[j] in ids;
    var i := IndexOf(ids, clipId);
    assert i <= j;
    var r := clips[..i] + clips[i + 1..];
    assert r[k - 1] == clips[k];
  }

  /** IndexOf finds a position whose element is x when no earlier one is. */
  lemma IndexOfAt(xs: seq<string>, x: string, i: int)
    requires 0 <= i < |xs| && xs[i] == x
    requires forall j :: 0 <= j < i ==> xs[j] != x
    ensures IndexOf(xs, x) == i
  {
    assert xs[i] in xs;
  }

  // ---------------------------------------------------------------------------
  // The bin
  // ---------------------------------------------------------------------------

  class ClipManager {
    var clipList: seq<DocClip>
    var folderList: map<string, string>
    var clipIdCounter: int
    var folderIdCounter: int
    var audioThumbsEnabled: bool
    var audioThumbsQueue: seq<string>
    var generatingAudioId: string

    /**
     * The counters stay above every id they have seen: a clip id handed out
     * later never converts to the number of a clip already in the bin, nor a
     * folder id to the folder of one.
     */
    predicate Valid()
      reads this
    {
      && 1 <= clipIdCounter && 1 <= folderIdCounter
      && (forall c :: c in clipList ==> ToInt(c.id) < clipIdCounter)
      && (forall c :: c in clipList && c.groupId != "" ==> ToInt(c.groupId) < folderIdCounter)
    }

    function Audio(): Pending
      reads this
    {
      Pending(audioThumbsQueue, generatingAudioId)
    }

    constructor()
      ensures Valid()
      ensures clipList == [] && folderList == map[]
      ensures clipIdCounter == 1 && folderIdCounter == 1
      ensures !audioThumbsEnabled && Audio() == Pending([], "")
    {
      clipList := [];
      folderList := map[];
      clipIdCounter := 1;
      folderIdCounter := 1;
      audioThumbsEnabled := false;
      audioThumbsQueue := [];
      generatingAudioId := "";
    }

    /** Appends clip and raises each counter just above the clip's id and folder id when they reach it. */
    method AddClip(clip: DocClip)
      modifies this
      ensures clipList == old(clipList) + [clip]
      ensures clipIdCounter == Max(old(clipIdCounter), ToInt(clip.id) + 1)
      ensures folderIdCounter ==
        if clip.groupId == "" then old(folderIdCounter) else Max(old(folderIdCounter), ToInt(clip.groupId) + 1)
      ensures old(Valid()) ==> Valid()
      ensures unchanged(this`folderList, this`audioThumbsEnabled, this`audioThumbsQueue, this`generatingAudioId)
    {
      clipList := clipList + [clip];
      var id := clip.id;
      if ToInt(id) >= clipIdCounter {
        clipIdCounter := ToInt(id) + 1;
      }
      var gid := clip.groupId;
      if gid != "" && ToInt(gid) >= folderIdCounter {
        folderIdCounter := ToInt(gid) + 1;
      }
    }

    /** Deletes the first clip whose id is clipId; an unknown id changes nothing. */
    method DeleteClip(clipId: string)
      modifies this
      ensures clipList == RemoveFirst(old(clipList), clipId)
      ensures old(Valid()) ==> Valid()
      ensures unchanged(this`folderList, this`clipIdCounter, this`folderIdCounter)
      ensures unchanged(this`audioThumbsEnabled, this`audioThumbsQueue, this`generatingAudioId)
    {
      ghost var before := clipList;
      var i := 0;
      while i < |clipList|
        invariant 0 <= i <= |clipList| && clipList == before
        invariant forall j :: 0 <= j < i ==> Ids(clipList)[j] != clipId
      {
        if clipList[i].id == clipId {
          IndexOfAt(Ids(before), clipId, i);
          clipList := clipList[..i] + clipList[i + 1..];
          assert forall c :: c in clipList ==> c in before;
          return;
        }
        i := i + 1;
      }
      assert clipId !in Ids(before);
    }

    /** QList::at: the clip at position pos, which must be a position of the list. */
    function GetClipAt(pos: int): (c: DocClip)
      reads this
      requires 0 <= pos < |clipList|
      ensures c in clipList && c == clipList[pos]
      ensures Valid() ==> ToInt(c.id) <= LastClipId()
    {
      clipList[pos]
    }

    /** The first clip whose id is clipId up to its first '_', or None. */
    method GetClipById(clipId: string) returns (c: Option<DocClip>)
      ensures c == FindById(clipList, clipId)
    {
      var key := Section0(clipId);
      var i := 0;
      while i < |clipList|
        invariant 0 <= i <= |clipList|
        invariant forall j :: 0 <= j < i ==> Ids(clipList)[j] != key
      {
        if clipList[i].id == key {
          IndexOfAt(Ids(clipList), key, i);
          return Some(clipList[i]);
        }
        i := i + 1;
      }
      assert key !in Ids(clipList);
      return None;
    }

    /** The first clip whose "resource" property is resource, or None. */
    method GetClipByResource(resource: string) returns (c: Option<DocClip>)
      ensures c == FindByResource(clipList, resource)
    {
      var i := 0;
      while i < |clipList|
        invariant 0 <= i <= |clipList|
        invariant forall j :: 0 <= j < i ==> Resources(clipList)[j] != resource
      {
        if clipList[i].resource == resource {
          IndexOfAt(Resources(clipList), resource, i);
          return Some(clipList[i]);
        }
        i := i + 1;
      }
      assert resource !in Resources(clipList);
      return None;
    }

    /** Hands out the clip counter and moves it on: the id is above every clip's in the bin. */
    method GetFreeClipId() returns (id: int)
      modifies this`clipIdCounter
      ensures id == old(clipIdCounter) && clipIdCounter == id + 1
      ensures old(Valid()) ==> Valid() && forall c :: c in clipList ==> ToInt(c.id) < id
      ensures LastClipId() == id
    {
      id := clipIdCounter;
      clipIdCounter := clipIdCounter + 1;
    }

    /** Hands out the folder counter and moves it on: the id is above every clip's folder id. */
    method GetFreeFolderId() returns (id: int)
      modifies this`folderIdCounter
      ensures id == old(folderIdCounter) && folderIdCounter == id + 1
      ensures old(Valid()) ==> Valid() && forall c :: c in clipList && c.groupId != "" ==> ToInt(c.groupId) < id
    {
      id := folderIdCounter;
      folderIdCounter := folderIdCounter + 1;
    }

    /** The id the last GetFreeClipId handed out, at least that of every clip in the bin. */
    function LastClipId(): (r: int)
      reads this
      ensures Valid() ==> 0 <= r && forall c :: c in clipList ==> ToInt(c.id) <= r
    {
      clipIdCounter - 1
    }

    /** Names folder id, replacing any name it had. */
    method AddFolder(id: string, name: string)
      modifies this`folderList
      ensures folderList == old(folderList)[id := name]
    {
      folderList := folderList[id := name];
    }

    /** Forgets folder id, when there is one. */
    method DeleteFolder(id: string)
      modifies this`folderList
      ensures folderList == old(folderList) - {id}
    {
      folderList := folderList - {id};
    }

    // -------------------------------------------------------------------------
    // Audio thumbnails
    // -------------------------------------------------------------------------

    /**
     * Turns audio thumbnails on or off when the setting changed: turning them
     * on queues every clip and starts generating unless a clip is already
     * being processed; turning them off empties the queue.
     */
    method CheckAudioThumbs(setting: bool, starts: set<string>)
      modifies this
      ensures unchanged(this`clipList, this`folderList, this`clipIdCounter, this`folderIdCounter)
      ensures setting == old(audioThumbsEnabled) ==> unchanged(this)
      ensures audioThumbsEnabled == setting
      ensures setting && !old(audioThumbsEnabled) && old(generatingAudioId) == "" ==>
        Audio() == Pump(clipList, old(audioThumbsQueue) + Ids(clipList), starts)
      ensures setting && !old(audioThumbsEnabled) && old(generatingAudioId) != "" ==>
        Audio() == Pending(old(audioThumbsQueue) + Ids(clipList), old(generatingAudioId))
      ensures !setting && old(audioThumbsEnabled) ==> Audio() == Pending([], "")
    {
      if audioThumbsEnabled == setting {
        return;
      }
      audioThumbsEnabled := setting;
      ghost var queued := audioThumbsQueue;
      var i := 0;
      while i < |clipList|
        invariant 0 <= i <= |clipList| && audioThumbsEnabled == setting
        invariant unchanged(this`clipList, this`folderList, this`clipIdCounter, this`folderIdCounter)
        invariant generatingAudioId == old(generatingAudioId)
        invariant audioThumbsQueue == queued + if setting then Ids(clipList[..i]) else []
      {
        if audioThumbsEnabled {
          assert Ids(clipList[..i + 1]) == Ids(clipList[..i]) + [clipList[i].id];
          audioThumbsQueue := audioThumbsQueue + [clipList[i].id];
        }
        i := i + 1;
      }
      assert clipList[..i] == clipList;
      if audioThumbsEnabled {
        if generatingAudioId == "" {
          StartAudioThumbsGeneration(setting, starts);
        }
      } else {
        audioThumbsQueue := [];
        generatingAudioId := "";
      }
    }

    /** Queues clipId for an audio thumbnail when it names a clip and thumbnails are on. */
    method AskForAudioThumb(clipId: string, setting: bool, starts: set<string>)
      modifies this
      ensures unchanged(this`clipList, this`folderList, this`clipIdCounter, this`folderIdCounter)
      ensures unchanged(this`audioThumbsEnabled)
      ensures FindById(clipList, clipId).None? || !setting ==> Audio() == old(Audio())
      ensures FindById(clipList, clipId).Some? && setting && old(generatingAudioId) == "" ==>
        Audio() == Pump(clipList, old(audioThumbsQueue) + [clipId], starts)
      ensures FindById(clipList, clipId).Some? && setting && old(generatingAudioId) != "" ==>
        Audio() == Pending(old(audioThumbsQueue) + [clipId], old(generatingAudioId))
    {
      var clip := GetClipById(clipId);
      if clip.Some? && setting {
        audioThumbsQueue := audioThumbsQueue + [clipId];
        if generatingAudioId == "" {
          StartAudioThumbsGeneration(setting, starts);
        }
      }
    }

    /**
     * Takes the head of the queue and asks its clip to generate; a missing
     * clip or one that declines is skipped, through EndAudioThumbsGeneration,
     * for the next. With thumbnails off the queue is dropped.
     */
    method StartAudioThumbsGeneration(setting: bool, starts: set<string>)
      modifies this
      decreases |audioThumbsQueue|, 0
      ensures unchanged(this`clipList, this`folderList, this`clipIdCounter, this`folderIdCounter)
      ensures unchanged(this`audioThumbsEnabled)
      ensures !setting ==> Audio() == Pending([], "")
      ensures setting ==> Audio() == Pump(clipList, old(audioThumbsQueue), starts)
    {
      if !setting {
        audioThumbsQueue := [];
        generatingAudioId := "";
        return;
      }
      if audioThumbsQueue != [] {
        generatingAudioId := audioThumbsQueue[0];
        audioThumbsQueue := audioThumbsQueue[1..];
        var clip := GetClipById(generatingAudioId);
        if clip.None? || clip.value.id !in starts {
          EndAudioThumbsGeneration(generatingAudioId, setting, starts);
        }
      } else {
        generatingAudioId := "";
      }
    }

    /**
     * Called when the thumbnail of requestedId is done: when requestedId is
     * the clip being processed, the next queued clip is started; an empty
     * queue leaves nothing in progress.
     */
    method EndAudioThumbsGeneration(requestedId: string, setting: bool, starts: set<string>)
      modifies this
      decreases |audioThumbsQueue|, 1
      ensures unchanged(this`clipList, this`folderList, this`clipIdCounter, this`folderIdCounter)
      ensures unchanged(this`audioThumbsEnabled)
      ensures !setting ==> Audio() == Pending([], "")
      ensures setting && old(audioThumbsQueue) == [] ==> Audio() == Pending([], "")
      ensures setting && old(audioThumbsQueue) != [] && requestedId != old(generatingAudioId) ==>
        Audio() == old(Audio())
      ensures setting && old(audioThumbsQueue) != [] && requestedId == old(generatingAudioId) ==>
        Audio() == Pump(clipList, old(audioThumbsQueue), starts)
    {
      if !setting {
        audioThumbsQueue := [];
        generatingAudioId := "";
        return;
      }
      if audioThumbsQueue != [] {
        if generatingAudioId == requestedId {
          StartAudioThumbsGeneration(setting, starts);
        }
      } else {
        generatingAudioId := "";
      }
    }
  }

  function Max(a: int, b: int): int
  {
    if a < b then b else a
  }

  /** Whether the clip clipId names exists and starts generating its audio thumbnail when asked. */
  predicate Accepted(clips: seq<DocClip>, clipId: string, starts: set<string>)
  {
    var c := FindById(clips, clipId);
    c.Some? && c.value.id in starts
  }

  /**
   * Where generation settles from queue: the first queued id whose clip
   * accepts is being generated and the ids after it stay queued; the ids
   * before it are dropped. When no clip accepts, nothing is left.
   */
  function Pump(clips: seq<DocClip>, queue: seq<string>, starts: set<string>): (r: Pending)
    ensures |r.queue| < |queue| || r == Pending([], "")
    ensures r.queue == queue[|queue| - |r.queue|..]
    ensures r == Pending([], "") || (Accepted(clips, r.generating, starts) && r.generating == queue[|queue| - |r.queue| - 1])
  {
    if queue == [] then Pending([], "")
    else if Accepted(clips, queue[0], starts) then Pending(queue[1..], queue[0])
    else
      var r := Pump(clips, queue[1..], starts);
      assert queue[1..][|queue| - 1 - |r.queue|..] == queue[|queue| - |r.queue|..];
      r
  }

  /** Generation settles on the first queued clip that accepts. */
  lemma {:induction false} PumpFirstAccepted(clips: seq<DocClip>, queue: seq<string>, starts: set<string>, k: int)
    requires 0 <= k < |queue| && Accepted(clips, queue[k], starts)
    requires forall j :: 0 <= j < k ==> !Accepted(clips, queue[j], starts)
    ensures Pump(clips, queue, starts) == Pending(queue[k + 1..], queue[k])
  {
    if k > 0 {
      PumpFirstAccepted(clips, queue[1..], starts, k - 1);
      assert queue[1..][k..] == queue[k + 1..];
    }
  }

  /** When no queued clip accepts, the queue empties and nothing is being generated. */
  lemma {:induction false} PumpNoneAccepted(clips: seq<DocClip>, queue: seq<string>, starts: set<string>)
    requires forall j :: 0 <= j < |queue| ==> !Accepted(clips, queue[j], starts)
    ensures Pump(clips, queue, starts) == Pending([], "")
  {
    if queue != [] {
      PumpNoneAccepted(clips, queue[1..], starts);
    }
  }

}
