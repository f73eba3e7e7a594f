/**
 * The accumulator behind streaming interim recognition: audio chunks of one segment chain are collected, and each
 * call emits the samples that arrived since the last one together with everything collected so far.
 *
 * A sample is the bit pattern of its 32-bit float, since the only thing done with samples is comparing their bits.
 */
module InterimStream {
  import opened Wrappers

  type Sample = bv32

  datatype Vad = Vad(probability: real, speech: bool)

  datatype Chunk = Chunk(audio: seq<Sample>, vad: Vad)

  datatype Range = Range(start: nat, end: nat)

  datatype Segment = Segment(
    displayId: nat,
    currentId: nat,
    chunks: seq<Chunk>,
    emitted: nat,
    rangeStart: nat,
    frame: nat)

  datatype Request = Request(
    segmentId: nat,
    sourceAudio: seq<Sample>,
    sourceVads: seq<Vad>,
    audio: seq<Sample>,
    vads: seq<Vad>,
    range: Range,
    frame: nat)

  // ---------- Chunks ----------

  function Flatten(chunks: seq<Chunk>): seq<Sample> {
    if chunks == [] then [] else Flatten(chunks[..|chunks| - 1]) + chunks[|chunks| - 1].audio
  }

  function Vads(chunks: seq<Chunk>): seq<Vad> {
    seq(|chunks|, i requires 0 <= i < |chunks| => chunks[i].vad)
  }

  predicate Filled(chunks: seq<Chunk>) {
    forall i | 0 <= i < |chunks| :: chunks[i].audio != []
  }

  lemma {:induction false} FlattenAppend(a: seq<Chunk>, b: seq<Chunk>)
    ensures Flatten(a + b) == Flatten(a) + Flatten(b)
  {
    if b == [] {
      assert a + b == a;
    } else {
      var front := b[..|b| - 1];
      assert (a + b)[..|a + b| - 1] == a + front && (a + b)[|a + b| - 1] == b[|b| - 1];
      FlattenAppend(a, front);
      Associates(Flatten(a), Flatten(front), b[|b| - 1].audio);
    }
  }

  lemma Associates(a: seq<Sample>, b: seq<Sample>, c: seq<Sample>)
    ensures (a + b) + c == a + (b + c)
  {}

  lemma FlattenOne(c: Chunk)
    ensures Flatten([c]) == c.audio
  {
    assert [c][..0] == [];
  }

  function Clip(audio: seq<Sample>, start: nat, end: nat): seq<Sample> {
    if start < end && start < |audio| then audio[start..if end < |audio| then end else |audio|] else []
  }

  /** The verdicts of the chunks that have a sample in `start..end`. */
  function VadsIn(chunks: seq<Chunk>, start: nat, end: nat): seq<Vad> {
    if chunks == [] then [] else
    var front, last := chunks[..|chunks| - 1], chunks[|chunks| - 1];
    var offset := |Flatten(front)|;
    var meets := offset < end && start < offset + |last.audio| && start < end && last.audio != [];
    VadsIn(front, start, end) + if meets then [last.vad] else []
  }

  lemma {:induction false} VadsBeyond(chunks: seq<Chunk>, i: nat, start: nat, end: nat)
    requires i <= |chunks| && end <= |Flatten(chunks[..i])|
    ensures VadsIn(chunks, start, end) == VadsIn(chunks[..i], start, end)
    ensures Flatten(chunks[..i]) <= Flatten(chunks)
    decreases |chunks|
  {
    if i == |chunks| {
      assert chunks[..i] == chunks;
    } else {
      var front := chunks[..|chunks| - 1];
      assert front[..i] == chunks[..i];
      VadsBeyond(front, i, start, end);
    }
  }

  function Least(a: nat, b: nat): nat {
    if a < b then a else b
  }

  /** Clips the collected chunks to a sample range. */
  method AudioAndVadRange(chunks: seq<Chunk>, start: nat, end: nat) returns (audio: seq<Sample>, vads: seq<Vad>)
    ensures audio == Clip(Flatten(chunks), start, end)
    ensures vads == VadsIn(chunks, start, Least(end, |Flatten(chunks)|))
  {
    hide Flatten, VadsIn, Clip;
    var length := AudioLength(chunks);
    var stop := if end < length then end else length;
    ClipToLength(chunks, start, end);
    if start >= stop { return [], []; }
    var consumed, i := 0, 0;
    audio, vads := [], [];
    NothingIn(chunks, start, stop);
    while i < |chunks|
      invariant 0 <= i <= |chunks| && consumed == |Flatten(chunks[..i])|
      invariant audio == Clip(Flatten(chunks[..i]), start, stop)
      invariant vads == VadsIn(chunks[..i], start, stop)
    {
      var chunk := chunks[i];
      var chunkStart, chunkEnd := consumed, consumed + |chunk.audio|;
      RangeStep(chunks, i, start, stop);
      if chunkStart >= stop {
        VadsBeyond(chunks, i, start, stop);
        ClipBeyond(Flatten(chunks[..i]), Flatten(chunks), start, stop);
        return;
      }
      consumed, i := chunkEnd, i + 1;
      if chunkEnd <= start { continue; }
      var localStart := if start > chunkStart then start - chunkStart else 0;
      var localEnd := if stop - chunkStart < |chunk.audio| then stop - chunkStart else |chunk.audio|;
      if localStart < localEnd {
        audio := audio + chunk.audio[localStart..localEnd];
        vads := vads + [chunk.vad];
      }
    }
    assert chunks[..i] == chunks;
  }

  lemma ClipToLength(chunks: seq<Chunk>, start: nat, end: nat)
    ensures var all := Flatten(chunks);
      && Clip(all, start, end) == Clip(all, start, Least(end, |all|))
      && (start >= Least(end, |all|) ==>
            Clip(all, start, end) == [] && VadsIn(chunks, start, Least(end, |all|)) == [])
  {
    var stop := Least(end, |Flatten(chunks)|);
    if start >= stop { NoVads(chunks, start, stop); }
  }

  lemma NothingIn(chunks: seq<Chunk>, start: nat, end: nat)
    ensures Flatten(chunks[..0]) == [] && Clip([], start, end) == [] && VadsIn(chunks[..0], start, end) == []
  {}

  lemma ClipBeyond(front: seq<Sample>, all: seq<Sample>, start: nat, end: nat)
    requires front <= all && end <= |front|
    ensures Clip(front, start, end) == Clip(all, start, end)
  {}

  /** What one more chunk adds to the clipped audio and to the verdicts. */
  lemma RangeStep(chunks: seq<Chunk>, i: nat, start: nat, end: nat)
    requires i < |chunks| && start < end
    ensures |Flatten(chunks[..i + 1])| == |Flatten(chunks[..i])| + |chunks[i].audio|
    ensures
      var offset, audio := |Flatten(chunks[..i])|, chunks[i].audio;
      var from := if start > offset then start - offset else 0;
      var to := if end - offset < |audio| then end - offset else |audio|;
      && Clip(Flatten(chunks[..i + 1]), start, end)
           == Clip(Flatten(chunks[..i]), start, end) + (if from < to then audio[from..to] else [])
      && VadsIn(chunks[..i + 1], start, end)
           == VadsIn(chunks[..i], start, end) + (if from < to then [chunks[i].vad] else [])
  {
    assert chunks[..i + 1][..i] == chunks[..i];
    ClipAppend(Flatten(chunks[..i]), chunks[i].audio, start, end);
  }

  lemma ClipAppend(front: seq<Sample>, audio: seq<Sample>, start: nat, end: nat)
    requires start < end
    ensures
      var from := if start > |front| then start - |front| else 0;
      var to := if end - |front| < |audio| then end - |front| else |audio|;
      Clip(front + audio, start, end) == Clip(front, start, end) + (if from < to then audio[from..to] else [])
  {}

  lemma {:induction false} NoVads(chunks: seq<Chunk>, start: nat, end: nat)
    requires start >= end
    ensures VadsIn(chunks, start, end) == []
  {
    if chunks != [] { NoVads(chunks[..|chunks| - 1], start, end); }
  }

  method AudioLength(chunks: seq<Chunk>) returns (length: nat)
    ensures length == |Flatten(chunks)|
  {
    length := 0;
    for i := 0 to |chunks|
      invariant length == |Flatten(chunks[..i])|
    {
      assert chunks[..i + 1][..i] == chunks[..i];
      length := length + |chunks[i].audio|;
    }
    assert chunks[..|chunks|] == chunks;
  }

  // ---------- Joining ----------

  /** The last `k` samples of `left` are, bit for bit, the first `k` of `right`. */
  predicate Joins(left: seq<Sample>, right: seq<Sample>, k: nat) {
    k <= |left| && k <= |right| && left[|left| - k..] == right[..k]
  }

  function LongestUpTo(left: seq<Sample>, right: seq<Sample>, k: nat): nat {
    if k == 0 || Joins(left, right, k) then k else LongestUpTo(left, right, k - 1)
  }

  /** The length of the longest suffix of `left` that is a prefix of `right`. */
  function Overlap(left: seq<Sample>, right: seq<Sample>): nat {
    LongestUpTo(left, right, Least(|left|, |right|))
  }

  lemma {:induction false} LongestUpToIsLongest(left: seq<Sample>, right: seq<Sample>, k: nat)
    ensures LongestUpTo(left, right, k) <= k && Joins(left, right, LongestUpTo(left, right, k))
    ensures forall j | LongestUpTo(left, right, k) < j <= k :: !Joins(left, right, j)
  {
    if k != 0 && !Joins(left, right, k) { LongestUpToIsLongest(left, right, k - 1); }
  }

  lemma OverlapIsLongest(left: seq<Sample>, right: seq<Sample>)
    ensures Joins(left, right, Overlap(left, right))
    ensures forall j: nat | Joins(left, right, j) :: j <= Overlap(left, right)
  {
    LongestUpToIsLongest(left, right, Least(|left|, |right|));
  }

  lemma ClipSuffix(audio: seq<Sample>, n: nat)
    requires 0 < n <= |audio|
    ensures Clip(audio, |audio| - n, |audio|) == audio[|audio| - n..]
  {}

  lemma SuffixOfSuffix(audio: seq<Sample>, n: nat, k: nat)
    requires k <= n <= |audio|
    ensures audio[|audio| - n..][n - k..] == audio[|audio| - k..]
  {}

  lemma LongestStep(left: seq<Sample>, right: seq<Sample>, k: nat)
    requires k <= |left| && k <= |right|
    ensures k == 0 || left[|left| - k..] == right[..k] ==> LongestUpTo(left, right, k) == k
    ensures k > 0 && left[|left| - k..] != right[..k] ==> LongestUpTo(left, right, k) == LongestUpTo(left, right, k - 1)
  {}

  method SuffixPrefixOverlap(chunks: seq<Chunk>, prefix: seq<Sample>) returns (overlap: nat)
    ensures overlap == Overlap(Flatten(chunks), prefix)
  {
    hide Flatten, VadsIn, Clip, LongestUpTo, Joins;
    ghost var all := Flatten(chunks);
    var length := AudioLength(chunks);
    var most := Least(length, |prefix|);
    LongestStep(all, prefix, 0);
    if most == 0 { return 0; }
    var suffix, _ := AudioAndVadRange(chunks, length - most, length);
    ClipSuffix(all, most);
    overlap := most;
    while overlap > 0
      invariant overlap <= most
      invariant Overlap(all, prefix) == LongestUpTo(all, prefix, overlap)
    {
      SuffixOfSuffix(all, most, overlap);
      LongestStep(all, prefix, overlap);
      if suffix[most - overlap..] == prefix[..overlap] { return; }
      overlap := overlap - 1;
    }
  }

  // ---------- Building chunks ----------

  /** Consecutive ranges, one sample longer while `index` is below the remainder. */
  function EvenFrom(length: nat, count: nat, base: nat, remainder: nat, index: nat, start: nat): seq<Range>
    decreases count - index
  {
    if index >= count then [] else
    var end := Least(start + base + (if index < remainder then 1 else 0), length);
    [Range(start, end)] + EvenFrom(length, count, base, remainder, index + 1, end)
  }

  function EvenRanges(length: nat, count: nat): Option<seq<Range>> {
    if length == 0 || count == 0 || length / count == 0 then None
    else Some(EvenFrom(length, count, length / count, length % count, 0, 0))
  }

  function Cut(audio: seq<Sample>, vads: seq<Vad>, ranges: seq<Range>): seq<Chunk> {
    if vads == [] || ranges == [] then [] else
    var rest := Cut(audio, vads[1..], ranges[1..]);
    var r := ranges[0];
    if r.start < r.end <= |audio| then [Chunk(audio[r.start..r.end], vads[0])] + rest else rest
  }

  function ChunksOf(audio: seq<Sample>, vads: seq<Vad>): seq<Chunk> {
    if audio == [] then []
    else if vads == [] then [Chunk(audio, Vad(1.0, true))]
    else
      match EvenRanges(|audio|, |vads|)
      case None => [Chunk(audio, vads[|vads| - 1])]
      case Some(ranges) => Cut(audio, vads, ranges)
  }

  /** The ranges tile `start..length` without a gap, and their lengths are `base` or one more, the longer ones first. */
  ghost predicate Tiles(ranges: seq<Range>, start: nat, length: nat, base: nat, longer: int) {
    if ranges == [] then start == length else
    && ranges[0].start == start && ranges[0].end - start == base + (if longer > 0 then 1 else 0)
    && Tiles(ranges[1..], ranges[0].end, length, base, longer - 1)
  }

  lemma {:induction false} EvenFromTiles(length: nat, count: nat, base: nat, remainder: nat, index: nat, start: nat)
    requires index <= count && remainder <= count && length == base * count + remainder
    requires start == base * index + Least(index, remainder)
    ensures var ranges := EvenFrom(length, count, base, remainder, index, start);
      |ranges| == count - index && Tiles(ranges, start, length, base, remainder - index)
    decreases count - index
  {
    if index < count {
      assert base * (index + 1) == base * index + base;
      assert base * (index + 1) <= base * count by { Monotone(base, index + 1, count); }
      var end := start + base + (if index < remainder then 1 else 0);
      EvenFromTiles(length, count, base, remainder, index + 1, end);
    }
  }

  lemma Monotone(c: nat, a: nat, b: nat)
    requires a <= b
    ensures c * a <= c * b
  {}

  /** One range per verdict, tiling the audio, the first `length % count` of them one sample longer than the rest. */
  lemma EvenRangesTile(length: nat, count: nat)
    ensures EvenRanges(length, count).None? <==> length == 0 || count == 0 || length < count
    ensures EvenRanges(length, count).Some? ==>
      && |EvenRanges(length, count).value| == count
      && Tiles(EvenRanges(length, count).value, 0, length, length / count, length % count)
  {
    if count != 0 {
      var base, remainder := length / count, length % count;
      assert length == base * count + remainder;
      assert base == 0 <==> length < count;
      EvenFromTiles(length, count, base, remainder, 0, 0);
    }
  }

  lemma VadsNothing()
    ensures Vads([]) == []
  {}

  lemma VadsMore(c: Chunk, rest: seq<Chunk>)
    ensures Vads([c] + rest) == [c.vad] + Vads(rest)
  {}

  lemma {:induction false} CutTiles(audio: seq<Sample>, vads: seq<Vad>, ranges: seq<Range>, start: nat, base: nat, longer: int)
    requires base > 0 && start <= |audio| && |vads| == |ranges| && Tiles(ranges, start, |audio|, base, longer)
    ensures Flatten(Cut(audio, vads, ranges)) == audio[start..]
    ensures Filled(Cut(audio, vads, ranges)) && Vads(Cut(audio, vads, ranges)) == vads
    decreases |ranges|
  {
    hide Flatten, Filled, Vads;
    if ranges == [] {
      assert Flatten([]) == [] by { NothingIn([], 0, 0); }
      FilledNothing();
      VadsNothing();
    } else {
      var r := ranges[0];
      TilesEnd(ranges[1..], r.end, |audio|, base, longer - 1);
      CutTiles(audio, vads[1..], ranges[1..], r.end, base, longer - 1);
      var first, rest := Chunk(audio[r.start..r.end], vads[0]), Cut(audio, vads[1..], ranges[1..]);
      FlattenAppend([first], rest);
      FlattenOne(first);
      assert audio[start..] == audio[start..r.end] + audio[r.end..];
      FilledMore(first, rest);
      VadsMore(first, rest);
      assert Cut(audio, vads, ranges) == [first] + rest;
      assert vads == [vads[0]] + vads[1..];
    }
  }

  lemma {:induction false} TilesEnd(ranges: seq<Range>, start: nat, length: nat, base: nat, longer: int)
    requires Tiles(ranges, start, length, base, longer)
    ensures start <= length
    decreases |ranges|
  {
    if ranges != [] { TilesEnd(ranges[1..], ranges[0].end, length, base, longer - 1); }
  }

  /** Cutting audio into chunks loses nothing, and with enough samples every verdict gets a chunk of its own. */
  lemma ChunksOfKeepAudio(audio: seq<Sample>, vads: seq<Vad>)
    ensures Flatten(ChunksOf(audio, vads)) == audio && Filled(ChunksOf(audio, vads))
    ensures 0 < |vads| <= |audio| ==> Vads(ChunksOf(audio, vads)) == vads
    ensures audio != [] && vads == [] ==> Vads(ChunksOf(audio, vads)) == [Vad(1.0, true)]
    ensures 0 < |audio| < |vads| ==> Vads(ChunksOf(audio, vads)) == [vads[|vads| - 1]]
  {
    EvenRangesTile(|audio|, |vads|);
    if audio != [] {
      if vads == [] {
        FlattenOne(Chunk(audio, Vad(1.0, true)));
      } else if |audio| < |vads| {
        FlattenOne(Chunk(audio, vads[|vads| - 1]));
      } else {
        var base := |audio| / |vads|;
        CutTiles(audio, vads, EvenRanges(|audio|, |vads|).value, 0, base, |audio| % |vads|);
      }
    }
  }

  function DropPrefix(chunks: seq<Chunk>, n: nat): seq<Chunk> {
    if chunks == [] then [] else
    var c := chunks[0];
    if n >= |c.audio| then DropPrefix(chunks[1..], n - |c.audio|)
    else if n == 0 then [c] + DropPrefix(chunks[1..], 0)
    else [c.(audio := c.audio[n..])] + DropPrefix(chunks[1..], 0)
  }

  lemma FilledNothing()
    ensures Filled([])
  {}

  lemma FilledMore(c: Chunk, rest: seq<Chunk>)
    requires c.audio != [] && Filled(rest)
    ensures Filled([c] + rest)
  {}

  lemma {:induction false} DropPrefixDrops(chunks: seq<Chunk>, n: nat)
    requires n <= |Flatten(chunks)|
    ensures Flatten(DropPrefix(chunks, n)) == Flatten(chunks)[n..] && Filled(DropPrefix(chunks, n))
    decreases |chunks|
  {
    hide Flatten, Filled;
    if chunks == [] {
      assert Flatten([]) == [] by { NothingIn([], 0, 0); }
      FilledNothing();
    } else {
      var c, rest := chunks[0], chunks[1..];
      assert chunks == [c] + rest;
      FlattenAppend([c], rest);
      FlattenOne(c);
      if n >= |c.audio| {
        DropPrefixDrops(rest, n - |c.audio|);
      } else {
        var kept := c.(audio := c.audio[n..]);
        DropPrefixDrops(rest, 0);
        FlattenAppend([kept], DropPrefix(rest, 0));
        FlattenOne(kept);
        FilledMore(kept, DropPrefix(rest, 0));
        assert DropPrefix(chunks, n) == [kept] + DropPrefix(rest, 0) by {
          if n == 0 { assert kept == c; }
        }
      }
    }
  }

  // ---------- The state and its calls ----------

  datatype Call =
    | Start(id: nat, previous: Option<nat>, audio: seq<Sample>, vads: seq<Vad>, endSample: nat, frame: nat)
    | Extend(id: nat, previous: Option<nat>, audio: seq<Sample>, vad: Vad, endSample: nat, frame: nat)
    | ClearIf(id: nat)
    | Clear

  datatype Outcome = Outcome(active: Option<Segment>, requests: seq<Request>)

  /** The request for what was collected since `s.emitted`, and the segment with everything marked as emitted. */
  function Delta(s: Segment): Outcome {
    var all := Flatten(s.chunks);
    if s.emitted == |all| then Outcome(Some(s), []) else
    Outcome(
      Some(s.(emitted := |all|)),
      [Request(s.displayId, all, VadsIn(s.chunks, 0, |all|),
               Clip(all, s.emitted, |all|), VadsIn(s.chunks, s.emitted, |all|),
               Range(s.rangeStart, s.rangeStart + |all|), s.frame)])
  }

  /** The call adds to the segment that is active instead of opening one. */
  predicate Continues(active: Option<Segment>, call: Call) {
    active.Some? &&
    match call
    case Start(_, previous, _, _, _, _) => previous == Some(active.value.currentId)
    case Extend(id, previous, _, _, _, _) => active.value.currentId == id || previous == Some(active.value.currentId)
    case _ => false
  }

  function Opened(id: nat, chunks: seq<Chunk>, length: nat, endSample: nat, frame: nat): Segment {
    Segment(id, id, chunks, 0, if endSample < length then 0 else endSample - length, frame)
  }

  function Added(s: Segment, call: Call): seq<Chunk>
    requires call.Start? || call.Extend?
  {
    match call
    case Start(_, _, audio, vads, _, _) => DropPrefix(ChunksOf(audio, vads), Overlap(Flatten(s.chunks), audio))
    case Extend(_, _, audio, vad, _, _) => [Chunk(audio, vad)]
  }

  function Apply(active: Option<Segment>, call: Call): Outcome {
    match call
    case Clear => Outcome(None, [])
    case ClearIf(id) => Outcome(if active.Some? && active.value.currentId == id then None else active, [])
    case Start(id, _, audio, vads, end, frame) =>
      if audio == [] then Outcome(active, [])
      else if Continues(active, call) then
        Delta(active.value.(currentId := id, chunks := active.value.chunks + Added(active.value, call)))
      else Delta(Opened(id, ChunksOf(audio, vads), |audio|, end, frame))
    case Extend(id, _, audio, vad, end, frame) =>
      if audio == [] then Outcome(active, [])
      else if Continues(active, call) then
        Delta(active.value.(currentId := id, chunks := active.value.chunks + Added(active.value, call)))
      else Delta(Opened(id, [Chunk(audio, vad)], |audio|, end, frame))
  }

  class InterimAsrState {
    var active: Option<Segment>

    constructor ()
      ensures active == None
    {
      active := None;
    }

    method StartStreamingSegment(
      id: nat, previous: Option<nat>, audio: seq<Sample>, vads: seq<Vad>, endSample: nat, frame: nat)
      returns (requests: seq<Request>)
      modifies this
      ensures Outcome(active, requests) == Apply(old(active), Start(id, previous, audio, vads, endSample, frame))
    {
      if audio == [] { return []; }
      if active.Some? && previous == Some(active.value.currentId) {
        var overlap := SuffixPrefixOverlap(active.value.chunks, audio);
        var chunks := DropPrefix(ChunksOf(audio, vads), overlap);
        active := Some(active.value.(currentId := id));
        active := Some(active.value.(chunks := active.value.chunks + chunks));
        requests := TakePendingDelta();
        return;
      }
      var start := if endSample < |audio| then 0 else endSample - |audio|;
      active := Some(Segment(id, id, ChunksOf(audio, vads), 0, start, frame));
      requests := TakePendingDelta();
    }

    method ExtendStreamingSegment(
      id: nat, previous: Option<nat>, audio: seq<Sample>, vad: Vad, endSample: nat, frame: nat)
      returns (requests: seq<Request>)
      modifies this
      ensures Outcome(active, requests) == Apply(old(active), Extend(id, previous, audio, vad, endSample, frame))
    {
      if audio == [] { return []; }
      if active.Some? && (active.value.currentId == id || previous == Some(active.value.currentId)) {
        active := Some(active.value.(currentId := id));
        active := Some(active.value.(chunks := active.value.chunks + [Chunk(audio, vad)]));
      } else {
        var start := if endSample < |audio| then 0 else endSample - |audio|;
        active := Some(Segment(id, id, [Chunk(audio, vad)], 0, start, frame));
      }
      requests := TakePendingDelta();
    }

    method ClearStreamingIfSegment(id: nat) returns (displayId: Option<nat>)
      modifies this
      ensures Outcome(active, []) == Apply(old(active), ClearIf(id))
      ensures displayId
           == if old(active).Some? && old(active).value.currentId == id then Some(old(active).value.displayId) else None
    {
      if active.None? { return None; }
      if active.value.currentId != id { return None; }
      displayId := Some(active.value.displayId);
      active := None;
    }

    method ClearStreaming()
      modifies this
      ensures Outcome(active, []) == Apply(old(active), Clear)
    {
      active := None;
    }

    method TakePendingDelta() returns (requests: seq<Request>)
      modifies this
      ensures old(active).None? ==> active.None? && requests == []
      ensures old(active).Some? ==> Outcome(active, requests) == Delta(old(active).value)
    {
      if active.None? { return []; }
      var s := active.value;
      var end := AudioLength(s.chunks);
      if s.emitted == end { return []; }
      active := Some(s.(emitted := end));
      assert Clip(Flatten(s.chunks), 0, end) == Flatten(s.chunks);
      var sourceAudio, sourceVads := AudioAndVadRange(s.chunks, 0, end);
      var audio, vads := AudioAndVadRange(s.chunks, s.emitted, end);
      requests := [Request(s.displayId, sourceAudio, sourceVads, audio, vads,
                           Range(s.rangeStart, s.rangeStart + end), s.frame)];
    }
  }

  // ---------- Over whole runs ----------

  /** The active segment and the requests emitted for it since it was opened. */
  datatype Episode = Episode(active: Option<Segment>, log: seq<Request>)

  /** The call clears the active segment, or opens another in its place. */
  predicate Ends(active: Option<Segment>, call: Call) {
    match call
    case Clear => true
    case ClearIf(id) => active.Some? && active.value.currentId == id
    case _ => call.audio != [] && !Continues(active, call)
  }

  /** A call that opens or clears a segment starts a new log; any other call adds to it. */
  function Next(e: Episode, call: Call): Episode {
    var after := Apply(e.active, call);
    Episode(after.active, (if Ends(e.active, call) then [] else e.log) + after.requests)
  }

  function History(calls: seq<Call>): Episode {
    if calls == [] then Episode(None, []) else Next(History(calls[..|calls| - 1]), calls[|calls| - 1])
  }

  function Deltas(log: seq<Request>): seq<Sample> {
    if log == [] then [] else Deltas(log[..|log| - 1]) + log[|log| - 1].audio
  }

  function DeltaVads(log: seq<Request>): seq<Vad> {
    if log == [] then [] else DeltaVads(log[..|log| - 1]) + log[|log| - 1].vads
  }

  /** Request `k` of the log carries everything emitted up to it, under the identity the segment was opened with. */
  ghost predicate Carries(s: Segment, log: seq<Request>, k: nat)
    requires k < |log|
  {
    var r := log[k];
    && r.sourceAudio == Deltas(log[..k + 1]) && r.sourceVads == DeltaVads(log[..k + 1])
    && r.audio != [] && r.segmentId == s.displayId && r.frame == s.frame
    && r.range == Range(s.rangeStart, s.rangeStart + |r.sourceAudio|)
  }

  ghost predicate Consistent(e: Episode) {
    && (e.active.None? ==> e.log == [])
    && (e.active.Some? ==>
          var s := e.active.value;
          && Filled(s.chunks) && s.chunks != []
          && s.emitted == |Flatten(s.chunks)|
          && e.log != []
          && Deltas(e.log) == Flatten(s.chunks) && DeltaVads(e.log) == Vads(s.chunks)
          && forall k | 0 <= k < |e.log| :: Carries(s, e.log, k))
  }

  /** At a chunk boundary the verdicts of the rest are those of the chunks behind it. */
  lemma {:induction false} VadsBehind(front: seq<Chunk>, added: seq<Chunk>)
    requires Filled(added)
    ensures VadsIn(front + added, |Flatten(front)|, |Flatten(front + added)|) == Vads(added)
    decreases |added|
  {
    var start := |Flatten(front)|;
    if added == [] {
      assert front + added == front;
      NoVads(front, start, start);
    } else {
      var init := added[..|added| - 1];
      var whole, prefix := front + added, front + init;
      assert whole[..|whole| - 1] == prefix;
      FlattenAppend(front, init);
      VadsBehind(front, init);
      VadsUpTo(prefix, start, |Flatten(whole)|);
      assert Vads(added) == Vads(init) + [added[|added| - 1].vad];
    }
  }

  /** Verdicts in a range that runs past the audio are the verdicts up to the end of it. */
  lemma {:induction false} VadsUpTo(chunks: seq<Chunk>, start: nat, end: nat)
    requires |Flatten(chunks)| <= end
    ensures VadsIn(chunks, start, end) == VadsIn(chunks, start, |Flatten(chunks)|)
    decreases |chunks|
  {
    if chunks != [] {
      var front := chunks[..|chunks| - 1];
      VadsUpTo(front, start, end);
      VadsUpTo(front, start, |Flatten(chunks)|);
    }
  }

  lemma FilledFlatten(chunks: seq<Chunk>)
    requires Filled(chunks) && chunks != []
    ensures Flatten(chunks) != []
  {
    assert chunks[|chunks| - 1].audio != [];
  }

  lemma AllVads(chunks: seq<Chunk>)
    requires Filled(chunks)
    ensures VadsIn(chunks, 0, |Flatten(chunks)|) == Vads(chunks)
  {
    VadsBehind([], chunks);
    assert [] + chunks == chunks;
  }

  lemma LogSnoc(log: seq<Request>, r: Request)
    ensures Deltas(log + [r]) == Deltas(log) + r.audio && DeltaVads(log + [r]) == DeltaVads(log) + r.vads
  {
    assert (log + [r])[..|log|] == log;
  }

  /** Emitting after some chunks were added keeps the log consistent. */
  lemma {:induction false} DeltaConsistent(s: Segment, added: seq<Chunk>, log: seq<Request>, t: Segment)
    requires Filled(s.chunks) && Filled(added)
    requires s.emitted == |Flatten(s.chunks)| && Deltas(log) == Flatten(s.chunks) && DeltaVads(log) == Vads(s.chunks)
    requires forall k | 0 <= k < |log| :: Carries(s, log, k)
    requires t == s.(currentId := t.currentId, chunks := s.chunks + added) && t.chunks != []
    requires added == [] ==> log != []
    ensures Consistent(Episode(Delta(t).active, log + Delta(t).requests))
  {
    hide Carries, Flatten, Vads, VadsIn, Filled, Deltas, DeltaVads;
    FlattenAppend(s.chunks, added);
    if added == [] {
      assert Flatten(added) == [] by { NothingIn([], 0, 0); }
      assert s.chunks + added == s.chunks;
      assert log + [] == log;
      forall k | 0 <= k < |log| ensures Carries(t, log, k) { CarriesSame(s, t, log, log, k); }
    } else {
      DeltaOf(s, added, t);
      var r := Delta(t).requests[0];
      var u := Delta(t).active.value;
      LogSnoc(log, r);
      var log' := log + [r];
      CarriesLast(u, log');
      forall k | 0 <= k < |log| ensures Carries(u, log', k) {
        CarriesSame(s, u, log, log', k);
      }
    }
  }

  /** What is emitted after `added` arrived: exactly the audio and the verdicts of `added`, behind all before it. */
  lemma {:induction false} DeltaOf(s: Segment, added: seq<Chunk>, t: Segment)
    requires Filled(s.chunks) && Filled(added) && added != [] && s.emitted == |Flatten(s.chunks)|
    requires t == s.(currentId := t.currentId, chunks := s.chunks + added)
    ensures Filled(t.chunks)
    ensures var all := Flatten(s.chunks) + Flatten(added);
      Flatten(added) != [] &&
      Delta(t) == Outcome(
        Some(t.(emitted := |all|)),
        [Request(s.displayId, all, Vads(s.chunks) + Vads(added), Flatten(added), Vads(added),
                 Range(s.rangeStart, s.rangeStart + |all|), s.frame)])
    ensures Vads(t.chunks) == Vads(s.chunks) + Vads(added)
  {
    hide VadsIn, Flatten;
    FlattenAppend(s.chunks, added);
    FilledFlatten(added);
    var all := Flatten(s.chunks) + Flatten(added);
    assert Clip(all, s.emitted, |all|) == Flatten(added);
    AllVads(t.chunks);
    VadsBehind(s.chunks, added);
    assert Vads(t.chunks) == Vads(s.chunks) + Vads(added);
  }

  lemma CarriesSame(s: Segment, t: Segment, log: seq<Request>, log': seq<Request>, k: nat)
    requires k < |log| && log <= log' && Carries(s, log, k)
    requires t.displayId == s.displayId && t.frame == s.frame && t.rangeStart == s.rangeStart
    ensures Carries(t, log', k)
  {
    assert log'[..k + 1] == log[..k + 1];
  }

  lemma CarriesLast(t: Segment, log: seq<Request>)
    requires log != []
    requires var r := log[|log| - 1];
      && r.sourceAudio == Deltas(log) && r.sourceVads == DeltaVads(log)
      && r.audio != [] && r.segmentId == t.displayId && r.frame == t.frame
      && r.range == Range(t.rangeStart, t.rangeStart + |r.sourceAudio|)
    ensures Carries(t, log, |log| - 1)
  {
    assert log[..|log|] == log;
  }

  lemma AddedFilled(s: Segment, call: Call)
    requires (call.Start? || call.Extend?) && call.audio != []
    ensures Filled(Added(s, call))
    ensures call.Extend? ==> Added(s, call) != []
  {
    if call.Start? {
      ChunksOfKeepAudio(call.audio, call.vads);
      OverlapIsLongest(Flatten(s.chunks), call.audio);
      DropPrefixDrops(ChunksOf(call.audio, call.vads), Overlap(Flatten(s.chunks), call.audio));
    }
  }

  lemma OpenedConsistent(id: nat, chunks: seq<Chunk>, length: nat, endSample: nat, frame: nat)
    requires Filled(chunks) && chunks != []
    ensures Consistent(Episode(Delta(Opened(id, chunks, length, endSample, frame)).active,
                               Delta(Opened(id, chunks, length, endSample, frame)).requests))
  {
    var t := Opened(id, chunks, length, endSample, frame);
    var s := t.(chunks := []);
    assert s.chunks + chunks == chunks;
    DeltaConsistent(s, chunks, [], t);
    assert [] + Delta(t).requests == Delta(t).requests;
  }

  lemma StepConsistent(e: Episode, call: Call)
    requires Consistent(e)
    ensures Consistent(Next(e, call))
  {
    hide Carries, Delta, Added, Flatten;
    if Ends(e.active, call) {
      assert [] + Apply(e.active, call).requests == Apply(e.active, call).requests;
      if call.Start? {
        ChunksOfKeepAudio(call.audio, call.vads);
        var chunks := ChunksOf(call.audio, call.vads);
        assert chunks != [] by { FlattenNonEmpty(chunks); }
        OpenedConsistent(call.id, chunks, |call.audio|, call.endSample, call.frame);
      } else if call.Extend? {
        OpenedConsistent(call.id, [Chunk(call.audio, call.vad)], |call.audio|, call.endSample, call.frame);
      }
    } else if Continues(e.active, call) && call.audio != [] {
      var s := e.active.value;
      AddedFilled(s, call);
      var t := s.(currentId := call.id, chunks := s.chunks + Added(s, call));
      DeltaConsistent(s, Added(s, call), e.log, t);
    } else {
      assert e.log + [] == e.log;
    }
  }

  lemma FlattenNonEmpty(chunks: seq<Chunk>)
    requires Flatten(chunks) != []
    ensures chunks != []
  {}

  lemma {:induction false} RunConsistent(calls: seq<Call>)
    ensures Consistent(History(calls))
  {
    hide Consistent, Next;
    if calls == [] {
      assert Consistent(Episode(None, [])) by { NothingConsistent(); }
    } else {
      RunConsistent(calls[..|calls| - 1]);
      StepConsistent(History(calls[..|calls| - 1]), calls[|calls| - 1]);
    }
  }

  lemma NothingConsistent()
    ensures Consistent(Episode(None, []))
  {}

  /**
   * Over every run of calls: for the segment that is active, joining the `audio` deltas emitted for it up to request
   * `k` gives that request's `sourceAudio`; likewise for the verdicts. Later requests extend earlier ones, the
   * declared range starts where it always did and is exactly as long as the audio, and the last request holds all that
   * was collected.
   */
  lemma DeltasAddUp(calls: seq<Call>, j: nat, k: nat)
    requires j <= k < |History(calls).log|
    ensures var log := History(calls).log;
      && log[k].sourceAudio == Deltas(log[..k + 1]) && log[k].sourceVads == DeltaVads(log[..k + 1])
      && log[j].sourceAudio <= log[k].sourceAudio && log[j].sourceVads <= log[k].sourceVads
      && log[k].range.end - log[k].range.start == |log[k].sourceAudio| && log[k].audio != []
      && log[k].range.start == log[j].range.start
      && log[k].segmentId == log[j].segmentId && log[k].frame == log[j].frame
    ensures var e := History(calls);
      e.active.Some? && e.log[|e.log| - 1].sourceAudio == Flatten(e.active.value.chunks)
  {
    hide History, Deltas, DeltaVads, Flatten;
    RunConsistent(calls);
    var e := History(calls);
    assert Carries(e.active.value, e.log, j) && Carries(e.active.value, e.log, k);
    assert Carries(e.active.value, e.log, |e.log| - 1);
    assert e.log[..|e.log|] == e.log;
    DeltasExtend(e.log, j + 1, k + 1);
  }

  lemma {:induction false} DeltasExtend(log: seq<Request>, j: nat, k: nat)
    requires j <= k <= |log|
    ensures Deltas(log[..j]) <= Deltas(log[..k]) && DeltaVads(log[..j]) <= DeltaVads(log[..k])
    decreases k
  {
    if j < k {
      assert log[..k][..k - 1] == log[..k - 1];
      DeltasExtend(log, j, k - 1);
    }
  }

  /**
   * A start that continues the active segment joins the new audio at its longest bit-equal overlap: what was
   * collected stays a prefix, the new audio becomes a suffix, and no longer overlap would join them.
   */
  lemma ContinuationJoins(s: Segment, call: Call)
    requires call.Start? && call.audio != [] && Continues(Some(s), call)
    ensures
      var joined := Flatten(Apply(Some(s), call).active.value.chunks);
      var collected := Flatten(s.chunks);
      var k := |collected| + |call.audio| - |joined|;
      && collected <= joined && k >= 0
      && Joins(collected, call.audio, k) && joined == collected + call.audio[k..]
      && joined[|collected| - k..] == call.audio
      && forall longer: nat | Joins(collected, call.audio, longer) :: longer <= k
  {
    hide Flatten, Overlap, ChunksOf, DropPrefix, Joins, Filled, Vads, Delta;
    var collected, k := Flatten(s.chunks), Overlap(Flatten(s.chunks), call.audio);
    OverlapIsLongest(collected, call.audio);
    JoinsFits(collected, call.audio, k);
    ChunksOfKeepAudio(call.audio, call.vads);
    DropPrefixDrops(ChunksOf(call.audio, call.vads), k);
    FlattenAppend(s.chunks, Added(s, call));
    DeltaKeepsChunks(s.(currentId := call.id, chunks := s.chunks + Added(s, call)));
  }

  lemma DeltaKeepsChunks(s: Segment)
    ensures Delta(s).active.Some? && Delta(s).active.value.chunks == s.chunks
  {}

  lemma JoinsFits(left: seq<Sample>, right: seq<Sample>, k: nat)
    requires Joins(left, right, k)
    ensures k <= |left| && k <= |right|
    ensures var joined := left + right[k..];
      left <= joined && |left| + |right| - |joined| == k && joined[|left| - k..] == right
  {
    assert left[|left| - k..] + right[k..] == right;
  }
}
