/** Which segment the accumulator is in after a run of calls, and what it holds: told from the calls alone. */
module InterimSegments {
  import opened Wrappers
  import opened InterimStream

  predicate Brings(call: Call) { (call.Start? || call.Extend?) && call.audio != [] }

  /** The id under which audio came last, before call `k`. */
  function LastId(calls: seq<Call>, k: nat): Option<nat>
    requires k <= |calls|
  {
    if k == 0 then None else if Brings(calls[k - 1]) then Some(calls[k - 1].id) else LastId(calls, k - 1)
  }

  /** Call `k` ends whatever segment there is: it clears it, or brings audio that does not follow on. */
  predicate Breaks(calls: seq<Call>, k: nat)
    requires k < |calls|
  {
    match calls[k]
    case Clear => true
    case ClearIf(id) => LastId(calls, k) == Some(id)
    case Start(_, previous, audio, _, _, _) => audio != [] && (previous.None? || previous != LastId(calls, k))
    case Extend(id, previous, audio, _, _, _) =>
      audio != [] && LastId(calls, k) != Some(id) && (previous.None? || previous != LastId(calls, k))
  }

  /** Call `i` brings audio, and nothing has ended its segment before call `n`. */
  ghost predicate Lives(calls: seq<Call>, i: nat, n: nat) {
    i < n <= |calls| && Brings(calls[i]) && forall k | i < k < n :: !Breaks(calls, k)
  }

  /** The segment that is active before call `n` was opened by call `i`. */
  ghost predicate Opens(calls: seq<Call>, i: nat, n: nat) { Lives(calls, i, n) && forall h | 0 <= h < i :: !Lives(calls, h, n) }

  lemma OverlapFits(left: seq<Sample>, right: seq<Sample>)
    ensures Overlap(left, right) <= |right|
  {
    OverlapIsLongest(left, right);
  }

  /** Two pieces joined at their longest overlap. */
  function JoinedTo(left: seq<Sample>, right: seq<Sample>): seq<Sample> {
    OverlapFits(left, right);
    left + right[Overlap(left, right)..]
  }

  /** The audio of the calls from `i` on, each joined to what was there at its longest overlap, or appended. */
  function Collected(calls: seq<Call>, i: nat, n: nat): seq<Sample>
    requires i <= n <= |calls|
  {
    if n == i then []
    else
      var before, call := Collected(calls, i, n - 1), calls[n - 1];
      if !Brings(call) then before
      else if call.Extend? || n - 1 == i then before + call.audio
      else JoinedTo(before, call.audio)
  }

  ghost predicate Describes(calls: seq<Call>, i: nat, n: nat, s: Segment) {
    && Opens(calls, i, n) && s.displayId == calls[i].id && s.frame == calls[i].frame
    && s.rangeStart == (if calls[i].endSample < |calls[i].audio| then 0 else calls[i].endSample - |calls[i].audio|)
    && Some(s.currentId) == LastId(calls, n) && Flatten(s.chunks) == Collected(calls, i, n)
  }

  /** Whether anything is active, and what, before call `n`. */
  ghost predicate Tells(calls: seq<Call>, n: nat, active: Option<Segment>) {
    && (active.None? ==> forall i: nat :: !Lives(calls, i, n))
    && (active.Some? ==> exists i :: Describes(calls, i, n, active.value))
  }

  lemma LivesNext(calls: seq<Call>, i: nat, n: nat, m: nat)
    requires m == n + 1 <= |calls|
    ensures Lives(calls, i, m) <==> (Lives(calls, i, n) && !Breaks(calls, n)) || (i == n && Brings(calls[n]))
  {}

  /** A call that brings audio follows on exactly if the accumulator takes it for a continuation. */
  lemma FollowsOn(calls: seq<Call>, n: nat, i: nat, s: Segment)
    requires n < |calls| && Brings(calls[n]) && Describes(calls, i, n, s)
    ensures Continues(Some(s), calls[n]) <==> !Breaks(calls, n)
  {}

  lemma DeltaKeeps(s: Segment)
    ensures var t := Delta(s).active;
      t.Some? && t.value.displayId == s.displayId && t.value.currentId == s.currentId && t.value.frame == s.frame
      && t.value.rangeStart == s.rangeStart && t.value.chunks == s.chunks
  {}

  lemma Joined(s: Segment, call: Call)
    requires Brings(call) && Continues(Some(s), call)
    ensures var t := Apply(Some(s), call).active;
      && t.Some? && t.value.displayId == s.displayId && t.value.currentId == call.id && t.value.frame == s.frame && t.value.rangeStart == s.rangeStart
      && Flatten(t.value.chunks) == if call.Extend? then Flatten(s.chunks) + call.audio else JoinedTo(Flatten(s.chunks), call.audio)
  {
    hide Flatten, Overlap, Delta, Filled;
    DeltaKeeps(s.(currentId := call.id, chunks := s.chunks + Added(s, call)));
    FlattenAppend(s.chunks, Added(s, call));
    if call.Extend? {
      FlattenOne(Chunk(call.audio, call.vad));
    } else {
      OverlapIsLongest(Flatten(s.chunks), call.audio);
      ChunksOfKeepAudio(call.audio, call.vads);
      OverlapFits(Flatten(s.chunks), call.audio);
      DropPrefixDrops(ChunksOf(call.audio, call.vads), Overlap(Flatten(s.chunks), call.audio));
    }
  }

  lemma NewSegment(active: Option<Segment>, call: Call)
    requires Brings(call) && !Continues(active, call)
    ensures var t := Apply(active, call).active;
      && t.Some? && t.value.displayId == t.value.currentId == call.id && t.value.frame == call.frame
      && t.value.rangeStart == (if call.endSample < |call.audio| then 0 else call.endSample - |call.audio|)
      && Flatten(t.value.chunks) == call.audio
  {
    hide Flatten, Delta, Filled, ChunksOf;
    var chunks := if call.Start? then ChunksOf(call.audio, call.vads) else [Chunk(call.audio, call.vad)];
    DeltaKeeps(Opened(call.id, chunks, |call.audio|, call.endSample, call.frame));
    if call.Start? { ChunksOfKeepAudio(call.audio, call.vads); } else { FlattenOne(Chunk(call.audio, call.vad)); }
  }

  /** One more call. */
  lemma OneCall(calls: seq<Call>, n: nat, active: Option<Segment>)
    requires n < |calls| && Tells(calls, n, active)
    ensures Tells(calls, n + 1, Apply(active, calls[n]).active)
  {
    hide Flatten, Delta, JoinedTo, Opened, Added, Continues, Breaks;
    var call, after, m := calls[n], Apply(active, calls[n]).active, n + 1;
    forall i: nat ensures Lives(calls, i, m) <==> (Lives(calls, i, n) && !Breaks(calls, n)) || (i == n && Brings(calls[n])) {
      LivesNext(calls, i, n, m);
    }
    if Brings(call) {
      if active.Some? {
        var i :| Describes(calls, i, n, active.value);
        FollowsOn(calls, n, i, active.value);
        if Continues(active, call) {
          Joined(active.value, call);
          assert Describes(calls, i, m, after.value);
        } else {
          NewSegment(active, call);
          Fresh(calls, n, m, after.value);
        }
      } else {
        NothingContinues(call);
        NewSegment(active, call);
        Fresh(calls, n, m, after.value);
      }
    } else {
      Otherwise(calls, n, active);
    }
  }

  lemma NothingContinues(call: Call)
    ensures !Continues(None, call)
  {}

  lemma Fresh(calls: seq<Call>, n: nat, m: nat, s: Segment)
    requires m == n + 1 <= |calls| && Brings(calls[n]) && forall i: nat | i < n :: !Lives(calls, i, m)
    requires s.displayId == s.currentId == calls[n].id && s.frame == calls[n].frame && Flatten(s.chunks) == calls[n].audio
    requires s.rangeStart == (if calls[n].endSample < |calls[n].audio| then 0 else calls[n].endSample - |calls[n].audio|)
    ensures Describes(calls, n, m, s)
  {
    hide Flatten, Breaks;
    assert Collected(calls, n, n) == [] && [] + calls[n].audio == calls[n].audio;
    assert Lives(calls, n, m);
  }

  /** A call without audio clears the segment or leaves it as it is. */
  lemma Otherwise(calls: seq<Call>, n: nat, active: Option<Segment>)
    requires n < |calls| && !Brings(calls[n]) && Tells(calls, n, active)
    ensures Tells(calls, n + 1, Apply(active, calls[n]).active)
  {
    hide Flatten, Delta, JoinedTo, Opened, Added, Continues;
    var m := n + 1;
    forall i: nat ensures Lives(calls, i, m) <==> Lives(calls, i, n) && !Breaks(calls, n) { LivesNext(calls, i, n, m); }
    if active.Some? {
      var i :| Describes(calls, i, n, active.value);
      assert Breaks(calls, n) <==> Apply(active, calls[n]).active.None?;
      if !Breaks(calls, n) { assert Describes(calls, i, m, active.value); }
    }
  }

  /**
   * Over every run of calls: a segment is active exactly if some call brought audio and nothing has ended its segment since. It
   * has the display id, the frame and the start of the first such call, the id under which audio came last, and the audio of all
   * of them, joined.
   */
  lemma {:induction false} ActiveIs(calls: seq<Call>, n: nat)
    requires n <= |calls|
    ensures Tells(calls, n, History(calls[..n]).active)
  {
    hide Tells, Apply;
    if n == 0 {
      NothingYet(calls);
    } else {
      ActiveIs(calls, n - 1);
      assert calls[..n][..n - 1] == calls[..n - 1];
      OneCall(calls, n - 1, History(calls[..n - 1]).active);
    }
  }

  lemma NothingYet(calls: seq<Call>)
    ensures Tells(calls, 0, History(calls[..0]).active)
  {}
}
