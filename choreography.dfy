/** The policy `speak` follows for a marked-up text: which moves it fires and which chunks
    it speaks, in what order. A move waits in a single pending slot until the next chunk
    that is not blank once trimmed; a later marker overwrites a move that has not fired. */
module Choreography {
  import opened Wrappers
  import opened Text
  import opened Markers

  /** One step of a performance: fire a recorded move, or speak a chunk. */
  datatype Step = Trigger(name: string) | Say(chunk: string)

  /** Python truthiness of the pending slot: neither `None` nor the empty name fires. */
  predicate Fires(pending: Option<string>)
  {
    pending.Some? && pending.value != ""
  }

  /** The trigger a pending slot contributes when it is flushed. */
  function Flush(pending: Option<string>): seq<Step>
  {
    if Fires(pending) then [Trigger(pending.value)] else []
  }

  /** The slot after a flush: a move that fired is cleared, a falsy one stays as it was. */
  function Cleared(pending: Option<string>): Option<string>
  {
    if Fires(pending) then None else pending
  }

  /** A text segment that is spoken: not blank once trimmed. */
  predicate IsChunk(s: Segment)
  {
    s.Text? && Strip(s.content) != ""
  }

  /** The steps taken for `segs` when `pending` is waiting in the slot. */
  function PlanFrom(pending: Option<string>, segs: seq<Segment>): seq<Step>
    decreases |segs|
  {
    if segs == [] then Flush(pending)
    else if segs[0].Move? then PlanFrom(Some(segs[0].name), segs[1..])
    else if IsChunk(segs[0]) then
      Flush(pending) + ([Say(Strip(segs[0].content))] + PlanFrom(Cleared(pending), segs[1..]))
    else PlanFrom(pending, segs[1..])
  }

  /** The performance of a parsed text: the slot starts empty. */
  function Plan(segs: seq<Segment>): seq<Step>
  {
    PlanFrom(None, segs)
  }

  /** The chunks a text holds: its trimmed non-blank text segments, in order. */
  function Chunks(segs: seq<Segment>): seq<string>
    decreases |segs|
  {
    if segs == [] then []
    else if IsChunk(segs[0]) then [Strip(segs[0].content)] + Chunks(segs[1..])
    else Chunks(segs[1..])
  }

  /** The chunks a plan speaks, in order. */
  function SaysOf(steps: seq<Step>): seq<string>
    decreases |steps|
  {
    if steps == [] then []
    else if steps[0].Say? then [steps[0].chunk] + SaysOf(steps[1..])
    else SaysOf(steps[1..])
  }

  /** The moves a plan fires, in order: what `moves_triggered` reports. */
  function TriggersOf(steps: seq<Step>): seq<string>
    decreases |steps|
  {
    if steps == [] then []
    else if steps[0].Trigger? then [steps[0].name] + TriggersOf(steps[1..])
    else TriggersOf(steps[1..])
  }

  lemma {:induction false} SaysOfAppend(a: seq<Step>, b: seq<Step>)
    ensures SaysOf(a + b) == SaysOf(a) + SaysOf(b)
    decreases |a|
  {
    if a == [] {
      assert a + b == b;
    } else {
      assert (a + b)[0] == a[0];
      assert (a + b)[1..] == a[1..] + b;
      SaysOfAppend(a[1..], b);
    }
  }

  lemma SaysOfFlush(pending: Option<string>)
    ensures SaysOf(Flush(pending)) == []
  {
    if Fires(pending) {
      assert SaysOf(Flush(pending)) == SaysOf([]);
    }
  }

  /** The chunks spoken are exactly the trimmed non-blank text segments, in source order,
      whatever is waiting in the slot. */
  lemma {:induction false} PlanSpeaksChunks(pending: Option<string>, segs: seq<Segment>)
    ensures SaysOf(PlanFrom(pending, segs)) == Chunks(segs)
    decreases |segs|
  {
    if segs == [] {
      SaysOfFlush(pending);
    } else if segs[0].Move? {
      PlanSpeaksChunks(Some(segs[0].name), segs[1..]);
    } else if IsChunk(segs[0]) {
      var s := Strip(segs[0].content);
      var rest := PlanFrom(Cleared(pending), segs[1..]);
      PlanSpeaksChunks(Cleared(pending), segs[1..]);
      SaysOfAppend(Flush(pending), [Say(s)] + rest);
      SaysOfFlush(pending);
      assert ([Say(s)] + rest)[1..] == rest;
    } else {
      PlanSpeaksChunks(pending, segs[1..]);
    }
  }

  /** No chunk in `segs`: only moves and blank text. */
  predicate Quiet(segs: seq<Segment>)
  {
    forall i :: 0 <= i < |segs| ==> !IsChunk(segs[i])
  }

  /** What the slot holds after a run of segments: the last marker's name, or what it held
      before when the run has no marker. */
  function LastMove(pending: Option<string>, segs: seq<Segment>): Option<string>
    decreases |segs|
  {
    if segs == [] then pending
    else LastMove(if segs[0].Move? then Some(segs[0].name) else pending, segs[1..])
  }

  lemma QuietTail(q: seq<Segment>)
    requires q != [] && Quiet(q)
    ensures !IsChunk(q[0]) && Quiet(q[1..])
  {
    assert forall i :: 0 <= i < |q[1..]| ==> q[1..][i] == q[i + 1];
  }

  /** Across a quiet run nothing is spoken and nothing fires: a later marker overwrites an
      unfired one and blank text keeps whatever is pending. */
  lemma {:induction false} QuietRunOverwrites(pending: Option<string>, q: seq<Segment>, rest: seq<Segment>)
    requires Quiet(q)
    ensures PlanFrom(pending, q + rest) == PlanFrom(LastMove(pending, q), rest)
    decreases |q|
  {
    if q == [] {
      assert q + rest == rest;
    } else {
      QuietTail(q);
      assert (q + rest)[0] == q[0];
      assert (q + rest)[1..] == q[1..] + rest;
      QuietRunOverwrites(if q[0].Move? then Some(q[0].name) else pending, q[1..], rest);
    }
  }

  /** The move left in the slot by a quiet run fires immediately before the next chunk, and
      the slot is cleared after it. */
  lemma FiresBeforeChunk(pending: Option<string>, q: seq<Segment>, t: Segment, rest: seq<Segment>)
    requires Quiet(q) && IsChunk(t)
    ensures var m := LastMove(pending, q);
      PlanFrom(pending, q + [t] + rest)
      == Flush(m) + ([Say(Strip(t.content))] + PlanFrom(Cleared(m), rest))
  {
    assert q + [t] + rest == q + ([t] + rest);
    QuietRunOverwrites(pending, q, [t] + rest);
    assert ([t] + rest)[0] == t && ([t] + rest)[1..] == rest;
  }

  /** A quiet run at the end of the text fires what its last marker left, exactly once. */
  lemma TrailingMoveFiresOnce(pending: Option<string>, q: seq<Segment>)
    requires Quiet(q)
    ensures PlanFrom(pending, q) == Flush(LastMove(pending, q))
    ensures |TriggersOf(PlanFrom(pending, q))| <= 1
  {
    assert q + [] == q;
    QuietRunOverwrites(pending, q, []);
    var f := Flush(LastMove(pending, q));
    if f != [] {
      assert TriggersOf(f) == [f[0].name] + TriggersOf([]);
    }
  }

  /** No two triggers side by side. */
  predicate NoDoubleTrigger(steps: seq<Step>)
    decreases |steps|
  {
    |steps| <= 1 || (!(steps[0].Trigger? && steps[1].Trigger?) && NoDoubleTrigger(steps[1..]))
  }

  lemma {:induction false} NoDoubleTriggerMeans(steps: seq<Step>)
    ensures NoDoubleTrigger(steps)
      <==> forall i :: 0 < i < |steps| ==> !(steps[i - 1].Trigger? && steps[i].Trigger?)
    decreases |steps|
  {
    if |steps| > 1 {
      NoDoubleTriggerMeans(steps[1..]);
      assert forall i :: 0 < i < |steps[1..]| ==> steps[1..][i - 1] == steps[i] && steps[1..][i] == steps[i + 1];
    }
  }

  lemma ChunkStepAlternates(pending: Option<string>, s: string, rest: seq<Step>)
    requires NoDoubleTrigger(rest)
    ensures NoDoubleTrigger(Flush(pending) + ([Say(s)] + rest))
  {
    var tail := [Say(s)] + rest;
    assert tail[1..] == rest;
    assert NoDoubleTrigger(tail);
    if Fires(pending) {
      var all := Flush(pending) + tail;
      assert all[1..] == tail && all[1] == Say(s);
    } else {
      assert Flush(pending) + tail == tail;
    }
  }

  /** Every trigger of a plan is followed by a spoken chunk or ends the plan. */
  lemma {:induction false} PlanAlternates(pending: Option<string>, segs: seq<Segment>)
    ensures NoDoubleTrigger(PlanFrom(pending, segs))
    decreases |segs|
  {
    if segs == [] {
    } else if segs[0].Move? {
      PlanAlternates(Some(segs[0].name), segs[1..]);
    } else if IsChunk(segs[0]) {
      PlanAlternates(Cleared(pending), segs[1..]);
      ChunkStepAlternates(pending, Strip(segs[0].content), PlanFrom(Cleared(pending), segs[1..]));
    } else {
      PlanAlternates(pending, segs[1..]);
    }
  }

  lemma LStripHi()
    ensures LStrip("Hi") == "Hi"
  {
  }

  lemma LStripSpaceHi()
    ensures LStrip(" Hi") == "Hi"
  {
    assert " Hi"[1..] == "Hi";
    LStripHi();
  }

  lemma RStripHi()
    ensures RStrip("Hi") == "Hi"
  {
  }

  lemma StripExample()
    ensures Strip(" Hi") == "Hi"
  {
    LStripSpaceHi();
    RStripHi();
  }

  /** A firing move followed by one chunk and nothing else. */
  lemma LoneChunk(name: string, c: string)
    requires name != "" && IsChunk(Text(c))
    ensures PlanFrom(Some(name), [Text(c)]) == [Trigger(name), Say(Strip(c))]
  {
    assert [Text(c)][1..] == [];
    assert PlanFrom(None, []) == [];
  }

  /** Two markers in a row, then a chunk: only the second fires, then the chunk is spoken. */
  lemma OverwriteExample()
    ensures Plan([Move("a"), Move("b"), Text(" Hi")]) == [Trigger("b"), Say("Hi")]
  {
    StripExample();
    LoneChunk("b", " Hi");
    var t := [Text(" Hi")];
    assert [Move("a"), Move("b"), Text(" Hi")][1..] == [Move("b")] + t;
    assert ([Move("b")] + t)[1..] == t;
  }

  /** The text `[move:a][move:b] Hi` itself: parsed and planned, only `b` fires, then `Hi`
      is spoken. */
  lemma ParsedOverwriteExample()
    ensures Plan(Parse(Sample)) == [Trigger("b"), Say("Hi")]
  {
    ParseSample();
    OverwriteExample();
  }
}
