/** The performance of a choreography plan against the robot: each trigger posts the move to
    the daemon; each chunk is synthesised, played and its temporary file unlinked in a
    `finally`, so that every temporary path `text_to_speech` returns is played and then
    unlinked by the next two calls, whatever either of them raised. */
module Performance {
  import opened Wrappers
  import opened Text
  import opened Markers
  import opened Choreography
  import opened Media

  /** `speak` fires every move from the emotions library. */
  const Library: string := "emotions"

  /** The events of a run and the message of the exception that ended it, if any. */
  datatype Run = Run(events: seq<Event>, failure: Option<string>)

  function Prepend(events: seq<Event>, r: Run): Run
  {
    Run(events + r.events, r.failure)
  }

  /** One spoken chunk at clock `c`: synthesis, then playback of the temporary file, then its
      unlink whatever playback did. An exception from the unlink replaces one from playback. */
  function SayRun(w: World, c: nat, text: string): Run
  {
    match w.tts(c, text)
    case Raised(e) => Run([Synthesized(text, Err(e))], Some(e))
    case Done =>
      var played := w.play(c + 1, TempAudio(c));
      var unlinked := w.unlink(c + 2, c);
      Run([Synthesized(text, Ok(c)), Played(TempAudio(c), played), Unlinked(c, unlinked)],
          if unlinked.Raised? then Some(unlinked.error)
          else if played.Raised? then Some(played.error)
          else None)
  }

  /** The reference run of a plan from clock `c`: the first exception ends it. */
  function Execute(w: World, c: nat, steps: seq<Step>): Run
    decreases |steps|
  {
    if steps == [] then Run([], None)
    else match steps[0]
      case Trigger(n) =>
        Prepend([MovePosted(Library, n, w.daemon(c, Library, n))], Execute(w, c + 1, steps[1..]))
      case Say(x) =>
        var s := SayRun(w, c, x);
        if s.failure.Some? then s else Prepend(s.events, Execute(w, c + |s.events|, steps[1..]))
  }

  // ---------------------------------------------------------------- temporary-file cleanup

  /** Every synthesised temporary file is played and then unlinked, by the next two events. */
  predicate CleansUp(events: seq<Event>)
  {
    forall i :: 0 <= i < |events| && events[i].Synthesized? && events[i].audio.Ok? ==>
      && i + 2 < |events|
      && events[i + 1].Played? && events[i + 1].sound == TempAudio(events[i].audio.value)
      && events[i + 2].Unlinked? && events[i + 2].file == events[i].audio.value
  }

  /** The same, read from the front of the trace. */
  predicate Protocol(events: seq<Event>)
    decreases |events|
  {
    if events == [] then true
    else if events[0].Synthesized? && events[0].audio.Ok? then
      var f := events[0].audio.value;
      && |events| >= 3
      && events[1].Played? && events[1].sound == TempAudio(f)
      && events[2].Unlinked? && events[2].file == f
      && Protocol(events[3..])
    else Protocol(events[1..])
  }

  lemma ShiftCleansUp(events: seq<Event>, k: nat)
    requires k <= |events| && CleansUp(events[k..])
    requires forall i :: 0 <= i < k && events[i].Synthesized? && events[i].audio.Ok? ==>
      && i + 2 < |events|
      && events[i + 1].Played? && events[i + 1].sound == TempAudio(events[i].audio.value)
      && events[i + 2].Unlinked? && events[i + 2].file == events[i].audio.value
    ensures CleansUp(events)
  {
    forall i | k <= i < |events| && events[i].Synthesized? && events[i].audio.Ok?
      ensures i + 2 < |events|
      ensures events[i + 1].Played? && events[i + 1].sound == TempAudio(events[i].audio.value)
      ensures events[i + 2].Unlinked? && events[i + 2].file == events[i].audio.value
    {
      assert events[k..][i - k] == events[i];
      assert events[k..][i - k + 1] == events[i + 1];
      assert events[k..][i - k + 2] == events[i + 2];
    }
  }

  lemma {:induction false} ProtocolCleansUp(events: seq<Event>)
    requires Protocol(events)
    ensures CleansUp(events)
    decreases |events|
  {
    if events == [] {
    } else if events[0].Synthesized? && events[0].audio.Ok? {
      ProtocolCleansUp(events[3..]);
      ShiftCleansUp(events, 3);
    } else {
      ProtocolCleansUp(events[1..]);
      ShiftCleansUp(events, 1);
    }
  }

  lemma ProtocolPrepend(e: Event, r: seq<Event>)
    requires !(e.Synthesized? && e.audio.Ok?) && Protocol(r)
    ensures Protocol([e] + r)
  {
    assert ([e] + r)[1..] == r;
  }

  lemma SayRunProtocol(w: World, c: nat, text: string, r: seq<Event>)
    requires Protocol(r)
    ensures Protocol(SayRun(w, c, text).events + r)
  {
    var s := SayRun(w, c, text).events;
    if w.tts(c, text).Raised? {
      ProtocolPrepend(s[0], r);
      assert s + r == [s[0]] + r;
    } else {
      assert (s + r)[3..] == r;
    }
  }

  /** Whatever the world answers, every temporary path `text_to_speech` returns in the run of
      a plan is played and then unlinked by the next two calls. */
  lemma {:induction false} ExecuteProtocol(w: World, c: nat, steps: seq<Step>)
    ensures Protocol(Execute(w, c, steps).events)
    decreases |steps|
  {
    if steps != [] {
      match steps[0]
      case Trigger(n) =>
        ExecuteProtocol(w, c + 1, steps[1..]);
        ProtocolPrepend(MovePosted(Library, n, w.daemon(c, Library, n)), Execute(w, c + 1, steps[1..]).events);
      case Say(x) =>
        var s := SayRun(w, c, x);
        if s.failure.Some? {
          SayRunProtocol(w, c, x, []);
          assert s.events + [] == s.events;
        } else {
          ExecuteProtocol(w, c + |s.events|, steps[1..]);
          SayRunProtocol(w, c, x, Execute(w, c + |s.events|, steps[1..]).events);
        }
    }
  }

  lemma ExecuteCleansUp(w: World, c: nat, steps: seq<Step>)
    ensures CleansUp(Execute(w, c, steps).events)
  {
    ExecuteProtocol(w, c, steps);
    ProtocolCleansUp(Execute(w, c, steps).events);
  }

  // ---------------------------------------------------------------- the moves and chunks of a run

  /** The moves posted to the daemon, in order. */
  function PostedMoves(events: seq<Event>): seq<string>
    decreases |events|
  {
    if events == [] then []
    else if events[0].MovePosted? then [events[0].name] + PostedMoves(events[1..])
    else PostedMoves(events[1..])
  }

  /** The texts sent to speech synthesis, in order. */
  function SynthesizedTexts(events: seq<Event>): seq<string>
    decreases |events|
  {
    if events == [] then []
    else if events[0].Synthesized? then [events[0].text] + SynthesizedTexts(events[1..])
    else SynthesizedTexts(events[1..])
  }

  lemma QuietPrepend(e: Event, r: seq<Event>)
    requires !e.MovePosted?
    ensures PostedMoves([e] + r) == PostedMoves(r)
    ensures SynthesizedTexts([e] + r) == (if e.Synthesized? then [e.text] else []) + SynthesizedTexts(r)
  {
    assert ([e] + r)[1..] == r;
  }

  lemma SayRunContents(w: World, c: nat, text: string, r: seq<Event>)
    ensures PostedMoves(SayRun(w, c, text).events + r) == PostedMoves(r)
    ensures SynthesizedTexts(SayRun(w, c, text).events + r) == [text] + SynthesizedTexts(r)
  {
    var s := SayRun(w, c, text).events;
    if w.tts(c, text).Raised? {
      assert s + r == [s[0]] + r;
      QuietPrepend(s[0], r);
    } else {
      assert s + r == [s[0]] + ([s[1]] + ([s[2]] + r));
      QuietPrepend(s[2], r);
      QuietPrepend(s[1], [s[2]] + r);
      QuietPrepend(s[0], [s[1]] + ([s[2]] + r));
    }
  }

  lemma PostPrepend(e: Event, r: seq<Event>)
    requires e.MovePosted?
    ensures PostedMoves([e] + r) == [e.name] + PostedMoves(r)
    ensures SynthesizedTexts([e] + r) == SynthesizedTexts(r)
  {
    assert ([e] + r)[1..] == r;
  }

  /** A run that ends normally posts exactly the plan's triggers and synthesises exactly its
      chunks, each in plan order, whatever the daemon answered. */
  lemma {:induction false} ExecuteFollowsPlan(w: World, c: nat, steps: seq<Step>)
    requires Execute(w, c, steps).failure.None?
    ensures PostedMoves(Execute(w, c, steps).events) == TriggersOf(steps)
    ensures SynthesizedTexts(Execute(w, c, steps).events) == SaysOf(steps)
    decreases |steps|
  {
    if steps != [] {
      match steps[0]
      case Trigger(n) =>
        ExecuteFollowsPlan(w, c + 1, steps[1..]);
        PostPrepend(MovePosted(Library, n, w.daemon(c, Library, n)), Execute(w, c + 1, steps[1..]).events);
      case Say(x) =>
        var s := SayRun(w, c, x);
        ExecuteFollowsPlan(w, c + |s.events|, steps[1..]);
        SayRunContents(w, c, x, Execute(w, c + |s.events|, steps[1..]).events);
    }
  }

  /** No two move requests side by side. */
  predicate NoDoublePost(events: seq<Event>)
    decreases |events|
  {
    |events| <= 1 || (!(events[0].MovePosted? && events[1].MovePosted?) && NoDoublePost(events[1..]))
  }

  lemma SayRunNoDoublePost(w: World, c: nat, text: string, r: seq<Event>)
    requires NoDoublePost(r)
    ensures NoDoublePost(SayRun(w, c, text).events + r)
  {
    var s := SayRun(w, c, text).events;
    if w.tts(c, text).Raised? {
      assert (s + r)[1..] == r;
    } else {
      assert (s + r)[1..] == [s[1], s[2]] + r;
      assert ([s[1], s[2]] + r)[1..] == [s[2]] + r;
      assert ([s[2]] + r)[1..] == r;
    }
  }

  lemma SayStartsWithSynthesis(w: World, c: nat, steps: seq<Step>)
    requires steps != [] && steps[0].Say?
    ensures Execute(w, c, steps).events != [] && Execute(w, c, steps).events[0].Synthesized?
  {
  }

  lemma PostNoDoublePost(e: Event, r: seq<Event>)
    requires NoDoublePost(r) && (r == [] || !r[0].MovePosted?)
    ensures NoDoublePost([e] + r)
  {
    assert ([e] + r)[1..] == r;
  }

  /** A plan without two triggers side by side never sends two move requests in a row. */
  lemma {:induction false} ExecuteNoDoublePost(w: World, c: nat, steps: seq<Step>)
    requires NoDoubleTrigger(steps)
    ensures NoDoublePost(Execute(w, c, steps).events)
    decreases |steps|
  {
    if steps != [] {
      var rest := steps[1..];
      assert NoDoubleTrigger(rest);
      match steps[0]
      case Trigger(n) =>
        ExecuteNoDoublePost(w, c + 1, rest);
        if rest != [] {
          assert rest[0] == steps[1];
          SayStartsWithSynthesis(w, c + 1, rest);
        }
        PostNoDoublePost(MovePosted(Library, n, w.daemon(c, Library, n)), Execute(w, c + 1, rest).events);
      case Say(x) =>
        var s := SayRun(w, c, x);
        if s.failure.Some? {
          SayRunNoDoublePost(w, c, x, []);
          assert s.events + [] == s.events;
        } else {
          ExecuteNoDoublePost(w, c + |s.events|, rest);
          SayRunNoDoublePost(w, c, x, Execute(w, c + |s.events|, rest).events);
        }
    }
  }

  // ---------------------------------------------------------------- the loop of `speak`

  /** The calls made for one chunk: synthesis, playback, and the unlink in a `finally`. */
  method SpeakChunk(robot: Robot, text: string) returns (failure: Option<string>)
    modifies robot
    ensures robot.trace == old(robot.trace) + SayRun(robot.world, |old(robot.trace)|, text).events
    ensures failure == SayRun(robot.world, |old(robot.trace)|, text).failure
  {
    var audio := robot.Synthesize(text);
    if audio.Err? {
      return Some(audio.message);
    }
    var played := robot.PlaySound(TempAudio(audio.value));
    var unlinked := robot.Unlink(audio.value);
    if unlinked.Raised? {
      failure := Some(unlinked.error);
    } else if played.Raised? {
      failure := Some(played.error);
    } else {
      failure := None;
    }
  }

  /** The trace so far, followed by the run of `rest` from here, is the trace the run started
      from followed by the whole run. */
  ghost predicate Resumes(robot: Robot, t0: seq<Event>, whole: Run, rest: seq<Step>)
    reads robot
  {
    var r := Execute(robot.world, |robot.trace|, rest);
    t0 + whole.events == robot.trace + r.events && whole.failure == r.failure
  }

  lemma ResumeTrigger(w: World, trace: seq<Event>, t0: seq<Event>, whole: Run, name: string, rest: seq<Step>)
    requires var r := Execute(w, |trace|, [Trigger(name)] + rest);
      t0 + whole.events == trace + r.events && whole.failure == r.failure
    ensures var r := Execute(w, |trace| + 1, rest);
      var e := MovePosted(Library, name, w.daemon(|trace|, Library, name));
      t0 + whole.events == (trace + [e]) + r.events && whole.failure == r.failure
  {
    var steps := [Trigger(name)] + rest;
    assert steps[0] == Trigger(name) && steps[1..] == rest;
    var e := MovePosted(Library, name, w.daemon(|trace|, Library, name));
    Assoc(trace, [e], Execute(w, |trace| + 1, rest).events);
  }

  lemma ResumeSay(w: World, trace: seq<Event>, t0: seq<Event>, whole: Run, text: string, rest: seq<Step>)
    requires var r := Execute(w, |trace|, [Say(text)] + rest);
      t0 + whole.events == trace + r.events && whole.failure == r.failure
    ensures var s := SayRun(w, |trace|, text);
      && (s.failure.Some? ==> t0 + whole.events == trace + s.events && whole.failure == s.failure)
      && (s.failure.None? ==>
            var r := Execute(w, |trace + s.events|, rest);
            t0 + whole.events == (trace + s.events) + r.events && whole.failure == r.failure)
  {
    var steps := [Say(text)] + rest;
    assert steps[0] == Say(text) && steps[1..] == rest;
    var s := SayRun(w, |trace|, text);
    if s.failure.None? {
      Assoc(trace, s.events, Execute(w, |trace| + |s.events|, rest).events);
    }
  }

  /** Fires a pending move: the daemon's answer is not looked at. */
  method FireMove(robot: Robot, name: string, ghost t0: seq<Event>, ghost whole: Run, ghost rest: seq<Step>)
    requires Resumes(robot, t0, whole, [Trigger(name)] + rest)
    modifies robot
    ensures Resumes(robot, t0, whole, rest)
  {
    ghost var before := robot.trace;
    var reply := robot.PostMove(Library, name);
    ResumeTrigger(robot.world, before, t0, whole, name, rest);
  }

  method SayStep(robot: Robot, text: string, ghost t0: seq<Event>, ghost whole: Run, ghost rest: seq<Step>)
      returns (failure: Option<string>)
    requires Resumes(robot, t0, whole, [Say(text)] + rest)
    modifies robot
    ensures failure.None? ==> Resumes(robot, t0, whole, rest)
    ensures failure.Some? ==> robot.trace == t0 + whole.events && failure == whole.failure
  {
    ghost var before := robot.trace;
    failure := SpeakChunk(robot, text);
    ResumeSay(robot.world, before, t0, whole, text, rest);
  }

  lemma TriggersOfChunk(pending: Option<string>, text: string, rest: seq<Step>)
    ensures TriggersOf(Flush(pending) + ([Say(text)] + rest)) == TriggersOf(Flush(pending)) + TriggersOf(rest)
  {
    var tail := [Say(text)] + rest;
    assert tail[1..] == rest;
    if Fires(pending) {
      assert (Flush(pending) + tail)[1..] == tail;
      assert TriggersOf(Flush(pending)) == [pending.value] + TriggersOf([]);
    } else {
      assert Flush(pending) + tail == tail;
    }
  }

  /** One segment of the loop, read off the plan and the chunk list. */
  lemma SegmentStep(pending: Option<string>, segs: seq<Segment>, i: nat)
    requires i < |segs|
    ensures segs[i].Move? ==>
      PlanFrom(pending, segs[i..]) == PlanFrom(Some(segs[i].name), segs[i + 1..])
      && Chunks(segs[i..]) == Chunks(segs[i + 1..])
    ensures segs[i].Text? && !IsChunk(segs[i]) ==>
      PlanFrom(pending, segs[i..]) == PlanFrom(pending, segs[i + 1..])
      && Chunks(segs[i..]) == Chunks(segs[i + 1..])
    ensures IsChunk(segs[i]) ==>
      var x := Strip(segs[i].content);
      PlanFrom(pending, segs[i..]) == Flush(pending) + ([Say(x)] + PlanFrom(Cleared(pending), segs[i + 1..]))
      && Chunks(segs[i..]) == [x] + Chunks(segs[i + 1..])
  {
    assert segs[i..][0] == segs[i] && segs[i..][1..] == segs[i + 1..];
  }

  /** The chunk branch of the loop: fire what is pending, then speak. */
  method PerformChunk(robot: Robot, content: string, pending: Option<string>, moves: seq<string>,
                      ghost t0: seq<Event>, ghost whole: Run, ghost tail: seq<Step>)
      returns (pending': Option<string>, moves': seq<string>, failure: Option<string>)
    requires Resumes(robot, t0, whole, Flush(pending) + ([Say(content)] + tail))
    modifies robot
    ensures pending' == Cleared(pending) && moves' == moves + TriggersOf(Flush(pending))
    ensures failure.None? ==> Resumes(robot, t0, whole, tail)
    ensures failure.Some? ==> robot.trace == t0 + whole.events && failure == whole.failure
  {
    pending', moves' := pending, moves;
    if Fires(pending) {
      FireMove(robot, pending.value, t0, whole, [Say(content)] + tail);
      assert TriggersOf(Flush(pending)) == [pending.value] + TriggersOf([]);
      moves' := moves + [pending.value];
      pending' := None;
    } else {
      assert Flush(pending) + ([Say(content)] + tail) == [Say(content)] + tail;
      assert moves + TriggersOf([]) == moves;
    }
    failure := SayStep(robot, content, t0, whole, tail);
  }

  /** Where the loop stands after the first `i` segments: what remains of the run, and the
      chunks and moves still to come. */
  ghost predicate Progress(robot: Robot, t0: seq<Event>, whole: Run, segments: seq<Segment>, i: nat,
                           pending: Option<string>, spoken: seq<string>, moves: seq<string>)
    requires i <= |segments|
    reads robot
  {
    && Resumes(robot, t0, whole, PlanFrom(pending, segments[i..]))
    && spoken + Chunks(segments[i..]) == Chunks(segments)
    && moves + TriggersOf(PlanFrom(pending, segments[i..])) == TriggersOf(Plan(segments))
  }

  /** The body of the loop for a chunk. */
  method ChunkSegment(robot: Robot, segments: seq<Segment>, i: nat, pending: Option<string>,
                      spoken: seq<string>, moves: seq<string>, ghost t0: seq<Event>, ghost whole: Run)
      returns (pending': Option<string>, spoken': seq<string>, moves': seq<string>, failure: Option<string>)
    requires i < |segments| && IsChunk(segments[i])
    requires Progress(robot, t0, whole, segments, i, pending, spoken, moves)
    modifies robot
    ensures failure.None? ==> Progress(robot, t0, whole, segments, i + 1, pending', spoken', moves')
    ensures failure.Some? ==> robot.trace == t0 + whole.events && failure == whole.failure
  {
    SegmentStep(pending, segments, i);
    var content := Strip(segments[i].content);
    ghost var tail := PlanFrom(Cleared(pending), segments[i + 1..]);
    TriggersOfChunk(pending, content, tail);
    Assoc(moves, TriggersOf(Flush(pending)), TriggersOf(tail));
    Assoc(spoken, [content], Chunks(segments[i + 1..]));
    pending', moves', failure := PerformChunk(robot, content, pending, moves, t0, whole, tail);
    spoken' := spoken + [content];
  }

  /** The body of the loop: a marker fills the slot, blank text is skipped, a chunk is
      performed. */
  method PerformSegment(robot: Robot, segments: seq<Segment>, i: nat, pending: Option<string>,
                        spoken: seq<string>, moves: seq<string>, ghost t0: seq<Event>, ghost whole: Run)
      returns (pending': Option<string>, spoken': seq<string>, moves': seq<string>, failure: Option<string>)
    requires i < |segments|
    requires Progress(robot, t0, whole, segments, i, pending, spoken, moves)
    modifies robot
    ensures failure.None? ==> Progress(robot, t0, whole, segments, i + 1, pending', spoken', moves')
    ensures failure.Some? ==> robot.trace == t0 + whole.events && failure == whole.failure
  {
    pending', spoken', moves', failure := pending, spoken, moves, None;
    match segments[i]
    case Move(name) =>
      SegmentStep(pending, segments, i);
      pending' := Some(name);
    case Text(c) =>
      if Strip(c) != "" {
        pending', spoken', moves', failure := ChunkSegment(robot, segments, i, pending, spoken, moves, t0, whole);
      } else {
        SegmentStep(pending, segments, i);
      }
  }

  /** After the last segment: fire the move still pending, if any. */
  method FireTrailing(robot: Robot, pending: Option<string>, moves: seq<string>,
                      ghost t0: seq<Event>, ghost whole: Run, ghost fired: seq<string>)
      returns (moves': seq<string>)
    requires Resumes(robot, t0, whole, Flush(pending))
    requires moves + TriggersOf(Flush(pending)) == fired
    modifies robot
    ensures robot.trace == t0 + whole.events && whole.failure.None?
    ensures moves' == fired
  {
    moves' := moves;
    if Fires(pending) {
      FireMove(robot, pending.value, t0, whole, []);
      assert TriggersOf(Flush(pending)) == [pending.value] + TriggersOf([]);
      moves' := moves + [pending.value];
    } else {
      assert moves + TriggersOf([]) == moves;
    }
    assert robot.trace + [] == robot.trace;
  }

  lemma ProgressAtStart(robot: Robot, segments: seq<Segment>)
    ensures Progress(robot, robot.trace, Execute(robot.world, |robot.trace|, Plan(segments)), segments, 0,
                     None, [], [])
  {
    assert segments[0..] == segments;
  }

  lemma ProgressAtEnd(robot: Robot, t0: seq<Event>, whole: Run, segments: seq<Segment>,
                      pending: Option<string>, spoken: seq<string>, moves: seq<string>)
    requires Progress(robot, t0, whole, segments, |segments|, pending, spoken, moves)
    ensures Resumes(robot, t0, whole, Flush(pending))
    ensures moves + TriggersOf(Flush(pending)) == TriggersOf(Plan(segments))
    ensures spoken == Chunks(segments)
  {
    assert segments[|segments|..] == [];
    assert spoken + [] == spoken;
  }

  /** The choreography branch of `speak` over parsed segments: the run of the plan, and on
      success the chunks spoken and the moves fired, in order. */
  method Choreograph(robot: Robot, segments: seq<Segment>)
      returns (spoken: seq<string>, moves: seq<string>, failure: Option<string>)
    modifies robot
    ensures var r := Execute(robot.world, |old(robot.trace)|, Plan(segments));
      robot.trace == old(robot.trace) + r.events && failure == r.failure
    ensures failure.None? ==> spoken == Chunks(segments) && moves == TriggersOf(Plan(segments))
  {
    ghost var t0 := robot.trace;
    ghost var whole := Execute(robot.world, |t0|, Plan(segments));
    var pending: Option<string> := None;
    spoken, moves, failure := [], [], None;
    ProgressAtStart(robot, segments);
    var i := 0;
    while i < |segments|
      invariant 0 <= i <= |segments|
      invariant Progress(robot, t0, whole, segments, i, pending, spoken, moves)
      invariant failure.None?
    {
      pending, spoken, moves, failure := PerformSegment(robot, segments, i, pending, spoken, moves, t0, whole);
      if failure.Some? {
        return;
      }
      i := i + 1;
    }
    ProgressAtEnd(robot, t0, whole, segments, pending, spoken, moves);
    moves := FireTrailing(robot, pending, moves, t0, whole, TriggersOf(Plan(segments)));
  }
}
