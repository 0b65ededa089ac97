/** The tools of the server: `speak` with its three routes and its result assembly,
    `listen`, `show` with the expression table and recorded moves, `look` and `rest`. Each
    tool is a method that takes the robot, tied to a reference function of the world and the clock
    that gives the calls it makes and the string it returns. */
module Server {
  import opened Wrappers
  import opened Text
  import opened Poses
  import opened Clamps
  import opened Markers
  import opened Choreography
  import opened Media
  import opened Performance

  /** What a tool did: the calls it made, in order, and the string it returned. */
  datatype Reply = Reply(events: seq<Event>, text: string)

  lemma AppendNothing(trace: seq<Event>)
    ensures trace + [] == trace
  {
  }

  // ---------------------------------------------------------------- recorded moves

  /** The keys of the move-library table. */
  const MoveLibraries: seq<string> := ["emotions", "dances"]

  /** How `_do_play_move` reports the daemon's answer. */
  function MoveReport(library: string, name: string, reply: DaemonReply): string
  {
    match reply
    case Accepted(uuid) => "Playing: " + name + " (uuid: " + (if uuid.Some? then uuid.value else "unknown") + ")"
    case NotFound => "Move '" + name + "' not found in " + library + ". Use discover() to see available options."
    case Unreachable => "Cannot connect to daemon." + " Is it running on localhost:8321?"
    case Failed(e) => "Failed to play move: " + e
  }

  /** `_do_play_move`: an unknown library is refused before any request; otherwise one POST,
      whose answer is reported and never raised. */
  function PlayMoveRun(w: World, c: nat, name: string, library: string): Reply
  {
    if library !in MoveLibraries then
      Reply([], "Unknown library: " + library + ". Available: " + ListRepr(MoveLibraries))
    else
      var reply := w.daemon(c, library, name);
      Reply([MovePosted(library, name, reply)], MoveReport(library, name, reply))
  }

  /** Only an accepted request is reported as playing. */
  lemma PlayingOnlyWhenAccepted(library: string, name: string, reply: DaemonReply)
    ensures var s := MoveReport(library, name, reply);
      (|s| >= 9 && s[..9] == "Playing: ") <==> reply.Accepted?
  {
    var s := MoveReport(library, name, reply);
    match reply
    case Accepted(uuid) =>
      assert s[..9] == "Playing: ";
    case NotFound =>
      assert s[0] == 'M';
    case Unreachable =>
      assert s[0] == 'C';
    case Failed(e) =>
      assert s[0] == 'F';
  }

  /** A library outside the table makes no request; a known one makes exactly one. */
  lemma PlayMoveRequests(w: World, c: nat, name: string, library: string)
    ensures library !in MoveLibraries ==> PlayMoveRun(w, c, name, library).events == []
    ensures library in MoveLibraries ==>
      PlayMoveRun(w, c, name, library).events == [MovePosted(library, name, w.daemon(c, library, name))]
  {
  }

  /** A trigger of the choreography is `_do_play_move` on the emotions library. */
  lemma TriggerIsPlayMove(w: World, c: nat, name: string, rest: seq<Step>)
    ensures Execute(w, c, [Trigger(name)] + rest).events[..1] == PlayMoveRun(w, c, name, Library).events
  {
    var steps := [Trigger(name)] + rest;
    assert steps[0] == Trigger(name) && steps[1..] == rest;
  }

  method PlayMove(robot: Robot, name: string, library: string) returns (report: string)
    modifies robot
    ensures var r := PlayMoveRun(robot.world, |old(robot.trace)|, name, library);
      robot.trace == old(robot.trace) + r.events && report == r.text
  {
    if library !in MoveLibraries {
      AppendNothing(robot.trace);
      return "Unknown library: " + library + ". Available: " + ListRepr(MoveLibraries);
    }
    var reply := robot.PostMove(library, name);
    report := MoveReport(library, name, reply);
  }

  // ---------------------------------------------------------------- expressions, show, rest

  /** `_do_express`: an unknown name is answered before any motor call; a known one moves
      head and antennas to its table pose with its interpolation. */
  function ExpressRun(w: World, c: nat, emotion: string): Reply
  {
    match Expression(emotion)
    case None => Reply([], "Unknown emotion: " + emotion + ". Available: " + ListRepr(ExpressionNames))
    case Some(p) =>
      var o := w.motors(c);
      Reply([MovedHead(p.head, Some(p.antennas), p.duration, InterpolationFor(p.technique), o)],
            if o.Raised? then "Expression failed: " + o.error else "Expressed: " + emotion)
  }

  /** An unknown emotion makes no call at all and lists the table's names. */
  lemma UnknownEmotionMakesNoCall(w: World, c: nat, emotion: string)
    requires emotion !in ExpressionNames
    ensures ExpressRun(w, c, emotion).events == []
    ensures ExpressRun(w, c, emotion).text
      == "Unknown emotion: " + emotion + ". Available: " + ListRepr(ExpressionNames)
  {
  }

  /** Every emotion `show` offers makes one motor call, to a pose with a positive duration and
      antennas within [-45, 90] degrees. */
  lemma ShowEmotionMoves(w: World, c: nat, emotion: string)
    requires emotion in ShowEmotions
    ensures var ev := ExpressRun(w, c, emotion).events;
      && |ev| == 1 && ev[0].MovedHead?
      && ev[0].duration > 0.0 && ev[0].antennas.Some?
      && -45.0 <= ev[0].antennas.value.0 <= 90.0 && -45.0 <= ev[0].antennas.value.1 <= 90.0
  {
    ShowEmotionsCovered();
  }

  method Express(robot: Robot, emotion: string) returns (reply: string)
    modifies robot
    ensures var r := ExpressRun(robot.world, |old(robot.trace)|, emotion);
      robot.trace == old(robot.trace) + r.events && reply == r.text
  {
    var entry := Expression(emotion);
    if entry.None? {
      AppendNothing(robot.trace);
      return "Unknown emotion: " + emotion + ". Available: " + ListRepr(ExpressionNames);
    }
    var p := entry.value;
    var o := robot.MoveHead(p.head, Some(p.antennas), p.duration, InterpolationFor(p.technique));
    if o.Raised? {
      reply := "Expression failed: " + o.error;
    } else {
      reply := "Expressed: " + emotion;
    }
  }

  /** `show`: a non-empty move name plays that recorded move, otherwise the emotion. */
  function ShowRun(w: World, c: nat, emotion: string, move: string): Reply
  {
    if move != "" then PlayMoveRun(w, c, move, Library) else ExpressRun(w, c, emotion)
  }

  /** A non-empty move overrides the emotion: the emotion changes nothing, and the only call
      is the move request. */
  lemma MoveOverridesEmotion(w: World, c: nat, e1: string, e2: string, move: string)
    requires move != ""
    ensures ShowRun(w, c, e1, move) == ShowRun(w, c, e2, move)
    ensures ShowRun(w, c, e1, move).events == [MovePosted(Library, move, w.daemon(c, Library, move))]
  {
  }

  /** Without a move name no request reaches the daemon. */
  lemma EmotionMakesNoRequest(w: World, c: nat, emotion: string)
    ensures PostedMoves(ShowRun(w, c, emotion, "").events) == []
  {
    var ev := ShowRun(w, c, emotion, "").events;
    if ev != [] {
      assert ev[1..] == [];
    }
  }

  method Show(robot: Robot, emotion: string, move: string) returns (reply: string)
    modifies robot
    ensures var r := ShowRun(robot.world, |old(robot.trace)|, emotion, move);
      robot.trace == old(robot.trace) + r.events && reply == r.text
  {
    if move != "" {
      reply := PlayMove(robot, move, Library);
    } else {
      reply := Express(robot, emotion);
    }
  }

  /** `rest`: sleep, wake, or anything else the neutral expression. */
  function RestRun(w: World, c: nat, mode: string): Reply
  {
    if mode == "sleep" then
      var o := w.motors(c);
      Reply([WentToSleep(o)], if o.Raised? then "Rest failed: " + o.error else "Robot sleeping")
    else if mode == "wake" then
      var o := w.motors(c);
      Reply([WokeUp(o)], if o.Raised? then "Rest failed: " + o.error else "Robot awakened")
    else ExpressRun(w, c, "neutral")
  }

  /** Any mode but sleep and wake moves to the neutral pose; its failure is reported as an
      expression failure, never as a rest failure. */
  lemma RestDefaultsToNeutral(w: World, c: nat, mode: string)
    requires mode != "sleep" && mode != "wake"
    ensures var r := RestRun(w, c, mode);
      && r.events == [MovedHead(HeadPose(0.0, 0.0, 0.0, 0.0), Some((0.0, 0.0)), 1.5, MinJerk, w.motors(c))]
      && r.text == (if w.motors(c).Raised? then "Expression failed: " + w.motors(c).error else "Expressed: neutral")
  {
  }

  method Rest(robot: Robot, mode: string) returns (reply: string)
    modifies robot
    ensures var r := RestRun(robot.world, |old(robot.trace)|, mode);
      robot.trace == old(robot.trace) + r.events && reply == r.text
  {
    if mode == "sleep" {
      var o := robot.GoToSleep();
      reply := if o.Raised? then "Rest failed: " + o.error else "Robot sleeping";
    } else if mode == "wake" {
      var o := robot.WakeUp();
      reply := if o.Raised? then "Rest failed: " + o.error else "Robot awakened";
    } else {
      reply := Express(robot, "neutral");
    }
  }

  // ---------------------------------------------------------------- look

  /** What `look` answers: the clamped position it moved to, or the motor error. The reply
      string formats these numbers; the model keeps the numbers. */
  datatype LookReply = Positioned(position: LookRequest) | MovementFailed(error: string)

  datatype LookResult = LookResult(events: seq<Event>, reply: LookReply)

  function LookRun(w: World, c: nat, a: LookRequest): LookResult
  {
    var r := ClampLook(a);
    var o := w.motors(c);
    LookResult([MovedHead(HeadPose(r.z, r.roll, r.pitch, r.yaw), None, r.duration, InterpolationFor("minjerk"), o)],
               if o.Raised? then MovementFailed(o.error) else Positioned(r))
  }

  /** `look` sends one min-jerk head move, always inside the safe ranges, and exactly the
      request when the request was already inside them. */
  lemma LookStaysSafe(w: World, c: nat, a: LookRequest)
    ensures var ev := LookRun(w, c, a).events;
      && |ev| == 1 && ev[0].MovedHead? && ev[0].technique == MinJerk && ev[0].antennas.None?
      && SafeLook(LookRequest(ev[0].head.roll, ev[0].head.pitch, ev[0].head.yaw, ev[0].head.z, ev[0].duration))
      && (SafeLook(a) ==> ev[0].head == HeadPose(a.z, a.roll, a.pitch, a.yaw) && ev[0].duration == a.duration)
  {
  }

  method Look(robot: Robot, a: LookRequest) returns (reply: LookReply)
    modifies robot
    ensures var r := LookRun(robot.world, |old(robot.trace)|, a);
      robot.trace == old(robot.trace) + r.events && reply == r.reply
  {
    var r := ClampLook(a);
    var o := robot.MoveHead(HeadPose(r.z, r.roll, r.pitch, r.yaw), None, r.duration, InterpolationFor("minjerk"));
    if o.Raised? {
      reply := MovementFailed(o.error);
    } else {
      reply := Positioned(r);
    }
  }

  // ---------------------------------------------------------------- listen

  datatype Heard = Heard(events: seq<Event>, transcript: Result<string>)

  /** `_do_listen`: record for the clamped time; with no samples the transcript is empty and
      nothing is sent; otherwise the samples go to speech-to-text under the defaulted WAV
      header. Any exception is passed to the caller. */
  function ListenRun(w: World, c: nat, duration: real): Heard
  {
    var seconds := ClampListen(duration);
    var captured := w.record(c, seconds);
    var recorded := Recorded(seconds, captured);
    match captured
    case Err(e) => Heard([recorded], Err(e))
    case Ok(n) =>
      if n == 0 then Heard([recorded], Ok(""))
      else
        var input := w.input(c + 1);
        match input
        case Err(e) => Heard([recorded, QueriedInput(input)], Err(e))
        case Ok(rc) =>
          var format := WavFormatFor(rc.1, rc.0);
          var t := w.stt(c + 2, format, n);
          Heard([recorded, QueriedInput(input), Transcribed(format, n, t)], t)
  }

  /** The recording always lasts between 1 and 30 seconds, and a transcription request is
      only made for a non-empty recording, under a header with a positive channel count and
      rate and 16-bit samples. */
  lemma ListenIsBounded(w: World, c: nat, duration: real)
    ensures var ev := ListenRun(w, c, duration).events;
      && ev != [] && ev[0].Recorded? && ev[0].seconds == ClampListen(duration)
      && 1.0 <= ev[0].seconds <= 30.0
      && forall i :: 0 <= i < |ev| && ev[i].Transcribed? ==>
           ev[i].samples > 0 && ev[i].format.channels > 0 && ev[i].format.rate > 0
           && ev[i].format.sampleWidth == 2
  {
  }

  /** The clause a transcript adds: never just the bare prefix. */
  function HeardClause(transcript: string): (clause: string)
    ensures |clause| > 7 && clause[..7] == "Heard: "
  {
    if transcript != "" then "Heard: " + transcript else "Heard: (silence or unclear audio)"
  }

  method DoListen(robot: Robot, duration: real) returns (heard: Result<string>)
    modifies robot
    ensures var h := ListenRun(robot.world, |old(robot.trace)|, duration);
      robot.trace == old(robot.trace) + h.events && heard == h.transcript
  {
    var seconds := ClampListen(duration);
    var captured := robot.Record(seconds);
    if captured.Err? {
      return Err(captured.message);
    }
    if captured.value == 0 {
      return Ok("");
    }
    var input := robot.QueryInput();
    if input.Err? {
      return Err(input.message);
    }
    var format := WavFormatFor(input.value.1, input.value.0);
    heard := robot.Transcribe(format, captured.value);
  }

  function ListenReply(heard: Result<string>): string
  {
    match heard
    case Ok(t) => HeardClause(t)
    case Err(e) => "Listen failed: " + e
  }

  method Listen(robot: Robot, duration: real) returns (reply: string)
    modifies robot
    ensures var h := ListenRun(robot.world, |old(robot.trace)|, duration);
      robot.trace == old(robot.trace) + h.events && reply == ListenReply(h.transcript)
  {
    var heard := DoListen(robot, duration);
    reply := ListenReply(heard);
  }

  // ---------------------------------------------------------------- speak

  /** Paths that `speak` plays as files. */
  predicate IsAudioPath(text: string)
  {
    EndsWith(text, ".wav") || EndsWith(text, ".mp3") || EndsWith(text, ".ogg")
  }

  /** The result part of a completed choreography. */
  function PerformedClause(spoken: seq<string>, moves: seq<string>): string
  {
    "Performed: '" + Join(" ", spoken) + "' with moves: " + ListRepr(moves)
  }

  /** The run of the speech branch of `speak`, and the result part it contributes when it
      completes. */
  datatype Speech = Speech(run: Run, part: string)

  function SpeechRun(w: World, c: nat, text: string): Speech
  {
    if IsAudioPath(text) then
      var o := w.play(c, AudioFile(text));
      Speech(Run([Played(AudioFile(text), o)], if o.Raised? then Some(o.error) else None),
             "Played audio: " + text)
    else if Contains(text, Open) then
      var segments := Parse(text);
      Speech(Execute(w, c, Plan(segments)), PerformedClause(Chunks(segments), TriggersOf(Plan(segments))))
    else Speech(SayRun(w, c, text), "Spoke: " + text)
  }

  /** `speak`: the speech branch, then the optional listen, the parts joined with `" | "`;
      the first exception replaces the whole result. */
  function SpeakRun(w: World, c: nat, text: string, listenAfter: real): Reply
  {
    var s := SpeechRun(w, c, text);
    if s.run.failure.Some? then Reply(s.run.events, "Speech failed: " + s.run.failure.value)
    else if listenAfter <= 0.0 then Reply(s.run.events, Join(" | ", [s.part]))
    else
      var h := ListenRun(w, c + |s.run.events|, listenAfter);
      match h.transcript
      case Err(e) => Reply(s.run.events + h.events, "Speech failed: " + e)
      case Ok(t) => Reply(s.run.events + h.events, Join(" | ", [s.part, HeardClause(t)]))
  }

  /** A path to an audio file is played as it is: no synthesis and no move request, even
      when the path holds a marker. */
  lemma AudioPathIsPlayed(w: World, c: nat, text: string)
    requires IsAudioPath(text)
    ensures SpeechRun(w, c, text).run.events == [Played(AudioFile(text), w.play(c, AudioFile(text)))]
    ensures SpeechRun(w, c, text).part == "Played audio: " + text
  {
  }

  /** Any other text holding a marker opening is performed as its parsed plan: when the run
      ends normally it posted exactly the plan's moves and synthesised exactly the text's
      chunks, and the result part lists both. */
  lemma MarkedTextIsPerformed(w: World, c: nat, text: string)
    requires !IsAudioPath(text) && Contains(text, Open)
    ensures SpeechRun(w, c, text).run == Execute(w, c, Plan(Parse(text)))
    ensures var r := SpeechRun(w, c, text).run;
      r.failure.None? ==>
        && PostedMoves(r.events) == TriggersOf(Plan(Parse(text)))
        && SynthesizedTexts(r.events) == Chunks(Parse(text))
        && SpeechRun(w, c, text).part == PerformedClause(Chunks(Parse(text)), TriggersOf(Plan(Parse(text))))
  {
    var r := Execute(w, c, Plan(Parse(text)));
    if r.failure.None? {
      ExecuteFollowsPlan(w, c, Plan(Parse(text)));
      PlanSpeaksChunks(None, Parse(text));
    }
  }

  /** Text without markers is synthesised whole, untrimmed, and no move is requested. */
  lemma PlainTextIsSpokenWhole(w: World, c: nat, text: string)
    requires !IsAudioPath(text) && !Contains(text, Open)
    ensures SynthesizedTexts(SpeechRun(w, c, text).run.events) == [text]
    ensures PostedMoves(SpeechRun(w, c, text).run.events) == []
    ensures SpeechRun(w, c, text).part == "Spoke: " + text
  {
    SayRunContents(w, c, text, []);
    assert SayRun(w, c, text).events + [] == SayRun(w, c, text).events;
  }

  /** `speak` never sends two move requests back to back, on any route. */
  lemma SpeechNeverDoublePosts(w: World, c: nat, text: string)
    ensures NoDoublePost(SpeechRun(w, c, text).run.events)
  {
    if IsAudioPath(text) {
    } else if Contains(text, Open) {
      PlanAlternates(None, Parse(text));
      ExecuteNoDoublePost(w, c, Plan(Parse(text)));
    } else {
      SayRunNoDoublePost(w, c, text, []);
      assert SayRun(w, c, text).events + [] == SayRun(w, c, text).events;
    }
  }

  predicate NoSynthesis(events: seq<Event>)
  {
    forall j :: 0 <= j < |events| ==> !events[j].Synthesized?
  }

  lemma ListenSynthesizesNothing(w: World, c: nat, duration: real)
    ensures NoSynthesis(ListenRun(w, c, duration).events)
  {
  }

  lemma CleansUpAppend(a: seq<Event>, b: seq<Event>)
    requires CleansUp(a) && NoSynthesis(b)
    ensures CleansUp(a + b)
  {
    var ab := a + b;
    forall i | 0 <= i < |ab| && ab[i].Synthesized? && ab[i].audio.Ok?
      ensures i + 2 < |ab|
      ensures ab[i + 1].Played? && ab[i + 1].sound == TempAudio(ab[i].audio.value)
      ensures ab[i + 2].Unlinked? && ab[i + 2].file == ab[i].audio.value
    {
      assert i < |a|;
      assert ab[i] == a[i] && ab[i + 1] == a[i + 1] && ab[i + 2] == a[i + 2];
    }
  }

  lemma SpeechCleansUp(w: World, c: nat, text: string)
    ensures CleansUp(SpeechRun(w, c, text).run.events)
  {
    if IsAudioPath(text) {
    } else if Contains(text, Open) {
      ExecuteCleansUp(w, c, Plan(Parse(text)));
    } else {
      SayRunProtocol(w, c, text, []);
      assert SayRun(w, c, text).events + [] == SayRun(w, c, text).events;
      ProtocolCleansUp(SayRun(w, c, text).events);
    }
  }

  lemma SpeakEvents(w: World, c: nat, text: string, listenAfter: real)
    ensures var s := SpeechRun(w, c, text);
      SpeakRun(w, c, text, listenAfter).events
      == if s.run.failure.None? && listenAfter > 0.0
         then s.run.events + ListenRun(w, c + |s.run.events|, listenAfter).events
         else s.run.events
  {
  }

  /** Every temporary path `text_to_speech` returns during `speak` is played and then unlinked
      by the next two calls, whichever route the text takes, whether or not it listens
      afterwards, and whatever raised. */
  lemma SpeakCleansUp(w: World, c: nat, text: string, listenAfter: real)
    ensures CleansUp(SpeakRun(w, c, text, listenAfter).events)
  {
    var s := SpeechRun(w, c, text);
    SpeechCleansUp(w, c, text);
    SpeakEvents(w, c, text, listenAfter);
    ListenSynthesizesNothing(w, c + |s.run.events|, listenAfter);
    CleansUpEither(s.run.events, ListenRun(w, c + |s.run.events|, listenAfter).events,
                   s.run.failure.None? && listenAfter > 0.0, SpeakRun(w, c, text, listenAfter).events);
  }

  lemma CleansUpEither(a: seq<Event>, b: seq<Event>, both: bool, events: seq<Event>)
    requires CleansUp(a) && NoSynthesis(b)
    requires events == if both then a + b else a
    ensures CleansUp(events)
  {
    if both {
      CleansUpAppend(a, b);
    }
  }

  lemma JoinTwo(a: string, b: string)
    ensures Join(" | ", [a]) == a
    ensures Join(" | ", [a, b]) == a + " | " + b
  {
    assert [a, b][1..] == [b];
  }

  /** The result of `speak`: the first exception as a failure; otherwise the speech part,
      followed by the heard clause when it listened. */
  lemma SpeakReplyShape(w: World, c: nat, text: string, listenAfter: real)
    ensures var s := SpeechRun(w, c, text);
      var r := SpeakRun(w, c, text, listenAfter);
      && (s.run.failure.Some? ==> r.text == "Speech failed: " + s.run.failure.value)
      && (s.run.failure.None? && listenAfter <= 0.0 ==> r.text == s.part && r.events == s.run.events)
      && (s.run.failure.None? && listenAfter > 0.0 ==>
            var h := ListenRun(w, c + |s.run.events|, listenAfter);
            && r.events == s.run.events + h.events
            && r.text == (match h.transcript
                          case Ok(t) => s.part + " | " + HeardClause(t)
                          case Err(e) => "Speech failed: " + e))
  {
    var s := SpeechRun(w, c, text);
    if s.run.failure.None? && listenAfter > 0.0 {
      var h := ListenRun(w, c + |s.run.events|, listenAfter);
      if h.transcript.Ok? {
        JoinTwo(s.part, HeardClause(h.transcript.value));
      }
    } else {
      JoinTwo(s.part, "");
    }
  }

  method PerformText(robot: Robot, text: string) returns (part: string, failure: Option<string>)
    modifies robot
    ensures var s := SpeechRun(robot.world, |old(robot.trace)|, text);
      robot.trace == old(robot.trace) + s.run.events && failure == s.run.failure
      && (failure.None? ==> part == s.part)
  {
    if IsAudioPath(text) {
      var o := robot.PlaySound(AudioFile(text));
      failure := if o.Raised? then Some(o.error) else None;
      part := "Played audio: " + text;
    } else if Contains(text, Open) {
      var segments := ParseChoreographedText(text);
      var spoken, moves;
      spoken, moves, failure := Choreograph(robot, segments);
      part := PerformedClause(spoken, moves);
    } else {
      failure := SpeakChunk(robot, text);
      part := "Spoke: " + text;
    }
  }

  method Speak(robot: Robot, text: string, listenAfter: real) returns (reply: string)
    modifies robot
    ensures var r := SpeakRun(robot.world, |old(robot.trace)|, text, listenAfter);
      robot.trace == old(robot.trace) + r.events && reply == r.text
  {
    var part, failure := PerformText(robot, text);
    if failure.Some? {
      return "Speech failed: " + failure.value;
    }
    var parts := [part];
    if listenAfter > 0.0 {
      var heard := DoListen(robot, listenAfter);
      if heard.Err? {
        return "Speech failed: " + heard.message;
      }
      parts := parts + [HeardClause(heard.value)];
    }
    reply := Join(" | ", parts);
  }
}
