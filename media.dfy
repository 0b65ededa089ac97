/** The robot and the services the server talks to, seen only through the calls made to them.
    Every call appends one event to the robot's trace. What a call answers, and whether it
    raises, is decided by a `World`: total functions of the position of the call in the
    trace, so a run is determined by the world and the trace it starts from. */
module Media {
  import opened Wrappers
  import opened Poses
  import opened Clamps

  /** What the daemon answered to a move request. */
  datatype DaemonReply =
    | Accepted(uuid: Option<string>)  // a 2xx answer, with or without a `uuid` field
    | NotFound                        // status 404
    | Unreachable                     // the connection was refused
    | Failed(error: string)           // any other error status or exception

  /** Whether a call returned normally or raised an exception with the given message. */
  datatype Outcome = Done | Raised(error: string)

  /** What `play_sound` is asked to play: a synthesised temporary file, or a path given by
      the caller. */
  datatype Sound = TempAudio(file: nat) | AudioFile(path: string)

  datatype Event =
    | MovePosted(library: string, name: string, reply: DaemonReply)
    | Synthesized(text: string, audio: Result<nat>)
    | Played(sound: Sound, outcome: Outcome)
    | Unlinked(file: nat, outcome: Outcome)
    | Recorded(seconds: real, captured: Result<nat>)
    | QueriedInput(input: Result<(int, int)>)
    | Transcribed(format: WavFormat, samples: nat, transcript: Result<string>)
    | MovedHead(head: HeadPose, antennas: Option<(real, real)>, duration: real,
                technique: Interpolation, outcome: Outcome)
    | WentToSleep(outcome: Outcome)
    | WokeUp(outcome: Outcome)

  /** The answers of the outside world, by the clock (the trace length) at the call. */
  datatype World = World(
    daemon: (nat, string, string) -> DaemonReply,  // POST of a recorded move
    tts: (nat, string) -> Outcome,                 // text-to-speech request
    play: (nat, Sound) -> Outcome,                 // `play_sound`
    unlink: (nat, nat) -> Outcome,                 // `os.unlink` of a temporary file
    record: (nat, real) -> Result<nat>,            // a recording: the number of samples
    input: nat -> Result<(int, int)>,              // input sample rate and channel count
    stt: (nat, WavFormat, nat) -> Result<string>,  // speech-to-text request
    motors: nat -> Outcome)                        // `goto_target`, `goto_sleep`, `wake_up`

  /** The connected robot and its speech services, with the record of every call. */
  class Robot {
    var trace: seq<Event>
    const world: World

    constructor(world: World)
      ensures this.world == world && trace == []
    {
      this.world := world;
      trace := [];
    }

    /** POST of a recorded move to the daemon; the answer is returned, never raised. */
    method PostMove(library: string, name: string) returns (reply: DaemonReply)
      modifies this
      ensures reply == world.daemon(|old(trace)|, library, name)
      ensures trace == old(trace) + [MovePosted(library, name, reply)]
    {
      reply := world.daemon(|trace|, library, name);
      trace := trace + [MovePosted(library, name, reply)];
    }

    /** Text-to-speech: a fresh temporary audio file, named by the clock, or the error
        raised by the service. */
    method Synthesize(text: string) returns (audio: Result<nat>)
      modifies this
      ensures audio == (match world.tts(|old(trace)|, text)
                        case Done => Ok(|old(trace)|)
                        case Raised(e) => Err(e))
      ensures trace == old(trace) + [Synthesized(text, audio)]
    {
      var c := |trace|;
      match world.tts(c, text) {
        case Done => audio := Ok(c);
        case Raised(e) => audio := Err(e);
      }
      trace := trace + [Synthesized(text, audio)];
    }

    method PlaySound(sound: Sound) returns (outcome: Outcome)
      modifies this
      ensures outcome == world.play(|old(trace)|, sound)
      ensures trace == old(trace) + [Played(sound, outcome)]
    {
      outcome := world.play(|trace|, sound);
      trace := trace + [Played(sound, outcome)];
    }

    method Unlink(file: nat) returns (outcome: Outcome)
      modifies this
      ensures outcome == world.unlink(|old(trace)|, file)
      ensures trace == old(trace) + [Unlinked(file, outcome)]
    {
      outcome := world.unlink(|trace|, file);
      trace := trace + [Unlinked(file, outcome)];
    }

    /** A recording of the given length: the number of samples captured, or the error. */
    method Record(seconds: real) returns (samples: Result<nat>)
      modifies this
      ensures samples == world.record(|old(trace)|, seconds)
      ensures trace == old(trace) + [Recorded(seconds, samples)]
    {
      samples := world.record(|trace|, seconds);
      trace := trace + [Recorded(seconds, samples)];
    }

    /** The input sample rate and channel count the microphones report. */
    method QueryInput() returns (input: Result<(int, int)>)
      modifies this
      ensures input == world.input(|old(trace)|)
      ensures trace == old(trace) + [QueriedInput(input)]
    {
      input := world.input(|trace|);
      trace := trace + [QueriedInput(input)];
    }

    method Transcribe(format: WavFormat, samples: nat) returns (transcript: Result<string>)
      modifies this
      ensures transcript == world.stt(|old(trace)|, format, samples)
      ensures trace == old(trace) + [Transcribed(format, samples, transcript)]
    {
      transcript := world.stt(|trace|, format, samples);
      trace := trace + [Transcribed(format, samples, transcript)];
    }

    method MoveHead(head: HeadPose, antennas: Option<(real, real)>, duration: real,
                    technique: Interpolation) returns (outcome: Outcome)
      modifies this
      ensures outcome == world.motors(|old(trace)|)
      ensures trace == old(trace) + [MovedHead(head, antennas, duration, technique, outcome)]
    {
      outcome := world.motors(|trace|);
      trace := trace + [MovedHead(head, antennas, duration, technique, outcome)];
    }

    method GoToSleep() returns (outcome: Outcome)
      modifies this
      ensures outcome == world.motors(|old(trace)|)
      ensures trace == old(trace) + [WentToSleep(outcome)]
    {
      outcome := world.motors(|trace|);
      trace := trace + [WentToSleep(outcome)];
    }

    method WakeUp() returns (outcome: Outcome)
      modifies this
      ensures outcome == world.motors(|old(trace)|)
      ensures trace == old(trace) + [WokeUp(outcome)]
    {
      outcome := world.motors(|trace|);
      trace := trace + [WokeUp(outcome)];
    }
  }
}
