# reachy-mini-mcp server core, modelled in Dafny

This project models the tool layer of the Reachy Mini MCP server (`src/server.py`). The core is:

- `speak` and its choreography of marked-up text.
  - `[move:<name>]` markers are cut out of the text by `_parse_choreographed_text`.
  - A move waits in a single pending slot and fires just before the next chunk that is not blank once trimmed.
  - A move still pending at the end fires once, after the last chunk.
  - Each chunk is synthesised to a temporary audio file, played, and unlinked in a `finally`.
- The routing of `speak`:
  - a path ending in `.wav`, `.mp3` or `.ogg` is played as a file;
  - text containing `[move:` is choreographed;
  - anything else is spoken whole.
- The result assembly of `speak`, including the optional listen that follows.
- `_do_listen` and `listen`: the clamped recording time and the defaulted WAV header.
- `show`, `_do_express` and the `EXPRESSIONS` pose table, `get_interpolation_method`, and `_do_play_move`.
- `look` and its range clamps.
- `rest`.

The robot is a class, `Media.Robot`. Its `trace` field records every call the server makes to the robot, the daemon and the speech services.

- The answers of those services come from a `World` value.
- A `World` is a set of total functions of the call's position in the trace.
- This lets every outcome be modelled: an exception, a 404, a refused connection, an empty recording.
- Each tool is a method that takes the robot. Its contract ties the new trace and the returned string to a reference function of the world and the old trace length.

| file | module | what it holds |
|---|---|---|
| `wrappers.dfy` | `Wrappers` | `Option`, `Result` |
| `text.dfy` | `Text` | Models of Python's `str.strip`, `in`, `endswith`, `" ".join` and `repr` of a string list |
| `poses.dfy` | `Poses` | The expression table, the `show` emotion list, the interpolation lookup |
| `clamps.dfy` | `Clamps` | The `look` clamps, the listen-time clamp, the WAV header defaults |
| `markers.dfy` | `Markers` | The marker parser: a reference function and the scanning loop proved against it |
| `choreography.dfy` | `Choreography` | The firing policy as a plan of steps, with its properties |
| `media.dfy` | `Media` | The robot class, its calls, and the world that answers them |
| `executor.dfy` | `Performance` | The reference run of a plan, cleanup, and the loop of `speak` proved against it |
| `server.dfy` | `Server` | The tools and their routing, replies and properties |

`look` reports the clamped position it moved to, not the one requested. `Server.LookRun` returns those clamped values rather than the formatted string.

## Model

| member | source | states |
|---|---|---|
| `Markers.ParseChoreographedText` | src/server.py:391-420 | The loop over matches returns exactly the reference segmentation. Re-wrapping its moves as `[move:name]` and concatenating gives the input back. It never emits an empty text, two adjacent texts, or an empty move name. |
| `Markers.MatchMarker` | src/server.py:405 | One attempt of the pattern at a position reports its closing bracket exactly when `[move:`, a non-empty run without `]`, and `]` start there. |
| `Markers.ScanStep` | src/server.py:408-414 | One turn of the scan keeps the invariant that the segments so far plus the rest of the parse form the whole parse. |
| `Markers.FindMarker` | src/server.py:408 | The next match is the leftmost one at or after the resume point, and none starts before it. |
| `Markers.NameEnd` | src/server.py:405 | The name runs to the first `]` after the opening. |
| `Markers.MarkerAt` | src/server.py:405 | A reported match is a match of the pattern. |
| `Markers.MarkerAtComplete` | src/server.py:405 | Every match of the pattern is reported. |
| `Markers.NoMatchInMeans` | src/server.py:408 | The recursive "no match in a range" agrees with the quantified one. |
| `Markers.Gap` | src/server.py:410-411 | A text segment is emitted only when the match starts after the previous end. |
| `Markers.ParseFrom` | src/server.py:405-420 | Reference segmentation from the end of the last match. Leftmost match next. The non-empty gap before it, then its name, then the rest from just past the `]`. With no further match, the non-empty remainder. Its properties are the `ParseFromNext`, `ParseFromLast`, `ParseRoundTrip` and `ParseShape` rows. |
| `Markers.Parse` | src/server.py:391-420 | The segmentation of the whole text. `ParseChoreographedText` is proved to compute it, and `ParseRoundTrip` and `ParseShape` are proved about it. |
| `Markers.ParseSample` | src/server.py:405-420 | The text `[move:a][move:b] Hi` parses to the moves `a` and `b`, then the text ` Hi`. |
| `Markers.ParseFromNext` | src/server.py:408-414 | After a match: the gap, the move, then the parse from just past the `]`. |
| `Markers.ParseFromLast` | src/server.py:416-418 | With no further match, only the remaining text, if any, is emitted. |
| `Markers.ParseRoundTrip` | src/server.py:405-420 | Rendering the parse gives exactly the input text. |
| `Markers.ParseShape` | src/server.py:405-418 | The parse is well formed: no empty or adjacent texts; move names are non-empty and hold no `]`. |
| `Markers.MarkerName` | src/server.py:405 | A captured name is non-empty and holds no `]`. |
| `Markers.RenderAppend` | src/server.py:391-420 | Rendering distributes over concatenation of segment lists. |
| `Text.IsSpace` | src/server.py:466 | The characters for which `str.isspace()` holds, which a bare `str.strip()` removes. `StripTrims` states what the strip does with them. |
| `Text.Strip` | src/server.py:466 | `str.strip()`: left strip, then right strip. Its contract is the `StripTrims` row. |
| `Text.LStrip` | src/server.py:466 | Left strip returns a suffix with only whitespace removed, starting with a non-space. |
| `Text.RStrip` | src/server.py:466 | Right strip returns a prefix with only whitespace removed, ending with a non-space. |
| `Text.StripTrims` | src/server.py:466-467 | The strip is a contiguous infix. It is empty exactly when the text is all whitespace; otherwise it begins and ends with non-space. |
| `Text.EndsWith` | src/server.py:450 | `str.endswith` for one suffix; `Server.IsAudioPath` takes the three suffixes. The `Server.AudioPathIsPlayed` row states what the route does. |
| `Text.Join` | src/server.py:506 | `sep.join(parts)`. `JoinSnoc` and `Server.JoinTwo` state how it grows. |
| `Text.JoinSnoc` | src/server.py:506 | Joining one more part to a non-empty list appends the separator and the part. |
| `Text.StrRepr` | src/server.py:487 | `repr` of one string: quote choice, escapes, quotes. Its contract for plain names is the `ReprOfPlain` row. |
| `Text.ListRepr` | src/server.py:214 | `str` of a list of strings: the `repr`s, comma-separated, in brackets. The `ReprAllElements` row gives its elements. |
| `Text.Contains` | src/server.py:455 | `'[move:' in text` holds exactly when the pattern occurs at some index. |
| `Text.ReprOfPlain` | src/server.py:487 | A string of printable ASCII with no quote or backslash is printed by `repr` as itself in single quotes. |
| `Text.ReprAll` | src/server.py:487 | The printed list has one element per name. |
| `Text.ReprAllElements` | src/server.py:487 | Element `i` of the printed list is `repr` of name `i`. |
| `Choreography.Chunks` | src/server.py:466-480 | The independent reference for `speech_parts`: the trimmed non-blank text segments, in order. `PlanSpeaksChunks` ties the plan to it. |
| `Choreography.TriggersOf` | src/server.py:471 | The independent reference for `moves_triggered`: the plan's trigger names, in order. The same list gets the trailing flush at 485. `Performance.ExecuteFollowsPlan` ties the run's POSTs to it. |
| `Choreography.PlanFrom` | src/server.py:461-485 | The pending-slot policy, with a given move waiting. A marker replaces the slot. A chunk flushes a firing move, is spoken trimmed, and clears the slot. Blank text is skipped. At the end the slot is flushed. Its properties are the rows below. |
| `Choreography.Plan` | src/server.py:459-485 | The policy as it starts, with nothing pending. |
| `Choreography.PlanSpeaksChunks` | src/server.py:461-480 | The chunks spoken are exactly the trimmed, non-blank text segments, in order, whatever is pending. |
| `Choreography.QuietRunOverwrites` | src/server.py:462-467 | Across moves and blank text nothing fires or is spoken. A later marker overwrites an unfired move; blank text keeps what is pending. |
| `Choreography.FiresBeforeChunk` | src/server.py:467-475 | The move left pending fires immediately before the next chunk, and the slot is then cleared. |
| `Choreography.TrailingMoveFiresOnce` | src/server.py:482-485 | A quiet tail fires what its last marker left, and at most one move. |
| `Choreography.PlanAlternates` | src/server.py:461-485 | No two moves fire back to back. |
| `Choreography.NoDoubleTriggerMeans` | src/server.py:461-485 | The recursive "no adjacent triggers" agrees with its index form. |
| `Choreography.OverwriteExample` | src/server.py:462-472 | The segments `[Move("a"), Move("b"), Text(" Hi")]` fire only `b`, then speak `Hi`. |
| `Choreography.ParsedOverwriteExample` | src/server.py:455-472 | The text `[move:a][move:b] Hi`, parsed and planned, fires only `b`, then speaks `Hi`. |
| `Choreography.LoneChunk` | src/server.py:467-480 | A pending move and a single chunk give a trigger, then the trimmed chunk. |
| `Media.Robot.PostMove` | src/server.py:689-710 | One move request. The daemon's answer is recorded and returned, never raised. |
| `Media.Robot.Synthesize` | src/server.py:325-352 | Text-to-speech returns a fresh temporary path or the raised error, and the call is recorded. |
| `Media.Robot.PlaySound` | src/server.py:451 | One playback and its outcome are appended to the trace. |
| `Media.Robot.Unlink` | src/server.py:479 | One unlink and its outcome are appended to the trace. |
| `Media.Robot.Record` | src/server.py:523-528 | One recording of the given length is appended to the trace. |
| `Media.Robot.QueryInput` | src/server.py:532-533 | One query of the input sample rate and channel count is appended to the trace. |
| `Media.Robot.Transcribe` | src/server.py:355-388 | One speech-to-text request, with the WAV header sent, is appended to the trace. |
| `Media.Robot.MoveHead` | src/server.py:226-235 | One `goto_target` with its pose, antennas, duration and technique is appended to the trace. |
| `Media.Robot.GoToSleep` | src/server.py:631-632 | One `goto_sleep` is appended to the trace. |
| `Media.Robot.WakeUp` | src/server.py:634-635 | One `wake_up` is appended to the trace. |
| `Performance.SayRun` | src/server.py:475-479 | The reference calls for one chunk. A synthesis error stops at once. Otherwise the returned path is played and then unlinked. The unlink error, else the playback error, ends the run. `SpeakChunk` is proved to make these calls. |
| `Performance.Execute` | src/server.py:461-485 | The reference run of a plan. A trigger posts its move and never raises. A chunk runs as `SayRun`, and its exception ends the run. `ExecuteCleansUp`, `ExecuteFollowsPlan` and `ExecuteNoDoublePost` are proved about it, and `Choreograph` is proved to make these calls. |
| `Performance.SpeakChunk` | src/server.py:475-479 | Synthesis, then playback, then unlink in a `finally`. An unlink error replaces a playback error. |
| `Performance.Choreograph` | src/server.py:457-485 | The loop's calls are exactly the reference run of the plan. On normal completion, `speech_parts` is the chunks and `moves_triggered` is the plan's moves in firing order. |
| `Performance.FireMove` | src/server.py:469-472 | Firing the pending move makes the next call of the reference run, its POST, and leaves the rest of the run to come. The same helper fires the trailing move at 483-485. |
| `Performance.SayStep` | src/server.py:475-480 | Speaking one chunk makes the reference run's synthesis, playback and unlink. On success the rest of the run is still to come. On failure the trace is the whole run, ending at its exception. |
| `Performance.PerformChunk` | src/server.py:467-480 | The chunk branch. A firing pending move is posted and added to the moves, and the slot is cleared. Then the chunk is spoken, as the plan says. |
| `Performance.ChunkSegment` | src/server.py:466-480 | A non-blank text segment keeps the loop's progress invariant at the next segment. It appends the trimmed chunk to `speech_parts`, or ends at the run's exception. |
| `Performance.PerformSegment` | src/server.py:461-480 | One loop iteration keeps the progress invariant. |
| `Performance.FireTrailing` | src/server.py:483-485 | The trailing flush completes the run. |
| `Performance.ExecuteCleansUp` | src/server.py:474-479 | In any run, every temporary path `text_to_speech` returns is played and then unlinked by the next two calls, whatever raised. |
| `Performance.ExecuteFollowsPlan` | src/server.py:461-485 | A run that ends normally posts exactly the plan's moves and synthesises exactly its chunks, in order, whatever the daemon answers to a move. |
| `Performance.ExecuteNoDoublePost` | src/server.py:461-485 | No two move requests are ever sent back to back. |
| `Performance.SayRunContents` | src/server.py:475-480 | A chunk posts no move and synthesises exactly its own text. |
| `Server.MoveReport` | src/server.py:702-710 | How `_do_play_move` words the daemon's answer. The `PlayingOnlyWhenAccepted` row states which answer gives `Playing: `. |
| `Server.PlayMoveRun` | src/server.py:689-710 | The reference calls and reply of `_do_play_move`. An unknown library makes no call and lists the libraries. A known one makes one POST, and the answer is worded by `MoveReport`. |
| `Server.PlayMove` | src/server.py:689-710 | The helper's calls and reply are those of `PlayMoveRun`. |
| `Server.PlayMoveRequests` | src/server.py:693-700 | An unknown library makes no request; a known one makes exactly one. |
| `Server.PlayingOnlyWhenAccepted` | src/server.py:702-710 | The reply starts with `Playing: ` exactly when the daemon accepted the move. |
| `Server.TriggerIsPlayMove` | src/server.py:470 | A choreography trigger is the move request of `_do_play_move` on the emotions library. |
| `Server.ExpressRun` | src/server.py:211-241 | The reference calls and reply of `_do_express`. An unknown name makes no call and lists the table's names. A known one makes one `goto_target` with the table's head, antennas, duration and method. It replies `Expressed: ` or `Expression failed: ` with the error. |
| `Server.Express` | src/server.py:211-241 | The helper's calls and reply are those of `ExpressRun`. |
| `Server.UnknownEmotionMakesNoCall` | src/server.py:213-214 | An unknown emotion makes no motor call and lists the table's names. |
| `Server.ShowEmotionMoves` | src/server.py:246-249 | Every `show` emotion makes one motor call to a pose with a positive duration and antennas within [-45, 90]. |
| `Server.ShowRun` | src/server.py:275-277 | The reference run of `show`. A non-empty move is `_do_play_move` on the emotions library; otherwise `_do_express` of the emotion. |
| `Server.Show` | src/server.py:245-277 | The tool's calls and reply are those of `ShowRun`. |
| `Server.MoveOverridesEmotion` | src/server.py:275-276 | With a non-empty move the emotion is irrelevant, and the only call is the move request. |
| `Server.EmotionMakesNoRequest` | src/server.py:277 | With an empty move, no request reaches the daemon. |
| `Server.RestRun` | src/server.py:629-640 | The reference run of `rest`. `sleep` is one `goto_sleep`, replying `Robot sleeping`. `wake` is one `wake_up`, replying `Robot awakened`. Each wraps its error as `Rest failed: `. Any other mode is the neutral expression. |
| `Server.Rest` | src/server.py:616-640 | The tool's calls and reply are those of `RestRun`. |
| `Server.RestDefaultsToNeutral` | src/server.py:637-638 | Any other mode moves to the neutral pose, and its failure is reported as an expression failure. |
| `Server.LookRun` | src/server.py:305-322 | The reference run of `look`. The five clamps, then one head-only `goto_target` with the min-jerk method. It replies with the clamped values, or `Movement failed: ` with the error. |
| `Server.Look` | src/server.py:281-322 | The tool's calls and reply are those of `LookRun`. |
| `Server.LookStaysSafe` | src/server.py:305-317 | One min-jerk head move, always within the safe ranges, and exactly the request when that was already safe. |
| `Server.ListenRun` | src/server.py:512-558 | The reference calls and transcript of `_do_listen`. It records for the clamped duration. A recording error is raised. An empty recording returns an empty transcript with no further call. Otherwise it queries the input, which may raise. It then transcribes under the defaulted WAV header. |
| `Server.DoListen` | src/server.py:512-558 | The helper's calls and transcript are those of `ListenRun`. |
| `Server.ListenIsBounded` | src/server.py:519-555 | The recording lasts between 1 and 30 seconds. A transcription made for a non-empty recording has a positive channel count and rate and 16-bit samples. |
| `Server.HeardClause` | src/server.py:501-504 | The heard clause is never the bare prefix. |
| `Server.ListenReply` | src/server.py:575-582 | `listen`'s reply: the heard clause for a transcript, `Listen failed: ` with the error otherwise. `HeardClause` and `ListenIsBounded` state its parts. |
| `Server.Listen` | src/server.py:562-582 | The reply is the heard clause or `Listen failed`. |
| `Server.IsAudioPath` | src/server.py:450 | The text ends in `.wav`, `.mp3` or `.ogg`. `AudioPathIsPlayed` states what that route does. |
| `Server.PerformedClause` | src/server.py:487 | `Performed: '<chunks joined by spaces>' with moves: <list of moves>`. `MarkedTextIsPerformed` ties its two lists to `Chunks` and the plan's triggers. |
| `Server.Speak` | src/server.py:424-509 | The tool's calls and reply are those of `SpeakRun`. |
| `Server.SpeechRun` | src/server.py:450-496 | The reference calls and result part of the speech branch. An audio suffix wins over `[move:`, which wins over plain speech. The `AudioPathIsPlayed`, `MarkedTextIsPerformed` and `PlainTextIsSpokenWhole` rows state each route. |
| `Server.SpeakRun` | src/server.py:448-509 | The reference calls and reply of `speak`. The speech branch, then the optional listen, then the join. The first exception gives `Speech failed`. The `SpeakReplyShape` and `SpeakCleansUp` rows state its properties, and `Speak` is proved to make these calls. |
| `Server.PerformText` | src/server.py:450-496 | The branch taken matches the routing. |
| `Server.AudioPathIsPlayed` | src/server.py:450-452 | An audio path is played as a file. There is no synthesis and no move request, even when it holds a marker. |
| `Server.MarkedTextIsPerformed` | src/server.py:455-487 | Text with a marker runs its parsed plan. On completion, the result part lists its chunks and moves. |
| `Server.PlainTextIsSpokenWhole` | src/server.py:489-496 | Text without a marker is synthesised once, untrimmed, with no move request. |
| `Server.SpeechNeverDoublePosts` | src/server.py:450-496 | On every route, the speech branch of `speak` never sends two move requests back to back. |
| `Server.SpeakCleansUp` | src/server.py:474-500 | Every temporary path `text_to_speech` returns during `speak` is played and then unlinked, on every route, with or without a listen. |
| `Server.SpeakReplyShape` | src/server.py:498-509 | The reply is one of three: an exception gives `Speech failed`; with no listen, the speech part; with a listen, the part, then ` \| `, then the heard clause. |
| `Poses.Expression` | src/server.py:54-127 | The table has an entry exactly for its twelve names. |
| `Poses.ShowEmotionsCovered` | src/server.py:54-127 | The table's names are distinct and are exactly `show`'s emotions. Every entry has a positive duration, antennas within [-45, 90], and a known method. |
| `Poses.InterpolationFor` | src/server.py:194-204 | An unknown method name gives min-jerk, and only the other three known names give anything else. |
| `Poses.InterpolationKeysBijective` | src/server.py:198-203 | The four known names select four distinct techniques, covering every technique. |
| `Clamps.Clamp` | src/server.py:305-309 | The result is in range, is the identity in range, and saturates outside. |
| `Clamps.ClampLook` | src/server.py:305-309 | The clamped request is safe, and a safe request is unchanged. |
| `Clamps.ClampLookIdempotent` | src/server.py:305-309 | Clamping twice equals clamping once. |
| `Clamps.ClampLookSaturates` | src/server.py:305-309 | Each field is fixed by that field alone. It keeps its value inside its range and goes to the nearer bound outside it. |
| `Clamps.ClampListen` | src/server.py:519 | The listen time is in [1, 30], and the identity within it. |
| `Clamps.ClampListenIdempotent` | src/server.py:519 | Clamping twice equals clamping once, and values outside go to the bounds. |
| `Clamps.WavFormatFor` | src/server.py:538-540 | The channel count and rate are positive, defaulting to 1 and 16000, and the sample width is 2. |
| `Clamps.WavFormatStable` | src/server.py:538-540 | Defaulting is idempotent. |
| `Clamps.ExpressionsWithinLookRanges` | src/server.py:54-127 | Every table pose lies within `look`'s safe head ranges. |

## Left out

- `get_robot` and `cleanup_robot` are not modelled: connection management through the vendor SDK. A failing `get_robot` is not modelled either, including where the source calls it outside a `try`.
- HTTP is not modelled: Deepgram text-to-speech and speech-to-text, and the daemon's move endpoint. Each is an opaque answer of the `World`: an outcome, a transcript or its error, or a daemon reply classified as accepted (with or without a uuid), 404, refused connection or other failure.
- Temporary files are numbered by the clock, and their bytes are not modelled.
- The recording's `start_recording` / `sleep` / `get_audio_sample` / `stop_recording` sequence is one `Recorded` event carrying the sample count. The sleep itself is not modelled.
- The two input queries, sample rate then channel count, are one `QueriedInput` event.
- The int16 conversion of samples and the WAV bytes are not modelled: the header fields are kept, not the payload.
- `discover` and `snap` are not part of this model: HTTP listing and camera capture.
- `create_head_pose_array` and the degree-to-radian conversion are not modelled. Head poses and antennas are kept in the table's own units.
- `look`'s reply string formats floating-point numbers; `Server.LookRun` returns the clamped values instead. All positions and durations are `real`, not IEEE doubles.
- FastMCP registration and `main` are not modelled.
- Concurrency is not modelled: moves that the daemon plays while speech continues. The model records the order of the requests, not the overlap of motion and sound.
- `Text.StrRepr` (through `Text.EscapeChar`) does not escape non-printable characters above U+007F, which Python writes as `\x..`, `\u....` or `\U........`. So `Text.ReprOfPlain` states `repr`'s output only for printable ASCII names without quotes or backslashes.
- `Performance.Choreograph` does not state `speech_parts` and `moves_triggered` after an exception, because `speak` discards them then.
- `Media.Robot.Synthesize` treats `text_to_speech` as atomic: it returns a path or raises, and leaves no file when it raises. The source creates the file with `delete=False` (src/server.py:348) before writing and closing it (349-350). A failure in that write or close leaves the file on disk, and no `finally` covers it. So `Performance.ExecuteCleansUp` and `Server.SpeakCleansUp` promise cleanup only for the paths `text_to_speech` returns. They also promise only that the unlink is attempted: an `os.unlink` that raises (src/server.py:479) is still an `Unlinked` event, and the file may then remain.
- Default argument values are not modelled. Every tool method takes all its arguments explicitly: `speak`'s `listen_after=0`; `listen`'s `duration=3.0`; `show`'s `"neutral"` and `""`; `look`'s zeros and `duration=1.0`; `rest`'s `"neutral"`; `_do_play_move`'s `library="emotions"`. `show` (src/server.py:276) and the choreography trigger (470, 484) call `_do_play_move` with only the move name, so the model passes the emotions library at those calls.
