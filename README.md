# asr_demo speech front end, modelled in Dafny

`AsrApp` is a small speech-recognition front end built on an external
inference engine. It has two paths. The realtime path pulls microphone
audio in steps of `step_ms`. Each new chunk is merged with the audio kept
from the previous cycle into a window of at most `keep_ms + length_ms`.
Each commit cuts the retained audio back to `keep_ms`, so the window holds
`keep_ms` plus the steps since the last commit (3 s to 6.2 s with the
defaults and one-step chunks). The engine runs
on that window with the tokens of the last committed line as its prompt,
and the live output line is redrawn. Every `n_new_line` cycles the line is
committed: the retained audio shrinks to the last `keep_ms` and the prompt
is rebuilt from the new segments. The offline path runs the engine once
on a WAV file. `main` parses `-m/--model` and `-f/--file`, clamps the
durations so that `keep <= step <= length`, and picks the offline path when
an input file is given.

The model has seven modules:

- `Params` (`params.dfy`): the `app_params` record and its defaults, the
  conversion of milliseconds to samples, and the line cadence
  `max(1, length/step - 1)` with its quotient law. After `n` cycles
  exactly `n / n_new_line` lines have been committed.
- `Window` (`window.dfy`): the number of retained samples carried over
  (`take`) and the merged window. The window is specified by its length
  and by being the latest stretch of `old ++ new`.
- `Overload` (`overload.dfy`): the per-poll decision (overloaded, ready or
  waiting), the first poll of a device feed that ends the pull loop, and the
  device calls the loop makes.
- `Prompt` (`prompt.dfy`): engine segments and their two views: the texts
  emitted in order, and the flattened token prompt.
- `Capture` (`capture.dfy`): the audio device as the application sees it.
  Each `get` returns the next answer from a finite feed fixed in advance,
  and every call is logged.
- `Asr` (`asr_app.dfy`): the `AsrApp` class. Its fields are the session
  state (the three `realtime_audio` buffers, the sample counts, the cadence,
  the prompt, the cycle counter) and the lines output so far. Its methods
  are:
  - the pull loop and the window merge (`read_audio`);
  - the inference, emission and commit half of a cycle;
  - the realtime session and the offline path.

  A ghost field `heard` records every accepted chunk. The session invariant
  `Valid` states four facts:
  - the retained buffer is always the most recent audio heard;
  - the retained buffer stays bounded;
  - the sample counts and cadence are those of the parameters;
  - the line count is `LinesCommitted(nIter)`.
- `CommandLine` (`command_line.dfy`): `arg_parse` is specified by a
  recursive function `Parse`. The imperative argument loop is proved equal
  to it. `Parse` is characterised completely over well-formed option lists
  (`Render`/`ApplyAll`): the help, unknown-argument and missing-value
  cases, and the converse that every accepted command line is such a
  list. The module also covers the clamp and `main`.

The inference engine is a function parameter from an `EngineCall` (samples,
prompt tokens, single-segment flag) to an error or a list of segments.
Contracts can therefore say what the engine was asked. Samples are an
opaque type parameter `S`; the zero fill uses a `silence` value the caller
supplies.

## Model

| member | source | states |
|---|---|---|
| Params.DefaultParams | asr_app/asr_app.h:13-21 | the default durations satisfy `0 < step` and `keep <= step <= length`; model and input paths are empty; the capture id selects the default device |
| Params.SamplesFor | asr_app/asr_app.cpp:167-170 | a duration becomes `ms * 16` samples at 16 kHz, non-negative for non-negative durations |
| Params.SamplesForMonotone | asr_app/asr_app.cpp:167-169 | longer durations never give fewer samples, so `keep <= step <= length` carries over to the sample counts |
| Params.LinesEvery | asr_app/asr_app.cpp:171 | the cadence `n_new_line` is at least 1 |
| Params.LinesEveryBracket | asr_app/asr_app.cpp:171 | when two steps fit in the window, `n_new_line + 1` steps fit and `n_new_line + 2` do not; when fewer than three fit, a line is committed every cycle |
| Params.DefaultCadence | asr_app/asr_app.cpp:171 | with the defaults (10000 ms over 3000 ms) a line is committed every second cycle |
| Params.LinesCommittedQuotient | asr_app/asr_app.cpp:221-222 | counting the cycles whose count is a multiple of `n_new_line` gives exactly `n_iter / n_new_line` committed lines |
| Window.Take | asr_app/asr_app.cpp:136-141 | `0 <= take <= |old|`; old plus new fits in `max(|new|, keep + len)`; and `take` is the largest count with those two bounds |
| Window.Merge | asr_app/asr_app.cpp:143-153 | the window has `take + |new|` samples, is the trailing part of `old ++ new` (so it is `old[|old|-take..] ++ new` in order), ends with `new`, and is at most `max(|new|, keep + len)` long |
| Window.MergeEmptyRetained | asr_app/asr_app.cpp:176 | with nothing retained (session start) the first window is exactly the first chunk, with no padding |
| Window.MergeKeepsRecency | asr_app/asr_app.cpp:143-154 | if the retained buffer is the latest audio heard, the merged window is the latest audio heard including the new chunk |
| Window.MergeBounded | asr_app/asr_app.cpp:118-141 | a chunk of at most two steps gives a window of at most `max(2 step, keep + len)` samples, so the retained buffer stays bounded |
| Overload.Decide | asr_app/asr_app.cpp:119-133 | a poll ends the loop exactly when `step <= available <= 2 step`, and is an overload exactly when more than two steps piled up |
| Overload.FirstReady | asr_app/asr_app.cpp:117-134 | the poll that ends the loop is the first ready poll of the feed: none before it is ready |
| Overload.FirstReadyAt | asr_app/asr_app.cpp:117-134 | a ready poll with no ready poll before it is the one that ends the loop |
| Overload.PullClears | asr_app/asr_app.cpp:119-131 | a pull that ends at poll `k` clears the device once per overloaded poll before `k` plus once for the accepted poll |
| Overload.WaitsAndOverloads | asr_app/asr_app.cpp:119-133 | before the loop ends, only overloaded polls clear the device; short polls only wait |
| Prompt.Texts | asr_app/asr_app.cpp:70-83 | one text per segment, the `i`-th text being the `i`-th segment's |
| Prompt.FlattenLength | asr_app/asr_app.cpp:230-239 | the rebuilt prompt has exactly as many tokens as all segments together |
| Prompt.FlattenAt | asr_app/asr_app.cpp:230-239 | token `j` of segment `i` sits right after all tokens of segments before `i`: segment-then-token order |
| Asr.AsrApp.constructor | asr_app/asr_app.h:53-56 | the application keeps the parameters it is given; the audio buffers start empty |
| Asr.AsrApp.StartSession | asr_app/asr_app.cpp:167-180 | sets the sample counts and cadence from the durations; the window and incoming buffers become 30 s of silence; retained buffer, prompt and counter start empty; the session invariant holds |
| Asr.AsrApp.ReadAudio | asr_app/asr_app.cpp:117-155 | returns with a chunk exactly when the feed has a ready poll. The chunk is that poll's answer and lies between one and two steps. The device got the loop's calls. The window and retained buffer both become `Merge(old retained, chunk)`. The invariant is kept |
| Asr.AsrApp.PullChunk | asr_app/asr_app.cpp:118-134 | the pull loop stops at the first ready poll of the feed, with that answer in the incoming buffer; the device call log grows by exactly the loop's polls; the window and retained buffer are untouched |
| Asr.AsrApp.PollDevice | asr_app/asr_app.cpp:119-133 | one poll: the next device answer lands in the incoming buffer, the decision is `Decide`, and a clear follows unless the poll waits |
| Asr.AsrApp.MergeWindow | asr_app/asr_app.cpp:136-154 | window and retained buffer become `Merge(retained, new)`; the chunk joins the audio heard; the window holds at least `keep` samples; the invariant is kept |
| Asr.AsrApp.CopyTail | asr_app/asr_app.cpp:144-148 | the copy loop yields the last `take` samples of the retained buffer |
| Asr.AsrApp.InferenceResult | asr_app/asr_app.cpp:70-83 | the segment texts are emitted one per segment, in engine order |
| Asr.AsrApp.Advance | asr_app/asr_app.cpp:221-240 | the counter goes up by one. A line is committed iff the new count is a multiple of `n_new_line`. On commit the retained buffer becomes the last `keep` samples of the window and the prompt becomes the flattened tokens. Otherwise nothing else changes. The invariant is kept |
| Asr.AsrApp.RebuildPrompt | asr_app/asr_app.cpp:230-239 | the nested push loops leave the prompt equal to the flattened tokens of all segments |
| Asr.AsrApp.Transcribe | asr_app/asr_app.cpp:199-240 | the engine is asked about the current window with the current prompt in single-segment mode. Its error fails the cycle with nothing changed. Otherwise the live line shows the segment texts and the commit or continue rule of `Advance` applies. The invariant is kept |
| Asr.AsrApp.RealtimeInference | asr_app/asr_app.cpp:159-244 | init failure iff the device cannot be opened. Otherwise the device was opened and resumed, the invariant holds, `lines = n_iter / n_new_line`, and at most `cancelAfter` cycles ran. A cancelled session ran exactly that many and ends by pausing the device |
| Asr.AsrApp.OfflineInference | asr_app/asr_app.cpp:86-114 | an unreadable file and an engine error are the two fatal errors; otherwise the engine runs once on the whole file with an empty prompt and its own segmentation, and its segment texts are emitted in order |
| CommandLine.ArgParse | asr_app/main.cpp:12-37 | the argument loop, which skips past each flag's value, computes exactly `Parse` of the arguments after the program name |
| CommandLine.ParseRendered | asr_app/main.cpp:20-25 | a run of model and file options sets them in order and parsing continues after them: a value is consumed, never re-read as a flag |
| CommandLine.ParseOptions | asr_app/main.cpp:32-36 | well-formed options alone are accepted iff the resulting model path is non-empty |
| CommandLine.HelpStops | asr_app/main.cpp:16-19 | `-h`/`--help` in flag position stops the parse with a usage request, whatever follows |
| CommandLine.UnknownStops | asr_app/main.cpp:26-30 | any other argument in flag position stops the parse as an unknown argument |
| CommandLine.TrailingFlag | asr_app/main.cpp:20-25 | a model or file flag with no value after it is an error |
| CommandLine.AcceptedIsRendered | asr_app/main.cpp:13-36 | every accepted command line is a run of well-formed options, the parse result is those options applied in order, and the model path is non-empty |
| CommandLine.LastModelWins | asr_app/main.cpp:20-22 | a later model flag overrides an earlier one |
| CommandLine.LastFileWins | asr_app/main.cpp:23-25 | a later file flag overrides an earlier one |
| CommandLine.ParseKeepsTiming | asr_app/main.cpp:12-37 | parsing leaves the durations and the capture id unchanged |
| CommandLine.PathsFromFlags | asr_app/main.cpp:20-25 | each parsed path is either the starting one or the value right after a flag for it |
| CommandLine.DefaultsNeedModel | asr_app/asr_app.h:19-20 | from the defaults, acceptance needs a model flag with a non-empty value, and without a file flag the input path stays empty (the realtime path) |
| CommandLine.Clamp | asr_app/main.cpp:46-47 | after clamping `keep <= step <= length`; step is unchanged; keep never grows and length never shrinks, each either unchanged or set to step; other fields are unchanged |
| CommandLine.ClampOrdered | asr_app/main.cpp:46-47 | durations already in order are not changed |
| CommandLine.ClampIdempotent | asr_app/main.cpp:46-47 | clamping twice is clamping once |
| CommandLine.ClampDefaults | asr_app/asr_app.h:14-16 | the defaults are left unchanged by the clamp |
| CommandLine.Run | asr_app/main.cpp:40-60 | a failed parse gives the usage text and exit status 1. Otherwise the clamped parameters have valid timing and a model. The offline path runs iff an input file was given, and only the realtime path touches the device. Offline exits 0 iff the file was read and the engine succeeded. Realtime exits 1 if the device cannot be opened |

## Left out

- Posting each segment text to the delivery service (`send_data`) is not modelled, and neither is its JSON string. The string is built by plain concatenation without escaping, so the model does not claim it is valid JSON.
- The engine's internals and its parameter record (`default_asr_params`) are left out. The engine is an opaque function from the window, prompt and single-segment flag to an error or segments.
- Loading the model file in the constructor and freeing it in the destructor are left out. The model file's path is only carried in the parameters.
- Params.SamplesFor: durations are converted to samples exactly, as `ms * 16000 / 1000`. The source multiplies by `1e-3` in floating point and truncates to an integer. Any count lost to that rounding is not modelled.
- Each sample's float value never matters: samples are an opaque type, and the 30 s zero fill uses a `silence` value.
- The capture device's thread, its ring buffer and its own length limit are not modelled. Each `get` answers from a finite feed fixed in advance. So the model's device may return any amount, where the real one returns at most the requested duration.
- Asr.AsrApp.PullChunk: the source's pull loop and its one-millisecond sleep wait forever when no poll is ever ready. In the model, a feed that runs out ends the loop with no chunk, and the session ends as `SessionStarved`. For an infinite wait, `Run` reports exit status 1.
- Ctrl-C handling (`sdl_poll_events`) is an argument: the cancellation poll reports "running" `cancelAfter` times, then "stop".
- The ANSI escape sequences and the padding line that clear the terminal line are left out. The visible output is the committed `lines` plus the `live` line.
- 32-bit integer overflow of `n_iter` and of the sample counts is left out. Both are unbounded integers here.
- Reading and decoding the WAV file is left out. The decoded file is an argument, `WavUnreadable` or its samples.
- The usage text is left out. A failed parse yields `Usage` with the reason.
- Reading past the end of `argv` when a flag comes last is undefined behaviour in the source. It is modelled as the explicit error `MissingValue`.
- `ArgParse` requires at least the program name in `argv`, which the usage message prints.
- `delete &app` on a stack object at the end of `main` is undefined behaviour and is left out. The realtime path's exit status is taken as 0 after a cancelled session.
- CommandLine.Run: for the realtime path it states the init-failure exit and that exit status 0 ends by pausing the device. The rest of the session is stated by Asr.AsrApp.RealtimeInference.
- Asr.AsrApp.RealtimeInference: it states how the session ends, the line count and the session invariant. It does not state the per-cycle effects; Asr.AsrApp.ReadAudio and Asr.AsrApp.Transcribe state those for each cycle.
- The diagnostics and status messages are not modelled: the overload warning, the failure messages before each exit, and the progress prints of both paths. The state and the exit status do not depend on them.
- sentiment_service/service.py is not part of this model. It is a separate web service around a neural classifier.
