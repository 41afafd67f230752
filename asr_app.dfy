/** The speech front end `AsrApp`: the realtime loop that pulls audio,
    merges it into an overlapping window, runs the inference engine on the
    window with the carried-over prompt, and commits an output line every
    few cycles; and the one-shot offline path. The inference engine is a
    function supplied by the caller; the capture device is a
    `CaptureDevice` object. */
module Asr {
  import opened Params
  import opened Window
  import opened Overload
  import opened Prompt
  import opened Capture

  /** The three sample buffers of a realtime session: the merged window sent
      to the engine, the chunk just pulled from the device, and the buffer
      retained for the next window. */
  datatype RealtimeAudio<S> = RealtimeAudio(pcmf32: seq<S>, pcmf32New: seq<S>, pcmf32Old: seq<S>)

  /** What the engine is asked: the samples, the prompt tokens, and whether
      it must treat the whole buffer as one segment. */
  datatype EngineCall<S> = EngineCall(samples: seq<S>, prompt: seq<Token>, singleSegment: bool)

  /** What the engine answers: an error code, or its segments in time order. */
  datatype Inference = EngineError | Transcribed(segments: seq<Segment>)

  /** The result of decoding the input WAV file. */
  datatype WavInput<S> = WavUnreadable | WavSamples(samples: seq<S>)

  /** How the inference half of a realtime cycle ends: the fatal engine
      error, or the live line continued or committed. */
  datatype CycleOutcome = EngineFailed | LineContinued | LineCommitted

  /** How a realtime session ends. Every end but `Cancelled` is an exit with
      status 1 in the application (or, for `SessionStarved`, a wait that
      never ends). */
  datatype SessionEnd = InitFailed | Cancelled | SessionStarved | SessionEngineFailed

  /** How the offline path ends: the two fatal errors, or the emitted texts. */
  datatype OfflineEnd = WavError | OfflineEngineError | Transcript(emitted: seq<string>)

  /** The cycle counter value `nIter` commits a line when it is a multiple of
      the cadence. */
  predicate Commits(nIter: int, nNewLine: int)
    requires 0 < nNewLine
  {
    nIter % nNewLine == 0
  }

  class AsrApp<S> {
    const params: AppParams

    var audioBuf: RealtimeAudio<S>

    // Per-session sample counts and cadence, set when a realtime session
    // starts and only read afterwards.
    var nSamplesStep: int
    var nSamplesLen: int
    var nSamplesKeep: int
    var nSamples30s: int
    var nNewLine: int

    /** Tokens of the last committed line, the prompt of the next inference. */
    var promptTokens: seq<Token>
    /** Number of inference cycles completed in this session. */
    var nIter: int
    /** The output lines committed so far, each as its segment texts. */
    var lines: seq<seq<string>>
    /** The live line: what the last cycle printed since the last commit. */
    var live: seq<string>
    /** Every chunk the pull loop accepted this session, in order. */
    ghost var heard: seq<S>

    constructor (asrParams: AppParams)
      ensures params == asrParams
      ensures audioBuf == RealtimeAudio([], [], [])
    {
      params := asrParams;
      audioBuf := RealtimeAudio([], [], []);
    }

    /** Session invariant of a realtime session. */
    ghost predicate Valid()
      reads this
    {
      ValidTiming(params) &&
      nSamplesStep == SamplesFor(params.stepMs) &&
      nSamplesLen == SamplesFor(params.lengthMs) &&
      nSamplesKeep == SamplesFor(params.keepMs) &&
      nSamples30s == SamplesFor(InitialBufferMs) &&
      nNewLine == LinesEvery(params.lengthMs, params.stepMs) &&
      0 <= nIter && |lines| == LinesCommitted(nIter, nNewLine) &&
      |audioBuf.pcmf32Old| <= RetainBound() &&
      IsSuffix(audioBuf.pcmf32Old, heard)
    }

    /** A merged window is in place: it holds at least `keep` samples and is
        the most recent stretch of the audio heard. */
    ghost predicate WindowReady()
      reads this
    {
      nSamplesKeep <= |audioBuf.pcmf32| && IsSuffix(audioBuf.pcmf32, heard)
    }

    /** Upper bound on the retained buffer: two steps, or keep plus window. */
    ghost function RetainBound(): int
      reads this
    {
      Max(2 * nSamplesStep, nSamplesKeep + nSamplesLen)
    }

    /** Start of a realtime session: derive the sample counts and the line
        cadence from the durations, zero-fill the window and the incoming
        buffer, empty the retained buffer and the prompt. */
    method StartSession(silence: S)
      requires ValidTiming(params)
      modifies this`nSamplesStep, this`nSamplesLen, this`nSamplesKeep, this`nSamples30s, this`nNewLine
      modifies this`audioBuf, this`promptTokens, this`nIter, this`lines, this`live, this`heard
      ensures Valid()
      ensures 0 <= nSamplesKeep <= nSamplesStep <= nSamplesLen && 0 < nSamplesStep
      ensures 1 <= nNewLine
      ensures audioBuf.pcmf32 == seq(nSamples30s, _ => silence)
      ensures audioBuf.pcmf32New == seq(nSamples30s, _ => silence)
      ensures audioBuf.pcmf32Old == []
      ensures promptTokens == [] && nIter == 0 && lines == [] && live == [] && heard == []
    {
      nSamplesStep := SamplesFor(params.stepMs);
      nSamplesLen := SamplesFor(params.lengthMs);
      nSamplesKeep := SamplesFor(params.keepMs);
      nSamples30s := SamplesFor(InitialBufferMs);
      nNewLine := Max(1, params.lengthMs / params.stepMs - 1);
      audioBuf := RealtimeAudio(seq(nSamples30s, _ => silence), seq(nSamples30s, _ => silence), []);
      promptTokens := [];
      nIter := 0;
      lines, live := [], [];
      heard := [];
    }

    /** The audio read of a cycle: the pull loop, then, when it returned a
        chunk, the window merge. Returns false when the feed runs out before
        any poll is ready. */
    method ReadAudio(device: CaptureDevice<S>) returns (ready: bool)
      requires Valid()
      modifies this`audioBuf, this`heard, device`feed, device`calls
      ensures Valid()
      ensures var feed := old(device.feed);
        var k := FirstReady(feed, nSamplesStep);
        && ready == (k < |feed|)
        && device.feed == (if ready then feed[k + 1..] else [])
        && device.calls == old(device.calls) + PullCalls(feed, if ready then k + 1 else k, nSamplesStep, params.stepMs)
        && (ready ==> audioBuf.pcmf32New == feed[k])
      ensures ready ==>
        && nSamplesStep <= |audioBuf.pcmf32New| <= 2 * nSamplesStep
        && audioBuf.pcmf32 == Merge(old(audioBuf.pcmf32Old), audioBuf.pcmf32New, nSamplesKeep, nSamplesLen)
        && audioBuf.pcmf32Old == audioBuf.pcmf32
        && heard == old(heard) + audioBuf.pcmf32New
        && WindowReady()
      ensures !ready ==>
        && audioBuf.pcmf32 == old(audioBuf.pcmf32) && audioBuf.pcmf32Old == old(audioBuf.pcmf32Old)
        && heard == old(heard)
    {
      ready := PullChunk(device);
      if ready {
        MergeWindow();
      }
    }

    /** The pull loop. Polls the device until a poll returns between one and
        two steps of audio: an overloaded poll clears the device and polls
        again, a short one waits and polls again, and the accepted one
        clears the device and ends the loop. Returns false when the feed runs
        out first; only the incoming buffer changes. */
    method PullChunk(device: CaptureDevice<S>) returns (ready: bool)
      modifies this`audioBuf, device`feed, device`calls
      ensures var feed := old(device.feed);
        var k := FirstReady(feed, nSamplesStep);
        && ready == (k < |feed|)
        && device.feed == (if ready then feed[k + 1..] else [])
        && device.calls == old(device.calls) + PullCalls(feed, if ready then k + 1 else k, nSamplesStep, params.stepMs)
      ensures audioBuf.pcmf32 == old(audioBuf.pcmf32) && audioBuf.pcmf32Old == old(audioBuf.pcmf32Old)
      ensures ready ==> audioBuf.pcmf32New == old(device.feed)[FirstReady(old(device.feed), nSamplesStep)]
      ensures ready ==> nSamplesStep <= |audioBuf.pcmf32New| <= 2 * nSamplesStep
      ensures !ready && old(device.feed) != [] ==> audioBuf.pcmf32New == old(device.feed)[|old(device.feed)| - 1]
      ensures old(device.feed) == [] ==> audioBuf.pcmf32New == old(audioBuf.pcmf32New)
    {
      ghost var feed, calls0, buf0 := device.feed, device.calls, audioBuf;
      ghost var polled := 0;
      ready := false;
      while device.feed != []
        invariant polled <= |feed| && device.feed == feed[polled..]
        invariant forall j :: 0 <= j < polled ==> Decide(|feed[j]|, nSamplesStep) != Ready
        invariant device.calls == calls0 + PullCalls(feed, polled, nSamplesStep, params.stepMs)
        invariant audioBuf.pcmf32 == buf0.pcmf32 && audioBuf.pcmf32Old == buf0.pcmf32Old
        invariant polled == 0 ==> audioBuf.pcmf32New == buf0.pcmf32New
        invariant 0 < polled ==> audioBuf.pcmf32New == feed[polled - 1]
        invariant !ready
        decreases |device.feed|
      {
        var d := PollDevice(device);
        polled := polled + 1;
        if d == Ready {
          ready := true;
          break;
        }
      }
      if !ready {
        return;
      }
      FirstReadyAt(feed, nSamplesStep, polled - 1);
    }

    /** One poll of the pull loop: put the next answer of the feed into the
        incoming buffer and decide. An overloaded poll (more than two steps,
        the engine cannot keep up) and the accepted poll both clear the
        device; a short poll leaves it alone and the loop sleeps one
        millisecond before polling again. */
    method PollDevice(device: CaptureDevice<S>) returns (d: Poll)
      requires device.feed != []
      modifies this`audioBuf, device`feed, device`calls
      ensures var chunk := old(device.feed)[0];
        && d == Decide(|chunk|, nSamplesStep)
        && device.feed == old(device.feed)[1..]
        && device.calls == old(device.calls) + PollCalls(|chunk|, nSamplesStep, params.stepMs)
        && audioBuf == old(audioBuf).(pcmf32New := chunk)
    {
      var chunk := device.Get(params.stepMs);
      audioBuf := audioBuf.(pcmf32New := chunk);
      if |chunk| > 2 * nSamplesStep {
        device.Clear();
        d := Overloaded;
      } else if |chunk| >= nSamplesStep {
        device.Clear();
        d := Ready;
      } else {
        d := Waiting;
      }
    }

    /** The window merge: copy the last `Take` samples of the retained
        buffer, append the incoming chunk, and retain the whole window. */
    method MergeWindow()
      requires Valid()
      requires nSamplesStep <= |audioBuf.pcmf32New| <= 2 * nSamplesStep
      modifies this`audioBuf, this`heard
      ensures Valid()
      ensures audioBuf.pcmf32New == old(audioBuf.pcmf32New)
      ensures audioBuf.pcmf32 == Merge(old(audioBuf.pcmf32Old), audioBuf.pcmf32New, nSamplesKeep, nSamplesLen)
      ensures audioBuf.pcmf32Old == audioBuf.pcmf32
      ensures heard == old(heard) + audioBuf.pcmf32New
      ensures WindowReady()
    {
      var retained := audioBuf.pcmf32Old;
      var incoming := audioBuf.pcmf32New;
      ghost var heard0 := heard;
      var nSamplesTake := Min(|retained|, Max(0, nSamplesKeep + nSamplesLen - |incoming|));
      var window := CopyTail(retained, nSamplesTake);
      window := window + incoming;
      MergeKeepsRecency(retained, heard0, incoming, nSamplesKeep, nSamplesLen);
      MergeBounded(retained, incoming, nSamplesStep, nSamplesKeep, nSamplesLen);
      audioBuf := audioBuf.(pcmf32 := window, pcmf32Old := window);
      heard := heard0 + incoming;
    }

    /** Copies the last `n` samples of `buf`, one sample at a time. */
    static method CopyTail(buf: seq<S>, n: int) returns (tail: seq<S>)
      requires 0 <= n <= |buf|
      ensures tail == buf[|buf| - n..]
    {
      tail := [];
      for i := 0 to n
        invariant tail == buf[|buf| - n..|buf| - n + i]
      {
        tail := tail + [buf[|buf| - n + i]];
      }
    }

    /** Emits the segments of the last inference, in order: each text is
        printed and forwarded to the delivery service. */
    static method InferenceResult(segments: seq<Segment>) returns (emitted: seq<string>)
      ensures |emitted| == |segments|
      ensures forall i :: 0 <= i < |segments| ==> emitted[i] == segments[i].text
    {
      emitted := [];
      for i := 0 to |segments|
        invariant |emitted| == i
        invariant forall j :: 0 <= j < i ==> emitted[j] == segments[j].text
      {
        emitted := emitted + [segments[i].text];
      }
    }

    /** End of a cycle: count it, and when the count reaches a multiple of
        the cadence commit the live line, keep only the last `keep` samples
        of the window, and rebuild the prompt from every token of every
        segment. Otherwise nothing else changes. */
    method Advance(segments: seq<Segment>)
      requires Valid() && WindowReady()
      modifies this`nIter, this`audioBuf, this`promptTokens, this`lines, this`live
      ensures Valid()
      ensures nIter == old(nIter) + 1
      ensures Commits(nIter, nNewLine) ==>
        && audioBuf == old(audioBuf).(pcmf32Old := old(audioBuf.pcmf32)[|old(audioBuf.pcmf32)| - nSamplesKeep..])
        && promptTokens == Flatten(segments)
        && lines == old(lines) + [old(live)] && live == []
      ensures !Commits(nIter, nNewLine) ==>
        && audioBuf == old(audioBuf) && promptTokens == old(promptTokens)
        && lines == old(lines) && live == old(live)
    {
      nIter := nIter + 1;
      if nIter % nNewLine == 0 {
        lines := lines + [live];
        live := [];
        var window := audioBuf.pcmf32;
        audioBuf := audioBuf.(pcmf32Old := window[|window| - nSamplesKeep..]);
        LastIsSuffix(window, nSamplesKeep);
        SuffixOfSuffix(audioBuf.pcmf32Old, window, heard);
        RebuildPrompt(segments);
      }
    }

    /** Replaces the prompt by every token of every segment, segment after
        segment. */
    method RebuildPrompt(segments: seq<Segment>)
      modifies this`promptTokens
      ensures promptTokens == Flatten(segments)
    {
      promptTokens := [];
      for i := 0 to |segments|
        invariant promptTokens == Flatten(segments[..i])
      {
        for j := 0 to |segments[i].tokens|
          invariant promptTokens == Flatten(segments[..i]) + segments[i].tokens[..j]
        {
          promptTokens := promptTokens + [segments[i].tokens[j]];
        }
        assert segments[..i + 1][..i] == segments[..i];
      }
      assert segments[..|segments|] == segments;
    }

    /** The inference half of a realtime cycle, once a window is ready: run
        the engine on the window with the current prompt in single-segment
        mode, redraw the live line with the segments, then count the cycle
        and maybe commit the line. An engine error ends the session. */
    method Transcribe(engine: EngineCall<S> -> Inference) returns (outcome: CycleOutcome)
      requires Valid() && WindowReady()
      modifies this`audioBuf, this`nIter, this`promptTokens, this`lines, this`live
      ensures Valid()
      ensures audioBuf.pcmf32 == old(audioBuf.pcmf32) && audioBuf.pcmf32New == old(audioBuf.pcmf32New)
      ensures var inference := engine(EngineCall(audioBuf.pcmf32, old(promptTokens), true));
        && (outcome == EngineFailed <==> inference.EngineError?)
        && (outcome == EngineFailed ==>
              && nIter == old(nIter) && audioBuf == old(audioBuf) && promptTokens == old(promptTokens)
              && lines == old(lines) && live == old(live))
        && (outcome != EngineFailed ==>
              && nIter == old(nIter) + 1
              && (outcome == LineCommitted <==> Commits(nIter, nNewLine))
              && (outcome == LineCommitted ==>
                    && audioBuf.pcmf32Old == audioBuf.pcmf32[|audioBuf.pcmf32| - nSamplesKeep..]
                    && promptTokens == Flatten(inference.segments)
                    && lines == old(lines) + [Texts(inference.segments)] && live == [])
              && (outcome == LineContinued ==>
                    && audioBuf == old(audioBuf)
                    && promptTokens == old(promptTokens)
                    && lines == old(lines) && live == Texts(inference.segments)))
    {
      var inference := engine(EngineCall(audioBuf.pcmf32, promptTokens, true));
      if inference.EngineError? {
        return EngineFailed;
      }
      // clear the live line and print the new segments in its place
      var emitted := InferenceResult(inference.segments);
      assert emitted == Texts(inference.segments);
      live := emitted;
      Advance(inference.segments);
      outcome := if nIter % nNewLine == 0 then LineCommitted else LineContinued;
    }

    /** The realtime session: open and resume the device, start the session,
        then run cycles until the cancellation poll reports a stop, and pause
        the device. The poll reports "running" `cancelAfter` times and "stop"
        the time after. */
    method RealtimeInference(device: CaptureDevice<S>, engine: EngineCall<S> -> Inference, silence: S, cancelAfter: nat)
      returns (end: SessionEnd)
      requires ValidTiming(params)
      modifies this`nSamplesStep, this`nSamplesLen, this`nSamplesKeep, this`nSamples30s, this`nNewLine
      modifies this`audioBuf, this`heard, this`nIter, this`promptTokens, this`lines, this`live
      modifies device`feed, device`calls
      ensures end == InitFailed <==> !device.initOk
      ensures end == InitFailed ==>
        device.calls == old(device.calls) + [InitCall(params.captureId, SampleRate)] && device.feed == old(device.feed)
      ensures end != InitFailed ==>
        && Valid()
        && old(device.calls) + [InitCall(params.captureId, SampleRate), ResumeCall] <= device.calls
        && nIter <= cancelAfter
        && |lines| == nIter / nNewLine
      ensures end == Cancelled ==> nIter == cancelAfter && device.calls[|device.calls| - 1] == PauseCall
      ensures end in {SessionStarved, SessionEngineFailed} ==> nIter < cancelAfter
    {
      var ok := device.Init(params.captureId, SampleRate);
      if !ok {
        return InitFailed;
      }
      device.Resume();
      StartSession(silence);
      ghost var started := device.calls;
      var polls := 0;
      end := Cancelled;
      while true
        invariant Valid()
        invariant polls <= cancelAfter && nIter == polls
        invariant started <= device.calls
        invariant end == Cancelled
        decreases cancelAfter - polls
      {
        // poll for Ctrl-C
        var isRunning := polls < cancelAfter;
        if !isRunning {
          break;
        }
        polls := polls + 1;
        var ready := ReadAudio(device);
        if !ready {
          end := SessionStarved;
          break;
        }
        var outcome := Transcribe(engine);
        if outcome == EngineFailed {
          end := SessionEngineFailed;
          break;
        }
      }
      if end == Cancelled {
        device.Pause();
      }
      LinesCommittedQuotient(nIter, nNewLine);
    }

    /** The offline path: decode the input file, run the engine once on all
        of it with an empty prompt and its own segmentation, and emit every
        segment in order. */
    method OfflineInference(wav: WavInput<S>, engine: EngineCall<S> -> Inference) returns (end: OfflineEnd)
      ensures wav.WavUnreadable? ==> end == WavError
      ensures wav.WavSamples? ==>
        var inference := engine(EngineCall(wav.samples, [], false));
        && (inference.EngineError? ==> end == OfflineEngineError)
        && (inference.Transcribed? ==> end == Transcript(Texts(inference.segments)))
    {
      if wav.WavUnreadable? {
        return WavError;
      }
      var inference := engine(EngineCall(wav.samples, [], false));
      if inference.EngineError? {
        return OfflineEngineError;
      }
      var emitted := InferenceResult(inference.segments);
      end := Transcript(emitted);
    }
  }
}
