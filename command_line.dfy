/** The program entry: the command-line parser that fills `app_params`,
    the clamping of the durations, and the choice between the offline and
    the realtime path. */
module CommandLine {
  import opened Params
  import opened Capture
  import opened Prompt
  import opened Asr

  /** Why the parser stopped. Every status but `Accepted` makes the
      program print its usage and exit with status 1. */
  datatype ParseStatus =
    | Accepted
    | HelpRequested
    | UnknownArgument(arg: string)
    | MissingValue(flag: string)   // a value flag was the last argument
    | MissingModel                 // no model path after all arguments

  datatype Parsed = Parsed(status: ParseStatus, params: AppParams)

  predicate IsHelp(arg: string) { arg == "-h" || arg == "--help" }

  predicate IsModelFlag(arg: string) { arg == "-m" || arg == "--model" }

  predicate IsFileFlag(arg: string) { arg == "-f" || arg == "--file" }

  /** What parsing the arguments `args` (program name excluded) does to
      `p`: flags are read left to right, a value flag consumes the
      argument after it, and the first help flag or unknown argument stops
      the parse. The record is updated in place, so a failed parse still
      returns whatever was set before the failure. */
  function Parse(args: seq<string>, p: AppParams): Parsed
    decreases |args|
  {
    if args == [] then
      Parsed(if p.model == "" then MissingModel else Accepted, p)
    else if IsHelp(args[0]) then
      Parsed(HelpRequested, p)
    else if IsModelFlag(args[0]) then
      if |args| < 2 then Parsed(MissingValue(args[0]), p)
      else Parse(args[2..], p.(model := args[1]))
    else if IsFileFlag(args[0]) then
      if |args| < 2 then Parsed(MissingValue(args[0]), p)
      else Parse(args[2..], p.(inputWav := args[1]))
    else
      Parsed(UnknownArgument(args[0]), p)
  }

  /** The argument loop over `argv` (the program name first), advancing past
      the value of a value flag. */
  method ArgParse(argv: seq<string>, params: AppParams) returns (status: ParseStatus, p: AppParams)
    requires 1 <= |argv|
    ensures Parsed(status, p) == Parse(argv[1..], params)
  {
    p := params;
    var i := 1;
    while i < |argv|
      invariant 1 <= i <= |argv|
      invariant Parse(argv[i..], p) == Parse(argv[1..], params)
      decreases |argv| - i
    {
      var arg := argv[i];
      if arg == "-h" || arg == "--help" {
        return HelpRequested, p;
      } else if arg == "-m" || arg == "--model" {
        if i + 1 == |argv| {
          return MissingValue(arg), p;
        }
        assert argv[i + 2..] == argv[i..][2..];
        i := i + 1;
        p := p.(model := argv[i]);
      } else if arg == "-f" || arg == "--file" {
        if i + 1 == |argv| {
          return MissingValue(arg), p;
        }
        assert argv[i + 2..] == argv[i..][2..];
        i := i + 1;
        p := p.(inputWav := argv[i]);
      } else {
        return UnknownArgument(arg), p;
      }
      i := i + 1;
    }
    if p.model == "" {
      return MissingModel, p;
    }
    status := Accepted;
  }

  /** A well-formed option: a model or input-file flag in its short or long
      spelling, with its value. */
  datatype CliOption =
    | ModelOption(long: bool, path: string)
    | FileOption(long: bool, path: string)

  function Flag(o: CliOption): (f: string)
    ensures o.ModelOption? ==> IsModelFlag(f)
    ensures o.FileOption? ==> IsFileFlag(f)
  {
    match o
    case ModelOption(long, _) => if long then "--model" else "-m"
    case FileOption(long, _) => if long then "--file" else "-f"
  }

  /** The arguments that spell out a list of options. */
  function Render(opts: seq<CliOption>): (args: seq<string>)
    ensures |args| == 2 * |opts|
  {
    if opts == [] then [] else [Flag(opts[0]), opts[0].path] + Render(opts[1..])
  }

  /** The record after setting one option. */
  function Apply(o: CliOption, p: AppParams): AppParams
  {
    match o
    case ModelOption(_, path) => p.(model := path)
    case FileOption(_, path) => p.(inputWav := path)
  }

  /** The record after setting the options from first to last. */
  function ApplyAll(opts: seq<CliOption>, p: AppParams): AppParams
  {
    if opts == [] then p else ApplyAll(opts[1..], Apply(opts[0], p))
  }

  /** Parsing a run of well-formed options sets them in order and then
      carries on with the rest: each value is consumed, never read as a
      flag. */
  lemma {:induction false} ParseRendered(opts: seq<CliOption>, rest: seq<string>, p: AppParams)
    ensures Parse(Render(opts) + rest, p) == Parse(rest, ApplyAll(opts, p))
  {
    if opts != [] {
      var o := opts[0];
      var args := Render(opts) + rest;
      assert args == [Flag(o), o.path] + (Render(opts[1..]) + rest);
      assert args[2..] == Render(opts[1..]) + rest;
      ParseRendered(opts[1..], rest, Apply(o, p));
    } else {
      assert Render(opts) + rest == rest;
    }
  }

  /** Well-formed options alone are accepted exactly when they leave a
      non-empty model path. */
  lemma ParseOptions(opts: seq<CliOption>, p: AppParams)
    ensures var q := ApplyAll(opts, p);
      Parse(Render(opts), p) == Parsed(if q.model == "" then MissingModel else Accepted, q)
  {
    ParseRendered(opts, [], p);
    assert Render(opts) + [] == Render(opts);
  }

  /** A help flag in flag position stops the parse with a request for the
      usage text, whatever follows it. */
  lemma HelpStops(opts: seq<CliOption>, h: string, rest: seq<string>, p: AppParams)
    requires IsHelp(h)
    ensures Parse(Render(opts) + ([h] + rest), p) == Parsed(HelpRequested, ApplyAll(opts, p))
  {
    ParseRendered(opts, [h] + rest, p);
  }

  /** Any other argument in flag position is rejected. */
  lemma UnknownStops(opts: seq<CliOption>, a: string, rest: seq<string>, p: AppParams)
    requires !IsHelp(a) && !IsModelFlag(a) && !IsFileFlag(a)
    ensures Parse(Render(opts) + ([a] + rest), p) == Parsed(UnknownArgument(a), ApplyAll(opts, p))
  {
    ParseRendered(opts, [a] + rest, p);
  }

  /** A value flag with nothing after it is an error. */
  lemma TrailingFlag(opts: seq<CliOption>, f: string, p: AppParams)
    requires IsModelFlag(f) || IsFileFlag(f)
    ensures Parse(Render(opts) + [f], p) == Parsed(MissingValue(f), ApplyAll(opts, p))
  {
    ParseRendered(opts, [f], p);
  }

  /** Conversely, every accepted argument list is a run of well-formed
      options, and the parse sets exactly those options. */
  lemma {:induction false} AcceptedIsRendered(args: seq<string>, p: AppParams) returns (opts: seq<CliOption>)
    requires Parse(args, p).status == Accepted
    ensures Render(opts) == args
    ensures ApplyAll(opts, p) == Parse(args, p).params
    ensures ApplyAll(opts, p).model != ""
    decreases |args|
  {
    if args == [] {
      opts := [];
    } else {
      var o := if IsModelFlag(args[0]) then ModelOption(args[0] == "--model", args[1])
        else FileOption(args[0] == "--file", args[1]);
      var tail := AcceptedIsRendered(args[2..], Apply(o, p));
      opts := [o] + tail;
      assert opts[1..] == tail;
      assert args == [args[0], args[1]] + args[2..];
    }
  }

  lemma {:induction false} ApplyAllAppend(a: seq<CliOption>, b: seq<CliOption>, p: AppParams)
    ensures ApplyAll(a + b, p) == ApplyAll(b, ApplyAll(a, p))
    decreases |a|
  {
    if a != [] {
      assert (a + b)[1..] == a[1..] + b;
      ApplyAllAppend(a[1..], b, Apply(a[0], p));
    } else {
      assert a + b == b;
    }
  }

  /** Options that set no model leave the model path alone, and options
      that set no input file leave the input file alone. */
  lemma {:induction false} ApplyAllUntouched(opts: seq<CliOption>, p: AppParams)
    ensures (forall i :: 0 <= i < |opts| ==> !opts[i].ModelOption?) ==> ApplyAll(opts, p).model == p.model
    ensures (forall i :: 0 <= i < |opts| ==> !opts[i].FileOption?) ==> ApplyAll(opts, p).inputWav == p.inputWav
    decreases |opts|
  {
    if opts != [] {
      ApplyAllUntouched(opts[1..], Apply(opts[0], p));
      assert forall i :: 1 <= i < |opts| ==> opts[1..][i - 1] == opts[i];
    }
  }

  /** When the model flag is given more than once the last one wins. */
  lemma LastModelWins(a: seq<CliOption>, long: bool, path: string, b: seq<CliOption>, p: AppParams)
    requires forall i :: 0 <= i < |b| ==> !b[i].ModelOption?
    ensures ApplyAll(a + [ModelOption(long, path)] + b, p).model == path
  {
    ApplyAllAppend(a + [ModelOption(long, path)], b, p);
    ApplyAllAppend(a, [ModelOption(long, path)], p);
    ApplyAllUntouched(b, ApplyAll(a + [ModelOption(long, path)], p));
  }

  /** When the input-file flag is given more than once the last one wins. */
  lemma LastFileWins(a: seq<CliOption>, long: bool, path: string, b: seq<CliOption>, p: AppParams)
    requires forall i :: 0 <= i < |b| ==> !b[i].FileOption?
    ensures ApplyAll(a + [FileOption(long, path)] + b, p).inputWav == path
  {
    ApplyAllAppend(a + [FileOption(long, path)], b, p);
    ApplyAllAppend(a, [FileOption(long, path)], p);
    ApplyAllUntouched(b, ApplyAll(a + [FileOption(long, path)], p));
  }

  /** The command line sets only the model and input paths: the durations
      and the capture device keep the values they had. */
  lemma {:induction false} ParseKeepsTiming(args: seq<string>, p: AppParams)
    ensures var q := Parse(args, p).params;
      q.stepMs == p.stepMs && q.lengthMs == p.lengthMs && q.keepMs == p.keepMs && q.captureId == p.captureId
    decreases |args|
  {
    if 2 <= |args| && (IsModelFlag(args[0]) || IsFileFlag(args[0])) {
      ParseKeepsTiming(args[2..], if IsModelFlag(args[0]) then p.(model := args[1]) else p.(inputWav := args[1]));
    }
  }

  /** A path the parse returns is either the one it started with or the
      value right after a flag for that path. */
  lemma {:induction false} PathsFromFlags(args: seq<string>, p: AppParams)
    ensures var q := Parse(args, p).params;
      q.model == p.model || exists i :: 0 <= i < |args| - 1 && IsModelFlag(args[i]) && args[i + 1] == q.model
    ensures var q := Parse(args, p).params;
      q.inputWav == p.inputWav || exists i :: 0 <= i < |args| - 1 && IsFileFlag(args[i]) && args[i + 1] == q.inputWav
    decreases |args|
  {
    var q := Parse(args, p).params;
    if 2 <= |args| && (IsModelFlag(args[0]) || IsFileFlag(args[0])) {
      var p' := if IsModelFlag(args[0]) then p.(model := args[1]) else p.(inputWav := args[1]);
      var rest := args[2..];
      PathsFromFlags(rest, p');
      assert q == Parse(rest, p').params;
      if q.model != p.model {
        if q.model == p'.model {
          assert IsModelFlag(args[0]) && args[1] == q.model;
        } else {
          var i :| 0 <= i < |rest| - 1 && IsModelFlag(rest[i]) && rest[i + 1] == q.model;
          assert args[i + 2] == rest[i] && args[i + 3] == rest[i + 1];
        }
      }
      if q.inputWav != p.inputWav {
        if q.inputWav == p'.inputWav {
          assert IsFileFlag(args[0]) && args[1] == q.inputWav;
        } else {
          var i :| 0 <= i < |rest| - 1 && IsFileFlag(rest[i]) && rest[i + 1] == q.inputWav;
          assert args[i + 2] == rest[i] && args[i + 3] == rest[i + 1];
        }
      }
    }
  }

  /** Starting from the defaults, a parse succeeds only if some model flag
      carried a non-empty path; and with no input-file flag the input path
      stays empty, which selects the realtime path. */
  lemma DefaultsNeedModel(args: seq<string>)
    ensures Parse(args, DefaultParams()).status == Accepted ==>
      exists i :: 0 <= i < |args| - 1 && IsModelFlag(args[i]) && args[i + 1] != ""
    ensures (forall i :: 0 <= i < |args| ==> !IsFileFlag(args[i])) ==>
      Parse(args, DefaultParams()).params.inputWav == ""
  {
    PathsFromFlags(args, DefaultParams());
    if Parse(args, DefaultParams()).status == Accepted {
      var opts := AcceptedIsRendered(args, DefaultParams());
    }
  }

  /** The clamping of the durations: keep is cut down to the step and the
      window is stretched up to the step. */
  function Clamp(p: AppParams): (q: AppParams)
    ensures q.keepMs <= q.stepMs <= q.lengthMs
    ensures q.stepMs == p.stepMs
    ensures q.keepMs <= p.keepMs && (q.keepMs == p.keepMs || q.keepMs == p.stepMs)
    ensures q.lengthMs >= p.lengthMs && (q.lengthMs == p.lengthMs || q.lengthMs == p.stepMs)
    ensures q.(keepMs := p.keepMs, lengthMs := p.lengthMs) == p
  {
    p.(keepMs := Min(p.keepMs, p.stepMs), lengthMs := Max(p.lengthMs, p.stepMs))
  }

  /** Durations already in order are left alone. */
  lemma ClampOrdered(p: AppParams)
    requires p.keepMs <= p.stepMs <= p.lengthMs
    ensures Clamp(p) == p
  {
  }

  lemma ClampIdempotent(p: AppParams)
    ensures Clamp(Clamp(p)) == Clamp(p)
  {
    ClampOrdered(Clamp(p));
  }

  /** The defaults are already in order, so clamping does not change them. */
  lemma ClampDefaults()
    ensures Clamp(DefaultParams()) == DefaultParams()
  {
    ClampOrdered(DefaultParams());
  }

  /** The path the program takes after parsing: the usage text (with the
      parse status), or one of the two inference paths with the clamped
      parameters. */
  datatype Mode =
    | Usage(status: ParseStatus)
    | Offline(params: AppParams)
    | Realtime(params: AppParams)

  /** The program: parse `argv` into the default parameters, clamp the
      durations in place, then run the offline path when an input file was
      given and the realtime session otherwise. `wav` is the decoded input
      file; `device`, `engine`, `silence` and `cancelAfter` are passed to the
      realtime session. Returns the path taken and the exit status. */
  method Run<S>(argv: seq<string>, wav: WavInput<S>, device: CaptureDevice<S>, engine: EngineCall<S> -> Inference,
                silence: S, cancelAfter: nat)
    returns (mode: Mode, exitStatus: int)
    requires 1 <= |argv|
    modifies device`feed, device`calls
    ensures var r := Parse(argv[1..], DefaultParams());
      && (r.status != Accepted ==> mode == Usage(r.status))
      && (r.status == Accepted && r.params.inputWav != "" ==> mode == Offline(Clamp(r.params)))
      && (r.status == Accepted && r.params.inputWav == "" ==> mode == Realtime(Clamp(r.params)))
    ensures !mode.Usage? ==> ValidTiming(mode.params) && mode.params.model != ""
    ensures mode.Usage? ==> exitStatus == 1
    ensures !mode.Realtime? ==> device.feed == old(device.feed) && device.calls == old(device.calls)
    ensures mode.Offline? ==>
      (exitStatus == 0 <==> wav.WavSamples? && engine(EngineCall(wav.samples, [], false)).Transcribed?)
    ensures mode.Realtime? ==>
      && (!device.initOk ==> exitStatus == 1)
      && (exitStatus == 0 ==> 0 < |device.calls| && device.calls[|device.calls| - 1] == PauseCall)
  {
    var status, params := ArgParse(argv, DefaultParams());
    if status != Accepted {
      return Usage(status), 1;
    }
    ParseKeepsTiming(argv[1..], DefaultParams());
    ghost var opts := AcceptedIsRendered(argv[1..], DefaultParams());
    params := params.(keepMs := Min(params.keepMs, params.stepMs));
    params := params.(lengthMs := Max(params.lengthMs, params.stepMs));
    var app := new AsrApp<S>(params);
    if params.inputWav != "" {
      mode := Offline(params);
      var end := app.OfflineInference(wav, engine);
      exitStatus := if end.Transcript? then 0 else 1;
      return;
    }
    mode := Realtime(params);
    var end := app.RealtimeInference(device, engine, silence, cancelAfter);
    exitStatus := if end == Cancelled then 0 else 1;
  }
}
