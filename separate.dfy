/** The command builder of demo.py's `separate_audio`: one separation request
    becomes the argument vector handed to the external `demucs` executable,
    and the child's exit status becomes the call's outcome. */
module Separate {
  import opened PyValues

  /** The parameters of one `separate_audio` call, in the order the function
      declares them. A parameter that may hold None or a falsy value is an
      Option; `jobs` is compared with `>` and so must be an int. */
  datatype Request = Request(
    trackPath: string,
    outputDir: Option<string>,
    modelName: Option<string>,
    device: Option<string>,
    shifts: Option<int>,
    overlap: Option<PyFloat>,
    noSplit: bool,
    segment: Option<int>,
    twoStems: Option<string>,
    clipMode: Option<string>,
    mp3Bitrate: Option<int>,
    mp3Preset: Option<int>,
    filename: Option<string>,
    jobs: int,
    verbose: bool)

  /** A call that passes only the track path and keeps every keyword default. */
  function DefaultRequest(trackPath: string): Request
  {
    Request(trackPath, Some("separated"), Some("htdemucs"), Some("cuda"), Some(8),
            Some(PyFloat(0.5, "0.5")), false, Some(7), Some("vocals"), Some("rescale"),
            Some(256), Some(2), None, 0, false)
  }

  /** The call `main` makes when the command line names only the track: the
      argparse defaults, which differ from the keyword defaults in the
      filename template and in verbose (store_true with default=True). */
  function CliDefaultRequest(trackPath: string): Request
  {
    DefaultRequest(trackPath).(filename := Some("{track}_{stem}.{ext}"), verbose := true)
  }

  // ---------------------------------------------------------------------
  // The options the builder can emit

  datatype Flag = Model | Output | Device | Shifts | Jobs | TwoStems | Overlap
                | NoSplit | Segment | ClipMode | Mp3Bitrate | Mp3Preset | Filename | Verbose

  function Spelling(f: Flag): string
  {
    match f
    case Model => "-n"
    case Output => "-o"
    case Device => "-d"
    case Shifts => "--shifts"
    case Jobs => "-j"
    case TwoStems => "--two-stems"
    case Overlap => "--overlap"
    case NoSplit => "--no-split"
    case Segment => "--segment"
    case ClipMode => "--clip-mode"
    case Mp3Bitrate => "--mp3-bitrate"
    case Mp3Preset => "--mp3-preset"
    case Filename => "--filename"
    case Verbose => "-v"
  }

  /** Every option is a flag followed by a value, except the two switches. */
  predicate TakesValue(f: Flag)
  {
    f != NoSplit && f != Verbose
  }

  /** The order in which the builder considers the options: the basic
      parameters, then the optional ones. */
  const BasicOrder: seq<Flag> := [Model, Output, Device, Shifts, Jobs]
  const ProcessingOrder: seq<Flag> := [TwoStems, Overlap, NoSplit, Segment]
  const OutputOrder: seq<Flag> := [ClipMode, Mp3Bitrate, Mp3Preset, Filename, Verbose]
  const Order: seq<Flag> := BasicOrder + ProcessingOrder + OutputOrder

  function Rank(f: Flag): (k: nat)
    ensures k < |Order| && Order[k] == f
  {
    match f
    case Model => 0
    case Output => 1
    case Device => 2
    case Shifts => 3
    case Jobs => 4
    case TwoStems => 5
    case Overlap => 6
    case NoSplit => 7
    case Segment => 8
    case ClipMode => 9
    case Mp3Bitrate => 10
    case Mp3Preset => 11
    case Filename => 12
    case Verbose => 13
  }

  /** One emitted option: a flag with its value token, or a bare switch. */
  datatype Arg = Valued(flag: Flag, value: string) | Switch(flag: Flag)

  predicate WellFormed(a: Arg)
  {
    a.Valued? == TakesValue(a.flag)
  }

  function Render(a: Arg): seq<string>
  {
    match a
    case Valued(f, v) => [Spelling(f), v]
    case Switch(f) => [Spelling(f)]
  }

  function Tokens(args: seq<Arg>): seq<string>
  {
    if args == [] then [] else Render(args[0]) + Tokens(args[1..])
  }

  // ---------------------------------------------------------------------
  // What each parameter contributes

  /** The value token `if x: cmd.extend([flag, x])` passes for a str
      parameter, or None when the test fails. */
  function StrValue(s: Option<string>): Option<string>
  {
    if StrTruthy(s) then Some(s.value) else None
  }

  /** The value token `if n: cmd.extend([flag, str(n)])` passes for an int
      parameter: a canonical text that reads back as the integer, and so
      (CanonicalRoundTrip) exactly `str(n)`. */
  function IntValue(n: Option<int>): (v: Option<string>)
    ensures v.Some? <==> IntTruthy(n)
    ensures v.Some? ==> Canonical(v.value) && ParseInt(v.value) == Some(n.value)
  {
    if IntTruthy(n) then
      IntRoundTrip(n.value);
      Some(IntToString(n.value))
    else None
  }

  /** The value token `if x: cmd.extend([flag, str(x)])` passes for a float parameter. */
  function FloatValue(x: Option<PyFloat>): Option<string>
  {
    if FloatTruthy(x) then Some(x.value.text) else None
  }

  /** The value token of `if jobs > 0: cmd.extend(["-j", str(jobs)])`: unlike
      the other int parameters, a negative job count is suppressed. */
  function JobsValue(jobs: int): (v: Option<string>)
    ensures v.Some? <==> jobs > 0
    ensures v.Some? ==> Canonical(v.value) && ParseInt(v.value) == Some(jobs)
  {
    if jobs > 0 then
      IntRoundTrip(jobs);
      Some(IntToString(jobs))
    else None
  }

  function ValuedArg(f: Flag, v: Option<string>): Option<Arg>
  {
    if v.Some? then Some(Valued(f, v.value)) else None
  }

  function SwitchArg(f: Flag, on: bool): Option<Arg>
  {
    if on then Some(Switch(f)) else None
  }

  /** The argument, if any, that request `r` contributes for option `f`. */
  function Emit(r: Request, f: Flag): (a: Option<Arg>)
    ensures a.Some? ==> a.value.flag == f && WellFormed(a.value)
  {
    match f
    case Model => ValuedArg(Model, StrValue(r.modelName))
    case Output => ValuedArg(Output, StrValue(r.outputDir))
    case Device => ValuedArg(Device, StrValue(r.device))
    case Shifts => ValuedArg(Shifts, IntValue(r.shifts))
    case Jobs => ValuedArg(Jobs, JobsValue(r.jobs))
    case TwoStems => ValuedArg(TwoStems, StrValue(r.twoStems))
    case Overlap => ValuedArg(Overlap, FloatValue(r.overlap))
    case NoSplit => SwitchArg(NoSplit, r.noSplit)
    case Segment => ValuedArg(Segment, IntValue(r.segment))
    case ClipMode => ValuedArg(ClipMode, StrValue(r.clipMode))
    case Mp3Bitrate => ValuedArg(Mp3Bitrate, IntValue(r.mp3Bitrate))
    case Mp3Preset => ValuedArg(Mp3Preset, IntValue(r.mp3Preset))
    case Filename => ValuedArg(Filename, StrValue(r.filename))
    case Verbose => SwitchArg(Verbose, r.verbose)
  }

  function Opt(a: Option<Arg>): seq<Arg>
  {
    if a.Some? then [a.value] else []
  }

  /** The arguments contributed for the options `flags`, in that order. */
  function ArgsOf(r: Request, flags: seq<Flag>): seq<Arg>
  {
    if flags == [] then [] else Opt(Emit(r, flags[0])) + ArgsOf(r, flags[1..])
  }

  /** Every argument the request contributes, in emission order. */
  function Args(r: Request): seq<Arg>
  {
    ArgsOf(r, Order)
  }

  /** The argument vector: the executable, the options, the track path. */
  function Command(r: Request): (cmd: seq<string>)
    ensures |cmd| >= 2 && cmd[0] == "demucs" && cmd[|cmd| - 1] == r.trackPath
  {
    ["demucs"] + Tokens(Args(r)) + [r.trackPath]
  }

  // ---------------------------------------------------------------------
  // The builder, one guarded append at a time

  /** The tokens one option contributes. */
  function OptTokens(a: Option<Arg>): seq<string>
  {
    if a.Some? then Render(a.value) else []
  }

  /** `if value: cmd.extend([flag, value])`, with the test already folded
      into `value` (None when the source's condition fails). */
  method ExtendIfSet(cmd: seq<string>, f: Flag, value: Option<string>) returns (extended: seq<string>)
    ensures extended == cmd + OptTokens(ValuedArg(f, value))
  {
    extended := cmd;
    if value.Some? {
      extended := extended + [Spelling(f), value.value];
    }
  }

  /** `if on: cmd.append(flag)` */
  method AppendIfSet(cmd: seq<string>, f: Flag, on: bool) returns (extended: seq<string>)
    ensures extended == cmd + OptTokens(SwitchArg(f, on))
  {
    extended := cmd;
    if on {
      extended := extended + [Spelling(f)];
    }
  }

  // ---------------------------------------------------------------------
  // The appends of the builder, in order, spell out Command

  lemma {:induction false} TokensAppend(xs: seq<Arg>, ys: seq<Arg>)
    ensures Tokens(xs + ys) == Tokens(xs) + Tokens(ys)
    decreases |xs|
  {
    if xs == [] {
      assert xs + ys == ys;
    } else {
      assert (xs + ys)[0] == xs[0];
      assert (xs + ys)[1..] == xs[1..] + ys;
      TokensAppend(xs[1..], ys);
    }
  }

  lemma TokensOpt(a: Option<Arg>)
    ensures Tokens(Opt(a)) == OptTokens(a)
  {
    if a.Some? {
      assert [a.value][1..] == [];
    }
  }

  lemma TokensStep(r: Request, flags: seq<Flag>)
    requires flags != []
    ensures Tokens(ArgsOf(r, flags)) == OptTokens(Emit(r, flags[0])) + Tokens(ArgsOf(r, flags[1..]))
  {
    TokensAppend(Opt(Emit(r, flags[0])), ArgsOf(r, flags[1..]));
    TokensOpt(Emit(r, flags[0]));
  }

  /** One guarded append moves the first pending option onto the vector. */
  lemma Step(r: Request, p: seq<string>, flags: seq<Flag>)
    requires flags != []
    ensures p + Tokens(ArgsOf(r, flags)) == p + OptTokens(Emit(r, flags[0])) + Tokens(ArgsOf(r, flags[1..]))
  {
    TokensStep(r, flags);
  }

  /** The appends of the basic parameters (model, output, device, shifts, jobs). */
  lemma BasicSteps(r: Request, p: seq<string>, flags: seq<Flag>)
    requires |flags| == 5
    requires flags[0] == Model
    requires flags[1] == Output
    requires flags[2] == Device
    requires flags[3] == Shifts
    requires flags[4] == Jobs
    ensures p + Tokens(ArgsOf(r, flags)) == p
      + OptTokens(ValuedArg(Model, StrValue(r.modelName)))
      + OptTokens(ValuedArg(Output, StrValue(r.outputDir)))
      + OptTokens(ValuedArg(Device, StrValue(r.device)))
      + OptTokens(ValuedArg(Shifts, IntValue(r.shifts)))
      + OptTokens(ValuedArg(Jobs, JobsValue(r.jobs)))
  {
    var q0 := p;
    Step(r, q0, flags[0..]);
    assert flags[0..][1..] == flags[1..];
    var q1 := q0 + OptTokens(Emit(r, flags[0]));
    Step(r, q1, flags[1..]);
    assert flags[1..][1..] == flags[2..];
    var q2 := q1 + OptTokens(Emit(r, flags[1]));
    Step(r, q2, flags[2..]);
    assert flags[2..][1..] == flags[3..];
    var q3 := q2 + OptTokens(Emit(r, flags[2]));
    Step(r, q3, flags[3..]);
    assert flags[3..][1..] == flags[4..];
    var q4 := q3 + OptTokens(Emit(r, flags[3]));
    Step(r, q4, flags[4..]);
    assert flags[4..][1..] == flags[5..];
    var q5 := q4 + OptTokens(Emit(r, flags[4]));
    assert flags[5..] == [];
  }

  /** The appends of the first optional parameters (two-stems, overlap,
      no-split, segment). */
  lemma ProcessingSteps(r: Request, p: seq<string>, flags: seq<Flag>)
    requires |flags| == 4
    requires flags[0] == TwoStems
    requires flags[1] == Overlap
    requires flags[2] == NoSplit
    requires flags[3] == Segment
    ensures p + Tokens(ArgsOf(r, flags)) == p
      + OptTokens(ValuedArg(TwoStems, StrValue(r.twoStems)))
      + OptTokens(ValuedArg(Overlap, FloatValue(r.overlap)))
      + OptTokens(SwitchArg(NoSplit, r.noSplit))
      + OptTokens(ValuedArg(Segment, IntValue(r.segment)))
  {
    var q0 := p;
    Step(r, q0, flags[0..]);
    assert flags[0..][1..] == flags[1..];
    var q1 := q0 + OptTokens(Emit(r, flags[0]));
    Step(r, q1, flags[1..]);
    assert flags[1..][1..] == flags[2..];
    var q2 := q1 + OptTokens(Emit(r, flags[1]));
    Step(r, q2, flags[2..]);
    assert flags[2..][1..] == flags[3..];
    var q3 := q2 + OptTokens(Emit(r, flags[2]));
    Step(r, q3, flags[3..]);
    assert flags[3..][1..] == flags[4..];
    var q4 := q3 + OptTokens(Emit(r, flags[3]));
    assert flags[4..] == [];
  }

  /** The appends of the remaining optional parameters (clip mode, mp3
      bitrate and preset, filename, verbose). */
  lemma OutputSteps(r: Request, p: seq<string>, flags: seq<Flag>)
    requires |flags| == 5
    requires flags[0] == ClipMode
    requires flags[1] == Mp3Bitrate
    requires flags[2] == Mp3Preset
    requires flags[3] == Filename
    requires flags[4] == Verbose
    ensures p + Tokens(ArgsOf(r, flags)) == p
      + OptTokens(ValuedArg(ClipMode, StrValue(r.clipMode)))
      + OptTokens(ValuedArg(Mp3Bitrate, IntValue(r.mp3Bitrate)))
      + OptTokens(ValuedArg(Mp3Preset, IntValue(r.mp3Preset)))
      + OptTokens(ValuedArg(Filename, StrValue(r.filename)))
      + OptTokens(SwitchArg(Verbose, r.verbose))
  {
    var q0 := p;
    Step(r, q0, flags[0..]);
    assert flags[0..][1..] == flags[1..];
    var q1 := q0 + OptTokens(Emit(r, flags[0]));
    Step(r, q1, flags[1..]);
    assert flags[1..][1..] == flags[2..];
    var q2 := q1 + OptTokens(Emit(r, flags[1]));
    Step(r, q2, flags[2..]);
    assert flags[2..][1..] == flags[3..];
    var q3 := q2 + OptTokens(Emit(r, flags[2]));
    Step(r, q3, flags[3..]);
    assert flags[3..][1..] == flags[4..];
    var q4 := q3 + OptTokens(Emit(r, flags[3]));
    Step(r, q4, flags[4..]);
    assert flags[4..][1..] == flags[5..];
    var q5 := q4 + OptTokens(Emit(r, flags[4]));
    assert flags[5..] == [];
  }

  lemma {:induction false} ArgsOfAppend(r: Request, a: seq<Flag>, b: seq<Flag>)
    ensures ArgsOf(r, a + b) == ArgsOf(r, a) + ArgsOf(r, b)
    decreases |a|
  {
    if a == [] {
      assert a + b == b;
    } else {
      assert (a + b)[0] == a[0];
      assert (a + b)[1..] == a[1..] + b;
      ArgsOfAppend(r, a[1..], b);
    }
  }

  lemma PrefixAppend(r: Request, p: seq<string>, a: seq<Flag>, b: seq<Flag>)
    ensures p + Tokens(ArgsOf(r, a + b)) == p + Tokens(ArgsOf(r, a)) + Tokens(ArgsOf(r, b))
  {
    ArgsOfAppend(r, a, b);
    TokensAppend(ArgsOf(r, a), ArgsOf(r, b));
  }

  /** The fourteen guarded appends of `separate_audio`, each written with its
      own truthiness test, build exactly the executable followed by the
      tokens of `Args(r)`. */
  lemma AppendsInOrder(r: Request)
    ensures
      ["demucs"] + OptTokens(ValuedArg(Model, StrValue(r.modelName)))
      + OptTokens(ValuedArg(Output, StrValue(r.outputDir)))
      + OptTokens(ValuedArg(Device, StrValue(r.device)))
      + OptTokens(ValuedArg(Shifts, IntValue(r.shifts)))
      + OptTokens(ValuedArg(Jobs, JobsValue(r.jobs)))
      + OptTokens(ValuedArg(TwoStems, StrValue(r.twoStems)))
      + OptTokens(ValuedArg(Overlap, FloatValue(r.overlap)))
      + OptTokens(SwitchArg(NoSplit, r.noSplit))
      + OptTokens(ValuedArg(Segment, IntValue(r.segment)))
      + OptTokens(ValuedArg(ClipMode, StrValue(r.clipMode)))
      + OptTokens(ValuedArg(Mp3Bitrate, IntValue(r.mp3Bitrate)))
      + OptTokens(ValuedArg(Mp3Preset, IntValue(r.mp3Preset)))
      + OptTokens(ValuedArg(Filename, StrValue(r.filename)))
      + OptTokens(SwitchArg(Verbose, r.verbose))
      == ["demucs"] + Tokens(Args(r))
  {
    var p0 := ["demucs"];
    PrefixAppend(r, p0, BasicOrder + ProcessingOrder, OutputOrder);
    PrefixAppend(r, p0, BasicOrder, ProcessingOrder);
    BasicSteps(r, p0, BasicOrder);
    var p1 := p0
      + OptTokens(ValuedArg(Model, StrValue(r.modelName)))
      + OptTokens(ValuedArg(Output, StrValue(r.outputDir)))
      + OptTokens(ValuedArg(Device, StrValue(r.device)))
      + OptTokens(ValuedArg(Shifts, IntValue(r.shifts)))
      + OptTokens(ValuedArg(Jobs, JobsValue(r.jobs)));
    ProcessingSteps(r, p1, ProcessingOrder);
    var p2 := p1
      + OptTokens(ValuedArg(TwoStems, StrValue(r.twoStems)))
      + OptTokens(ValuedArg(Overlap, FloatValue(r.overlap)))
      + OptTokens(SwitchArg(NoSplit, r.noSplit))
      + OptTokens(ValuedArg(Segment, IntValue(r.segment)));
    OutputSteps(r, p2, OutputOrder);
  }

  // ---------------------------------------------------------------------
  // separate_audio

  /** How a `separate_audio` call ends: it returns its success flag, or it
      raises instead of returning. */
  datatype Outcome = Returned(success: bool) | Raised

  /** What `separate_audio` makes of the run of demucs. `exitStatus` is the
      child's exit status, or None when `subprocess.run` raised: the
      executable could not be started, or its captured text output could
      not be decoded. On exit status 0 the success message evaluates
      `os.path.join(output_dir, model_name)`, which raises TypeError when
      either is None, before `return True` is reached. */
  method Report(r: Request, exitStatus: Option<int>) returns (outcome: Outcome)
    ensures outcome == Returned(true) <==> exitStatus == Some(0) && r.outputDir.Some? && r.modelName.Some?
    ensures outcome == Returned(false) <==> exitStatus.Some? && exitStatus.value != 0
    ensures outcome == Raised <==>
              exitStatus.None? || (exitStatus == Some(0) && (r.outputDir.None? || r.modelName.None?))
  {
    if exitStatus.None? {
      outcome := Raised;
    } else if exitStatus.value == 0 {
      if r.outputDir.None? || r.modelName.None? {
        outcome := Raised;
      } else {
        outcome := Returned(true);
      }
    } else {
      outcome := Returned(false);
    }
  }

  /** `separate_audio`: builds the argument vector one guarded append at a
      time, in the order of the source, then reports on the run of that
      vector, whose exit status the caller supplies. */
  method SeparateAudio(r: Request, exitStatus: Option<int>) returns (cmd: seq<string>, outcome: Outcome)
    ensures cmd == Command(r)
    ensures outcome == Returned(true) <==> exitStatus == Some(0) && r.outputDir.Some? && r.modelName.Some?
    ensures outcome == Returned(false) <==> exitStatus.Some? && exitStatus.value != 0
    ensures outcome == Raised <==>
              exitStatus.None? || (exitStatus == Some(0) && (r.outputDir.None? || r.modelName.None?))
  {
    cmd := ["demucs"];

    // Basic parameters
    cmd := ExtendIfSet(cmd, Model, StrValue(r.modelName));
    cmd := ExtendIfSet(cmd, Output, StrValue(r.outputDir));
    cmd := ExtendIfSet(cmd, Device, StrValue(r.device));
    cmd := ExtendIfSet(cmd, Shifts, IntValue(r.shifts));
    cmd := ExtendIfSet(cmd, Jobs, JobsValue(r.jobs));

    // Optional parameters
    cmd := ExtendIfSet(cmd, TwoStems, StrValue(r.twoStems));
    cmd := ExtendIfSet(cmd, Overlap, FloatValue(r.overlap));
    cmd := AppendIfSet(cmd, NoSplit, r.noSplit);
    cmd := ExtendIfSet(cmd, Segment, IntValue(r.segment));
    cmd := ExtendIfSet(cmd, ClipMode, StrValue(r.clipMode));
    cmd := ExtendIfSet(cmd, Mp3Bitrate, IntValue(r.mp3Bitrate));
    cmd := ExtendIfSet(cmd, Mp3Preset, IntValue(r.mp3Preset));
    cmd := ExtendIfSet(cmd, Filename, StrValue(r.filename));
    cmd := AppendIfSet(cmd, Verbose, r.verbose);

    // The audio file path, appended whatever it is
    AppendsInOrder(r);
    cmd := cmd + [r.trackPath];

    outcome := Report(r, exitStatus);
  }
}
