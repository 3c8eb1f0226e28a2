/** What the argument vector of `separate_audio` promises: which options it
    carries and when, with which value, in which order, how long it is, and
    that each parameter owns its own tokens and no one else's. */
module Properties {
  import opened PyValues
  import opened Separate

  // ---------------------------------------------------------------------
  // Looking options up in an argument list

  /** The first argument for option `f`, if any. */
  function Find(args: seq<Arg>, f: Flag): Option<Arg>
  {
    if args == [] then None
    else if args[0].flag == f then Some(args[0])
    else Find(args[1..], f)
  }

  /** How many arguments are for option `f`. */
  function Count(args: seq<Arg>, f: Flag): nat
  {
    if args == [] then 0
    else (if args[0].flag == f then 1 else 0) + Count(args[1..], f)
  }

  /** The arguments that are not for option `f`, in their order. */
  function Without(args: seq<Arg>, f: Flag): seq<Arg>
  {
    if args == [] then []
    else (if args[0].flag == f then [] else [args[0]]) + Without(args[1..], f)
  }

  /** Options occur in strictly increasing rank: each at most once, and in
      the fixed emission order. */
  predicate Ordered(args: seq<Arg>)
  {
    forall i, j :: 0 <= i < j < |args| ==> Rank(args[i].flag) < Rank(args[j].flag)
  }

  /** Ordered, for a list of options rather than of emitted arguments: it
      holds of the emission order itself, and ArgsOfOrdered carries it over
      to the arguments drawn from such a list. */
  predicate Ascending(flags: seq<Flag>)
  {
    forall i, j :: 0 <= i < j < |flags| ==> Rank(flags[i]) < Rank(flags[j])
  }

  lemma {:induction false} FindAppend(xs: seq<Arg>, ys: seq<Arg>, f: Flag)
    ensures Find(xs + ys, f) == if Find(xs, f).Some? then Find(xs, f) else Find(ys, f)
    decreases |xs|
  {
    if xs == [] {
      assert xs + ys == ys;
    } else {
      assert (xs + ys)[0] == xs[0];
      assert (xs + ys)[1..] == xs[1..] + ys;
      FindAppend(xs[1..], ys, f);
    }
  }

  lemma {:induction false} CountAppend(xs: seq<Arg>, ys: seq<Arg>, f: Flag)
    ensures Count(xs + ys, f) == Count(xs, f) + Count(ys, f)
    decreases |xs|
  {
    if xs == [] {
      assert xs + ys == ys;
    } else {
      assert (xs + ys)[0] == xs[0];
      assert (xs + ys)[1..] == xs[1..] + ys;
      CountAppend(xs[1..], ys, f);
    }
  }

  lemma {:induction false} WithoutAppend(xs: seq<Arg>, ys: seq<Arg>, f: Flag)
    ensures Without(xs + ys, f) == Without(xs, f) + Without(ys, f)
    decreases |xs|
  {
    if xs == [] {
      assert xs + ys == ys;
    } else {
      assert (xs + ys)[0] == xs[0];
      assert (xs + ys)[1..] == xs[1..] + ys;
      WithoutAppend(xs[1..], ys, f);
    }
  }

  // ---------------------------------------------------------------------
  // The emission order

  /** Position `k` of the emission order holds the option of rank `k`. */
  lemma RankOfOrder(k: nat)
    requires k < |Order|
    ensures Rank(Order[k]) == k
  {
    var f := Order[k];
    if k < 5 {
      assert Order[k] == BasicOrder[k];
    } else if k < 9 {
      assert Order[k] == ProcessingOrder[k - 5];
    } else {
      assert Order[k] == OutputOrder[k - 9];
    }
  }

  lemma OrderAscending()
    ensures Ascending(Order)
  {
    forall i, j | 0 <= i < j < |Order|
      ensures Rank(Order[i]) < Rank(Order[j])
    {
      RankOfOrder(i);
      RankOfOrder(j);
    }
  }

  lemma AscendingTail(flags: seq<Flag>)
    requires flags != [] && Ascending(flags)
    ensures Ascending(flags[1..])
    ensures flags[0] !in flags[1..]
  {
    forall i, j | 0 <= i < j < |flags[1..]|
      ensures Rank(flags[1..][i]) < Rank(flags[1..][j])
    {
      assert flags[1..][i] == flags[i + 1] && flags[1..][j] == flags[j + 1];
    }
    forall m | 0 <= m < |flags[1..]|
      ensures flags[1..][m] != flags[0]
    {
      assert Rank(flags[0]) < Rank(flags[m + 1]);
    }
  }

  /** Every argument contributed for `flags` is for one of `flags`. */
  lemma {:induction false} ArgsOfFlags(r: Request, flags: seq<Flag>)
    ensures forall i :: 0 <= i < |ArgsOf(r, flags)| ==> ArgsOf(r, flags)[i].flag in flags
    decreases |flags|
  {
    if flags != [] {
      var head := Opt(Emit(r, flags[0]));
      var rest := ArgsOf(r, flags[1..]);
      ArgsOfFlags(r, flags[1..]);
      var args: seq<Arg> := head + rest;
      forall i: int | 0 <= i < |args|
        ensures args[i].flag in flags
      {
        if i >= |head| {
          assert args[i] == rest[i - |head|];
          var m :| 0 <= m < |flags[1..]| && flags[1..][m] == rest[i - |head|].flag;
          assert flags[m + 1] == flags[1..][m];
        }
      }
    }
  }

  /** When the options are considered in ascending rank, the arguments
      come out in ascending rank too. */
  lemma {:induction false} ArgsOfOrdered(r: Request, flags: seq<Flag>)
    requires Ascending(flags)
    ensures Ordered(ArgsOf(r, flags))
    decreases |flags|
  {
    if flags != [] {
      var head := Opt(Emit(r, flags[0]));
      var rest := ArgsOf(r, flags[1..]);
      AscendingTail(flags);
      ArgsOfOrdered(r, flags[1..]);
      ArgsOfFlags(r, flags[1..]);
      var args: seq<Arg> := head + rest;
      forall i: int, j: int | 0 <= i < j < |args|
        ensures Rank(args[i].flag) < Rank(args[j].flag)
      {
        var b := args[j];
        assert b == rest[j - |head|];
        if i < |head| {
          var m :| 0 <= m < |flags[1..]| && flags[1..][m] == b.flag;
          assert Rank(flags[0]) < Rank(flags[m + 1]);
        } else {
          assert args[i] == rest[i - |head|];
        }
      }
    }
  }

  /** The arguments of a request are ordered: no option occurs twice, and
      the options that occur do so in the fixed emission order. */
  lemma ArgsAreOrdered(r: Request)
    ensures Ordered(Args(r))
  {
    OrderAscending();
    ArgsOfOrdered(r, Order);
  }

  /** For options considered in ascending rank, looking `f` up finds
      exactly what the request contributes for it. */
  lemma {:induction false} FindArgsOf(r: Request, flags: seq<Flag>, f: Flag)
    requires Ascending(flags)
    ensures Find(ArgsOf(r, flags), f) == if f in flags then Emit(r, f) else None
    decreases |flags|
  {
    if flags != [] {
      AscendingTail(flags);
      FindArgsOf(r, flags[1..], f);
      FindAppend(Opt(Emit(r, flags[0])), ArgsOf(r, flags[1..]), f);
      assert f in flags <==> f == flags[0] || f in flags[1..];
    }
  }

  /** For options considered in ascending rank, option `f` occurs at most
      once, and exactly when the request contributes it. */
  lemma {:induction false} CountArgsOf(r: Request, flags: seq<Flag>, f: Flag)
    requires Ascending(flags)
    ensures Count(ArgsOf(r, flags), f) == if f in flags then |Opt(Emit(r, f))| else 0
    decreases |flags|
  {
    if flags != [] {
      AscendingTail(flags);
      CountArgsOf(r, flags[1..], f);
      var head := Opt(Emit(r, flags[0]));
      CountAppend(head, ArgsOf(r, flags[1..]), f);
      assert Count(head, f) == if flags[0] == f then |head| else 0;
      assert f in flags <==> f == flags[0] || f in flags[1..];
    }
  }

  /** Looking an option up in the arguments of a request finds exactly its
      contribution. */
  lemma FindIsEmit(r: Request, f: Flag)
    ensures Find(Args(r), f) == Emit(r, f)
  {
    OrderAscending();
    FindArgsOf(r, Order, f);
    assert Order[Rank(f)] == f;
  }

  // ---------------------------------------------------------------------
  // Each option and the parameter it comes from

  /** A parameter of `separate_audio` as the builder's guard sees it. */
  datatype Param =
    | Text(s: Option<string>)
    | Number(n: Option<int>)
    | Decimal(x: Option<PyFloat>)
    | Workers(jobs: int)
    | Toggle(on: bool)

  /** The parameter behind each option. */
  function ParamOf(r: Request, f: Flag): Param
  {
    match f
    case Model => Text(r.modelName)
    case Output => Text(r.outputDir)
    case Device => Text(r.device)
    case Shifts => Number(r.shifts)
    case Jobs => Workers(r.jobs)
    case TwoStems => Text(r.twoStems)
    case Overlap => Decimal(r.overlap)
    case NoSplit => Toggle(r.noSplit)
    case Segment => Number(r.segment)
    case ClipMode => Text(r.clipMode)
    case Mp3Bitrate => Number(r.mp3Bitrate)
    case Mp3Preset => Number(r.mp3Preset)
    case Filename => Text(r.filename)
    case Verbose => Toggle(r.verbose)
  }

  /** The guard in front of each append: Python truthiness, except that the
      job count must be positive. */
  predicate Passes(p: Param)
  {
    match p
    case Text(s) => StrTruthy(s)
    case Number(n) => IntTruthy(n)
    case Decimal(x) => FloatTruthy(x)
    case Workers(jobs) => jobs > 0
    case Toggle(on) => on
  }

  /** What the argument for a parameter that passed its guard carries: the
      string itself, a canonical decimal text that reads back as the integer
      (and so is its `str`, by CanonicalRoundTrip), the float's text, or
      nothing at all for a switch. */
  predicate Carries(a: Arg, p: Param)
  {
    match p
    case Text(s) => s.Some? && a.Valued? && a.value == s.value
    case Number(n) => n.Some? && a.Valued? && Canonical(a.value) && ParseInt(a.value) == n
    case Decimal(x) => x.Some? && a.Valued? && a.value == x.value.text
    case Workers(jobs) => a.Valued? && Canonical(a.value) && ParseInt(a.value) == Some(jobs)
    case Toggle(_) => a.Switch?
  }

  /** The contribution for an option is present exactly when its guard
      passes, and then carries the parameter. */
  lemma EmitFollowsGuard(r: Request, f: Flag)
    ensures Emit(r, f).Some? <==> Passes(ParamOf(r, f))
    ensures Emit(r, f).Some? ==> Carries(Emit(r, f).value, ParamOf(r, f))
  {
  }

  /** Each parameter of the request turns up in the command exactly when
      its guard passes, at most once, and carries the parameter's value. */
  lemma OptionRule(r: Request, f: Flag)
    ensures Count(Args(r), f) == if Passes(ParamOf(r, f)) then 1 else 0
    ensures Find(Args(r), f).Some? <==> Passes(ParamOf(r, f))
    ensures Find(Args(r), f).Some? ==>
              Find(Args(r), f).value.flag == f && Carries(Find(Args(r), f).value, ParamOf(r, f))
  {
    FindIsEmit(r, f);
    OrderAscending();
    CountArgsOf(r, Order, f);
    assert Order[Rank(f)] == f;
    EmitFollowsGuard(r, f);
  }

  /** `-j` is passed if and only if the job count is positive: zero (let
      demucs choose) and negative counts pass nothing. */
  lemma JobsOnlyWhenPositive(r: Request)
    ensures Find(Args(r), Jobs).Some? <==> r.jobs > 0
    ensures r.jobs > 0 ==> Find(Args(r), Jobs) == Some(Valued(Jobs, IntToString(r.jobs)))
  {
    FindIsEmit(r, Jobs);
  }

  // ---------------------------------------------------------------------
  // Changing one parameter

  /** What a request contributes for an option depends on that option's
      parameter alone. */
  lemma EmitFollowsParam(r: Request, r2: Request, f: Flag)
    requires ParamOf(r, f) == ParamOf(r2, f)
    ensures Emit(r, f) == Emit(r2, f)
  {
  }

  lemma {:induction false} WithoutArgsOf(r: Request, r2: Request, flags: seq<Flag>, f: Flag)
    requires forall g :: g != f ==> ParamOf(r, g) == ParamOf(r2, g)
    ensures Without(ArgsOf(r, flags), f) == Without(ArgsOf(r2, flags), f)
    decreases |flags|
  {
    if flags != [] {
      var g := flags[0];
      WithoutArgsOf(r, r2, flags[1..], f);
      WithoutAppend(Opt(Emit(r, g)), ArgsOf(r, flags[1..]), f);
      WithoutAppend(Opt(Emit(r2, g)), ArgsOf(r2, flags[1..]), f);
      if g != f {
        EmitFollowsParam(r, r2, g);
      } else {
        assert Without(Opt(Emit(r, g)), f) == [] == Without(Opt(Emit(r2, g)), f);
      }
    }
  }

  /** Changing one parameter only adds, removes or changes that option's
      own argument: every other argument, and their order, stay as they
      were. */
  lemma OnlyOwnTokens(r: Request, r2: Request, f: Flag)
    requires forall g :: g != f ==> ParamOf(r, g) == ParamOf(r2, g)
    ensures Without(Args(r), f) == Without(Args(r2), f)
    ensures Count(Args(r2), f) <= 1
  {
    WithoutArgsOf(r, r2, Order, f);
    OptionRule(r2, f);
  }

  // ---------------------------------------------------------------------
  // The length of the command

  /** How many of `flags` are valued options whose guard passes. */
  function ValuedOn(r: Request, flags: seq<Flag>): nat
  {
    if flags == [] then 0
    else (if TakesValue(flags[0]) && Passes(ParamOf(r, flags[0])) then 1 else 0) + ValuedOn(r, flags[1..])
  }

  /** How many of `flags` are switches that are on. */
  function SwitchesOn(r: Request, flags: seq<Flag>): nat
  {
    if flags == [] then 0
    else (if !TakesValue(flags[0]) && Passes(ParamOf(r, flags[0])) then 1 else 0) + SwitchesOn(r, flags[1..])
  }

  lemma {:induction false} TokensLength(r: Request, flags: seq<Flag>)
    ensures |Tokens(ArgsOf(r, flags))| == 2 * ValuedOn(r, flags) + SwitchesOn(r, flags)
    decreases |flags|
  {
    if flags != [] {
      TokensStep(r, flags);
      TokensLength(r, flags[1..]);
      EmitFollowsGuard(r, flags[0]);
    }
  }

  lemma {:induction false} SwitchesOnDistinct(r: Request, flags: seq<Flag>)
    requires Ascending(flags)
    ensures SwitchesOn(r, flags) ==
              (if NoSplit in flags && r.noSplit then 1 else 0) + (if Verbose in flags && r.verbose then 1 else 0)
    decreases |flags|
  {
    if flags != [] {
      AscendingTail(flags);
      SwitchesOnDistinct(r, flags[1..]);
      assert NoSplit in flags <==> NoSplit == flags[0] || NoSplit in flags[1..];
      assert Verbose in flags <==> Verbose == flags[0] || Verbose in flags[1..];
    }
  }

  /** The only switches are `--no-split` and `-v`. */
  lemma SwitchCount(r: Request)
    ensures SwitchesOn(r, Order) == (if r.noSplit then 1 else 0) + (if r.verbose then 1 else 0)
  {
    OrderAscending();
    SwitchesOnDistinct(r, Order);
    assert Order[Rank(NoSplit)] == NoSplit && Order[Rank(Verbose)] == Verbose;
  }

  /** The command is two tokens (the executable and the track path), plus
      two for each valued option that is passed, plus one for each switch
      that is on. */
  lemma CommandLength(r: Request)
    ensures |Command(r)| ==
              2 + 2 * ValuedOn(r, Order) + (if r.noSplit then 1 else 0) + (if r.verbose then 1 else 0)
  {
    TokensLength(r, Order);
    SwitchCount(r);
  }

  // ---------------------------------------------------------------------
  // Where an option's tokens sit in the command

  lemma {:induction false} FindIsMember(args: seq<Arg>, f: Flag)
    requires Find(args, f).Some?
    ensures exists k :: 0 <= k < |args| && args[k] == Find(args, f).value
    decreases |args|
  {
    if args[0].flag != f {
      FindIsMember(args[1..], f);
      var k :| 0 <= k < |args[1..]| && args[1..][k] == Find(args[1..], f).value;
      assert args[k + 1] == Find(args, f).value;
    }
  }

  /** The tokens of the `k`-th argument sit, together, right after the
      tokens of the arguments before it. */
  lemma TokensAt(args: seq<Arg>, k: nat)
    requires k < |args|
    ensures |Tokens(args[..k])| + |Render(args[k])| <= |Tokens(args)|
    ensures forall j :: 0 <= j < |Render(args[k])| ==> Tokens(args)[|Tokens(args[..k])| + j] == Render(args[k])[j]
  {
    assert args == args[..k] + args[k..];
    TokensAppend(args[..k], args[k..]);
    assert args[k..][0] == args[k];
  }

  lemma CommandIndex(r: Request, j: nat)
    requires j < |Tokens(Args(r))|
    ensures |Command(r)| == |Tokens(Args(r))| + 2
    ensures Command(r)[j + 1] == Tokens(Args(r))[j]
  {
  }

  /** A valued option that is passed is followed, in the command, by its
      value: the flag and the value are adjacent tokens, and both come
      before the track path. */
  lemma ValueFollowsFlag(r: Request, f: Flag, v: string)
    requires Find(Args(r), f) == Some(Valued(f, v))
    ensures exists i :: 1 <= i && i + 2 < |Command(r)| && Command(r)[i] == Spelling(f) && Command(r)[i + 1] == v
  {
    var args := Args(r);
    FindIsMember(args, f);
    var k :| 0 <= k < |args| && args[k] == Valued(f, v);
    TokensAt(args, k);
    var o := |Tokens(args[..k])|;
    assert Render(args[k])[0] == Spelling(f) && Render(args[k])[1] == v;
    CommandIndex(r, o);
    CommandIndex(r, o + 1);
  }

  /** A switch that is on is a single token of the command, before the
      track path. */
  lemma SwitchIsBare(r: Request, f: Flag)
    requires Find(Args(r), f) == Some(Switch(f))
    ensures exists i :: 1 <= i && i + 1 < |Command(r)| && Command(r)[i] == Spelling(f)
  {
    var args := Args(r);
    FindIsMember(args, f);
    var k :| 0 <= k < |args| && args[k] == Switch(f);
    TokensAt(args, k);
    var o := |Tokens(args[..k])|;
    assert Render(args[k])[0] == Spelling(f);
    CommandIndex(r, o);
  }
}
