/** Reading an argument vector of `separate_audio` back: the executable, a
    run of options (each flag followed by its value token unless it is a
    switch), and the track path last. The builder and this reader are
    inverses, so the vector loses nothing the builder put in. */
module ReadBack {
  import opened PyValues
  import opened Separate
  import Properties

  /** The option a token spells, if it spells one. */
  function FlagOf(token: string): (f: Option<Flag>)
    ensures f.Some? ==> Spelling(f.value) == token
  {
    if token == "-n" then Some(Model)
    else if token == "-o" then Some(Output)
    else if token == "-d" then Some(Device)
    else if token == "--shifts" then Some(Shifts)
    else if token == "-j" then Some(Jobs)
    else if token == "--two-stems" then Some(TwoStems)
    else if token == "--overlap" then Some(Overlap)
    else if token == "--no-split" then Some(NoSplit)
    else if token == "--segment" then Some(Segment)
    else if token == "--clip-mode" then Some(ClipMode)
    else if token == "--mp3-bitrate" then Some(Mp3Bitrate)
    else if token == "--mp3-preset" then Some(Mp3Preset)
    else if token == "--filename" then Some(Filename)
    else if token == "-v" then Some(Verbose)
    else None
  }

  /** Every option's spelling reads back as that option: no two options
      share a spelling. */
  lemma FlagOfSpelling(f: Flag)
    ensures FlagOf(Spelling(f)) == Some(f)
  {
  }

  /** Reads a run of options; None when a token is not an option or a
      valued option has no value after it. */
  function ParseArgs(tokens: seq<string>): Option<seq<Arg>>
    decreases |tokens|
  {
    if tokens == [] then Some([])
    else match FlagOf(tokens[0])
      case None => None
      case Some(f) =>
        if TakesValue(f) then
          if |tokens| < 2 then None
          else match ParseArgs(tokens[2..])
            case None => None
            case Some(rest) => Some([Valued(f, tokens[1])] + rest)
        else
          match ParseArgs(tokens[1..])
          case None => None
          case Some(rest) => Some([Switch(f)] + rest)
  }

  datatype Invocation = Invocation(args: seq<Arg>, track: string)

  /** Reads a whole argument vector. */
  function ParseCommand(cmd: seq<string>): Option<Invocation>
  {
    if |cmd| < 2 || cmd[0] != "demucs" then None
    else match ParseArgs(cmd[1..|cmd| - 1])
      case None => None
      case Some(args) => Some(Invocation(args, cmd[|cmd| - 1]))
  }

  predicate AllWellFormed(args: seq<Arg>)
  {
    forall i :: 0 <= i < |args| ==> WellFormed(args[i])
  }

  /** Reading the tokens of well-formed arguments gives those arguments. */
  lemma {:induction false} ParseTokens(args: seq<Arg>)
    requires AllWellFormed(args)
    ensures ParseArgs(Tokens(args)) == Some(args)
    decreases |args|
  {
    if args != [] {
      var a := args[0];
      var rest := args[1..];
      assert AllWellFormed(rest) by {
        forall i | 0 <= i < |rest|
          ensures WellFormed(rest[i])
        {
          assert rest[i] == args[i + 1];
        }
      }
      ParseTokens(rest);
      FlagOfSpelling(a.flag);
      var ts := Tokens(args);
      assert ts == Render(a) + Tokens(rest);
      if a.Valued? {
        assert ts[0] == Spelling(a.flag) && ts[1] == a.value;
        assert ts[2..] == Tokens(rest);
        assert [a] + rest == args;
      } else {
        assert ts[0] == Spelling(a.flag);
        assert ts[1..] == Tokens(rest);
        assert [a] + rest == args;
      }
    }
  }

  /** Whatever reads as a run of options is the tokens of well-formed
      arguments: the reader accepts nothing the builder could not write. */
  lemma {:induction false} TokensOfParse(tokens: seq<string>)
    requires ParseArgs(tokens).Some?
    ensures AllWellFormed(ParseArgs(tokens).value)
    ensures Tokens(ParseArgs(tokens).value) == tokens
    decreases |tokens|
  {
    if tokens != [] {
      var f := FlagOf(tokens[0]).value;
      var args := ParseArgs(tokens).value;
      if TakesValue(f) {
        TokensOfParse(tokens[2..]);
        var rest := ParseArgs(tokens[2..]).value;
        assert args == [Valued(f, tokens[1])] + rest;
        assert args[0] == Valued(f, tokens[1]) && args[1..] == rest;
        assert tokens == [tokens[0], tokens[1]] + tokens[2..];
      } else {
        TokensOfParse(tokens[1..]);
        var rest := ParseArgs(tokens[1..]).value;
        assert args == [Switch(f)] + rest;
        assert args[0] == Switch(f) && args[1..] == rest;
        assert tokens == [tokens[0]] + tokens[1..];
      }
      forall i | 0 <= i < |args|
        ensures WellFormed(args[i])
      {
        if i > 0 {
          assert args[i] == args[1..][i - 1];
        }
      }
    }
  }

  lemma {:induction false} ArgsOfWellFormed(r: Request, flags: seq<Flag>)
    ensures AllWellFormed(ArgsOf(r, flags))
    decreases |flags|
  {
    if flags != [] {
      ArgsOfWellFormed(r, flags[1..]);
      var head := Opt(Emit(r, flags[0]));
      var rest := ArgsOf(r, flags[1..]);
      forall i | 0 <= i < |head + rest|
        ensures WellFormed((head + rest)[i])
      {
        if i >= |head| {
          assert (head + rest)[i] == rest[i - |head|];
        }
      }
    }
  }

  /** The command of a request reads back as its arguments and its track. */
  lemma ReadBackCommand(r: Request)
    ensures ParseCommand(Command(r)) == Some(Invocation(Args(r), r.trackPath))
  {
    var cmd := Command(r);
    ArgsOfWellFormed(r, Order);
    ParseTokens(Args(r));
    assert cmd[1..|cmd| - 1] == Tokens(Args(r));
  }

  /** Whatever reads back as an invocation is the vector built from it. */
  lemma CommandOfReadBack(cmd: seq<string>)
    requires ParseCommand(cmd).Some?
    ensures cmd == ["demucs"] + Tokens(ParseCommand(cmd).value.args) + [ParseCommand(cmd).value.track]
  {
    var inv := ParseCommand(cmd).value;
    var middle := cmd[1..|cmd| - 1];
    assert ParseArgs(middle) == Some(inv.args) && inv.track == cmd[|cmd| - 1];
    TokensOfParse(middle);
    Reassemble(cmd);
  }

  lemma Reassemble(cmd: seq<string>)
    requires |cmd| >= 2
    ensures cmd == [cmd[0]] + cmd[1..|cmd| - 1] + [cmd[|cmd| - 1]]
  {
    assert cmd == [cmd[0]] + cmd[1..];
    assert cmd[1..] == cmd[1..|cmd| - 1] + [cmd[|cmd| - 1]];
  }

  /** Two requests build the same command exactly when they agree on the
      track and on what each option contributes: the vector records which
      guards passed and the value of each, and nothing else. */
  lemma SameCommand(r: Request, r2: Request)
    ensures Command(r) == Command(r2) <==>
              r.trackPath == r2.trackPath && forall f :: Emit(r, f) == Emit(r2, f)
  {
    if Command(r) == Command(r2) {
      ReadBackCommand(r);
      ReadBackCommand(r2);
      assert Args(r) == Args(r2);
      forall f
        ensures Emit(r, f) == Emit(r2, f)
      {
        Properties.FindIsEmit(r, f);
        Properties.FindIsEmit(r2, f);
      }
    }
    if r.trackPath == r2.trackPath && forall f :: Emit(r, f) == Emit(r2, f) {
      ArgsOfSameEmit(r, r2, Order);
    }
  }

  lemma {:induction false} ArgsOfSameEmit(r: Request, r2: Request, flags: seq<Flag>)
    requires forall f :: Emit(r, f) == Emit(r2, f)
    ensures ArgsOf(r, flags) == ArgsOf(r2, flags)
    decreases |flags|
  {
    if flags != [] {
      ArgsOfSameEmit(r, r2, flags[1..]);
    }
  }
}
