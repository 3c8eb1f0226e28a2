/** Concrete calls of `separate_audio` and the argument vectors they build. */
module Examples {
  import opened PyValues
  import opened Separate
  import opened Properties

  lemma SmallNumbers()
    ensures IntToString(-1) == "-1"
    ensures IntToString(2) == "2" && IntToString(7) == "7" && IntToString(8) == "8"
    ensures IntToString(256) == "256"
  {
    assert NatToString(25) == NatToString(2) + [Digit(5)];
    assert NatToString(256) == NatToString(25) + [Digit(6)];
  }

  /** The basic parameters at their defaults contribute the model, the
      output directory, the device and the shifts, and no job count. */
  lemma BasicDefaults(r: Request)
    requires r.modelName == Some("htdemucs") && r.outputDir == Some("separated")
    requires r.device == Some("cuda") && r.shifts == Some(8) && r.jobs == 0
    ensures OptTokens(ValuedArg(Model, StrValue(r.modelName))) == ["-n", "htdemucs"]
    ensures OptTokens(ValuedArg(Output, StrValue(r.outputDir))) == ["-o", "separated"]
    ensures OptTokens(ValuedArg(Device, StrValue(r.device))) == ["-d", "cuda"]
    ensures OptTokens(ValuedArg(Shifts, IntValue(r.shifts))) == ["--shifts", "8"]
    ensures OptTokens(ValuedArg(Jobs, JobsValue(r.jobs))) == []
  {
    SmallNumbers();
  }

  lemma ProcessingDefaults(r: Request)
    requires r.twoStems == Some("vocals") && r.overlap == Some(PyFloat(0.5, "0.5"))
    requires !r.noSplit && r.segment == Some(7)
    ensures OptTokens(ValuedArg(TwoStems, StrValue(r.twoStems))) == ["--two-stems", "vocals"]
    ensures OptTokens(ValuedArg(Overlap, FloatValue(r.overlap))) == ["--overlap", "0.5"]
    ensures OptTokens(SwitchArg(NoSplit, r.noSplit)) == []
    ensures OptTokens(ValuedArg(Segment, IntValue(r.segment))) == ["--segment", "7"]
  {
    SmallNumbers();
  }

  lemma EncodingDefaults(r: Request)
    requires r.clipMode == Some("rescale") && r.mp3Bitrate == Some(256) && r.mp3Preset == Some(2)
    ensures OptTokens(ValuedArg(ClipMode, StrValue(r.clipMode))) == ["--clip-mode", "rescale"]
    ensures OptTokens(ValuedArg(Mp3Bitrate, IntValue(r.mp3Bitrate))) == ["--mp3-bitrate", "256"]
    ensures OptTokens(ValuedArg(Mp3Preset, IntValue(r.mp3Preset))) == ["--mp3-preset", "2"]
  {
    SmallNumbers();
  }

  /** The contributions of the shared defaults, laid end to end. */
  lemma DefaultsJoined(m: seq<string>, o: seq<string>, d: seq<string>, s: seq<string>,
                       j: seq<string>, t: seq<string>, ov: seq<string>, ns: seq<string>, seg: seq<string>,
                       c: seq<string>, b: seq<string>, p: seq<string>)
    requires m == ["-n", "htdemucs"] && o == ["-o", "separated"] && d == ["-d", "cuda"]
    requires s == ["--shifts", "8"] && j == [] && t == ["--two-stems", "vocals"]
    requires ov == ["--overlap", "0.5"] && ns == [] && seg == ["--segment", "7"]
    requires c == ["--clip-mode", "rescale"] && b == ["--mp3-bitrate", "256"]
    requires p == ["--mp3-preset", "2"]
    ensures ["demucs"] + m + o + d + s + j + t + ov + ns + seg + c + b + p ==
              ["demucs", "-n", "htdemucs", "-o", "separated", "-d", "cuda", "--shifts", "8",
               "--two-stems", "vocals", "--overlap", "0.5", "--segment", "7",
               "--clip-mode", "rescale", "--mp3-bitrate", "256", "--mp3-preset", "2"]
  {
  }

  /** The command of any request that keeps the defaults shared by the
      keyword arguments and the command line: the shared part, then the
      filename and verbose contributions, then the track. */
  lemma SharedDefaults(r: Request)
    requires r.modelName == Some("htdemucs") && r.outputDir == Some("separated")
    requires r.device == Some("cuda") && r.shifts == Some(8) && r.jobs == 0
    requires r.twoStems == Some("vocals") && r.overlap == Some(PyFloat(0.5, "0.5"))
    requires !r.noSplit && r.segment == Some(7)
    requires r.clipMode == Some("rescale") && r.mp3Bitrate == Some(256) && r.mp3Preset == Some(2)
    ensures Command(r) ==
              ["demucs", "-n", "htdemucs", "-o", "separated", "-d", "cuda", "--shifts", "8",
               "--two-stems", "vocals", "--overlap", "0.5", "--segment", "7",
               "--clip-mode", "rescale", "--mp3-bitrate", "256", "--mp3-preset", "2"]
              + OptTokens(ValuedArg(Filename, StrValue(r.filename)))
              + OptTokens(SwitchArg(Verbose, r.verbose))
              + [r.trackPath]
  {
    AppendsInOrder(r);
    BasicDefaults(r);
    ProcessingDefaults(r);
    EncodingDefaults(r);
    DefaultsJoined(
      OptTokens(ValuedArg(Model, StrValue(r.modelName))),
      OptTokens(ValuedArg(Output, StrValue(r.outputDir))),
      OptTokens(ValuedArg(Device, StrValue(r.device))),
      OptTokens(ValuedArg(Shifts, IntValue(r.shifts))),
      OptTokens(ValuedArg(Jobs, JobsValue(r.jobs))),
      OptTokens(ValuedArg(TwoStems, StrValue(r.twoStems))),
      OptTokens(ValuedArg(Overlap, FloatValue(r.overlap))),
      OptTokens(SwitchArg(NoSplit, r.noSplit)),
      OptTokens(ValuedArg(Segment, IntValue(r.segment))),
      OptTokens(ValuedArg(ClipMode, StrValue(r.clipMode))),
      OptTokens(ValuedArg(Mp3Bitrate, IntValue(r.mp3Bitrate))),
      OptTokens(ValuedArg(Mp3Preset, IntValue(r.mp3Preset))));
  }

  /** A call with every keyword default: `-j` is left out because the job
      count defaults to 0, `--filename` because it defaults to None, and
      neither switch is on. */
  lemma KeywordDefaults(track: string)
    ensures Command(DefaultRequest(track)) ==
              ["demucs", "-n", "htdemucs", "-o", "separated", "-d", "cuda", "--shifts", "8",
               "--two-stems", "vocals", "--overlap", "0.5", "--segment", "7",
               "--clip-mode", "rescale", "--mp3-bitrate", "256", "--mp3-preset", "2",
               track]
  {
    SharedDefaults(DefaultRequest(track));
  }

  /** The call `main` makes for a command line that names only the track:
      the filename template is passed, and `-v` is always on because the
      option is store_true with a default of True. */
  lemma CommandLineDefaults(track: string)
    ensures Command(CliDefaultRequest(track)) ==
              ["demucs", "-n", "htdemucs", "-o", "separated", "-d", "cuda", "--shifts", "8",
               "--two-stems", "vocals", "--overlap", "0.5", "--segment", "7",
               "--clip-mode", "rescale", "--mp3-bitrate", "256", "--mp3-preset", "2",
               "--filename", "{track}_{stem}.{ext}", "-v", track]
  {
    SharedDefaults(CliDefaultRequest(track));
  }

  /** Zero, None and the empty string all switch an option off. */
  lemma FalsyValues(r: Request)
    requires r.segment == Some(0) && r.mp3Bitrate == None && r.twoStems == Some("")
    ensures Find(Args(r), Segment) == None
    ensures Find(Args(r), Mp3Bitrate) == None
    ensures Find(Args(r), TwoStems) == None
  {
    FindIsEmit(r, Segment);
    FindIsEmit(r, Mp3Bitrate);
    FindIsEmit(r, TwoStems);
  }

  /** A negative shift count is still passed, with its minus sign; a
      negative job count is not passed at all. */
  lemma NegativeValues(r: Request)
    requires r.shifts == Some(-1) && r.jobs == -4
    ensures Find(Args(r), Shifts) == Some(Valued(Shifts, "-1"))
    ensures Find(Args(r), Jobs) == None
  {
    SmallNumbers();
    FindIsEmit(r, Shifts);
    FindIsEmit(r, Jobs);
  }
}
