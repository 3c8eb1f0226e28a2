# demucs wrapper: the command builder of `separate_audio`

`demo.py` is a thin command-line wrapper around the `demucs` music source
separation tool. Its one piece of logic is in `separate_audio`. That function
turns one separation request into the argument vector it hands to the
`demucs` executable. The request holds a track path, output directory,
model, device, shifts, jobs, two-stems, overlap, no-split, segment, clip
mode, mp3 bitrate and preset, filename template and verbose. After the
child process finishes, the function returns True when its exit status is
0 and False otherwise. The model also covers two ways a call can end in an
exception instead:

- `subprocess.run` (demo.py:88, 90) raises when the executable cannot be
  started. With captured text output (demo.py:90) it also raises when that
  output cannot be decoded.
- On exit status 0, the success message evaluates
  `os.path.join(output_dir, model_name)` (demo.py:95). This raises
  TypeError when either parameter is None.

A third way, `str()` of an int too long to render, is not modelled (see
"## Left out").

The model has five modules:

- `PyValues` (`py_values.dfy`) covers the Python values the builder tests
  and renders.
  - Truthiness of optional strings, integers and floats: `None`, `""`, `0`
    and `0.0` are false.
  - A float is kept as its value plus an opaque text rendering.
  - `str(int)` is a decimal rendering. A proved round trip through a
    decimal reader shows that the rendering loses nothing.
  - The texts `str(int)` gives are exactly the canonical ones: digits
    without a leading zero, after a minus sign for negative values. So a
    canonical text that reads back as n is `str(n)`.
- `Separate` (`separate.dfy`) holds the request as a datatype with the
  keyword defaults of `separate_audio`, and the fourteen options with their
  spellings.
  - `Command` is the reference definition of the argument vector. It is a
    table-driven recursive function: for each option in emission order it
    adds what that option contributes, via `Emit`.
  - The method `SeparateAudio` is the source's own shape. It starts from
    `["demucs"]` and runs fourteen guarded extends and appends, in the
    source's order. Then it appends the track path. It is proved equal to
    `Command`.
  - The method `Report` turns the run's exit status into the call's
    outcome. The outcome is a returned flag, or an exception for the two
    modelled cases above.
- `Properties` (`properties.dfy`) proves what the builder promises about
  the vector:
  - the fixed order of options;
  - each option appears exactly when its guard passes, at most once, and
    carries its parameter's value;
  - `-j` is passed only for a positive job count;
  - a changed parameter touches only its own option;
  - the length of the vector;
  - a value token directly follows its flag.
- `ReadBack` (`read_back.dfy`) reads an argument vector back into options
  and a track path.
  - The builder and the reader are inverses in both directions.
  - As a result, two requests give the same vector exactly when they agree
    on the track and on every option's contribution.
- `Examples` (`examples.dfy`) works out concrete vectors:
  - the call with every keyword default;
  - the call `main` makes for a command line that names only a track;
  - falsy and negative parameters.

Some consequences of `demo.py` as written:

- `separate_audio` passes any truthy mp3 preset. Only argparse's `choices`
  in `main` (demo.py:118) restricts it to 2-7.
- A negative shift count is truthy, so `separate_audio` passes it on,
  minus sign included (demo.py:55-56).
- A negative job count is not passed, because `-j` is guarded by
  `jobs > 0` rather than by truthiness (demo.py:57-58).
- The track path is appended unconditionally, even when it is empty
  (demo.py:81).

## Model

| member | source | states |
|---|---|---|
| Separate.SeparateAudio | demo.py:46-101 | the vector built by the straight-line guarded appends is exactly `Command(r)`; the call returns True iff the exit status is 0 and neither output dir nor model name is None, returns False iff the exit status is nonzero, and raises otherwise (`subprocess.run` raised, or a None join argument after success) |
| Separate.Report | demo.py:87-101 | the outcome after the run: True iff exit status 0 with output dir and model name both set, False iff a nonzero status, an exception iff `subprocess.run` raised or `os.path.join` gets a None |
| Separate.Command | demo.py:46-81 | the vector always starts with `demucs` and ends with the track path, whatever the other parameters are |
| Separate.Emit | demo.py:49-78 | what an option contributes is an argument for that same option, well formed: a flag with a value, or a bare switch |
| Separate.IntValue | demo.py:55-74 | an int parameter (shifts, segment, mp3 bitrate, mp3 preset) gives a value token iff it is truthy (not None, not 0, negatives included); the token is canonical and reads back as the integer, so it is `str(n)` |
| Separate.JobsValue | demo.py:57-58 | the job count gives a value token iff it is positive; the token is canonical and reads back as the count |
| Separate.Rank | demo.py:49-78 | every option has a place in the fixed emission order |
| Separate.AppendsInOrder | demo.py:46-78 | the fourteen contributions laid end to end after `demucs` are exactly the executable plus the tokens of `Args(r)`, the reference argument list |
| Separate.ExtendIfSet | demo.py:49-76 | `if value: cmd.extend([flag, value])` adds the flag-value pair when the value is present and nothing otherwise |
| Separate.AppendIfSet | demo.py:65-78 | `if on: cmd.append(flag)` adds the bare flag when the switch is on and nothing otherwise |
| PyValues.NatToString | demo.py:56 | the decimal rendering of a natural is a nonempty string of digits without a leading zero unless it is "0" |
| PyValues.IntToString | demo.py:56 | `str(n)` is canonical (nonempty digits without a leading zero, after a minus sign) and starts with a minus sign iff n is negative |
| PyValues.IntRoundTrip | demo.py:56 | reading `str(n)` back as a decimal gives n, for every integer n |
| PyValues.CanonicalRoundTrip | demo.py:56 | every canonical text reads back as some n whose `str(n)` is that text, so `str` maps the integers onto the canonical texts one to one |
| Properties.ArgsAreOrdered | demo.py:49-78 | the emitted options occur in the fixed relative order `-n -o -d --shifts -j --two-stems --overlap --no-split --segment --clip-mode --mp3-bitrate --mp3-preset --filename -v` |
| Properties.FindIsEmit | demo.py:49-78 | the argument found for an option in the list is exactly what that option's guarded append contributes |
| Properties.EmitFollowsGuard | demo.py:49-78 | an option contributes iff its guard passes (truthiness, or jobs > 0), and then carries its parameter's value: the string itself, the float's text, or the canonical text of the integer |
| Properties.OptionRule | demo.py:49-78 | each option appears once when its guard passes and not at all otherwise, and a present option carries its parameter |
| Properties.JobsOnlyWhenPositive | demo.py:57-58 | `-j` is passed iff jobs > 0, with `str(jobs)` as its value; 0 (auto) and negative counts pass nothing |
| Properties.OnlyOwnTokens | demo.py:49-78 | changing one parameter leaves every other argument and their order unchanged, and that option still appears at most once |
| Properties.SwitchCount | demo.py:65-78 | the only bare switches are `--no-split` (iff no_split) and `-v` (iff verbose) |
| Properties.CommandLength | demo.py:46-81 | the vector has 2 + 2 × (valued options passed) + (switches on) tokens |
| Properties.ValueFollowsFlag | demo.py:49-76 | a passed valued option's flag token is immediately followed by its value token, both before the track path |
| Properties.SwitchIsBare | demo.py:65-78 | a switch that is on is one token of the vector, before the track path |
| ReadBack.FlagOfSpelling | demo.py:49-78 | no two options share a spelling: each spelling reads back as its option |
| ReadBack.ParseTokens | demo.py:49-78 | reading the tokens of well-formed arguments gives back those arguments |
| ReadBack.TokensOfParse | demo.py:49-78 | whatever reads as a run of options is the tokens of well-formed arguments |
| ReadBack.ReadBackCommand | demo.py:46-81 | the vector of a request reads back as its argument list and its track path |
| ReadBack.CommandOfReadBack | demo.py:46-81 | any vector that reads back is the one built from what it reads as |
| ReadBack.SameCommand | demo.py:46-81 | two requests give the same vector iff they have the same track and every option contributes the same |
| Examples.KeywordDefaults | demo.py:7-22 | with every keyword default the vector is the 21 fixed tokens plus the track: no `-j` (jobs 0), no `--filename` (None), no switches |
| Examples.CommandLineDefaults | demo.py:107-140 | for a command line naming only the track, `main` passes the filename template and `-v` is always on |
| Examples.FalsyValues | demo.py:61-72 | segment 0, a None bitrate and an empty two-stems value suppress their options |
| Examples.NegativeValues | demo.py:55-58 | a negative shift count is passed as "-1", while a negative job count is not passed |

## Left out

- Running `demucs` (demo.py:87-90) with or without captured output is left out. It launches an external process whose behaviour is not part of this code. Its exit status is an input of `SeparateAudio`. None stands for any exception `subprocess.run` raises: the executable could not be started, or, with captured text output (demo.py:90), that output could not be decoded after the child exited. Which exception is raised is not modelled, only that one is.
- Separate.SeparateAudio: does not model the interpreter's limit on how many digits `str()` renders for an int (`sys.int_max_str_digits`, 4300 by default on current CPython). A direct caller passing an int parameter with more digits gets a ValueError at demo.py:56, 58, 68, 72 or 74, before any process starts. The model renders every int and raises only in the two modelled cases. `main` cannot produce such a value, because argparse's `int()` refuses the same strings.
- Console output is not modelled: the command echo, the success and failure messages, and the stderr echo (demo.py:84, 94-100). Neither is a print that fails: a string holding lone surrogates, which is how a file name that is not valid UTF-8 reaches `sys.argv`, makes the echo at demo.py:84 raise UnicodeEncodeError under a strict UTF-8 stdout. A Dafny string holds only Unicode scalar values, so such a track path cannot be expressed.
- The path `os.path.join(output_dir, model_name)` computes (demo.py:95) is not modelled, since it only feeds a message. That it raises when either argument is None is modelled, in `Report`.
- Most of `main` (demo.py:103-145) is left out. `CliDefaultRequest` records only the request that its argument defaults produce.
  - argparse parsing and its `choices` checks for device, clip mode and mp3 preset (demo.py:110, 116, 118) are library behaviour.
  - The wall-clock timing (demo.py:104, 143-145) is float arithmetic over the clock.
- The unused `from pickle import TRUE` import (demo.py:2) is left out.
- `str(float)` for the overlap (demo.py:64) is not modelled. A float carries its text as given.
- NaN (truthy in Python) is not representable, since a float's value is a real.
- Each parameter has the type its default suggests. Calls from Python passing other types, such as an int as the model name, are not modelled.
- Properties.OptionRule: "at most once" is stated over the argument list that the vector reads back as, not over raw tokens. A value token may itself spell a flag, for example a filename template `-v`.
- Properties.SwitchCount: "at most once" for `--no-split` and `-v` holds at the argument level only, for the same reason as above.
