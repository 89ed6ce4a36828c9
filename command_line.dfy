/**
 * The argument loop of the program's entry point (OptiX/SDK/CSC494/CSC494.cpp):
 * `argv` becomes the output file and the pixel-buffer flag, or the program
 * prints its usage and exits.  The usage exit is a result here.
 */
module CommandLine {

  /** What the scene is set up with. */
  datatype Options = Options(outFile: string, usePbo: bool)

  /** No output file, pixel-buffer interop on. */
  const Defaults: Options := Options("", true)

  /** Why the usage message is printed. */
  datatype Stop = Help | MissingArgument(option: string) | UnknownOption(option: string)

  /** Either the options to run with, or a usage exit naming the program. */
  datatype Parsed = Run(options: Options) | UsageExit(program: string, reason: Stop)

  predicate IsHelp(arg: string) { arg == "-h" || arg == "--help" }
  predicate IsFile(arg: string) { arg == "-f" || arg == "--file" }
  predicate IsNoPbo(arg: string) { arg == "-n" || arg == "--nopbo" }

  /** The outcome of the loop from index `i` on, with the options read so far. */
  function ParseFrom(argv: seq<string>, i: nat, opts: Options): Parsed
    requires 1 <= i
    decreases |argv| - i
  {
    if |argv| <= i then Run(opts)
    else if IsHelp(argv[i]) then UsageExit(argv[0], Help)
    else if IsFile(argv[i]) then
      if i == |argv| - 1 then UsageExit(argv[0], MissingArgument(argv[i]))
      else ParseFrom(argv, i + 2, opts.(outFile := argv[i + 1]))
    else if IsNoPbo(argv[i]) then ParseFrom(argv, i + 1, opts.(usePbo := false))
    else UsageExit(argv[0], UnknownOption(argv[i]))
  }

  /** The outcome for the whole command line; `argv[0]`, the program, is skipped. */
  function Parse(argv: seq<string>): Parsed
  {
    ParseFrom(argv, 1, Defaults)
  }

  /** The loop of `main`, with `printUsageAndExit` as a returned usage exit. */
  method ParseArguments(argv: seq<string>) returns (r: Parsed)
    ensures r == Parse(argv)
  {
    var outFile := "";
    var usePbo := true;
    var i := 1;
    while i < |argv|
      invariant 1 <= i && (i <= |argv| || i == 1)
      invariant ParseFrom(argv, i, Options(outFile, usePbo)) == Parse(argv)
      decreases |argv| - i
    {
      var arg := argv[i];
      if arg == "-h" || arg == "--help" {
        return UsageExit(argv[0], Help);
      } else if arg == "-f" || arg == "--file" {
        if i == |argv| - 1 {
          return UsageExit(argv[0], MissingArgument(arg));
        }
        i := i + 1;
        outFile := argv[i];
      } else if arg == "-n" || arg == "--nopbo" {
        usePbo := false;
      } else {
        return UsageExit(argv[0], UnknownOption(arg));
      }
      i := i + 1;
    }
    r := Run(Options(outFile, usePbo));
  }

  /** With no options the defaults are used. */
  lemma NoOptionsGiveDefaults(argv: seq<string>)
    requires |argv| <= 1
    ensures Parse(argv) == Run(Defaults)
  {
  }

  /**
   * A command line that parses to options ends at an argument boundary, so
   * what follows it is parsed on its own, from those options.
   */
  lemma {:induction false} ParseAppend(argv: seq<string>, i: nat, opts: Options, result: Options, more: seq<string>)
    requires 1 <= i <= |argv|
    requires ParseFrom(argv, i, opts) == Run(result)
    ensures ParseFrom(argv + more, i, opts) == ParseFrom(argv + more, |argv|, result)
    decreases |argv| - i
  {
    var whole := argv + more;
    if i < |argv| {
      assert whole[i] == argv[i] && whole[0] == argv[0];
      if IsFile(argv[i]) {
        assert whole[i + 1] == argv[i + 1];
        ParseAppend(argv, i + 2, opts.(outFile := argv[i + 1]), result, more);
      } else if IsNoPbo(argv[i]) {
        ParseAppend(argv, i + 1, opts.(usePbo := false), result, more);
      }
    }
  }

  /** `-n` or `--nopbo` turns the pixel buffer off and leaves the output file. */
  lemma NoPboClearsFlag(argv: seq<string>, opts: Options, flag: string)
    requires 1 <= |argv| && Parse(argv) == Run(opts) && IsNoPbo(flag)
    ensures Parse(argv + [flag]) == Run(opts.(usePbo := false))
  {
    ParseAppend(argv, 1, Defaults, opts, [flag]);
  }

  /** `-f name` sets the output file, overriding any earlier `-f`. */
  lemma FileSetsOutput(argv: seq<string>, opts: Options, flag: string, name: string)
    requires 1 <= |argv| && Parse(argv) == Run(opts) && IsFile(flag)
    ensures Parse(argv + [flag, name]) == Run(opts.(outFile := name))
  {
    ParseAppend(argv, 1, Defaults, opts, [flag, name]);
  }

  /** `-f` as the last argument is a usage exit. */
  lemma FileWithoutNameFails(argv: seq<string>, opts: Options, flag: string)
    requires 1 <= |argv| && Parse(argv) == Run(opts) && IsFile(flag)
    ensures Parse(argv + [flag]) == UsageExit(argv[0], MissingArgument(flag))
  {
    ParseAppend(argv, 1, Defaults, opts, [flag]);
  }

  /** `-h` or `--help` stops with a usage exit, whatever follows it. */
  lemma HelpStops(argv: seq<string>, opts: Options, flag: string, rest: seq<string>)
    requires 1 <= |argv| && Parse(argv) == Run(opts) && IsHelp(flag)
    ensures Parse(argv + [flag] + rest) == UsageExit(argv[0], Help)
  {
    assert argv + [flag] + rest == argv + ([flag] + rest);
    ParseAppend(argv, 1, Defaults, opts, [flag] + rest);
  }

  /** Any other argument is an unknown option, whatever follows it. */
  lemma UnknownOptionStops(argv: seq<string>, opts: Options, arg: string, rest: seq<string>)
    requires 1 <= |argv| && Parse(argv) == Run(opts)
    requires !IsHelp(arg) && !IsFile(arg) && !IsNoPbo(arg)
    ensures Parse(argv + [arg] + rest) == UsageExit(argv[0], UnknownOption(arg))
  {
    assert argv + [arg] + rest == argv + ([arg] + rest);
    ParseAppend(argv, 1, Defaults, opts, [arg] + rest);
  }

  /**
   * `argv[0]` is never read as an option: replacing it changes at most the
   * program name the usage exit reports.
   */
  lemma {:induction false} ProgramNameIgnored(argv: seq<string>, name: string, i: nat, opts: Options)
    requires 1 <= |argv| && 1 <= i
    ensures var p, q := ParseFrom(argv, i, opts), ParseFrom(argv[0 := name], i, opts);
      (p.Run? <==> q.Run?)
      && (p.Run? ==> p == q)
      && (p.UsageExit? ==> q == UsageExit(name, p.reason))
    decreases |argv| - i
  {
    var renamed := argv[0 := name];
    if i < |argv| {
      assert renamed[i] == argv[i];
      if IsFile(argv[i]) && i < |argv| - 1 {
        assert renamed[i + 1] == argv[i + 1];
        ProgramNameIgnored(argv, name, i + 2, opts.(outFile := argv[i + 1]));
      } else if IsNoPbo(argv[i]) {
        ProgramNameIgnored(argv, name, i + 1, opts.(usePbo := false));
      }
    }
  }
}
