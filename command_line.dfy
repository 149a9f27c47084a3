/**
 * The command-line scanner of the k-means driver. Options and their
 * defaults: mode "", dataPath "", clusters 5, threads 8, processes 8,
 * dataPoints 0, iterations 10. The scanner walks the arguments left to
 * right; a recognised flag takes the next argument as its value (whatever
 * that argument looks like) and scanning resumes after it; any other
 * argument is skipped. A flag in last position has no value to read, and a
 * numeric flag whose value is not a Java `int` fails; both are errors here.
 */
module CommandLine {
  import opened Wrappers
  import opened Decimal

  const IntMin: int := -0x8000_0000
  const IntMax: int := 0x7fff_ffff

  /**
   * `Integer.parseInt` on ASCII text: an optional `-` or `+`, then at least
   * one digit and nothing else, denoting a value in the 32-bit range.
   */
  function ParseInt(s: string): (r: Option<int>)
    ensures r.Some? ==> IntMin <= r.value <= IntMax
  {
    if s == [] then None
    else
      var negative := s[0] == '-';
      var digits := if s[0] == '-' || s[0] == '+' then s[1..] else s;
      if digits == [] || !AllDigits(digits) then None
      else
        var magnitude: int := DigitsValue(digits);
        var v := if negative then -magnitude else magnitude;
        if IntMin <= v <= IntMax then Some(v) else None
  }

  /** `Integer.toString`. */
  function IntToString(v: int): string
  {
    if v < 0 then "-" + NatToString(-v) else NatToString(v)
  }

  /** Every `int` printed in decimal is read back as itself. */
  lemma ParseIntOfIntToString(v: int)
    requires IntMin <= v <= IntMax
    ensures ParseInt(IntToString(v)) == Some(v)
  {
    var s := IntToString(v);
    if v < 0 {
      assert s[1..] == NatToString(-v);
      DigitsValueOfNatToString(-v);
    } else {
      DigitsValueOfNatToString(v);
    }
  }

  /** Texts `Integer.parseInt` rejects or accepts at the edges. */
  lemma ParseIntEdges()
    ensures ParseInt("") == None && ParseInt("-") == None && ParseInt("+") == None
    ensures ParseInt("12a") == None && ParseInt(" 1") == None
    ensures ParseInt("+7") == Some(7) && ParseInt("-0") == Some(0)
  {
    assert !IsDigit('a') && !IsDigit(' ');
    assert "12a"[2] == 'a';
    calc {
      DigitsValue("7");
      DigitsValue("") * 10 + DigitValue('7');
      7;
    }
    assert "+7"[1..] == "7";
    assert "-0"[1..] == "0";
  }

  /** The options a run is configured with. */
  datatype Options = Options(
    mode: string, dataPath: string,
    clusters: int, threads: int, processes: int, dataPoints: int, iterations: int)

  /** The value of one option, text or number. */
  datatype OptionValue = Text(text: string) | Number(number: int)

  /** Why scanning failed: a flag with no argument after it, or a numeric
      flag whose argument is not an `int`. */
  datatype ArgError = MissingValue(flag: string) | NotAnInteger(token: string)

  const Flags: seq<string> := ["-mode", "-dataPath", "-clusters", "-threads", "-processes", "-dataPoints", "-iterations"]

  predicate IsFlag(s: string)
  {
    s in Flags
  }

  predicate IsNumericFlag(s: string)
  {
    IsFlag(s) && s != "-mode" && s != "-dataPath"
  }

  /** The option a flag sets. */
  function Get(o: Options, flag: string): OptionValue
    requires IsFlag(flag)
  {
    if flag == "-mode" then Text(o.mode)
    else if flag == "-dataPath" then Text(o.dataPath)
    else if flag == "-clusters" then Number(o.clusters)
    else if flag == "-threads" then Number(o.threads)
    else if flag == "-processes" then Number(o.processes)
    else if flag == "-dataPoints" then Number(o.dataPoints)
    else Number(o.iterations)
  }

  /**
   * One `case` of the scanner: the option `flag` names takes `value`, read
   * as an `int` for a numeric flag. Every other option is left as it was.
   */
  function SetOption(o: Options, flag: string, value: string): (r: Result<Options, ArgError>)
    requires IsFlag(flag)
    ensures r.Success? <==> !IsNumericFlag(flag) || ParseInt(value).Some?
    ensures r.Failure? ==> r.error == NotAnInteger(value)
    ensures r.Success? ==>
      Get(r.value, flag) == (if IsNumericFlag(flag) then Number(ParseInt(value).value) else Text(value))
    ensures r.Success? ==> forall g :: IsFlag(g) && g != flag ==> Get(r.value, g) == Get(o, g)
  {
    if flag == "-mode" then Success(o.(mode := value))
    else if flag == "-dataPath" then Success(o.(dataPath := value))
    else match ParseInt(value)
      case None => Failure(NotAnInteger(value))
      case Some(v) =>
        if flag == "-clusters" then Success(o.(clusters := v))
        else if flag == "-threads" then Success(o.(threads := v))
        else if flag == "-processes" then Success(o.(processes := v))
        else if flag == "-dataPoints" then Success(o.(dataPoints := v))
        else Success(o.(iterations := v))
  }

  /** The scanner from argument `i` on, starting from the options `o`. */
  function Scan(args: seq<string>, i: nat, o: Options): Result<Options, ArgError>
    decreases |args| - i
  {
    if i >= |args| then Success(o)
    else if !IsFlag(args[i]) then Scan(args, i + 1, o)
    else if i + 1 == |args| then Failure(MissingValue(args[i]))
    else
      var r := SetOption(o, args[i], args[i + 1]);
      if r.Failure? then r else Scan(args, i + 2, r.value)
  }

  /** The default options. */
  const Defaults: Options := Options("", "", 5, 8, 8, 0, 10)

  /** `parseCommandLineArgs` as a function of the arguments. */
  function ParseArgs(args: seq<string>): Result<Options, ArgError>
  {
    Scan(args, 0, Defaults)
  }

  /** Arguments in front of those being scanned make no difference. */
  lemma {:induction false} ScanShift(pre: seq<string>, args: seq<string>, i: nat, o: Options)
    ensures Scan(pre + args, |pre| + i, o) == Scan(args, i, o)
    decreases |args| - i
  {
    var all := pre + args;
    if i < |args| {
      assert all[|pre| + i] == args[i];
      if !IsFlag(args[i]) {
        ScanShift(pre, args, i + 1, o);
      } else if i + 1 < |args| {
        assert all[|pre| + i + 1] == args[i + 1];
        if SetOption(o, args[i], args[i + 1]).Success? {
          ScanShift(pre, args, i + 2, SetOption(o, args[i], args[i + 1]).value);
        }
      }
    }
  }

  /**
   * A scan that succeeds on `a` consumes `a` exactly (a flag in last
   * position would have failed), so scanning `a + b` goes on with `b` from
   * the options reached at the end of `a`.
   */
  lemma {:induction false} ScanAppend(a: seq<string>, b: seq<string>, i: nat, o: Options)
    requires i <= |a| && Scan(a, i, o).Success?
    ensures Scan(a + b, i, o) == Scan(b, 0, Scan(a, i, o).value)
    decreases |a| - i
  {
    var all := a + b;
    if i == |a| {
      ScanShift(a, b, 0, o);
    } else {
      assert all[i] == a[i];
      if !IsFlag(a[i]) {
        ScanAppend(a, b, i + 1, o);
      } else {
        assert all[i + 1] == a[i + 1];
        ScanAppend(a, b, i + 2, SetOption(o, a[i], a[i + 1]).value);
      }
    }
  }

  /** A flag given again later overrides the earlier value: the last
      occurrence wins. */
  lemma LastOccurrenceWins(args: seq<string>, flag: string, value: string)
    requires ParseArgs(args).Success? && IsFlag(flag)
    ensures ParseArgs(args + [flag, value]) == SetOption(ParseArgs(args).value, flag, value)
  {
    ScanAppend(args, [flag, value], 0, Defaults);
  }

  /** A recognised flag as the last argument has no value: an error. */
  lemma FlagWithoutValue(args: seq<string>, flag: string)
    requires ParseArgs(args).Success? && IsFlag(flag)
    ensures ParseArgs(args + [flag]) == Failure(MissingValue(flag))
  {
    ScanAppend(args, [flag], 0, Defaults);
  }

  /** The argument after a flag is its value even when it is itself a flag;
      scanning goes on after it. */
  lemma FlagConsumesNextToken(flag: string, value: string, rest: seq<string>)
    requires IsFlag(flag)
    ensures ParseArgs([flag, value] + rest) ==
      var r := SetOption(Defaults, flag, value);
      if r.Failure? then r else Scan(rest, 0, r.value)
  {
    var all := [flag, value] + rest;
    assert all[0] == flag && all[1] == value;
    if SetOption(Defaults, flag, value).Success? {
      ScanShift([flag, value], rest, 0, SetOption(Defaults, flag, value).value);
    }
  }

  /** An argument that is not a flag, between complete options, changes
      nothing. */
  lemma UnknownTokenIgnored(a: seq<string>, token: string, b: seq<string>)
    requires ParseArgs(a).Success? && !IsFlag(token)
    ensures ParseArgs(a + [token] + b) == ParseArgs(a + b)
  {
    var o := ParseArgs(a).value;
    ScanAppend(a, [token] + b, 0, Defaults);
    assert a + [token] + b == a + ([token] + b);
    ScanAppend(a, b, 0, Defaults);
    ScanShift([token], b, 0, o);
  }

  /** An option whose flag is not among the arguments keeps the value it
      started with. */
  lemma {:induction false} UnmentionedKeepsValue(args: seq<string>, i: nat, o: Options, flag: string)
    requires IsFlag(flag) && flag !in args
    requires Scan(args, i, o).Success?
    ensures Get(Scan(args, i, o).value, flag) == Get(o, flag)
    decreases |args| - i
  {
    if i < |args| {
      if !IsFlag(args[i]) {
        UnmentionedKeepsValue(args, i + 1, o, flag);
      } else {
        UnmentionedKeepsValue(args, i + 2, SetOption(o, args[i], args[i + 1]).value, flag);
      }
    }
  }

  /** The arguments that set every option to the value it has in `o`. */
  function ToArgs(o: Options): seq<string>
  {
    ["-mode", o.mode] + (["-dataPath", o.dataPath] +
    (["-clusters", IntToString(o.clusters)] + (["-threads", IntToString(o.threads)] +
    (["-processes", IntToString(o.processes)] + (["-dataPoints", IntToString(o.dataPoints)] +
    ["-iterations", IntToString(o.iterations)])))))
  }

  predicate IntsInRange(o: Options)
  {
    && IntMin <= o.clusters <= IntMax && IntMin <= o.threads <= IntMax
    && IntMin <= o.processes <= IntMax && IntMin <= o.dataPoints <= IntMax
    && IntMin <= o.iterations <= IntMax
  }

  /** Any options whose numbers are `int`s can be written as arguments that
      the scanner reads back exactly. */
  lemma ParseToArgs(o: Options)
    requires IntsInRange(o)
    ensures ParseArgs(ToArgs(o)) == Success(o)
  {
    ParseIntOfIntToString(o.clusters);
    ParseIntOfIntToString(o.threads);
    ParseIntOfIntToString(o.processes);
    ParseIntOfIntToString(o.dataPoints);
    ParseIntOfIntToString(o.iterations);
    var o1 := Defaults.(mode := o.mode);
    var o2 := o1.(dataPath := o.dataPath);
    var o3 := o2.(clusters := o.clusters);
    var o4 := o3.(threads := o.threads);
    var o5 := o4.(processes := o.processes);
    var o6 := o5.(dataPoints := o.dataPoints);
    var a7 := ["-iterations", IntToString(o.iterations)];
    var a6 := ["-dataPoints", IntToString(o.dataPoints)] + a7;
    var a5 := ["-processes", IntToString(o.processes)] + a6;
    var a4 := ["-threads", IntToString(o.threads)] + a5;
    var a3 := ["-clusters", IntToString(o.clusters)] + a4;
    var a2 := ["-dataPath", o.dataPath] + a3;
    ScanFront("-mode", o.mode, a2, Defaults, o1);
    ScanFront("-dataPath", o.dataPath, a3, o1, o2);
    ScanFront("-clusters", IntToString(o.clusters), a4, o2, o3);
    ScanFront("-threads", IntToString(o.threads), a5, o3, o4);
    ScanFront("-processes", IntToString(o.processes), a6, o4, o5);
    ScanFront("-dataPoints", IntToString(o.dataPoints), a7, o5, o6);
    ScanFront("-iterations", IntToString(o.iterations), [], o6, o);
    assert a7 == a7 + [];
  }

  /** A flag and its value in front, when setting succeeds, are consumed
      together. */
  lemma ScanFront(flag: string, value: string, rest: seq<string>, o: Options, o': Options)
    requires IsFlag(flag) && SetOption(o, flag, value) == Success(o')
    ensures Scan([flag, value] + rest, 0, o) == Scan(rest, 0, o')
  {
    var all := [flag, value] + rest;
    assert all[0] == flag && all[1] == value;
    ScanShift([flag, value], rest, 0, o');
  }

  /** `CommandLineOptions`: the mutable options record, born with the
      defaults. */
  class CommandLineOptions {
    var mode: string
    var dataPath: string
    var clusters: int
    var threads: int
    var processes: int
    var dataPoints: int
    var iterations: int

    constructor ()
      ensures mode == "" && dataPath == ""
      ensures clusters == 5 && threads == 8 && processes == 8 && dataPoints == 0 && iterations == 10
    {
      mode, dataPath := "", "";
      clusters, threads, processes, dataPoints, iterations := 5, 8, 8, 0, 10;
    }

    function Value(): Options
      reads this
    {
      Options(mode, dataPath, clusters, threads, processes, dataPoints, iterations)
    }
  }

  /**
   * `parseCommandLineArgs`: walks the arguments with an index that the
   * flag cases advance past their value, updating a fresh options record.
   * It fails exactly when the scanner does, and otherwise yields the
   * scanner's options.
   */
  method ParseCommandLineArgs(args: seq<string>) returns (r: Result<CommandLineOptions, ArgError>)
    ensures r.Success? <==> ParseArgs(args).Success?
    ensures r.Success? ==> fresh(r.value) && r.value.Value() == ParseArgs(args).value
    ensures r.Failure? ==> r.error == ParseArgs(args).error
  {
    var options := new CommandLineOptions();
    var i := 0;
    while i < |args|
      invariant 0 <= i <= |args|
      invariant fresh(options)
      invariant Scan(args, i, options.Value()) == ParseArgs(args)
    {
      var token := args[i];
      if IsFlag(token) {
        if i + 1 == |args| {
          return Failure(MissingValue(token));
        }
        i := i + 1;
        var value := args[i];
        if token == "-mode" {
          options.mode := value;
        } else if token == "-dataPath" {
          options.dataPath := value;
        } else {
          var n := ParseInt(value);
          if n.None? {
            return Failure(NotAnInteger(value));
          }
          if token == "-clusters" {
            options.clusters := n.value;
          } else if token == "-threads" {
            options.threads := n.value;
          } else if token == "-processes" {
            options.processes := n.value;
          } else if token == "-dataPoints" {
            options.dataPoints := n.value;
          } else {
            options.iterations := n.value;
          }
        }
      }
      i := i + 1;
    }
    return Success(options);
  }
}
