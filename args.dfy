/**
 * The option record of the url-copy worker process (UrlCopyOpts) and its
 * option parser. getopt_long_only is not modelled: the parser is fed the
 * sequence of (option character, optional argument) pairs getopt would return.
 */
module UrlCopyArgs {
  import opened Wrappers
  import opened Text

  datatype CompareChecksum = ChecksumDontCheck | ChecksumStrict | ChecksumRelaxed

  /** One option as getopt_long_only reports it: its short character and optarg. */
  datatype Arg = Arg(opt: char, optarg: Option<string>)

  /**
   * The values of the fields of UrlCopyOpts that parse can assign, grouped by
   * kind and keyed by the option character that assigns them (see FieldName):
   * the boolean flags that are on, the integer fields and the string fields.
   */
  datatype Opts = Opts(
    flags: set<char>,
    numbers: map<char, int>,
    strings: map<char, string>,
    compareChecksum: CompareChecksum)
  {
    /** Every integer and string field is present. */
    predicate Complete() {
      flags <= FlagOptions && numbers.Keys == NumericOptions && strings.Keys == StringOptions
    }
  }

  /** How parse ended: normally, on an argument that is not a number, or in usage() (which exits). */
  datatype ParseStatus = Parsed | BadNumber(opt: char) | ShowUsage

  /** The value parse returns; usage() never returns because it exits the process. */
  function ReturnCode(s: ParseStatus): (r: int)
    requires !s.ShowUsage?
    ensures r == 0 <==> s.Parsed?
    ensures r == -1 <==> s.BadNumber?
  {
    if s.Parsed? then 0 else -1
  }

  const NumericPrefix := "Expected a numeric value for option -"

  /** The error message parse leaves when option `c` had a non-numeric argument. */
  function NumericErrorMessage(c: char): (m: string)
    ensures |m| == |NumericPrefix| + 1 && m[..|NumericPrefix|] == NumericPrefix && m[|m| - 1] == c
  {
    NumericPrefix + [c]
  }

  /** The options that read optarg; getopt supplies an argument for each of them. */
  const ValueOptions: set<char> := {
    'M', 'L', 'K', 'J', 'I', 'H', 'D', 'E', 'C', 'z', 'A', 't', 'a', 'b', 'c', 'e',
    'f', 'g', 'V', 'h', 'j', 'Y', '7', 'k', 'B', '5', '@', '9', '2', '3', '4', '0',
    '6', 'y'}

  /** The flag options: each sets its boolean field to true. */
  const FlagOptions: set<char> := {'P', 'O', 'N', 'G', 'R', 'U', 'X', 'Z', 'd', '1', 'S', '8'}

  /** The options whose argument is copied into a string field. */
  const StringOptions: set<char> := {
    'M', 'L', 'K', 'J', 'D', 'E', 'C', 'z', 'a', 'b', 'c', 'j', 'Y', '7', 'k', '5',
    '@', '0', '6', 'y'}

  /** The options whose argument goes through a numeric lexical_cast. */
  const NumericOptions: set<char> := {
    'I', 'H', 'F', 't', 'e', 'f', 'g', 'V', 'h', 'B', '9', '2', '3', '4'}

  /** The option classes are disjoint, and every string option reads an argument. */
  lemma OptionClasses(c: char)
    ensures c in FlagOptions ==> c !in StringOptions && c !in NumericOptions && c !in ValueOptions && c != 'A' && c != '?'
    ensures c in StringOptions ==> c in ValueOptions && c !in NumericOptions && c != 'A' && c != '?'
    ensures c in NumericOptions ==> c != 'A' && c != '?' && (c != 'F' <==> c in ValueOptions)
    ensures c == 'A' ==> c in ValueOptions
  {
    FlagClass(c);
    StringClass(c);
    NumericClass(c);
  }

  lemma FlagClass(c: char)
    ensures c in FlagOptions ==> c !in StringOptions && c !in NumericOptions && c !in ValueOptions && c != 'A' && c != '?'
  {
  }

  lemma StringClass(c: char)
    ensures c in StringOptions ==> c in ValueOptions && c !in NumericOptions && c != 'A' && c != '?'
  {
  }

  lemma NumericClass(c: char)
    ensures c in NumericOptions ==> c != 'A' && c != '?' && (c != 'F' <==> c in ValueOptions)
  {
  }

  predicate WellFormed(args: seq<Arg>) {
    forall i :: 0 <= i < |args| ==> args[i].opt in ValueOptions ==> args[i].optarg.Some?
  }

  /** The result of handling one option: go on with new values, or stop. */
  datatype Step = Continue(opts: Opts) | NumericFailure | Usage

  /** The lexical_cast target type of each numeric option. */
  function Convert(c: char, arg: string): (r: Option<int>)
    requires c in NumericOptions
  {
    if c == 'I' then LexLongLong(arg)
    else if c in {'F', 'f', 'g', 'h', 'B'} then LexUnsigned(arg)
    else LexInt(arg)
  }

  /** One pass of the switch in parse. */
  function ApplyOption(o: Opts, a: Arg): (r: Step)
    requires a.opt in ValueOptions ==> a.optarg.Some?
    ensures r.NumericFailure? <==> a.opt in NumericOptions && a.optarg.Some? && Convert(a.opt, a.optarg.value).None?
    ensures r.Usage? <==> a.opt == '?'
    ensures r.Continue? && o.Complete() ==> r.opts.Complete()
  {
    var c := a.opt;
    OptionClasses(c);
    if c in FlagOptions then Continue(o.(flags := o.flags + {c}))
    else if c in StringOptions then Continue(o.(strings := o.strings[c := a.optarg.value]))
    else if c == 'A' then Continue(o.(compareChecksum := ChecksumMode(a.optarg.value)))
    else if c == 'F' && a.optarg.None? then Continue(o.(numbers := o.numbers['F' := 0]))
    else if c in NumericOptions then
      match Convert(c, a.optarg.value)
      case None => NumericFailure
      case Some(v) => Continue(o.(numbers := o.numbers[c := v]))
    else if c == '?' then Usage
    else Continue(o)
  }

  /** The checksum mode an argument of option 'A' selects. */
  function ChecksumMode(arg: string): (m: CompareChecksum)
    ensures m != ChecksumDontCheck
    ensures m == ChecksumRelaxed <==> arg in {"relaxed", "r"}
  {
    if arg == "relaxed" || arg == "r" then ChecksumRelaxed else ChecksumStrict
  }

  /** The values and the status after parse has handled `args` starting from `o`. */
  datatype Run = Run(opts: Opts, status: ParseStatus)

  function ParseAll(o: Opts, args: seq<Arg>): (r: Run)
    requires WellFormed(args)
    decreases |args|
  {
    if args == [] then Run(o, Parsed)
    else
      match ApplyOption(o, args[0])
      case Continue(o') => ParseAll(o', args[1..])
      case NumericFailure => Run(o, BadNumber(args[0].opt))
      case Usage => Run(o, ShowUsage)
  }

  /** The text `operator<<` writes for a CompareChecksum value. */
  function CompareChecksumText(c: CompareChecksum): (s: string)
    ensures s in {"No checksum comparison", "Strict comparison", "Relaxed comparison"}
    ensures c.ChecksumDontCheck? <==> s == "No checksum comparison"
    ensures c.ChecksumStrict? <==> s == "Strict comparison"
    ensures c.ChecksumRelaxed? <==> s == "Relaxed comparison"
  {
    match c
    case ChecksumDontCheck => "No checksum comparison"
    case ChecksumStrict => "Strict comparison"
    case ChecksumRelaxed => "Relaxed comparison"
  }

  /**
   * The C++ member each option character assigns, for the reader; 'A' assigns
   * compareChecksum and the flags their boolean members.
   */
  function FieldName(c: char): string {
    match c
    case 'P' => "monitoringMessages" case 'O' => "autoTunned" case 'N' => "manualConfig"
    case 'G' => "reuse" case 'R' => "multihop" case 'U' => "enable_udt"
    case 'X' => "enable_ipv6" case 'Z' => "global_timeout" case 'd' => "overwrite"
    case '1' => "logToStderr" case 'S' => "strictCopy" case '8' => "hide_user_dn"
    case 'I' => "userFileSize" case 'H' => "bringOnline" case 'F' => "debugLevel"
    case 't' => "copyPinLifetime" case 'e' => "nStreams" case 'f' => "tcpBuffersize"
    case 'g' => "blockSize" case 'V' => "secPerMb" case 'h' => "timeout"
    case 'B' => "fileId" case '9' => "level" case '2' => "active" case '3' => "retry"
    case '4' => "retry_max"
    case 'M' => "infosys" case 'L' => "tokenBringOnline" case 'K' => "fileMetadata"
    case 'J' => "jobMetadata" case 'D' => "sourceSiteName" case 'E' => "destSiteName"
    case 'C' => "vo" case 'z' => "checksumValue" case 'a' => "jobId"
    case 'b' => "sourceUrl" case 'c' => "destUrl" case 'j' => "destTokenDescription"
    case 'Y' => "user_dn" case '7' => "alias" case 'k' => "sourceTokenDescription"
    case '5' => "proxy" case '@' => "oauthFile" case '0' => "job_m_replica"
    case '6' => "last_replica" case 'y' => "logDir"
    case 'A' => "compareChecksum"
    case _ => ""
  }

  /**
   * The constructor's values. Three of them are constants of
   * common/definitions.h, which is not part of this model: they are parameters.
   */
  function Defaults(defaultNoStreams: int, defaultBuffSize: int, defaultTimeout: int): (o: Opts)
    ensures o.Complete()
  {
    Opts(
      flags := {},
      numbers := map[
        'I' := 0, 'H' := -1, 'F' := 0, 't' := -1, 'e' := defaultNoStreams,
        'f' := defaultBuffSize, 'g' := 0, 'V' := 0, 'h' := defaultTimeout, 'B' := 0,
        '9' := 1, '2' := 0, '3' := 0, '4' := 0],
      strings := map c | c in StringOptions ::
        if c in {'0', '6'} then "false" else if c == 'y' then "/var/log/fts3/" else "",
      compareChecksum := ChecksumDontCheck)
  }

  /** What a fresh UrlCopyOpts holds: the documented defaults, every flag off. */
  lemma DefaultValues(n: int, b: int, t: int)
    ensures Defaults(n, b, t).flags == {}
    ensures Defaults(n, b, t).numbers['9'] == 1 && Defaults(n, b, t).numbers['F'] == 0
    ensures Defaults(n, b, t).numbers['H'] == -1 && Defaults(n, b, t).numbers['t'] == -1
    ensures Defaults(n, b, t).numbers['B'] == 0
    ensures Defaults(n, b, t).numbers['3'] == 0 && Defaults(n, b, t).numbers['4'] == 0
    ensures Defaults(n, b, t).strings['0'] == "false" && Defaults(n, b, t).strings['6'] == "false"
    ensures Defaults(n, b, t).strings['y'] == "/var/log/fts3/"
    ensures Defaults(n, b, t).compareChecksum == ChecksumDontCheck
  {
  }

  // ---------------------------------------------------------------------------
  // Properties of the parser

  /** The argument of the last occurrence of option `c` in `args`, if any. */
  function LastArg(args: seq<Arg>, c: char): (r: Option<Option<string>>)
    ensures r.None? <==> forall i :: 0 <= i < |args| ==> args[i].opt != c
    ensures r.Some? ==> exists i :: 0 <= i < |args| && args[i] == Arg(c, r.value)
    ensures r.Some? ==>
      exists i :: 0 <= i < |args| && args[i] == Arg(c, r.value) && forall j :: i < j < |args| ==> args[j].opt != c
  {
    if args == [] then None
    else
      var rest := LastArg(args[1..], c);
      assert forall i :: 1 <= i < |args| ==> args[i] == args[1..][i - 1];
      if rest.Some? then rest
      else if args[0].opt == c then Some(args[0].optarg)
      else None
  }

  /**
   * A flag that is on stays on, and every flag option that parse handled turns
   * its flag on: flags are only ever set, never reset.
   */
  lemma {:induction false} FlagsOnlyEverSet(o: Opts, args: seq<Arg>)
    requires WellFormed(args)
    ensures o.flags <= ParseAll(o, args).opts.flags
    ensures ParseAll(o, args).status.Parsed? ==>
      forall i :: 0 <= i < |args| && args[i].opt in FlagOptions ==> args[i].opt in ParseAll(o, args).opts.flags
    ensures ParseAll(o, args).opts.flags <= o.flags + GivenFlags(args)
    decreases |args|
  {
    if args != [] {
      match ApplyOption(o, args[0])
      case Continue(o') =>
        FlagsOnlyEverSet(o', args[1..]);
        assert forall i :: 1 <= i < |args| ==> args[i] == args[1..][i - 1];
        assert o'.flags <= o.flags + (if args[0].opt in FlagOptions then {args[0].opt} else {});
        assert GivenFlags(args[1..]) <= GivenFlags(args) by {
          forall f | f in GivenFlags(args[1..]) ensures f in GivenFlags(args) {
            var j :| 0 <= j < |args[1..]| && args[1..][j].opt in FlagOptions && args[1..][j].opt == f;
            assert args[j + 1].opt == f;
          }
        }
        if args[0].opt in FlagOptions {
          assert args[0].opt in GivenFlags(args);
        }
      case NumericFailure =>
      case Usage =>
    }
  }

  /** The flag options that `args` names. */
  function GivenFlags(args: seq<Arg>): (r: set<char>)
    ensures r <= FlagOptions
  {
    set i | 0 <= i < |args| && args[i].opt in FlagOptions :: args[i].opt
  }

  /**
   * After a successful parse every string field holds the argument of the last
   * option that names it, verbatim, or its earlier value if no option names it.
   */
  lemma {:induction false} StringFieldIsLastArgument(o: Opts, args: seq<Arg>, c: char)
    requires WellFormed(args) && c in StringOptions && c in o.strings
    requires ParseAll(o, args).status.Parsed?
    ensures c in ParseAll(o, args).opts.strings
    ensures ParseAll(o, args).opts.strings[c] ==
      match LastArg(args, c) case Some(v) => v.value case None => o.strings[c]
    decreases |args|
  {
    if args != [] {
      match ApplyOption(o, args[0])
      case Continue(o') =>
        ApplyOptionString(o, args[0], c);
        StringFieldIsLastArgument(o', args[1..], c);
      case NumericFailure =>
      case Usage =>
    }
  }

  /** One option changes at most the string field it names, to its argument. */
  lemma ApplyOptionString(o: Opts, a: Arg, c: char)
    requires a.opt in ValueOptions ==> a.optarg.Some?
    requires c in StringOptions && c in o.strings
    requires ApplyOption(o, a).Continue?
    ensures c in ApplyOption(o, a).opts.strings
    ensures ApplyOption(o, a).opts.strings[c] == if a.opt == c then a.optarg.value else o.strings[c]
  {
    OptionClasses(a.opt);
  }

  /** The value a numeric option that converted assigns ('F' without argument assigns 0). */
  function NumberAssigned(c: char, arg: Option<string>): Option<int>
    requires c in NumericOptions
  {
    if arg.None? then (if c == 'F' then Some(0) else None) else Convert(c, arg.value)
  }

  /** One option changes at most the integer field it names. */
  lemma ApplyOptionNumber(o: Opts, a: Arg, c: char)
    requires a.opt in ValueOptions ==> a.optarg.Some?
    requires c in NumericOptions && c in o.numbers
    requires ApplyOption(o, a).Continue?
    ensures c in ApplyOption(o, a).opts.numbers
    ensures a.opt == c ==> NumberAssigned(c, a.optarg).Some?
    ensures ApplyOption(o, a).opts.numbers[c] ==
      if a.opt == c then NumberAssigned(c, a.optarg).value else o.numbers[c]
  {
    OptionClasses(a.opt);
  }

  /**
   * After a successful parse every integer field holds the converted argument
   * of the last option that names it, or its earlier value if none does.
   */
  lemma {:induction false} NumberFieldIsLastArgument(o: Opts, args: seq<Arg>, c: char)
    requires WellFormed(args) && c in NumericOptions && c in o.numbers
    requires ParseAll(o, args).status.Parsed?
    ensures c in ParseAll(o, args).opts.numbers
    ensures LastArg(args, c).Some? ==> NumberAssigned(c, LastArg(args, c).value).Some?
    ensures ParseAll(o, args).opts.numbers[c] ==
      match LastArg(args, c) case Some(v) => NumberAssigned(c, v).value case None => o.numbers[c]
    decreases |args|
  {
    if args != [] {
      match ApplyOption(o, args[0])
      case Continue(o') =>
        ApplyOptionNumber(o, args[0], c);
        NumberFieldIsLastArgument(o', args[1..], c);
      case NumericFailure =>
      case Usage =>
    }
  }

  /**
   * After a successful parse the comparison mode is the one selected by the last
   * 'A' option ("relaxed" or "r" for relaxed, anything else strict), or the
   * earlier mode when there is no 'A'.
   */
  lemma {:induction false} CompareChecksumFollowsLastA(o: Opts, args: seq<Arg>)
    requires WellFormed(args)
    requires ParseAll(o, args).status.Parsed?
    ensures ParseAll(o, args).opts.compareChecksum ==
      match LastArg(args, 'A') case Some(v) => ChecksumMode(v.value) case None => o.compareChecksum
    decreases |args|
  {
    if args != [] {
      match ApplyOption(o, args[0])
      case Continue(o') =>
        CompareChecksumFollowsLastA(o', args[1..]);
      case NumericFailure =>
      case Usage =>
    }
  }

  /** 'F' without an argument resets the debug level to 0. */
  lemma DebugWithoutArgument(o: Opts)
    ensures ApplyOption(o, Arg('F', None)) == Continue(o.(numbers := o.numbers['F' := 0]))
  {
  }

  /**
   * parse fails exactly at a numeric option whose argument does not convert;
   * every option before it has taken effect and nothing is rolled back.
   */
  lemma {:induction false} BadNumberKeepsEarlierOptions(o: Opts, args: seq<Arg>)
    requires WellFormed(args)
    requires ParseAll(o, args).status.BadNumber?
    ensures exists k :: (0 <= k < |args| && args[k].opt == ParseAll(o, args).status.opt
      && args[k].opt in NumericOptions
      && args[k].optarg.Some? && Convert(args[k].opt, args[k].optarg.value).None?
      && ParseAll(o, args[..k]) == Run(ParseAll(o, args).opts, Parsed))
    decreases |args|
  {
    var r := ParseAll(o, args);
    match ApplyOption(o, args[0])
    case Continue(o') =>
      BadNumberKeepsEarlierOptions(o', args[1..]);
      var k :| 0 <= k < |args[1..]| && args[1..][k].opt == r.status.opt
        && args[1..][k].opt in NumericOptions
        && args[1..][k].optarg.Some? && Convert(args[1..][k].opt, args[1..][k].optarg.value).None?
        && ParseAll(o', args[1..][..k]) == Run(r.opts, Parsed);
      assert args[..k + 1][1..] == args[1..][..k];
      assert args[..k + 1][0] == args[0];
      assert ParseAll(o, args[..k + 1]) == Run(r.opts, Parsed);
    case NumericFailure =>
      assert args[..0] == [];
    case Usage =>
  }

  // ---------------------------------------------------------------------------
  // The option object

  /**
   * The UrlCopyOpts singleton. Its members are grouped as in Opts: `flags`
   * holds the option characters of the boolean members that are true,
   * `numbers` and `strings` map each option character to the member it
   * assigns (FieldName gives the C++ name).
   */
  class UrlCopyOpts {
    var flags: set<char>
    var numbers: map<char, int>
    var strings: map<char, string>
    var compareChecksum: CompareChecksum
    var errorMessage: string

    function Snapshot(): Opts
      reads this
    {
      Opts(flags, numbers, strings, compareChecksum)
    }

    constructor(defaultNoStreams: int, defaultBuffSize: int, defaultTimeout: int)
      ensures Snapshot() == Defaults(defaultNoStreams, defaultBuffSize, defaultTimeout)
      ensures errorMessage == ""
    {
      var d := Defaults(defaultNoStreams, defaultBuffSize, defaultTimeout);
      flags, numbers, strings, compareChecksum := d.flags, d.numbers, d.strings, d.compareChecksum;
      errorMessage := "";
    }

    /**
     * Handle the options in order, assigning members as the switch does. Stops
     * at the first numeric option whose argument does not convert (setting
     * errorMessage) or at '?' (where the program prints its usage and exits).
     */
    method Parse(args: seq<Arg>) returns (status: ParseStatus)
      requires WellFormed(args)
      modifies this
      ensures Snapshot() == ParseAll(old(Snapshot()), args).opts
      ensures status == ParseAll(old(Snapshot()), args).status
      ensures status.BadNumber? ==> errorMessage == NumericErrorMessage(status.opt)
      ensures !status.BadNumber? ==> errorMessage == old(errorMessage)
    {
      var i := 0;
      while i < |args|
        invariant 0 <= i <= |args|
        invariant ParseAll(old(Snapshot()), args) == ParseAll(Snapshot(), args[i..])
        invariant errorMessage == old(errorMessage)
      {
        var a := args[i];
        assert args[i..][0] == a && args[i..][1..] == args[i + 1..];
        var c := a.opt;
        if c in FlagOptions {
          flags := flags + {c};
        } else if c in StringOptions {
          strings := strings[c := a.optarg.value];
        } else if c == 'A' {
          if a.optarg.value == "relaxed" || a.optarg.value == "r" {
            compareChecksum := ChecksumRelaxed;
          } else {
            compareChecksum := ChecksumStrict;
          }
        } else if c == 'F' && a.optarg.None? {
          numbers := numbers['F' := 0];
        } else if c in NumericOptions {
          var v := Convert(c, a.optarg.value);
          if v.None? {
            errorMessage := NumericErrorMessage(c);
            return BadNumber(c);
          }
          numbers := numbers[c := v.value];
        } else if c == '?' {
          return ShowUsage;
        }
        i := i + 1;
      }
      status := Parsed;
    }
  }
}
