/**
 * The engine's main configuration file: logical lines with backslash
 * continuation, `key=value` dispatch to the setters, the checks and
 * conversions those setters apply, `$USERn$` resource files and broker
 * modules.
 */
module ConfigState {
  import opened Common

  // ---------------------------------------------------------------------
  // Trimming
  // ---------------------------------------------------------------------

  /** The characters `_trim` strips. */
  predicate Blank(c: char)
  {
    c == ' ' || c == '\t' || c == '\r' || c == '\n'
  }

  function TrimEnd(s: string): (r: string)
    ensures |r| <= |s| && r == s[..|r|]
    ensures r != [] ==> !Blank(r[|r| - 1])
  {
    if s != [] && Blank(s[|s| - 1]) then TrimEnd(s[..|s| - 1]) else s
  }

  /** What `TrimEnd` drops is blank. */
  lemma {:induction false} TrimEndDropsBlanks(s: string, i: nat)
    requires |TrimEnd(s)| <= i < |s|
    ensures Blank(s[i])
  {
    if s != [] && Blank(s[|s| - 1]) && i < |s| - 1 {
      TrimEndDropsBlanks(s[..|s| - 1], i);
    }
  }

  function TrimStart(s: string): (r: string)
    ensures |r| <= |s| && r == s[|s| - |r|..]
    ensures r != [] ==> !Blank(r[0])
  {
    if s != [] && Blank(s[0]) then TrimStart(s[1..]) else s
  }

  /** What `TrimStart` drops is blank. */
  lemma {:induction false} TrimStartDropsBlanks(s: string, i: nat)
    requires i < |s| - |TrimStart(s)|
    ensures Blank(s[i])
  {
    if i > 0 {
      TrimStartDropsBlanks(s[1..], i - 1);
    }
  }

  /** `_trim`: the string without its leading and trailing blanks. */
  function Trim(s: string): (r: string)
    ensures |r| <= |TrimEnd(s)| && r == s[|TrimEnd(s)| - |r|..|TrimEnd(s)|]
    ensures r != [] ==> !Blank(r[0]) && !Blank(r[|r| - 1])
  {
    var e := TrimEnd(s);
    var r := TrimStart(e);
    assert r == e[|e| - |r|..];
    assert e == s[..|e|];
    r
  }

  /** An all-blank string, and only such a string, trims to nothing. */
  lemma TrimEmptyIff(s: string)
    ensures Trim(s) == [] <==> forall i :: 0 <= i < |s| ==> Blank(s[i])
  {
    var e := TrimEnd(s);
    if Trim(s) == [] {
      forall i | 0 <= i < |s|
        ensures Blank(s[i])
      {
        if i < |e| {
          TrimStartDropsBlanks(e, i);
          assert s[i] == e[i];
        } else {
          TrimEndDropsBlanks(s, i);
        }
      }
    }
  }

  /** A string without blanks at either end is its own trim. */
  lemma TrimKeepsTrimmed(s: string)
    requires s != [] ==> !Blank(s[0]) && !Blank(s[|s| - 1])
    ensures Trim(s) == s
  {
  }

  /** Trimming twice is trimming once. */
  lemma TrimIdempotent(s: string)
    ensures Trim(Trim(s)) == Trim(s)
  {
    TrimKeepsTrimmed(Trim(s));
  }

  // ---------------------------------------------------------------------
  // Logical lines
  // ---------------------------------------------------------------------

  /** How many characters a continued line loses at its end: as written, and as intended. */
  const ContinuationCutAsWritten := 2
  const ContinuationCut := 1

  /**
   * `_getline` with the continuation cut as a parameter: physical lines
   * `lines` from `pos`, with `acc` already read. A line ending in a single
   * backslash continues on the next one; an empty line, or the end of the
   * input, gives the empty line. The result is the line and where reading resumes.
   */
  function NextLineWith(lines: seq<string>, pos: nat, acc: string, cut: nat): (r: (string, nat))
    requires 1 <= cut <= 2
    ensures pos < |lines| ==> pos < r.1 <= |lines|
    ensures pos >= |lines| ==> r == ("", pos)
    decreases |lines| - pos
  {
    if pos >= |lines| then ("", pos)
    else
      var buf := lines[pos];
      if buf == [] then ("", pos + 1)
      else if |buf| > 1 && buf[|buf| - 2] != '\\' && buf[|buf| - 1] == '\\' then
        NextLineWith(lines, pos + 1, acc + buf[..|buf| - cut], cut)
      else if buf[|buf| - 1] == '\\' then (Trim(acc) + buf[..|buf| - 1], pos + 1)
      else (Trim(acc) + buf, pos + 1)
  }

  /** The next logical line. */
  function NextLine(lines: seq<string>, pos: nat): (r: (string, nat))
    ensures pos < |lines| ==> pos < r.1 <= |lines|
    ensures pos >= |lines| ==> r == ("", pos)
  {
    NextLineWith(lines, pos, "", ContinuationCut)
  }

  /** One continued physical line. */
  lemma ContinueStep(lines: seq<string>, pos: nat, acc: string, cut: nat)
    requires 1 <= cut <= 2 && pos < |lines|
    requires |lines[pos]| > 1 && lines[pos][|lines[pos]| - 2] != '\\' && lines[pos][|lines[pos]| - 1] == '\\'
    ensures NextLineWith(lines, pos, acc, cut)
         == NextLineWith(lines, pos + 1, acc + lines[pos][..|lines[pos]| - cut], cut)
  {
  }

  /** The last physical line of a logical line. */
  lemma FinalStep(lines: seq<string>, pos: nat, acc: string, cut: nat)
    requires 1 <= cut <= 2 && pos < |lines| && lines[pos] != [] && lines[pos][|lines[pos]| - 1] != '\\'
    ensures NextLineWith(lines, pos, acc, cut) == (Trim(acc) + lines[pos], pos + 1)
  {
  }

  /** An empty physical line ends the logical line, dropping what was read. */
  lemma EmptyStep(lines: seq<string>, pos: nat, acc: string, cut: nat)
    requires 1 <= cut <= 2 && pos < |lines| && lines[pos] == []
    ensures NextLineWith(lines, pos, acc, cut) == ("", pos + 1)
  {
  }

  /** A line that ends in a backslash it does not continue with: the backslash is dropped. */
  lemma BackslashEndStep(lines: seq<string>, pos: nat, acc: string, cut: nat)
    requires 1 <= cut <= 2 && pos < |lines| && lines[pos] != [] && lines[pos][|lines[pos]| - 1] == '\\'
    requires |lines[pos]| == 1 || lines[pos][|lines[pos]| - 2] == '\\'
    ensures NextLineWith(lines, pos, acc, cut) == (Trim(acc) + lines[pos][..|lines[pos]| - 1], pos + 1)
  {
  }

  /** The pieces of a physical line ending in a backslash. */
  lemma BackslashLineParts(x: string, c: char)
    ensures var buf := x + [c] + "\\";
      |buf| > 1 && buf[|buf| - 2] == c && buf[|buf| - 1] == '\\' && buf[..|buf| - 2] == x && buf[..|buf| - 1] == x + [c]
  {
    var buf := x + [c] + "\\";
    assert buf[..|buf| - 1] == x + [c];
    assert buf[..|buf| - 2] == x;
  }

  /** As written, a continued line loses the character before its backslash. */
  lemma ContinuationLosesCharacterAsWritten(x: string, c: char, y: string, rest: seq<string>)
    requires c != '\\' && (x != [] ==> !Blank(x[0]) && !Blank(x[|x| - 1]))
    requires y != [] && y[|y| - 1] != '\\'
    ensures NextLineWith([x + [c] + "\\", y] + rest, 0, "", ContinuationCutAsWritten) == (x + y, 2)
  {
    var lines := [x + [c] + "\\", y] + rest;
    calc {
      NextLineWith(lines, 0, "", ContinuationCutAsWritten);
    == { assert lines[0] == x + [c] + "\\";
         BackslashLineParts(x, c);
         ContinueStep(lines, 0, "", 2);
         assert "" + lines[0][..|lines[0]| - 2] == x; }
      NextLineWith(lines, 1, x, 2);
    == { assert lines[1] == y;
         FinalStep(lines, 1, x, 2);
         TrimKeepsTrimmed(x); }
      (x + y, 2);
    }
  }

  /** The line "a=12" continued by "3" is read as "a=13". */
  lemma ContinuationExampleAsWritten(lines: seq<string>)
    requires lines == ["a=12\\", "3"]
    ensures NextLineWith(lines, 0, "", ContinuationCutAsWritten) == ("a=13", 2)
  {
    var first := "a=1" + ['2'] + "\\";
    assert |first| == 5 && first[0] == 'a' && first[1] == '=' && first[2] == '1' && first[3] == '2' && first[4] == '\\';
    assert first == "a=12\\";
    assert lines == [first, "3"] + [];
    ContinuationLosesCharacterAsWritten("a=1", '2', "3", []);
    assert "a=1" + "3" == "a=13";
  }

  /** A continued line is its text without the backslash, followed by the next line. */
  lemma ContinuationJoins(x: string, y: string, rest: seq<string>)
    requires x != [] && x[|x| - 1] != '\\' && !Blank(x[0]) && !Blank(x[|x| - 1])
    requires y != [] && y[|y| - 1] != '\\'
    ensures NextLine([x + "\\", y] + rest, 0) == (x + y, 2)
  {
    var lines := [x + "\\", y] + rest;
    var init := x[..|x| - 1];
    assert x == init + [x[|x| - 1]];
    assert lines[0] == init + [x[|x| - 1]] + "\\" && lines[1] == y;
    BackslashLineParts(init, x[|x| - 1]);
    ContinueStep(lines, 0, "", ContinuationCut);
    assert "" + x == x;
    FinalStep(lines, 1, x, ContinuationCut);
    TrimKeepsTrimmed(x);
  }

  /** A line that does not end in a backslash is read as it is. */
  lemma PlainLineRead(y: string, rest: seq<string>)
    requires y != [] && y[|y| - 1] != '\\'
    ensures NextLine([y] + rest, 0) == (y, 1)
  {
    var lines := [y] + rest;
    assert lines[0] == y;
    FinalStep(lines, 0, "", ContinuationCut);
    assert Trim("") + y == y;
  }

  // ---------------------------------------------------------------------
  // Values and conversions
  // ---------------------------------------------------------------------

  const Two32 := 0x1_0000_0000
  const Two31 := 0x8000_0000
  const UintMax := 0xFFFF_FFFF

  /** Conversion of a decimal text to `unsigned int`; none when the text is not a number in range. */
  function ParseU32(s: string): (r: Option<nat>)
    ensures r.Some? ==> r.value < Two32 && ParseNat(s) == Some(r.value)
  {
    match ParseNat(s)
    case Some(n) => if n < Two32 then Some(n) else None
    case None => None
  }

  /** Conversion of a decimal text, with an optional '-', to `int`. */
  function ParseI32(s: string): (r: Option<int>)
    ensures r.Some? ==> -Two31 <= r.value < Two31
    ensures r.Some? && s != [] && s[0] == '-' ==> ParseNat(s[1..]) == Some(-r.value)
    ensures r.Some? && !(s != [] && s[0] == '-') ==> ParseNat(s) == Some(r.value)
  {
    if s != [] && s[0] == '-' then
      match ParseNat(s[1..])
      case Some(n) => if n <= Two31 then Some(0 - n) else None
      case None => None
    else
      match ParseNat(s)
      case Some(n) => if n < Two31 then Some(n) else None
      case None => None
  }

  lemma ParseI32OfNat(n: nat)
    requires n < Two31
    ensures ParseI32(NatToString(n)) == Some(n)
  {
    ParseNatToString(n);
  }

  /** An `int` seen as `unsigned int`. */
  function ToU32(v: int): (u: nat)
    ensures u < Two32
    ensures 0 <= v < Two32 ==> u == v
  {
    v % Two32
  }

  /** An `unsigned int` stored back into an `int`, two's complement. */
  function ToI32(u: nat): (v: int)
    requires u < Two32
    ensures -Two31 <= v < Two31
    ensures u < Two31 ==> v == u
  {
    if u < Two31 then u else u - Two32
  }

  /** `int *= unsigned int`: the product taken modulo 2^32. */
  function Scale(v: int, factor: nat): int
  {
    ToI32((ToU32(v) * factor) % Two32)
  }

  /** `int /= unsigned int`: an unsigned quotient. */
  function Unscale(v: int, divisor: nat): int
    requires divisor > 0
  {
    ToI32(ToU32(v) / divisor)
  }

  /** Without overflow, scaling is multiplication. */
  lemma ScaleExact(v: int, factor: nat)
    requires 0 <= v && v * factor < Two31
    ensures Scale(v, factor) == v * factor
  {
  }

  /** Without overflow, unscaling a product recovers the factor. */
  lemma UnscaleScaled(v: int, factor: nat)
    requires 0 <= v && factor > 0 && v * factor < Two31
    ensures Unscale(v * factor, factor) == v
  {
    assert (v * factor) / factor == v;
  }

  // ---------------------------------------------------------------------
  // Settings and their setters
  // ---------------------------------------------------------------------

  /** The unsigned settings whose setters check a lower bound. */
  datatype CheckedOption =
    | MaxServiceCheckSpread | MaxHostCheckSpread | CheckReaperInterval | MaxCheckReaperTime
    | ServiceFreshnessCheckInterval | HostFreshnessCheckInterval | AutoReschedulingInterval
    | AutoReschedulingWindow | StatusUpdateInterval | TimeChangeThreshold | RetentionUpdateInterval
    | RetentionSchedulingHorizon | ServiceCheckTimeout | HostCheckTimeout | EventHandlerTimeout
    | NotificationTimeout | OcspTimeout | OchpTimeout

  /** The least value each checked setter accepts. */
  function Minimum(o: CheckedOption): (m: nat)
    ensures m >= 1
  {
    match o
    case StatusUpdateInterval => 2
    case TimeChangeThreshold => 6
    case _ => 1
  }

  /** The setting's name in its error message. */
  function OptionName(o: CheckedOption): string
  {
    match o
    case MaxServiceCheckSpread => "max_service_check_spread"
    case MaxHostCheckSpread => "max_host_check_spread"
    case CheckReaperInterval => "check_reaper_interval"
    case MaxCheckReaperTime => "max_check_reaper_time"
    case ServiceFreshnessCheckInterval => "service_freshness_check_interval"
    case HostFreshnessCheckInterval => "host_freshness_check_interval"
    case AutoReschedulingInterval => "auto_rescheduling_interval"
    case AutoReschedulingWindow => "auto_rescheduling_window"
    case StatusUpdateInterval => "status_update_interval"
    case TimeChangeThreshold => "time_change_threshold"
    case RetentionUpdateInterval => "retention_update_interval"
    case RetentionSchedulingHorizon => "retention_scheduling_horizon"
    case ServiceCheckTimeout => "service_check_timeout"
    case HostCheckTimeout => "host_check_timeout"
    case EventHandlerTimeout => "event_handler_timeout"
    case NotificationTimeout => "notification_timeout"
    case OcspTimeout => "ocsp_timeout"
    case OchpTimeout => "ochp_timeout"
  }

  datatype DebugLevel = AllLevels | Levels(mask: nat)

  /** The highest debug verbosity. */
  const Most := 2

  datatype DateFormat = Us | Euro | Iso8601 | StrictIso8601
  datatype InterCheckDelay = IcdNone | IcdDumb | IcdSmart | IcdUser
  datatype Interleave = IlfSmart | IlfUser

  const MaxUserMacros := 256

  /**
   * The state a configuration file is read into: the reading position
   * (`_filename`, `_cur_line`), the seconds flag of command_check_interval,
   * the modelled settings, the `$USERn$` macros, the resource files and
   * broker modules seen, and the warnings logged. `others` keeps, by key,
   * the text given to every setting whose conversion is not modelled.
   */
  datatype Config = Config(
    filename: string, curLine: nat, cciIsSeconds: bool,
    checked: map<CheckedOption, nat>, debugLevel: DebugLevel, debugVerbosity: nat,
    commandCheckInterval: int, commandCheckIntervalGlobal: int, intervalLength: nat,
    dateFormat: DateFormat, serviceIcd: InterCheckDelay, serviceIcdDelay: real,
    hostIcd: InterCheckDelay, hostIcdDelay: real, interleave: Interleave, interleaveFactor: int,
    logFile: string, others: map<string, string>, macroUser: seq<Option<string>>,
    resourceFiles: seq<string>, brokerModules: seq<string>, nebModules: seq<(string, string)>,
    warnings: seq<string>)

  /** What the setters keep true: a usable interval length and one slot per user macro. */
  predicate WellFormed(c: Config)
  {
    0 < c.intervalLength < Two32 && |c.macroUser| == MaxUserMacros
  }

  /** The bounds the checking setters and clamps guarantee. */
  predicate Sane(c: Config)
  {
    && (forall o :: o in c.checked ==> c.checked[o] >= Minimum(o))
    && c.debugVerbosity <= Most
    && (c.interleave == IlfUser ==> c.interleaveFactor >= 1)
  }

  /** The state after a setter, with the message it threw, if any. */
  datatype Outcome = Outcome(config: Config, error: Option<string>)

  /** A checking setter: values below the minimum are refused and nothing is stored. */
  function SetChecked(c: Config, o: CheckedOption, v: nat): (r: Outcome)
    ensures r.error.Some? <==> v < Minimum(o)
    ensures r.error.Some? ==> r.config == c && r.error.value == OptionName(o) + ": invalid value"
    ensures r.error.None? ==> r.config == c.(checked := c.checked[o := v])
  {
    if v < Minimum(o) then Outcome(c, Some(OptionName(o) + ": invalid value"))
    else Outcome(c.(checked := c.checked[o := v]), None)
  }

  /** `set_debug_level`: UINT_MAX selects every level. */
  function SetDebugLevel(c: Config, v: nat): (r: Config)
    ensures r == c.(debugLevel := r.debugLevel)
    ensures r.debugLevel == AllLevels <==> v == UintMax
    ensures v != UintMax ==> r.debugLevel == Levels(v)
  {
    c.(debugLevel := if v == UintMax then AllLevels else Levels(v))
  }

  /** `set_debug_verbosity`: clamped to `most`. */
  function SetDebugVerbosity(c: Config, v: nat): (r: Config)
    ensures r == c.(debugVerbosity := r.debugVerbosity)
    ensures r.debugVerbosity <= Most
    ensures v <= Most ==> r.debugVerbosity == v
    ensures v > Most ==> r.debugVerbosity == Most
  {
    c.(debugVerbosity := if v > Most then Most else v)
  }

  /**
   * `set_command_check_interval(int)`: the raw value is written first, then
   * checked; when the interval is not in seconds and not -1, the stored value
   * is multiplied by interval_length. The engine's global keeps the raw value.
   */
  function SetCommandCheckInterval(c: Config, v: int): (r: Outcome)
    ensures r.config.commandCheckIntervalGlobal == v
    ensures r.error.Some? <==> v < -1 || v == 0
    ensures r.error.Some? ==> r.config == c.(commandCheckInterval := v, commandCheckIntervalGlobal := v)
    ensures r.error.None? && (c.cciIsSeconds || v == -1) ==>
      r.config == c.(commandCheckInterval := v, commandCheckIntervalGlobal := v)
    ensures r.error.None? && !c.cciIsSeconds && v != -1 ==>
      r.config == c.(commandCheckInterval := Scale(v, c.intervalLength), commandCheckIntervalGlobal := v)
  {
    var raw := c.(commandCheckInterval := v, commandCheckIntervalGlobal := v);
    if v < -1 || v == 0 then Outcome(raw, Some("command_check_interval: invalid value"))
    else if !c.cciIsSeconds && v != -1 then Outcome(raw.(commandCheckInterval := Scale(v, c.intervalLength)), None)
    else Outcome(raw, None)
  }

  /** The first position of `x` in `s`. */
  function IndexOf(s: string, x: char): (r: Option<nat>)
    ensures r.Some? ==> r.value < |s| && s[r.value] == x && forall i :: 0 <= i < r.value ==> s[i] != x
    ensures r.None? ==> forall i :: 0 <= i < |s| ==> s[i] != x
  {
    if s == [] then None
    else if s[0] == x then Some(0)
    else match IndexOf(s[1..], x)
      case None => None
      case Some(i) => Some(i + 1)
  }

  /**
   * `set_command_check_interval(string)`: an 's' at the very end marks seconds
   * and is dropped; no 's' at all marks units of interval_length; an 's'
   * elsewhere leaves the flag as it was. A value that is not a number is ignored.
   */
  function SetCommandCheckIntervalText(c: Config, text: string): (r: Outcome)
    ensures r.config == c.(cciIsSeconds := r.config.cciIsSeconds, commandCheckInterval := r.config.commandCheckInterval,
                           commandCheckIntervalGlobal := r.config.commandCheckIntervalGlobal)
  {
    var s := IndexOf(text, 's');
    var suffix := s.Some? && s.value == |text| - 1;
    var flagged := if s.None? then c.(cciIsSeconds := false)
                   else if suffix then c.(cciIsSeconds := true) else c;
    var value := if suffix then text[..|text| - 1] else text;
    match ParseI32(value)
    case None => Outcome(flagged, None)
    case Some(v) => SetCommandCheckInterval(flagged, v)
  }

  /** With a trailing 's' the number is taken as seconds, unscaled. */
  lemma CommandCheckIntervalSeconds(c: Config, n: nat)
    requires 1 <= n < Two31
    ensures SetCommandCheckIntervalText(c, NatToString(n) + "s").error.None?
    ensures SetCommandCheckIntervalText(c, NatToString(n) + "s").config.cciIsSeconds
    ensures SetCommandCheckIntervalText(c, NatToString(n) + "s").config.commandCheckInterval == n
  {
    var digits := NatToString(n);
    var text := digits + "s";
    assert forall i :: 0 <= i < |digits| ==> text[i] == digits[i] && IsDigit(text[i]);
    assert text[|digits|] == 's';
    assert IndexOf(text, 's') == Some(|text| - 1);
    assert text[..|text| - 1] == NatToString(n);
    ParseI32OfNat(n);
  }

  /** Without a unit the number counts interval lengths. */
  lemma CommandCheckIntervalUnits(c: Config, n: nat)
    requires WellFormed(c) && 1 <= n && n * c.intervalLength < Two31
    ensures SetCommandCheckIntervalText(c, NatToString(n)).error.None?
    ensures !SetCommandCheckIntervalText(c, NatToString(n)).config.cciIsSeconds
    ensures SetCommandCheckIntervalText(c, NatToString(n)).config.commandCheckInterval == n * c.intervalLength
  {
    var text := NatToString(n);
    assert IndexOf(text, 's').None?;
    assert n < Two31 by {
      assert n * c.intervalLength >= n * 1;
    }
    ParseI32OfNat(n);
    ScaleExact(n, c.intervalLength);
  }

  /**
   * `set_interval_length`: 0 is refused. A command_check_interval counted in
   * interval lengths is divided by the old length and multiplied by the new one.
   */
  function SetIntervalLength(c: Config, v: nat): (r: Outcome)
    requires WellFormed(c) && v < Two32
    ensures r.error.Some? <==> v == 0
    ensures r.error.Some? ==> r.config == c
    ensures r.error.None? ==> WellFormed(r.config) && r.config.intervalLength == v
    ensures r.error.None? && (c.cciIsSeconds || c.commandCheckInterval == -1) ==> r.config == c.(intervalLength := v)
    ensures r.error.None? && !c.cciIsSeconds && c.commandCheckInterval != -1 ==>
      r.config == c.(intervalLength := v,
                     commandCheckInterval := Scale(Unscale(c.commandCheckInterval, c.intervalLength), v))
  {
    if v == 0 then Outcome(c, Some("interval_length: invalid value"))
    else if !c.cciIsSeconds && c.commandCheckInterval != -1 then
      Outcome(c.(intervalLength := v,
                 commandCheckInterval := Scale(Unscale(c.commandCheckInterval, c.intervalLength), v)), None)
    else Outcome(c.(intervalLength := v), None)
  }

  /** Changing the interval length keeps a command check interval given in interval lengths. */
  lemma IntervalLengthRescales(c: Config, n: nat, length: nat)
    requires WellFormed(c) && !c.cciIsSeconds
    requires 1 <= n && n * c.intervalLength < Two31 && 0 < length && n * length < Two31
    ensures SetCommandCheckInterval(c, n).error.None?
    ensures SetIntervalLength(SetCommandCheckInterval(c, n).config, length).error.None?
    ensures SetIntervalLength(SetCommandCheckInterval(c, n).config, length).config.commandCheckInterval == n * length
  {
    ScaleExact(n, c.intervalLength);
    UnscaleScaled(n, c.intervalLength);
    ScaleExact(n, length);
  }

  /** `set_date_format(string)`: three names are recognised, anything else means us. */
  function DateFormatOf(text: string): (f: DateFormat)
    ensures f == Euro <==> text == "euro"
    ensures f == Iso8601 <==> text == "iso8601"
    ensures f == StrictIso8601 <==> text == "strict-iso8601"
  {
    if text == "euro" then Euro
    else if text == "iso8601" then Iso8601
    else if text == "strict-iso8601" then StrictIso8601
    else Us
  }

  function DateFormatName(f: DateFormat): string
  {
    match f
    case Us => "us"
    case Euro => "euro"
    case Iso8601 => "iso8601"
    case StrictIso8601 => "strict-iso8601"
  }

  lemma DateFormatRoundTrip(f: DateFormat)
    ensures DateFormatOf(DateFormatName(f)) == f
  {
  }

  /**
   * `set_{service,host}_inter_check_delay_method(string)`: "n", "d" and "s"
   * select a method; anything else selects the user method, with the text read
   * as a number (`readReal`) that must be positive. The user method is recorded
   * before the number is checked.
   */
  function SetInterCheckDelay(c: Config, service: bool, text: string, readReal: string -> Option<real>): (r: Outcome)
    ensures r.config == c.(serviceIcd := r.config.serviceIcd, serviceIcdDelay := r.config.serviceIcdDelay,
                           hostIcd := r.config.hostIcd, hostIcdDelay := r.config.hostIcdDelay)
    ensures service ==> r.config.hostIcd == c.hostIcd && r.config.hostIcdDelay == c.hostIcdDelay
    ensures !service ==> r.config.serviceIcd == c.serviceIcd && r.config.serviceIcdDelay == c.serviceIcdDelay
    ensures r.error.Some? <==> text !in {"n", "d", "s"} && (readReal(text).None? || readReal(text).value <= 0.0)
    ensures text !in {"n", "d", "s"} ==> (if service then r.config.serviceIcd else r.config.hostIcd) == IcdUser
  {
    var chosen := if text == "n" then IcdNone else if text == "d" then IcdDumb
                  else if text == "s" then IcdSmart else IcdUser;
    var delay := if chosen == IcdUser && readReal(text).Some? then Some(readReal(text).value) else None;
    var updated := if service then c.(serviceIcd := chosen, serviceIcdDelay := if delay.Some? then delay.value else c.serviceIcdDelay)
               else c.(hostIcd := chosen, hostIcdDelay := if delay.Some? then delay.value else c.hostIcdDelay);
    if chosen == IcdUser && (delay.None? || delay.value <= 0.0) then
      Outcome(updated, Some((if service then "service" else "host") + "_inter_check_delay_method: invalid value."))
    else Outcome(updated, None)
  }

  /** `set_service_interleave_factor_method(string)`: "s" is smart, anything else a factor of at least 1. */
  function SetInterleave(c: Config, text: string): (r: Config)
    ensures r == c.(interleave := r.interleave, interleaveFactor := r.interleaveFactor)
    ensures r.interleave == IlfSmart <==> text == "s"
    ensures text == "s" ==> r.interleaveFactor == c.interleaveFactor
    ensures text != "s" ==> r.interleaveFactor >= 1
    ensures text != "s" && ParseI32(text).Some? && ParseI32(text).value >= 1 ==> r.interleaveFactor == ParseI32(text).value
  {
    if text == "s" then c.(interleave := IlfSmart)
    else
      var factor := match ParseI32(text) case Some(v) => (if v >= 1 then v else 1) case None => 1;
      c.(interleave := IlfUser, interleaveFactor := factor)
  }

  /** The module path and its arguments: split at the first blank or newline. */
  function SplitModule(value: string): (r: (string, string))
    ensures forall i :: 0 <= i < |r.0| ==> r.0[i] != ' ' && r.0[i] != '\n'
    ensures r.0 == value ==> r.1 == ""
    ensures r.0 != value ==>
      && |r.0| < |value| && value == r.0 + [value[|r.0|]] + r.1
      && (value[|r.0|] == ' ' || value[|r.0|] == '\n')
  {
    if value == [] then ("", "")
    else if value[0] == ' ' || value[0] == '\n' then ("", value[1..])
    else
      var rest := SplitModule(value[1..]);
      ([value[0]] + rest.0, rest.1)
  }

  /** `_set_broker_module`: the module is loaded with its arguments and its path recorded. */
  function AddBrokerModule(c: Config, value: string): (r: Config)
    ensures r == c.(nebModules := r.nebModules, brokerModules := r.brokerModules)
    ensures r.nebModules == c.nebModules + [SplitModule(value)]
    ensures r.brokerModules == c.brokerModules + [SplitModule(value).0]
  {
    var m := SplitModule(value);
    c.(nebModules := c.nebModules + [m], brokerModules := c.brokerModules + [m.0])
  }

  // ---------------------------------------------------------------------
  // Resource files
  // ---------------------------------------------------------------------

  /**
   * What the reading depends on: the files' physical lines, a path's
   * directory and `_str2obj<double>`. The key table is `SettingOf` below.
   */
  datatype Env = Env(files: string -> Option<seq<string>>, dirOf: string -> string, readReal: string -> Option<real>)

  /** "[file:line] ", the position prefix of the messages. */
  function At(c: Config): string
  {
    "[" + c.filename + ":" + NatToString(c.curLine) + "] "
  }

  predicate StartsWith(s: string, prefix: string)
  {
    |prefix| <= |s| && s[..|prefix|] == prefix
  }

  /** A resource file named relative to the main file is looked up in the main file's directory. */
  function ResourcePath(c: Config, value: string, env: Env): (r: string)
    ensures value != [] && value[0] == '/' ==> r == value
  {
    if value != [] && value[0] == '/' then value else env.dirOf(c.filename) + "/" + value
  }

  /** The slot number written between "$USER" and the closing '$', when it is a valid one. */
  function UserMacroIndex(key: string): (r: Option<nat>)
    ensures r.Some? ==> 1 <= r.value <= MaxUserMacros
  {
    if StartsWith(key, "$USER") && key[|key| - 1] == '$' then
      assert key[4] == "$USER"[4];
      match ParseU32(key[5..|key| - 1])
      case Some(n) => if 1 <= n <= MaxUserMacros then Some(n) else None
      case None => None
    else None
  }

  /** The name of user macro n. */
  function UserMacroKey(n: nat): string
  {
    "$USER" + NatToString(n) + "$"
  }

  /** Every slot can be named. */
  lemma UserMacroIndexRoundTrip(n: nat)
    requires 1 <= n <= MaxUserMacros
    ensures UserMacroIndex(UserMacroKey(n)) == Some(n)
  {
    var key := UserMacroKey(n);
    assert key[..5] == "$USER";
    assert key[5..|key| - 1] == NatToString(n);
    ParseNatToString(n);
  }

  /** A resource-file assignment, with its key trimmed: a `$USERn$` key stores the trimmed value, any other key is warned about. */
  function ResourceEntry(c: Config, key: string, value: string): (r: Config)
    requires WellFormed(c)
    ensures WellFormed(r)
    ensures r == c.(macroUser := r.macroUser, warnings := r.warnings)
    ensures UserMacroIndex(key).Some? ==>
      r == c.(macroUser := c.macroUser[UserMacroIndex(key).value - 1 := Some(Trim(value))])
    ensures UserMacroIndex(key).None? ==> r.macroUser == c.macroUser && |r.warnings| == |c.warnings| + 1
  {
    if StartsWith(key, "$USER") && key[|key| - 1] == '$' then
      match UserMacroIndex(key)
      case Some(n) => c.(macroUser := c.macroUser[n - 1 := Some(Trim(value))])
      case None =>
        assert key[4] == "$USER"[4];
        c.(warnings := c.warnings + ["warning: " + At(c) + "bad variable name '" + key[5..|key| - 1] + "'"])
    else c.(warnings := c.warnings + ["warning: " + At(c) + "bad variable name '" + key + "'"])
  }

  /** One logical line of a resource file; only a line without '=' is an error. */
  function ResourceLine(c: Config, line: string): (r: Outcome)
    requires WellFormed(c)
    ensures WellFormed(r.config)
    ensures r.config == c.(macroUser := r.config.macroUser, warnings := r.config.warnings)
    ensures r.error.Some? <==> line != [] && line[0] != '#' && IndexOf(line, '=').None?
  {
    if line == [] || line[0] == '#' then Outcome(c, None)
    else match IndexOf(line, '=')
      case None => Outcome(c, Some(At(c) + "bad variable name: '" + line + "'"))
      case Some(pos) => Outcome(ResourceEntry(c, Trim(line[..pos]), line[pos + 1..]), None)
  }

  /** A line `key=value` whose key holds no '=' splits at the first '='. */
  lemma SplitAssignment(key: string, value: string)
    requires forall i :: 0 <= i < |key| ==> key[i] != '='
    ensures IndexOf(key + "=" + value, '=') == Some(|key|)
    ensures (key + "=" + value)[..|key|] == key
    ensures (key + "=" + value)[|key| + 1..] == value
  {
    var line := key + "=" + value;
    assert forall i :: 0 <= i < |key| ==> line[i] == key[i];
    assert line[|key|] == '=';
  }

  /** An assignment line of a resource file is its trimmed key applied to its value. */
  lemma ResourceLineSplits(c: Config, key: string, value: string)
    requires WellFormed(c) && key != [] && key[0] != '#'
    requires forall i :: 0 <= i < |key| ==> key[i] != '='
    ensures ResourceLine(c, key + "=" + value) == Outcome(ResourceEntry(c, Trim(key), value), None)
  {
    var line := key + "=" + value;
    SplitAssignment(key, value);
    assert line != [] && line[0] == key[0];
    assert ResourceLine(c, line) == Outcome(ResourceEntry(c, Trim(line[..|key|]), line[|key| + 1..]), None);
  }

  /** The parts of a user macro's name. */
  lemma UserMacroKeyParts(n: nat)
    ensures StartsWith(UserMacroKey(n), "$USER")
    ensures UserMacroKey(n)[|UserMacroKey(n)| - 1] == '$'
    ensures UserMacroKey(n)[5..|UserMacroKey(n)| - 1] == NatToString(n)
  {
    var key := UserMacroKey(n);
    assert key[..5] == "$USER";
  }

  /** A user macro's name holds no '='. */
  lemma UserMacroKeyNoEquals(n: nat)
    ensures forall i :: 0 <= i < |UserMacroKey(n)| ==> UserMacroKey(n)[i] != '='
  {
    var digits := NatToString(n);
    var key := UserMacroKey(n);
    forall i | 0 <= i < |key|
      ensures key[i] != '='
    {
      if i < 5 {
        assert key[i] == "$USER"[i];
      } else if i < 5 + |digits| {
        assert key[i] == digits[i - 5];
      }
    }
  }

  /** A `$USERn$` line stores its trimmed value in slot n - 1 and changes nothing else. */
  lemma UserMacroStored(c: Config, n: nat, value: string)
    requires WellFormed(c) && 1 <= n <= MaxUserMacros
    ensures ResourceLine(c, UserMacroKey(n) + "=" + value)
         == Outcome(c.(macroUser := c.macroUser[n - 1 := Some(Trim(value))]), None)
  {
    var key := UserMacroKey(n);
    var stored := c.(macroUser := c.macroUser[n - 1 := Some(Trim(value))]);
    calc {
      ResourceLine(c, key + "=" + value);
    == { UserMacroKeyNoEquals(n);
         assert key[0] == '$';
         ResourceLineSplits(c, key, value); }
      Outcome(ResourceEntry(c, Trim(key), value), None);
    == { assert key[0] == '$' && key[|key| - 1] == '$';
         TrimKeepsTrimmed(key); }
      Outcome(ResourceEntry(c, key, value), None);
    == { UserMacroIndexRoundTrip(n); }
      Outcome(stored, None);
    }
  }

  /** A slot number out of range only logs a warning naming that number. */
  lemma UserMacroOutOfRangeWarns(c: Config, n: nat, value: string)
    requires WellFormed(c) && (n == 0 || n > MaxUserMacros)
    ensures ResourceEntry(c, UserMacroKey(n), value)
         == c.(warnings := c.warnings + ["warning: " + At(c) + "bad variable name '" + NatToString(n) + "'"])
  {
    UserMacroKeyParts(n);
    ParseNatToString(n);
    assert UserMacroIndex(UserMacroKey(n)).None?;
  }


  /** The loop of `_parse_resource_file`, counting logical lines in `curLine`. */
  function ResourceLines(c: Config, lines: seq<string>, pos: nat): (r: Outcome)
    requires WellFormed(c)
    ensures WellFormed(r.config)
    ensures r.config == c.(macroUser := r.config.macroUser, warnings := r.config.warnings, curLine := r.config.curLine)
    decreases |lines| - pos
  {
    if pos >= |lines| then Outcome(c, None)
    else
      var next := NextLine(lines, pos);
      var r := ResourceLine(c, next.0);
      if r.error.Some? then r
      else ResourceLines(r.config.(curLine := c.curLine + 1), lines, next.1)
  }

  /**
   * `_parse_resource_file`: on success the reading position is restored and
   * the file recorded; on an error the position still names the resource file.
   */
  function ParsedResource(c: Config, value: string, env: Env): (r: Outcome)
    requires WellFormed(c)
    ensures WellFormed(r.config)
    ensures env.files(ResourcePath(c, value, env)).None? ==>
      r == Outcome(c, Some("cannot open resource file: '" + ResourcePath(c, value, env) + "'"))
    ensures env.files(ResourcePath(c, value, env)).Some? && r.error.Some? ==> r.config.filename == ResourcePath(c, value, env)
    ensures r.config == c.(macroUser := r.config.macroUser, warnings := r.config.warnings, filename := r.config.filename,
                           curLine := r.config.curLine, resourceFiles := r.config.resourceFiles)
    ensures r.error.None? ==>
      r.config == c.(macroUser := r.config.macroUser, warnings := r.config.warnings,
                     resourceFiles := c.resourceFiles + [ResourcePath(c, value, env)])
  {
    var res := ResourcePath(c, value, env);
    match env.files(res)
    case None => Outcome(c, Some("cannot open resource file: '" + res + "'"))
    case Some(lines) =>
      var r := ResourceLines(c.(filename := res, curLine := 1), lines, 0);
      if r.error.Some? then r
      else Outcome(r.config.(filename := c.filename, curLine := c.curLine,
                             resourceFiles := c.resourceFiles + [res]), None)
  }

  // ---------------------------------------------------------------------
  // The main file
  // ---------------------------------------------------------------------

  /** What a key of the main file sets. */
  datatype Setting =
    | ResourceFileSetting | LogFileSetting | BrokerModuleSetting | DebugLevelSetting | DebugVerbositySetting
    | CheckedSetting(option: CheckedOption) | IntervalLengthSetting | CommandCheckIntervalSetting
    | DateFormatSetting | InterCheckDelaySetting(service: bool) | InterleaveSetting | OtherSetting

  /** The keys whose setters are not modelled one by one. */
  const OtherKeys: set<string> := {
    "max_log_file_size", "broker_module_directory", "debug_file", "max_debug_file_size",
    "command_file", "temp_file", "temp_path", "check_result_path", "max_check_result_file_age",
    "global_host_event_handler", "global_service_event_handler", "ocsp_command", "ochp_command",
    "admin_email", "admin_pager", "use_setpgid", "use_syslog", "log_notifications",
    "log_service_retries", "log_host_retries", "log_event_handlers", "log_external_commands",
    "log_passive_checks", "log_initial_states", "retain_state_information",
    "use_retained_program_state", "use_retained_scheduling_info", "additional_freshness_latency",
    "retained_host_attribute_mask", "retained_service_attribute_mask",
    "retained_process_host_attribute_mask", "retained_process_service_attribute_mask",
    "retained_contact_host_attribute_mask", "retained_contact_service_attribute_mask",
    "obsess_over_services", "obsess_over_hosts", "translate_passive_host_checks",
    "passive_host_checks_are_soft", "use_agressive_host_checking", "use_aggressive_host_checking",
    "cached_host_check_horizon", "enable_predictive_host_dependency_checks",
    "cached_service_check_horizon", "enable_predictive_service_dependency_checks",
    "soft_state_dependencies", "log_rotation_method", "log_archive_path", "enable_event_handlers",
    "enable_notifications", "execute_service_checks", "accept_passive_service_checks",
    "execute_host_checks", "accept_passive_host_checks", "max_concurrent_checks", "sleep_time",
    "check_external_commands", "check_for_orphaned_services", "check_for_orphaned_hosts",
    "check_service_freshness", "check_host_freshness", "auto_reschedule_checks",
    "aggregate_status_updates", "process_performance_data", "enable_flap_detection",
    "enable_failure_prediction", "low_service_flap_threshold", "high_service_flap_threshold",
    "low_host_flap_threshold", "high_host_flap_threshold", "use_timezone", "p1_file",
    "event_broker_options", "illegal_object_name_chars", "illegal_macro_output_chars",
    "use_regexp_matching", "use_true_regexp_matching", "use_large_installation_tweaks",
    "enable_environment_macros", "free_child_process_memory", "child_processes_fork_twice",
    "enable_embedded_perl", "use_embedded_perl_implicitly", "external_command_buffer_slots",
    "auth_file", "bare_update_check", "check_for_updates", "comment_file", "xcddefault_comment_file",
    "daemon_dumps_core", "downtime_file", "xdddefault_downtime_file",
    "allow_empty_hostgroup_assignment", "nagios_user", "nagios_group", "lock_file", "status_file",
    "perfdata_timeout", "cfg_file", "cfg_dir", "state_retention_file", "object_cache_file",
    "precached_object_file"
  }

  /** The method table: which setting each of the known keys selects. */
  function SettingOf(key: string): (r: Option<Setting>)
    ensures key in OtherKeys ==> r.Some?
  {
    match key
    case "resource_file" => Some(ResourceFileSetting)
    case "log_file" => Some(LogFileSetting)
    case "broker_module" => Some(BrokerModuleSetting)
    case "debug_level" => Some(DebugLevelSetting)
    case "debug_verbosity" => Some(DebugVerbositySetting)
    case "max_service_check_spread" => Some(CheckedSetting(MaxServiceCheckSpread))
    case "max_host_check_spread" => Some(CheckedSetting(MaxHostCheckSpread))
    case "check_result_reaper_frequency" => Some(CheckedSetting(CheckReaperInterval))
    case "service_reaper_frequency" => Some(CheckedSetting(CheckReaperInterval))
    case "max_check_result_reaper_time" => Some(CheckedSetting(MaxCheckReaperTime))
    case "service_freshness_check_interval" => Some(CheckedSetting(ServiceFreshnessCheckInterval))
    case "host_freshness_check_interval" => Some(CheckedSetting(HostFreshnessCheckInterval))
    case "auto_rescheduling_interval" => Some(CheckedSetting(AutoReschedulingInterval))
    case "auto_rescheduling_window" => Some(CheckedSetting(AutoReschedulingWindow))
    case "status_update_interval" => Some(CheckedSetting(StatusUpdateInterval))
    case "time_change_threshold" => Some(CheckedSetting(TimeChangeThreshold))
    case "retention_update_interval" => Some(CheckedSetting(RetentionUpdateInterval))
    case "retention_scheduling_horizon" => Some(CheckedSetting(RetentionSchedulingHorizon))
    case "service_check_timeout" => Some(CheckedSetting(ServiceCheckTimeout))
    case "host_check_timeout" => Some(CheckedSetting(HostCheckTimeout))
    case "event_handler_timeout" => Some(CheckedSetting(EventHandlerTimeout))
    case "notification_timeout" => Some(CheckedSetting(NotificationTimeout))
    case "ocsp_timeout" => Some(CheckedSetting(OcspTimeout))
    case "ochp_timeout" => Some(CheckedSetting(OchpTimeout))
    case "interval_length" => Some(IntervalLengthSetting)
    case "command_check_interval" => Some(CommandCheckIntervalSetting)
    case "date_format" => Some(DateFormatSetting)
    case "service_inter_check_delay_method" => Some(InterCheckDelaySetting(true))
    case "host_inter_check_delay_method" => Some(InterCheckDelaySetting(false))
    case "service_interleave_factor" => Some(InterleaveSetting)
    case _ => if key in OtherKeys then Some(OtherSetting) else None
  }

  /**
   * The checked settings are registered under their own names, except the
   * check-result reaper pair, which the table reaches through its older
   * key names (`ReaperKeys`).
   */
  lemma CheckedKeySelectsSetter(o: CheckedOption)
    requires o != CheckReaperInterval && o != MaxCheckReaperTime
    ensures SettingOf(OptionName(o)) == Some(CheckedSetting(o))
  {
    match o
    case MaxServiceCheckSpread => assert SettingOf("max_service_check_spread") == Some(CheckedSetting(MaxServiceCheckSpread));
    case MaxHostCheckSpread => assert SettingOf("max_host_check_spread") == Some(CheckedSetting(MaxHostCheckSpread));
    case ServiceFreshnessCheckInterval => assert SettingOf("service_freshness_check_interval") == Some(CheckedSetting(ServiceFreshnessCheckInterval));
    case HostFreshnessCheckInterval => assert SettingOf("host_freshness_check_interval") == Some(CheckedSetting(HostFreshnessCheckInterval));
    case AutoReschedulingInterval => assert SettingOf("auto_rescheduling_interval") == Some(CheckedSetting(AutoReschedulingInterval));
    case AutoReschedulingWindow => assert SettingOf("auto_rescheduling_window") == Some(CheckedSetting(AutoReschedulingWindow));
    case StatusUpdateInterval => assert SettingOf("status_update_interval") == Some(CheckedSetting(StatusUpdateInterval));
    case TimeChangeThreshold => assert SettingOf("time_change_threshold") == Some(CheckedSetting(TimeChangeThreshold));
    case RetentionUpdateInterval => assert SettingOf("retention_update_interval") == Some(CheckedSetting(RetentionUpdateInterval));
    case RetentionSchedulingHorizon => assert SettingOf("retention_scheduling_horizon") == Some(CheckedSetting(RetentionSchedulingHorizon));
    case ServiceCheckTimeout => assert SettingOf("service_check_timeout") == Some(CheckedSetting(ServiceCheckTimeout));
    case HostCheckTimeout => assert SettingOf("host_check_timeout") == Some(CheckedSetting(HostCheckTimeout));
    case EventHandlerTimeout => assert SettingOf("event_handler_timeout") == Some(CheckedSetting(EventHandlerTimeout));
    case NotificationTimeout => assert SettingOf("notification_timeout") == Some(CheckedSetting(NotificationTimeout));
    case OcspTimeout => assert SettingOf("ocsp_timeout") == Some(CheckedSetting(OcspTimeout));
    case OchpTimeout => assert SettingOf("ochp_timeout") == Some(CheckedSetting(OchpTimeout));
  }

  /** The two keys of the reaper interval and the key of the reaper time. */
  lemma ReaperKeys()
    ensures SettingOf("check_result_reaper_frequency") == Some(CheckedSetting(CheckReaperInterval))
    ensures SettingOf("service_reaper_frequency") == Some(CheckedSetting(CheckReaperInterval))
    ensures SettingOf("max_check_result_reaper_time") == Some(CheckedSetting(MaxCheckReaperTime))
  {
  }

  /** The settings read as an `unsigned int`. */
  predicate NumericSetting(setting: Setting)
  {
    setting.DebugVerbositySetting? || setting.CheckedSetting? || setting.IntervalLengthSetting?
  }

  const Two64 := 0x1_0000_0000_0000_0000

  /** `static_cast<unsigned long>` of an `int`: two's complement widening to 64 bits. */
  function ToULong(v: int): (u: nat)
    requires -Two31 <= v < Two31
    ensures u < Two64
    ensures v >= 0 ==> u == v
    ensures v < 0 ==> u == Two64 + v
  {
    if v >= 0 then v else Two64 + v
  }

  /**
   * `debug_level` goes through `cpp_suck_cast<unsigned long, int>`: the text
   * is read as an `int`, then widened to `unsigned long` for
   * `set_debug_level`; a text that is not an `int` leaves the level alone.
   */
  function ApplyDebugLevel(c: Config, value: string): (r: Config)
    ensures r == c.(debugLevel := r.debugLevel)
    ensures ParseI32(value).None? ==> r == c
    ensures ParseI32(value).Some? ==> r.debugLevel == Levels(ToULong(ParseI32(value).value))
  {
    match ParseI32(value)
    case Some(v) => SetDebugLevel(c, ToULong(v))
    case None => c
  }

  /**
   * Read through an `int`, no text of the file selects every level: "-1"
   * becomes the 64-bit mask of all ones, and UINT_MAX itself is beyond `int`.
   */
  lemma DebugLevelNeverAllFromFile(c: Config, value: string)
    requires c.debugLevel != AllLevels
    ensures ApplyDebugLevel(c, value).debugLevel != AllLevels
    ensures value == "-1" ==> ApplyDebugLevel(c, value).debugLevel == Levels(Two64 - 1)
  {
    if value == "-1" {
      assert value[1..] == "1";
      assert ParseNat("1") == Some(1) by { ParseNatToString(1); }
    }
  }

  /** A numeric setter applied to its converted value. */
  function ApplyNumber(c: Config, setting: Setting, v: nat): (r: Outcome)
    requires WellFormed(c) && NumericSetting(setting) && v < Two32
    ensures WellFormed(r.config)
    ensures Sane(c) ==> Sane(r.config)
    ensures r.config.filename == c.filename && r.config.curLine == c.curLine
  {
    match setting
    case DebugVerbositySetting => Outcome(SetDebugVerbosity(c, v), None)
    case CheckedSetting(o) => SetChecked(c, o, v)
    case IntervalLengthSetting => SetIntervalLength(c, v)
  }

  /**
   * A setter applied to the trimmed value. A numeric setting whose value does
   * not convert is left as it was. `key` names the entry of `others`.
   */
  function ApplySetting(c: Config, setting: Setting, key: string, value: string, env: Env): (r: Outcome)
    requires WellFormed(c)
    ensures WellFormed(r.config)
    ensures Sane(c) ==> Sane(r.config)
    ensures r.error.None? ==> r.config.filename == c.filename && r.config.curLine == c.curLine
  {
    if NumericSetting(setting) then
      match ParseU32(value)
      case Some(v) => ApplyNumber(c, setting, v)
      case None => Outcome(c, None)
    else match setting
      case DebugLevelSetting => Outcome(ApplyDebugLevel(c, value), None)
      case ResourceFileSetting => ParsedResource(c, value, env)
      case LogFileSetting => Outcome(c.(logFile := value), None)
      case BrokerModuleSetting => Outcome(AddBrokerModule(c, value), None)
      case CommandCheckIntervalSetting => SetCommandCheckIntervalText(c, value)
      case DateFormatSetting => Outcome(c.(dateFormat := DateFormatOf(value)), None)
      case InterCheckDelaySetting(service) => SetInterCheckDelay(c, service, value, env.readReal)
      case InterleaveSetting => Outcome(SetInterleave(c, value), None)
      case OtherSetting => Outcome(c.(others := c.others[key := value]), None)
  }

  /** Keys the engine ignores although it does not know them. */
  predicate PerfdataKey(key: string)
  {
    StartsWith(key, "host_perfdata") || StartsWith(key, "service_perfdata")
  }

  /**
   * An assignment of the main file, with its key trimmed: a known key's setter
   * is applied to the trimmed value, its message prefixed with the position.
   */
  function MainEntry(c: Config, key: string, value: string, env: Env): (r: Outcome)
    requires WellFormed(c)
    ensures WellFormed(r.config)
    ensures Sane(c) ==> Sane(r.config)
    ensures r.error.None? ==> r.config.filename == c.filename && r.config.curLine == c.curLine
    ensures SettingOf(key).None? && PerfdataKey(key) ==> r == Outcome(c, None)
    ensures SettingOf(key).None? && !PerfdataKey(key) ==>
      r == Outcome(c, Some(At(c) + "unknown variable name: '" + key + "'"))
  {
    match SettingOf(key)
    case Some(s) =>
      var r := ApplySetting(c, s, key, Trim(value), env);
      if r.error.Some? then Outcome(r.config, Some(At(r.config) + r.error.value)) else r
    case None =>
      if PerfdataKey(key) then Outcome(c, None)
      else Outcome(c, Some(At(c) + "unknown variable name: '" + key + "'"))
  }

  /** One logical line of the main file. */
  function MainLine(c: Config, line: string, env: Env): (r: Outcome)
    requires WellFormed(c)
    ensures WellFormed(r.config)
    ensures Sane(c) ==> Sane(r.config)
    ensures r.error.None? ==> r.config.filename == c.filename && r.config.curLine == c.curLine
    ensures line == [] || line[0] == '#' ==> r == Outcome(c, None)
    ensures line != [] && line[0] != '#' && IndexOf(line, '=').None? ==>
      r == Outcome(c, Some(At(c) + "bad variable name: '" + line + "'"))
  {
    if line == [] || line[0] == '#' then Outcome(c, None)
    else match IndexOf(line, '=')
      case None => Outcome(c, Some(At(c) + "bad variable name: '" + line + "'"))
      case Some(pos) => MainEntry(c, Trim(line[..pos]), line[pos + 1..], env)
  }

  /** The loop of `parse`: logical lines until the first error. */
  function MainLines(c: Config, lines: seq<string>, pos: nat, env: Env): (r: Outcome)
    requires WellFormed(c)
    ensures WellFormed(r.config)
    ensures Sane(c) ==> Sane(r.config)
    ensures r.error.None? ==> r.config.filename == c.filename && r.config.curLine >= c.curLine
    decreases |lines| - pos
  {
    if pos >= |lines| then Outcome(c, None)
    else
      var next := NextLine(lines, pos);
      var r := MainLine(c, next.0, env);
      if r.error.Some? then r
      else MainLines(r.config.(curLine := r.config.curLine + 1), lines, next.1, env)
  }

  /** `parse`: reads the whole file, then requires that log_file was given. */
  function ParsedMain(c: Config, filename: string, env: Env): (r: Outcome)
    requires WellFormed(c)
    ensures WellFormed(r.config)
    ensures Sane(c) ==> Sane(r.config)
    ensures env.files(filename).None? ==> r == Outcome(c, Some("cannot open configuration file: '" + filename + "'"))
    ensures r.error.None? ==> env.files(filename).Some? && r.config.filename == filename && r.config.logFile != []
  {
    match env.files(filename)
    case None => Outcome(c, Some("cannot open configuration file: '" + filename + "'"))
    case Some(lines) =>
      var r := MainLines(c.(filename := filename, cciIsSeconds := false, curLine := 1), lines, 0, env);
      if r.error.Some? then r
      else if r.config.logFile == [] then
        Outcome(r.config, Some("log_file is not specified anywhere in '" + r.config.filename + "'"))
      else r
  }

  /** An assignment line of the main file is its trimmed key applied to its value. */
  lemma MainLineSplits(c: Config, key: string, value: string, env: Env)
    requires WellFormed(c) && key != [] && key[0] != '#'
    requires forall i :: 0 <= i < |key| ==> key[i] != '='
    ensures MainLine(c, key + "=" + value, env) == MainEntry(c, Trim(key), value, env)
  {
    var line := key + "=" + value;
    SplitAssignment(key, value);
    assert line != [] && line[0] == key[0];
    assert MainLine(c, line, env) == MainEntry(c, Trim(line[..|key|]), line[|key| + 1..], env);
  }

  /** A key that is neither known nor a perfdata key stops the parse at that line. */
  lemma UnknownKeyRejected(c: Config, key: string, value: string, env: Env)
    requires WellFormed(c) && key != [] && key[0] != '#'
    requires forall i :: 0 <= i < |key| ==> key[i] != '='
    requires SettingOf(Trim(key)).None? && !PerfdataKey(Trim(key))
    ensures MainLine(c, key + "=" + value, env) == Outcome(c, Some(At(c) + "unknown variable name: '" + Trim(key) + "'"))
  {
    MainLineSplits(c, key, value, env);
  }

  /** Unknown host_perfdata and service_perfdata keys are passed over. */
  lemma PerfdataKeySkipped(c: Config, key: string, value: string, env: Env)
    requires WellFormed(c) && key != [] && key[0] != '#'
    requires forall i :: 0 <= i < |key| ==> key[i] != '='
    requires SettingOf(Trim(key)).None? && PerfdataKey(Trim(key))
    ensures MainLine(c, key + "=" + value, env) == Outcome(c, None)
  {
    MainLineSplits(c, key, value, env);
  }

  /** A number is its own trim. */
  lemma NumberTrimmed(n: nat)
    ensures Trim(NatToString(n)) == NatToString(n)
  {
    var s := NatToString(n);
    assert IsDigit(s[0]) && IsDigit(s[|s| - 1]);
    TrimKeepsTrimmed(s);
  }

  /** A known key: its setter's message, if any, is prefixed with the position it leaves. */
  lemma MainEntryKnown(c: Config, key: string, value: string, env: Env, s: Setting)
    requires WellFormed(c) && SettingOf(key) == Some(s)
    ensures var r := ApplySetting(c, s, key, Trim(value), env);
      MainEntry(c, key, value, env) == if r.error.Some? then Outcome(r.config, Some(At(r.config) + r.error.value)) else r
  {
  }

  /** The resource_file setting reads the resource file. */
  lemma ApplyResourceFile(c: Config, key: string, value: string, env: Env)
    requires WellFormed(c)
    ensures ApplySetting(c, ResourceFileSetting, key, value, env) == ParsedResource(c, value, env)
  {
  }

  /** A checked setting given as a number is that number passed to its setter. */
  lemma ApplyCheckedNumber(c: Config, o: CheckedOption, key: string, n: nat, env: Env)
    requires WellFormed(c) && n < Two32
    ensures ApplySetting(c, CheckedSetting(o), key, NatToString(n), env) == SetChecked(c, o, n)
  {
    ParseNatToString(n);
    assert ParseU32(NatToString(n)) == Some(n);
  }

  /** A value below a checked setting's minimum is refused with the position and the setting's name. */
  lemma CheckedValueRejected(c: Config, key: string, o: CheckedOption, n: nat, env: Env)
    requires WellFormed(c) && SettingOf(key) == Some(CheckedSetting(o)) && n < Minimum(o)
    ensures MainEntry(c, key, NatToString(n), env) == Outcome(c, Some(At(c) + OptionName(o) + ": invalid value"))
  {
    var msg := OptionName(o) + ": invalid value";
    calc {
      MainEntry(c, key, NatToString(n), env);
    == { NumberTrimmed(n);
         MainEntryKnown(c, key, NatToString(n), env, CheckedSetting(o));
         ApplyCheckedNumber(c, o, key, n, env);
         assert SetChecked(c, o, n) == Outcome(c, Some(msg)); }
      Outcome(c, Some(At(c) + msg));
    == { assert At(c) + msg == At(c) + OptionName(o) + ": invalid value"; }
      Outcome(c, Some(At(c) + OptionName(o) + ": invalid value"));
    }
  }

  /** A value at or above the minimum is stored. */
  lemma CheckedValueStored(c: Config, key: string, o: CheckedOption, n: nat, env: Env)
    requires WellFormed(c) && SettingOf(key) == Some(CheckedSetting(o)) && Minimum(o) <= n < Two32
    ensures MainEntry(c, key, NatToString(n), env) == Outcome(c.(checked := c.checked[o := n]), None)
  {
    NumberTrimmed(n);
    MainEntryKnown(c, key, NatToString(n), env, CheckedSetting(o));
    ApplyCheckedNumber(c, o, key, n, env);
  }

  /**
   * A checked setting named by its own key in the main file: a value below
   * its minimum is refused, any other 32-bit value is stored.
   */
  lemma CheckedKeyLine(c: Config, o: CheckedOption, n: nat, env: Env)
    requires WellFormed(c) && o != CheckReaperInterval && o != MaxCheckReaperTime && n < Two32
    ensures n < Minimum(o) ==>
      MainEntry(c, OptionName(o), NatToString(n), env) == Outcome(c, Some(At(c) + OptionName(o) + ": invalid value"))
    ensures Minimum(o) <= n ==>
      MainEntry(c, OptionName(o), NatToString(n), env) == Outcome(c.(checked := c.checked[o := n]), None)
  {
    CheckedKeySelectsSetter(o);
    if n < Minimum(o) {
      CheckedValueRejected(c, OptionName(o), o, n, env);
    } else {
      CheckedValueStored(c, OptionName(o), o, n, env);
    }
  }

  /** Every positioned message starts with the file's name. */
  lemma AtNamesFile(c: Config, rest: string)
    ensures StartsWith(At(c) + rest, "[" + c.filename + ":")
  {
    var p := "[" + c.filename + ":";
    assert At(c) + rest == p + (NatToString(c.curLine) + "] " + rest);
  }

  /**
   * A resource file that fails after opening leaves the resource file as the
   * position, so the main file's message names the resource file.
   */
  lemma ResourceErrorNamesResourceFile(c: Config, value: string, env: Env)
    requires WellFormed(c)
    requires env.files(ResourcePath(c, Trim(value), env)).Some? && ParsedResource(c, Trim(value), env).error.Some?
    ensures MainEntry(c, "resource_file", value, env).error.Some?
    ensures StartsWith(MainEntry(c, "resource_file", value, env).error.value, "[" + ResourcePath(c, Trim(value), env) + ":")
  {
    var r := ParsedResource(c, Trim(value), env);
    MainEntryKnown(c, "resource_file", value, env, ResourceFileSetting);
    ApplyResourceFile(c, "resource_file", Trim(value), env);
    AtNamesFile(r.config, r.error.value);
  }

  // ---------------------------------------------------------------------
  // The reading loops, in place
  // ---------------------------------------------------------------------

  /** `_getline`: the loop over physical lines, proved against `NextLine`. */
  method GetLine(lines: seq<string>, pos: nat) returns (line: string, next: nat)
    ensures (line, next) == NextLine(lines, pos)
  {
    var acc := "";
    var p := pos;
    ghost var target := NextLine(lines, pos);
    assert NextLineWith(lines, p, acc, ContinuationCut) == target;
    while p < |lines|
      invariant NextLineWith(lines, p, acc, ContinuationCut) == target
      decreases |lines| - p
    {
      var buf := lines[p];
      if buf == [] {
        EmptyStep(lines, p, acc, ContinuationCut);
        return "", p + 1;
      }
      if |buf| > 1 && buf[|buf| - 2] != '\\' && buf[|buf| - 1] == '\\' {
        ContinueStep(lines, p, acc, ContinuationCut);
        acc := acc + buf[..|buf| - ContinuationCut];
        p := p + 1;
      } else {
        if buf[|buf| - 1] == '\\' {
          BackslashEndStep(lines, p, acc, ContinuationCut);
          buf := buf[..|buf| - 1];
        } else {
          FinalStep(lines, p, acc, ContinuationCut);
        }
        line := Trim(acc) + buf;
        next := p + 1;
        assert (line, next) == target;
        return;
      }
    }
    assert NextLineWith(lines, p, acc, ContinuationCut) == ("", p);
    return "", p;
  }

  /** The configuration being read, updated in place line by line. */
  class State {
    var config: Config

    ghost predicate Valid()
      reads this
    {
      WellFormed(config)
    }

    constructor(initial: Config)
      requires WellFormed(initial)
      ensures Valid() && config == initial
    {
      config := initial;
    }

    /** The line loop of `_parse_resource_file`, proved against `ResourceLines`. */
    method ReadResourceLines(lines: seq<string>) returns (error: Option<string>)
      requires Valid()
      modifies this
      ensures Valid()
      ensures Outcome(config, error) == ResourceLines(old(config), lines, 0)
    {
      var pos := 0;
      while pos < |lines|
        invariant WellFormed(config)
        invariant ResourceLines(config, lines, pos) == ResourceLines(old(config), lines, 0)
        decreases |lines| - pos
      {
        var line, next := GetLine(lines, pos);
        var r := ResourceLine(config, line);
        if r.error.Some? {
          config := r.config;
          return r.error;
        }
        config := r.config.(curLine := config.curLine + 1);
        pos := next;
      }
      error := None;
    }

    /** `_parse_resource_file`, proved against `ParsedResource`. */
    method ParseResourceFile(value: string, env: Env) returns (error: Option<string>)
      requires Valid()
      modifies this
      ensures Valid()
      ensures Outcome(config, error) == ParsedResource(old(config), value, env)
    {
      var res := ResourcePath(config, value, env);
      var found := env.files(res);
      if found.None? {
        return Some("cannot open resource file: '" + res + "'");
      }
      var savedLine := config.curLine;
      var savedFilename := config.filename;
      config := config.(filename := res, curLine := 1);
      error := ReadResourceLines(found.value);
      if error.Some? {
        return;
      }
      config := config.(filename := savedFilename, curLine := savedLine, resourceFiles := config.resourceFiles + [res]);
    }

    /** An assignment of `parse`, with its key trimmed, proved against `MainEntry`. */
    method SetEntry(key: string, value: string, env: Env) returns (error: Option<string>)
      requires Valid()
      modifies this
      ensures Valid()
      ensures Outcome(config, error) == MainEntry(old(config), key, value, env)
    {
      var setting := SettingOf(key);
      if setting.None? {
        if PerfdataKey(key) {
          return None;
        }
        return Some(At(config) + "unknown variable name: '" + key + "'");
      }
      MainEntryKnown(config, key, value, env, setting.value);
      var trimmed := Trim(value);
      if setting.value == ResourceFileSetting {
        ApplyResourceFile(config, key, trimmed, env);
        error := ParseResourceFile(trimmed, env);
      } else {
        var r := ApplySetting(config, setting.value, key, trimmed, env);
        config := r.config;
        error := r.error;
      }
      if error.Some? {
        error := Some(At(config) + error.value);
      }
    }

    /** One logical line of `parse`, proved against `MainLine`. */
    method ProcessLine(line: string, env: Env) returns (error: Option<string>)
      requires Valid()
      modifies this
      ensures Valid()
      ensures Outcome(config, error) == MainLine(old(config), line, env)
    {
      if line == [] || line[0] == '#' {
        return None;
      }
      var at := IndexOf(line, '=');
      if at.None? {
        return Some(At(config) + "bad variable name: '" + line + "'");
      }
      error := SetEntry(Trim(line[..at.value]), line[at.value + 1..], env);
    }

    /** `parse`, proved against `ParsedMain`. */
    method Parse(filename: string, env: Env) returns (error: Option<string>)
      requires Valid()
      modifies this
      ensures Valid()
      ensures Outcome(config, error) == ParsedMain(old(config), filename, env)
    {
      var found := env.files(filename);
      if found.None? {
        return Some("cannot open configuration file: '" + filename + "'");
      }
      var lines := found.value;
      config := config.(filename := filename, cciIsSeconds := false, curLine := 1);
      ghost var start := config;
      var pos := 0;
      while pos < |lines|
        invariant WellFormed(config)
        invariant MainLines(config, lines, pos, env) == MainLines(start, lines, 0, env)
        decreases |lines| - pos
      {
        var line, next := GetLine(lines, pos);
        error := ProcessLine(line, env);
        if error.Some? {
          return;
        }
        config := config.(curLine := config.curLine + 1);
        pos := next;
      }
      if config.logFile == [] {
        return Some("log_file is not specified anywhere in '" + config.filename + "'");
      }
      error := None;
    }
  }
}
