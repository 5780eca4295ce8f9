/**
 * The `clicker` tool (Main/Plugins/ClickerPlugin.cs), as far as its delay
 * option goes: the pattern `^(\d+)(ms|s|m|h)$` matched without regard to
 * case, `int.Parse` of the digits, and the case-sensitive switch on the
 * suffix that builds a `TimeSpan`.
 */
module Clicker {
  import opened Wrappers
  import opened Text
  import opened Schema
  import opened Plugin

  const DelayMember := Property("Delay", StringType, true)

  const Declarations: seq<Declaration> := [
    Declaration(DelayMember, Some(OptionAttribute(false, "delay", 'd', "Click delay (Default: 10s)\nAvailable suffixes: ms, s, m, h")), None)
  ]

  const Info := PluginInfo("clicker", [], "Clicker", "Repeatedly click left mouse button", Declarations, ClickerTool)

  const DefaultDelay := "10s"

  const Defaults: map<string, SlotValue> := map["Delay" := Str(DefaultDelay)]

  method New() returns (p: Plugin)
    ensures fresh(p) && p.info == Info && p.slots == Defaults && p.calls == []
  {
    p := new Plugin(Info, Defaults);
  }

  /** Without aliases, only `clicker` in some letter case selects the tool. */
  lemma Matching(p: Plugin, cmd: string)
    requires p.info == Info
    ensures p.CommandletMatch(cmd) <==> Lower(cmd) == "clicker"
  {
    assert CanonicalName("clicker");
    CanonicalMatch(p, cmd);
  }

  /** Why a delay is refused. */
  datatype DelayError =
    | InvalidDelay          // OptionException("Invalid delay"): the pattern does not match
    | ValueOverflow         // OverflowException from int.Parse: more than 32 bits of digits
    | UnknownDelaySuffix    // OptionException("Unknown delay suffix"): the switch falls through
    | DelayOverflow         // OverflowException from TimeSpan: more ticks than a 64-bit count holds

  /** `TimeSpan` counts 100-nanosecond ticks in a signed 64-bit integer. */
  const TicksPerMillisecond: nat := 10000
  const MaxTicks: nat := 0x7FFF_FFFF_FFFF_FFFF

  /** The length of the run of ASCII digits at the start of `s`. */
  function DigitRun(s: string): (n: nat)
    ensures n <= |s| && AllDigits(s[..n])
    ensures n == |s| || !IsDigit(s[n])
  {
    if s == [] || !IsDigit(s[0]) then 0
    else
      var n := 1 + DigitRun(s[1..]);
      assert s[..n] == [s[0]] + s[1..][..n - 1];
      n
  }

  /** The four suffixes, compared without regard to case as the pattern does. */
  predicate IsUnitIgnoreCase(u: string) {
    var l := Lower(u);
    l == "ms" || l == "s" || l == "m" || l == "h"
  }

  /**
   * The pattern's two groups: the digits and the suffix as written. `$`
   * also matches just before a final newline, which the groups leave out.
   */
  function MatchDelay(s: string): (r: Option<(string, string)>)
    ensures r.Some? ==> r.value.0 != [] && AllDigits(r.value.0) && IsUnitIgnoreCase(r.value.1)
    ensures r.Some? ==> s == r.value.0 + r.value.1 || s == r.value.0 + r.value.1 + "\n"
  {
    var body := if |s| > 0 && s[|s| - 1] == '\n' then s[..|s| - 1] else s;
    var n := DigitRun(body);
    if n > 0 && IsUnitIgnoreCase(body[n..]) then
      assert body == body[..n] + body[n..];
      Some((body[..n], body[n..]))
    else None
  }

  /** The switch: milliseconds per unit, for the suffix exactly as written. */
  function UnitMilliseconds(suffix: string): Option<nat> {
    if suffix == "ms" then Some(1)
    else if suffix == "s" then Some(1000)
    else if suffix == "m" then Some(60000)
    else if suffix == "h" then Some(3600000)
    else None
  }

  /** The delay in milliseconds, or why it is refused. */
  function ParseDelay(delay: string): (r: Result<nat, DelayError>)
    ensures r.Ok? ==> r.value * TicksPerMillisecond <= MaxTicks
  {
    match MatchDelay(delay)
    case None => Err(InvalidDelay)
    case Some((digits, suffix)) =>
      var value := ParseInt32(digits);
      if !value.Parsed? then Err(ValueOverflow)
      else match UnitMilliseconds(suffix)
        case None => Err(UnknownDelaySuffix)
        case Some(scale) =>
          var ms := value.value * scale;
          if ms < 0 || ms * TicksPerMillisecond > MaxTicks then Err(DelayOverflow) else Ok(ms)
  }

  /**
   * `Run(config)` up to the click loop: the delay is parsed first, and a
   * delay that parses leads to exit code 0 once the user closes the
   * message box; the settings block is not read.
   */
  function Run(p: Plugin): (r: Result<int, DelayError>)
    reads p
    ensures r.Ok? <==> ParseDelay(p.StrSlot("Delay")).Ok?
    ensures r.Ok? ==> r.value == 0
    ensures r.Err? ==> r.error == ParseDelay(p.StrSlot("Delay")).error
  {
    var _ :- ParseDelay(p.StrSlot("Delay"));
    Ok(0)
  }

  // ---------------------------------------------------------------------
  // Properties
  // ---------------------------------------------------------------------

  /** The digits of `d + u` stop where `u` starts, when `u` starts with a non-digit. */
  lemma {:induction false} DigitRunAppend(d: string, u: string)
    requires AllDigits(d) && (u == [] || !IsDigit(u[0]))
    ensures DigitRun(d + u) == |d|
    decreases |d|
  {
    if d == [] {
      assert d + u == u;
    } else {
      assert (d + u)[0] == d[0] && (d + u)[1..] == d[1..] + u;
      DigitRunAppend(d[1..], u);
    }
  }

  /** A string of ASCII digits parses to its value, or overflows past 32 bits. */
  lemma DigitsParse(d: string)
    requires d != [] && AllDigits(d)
    ensures DigitsValue(d) <= MaxInt32 ==> ParseInt32(d) == Parsed(DigitsValue(d))
    ensures DigitsValue(d) > MaxInt32 ==> ParseInt32(d) == Overflow
  {
    assert TrimNumberWhite(d) == d;
  }

  predicate IsUnit(u: string) {
    u == "ms" || u == "s" || u == "m" || u == "h"
  }

  /** The lower-case suffixes are the units the pattern accepts. */
  lemma UnitsLower(u: string)
    requires IsUnit(u)
    ensures IsUnitIgnoreCase(u) && (u[0] == 'm' || u[0] == 's' || u[0] == 'h')
    ensures u[|u| - 1] != '\n'
  {
    assert Lower(u) == u by {
      assert forall j :: 0 <= j < |u| ==> 'a' <= u[j] <= 'z';
    }
  }

  /**
   * A number written in decimal followed by a unit (and perhaps one final
   * newline) is accepted: the delay is the number times the unit's length,
   * provided the number fits 32 bits and the delay fits a `TimeSpan`.
   */
  lemma DelayAccepted(n: nat, unit: string, newline: bool)
    requires IsUnit(unit) && n <= MaxInt32
    requires n * UnitMilliseconds(unit).value * TicksPerMillisecond <= MaxTicks
    ensures ParseDelay(NatToString(n) + unit + (if newline then "\n" else ""))
         == Ok(n * UnitMilliseconds(unit).value)
  {
    var d := NatToString(n);
    var s := d + unit + (if newline then "\n" else "");
    UnitsLower(unit);
    var body := if |s| > 0 && s[|s| - 1] == '\n' then s[..|s| - 1] else s;
    assert body == d + unit by {
      if newline {
        assert s[..|s| - 1] == d + unit;
      } else {
        assert s == d + unit;
      }
    }
    DigitRunAppend(d, unit);
    assert body[..|d|] == d && body[|d|..] == unit;
    assert MatchDelay(s) == Some((d, unit));
    NatToStringValue(n);
    DigitsParse(d);
  }

  /**
   * Conversely, every accepted delay is decimal digits (leading zeros
   * allowed) followed by a lower-case unit and perhaps one final newline,
   * and its length is the digits' value times the unit's.
   */
  lemma AcceptedDelayShape(s: string)
    requires ParseDelay(s).Ok?
    ensures exists d: string, u: string ::
              d != [] && AllDigits(d) && IsUnit(u)
              && (s == d + u || s == d + u + "\n")
              && ParseDelay(s).value == DigitsValue(d) * UnitMilliseconds(u).value
  {
    var (d, u) := MatchDelay(s).value;
    DigitsParse(d);
    assert IsUnit(u);
  }

  /** The default `10s` is ten thousand milliseconds. */
  lemma DefaultIsTenSeconds()
    ensures ParseDelay(DefaultDelay) == Ok(10000)
  {
    DelayAccepted(10, "s", false);
    assert NatToString(10) == "10";
    assert "10" + "s" + "" == DefaultDelay;
  }

  /** The pattern is anchored: `5ms` is five milliseconds, not five minutes. */
  lemma MillisecondsNotMinutes()
    ensures ParseDelay("5ms") == Ok(5)
  {
    DelayAccepted(5, "ms", false);
    assert NatToString(5) == "5";
    assert "5" + "ms" + "" == "5ms";
  }

  /**
   * A suffix the pattern accepts only because it ignores case (`S`, `MS`,
   * `Ms`, ...) passes the pattern and then fails the switch.
   */
  lemma OtherCaseSuffixRejected(n: nat, suffix: string)
    requires IsUnitIgnoreCase(suffix) && !IsUnit(suffix) && n <= MaxInt32
    ensures ParseDelay(NatToString(n) + suffix) == Err(UnknownDelaySuffix)
  {
    var d := NatToString(n);
    var s := d + suffix;
    assert |suffix| > 0 && !IsDigit(suffix[0]) by {
      var l := Lower(suffix);
      assert |l| == |suffix| && |l| > 0;
      assert l[0] == LowerChar(suffix[0]);
    }
    assert s[|s| - 1] == suffix[|suffix| - 1];
    assert suffix[|suffix| - 1] != '\n' by {
      var l := Lower(suffix);
      assert l[|l| - 1] == LowerChar(suffix[|suffix| - 1]);
    }
    DigitRunAppend(d, suffix);
    assert s[..|d|] == d && s[|d|..] == suffix;
    assert MatchDelay(s) == Some((d, suffix));
    NatToStringValue(n);
    DigitsParse(d);
  }

  /** `10S` passes the pattern and is refused by the switch. */
  lemma UpperCaseSecondsRejected()
    ensures ParseDelay("10S") == Err(UnknownDelaySuffix)
  {
    assert Lower("S") == "s";
    OtherCaseSuffixRejected(10, "S");
    assert NatToString(10) == "10";
    assert "10" + "S" == "10S";
  }

  /** Text that does not start with a digit is refused by the pattern. */
  lemma NoDigitsInvalid(s: string)
    requires s == [] || !IsDigit(s[0])
    ensures ParseDelay(s) == Err(InvalidDelay)
  {
    var body := if |s| > 0 && s[|s| - 1] == '\n' then s[..|s| - 1] else s;
    assert body == [] || body[0] == s[0];
  }

  /** Digits beyond 32 bits overflow in `int.Parse`, whatever the suffix. */
  lemma HugeValueOverflows(n: nat, unit: string)
    requires IsUnit(unit) && n > MaxInt32
    ensures ParseDelay(NatToString(n) + unit) == Err(ValueOverflow)
  {
    var d := NatToString(n);
    var s := d + unit;
    UnitsLower(unit);
    assert s[|s| - 1] == unit[|unit| - 1];
    DigitRunAppend(d, unit);
    assert s[..|d|] == d && s[|d|..] == unit;
    assert MatchDelay(s) == Some((d, unit));
    NatToStringValue(n);
    DigitsParse(d);
  }

  /** Hours overflow a `TimeSpan` from 256204779 on, although the count fits 32 bits. */
  lemma HoursOverflow(n: nat)
    requires 256204779 <= n <= MaxInt32
    ensures ParseDelay(NatToString(n) + "h") == Err(DelayOverflow)
  {
    var d := NatToString(n);
    var s := d + "h";
    UnitsLower("h");
    DigitRunAppend(d, "h");
    assert s[..|d|] == d && s[|d|..] == "h";
    assert MatchDelay(s) == Some((d, "h"));
    NatToStringValue(n);
    DigitsParse(d);
  }
}
