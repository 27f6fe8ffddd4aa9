/** The default rendering strategies: the level symbol map and the default text layout. */
module Formatting {
  import opened Levels
  import opened Records

  /** `SquidLogLevelDefaultSymbol.toSymbol`: one emoji per level, nothing for `none`. */
  function DefaultSymbol(l: Level): (s: string)
    ensures s == "" <==> l == None
  {
    match l
    case Info => "\U{1F4A1}"          // light bulb
    case Debug => "\U{1F4CB}"         // clipboard
    case Warn => "\U{26A0}\U{FE0F}"   // warning sign, emoji presentation
    case Error => "\U{1F6AB}"         // no-entry sign
    case Fatal => "\U{1F494}"         // broken heart
    case None => ""
  }

  /** Distinct levels render as distinct symbols, so the symbol identifies the level. */
  lemma DefaultSymbolInjective(a: Level, b: Level)
    ensures DefaultSymbol(a) == DefaultSymbol(b) ==> a == b
  {
  }

  /** What string interpolation prints for a level: its case name. */
  function LevelName(l: Level): (s: string)
    ensures |s| > 0
  {
    match l
    case Debug => "debug"
    case Info => "info"
    case Warn => "warn"
    case Error => "error"
    case Fatal => "fatal"
    case None => "none"
  }

  lemma LevelNameInjective(a: Level, b: Level)
    ensures LevelName(a) == LevelName(b) ==> a == b
  {
  }

  predicate IsDigit(c: char) {
    '0' <= c <= '9'
  }

  predicate AllDigits(s: string) {
    forall i :: 0 <= i < |s| ==> IsDigit(s[i])
  }

  function DigitChar(d: nat): (c: char)
    requires d < 10
    ensures IsDigit(c)
  {
    ('0' as int + d) as char
  }

  /** Decimal rendering of an unsigned integer, as interpolating `params.line` does. */
  function NatToString(n: nat): (s: string)
    ensures |s| >= 1
    ensures AllDigits(s)
    ensures s[0] == '0' ==> n == 0
  {
    if n < 10 then [DigitChar(n)]
    else NatToString(n / 10) + [DigitChar(n % 10)]
  }

  /** The number a string of decimal digits denotes: the partner of `NatToString`. */
  function DecimalValue(s: string): nat
    requires AllDigits(s)
  {
    if s == [] then 0
    else DecimalValue(s[..|s| - 1]) * 10 + (s[|s| - 1] as int - '0' as int)
  }

  /** Rendering a line number and reading it back gives the same number. */
  lemma {:induction false} DecimalRoundTrip(n: nat)
    ensures DecimalValue(NatToString(n)) == n
  {
    if n >= 10 {
      var s := NatToString(n);
      assert s[..|s| - 1] == NatToString(n / 10);
      DecimalRoundTrip(n / 10);
    }
  }

  /** `SquidLogDefaultTextFormatter.format`, with the clock reading `now` and the
      file's last path component `fileName` supplied by the caller:
      `<symbol> <level> [<category>] <now> <fileName>(<line>) <function> - <payload>`. */
  function DefaultFormat(symboler: Symboler, now: string, fileName: string, r: Record): (text: string)
    ensures var head := symboler(r.level) + " " + LevelName(r.level) + " [" + r.category + "] ";
            |head| <= |text| && text[..|head|] == head
    ensures var tail := " - " + r.payload;
            |tail| <= |text| && text[|text| - |tail|..] == tail
  {
    symboler(r.level) + " " + LevelName(r.level) + " [" + r.category + "] "
    + now + " " + fileName + "(" + NatToString(r.line) + ") "
    + r.functionName + " - " + r.payload
  }
}
