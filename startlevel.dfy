/** The start level given to every bundle the configurator installs. */
module StartLevel {
  import opened Wrappers

  const DEFAULT_START_LEVEL := 4
  const START_LEVEL_PROPERTY := "osgi.bundles.defaultStartLevel"
  const INT_MIN := -0x8000_0000
  const INT_MAX := 0x7fff_ffff

  predicate IsDigit(c: char)
  {
    '0' <= c <= '9'
  }

  predicate AllDigits(s: string)
  {
    forall i :: 0 <= i < |s| ==> IsDigit(s[i])
  }

  function DigitsValue(s: string): nat
    requires AllDigits(s)
    decreases |s|
  {
    if s == [] then 0 else DigitsValue(s[..|s| - 1]) * 10 + (s[|s| - 1] as int - '0' as int)
  }

  /**
   * `Integer.parseInt(s)` in radix 10: an optional '-' or '+', then at least
   * one digit, and a value that fits in 32 bits; None is a NumberFormatException.
   */
  function ParseInt(s: string): Option<int>
  {
    if |s| == 0 then None
    else
      var digits := if s[0] == '-' || s[0] == '+' then s[1..] else s;
      if |digits| == 0 || !AllDigits(digits) then None
      else
        var v: int := DigitsValue(digits);
        if s[0] == '-' then (if -v < INT_MIN then None else Some(-v))
        else (if v > INT_MAX then None else Some(v))
  }

  /** The decimal text of `n`, as Integer.toString writes it. */
  function Decimal(n: nat): string
    decreases n
  {
    if n < 10 then [('0' as int + n) as char] else Decimal(n / 10) + [('0' as int + n % 10) as char]
  }

  lemma {:induction false} DecimalDigits(n: nat)
    ensures |Decimal(n)| > 0 && AllDigits(Decimal(n)) && DigitsValue(Decimal(n)) == n
    decreases n
  {
    if n >= 10 {
      DecimalDigits(n / 10);
      var d := Decimal(n);
      assert d[..|d| - 1] == Decimal(n / 10);
    }
  }

  /** Integer.parseInt reads back every level Integer.toString writes. */
  lemma ParseIntDecimal(n: nat)
    requires n <= INT_MAX
    ensures ParseInt(Decimal(n)) == Some(n)
  {
    DecimalDigits(n);
  }

  /** A configured level is used exactly when it parses and is at least 1. */
  predicate IsStartLevelFor(property: Option<string>, level: int)
  {
    if property.Some? && ParseInt(property.value).Some? && ParseInt(property.value).value >= 1
    then level == ParseInt(property.value).value
    else level == DEFAULT_START_LEVEL
  }

  /**
   * The defaulting at the head of installBundles: 4 unless the property holds
   * a number of at least 1.
   */
  method DefaultStartLevel(property: Option<string>) returns (startLevel: int)
    ensures startLevel >= 1
    ensures IsStartLevelFor(property, startLevel)
  {
    startLevel := DEFAULT_START_LEVEL;
    if property.Some? {
      var parsed := ParseInt(property.value);
      if parsed.Some? {
        startLevel := parsed.value;
      } else {
        startLevel := DEFAULT_START_LEVEL;
      }
    }
    if startLevel < 1 {
      startLevel := DEFAULT_START_LEVEL;
    }
  }

  /** Any level from 1 up to Integer.MAX_VALUE, written in decimal, is taken as configured. */
  lemma ConfiguredLevelIsUsed(n: int, level: int)
    requires 1 <= n <= INT_MAX
    requires IsStartLevelFor(Some(Decimal(n)), level)
    ensures level == n
  {
    ParseIntDecimal(n);
  }

  /** Zero, negative numbers and text that is not a number fall back to 4. */
  lemma RejectedLevelsDefault(level: int)
    requires IsStartLevelFor(Some("0"), level) || IsStartLevelFor(Some("-3"), level) || IsStartLevelFor(Some("high"), level)
    ensures level == DEFAULT_START_LEVEL
  {
    assert !AllDigits("high") by { assert !IsDigit("high"[0]); }
    assert DigitsValue("3") == 3 by { assert "3"[..0] == []; }
    assert DigitsValue("0") == 0 by { assert "0"[..0] == []; }
    assert "-3"[1..] == "3";
  }
}
