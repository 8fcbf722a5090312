/** The configuration helpers: the candle path of the exchange API, the
    whitelist of minute units, and environment lookups with defaults.
    The environment is a map from variable names to values; reading an
    unset variable gives the empty string, as the operating system does. */
module Config {
  import opened Wrappers

  datatype CandleConfig = CandleConfig(category: string, unit: int)

  datatype MovingAverageCross = MovingAverageCross(shortPeriod: int, longPeriod: int)

  datatype MovingAverageCycle = MovingAverageCycle(shortPeriod: int, mediumPeriod: int, longPeriod: int)

  datatype TradingConfig = TradingConfig(
    markets: seq<string>,
    strategy: string,
    candle: CandleConfig,
    movingAverageCross: MovingAverageCross,
    movingAverageCycle: MovingAverageCycle,
    analysisInterval: int,
    orderAmount: real)

  // ---------------------------------------------------------------------------
  // Decimal text of integers (the `%d` verb) and its parser (`strconv.Atoi`)

  predicate IsDigit(c: char) {
    '0' <= c <= '9'
  }

  predicate AllDigits(s: string) {
    forall i :: 0 <= i < |s| ==> IsDigit(s[i])
  }

  function DigitChar(d: nat): char
    requires d < 10
  {
    ('0' as int + d) as char
  }

  /** Decimal digits of a natural number, without leading zeros. */
  function FormatNat(n: nat): (s: string)
    ensures |s| > 0 && AllDigits(s)
    decreases n
  {
    if n < 10 then [DigitChar(n)] else FormatNat(n / 10) + [DigitChar(n % 10)]
  }

  /** Decimal text of an integer, with a leading '-' when it is negative. */
  function FormatInt(n: int): string {
    if n < 0 then "-" + FormatNat(-n) else FormatNat(n)
  }

  /** The value of a string of decimal digits, most significant first. */
  function DigitsValue(s: string): nat
    requires AllDigits(s)
    decreases |s|
  {
    if s == [] then 0 else DigitsValue(s[..|s| - 1]) * 10 + (s[|s| - 1] as int - '0' as int)
  }

  const MinInt64: int := -0x8000_0000_0000_0000
  const MaxInt64: int := 0x7fff_ffff_ffff_ffff

  /** `strconv.Atoi` on a 64-bit platform: an optional sign, then one or more
      decimal digits, whose value must fit in 64 bits; anything else fails. */
  function Atoi(s: string): (r: Option<int>)
    ensures r.Some? ==> MinInt64 <= r.value <= MaxInt64
    ensures r.Some? ==> |s| > 0 && (IsDigit(s[0]) || s[0] == '+' || s[0] == '-')
    ensures r.Some? ==> var digits := if IsDigit(s[0]) then s else s[1..];
                        && digits != [] && AllDigits(digits)
                        && r.value == if s[0] == '-' then -(DigitsValue(digits) as int) else DigitsValue(digits) as int
  {
    var negative := |s| > 0 && s[0] == '-';
    var digits := if |s| > 0 && (s[0] == '+' || s[0] == '-') then s[1..] else s;
    if digits == [] || !AllDigits(digits) then None
    else
      var v: int := if negative then -(DigitsValue(digits) as int) else DigitsValue(digits);
      if MinInt64 <= v <= MaxInt64 then Some(v) else None
  }

  /** Every optional sign followed by digits is accepted exactly when its
      value fits in 64 bits, with that value; with the contract of `Atoi`,
      which says every accepted text has this form, this characterises the
      parser. */
  lemma AtoiSignedDigits(sign: string, digits: string)
    requires sign == "" || sign == "+" || sign == "-"
    requires digits != [] && AllDigits(digits)
    ensures var v := if sign == "-" then -(DigitsValue(digits) as int) else DigitsValue(digits) as int;
            Atoi(sign + digits) == if MinInt64 <= v <= MaxInt64 then Some(v) else None
  {
    var s := sign + digits;
    assert |s| > 0;
    if sign != "" {
      assert s[0] == sign[0] && s[1..] == digits;
      assert (s[0] == '-') == (sign == "-");
    } else {
      assert s == digits;
      assert IsDigit(s[0]);
    }
  }

  /** Text that is not a sign and digits is refused: the empty text, a lone
      sign, a trailing letter, an underscore between digits. */
  lemma AtoiRejectsMalformed()
    ensures Atoi("") == None && Atoi("+") == None && Atoi("-") == None
    ensures Atoi("12a") == None && Atoi("1_0") == None && Atoi(" 7") == None
  {
    assert !IsDigit("12a"[2]);
    assert !IsDigit("1_0"[1]);
  }

  /** Reading back the digits of a number gives the number. */
  lemma {:induction false} DigitsValueOfFormatNat(n: nat)
    ensures DigitsValue(FormatNat(n)) == n
    decreases n
  {
    if n >= 10 {
      var s := FormatNat(n / 10) + [DigitChar(n % 10)];
      assert s[..|s| - 1] == FormatNat(n / 10);
      DigitsValueOfFormatNat(n / 10);
    }
  }

  /** `Atoi` inverts `FormatInt` on every 64-bit integer. */
  lemma AtoiFormatInt(n: int)
    requires MinInt64 <= n <= MaxInt64
    ensures Atoi(FormatInt(n)) == Some(n)
  {
    if n < 0 {
      DigitsValueOfFormatNat(-n);
      AtoiSignedDigits("-", FormatNat(-n));
    } else {
      DigitsValueOfFormatNat(n);
      AtoiSignedDigits("", FormatNat(n));
      assert "" + FormatNat(n) == FormatInt(n);
    }
  }

  // ---------------------------------------------------------------------------
  // Candle path

  const MinuteUnits: seq<int> := [1, 3, 5, 10, 15, 30, 60, 240]

  /** The minute units the exchange accepts. */
  predicate IsMinuteUnit(unit: int) {
    unit in {1, 3, 5, 10, 15, 30, 60, 240}
  }

  /** The whitelist search of the candle configuration: scans the unit list
      and stops at the first match. */
  method ValidateMinuteUnit(c: CandleConfig) returns (find: bool)
    ensures find <==> IsMinuteUnit(c.unit)
  {
    find := false;
    for i := 0 to |MinuteUnits|
      invariant c.unit !in MinuteUnits[..i]
    {
      if c.unit == MinuteUnits[i] {
        find := true;
        break;
      }
    }
    assert MinuteUnits[..|MinuteUnits|] == MinuteUnits;
  }

  /** The API path for candles: minutes need a whitelisted unit, which is
      appended; every other category is used as it is and ignores the unit. */
  function BuildAPIPath(c: CandleConfig): (path: string)
    ensures c.category == "minutes" && IsMinuteUnit(c.unit) ==>
              path == "/candles/minutes/" + FormatInt(c.unit)
    ensures c.category != "minutes" ==> path == "/candles/" + c.category
    ensures path == "" <==> c.category == "minutes" && !IsMinuteUnit(c.unit)
  {
    if c.category == "minutes" then
      if !IsMinuteUnit(c.unit) then "" else "/candles/" + c.category + "/" + FormatInt(c.unit)
    else
      "/candles/" + c.category
  }

  /** When two configurations give the same non-empty path: two minute
      configurations have the same unit, two other categories are the same
      category, and a minute configuration meets another category only when
      that category is "minutes/" followed by the unit. */
  lemma BuildAPIPathCollisions(a: CandleConfig, b: CandleConfig)
    requires BuildAPIPath(a) == BuildAPIPath(b) != ""
    ensures a.category == "minutes" && b.category == "minutes" ==> a.unit == b.unit
    ensures a.category != "minutes" && b.category != "minutes" ==> a.category == b.category
    ensures a.category == "minutes" && b.category != "minutes" ==> b.category == "minutes/" + FormatInt(a.unit)
    ensures a.category != "minutes" && b.category == "minutes" ==> a.category == "minutes/" + FormatInt(b.unit)
  {
    var p := BuildAPIPath(a);
    var n := |"/candles/"|;
    if a.category == "minutes" && b.category == "minutes" {
      var m := |"/candles/minutes/"|;
      assert FormatInt(a.unit) == p[m..] == FormatInt(b.unit);
      DigitsValueOfFormatNat(a.unit);
      DigitsValueOfFormatNat(b.unit);
    } else if a.category != "minutes" && b.category != "minutes" {
      assert a.category == p[n..] == b.category;
    } else if a.category == "minutes" {
      assert b.category == p[n..] == "minutes/" + FormatInt(a.unit);
    } else {
      assert a.category == p[n..] == "minutes/" + FormatInt(b.unit);
    }
  }

  /** The collision is real: a category spelled "minutes/1" asks for the
      same path as one-minute candles. */
  lemma MinutePathCollision(unit: int)
    ensures BuildAPIPath(CandleConfig("minutes", 1)) == BuildAPIPath(CandleConfig("minutes/1", unit)) != ""
  {
    assert FormatInt(1) == "1";
  }

  // ---------------------------------------------------------------------------
  // Environment

  /** What reading a variable gives: its value, or "" when it is unset. */
  function Getenv(env: map<string, string>, key: string): string {
    if key in env then env[key] else ""
  }

  /** A variable's value, or the default when it is unset or empty. */
  function GetEnvStr(env: map<string, string>, key: string, defaultValue: string): (r: string)
    ensures key in env && env[key] != "" ==> r == env[key]
    ensures key !in env || env[key] == "" ==> r == defaultValue
  {
    var value := Getenv(env, key);
    if value != "" then value else defaultValue
  }

  /** A variable's value read as a decimal integer, or the default when it is
      unset, empty or not a 64-bit decimal integer. */
  function GetEnvInt(env: map<string, string>, key: string, defaultValue: int): (r: int)
    ensures key in env && Atoi(env[key]).Some? ==> r == Atoi(env[key]).value
    ensures key !in env || Atoi(env[key]).None? ==> r == defaultValue
  {
    var value := Getenv(env, key);
    if value != "" then
      match Atoi(value)
      case None => defaultValue
      case Some(parsed) => parsed
    else defaultValue
  }

  /** A number written into the environment is read back unchanged. */
  lemma GetEnvIntRoundTrip(env: map<string, string>, key: string, n: int, defaultValue: int)
    requires MinInt64 <= n <= MaxInt64
    ensures GetEnvInt(env[key := FormatInt(n)], key, defaultValue) == n
  {
    AtoiFormatInt(n);
  }
}
