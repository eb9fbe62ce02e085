/**
 * The configuration registry the application reads its settings from, seen
 * as a flat map from dotted key to the scalar text the YAML document held,
 * with the typed getters the configuration code calls.
 */
module Viper {
  import opened Wrappers

  type Store = map<string, string>

  newtype uint16 = x: int | 0 <= x < 0x1_0000

  /** Largest value a 64-bit signed integer parse accepts. */
  const Int64Max: int := 0x7FFF_FFFF_FFFF_FFFF

  /** The spellings a boolean parse reads as true; everything else reads as false. */
  const TrueWords: set<string> := {"1", "t", "T", "TRUE", "true", "True"}

  /** A missing key reads as the empty string. */
  function GetString(s: Store, key: string): (r: string)
    ensures key in s ==> r == s[key]
    ensures key !in s ==> r == ""
  {
    if key in s then s[key] else ""
  }

  /** A missing key, or a value that does not parse as true, reads as false. */
  function GetBool(s: Store, key: string): (r: bool)
    ensures r <==> key in s && s[key] in TrueWords
  {
    GetString(s, key) in TrueWords
  }

  /**
   * The value of a character read as a digit in bases up to 36: '0'..'9',
   * then letters of either case from 10; any other character gets 36, which
   * no base accepts.
   */
  function DigitValue(c: char): (d: nat)
    ensures d <= 36
    ensures d < 10 <==> '0' <= c <= '9'
  {
    if '0' <= c <= '9' then c as int - '0' as int
    else if 'a' <= c <= 'z' then c as int - 'a' as int + 10
    else if 'A' <= c <= 'Z' then c as int - 'A' as int + 10
    else 36
  }

  predicate IsDigitsIn(t: string, base: nat) {
    forall i | 0 <= i < |t| :: DigitValue(t[i]) < base
  }

  /** The value of a string of digits in the given base, most significant first. */
  function DigitsValue(t: string, base: nat): nat
    requires IsDigitsIn(t, base)
    decreases |t|
  {
    if |t| == 0 then 0
    else DigitsValue(t[..|t| - 1], base) * base + DigitValue(t[|t| - 1])
  }

  /**
   * An unsigned parse with the base taken from the text: "0b", "0o" or "0x"
   * (either case) followed by at least one more character selects base 2, 8
   * or 16; any other leading '0' selects octal on the rest, so "0" is zero;
   * otherwise the text is decimal. Empty text, or a character that is not a
   * digit of the base, is a syntax error.
   */
  function ParseUnsigned(t: string): Option<nat> {
    if t == [] then None
    else
      var prefixed := t[0] == '0' && |t| >= 3;
      var (base, digits) :=
        if prefixed && (t[1] == 'b' || t[1] == 'B') then (2, t[2..])
        else if prefixed && (t[1] == 'o' || t[1] == 'O') then (8, t[2..])
        else if prefixed && (t[1] == 'x' || t[1] == 'X') then (16, t[2..])
        else if t[0] == '0' then (8, t[1..])
        else (10, t);
      if IsDigitsIn(digits, base) then Some(DigitsValue(digits, base)) else None
  }

  /**
   * A signed 64-bit parse with the base taken from the text: an optional
   * '+' or '-', then an unsigned parse of the rest; a magnitude beyond the
   * 64-bit signed range is a range error.
   */
  function ParseInt(t: string): (r: Option<int>)
    ensures r.Some? ==> -Int64Max - 1 <= r.value <= Int64Max
    ensures r.Some? && r.value < 0 ==> t != [] && t[0] == '-'
  {
    if t == [] then None
    else
      var negative := t[0] == '-';
      var rest := if t[0] == '-' || t[0] == '+' then t[1..] else t;
      match ParseUnsigned(rest)
      case None => None
      case Some(u) =>
        if !negative && u > Int64Max then None
        else if negative && u > Int64Max + 1 then None
        else
          var v: int := if negative then -(u as int) else u;
          Some(v)
  }

  /**
   * A trailing fraction of zeros is cut off before parsing. Scanning from
   * the end, a zero is skipped and remembered, a '.' after at least one zero
   * ends the text just before it, a '.' with no zero after it is skipped,
   * and any other character leaves the text as it is.
   */
  function TrimZeroDecimal(t: string): string {
    TrimFrom(t, |t|, false)
  }

  function TrimFrom(t: string, i: nat, foundZero: bool): string
    requires i <= |t|
    decreases i
  {
    if i == 0 then t
    else if t[i - 1] == '.' then (if foundZero then t[..i - 1] else TrimFrom(t, i - 1, foundZero))
    else if t[i - 1] == '0' then TrimFrom(t, i - 1, true)
    else t
  }

  /** The decimal rendering of a natural number, without leading zeros. */
  function Decimal(n: nat): string {
    if n < 10 then [('0' as int + n) as char]
    else Decimal(n / 10) + [('0' as int + n % 10) as char]
  }

  /**
   * An unsigned 16-bit read: the text, with a zero fraction trimmed, parsed
   * as a signed 64-bit integer in the base its prefix selects. A value that
   * is not negative is truncated to its low 16 bits; a negative value, a
   * parse error or a missing key reads as 0.
   */
  function GetUint16(s: Store, key: string): (r: uint16)
    ensures key !in s ==> r == 0
    ensures (ParseInt(TrimZeroDecimal(GetString(s, key))).Some? &&
             ParseInt(TrimZeroDecimal(GetString(s, key))).value >= 0) ==>
              r as int == ParseInt(TrimZeroDecimal(GetString(s, key))).value % 0x1_0000
    ensures (ParseInt(TrimZeroDecimal(GetString(s, key))).None? ||
             ParseInt(TrimZeroDecimal(GetString(s, key))).value < 0) ==> r == 0
  {
    match ParseInt(TrimZeroDecimal(GetString(s, key)))
    case Some(v) => if v >= 0 then (v % 0x1_0000) as uint16 else 0
    case None => 0
  }

  /** The text a YAML boolean stands for in the registry. */
  function BoolText(b: bool): string {
    if b then "true" else "false"
  }

  lemma GetBoolOfText(s: Store, key: string, b: bool)
    requires key in s && s[key] == BoolText(b)
    ensures GetBool(s, key) == b
  {
    assert "false" !in TrueWords;
  }

  lemma {:induction false} DecimalRoundTrip(n: nat)
    ensures |Decimal(n)| > 0
    ensures IsDigitsIn(Decimal(n), 10)
    ensures DigitsValue(Decimal(n), 10) == n
    ensures n > 0 ==> Decimal(n)[0] != '0'
  {
    if n >= 10 {
      DecimalRoundTrip(n / 10);
      var t := Decimal(n);
      assert t[..|t| - 1] == Decimal(n / 10);
      assert t[0] == Decimal(n / 10)[0];
    }
  }

  /** Text with no '.' in it is left as it is by the trim. */
  lemma {:induction false} TrimWithoutDot(t: string, i: nat, foundZero: bool)
    requires i <= |t|
    requires forall j | 0 <= j < i :: t[j] != '.'
    ensures TrimFrom(t, i, foundZero) == t
    decreases i
  {
    if i > 0 && t[i - 1] == '0' {
      TrimWithoutDot(t, i - 1, true);
    }
  }

  /** A run of zeros just before position i is skipped, and remembered. */
  lemma {:induction false} TrimOverZeros(t: string, m: nat, i: nat, foundZero: bool)
    requires m <= i <= |t|
    requires forall j | m <= j < i :: t[j] == '0'
    ensures TrimFrom(t, i, foundZero) == TrimFrom(t, m, foundZero || m < i)
    decreases i
  {
    if m < i {
      TrimOverZeros(t, m, i - 1, true);
    }
  }

  /** The trim never removes the first character of text that does not start with '.'. */
  lemma {:induction false} TrimKeepsFirst(t: string, i: nat, foundZero: bool)
    requires 0 < |t| && t[0] != '.'
    requires i <= |t|
    ensures |TrimFrom(t, i, foundZero)| > 0 && TrimFrom(t, i, foundZero)[0] == t[0]
    decreases i
  {
    if i > 0 && ((t[i - 1] == '.' && !foundZero) || t[i - 1] == '0') {
      TrimKeepsFirst(t, i - 1, t[i - 1] == '0' || foundZero);
    }
  }

  /**
   * A number written in decimal reads back as its low 16 bits, so a port
   * rendered in decimal reads back as the same port.
   */
  lemma GetUint16OfDecimal(s: Store, key: string, n: nat)
    requires key in s && s[key] == Decimal(n)
    requires n <= Int64Max
    ensures GetUint16(s, key) as int == n % 0x1_0000
    ensures n < 0x1_0000 ==> GetUint16(s, key) as int == n
  {
    var t := Decimal(n);
    DecimalRoundTrip(n);
    TrimWithoutDot(t, |t|, false);
    if n == 0 {
      assert t == "0";
      assert ParseUnsigned(t) == Some(0);
    } else {
      assert ParseUnsigned(t) == Some(n);
    }
  }

  /** A leading zero selects octal: "010" reads as 8. */
  lemma GetUint16OfOctal(s: Store, key: string, t: string)
    requires key in s && s[key] == "0" + t
    requires IsDigitsIn(t, 8) && DigitsValue(t, 8) <= Int64Max
    ensures GetUint16(s, key) as int == DigitsValue(t, 8) % 0x1_0000
  {
    var w := "0" + t;
    TrimWithoutDot(w, |w|, false);
    if t != [] {
      assert DigitValue(t[0]) < 8;
    }
    assert w[1..] == t;
    assert ParseUnsigned(w) == Some(DigitsValue(t, 8));
  }

  /** A "0x" prefix selects hexadecimal: "0x50" reads as 80. */
  lemma GetUint16OfHex(s: Store, key: string, t: string)
    requires key in s && s[key] == "0x" + t
    requires t != [] && IsDigitsIn(t, 16) && DigitsValue(t, 16) <= Int64Max
    ensures GetUint16(s, key) as int == DigitsValue(t, 16) % 0x1_0000
  {
    var w := "0x" + t;
    assert forall j | 2 <= j < |w| :: w[j] == t[j - 2];
    TrimWithoutDot(w, |w|, false);
    assert w[2..] == t;
    assert ParseUnsigned(w) == Some(DigitsValue(t, 16));
  }

  /** A leading '+' is accepted and changes nothing. */
  lemma GetUint16OfPlus(s: Store, key: string, t: string)
    requires key in s && s[key] == "+" + t
    requires t != [] ==> t[0] != '+' && t[0] != '-'
    requires forall j | 0 <= j < |t| :: t[j] != '.'
    ensures GetUint16(s, key) == GetUint16(s[key := t], key)
  {
    var w := "+" + t;
    TrimWithoutDot(w, |w|, false);
    TrimWithoutDot(t, |t|, false);
    assert w[1..] == t;
  }

  /** Anything after a '-' reads as 0: a negative port is refused. */
  lemma GetUint16OfMinus(s: Store, key: string, t: string)
    requires key in s && s[key] == "-" + t
    ensures GetUint16(s, key) == 0
  {
    TrimKeepsFirst(s[key], |s[key]|, false);
  }

  /** A fraction of zeros is cut off: "8080.0" reads as 8080. */
  lemma GetUint16OfZeroFraction(s: Store, key: string, t: string, z: string)
    requires key in s && s[key] == t + "." + z
    requires z != [] && forall j | 0 <= j < |z| :: z[j] == '0'
    requires forall j | 0 <= j < |t| :: t[j] != '.'
    ensures GetUint16(s, key) == GetUint16(s[key := t], key)
  {
    var w := t + "." + z;
    assert forall j | |t| + 1 <= j < |w| :: w[j] == z[j - |t| - 1];
    TrimOverZeros(w, |t| + 1, |w|, false);
    assert w[..|t|] == t;
    TrimWithoutDot(t, |t|, false);
  }

  /** A base prefix is honoured: "010" reads as 8 and "0x50" as 80. */
  lemma PrefixedPortSpellings(s: Store, key: string)
    ensures GetUint16(s[key := "010"], key) == 8
    ensures GetUint16(s[key := "0x50"], key) == 80
  {
    GetUint16OfOctal(s[key := "010"], key, "10");
    GetUint16OfHex(s[key := "0x50"], key, "50");
  }

  /** "+80" reads as 80 and "-80" as 0. */
  lemma SignedPortSpellings(s: Store, key: string)
    ensures GetUint16(s[key := "+80"], key) == 80
    ensures GetUint16(s[key := "-80"], key) == 0
  {
    GetUint16OfPlus(s[key := "+80"], key, "80");
    assert s[key := "+80"][key := "80"] == s[key := "80"];
    GetUint16OfDecimal(s[key := "80"], key, 80);
    GetUint16OfMinus(s[key := "-80"], key, "80");
  }

  /** "8080.0" reads as 8080, and "70000" wraps around to 4464. */
  lemma DecimalPortSpellings(s: Store, key: string)
    ensures GetUint16(s[key := "8080.0"], key) == 8080
    ensures GetUint16(s[key := "70000"], key) == 4464
  {
    GetUint16OfZeroFraction(s[key := "8080.0"], key, "8080", "0");
    assert s[key := "8080.0"][key := "8080"] == s[key := "8080"];
    GetUint16OfDecimal(s[key := "8080"], key, 8080);
    GetUint16OfDecimal(s[key := "70000"], key, 70000);
  }
}
