/**
 * String helpers used by the model: splitting on a separator (Rust's `str::split`
 * with a `char` pattern), parsing an unsigned 16-bit decimal (Rust's
 * `str::parse::<u16>`), and rendering a natural number in decimal (Rust's `Display`
 * for integers).
 */
module Text {
  import opened Wrappers

  /** Rust's `u16`. */
  newtype u16 = x: int | 0 <= x < 0x1_0000

  const U16Max: nat := 0xFFFF

  predicate IsDigit(c: char) {
    '0' <= c <= '9'
  }

  predicate AllDigits(s: string) {
    forall i :: 0 <= i < |s| ==> IsDigit(s[i])
  }

  function DigitValue(c: char): (d: nat)
    requires IsDigit(c)
    ensures d < 10
  {
    (c as int) - ('0' as int)
  }

  function DigitChar(d: nat): (c: char)
    requires d < 10
    ensures IsDigit(c) && DigitValue(c) == d
  {
    (('0' as int) + d) as char
  }

  /** The value of a digit string, most significant digit first. */
  function DigitsValue(s: string): nat
    requires AllDigits(s)
  {
    if s == [] then 0 else DigitsValue(s[..|s| - 1]) * 10 + DigitValue(s[|s| - 1])
  }

  /** The decimal rendering of `n`, without sign or leading zeros. */
  function Render(n: nat): (r: string)
    ensures 0 < |r| && AllDigits(r)
    ensures |r| > 1 ==> r[0] != '0'
    ensures DigitsValue(r) == n
    decreases n
  {
    if n < 10 then [DigitChar(n)]
    else
      var prefix := Render(n / 10);
      var r := prefix + [DigitChar(n % 10)];
      assert r[..|r| - 1] == prefix;
      r
  }

  /**
   * Rust's `str::parse::<u16>`: an optional leading `+`, then one or more ASCII
   * digits (leading zeros allowed), whose value must not exceed 65535. Anything
   * else, including the empty string, a lone `+` and a leading `-`, is an error.
   */
  function ParseU16(s: string): (r: Option<u16>)
    ensures s == [] ==> r == None
    ensures |s| > 0 && s[0] == '-' ==> r == None
    ensures r.Some? ==> exists digits :: (s == digits || s == "+" + digits) && AllDigits(digits)
                                         && digits != [] && DigitsValue(digits) == r.value as nat
  {
    var digits := if |s| > 0 && s[0] == '+' then s[1..] else s;
    if digits == [] || !AllDigits(digits) then None
    else if DigitsValue(digits) > U16Max then None
    else
      assert s == digits || s == "+" + digits;
      Some(DigitsValue(digits) as u16)
  }

  /**
   * The converse of `ParseU16`'s contract: every non-empty digit string, with or
   * without a leading `+` and leading zeros included, parses to its value when that
   * value fits in a `u16`, and is rejected otherwise.
   */
  lemma ParseDigits(digits: string)
    requires digits != [] && AllDigits(digits)
    ensures ParseU16(digits) == ParseU16("+" + digits)
    ensures ParseU16(digits) == if DigitsValue(digits) <= U16Max then Some(DigitsValue(digits) as u16) else None
  {
    assert ("+" + digits)[1..] == digits;
    assert digits[0] != '+' by { assert IsDigit(digits[0]); }
  }

  /** Parsing the rendering of a `u16` gives it back. */
  lemma ParseRender(n: u16)
    ensures ParseU16(Render(n as nat)) == Some(n)
  {
    var r := Render(n as nat);
    assert r[0] != '+' by { assert IsDigit(r[0]); }
  }

  /** An explicit `+` sign is accepted. */
  lemma ParsePlusRender(n: u16)
    ensures ParseU16("+" + Render(n as nat)) == Some(n)
  {
    var r := Render(n as nat);
    assert ("+" + r)[1..] == r;
  }

  /**
   * A value above 65535 does not parse, however it is written: with or without a
   * `+`, and with any number of leading zeros.
   */
  lemma ParseOverflow(digits: string)
    requires digits != [] && AllDigits(digits) && DigitsValue(digits) > U16Max
    ensures ParseU16(digits) == None
    ensures ParseU16("+" + digits) == None
  {
    ParseDigits(digits);
  }

  /** `n` zero digits. */
  function Zeros(n: nat): (z: string)
    ensures |z| == n
  {
    seq(n, _ => '0')
  }

  /** Leading zeros do not change the value: `0…0d` is worth what `d` is. */
  lemma {:induction false} DigitsValueLeadingZeros(zeros: nat, digits: string)
    requires AllDigits(digits)
    ensures AllDigits(Zeros(zeros) + digits)
    ensures DigitsValue(Zeros(zeros) + digits) == DigitsValue(digits)
    decreases |digits|
  {
    var z := Zeros(zeros);
    var s := z + digits;
    assert AllDigits(s) by {
      forall i | 0 <= i < |s| ensures IsDigit(s[i]) {
        if i < zeros { assert s[i] == z[i]; } else { assert s[i] == digits[i - zeros]; }
      }
    }
    if digits == [] {
      assert s == z;
      ZerosValue(zeros);
    } else {
      var d' := digits[..|digits| - 1];
      assert s[..|s| - 1] == z + d';
      DigitsValueLeadingZeros(zeros, d');
    }
  }

  /** A run of zeros is worth 0. */
  lemma {:induction false} ZerosValue(zeros: nat)
    ensures AllDigits(Zeros(zeros))
    ensures DigitsValue(Zeros(zeros)) == 0
  {
    var z := Zeros(zeros);
    if zeros > 0 {
      assert z[..zeros - 1] == Zeros(zeros - 1);
      ZerosValue(zeros - 1);
    }
  }

  /** A `u16` written with leading zeros, such as `09`, still parses to its value. */
  lemma ParseLeadingZeros(zeros: nat, n: u16)
    ensures ParseU16(Zeros(zeros) + Render(n as nat)) == Some(n)
  {
    DigitsValueLeadingZeros(zeros, Render(n as nat));
    ParseDigits(Zeros(zeros) + Render(n as nat));
  }

  /** Concatenates `parts`, with `sep` between consecutive parts. */
  function Join(parts: seq<string>, sep: char): string
  {
    if parts == [] then ""
    else if |parts| == 1 then parts[0]
    else parts[0] + [sep] + Join(parts[1..], sep)
  }

  /**
   * Rust's `s.split(sep)`: the maximal pieces of `s` between separators. There is
   * always at least one piece; the empty string gives one empty piece.
   */
  function Split(s: string, sep: char): (parts: seq<string>)
    ensures |parts| >= 1
    ensures forall i :: 0 <= i < |parts| ==> sep !in parts[i]
    ensures Join(parts, sep) == s
  {
    if s == [] then [""]
    else
      var rest := Split(s[1..], sep);
      if s[0] == sep then
        assert s == [sep] + s[1..];
        [""] + rest
      else
        var parts := [[s[0]] + rest[0]] + rest[1..];
        assert parts[1..] == rest[1..];
        assert s == [s[0]] + s[1..];
        assert forall i :: 1 <= i < |parts| ==> parts[i] == rest[i];
        parts
  }

  /** A string with no separator splits into itself. */
  lemma {:induction false} SplitNoSeparator(p: string, sep: char)
    requires sep !in p
    ensures Split(p, sep) == [p]
  {
    if p != [] {
      SplitNoSeparator(p[1..], sep);
      assert [p[0]] + p[1..] == p;
    }
  }

  /** Splitting `p + sep + t` yields `p` followed by the pieces of `t`. */
  lemma {:induction false} SplitAtFirstSeparator(p: string, sep: char, t: string)
    requires sep !in p
    ensures Split(p + [sep] + t, sep) == [p] + Split(t, sep)
  {
    var s := p + [sep] + t;
    if p == [] {
      assert s[1..] == t;
    } else {
      assert s[1..] == p[1..] + [sep] + t;
      SplitAtFirstSeparator(p[1..], sep, t);
      assert [p[0]] + p[1..] == p;
    }
  }

  /** Splitting is the inverse of joining pieces that hold no separator. */
  lemma {:induction false} SplitJoin(parts: seq<string>, sep: char)
    requires |parts| >= 1
    requires forall i :: 0 <= i < |parts| ==> sep !in parts[i]
    ensures Split(Join(parts, sep), sep) == parts
  {
    if |parts| == 1 {
      SplitNoSeparator(parts[0], sep);
    } else {
      SplitJoin(parts[1..], sep);
      SplitAtFirstSeparator(parts[0], sep, Join(parts[1..], sep));
      assert [parts[0]] + parts[1..] == parts;
    }
  }
}
