/**
 * The scalar helpers of example/utils.js: `clamp`, `lint`, `mix`,
 * `smoothstep` and `strToColor`, over real numbers.  A JavaScript `NaN` is
 * modelled as `None`.
 */
module Utils {
  import opened Wrappers

  /** `clamp(x, min, max)`: the lower bound is tested first. */
  function Clamp(x: real, min: real, max: real): (r: real)
    ensures min <= max ==> min <= r <= max
    ensures min < x < max ==> r == x
    ensures r == min || r == max || r == x
    ensures x <= min ==> r == min
    ensures min < x && max <= x ==> r == max
  {
    if x <= min then min
    else if x >= max then max
    else x
  }

  /** Clamping twice is clamping once. */
  lemma ClampIdempotent(x: real, min: real, max: real)
    requires min <= max
    ensures Clamp(Clamp(x, min, max), min, max) == Clamp(x, min, max)
  {
  }

  /** With the bounds the wrong way round every value goes to one of them. */
  lemma ClampInvertedBounds(x: real, min: real, max: real)
    requires max < min
    ensures Clamp(x, min, max) == (if x <= min then min else max)
  {
  }

  /** `lint(a, b, t)`: linear interpolation from `a` (at 0) to `b` (at 1). */
  function Lint(a: real, b: real, t: real): (r: real)
    ensures t == 0.0 ==> r == a
    ensures t == 1.0 ==> r == b
    ensures a == b ==> r == a
  {
    (1.0 - t) * a + t * b
  }

  /** For `t` in [0, 1] the interpolant lies between the two ends. */
  lemma LintBetween(a: real, b: real, t: real)
    requires 0.0 <= t <= 1.0 && a <= b
    ensures a <= Lint(a, b, t) <= b
  {
    var d := b - a;
    assert Lint(a, b, t) == a + t * d;
    ScaleBetween(t, d);
  }

  /** Swapping the ends mirrors the parameter, so the bounds hold either way round. */
  lemma LintSymmetric(a: real, b: real, t: real)
    ensures Lint(a, b, t) == Lint(b, a, 1.0 - t)
  {
  }

  lemma ScaleBetween(t: real, d: real)
    requires 0.0 <= t <= 1.0 && 0.0 <= d
    ensures 0.0 <= t * d <= d
  {
    assert d - t * d == (1.0 - t) * d;
  }

  /** A QML colour value as a plain tuple of four channels. */
  datatype Rgba = Rgba(r: real, g: real, b: real, a: real)

  /** `mix(c1, c2, alpha)`: `alpha` weighs `c1`, `1 - alpha` weighs `c2`, channel by channel. */
  function Mix(c1: Rgba, c2: Rgba, alpha: real): (c: Rgba)
    ensures alpha == 1.0 ==> c == c1
    ensures alpha == 0.0 ==> c == c2
    ensures c1 == c2 ==> c == c1
  {
    Rgba(c1.r * alpha + c2.r * (1.0 - alpha),
         c1.g * alpha + c2.g * (1.0 - alpha),
         c1.b * alpha + c2.b * (1.0 - alpha),
         c1.a * alpha + c2.a * (1.0 - alpha))
  }

  /** `mix` is `lint` channel by channel, running from `c2` to `c1`. */
  lemma MixIsLint(c1: Rgba, c2: Rgba, alpha: real)
    ensures Mix(c1, c2, alpha) == Rgba(Lint(c2.r, c1.r, alpha), Lint(c2.g, c1.g, alpha),
                                       Lint(c2.b, c1.b, alpha), Lint(c2.a, c1.a, alpha))
  {
  }

  /** The cubic Hermite ramp `x * x * (3 - 2 * x)`. */
  function Ramp(x: real): real {
    x * x * (3.0 - 2.0 * x)
  }

  /**
   * `smoothstep(min, max, value)`: the position of `value` between the
   * bounds, clamped to [0, 1], through the cubic ramp.  With equal bounds the
   * division gives an infinity (so 0 or 1) or, for `value == min`, `NaN`.
   */
  function Smoothstep(min: real, max: real, value: real): (r: Option<real>)
    ensures r.None? <==> min == max && value == min
    ensures r.Some? ==> 0.0 <= r.value <= 1.0
    ensures min < max && value <= min ==> r == Some(0.0)
    ensures min < max && value >= max ==> r == Some(1.0)
  {
    if min == max then
      if value > min then Some(Ramp(1.0))
      else if value < min then Some(Ramp(0.0))
      else None
    else
      var q := (value - min) / (max - min);
      PositionOutside(min, max, value);
      var x := if q >= 1.0 then 1.0 else if q <= 0.0 then 0.0 else q;
      RampBounds(x);
      Some(Ramp(x))
  }

  /** The ramp is point-symmetric about (1/2, 1/2). */
  lemma RampSymmetric(x: real)
    ensures Ramp(x) + Ramp(1.0 - x) == 1.0
  {
    assert Ramp(1.0 - x) == (1.0 - x) * (1.0 - x) * (1.0 + 2.0 * x);
  }

  /**
   * Mirroring the value about the middle of ordered bounds mirrors the
   * result about 1/2.
   */
  lemma SmoothstepSymmetric(min: real, max: real, value: real)
    requires min < max
    ensures Smoothstep(min, max, value).value + Smoothstep(min, max, min + max - value).value == 1.0
  {
    var d := max - min;
    var q := (value - min) / d;
    var q' := (min + max - value - min) / d;
    assert q' == 1.0 - q by {
      assert min + max - value - min == d - (value - min);
      assert (d - (value - min)) / d == d / d - (value - min) / d;
      DivideSelf(d);
    }
    var x := if q >= 1.0 then 1.0 else if q <= 0.0 then 0.0 else q;
    var x' := if q' >= 1.0 then 1.0 else if q' <= 0.0 then 0.0 else q';
    assert x' == 1.0 - x;
    PositionOutside(min, max, value);
    PositionOutside(min, max, min + max - value);
    assert Smoothstep(min, max, value) == Some(Ramp(x));
    assert Smoothstep(min, max, min + max - value) == Some(Ramp(x'));
    RampSymmetric(x);
  }

  /** Half-way between ordered bounds smoothstep is exactly 1/2. */
  lemma SmoothstepMidpoint(min: real, max: real)
    requires min < max
    ensures Smoothstep(min, max, (min + max) / 2.0) == Some(0.5)
  {
    SmoothstepSymmetric(min, max, (min + max) / 2.0);
    assert min + max - (min + max) / 2.0 == (min + max) / 2.0;
  }

  /** With ordered bounds, a value outside them has a position outside (0, 1). */
  lemma PositionOutside(min: real, max: real, value: real)
    ensures min < max && value >= max ==> (value - min) / (max - min) >= 1.0
    ensures min < max && value <= min ==> (value - min) / (max - min) <= 0.0
  {
    if min < max && value >= max {
      DivideMonotone(max - min, value - min, max - min);
      DivideSelf(max - min);
    }
    if min < max && value <= min {
      DivideMonotone(value - min, 0.0, max - min);
      DivideSelf(max - min);
    }
  }

  lemma DivideSelf(d: real)
    requires d > 0.0
    ensures d / d == 1.0 && 0.0 / d == 0.0
  {
  }

  lemma RampBounds(x: real)
    requires 0.0 <= x <= 1.0
    ensures 0.0 <= Ramp(x) <= 1.0
  {
    assert 1.0 - Ramp(x) == (1.0 - x) * (1.0 - x) * (1.0 + 2.0 * x);
    MulNonNegative(1.0 - x, 1.0 - x);
    MulNonNegative((1.0 - x) * (1.0 - x), 1.0 + 2.0 * x);
    MulNonNegative(x, x);
    MulNonNegative(x * x, 3.0 - 2.0 * x);
  }

  lemma MulNonNegative(a: real, b: real)
    requires 0.0 <= a && 0.0 <= b
    ensures 0.0 <= a * b
  {
  }

  /** The ramp does not decrease on [0, 1]. */
  lemma RampMonotone(x: real, y: real)
    requires 0.0 <= x <= y <= 1.0
    ensures Ramp(x) <= Ramp(y)
  {
    var xx, xy, yy := x * x, x * y, y * y;
    var e := 3.0 * (x + y) - 2.0 * (xx + xy + yy);
    assert Ramp(y) - Ramp(x) == (y - x) * e;
    assert xx <= x by { ScaleBetween(x, x); }
    assert yy <= y by { ScaleBetween(y, y); }
    assert xy <= x by { ScaleBetween(y, x); }
    assert xy <= y by { ScaleBetween(x, y); }
    assert 0.0 <= e;
    MulNonNegative(y - x, e);
  }

  /** For `min < max`, `smoothstep` does not decrease as `value` grows. */
  lemma SmoothstepMonotone(min: real, max: real, v1: real, v2: real)
    requires min < max && v1 <= v2
    ensures Smoothstep(min, max, v1).value <= Smoothstep(min, max, v2).value
  {
    var q1 := (v1 - min) / (max - min);
    var q2 := (v2 - min) / (max - min);
    assert q1 <= q2 by { DivideMonotone(v1 - min, v2 - min, max - min); }
    var x1 := if q1 >= 1.0 then 1.0 else if q1 <= 0.0 then 0.0 else q1;
    var x2 := if q2 >= 1.0 then 1.0 else if q2 <= 0.0 then 0.0 else q2;
    RampMonotone(x1, x2);
  }

  lemma DivideMonotone(a: real, b: real, d: real)
    requires a <= b && d > 0.0
    ensures a / d <= b / d
  {
    assert b / d - a / d == (b - a) / d;
  }

  /** ECMAScript's white space and line terminators, which `parseInt` skips. */
  predicate IsJsSpace(c: char) {
    || c == '\t' || c == '\n' || c == '\r' || c == ' '
    || c == '\U{000B}' || c == '\U{000C}' || c == '\U{00A0}' || c == '\U{1680}'
    || '\U{2000}' <= c <= '\U{200A}'
    || c == '\U{2028}' || c == '\U{2029}' || c == '\U{202F}' || c == '\U{205F}'
    || c == '\U{3000}' || c == '\U{FEFF}'
  }

  function TrimStart(s: string): (t: string)
    ensures |t| <= |s| && t == s[|s| - |t|..]
    ensures |t| > 0 ==> !IsJsSpace(t[0])
    ensures forall i :: 0 <= i < |s| - |t| ==> IsJsSpace(s[i])
  {
    if |s| > 0 && IsJsSpace(s[0]) then
      var t := TrimStart(s[1..]);
      assert forall i :: 1 <= i < |s| - |t| ==> s[i] == s[1..][i - 1];
      t
    else s
  }

  predicate IsHexDigit(c: char) {
    '0' <= c <= '9' || 'a' <= c <= 'f' || 'A' <= c <= 'F'
  }

  function DigitValue(c: char): (d: nat)
    requires IsHexDigit(c)
    ensures d < 16
  {
    if '0' <= c <= '9' then c as int - '0' as int
    else if 'a' <= c <= 'f' then c as int - 'a' as int + 10
    else c as int - 'A' as int + 10
  }

  /** The number of leading hexadecimal digits. */
  function HexPrefixLength(s: string): (n: nat)
    ensures n <= |s|
    ensures forall i :: 0 <= i < n ==> IsHexDigit(s[i])
    ensures n < |s| ==> !IsHexDigit(s[n])
  {
    if |s| > 0 && IsHexDigit(s[0]) then 1 + HexPrefixLength(s[1..]) else 0
  }

  function Pow16(n: nat): (p: nat)
    ensures p >= 1
  {
    if n == 0 then 1 else 16 * Pow16(n - 1)
  }

  /** The value of a string of hexadecimal digits, most significant first. */
  function HexValue(s: string): (v: nat)
    requires forall i :: 0 <= i < |s| ==> IsHexDigit(s[i])
    ensures v < Pow16(|s|)
  {
    if |s| == 0 then 0 else 16 * HexValue(s[..|s| - 1]) + DigitValue(s[|s| - 1])
  }

  /** An optional leading `-` or `+`: whether it was `-`, and the rest. */
  function SplitSign(t: string): (r: (bool, string))
    ensures r.0 <==> |t| > 0 && t[0] == '-'
    ensures |t| > 0 && (t[0] == '-' || t[0] == '+') ==> r.1 == t[1..]
    ensures !(|t| > 0 && (t[0] == '-' || t[0] == '+')) ==> r.1 == t
  {
    if |t| > 0 && (t[0] == '-' || t[0] == '+') then (t[0] == '-', t[1..]) else (false, t)
  }

  /** An optional `0x` or `0X`, removed. */
  function StripHexPrefix(u: string): (v: string)
    ensures |u| >= 2 && u[0] == '0' && (u[1] == 'x' || u[1] == 'X') ==> v == u[2..]
    ensures !(|u| >= 2 && u[0] == '0' && (u[1] == 'x' || u[1] == 'X')) ==> v == u
  {
    if |u| >= 2 && u[0] == '0' && (u[1] == 'x' || u[1] == 'X') then u[2..] else u
  }

  /** The value of the leading hexadecimal digits, `None` when there are none. */
  function LeadingHex(v: string): (r: Option<nat>)
    ensures r.None? <==> HexPrefixLength(v) == 0
    ensures r.Some? && |v| <= 1 ==> r.value < 16
    ensures r.Some? && |v| <= 2 ==> r.value < 256
  {
    var n := HexPrefixLength(v);
    if n == 0 then None
    else
      assert Pow16(1) == 16 && Pow16(2) == 256;
      Some(HexValue(v[..n]))
  }

  /**
   * `parseInt(s, 16)`: skip leading white space, take an optional sign and
   * an optional `0x`/`0X`, then read the longest run of hexadecimal digits;
   * no digit at all gives `NaN`.
   */
  function ParseIntHex(s: string): (r: Option<int>)
    ensures |s| == 0 ==> r.None?
    // a string led by two hexadecimal digits (or one alone) is a non-negative number
    ensures |s| > 0 && IsHexDigit(s[0]) && (|s| == 1 || IsHexDigit(s[1])) ==> r.Some? && r.value >= 0
  {
    LeadingDigitsParse(s);
    var (negative, u) := SplitSign(TrimStart(s));
    match LeadingHex(StripHexPrefix(u))
    case None => None
    case Some(m) => Some(if negative then -(m as int) else m)
  }

  /** A string led by hexadecimal digits has no blank, sign or `0x` to skip. */
  lemma LeadingDigitsParse(s: string)
    ensures |s| > 0 && IsHexDigit(s[0]) && (|s| == 1 || IsHexDigit(s[1])) ==>
              TrimStart(s) == s && SplitSign(s) == (false, s) && StripHexPrefix(s) == s
              && HexPrefixLength(s) > 0
  {
    if |s| > 0 && IsHexDigit(s[0]) {
      assert !IsJsSpace(s[0]);
    }
  }

  /** `parseInt(_, 16)` of at most two characters lies in [-15, 255]: a sign leaves room for one digit. */
  lemma ParseIntHexShort(s: string)
    requires |s| <= 2
    ensures ParseIntHex(s).Some? ==> -15 <= ParseIntHex(s).value <= 255
  {
    var t := TrimStart(s);
    var (negative, u) := SplitSign(t);
    if |t| > 0 && (t[0] == '-' || t[0] == '+') {
      assert |StripHexPrefix(u)| <= 1;
    }
  }

  /** Two hexadecimal digits parse to their value. */
  lemma ParseIntHexTwoDigits(s: string)
    requires |s| == 2 && IsHexDigit(s[0]) && IsHexDigit(s[1])
    ensures ParseIntHex(s) == Some(HexValue(s))
  {
    assert !IsJsSpace(s[0]);
    assert TrimStart(s) == s;
    assert SplitSign(s).1 == s;
    assert StripHexPrefix(s) == s;
    assert HexPrefixLength(s) == 2 by {
      assert HexPrefixLength(s[1..][1..]) == 0;
    }
    assert s[..2] == s;
  }

  /** `s.substring(start, end)`: both ends clamped to [0, |s|], swapped if reversed. */
  function Substring(s: string, start: int, end: int): (t: string)
    ensures 0 <= start <= end <= |s| ==> t == s[start..end]
    ensures |t| <= |s|
    ensures |t| <= if start <= end then end - start else start - end
  {
    var a := if start < 0 then 0 else if start > |s| then |s| else start;
    var b := if end < 0 then 0 else if end > |s| then |s| else end;
    if a <= b then s[a..b] else s[b..a]
  }

  /** A colour as `strToColor` returns it: a `None` channel is `NaN`. */
  datatype ParsedColor = ParsedColor(r: Option<real>, g: Option<real>, b: Option<real>, a: real)

  /**
   * One channel: the two characters at `from`, read as hexadecimal, divided
   * by 256.  When it is a number it lies in [-15/256, 255/256].
   */
  function Channel(s: string, from: int): (c: Option<real>)
    ensures c.Some? ==> -15.0 / 256.0 <= c.value <= 255.0 / 256.0
  {
    ParseIntHexShort(Substring(s, from, from + 2));
    match ParseIntHex(Substring(s, from, from + 2))
    case None => None
    case Some(n) => Some(n as real / 256.0)
  }

  /**
   * `strToColor(s)`: `#rrggbb`, each channel over 256, alpha 1.  Whatever the
   * string, every channel that is a number lies in [-15/256, 255/256]: a sign
   * leaves room for one digit only.
   */
  function StrToColor(s: string): (c: ParsedColor)
    ensures c.a == 1.0
    ensures c.r.Some? ==> -15.0 / 256.0 <= c.r.value <= 255.0 / 256.0
    ensures c.g.Some? ==> -15.0 / 256.0 <= c.g.value <= 255.0 / 256.0
    ensures c.b.Some? ==> -15.0 / 256.0 <= c.b.value <= 255.0 / 256.0
  {
    ParsedColor(Channel(s, 1), Channel(s, 3), Channel(s, 5), 1.0)
  }

  /** The lower-case hexadecimal digit of `d`. */
  function HexDigit(d: nat): (c: char)
    requires d < 16
    ensures IsHexDigit(c) && DigitValue(c) == d
  {
    if d < 10 then ('0' as int + d) as char else ('a' as int + d - 10) as char
  }

  /** Two hexadecimal digits for a byte. */
  function Hex2(n: nat): (s: string)
    requires n < 256
    ensures |s| == 2 && IsHexDigit(s[0]) && IsHexDigit(s[1])
  {
    [HexDigit(n / 16), HexDigit(n % 16)]
  }

  /** `#rrggbb` for three bytes. */
  function FormatColor(r: nat, g: nat, b: nat): (s: string)
    requires r < 256 && g < 256 && b < 256
    ensures |s| == 7 && s[0] == '#'
  {
    "#" + Hex2(r) + Hex2(g) + Hex2(b)
  }

  lemma HexValueOfTwo(s: string)
    requires |s| == 2 && IsHexDigit(s[0]) && IsHexDigit(s[1])
    ensures HexValue(s) == 16 * DigitValue(s[0]) + DigitValue(s[1])
  {
    assert s[..1][..0] == [];
    assert s[..1] == [s[0]];
  }

  lemma Hex2Value(n: nat)
    requires n < 256
    ensures ParseIntHex(Hex2(n)) == Some(n)
  {
    var s := Hex2(n);
    ParseIntHexTwoDigits(s);
    HexValueOfTwo(s);
    assert DigitValue(s[0]) == n / 16 && DigitValue(s[1]) == n % 16;
    assert 16 * (n / 16) + n % 16 == n;
    assert HexValue(s) == n;
  }

  /** Two hexadecimal digits at `from` make a channel of their value over 256. */
  lemma ChannelOfHex2(s: string, from: int, n: nat)
    requires n < 256 && ParseIntHex(Substring(s, from, from + 2)) == Some(n)
    ensures Channel(s, from) == Some(n as real / 256.0)
  {
  }

  /**
   * A well-formed `#rrggbb` string reads back as the three bytes over 256,
   * so every channel lies in [0, 255/256].
   */
  lemma StrToColorFormatColor(r: nat, g: nat, b: nat)
    requires r < 256 && g < 256 && b < 256
    ensures StrToColor(FormatColor(r, g, b))
            == ParsedColor(Some(r as real / 256.0), Some(g as real / 256.0), Some(b as real / 256.0), 1.0)
  {
    var s := FormatColor(r, g, b);
    var rr, gg, bb := Hex2(r), Hex2(g), Hex2(b);
    assert s == "#" + rr + gg + bb;
    assert s[1..3] == rr && s[3..5] == gg && s[5..7] == bb;
    Hex2Value(r);
    Hex2Value(g);
    Hex2Value(b);
    ChannelOfHex2(s, 1, r);
    ChannelOfHex2(s, 3, g);
    ChannelOfHex2(s, 5, b);
  }
}
