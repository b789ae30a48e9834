/**
 * The string and colour helpers of utils/utils.js: zero padding, trimming a set of
 * characters from both ends, hexadecimal channel decoding and the red-gold-green colour
 * gradient used to paint a score between 0 and 100.
 */
module Utils {
  import opened Wrappers

  // ------------------------------------------------------------------ format0d

  /** `k` copies of the character `'0'`. */
  function Zeros(k: nat): (z: string)
    ensures |z| == k && forall i :: 0 <= i < k ==> z[i] == '0'
  {
    if k == 0 then "" else Zeros(k - 1) + "0"
  }

  /** Reference padding: `s` with as many leading zeros as it lacks to reach `size`. */
  function PadZeros(s: string, size: int): (r: string)
    ensures |r| == if |s| >= size then |s| else size
    ensures r[|r| - |s|..] == s
    ensures forall i :: 0 <= i < |r| - |s| ==> r[i] == '0'
    ensures |s| >= size ==> r == s
  {
    if |s| >= size then s else Zeros(size - |s|) + s
  }

  /** Prepends `'0'` to the text of `number` until it is at least `size` characters long. */
  method Format0d(number: string, size: int) returns (s: string)
    ensures s == PadZeros(number, size)
  {
    s := number;
    while |s| < size
      invariant |s| >= |number|
      invariant s == Zeros(|s| - |number|) + number
      invariant |number| < size ==> |s| <= size
      invariant |number| >= size ==> s == number
      decreases size - |s|
    {
      s := "0" + s;
      assert "0" + Zeros(|s| - 1 - |number|) == Zeros(|s| - |number|) by {
        ZerosPrepend(|s| - 1 - |number|);
      }
    }
  }

  lemma {:induction false} ZerosPrepend(k: nat)
    ensures "0" + Zeros(k) == Zeros(k + 1)
  {
    if k > 0 {
      ZerosPrepend(k - 1);
      assert "0" + Zeros(k) == ("0" + Zeros(k - 1)) + "0";
    }
  }

  /** Padding twice to the same width is padding once. */
  lemma PadZerosIdempotent(s: string, size: int)
    ensures PadZeros(PadZeros(s, size), size) == PadZeros(s, size)
  {
  }

  // ------------------------------------------------------------- trimCharacters

  /** The length of the longest prefix of `s` made of characters of `chars`. */
  function LeadingRun(s: string, chars: set<char>): (n: nat)
    ensures n <= |s|
    ensures forall k :: 0 <= k < n ==> s[k] in chars
    ensures n < |s| ==> s[n] !in chars
  {
    if |s| > 0 && s[0] in chars then 1 + LeadingRun(s[1..], chars) else 0
  }

  /** The length of the longest suffix of `s` made of characters of `chars`. */
  function TrailingRun(s: string, chars: set<char>): (n: nat)
    ensures n <= |s|
    ensures forall k :: |s| - n <= k < |s| ==> s[k] in chars
    ensures n < |s| ==> s[|s| - n - 1] !in chars
  {
    if |s| > 0 && s[|s| - 1] in chars then 1 + TrailingRun(s[..|s| - 1], chars) else 0
  }

  /** Removes the run of characters of `chars` at the start of `str` and then the run at its
      end: the regular expression `^[chars]+|[chars]+$` replaced globally by nothing, for a
      `chars` without regular-expression metacharacters. The result is the contiguous slice
      of `str` that starts after the leading run, every character after it is in `chars`,
      and it neither starts nor ends with a character of `chars`. */
  function TrimCharacters(str: string, chars: set<char>): (r: string)
    ensures var i := LeadingRun(str, chars);
      && i + |r| <= |str|
      && r == str[i..i + |r|]
      && (forall k :: i + |r| <= k < |str| ==> str[k] in chars)
      && (|r| > 0 ==> r[0] !in chars && r[|r| - 1] !in chars)
  {
    var rest := str[LeadingRun(str, chars)..];
    rest[..|rest| - TrailingRun(rest, chars)]
  }

  /** A string is left as it is exactly when it is empty or neither of its ends is one of
      the characters to trim. */
  lemma TrimCharactersUnchangedIff(str: string, chars: set<char>)
    ensures TrimCharacters(str, chars) == str <==>
              |str| == 0 || (str[0] !in chars && str[|str| - 1] !in chars)
  {
    if |str| > 0 && str[0] !in chars && str[|str| - 1] !in chars {
      assert LeadingRun(str, chars) == 0;
      assert TrailingRun(str, chars) == 0;
    }
  }

  /** Trimming an already trimmed string changes nothing. */
  lemma TrimCharactersIdempotent(str: string, chars: set<char>)
    ensures TrimCharacters(TrimCharacters(str, chars), chars) == TrimCharacters(str, chars)
  {
    TrimCharactersUnchangedIff(TrimCharacters(str, chars), chars);
  }

  /** The result is empty exactly when every character of `str` is one to trim. */
  lemma TrimCharactersEmptyIff(str: string, chars: set<char>)
    ensures TrimCharacters(str, chars) == [] <==> forall k :: 0 <= k < |str| ==> str[k] in chars
  {
  }

  // ------------------------------------------------------------ hexadecimal

  predicate IsHexDigit(c: char) {
    '0' <= c <= '9' || 'a' <= c <= 'f' || 'A' <= c <= 'F'
  }

  predicate IsHexString(s: string) {
    forall i :: 0 <= i < |s| ==> IsHexDigit(s[i])
  }

  function HexDigitValue(c: char): (d: nat)
    requires IsHexDigit(c)
    ensures d < 16
  {
    if '0' <= c <= '9' then c as int - '0' as int
    else if 'a' <= c <= 'f' then c as int - 'a' as int + 10
    else c as int - 'A' as int + 10
  }

  /** The lower-case digit `Number.prototype.toString(16)` writes for `d`. */
  function HexDigitChar(d: nat): (c: char)
    requires d < 16
    ensures IsHexDigit(c) && HexDigitValue(c) == d
  {
    if d < 10 then ('0' as int + d) as char else ('a' as int + d - 10) as char
  }

  /** The base-16 value of a string of hexadecimal digits, which `parseInt(s, 16)` gives for a
      non-empty one; the empty string has value 0 here. */
  function HexValue(s: string): (v: nat)
    requires IsHexString(s)
    ensures v < Power16(|s|)
  {
    if |s| == 0 then 0 else HexValue(s[..|s| - 1]) * 16 + HexDigitValue(s[|s| - 1])
  }

  function Power16(k: nat): (p: nat)
    ensures p >= 1
  {
    if k == 0 then 1 else 16 * Power16(k - 1)
  }

  /** `n.toString(16)`: the lower-case hexadecimal numeral of `n`, without leading zeros. */
  function ToHex(n: nat): (s: string)
    ensures |s| >= 1 && IsHexString(s)
    ensures n < 16 <==> |s| == 1
    ensures n < 256 ==> |s| <= 2
  {
    if n < 16 then [HexDigitChar(n)] else ToHex(n / 16) + [HexDigitChar(n % 16)]
  }

  /** Parsing the numeral of `n` gives `n` back. */
  lemma {:induction false} HexValueOfToHex(n: nat)
    ensures HexValue(ToHex(n)) == n
  {
    if n >= 16 {
      HexValueOfToHex(n / 16);
      var s := ToHex(n);
      assert s[..|s| - 1] == ToHex(n / 16);
    }
  }

  // ------------------------------------------------------------ getR, getG, getB

  /** The guard `!str.length == 6` as written: `!str.length` is a boolean, which compares
      equal to 6 only if it converts to the number 6, and a boolean converts to 0 or 1. */
  function LengthGuardAsWritten(str: string): (fires: bool)
  {
    (if |str| == 0 then 1 else 0) == 6
  }

  /** The guard as written never fires, so a string of any length passes it. */
  lemma LengthGuardNeverFires(str: string)
    ensures !LengthGuardAsWritten(str)
  {
  }

  /** The counterexample: a two-character colour passes the guard that should reject it. */
  lemma ShortColourPassesGuard()
    ensures |"ff"| != 6 && !LengthGuardAsWritten("ff")
  {
  }

  /** The channel whose two hexadecimal digits start at `offset` of a six-digit colour,
      with the length guard as intended: any other length is rejected. */
  function Channel(str: string, offset: nat): (c: Result<nat>)
    requires offset <= 4 && IsHexString(str)
    ensures c.Failure? <==> |str| != 6
    ensures c.Failure? ==> c.error == "Expected string of length 6"
    ensures c.Success? ==> c.value < 256 && c.value == HexValue(str[offset..offset + 2])
    ensures c.Success? ==> c.value == 16 * HexDigitValue(str[offset]) + HexDigitValue(str[offset + 1])
  {
    if |str| != 6 then Failure("Expected string of length 6")
    else
      var pair := str[offset..offset + 2];
      assert pair[..1][..0] == [];
      Success(HexValue(pair))
  }

  /** The red channel, from the digits at positions 0 and 1. */
  function GetR(str: string): (c: Result<nat>)
    requires IsHexString(str)
    ensures c.Failure? <==> |str| != 6
    ensures c.Success? ==> c.value < 256 && c.value == 16 * HexDigitValue(str[0]) + HexDigitValue(str[1])
  {
    Channel(str, 0)
  }

  /** The green channel, from the digits at positions 2 and 3. */
  function GetG(str: string): (c: Result<nat>)
    requires IsHexString(str)
    ensures c.Failure? <==> |str| != 6
    ensures c.Success? ==> c.value < 256 && c.value == 16 * HexDigitValue(str[2]) + HexDigitValue(str[3])
  {
    Channel(str, 2)
  }

  /** The blue channel, from the digits at positions 4 and 5. */
  function GetB(str: string): (c: Result<nat>)
    requires IsHexString(str)
    ensures c.Failure? <==> |str| != 6
    ensures c.Success? ==> c.value < 256 && c.value == 16 * HexDigitValue(str[4]) + HexDigitValue(str[5])
  {
    Channel(str, 4)
  }

  // ------------------------------------------------------------ value2color

  const Bound1: string := "ff6347"
  const Bound2: string := "ffd700"
  const Bound3: string := "32cd32"

  const Value1: real := 0.0
  const Value2: real := 50.0
  const Value3: real := 100.0

  lemma BoundsAreColours()
    ensures |Bound1| == 6 && IsHexString(Bound1)
    ensures |Bound2| == 6 && IsHexString(Bound2)
    ensures |Bound3| == 6 && IsHexString(Bound3)
  {
  }

  /** `Math.round(x)`: the nearest integer, halves rounded up. */
  function Round(x: real): (n: int)
    ensures x - 0.5 < n as real <= x + 0.5
  {
    (x + 0.5).Floor
  }

  /** Two lower-case hexadecimal digits for a channel: `format0d(c.toString(16), 2)`. */
  function Hex2(c: nat): (s: string)
    requires c < 256
    ensures |s| == 2 && IsHexString(s) && HexValue(s) == c
  {
    var numeral := ToHex(c);
    HexValueOfToHex(c);
    if |numeral| == 1 then
      var padded := PadZeros(numeral, 2);
      assert padded == "0" + numeral && padded[..1] == "0";
      padded
    else
      PadZeros(numeral, 2)
  }

  /** One channel of the gradient from `from` to `to` at `value` in `[lo, hi]`:
      `from + Math.round((to - from) * (value - lo) / (hi - lo))`. It lies between the two
      end channels. */
  function Blend(from: nat, to: nat, value: real, lo: real, hi: real): (c: nat)
    requires from < 256 && to < 256
    requires lo < hi && lo <= value <= hi
    ensures c < 256
    ensures (from <= to ==> from <= c <= to) && (to <= from ==> to <= c <= from)
  {
    var d := (to - from) as real;
    var offset := Scale(d, value - lo, hi - lo);
    BlendWithin(d, value - lo, hi - lo, offset);
    from + Round(offset)
  }

  function Scale(d: real, u: real, w: real): real
    requires w > 0.0
  {
    d * u / w
  }

  /** With `0 <= u <= w`, `d * u / w` lies between 0 and `d`. */
  lemma BlendWithin(d: real, u: real, w: real, offset: real)
    requires w > 0.0 && 0.0 <= u <= w && offset == d * u / w
    ensures d >= 0.0 ==> 0.0 <= offset <= d
    ensures d <= 0.0 ==> d <= offset <= 0.0
  {
    var t := u / w;
    assert 0.0 <= t <= 1.0;
    assert offset == d * t;
    if d >= 0.0 {
      assert 0.0 <= d * t <= d * 1.0;
    } else {
      assert d * 1.0 <= d * t <= 0.0;
    }
  }

  /** The colour of `value` between the colours `lower` and `upper` placed at `lo` and `hi`. */
  function Gradient(lower: string, upper: string, value: real, lo: real, hi: real): (color: string)
    requires |lower| == 6 && IsHexString(lower) && |upper| == 6 && IsHexString(upper)
    requires lo < hi && lo <= value <= hi
    ensures |color| == 6 && IsHexString(color)
  {
    var r := Blend(GetR(lower).value, GetR(upper).value, value, lo, hi);
    var g := Blend(GetG(lower).value, GetG(upper).value, value, lo, hi);
    var b := Blend(GetB(lower).value, GetB(upper).value, value, lo, hi);
    HexConcat(Hex2(r), Hex2(g));
    HexConcat(Hex2(r) + Hex2(g), Hex2(b));
    Hex2(r) + Hex2(g) + Hex2(b)
  }

  lemma HexConcat(a: string, b: string)
    requires IsHexString(a) && IsHexString(b)
    ensures IsHexString(a + b)
  {
    var joined := a + b;
    forall i | 0 <= i < |joined| ensures IsHexDigit(joined[i]) {
      if i < |a| {
        assert joined[i] == a[i];
      } else {
        assert joined[i] == b[i - |a|];
      }
    }
  }

  /** The colour of a score: from tomato at 0 to gold at 50 (excluded), and from gold at 50
      to lime green at 100; any other value is rejected. */
  function Value2Color(value: real): (color: Result<string>)
    ensures color.Failure? <==> value < Value1 || value > Value3
    ensures color.Failure? ==> color.error == "Expected value in interval [0; 100]"
    ensures color.Success? ==> |color.value| == 6 && IsHexString(color.value)
  {
    BoundsAreColours();
    if value >= Value1 && value < Value2 then Success(Gradient(Bound1, Bound2, value, Value1, Value2))
    else if value >= Value2 && value <= Value3 then Success(Gradient(Bound2, Bound3, value, Value2, Value3))
    else Failure("Expected value in interval [0; 100]")
  }

  // ------------------------------------------------------- properties of colours

  /** Splitting a six-digit colour built from three channels gives the channels back. */
  lemma ChannelsOfHex2(r: nat, g: nat, b: nat)
    requires r < 256 && g < 256 && b < 256
    ensures var color := Hex2(r) + Hex2(g) + Hex2(b);
      && GetR(color) == Success(r) && GetG(color) == Success(g) && GetB(color) == Success(b)
  {
    var color := Hex2(r) + Hex2(g) + Hex2(b);
    assert color[0..2] == Hex2(r) && color[2..4] == Hex2(g) && color[4..6] == Hex2(b);
  }

  predicate IsLowerHexDigit(c: char) {
    '0' <= c <= '9' || 'a' <= c <= 'f'
  }

  lemma HexDigitCharOfValue(c: char)
    requires IsLowerHexDigit(c)
    ensures HexDigitChar(HexDigitValue(c)) == c
  {
  }

  /** Re-encoding a two-digit lower-case pair gives the same pair. */
  lemma Hex2OfPair(pair: string)
    requires |pair| == 2 && IsLowerHexDigit(pair[0]) && IsLowerHexDigit(pair[1])
    ensures HexValue(pair) < 256 && Hex2(HexValue(pair)) == pair
  {
    var high, low := pair[0], pair[1];
    assert pair == [high, low];
    HexValueOfPair(pair);
    if high == '0' {
      Hex2OfSingleDigit(high, low);
    } else {
      Hex2OfTwoDigits(high, low);
    }
  }

  lemma HexValueOfPair(pair: string)
    requires |pair| == 2 && IsHexString(pair)
    ensures HexValue(pair) == 16 * HexDigitValue(pair[0]) + HexDigitValue(pair[1])
  {
    assert pair[..1][..0] == [] && pair[..1][0] == pair[0];
  }

  /** A channel below 16 is written with a leading zero. */
  lemma Hex2OfSingleDigit(zero: char, c: char)
    requires zero == '0' && IsLowerHexDigit(c)
    ensures Hex2(16 * HexDigitValue(zero) + HexDigitValue(c)) == [zero, c]
  {
    HexDigitCharOfValue(c);
    assert ToHex(HexDigitValue(c)) == [c];
    assert PadZeros([c], 2) == "0" + [c];
  }

  /** A channel from 16 on is written with its two digits. */
  lemma Hex2OfTwoDigits(high: char, low: char)
    requires IsLowerHexDigit(high) && IsLowerHexDigit(low) && high != '0'
    ensures Hex2(16 * HexDigitValue(high) + HexDigitValue(low)) == [high, low]
  {
    var v := 16 * HexDigitValue(high) + HexDigitValue(low);
    ToHexOfTwoDigits(high, low);
    assert Hex2(v) == PadZeros(ToHex(v), 2);
  }

  lemma ToHexOfTwoDigits(high: char, low: char)
    requires IsLowerHexDigit(high) && IsLowerHexDigit(low) && high != '0'
    ensures ToHex(16 * HexDigitValue(high) + HexDigitValue(low)) == [high, low]
  {
    var h, l := HexDigitValue(high), HexDigitValue(low);
    HexDigitCharOfValue(high);
    HexDigitCharOfValue(low);
    DigitsOf(h, l);
    assert ToHex(h) == [high];
  }

  lemma DigitsOf(h: nat, l: nat)
    requires 1 <= h < 16 && l < 16
    ensures 16 <= 16 * h + l && (16 * h + l) / 16 == h && (16 * h + l) % 16 == l
  {
  }

  /** At the ends of its interval a channel takes the end channels' values. */
  lemma BlendAtEnds(from: nat, to: nat, lo: real, hi: real)
    requires from < 256 && to < 256 && lo < hi
    ensures Blend(from, to, lo, lo, hi) == from
    ensures Blend(from, to, hi, lo, hi) == to
  {
    var d := (to - from) as real;
    assert Scale(d, lo - lo, hi - lo) == 0.0;
    MultiplyThenDivide(d, hi - lo);
    assert Scale(d, hi - lo, hi - lo) == d;
  }

  lemma MultiplyThenDivide(d: real, w: real)
    requires w > 0.0
    ensures d * w / w == d
  {
  }

  ghost predicate IsLowerColour(color: string) {
    |color| == 6 && forall i :: 0 <= i < 6 ==> IsLowerHexDigit(color[i])
  }

  /** The gradient starts at the lower colour and ends at the upper one. */
  lemma GradientAtEnds(lower: string, upper: string, lo: real, hi: real)
    requires IsLowerColour(lower) && IsLowerColour(upper) && lo < hi
    ensures Gradient(lower, upper, lo, lo, hi) == lower
    ensures Gradient(lower, upper, hi, lo, hi) == upper
  {
    ColourOfChannels(lower);
    ColourOfChannels(upper);
    BlendAtEnds(GetR(lower).value, GetR(upper).value, lo, hi);
    BlendAtEnds(GetG(lower).value, GetG(upper).value, lo, hi);
    BlendAtEnds(GetB(lower).value, GetB(upper).value, lo, hi);
  }

  /** A lower-case colour is the encoding of its own three channels. */
  lemma ColourOfChannels(color: string)
    requires IsLowerColour(color)
    ensures IsHexString(color)
    ensures Hex2(GetR(color).value) + Hex2(GetG(color).value) + Hex2(GetB(color).value) == color
  {
    Hex2OfPair(color[0..2]);
    Hex2OfPair(color[2..4]);
    Hex2OfPair(color[4..6]);
    assert color == color[0..2] + color[2..4] + color[4..6];
  }

  /** Every channel of the gradient lies between the corresponding channels of its two end
      colours. */
  lemma GradientChannelsBetween(lower: string, upper: string, value: real, lo: real, hi: real)
    requires |lower| == 6 && IsHexString(lower) && |upper| == 6 && IsHexString(upper)
    requires lo < hi && lo <= value <= hi
    ensures ChannelsBetween(Gradient(lower, upper, value, lo, hi), lower, upper)
  {
    var r := Blend(GetR(lower).value, GetR(upper).value, value, lo, hi);
    var g := Blend(GetG(lower).value, GetG(upper).value, value, lo, hi);
    var b := Blend(GetB(lower).value, GetB(upper).value, value, lo, hi);
    ChannelsOfHex2(r, g, b);
  }

  /** `color` is a six-digit colour whose red, green and blue channels each lie between those
      of `lower` and `upper`. */
  predicate ChannelsBetween(color: string, lower: string, upper: string) {
    && |color| == 6 && IsHexString(color)
    && |lower| == 6 && IsHexString(lower)
    && |upper| == 6 && IsHexString(upper)
    && Between(GetR(color).value, GetR(lower).value, GetR(upper).value)
    && Between(GetG(color).value, GetG(lower).value, GetG(upper).value)
    && Between(GetB(color).value, GetB(lower).value, GetB(upper).value)
  }

  predicate Between(c: int, x: int, y: int) {
    (x <= y ==> x <= c <= y) && (y <= x ==> y <= c <= x)
  }

  /** The three anchor colours: tomato at 0, gold at 50 and lime green at 100. */
  lemma Value2ColorAtAnchors()
    ensures Value2Color(0.0) == Success("ff6347")
    ensures Value2Color(50.0) == Success("ffd700")
    ensures Value2Color(100.0) == Success("32cd32")
  {
    LowerColours();
    GradientAtEnds(Bound1, Bound2, Value1, Value2);
    GradientAtEnds(Bound2, Bound3, Value2, Value3);
  }

  lemma LowerColours()
    ensures IsLowerColour(Bound1) && IsLowerColour(Bound2) && IsLowerColour(Bound3)
  {
  }

  /** Below 50 the colour lies channel by channel between tomato and gold, and from 50 to
      100 between gold and lime green. */
  lemma Value2ColorChannels(value: real)
    requires Value1 <= value <= Value3
    ensures Value2Color(value).Success?
    ensures value < Value2 ==> ChannelsBetween(Value2Color(value).value, Bound1, Bound2)
    ensures value >= Value2 ==> ChannelsBetween(Value2Color(value).value, Bound2, Bound3)
  {
    BoundsAreColours();
    if value < Value2 {
      assert Value2Color(value).value == Gradient(Bound1, Bound2, value, Value1, Value2);
      GradientChannelsBetween(Bound1, Bound2, value, Value1, Value2);
    } else {
      assert Value2Color(value).value == Gradient(Bound2, Bound3, value, Value2, Value3);
      GradientChannelsBetween(Bound2, Bound3, value, Value2, Value3);
    }
  }
}
