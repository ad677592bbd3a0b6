/** The colour helpers at the top of the pixel-art module (src/utils/pixelArt.ts):
    `adjustColor` parses a `#rrggbb` string, shifts every channel by the same
    amount, clamps each channel to [0, 255] and formats the result again;
    `darken` and `lighten` shift by -40 and +40. */
module ColourMath {
  import opened Optional
  import Text

  const DarkenAmount: int := -40
  const LightenAmount: int := 40

  predicate IsHexDigit(c: char) {
    '0' <= c <= '9' || 'a' <= c <= 'f' || 'A' <= c <= 'F'
  }

  predicate IsLowerHexDigit(c: char) {
    '0' <= c <= '9' || 'a' <= c <= 'f'
  }

  predicate AllHexDigits(s: string) {
    forall i :: 0 <= i < |s| ==> IsHexDigit(s[i])
  }

  predicate AllLowerHexDigits(s: string) {
    forall i :: 0 <= i < |s| ==> IsLowerHexDigit(s[i])
  }

  /** A colour in the exact form `adjustColor` produces: `#` and six lower-case
      hexadecimal digits. */
  predicate IsCanonicalHex(s: string) {
    |s| == 7 && s[0] == '#' && AllLowerHexDigits(s[1..])
  }

  function DigitValue(c: char): (v: nat)
    requires IsHexDigit(c)
    ensures v < 16
  {
    if '0' <= c <= '9' then c as int - '0' as int
    else if 'a' <= c <= 'f' then c as int - 'a' as int + 10
    else c as int - 'A' as int + 10
  }

  function HexChar(n: nat): (c: char)
    requires n < 16
    ensures IsLowerHexDigit(c) && DigitValue(c) == n
  {
    if n < 10 then ('0' as int + n) as char else ('a' as int + n - 10) as char
  }

  lemma HexCharOfDigit(c: char)
    requires IsLowerHexDigit(c)
    ensures HexChar(DigitValue(c)) == c
  {
  }

  function Pow16(k: nat): (p: nat)
    ensures p >= 1
  {
    if k == 0 then 1 else 16 * Pow16(k - 1)
  }

  /** The number written by the hexadecimal digits `ds`, most significant first. */
  function DigitsValue(ds: string): (v: nat)
    requires AllHexDigits(ds)
    ensures v < Pow16(|ds|)
  {
    if |ds| == 0 then 0
    else DigitsValue(ds[..|ds| - 1]) * 16 + DigitValue(ds[|ds| - 1])
  }

  /** How many hexadecimal digits `s` starts with. */
  function HexPrefixLength(s: string): (n: nat)
    ensures n <= |s| && AllHexDigits(s[..n])
    ensures n < |s| ==> !IsHexDigit(s[n])
  {
    if |s| == 0 || !IsHexDigit(s[0]) then 0
    else
      var n := HexPrefixLength(s[1..]);
      assert s[..n + 1] == [s[0]] + s[1..][..n];
      n + 1
  }

  /** `parseInt(s, 16)`: leading whitespace is skipped, one sign is accepted, a
      `0x`/`0X` prefix is dropped, and the longest run of hexadecimal digits
      that follows is read; `None` stands for `NaN` (no digit at all). */
  function ParseIntHex(s: string): Option<int> {
    var t := Text.TrimStart(s);
    var negative := |t| > 0 && t[0] == '-';
    var u := if |t| > 0 && (t[0] == '-' || t[0] == '+') then t[1..] else t;
    var v := if |u| >= 2 && u[0] == '0' && (u[1] == 'x' || u[1] == 'X') then u[2..] else u;
    var n := HexPrefixLength(v);
    if n == 0 then None
    else
      var m := DigitsValue(v[..n]);
      Some(if negative then -(m as int) else m)
  }

  /** ECMAScript's ToInt32, the conversion every bitwise operator applies;
      `NaN` becomes 0. */
  function ToInt32(n: Option<int>): (r: int)
    ensures -0x8000_0000 <= r < 0x8000_0000
  {
    match n
    case None => 0
    case Some(v) =>
      var m := v % 0x1_0000_0000;
      if m >= 0x8000_0000 then m - 0x1_0000_0000 else m
  }

  datatype Rgb = Rgb(r: int, g: int, b: int)

  predicate InByteRange(c: Rgb) {
    0 <= c.r <= 255 && 0 <= c.g <= 255 && 0 <= c.b <= 255
  }

  /** The three channels `adjustColor` reads from its argument, before any
      shift: `num >> 16`, `(num >> 8) & 0xff` and `num & 0xff` of the parsed
      number.  Dafny's `/` and `%` by a positive constant are floor division and
      a non-negative remainder, which is what the arithmetic shift and the mask
      compute on a two's-complement 32-bit value. */
  function Channels(hex: string): Rgb {
    Split(ToInt32(ParseIntHex(if |hex| == 0 then "" else hex[1..])))
  }

  /** `num >> 16`, `(num >> 8) & 0xff`, `num & 0xff`. */
  function Split(num: int): Rgb {
    Rgb(num / 0x1_0000, (num / 0x100) % 0x100, num % 0x100)
  }

  function Pack(c: Rgb): int {
    c.r * 0x1_0000 + c.g * 0x100 + c.b
  }

  lemma DivModBy256(n: int, q: int, m: int)
    requires 0 <= m < 0x100 && n == q * 0x100 + m
    ensures n / 0x100 == q && n % 0x100 == m
  {
  }

  lemma SplitPack(c: Rgb)
    requires InByteRange(c)
    ensures 0 <= Pack(c) < 0x100_0000 && Split(Pack(c)) == c
  {
    var v := Pack(c);
    var hi := c.r * 0x100 + c.g;
    DivModBy256(v, hi, c.b);
    DivModBy256(hi, c.r, c.g);
    assert v / 0x1_0000 == hi / 0x100;
  }

  lemma PackSplit(v: int)
    requires 0 <= v < 0x100_0000
    ensures InByteRange(Split(v)) && Pack(Split(v)) == v
  {
    var hi := v / 0x100;
    assert v == hi * 0x100 + v % 0x100;
    assert hi == (hi / 0x100) * 0x100 + hi % 0x100;
    assert v / 0x1_0000 == hi / 0x100;
  }

  lemma Pow16Six()
    ensures Pow16(6) == 0x100_0000
  {
    assert Pow16(2) == 256;
    assert Pow16(4) == 65536;
  }

  /** `Math.min(255, Math.max(0, v))`. */
  function Clamp(v: int): (r: int)
    ensures 0 <= r <= 255
    ensures 0 <= v <= 255 ==> r == v
  {
    if v < 0 then 0 else if v > 255 then 255 else v
  }

  /** `Number.prototype.toString(16)` on a non-negative integer: the shortest
      lower-case hexadecimal spelling. */
  function ToHex(n: nat): (s: string)
    ensures |s| >= 1 && AllLowerHexDigits(s)
  {
    if n < 16 then [HexChar(n)] else ToHex(n / 16) + [HexChar(n % 16)]
  }

  /** `s.padStart(len, c)`. */
  function PadStart(s: string, len: nat, c: char): string {
    if |s| >= len then s else seq(len - |s|, _ => c) + s
  }

  /** The string `adjustColor` returns for channels already clamped to a byte. */
  function Format(c: Rgb): string
    requires InByteRange(c)
  {
    "#" + PadStart(ToHex(Pack(c)), 6, '0')
  }

  /** `adjustColor(hex, amount)`: whatever the input, the result is a canonical
      `#rrggbb` colour whose channels are the input's channels shifted by
      `amount` and clamped to [0, 255]. */
  function AdjustColor(hex: string, amount: int): (r: string)
    ensures IsCanonicalHex(r)
    ensures Channels(r) == Rgb(Clamp(Channels(hex).r + amount),
                               Clamp(Channels(hex).g + amount),
                               Clamp(Channels(hex).b + amount))
  {
    var c := Channels(hex);
    var shifted := Rgb(Clamp(c.r + amount), Clamp(c.g + amount), Clamp(c.b + amount));
    FormatRoundTrip(shifted);
    Format(shifted)
  }

  /** `darken`: every channel 40 lower, floored at 0. */
  function Darken(hex: string): (r: string)
    ensures IsCanonicalHex(r)
    ensures Channels(r) == Rgb(Clamp(Channels(hex).r - 40),
                               Clamp(Channels(hex).g - 40),
                               Clamp(Channels(hex).b - 40))
  {
    AdjustColor(hex, DarkenAmount)
  }

  /** `lighten`: every channel 40 higher, capped at 255. */
  function Lighten(hex: string): (r: string)
    ensures IsCanonicalHex(r)
    ensures Channels(r) == Rgb(Clamp(Channels(hex).r + 40),
                               Clamp(Channels(hex).g + 40),
                               Clamp(Channels(hex).b + 40))
  {
    AdjustColor(hex, LightenAmount)
  }

  // ----- fixed-width hexadecimal spelling, the bridge between parse and format -----

  function FixedHex(v: nat, k: nat): (s: string)
    ensures |s| == k && AllLowerHexDigits(s)
  {
    if k == 0 then "" else FixedHex(v / 16, k - 1) + [HexChar(v % 16)]
  }

  function Zeros(k: nat): string {
    seq(k, _ => '0')
  }

  lemma {:induction false} FixedHexOfZero(k: nat)
    ensures FixedHex(0, k) == Zeros(k)
  {
    if k > 0 {
      FixedHexOfZero(k - 1);
      assert Zeros(k) == Zeros(k - 1) + ['0'];
    }
  }

  /** Padding the shortest spelling with zeros gives the fixed-width spelling. */
  lemma {:induction false} ToHexPadded(v: nat, k: nat)
    requires v < Pow16(k)
    ensures |ToHex(v)| <= k || (v == 0 && k == 0)
    ensures k >= 1 ==> FixedHex(v, k) == Zeros(k - |ToHex(v)|) + ToHex(v)
  {
    if k == 0 {
    } else if v < 16 {
      FixedHexOfZero(k - 1);
      assert v / 16 == 0 && v % 16 == v;
    } else {
      assert k >= 2;
      ToHexPadded(v / 16, k - 1);
      assert Zeros(k - |ToHex(v)|) == Zeros(k - 1 - |ToHex(v / 16)|);
    }
  }

  lemma PadToHex6(v: nat)
    requires v < Pow16(6)
    ensures PadStart(ToHex(v), 6, '0') == FixedHex(v, 6)
  {
    ToHexPadded(v, 6);
  }

  lemma {:induction false} FixedHexValue(v: nat, k: nat)
    requires v < Pow16(k)
    ensures AllHexDigits(FixedHex(v, k)) && DigitsValue(FixedHex(v, k)) == v
  {
    if k > 0 {
      var s := FixedHex(v, k);
      FixedHexValue(v / 16, k - 1);
      assert s[..|s| - 1] == FixedHex(v / 16, k - 1);
    }
  }

  lemma {:induction false} ValueFixedHex(ds: string)
    requires AllLowerHexDigits(ds)
    ensures AllHexDigits(ds) && FixedHex(DigitsValue(ds), |ds|) == ds
  {
    if |ds| > 0 {
      var init := ds[..|ds| - 1];
      ValueFixedHex(init);
      var v := DigitsValue(ds);
      assert v / 16 == DigitsValue(init) && v % 16 == DigitValue(ds[|ds| - 1]);
      HexCharOfDigit(ds[|ds| - 1]);
      assert ds == init + [ds[|ds| - 1]];
    }
  }

  lemma {:induction false} HexPrefixOfDigits(s: string)
    requires AllHexDigits(s)
    ensures HexPrefixLength(s) == |s|
  {
    if |s| > 0 {
      HexPrefixOfDigits(s[1..]);
    }
  }

  /** A string that starts with six hexadecimal digits parses to their value. */
  lemma ParseSixDigits(ds: string)
    requires |ds| == 6 && AllLowerHexDigits(ds)
    ensures ParseIntHex(ds) == Some(DigitsValue(ds))
  {
    assert IsLowerHexDigit(ds[0]) && IsLowerHexDigit(ds[1]);
    Text.TrimStartKeeps(ds);
    assert !(ds[0] == '-' || ds[0] == '+');
    assert !(ds[0] == '0' && (ds[1] == 'x' || ds[1] == 'X'));
    HexPrefixOfDigits(ds);
    assert ds[..6] == ds;
  }

  /** Formatting in-range channels and reading them back is the identity. */
  lemma FormatRoundTrip(c: Rgb)
    requires InByteRange(c)
    ensures IsCanonicalHex(Format(c))
    ensures Channels(Format(c)) == c
  {
    SplitPack(c);
    var v := Pack(c);
    Pow16Six();
    PadToHex6(v);
    var ds := FixedHex(v, 6);
    var s := Format(c);
    assert s == "#" + ds;
    assert s[1..] == ds;
    FixedHexValue(v, 6);
    ChannelsOfCanonical(s);
  }

  /** The channels of a canonical colour are the bytes of its six digits. */
  lemma ChannelsOfCanonical(s: string)
    requires IsCanonicalHex(s)
    ensures AllHexDigits(s[1..]) && DigitsValue(s[1..]) < 0x100_0000
    ensures Channels(s) == Split(DigitsValue(s[1..]))
  {
    var ds := s[1..];
    ParseSixDigits(ds);
    Pow16Six();
    var v := DigitsValue(ds);
    ToInt32OfSmall(v);
    assert ParseIntHex(if |s| == 0 then "" else s[1..]) == Some(v);
  }

  lemma ToInt32OfSmall(v: int)
    requires 0 <= v < 0x8000_0000
    ensures ToInt32(Some(v)) == v
  {
  }

  /** A canonical colour's channels are bytes, and formatting them gives the
      colour back. */
  lemma CanonicalRoundTrip(s: string)
    requires IsCanonicalHex(s)
    ensures InByteRange(Channels(s))
    ensures Format(Channels(s)) == s
  {
    var ds := s[1..];
    ChannelsOfCanonical(s);
    var v := DigitsValue(ds);
    FormatOfValue(v);
    ValueFixedHex(ds);
    assert s == "#" + ds;
  }

  /** The bytes of a 24-bit value format to its six-digit spelling. */
  lemma FormatOfValue(v: nat)
    requires v < 0x100_0000
    ensures InByteRange(Split(v)) && Format(Split(v)) == "#" + FixedHex(v, 6)
  {
    PackSplit(v);
    Pow16Six();
    PadToHex6(v);
  }

  /** Shifting a canonical colour by zero returns it unchanged. */
  lemma AdjustByZeroIsIdentity(s: string)
    requires IsCanonicalHex(s)
    ensures AdjustColor(s, 0) == s
  {
    CanonicalRoundTrip(s);
  }

  /** `lighten(darken(c)) == c` whenever no channel of `c` is below 40, so that
      darkening clamped nothing. */
  lemma LightenUndoesDarken(s: string)
    requires IsCanonicalHex(s)
    requires Channels(s).r >= 40 && Channels(s).g >= 40 && Channels(s).b >= 40
    ensures Lighten(Darken(s)) == s
  {
    CanonicalRoundTrip(s);
    var c := Channels(s);
    LightenRestores(Darken(s), c);
  }

  /** Lightening a colour whose channels are those of `c` lowered by 40 gives
      the spelling of `c`. */
  lemma LightenRestores(d: string, c: Rgb)
    requires InByteRange(c) && c.r >= 40 && c.g >= 40 && c.b >= 40
    requires Channels(d) == Rgb(c.r - 40, c.g - 40, c.b - 40)
    ensures Lighten(d) == Format(c)
  {
    var back := Rgb(Clamp(Channels(d).r + 40), Clamp(Channels(d).g + 40), Clamp(Channels(d).b + 40));
    assert back == c;
  }
}
