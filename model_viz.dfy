/**
 * The grid view's drawing rules: `rgb_to_hex`, which formats a colour as
 * `#rrggbb` with `%02x`, and `agent_portrayal`, which draws a patch as a
 * square sized and coloured by the first height bucket its height fits in.
 */
module ModelViz {
  import opened FieldTypes
  import Field

  /** A lowercase hex digit, as `%x` writes them. */
  predicate IsHexDigit(c: char) {
    '0' <= c <= '9' || 'a' <= c <= 'f'
  }

  /** The digit for `d`. */
  function HexDigit(d: nat): (c: char)
    requires d < 16
    ensures IsHexDigit(c) && DigitValue(c) == Some(d)
  {
    if d < 10 then ('0' as int + d) as char else ('a' as int + d - 10) as char
  }

  /** Python's `%x` on a natural number: lowercase hex digits, most significant first, no leading zeros. */
  function Hex(n: nat): (s: string)
    ensures |s| >= 1 && forall k :: 0 <= k < |s| ==> IsHexDigit(s[k])
    ensures n < 16 <==> |s| == 1
    ensures n < 256 ==> |s| <= 2
    ensures n >= 16 ==> s[0] != '0'
    decreases n
  {
    if n < 16 then [HexDigit(n)] else Hex(n / 16) + [HexDigit(n % 16)]
  }

  /** Python's `%02x` on any integer: at least two characters, zero-padded after the sign. */
  function Format02x(v: int): (s: string)
    ensures |s| >= 2
    ensures v < 0 <==> s[0] == '-'
    ensures 0 <= v < 256 ==> |s| == 2 && IsHexDigit(s[0]) && IsHexDigit(s[1])
  {
    if v < 0 then "-" + Hex(-v) else if v < 16 then "0" + Hex(v) else Hex(v)
  }

  /** `rgb_to_hex`: `'#%02x%02x%02x' % rgb`. */
  function RgbToHex(rgb: (int, int, int)): (s: string)
    ensures |s| >= 7 && s[0] == '#'
    ensures IsByte(rgb.0) && IsByte(rgb.1) && IsByte(rgb.2) ==>
              |s| == 7 && forall k :: 1 <= k < 7 ==> IsHexDigit(s[k])
  {
    "#" + Format02x(rgb.0) + Format02x(rgb.1) + Format02x(rgb.2)
  }

  predicate IsByte(v: int) {
    0 <= v < 256
  }

  // ----- Reading the formatted text back -----

  /** The value of one lowercase hex digit; `None` for any other character. */
  function DigitValue(c: char): (d: Option<nat>)
    ensures d.Some? <==> IsHexDigit(c)
    ensures d.Some? ==> d.value < 16
  {
    if '0' <= c <= '9' then Some(c as int - '0' as int)
    else if 'a' <= c <= 'f' then Some(c as int - 'a' as int + 10)
    else None
  }

  /** The value of a non-empty string of lowercase hex digits. */
  function ParseHex(s: string): (n: Option<nat>)
    ensures n.Some? ==> s != []
    decreases |s|
  {
    if s == [] then None
    else
      match (if |s| == 1 then Some(0) else ParseHex(s[..|s| - 1]), DigitValue(s[|s| - 1]))
      case (Some(high), Some(low)) => if |s| == 1 then Some(low) else Some(16 * high + low)
      case _ => None
  }

  /** The inverse of `Format02x`: an optional `-`, then hex digits. */
  function ParseFormat02x(s: string): (v: Option<int>)
  {
    if |s| >= 1 && s[0] == '-' then
      match ParseHex(s[1..])
      case Some(n) => var magnitude: int := n; Some(-magnitude)
      case None => None
    else
      match ParseHex(s)
      case Some(n) => Some(n)
      case None => None
  }

  /** The inverse of `RgbToHex` on byte components: `#` and three two-digit fields. */
  function ParseRgbHex(s: string): (rgb: Option<(int, int, int)>)
    ensures rgb.Some? ==> IsByte(rgb.value.0) && IsByte(rgb.value.1) && IsByte(rgb.value.2)
  {
    if |s| == 7 && s[0] == '#' then
      match (ParseHex(s[1..3]), ParseHex(s[3..5]), ParseHex(s[5..7]))
      case (Some(r), Some(g), Some(b)) => ParseTwoBounded(s[1..3]); ParseTwoBounded(s[3..5]); ParseTwoBounded(s[5..7]);
        Some((r, g, b))
      case _ => None
    else None
  }

  lemma ParseTwoBounded(s: string)
    requires |s| == 2
    ensures ParseHex(s).Some? ==> ParseHex(s).value < 256
  {
    assert s[..1] == [s[0]];
  }

  lemma {:induction false} HexRoundTrip(n: nat)
    ensures ParseHex(Hex(n)) == Some(n)
    decreases n
  {
    var s := Hex(n);
    if n >= 16 {
      HexRoundTrip(n / 16);
      assert s[..|s| - 1] == Hex(n / 16);
      assert DigitValue(s[|s| - 1]) == Some(n % 16);
    } else {
      assert DigitValue(s[0]) == Some(n);
    }
  }

  /** `%02x` loses nothing: the text reads back as the number it was made from. */
  lemma Format02xRoundTrip(v: int)
    ensures ParseFormat02x(Format02x(v)) == Some(v)
  {
    var s := Format02x(v);
    if v < 0 {
      HexRoundTrip(-v);
      assert s[1..] == Hex(-v);
    } else if v < 16 {
      assert s[..1] == "0" && ParseHex(s[..1]) == Some(0);
      assert s[1] == HexDigit(v);
    } else {
      HexRoundTrip(v);
    }
  }

  /** Two hex digits, read back. */
  lemma ParseTwoDigits(s: string)
    requires |s| == 2 && IsHexDigit(s[0]) && IsHexDigit(s[1])
    ensures ParseHex(s) == Some(16 * DigitValue(s[0]).value + DigitValue(s[1]).value)
  {
    assert s[..1] == [s[0]];
  }

  /** A byte's `%02x` text is its high digit, then its low digit. */
  lemma Format02xByte(v: int)
    requires IsByte(v)
    ensures Format02x(v) == [HexDigit(v / 16), HexDigit(v % 16)]
  {
    if v < 16 {
      assert HexDigit(0) == '0';
    } else {
      assert Hex(v / 16) == [HexDigit(v / 16)];
    }
  }

  /** The two digits `a` and `b` are the `%02x` text of `16 * a + b`. */
  lemma Format02xOfDigits(s: string)
    requires |s| == 2 && IsHexDigit(s[0]) && IsHexDigit(s[1])
    ensures Format02x(16 * DigitValue(s[0]).value + DigitValue(s[1]).value) == s
  {
    var v := 16 * DigitValue(s[0]).value + DigitValue(s[1]).value;
    Format02xByte(v);
    assert v / 16 == DigitValue(s[0]).value && v % 16 == DigitValue(s[1]).value;
  }

  /** On byte components, `rgb_to_hex` writes `#` and each component's high and low digit. */
  lemma RgbToHexDigits(rgb: (int, int, int))
    requires IsByte(rgb.0) && IsByte(rgb.1) && IsByte(rgb.2)
    ensures RgbToHex(rgb) == ['#', HexDigit(rgb.0 / 16), HexDigit(rgb.0 % 16), HexDigit(rgb.1 / 16),
                              HexDigit(rgb.1 % 16), HexDigit(rgb.2 / 16), HexDigit(rgb.2 % 16)]
  {
    Format02xByte(rgb.0);
    Format02xByte(rgb.1);
    Format02xByte(rgb.2);
  }

  /** On byte components, `rgb_to_hex` is undone by `ParseRgbHex`. */
  lemma RgbToHexRoundTrip(rgb: (int, int, int))
    requires IsByte(rgb.0) && IsByte(rgb.1) && IsByte(rgb.2)
    ensures ParseRgbHex(RgbToHex(rgb)) == Some(rgb)
  {
    var s := RgbToHex(rgb);
    assert s[1..3] == Format02x(rgb.0) && s[3..5] == Format02x(rgb.1) && s[5..7] == Format02x(rgb.2);
    Format02xRoundTrip(rgb.0);
    Format02xRoundTrip(rgb.1);
    Format02xRoundTrip(rgb.2);
  }

  /** ... and every `#rrggbb` text in lowercase hex is `rgb_to_hex` of the colour it reads as. */
  lemma ParseRgbHexRoundTrip(s: string)
    requires ParseRgbHex(s).Some?
    ensures RgbToHex(ParseRgbHex(s).value) == s
  {
    var rgb := ParseRgbHex(s).value;
    forall k | 1 <= k < 7 ensures IsHexDigit(s[k]) {
      var field := if k < 3 then s[1..3] else if k < 5 then s[3..5] else s[5..7];
      ParseTwoDigitsOnly(field);
    }
    ParseTwoDigits(s[1..3]);
    ParseTwoDigits(s[3..5]);
    ParseTwoDigits(s[5..7]);
    Format02xOfDigits(s[1..3]);
    Format02xOfDigits(s[3..5]);
    Format02xOfDigits(s[5..7]);
    assert s == [s[0]] + s[1..3] + s[3..5] + s[5..7];
  }

  /** Only hex digits read as a number. */
  lemma ParseTwoDigitsOnly(s: string)
    requires |s| == 2 && ParseHex(s).Some?
    ensures IsHexDigit(s[0]) && IsHexDigit(s[1])
  {
    assert s[..1] == [s[0]];
  }

  // ----- agent_portrayal -----

  /** A value in a portrayal dictionary. */
  datatype Value = Str(s: string) | Num(r: real) | Int(i: int)

  /** The dictionary `agent_portrayal` starts from. */
  const Defaults: map<string, Value> :=
    map["Shape" := Str("rect"), "Filled" := Str("true"), "w" := Num(0.5), "h" := Num(0.5)]

  /** The bucket bounds, and each bucket's square size and colour; the sixth entries are meant for heights above 5. */
  const HeightBounds: seq<real> := [1.0, 2.0, 3.0, 4.0, 5.0]
  const Sizes: seq<real> := [0.2, 0.4, 0.6, 0.8, 1.0, 1.2]
  const Colors: seq<string> :=
    [RgbToHex((0, 0, 0)), RgbToHex((0, 64, 0)), RgbToHex((0, 128, 0)),
     RgbToHex((0, 192, 0)), RgbToHex((0, 255, 0)), RgbToHex((0, 255, 0))]

  /** The colours run from black through darker to full green. */
  lemma ColorsAreGreens()
    ensures Colors == ["#000000", "#004000", "#008000", "#00c000", "#00ff00", "#00ff00"]
  {
    RgbToHexDigits((0, 0, 0));
    RgbToHexDigits((0, 64, 0));
    RgbToHexDigits((0, 128, 0));
    RgbToHexDigits((0, 192, 0));
    RgbToHexDigits((0, 255, 0));
  }

  /** The first index from `from` on whose bound `h` does not exceed. */
  function FirstBound(bounds: seq<real>, h: real, from: nat): (b: Option<nat>)
    requires from <= |bounds|
    ensures b.Some? ==> from <= b.value < |bounds| && h <= bounds[b.value] &&
                        forall j :: from <= j < b.value ==> bounds[j] < h
    ensures b.None? ==> forall j :: from <= j < |bounds| ==> bounds[j] < h
    decreases |bounds| - from
  {
    if from == |bounds| then None
    else if h <= bounds[from] then Some(from)
    else FirstBound(bounds, h, from + 1)
  }

  /** The bucket a height is drawn in: the first `i` with `h <= HeightBounds[i]`, and none above 5. */
  function Bucket(h: real): (b: Option<nat>)
    ensures b.Some? <==> h <= 5.0
    ensures b.Some? ==> b.value < |HeightBounds| && h <= HeightBounds[b.value] &&
                        forall j :: 0 <= j < b.value ==> HeightBounds[j] < h
  {
    FirstBound(HeightBounds, h, 0)
  }

  /** The dictionary for a patch drawn in bucket `i`. */
  function Styled(i: nat): (p: map<string, Value>)
    requires i < |Sizes|
    ensures p.Keys == Defaults.Keys + {"Color", "Layer"}
    ensures p["Shape"] == Str("rect") && p["Filled"] == Str("true")
    ensures p["w"] == p["h"] == Num(Sizes[i]) && p["Color"] == Str(Colors[i]) && p["Layer"] == Int(0)
  {
    Defaults["w" := Num(Sizes[i])]["h" := Num(Sizes[i])]["Color" := Str(Colors[i])]["Layer" := Int(0)]
  }

  /**
   * `agent_portrayal`: a patch whose height fits a bucket is drawn with that
   * bucket's size and colour on layer 0; a patch taller than 5 fits none and
   * keeps the defaults, with no colour and no layer.
   */
  method AgentPortrayal(agent: Field.PatchAgent) returns (portrayal: map<string, Value>)
    ensures Bucket(agent.height).None? ==> portrayal == Defaults
    ensures Bucket(agent.height).Some? ==> portrayal == Styled(Bucket(agent.height).value)
  {
    portrayal := Defaults;
    var i := 0;
    while i < |HeightBounds|
      invariant 0 <= i <= |HeightBounds|
      invariant portrayal == Defaults
      invariant forall j :: 0 <= j < i ==> HeightBounds[j] < agent.height
    {
      if agent.height <= HeightBounds[i] {
        portrayal := portrayal["w" := Num(Sizes[i])];
        portrayal := portrayal["h" := Num(Sizes[i])];
        portrayal := portrayal["Color" := Str(Colors[i])];
        portrayal := portrayal["Layer" := Int(0)];
        assert Bucket(agent.height) == Some(i);
        break;
      }
      i := i + 1;
    }
  }

  /** Up to a height of 5, a taller patch is never drawn smaller. */
  lemma PortrayalSizeMonotone(h1: real, h2: real)
    requires h1 <= h2 <= 5.0
    ensures Sizes[Bucket(h1).value] <= Sizes[Bucket(h2).value]
  {
  }

  /** Above 5 the rule breaks: a patch of height 5.5 is drawn smaller than one of height 5, and without a colour. */
  lemma PortrayalGapAboveFive()
    ensures Bucket(5.0) == Some(4) && Bucket(5.5) == None
    ensures Sizes[4] > 0.5 && "Color" !in Defaults
  {
  }

  /** The bucket `agent_portrayal` evidently means: the sixth size and colour for any height above 5. */
  function IntendedBucket(h: real): (i: nat)
    ensures i < |Sizes|
    ensures i < |HeightBounds| <==> h <= 5.0
    ensures i < |HeightBounds| ==> h <= HeightBounds[i]
    ensures forall j :: 0 <= j < i ==> HeightBounds[j] < h
  {
    match Bucket(h)
    case Some(i) => i
    case None => |HeightBounds|
  }

  /** `agent_portrayal` with the fall-through going to the sixth bucket, as its colour list's comment says. */
  method AgentPortrayalIntended(agent: Field.PatchAgent) returns (portrayal: map<string, Value>)
    ensures portrayal == Styled(IntendedBucket(agent.height))
  {
    portrayal := Defaults;
    var i := 0;
    while i < |HeightBounds|
      invariant 0 <= i <= |HeightBounds|
      invariant forall j :: 0 <= j < i ==> HeightBounds[j] < agent.height
    {
      if agent.height <= HeightBounds[i] {
        break;
      }
      i := i + 1;
    }
    assert IntendedBucket(agent.height) == i;
    portrayal := portrayal["w" := Num(Sizes[i])];
    portrayal := portrayal["h" := Num(Sizes[i])];
    portrayal := portrayal["Color" := Str(Colors[i])];
    portrayal := portrayal["Layer" := Int(0)];
  }

  /** With the intended rule every height gets a colour, and a taller patch is never drawn smaller. */
  lemma IntendedSizeMonotone(h1: real, h2: real)
    requires h1 <= h2
    ensures Sizes[IntendedBucket(h1)] <= Sizes[IntendedBucket(h2)]
    ensures "Color" in Styled(IntendedBucket(h2))
  {
  }
}
