/**
 * The helpers of `lib/design-tokens.ts`: `getColor`, which walks the colour
 * palette along a dotted path and falls back to black, and `withOpacity`,
 * which reads a `#RRGGBB` colour (section 5.2 of CSS Color Module Level 4)
 * with `parseInt(_, 16)` and renders it as `rgba(r, g, b, opacity)`.
 */
module DesignTokens {
  import opened Wrappers
  import opened JsText

  /** A palette value: a string, or an object of named values. */
  datatype Token = Text(s: string) | Group(entries: seq<(string, Token)>)

  const OCEAN := Group([
    ("deep", Text("#0F172A")),
    ("900", Text("#1E293B")),
    ("800", Text("#1E3A8A")),
    ("700", Text("#1D4ED8")),
    ("600", Text("#2563EB")),
    ("500", Text("#3B82F6")),
    ("400", Text("#60A5FA")),
    ("300", Text("#93C5FD")),
    ("200", Text("#BFDBFE")),
    ("100", Text("#DBEAFE")),
    ("50", Text("#EFF6FF"))
  ])

  const SUNSET := Group([
    ("900", Text("#7C2D12")),
    ("800", Text("#9A3412")),
    ("700", Text("#C2410C")),
    ("600", Text("#EA580C")),
    ("500", Text("#F97316")),
    ("400", Text("#FB923C")),
    ("300", Text("#FDBA74")),
    ("200", Text("#FED7AA")),
    ("100", Text("#FFEDD5")),
    ("50", Text("#FFF7ED"))
  ])

  const NEUTRAL := Group([
    ("900", Text("#18181B")),
    ("800", Text("#27272A")),
    ("700", Text("#3F3F46")),
    ("600", Text("#52525B")),
    ("500", Text("#71717A")),
    ("400", Text("#A1A1AA")),
    ("300", Text("#D4D4D8")),
    ("200", Text("#E4E4E7")),
    ("100", Text("#F4F4F5")),
    ("50", Text("#FAFAF9"))
  ])

  /** `colors`. */
  const COLORS := Group([
    ("ocean", OCEAN),
    ("sunset", SUNSET),
    ("neutral", NEUTRAL),
    ("success", Text("#10B981")),
    ("error", Text("#EF4444")),
    ("warning", Text("#F59E0B")),
    ("info", Text("#3B82F6"))
  ])

  /** What `getColor` answers when the path leads nowhere. */
  const BLACK := "#000000"

  // ---------------------------------------------------------------- getColor

  /** `entries[key]`: the value of the first entry with that key. */
  function Entry(entries: seq<(string, Token)>, key: string): (r: Option<Token>)
    ensures r.Some? ==> exists i :: 0 <= i < |entries| && entries[i] == (key, r.value)
    ensures r.None? <==> forall i :: 0 <= i < |entries| ==> entries[i].0 != key
  {
    if entries == [] then None
    else if entries[0].0 == key then Some(entries[0].1)
    else Entry(entries[1..], key)
  }

  /** `value[key]`; a key applied to a string is taken to be missing. */
  function Member(t: Token, key: string): Option<Token> {
    if t.Group? then Entry(t.entries, key) else None
  }

  /** `!value` for a palette value: only the empty string is falsy. */
  predicate Falsy(t: Token) {
    t == Text("")
  }

  /**
   * Where the walk of `getColor` stands after the segments `parts`: `None`
   * once some segment was missing or led to a falsy value.
   */
  function Walk(t: Token, parts: seq<string>): Option<Token>
    decreases |parts|
  {
    if parts == [] then Some(t)
    else
      var before := Walk(t, parts[..|parts| - 1]);
      if before.None? then None
      else
        var next := Member(before.value, parts[|parts| - 1]);
        if next.None? || Falsy(next.value) then None else next
  }

  /** The same walk read from the front: the first segment, then the rest from there. */
  lemma {:induction false} WalkFromFront(t: Token, p: string, rest: seq<string>)
    ensures Walk(t, [p] + rest) ==
              match Member(t, p)
              case None => None
              case Some(v) => if Falsy(v) then None else Walk(v, rest)
    decreases |rest|
  {
    if rest == [] {
      assert ([p] + rest)[..0] == [];
    } else {
      var init := rest[..|rest| - 1];
      assert ([p] + rest)[..|rest|] == [p] + init;
      WalkFromFront(t, p, init);
    }
  }

  /** Once the walk has failed, no further segment revives it. */
  lemma {:induction false} WalkStaysFailed(t: Token, parts: seq<string>, k: nat)
    requires k <= |parts| && Walk(t, parts[..k]).None?
    ensures Walk(t, parts).None?
    decreases |parts| - k
  {
    if k < |parts| {
      assert parts[..k + 1][..k] == parts[..k];
      WalkStaysFailed(t, parts, k + 1);
    } else {
      assert parts[..k] == parts;
    }
  }

  /** `getColor(path)`, as a value: the palette value at the path, or black. */
  function ColorAt(path: string): Token {
    Walk(COLORS, Split(path, '.')).GetOr(Text(BLACK))
  }

  /**
   * A segment that is missing where the walk has got to (or that leads to a
   * falsy value) makes the answer black, whatever follows.
   */
  lemma MissingSegmentGivesBlack(path: string, k: nat, v: Token)
    requires k < |Split(path, '.')| && Walk(COLORS, Split(path, '.')[..k]) == Some(v)
    requires Member(v, Split(path, '.')[k]).None? || Falsy(Member(v, Split(path, '.')[k]).value)
    ensures ColorAt(path) == Text(BLACK)
  {
    var parts := Split(path, '.');
    assert parts[..k + 1][..k] == parts[..k];
    WalkStaysFailed(COLORS, parts, k + 1);
  }

  lemma OceanPathSplits()
    ensures Split("ocean.500", '.') == ["ocean", "500"]
  {
    SplitCons("ocean", '.', "500");
    assert "ocean" + ['.'] + "500" == "ocean.500";
    SplitNoSep("500", '.');
  }

  lemma OceanFiveHundredEntry()
    ensures Entry(OCEAN.entries, "500") == Some(Text("#3B82F6"))
  {
    assert OCEAN.entries[5] == ("500", Text("#3B82F6"));
    assert forall i :: 0 <= i < 5 ==> OCEAN.entries[i].0 != "500";
  }

  lemma OceanPathWalks()
    ensures Walk(COLORS, ["ocean", "500"]) == Some(Text("#3B82F6"))
  {
    var parts := ["ocean", "500"];
    assert parts[..1] == ["ocean"] && parts[..1][..0] == [];
    assert Walk(COLORS, ["ocean"]) == Some(OCEAN);
    OceanFiveHundredEntry();
  }

  /** `getColor('ocean.500')` is the ocean blue `#3B82F6`. */
  lemma OceanFiveHundred()
    ensures ColorAt("ocean.500") == Text("#3B82F6")
  {
    OceanPathSplits();
    OceanPathWalks();
  }

  /** A name that is not in the palette gives black. */
  lemma UnknownNameGivesBlack()
    ensures ColorAt("purple") == Text(BLACK)
  {
    SplitNoSep("purple", '.');
    assert ["purple"][..0] == [];
    NotInPalette("purple");
  }

  lemma NotInPalette(name: string)
    requires name !in {"ocean", "sunset", "neutral", "success", "error", "warning", "info"}
    ensures Entry(COLORS.entries, name).None?
  {
  }

  /**
   * `getColor`: split the path on '.', then step into the palette one segment
   * at a time, answering black as soon as a step finds nothing.
   */
  method GetColor(path: string) returns (r: Token)
    ensures r == ColorAt(path)
    ensures r == Text(BLACK) || Walk(COLORS, Split(path, '.')) == Some(r)
  {
    var parts := Split(path, '.');
    var value := COLORS;
    for i := 0 to |parts|
      invariant Walk(COLORS, parts[..i]) == Some(value)
    {
      assert parts[..i + 1][..i] == parts[..i];
      var next := Member(value, parts[i]);
      if next.None? || Falsy(next.value) {
        WalkStaysFailed(COLORS, parts, i + 1);
        return Text(BLACK);
      }
      value := next.value;
    }
    assert parts[..|parts|] == parts;
    return value;
  }

  // ---------------------------------------------------------------- withOpacity

  /** A JavaScript number as `parseInt` can produce it. */
  datatype Num = Int(n: int) | NaN

  /** `${x}`. */
  function ShowNum(x: Num): string {
    if x.NaN? then "NaN" else IntToString(x.n)
  }

  predicate IsHexDigit(c: char) {
    '0' <= c <= '9' || 'a' <= c <= 'f' || 'A' <= c <= 'F'
  }

  function HexValue(c: char): (v: nat)
    requires IsHexDigit(c)
    ensures v < 16
  {
    if '0' <= c <= '9' then c as int - '0' as int
    else if 'a' <= c <= 'f' then c as int - 'a' as int + 10
    else c as int - 'A' as int + 10
  }

  /** The value of a string of hex digits, most significant first. */
  function HexDigitsValue(s: string): nat
    requires forall i :: 0 <= i < |s| ==> IsHexDigit(s[i])
  {
    if s == [] then 0 else 16 * HexDigitsValue(s[..|s| - 1]) + HexValue(s[|s| - 1])
  }

  /** The longest prefix of `s` made of hex digits. */
  function LeadingHex(s: string): (r: string)
    ensures |r| <= |s| && r == s[..|r|]
    ensures forall i :: 0 <= i < |r| ==> IsHexDigit(r[i])
    ensures |r| < |s| ==> !IsHexDigit(s[|r|])
  {
    if s != [] && IsHexDigit(s[0]) then [s[0]] + LeadingHex(s[1..]) else []
  }

  /**
   * `parseInt(s, 16)`: leading white space is skipped, one sign is read, then
   * an optional "0x"/"0X", then the longest run of hex digits; without any
   * digit the result is `NaN`.
   */
  function ParseHex(s: string): (r: Num)
    ensures r.Int? ==> exists d :: d != [] && (forall i :: 0 <= i < |d| ==> IsHexDigit(d[i]))
                                  && (r.n == HexDigitsValue(d) || r.n == 0 - HexDigitsValue(d))
  {
    var t := TrimStart(s);
    var negative := t != [] && t[0] == '-';
    var unsigned := if t != [] && (t[0] == '-' || t[0] == '+') then t[1..] else t;
    var body := if |unsigned| >= 2 && unsigned[0] == '0' && (unsigned[1] == 'x' || unsigned[1] == 'X')
                then unsigned[2..] else unsigned;
    var digits := LeadingHex(body);
    if digits == [] then NaN
    else if negative then Int(0 - HexDigitsValue(digits))
    else Int(HexDigitsValue(digits))
  }

  /** `s.indexOf(c)`: the position of the first `c`, or -1. */
  function IndexOf(s: string, c: char): (k: int)
    ensures k == -1 <==> c !in s
    ensures k != -1 ==> 0 <= k < |s| && s[k] == c && c !in s[..k]
  {
    if s == [] then -1
    else if s[0] == c then 0
    else
      var k := IndexOf(s[1..], c);
      if k == -1 then -1
      else
        assert s[..k + 1] == [s[0]] + s[1..][..k];
        k + 1
  }

  /** `s.replace(c, '')`: the first occurrence of `c` is dropped, any later ones stay. */
  function RemoveFirst(s: string, c: char): (r: string)
    ensures c !in s ==> r == s
    ensures c in s ==> |r| == |s| - 1 && r == s[..IndexOf(s, c)] + s[IndexOf(s, c) + 1..]
  {
    var k := IndexOf(s, c);
    if k == -1 then s else s[..k] + s[k + 1..]
  }

  /** `s.substring(from, to)` for `0 <= from <= to`: indices past the end are clamped. */
  function Substring(s: string, from: nat, to: nat): (r: string)
    requires from <= to
    ensures |r| <= to - from
    ensures to <= |s| ==> r == s[from..to]
  {
    var a := if from < |s| then from else |s|;
    var b := if to < |s| then to else |s|;
    s[a..b]
  }

  /** The three channels `withOpacity` reads from a colour. */
  function Channels(color: string): (Num, Num, Num) {
    var hex := RemoveFirst(color, '#');
    (ParseHex(Substring(hex, 0, 2)), ParseHex(Substring(hex, 2, 4)), ParseHex(Substring(hex, 4, 6)))
  }

  /**
   * `withOpacity(color, opacity)`, with `opacity` already rendered as text.
   * For `#RRGGBB` the channels are the values of the three digit pairs.
   */
  function WithOpacity(color: string, opacity: string): (r: string)
    ensures IsHexColor(color) ==>
              r == "rgba(" + IntToString(PairValue(color[1], color[2])) + ", " + IntToString(PairValue(color[3], color[4]))
                   + ", " + IntToString(PairValue(color[5], color[6])) + ", " + opacity + ")"
  {
    var (red, green, blue) := Channels(color);
    assert IsHexColor(color) ==>
             (red, green, blue) == (Int(PairValue(color[1], color[2])), Int(PairValue(color[3], color[4])),
                                    Int(PairValue(color[5], color[6]))) by {
      if IsHexColor(color) {
        HexColorChannels(color);
      }
    }
    "rgba(" + ShowNum(red) + ", " + ShowNum(green) + ", " + ShowNum(blue) + ", " + opacity + ")"
  }

  /** A `#RRGGBB` colour. */
  predicate IsHexColor(c: string) {
    |c| == 7 && c[0] == '#' && forall i :: 1 <= i < 7 ==> IsHexDigit(c[i])
  }

  /** The byte two hex digits spell. */
  function PairValue(hi: char, lo: char): (v: nat)
    requires IsHexDigit(hi) && IsHexDigit(lo)
    ensures v < 256
  {
    16 * HexValue(hi) + HexValue(lo)
  }

  /** `parseInt` of two hex digits is the byte they spell. */
  lemma ParsePair(hi: char, lo: char)
    requires IsHexDigit(hi) && IsHexDigit(lo)
    ensures ParseHex([hi, lo]) == Int(PairValue(hi, lo))
  {
    var s := [hi, lo];
    assert !IsSpace(hi);
    assert TrimStart(s) == s;
    assert LeadingHex(s) == s by {
      assert LeadingHex(s[1..]) == [lo] by { assert LeadingHex(s[1..][1..]) == []; }
    }
    assert s[..1] == [hi] && [hi][..0] == [];
    assert HexDigitsValue([hi]) == HexValue(hi);
    assert HexDigitsValue(s) == 16 * HexValue(hi) + HexValue(lo);
  }

  /** For a `#RRGGBB` colour the channels are the three bytes the pairs spell. */
  lemma HexColorChannels(color: string)
    requires IsHexColor(color)
    ensures Channels(color) == (Int(PairValue(color[1], color[2])), Int(PairValue(color[3], color[4])),
                                Int(PairValue(color[5], color[6])))
  {
    var hex := RemoveFirst(color, '#');
    assert color[0] == '#';
    assert hex == color[1..];
    assert Substring(hex, 0, 2) == [color[1], color[2]];
    assert Substring(hex, 2, 4) == [color[3], color[4]];
    assert Substring(hex, 4, 6) == [color[5], color[6]];
    ParsePair(color[1], color[2]);
    ParsePair(color[3], color[4]);
    ParsePair(color[5], color[6]);
  }

  /** The upper-case hex digit of a value below 16. */
  function HexDigitChar(v: nat): (c: char)
    requires v < 16
    ensures IsHexDigit(c) && HexValue(c) == v
  {
    if v < 10 then ('0' as int + v) as char else ('A' as int + v - 10) as char
  }

  /** A byte as two upper-case hex digits. */
  function HexByte(v: nat): (s: string)
    requires v < 256
    ensures |s| == 2 && IsHexDigit(s[0]) && IsHexDigit(s[1]) && PairValue(s[0], s[1]) == v
  {
    [HexDigitChar(v / 16), HexDigitChar(v % 16)]
  }

  predicate IsUpperHexDigit(c: char) {
    '0' <= c <= '9' || 'A' <= c <= 'F'
  }

  /** Re-encoding the bytes read from an upper-case `#RRGGBB` colour gives it back. */
  lemma HexRoundTrip(color: string)
    requires IsHexColor(color) && forall i :: 1 <= i < 7 ==> IsUpperHexDigit(color[i])
    ensures "#" + HexByte(PairValue(color[1], color[2])) + HexByte(PairValue(color[3], color[4]))
            + HexByte(PairValue(color[5], color[6])) == color
  {
    forall i | 1 <= i < 7 ensures HexDigitChar(HexValue(color[i])) == color[i] {
      assert IsUpperHexDigit(color[i]);
    }
    forall i | i == 1 || i == 3 || i == 5
      ensures HexByte(PairValue(color[i], color[i + 1])) == [color[i], color[i + 1]]
    {
      var v := PairValue(color[i], color[i + 1]);
      assert v / 16 == HexValue(color[i]) && v % 16 == HexValue(color[i + 1]);
    }
  }

  /** `parseInt` of text starting with '#' finds no digit. */
  lemma HashIsNotANumber(s: string)
    requires s != [] && s[0] == '#'
    ensures ParseHex(s) == NaN
  {
    assert !IsSpace('#');
    assert TrimStart(s) == s;
    assert LeadingHex(s) == [];
  }

  /** Only the first '#' goes: with a second one, the red channel reads "#R" and is `NaN`. */
  lemma SecondHashIsKept(color: string)
    requires IsHexColor(color)
    ensures Channels("#" + color).0 == NaN
  {
    var s := "#" + color;
    assert IndexOf(s, '#') == 0;
    assert RemoveFirst(s, '#') == color;
    HashIsNotANumber(Substring(color, 0, 2));
  }
}
