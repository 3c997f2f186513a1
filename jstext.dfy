/**
 * The JavaScript string and number behaviour the core relies on: truthiness of
 * optional strings, `Array.prototype.slice(0, end)`, `toLowerCase`, `trim`,
 * `split` on one character, `includes`, `startsWith`, decimal rendering of
 * integers and `Number(...)` on a time field.
 */
module JsText {
  import opened Wrappers

  /** An optional string in a boolean context: `undefined`, `null` and "" are falsy. */
  predicate Truthy(o: Option<string>) {
    o.Some? && o.value != ""
  }

  /** `o || fallback` for an optional string. */
  function OrElse(o: Option<string>, fallback: string): string {
    if Truthy(o) then o.value else fallback
  }

  /** `s.slice(0, end)`: a negative end counts back from the end of `s`. */
  function SliceTo<T>(s: seq<T>, end: int): (r: seq<T>)
    ensures |r| <= |s| && r == s[..|r|]
    ensures end >= 0 ==> |r| == if end < |s| then end else |s|
    ensures end < 0 ==> |r| == if |s| + end < 0 then 0 else |s| + end
  {
    var stop := if end < 0 then (if |s| + end < 0 then 0 else |s| + end)
                else (if end < |s| then end else |s|);
    s[..stop]
  }

  // ---------------------------------------------------------------- digits

  predicate IsDigit(c: char) {
    '0' <= c <= '9'
  }

  predicate AllDigits(s: string) {
    forall i :: 0 <= i < |s| ==> IsDigit(s[i])
  }

  function DigitChar(d: nat): (c: char)
    requires d < 10
    ensures IsDigit(c) && c as int - '0' as int == d
  {
    ('0' as int + d) as char
  }

  /** `String(n)` for a non-negative integer. */
  function NatToString(n: nat): (r: string)
    ensures |r| >= 1 && AllDigits(r)
    ensures r[0] == '0' ==> n == 0
  {
    if n < 10 then [DigitChar(n)] else NatToString(n / 10) + [DigitChar(n % 10)]
  }

  /** `String(i)` for an integer. */
  function IntToString(i: int): string {
    if i < 0 then "-" + NatToString(-i) else NatToString(i)
  }

  /** The value of a string of decimal digits. */
  function DigitsValue(s: string): nat
    requires AllDigits(s)
  {
    if s == [] then 0 else DigitsValue(s[..|s| - 1]) * 10 + (s[|s| - 1] as int - '0' as int)
  }

  /** Reading back a rendered number gives the number. */
  lemma {:induction false} NatToStringRoundTrip(n: nat)
    ensures DigitsValue(NatToString(n)) == n
  {
    if n >= 10 {
      var s := NatToString(n);
      assert s[..|s| - 1] == NatToString(n / 10);
      NatToStringRoundTrip(n / 10);
    }
  }

  /** A leading zero does not change the value of a digit string. */
  lemma {:induction false} DigitsValueLeadingZero(s: string)
    requires AllDigits(s)
    ensures AllDigits("0" + s) && DigitsValue("0" + s) == DigitsValue(s)
  {
    var z := "0" + s;
    if s != [] {
      assert z[..|z| - 1] == "0" + s[..|s| - 1];
      DigitsValueLeadingZero(s[..|s| - 1]);
    }
  }

  /** Distinct numbers render differently. */
  lemma NatToStringInjective(m: nat, n: nat)
    requires NatToString(m) == NatToString(n)
    ensures m == n
  {
    NatToStringRoundTrip(m);
    NatToStringRoundTrip(n);
  }

  /**
   * `Number(s)` on a short field: surrounding white space is ignored, the empty
   * string is 0 and a run of decimal digits is its value; anything else is
   * `NaN`, written `None`.
   */
  function NumberOf(s: string): (r: Option<nat>)
    ensures r.Some? <==> AllDigits(Trim(s))
    ensures Trim(s) == "" ==> r == Some(0)
    // leading zeros are read positionally, so "09" is 9
    ensures r.Some? ==> r.value == DigitsValue(Trim(s))
    ensures r.Some? && Trim(s) != "" ==> NatToString(r.value) == Trim(s) || Trim(s)[0] == '0'
  {
    var t := Trim(s);
    if AllDigits(t) then
      var v := DigitsValue(t);
      NumberOfAgrees(t);
      Some(v)
    else None
  }

  /** A digit string without a leading zero is the rendering of its value. */
  lemma {:induction false} NumberOfAgrees(t: string)
    requires AllDigits(t)
    ensures t != "" && t[0] != '0' ==> NatToString(DigitsValue(t)) == t
  {
    if t != "" && t[0] != '0' {
      var init := t[..|t| - 1];
      var d := t[|t| - 1] as int - '0' as int;
      if init == [] {
        assert DigitsValue(t) == d;
        assert NatToString(d) == [DigitChar(d)];
      } else {
        assert init[0] == t[0];
        NumberOfAgrees(init);
        var v := DigitsValue(init);
        assert v != 0;
        assert DigitsValue(t) == v * 10 + d;
        assert (v * 10 + d) / 10 == v && (v * 10 + d) % 10 == d;
        assert NatToString(v * 10 + d) == NatToString(v) + [DigitChar(d)];
        assert t == init + [t[|t| - 1]];
      }
    }
  }

  // ---------------------------------------------------------------- case

  /**
   * `toLowerCase` on one character: ASCII, Latin-1 and Latin Extended-A
   * capitals (U+0130, whose lower case is two characters, is left as it is).
   */
  function LowerChar(c: char): char {
    var n := c as int;
    if 65 <= n <= 90 then (n + 32) as char
    else if 0xC0 <= n <= 0xDE && n != 0xD7 then (n + 32) as char
    else if 0x100 <= n <= 0x137 && n != 0x130 && n % 2 == 0 then (n + 1) as char
    else if 0x139 <= n <= 0x148 && n % 2 == 1 then (n + 1) as char
    else if 0x14A <= n <= 0x177 && n % 2 == 0 then (n + 1) as char
    else if n == 0x178 then 0xFF as char
    else if 0x179 <= n <= 0x17E && n % 2 == 1 then (n + 1) as char
    else c
  }

  function Lower(s: string): (r: string)
    ensures |r| == |s|
    ensures forall i :: 0 <= i < |s| ==> r[i] == LowerChar(s[i])
  {
    if s == [] then [] else [LowerChar(s[0])] + Lower(s[1..])
  }

  // ---------------------------------------------------------------- trim

  /** The characters `String.prototype.trim` removes. */
  predicate IsSpace(c: char) {
    var n := c as int;
    n == 9 || n == 10 || n == 11 || n == 12 || n == 13 || n == 32 || n == 0xA0
    || n == 0x1680 || (0x2000 <= n <= 0x200A) || n == 0x2028 || n == 0x2029
    || n == 0x202F || n == 0x205F || n == 0x3000 || n == 0xFEFF
  }

  function TrimStart(s: string): (r: string)
    ensures |r| <= |s| && r == s[|s| - |r|..]
    ensures r == [] || !IsSpace(r[0])
    ensures forall i :: 0 <= i < |s| - |r| ==> IsSpace(s[i])
  {
    if s != [] && IsSpace(s[0]) then TrimStart(s[1..]) else s
  }

  function TrimEnd(s: string): (r: string)
    ensures |r| <= |s| && r == s[..|r|]
    ensures r == [] || !IsSpace(r[|r| - 1])
    ensures forall i :: |r| <= i < |s| ==> IsSpace(s[i])
  {
    if s != [] && IsSpace(s[|s| - 1]) then TrimEnd(s[..|s| - 1]) else s
  }

  /** `s.trim()`: a middle slice of `s` with no white space at either end. */
  function Trim(s: string): (r: string)
    ensures |r| <= |s|
    ensures r == [] || (!IsSpace(r[0]) && !IsSpace(r[|r| - 1]))
    ensures var k := |s| - |TrimStart(s)|; k + |r| <= |s| && r == s[k..k + |r|]
  {
    TrimEnd(TrimStart(s))
  }

  /** A string with no white space at its ends is its own trim. */
  lemma TrimOfTrimmed(s: string)
    requires s == [] || (!IsSpace(s[0]) && !IsSpace(s[|s| - 1]))
    ensures Trim(s) == s
  {
  }

  predicate AllSpace(s: string) {
    forall i :: 0 <= i < |s| ==> IsSpace(s[i])
  }

  lemma LowerAppend(a: string, b: string)
    ensures Lower(a + b) == Lower(a) + Lower(b)
  {
    assert forall i :: 0 <= i < |a + b| ==> Lower(a + b)[i] == (Lower(a) + Lower(b))[i];
  }

  /** White space has no case. */
  lemma LowerOfSpace(w: string)
    requires AllSpace(w)
    ensures Lower(w) == w
  {
    assert forall i :: 0 <= i < |w| ==> Lower(w)[i] == w[i];
  }

  lemma {:induction false} TrimStartSkipsSpace(w: string, y: string)
    requires AllSpace(w)
    ensures TrimStart(w + y) == TrimStart(y)
  {
    if w != [] {
      assert (w + y)[1..] == w[1..] + y;
      TrimStartSkipsSpace(w[1..], y);
    } else {
      assert w + y == y;
    }
  }

  lemma {:induction false} TrimEndSkipsSpace(y: string, w: string)
    requires AllSpace(w)
    ensures TrimEnd(y + w) == TrimEnd(y)
  {
    if w != [] {
      assert (y + w)[..|y + w| - 1] == y + w[..|w| - 1];
      TrimEndSkipsSpace(y, w[..|w| - 1]);
    } else {
      assert y + w == y;
    }
  }

  lemma {:induction false} TrimStartAppendSpace(x: string, w: string)
    requires AllSpace(w)
    ensures TrimStart(x + w) == if TrimStart(x) == [] then [] else TrimStart(x) + w
  {
    if x == [] {
      TrimStartSkipsSpace(w, []);
      assert w + [] == w && x + w == w;
    } else {
      assert (x + w)[0] == x[0] && (x + w)[1..] == x[1..] + w;
      if IsSpace(x[0]) {
        TrimStartAppendSpace(x[1..], w);
      }
    }
  }

  /** Trimming ignores white space added around the text. */
  lemma TrimPadded(w1: string, x: string, w2: string)
    requires AllSpace(w1) && AllSpace(w2)
    ensures Trim(w1 + x + w2) == Trim(x)
  {
    assert w1 + x + w2 == w1 + (x + w2);
    TrimStartSkipsSpace(w1, x + w2);
    TrimStartAppendSpace(x, w2);
    if TrimStart(x) != [] {
      TrimEndSkipsSpace(TrimStart(x), w2);
    }
  }

  // ---------------------------------------------------------------- split

  /** `s.split(sep)` for a one-character separator. */
  function Split(s: string, sep: char): (parts: seq<string>)
    ensures |parts| >= 1 && |parts[0]| <= |s|
    ensures forall i :: 0 <= i < |parts| ==> sep !in parts[i]
  {
    if s == [] then [""]
    else
      var rest := Split(s[1..], sep);
      if s[0] == sep then [""] + rest else [[s[0]] + rest[0]] + rest[1..]
  }

  /** `parts.join(sep)`. */
  function Join(parts: seq<string>, sep: char): string
    requires |parts| >= 1
  {
    if |parts| == 1 then parts[0] else parts[0] + [sep] + Join(parts[1..], sep)
  }

  /** Splitting and re-joining gives back the original string. */
  lemma {:induction false} SplitJoin(s: string, sep: char)
    ensures Join(Split(s, sep), sep) == s
  {
    if s != [] {
      var rest := Split(s[1..], sep);
      SplitJoin(s[1..], sep);
      if s[0] != sep {
        if |rest| == 1 {
          assert Split(s, sep) == [[s[0]] + rest[0]];
        } else {
          assert Split(s, sep)[1..] == rest[1..];
          assert Join(rest, sep) == rest[0] + [sep] + Join(rest[1..], sep);
        }
      }
    }
  }

  /** A field free of the separator splits off as the first part. */
  lemma {:induction false} SplitCons(a: string, sep: char, rest: string)
    requires sep !in a
    ensures Split(a + [sep] + rest, sep) == [a] + Split(rest, sep)
  {
    if a != [] {
      var s := a + [sep] + rest;
      assert s[0] == a[0] && s[1..] == a[1..] + [sep] + rest;
      SplitCons(a[1..], sep, rest);
      assert a[0] != sep by { assert a[0] in a; }
      var tail := Split(s[1..], sep);
      assert tail == [a[1..]] + Split(rest, sep);
      assert Split(s, sep) == [[a[0]] + tail[0]] + tail[1..];
      assert [a[0]] + a[1..] == a;
    } else {
      var s := a + [sep] + rest;
      assert s[0] == sep && s[1..] == rest;
    }
  }

  /** A string without the separator is a single field. */
  lemma {:induction false} SplitNoSep(s: string, sep: char)
    requires sep !in s
    ensures Split(s, sep) == [s]
  {
    if s != [] {
      assert s[0] != sep by { assert s[0] in s; }
      assert sep !in s[1..] by {
        forall i | 0 <= i < |s[1..]| ensures s[1..][i] != sep {
          assert s[1..][i] == s[i + 1];
          assert s[i + 1] in s;
        }
      }
      SplitNoSep(s[1..], sep);
      assert [s[0]] + s[1..] == s;
    }
  }

  /** Three separator-free fields joined by the separator split back into them. */
  lemma SplitThree(a: string, b: string, c: string, sep: char)
    requires sep !in a && sep !in b && sep !in c
    ensures Split(a + [sep] + b + [sep] + c, sep) == [a, b, c]
  {
    assert a + [sep] + b + [sep] + c == a + [sep] + (b + [sep] + c);
    SplitCons(a, sep, b + [sep] + c);
    SplitCons(b, sep, c);
    SplitNoSep(c, sep);
  }

  /** A run of digits holds no separator that is not a digit. */
  lemma DigitsHaveNoSeparator(s: string, sep: char)
    requires AllDigits(s) && !IsDigit(sep)
    ensures sep !in s
  {
  }

  /** The first field of `s.split(sep)`: everything before the first separator. */
  lemma {:induction false} SplitFirstField(s: string, sep: char)
    ensures Split(s, sep)[0] == s[..|Split(s, sep)[0]|]
    ensures |Split(s, sep)[0]| < |s| ==> s[|Split(s, sep)[0]|] == sep
  {
    if s != [] && s[0] != sep {
      SplitFirstField(s[1..], sep);
    }
  }

  // ---------------------------------------------------------------- search

  /** `s.startsWith(p)`. */
  predicate StartsWith(s: string, p: string) {
    |p| <= |s| && s[..|p|] == p
  }

  /** `s.includes(p)`. */
  predicate Includes(s: string, p: string)
    decreases |s|
  {
    StartsWith(s, p) || (s != [] && Includes(s[1..], p))
  }

  /** An occurrence of `p` at any position makes `includes` hold. */
  lemma {:induction false} IncludesAt(s: string, p: string, i: nat)
    requires i + |p| <= |s| && s[i..i + |p|] == p
    ensures Includes(s, p)
  {
    if i > 0 {
      assert s[1..][i - 1..i - 1 + |p|] == p;
      IncludesAt(s[1..], p, i - 1);
    }
  }

  /** The UTF-16 code units of a string, as `charCodeAt` and `slice` see them. */
  function Utf16(s: string): (units: seq<int>)
    ensures |units| >= |s|
    ensures forall i :: 0 <= i < |units| ==> 0 <= units[i] < 0x1_0000
  {
    if s == [] then []
    else
      var c := s[0] as int;
      var head := if c < 0x1_0000 then [c]
                  else [0xD800 + (c - 0x1_0000) / 0x400, 0xDC00 + (c - 0x1_0000) % 0x400];
      head + Utf16(s[1..])
  }

  /** How many UTF-16 code units a character takes: two outside the Basic Multilingual Plane. */
  function Width(c: char): nat {
    if (c as int) < 0x1_0000 then 1 else 2
  }

  /** The length JavaScript reports for a string. */
  function Units(s: string): (n: nat)
    ensures n == |Utf16(s)|
  {
    if s == [] then 0 else Width(s[0]) + Units(s[1..])
  }

  /** `t` is the longest prefix of `s` that fits in `n` UTF-16 code units. */
  predicate LongestFit(t: string, s: string, n: nat) {
    |t| <= |s| && t == s[..|t|] && Units(t) <= n
    && (|t| < |s| ==> Units(s[..|t| + 1]) > n)
  }

  /**
   * `s.slice(0, n)` counted in UTF-16 code units, on whole characters: the
   * longest prefix of `s` that fits in `n` units.
   */
  function SliceUnits(s: string, n: nat): (r: string)
    ensures LongestFit(r, s, n)
    ensures Units(s) <= n ==> r == s
  {
    if s == [] || Width(s[0]) > n then
      assert s != [] ==> s[..1] == [s[0]] && [s[0]][1..] == [];
      []
    else
      var rest := SliceUnits(s[1..], n - Width(s[0]));
      LongestFitStep(rest, s, n);
      [s[0]] + rest
  }

  /** Putting back a first character that fits extends a longest fit of the rest. */
  lemma LongestFitStep(rest: string, s: string, n: nat)
    requires s != [] && Width(s[0]) <= n
    requires LongestFit(rest, s[1..], n - Width(s[0]))
    ensures LongestFit([s[0]] + rest, s, n)
  {
    assert ([s[0]] + rest)[1..] == rest;
    assert s[..|rest| + 1] == [s[0]] + s[1..][..|rest|];
    assert |rest| < |s[1..]| ==> s[..|rest| + 2][1..] == s[1..][..|rest| + 1];
  }

  /** Without characters outside the Basic Multilingual Plane, the longest fit is the first `n` characters. */
  lemma LongestFitOfPlain(t: string, s: string, n: nat)
    requires forall i :: 0 <= i < |s| ==> (s[i] as int) < 0x1_0000
    requires LongestFit(t, s, n)
    ensures t == s[..if |s| < n then |s| else n]
  {
    UnitsOfPlain(t);
    if |t| < |s| {
      UnitsOfPlain(s[..|t| + 1]);
    } else {
      UnitsOfPlain(s);
    }
  }

  /** Without characters outside the Basic Multilingual Plane, code units are characters. */
  lemma {:induction false} UnitsOfPlain(s: string)
    requires forall i :: 0 <= i < |s| ==> (s[i] as int) < 0x1_0000
    ensures Units(s) == |s|
  {
    if s != [] {
      UnitsOfPlain(s[1..]);
    }
  }
}
