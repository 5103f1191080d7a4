/**
 * String helpers shared by the parsers, the identifier builder, the registry
 * and the storage queries: Python's whitespace set and `str.strip`, ASCII
 * `str.lower`, decimal digits, zero padding, code-point string order and
 * `sorted` over a set of strings.
 */
module Text {

  /** The characters Python's `str.isspace` accepts (and `str.strip()` and `float()` remove). */
  predicate IsSpace(c: char) {
    || c == ' '
    || ('\t' <= c <= '\r')
    || ('\U{1C}' <= c <= '\U{1F}')
    || c == '\U{85}' || c == '\U{A0}' || c == '\U{1680}'
    || ('\U{2000}' <= c <= '\U{200A}')
    || c == '\U{2028}' || c == '\U{2029}' || c == '\U{202F}' || c == '\U{205F}' || c == '\U{3000}'
  }

  /** The characters a strip removes: whitespace for `strip()`, or the given ones for `strip(chars)`. */
  datatype CharClass = Space | AnyOf(chars: set<char>)

  predicate InClass(c: char, cls: CharClass) {
    match cls
    case Space => IsSpace(c)
    case AnyOf(cs) => c in cs
  }

  /** Drops the leading characters that belong to `cls`. */
  function TrimStart(s: string, cls: CharClass): (r: string)
    ensures |r| <= |s| && r == s[|s| - |r|..]
    ensures r == [] || !InClass(r[0], cls)
    ensures forall i :: 0 <= i < |s| - |r| ==> InClass(s[i], cls)
  {
    if s != [] && InClass(s[0], cls) then TrimStart(s[1..], cls) else s
  }

  /** Drops the trailing characters that belong to `cls`. */
  function TrimEnd(s: string, cls: CharClass): (r: string)
    ensures |r| <= |s| && r == s[..|r|]
    ensures r == [] || !InClass(r[|r| - 1], cls)
    ensures forall i :: |r| <= i < |s| ==> InClass(s[i], cls)
  {
    if s != [] && InClass(s[|s| - 1], cls) then TrimEnd(s[..|s| - 1], cls) else s
  }

  /**
   * Python's `s.strip(chars)`: what is left of `s` once both ends are cleared
   * of `cls`; empty exactly when every character of `s` is in `cls`.
   */
  function StripChars(s: string, cls: CharClass): (r: string)
    ensures |r| <= |s|
    ensures r == [] || (!InClass(r[0], cls) && !InClass(r[|r| - 1], cls))
    ensures r == [] <==> forall i :: 0 <= i < |s| ==> InClass(s[i], cls)
  {
    TrimBothEmptyIff(s, cls);
    TrimEnd(TrimStart(s, cls), cls)
  }

  lemma TrimBothEmptyIff(s: string, cls: CharClass)
    ensures TrimEnd(TrimStart(s, cls), cls) == [] <==> forall i :: 0 <= i < |s| ==> InClass(s[i], cls)
  {
    var t := TrimStart(s, cls);
    if t != [] {
      var c := t[0];
      assert !InClass(c, cls);
      assert TrimEnd(t, cls) == [] ==> InClass(c, cls);
      assert s[|s| - |t|] == t[0];
    }
  }

  /** What a strip keeps is one slice of `s`, and everything cut from either end is in `cls`. */
  lemma StripCharsSlice(s: string, cls: CharClass) returns (lo: nat, hi: nat)
    ensures lo <= hi <= |s| && StripChars(s, cls) == s[lo..hi]
    ensures forall i :: 0 <= i < lo ==> InClass(s[i], cls)
    ensures forall i :: hi <= i < |s| ==> InClass(s[i], cls)
  {
    var t := TrimStart(s, cls);
    var r := TrimEnd(t, cls);
    lo, hi := |s| - |t|, |s| - |t| + |r|;
    assert t == s[lo..];
    assert r == t[..|r|];
    forall i | hi <= i < |s| ensures InClass(s[i], cls) {
      assert s[i] == t[i - lo];
    }
  }

  /** Text whose two ends are outside `cls` is its own strip. */
  lemma StripCharsUnchanged(s: string, cls: CharClass)
    requires s != [] && !InClass(s[0], cls) && !InClass(s[|s| - 1], cls)
    ensures StripChars(s, cls) == s
  {
    assert TrimStart(s, cls) == s;
    assert TrimEnd(s, cls) == s;
  }

  /** One more character of `cls` at the end does not change the strip of such text. */
  lemma StripCharsTrailing(s: string, c: char, cls: CharClass)
    requires s != [] && !InClass(s[0], cls) && !InClass(s[|s| - 1], cls)
    requires InClass(c, cls)
    ensures StripChars(s + [c], cls) == s
  {
    var t := s + [c];
    assert TrimStart(t, cls) == t;
    assert t[..|t| - 1] == s;
    assert TrimEnd(s, cls) == s;
  }

  /** Python's `s.strip()`. */
  function Strip(s: string): string {
    StripChars(s, Space)
  }

  /** Text with no whitespace at either end is its own strip. */
  lemma StripUnchanged(s: string)
    requires s != [] && !IsSpace(s[0]) && !IsSpace(s[|s| - 1])
    ensures Strip(s) == s
  {
    StripCharsUnchanged(s, Space);
  }

  predicate IsDigit(c: char) {
    '0' <= c <= '9'
  }

  predicate IsAsciiLetter(c: char) {
    ('a' <= c <= 'z') || ('A' <= c <= 'Z')
  }

  /** The character class `[a-zA-Z0-9]`. */
  predicate IsAlnum(c: char) {
    IsAsciiLetter(c) || IsDigit(c)
  }

  predicate AllDigits(s: string) {
    forall i :: 0 <= i < |s| ==> IsDigit(s[i])
  }

  /** ASCII lower-casing of one character. */
  function LowerChar(c: char): (r: char)
    ensures 'A' <= c <= 'Z' ==> 'a' <= r <= 'z'
    ensures !('A' <= c <= 'Z') ==> r == c
  {
    if 'A' <= c <= 'Z' then (c as int + 32) as char else c
  }

  /** `s.lower()` restricted to ASCII letters. */
  function Lower(s: string): (r: string)
    ensures |r| == |s|
    ensures forall i :: 0 <= i < |s| ==> r[i] == LowerChar(s[i])
  {
    seq(|s|, i requires 0 <= i < |s| => LowerChar(s[i]))
  }

  lemma LowerTail(s: string)
    requires s != []
    ensures Lower(s)[0] == LowerChar(s[0]) && Lower(s)[1..] == Lower(s[1..])
  {
  }

  lemma LowerConcat(a: string, b: string)
    ensures Lower(a + b) == Lower(a) + Lower(b)
  {
  }

  function DigitValue(c: char): nat
    requires IsDigit(c)
  {
    c as int - '0' as int
  }

  function DigitChar(d: nat): (c: char)
    requires d < 10
    ensures IsDigit(c) && DigitValue(c) == d
  {
    ('0' as int + d) as char
  }

  function Pow10(n: nat): (p: nat)
    ensures p >= 1
  {
    if n == 0 then 1 else 10 * Pow10(n - 1)
  }

  /** The number a string of decimal digits denotes (most significant digit first). */
  function DigitsValue(s: string): (v: nat)
    requires AllDigits(s)
    ensures v < Pow10(|s|)
  {
    if s == [] then 0 else 10 * DigitsValue(s[..|s| - 1]) + DigitValue(s[|s| - 1])
  }

  /** Python's `"%0{w}d" % n` for `n < 10^w`: exactly `w` digits, zero padded on the left. */
  function Pad(n: nat, w: nat): (s: string)
    ensures |s| == w && AllDigits(s)
  {
    if w == 0 then [] else Pad(n / 10, w - 1) + [DigitChar(n % 10)]
  }

  /** Reading the padded digits back gives the number. */
  lemma {:induction false} PadRoundTrip(n: nat, w: nat)
    requires n < Pow10(w)
    ensures DigitsValue(Pad(n, w)) == n
  {
    if w > 0 {
      PadRoundTrip(n / 10, w - 1);
      var s := Pad(n, w);
      assert s[..|s| - 1] == Pad(n / 10, w - 1);
    }
  }

  /** Padding a digit string's value to its own length gives the string back. */
  lemma {:induction false} DigitsPadRoundTrip(s: string)
    requires AllDigits(s)
    ensures Pad(DigitsValue(s), |s|) == s
  {
    if s != [] {
      var init, c := s[..|s| - 1], s[|s| - 1];
      DigitsPadRoundTrip(init);
      var v := DigitsValue(s);
      assert v / 10 == DigitsValue(init) && v % 10 == DigitValue(c);
      assert DigitChar(DigitValue(c)) == c;
      assert s == init + [c];
    }
  }

  /** Digits of `b` written after those of `a` spell `a * 10^k + b`. */
  lemma {:induction false} PadConcat(a: nat, n: nat, b: nat, k: nat)
    requires b < Pow10(k)
    ensures Pad(a, n) + Pad(b, k) == Pad(a * Pow10(k) + b, n + k)
  {
    if k == 0 {
      assert Pad(b, k) == [];
      assert Pad(a, n) + Pad(b, k) == Pad(a, n);
    } else {
      var p := Pow10(k - 1);
      var x := a * Pow10(k) + b;
      assert x / 10 == a * p + b / 10 && x % 10 == b % 10 by {
        assert x == (a * p + b / 10) * 10 + b % 10;
      }
      PadConcat(a, n, b / 10, k - 1);
      assert Pad(a, n) + Pad(b, k) == (Pad(a, n) + Pad(b / 10, k - 1)) + [DigitChar(b % 10)];
    }
  }

  /** `s.replace(c, "")`: `s` with every `c` removed. */
  function Without(s: string, c: char): (r: string)
    ensures c !in r && |r| <= |s|
  {
    if s == [] then [] else (if s[0] == c then [] else [s[0]]) + Without(s[1..], c)
  }

  lemma {:induction false} WithoutConcat(a: string, b: string, c: char)
    ensures Without(a + b, c) == Without(a, c) + Without(b, c)
  {
    if a == [] {
      assert a + b == b;
    } else {
      assert (a + b)[0] == a[0] && (a + b)[1..] == a[1..] + b;
      WithoutConcat(a[1..], b, c);
    }
  }

  /** Removing a character that does not occur changes nothing. */
  lemma {:induction false} WithoutAbsent(s: string, c: char)
    requires c !in s
    ensures Without(s, c) == s
  {
    if s != [] {
      WithoutAbsent(s[1..], c);
      assert s == [s[0]] + s[1..];
    }
  }

  /** Removing one character keeps every other one out that was out. */
  lemma {:induction false} WithoutKeepsOut(s: string, c: char, d: char)
    requires d !in s
    ensures d !in Without(s, c)
  {
    if s != [] {
      WithoutKeepsOut(s[1..], c, d);
    }
  }

  /** Removing the only occurrence of `c`, between `x` and `y`. */
  lemma WithoutInfix(x: string, c: char, y: string)
    requires c !in x && c !in y
    ensures Without(x + [c] + y, c) == x + y
  {
    WithoutConcat(x + [c], y, c);
    WithoutConcat(x, [c], c);
    WithoutAbsent(x, c);
    WithoutAbsent(y, c);
    assert Without([c], c) == [];
    assert Without(x + [c], c) == x + [];
    assert x + [] == x;
  }

  lemma ConcatAssoc(u: string, v: string, w: string)
    ensures u + v + w == u + (v + w)
  {
  }

  /** Removing `c` and then `d` from `[c] + x + [d] + y`, where neither occurs in `x` or `y`. */
  lemma WithoutBoth(c: char, d: char, x: string, y: string)
    requires c != d
    requires c !in x && c !in y && d !in x && d !in y
    ensures Without(Without([c] + x + [d] + y, c), d) == x + y
  {
    WithoutConcat([c] + x + [d], y, c);
    WithoutConcat([c] + x, [d], c);
    WithoutConcat([c], x, c);
    WithoutAbsent(x, c);
    WithoutAbsent(y, c);
    assert Without([c], c) == [] && Without([d], c) == [d];
    assert [] + x == x;
    WithoutInfix(x, d, y);
  }

  /** Stripping whitespace adds no character. */
  lemma StripOmits(s: string, c: char)
    requires c !in s
    ensures c !in Strip(s)
  {
    var lo, hi := StripCharsSlice(s, Space);
    assert forall i :: lo <= i < hi ==> s[lo..hi][i - lo] == s[i];
  }

  /** The index of the first `c` in `s`, or `|s|` when there is none. */
  function IndexOf(s: string, c: char): (i: nat)
    ensures i <= |s| && (i < |s| ==> s[i] == c)
    ensures forall j :: 0 <= j < i ==> s[j] != c
  {
    if s == [] || s[0] == c then 0 else 1 + IndexOf(s[1..], c)
  }

  lemma IndexOfAbsent(s: string, c: char)
    requires c !in s
    ensures IndexOf(s, c) == |s|
  {
  }

  lemma IndexOfConcat(a: string, c: char, b: string)
    requires c !in a
    ensures IndexOf(a + [c] + b, c) == |a|
  {
    var s := a + [c] + b;
    assert s[|a|] == c;
    assert forall j :: 0 <= j < |a| ==> s[j] == a[j] && s[j] != c;
  }

  /** Python's `a <= b` on strings: lexicographic by code point. */
  predicate LexLe(a: string, b: string)
    decreases |a|
  {
    if a == [] then true
    else if b == [] then false
    else if a[0] != b[0] then a[0] < b[0]
    else LexLe(a[1..], b[1..])
  }

  predicate LexLt(a: string, b: string) {
    LexLe(a, b) && a != b
  }

  lemma {:induction false} LexLeRefl(a: string)
    ensures LexLe(a, a)
  {
    if a != [] {
      LexLeRefl(a[1..]);
    }
  }

  lemma {:induction false} LexLeTotal(a: string, b: string)
    ensures LexLe(a, b) || LexLe(b, a)
    decreases |a|
  {
    if a != [] && b != [] && a[0] == b[0] {
      LexLeTotal(a[1..], b[1..]);
    }
  }

  lemma {:induction false} LexLeAntisymmetric(a: string, b: string)
    requires LexLe(a, b) && LexLe(b, a)
    ensures a == b
    decreases |a|
  {
    if a != [] && b != [] {
      LexLeAntisymmetric(a[1..], b[1..]);
      assert a == [a[0]] + a[1..];
      assert b == [b[0]] + b[1..];
    }
  }

  lemma {:induction false} LexLeTransitive(a: string, b: string, c: string)
    requires LexLe(a, b) && LexLe(b, c)
    ensures LexLe(a, c)
    decreases |a|
  {
    if a != [] && b != [] && c != [] && a[0] == b[0] && b[0] == c[0] {
      LexLeTransitive(a[1..], b[1..], c[1..]);
    }
  }

  /**
   * Comparing two concatenations whose first parts have the same length: the
   * first parts decide unless they are equal.
   */
  lemma {:induction false} LexLeConcat(a1: string, b1: string, a2: string, b2: string)
    requires |a1| == |a2|
    ensures LexLe(a1 + b1, a2 + b2) == if a1 == a2 then LexLe(b1, b2) else LexLe(a1, a2)
    decreases |a1|
  {
    if a1 == [] {
      assert a1 + b1 == b1 && a2 + b2 == b2;
    } else {
      assert (a1 + b1)[0] == a1[0] && (a2 + b2)[0] == a2[0];
      assert (a1 + b1)[1..] == a1[1..] + b1;
      assert (a2 + b2)[1..] == a2[1..] + b2;
      LexLeConcat(a1[1..], b1, a2[1..], b2);
      if a1[0] == a2[0] && a1[1..] == a2[1..] {
        assert a1 == [a1[0]] + a1[1..] && a2 == [a2[0]] + a2[1..];
      }
    }
  }

  /** Zero-padded numbers of one width compare as strings exactly as they compare as numbers. */
  lemma {:induction false} PadOrder(n: nat, m: nat, w: nat)
    requires n < Pow10(w) && m < Pow10(w)
    ensures LexLe(Pad(n, w), Pad(m, w)) <==> n <= m
    ensures Pad(n, w) == Pad(m, w) <==> n == m
  {
    if w == 0 {
    } else {
      PadOrder(n / 10, m / 10, w - 1);
      var d1, d2 := [DigitChar(n % 10)], [DigitChar(m % 10)];
      LexLeConcat(Pad(n / 10, w - 1), d1, Pad(m / 10, w - 1), d2);
      assert LexLe(d1, d2) <==> n % 10 <= m % 10 by {
        assert d1[1..] == [] && d2[1..] == [];
      }
      assert d1 == d2 <==> n % 10 == m % 10 by {
        if d1 == d2 {
          assert DigitValue(d1[0]) == DigitValue(d2[0]);
        }
      }
      assert Pad(n, w) == Pad(m, w) ==> Pad(n / 10, w - 1) == Pad(m / 10, w - 1) && d1 == d2 by {
        if Pad(n, w) == Pad(m, w) {
          assert Pad(n, w)[..w - 1] == Pad(n / 10, w - 1);
          assert Pad(m, w)[..w - 1] == Pad(m / 10, w - 1);
          assert Pad(n, w)[w - 1] == d1[0] && Pad(m, w)[w - 1] == d2[0];
        }
      }
    }
  }

  /** Every element of `a` comes strictly before the next: sorted ascending, no repeats. */
  predicate StrictlySorted(a: seq<string>) {
    forall i, j :: 0 <= i < j < |a| ==> LexLt(a[i], a[j])
  }

  function Elements(a: seq<string>): set<string> {
    set x | x in a
  }

  /** `IsMinimum(m, s)`: `m` is the least element of `s` in code-point order. */
  predicate IsMinimum(m: string, s: set<string>) {
    m in s && forall y :: y in s ==> LexLe(m, y)
  }

  lemma {:induction false} MinimumExists(s: set<string>)
    requires s != {}
    ensures exists m :: IsMinimum(m, s)
    decreases |s|
  {
    var y :| y in s;
    if s == {y} {
      LexLeRefl(y);
      assert IsMinimum(y, s);
    } else {
      MinimumExists(s - {y});
      var m :| IsMinimum(m, s - {y});
      LexLeTotal(m, y);
      if LexLe(m, y) {
        assert IsMinimum(m, s);
      } else {
        forall z | z in s ensures LexLe(y, z) {
          if z == y {
            LexLeRefl(y);
          } else {
            LexLeTransitive(y, m, z);
          }
        }
        assert IsMinimum(y, s);
      }
    }
  }

  /** `r` lists, in order, the least strings of `s`; `remaining` holds the rest. */
  predicate SortedPrefix(r: seq<string>, remaining: set<string>, s: set<string>) {
    && StrictlySorted(r)
    && Elements(r) !! remaining && Elements(r) + remaining == s
    && |r| + |remaining| == |s|
    && forall i, y :: 0 <= i < |r| && y in remaining ==> LexLt(r[i], y)
  }

  /** Moving the least remaining string to the end of the listing keeps it a sorted prefix. */
  lemma AppendMinimum(r: seq<string>, remaining: set<string>, s: set<string>, m: string)
    requires SortedPrefix(r, remaining, s) && IsMinimum(m, remaining)
    ensures SortedPrefix(r + [m], remaining - {m}, s)
  {
    AppendMinimumOrder(r, remaining, m);
    assert Elements(r + [m]) == Elements(r) + {m};
  }

  lemma AppendMinimumOrder(r: seq<string>, remaining: set<string>, m: string)
    requires StrictlySorted(r) && IsMinimum(m, remaining)
    requires forall i, y :: 0 <= i < |r| && y in remaining ==> LexLt(r[i], y)
    ensures StrictlySorted(r + [m])
    ensures forall i, y :: 0 <= i < |r + [m]| && y in remaining - {m} ==> LexLt((r + [m])[i], y)
  {
    var r' := r + [m];
    forall i, j | 0 <= i < j < |r'| ensures LexLt(r'[i], r'[j]) {
      assert r'[i] == r[i];
    }
    forall i, y | 0 <= i < |r'| && y in remaining - {m} ensures LexLt(r'[i], y) {
      if i == |r| {
        assert LexLe(m, y);
      } else {
        assert r'[i] == r[i];
      }
    }
  }

  /** Python's `sorted(keys)` for a set of distinct strings. */
  method SortedStrings(s: set<string>) returns (r: seq<string>)
    ensures StrictlySorted(r)
    ensures Elements(r) == s
    ensures |r| == |s|
  {
    r := [];
    var remaining := s;
    while remaining != {}
      invariant SortedPrefix(r, remaining, s)
      decreases |remaining|
    {
      MinimumExists(remaining);
      var m :| IsMinimum(m, remaining);
      AppendMinimum(r, remaining, s, m);
      r := r + [m];
      remaining := remaining - {m};
    }
  }

  /** A set has only one strictly sorted listing. */
  lemma {:induction false} StrictlySortedUnique(a: seq<string>, b: seq<string>)
    requires StrictlySorted(a) && StrictlySorted(b)
    requires Elements(a) == Elements(b)
    ensures a == b
    decreases |a|
  {
    assert a != [] ==> a[0] in Elements(a);
    assert b != [] ==> b[0] in Elements(b);
    if a != [] {
      assert a[0] == b[0] by {
        assert b[0] in Elements(a) && a[0] in Elements(b);
        var i :| 0 <= i < |a| && a[i] == b[0];
        var j :| 0 <= j < |b| && b[j] == a[0];
        if a[0] != b[0] {
          assert LexLt(a[0], a[i]) && LexLt(b[0], b[j]);
          LexLeAntisymmetric(a[0], b[0]);
        }
      }
      assert Elements(a[1..]) == Elements(a) - {a[0]} by {
        forall x | x in a[1..] ensures x != a[0] {
          var i :| 0 <= i < |a[1..]| && a[1..][i] == x;
          assert LexLt(a[0], a[i + 1]);
        }
        assert a == [a[0]] + a[1..];
      }
      assert Elements(b[1..]) == Elements(b) - {b[0]} by {
        forall x | x in b[1..] ensures x != b[0] {
          var i :| 0 <= i < |b[1..]| && b[1..][i] == x;
          assert LexLt(b[0], b[i + 1]);
        }
        assert b == [b[0]] + b[1..];
      }
      StrictlySortedUnique(a[1..], b[1..]);
      assert a == [a[0]] + a[1..] && b == [b[0]] + b[1..];
    }
  }

  /** Python's `sep.join(parts)`. */
  function Join(parts: seq<string>, sep: string): (r: string)
    ensures |parts| == 1 ==> r == parts[0]
  {
    if parts == [] then []
    else if |parts| == 1 then parts[0]
    else parts[0] + sep + Join(parts[1..], sep)
  }
}
