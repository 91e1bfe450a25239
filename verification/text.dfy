/**
 * String and sequence vocabulary shared by the server and the client
 * collectors: ASCII case folding, substring search, order-preserving filters,
 * Python's `str.split`/`str.join` on one separator and `str.strip()`.
 */
module Text {
  import opened Wrappers

  predicate IsDigit(c: char) { '0' <= c <= '9' }

  predicate IsHexDigit(c: char) { IsDigit(c) || 'a' <= c <= 'f' || 'A' <= c <= 'F' }

  predicate AllDigits(s: string) { forall i :: 0 <= i < |s| ==> IsDigit(s[i]) }

  /** ASCII lower-casing, as Python's `str.lower()` and JavaScript's `/i` treat ASCII letters. */
  function LowerChar(c: char): char
  {
    if 'A' <= c <= 'Z' then (c as int + 32) as char else c
  }

  function Lower(s: string): (r: string)
    ensures |r| == |s|
    ensures forall i :: 0 <= i < |s| ==> r[i] == LowerChar(s[i])
  {
    if s == [] then [] else [LowerChar(s[0])] + Lower(s[1..])
  }

  lemma LowerIdempotent(s: string)
    ensures Lower(Lower(s)) == Lower(s)
  {
  }

  /** `p` occurs in `s` starting at index `i`. */
  predicate StartsAt(s: string, i: int, p: string)
  {
    0 <= i && i + |p| <= |s| && s[i..i + |p|] == p
  }

  /** The leftmost occurrence of `p` in `s` at or after `i` (JavaScript's `indexOf(p, i)`). */
  function IndexFrom(s: string, p: string, i: nat): (r: Option<nat>)
    decreases |s| - i
    ensures r.Some? ==> i <= r.value && StartsAt(s, r.value, p)
    ensures r.Some? ==> forall j :: i <= j < r.value ==> !StartsAt(s, j, p)
    ensures r.None? ==> forall j :: i <= j ==> !StartsAt(s, j, p)
  {
    if i + |p| > |s| then None
    else if StartsAt(s, i, p) then Some(i)
    else IndexFrom(s, p, i + 1)
  }

  predicate Contains(s: string, p: string)
  {
    IndexFrom(s, p, 0).Some?
  }

  lemma ContainsAt(s: string, p: string, j: int)
    requires StartsAt(s, j, p)
    ensures Contains(s, p)
  {
  }

  /** The elements of `s` that satisfy `keep`, in their original order (a list comprehension with a filter). */
  function Filter<T(!new)>(keep: T -> bool, s: seq<T>): (r: seq<T>)
    ensures |r| <= |s|
  {
    if s == [] then []
    else
      var rest := Filter(keep, s[1..]);
      if keep(s[0]) then [s[0]] + rest else rest
  }

  /** The filter keeps exactly the elements that satisfy `keep`, each as often as it occurs. */
  lemma {:induction false} FilterContents<T(!new)>(keep: T -> bool, s: seq<T>)
    ensures forall x :: x in Filter(keep, s) <==> x in s && keep(x)
    ensures forall x :: multiset(Filter(keep, s))[x] == if keep(x) then multiset(s)[x] else 0
  {
    if s != [] {
      FilterContents(keep, s[1..]);
      assert s == [s[0]] + s[1..];
    }
  }

  /** `a` can be obtained from `b` by deleting elements, so the elements of `a` keep their order in `b`. */
  predicate IsSubsequence<T(==)>(a: seq<T>, b: seq<T>)
    decreases |b|
  {
    a == [] || (b != [] && if a[0] == b[0] then IsSubsequence(a[1..], b[1..]) else IsSubsequence(a, b[1..]))
  }

  lemma {:induction false} FilterIsSubsequence<T(!new)>(keep: T -> bool, s: seq<T>)
    ensures IsSubsequence(Filter(keep, s), s)
  {
    if s != [] {
      FilterIsSubsequence(keep, s[1..]);
      FilterContents(keep, s[1..]);
      var rest := Filter(keep, s[1..]);
      if !keep(s[0]) && rest != [] {
        assert rest[0] in rest;
        assert rest[0] != s[0];
      }
    }
  }

  /** Filtering a list that grew by one element at its end. */
  lemma {:induction false} FilterSnoc<T(!new)>(keep: T -> bool, s: seq<T>, x: T)
    ensures Filter(keep, s + [x]) == Filter(keep, s) + (if keep(x) then [x] else [])
  {
    if s != [] {
      var t := s + [x];
      assert t[0] == s[0] && t[1..] == s[1..] + [x];
      FilterSnoc(keep, s[1..], x);
      var head := if keep(s[0]) then [s[0]] else [];
      assert Filter(keep, t) == head + Filter(keep, t[1..]);
      assert Filter(keep, s) == head + Filter(keep, s[1..]);
    } else {
      assert [x][1..] == [];
    }
  }

  function Count(s: string, c: char): nat
  {
    if s == [] then 0 else (if s[0] == c then 1 else 0) + Count(s[1..], c)
  }

  /** Python's `s.split(sep)` for a one-character separator: never empty, `""` splits to `[""]`. */
  function Split(s: string, sep: char): (parts: seq<string>)
    ensures |parts| == Count(s, sep) + 1
    ensures forall i :: 0 <= i < |parts| ==> sep !in parts[i]
  {
    if s == [] then [""]
    else
      var rest := Split(s[1..], sep);
      if s[0] == sep then [""] + rest
      else
        assert sep !in [s[0]] + rest[0];
        [[s[0]] + rest[0]] + rest[1..]
  }

  /** Python's `sep.join(xs)`. */
  function Join(xs: seq<string>, sep: char): string
  {
    if xs == [] then "" else if |xs| == 1 then xs[0] else xs[0] + [sep] + Join(xs[1..], sep)
  }

  lemma {:induction false} JoinSplit(s: string, sep: char)
    ensures Join(Split(s, sep), sep) == s
  {
    if s != [] {
      var rest := Split(s[1..], sep);
      JoinSplit(s[1..], sep);
      assert s == [s[0]] + s[1..];
      if s[0] == sep {
        assert Split(s, sep) == [""] + rest;
        assert ([""] + rest)[1..] == rest;
      } else {
        assert Split(s, sep) == [[s[0]] + rest[0]] + rest[1..];
        JoinPrepend(s[0], rest, sep);
      }
    }
  }

  /** Prepending a character to the first part prepends it to the joined string. */
  lemma JoinPrepend(c: char, xs: seq<string>, sep: char)
    requires xs != []
    ensures Join([[c] + xs[0]] + xs[1..], sep) == [c] + Join(xs, sep)
  {
    var parts := [[c] + xs[0]] + xs[1..];
    if |xs| > 1 {
      assert parts[1..] == xs[1..];
    }
  }

  lemma {:induction false} SplitNoSeparator(a: string, sep: char)
    requires sep !in a
    ensures Split(a, sep) == [a]
  {
    if a != [] {
      SplitNoSeparator(a[1..], sep);
      assert a == [a[0]] + a[1..];
    }
  }

  lemma {:induction false} SplitAfterSeparator(a: string, b: string, sep: char)
    requires sep !in a
    ensures Split(a + [sep] + b, sep) == [a] + Split(b, sep)
  {
    if a == [] {
      assert a + [sep] + b == [sep] + b;
      assert ([sep] + b)[1..] == b;
    } else {
      var t := a + [sep] + b;
      assert t[0] == a[0] && t[1..] == a[1..] + [sep] + b;
      SplitAfterSeparator(a[1..], b, sep);
      assert a == [a[0]] + a[1..];
    }
  }

  lemma {:induction false} SplitJoin(xs: seq<string>, sep: char)
    requires xs != []
    requires forall i :: 0 <= i < |xs| ==> sep !in xs[i]
    ensures Split(Join(xs, sep), sep) == xs
  {
    if |xs| == 1 {
      SplitNoSeparator(xs[0], sep);
    } else {
      SplitJoin(xs[1..], sep);
      SplitAfterSeparator(xs[0], Join(xs[1..], sep), sep);
      assert xs == [xs[0]] + xs[1..];
    }
  }

  /** The characters Python's `str.isspace()` accepts, which `str.strip()` removes. */
  predicate IsPyWhitespace(c: char)
  {
    var n := c as int;
    (0x09 <= n <= 0x0D) || (0x1C <= n <= 0x20) || n == 0x85 || n == 0xA0 || n == 0x1680
    || (0x2000 <= n <= 0x200A) || n == 0x2028 || n == 0x2029 || n == 0x202F || n == 0x205F || n == 0x3000
  }

  /** The leading half of `str.strip()`: drops the whitespace prefix and nothing else. */
  function TrimStart(s: string): (r: string)
    ensures r == [] || !IsPyWhitespace(r[0])
    ensures exists k :: 0 <= k <= |s| && r == s[k..] && forall j :: 0 <= j < k ==> IsPyWhitespace(s[j])
  {
    if s != [] && IsPyWhitespace(s[0]) then
      var r := TrimStart(s[1..]);
      var k :| 0 <= k <= |s[1..]| && r == s[1..][k..] && forall j :: 0 <= j < k ==> IsPyWhitespace(s[1..][j]);
      assert r == s[k + 1..];
      assert forall j :: 0 <= j < k + 1 ==> IsPyWhitespace(s[j]) by {
        forall j | 0 <= j < k + 1 ensures IsPyWhitespace(s[j]) {
          if j > 0 {
            assert s[j] == s[1..][j - 1];
          }
        }
      }
      r
    else
      assert s == s[0..];
      s
  }

  /** The trailing half of `str.strip()`: drops the whitespace suffix and nothing else. */
  function TrimEnd(s: string): (r: string)
    ensures r == [] || !IsPyWhitespace(r[|r| - 1])
    ensures exists k :: 0 <= k <= |s| && r == s[..k] && forall j :: k <= j < |s| ==> IsPyWhitespace(s[j])
  {
    if s != [] && IsPyWhitespace(s[|s| - 1]) then
      var init := s[..|s| - 1];
      var r := TrimEnd(init);
      var k :| 0 <= k <= |init| && r == init[..k] && forall j :: k <= j < |init| ==> IsPyWhitespace(init[j]);
      assert r == s[..k];
      assert forall j :: k <= j < |s| ==> IsPyWhitespace(s[j]) by {
        forall j | k <= j < |s| ensures IsPyWhitespace(s[j]) {
          if j < |init| {
            assert s[j] == init[j];
          }
        }
      }
      r
    else
      assert s == s[..|s|];
      s
  }

  /** Python's `s.strip()`. */
  function Strip(s: string): string
  {
    TrimEnd(TrimStart(s))
  }

  /** The value of a string of ASCII decimal digits. */
  function DecimalValue(s: string): nat
    requires AllDigits(s)
  {
    if s == [] then 0 else DecimalValue(s[..|s| - 1]) * 10 + (s[|s| - 1] as int - '0' as int)
  }

  /** The number of characters in Python's `str(n)` for an integer `n`. */
  function DecimalLength(n: int): nat
  {
    if n < 0 then 1 + DigitCount(-n) else DigitCount(n)
  }

  function DigitCount(n: nat): nat
  {
    if n < 10 then 1 else 1 + DigitCount(n / 10)
  }

  /** The text after one optional leading `+` or `-`. */
  function Unsigned(t: string): string
  {
    if |t| > 0 && (t[0] == '+' || t[0] == '-') then t[1..] else t
  }

  /**
   * A run of ASCII digits in which single underscores may separate digits
   * (PEP 515): `1_000` but not `_1`, `1_` or `1__0`.
   */
  predicate IsDigitGroup(d: string)
  {
    |d| > 0 && IsDigit(d[0]) && IsDigit(d[|d| - 1])
    && (forall i :: 0 <= i < |d| ==> IsDigit(d[i]) || d[i] == '_')
    && (forall i :: 0 <= i < |d| - 1 ==> d[i] == '_' ==> d[i + 1] != '_')
  }

  /** Strings Python's `int(s)` accepts: surrounding whitespace, an optional sign, a digit group. */
  predicate IsIntLiteral(s: string)
  {
    IsDigitGroup(Unsigned(Strip(s)))
  }

  /** `digits`, `digits.`, `.digits` or `digits.digits`, each `digits` a digit group. */
  predicate IsDecimalMantissa(m: string)
  {
    var parts := Split(m, '.');
    (|parts| == 1 && IsDigitGroup(m))
    || (|parts| == 2 && |parts[0] + parts[1]| > 0
        && (parts[0] == "" || IsDigitGroup(parts[0])) && (parts[1] == "" || IsDigitGroup(parts[1])))
  }

  /** A mantissa with an optional `e`/`E` exponent made of an optional sign and a digit group. */
  predicate IsDecimalFloat(d: string)
  {
    var parts := Split(Lower(d), 'e');
    (|parts| == 1 && IsDecimalMantissa(d))
    || (|parts| == 2 && IsDecimalMantissa(parts[0]) && IsDigitGroup(Unsigned(parts[1])))
  }

  /** Strings Python's `float(s)` accepts: a signed decimal float, `inf`, `infinity` or `nan` in any case. */
  predicate IsFloatLiteral(s: string)
  {
    var d := Unsigned(Strip(s));
    IsDecimalFloat(d) || Lower(d) in {"inf", "infinity", "nan"}
  }

  /** `str.strip()` leaves a string alone whose ends are not whitespace. */
  lemma StripUnpadded(s: string)
    requires s != [] && !IsPyWhitespace(s[0]) && !IsPyWhitespace(s[|s| - 1])
    ensures Strip(s) == s
  {
    assert TrimStart(s) == s;
  }

  /** Underscores between digits are accepted, with or without a sign. */
  lemma UnderscoreSeparatorsAccepted()
    ensures IsIntLiteral("1_000") && IsIntLiteral("-0_7")
  {
    DigitGroupExamples();
    UnpaddedIntLiteral("1_000");
    UnpaddedIntLiteral("-0_7");
  }

  /** A string with no whitespace at its ends is an `int()` literal when its unsigned part is a digit group. */
  lemma UnpaddedIntLiteral(s: string)
    requires s != [] && !IsPyWhitespace(s[0]) && !IsPyWhitespace(s[|s| - 1])
    requires IsDigitGroup(Unsigned(s))
    ensures IsIntLiteral(s)
  {
    StripUnpadded(s);
  }

  /** `1_000` and the unsigned part of `-0_7` are digit groups. */
  lemma DigitGroupExamples()
    ensures IsDigitGroup("1_000") && IsDigitGroup(Unsigned("-0_7"))
  {
    var a := "1_000";
    assert forall i :: 0 <= i < |a| ==> IsDigit(a[i]) || a[i] == '_';
    assert forall i :: 0 <= i < |a| - 1 ==> a[i] == '_' ==> a[i + 1] != '_';
    assert Unsigned("-0_7") == "0_7";
  }

  /** An underscore at either end of the digits, or two in a row, is refused. */
  lemma UnderscoreSeparatorsRefused()
    ensures !IsIntLiteral("_1") && !IsIntLiteral("1_") && !IsIntLiteral("1__0")
  {
    StripUnpadded("_1");
    StripUnpadded("1_");
    StripUnpadded("1__0");
    assert "1__0"[1] == '_' && "1__0"[2] == '_';
  }

  // ------------------------------------------------------------ subsequences

  /** A subsequence of `b` stays one when an element is put in front of `b`. */
  lemma {:induction false} SubsequenceCons<T>(a: seq<T>, x: T, b: seq<T>)
    requires IsSubsequence(a, b)
    ensures IsSubsequence(a, [x] + b)
    decreases |b|
  {
    var xb := [x] + b;
    assert xb[1..] == b;
    if a != [] && a[0] == x {
      // IsSubsequence(a[1..], b) is what remains to show.
      if a[0] == b[0] {
        SubsequenceCons(a[1..], b[0], b[1..]);
        assert [b[0]] + b[1..] == b;
      } else {
        SubsequenceCons(a, x, b[1..]);
        assert ([x] + b[1..])[1..] == b[1..];
        SubsequenceCons(a[1..], b[0], b[1..]);
        assert [b[0]] + b[1..] == b;
      }
    }
  }

  /** A subsequence holds only elements of the sequence. */
  lemma {:induction false} SubsequenceElements<T>(a: seq<T>, b: seq<T>)
    requires IsSubsequence(a, b)
    ensures forall x :: x in a ==> x in b
    decreases |b|
  {
    if a != [] {
      if a[0] == b[0] {
        SubsequenceElements(a[1..], b[1..]);
        forall x | x in a ensures x in b {
          if x != a[0] {
            assert x in a[1..];
          }
        }
      } else {
        SubsequenceElements(a, b[1..]);
      }
    }
  }

  /**
   * In a sequence without repetitions, a subsequence is fixed by its elements:
   * two subsequences holding the same elements are equal, order included.
   */
  lemma {:induction false} SubsequenceBySet<T>(a: seq<T>, c: seq<T>, b: seq<T>)
    requires IsSubsequence(a, b) && IsSubsequence(c, b)
    requires forall i, j :: 0 <= i < j < |b| ==> b[i] != b[j]
    requires forall x :: x in a <==> x in c
    ensures a == c
    decreases |b|
  {
    if b == [] {
      assert a == [] && c == [];
    } else {
      var y := b[0];
      var rest := b[1..];
      assert forall i, j :: 0 <= i < j < |rest| ==> rest[i] != rest[j] by {
        forall i, j | 0 <= i < j < |rest| ensures rest[i] != rest[j] {
          assert rest[i] == b[i + 1] && rest[j] == b[j + 1];
        }
      }
      assert y !in rest by {
        forall i | 0 <= i < |rest| ensures rest[i] != y {
          assert rest[i] == b[i + 1];
        }
      }
      if y in a {
        assert a != [] && c != [];
        if a[0] != y {
          SubsequenceElements(a, rest);
        }
        if c[0] != y {
          SubsequenceElements(c, rest);
        }
        SubsequenceElements(a[1..], rest);
        SubsequenceElements(c[1..], rest);
        forall x ensures x in a[1..] <==> x in c[1..] {
          if x in a[1..] {
            assert x in c && x != y;
            assert c == [c[0]] + c[1..];
          }
          if x in c[1..] {
            assert x in a && x != y;
            assert a == [a[0]] + a[1..];
          }
        }
        SubsequenceBySet(a[1..], c[1..], rest);
        assert a == [y] + a[1..] && c == [y] + c[1..];
      } else {
        SubsequenceBySet(a, c, rest);
      }
    }
  }

  // ------------------------------------------------------------ containment

  /** An occurrence in `b` is an occurrence in `a + b`. */
  lemma ContainsInSuffix(a: string, b: string, p: string)
    requires Contains(b, p)
    ensures Contains(a + b, p)
  {
    var j := IndexFrom(b, p, 0).value;
    assert (a + b)[|a| + j..|a| + j + |p|] == b[j..j + |p|];
    ContainsAt(a + b, p, |a| + j);
  }

  /** An occurrence in `a` is an occurrence in `a + b`. */
  lemma ContainsInPrefix(a: string, b: string, p: string)
    requires Contains(a, p)
    ensures Contains(a + b, p)
  {
    var j := IndexFrom(a, p, 0).value;
    assert (a + b)[j..j + |p|] == a[j..j + |p|];
    ContainsAt(a + b, p, j);
  }
}
