/** The string operations of Python's `str` that the ingest code relies on. */
module Strings {

  predicate IsDigit(c: char)
  {
    '0' <= c <= '9'
  }

  predicate AllDigits(s: string)
  {
    forall i :: 0 <= i < |s| ==> IsDigit(s[i])
  }

  function DigitChar(d: nat): (c: char)
    requires d < 10
    ensures IsDigit(c)
  {
    (('0' as int) + d) as char
  }

  function DigitValue(c: char): (d: nat)
    requires IsDigit(c)
    ensures d < 10
  {
    (c as int) - ('0' as int)
  }

  function Pow10(k: nat): (p: nat)
    ensures p >= 1
  {
    if k == 0 then 1 else 10 * Pow10(k - 1)
  }

  /** `str(n)` for a non-negative integer: decimal, no leading zeros. */
  function NatToString(n: nat): (s: string)
    ensures |s| >= 1 && AllDigits(s)
    decreases n
  {
    if n < 10 then [DigitChar(n)] else NatToString(n / 10) + [DigitChar(n % 10)]
  }

  /** `str(i)` for any integer. */
  function IntToString(i: int): string
  {
    if i < 0 then "-" + NatToString(-i) else NatToString(i)
  }

  /** The value of a string of decimal digits (leading zeros allowed). */
  function ParseNat(s: string): nat
    requires AllDigits(s)
  {
    if s == [] then 0 else 10 * ParseNat(s[..|s| - 1]) + DigitValue(s[|s| - 1])
  }

  function Zeros(k: nat): (z: string)
    ensures |z| == k && AllDigits(z)
  {
    seq(k, _ => '0')
  }

  /** `f"{n:0{width}d}"` for a non-negative integer. */
  function ZeroPad(n: nat, width: nat): (s: string)
    ensures AllDigits(s) && |s| >= width
  {
    var d := NatToString(n);
    if |d| >= width then d else Zeros(width - |d|) + d
  }

  lemma {:induction false} ParseNatToString(n: nat)
    ensures ParseNat(NatToString(n)) == n
    decreases n
  {
    if n >= 10 {
      var s := NatToString(n);
      assert s[..|s| - 1] == NatToString(n / 10);
      ParseNatToString(n / 10);
    }
  }

  lemma {:induction false} NatToStringLength(n: nat, w: nat)
    requires w >= 1 && n < Pow10(w)
    ensures |NatToString(n)| <= w
    decreases n
  {
    if n >= 10 {
      assert w >= 1 && Pow10(w) == 10 * Pow10(w - 1);
      assert n / 10 < Pow10(w - 1);
      NatToStringLength(n / 10, w - 1);
      assert NatToString(n) == NatToString(n / 10) + [DigitChar(n % 10)];
    }
  }

  lemma {:induction false} ParseLeadingZeros(k: nat, d: string)
    requires AllDigits(d)
    ensures AllDigits(Zeros(k) + d) && ParseNat(Zeros(k) + d) == ParseNat(d)
    decreases |d|
  {
    var s := Zeros(k) + d;
    if d == [] {
      assert s == Zeros(k);
      ParseZeros(k);
    } else {
      assert s[..|s| - 1] == Zeros(k) + d[..|d| - 1];
      ParseLeadingZeros(k, d[..|d| - 1]);
    }
  }

  lemma {:induction false} ParseZeros(k: nat)
    ensures ParseNat(Zeros(k)) == 0
  {
    if k > 0 {
      assert Zeros(k)[..k - 1] == Zeros(k - 1);
      ParseZeros(k - 1);
    }
  }

  /** A zero-padded rendering has exactly the requested width and reads back as the number. */
  lemma ZeroPadRoundTrip(n: nat, width: nat)
    requires width >= 1 && n < Pow10(width)
    ensures |ZeroPad(n, width)| == width
    ensures ParseNat(ZeroPad(n, width)) == n
  {
    NatToStringLength(n, width);
    ParseNatToString(n);
    var d := NatToString(n);
    if |d| < width {
      assert ZeroPad(n, width) == Zeros(width - |d|) + d;
      ParseLeadingZeros(width - |d|, d);
    } else {
      assert ZeroPad(n, width) == d;
    }
  }

  // ---------------------------------------------------------------- split and join

  /** The first position of `c` in `s`. */
  function IndexOf(s: string, c: char): (i: nat)
    requires c in s
    ensures i < |s| && s[i] == c && c !in s[..i]
  {
    if s[0] == c then 0 else 1 + IndexOf(s[1..], c)
  }

  lemma {:induction false} IndexOfUnique(s: string, c: char, j: nat)
    requires j < |s| && s[j] == c && c !in s[..j]
    ensures IndexOf(s, c) == j
  {
    if j > 0 {
      assert s[..j][0] == s[0];
      assert s[1..][..j - 1] == s[..j][1..];
      IndexOfUnique(s[1..], c, j - 1);
    }
  }

  /** `s.split(c)` (an explicit one-character separator; empty fields are kept). */
  function Split(s: string, c: char): (r: seq<string>)
    ensures |r| >= 1
    decreases |s|
  {
    if c in s then
      var i := IndexOf(s, c);
      [s[..i]] + Split(s[i + 1..], c)
    else
      [s]
  }

  /** `sep.join(parts)`. */
  function Join(parts: seq<string>, sep: string): string
  {
    if |parts| == 0 then "" else if |parts| == 1 then parts[0] else parts[0] + sep + Join(parts[1..], sep)
  }

  /** Joining the fields of a split gives back the string. */
  lemma {:induction false} JoinSplit(s: string, c: char)
    ensures Join(Split(s, c), [c]) == s
    decreases |s|
  {
    if c in s {
      var i := IndexOf(s, c);
      JoinSplit(s[i + 1..], c);
      assert s == s[..i] + [c] + s[i + 1..];
    }
  }

  /** Splitting a join of separator-free fields gives back the fields. */
  lemma {:induction false} SplitJoin(parts: seq<string>, c: char)
    requires |parts| >= 1
    requires forall k :: 0 <= k < |parts| ==> c !in parts[k]
    ensures Split(Join(parts, [c]), c) == parts
  {
    if |parts| > 1 {
      var p0 := parts[0];
      var rest := Join(parts[1..], [c]);
      var s := p0 + [c] + rest;
      assert Join(parts, [c]) == s;
      assert s[|p0|] == c;
      assert s[..|p0|] == p0;
      IndexOfUnique(s, c, |p0|);
      var i := IndexOf(s, c);
      assert s[..i] == p0;
      assert s[i + 1..] == rest;
      SplitJoin(parts[1..], c);
    }
  }

  /** `s.rfind(c)`: the last position of `c`, or -1. */
  function RFind(s: string, c: char): (i: int)
    ensures -1 <= i < |s|
    ensures i >= 0 ==> s[i] == c
    ensures forall k :: i < k < |s| ==> s[k] != c
  {
    if s == [] then -1 else if s[|s| - 1] == c then |s| - 1 else RFind(s[..|s| - 1], c)
  }

  lemma {:induction false} RFindAppend(s: string, t: string, c: char)
    requires c !in t
    ensures RFind(s + t, c) == RFind(s, c)
    decreases |t|
  {
    if t != [] {
      assert (s + t)[..|s + t| - 1] == s + t[..|t| - 1];
      RFindAppend(s, t[..|t| - 1], c);
    } else {
      assert s + t == s;
    }
  }

  lemma RFindLast(s: string, c: char)
    ensures RFind(s + [c], c) == |s|
  {
  }

  /** `os.path.basename(p)`: what follows the last "/". */
  function Basename(p: string): (r: string)
    ensures '/' !in r
  {
    p[RFind(p, '/') + 1..]
  }

  /** The basename of `dir/name` is `name`. */
  lemma BasenameOf(dir: string, name: string)
    requires '/' !in name
    ensures Basename(dir + "/" + name) == name
  {
    RFindAppend(dir + "/", name, '/');
    RFindLast(dir, '/');
    assert (dir + "/" + name)[|dir| + 1..] == name;
  }

  /** `os.path.join(a, b)` for POSIX paths: an absolute `b` replaces `a`, otherwise exactly one "/"
      separates them unless `a` is empty or already ends in one. */
  function PathJoin(a: string, b: string): string
  {
    if |b| > 0 && b[0] == '/' then b
    else if a == "" || a[|a| - 1] == '/' then a + b
    else a + "/" + b
  }

  /** `s.rstrip(c)`: trailing copies of `c` removed. */
  function RStrip(s: string, c: char): (r: string)
    ensures |r| <= |s| && r == s[..|r|]
    ensures r == [] || r[|r| - 1] != c
    ensures forall k :: |r| <= k < |s| ==> s[k] == c
  {
    if s != [] && s[|s| - 1] == c then RStrip(s[..|s| - 1], c) else s
  }

  /** `s.replace(c, "")` for a one-character `c`. */
  function RemoveChar(s: string, c: char): (r: string)
    ensures c !in r
    ensures forall x :: x in r ==> x in s
  {
    if s == [] then [] else (if s[0] == c then [] else [s[0]]) + RemoveChar(s[1..], c)
  }

  /** A one-character string loses itself exactly when it is `c`. */
  lemma RemoveCharOne(x: char, c: char)
    ensures RemoveChar([x], c) == (if x == c then [] else [x])
  {
    assert [x][1..] == [];
  }

  /** Removal works character by character: removing from a concatenation concatenates the removals. */
  lemma {:induction false} RemoveCharConcat(a: string, b: string, c: char)
    ensures RemoveChar(a + b, c) == RemoveChar(a, c) + RemoveChar(b, c)
    decreases |a|
  {
    if a == [] {
      assert a + b == b;
    } else {
      var head: string := if a[0] == c then [] else [a[0]];
      assert (a + b)[0] == a[0] && (a + b)[1..] == a[1..] + b;
      RemoveCharConcat(a[1..], b, c);
      calc {
        RemoveChar(a + b, c);
        head + RemoveChar(a[1..] + b, c);
        head + (RemoveChar(a[1..], c) + RemoveChar(b, c));
        (head + RemoveChar(a[1..], c)) + RemoveChar(b, c);
        RemoveChar(a, c) + RemoveChar(b, c);
      }
    }
  }

  /** A string without `c` is left as it is. */
  lemma {:induction false} RemoveCharAbsent(s: string, c: char)
    requires c !in s
    ensures RemoveChar(s, c) == s
    decreases |s|
  {
    if s != [] {
      assert c !in s[1..];
      RemoveCharAbsent(s[1..], c);
      assert [s[0]] + s[1..] == s;
    }
  }

  // ---------------------------------------------------------------- replace

  /** `s.replace(p, r)`: every non-overlapping occurrence of `p`, scanning left to right. */
  function Replace(s: string, p: string, r: string): string
    requires |p| > 0
    decreases |s|
  {
    if |s| < |p| then s
    else if s[..|p|] == p then r + Replace(s[|p|..], p, r)
    else [s[0]] + Replace(s[1..], p, r)
  }

  predicate OccursAt(s: string, p: string, i: int)
  {
    0 <= i <= |s| - |p| && s[i..i + |p|] == p
  }

  predicate Occurs(s: string, p: string)
  {
    exists i :: 0 <= i <= |s| - |p| && OccursAt(s, p, i)
  }

  /** A prefix that cannot begin an occurrence is copied unchanged. */
  lemma {:induction false} ReplaceSkip(x: string, y: string, p: string, r: string)
    requires |p| > 0 && p[0] !in x
    ensures Replace(x + y, p, r) == x + Replace(y, p, r)
    decreases |x|
  {
    if x != [] {
      var s := x + y;
      assert s[0] == x[0] && x[0] in x;
      if |s| < |p| {
        assert Replace(s, p, r) == s;
        assert Replace(y, p, r) == y;
      } else {
        assert s[..|p|] != p by {
          assert s[..|p|][0] == x[0];
        }
        assert Replace(s, p, r) == [x[0]] + Replace(s[1..], p, r);
        assert s[1..] == x[1..] + y;
        assert p[0] !in x[1..] by {
          forall k | 0 <= k < |x[1..]| ensures x[1..][k] != p[0] {
            assert x[1..][k] == x[k + 1];
          }
        }
        ReplaceSkip(x[1..], y, p, r);
        calc {
          Replace(s, p, r);
          [x[0]] + Replace(x[1..] + y, p, r);
          [x[0]] + (x[1..] + Replace(y, p, r));
          ([x[0]] + x[1..]) + Replace(y, p, r);
          { assert [x[0]] + x[1..] == x; }
          x + Replace(y, p, r);
        }
      }
    } else {
      assert x + y == y;
    }
  }

  /** An occurrence at the front is substituted. */
  lemma ReplaceFront(y: string, p: string, r: string)
    requires |p| > 0
    ensures Replace(p + y, p, r) == r + Replace(y, p, r)
  {
    assert (p + y)[..|p|] == p;
    assert (p + y)[|p|..] == y;
  }

  /** A string in which `p` does not occur is left unchanged. */
  lemma {:induction false} ReplaceAbsent(s: string, p: string, r: string)
    requires |p| > 0 && !Occurs(s, p)
    ensures Replace(s, p, r) == s
    decreases |s|
  {
    if |s| >= |p| {
      assert s[0..|p|] == s[..|p|];
      assert !OccursAt(s, p, 0);
      forall i | OccursAt(s[1..], p, i) ensures OccursAt(s, p, i + 1) {
        assert s[1..][i..i + |p|] == s[i + 1..i + 1 + |p|];
      }
      ReplaceAbsent(s[1..], p, r);
    }
  }

  // ---------------------------------------------------------------- ordering

  /** Python's `<` on strings: lexicographic by code point. */
  predicate StrLess(a: string, b: string)
  {
    if a == [] then b != []
    else if b == [] then false
    else if a[0] != b[0] then a[0] < b[0]
    else StrLess(a[1..], b[1..])
  }

  lemma {:induction false} StrLessIrreflexive(a: string)
    ensures !StrLess(a, a)
  {
    if a != [] {
      StrLessIrreflexive(a[1..]);
    }
  }

  lemma {:induction false} StrLessTransitive(a: string, b: string, c: string)
    requires StrLess(a, b) && StrLess(b, c)
    ensures StrLess(a, c)
  {
    if a != [] && b != [] && c != [] && a[0] == b[0] && b[0] == c[0] {
      StrLessTransitive(a[1..], b[1..], c[1..]);
    }
  }

  lemma {:induction false} StrLessTotal(a: string, b: string)
    requires a != b
    ensures StrLess(a, b) || StrLess(b, a)
  {
    if a != [] && b != [] && a[0] == b[0] {
      assert a == [a[0]] + a[1..] && b == [b[0]] + b[1..];
      StrLessTotal(a[1..], b[1..]);
    }
  }

  predicate StrictlySorted(s: seq<string>)
  {
    forall i, j :: 0 <= i < j < |s| ==> StrLess(s[i], s[j])
  }

  /** `sorted(names)` for a set of strings. */
  method SortedStrings(names: set<string>) returns (r: seq<string>)
    ensures StrictlySorted(r)
    ensures forall x :: x in r <==> x in names
  {
    r := [];
    var rest := names;
    while rest != {}
      invariant rest <= names
      invariant StrictlySorted(r)
      invariant forall x :: x in names <==> x in r || x in rest
      invariant forall i, y :: 0 <= i < |r| && y in rest ==> StrLess(r[i], y)
      decreases rest
    {
      var m := Least(rest);
      forall i, y | 0 <= i < |r| && y in rest - {m} ensures StrLess(r[i], y) {
      }
      r := r + [m];
      rest := rest - {m};
    }
  }

  method Least(names: set<string>) returns (m: string)
    requires names != {}
    ensures m in names && forall y :: y in names && y != m ==> StrLess(m, y)
  {
    m :| m in names;
    var rest := names - {m};
    while rest != {}
      invariant m in names && rest <= names
      invariant forall y :: y in names - rest && y != m ==> StrLess(m, y)
      decreases rest
    {
      var x :| x in rest;
      if StrLess(x, m) {
        forall y | y in names - (rest - {x}) && y != x ensures StrLess(x, y) {
          if y != m {
            StrLessTransitive(x, m, y);
          }
        }
        m := x;
      } else if x != m {
        StrLessTotal(x, m);
      }
      rest := rest - {x};
    }
  }
}
