/**
 * The request vocabulary of the patched ECMWF open-data client (ingest/ecmwf_opendata/client.py):
 * request values, insertion-ordered dicts, the cartesian product `itertools.product` walks,
 * first-occurrence deduplication, a sorted set of dates, and `os.path.splitext`.
 */
module EcmwfRequest {
  import Strings

  /** A request or index-record value; `Nil` is Python's None, `When` a datetime in epoch hours. */
  datatype Value = Nil | Str(s: string) | Num(n: int) | When(hours: int) | Items(items: seq<Value>)

  /** An insertion-ordered dict. */
  type Dict<V> = seq<(string, V)>

  /** `list(d.keys())`. */
  function Names<V>(d: Dict<V>): seq<string>
  {
    seq(|d|, i requires 0 <= i < |d| => d[i].0)
  }

  /** `list(d.values())`. */
  function Values<V>(d: Dict<V>): seq<V>
  {
    seq(|d|, i requires 0 <= i < |d| => d[i].1)
  }

  /** The keys of a non-empty dict are its first key followed by the keys of the rest. */
  lemma NamesCons<V>(d: Dict<V>)
    requires d != []
    ensures Names(d) == [d[0].0] + Names(d[1..])
  {
    assert forall i :: 0 <= i < |d| ==> Names(d)[i] == ([d[0].0] + Names(d[1..]))[i];
  }

  /** `d.get(k, default)`. */
  function LookupOr<V>(d: Dict<V>, k: string, default: V): V
  {
    if d == [] then default else if d[0].0 == k then d[0].1 else LookupOr(d[1..], k, default)
  }

  /** `get` falls back to the default exactly when the key is absent, and otherwise returns a stored value. */
  lemma {:induction false} LookupOrFound<V>(d: Dict<V>, k: string, default: V)
    ensures k !in Names(d) ==> LookupOr(d, k, default) == default
    ensures k in Names(d) ==> exists i :: 0 <= i < |d| && d[i] == (k, LookupOr(d, k, default))
  {
    if d != [] {
      NamesCons(d);
      LookupOrFound(d[1..], k, default);
      if d[0].0 != k && k in Names(d) {
        var i :| 0 <= i < |d| - 1 && d[1..][i] == (k, LookupOr(d, k, default));
        assert d[i + 1] == (k, LookupOr(d, k, default));
      }
    }
  }

  /** `d[k] = v`: an existing key keeps its position, a new key goes last. */
  function Put<V>(d: Dict<V>, k: string, v: V): Dict<V>
  {
    if d == [] then [(k, v)]
    else if d[0].0 == k then [(k, v)] + d[1..]
    else [d[0]] + Put(d[1..], k, v)
  }

  /** After `d[k] = v` the key order is unchanged or extended by `k`, and `k` maps to `v`. */
  lemma {:induction false} PutNames<V>(d: Dict<V>, k: string, v: V)
    ensures Names(Put(d, k, v)) == if k in Names(d) then Names(d) else Names(d) + [k]
    ensures forall dflt: V :: LookupOr(Put(d, k, v), k, dflt) == v
  {
    if d != [] {
      NamesCons(d);
      NamesCons(Put(d, k, v));
      if d[0].0 != k {
        PutNames(d[1..], k, v);
        assert Put(d, k, v)[1..] == Put(d[1..], k, v);
      } else {
        assert Put(d, k, v)[1..] == d[1..];
      }
    } else {
      assert Names(Put(d, k, v)) == [k];
    }
  }

  /** `d[k] = v` leaves every other key's value as it was. */
  lemma {:induction false} PutOther<V>(d: Dict<V>, k: string, v: V, other: string, dflt: V)
    requires other != k
    ensures LookupOr(Put(d, k, v), other, dflt) == LookupOr(d, other, dflt)
  {
    if d != [] && d[0].0 != k {
      PutOther(d[1..], k, v, other, dflt);
      assert Put(d, k, v)[1..] == Put(d[1..], k, v);
    }
  }

  /** `d.pop(k, None)` without its value: every entry for `k` removed. */
  function Remove<V>(d: Dict<V>, k: string): Dict<V>
  {
    if d == [] then [] else if d[0].0 == k then Remove(d[1..], k) else [d[0]] + Remove(d[1..], k)
  }

  /** After `pop(k)` exactly the other keys remain, and the dict does not grow. */
  lemma {:induction false} RemoveNames<V>(d: Dict<V>, k: string)
    ensures |Remove(d, k)| <= |d|
    ensures forall x :: x in Names(Remove(d, k)) <==> x in Names(d) && x != k
  {
    if d != [] {
      NamesCons(d);
      RemoveNames(d[1..], k);
      if d[0].0 != k {
        NamesCons(Remove(d, k));
        assert Remove(d, k)[1..] == Remove(d[1..], k);
      }
    }
  }

  /** `dict(zip(names, values))`; zip stops at the shorter list. */
  function Zip<V>(names: seq<string>, vals: seq<V>): Dict<V>
  {
    if names == [] || vals == [] then [] else [(names[0], vals[0])] + Zip(names[1..], vals[1..])
  }

  /** Zipping lists of equal length gives a dict with exactly those keys and values, in order. */
  lemma {:induction false} ZipNames<V>(names: seq<string>, vals: seq<V>)
    requires |names| == |vals|
    ensures Names(Zip(names, vals)) == names && Values(Zip(names, vals)) == vals
  {
    if names != [] {
      ZipNames(names[1..], vals[1..]);
      var z := Zip(names, vals);
      assert z[1..] == Zip(names[1..], vals[1..]);
      assert forall i :: 0 < i < |z| ==> z[i] == z[1..][i - 1];
    }
  }

  // ---------------------------------------------------------------- itertools.product

  /** `[[x] + c for x in xs for c in rest]`. */
  function Prepend(xs: seq<Value>, rest: seq<seq<Value>>): seq<seq<Value>>
  {
    if xs == [] then [] else seq(|rest|, k requires 0 <= k < |rest| => [xs[0]] + rest[k]) + Prepend(xs[1..], rest)
  }

  lemma {:induction false} PrependLength(xs: seq<Value>, rest: seq<seq<Value>>)
    ensures |Prepend(xs, rest)| == |xs| * |rest|
  {
    if xs != [] {
      PrependLength(xs[1..], rest);
      assert |xs| * |rest| == |rest| + (|xs| - 1) * |rest|;
    }
  }

  /** `list(itertools.product(*vs))`: the first list varies slowest. */
  function Product(vs: seq<seq<Value>>): seq<seq<Value>>
  {
    if vs == [] then [[]] else Prepend(vs[0], Product(vs[1..]))
  }

  function SizeOf(vs: seq<seq<Value>>): nat
  {
    if vs == [] then 1 else |vs[0]| * SizeOf(vs[1..])
  }

  lemma {:induction false} PrependMembers(xs: seq<Value>, rest: seq<seq<Value>>, c: seq<Value>)
    ensures c in Prepend(xs, rest) <==> |c| >= 1 && c[0] in xs && c[1..] in rest
  {
    if xs != [] {
      PrependMembers(xs[1..], rest, c);
      var front := seq(|rest|, k requires 0 <= k < |rest| => [xs[0]] + rest[k]);
      assert Prepend(xs, rest) == front + Prepend(xs[1..], rest);
      if |c| >= 1 && c[0] == xs[0] && c[1..] in rest {
        var k :| 0 <= k < |rest| && rest[k] == c[1..];
        assert front[k] == c;
      }
      if c in front {
        var k :| 0 <= k < |front| && front[k] == c;
        assert c[1..] == rest[k];
      }
    }
  }

  /** The product holds exactly the combinations picking one value per list, and its size is the
      product of the list sizes. */
  lemma {:induction false} ProductMembers(vs: seq<seq<Value>>, c: seq<Value>)
    ensures c in Product(vs) <==> |c| == |vs| && forall i :: 0 <= i < |vs| ==> c[i] in vs[i]
    ensures |Product(vs)| == SizeOf(vs)
  {
    if vs != [] {
      if |c| >= 1 {
        ProductMembers(vs[1..], c[1..]);
      } else {
        ProductMembers(vs[1..], c);
      }
      PrependMembers(vs[0], Product(vs[1..]), c);
      PrependLength(vs[0], Product(vs[1..]));
      if |c| == |vs| && forall i :: 0 <= i < |vs| ==> c[i] in vs[i] {
        assert forall i :: 0 <= i < |vs| - 1 ==> c[1..][i] == c[i + 1] && vs[1..][i] == vs[i + 1];
      }
      if c in Product(vs) {
        forall i | 0 <= i < |vs| ensures c[i] in vs[i] {
          if i > 0 {
            assert c[i] == c[1..][i - 1] && vs[i] == vs[1..][i - 1];
          }
        }
      }
    }
  }

  /** Block arithmetic of a flattened `m` by `n` grid: row `i` starts at `i * n`, one block after
      row `i - 1`, and ends within the grid. */
  lemma {:induction false} BlockOffsets(i: nat, m: nat, n: nat)
    requires i < m
    ensures i * n + n <= m * n
    ensures i > 0 ==> i * n == n + (i - 1) * n
    decreases m
  {
    if i + 1 < m {
      BlockOffsets(i, m - 1, n);
      assert (m - 1) * n + n == m * n;
    } else {
      assert i * n + n == (i + 1) * n;
    }
  }

  lemma {:induction false} PrependAt(xs: seq<Value>, rest: seq<seq<Value>>, i: nat, k: nat)
    requires i < |xs| && k < |rest|
    ensures i * |rest| + k < |Prepend(xs, rest)|
    ensures Prepend(xs, rest)[i * |rest| + k] == [xs[i]] + rest[k]
    decreases i
  {
    var n := |rest|;
    PrependLength(xs, rest);
    BlockOffsets(i, |xs|, n);
    var front := seq(n, j requires 0 <= j < n => [xs[0]] + rest[j]);
    assert Prepend(xs, rest) == front + Prepend(xs[1..], rest);
    if i > 0 {
      PrependAt(xs[1..], rest, i - 1, k);
      assert xs[1..][i - 1] == xs[i];
      assert Prepend(xs, rest)[n + ((i - 1) * n + k)] == Prepend(xs[1..], rest)[(i - 1) * n + k];
    }
  }

  /** itertools.product order: the tuple at position `i * n + k`, where `n` is the size of the product
      of the later lists, is the i-th value of the first list followed by the k-th tuple of that
      product; so the first list varies slowest and the last list fastest. */
  lemma ProductOrder(vs: seq<seq<Value>>, i: nat, k: nat)
    requires vs != [] && i < |vs[0]| && k < |Product(vs[1..])|
    ensures i * |Product(vs[1..])| + k < |Product(vs)|
    ensures Product(vs)[i * |Product(vs[1..])| + k] == [vs[0][i]] + Product(vs[1..])[k]
  {
    PrependAt(vs[0], Product(vs[1..]), i, k);
  }

  // ---------------------------------------------------------------- first-occurrence deduplication

  predicate Distinct<T(==)>(s: seq<T>)
  {
    forall i, j :: 0 <= i < j < |s| ==> s[i] != s[j]
  }

  function FirstIndex<T(==)>(s: seq<T>, x: T): (i: nat)
    requires x in s
    ensures i < |s| && s[i] == x && x !in s[..i]
  {
    if s[0] == x then 0 else
      assert x in s[1..];
      var k := FirstIndex(s[1..], x);
      assert s[..k + 1] == [s[0]] + s[1..][..k];
      k + 1
  }

  lemma FirstIndexUnique<T>(s: seq<T>, x: T, j: nat)
    requires j < |s| && s[j] == x && x !in s[..j]
    ensures FirstIndex(s, x) == j
  {
  }

  /** The loop `if url not in seen: data_urls.append(url); seen.add(url)` over `s`. */
  function Dedup(s: seq<string>): (r: seq<string>)
    ensures forall x :: x in r <==> x in s
    ensures Distinct(r)
  {
    if s == [] then []
    else
      var d := Dedup(s[..|s| - 1]);
      assert forall x :: x in s <==> x in s[..|s| - 1] || x == s[|s| - 1] by {
        assert s == s[..|s| - 1] + [s[|s| - 1]];
      }
      if s[|s| - 1] in d then d else d + [s[|s| - 1]]
  }

  /** Dedup keeps the values in the order of their first occurrence. */
  lemma {:induction false} DedupFirstOccurrenceOrder(s: seq<string>)
    ensures forall i, j :: 0 <= i < j < |Dedup(s)| ==>
      FirstIndex(s, Dedup(s)[i]) < FirstIndex(s, Dedup(s)[j])
  {
    if s != [] {
      var w := s[..|s| - 1];
      var last := s[|s| - 1];
      DedupFirstOccurrenceOrder(w);
      forall x | x in w ensures FirstIndex(s, x) == FirstIndex(w, x) {
        var k := FirstIndex(w, x);
        assert s[..k] == w[..k];
        FirstIndexUnique(s, x, k);
      }
      if last !in w {
        assert s[..|s| - 1] == w;
        FirstIndexUnique(s, last, |s| - 1);
      }
    }
  }

  // ---------------------------------------------------------------- a sorted set of dates

  predicate Increasing(s: seq<int>)
  {
    forall i, j :: 0 <= i < j < |s| ==> s[i] < s[j]
  }

  /** `dates.add(x)` on a set kept as its ascending listing. */
  function InsertSorted(x: int, s: seq<int>): (r: seq<int>)
    requires Increasing(s)
    ensures Increasing(r)
    ensures forall y :: y in r <==> y in s || y == x
  {
    if s == [] then [x]
    else if x < s[0] then [x] + s
    else if x == s[0] then s
    else
      var t := InsertSorted(x, s[1..]);
      assert forall y :: y in s[1..] ==> s[0] < y;
      ConsIncreasing(s[0], t);
      [s[0]] + t
  }

  lemma ConsIncreasing(a: int, t: seq<int>)
    requires Increasing(t) && forall y :: y in t ==> a < y
    ensures Increasing([a] + t)
  {
    forall i, j | 0 <= i < j < |[a] + t| ensures ([a] + t)[i] < ([a] + t)[j] {
      assert ([a] + t)[j] == t[j - 1] && t[j - 1] in t;
      if i > 0 {
        assert ([a] + t)[i] == t[i - 1];
      }
    }
  }

  // ---------------------------------------------------------------- os.path.splitext

  /** `s.rfind(c)`: -1 when absent. */
  predicate HasNameBefore(p: string, sep: int, dot: int)
    requires -1 <= sep && dot <= |p|
  {
    exists k :: sep + 1 <= k < dot && p[k] != '.'
  }

  /** `posixpath.splitext(p)`: the extension is the last "." of the last path component, unless only
      dots precede it there. */
  function Splitext(p: string): (r: (string, string))
    ensures r.0 + r.1 == p
    ensures r.1 == [] || (r.1[0] == '.' && '/' !in r.1 && '.' !in r.1[1..])
  {
    var sep := Strings.RFind(p, '/');
    var dot := Strings.RFind(p, '.');
    if dot > sep && HasNameBefore(p, sep, dot) then (p[..dot], p[dot..]) else (p, "")
  }

  lemma SplitextAt(p: string, dot: int)
    requires Strings.RFind(p, '.') == dot && dot > Strings.RFind(p, '/')
    requires HasNameBefore(p, Strings.RFind(p, '/'), dot)
    ensures Splitext(p) == (p[..dot], p[dot..])
  {
  }

  /** Splitting a name with a one-component extension gives back the name and that extension. */
  lemma {:induction false} SplitextOf(base: string, x: string)
    requires '/' !in x && '.' !in x
    requires HasNameBefore(base, Strings.RFind(base, '/'), |base|)
    ensures Splitext(base + "." + x) == (base, "." + x)
  {
    var b := base + ['.'];
    var p := b + x;
    assert base + "." + x == p;
    Strings.RFindAppend(b, x, '/');
    Strings.RFindAppend(b, x, '.');
    Strings.RFindAppend(base, ['.'], '/');
    Strings.RFindLast(base, '.');
    var sep := Strings.RFind(base, '/');
    var k :| sep + 1 <= k < |base| && base[k] != '.';
    assert p[k] == base[k];
    SplitextAt(p, |base|);
    assert p[..|base|] == base && p[|base|..] == "." + x;
  }
}
