// Shared building blocks used by every module of the model: optional values,
// Python's insertion-ordered dictionaries, ASCII string helpers and sums of reals.

module Wrappers {
  datatype Option<T> = None | Some(value: T)

  datatype Result<T, E> = Ok(value: T) | Err(error: E)
}

/** Arithmetic over reals: clamps, sums and means as the Python code writes them. */
module Numeric {
  function Min(a: real, b: real): (r: real)
    ensures r <= a && r <= b && (r == a || r == b)
  {
    if a <= b then a else b
  }

  function Max(a: real, b: real): (r: real)
    ensures r >= a && r >= b && (r == a || r == b)
  {
    if a >= b then a else b
  }

  /** `max(0, min(1, x))` */
  function Clamp01(x: real): (r: real)
    ensures 0.0 <= r <= 1.0
    ensures 0.0 <= x <= 1.0 ==> r == x
    ensures x < 0.0 ==> r == 0.0
    ensures x > 1.0 ==> r == 1.0
  {
    Max(0.0, Min(1.0, x))
  }

  /** Left-to-right sum, as Python's `sum` and `+=` loops accumulate. */
  function Sum(s: seq<real>): real
  {
    if s == [] then 0.0 else Sum(s[..|s| - 1]) + s[|s| - 1]
  }

  function Mean(s: seq<real>): real
    requires |s| > 0
  {
    Sum(s) / (|s| as real)
  }

  lemma {:induction false} SumAppend(a: seq<real>, b: seq<real>)
    ensures Sum(a + b) == Sum(a) + Sum(b)
    decreases |b|
  {
    if b == [] {
      assert a + b == a;
    } else {
      var b' := b[..|b| - 1];
      assert (a + b)[..|a + b| - 1] == a + b';
      SumAppend(a, b');
    }
  }

  lemma {:induction false} SumBounds(s: seq<real>, lo: real, hi: real)
    requires forall k :: 0 <= k < |s| ==> lo <= s[k] <= hi
    ensures (|s| as real) * lo <= Sum(s) <= (|s| as real) * hi
  {
    if s != [] {
      SumBounds(s[..|s| - 1], lo, hi);
    }
  }

  lemma {:induction false} SumNonNegative(s: seq<real>)
    requires forall k :: 0 <= k < |s| ==> s[k] >= 0.0
    ensures Sum(s) >= 0.0
  {
    if s != [] {
      SumNonNegative(s[..|s| - 1]);
    }
  }

  /** Sums are monotone: element-wise smaller terms give a smaller sum. */
  lemma {:induction false} SumMonotone(xs: seq<real>, ys: seq<real>)
    requires |xs| == |ys|
    requires forall k :: 0 <= k < |xs| ==> xs[k] <= ys[k]
    ensures Sum(xs) <= Sum(ys)
  {
    if xs != [] {
      SumMonotone(xs[..|xs| - 1], ys[..|ys| - 1]);
    }
  }

  /** Replacing one element changes the sum by exactly the difference. */
  lemma {:induction false} SumUpdate(s: seq<real>, k: nat, v: real)
    requires k < |s|
    ensures Sum(s[k := v]) == Sum(s) - s[k] + v
    decreases |s|
  {
    var n := |s| - 1;
    if k < n {
      assert s[k := v][..n] == s[..n][k := v];
      SumUpdate(s[..n], k, v);
    } else {
      assert s[k := v][..n] == s[..n];
    }
  }

  /** The mean of values that all lie in [lo, hi] lies in [lo, hi]. */
  lemma MeanBounds(s: seq<real>, lo: real, hi: real)
    requires |s| > 0
    requires forall k :: 0 <= k < |s| ==> lo <= s[k] <= hi
    ensures lo <= Mean(s) <= hi
  {
    SumBounds(s, lo, hi);
    var n := |s| as real;
    assert n * lo <= Sum(s) <= n * hi;
    assert Sum(s) / n >= lo by {
      assert Sum(s) >= lo * n;
    }
    assert Sum(s) / n <= hi by {
      assert Sum(s) <= hi * n;
    }
  }
}

/** Python slices at either end of a list. */
module Seqs {
  /** `s[-n:]` */
  function Recent<T>(s: seq<T>, n: nat): (r: seq<T>)
    ensures |r| == if |s| <= n then |s| else n
  {
    if |s| <= n then s else seq(n, k requires 0 <= k < n => s[|s| - n + k])
  }

  /** `s[:n]` */
  function Take<T>(s: seq<T>, n: nat): (r: seq<T>)
    ensures |r| == if |s| <= n then |s| else n
    ensures forall k :: 0 <= k < |r| ==> r[k] == s[k]
  {
    if |s| <= n then s else s[..n]
  }
}

/** Strings as the Python code handles them: ASCII case mapping, `in`, `startswith`, `endswith`. */
module Strs {
  function LowerChar(c: char): char
  {
    if 'A' <= c <= 'Z' then (c as int + 32) as char else c
  }

  function UpperChar(c: char): char
  {
    if 'a' <= c <= 'z' then (c as int - 32) as char else c
  }

  /** `s.lower()` restricted to ASCII letters. */
  function Lower(s: string): (r: string)
    ensures |r| == |s|
    ensures forall k :: 0 <= k < |s| ==> r[k] == LowerChar(s[k])
  {
    seq(|s|, k requires 0 <= k < |s| => LowerChar(s[k]))
  }

  /** `s.upper()` restricted to ASCII letters. */
  function Upper(s: string): (r: string)
    ensures |r| == |s|
    ensures forall k :: 0 <= k < |s| ==> r[k] == UpperChar(s[k])
  {
    seq(|s|, k requires 0 <= k < |s| => UpperChar(s[k]))
  }

  predicate StartsWith(s: string, p: string)
  {
    |p| <= |s| && s[..|p|] == p
  }

  predicate EndsWith(s: string, p: string)
  {
    |p| <= |s| && s[|s| - |p|..] == p
  }

  /** `p` occurs in `s` starting at position `k`. */
  predicate OccursAt(s: string, p: string, k: nat)
  {
    k + |p| <= |s| && forall j :: 0 <= j < |p| ==> s[k + j] == p[j]
  }

  /** `p in s` for strings: `p` occurs as a contiguous substring of `s`. */
  predicate Contains(s: string, p: string)
  {
    exists k: nat | k <= |s| :: OccursAt(s, p, k)
  }

  /** `any(w in s for w in words)` */
  predicate ContainsAny(s: string, words: seq<string>)
  {
    exists k :: 0 <= k < |words| && Contains(s, words[k])
  }

  lemma ContainsInfix(a: string, p: string, b: string)
    ensures Contains(a + p + b, p)
  {
    var s := a + p + b;
    assert s[|a|..|a| + |p|] == p;
    assert OccursAt(s, p, |a|);
  }

  /** `sep.join(parts)` */
  function Join(sep: string, parts: seq<string>): string
  {
    if parts == [] then ""
    else if |parts| == 1 then parts[0]
    else Join(sep, parts[..|parts| - 1]) + sep + parts[|parts| - 1]
  }

  /** `"\n".join(f"{marker}{x}" for x in items)` */
  function Bulleted(marker: string, items: seq<string>): (r: string)
  {
    Join("\n", seq(|items|, k requires 0 <= k < |items| => marker + items[k]))
  }

  /** Every item appears, behind its marker, in the bulleted list. */
  lemma BulletedContains(marker: string, items: seq<string>, k: nat)
    requires k < |items|
    ensures Contains(Bulleted(marker, items), marker + items[k])
  {
    var lines := seq(|items|, j requires 0 <= j < |items| => marker + items[j]);
    JoinContains("\n", lines, k);
  }

  /** `"".join(parts)`: the pieces of a formatted string, in order. */
  function Concat(parts: seq<string>): string
  {
    if parts == [] then "" else Concat(parts[..|parts| - 1]) + parts[|parts| - 1]
  }

  /** A substring of a part is a substring of the whole. */
  lemma ContainsExtend(a: string, b: string, c: string, p: string)
    requires Contains(b, p)
    ensures Contains(a + b + c, p)
  {
    var k: nat :| k <= |b| && OccursAt(b, p, k);
    var s := a + b + c;
    assert s[|a| + k..|a| + k + |p|] == b[k..k + |p|];
    assert OccursAt(s, p, |a| + k);
  }

  lemma {:induction false} JoinContains(sep: string, parts: seq<string>, k: nat)
    requires k < |parts|
    ensures Contains(Join(sep, parts), parts[k])
  {
    var n := |parts|;
    if n == 1 {
      ContainsSelf(parts[0]);
    } else if k == n - 1 {
      ContainsInfix(Join(sep, parts[..n - 1]) + sep, parts[k], "");
      assert Join(sep, parts[..n - 1]) + sep + parts[k] + "" == Join(sep, parts);
    } else {
      JoinContains(sep, parts[..n - 1], k);
      ContainsExtend("", Join(sep, parts[..n - 1]), sep + parts[n - 1], parts[k]);
      assert "" + Join(sep, parts[..n - 1]) + (sep + parts[n - 1]) == Join(sep, parts);
    }
  }

  /** Neighbouring parts appear next to each other, in their order, around the separator. */
  lemma {:induction false} JoinAdjacent(sep: string, parts: seq<string>, k: nat)
    requires k + 1 < |parts|
    ensures Contains(Join(sep, parts), parts[k] + sep + parts[k + 1])
  {
    var n := |parts|;
    var p := parts[k] + sep + parts[k + 1];
    var front := parts[..n - 1];
    assert Join(sep, parts) == Join(sep, front) + sep + parts[n - 1];
    if n == 2 {
      assert Join(sep, front) == parts[k];
      ContainsInfix("", p, "");
      assert "" + p + "" == Join(sep, parts);
    } else if k + 2 == n {
      var a := Join(sep, front[..n - 2]) + sep;
      assert Join(sep, front) == a + front[n - 2];
      ContainsInfix(a, p, "");
      assert a + p + "" == Join(sep, parts);
    } else {
      JoinAdjacent(sep, front, k);
      ContainsExtend("", Join(sep, front), sep + parts[n - 1], p);
      assert "" + Join(sep, front) + (sep + parts[n - 1]) == Join(sep, parts);
    }
  }

  /** Neighbouring items are listed one after the other, each behind its marker. */
  lemma BulletedAdjacent(marker: string, items: seq<string>, k: nat)
    requires k + 1 < |items|
    ensures Contains(Bulleted(marker, items), marker + items[k] + "\n" + marker + items[k + 1])
  {
    var lines := seq(|items|, j requires 0 <= j < |items| => marker + items[j]);
    JoinAdjacent("\n", lines, k);
    assert lines[k] + "\n" + lines[k + 1] == marker + items[k] + "\n" + marker + items[k + 1];
  }

  lemma {:induction false} ConcatContains(parts: seq<string>, k: nat, p: string)
    requires k < |parts| && Contains(parts[k], p)
    ensures Contains(Concat(parts), p)
  {
    var n := |parts|;
    if k == n - 1 {
      ContainsExtend(Concat(parts[..n - 1]), parts[k], "", p);
      assert Concat(parts[..n - 1]) + parts[k] + "" == Concat(parts);
    } else {
      ConcatContains(parts[..n - 1], k, p);
      ContainsExtend("", Concat(parts[..n - 1]), parts[n - 1], p);
      assert "" + Concat(parts[..n - 1]) + parts[n - 1] == Concat(parts);
    }
  }

  /** Every string contains itself. */
  lemma ContainsSelf(s: string)
    ensures Contains(s, s)
  {
    assert OccursAt(s, s, 0);
  }

  /** `s.split('_')[0]`: everything before the first underscore (all of `s` when there is none). */
  function FirstSegment(s: string): (r: string)
    ensures StartsWith(s, r)
    ensures forall k :: 0 <= k < |r| ==> r[k] != '_'
    ensures |r| < |s| ==> s[|r|] == '_'
  {
    if s == [] || s[0] == '_' then ""
    else [s[0]] + FirstSegment(s[1..])
  }
}

/**
 * Python dictionaries keep insertion order, and assigning to an existing key keeps that
 * key's position. A dictionary is therefore modelled as a sequence of key/value pairs
 * with distinct keys; `Put` is `d[k] = v`.
 */
module Dicts {
  import opened Wrappers

  type Dict<K, V> = seq<(K, V)>

  predicate HasKey<K(==), V>(d: Dict<K, V>, k: K)
  {
    exists i :: 0 <= i < |d| && d[i].0 == k
  }

  predicate UniqueKeys<K(==), V>(d: Dict<K, V>)
  {
    forall i, j :: 0 <= i < j < |d| ==> d[i].0 != d[j].0
  }

  function Keys<K(==), V>(d: Dict<K, V>): (r: seq<K>)
    ensures |r| == |d| && forall i :: 0 <= i < |d| ==> r[i] == d[i].0
  {
    seq(|d|, i requires 0 <= i < |d| => d[i].0)
  }

  function Values<K(==), V>(d: Dict<K, V>): (r: seq<V>)
    ensures |r| == |d| && forall i :: 0 <= i < |d| ==> r[i] == d[i].1
  {
    seq(|d|, i requires 0 <= i < |d| => d[i].1)
  }

  /** Position of the first entry with key `k`. */
  function IndexOf<K(==), V>(d: Dict<K, V>, k: K): (r: Option<nat>)
    ensures r.None? <==> !HasKey(d, k)
    ensures r.Some? ==> r.value < |d| && d[r.value].0 == k
    ensures r.Some? ==> forall i :: 0 <= i < r.value ==> d[i].0 != k
  {
    IndexFrom(d, k, 0)
  }

  /** Position of the first entry with key `k` at or after position `from`. */
  function IndexFrom<K(==), V>(d: Dict<K, V>, k: K, from: nat): (r: Option<nat>)
    requires from <= |d|
    ensures r.None? <==> forall i :: from <= i < |d| ==> d[i].0 != k
    ensures r.Some? ==> from <= r.value < |d| && d[r.value].0 == k
    ensures r.Some? ==> forall i :: from <= i < r.value ==> d[i].0 != k
    decreases |d| - from
  {
    if from == |d| then None
    else if d[from].0 == k then Some(from)
    else IndexFrom(d, k, from + 1)
  }

  /** `d.get(k)` */
  function Get<K(==), V>(d: Dict<K, V>, k: K): (r: Option<V>)
    ensures r.None? <==> !HasKey(d, k)
  {
    match IndexOf(d, k)
    case None => None
    case Some(i) => Some(d[i].1)
  }

  /** In a dictionary with distinct keys, the entry at position `i` is what its key looks up. */
  lemma GetUnique<K, V>(d: Dict<K, V>, i: nat)
    requires UniqueKeys(d) && i < |d|
    ensures Get(d, d[i].0) == Some(d[i].1)
  {
    var j := IndexOf(d, d[i].0).value;
    assert !(j < i) && !(i < j);
  }

  /** `d.get(k, default)` */
  function GetOr<K(==), V>(d: Dict<K, V>, k: K, default: V): V
  {
    match Get(d, k)
    case None => default
    case Some(v) => v
  }

  /** `d[k] = v` */
  function Put<K(==), V>(d: Dict<K, V>, k: K, v: V): (r: Dict<K, V>)
    ensures HasKey(d, k) ==> |r| == |d|
    ensures !HasKey(d, k) ==> r == d + [(k, v)]
    ensures forall i :: 0 <= i < |d| ==> r[i] == (if d[i].0 == k then (k, v) else d[i])
    ensures HasKey(r, k)
  {
    if !HasKey(d, k) then
      var r := d + [(k, v)];
      assert r[|d|].0 == k;
      r
    else seq(|d|, i requires 0 <= i < |d| => if d[i].0 == k then (k, v) else d[i])
  }

  /** A key is in a concatenation of association lists exactly when it is in one of them. */
  lemma HasKeyConcat<K, V>(a: Dict<K, V>, b: Dict<K, V>, k: K)
    ensures HasKey(a + b, k) <==> HasKey(a, k) || HasKey(b, k)
  {
    if HasKey(a + b, k) {
      var i :| 0 <= i < |a + b| && (a + b)[i].0 == k;
      if i >= |a| {
        assert b[i - |a|].0 == k;
      }
    }
    if HasKey(a, k) {
      var j :| 0 <= j < |a| && a[j].0 == k;
      assert (a + b)[j].0 == k;
    }
    if HasKey(b, k) {
      var j :| 0 <= j < |b| && b[j].0 == k;
      assert (a + b)[|a| + j].0 == k;
    }
  }

  lemma PutUnique<K, V>(d: Dict<K, V>, k: K, v: V)
    requires UniqueKeys(d)
    ensures UniqueKeys(Put(d, k, v))
    ensures Get(Put(d, k, v), k) == Some(v)
    ensures forall k' :: k' != k ==> Get(Put(d, k, v), k') == Get(d, k')
  {
    var r := Put(d, k, v);
    forall k' | k' != k
      ensures Get(r, k') == Get(d, k')
    {
      GetPutOther(d, k, v, k');
    }
    GetPutSame(d, k, v);
  }

  lemma GetPutSame<K, V>(d: Dict<K, V>, k: K, v: V)
    requires UniqueKeys(d)
    ensures Get(Put(d, k, v), k) == Some(v)
  {
    var r := Put(d, k, v);
    match IndexOf(r, k)
    case Some(i) =>
      if i < |d| {
        assert r[i] == (k, v);
      } else {
        assert r[i] == (k, v);
      }
    case None =>
  }

  lemma GetPutOther<K, V>(d: Dict<K, V>, k: K, v: V, k': K)
    requires k' != k
    ensures Get(Put(d, k, v), k') == Get(d, k')
  {
    var r := Put(d, k, v);
    match IndexOf(d, k')
    case None =>
      forall i | 0 <= i < |r|
        ensures r[i].0 != k'
      {
        if i < |d| {
          assert d[i].0 != k';
        }
      }
    case Some(i) =>
      assert r[i] == d[i];
      forall j | 0 <= j < i
        ensures r[j].0 != k'
      {
      }
  }

  /** A key is present exactly when it is among the keys. */
  lemma HasKeyKeys<K, V>(d: Dict<K, V>, k: K)
    ensures HasKey(d, k) <==> k in Keys(d)
  {
    if k in Keys(d) {
      var i :| 0 <= i < |Keys(d)| && Keys(d)[i] == k;
      assert d[i].0 == k;
    }
  }

  /** `d[k] = v` adds `k` and no other key. */
  lemma HasKeyPut<K, V>(d: Dict<K, V>, k: K, v: V, a: K)
    ensures HasKey(Put(d, k, v), a) <==> HasKey(d, a) || a == k
  {
    var r := Put(d, k, v);
    if HasKey(d, k) {
      if HasKey(r, a) {
        var i :| 0 <= i < |r| && r[i].0 == a;
        assert d[i].0 == a || a == k;
      }
      if HasKey(d, a) {
        var i :| 0 <= i < |d| && d[i].0 == a;
        assert r[i].0 == a || a == k;
      }
    } else {
      HasKeyConcat(d, [(k, v)], a);
      assert HasKey([(k, v)], a) <==> a == k by {
        if a == k {
          assert [(k, v)][0].0 == a;
        }
      }
    }
  }

  /** Overwriting a present key keeps the keys and their order. */
  lemma PutKeys<K, V>(d: Dict<K, V>, k: K, v: V)
    requires HasKey(d, k)
    ensures Keys(Put(d, k, v)) == Keys(d)
  {
    var r := Put(d, k, v);
    assert forall i :: 0 <= i < |d| ==> Keys(r)[i] == Keys(d)[i];
  }

  /** Looking up in a dictionary extended by an entry whose key is new. */
  lemma GetSnoc<K, V>(d: Dict<K, V>, k: K, v: V, a: K)
    requires !HasKey(d, k)
    ensures Get(d + [(k, v)], a) == if a == k then Some(v) else Get(d, a)
  {
    var r := d + [(k, v)];
    assert r == Put(d, k, v);
    if a == k {
      var i := IndexOf(r, k).value;
      assert !(i < |d|);
    } else {
      GetPutOther(d, k, v, a);
    }
  }

  /** A dictionary comprehension `{k: v for (k, v) in pairs}`: later pairs overwrite earlier ones. */
  function FromPairs<K(==), V>(pairs: seq<(K, V)>): Dict<K, V>
  {
    if pairs == [] then []
    else Put(FromPairs(pairs[..|pairs| - 1]), pairs[|pairs| - 1].0, pairs[|pairs| - 1].1)
  }

  /** `sum(f(v) for v in d.values())` */
  function SumOf<K, V>(d: Dict<K, V>, f: V -> int): int
  {
    if d == [] then 0 else SumOf(d[..|d| - 1], f) + f(d[|d| - 1].1)
  }

  lemma SumOfAppend<K, V>(d: Dict<K, V>, k: K, v: V, f: V -> int)
    ensures SumOf(d + [(k, v)], f) == SumOf(d, f) + f(v)
  {
    assert (d + [(k, v)])[..|d|] == d;
  }

  /** Replacing the entry at position `i` changes the sum by the difference. */
  lemma {:induction false} SumOfReplace<K, V>(d: Dict<K, V>, i: nat, k: K, v: V, f: V -> int)
    requires i < |d|
    ensures SumOf(d[i := (k, v)], f) == SumOf(d, f) - f(d[i].1) + f(v)
    decreases |d|
  {
    var n := |d| - 1;
    if i < n {
      assert d[i := (k, v)][..n] == d[..n][i := (k, v)];
      SumOfReplace(d[..n], i, k, v, f);
    } else {
      assert d[i := (k, v)][..n] == d[..n];
    }
  }

  /** In a dictionary with distinct keys, `d[k] = v` replaces the value stored under `k`, or appends. */
  lemma SumOfPut<K, V>(d: Dict<K, V>, k: K, v: V, f: V -> int)
    requires UniqueKeys(d)
    ensures SumOf(Put(d, k, v), f) == SumOf(d, f) - (if HasKey(d, k) then f(Get(d, k).value) else 0) + f(v)
  {
    if HasKey(d, k) {
      var i := IndexOf(d, k).value;
      assert Put(d, k, v) == d[i := (k, v)];
      SumOfReplace(d, i, k, v, f);
    } else {
      SumOfAppend(d, k, v, f);
    }
  }

  /** `d[k] = v` after reading `d.get(k, dflt)`: the sum loses what was read (unless it was the default) and gains `f(v)`. */
  lemma SumOfPutOr<K, V>(d: Dict<K, V>, k: K, dflt: V, v: V, f: V -> int)
    requires UniqueKeys(d)
    ensures SumOf(Put(d, k, v), f) == SumOf(d, f) - f(GetOr(d, k, dflt)) + f(v) + (if HasKey(d, k) then 0 else f(dflt))
  {
    SumOfPut(d, k, v, f);
  }

  /** Every key of a dictionary built by `Put` alone occurs once. */
  lemma {:induction false} FromPairsUnique<K, V>(pairs: seq<(K, V)>)
    ensures UniqueKeys(FromPairs(pairs))
  {
    if pairs != [] {
      var n := |pairs| - 1;
      FromPairsUnique(pairs[..n]);
      PutUnique(FromPairs(pairs[..n]), pairs[n].0, pairs[n].1);
    }
  }
}
