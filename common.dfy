/**
 * Small helpers shared by the whole model: an Option type standing for
 * JavaScript's `undefined`/`null`, the JavaScript remainder operator, and the
 * array and string built-ins the source relies on (`filter`, `includes`,
 * `join`, `replace` with a global pattern).
 */
module Common {

  /** `None` stands for a missing, `undefined` or `null` value. */
  datatype Option<T> = None | Some(value: T)

  /** JavaScript's `a || b` on two values that are either missing or truthy. */
  function Or<T>(a: Option<T>, b: Option<T>): (r: Option<T>)
    ensures r.Some? <==> a.Some? || b.Some?
    ensures a.Some? ==> r == a
    ensures a.None? ==> r == b
  {
    if a.Some? then a else b
  }

  /** JavaScript's `a || fallback` where the fallback is always truthy. */
  function OrElse<T>(a: Option<T>, fallback: T): (r: T)
    ensures a.Some? ==> r == a.value
    ensures a.None? ==> r == fallback
  {
    if a.Some? then a.value else fallback
  }

  function Abs(x: real): real { if x < 0.0 then -x else x }
  function Min(x: real, y: real): real { if x <= y then x else y }
  function Max(x: real, y: real): real { if x >= y then x else y }

  /** Rounds toward zero, as JavaScript's truncating division does. */
  function Trunc(x: real): int
  {
    if x >= 0.0 then x.Floor else -((-x).Floor)
  }

  /**
   * JavaScript's `a % 360` on numbers: the remainder of truncating division,
   * which carries the sign of the dividend.
   */
  function JsRem360(a: real): (r: real)
    ensures 0.0 <= a ==> 0.0 <= r < 360.0
    ensures a <= 0.0 ==> -360.0 < r <= 0.0
    ensures exists k: int :: r == a - Turns(k)
  {
    var q := Trunc(a / 360.0);
    TruncBounds(a / 360.0);
    assert a - 360.0 * (q as real) == a - Turns(q);
    a - 360.0 * (q as real)
  }

  /** `k` whole turns, in degrees. */
  function Turns(k: int): real
  {
    360.0 * k as real
  }

  /** `Trunc` is within one of its argument, on the side of zero. */
  lemma TruncBounds(x: real)
    ensures x >= 0.0 ==> Trunc(x) as real <= x < Trunc(x) as real + 1.0
    ensures x < 0.0 ==> Trunc(x) as real - 1.0 < x <= Trunc(x) as real
  {
    if x < 0.0 {
      var y := -x;
      assert y.Floor as real <= y < y.Floor as real + 1.0;
    } else {
      assert x.Floor as real <= x < x.Floor as real + 1.0;
    }
  }

  /** JavaScript's `a % b` on integers (truncating, sign of the dividend). */
  function JsRemInt(a: int, b: int): (r: int)
    requires b > 0
    ensures 0 <= a ==> 0 <= r < b && r == a % b
    ensures a < 0 ==> -b < r <= 0
  {
    if a >= 0 then a % b else -((-a) % b)
  }

  /**
   * `s.filter(p)`: the elements of `s` that satisfy `p`, in their original
   * order and with their multiplicities.
   */
  function Filter<T>(s: seq<T>, p: T -> bool): (r: seq<T>)
    ensures |r| <= |s|
    ensures forall x :: x in r ==> x in s && p(x)
    ensures forall x :: x in s && p(x) ==> x in r
    ensures forall i :: 0 <= i < |r| ==> p(r[i])
  {
    if s == [] then []
    else (if p(s[0]) then [s[0]] else []) + Filter(s[1..], p)
  }

  /** `filter` keeps every element that satisfies `p` as often as it occurs, and no other. */
  lemma {:induction false} FilterMultiset<T>(s: seq<T>, p: T -> bool)
    ensures forall x :: multiset(Filter(s, p))[x] == if p(x) then multiset(s)[x] else 0
  {
    if s != [] {
      FilterMultiset(s[1..], p);
      assert s == [s[0]] + s[1..];
      assert multiset(s) == multiset{s[0]} + multiset(s[1..]);
      var head := if p(s[0]) then [s[0]] else [];
      assert multiset(Filter(s, p)) == multiset(head) + multiset(Filter(s[1..], p));
    }
  }

  /** `a` can be obtained from `b` by deleting elements (order is kept). */
  predicate Subseq<T(==)>(a: seq<T>, b: seq<T>)
    decreases |b|
  {
    a == [] ||
    (b != [] && ((a[0] == b[0] && Subseq(a[1..], b[1..])) || Subseq(a, b[1..])))
  }

  /** `filter` keeps the original order: its result is a subsequence. */
  lemma {:induction false} FilterIsSubseq<T>(s: seq<T>, p: T -> bool)
    ensures Subseq(Filter(s, p), s)
  {
    if s != [] {
      FilterIsSubseq(s[1..], p);
      var rest := Filter(s[1..], p);
      if p(s[0]) {
        assert Filter(s, p) == [s[0]] + rest;
        assert ([s[0]] + rest)[1..] == rest;
      } else {
        assert Filter(s, p) == rest;
      }
    }
  }

  /** Every sequence is a subsequence of itself. */
  lemma {:induction false} SubseqRefl<T>(s: seq<T>)
    ensures Subseq(s, s)
  {
    if s != [] {
      SubseqRefl(s[1..]);
    }
  }

  /** A subsequence is never longer. */
  lemma {:induction false} SubseqLength<T>(a: seq<T>, b: seq<T>)
    requires Subseq(a, b)
    ensures |a| <= |b|
    decreases |b|
  {
    if a != [] {
      if a[0] == b[0] && Subseq(a[1..], b[1..]) {
        SubseqLength(a[1..], b[1..]);
      } else {
        SubseqLength(a, b[1..]);
      }
    }
  }

  /** Deleting elements twice is deleting elements. */
  lemma {:induction false} SubseqTrans<T>(a: seq<T>, b: seq<T>, c: seq<T>)
    requires Subseq(a, b) && Subseq(b, c)
    ensures Subseq(a, c)
    decreases |c|
  {
    if a != [] {
      if b[0] == c[0] && Subseq(b[1..], c[1..]) {
        if a[0] == b[0] && Subseq(a[1..], b[1..]) {
          SubseqTrans(a[1..], b[1..], c[1..]);
        } else {
          SubseqTrans(a, b[1..], c[1..]);
        }
      } else {
        SubseqTrans(a, b, c[1..]);
      }
    }
  }

  /** `filter` over a concatenation is the concatenation of the filters. */
  lemma {:induction false} FilterAppend<T>(s: seq<T>, t: seq<T>, p: T -> bool)
    ensures Filter(s + t, p) == Filter(s, p) + Filter(t, p)
  {
    if s == [] {
      assert s + t == t;
    } else {
      assert (s + t)[1..] == s[1..] + t;
      FilterAppend(s[1..], t, p);
    }
  }

  /** `filter` over a prefix extended by one element. */
  lemma FilterSnoc<T>(s: seq<T>, x: T, p: T -> bool)
    ensures p(x) ==> Filter(s + [x], p) == Filter(s, p) + [x]
    ensures !p(x) ==> Filter(s + [x], p) == Filter(s, p)
  {
    FilterAppend(s, [x], p);
    assert Filter([x], p) == (if p(x) then [x] else []) + Filter([x][1..], p);
    assert Filter(s, p) + [] == Filter(s, p);
  }

  /** JavaScript's `s.includes(q)`: `q` occurs in `s` at some offset. */
  predicate Contains(s: string, q: string): (r: bool)
    ensures r ==> |q| <= |s|
    ensures q == [] ==> r
    decreases |s|
  {
    q <= s || (s != [] && Contains(s[1..], q))
  }

  /** `q` occurs in `s` starting at offset `i`. */
  predicate OccursAt(s: string, q: string, i: int)
  {
    0 <= i && i + |q| <= |s| && s[i..i + |q|] == q
  }

  lemma {:induction false} ContainsAt(s: string, q: string, i: int)
    requires OccursAt(s, q, i)
    ensures Contains(s, q)
    decreases i
  {
    if i > 0 {
      assert s[1..][i - 1..i - 1 + |q|] == s[i..i + |q|];
      ContainsAt(s[1..], q, i - 1);
    } else {
      assert q <= s;
    }
  }

  lemma {:induction false} ContainsWitness(s: string, q: string) returns (i: int)
    requires Contains(s, q)
    ensures OccursAt(s, q, i)
    decreases |s|
  {
    if q <= s {
      i := 0;
      assert s[0..|q|] == q;
    } else {
      var j := ContainsWitness(s[1..], q);
      assert s[j + 1..j + 1 + |q|] == s[1..][j..j + |q|];
      i := j + 1;
    }
  }

  /** `Contains` is exactly "`q` occurs in `s` at some offset". */
  lemma ContainsIff(s: string, q: string)
    ensures Contains(s, q) <==> exists i :: OccursAt(s, q, i)
  {
    if Contains(s, q) {
      var i := ContainsWitness(s, q);
    }
    if exists i :: OccursAt(s, q, i) {
      var i :| OccursAt(s, q, i);
      ContainsAt(s, q, i);
    }
  }

  /** `parts.join(sep)`. */
  function Join(parts: seq<string>, sep: string): string
  {
    if |parts| == 0 then ""
    else if |parts| == 1 then parts[0]
    else parts[0] + sep + Join(parts[1..], sep)
  }

  /** `s.replace(/c/g, rep)` for a single-character pattern. */
  function ReplaceAll(s: string, c: char, rep: string): (r: string)
    ensures c !in rep ==> c !in r
    ensures forall d :: d != c && d !in rep && d in s ==> d in r
    ensures forall d :: d in r ==> (d in s && d != c) || d in rep
  {
    if s == [] then ""
    else (if s[0] == c then rep else [s[0]]) + ReplaceAll(s[1..], c, rep)
  }

  /** Replacing in a concatenation replaces in each part. */
  lemma {:induction false} ReplaceAllAppend(s: string, t: string, c: char, rep: string)
    ensures ReplaceAll(s + t, c, rep) == ReplaceAll(s, c, rep) + ReplaceAll(t, c, rep)
  {
    if s == [] {
      assert s + t == t;
    } else {
      assert (s + t)[1..] == s[1..] + t;
      ReplaceAllAppend(s[1..], t, c, rep);
    }
  }

  /** Each occurrence of `c` grows the string by `|rep| - 1`. */
  lemma {:induction false} ReplaceAllLength(s: string, c: char, rep: string)
    ensures |ReplaceAll(s, c, rep)| == |s| - Count(s, c) + |rep| * Count(s, c)
  {
    if s != [] {
      ReplaceAllLength(s[1..], c, rep);
      var k := Count(s[1..], c);
      assert |rep| * (k + 1) == |rep| * k + |rep|;
    }
  }

  /** A character other than `c` that `rep` does not contain is neither added nor removed. */
  lemma {:induction false} ReplaceAllKeepsCount(s: string, c: char, rep: string, d: char)
    requires d != c && d !in rep
    ensures Count(ReplaceAll(s, c, rep), d) == Count(s, d)
  {
    if s != [] {
      ReplaceAllKeepsCount(s[1..], c, rep, d);
      var head := if s[0] == c then rep else [s[0]];
      CountAppend(head, ReplaceAll(s[1..], c, rep), d);
      if s[0] == c {
        CountAbsent(rep, d);
      } else {
        assert Count(head, d) == (if s[0] == d then 1 else 0) + Count(head[1..], d);
      }
    }
  }

  /** Number of occurrences of `c` in `s`. */
  function Count(s: string, c: char): nat
  {
    if s == [] then 0 else (if s[0] == c then 1 else 0) + Count(s[1..], c)
  }

  lemma {:induction false} CountAppend(s: string, t: string, c: char)
    ensures Count(s + t, c) == Count(s, c) + Count(t, c)
  {
    if s == [] {
      assert s + t == t;
    } else {
      assert (s + t)[1..] == s[1..] + t;
      CountAppend(s[1..], t, c);
    }
  }

  lemma {:induction false} CountAbsent(s: string, c: char)
    requires c !in s
    ensures Count(s, c) == 0
  {
    if s != [] {
      CountAbsent(s[1..], c);
    }
  }
}
