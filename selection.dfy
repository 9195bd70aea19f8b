/**
 * Row selection on tables, as the utilities do it with NumPy: a boolean mask per
 * criterion (all True when the criterion is not given), the masks combined with `&`,
 * and the table indexed by the combined mask. `Filter` is the reference meaning.
 */
module Selection {
  import opened Wrappers

  /** The elements of s that satisfy p, in their original order. */
  function Filter<T>(s: seq<T>, p: T -> bool): (r: seq<T>)
    ensures |r| <= |s|
  {
    if |s| == 0 then [] else (if p(s[0]) then [s[0]] else []) + Filter(s[1..], p)
  }

  /** tbl[mask]: the rows whose mask entry is True, in their original order. */
  function MaskSelect<T>(s: seq<T>, mask: seq<bool>): (r: seq<T>)
    requires |mask| == |s|
    ensures |r| <= |s|
  {
    if |s| == 0 then [] else (if mask[0] then [s[0]] else []) + MaskSelect(s[1..], mask[1..])
  }

  /** np.full(n, True). */
  function FullMask(n: nat): (m: seq<bool>)
    ensures |m| == n
  {
    seq(n, _ => true)
  }

  /** The elementwise `&` of two masks of equal length. */
  function And(m1: seq<bool>, m2: seq<bool>): (m: seq<bool>)
    requires |m1| == |m2|
    ensures |m| == |m1|
    ensures forall i | 0 <= i < |m| :: m[i] <==> m1[i] && m2[i]
  {
    seq(|m1|, i requires 0 <= i < |m1| => m1[i] && m2[i])
  }

  /**
   * The mask of an optional criterion: all True when the bound is not given, and
   * otherwise keep(row, bound) row by row.
   */
  function BoundMask<T, B>(s: seq<T>, bound: Option<B>, keep: (T, B) -> bool): (m: seq<bool>)
    ensures |m| == |s|
    ensures bound.None? ==> m == FullMask(|s|)
    ensures bound.Some? ==> forall i | 0 <= i < |s| :: m[i] == keep(s[i], bound.value)
  {
    if bound.None? then FullMask(|s|) else seq(|s|, i requires 0 <= i < |s| => keep(s[i], bound.value))
  }

  /** Indexing by a mask that agrees with p row by row is filtering by p. */
  lemma {:induction false} MaskSelectIsFilter<T>(s: seq<T>, mask: seq<bool>, p: T -> bool)
    requires |mask| == |s|
    requires forall i | 0 <= i < |s| :: mask[i] == p(s[i])
    ensures MaskSelect(s, mask) == Filter(s, p)
  {
    if |s| > 0 {
      MaskSelectIsFilter(s[1..], mask[1..], p);
    }
  }

  /** An element survives the filter exactly when it is in s and satisfies p. */
  lemma {:induction false} FilterMembership<T>(s: seq<T>, p: T -> bool, x: T)
    ensures x in Filter(s, p) <==> x in s && p(x)
  {
    if |s| > 0 {
      FilterMembership(s[1..], p, x);
      assert x in s <==> x == s[0] || x in s[1..];
    }
  }

  /** A criterion every row meets removes nothing. */
  lemma {:induction false} FilterKeepsAll<T>(s: seq<T>, p: T -> bool)
    requires forall i | 0 <= i < |s| :: p(s[i])
    ensures Filter(s, p) == s
  {
    if |s| > 0 {
      FilterKeepsAll(s[1..], p);
    }
  }

  /** Filtering is distributive over concatenation. */
  lemma {:induction false} FilterConcat<T>(s: seq<T>, t: seq<T>, p: T -> bool)
    ensures Filter(s + t, p) == Filter(s, p) + Filter(t, p)
  {
    if |s| == 0 {
      assert s + t == t;
    } else {
      var head := if p(s[0]) then [s[0]] else [];
      assert (s + t)[0] == s[0];
      assert (s + t)[1..] == s[1..] + t;
      calc {
        Filter(s + t, p);
        head + Filter(s[1..] + t, p);
        { FilterConcat(s[1..], t, p); }
        head + (Filter(s[1..], p) + Filter(t, p));
        (head + Filter(s[1..], p)) + Filter(t, p);
      }
    }
  }

  /** The conjunction of two criteria. */
  function Both<T(!new)>(p: T -> bool, q: T -> bool): (r: T -> bool)
    ensures forall x :: r(x) == (p(x) && q(x))
  {
    x => p(x) && q(x)
  }

  /** Filtering twice is filtering once by the conjunction. */
  lemma {:induction false} FilterTwice<T(!new)>(s: seq<T>, p: T -> bool, q: T -> bool)
    ensures Filter(Filter(s, p), q) == Filter(s, Both(p, q))
  {
    if |s| > 0 {
      FilterTwice(s[1..], p, q);
      var fs := Filter(s, p);
      var head := if q(s[0]) then [s[0]] else [];
      assert Both(p, q)(s[0]) == (p(s[0]) && q(s[0]));
      if p(s[0]) {
        assert fs == [s[0]] + Filter(s[1..], p);
        assert fs[0] == s[0] && fs[1..] == Filter(s[1..], p);
        assert Filter(fs, q) == head + Filter(fs[1..], q);
        assert Filter(s, Both(p, q)) == head + Filter(s[1..], Both(p, q));
      } else {
        assert fs == Filter(s[1..], p);
        assert Filter(s, Both(p, q)) == Filter(s[1..], Both(p, q));
      }
    }
  }
}
