/** Helpers shared by every package of the game (src/common/common.go):
    swap-with-last removal from a slice, 2-D vector algebra over reals,
    the projection of a box onto an axis and the small min/max selectors. */
module Common {

  /** A value that may be absent (Go's nil pointer). */
  datatype Option<T> = None | Some(value: T)

  // ---------------------------------------------------------------------
  // Remove: swap the chosen slot with the last one, then truncate.
  // ---------------------------------------------------------------------

  /** The contents of a slice after `Remove(&slice, index)`. */
  function Removed<T>(s: seq<T>, index: nat): seq<T>
  {
    if |s| <= index then s else s[index := s[|s| - 1]][..|s| - 1]
  }

  /** An index past the end leaves the slice as it is; otherwise one element
      goes, the removed slot receives the former last element, and every
      other slot below the new length keeps its value. */
  lemma RemovedSlots<T>(s: seq<T>, index: nat)
    ensures |s| <= index ==> Removed(s, index) == s
    ensures index < |s| ==> |Removed(s, index)| == |s| - 1
    ensures index < |s| - 1 ==> Removed(s, index)[index] == s[|s| - 1]
    ensures index < |s| ==> forall k :: 0 <= k < |s| - 1 && k != index ==> Removed(s, index)[k] == s[k]
  {
  }

  /** Removing the last index is a plain truncation. */
  lemma RemovedLastTruncates<T>(s: seq<T>)
    requires |s| > 0
    ensures Removed(s, |s| - 1) == s[..|s| - 1]
  {
  }

  /** Removal takes out exactly one occurrence of the removed element:
      the slice stays a permutation of what it held, minus that element. */
  lemma {:induction false} RemovedMultiset<T>(s: seq<T>, index: nat)
    requires index < |s|
    ensures multiset(Removed(s, index)) == multiset(s) - multiset{s[index]}
  {
    var n := |s|;
    var last := s[n - 1];
    var front := s[..n - 1];
    assert s == front + [last];
    assert multiset(s) == multiset(front) + multiset{last};
    if index == n - 1 {
      assert Removed(s, index) == front;
    } else {
      var r := Removed(s, index);
      var pre, post := front[..index], front[index + 1..];
      assert front == pre + [s[index]] + post;
      assert r == pre + [last] + post;
      assert multiset(front) == multiset(pre) + multiset{s[index]} + multiset(post);
      assert multiset(r) == multiset(pre) + multiset{last} + multiset(post);
    }
  }

  /** A `for i, x := range s` loop that calls `Remove(&s, i)` for every
      index whose flag is set: the range walks the slice as it was when the
      loop began while the removals act on the live slice, so a slot filled
      by a swap is never looked at again. */
  function Sweep<T>(s: seq<T>, flags: seq<bool>): (r: seq<T>)
    ensures |s| - |flags| <= |r| <= |s|
  {
    if |flags| == 0 then s
    else
      var c := Sweep(s, flags[..|flags| - 1]);
      if flags[|flags| - 1] then Removed(c, |flags| - 1) else c
  }

  /** The original indices whose element a sweep actually took out: a
      flagged index is a no-op once the live slice is shorter than it. */
  function Dropped<T>(s: seq<T>, flags: seq<bool>): set<nat>
  {
    if |flags| == 0 then {}
    else
      var i := |flags| - 1;
      var d := Dropped(s, flags[..i]);
      if flags[i] && i < |Sweep(s, flags[..i])| then d + {i} else d
  }

  /** The elements of `s` at the indices outside `d`, in order. */
  function Keep<T>(s: seq<T>, d: set<nat>): seq<T>
  {
    if |s| == 0 then []
    else Keep(s[..|s| - 1], d) + (if |s| - 1 in d then [] else [s[|s| - 1]])
  }

  lemma {:induction false} KeepHas<T>(s: seq<T>, d: set<nat>, k: nat)
    requires k < |s| && k !in d
    ensures s[k] in Keep(s, d)
  {
    if k < |s| - 1 {
      KeepHas(s[..|s| - 1], d, k);
    }
  }

  lemma {:induction false} KeepWithin<T>(s: seq<T>, d: set<nat>)
    ensures multiset(Keep(s, d)) <= multiset(s)
  {
    if |s| > 0 {
      KeepWithin(s[..|s| - 1], d);
      assert s == s[..|s| - 1] + [s[|s| - 1]];
    }
  }

  lemma {:induction false} KeepIgnoresBeyond<T>(s: seq<T>, d: set<nat>, r: nat)
    requires |s| <= r
    ensures Keep(s, d + {r}) == Keep(s, d)
  {
    if |s| > 0 {
      KeepIgnoresBeyond(s[..|s| - 1], d, r);
    }
  }

  lemma {:induction false} KeepDrop<T>(s: seq<T>, d: set<nat>, r: nat)
    requires r < |s| && r !in d
    ensures multiset(Keep(s, d + {r})) == multiset(Keep(s, d)) - multiset{s[r]}
  {
    if r == |s| - 1 {
      KeepDropLast(s, d);
    } else {
      KeepDrop(s[..|s| - 1], d, r);
      KeepHas(s[..|s| - 1], d, r);
      KeepDropInner(s, d, r);
    }
  }

  lemma KeepDropLast<T>(s: seq<T>, d: set<nat>)
    requires |s| > 0 && |s| - 1 !in d
    ensures multiset(Keep(s, d + {|s| - 1})) == multiset(Keep(s, d)) - multiset{s[|s| - 1]}
  {
    var init := s[..|s| - 1];
    KeepIgnoresBeyond(init, d, |s| - 1);
    assert Keep(s, d + {|s| - 1}) == Keep(init, d);
    assert Keep(s, d) == Keep(init, d) + [s[|s| - 1]];
  }

  lemma KeepDropInner<T>(s: seq<T>, d: set<nat>, r: nat)
    requires r < |s| - 1 && r !in d
    requires multiset(Keep(s[..|s| - 1], d + {r})) == multiset(Keep(s[..|s| - 1], d)) - multiset{s[r]}
    requires s[r] in Keep(s[..|s| - 1], d)
    ensures multiset(Keep(s, d + {r})) == multiset(Keep(s, d)) - multiset{s[r]}
  {
    var init := s[..|s| - 1];
    var tail := if |s| - 1 in d then [] else [s[|s| - 1]];
    KeepSnoc(s, d);
    KeepSnoc(s, d + {r});
    assert (if |s| - 1 in d + {r} then [] else [s[|s| - 1]]) == tail;
    var a, b := Keep(init, d), Keep(init, d + {r});
    assert multiset(a + tail) == multiset(a) + multiset(tail);
    assert multiset(b + tail) == multiset(b) + multiset(tail);
    MultisetTakeOne(multiset(a), multiset(b), multiset(tail), s[r]);
  }

  /** One step of `Keep`'s definition. */
  lemma KeepSnoc<T>(s: seq<T>, d: set<nat>)
    requires |s| > 0
    ensures Keep(s, d) == Keep(s[..|s| - 1], d) + (if |s| - 1 in d then [] else [s[|s| - 1]])
  {
  }

  lemma MultisetTakeOne<T>(a: multiset<T>, b: multiset<T>, t: multiset<T>, x: T)
    requires x in a && b == a - multiset{x}
    ensures b + t == (a + t) - multiset{x}
  {
  }

  /** What a sweep keeps, after the indices of `flags`: the slots it has
      not reached yet hold their original elements, and the live slice `c`
      holds exactly the original elements at the indices outside `d`, every
      one of which is a flagged index already passed. */
  ghost predicate SweepInvariant<T>(s: seq<T>, flags: seq<bool>, c: seq<T>, d: set<nat>)
  {
    (forall t :: |flags| <= t < |c| ==> t < |s| && c[t] == s[t]) &&
    multiset(c) == multiset(Keep(s, d)) &&
    (forall r :: r in d ==> r < |flags| && flags[r])
  }

  lemma {:induction false} SweepState<T>(s: seq<T>, flags: seq<bool>)
    requires |flags| <= |s|
    ensures SweepInvariant(s, flags, Sweep(s, flags), Dropped(s, flags))
  {
    if |flags| == 0 {
      KeepAll(s);
    } else {
      var i := |flags| - 1;
      var init := flags[..i];
      SweepState(s, init);
      var c := Sweep(s, init);
      var d := Dropped(s, init);
      if flags[i] && i < |c| {
        SweepStepDrop(s, init, c, d);
        assert init + [true] == flags;
      } else {
        assert Sweep(s, flags) == c;
      }
    }
  }

  /** The step that takes slot `i` out: it still holds the original
      element, which leaves the live slice. */
  lemma SweepStepDrop<T>(s: seq<T>, flags: seq<bool>, c: seq<T>, d: set<nat>)
    requires SweepInvariant(s, flags, c, d)
    requires |flags| < |c|
    ensures SweepInvariant(s, flags + [true], Removed(c, |flags|), d + {|flags|})
  {
    var i := |flags|;
    StepDropUnreached(s, flags, c, d);
    StepDropKept(s, flags, c, d);
    assert forall r :: r in d + {i} ==> r < |flags + [true]| && (flags + [true])[r];
  }

  /** The element a removal at `|flags|` takes out is the original one, so
      the live slice loses exactly it. */
  lemma StepDropKept<T>(s: seq<T>, flags: seq<bool>, c: seq<T>, d: set<nat>)
    requires SweepInvariant(s, flags, c, d) && |flags| < |c|
    ensures multiset(Removed(c, |flags|)) == multiset(Keep(s, d + {|flags|}))
  {
    var ct := c[|flags|];
    assert |flags| < |s| && ct == s[|flags|];
    assert |flags| !in d;
    RemovedMultiset(c, |flags|);
    KeepDrop(s, d, |flags|);
  }

  /** The slots a removal at `|flags|` leaves beyond it are untouched. */
  lemma StepDropUnreached<T>(s: seq<T>, flags: seq<bool>, c: seq<T>, d: set<nat>)
    requires SweepInvariant(s, flags, c, d) && |flags| < |c|
    ensures forall t :: |flags| + 1 <= t < |Removed(c, |flags|)| ==> t < |s| && Removed(c, |flags|)[t] == s[t]
  {
    RemovedSlots(c, |flags|);
  }

  lemma {:induction false} KeepAll<T>(s: seq<T>)
    ensures Keep(s, {}) == s
  {
    if |s| > 0 {
      KeepAll(s[..|s| - 1]);
      assert s == s[..|s| - 1] + [s[|s| - 1]];
    }
  }

  /** One more index of a sweep: `Remove` at that index if its flag is
      set. */
  lemma SweepSnoc<T>(s: seq<T>, flags: seq<bool>, i: nat)
    requires i < |flags|
    ensures Sweep(s, flags[..i + 1]) == if flags[i] then Removed(Sweep(s, flags[..i]), i) else Sweep(s, flags[..i])
  {
    assert flags[..i + 1][..i] == flags[..i];
  }

  /** What a whole sweep keeps was in the slice. */
  lemma SweepWithin<T>(s: seq<T>, flags: seq<bool>)
    requires |flags| == |s|
    ensures forall x :: x in Sweep(s, flags) ==> x in s
  {
    SweepKeepsUnflagged(s, flags);
    forall x | x in Sweep(s, flags)
      ensures x in s
    {
      assert x in multiset(Sweep(s, flags));
    }
  }

  /** A sweep over the whole slice never loses an element whose flag is
      clear, and adds nothing: what remains is part of what was there. */
  lemma SweepKeepsUnflagged<T>(s: seq<T>, flags: seq<bool>)
    requires |flags| == |s|
    ensures forall k :: 0 <= k < |s| && !flags[k] ==> s[k] in Sweep(s, flags)
    ensures multiset(Sweep(s, flags)) <= multiset(s)
  {
    SweepState(s, flags);
    var d := Dropped(s, flags);
    KeepWithin(s, d);
    forall k | 0 <= k < |s| && !flags[k]
      ensures s[k] in Sweep(s, flags)
    {
      KeepHas(s, d, k);
      assert s[k] in multiset(Keep(s, d));
    }
  }

  /** No element is listed twice. */
  predicate Distinct<T(==)>(s: seq<T>)
  {
    forall a, b :: 0 <= a < b < |s| ==> s[a] != s[b]
  }

  /** A slice without repeats holds each value at most once. */
  lemma {:induction false} DistinctCounts<T>(s: seq<T>, x: T)
    requires Distinct(s)
    ensures multiset(s)[x] <= 1
  {
    if |s| > 0 {
      var init, last := s[..|s| - 1], s[|s| - 1];
      assert Distinct(init);
      DistinctCounts(init, x);
      assert s == init + [last];
      assert last !in init;
    }
  }

  /** A value at two positions of a slice is held at least twice. */
  lemma RepeatCounts<T>(s: seq<T>, a: nat, b: nat)
    requires a < b < |s|
    ensures s[a] == s[b] ==> multiset(s)[s[a]] >= 2
  {
    var x := s[a];
    assert s == s[..b] + s[b..];
    assert s[..b][a] == x && s[b..][0] == s[b];
    assert multiset(s)[x] == multiset(s[..b])[x] + multiset(s[b..])[x];
  }

  /** Part of a slice without repeats has none either. */
  lemma SubMultisetDistinct<T>(s: seq<T>, t: seq<T>)
    requires Distinct(s) && multiset(t) <= multiset(s)
    ensures Distinct(t)
  {
    forall a, b | 0 <= a < b < |t|
      ensures t[a] != t[b]
    {
      RepeatCounts(t, a, b);
      DistinctCounts(s, t[a]);
    }
  }

  /** A sweep of a slice without repeats leaves none. */
  lemma SweepKeepsDistinct<T>(s: seq<T>, flags: seq<bool>)
    requires |flags| == |s| && Distinct(s)
    ensures Distinct(Sweep(s, flags))
  {
    SweepKeepsUnflagged(s, flags);
    SubMultisetDistinct(s, Sweep(s, flags));
  }

  /** Two slices without repeats and without a common element join into
      one without repeats. */
  lemma DistinctAppend<T>(s: seq<T>, t: seq<T>)
    requires Distinct(s) && Distinct(t) && forall x :: x in s ==> x !in t
    ensures Distinct(s + t)
  {
    forall a, b | 0 <= a < b < |s + t|
      ensures (s + t)[a] != (s + t)[b]
    {
      if b >= |s| && a < |s| {
        assert (s + t)[a] in s && (s + t)[b] == t[b - |s|];
      }
    }
  }

  /** But a flagged element can survive: removing slot 0 swaps the last
      element into it, and when the sweep reaches the last index the live
      slice is already too short for it. */
  lemma SweepCanKeepFlagged()
    ensures Sweep([1, 2, 3], [true, false, true]) == [3, 2]
  {
    assert [true, false, true][..2] == [true, false];
    assert [true, false][..1] == [true];
    assert [true][..0] == [];
  }

  /** `Remove` itself: the slice is a window `a[..len]` on its backing array.
      The method writes the last element into slot `index` of the backing
      array and returns the new length; the old last slot is left as it was. */
  method Remove<T>(a: array<T>, len: nat, index: nat) returns (newLen: nat)
    requires len <= a.Length
    modifies a
    ensures newLen == if len <= index then len else len - 1
    ensures a[..newLen] == Removed(old(a[..len]), index)
    ensures a[..] == if len <= index then old(a[..]) else old(a[..])[index := old(a[len - 1])]
  {
    if len <= index {
      return len;
    }
    a[index] := a[len - 1];
    newLen := len - 1;
    assert a[..newLen] == old(a[..len])[index := old(a[len - 1])][..newLen];
  }

  // ---------------------------------------------------------------------
  // Vec2 over reals (Go uses float64; rounding is not modelled).
  // ---------------------------------------------------------------------

  datatype Vec2 = Vec2(X: real, Y: real)

  function Add(v1: Vec2, v2: Vec2): Vec2 { Vec2(v1.X + v2.X, v1.Y + v2.Y) }

  function Sub(v1: Vec2, v2: Vec2): Vec2 { Vec2(v1.X - v2.X, v1.Y - v2.Y) }

  function Neg(v1: Vec2): Vec2 { Vec2(-v1.X, -v1.Y) }

  function Dot(v1: Vec2, v2: Vec2): real { v1.X * v2.X + v1.Y * v2.Y }

  /** The vector turned a quarter turn clockwise. */
  function Normal(v1: Vec2): Vec2 { Vec2(v1.Y, -v1.X) }

  /** Algebraic laws of the vector operations. */
  lemma VectorLaws(u: Vec2, v: Vec2)
    ensures Sub(v, v) == Vec2(0.0, 0.0)
    ensures Neg(Neg(v)) == v
    ensures Add(u, v) == Add(v, u)
    ensures Sub(Add(u, v), v) == u
    ensures Add(v, Neg(v)) == Vec2(0.0, 0.0)
    ensures Dot(u, v) == Dot(v, u)
  {
  }

  /** The normal is perpendicular to the vector and as long as it. */
  lemma NormalIsPerpendicular(v: Vec2)
    ensures Dot(v, Normal(v)) == 0.0
    ensures Dot(Normal(v), Normal(v)) == Dot(v, v)
    ensures Normal(Normal(v)) == Neg(v)
  {
  }

  // ---------------------------------------------------------------------
  // Projection of an axis-aligned box onto an axis.
  // ---------------------------------------------------------------------

  function Min(a: real, b: real): real { if a < b then a else b }

  function Max(a: real, b: real): real { if a > b then a else b }

  /** The four corners' projections, in the order the source visits them:
      top-left, top-right, bottom-right, bottom-left. */
  function CornerProjections(x: real, y: real, width: real, height: real, axis: Vec2): seq<real>
  {
    [Dot(Vec2(x, y), axis), Dot(Vec2(x + width, y), axis),
     Dot(Vec2(x + width, y + height), axis), Dot(Vec2(x, y + height), axis)]
  }

  /** The interval the box covers on the axis: both ends are corner
      projections and every corner projects inside it. */
  function MinMaxProjection(x: real, y: real, width: real, height: real, axis: Vec2): (r: (real, real))
    ensures r.0 <= r.1
    ensures r.0 in CornerProjections(x, y, width, height, axis)
    ensures r.1 in CornerProjections(x, y, width, height, axis)
    ensures forall p :: p in CornerProjections(x, y, width, height, axis) ==> r.0 <= p <= r.1
  {
    var tl := Dot(Vec2(x, y), axis);
    var tr := Dot(Vec2(x + width, y), axis);
    var br := Dot(Vec2(x + width, y + height), axis);
    var bl := Dot(Vec2(x, y + height), axis);
    var min1, max1 := Min(tl, tr), Max(tl, tr);
    var min2, max2 := Min(min1, br), Max(max1, br);
    (Min(min2, bl), Max(max2, bl))
  }

  // ---------------------------------------------------------------------
  // Max/min selectors, as written.
  // ---------------------------------------------------------------------

  /** Always one of its arguments; the largest when the three are distinct. */
  function MaxPoint(p1: real, p2: real, p3: real): (r: real)
    ensures r == p1 || r == p2 || r == p3
    ensures p1 != p2 && p2 != p3 && p1 != p3 ==> r >= p1 && r >= p2 && r >= p3
  {
    if p1 > p2 && p1 > p3 then p1
    else if p2 > p1 && p2 > p3 then p2
    else p3
  }

  /** Always one of its arguments; the smallest when the three are distinct. */
  function MinPoint(p1: real, p2: real, p3: real): (r: real)
    ensures r == p1 || r == p2 || r == p3
    ensures p1 != p2 && p2 != p3 && p1 != p3 ==> r <= p1 && r <= p2 && r <= p3
  {
    if p1 < p2 && p1 < p3 then p1
    else if p2 < p1 && p2 < p3 then p2
    else p3
  }

  /** With a tie at the top, `MaxPoint` returns its third argument even
      when that is the smallest; `MinPoint` likewise with a tie at the bottom. */
  lemma MaxPointTieCounterexample()
    ensures MaxPoint(5.0, 5.0, 1.0) == 1.0
    ensures MinPoint(1.0, 1.0, 5.0) == 5.0
  {
  }

  /** As written: when p1, p2 or p4 is the strict maximum, that value comes
      first and the largest of the rest second; the p3 branch returns p1,
      and with no strict maximum (a tie at the top) p4 comes first. */
  function TwoMaxPoints(p1: real, p2: real, p3: real, p4: real): (r: (real, real))
    ensures p1 > p2 && p1 > p3 && p1 > p4 ==> r == (p1, MaxPoint(p2, p3, p4))
    ensures p2 > p1 && p2 > p3 && p2 > p4 ==> r == (p2, MaxPoint(p1, p3, p4))
    ensures p3 > p1 && p3 > p2 && p3 > p4 ==> r == (p1, MaxPoint(p1, p2, p4))
    ensures p4 > p1 && p4 > p2 && p4 > p3 ==> r == (p4, MaxPoint(p1, p2, p3))
    ensures (!(p1 > p2 && p1 > p3 && p1 > p4) && !(p2 > p1 && p2 > p3 && p2 > p4) &&
             !(p3 > p1 && p3 > p2 && p3 > p4)) ==> r == (p4, MaxPoint(p1, p2, p3))
    ensures r.0 == p1 || r.0 == p2 || r.0 == p4
  {
    if p1 > p2 && p1 > p3 && p1 > p4 then (p1, MaxPoint(p2, p3, p4))
    else if p2 > p1 && p2 > p3 && p2 > p4 then (p2, MaxPoint(p1, p3, p4))
    else if p3 > p2 && p3 > p1 && p3 > p4 then (p1, MaxPoint(p1, p2, p4))
    else (p4, MaxPoint(p1, p2, p3))
  }

  /** As written: the first component is picked like a minimum (with the same
      p3 slip, and p4 on a tie at the bottom), but the second is `MaxPoint`
      of the rest. */
  function TwoMinPoints(p1: real, p2: real, p3: real, p4: real): (r: (real, real))
    ensures p1 < p2 && p1 < p3 && p1 < p4 ==> r == (p1, MaxPoint(p2, p3, p4))
    ensures p2 < p1 && p2 < p3 && p2 < p4 ==> r == (p2, MaxPoint(p1, p3, p4))
    ensures p3 < p1 && p3 < p2 && p3 < p4 ==> r == (p1, MaxPoint(p1, p2, p4))
    ensures p4 < p1 && p4 < p2 && p4 < p3 ==> r == (p4, MaxPoint(p1, p2, p3))
    ensures (!(p1 < p2 && p1 < p3 && p1 < p4) && !(p2 < p1 && p2 < p3 && p2 < p4) &&
             !(p3 < p1 && p3 < p2 && p3 < p4)) ==> r == (p4, MaxPoint(p1, p2, p3))
    ensures r.0 == p1 || r.0 == p2 || r.0 == p4
  {
    if p1 < p2 && p1 < p3 && p1 < p4 then (p1, MaxPoint(p2, p3, p4))
    else if p2 < p1 && p2 < p3 && p2 < p4 then (p2, MaxPoint(p1, p3, p4))
    else if p3 < p2 && p3 < p1 && p3 < p4 then (p1, MaxPoint(p1, p2, p4))
    else (p4, MaxPoint(p1, p2, p3))
  }

  /** Inputs on which the two selectors miss their evident intent. */
  lemma TwoPointsCounterexamples()
    ensures TwoMaxPoints(1.0, 2.0, 3.0, 0.0) == (1.0, 2.0)
    ensures TwoMinPoints(0.0, 1.0, 2.0, 3.0) == (0.0, 3.0)
  {
  }

  // ---------------------------------------------------------------------
  // The selectors as evidently intended.
  // ---------------------------------------------------------------------

  /** The largest of three values. */
  function Max3(p1: real, p2: real, p3: real): (r: real)
    ensures r == p1 || r == p2 || r == p3
    ensures r >= p1 && r >= p2 && r >= p3
  {
    if p1 >= p2 && p1 >= p3 then p1 else if p2 >= p3 then p2 else p3
  }

  /** The smallest of three values. */
  function Min3(p1: real, p2: real, p3: real): (r: real)
    ensures r == p1 || r == p2 || r == p3
    ensures r <= p1 && r <= p2 && r <= p3
  {
    if p1 <= p2 && p1 <= p3 then p1 else if p2 <= p3 then p2 else p3
  }

  /** The largest of four values, and the largest of the three values other
      than the one returned first. */
  function TwoLargest(p1: real, p2: real, p3: real, p4: real): (r: (real, real))
    ensures r.0 >= p1 && r.0 >= p2 && r.0 >= p3 && r.0 >= p4
    ensures || (r.0 == p1 && r.1 == Max3(p2, p3, p4))
            || (r.0 == p2 && r.1 == Max3(p1, p3, p4))
            || (r.0 == p3 && r.1 == Max3(p1, p2, p4))
            || (r.0 == p4 && r.1 == Max3(p1, p2, p3))
  {
    if p1 >= p2 && p1 >= p3 && p1 >= p4 then (p1, Max3(p2, p3, p4))
    else if p2 >= p3 && p2 >= p4 then (p2, Max3(p1, p3, p4))
    else if p3 >= p4 then (p3, Max3(p1, p2, p4))
    else (p4, Max3(p1, p2, p3))
  }

  /** The smallest of four values, and the smallest of the three values other
      than the one returned first. */
  function TwoSmallest(p1: real, p2: real, p3: real, p4: real): (r: (real, real))
    ensures r.0 <= p1 && r.0 <= p2 && r.0 <= p3 && r.0 <= p4
    ensures || (r.0 == p1 && r.1 == Min3(p2, p3, p4))
            || (r.0 == p2 && r.1 == Min3(p1, p3, p4))
            || (r.0 == p3 && r.1 == Min3(p1, p2, p4))
            || (r.0 == p4 && r.1 == Min3(p1, p2, p3))
  {
    if p1 <= p2 && p1 <= p3 && p1 <= p4 then (p1, Min3(p2, p3, p4))
    else if p2 <= p3 && p2 <= p4 then (p2, Min3(p1, p3, p4))
    else if p3 <= p4 then (p3, Min3(p1, p2, p4))
    else (p4, Min3(p1, p2, p3))
  }
}
