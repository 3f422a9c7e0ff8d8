/** `compact` from utils/compact.ts: drops the falsy elements of an array.
    An element of `Array<T | null | undefined>` is `None` (null or
    undefined) or `Some(x)`; `truthy` is JavaScript's truthiness on `T`
    (for strings: non-empty; for objects: always). */
module Compact {
  import opened Wrappers

  predicate Kept<T>(o: Option<T>, truthy: T -> bool)
  {
    o.Some? && truthy(o.value)
  }

  function Compact<T>(a: seq<Option<T>>, truthy: T -> bool): (r: seq<T>)
    ensures |r| <= |a|
    ensures forall x :: x in r ==> truthy(x) && Some(x) in a
  {
    if a == [] then []
    else
      var rest := Compact(a[1..], truthy);
      assert forall i :: 0 <= i < |a[1..]| ==> a[1..][i] == a[i + 1];
      if Kept(a[0], truthy) then [a[0].value] + rest else rest
  }

  /** Every element that survives is one of the input's truthy elements,
      and every truthy element of the input survives. */
  lemma {:induction false} CompactMembership<T>(a: seq<Option<T>>, truthy: T -> bool, x: T)
    ensures x in Compact(a, truthy) <==> Some(x) in a && truthy(x)
  {
    if a != [] {
      CompactMembership(a[1..], truthy, x);
      assert Some(x) in a <==> a[0] == Some(x) || Some(x) in a[1..];
    }
  }

  /** Nothing is lost exactly when nothing in the input is falsy. */
  lemma {:induction false} CompactLength<T>(a: seq<Option<T>>, truthy: T -> bool)
    ensures |Compact(a, truthy)| == |a| <==> forall i :: 0 <= i < |a| ==> Kept(a[i], truthy)
  {
    if a != [] {
      CompactLength(a[1..], truthy);
      assert forall i :: 1 <= i < |a| ==> a[1..][i - 1] == a[i];
    }
  }

  /** What the filter keeps of one element. */
  function Keep<T>(o: Option<T>, truthy: T -> bool): seq<T>
  {
    if Kept(o, truthy) then [o.value] else []
  }

  /** Filtering a sequence of optional elements followed by elements known
      to be truthy keeps the latter whole. */
  lemma {:induction false} CompactThenTruthy<T>(a: seq<Option<T>>, s: seq<T>, truthy: T -> bool)
    requires forall i :: 0 <= i < |s| ==> truthy(s[i])
    ensures Compact(a + Lift(s), truthy) == Compact(a, truthy) + s
  {
    CompactConcat(a, Lift(s), truthy);
    CompactAllTruthy(s, truthy);
  }

  /** The filter on short literal arrays, element by element. */
  lemma {:induction false} CompactOfTwo<T>(a: seq<Option<T>>, truthy: T -> bool)
    requires |a| == 2
    ensures Compact(a, truthy) == Keep(a[0], truthy) + Keep(a[1], truthy)
  {
    assert a[1..][1..] == [];
  }

  lemma {:induction false} CompactOfFour<T>(a: seq<Option<T>>, truthy: T -> bool)
    requires |a| == 4
    ensures Compact(a, truthy) == Keep(a[0], truthy) + Keep(a[1], truthy) + Keep(a[2], truthy) + Keep(a[3], truthy)
  {
    assert a == a[..2] + a[2..];
    CompactConcat(a[..2], a[2..], truthy);
    CompactOfTwo(a[..2], truthy);
    CompactOfTwo(a[2..], truthy);
  }

  /** Filtering commutes with concatenation. */
  lemma {:induction false} CompactConcat<T>(a: seq<Option<T>>, b: seq<Option<T>>, truthy: T -> bool)
    ensures Compact(a + b, truthy) == Compact(a, truthy) + Compact(b, truthy)
  {
    if a == [] {
      assert a + b == b;
    } else {
      var ab := a + b;
      assert ab[0] == a[0] && ab[1..] == a[1..] + b;
      CompactConcat(a[1..], b, truthy);
      assert Compact(ab, truthy) == Keep(a[0], truthy) + Compact(a[1..] + b, truthy);
      assert Compact(a, truthy) == Keep(a[0], truthy) + Compact(a[1..], truthy);
    }
  }

  /** The present values of a sequence of present values. */
  function Lift<T>(s: seq<T>): (r: seq<Option<T>>)
    ensures |r| == |s| && forall i :: 0 <= i < |s| ==> r[i] == Some(s[i])
  {
    seq(|s|, i requires 0 <= i < |s| => Some(s[i]))
  }

  /** Compacting an already compacted array changes nothing. */
  lemma {:induction false} CompactIdempotent<T>(a: seq<Option<T>>, truthy: T -> bool)
    ensures Compact(Lift(Compact(a, truthy)), truthy) == Compact(a, truthy)
  {
    var r := Compact(a, truthy);
    CompactAllTruthy(r, truthy);
  }

  lemma {:induction false} CompactAllTruthy<T>(s: seq<T>, truthy: T -> bool)
    requires forall x :: x in s ==> truthy(x)
    ensures Compact(Lift(s), truthy) == s
  {
    if s != [] {
      CompactAllTruthy(s[1..], truthy);
      assert Lift(s)[1..] == Lift(s[1..]);
    }
  }

  /** Order preservation: a kept element `a[i]` lands at the position given
      by the number of kept elements before it. */
  lemma {:induction false} CompactOrder<T>(a: seq<Option<T>>, truthy: T -> bool, i: nat)
    requires i < |a| && Kept(a[i], truthy)
    ensures |Compact(a[..i], truthy)| < |Compact(a, truthy)|
    ensures Compact(a, truthy)[|Compact(a[..i], truthy)|] == a[i].value
  {
    assert a == a[..i] + a[i..];
    CompactConcat(a[..i], a[i..], truthy);
    assert a[i..][1..] == a[i + 1..];
  }

  /** Two kept elements keep their relative order. */
  lemma {:induction false} CompactKeepsRelativeOrder<T>(a: seq<Option<T>>, truthy: T -> bool, i: nat, j: nat)
    requires i < j < |a| && Kept(a[i], truthy) && Kept(a[j], truthy)
    ensures |Compact(a[..i], truthy)| < |Compact(a[..j], truthy)|
  {
    assert a[..j] == a[..i] + a[i..j];
    CompactConcat(a[..i], a[i..j], truthy);
    assert a[i..j][0] == a[i];
  }
}
