/**
 * The cartesian product used to combine the neon service mappings of a
 * multiple-service type: every way of choosing one element from each list,
 * in lexicographic index order (client/app/neonGTDSetup.js, generatePermutations).
 */
module Permutations {

  /** Every element of `xs` with `c` put in front of it. */
  function Prefixed<T>(c: seq<T>, xs: seq<seq<T>>): (r: seq<seq<T>>)
    ensures |r| == |xs|
    ensures forall i :: 0 <= i < |xs| ==> r[i] == c + xs[i]
  {
    seq(|xs|, i requires 0 <= i < |xs| => c + xs[i])
  }

  /** For each element `x` of `l` in order, every element of `rest` with `x` in front. */
  function Expand<T>(l: seq<T>, rest: seq<seq<T>>): seq<seq<T>>
    decreases |l|
  {
    if l == [] then [] else Expand(l[..|l| - 1], rest) + Prefixed([l[|l| - 1]], rest)
  }

  /** Every choice of one element from each list, first list varying slowest. */
  function Choices<T>(lists: seq<seq<T>>): seq<seq<T>>
    decreases |lists|
  {
    if lists == [] then [[]] else Expand(lists[0], Choices(lists[1..]))
  }

  /** The product of the lengths of the lists. */
  function Product<T>(lists: seq<seq<T>>): nat
    decreases |lists|
  {
    if lists == [] then 1 else |lists[0]| * Product(lists[1..])
  }

  /** `c` picks one element from each list, position by position. */
  predicate IsChoice<T(==)>(c: seq<T>, lists: seq<seq<T>>) {
    |c| == |lists| && forall d :: 0 <= d < |c| ==> c[d] in lists[d]
  }

  // ---------------------------------------------------------------------------
  // The recursive generator

  /**
   * `generatePermutations(lists, result, depth, current)`: appends to `result`
   * every choice for the lists from `depth` on, each prefixed by `current`.
   */
  method GeneratePermutations<T>(lists: seq<seq<T>>, result: seq<seq<T>>, depth: nat, current: seq<T>)
    returns (out: seq<seq<T>>)
    requires depth <= |lists|
    ensures out == result + Prefixed(current, Choices(lists[depth..]))
    decreases |lists| - depth
  {
    if depth == |lists| {
      assert lists[depth..] == [];
      assert current + [] == current;
      var p := Prefixed(current, Choices(lists[depth..]));
      assert |p| == 1 && p[0] == current;
      assert p == [current];
      return result + [current];
    }
    var l := lists[depth];
    var rest := Choices(lists[depth + 1..]);
    assert lists[depth..][1..] == lists[depth + 1..];
    out := result;
    var i := 0;
    while i < |l|
      invariant 0 <= i <= |l|
      invariant out == result + Prefixed(current, Expand(l[..i], rest))
    {
      var before := out;
      out := GeneratePermutations(lists, out, depth + 1, current + [l[i]]);
      GenerateStep(result, before, out, current, l, i, rest);
      i := i + 1;
    }
    assert l[..|l|] == l;
  }

  /** One turn of the generator's loop keeps its invariant. */
  lemma GenerateStep<T>(result: seq<seq<T>>, before: seq<seq<T>>, after: seq<seq<T>>,
                        current: seq<T>, l: seq<T>, i: nat, rest: seq<seq<T>>)
    requires i < |l|
    requires before == result + Prefixed(current, Expand(l[..i], rest))
    requires after == before + Prefixed(current + [l[i]], rest)
    ensures after == result + Prefixed(current, Expand(l[..i + 1], rest))
  {
    PrefixedConcat(current, l[i], rest);
    ExpandStep(l, i, rest);
    PrefixedAppend(current, Expand(l[..i], rest), Prefixed([l[i]], rest));
  }

  lemma PrefixedConcat<T>(current: seq<T>, x: T, rest: seq<seq<T>>)
    ensures Prefixed(current + [x], rest) == Prefixed(current, Prefixed([x], rest))
  {
    forall i | 0 <= i < |rest|
      ensures (current + [x]) + rest[i] == current + ([x] + rest[i])
    {
    }
  }

  lemma PrefixedAppend<T>(c: seq<T>, a: seq<seq<T>>, b: seq<seq<T>>)
    ensures Prefixed(c, a + b) == Prefixed(c, a) + Prefixed(c, b)
  {
  }

  lemma ExpandStep<T>(l: seq<T>, i: nat, rest: seq<seq<T>>)
    requires i < |l|
    ensures Expand(l[..i + 1], rest) == Expand(l[..i], rest) + Prefixed([l[i]], rest)
  {
    assert l[..i + 1][..i] == l[..i];
  }

  // ---------------------------------------------------------------------------
  // What the choices are

  lemma {:induction false} ExpandLength<T>(l: seq<T>, rest: seq<seq<T>>)
    ensures |Expand(l, rest)| == |l| * |rest|
    decreases |l|
  {
    if l != [] {
      var init := l[..|l| - 1];
      ExpandLength(init, rest);
      assert |Expand(l, rest)| == |init| * |rest| + |rest|;
      assert |l| * |rest| == (|init| + 1) * |rest| == |init| * |rest| + |rest|;
    }
  }

  /** There are as many choices as the product of the list lengths; none when a list is empty. */
  lemma {:induction false} ChoicesCount<T>(lists: seq<seq<T>>)
    ensures |Choices(lists)| == Product(lists)
    ensures (exists d :: 0 <= d < |lists| && lists[d] == []) ==> Choices(lists) == []
    decreases |lists|
  {
    if lists != [] {
      ChoicesCount(lists[1..]);
      ExpandLength(lists[0], Choices(lists[1..]));
      if exists d :: 0 <= d < |lists| && lists[d] == [] {
        var d :| 0 <= d < |lists| && lists[d] == [];
        if d > 0 {
          assert lists[1..][d - 1] == [];
        }
      }
    }
  }

  /** Element `i * |rest| + j` of an expansion is the `i`-th element of `l` in front of the `j`-th of `rest`. */
  lemma {:induction false} ExpandIndex<T>(l: seq<T>, rest: seq<seq<T>>, i: nat, j: nat)
    requires i < |l| && j < |rest|
    ensures i * |rest| + j < |Expand(l, rest)|
    ensures Expand(l, rest)[i * |rest| + j] == [l[i]] + rest[j]
    decreases |l|
  {
    var init := l[..|l| - 1];
    ExpandLength(l, rest);
    ExpandLength(init, rest);
    if i < |l| - 1 {
      ExpandIndex(init, rest, i, j);
      assert init[i] == l[i];
    } else {
      assert i * |rest| == |init| * |rest|;
    }
  }

  /**
   * The choices come in lexicographic index order: the choice at position
   * `i * |rest| + j` takes element `i` of the first list, followed by the
   * `j`-th choice for the remaining lists.
   */
  lemma ChoicesOrder<T>(lists: seq<seq<T>>, i: nat, j: nat)
    requires lists != []
    requires i < |lists[0]| && j < |Choices(lists[1..])|
    ensures i * |Choices(lists[1..])| + j < |Choices(lists)|
    ensures Choices(lists)[i * |Choices(lists[1..])| + j] == [lists[0][i]] + Choices(lists[1..])[j]
  {
    ExpandIndex(lists[0], Choices(lists[1..]), i, j);
  }

  /** Every element of an expansion is an element of `l` in front of an element of `rest`. */
  lemma {:induction false} ExpandMember<T>(l: seq<T>, rest: seq<seq<T>>, c: seq<T>)
    requires c in Expand(l, rest)
    ensures exists i, j :: 0 <= i < |l| && 0 <= j < |rest| && c == [l[i]] + rest[j]
    decreases |l|
  {
    var init := l[..|l| - 1];
    if c in Expand(init, rest) {
      ExpandMember(init, rest, c);
      var i, j :| 0 <= i < |init| && 0 <= j < |rest| && c == [init[i]] + rest[j];
      assert init[i] == l[i];
    } else {
      var p := Prefixed([l[|l| - 1]], rest);
      assert c in p;
      var j :| 0 <= j < |p| && p[j] == c;
      assert c == [l[|l| - 1]] + rest[j];
    }
  }

  /** Every generated choice has one element per list, taken from that list. */
  lemma {:induction false} ChoicesAreChoices<T>(lists: seq<seq<T>>, c: seq<T>)
    requires c in Choices(lists)
    ensures IsChoice(c, lists)
    decreases |lists|
  {
    if lists != [] {
      ExpandMember(lists[0], Choices(lists[1..]), c);
      var i, j :| 0 <= i < |lists[0]| && 0 <= j < |Choices(lists[1..])|
        && c == [lists[0][i]] + Choices(lists[1..])[j];
      var tail := Choices(lists[1..])[j];
      ChoicesAreChoices(lists[1..], tail);
      forall d | 0 <= d < |c| ensures c[d] in lists[d] {
        if d > 0 {
          assert c[d] == tail[d - 1] && lists[d] == lists[1..][d - 1];
        }
      }
    }
  }

  /** Every choice of one element per list is generated. */
  lemma {:induction false} ChoicesComplete<T>(lists: seq<seq<T>>, c: seq<T>)
    requires IsChoice(c, lists)
    ensures c in Choices(lists)
    decreases |lists|
  {
    if lists == [] {
      assert c == [];
    } else {
      var tail := c[1..];
      forall d | 0 <= d < |tail| ensures tail[d] in lists[1..][d] {
        assert tail[d] == c[d + 1];
      }
      ChoicesComplete(lists[1..], tail);
      ExpandHas(lists[0], Choices(lists[1..]), c[0], tail);
      assert c == [c[0]] + tail;
    }
  }

  lemma ExpandHas<T>(l: seq<T>, rest: seq<seq<T>>, x: T, y: seq<T>)
    requires x in l && y in rest
    ensures [x] + y in Expand(l, rest)
  {
    var i :| 0 <= i < |l| && l[i] == x;
    var j :| 0 <= j < |rest| && rest[j] == y;
    ExpandIndex(l, rest, i, j);
  }
}
