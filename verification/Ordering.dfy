/** The byte-wise lexicographic order Go uses to compare and sort strings. */
module Ordering {

  predicate Leq(a: string, b: string) {
    a == "" || (b != "" && (a[0] < b[0] || (a[0] == b[0] && Leq(a[1..], b[1..]))))
  }

  /** a comes before b at the first position where they differ. */
  ghost predicate DiffersBelow(a: string, b: string, i: nat) {
    i < |a| && i < |b| && a[..i] == b[..i] && a[i] < b[i]
  }

  /** The order without recursion: a is a prefix of b, or smaller at the first difference. */
  lemma {:induction false} LeqIff(a: string, b: string)
    ensures Leq(a, b) <==> a <= b || exists i: nat :: DiffersBelow(a, b, i)
  {
    if a != "" && b != "" {
      if a[0] == b[0] {
        LeqIff(a[1..], b[1..]);
        HeadsAgree(a, b);
      } else if a[0] < b[0] {
        assert DiffersBelow(a, b, 0);
      } else {
        forall i: nat ensures !DiffersBelow(a, b, i) {
          if 0 < i < |a| && i < |b| {
            PrefixHead(a, b, i);
          }
        }
      }
    }
  }

  lemma PrefixHead(a: string, b: string, i: nat)
    requires 0 < i <= |a| && i <= |b|
    ensures a[..i] == b[..i] ==> a[0] == b[0]
  {
    assert a[..i][0] == a[0] && b[..i][0] == b[0];
  }

  lemma HeadsAgree(a: string, b: string)
    requires a != "" && b != "" && a[0] == b[0]
    ensures a <= b <==> a[1..] <= b[1..]
    ensures (exists i: nat :: DiffersBelow(a, b, i)) <==> exists i: nat :: DiffersBelow(a[1..], b[1..], i)
  {
    assert a == [a[0]] + a[1..] && b == [b[0]] + b[1..];
    if i: nat :| DiffersBelow(a, b, i) {
      assert a[1..][..i - 1] == a[..i][1..] && b[1..][..i - 1] == b[..i][1..];
      assert DiffersBelow(a[1..], b[1..], i - 1);
    }
    if i: nat :| DiffersBelow(a[1..], b[1..], i) {
      assert a[..i + 1] == [a[0]] + a[1..][..i] && b[..i + 1] == [b[0]] + b[1..][..i];
      assert DiffersBelow(a, b, i + 1);
    }
  }

  lemma {:induction false} LeqTotal(a: string, b: string)
    ensures Leq(a, b) || Leq(b, a)
  {
    if a != "" && b != "" && a[0] == b[0] {
      LeqTotal(a[1..], b[1..]);
    }
  }

  lemma {:induction false} LeqAntisymmetric(a: string, b: string)
    requires Leq(a, b) && Leq(b, a)
    ensures a == b
  {
    if a != "" && b != "" {
      LeqAntisymmetric(a[1..], b[1..]);
      assert a == [a[0]] + a[1..] && b == [b[0]] + b[1..];
    }
  }

  lemma {:induction false} LeqTransitive(a: string, b: string, c: string)
    requires Leq(a, b) && Leq(b, c)
    ensures Leq(a, c)
  {
    if a != "" && a[0] == b[0] && b[0] == c[0] {
      LeqTransitive(a[1..], b[1..], c[1..]);
    }
  }

  /** `order` lists the elements of `s`, each once, in ascending order: what sets.List returns. */
  ghost predicate Lists(order: seq<string>, s: set<string>) {
    && (forall i, j :: 0 <= i < j < |order| ==> Leq(order[i], order[j]) && order[i] != order[j])
    && (forall x :: x in order <==> x in s)
  }

  /** What a listing promises without the recursion: ascending, each element once, and exactly the set. */
  lemma ListsAscending(order: seq<string>, s: set<string>)
    requires Lists(order, s)
    ensures forall i, j :: 0 <= i < j < |order| ==> order[i] != order[j]
    ensures forall i, j :: 0 <= i < j < |order| ==>
              order[i] <= order[j] || exists d: nat :: DiffersBelow(order[i], order[j], d)
  {
    forall i, j | 0 <= i < j < |order|
      ensures order[i] <= order[j] || exists d: nat :: DiffersBelow(order[i], order[j], d)
    {
      LeqIff(order[i], order[j]);
    }
  }

  lemma ListsFront(order: seq<string>, s: set<string>)
    requires Lists(order, s) && order != []
    ensures var x := order[|order| - 1]; x in s && Lists(order[..|order| - 1], s - {x})
  {
    var x, front := order[|order| - 1], order[..|order| - 1];
    assert order == front + [x];
  }

  /** A listing is as long as the set is large. */
  lemma {:induction false} ListingLength(order: seq<string>, s: set<string>)
    requires Lists(order, s)
    ensures |order| == |s|
  {
    if order == [] {
      assert s == {};
    } else {
      ListsFront(order, s);
      ListingLength(order[..|order| - 1], s - {order[|order| - 1]});
    }
  }
}
