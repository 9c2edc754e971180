/**
 Ruby's `Array#-` on lists of services: keeps the left operand's order and
 its duplicates, and drops every element equal to some element of the right
 operand.
 */
module ArrayDiff {
  import opened ServiceModel

  /** `left - right`. */
  function Minus(left: seq<Service>, right: seq<Service>): seq<Service>
  {
    if left == [] then []
    else if left[0] in right then Minus(left[1..], right)
    else [left[0]] + Minus(left[1..], right)
  }

  /** The services listed, as a set (membership only). */
  function Members(s: seq<Service>): (m: set<Service>)
    ensures forall x :: x in m <==> x in s
  {
    set x | x in s
  }

  /** The difference holds exactly the elements of `left` that are not in
      `right`, and is no longer than `left`. */
  lemma {:induction false} MinusMembers(left: seq<Service>, right: seq<Service>)
    ensures |Minus(left, right)| <= |left|
    ensures forall x :: x in Minus(left, right) <==> x in left && x !in right
  {
    if left != [] {
      MinusMembers(left[1..], right);
      assert left == [left[0]] + left[1..];
    }
  }

  /** Every occurrence of a kept element survives: duplicates are kept, and
      an element of `right` leaves no occurrence at all. */
  lemma {:induction false} MinusCounts(left: seq<Service>, right: seq<Service>, x: Service)
    ensures multiset(Minus(left, right))[x] == if x in right then 0 else multiset(left)[x]
  {
    if left != [] {
      MinusCounts(left[1..], right, x);
      assert left == [left[0]] + left[1..];
    }
  }

  /** Removing nothing changes nothing. */
  lemma {:induction false} MinusNothing(left: seq<Service>)
    ensures Minus(left, []) == left
  {
    if left != [] {
      MinusNothing(left[1..]);
    }
  }

  /** A list minus a list that contains all of its elements is empty. */
  lemma {:induction false} MinusCovered(a: seq<Service>, b: seq<Service>)
    requires forall x :: x in a ==> x in b
    ensures Minus(a, b) == []
  {
    if a != [] {
      MinusCovered(a[1..], b);
    }
  }

  /** `a - a` is empty. */
  lemma MinusSelf(a: seq<Service>)
    ensures Minus(a, a) == []
  {
    MinusCovered(a, a);
  }

  /** Concatenation on the left distributes over the difference. */
  lemma {:induction false} MinusAppend(a: seq<Service>, b: seq<Service>, right: seq<Service>)
    ensures Minus(a + b, right) == Minus(a, right) + Minus(b, right)
  {
    if a == [] {
      assert a + b == b;
    } else {
      assert (a + b)[0] == a[0];
      assert (a + b)[1..] == a[1..] + b;
      MinusAppend(a[1..], b, right);
    }
  }
}
