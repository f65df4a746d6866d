/** Facts about logs kept as sequences: a predicate that holds of no element,
    and the concatenation of what each element contributes. Both are defined
    from the last element back, the way a loop appends to a log. */
module Seqs {

  /** No element of `s` is `bad`. */
  predicate NoneOf<T>(s: seq<T>, bad: T -> bool)
  {
    s == [] || (NoneOf(s[..|s| - 1], bad) && !bad(s[|s| - 1]))
  }

  /** The sequences `each(x)` of the elements `x` of `s`, one after another. */
  function ConcatMap<T, U>(s: seq<T>, each: T -> seq<U>): seq<U>
  {
    if s == [] then [] else ConcatMap(s[..|s| - 1], each) + each(s[|s| - 1])
  }

  lemma ConcatAssoc<T>(a: seq<T>, b: seq<T>, c: seq<T>)
    ensures a + (b + c) == a + b + c
  {
  }

  lemma {:induction false} NoneOfAll<T>(s: seq<T>, bad: T -> bool)
    ensures NoneOf(s, bad) <==> forall k :: 0 <= k < |s| ==> !bad(s[k])
  {
    if s != [] {
      var prefix := s[..|s| - 1];
      NoneOfAll(prefix, bad);
      assert forall k :: 0 <= k < |prefix| ==> prefix[k] == s[k];
    }
  }

  /** Splitting a log in two splits both the predicate and the concatenation. */
  lemma {:induction false} ConcatOf<T, U>(a: seq<T>, b: seq<T>, bad: T -> bool, each: T -> seq<U>)
    ensures NoneOf(a + b, bad) <==> NoneOf(a, bad) && NoneOf(b, bad)
    ensures ConcatMap(a + b, each) == ConcatMap(a, each) + ConcatMap(b, each)
    decreases |b|
  {
    if b == [] {
      assert a + b == a;
    } else {
      var front := b[..|b| - 1];
      ConcatOf(a, front, bad, each);
      assert (a + b)[..|a + b| - 1] == a + front;
      ConcatAssoc(ConcatMap(a, each), ConcatMap(front, each), each(b[|b| - 1]));
    }
  }

  /** A one-element log. */
  lemma Single<T, U>(x: T, bad: T -> bool, each: T -> seq<U>)
    ensures NoneOf([x], bad) <==> !bad(x)
    ensures ConcatMap([x], each) == each(x)
  {
    assert [x][..0] == [];
    assert ConcatMap([x], each) == ConcatMap([], each) + each(x);
  }
}
