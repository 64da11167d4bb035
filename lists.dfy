/** The array idioms the questionnaire editors use: `includes ? filter : [...xs, x]`
    and `filter((_, i) => i !== index)`. */
module Lists {

  /** `s.filter(e => e !== x)`. */
  function RemoveAll<T(==)>(s: seq<T>, x: T): (r: seq<T>)
    ensures x !in r
    ensures forall y | y in r :: y in s
    ensures forall y | y in s && y != x :: y in r
    ensures |r| <= |s|
    ensures x !in s ==> r == s
  {
    if s == [] then []
    else
      assert s == [s[0]] + s[1..];
      (if s[0] == x then [] else [s[0]]) + RemoveAll(s[1..], x)
  }

  /** Every other element keeps its multiplicity; every copy of `x` is gone. */
  lemma {:induction false} RemoveAllMultiset<T>(s: seq<T>, x: T)
    ensures multiset(RemoveAll(s, x)) == multiset(s)[x := 0]
  {
    if s != [] {
      assert s == [s[0]] + s[1..];
      RemoveAllMultiset(s[1..], x);
    }
  }

  /** `filter` works element by element, so it keeps the order of what it keeps. */
  lemma {:induction false} RemoveAllConcat<T>(a: seq<T>, b: seq<T>, x: T)
    ensures RemoveAll(a + b, x) == RemoveAll(a, x) + RemoveAll(b, x)
  {
    if a == [] {
      assert a + b == b;
    } else {
      assert (a + b)[1..] == a[1..] + b;
      RemoveAllConcat(a[1..], b, x);
    }
  }

  /** The checkbox toggle: remove every occurrence when present, otherwise append at the end. */
  function Toggle<T(==)>(s: seq<T>, x: T): seq<T> {
    if x in s then RemoveAll(s, x) else s + [x]
  }

  lemma {:induction false} RemoveAllAppended<T>(s: seq<T>, x: T)
    requires x !in s
    ensures RemoveAll(s + [x], x) == s
  {
    if s == [] {
      assert [] + [x] == [x];
    } else {
      assert (s + [x])[1..] == s[1..] + [x];
      RemoveAllAppended(s[1..], x);
    }
  }

  /** Toggling changes membership of `x` and of nothing else. */
  lemma ToggleMembership<T>(s: seq<T>, x: T)
    ensures x in Toggle(s, x) <==> x !in s
    ensures forall y | y in s && y != x :: y in Toggle(s, x)
    ensures forall y | y in Toggle(s, x) && y != x :: y in s
  {
  }

  /** Toggling an absent item twice gives back the original list. */
  lemma ToggleTwice<T>(s: seq<T>, x: T)
    requires x !in s
    ensures Toggle(Toggle(s, x), x) == s
  {
    assert x in s + [x];
    RemoveAllAppended(s, x);
  }

  /** `s.filter((_, k) => k !== i)`, scanning from the end as the callback order does not matter. */
  function RemoveIndex<T>(s: seq<T>, i: int): (r: seq<T>)
    ensures 0 <= i < |s| ==> r == s[..i] + s[i + 1..]
    ensures !(0 <= i < |s|) ==> r == s
  {
    if s == [] then []
    else if i == |s| - 1 then s[..|s| - 1]
    else RemoveIndex(s[..|s| - 1], i) + [s[|s| - 1]]
  }
}
