/** Values shared by the page models: an optional value (a JS value that may be
    `null` or `undefined`) and the "drop every occurrence" filter used by the
    variant editor and by the expanded-rows list of the stock page. */
module Common {

  datatype Option<+T> = None | Some(value: T)

  /** What local storage holds under "user", as the pages read it back:
      nothing (or empty text, which is just as falsy), text whose parse throws
      (or gives `null`, whose fields then cannot be read), or a parsed user
      whose `username` and `role` are each present as text or not. */
  datatype StoredUser = NoUser | Unparsable | Parsed(username: Option<string>, role: Option<string>)

  /** `xs.filter(y => y !== x)`: every occurrence of `x` goes, the rest keep their order. */
  function RemoveAll<T(==,!new)>(xs: seq<T>, x: T): (r: seq<T>)
    ensures |r| <= |xs|
    ensures x !in r
    ensures forall y :: y in r <==> y in xs && y != x
  {
    if xs == [] then []
    else if xs[0] == x then RemoveAll(xs[1..], x)
    else [xs[0]] + RemoveAll(xs[1..], x)
  }

  /** Removing a value that is absent changes nothing. */
  lemma {:induction false} RemoveAllAbsent<T(!new)>(xs: seq<T>, x: T)
    requires x !in xs
    ensures RemoveAll(xs, x) == xs
  {
    if xs != [] {
      RemoveAllAbsent(xs[1..], x);
    }
  }

  /** Filtering distributes over concatenation, so the kept elements keep their order. */
  lemma {:induction false} RemoveAllConcat<T(!new)>(a: seq<T>, b: seq<T>, x: T)
    ensures RemoveAll(a + b, x) == RemoveAll(a, x) + RemoveAll(b, x)
  {
    if a == [] {
      assert a + b == b;
    } else {
      assert (a + b)[1..] == a[1..] + b;
      RemoveAllConcat(a[1..], b, x);
    }
  }

  /** No element occurs twice. */
  predicate Distinct<T(==)>(xs: seq<T>)
  {
    forall i, j :: 0 <= i < j < |xs| ==> xs[i] != xs[j]
  }

  /** Dropping elements from a list without duplicates leaves it without duplicates. */
  lemma {:induction false} RemoveAllDistinct<T(!new)>(xs: seq<T>, x: T)
    requires Distinct(xs)
    ensures Distinct(RemoveAll(xs, x))
  {
    if xs != [] {
      RemoveAllDistinct(xs[1..], x);
      if xs[0] != x {
        var r := RemoveAll(xs[1..], x);
        assert xs[0] !in xs[1..];
        assert forall j :: 0 <= j < |r| ==> r[j] in xs[1..];
      }
    }
  }
}
