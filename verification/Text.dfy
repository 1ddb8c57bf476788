/** Strings compared as Python compares them, code point by code point. */
module Text {
  import opened Sorting

  predicate StrLeq(a: string, b: string) {
    a == [] || (b != [] && (a[0] < b[0] || (a[0] == b[0] && StrLeq(a[1..], b[1..]))))
  }

  lemma {:induction false} StrTotal(a: string, b: string)
    ensures StrLeq(a, b) || StrLeq(b, a)
    ensures StrLeq(a, b) && StrLeq(b, a) ==> a == b
  {
    if a != [] && b != [] && a[0] == b[0] {
      StrTotal(a[1..], b[1..]);
      assert a == [a[0]] + a[1..] && b == [b[0]] + b[1..];
    }
  }

  lemma {:induction false} StrTransitive(a: string, b: string, c: string)
    requires StrLeq(a, b) && StrLeq(b, c)
    ensures StrLeq(a, c)
  {
    if a != [] && a[0] == b[0] && b[0] == c[0] {
      StrTransitive(a[1..], b[1..], c[1..]);
    }
  }

  lemma StrOrder()
    ensures TotalOrder(StrLeq)
  {
    forall a, b ensures (StrLeq(a, b) || StrLeq(b, a)) && (StrLeq(a, b) && StrLeq(b, a) ==> a == b) {
      StrTotal(a, b);
    }
    forall a, b, c | StrLeq(a, b) && StrLeq(b, c) ensures StrLeq(a, c) {
      StrTransitive(a, b, c);
    }
  }

  function SortedNames(names: seq<string>): (r: seq<string>)
    ensures multiset(r) == multiset(names)
    ensures |r| == |names|
  {
    Sort(StrLeq, names)
  }

  /** Equal sorted name lists mean equal contents, which is what every inventory check compares. */
  lemma SortedNamesEqual(a: seq<string>, b: seq<string>)
    ensures SortedNames(a) == SortedNames(b) <==> multiset(a) == multiset(b)
  {
    StrOrder();
    SortCanonical(StrLeq, a, b);
  }

  predicate StartsWith(s: string, prefix: string) {
    |prefix| <= |s| && s[..|prefix|] == prefix
  }
}
