/** Facts about finite sequences that the release models share. */
module Sequences {

  datatype Option<+T> = None | Some(value: T)

  predicate NoDup<T(==)>(s: seq<T>) {
    forall i, j :: 0 <= i < j < |s| ==> s[i] != s[j]
  }

  function Elems<T>(s: seq<T>): set<T> {
    set x | x in s
  }

  lemma NoDupConcat<T>(a: seq<T>, b: seq<T>)
    ensures NoDup(a + b) <==> NoDup(a) && NoDup(b) && (forall x :: x in a ==> x !in b)
  {
    var c := a + b;
    if NoDup(c) {
      forall i, j | 0 <= i < j < |b| ensures b[i] != b[j] {
        assert c[|a| + i] != c[|a| + j];
      }
      forall i, j | 0 <= i < j < |a| ensures a[i] != a[j] {
        assert c[i] != c[j];
      }
      forall x | x in a ensures x !in b {
        var i :| 0 <= i < |a| && a[i] == x;
        forall j | 0 <= j < |b| ensures b[j] != x {
          assert c[i] != c[|a| + j];
        }
      }
    }
    if NoDup(a) && NoDup(b) && (forall x :: x in a ==> x !in b) {
      forall i, j | 0 <= i < j < |c| ensures c[i] != c[j] {
        assert i < |a| ==> c[i] in a;
        assert j >= |a| ==> c[j] in b;
      }
    }
  }

  /** A Python `len(names) == len(set(names))` test is exactly the absence of repeats. */
  lemma {:induction false} DistinctCount<T>(s: seq<T>)
    ensures |Elems(s)| <= |s|
    ensures |Elems(s)| == |s| <==> NoDup(s)
  {
    if s != [] {
      var rest := s[1..];
      DistinctCount(rest);
      assert s == [s[0]] + rest;
      NoDupConcat([s[0]], rest);
      if s[0] in rest {
        assert Elems(s) == Elems(rest);
      } else {
        assert Elems(s) == {s[0]} + Elems(rest);
      }
    }
  }

  /** The elements of a sequence counted with multiplicity; duplicate-free means each once. */
  lemma {:induction false} NoDupMultiset<T>(s: seq<T>)
    ensures NoDup(s) <==> forall x :: multiset(s)[x] <= 1
  {
    if s != [] {
      var rest := s[1..];
      NoDupMultiset(rest);
      assert s == [s[0]] + rest;
      NoDupConcat([s[0]], rest);
      assert multiset(s) == multiset{s[0]} + multiset(rest);
      assert s[0] in rest <==> multiset(rest)[s[0]] > 0;
      forall x ensures multiset(s)[x] == multiset(rest)[x] + (if x == s[0] then 1 else 0) {}
    }
  }

  lemma NoDupPermutation<T>(a: seq<T>, b: seq<T>)
    requires multiset(a) == multiset(b)
    ensures NoDup(a) <==> NoDup(b)
    ensures Elems(a) == Elems(b)
    ensures |a| == |b|
  {
    NoDupMultiset(a);
    NoDupMultiset(b);
    assert forall x :: x in a <==> x in multiset(a);
    assert forall x :: x in b <==> x in multiset(b);
    assert |multiset(a)| == |a| && |multiset(b)| == |b|;
  }

  function Map<A, B>(f: A -> B, s: seq<A>): (r: seq<B>)
    ensures |r| == |s|
    ensures forall i :: 0 <= i < |s| ==> r[i] == f(s[i])
  {
    seq(|s|, i requires 0 <= i < |s| => f(s[i]))
  }

  lemma MapAppend<A, B>(f: A -> B, a: seq<A>, b: seq<A>)
    ensures Map(f, a + b) == Map(f, a) + Map(f, b)
  {
  }

  lemma WithoutAt<T>(b: seq<T>, k: nat)
    requires k < |b|
    ensures multiset(b) == multiset{b[k]} + multiset(b[..k] + b[k + 1..])
  {
    assert b == b[..k] + ([b[k]] + b[k + 1..]);
  }

  lemma MapWithoutAt<A, B>(g: A -> B, b: seq<A>, k: nat)
    requires k < |b|
    ensures multiset(Map(g, b)) == multiset{g(b[k])} + multiset(Map(g, b[..k] + b[k + 1..]))
  {
    WithoutAt(Map(g, b), k);
    assert Map(g, b)[..k] + Map(g, b)[k + 1..] == Map(g, b[..k] + b[k + 1..]);
  }

  lemma Cancel<T>(x: T, a: multiset<T>, b: multiset<T>)
    requires multiset{x} + a == multiset{x} + b
    ensures a == b
  {
    assert a == multiset{x} + a - multiset{x} && b == multiset{x} + b - multiset{x};
  }

  lemma {:induction false} MapPermutation<A, B>(g: A -> B, a: seq<A>, b: seq<A>)
    requires multiset(a) == multiset(b)
    ensures multiset(Map(g, a)) == multiset(Map(g, b))
    decreases |a|
  {
    hide Map;
    assert |multiset(a)| == |a| && |multiset(b)| == |b|;
    if a != [] {
      assert a[0] in multiset(b);
      var k :| 0 <= k < |b| && b[k] == a[0];
      WithoutAt(a, 0);
      WithoutAt(b, k);
      MapWithoutAt(g, a, 0);
      MapWithoutAt(g, b, k);
      Cancel(a[0], multiset(a[..0] + a[1..]), multiset(b[..k] + b[k + 1..]));
      MapPermutation(g, a[..0] + a[1..], b[..k] + b[k + 1..]);
    }
  }

  function FlatMap<A, B>(f: A -> seq<B>, s: seq<A>): seq<B> {
    if s == [] then [] else f(s[0]) + FlatMap(f, s[1..])
  }

  lemma {:induction false} FlatMapAppend<A, B>(f: A -> seq<B>, a: seq<A>, b: seq<A>)
    ensures FlatMap(f, a + b) == FlatMap(f, a) + FlatMap(f, b)
  {
    if a == [] {
      assert a + b == b;
    } else {
      FlatMapAppend(f, a[1..], b);
      assert (a + b)[1..] == a[1..] + b;
      assert FlatMap(f, a) + FlatMap(f, b) == f(a[0]) + (FlatMap(f, a[1..]) + FlatMap(f, b));
    }
  }

  lemma FlatMapStep<A, B>(f: A -> seq<B>, s: seq<A>, i: nat)
    requires i < |s|
    ensures FlatMap(f, s[..i + 1]) == FlatMap(f, s[..i]) + f(s[i])
  {
    assert s[..i + 1] == s[..i] + [s[i]];
    FlatMapAppend(f, s[..i], [s[i]]);
    assert FlatMap(f, [s[i]]) == f(s[i]) + FlatMap(f, []);
  }

  lemma {:induction false} FlatMapContains<A, B>(f: A -> seq<B>, s: seq<A>, y: B)
    ensures y in FlatMap(f, s) <==> exists i :: 0 <= i < |s| && y in f(s[i])
  {
    if s != [] {
      FlatMapContains(f, s[1..], y);
      if i :| 0 <= i < |s| && y in f(s[i]) {
        assert i > 0 ==> s[1..][i - 1] == s[i];
      }
      if y in FlatMap(f, s[1..]) {
        var i :| 0 <= i < |s[1..]| && y in f(s[1..][i]);
        assert s[i + 1] == s[1..][i];
      }
    }
  }

  lemma {:induction false} FlatMapNoDup<A, B>(f: A -> seq<B>, s: seq<A>)
    ensures NoDup(FlatMap(f, s)) <==>
            && (forall i :: 0 <= i < |s| ==> NoDup(f(s[i])))
            && (forall i, j, y :: 0 <= i < j < |s| && y in f(s[i]) ==> y !in f(s[j]))
  {
    if s != [] {
      var rest := s[1..];
      FlatMapNoDup(f, rest);
      NoDupConcat(f(s[0]), FlatMap(f, rest));
      assert forall i :: 0 < i < |s| ==> s[i] == rest[i - 1];
      forall y ensures y in FlatMap(f, rest) <==> exists j :: 0 < j < |s| && y in f(s[j]) {
        FlatMapContains(f, rest, y);
        if j :| 0 < j < |s| && y in f(s[j]) { assert rest[j - 1] == s[j]; }
        if j :| 0 <= j < |rest| && y in f(rest[j]) { assert s[j + 1] == rest[j]; }
      }
      if NoDup(FlatMap(f, s)) {
        forall i, j, y | 0 <= i < j < |s| && y in f(s[i]) ensures y !in f(s[j]) {
          FlatMapContains(f, rest, y);
          assert s[j] == rest[j - 1];
          assert i > 0 ==> s[i] == rest[i - 1];
        }
      }
      if (forall i :: 0 <= i < |s| ==> NoDup(f(s[i])))
         && (forall i, j, y :: 0 <= i < j < |s| && y in f(s[i]) ==> y !in f(s[j])) {
        assert NoDup(FlatMap(f, rest)) by {
          forall i, j, y | 0 <= i < j < |rest| && y in f(rest[i]) ensures y !in f(rest[j]) {
            assert rest[i] == s[i + 1] && rest[j] == s[j + 1];
          }
          forall i | 0 <= i < |rest| ensures NoDup(f(rest[i])) { assert rest[i] == s[i + 1]; }
        }
      }
    }
  }

  /** The items of a list that satisfy a test, in order. */
  function Select<T>(p: T -> bool, s: seq<T>): seq<T> {
    if s == [] then [] else (if p(s[0]) then [s[0]] else []) + Select(p, s[1..])
  }

  lemma {:induction false} SelectMembers<T>(p: T -> bool, s: seq<T>, x: T)
    ensures x in Select(p, s) <==> x in s && p(x)
  {
    if s != [] { SelectMembers(p, s[1..], x); }
  }

  lemma {:induction false} SelectAppend<T>(p: T -> bool, a: seq<T>, b: seq<T>)
    ensures Select(p, a + b) == Select(p, a) + Select(p, b)
  {
    if a == [] {
      assert a + b == b;
    } else {
      SelectAppend(p, a[1..], b);
      assert (a + b)[1..] == a[1..] + b;
      var head := if p(a[0]) then [a[0]] else [];
      assert head + (Select(p, a[1..]) + Select(p, b)) == head + Select(p, a[1..]) + Select(p, b);
    }
  }

  lemma {:induction false} SelectAll<T>(p: T -> bool, s: seq<T>)
    requires forall x :: x in s ==> p(x)
    ensures Select(p, s) == s
  {
    if s != [] { SelectAll(p, s[1..]); }
  }

  lemma {:induction false} SelectNone<T>(p: T -> bool, s: seq<T>)
    requires forall x :: x in s ==> !p(x)
    ensures Select(p, s) == []
  {
    if s != [] { SelectNone(p, s[1..]); }
  }

  // ----- A dictionary filled by assignments in order -----

  function Fst<K, V>(p: (K, V)): K { p.0 }

  function Assign<K, V>(m: map<K, V>, pairs: seq<(K, V)>): map<K, V> {
    if pairs == [] then m else Assign(m, pairs[..|pairs| - 1])[pairs[|pairs| - 1].0 := pairs[|pairs| - 1].1]
  }

  lemma {:induction false} AssignKeys<K, V>(m: map<K, V>, pairs: seq<(K, V)>)
    ensures Assign(m, pairs).Keys == m.Keys + Elems(Map(Fst, pairs))
  {
    if pairs != [] {
      var init, last := pairs[..|pairs| - 1], pairs[|pairs| - 1];
      assert pairs == init + [last];
      AssignKeys(m, init);
      MapAppend(Fst, init, [last]);
      assert Map(Fst, [last]) == [last.0];
    }
  }

  /** With distinct keys every assignment is read back, and other keys keep their values. */
  lemma {:induction false} AssignRead<K, V>(m: map<K, V>, pairs: seq<(K, V)>)
    requires NoDup(Map(Fst, pairs))
    ensures Assign(m, pairs).Keys == m.Keys + Elems(Map(Fst, pairs))
    ensures forall k :: k in m && k !in Map(Fst, pairs) ==> Assign(m, pairs)[k] == m[k]
    ensures forall p :: p in pairs ==> p.0 in Assign(m, pairs) && Assign(m, pairs)[p.0] == p.1
  {
    if pairs != [] {
      var init, last := pairs[..|pairs| - 1], pairs[|pairs| - 1];
      assert pairs == init + [last];
      MapAppend(Fst, init, [last]);
      assert Map(Fst, [last]) == [last.0];
      NoDupConcat(Map(Fst, init), [last.0]);
      AssignRead(m, init);
      forall p | p in pairs ensures p.0 in Assign(m, pairs) && Assign(m, pairs)[p.0] == p.1 {
        if p in init {
          var i :| 0 <= i < |init| && init[i] == p;
          assert Map(Fst, init)[i] == p.0;
        }
      }
    }
  }

  lemma {:induction false} AssignAppend<K, V>(m: map<K, V>, a: seq<(K, V)>, b: seq<(K, V)>)
    ensures Assign(m, a + b) == Assign(Assign(m, a), b)
  {
    if b == [] {
      assert a + b == a;
    } else {
      var init := b[..|b| - 1];
      assert (a + b)[..|a + b| - 1] == a + init;
      AssignAppend(m, a, init);
    }
  }

  lemma AssignLast<K, V>(m: map<K, V>, pairs: seq<(K, V)>, x: (K, V))
    ensures Assign(m, pairs + [x]) == Assign(m, pairs)[x.0 := x.1]
  {
    assert (pairs + [x])[..|pairs|] == pairs;
  }

  lemma {:induction false} AssignValue<K, V>(m: map<K, V>, pairs: seq<(K, V)>, k: K)
    requires k in Assign(m, pairs)
    ensures (k in m && Assign(m, pairs)[k] == m[k]) || (exists p :: p in pairs && p.0 == k && p.1 == Assign(m, pairs)[k])
  {
    if pairs != [] {
      var init, last := pairs[..|pairs| - 1], pairs[|pairs| - 1];
      if k != last.0 { AssignValue(m, init, k); }
      assert last in pairs;
    }
  }

  // ----- Writes that replace nothing -----

  /** Rows whose keys are new and distinct. */
  ghost predicate AllNew<K, V>(keys: set<K>, rows: seq<(K, V)>) {
    NoDup(Map(Fst, rows)) && forall k :: k in Map(Fst, rows) ==> k !in keys
  }

  lemma AllNewStep<K, V>(m: map<K, V>, rows: seq<(K, V)>, x: (K, V))
    requires AllNew(m.Keys, rows)
    ensures AllNew(m.Keys, rows + [x]) <==> x.0 !in Assign(m, rows)
    ensures Assign(m, rows + [x]) == Assign(m, rows)[x.0 := x.1]
  {
    MapAppend(Fst, rows, [x]);
    assert Map(Fst, [x]) == [x.0];
    NoDupConcat(Map(Fst, rows), [x.0]);
    AssignRead(m, rows);
    assert (rows + [x])[..|rows|] == rows;
    if AllNew(m.Keys, rows + [x]) {
      assert x.0 in [x.0];
      assert x.0 in Map(Fst, rows + [x]);
    }
  }

  lemma AllNewPrefix<K, V>(keys: set<K>, a: seq<(K, V)>, b: seq<(K, V)>)
    requires AllNew(keys, a + b)
    ensures AllNew(keys, a)
  {
    MapAppend(Fst, a, b);
    NoDupConcat(Map(Fst, a), Map(Fst, b));
    assert forall k :: k in Map(Fst, a) ==> k in Map(Fst, a) + Map(Fst, b);
  }

  /** Written in order, each row meets a new key exactly when all keys are new and distinct. */
  lemma {:induction false} EachNew<K, V>(m: map<K, V>, rows: seq<(K, V)>)
    ensures (forall i :: 0 <= i < |rows| ==> rows[i].0 !in Assign(m, rows[..i])) <==> AllNew(m.Keys, rows)
  {
    if rows != [] {
      var init, last := rows[..|rows| - 1], rows[|rows| - 1];
      assert rows == init + [last];
      EachNew(m, init);
      assert forall i :: 0 <= i < |init| ==> init[..i] == rows[..i];
      if AllNew(m.Keys, init) { AllNewStep(m, init, last); }
      if AllNew(m.Keys, rows) { AllNewPrefix(m.Keys, init, [last]); }
    }
  }

  /** Other keys keep their values. */
  lemma {:induction false} AssignKeeps<K, V>(m: map<K, V>, rows: seq<(K, V)>, k: K)
    requires k in m && k !in Map(Fst, rows)
    ensures k in Assign(m, rows) && Assign(m, rows)[k] == m[k]
  {
    if rows != [] {
      var init, last := rows[..|rows| - 1], rows[|rows| - 1];
      assert Map(Fst, rows)[|rows| - 1] == last.0 && Map(Fst, rows)[..|rows| - 1] == Map(Fst, init);
      AssignKeeps(m, init, k);
    }
  }
}
