/** The migration history: one head means one linear chain. */
module MigrationGraph {
  import opened Sequences

  /** A migration file: its revision and the revision it follows. */
  datatype Migration = Migration(revision: string, parent: Option<string>)

  function RevisionOf(m: Migration): string { m.revision }

  function Revisions(files: seq<Migration>): set<string> { Elems(Map(RevisionOf, files)) }
  function Parents(files: seq<Migration>): set<string> { set m | m in files && m.parent.Some? :: m.parent.value }

  /** `migration_head`: the one revision that no migration follows. */
  method MigrationHead(files: seq<Migration>) returns (head: Option<string>)
    ensures head.Some? <==> |Revisions(files) - Parents(files)| == 1
    ensures head.Some? ==> Revisions(files) - Parents(files) == {head.value}
  {
    var revisions: set<string> := {};
    var parents: set<string> := {};
    for i := 0 to |files|
      invariant revisions == Revisions(files[..i]) && parents == Parents(files[..i])
    {
      var m := files[i];
      assert files[..i + 1] == files[..i] + [m];
      MapAppend(RevisionOf, files[..i], [m]);
      assert Map(RevisionOf, [m]) == [m.revision];
      revisions := revisions + {m.revision};
      if m.parent.Some? { parents := parents + {m.parent.value}; }
    }
    assert files[..|files|] == files;
    var heads := revisions - parents;
    if |heads| != 1 { return None; }
    var h :| h in heads;
    OnlyElement(heads, h);
    head := Some(h);
  }

  lemma OnlyElement<T>(s: set<T>, x: T)
    requires x in s && |s| == 1
    ensures s == {x}
  {
    assert |s - {x}| == 0;
    assert s == {x} + (s - {x});
  }

  // ----- The history as a graph -----

  type History = map<string, Option<string>>

  function Pair(m: Migration): (string, Option<string>) { (m.revision, m.parent) }
  function HistoryOf(files: seq<Migration>): History { Assign(map[], Map(Pair, files)) }

  function Heads(g: History): set<string> { set x | x in g && forall y :: y in g ==> g[y] != Some(x) }

  /** With distinct revisions the sets the check collects are the graph's. */
  lemma HeadsOf(files: seq<Migration>)
    requires NoDup(Map(RevisionOf, files))
    ensures HistoryOf(files).Keys == Revisions(files)
    ensures Revisions(files) - Parents(files) == Heads(HistoryOf(files))
  {
    var g, pairs := HistoryOf(files), Map(Pair, files);
    assert Map(Fst, pairs) == Map(RevisionOf, files);
    AssignRead(map[], pairs);
    forall m | m in files ensures m.revision in g && g[m.revision] == m.parent {
      var i :| 0 <= i < |files| && files[i] == m;
      assert pairs[i] in pairs;
    }
    forall x | x in g ensures exists m :: m in files && m.revision == x {
      var i :| 0 <= i < |files| && Map(RevisionOf, files)[i] == x;
      assert files[i] in files;
    }
    forall p ensures p in Parents(files) <==> exists y :: y in g && g[y] == Some(p) {
      if y :| y in g && g[y] == Some(p) {
        var m :| m in files && m.revision == y;
      }
    }
  }

  /** The revision n steps back, if the history reaches that far. */
  function Back(g: History, x: string, n: nat): Option<string> {
    if n == 0 then Some(x)
    else match Back(g, x, n - 1) case None => None case Some(y) => if y in g then g[y] else None
  }

  ghost predicate Closed(g: History) { forall x :: x in g && g[x].Some? ==> g[x].value in g }
  ghost predicate Acyclic(g: History) { forall x, n: nat :: x in g && n > 0 ==> Back(g, x, n) != Some(x) }

  /** Every revision reached by going back, the revision itself included. */
  ghost function Ancestors(g: History, x: string): set<string> {
    set y | y in g && exists n: nat :: Back(g, x, n) == Some(y)
  }

  function Before(order: seq<string>, i: nat): Option<string>
    requires i <= |order|
  {
    if i == 0 then None else Some(order[i - 1])
  }

  ghost predicate Linked(g: History, order: seq<string>) {
    forall i :: 0 <= i < |order| ==> order[i] in g && g[order[i]] == Before(order, i)
  }

  /** A linear chain from one root, each revision following the one before. */
  ghost predicate Chain(g: History, order: seq<string>) {
    order != [] && NoDup(order) && Elems(order) == g.Keys && Linked(g, order)
  }

  lemma {:induction false} BackShift(g: History, x: string, p: string, n: nat)
    requires x in g && g[x] == Some(p)
    ensures Back(g, x, n + 1) == Back(g, p, n)
  {
    if n == 0 {
      assert Back(g, x, 0) == Some(x);
    } else {
      BackShift(g, x, p, n - 1);
    }
  }

  /** The ancestors of a revision are its own, and those of its parent without it. */
  lemma AncestorsStep(g: History, x: string, p: string)
    requires Closed(g) && Acyclic(g) && x in g && g[x] == Some(p)
    ensures Ancestors(g, x) == Ancestors(g, p) + {x} && x !in Ancestors(g, p)
  {
    forall y | y in g ensures y in Ancestors(g, x) <==> y in Ancestors(g, p) || y == x {
      if n: nat :| Back(g, x, n) == Some(y) {
        if n > 0 { BackShift(g, x, p, n - 1); }
      }
      if n: nat :| Back(g, p, n) == Some(y) { BackShift(g, x, p, n); }
      if y == x { assert Back(g, x, 0) == Some(x); }
    }
    forall n: nat ensures Back(g, p, n) != Some(x) { BackShift(g, x, p, n); }
  }

  lemma RootAncestors(g: History, x: string)
    requires x in g && g[x].None?
    ensures Ancestors(g, x) == {x}
  {
    assert Back(g, x, 0) == Some(x);
    forall n: nat ensures n > 0 ==> Back(g, x, n).None? { RootBack(g, x, n); }
  }

  lemma {:induction false} RootBack(g: History, x: string, n: nat)
    requires x in g && g[x].None?
    ensures n > 0 ==> Back(g, x, n).None?
  {
    if n > 1 { RootBack(g, x, n - 1); }
    if n == 1 { assert Back(g, x, 0) == Some(x); }
  }

  /** The chain from the root to a revision. */
  ghost function ChainTo(g: History, x: string): seq<string>
    requires Closed(g) && Acyclic(g) && x in g
    decreases |Ancestors(g, x)|
  {
    if g[x].None? then [x]
    else
      AncestorsStep(g, x, g[x].value);
      ChainTo(g, g[x].value) + [x]
  }

  lemma LinkedMore(g: History, before: seq<string>, x: string)
    requires Linked(g, before) && before != [] && x in g && g[x] == Some(before[|before| - 1])
    ensures Linked(g, before + [x])
  {
    var order := before + [x];
    forall i | 0 <= i < |order| ensures order[i] in g && g[order[i]] == Before(order, i) {
      if i < |before| {
        assert order[i] == before[i];
        assert Before(order, i) == Before(before, i);
      }
    }
  }

  lemma {:induction false} ChainToOrder(g: History, x: string)
    requires Closed(g) && Acyclic(g) && x in g
    ensures var order := ChainTo(g, x);
      order != [] && order[|order| - 1] == x && NoDup(order) && Elems(order) == Ancestors(g, x) && Linked(g, order)
    decreases |Ancestors(g, x)|
  {
    hide Ancestors, Acyclic, Linked;
    if g[x].None? {
      RootAncestors(g, x);
      RootLinked(g, x);
    } else {
      var p := g[x].value;
      AncestorsStep(g, x, p);
      var before := ChainTo(g, p);
      ChainToOrder(g, p);
      NoDupConcat(before, [x]);
      assert x !in Elems(before);
      assert Elems(before + [x]) == Elems(before) + {x};
      LinkedMore(g, before, x);
    }
  }

  lemma RootLinked(g: History, x: string)
    requires x in g && g[x].None?
    ensures Linked(g, [x]) && Elems([x]) == {x}
  {
  }

  /** With one head, every revision is an ancestor of it: each other revision has a follower. */
  lemma {:induction false} UnderHead(g: History, h: string, x: string)
    requires Closed(g) && Acyclic(g) && Heads(g) == {h} && x in g
    ensures x in Ancestors(g, h)
    decreases |g.Keys - Ancestors(g, x)|
  {
    if x == h {
      assert Back(g, h, 0) == Some(h);
    } else {
      assert x !in Heads(g);
      var c :| c in g && g[c] == Some(x);
      AncestorsStep(g, c, x);
      assert g.Keys - Ancestors(g, x) == (g.Keys - Ancestors(g, c)) + {c};
      UnderHead(g, h, c);
      var n: nat :| Back(g, h, n) == Some(c);
      assert Back(g, h, n + 1) == Some(x);
    }
  }

  /** In a chain the parent tells the position. */
  lemma ChainParents(g: History, order: seq<string>, i: nat, j: nat)
    requires NoDup(order) && Linked(g, order) && i < |order| && j < |order| && g[order[i]] == g[order[j]]
    ensures i == j
  {
    assert Before(order, i) == Before(order, j);
    if i > 0 && j > 0 { assert order[i - 1] == order[j - 1]; }
  }

  lemma LinkAt(g: History, order: seq<string>, i: nat)
    requires Linked(g, order) && i < |order|
    ensures order[i] in g && g[order[i]] == Before(order, i)
  {
  }

  lemma ChainHead(g: History, order: seq<string>)
    requires Chain(g, order)
    ensures Heads(g) == {order[|order| - 1]}
  {
    hide Linked;
    LinkAt(g, order, |order| - 1);
    var last := order[|order| - 1];
    forall y | y in g ensures g[y] != Some(last) {
      assert y in Elems(order);
      var j :| 0 <= j < |order| && order[j] == y;
      LinkAt(g, order, j);
      assert j > 0 ==> order[j - 1] != last;
    }
    forall x | x in g && x != last ensures x !in Heads(g) {
      assert x in Elems(order);
      var i :| 0 <= i < |order| && order[i] == x;
      LinkAt(g, order, i + 1);
      assert g[order[i + 1]] == Some(x);
    }
  }

  /** Going back along a chain. */
  lemma {:induction false} BackInChain(g: History, order: seq<string>, i: nat, n: nat)
    requires Linked(g, order) && i < |order|
    ensures Back(g, order[i], n) == if n <= i then Some(order[i - n]) else None
  {
    hide Linked;
    if n > 0 {
      BackInChain(g, order, i, n - 1);
      if n - 1 <= i { LinkAt(g, order, i - (n - 1)); }
    }
  }

  /** A chain leaves no link open and never cycles. */
  lemma ChainIsSound(g: History, order: seq<string>)
    requires Chain(g, order)
    ensures Closed(g) && Acyclic(g)
  {
    hide Linked;
    forall x | x in g ensures (g[x].Some? ==> g[x].value in g) && forall n: nat :: n > 0 ==> Back(g, x, n) != Some(x) {
      assert x in Elems(order);
      var i :| 0 <= i < |order| && order[i] == x;
      LinkAt(g, order, i);
      if i > 0 { assert order[i - 1] in Elems(order); }
      forall n: nat | n > 0 ensures Back(g, x, n) != Some(x) { BackInChain(g, order, i, n); }
    }
  }

  /** A history is one linear chain exactly when its links stay inside, never cycle and leave one
      head; the chain then ends in that head. */
  lemma OneHeadIsChain(g: History)
    ensures (exists order :: Chain(g, order)) <==> Closed(g) && Acyclic(g) && |Heads(g)| == 1
    ensures forall order :: Chain(g, order) ==> Heads(g) == {order[|order| - 1]}
  {
    if Closed(g) && Acyclic(g) && |Heads(g)| == 1 {
      var h :| h in Heads(g);
      OnlyElement(Heads(g), h);
      ChainToOrder(g, h);
      forall x | x in g ensures x in Ancestors(g, h) { UnderHead(g, h, x); }
      assert Chain(g, ChainTo(g, h));
    }
    forall order | Chain(g, order) ensures Heads(g) == {order[|order| - 1]} && Closed(g) && Acyclic(g) {
      ChainHead(g, order);
      ChainIsSound(g, order);
    }
  }

  lemma SameParent(g: History, x: string, y: string, order: seq<string>)
    requires x in g && y in g && g[x] == g[y] && Chain(g, order)
    ensures x == y
  {
    hide Linked;
    assert x in Elems(order) && y in Elems(order);
    var i :| 0 <= i < |order| && order[i] == x;
    var j :| 0 <= j < |order| && order[j] == y;
    ChainParents(g, order, i, j);
  }

  /** A shared parent or a second root always shows as a second head. */
  lemma BranchShows(g: History, x: string, y: string)
    requires Closed(g) && Acyclic(g) && x in g && y in g && x != y && g[x] == g[y]
    ensures |Heads(g)| >= 2
  {
    hide Heads, Chain;
    OneHeadIsChain(g);
    forall order ensures !Chain(g, order) {
      if Chain(g, order) { SameParent(g, x, y, order); }
    }
    SomeHead(g, x);
    assert |Heads(g)| != 0;
  }

  /** A finite acyclic history has a head. */
  lemma {:induction false} SomeHead(g: History, x: string)
    requires Closed(g) && Acyclic(g) && x in g
    ensures Heads(g) != {}
    decreases |g.Keys - Ancestors(g, x)|
  {
    if x !in Heads(g) {
      var c :| c in g && g[c] == Some(x);
      AncestorsStep(g, c, x);
      assert g.Keys - Ancestors(g, x) == (g.Keys - Ancestors(g, c)) + {c};
      SomeHead(g, c);
    }
  }

  /** Every revision once, in one chain. */
  ghost predicate Linear(files: seq<Migration>) { NoDup(Map(RevisionOf, files)) && exists order :: Chain(HistoryOf(files), order) }

  ghost predicate OneHead(files: seq<Migration>) { |Revisions(files) - Parents(files)| == 1 }

  /** What the release check leaves open: a directory is a linear history exactly when the check
      admits it and its revisions are distinct, its parents present and its links free of cycles. */
  lemma HeadIffChain(files: seq<Migration>)
    ensures Linear(files) <==>
            OneHead(files) && NoDup(Map(RevisionOf, files)) && Closed(HistoryOf(files)) && Acyclic(HistoryOf(files))
  {
    hide HistoryOf, Chain, Closed, Acyclic, Heads, Parents, Revisions;
    if NoDup(Map(RevisionOf, files)) {
      HeadsOf(files);
      OneHeadIsChain(HistoryOf(files));
    }
  }

  // ----- None of the three is checked -----

  /** A root beside a cycle of two is admitted. */
  lemma CycleAdmitted(a: string, b: string, c: string)
    requires a != b && b != c && a != c
    ensures var files := [Migration(a, None), Migration(b, Some(c)), Migration(c, Some(b))]; OneHead(files) && !Linear(files)
  {
    hide Linear, HistoryOf, Acyclic;
    var files := [Migration(a, None), Migration(b, Some(c)), Migration(c, Some(b))];
    assert Map(RevisionOf, files) == [a, b, c] && files[1] in files && files[2] in files;
    assert Parents(files) == {b, c};
    assert Revisions(files) - Parents(files) == {a};
    HeadIffChain(files);
    CycleNotAcyclic(files, b, c);
  }

  lemma CycleNotAcyclic(files: seq<Migration>, b: string, c: string)
    requires NoDup(Map(RevisionOf, files)) && Migration(b, Some(c)) in files && Migration(c, Some(b)) in files
    ensures !Acyclic(HistoryOf(files))
  {
    var g, rows := HistoryOf(files), Map(Pair, files);
    assert Map(Fst, rows) == Map(RevisionOf, files);
    AssignRead(map[], rows);
    var i :| 0 <= i < |files| && files[i] == Migration(b, Some(c));
    var j :| 0 <= j < |files| && files[j] == Migration(c, Some(b));
    assert rows[i] in rows && rows[j] in rows;
    assert Back(g, b, 0) == Some(b) && Back(g, b, 1) == Some(c) && Back(g, b, 2) == Some(b);
  }

  /** A single migration whose parent is missing is admitted. */
  lemma MissingAdmitted(a: string, b: string)
    requires a != b
    ensures OneHead([Migration(b, Some(a))]) && !Linear([Migration(b, Some(a))])
  {
    hide Linear;
    var files := [Migration(b, Some(a))];
    assert Map(RevisionOf, files) == [b] && files[0] in files;
    assert Parents(files) == {a};
    assert Revisions(files) - Parents(files) == {b};
    HeadIffChain(files);
    AssignLast(map[], [], Pair(files[0]));
    assert Map(Pair, files) == [] + [Pair(files[0])];
    var g := HistoryOf(files);
    assert b in g && g[b] == Some(a) && a !in g;
  }

  /** A repeated revision is admitted. */
  lemma RepeatedAdmitted(a: string)
    ensures OneHead([Migration(a, None), Migration(a, None)]) && !Linear([Migration(a, None), Migration(a, None)])
  {
    var files := [Migration(a, None), Migration(a, None)];
    assert Map(RevisionOf, files) == [a, a];
    assert Map(RevisionOf, files)[0] == Map(RevisionOf, files)[1];
    assert Parents(files) == {};
    assert Revisions(files) - Parents(files) == {a};
  }
}
