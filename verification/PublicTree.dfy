/** The public tree scan: a walk that prunes in place, and what a clean result means. */
module PublicTree {
  import opened Sequences
  import opened Sorting
  import opened Text

  type Byte = bv8

  /** A directory entry as the walk classifies it. Links to directories are listed with the
      directories; an entry whose metadata cannot be read may be listed either way. */
  datatype Node =
    | Directory(entries: seq<Entry>, listable: bool)
    | Regular(size: nat, links: nat, bytes: Option<seq<Byte>>)
    | LinkToDirectory
    | LinkToOther
    | Special
    | Unreadable(asDirectory: bool)

  datatype Entry = Entry(name: string, node: Node)
  type Path = seq<string>

  /** The path policy, the denied literals and the content policy, each giving its messages. */
  datatype Policy = Policy(path: (Path, bool) -> seq<string>, denied: Path -> bool, content: (Path, seq<Byte>) -> seq<string>, limit: nat)

  datatype Failure = Failure(path: Path, message: string)

  function At(path: Path): string -> Failure { m => Failure(path, m) }
  function DeniedFailure(p: Policy, path: Path): seq<Failure> { if p.denied(path) then [Failure(path, "denied literal in path")] else [] }
  function PathFailures(p: Policy, path: Path, directory: bool): seq<Failure> { Map(At(path), p.path(path, directory)) }

  // ----- One entry -----

  predicate ListedAsDirectory(e: Entry) { e.node.Directory? || e.node.LinkToDirectory? || (e.node.Unreadable? && e.node.asDirectory) }
  predicate ListedAsFile(e: Entry) { !ListedAsDirectory(e) }

  /** The repository metadata at the root of the tree. */
  predicate GitEntry(parent: Path, e: Entry) { parent == [] && e.name == ".git" }

  /** The loop body for an entry listed with the directories. */
  function DirectoryFailures(p: Policy, parent: Path, e: Entry): seq<Failure> {
    var path := parent + [e.name];
    if GitEntry(parent, e) then
      match e.node
      case Unreadable(_) => [Failure(path, "Git metadata cannot be inspected")]
      case Directory(_, _) => []
      case _ => [Failure(path, "Git metadata must be real")]
    else
      match e.node
      case Unreadable(_) => [Failure(path, "cannot inspect path metadata")]
      case LinkToDirectory => [Failure(path, "symbolic links are forbidden")] + DeniedFailure(p, path)
      case Directory(_, _) => PathFailures(p, path, true) + DeniedFailure(p, path)
      case _ => [Failure(path, "only regular files and directories are allowed")] + DeniedFailure(p, path)
  }

  /** Whether the walk enters the directory. */
  function Entered(p: Policy, parent: Path): Entry -> bool {
    (e: Entry) => !GitEntry(parent, e) && e.node.Directory? && DirectoryFailures(p, parent, e) == []
  }

  function BytesFailures(p: Policy, path: Path, raw: seq<Byte>): seq<Failure> {
    PathFailures(p, path, false) + DeniedFailure(p, path)
    + if |raw| > p.limit then [Failure(path, "file exceeds the public text size limit")] else Map(At(path), p.content(path, raw))
  }

  /** The loop body for an entry listed with the files. */
  function FileFailures(p: Policy, parent: Path): Entry -> seq<Failure> {
    (e: Entry) =>
      var path := parent + [e.name];
      if GitEntry(parent, e) then
        match e.node
        case Unreadable(_) => [Failure(path, "Git metadata cannot be inspected")]
        case Regular(_, _, _) => []
        case _ => [Failure(path, "Git metadata must be real")]
      else
        match e.node
        case Unreadable(_) => [Failure(path, "cannot inspect path metadata")]
        case LinkToOther => [Failure(path, "symbolic links are forbidden")] + DeniedFailure(p, path)
        case Regular(size, links, bytes) =>
          (if links != 1 then [Failure(path, "hard-linked files are forbidden")] else [])
          + (if size > p.limit then PathFailures(p, path, false) + [Failure(path, "file exceeds the public text size limit")]
             else if bytes.None? then [Failure(path, "cannot read file")]
             else if |bytes.value| != size then [Failure(path, "file changed while being scanned")]
             else BytesFailures(p, path, bytes.value))
        case _ => [Failure(path, "only regular files and directories are allowed")] + DeniedFailure(p, path)
  }

  // ----- The walk as a recursive function -----

  predicate NameLeq(a: Entry, b: Entry) { StrLeq(a.name, b.name) }

  function Directories(es: seq<Entry>): seq<Entry> { Sort(NameLeq, Select(ListedAsDirectory, es)) }
  function Files(es: seq<Entry>): seq<Entry> { Sort(NameLeq, Select(ListedAsFile, es)) }

  function DirectoryList(p: Policy, parent: Path): Entry -> seq<Failure> { (e: Entry) => DirectoryFailures(p, parent, e) }

  function OwnFailures(p: Policy, path: Path, es: seq<Entry>): seq<Failure> {
    FlatMap(DirectoryList(p, path), Directories(es)) + FlatMap(FileFailures(p, path), Files(es))
  }

  function EnteredList(p: Policy, path: Path, es: seq<Entry>): seq<Entry> { Select(Entered(p, path), Directories(es)) }

  function Depth(n: Node): nat
    decreases n
  {
    if n.Directory? then 1 + DepthOf(n.entries) else 0
  }

  function DepthOf(es: seq<Entry>): nat
    decreases es
  {
    if es == [] then 0 else var d, rest := Depth(es[0].node), DepthOf(es[1..]); if d > rest then d else rest
  }

  lemma {:induction false} Shallower(es: seq<Entry>, e: Entry)
    requires e in es
    ensures Depth(e.node) <= DepthOf(es)
  {
    if e != es[0] { Shallower(es[1..], e); }
  }

  lemma InSorted(leq: (Entry, Entry) -> bool, s: seq<Entry>, e: Entry)
    ensures e in Sort(leq, s) <==> e in s
  {
    assert e in Sort(leq, s) <==> e in multiset(Sort(leq, s));
    assert e in s <==> e in multiset(s);
  }

  lemma InDirectories(es: seq<Entry>, e: Entry)
    ensures e in Directories(es) <==> e in es && ListedAsDirectory(e)
    ensures e in Files(es) <==> e in es && ListedAsFile(e)
  {
    hide ListedAsDirectory, ListedAsFile;
    InSorted(NameLeq, Select(ListedAsDirectory, es), e);
    InSorted(NameLeq, Select(ListedAsFile, es), e);
    SelectMembers(ListedAsDirectory, es, e);
    SelectMembers(ListedAsFile, es, e);
  }

  lemma InEntered(p: Policy, path: Path, es: seq<Entry>, e: Entry)
    ensures e in EnteredList(p, path, es) <==> e in es && Entered(p, path)(e)
    ensures e in EnteredList(p, path, es) ==> e.node.Directory? && Depth(e.node) <= DepthOf(es)
  {
    SelectMembers(Entered(p, path), Directories(es), e);
    InDirectories(es, e);
    if e in es { Shallower(es, e); }
  }

  ghost predicate Within(es: seq<Entry>, depth: nat) { forall e :: e in es ==> e.node.Directory? && Depth(e.node) < depth }

  lemma EnteredWithin(p: Policy, path: Path, es: seq<Entry>)
    ensures Within(EnteredList(p, path, es), 1 + DepthOf(es))
  {
    hide EnteredList, Entered;
    forall e | e in EnteredList(p, path, es) ensures e.node.Directory? && Depth(e.node) < 1 + DepthOf(es) { InEntered(p, path, es, e); }
  }

  /** The failures of a directory and of everything the walk enters below it. */
  ghost function Walk(p: Policy, path: Path, n: Node): seq<Failure>
    requires n.Directory?
    decreases Depth(n), 1, 0
  {
    if !n.listable then [Failure(path, "directory traversal failed")]
    else
      EnteredWithin(p, path, n.entries);
      OwnFailures(p, path, n.entries) + WalkAll(p, path, EnteredList(p, path, n.entries), Depth(n))
  }

  ghost function WalkAll(p: Policy, path: Path, es: seq<Entry>, depth: nat): seq<Failure>
    requires Within(es, depth)
    decreases depth, 0, |es|
  {
    if es == [] then []
    else
      assert es[0] in es && forall e :: e in es[1..] ==> e in es;
      Walk(p, path + [es[0].name], es[0].node) + WalkAll(p, path, es[1..], depth)
  }

  // ----- The walk as a loop over pending directories -----

  function Count(n: Node): nat
    decreases n
  {
    1 + if n.Directory? then CountOf(n.entries) else 0
  }

  function CountOf(es: seq<Entry>): nat
    decreases es
  {
    if es == [] then 0 else Count(es[0].node) + CountOf(es[1..])
  }

  lemma {:induction false} CountInsert(e: Entry, es: seq<Entry>)
    ensures CountOf(Insert(NameLeq, e, es)) == Count(e.node) + CountOf(es)
  {
    var r := Insert(NameLeq, e, es);
    if es == [] || NameLeq(e, es[0]) {
      assert r[1..] == es;
    } else {
      CountInsert(e, es[1..]);
      assert r[1..] == Insert(NameLeq, e, es[1..]);
    }
  }

  lemma {:induction false} CountSort(es: seq<Entry>)
    ensures CountOf(Sort(NameLeq, es)) == CountOf(es)
  {
    if es != [] {
      CountSort(es[1..]);
      CountInsert(es[0], Sort(NameLeq, es[1..]));
    }
  }

  lemma {:induction false} CountSelect(test: Entry -> bool, es: seq<Entry>)
    ensures CountOf(Select(test, es)) <= CountOf(es)
  {
    if es != [] {
      CountSelect(test, es[1..]);
      var rest := Select(test, es[1..]);
      if test(es[0]) { assert ([es[0]] + rest)[1..] == rest; } else { assert [] + rest == rest; }
    }
  }

  lemma CountEntered(p: Policy, path: Path, es: seq<Entry>)
    ensures CountOf(EnteredList(p, path, es)) <= CountOf(es)
  {
    hide Entered, ListedAsDirectory;
    CountSelect(Entered(p, path), Directories(es));
    CountSort(Select(ListedAsDirectory, es));
    CountSelect(ListedAsDirectory, es);
  }

  datatype Pending = Pending(path: Path, node: Node)

  function CountPending(stack: seq<Pending>): nat {
    if stack == [] then 0 else CountPending(stack[..|stack| - 1]) + Count(stack[|stack| - 1].node)
  }

  ghost predicate AllDirectories(stack: seq<Pending>) { forall d :: d in stack ==> d.node.Directory? }

  /** The failures still to be found: the last pending directory is visited first. */
  ghost function Remaining(p: Policy, stack: seq<Pending>): seq<Failure>
    requires AllDirectories(stack)
  {
    if stack == [] then []
    else
      var init, last := stack[..|stack| - 1], stack[|stack| - 1];
      assert last in stack && forall d :: d in init ==> d in stack;
      Walk(p, last.path, last.node) + Remaining(p, init)
  }

  /** The two loops over one listed directory, with the admitted directories in walk order. */
  method Visit(p: Policy, path: Path, es: seq<Entry>) returns (failures: seq<Failure>, admitted: seq<Entry>)
    ensures failures == OwnFailures(p, path, es)
    ensures admitted == EnteredList(p, path, es)
  {
    hide DirectoryFailures, FileFailures, Entered, Directories, Files;
    var directories, files := Directories(es), Files(es);
    failures, admitted := [], [];
    for i := 0 to |directories|
      invariant failures == FlatMap(DirectoryList(p, path), directories[..i])
      invariant admitted == Select(Entered(p, path), directories[..i])
    {
      var e := directories[i];
      FlatMapStep(DirectoryList(p, path), directories, i);
      assert directories[..i + 1] == directories[..i] + [e] && [e][1..] == [];
      SelectAppend(Entered(p, path), directories[..i], [e]);
      failures := failures + DirectoryFailures(p, path, e);
      if Entered(p, path)(e) { admitted := admitted + [e]; } else { assert admitted + [] == admitted; }
    }
    assert directories[..|directories|] == directories;
    ghost var first := failures;
    for i := 0 to |files|
      invariant failures == first + FlatMap(FileFailures(p, path), files[..i])
    {
      FlatMapStep(FileFailures(p, path), files, i);
      failures := failures + FileFailures(p, path)(files[i]);
    }
    assert files[..|files|] == files;
  }

  function Below(path: Path, e: Entry): Pending { Pending(path + [e.name], e.node) }

  /** Pushing the admitted directories backwards makes the walk visit them in order. */
  method Push(p: Policy, path: Path, admitted: seq<Entry>, rest: seq<Pending>, ghost depth: nat) returns (stack: seq<Pending>)
    requires Within(admitted, depth) && AllDirectories(rest)
    ensures AllDirectories(stack) && Remaining(p, stack) == WalkAll(p, path, admitted, depth) + Remaining(p, rest)
    ensures CountPending(stack) == CountOf(admitted) + CountPending(rest)
  {
    hide Walk;
    stack := rest;
    var i := |admitted|;
    assert admitted[i..] == [];
    while i > 0
      invariant 0 <= i <= |admitted| && AllDirectories(stack) && Within(admitted[i..], depth)
      invariant Remaining(p, stack) == WalkAll(p, path, admitted[i..], depth) + Remaining(p, rest)
      invariant CountPending(stack) == CountOf(admitted[i..]) + CountPending(rest)
    {
      i := i - 1;
      var e := admitted[i];
      assert e in admitted && admitted[i..][1..] == admitted[i + 1..] && admitted[i..][0] == e;
      PushOne(p, stack, Below(path, e));
      stack := stack + [Below(path, e)];
    }
    assert admitted[0..] == admitted;
  }

  lemma PushOne(p: Policy, stack: seq<Pending>, d: Pending)
    requires AllDirectories(stack) && d.node.Directory?
    ensures AllDirectories(stack + [d]) && Remaining(p, stack + [d]) == Walk(p, d.path, d.node) + Remaining(p, stack)
    ensures CountPending(stack + [d]) == CountPending(stack) + Count(d.node)
  {
    hide Walk;
    assert (stack + [d])[..|stack|] == stack;
  }

  /** One turn of the walk: visit a directory, keep the rest pending. */
  method Turn(p: Policy, current: Pending, rest: seq<Pending>) returns (found: seq<Failure>, stack: seq<Pending>)
    requires current.node.Directory? && AllDirectories(rest)
    ensures AllDirectories(stack) && found + Remaining(p, stack) == Walk(p, current.path, current.node) + Remaining(p, rest)
    ensures CountPending(stack) < CountPending(rest) + Count(current.node)
  {
    hide OwnFailures, EnteredList, WalkAll, Count, Remaining;
    CountStep(p, current);
    if !current.node.listable {
      return [Failure(current.path, "directory traversal failed")], rest;
    }
    var admitted;
    found, admitted := Visit(p, current.path, current.node.entries);
    EnteredWithin(p, current.path, current.node.entries);
    DepthStep(current.node);
    stack := Push(p, current.path, admitted, rest, Depth(current.node));
    Regrouped(found, WalkAll(p, current.path, admitted, Depth(current.node)), Remaining(p, rest));
  }

  method Next(p: Policy, pending: seq<Pending>) returns (found: seq<Failure>, stack: seq<Pending>)
    requires pending != [] && AllDirectories(pending)
    ensures AllDirectories(stack) && found + Remaining(p, stack) == Remaining(p, pending)
    ensures CountPending(stack) < CountPending(pending)
  {
    hide Walk, Remaining, Count, CountPending;
    var current, rest := pending[|pending| - 1], pending[..|pending| - 1];
    assert pending == rest + [current] && current in pending;
    assert AllDirectories(rest);
    PushOne(p, rest, current);
    found, stack := Turn(p, current, rest);
  }

  lemma Regrouped<T>(a: seq<T>, b: seq<T>, c: seq<T>)
    ensures a + (b + c) == a + b + c
  {
  }

  /** `scan`'s traversal: the loop finds exactly the failures of the recursive walk, in its order. */
  method Traverse(p: Policy, root: Node) returns (failures: seq<Failure>)
    ensures root.Directory? ==> failures == Walk(p, [], root)
    ensures !root.Directory? ==> failures != []
  {
    if !root.Directory? { return [Failure([], "root must be an existing absolute directory")]; }
    hide Walk, Remaining, Count, CountPending;
    failures := [];
    var stack: seq<Pending> := [];
    NonePending(p);
    PushOne(p, stack, Pending([], root));
    stack := stack + [Pending([], root)];
    while stack != []
      invariant AllDirectories(stack) && failures + Remaining(p, stack) == Walk(p, [], root)
      decreases CountPending(stack)
    {
      var found, next := Next(p, stack);
      Regrouped(failures, found, Remaining(p, next));
      failures, stack := failures + found, next;
    }
    NonePending(p);
    assert failures + [] == failures;
  }

  lemma NonePending(p: Policy)
    ensures AllDirectories([]) && Remaining(p, []) == []
  {
  }

  lemma CountStep(p: Policy, d: Pending)
    requires d.node.Directory?
    ensures Count(d.node) >= 1 && CountOf(EnteredList(p, d.path, d.node.entries)) < Count(d.node)
  {
    CountEntered(p, d.path, d.node.entries);
  }

  lemma DepthStep(n: Node)
    requires n.Directory?
    ensures Depth(n) == 1 + DepthOf(n.entries)
  {
  }

  // ----- What a clean scan means -----

  /** A directory the walk may enter, or a stable regular file within both policies. */
  predicate EntryPasses(p: Policy, path: Path, n: Node) {
    match n
    case Directory(_, listable) => listable && p.path(path, true) == [] && !p.denied(path)
    case Regular(size, links, bytes) =>
      && links == 1 && size <= p.limit && bytes.Some? && |bytes.value| == size
      && p.path(path, false) == [] && !p.denied(path) && p.content(path, bytes.value) == []
    case _ => false
  }

  predicate GitPasses(n: Node) { n.Directory? || n.Regular? }

  /** The entry at a path below a directory. */
  ghost predicate Reaches(root: Node, path: Path, n: Node)
    decreases |path|
  {
    if path == [] then n == root
    else root.Directory? && exists e :: e in root.entries && e.name == path[0] && Reaches(e.node, path[1..], n)
  }

  ghost predicate Good(p: Policy, prefix: Path, path: Path, n: Node)
    requires path != []
  {
    if prefix == [] && path[0] == ".git" then |path| == 1 ==> GitPasses(n) else EntryPasses(p, prefix + path, n)
  }

  lemma {:induction false} FlatMapEmpty<A, B>(f: A -> seq<B>, s: seq<A>)
    ensures FlatMap(f, s) == [] <==> forall x :: x in s ==> f(x) == []
  {
    if s != [] {
      FlatMapEmpty(f, s[1..]);
      assert s == [s[0]] + s[1..];
    }
  }

  lemma {:induction false} WalkAllEmpty(p: Policy, path: Path, es: seq<Entry>, depth: nat)
    requires Within(es, depth)
    ensures WalkAll(p, path, es, depth) == [] <==> forall e :: e in es ==> e.node.Directory? && Walk(p, path + [e.name], e.node) == []
  {
    hide Walk;
    if es != [] {
      assert es[0] in es && forall e :: e in es[1..] ==> e in es;
      WalkAllEmpty(p, path, es[1..], depth);
      assert forall e :: e in es ==> e == es[0] || e in es[1..];
    }
  }

  /** The failures of one entry are empty exactly when it passes. */
  lemma EntryFailures(p: Policy, parent: Path, e: Entry)
    ensures ListedAsDirectory(e) ==>
              (DirectoryFailures(p, parent, e) == [] <==>
               e.node.Directory? && (GitEntry(parent, e) || (p.path(parent + [e.name], true) == [] && !p.denied(parent + [e.name]))))
    ensures ListedAsFile(e) ==>
              (FileFailures(p, parent)(e) == [] <==>
               e.node.Regular? && (GitEntry(parent, e) || EntryPasses(p, parent + [e.name], e.node)))
  {
    var path := parent + [e.name];
    MessagesEmpty(path, p.path(path, true));
    MessagesEmpty(path, p.path(path, false));
    if e.node.Regular? && e.node.bytes.Some? { MessagesEmpty(path, p.content(path, e.node.bytes.value)); }
  }

  lemma MessagesEmpty(path: Path, messages: seq<string>)
    ensures Map(At(path), messages) == [] <==> messages == []
  {
  }

  ghost predicate EntryClean(p: Policy, prefix: Path, e: Entry) {
    if GitEntry(prefix, e) then GitPasses(e.node)
    else EntryPasses(p, prefix + [e.name], e.node) && (e.node.Directory? ==> Walk(p, prefix + [e.name], e.node) == [])
  }

  /** A walk finds nothing exactly when the directory lists and every entry is clean. */
  lemma WalkClean(p: Policy, prefix: Path, n: Node)
    requires n.Directory?
    ensures Walk(p, prefix, n) == [] <==> n.listable && forall e :: e in n.entries ==> EntryClean(p, prefix, e)
  {
    hide Directories, Files, EnteredList, DirectoryFailures, FileFailures, WalkAll, ListedAsDirectory, ListedAsFile, EntryClean;
    var es := n.entries;
    if n.listable {
      EnteredWithin(p, prefix, es);
      FlatMapEmpty(DirectoryList(p, prefix), Directories(es));
      FlatMapEmpty(FileFailures(p, prefix), Files(es));
      WalkAllEmpty(p, prefix, EnteredList(p, prefix, es), Depth(n));
      if Walk(p, prefix, n) == [] {
        forall e | e in es ensures EntryClean(p, prefix, e) { CleanGivesEntry(p, prefix, n, e); }
      }
      if forall e :: e in es ==> EntryClean(p, prefix, e) { EntriesGiveClean(p, prefix, n); }
    }
  }

  lemma UnlistableWalk(p: Policy, path: Path, n: Node)
    requires n.Directory? && !n.listable
    ensures Walk(p, path, n) != []
  {
  }

  lemma CleanGivesEntry(p: Policy, prefix: Path, n: Node, e: Entry)
    requires n.Directory? && n.listable && e in n.entries && Within(EnteredList(p, prefix, n.entries), Depth(n))
    requires forall x :: x in Directories(n.entries) ==> DirectoryList(p, prefix)(x) == []
    requires forall x :: x in Files(n.entries) ==> FileFailures(p, prefix)(x) == []
    requires forall x :: x in EnteredList(p, prefix, n.entries) ==> x.node.Directory? && Walk(p, prefix + [x.name], x.node) == []
    ensures EntryClean(p, prefix, e)
  {
    hide Directories, Files, EnteredList, Walk, FileFailures;
    InDirectories(n.entries, e);
    InEntered(p, prefix, n.entries, e);
    EntryFailures(p, prefix, e);
    if ListedAsDirectory(e) {
      assert DirectoryList(p, prefix)(e) == [];
      if !GitEntry(prefix, e) {
        assert e in EnteredList(p, prefix, n.entries);
        if !e.node.listable { UnlistableWalk(p, prefix + [e.name], e.node); }
      }
    } else {
      assert FileFailures(p, prefix)(e) == [];
    }
  }

  lemma EntriesGiveClean(p: Policy, prefix: Path, n: Node)
    requires n.Directory? && n.listable && Within(EnteredList(p, prefix, n.entries), Depth(n))
    requires forall e :: e in n.entries ==> EntryClean(p, prefix, e)
    ensures Walk(p, prefix, n) == []
  {
    hide Directories, Files, EnteredList, WalkAll, FileFailures, DirectoryFailures, EntryClean;
    var es := n.entries;
    forall e | e in Directories(es) ensures DirectoryList(p, prefix)(e) == [] {
      InDirectories(es, e);
      EntryOwn(p, prefix, e);
    }
    forall e | e in Files(es) ensures FileFailures(p, prefix)(e) == [] {
      InDirectories(es, e);
      EntryOwn(p, prefix, e);
    }
    forall e | e in EnteredList(p, prefix, es) ensures e.node.Directory? && Walk(p, prefix + [e.name], e.node) == [] {
      InEntered(p, prefix, es, e);
      EntryOwn(p, prefix, e);
    }
    FlatMapEmpty(DirectoryList(p, prefix), Directories(es));
    FlatMapEmpty(FileFailures(p, prefix), Files(es));
    WalkAllEmpty(p, prefix, EnteredList(p, prefix, es), Depth(n));
  }

  lemma EntryOwn(p: Policy, prefix: Path, e: Entry)
    requires EntryClean(p, prefix, e)
    ensures ListedAsDirectory(e) ==> DirectoryList(p, prefix)(e) == []
    ensures ListedAsFile(e) ==> FileFailures(p, prefix)(e) == []
    ensures Entered(p, prefix)(e) ==> Walk(p, prefix + [e.name], e.node) == []
  {
    hide Walk;
    EntryFailures(p, prefix, e);
  }

  /** Nothing hides: a clean walk has visited and passed every entry below the directory. */
  lemma {:induction false} CleanReaches(p: Policy, prefix: Path, root: Node, path: Path, n: Node)
    requires root.Directory? && Walk(p, prefix, root) == [] && path != [] && Reaches(root, path, n)
    ensures Good(p, prefix, path, n)
    decreases |path|
  {
    hide Walk;
    WalkClean(p, prefix, root);
    var e :| e in root.entries && e.name == path[0] && Reaches(e.node, path[1..], n);
    assert EntryClean(p, prefix, e);
    assert path == [e.name] + path[1..];
    if |path| == 1 {
      assert path[1..] == [] && path == [e.name] && n == e.node;
    } else if !GitEntry(prefix, e) {
      CleanReaches(p, prefix + [e.name], e.node, path[1..], n);
      assert prefix + [e.name] + path[1..] == prefix + path;
    }
  }

  /** When everything below a directory passes, the walk finds nothing. */
  lemma {:induction false} PassingIsClean(p: Policy, prefix: Path, root: Node)
    requires root.Directory? && root.listable && forall path, n :: path != [] && Reaches(root, path, n) ==> Good(p, prefix, path, n)
    ensures Walk(p, prefix, root) == []
    decreases Depth(root)
  {
    hide Walk;
    forall e | e in root.entries ensures EntryClean(p, prefix, e) {
      assert [e.name][1..] == [] && Reaches(e.node, [], e.node);
      assert Reaches(root, [e.name], e.node);
      assert Good(p, prefix, [e.name], e.node);
      Shallower(root.entries, e);
      if !GitEntry(prefix, e) && e.node.Directory? {
        forall path, n | path != [] && Reaches(e.node, path, n) ensures Good(p, prefix + [e.name], path, n) {
          assert ([e.name] + path)[1..] == path;
          assert Reaches(root, [e.name] + path, n);
          assert prefix + ([e.name] + path) == prefix + [e.name] + path;
        }
        PassingIsClean(p, prefix + [e.name], e.node);
      }
    }
    WalkClean(p, prefix, root);
  }

  /** A walk is clean exactly when the root lists and every entry at every depth, outside the
      repository metadata of the root, passes its path and content policy. */
  lemma CleanWalk(p: Policy, root: Node)
    requires root.Directory?
    ensures Walk(p, [], root) == [] <==>
            root.listable && forall path, n :: path != [] && Reaches(root, path, n) ==> Good(p, [], path, n)
  {
    hide Walk, Reaches, Good;
    if Walk(p, [], root) == [] {
      WalkClean(p, [], root);
      forall path, n | path != [] && Reaches(root, path, n) ensures Good(p, [], path, n) { CleanReaches(p, [], root, path, n); }
    }
    if root.listable && forall path, n :: path != [] && Reaches(root, path, n) ==> Good(p, [], path, n) {
      PassingIsClean(p, [], root);
    }
  }
}
