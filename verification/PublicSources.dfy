/** The whole public scan: the tree that is checked out, the Git index and the commit at HEAD. */
module PublicSources {
  import opened Sequences
  import opened PublicTree

  /** A blob as Git reports it: its size, if it can be inspected, and the bytes that were read. */
  datatype Blob = Uninspected | Blob(size: nat, bytes: Option<seq<Byte>>)

  /** One entry of a listing; `path` is missing when it does not decode. */
  datatype Item =
    | Malformed
    | Unadmitted
    | Tracked(path: Option<Path>, regular: bool, blob: Blob)

  datatype Listing = Unlisted | Listing(items: seq<Item>)
  datatype Head = Unresolved | Unborn | Commit(tree: Listing)

  /** What Git says about the root directory. */
  datatype Repository = Absent | Unreadable | NotWorktree | Repository(index: Listing, head: Head)

  function Scoped(scope: string, path: Path): string -> Failure { m => Failure(path, scope + ": " + m) }

  function Denied(p: Policy, scope: string, path: Path): seq<Failure> {
    if p.denied(path) then [Scoped(scope, path)("denied literal in path")] else []
  }

  function ContentFailures(p: Policy, scope: string, path: Path, raw: seq<Byte>): seq<Failure> {
    Denied(p, scope, path)
    + if |raw| > p.limit then [Scoped(scope, path)("file exceeds the public text size limit")] else Map(Scoped(scope, path), p.content(path, raw))
  }

  function BlobFailures(p: Policy, scope: string, path: Path, b: Blob): seq<Failure> {
    match b
    case Uninspected => [Scoped(scope, path)("tracked blob cannot be inspected")]
    case Blob(size, bytes) =>
      if size > p.limit then [Scoped(scope, path)("file exceeds the public text size limit")]
      else if bytes.None? || |bytes.value| != size then [Scoped(scope, path)("tracked blob cannot be read completely")]
      else ContentFailures(p, scope, path, bytes.value)
  }

  /** `_scan_git_entry`, and the refusals before it. */
  function ItemFailures(p: Policy, scope: string): Item -> seq<Failure> {
    (i: Item) =>
      match i
      case Malformed => [Failure([], scope + " contains a malformed entry")]
      case Unadmitted => [Failure([], scope + " contains an entry that is not admitted")]
      case Tracked(path, regular, blob) =>
        match path
        case None => [Failure([], scope + ": tracked path or object ID is not valid")]
        case Some(at) =>
          Map(Scoped(scope, at), p.path(at, false)) + Denied(p, scope, at)
          + if !regular then [Scoped(scope, at)("tracked entry is not a regular source file")] else BlobFailures(p, scope, at, blob)
  }

  const INDEX := "Git index"
  const HEAD := "Git HEAD"

  function ListingFailures(p: Policy, scope: string, l: Listing): seq<Failure> {
    match l case Unlisted => [Failure([], scope + " cannot be enumerated")] case Listing(items) => FlatMap(ItemFailures(p, scope), items)
  }

  function HeadFailures(p: Policy, h: Head): seq<Failure> {
    match h case Unresolved => [Failure([], "Git HEAD cannot be resolved")] case Unborn => [] case Commit(tree) => ListingFailures(p, HEAD, tree)
  }

  function RepositoryFailures(p: Policy, g: Repository): seq<Failure> {
    match g
    case Absent => []
    case Unreadable => [Failure([], "Git metadata cannot be inspected")]
    case NotWorktree => [Failure([], "Git metadata exists but is not a readable worktree")]
    case Repository(index, head) => ListingFailures(p, INDEX, index) + HeadFailures(p, head)
  }

  /** The loop over one listing, growing the shared list of failures. */
  method ScanListing(p: Policy, scope: string, l: Listing, known: seq<Failure>) returns (failures: seq<Failure>)
    ensures failures == known + ListingFailures(p, scope, l)
  {
    hide ItemFailures;
    if l.Unlisted? { return known + [Failure([], scope + " cannot be enumerated")]; }
    failures := known;
    assert known + [] == known;
    for i := 0 to |l.items|
      invariant failures == known + FlatMap(ItemFailures(p, scope), l.items[..i])
    {
      FlatMapStep(ItemFailures(p, scope), l.items, i);
      failures := failures + ItemFailures(p, scope)(l.items[i]);
    }
    assert l.items[..|l.items|] == l.items;
  }

  /** `scan_git_sources`. */
  method ScanRepository(p: Policy, g: Repository) returns (failures: seq<Failure>)
    ensures failures == RepositoryFailures(p, g)
  {
    hide ListingFailures;
    match g {
      case Absent => failures := [];
      case Unreadable => failures := [Failure([], "Git metadata cannot be inspected")];
      case NotWorktree => failures := [Failure([], "Git metadata exists but is not a readable worktree")];
      case Repository(index, head) =>
        failures := ScanListing(p, INDEX, index, []);
        match head {
          case Unresolved => failures := failures + [Failure([], "Git HEAD cannot be resolved")];
          case Unborn =>
          case Commit(tree) => failures := ScanListing(p, HEAD, tree, failures);
        }
    }
  }

  /** `scan`: the walk, then the repository. */
  method Scan(p: Policy, root: Node, g: Repository) returns (failures: seq<Failure>)
    ensures root.Directory? ==> failures == Walk(p, [], root) + RepositoryFailures(p, g)
    ensures !root.Directory? ==> failures != []
  {
    hide Walk, RepositoryFailures;
    failures := Traverse(p, root);
    if !root.Directory? { return; }
    var tracked := ScanRepository(p, g);
    failures := failures + tracked;
  }

  // ----- What a clean scan means -----

  /** A tracked file within both policies. */
  predicate TrackedPasses(p: Policy, i: Item) {
    && i.Tracked? && i.path.Some? && i.regular && i.blob.Blob? && i.blob.bytes.Some? && |i.blob.bytes.value| == i.blob.size <= p.limit
    && p.path(i.path.value, false) == [] && !p.denied(i.path.value) && p.content(i.path.value, i.blob.bytes.value) == []
  }

  predicate ListingPasses(p: Policy, l: Listing) { l.Listing? && forall i :: i in l.items ==> TrackedPasses(p, i) }

  predicate RepositoryPasses(p: Policy, g: Repository) {
    match g
    case Absent => true
    case Repository(index, head) => ListingPasses(p, index) && !head.Unresolved? && (head.Commit? ==> ListingPasses(p, head.tree))
    case _ => false
  }

  lemma ItemClean(p: Policy, scope: string, i: Item)
    ensures ItemFailures(p, scope)(i) == [] <==> TrackedPasses(p, i)
  {
    if i.Tracked? && i.path.Some? {
      assert |Map(Scoped(scope, i.path.value), p.path(i.path.value, false))| == |p.path(i.path.value, false)|;
    }
  }

  lemma ListingClean(p: Policy, scope: string, l: Listing)
    ensures ListingFailures(p, scope, l) == [] <==> ListingPasses(p, l)
  {
    hide ItemFailures, TrackedPasses;
    if l.Listing? {
      FlatMapEmpty(ItemFailures(p, scope), l.items);
      forall i | i in l.items ensures ItemFailures(p, scope)(i) == [] <==> TrackedPasses(p, i) { ItemClean(p, scope, i); }
    }
  }

  lemma RepositoryClean(p: Policy, g: Repository)
    ensures RepositoryFailures(p, g) == [] <==> RepositoryPasses(p, g)
  {
    hide ListingFailures, ListingPasses;
    if g.Repository? {
      ListingClean(p, INDEX, g.index);
      if g.head.Commit? { ListingClean(p, HEAD, g.head.tree); }
    }
  }

  /** A scan is clean exactly when every entry of the tree outside the root's Git metadata, every file of
      the index and every file of the commit at HEAD passes its path and content policy. */
  lemma CleanScan(p: Policy, root: Node, g: Repository)
    requires root.Directory?
    ensures Walk(p, [], root) + RepositoryFailures(p, g) == [] <==>
            && root.listable && (forall path, n :: path != [] && Reaches(root, path, n) ==> Good(p, [], path, n))
            && RepositoryPasses(p, g)
  {
    hide Walk, Reaches, Good, RepositoryFailures, RepositoryPasses;
    CleanWalk(p, root);
    RepositoryClean(p, g);
  }
}
