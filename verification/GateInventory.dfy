/** The evidence inventory the vulnerability gate emits and the closure its consumer demands. */
module GateInventory {
  import opened Sequences
  import opened Sorting
  import opened Text

  datatype Role =
    | ManifestFile | Dispositions | ScannerInstall | ScannerArchive | ScannerBinary | ScannerChecksums
    | ScannerChecksumsSignature | ScannerConfig | ScannerIgnorefile
    | DatabaseMetadata | DatabaseFile | OciLayout | OciIndex | OciManifest | OciConfig | OciLayer
    | ReleaseRoot | ReleaseRootSignature
    | Artifact | ArtifactPart | SbomFile | ReleaseSbom | Report | RawReport | ScanExecution

  function RoleName(r: Role): string {
    match r
    case ManifestFile => "manifest"
    case Dispositions => "dispositions"
    case ScannerInstall => "scanner-install"
    case ScannerArchive => "scanner-archive"
    case ScannerBinary => "scanner-binary"
    case ScannerChecksums => "scanner-checksums"
    case ScannerChecksumsSignature => "scanner-checksums-signature"
    case ScannerConfig => "scanner-config"
    case ScannerIgnorefile => "scanner-ignorefile"
    case DatabaseMetadata => "database-metadata"
    case DatabaseFile => "database-file"
    case OciLayout => "database-oci-layout"
    case OciIndex => "database-oci-index"
    case OciManifest => "database-oci-manifest"
    case OciConfig => "database-oci-config"
    case OciLayer => "database-oci-layer"
    case ReleaseRoot => "release-root"
    case ReleaseRootSignature => "release-root-signature"
    case Artifact => "artifact"
    case ArtifactPart => "artifact-part"
    case SbomFile => "sbom"
    case ReleaseSbom => "release-sbom"
    case Report => "report"
    case RawReport => "raw-report"
    case ScanExecution => "scan-execution"
  }

  datatype Item = Item(path: string, role: Role, target: string, sha256: string, size: nat)

  function PathOf(i: Item): string { i.path }
  function PairOf(i: Item): (Role, string) { (i.role, i.target) }

  // ----- The order of the inventory -----

  type Key = (string, string, string)

  function KeyOf(i: Item): Key { (RoleName(i.role), i.target, i.path) }

  predicate KeyLeq(a: Key, b: Key) {
    if a.0 != b.0 then StrLeq(a.0, b.0) else if a.1 != b.1 then StrLeq(a.1, b.1) else StrLeq(a.2, b.2)
  }

  predicate ItemLeq(a: Item, b: Item) { KeyLeq(KeyOf(a), KeyOf(b)) }

  lemma KeyOrder()
    ensures TotalOrder(KeyLeq)
  {
    StrOrder();
    forall a, b: Key, c | KeyLeq(a, b) && KeyLeq(b, c) ensures KeyLeq(a, c) {
      assert StrLeq(a.0, b.0) && StrLeq(b.0, c.0);
      if a.0 == c.0 { assert a.0 == b.0; }
    }
  }

  lemma ItemOrder()
    ensures TotalPreorder(ItemLeq)
  {
    hide KeyLeq, KeyOf;
    KeyOrder();
  }

  // ----- What the gate has verified -----

  datatype Database = Database(metadata: string, file: string, layout: string, index: string, manifest: string,
                               config: string, layer: string)
  datatype Root = Root(id: string, path: string, bundle: string)
  datatype Delivery = Single(part: string) | Split(parts: seq<string>)
  datatype Subject = SourceTree | Image(releaseSbom: string) | Package(delivery: Delivery, sbom: string)
  datatype ScanTarget = ScanTarget(name: string, subject: Subject, report: string, rawReport: string, execution: string)

  datatype Verified = Verified(
    manifest: string, dispositions: string, install: string, config: string, ignorefile: string,
    archive: string, binary: string, checksums: string, signature: string,
    vulnerability: Database, java: Database, roots: seq<Root>, targets: seq<ScanTarget>)

  /** The digest and size of an evidence file. */
  type Files = string -> (string, nat)

  function NameOf(t: ScanTarget): string { t.name }
  function IdOf(r: Root): string { r.id }

  /** Distinct target names and root ids, and split deliveries of at least two parts. */
  predicate WellFormed(v: Verified) {
    && NoDup(Map(NameOf, v.targets)) && NoDup(Map(IdOf, v.roots))
    && forall t :: t in v.targets && t.subject.Package? && t.subject.delivery.Split? ==> |t.subject.delivery.parts| >= 2
  }

  function Entry(f: Files, path: string, role: Role, target: string): Item {
    Item(path, role, target, f(path).0, f(path).1)
  }

  function DatabaseItems(f: Files, d: Database, target: string): seq<Item> {
    [Entry(f, d.metadata, DatabaseMetadata, target), Entry(f, d.file, DatabaseFile, target),
     Entry(f, d.layout, OciLayout, target), Entry(f, d.index, OciIndex, target), Entry(f, d.manifest, OciManifest, target),
     Entry(f, d.config, OciConfig, target), Entry(f, d.layer, OciLayer, target)]
  }

  function ScannerItems(f: Files, v: Verified): seq<Item> {
    [Entry(f, v.manifest, ManifestFile, "release"), Entry(f, v.dispositions, Dispositions, "release"),
     Entry(f, v.install, ScannerInstall, "scanner"), Entry(f, v.config, ScannerConfig, "scanner"),
     Entry(f, v.ignorefile, ScannerIgnorefile, "scanner"), Entry(f, v.archive, ScannerArchive, "scanner"),
     Entry(f, v.binary, ScannerBinary, "scanner"), Entry(f, v.checksums, ScannerChecksums, "scanner"),
     Entry(f, v.signature, ScannerChecksumsSignature, "scanner")]
  }

  function FixedItems(f: Files, v: Verified): seq<Item> {
    ScannerItems(f, v) + DatabaseItems(f, v.vulnerability, "vulnerability-database") + DatabaseItems(f, v.java, "java-database")
  }

  function RootItems(f: Files): Root -> seq<Item> {
    (r: Root) => [Entry(f, r.path, ReleaseRoot, r.id), Entry(f, r.bundle, ReleaseRootSignature, r.id)]
  }

  function PartItem(f: Files, role: Role, name: string): string -> Item { path => Entry(f, path, role, name) }

  function SubjectItems(f: Files, t: ScanTarget): seq<Item> {
    match t.subject
    case SourceTree => []
    case Image(sbom) => [Entry(f, sbom, ReleaseSbom, t.name)]
    case Package(Single(part), sbom) => [Entry(f, part, Artifact, t.name), Entry(f, sbom, SbomFile, t.name)]
    case Package(Split(parts), sbom) => Map(PartItem(f, ArtifactPart, t.name), parts) + [Entry(f, sbom, SbomFile, t.name)]
  }

  function TargetItems(f: Files): ScanTarget -> seq<Item> {
    (t: ScanTarget) => SubjectItems(f, t)
         + [Entry(f, t.report, Report, t.name), Entry(f, t.rawReport, RawReport, t.name), Entry(f, t.execution, ScanExecution, t.name)]
  }

  function AllItems(f: Files, v: Verified): seq<Item> {
    FixedItems(f, v) + FlatMap(RootItems(f), v.roots) + FlatMap(TargetItems(f), v.targets)
  }

  // ----- The gate's loops -----

  /** The inventory part of `_validate_target`. */
  method TargetInventory(f: Files, t: ScanTarget) returns (items: seq<Item>)
    ensures items == TargetItems(f)(t)
  {
    items := [];
    match t.subject {
      case SourceTree =>
      case Image(sbom) => items := items + [Entry(f, sbom, ReleaseSbom, t.name)];
      case Package(delivery, sbom) =>
        var parts := if delivery.Single? then [delivery.part] else delivery.parts;
        var role := if delivery.Single? then Artifact else ArtifactPart;
        for i := 0 to |parts|
          invariant items == Map(PartItem(f, role, t.name), parts[..i])
        {
          assert Map(PartItem(f, role, t.name), parts[..i + 1]) == items + [Entry(f, parts[i], role, t.name)];
          items := items + [Entry(f, parts[i], role, t.name)];
        }
        assert parts[..|parts|] == parts;
        items := items + [Entry(f, sbom, SbomFile, t.name)];
    }
    assert items == SubjectItems(f, t);
    items := items + [Entry(f, t.report, Report, t.name)];
    items := items + [Entry(f, t.rawReport, RawReport, t.name)];
    items := items + [Entry(f, t.execution, ScanExecution, t.name)];
    Joined(SubjectItems(f, t), Entry(f, t.report, Report, t.name), Entry(f, t.rawReport, RawReport, t.name),
           Entry(f, t.execution, ScanExecution, t.name));
  }

  lemma Joined<T>(s: seq<T>, a: T, b: T, c: T)
    ensures s + [a] + [b] + [c] == s + [a, b, c]
  {
  }

  /** The inventory of `verify`: refused exactly when a path is used twice, sorted otherwise. */
  method BuildInventory(f: Files, v: Verified) returns (r: Option<seq<Item>>)
    ensures r.Some? <==> NoDup(Map(PathOf, AllItems(f, v)))
    ensures r.Some? ==> r.value == Sort(ItemLeq, AllItems(f, v))
  {
    hide FixedItems, RootItems, TargetItems, ItemLeq;
    var items := FixedItems(f, v);
    ghost var fixedItems, rootItems := items, FlatMap(RootItems(f), v.roots);
    for i := 0 to |v.roots|
      invariant items == fixedItems + FlatMap(RootItems(f), v.roots[..i])
    {
      FlatMapStep(RootItems(f), v.roots, i);
      items := items + RootItems(f)(v.roots[i]);
    }
    assert v.roots[..|v.roots|] == v.roots;
    for i := 0 to |v.targets|
      invariant items == fixedItems + rootItems + FlatMap(TargetItems(f), v.targets[..i])
    {
      var added := TargetInventory(f, v.targets[i]);
      FlatMapStep(TargetItems(f), v.targets, i);
      items := items + added;
    }
    assert v.targets[..|v.targets|] == v.targets;
    DistinctCount(Map(PathOf, items));
    if |Map(PathOf, items)| != |Elems(Map(PathOf, items))| { return None; }
    r := Some(Sort(ItemLeq, items));
  }

  // ----- Its length, order and contents -----

  function Extra(t: ScanTarget): nat {
    match t.subject
    case SourceTree => 0
    case Image(_) => 1
    case Package(Single(_), _) => 2
    case Package(Split(parts), _) => 1 + |parts|
  }

  function ExtraSum(ts: seq<ScanTarget>): nat { if ts == [] then 0 else Extra(ts[0]) + ExtraSum(ts[1..]) }

  lemma {:induction false} TargetsCount(f: Files, ts: seq<ScanTarget>)
    ensures |FlatMap(TargetItems(f), ts)| == 3 * |ts| + ExtraSum(ts)
  {
    if ts != [] { TargetsCount(f, ts[1..]); }
  }

  lemma {:induction false} RootsCount(f: Files, rs: seq<Root>)
    ensures |FlatMap(RootItems(f), rs)| == 2 * |rs|
  {
    if rs != [] { RootsCount(f, rs[1..]); }
  }

  /** An emitted inventory is sorted, repeats no path, holds every evidence file once and has the
      closed-form length. */
  lemma EmittedInventory(f: Files, v: Verified)
    requires NoDup(Map(PathOf, AllItems(f, v)))
    ensures var inventory := Sort(ItemLeq, AllItems(f, v));
      && |inventory| == 23 + 3 * |v.targets| + 2 * |v.roots| + ExtraSum(v.targets)
      && SortedBy(ItemLeq, inventory) && NoDup(Map(PathOf, inventory))
      && multiset(inventory) == multiset(AllItems(f, v))
  {
    hide ItemLeq, TargetItems, RootItems;
    var inventory := Sort(ItemLeq, AllItems(f, v));
    ItemOrder();
    SortSorted(ItemLeq, AllItems(f, v));
    TargetsCount(f, v.targets);
    RootsCount(f, v.roots);
    MapPermutation(PathOf, inventory, AllItems(f, v));
    NoDupPermutation(Map(PathOf, inventory), Map(PathOf, AllItems(f, v)));
  }

  // ----- The consumer's closure -----

  function DatabasePairs(target: string): seq<(Role, string)> {
    [(DatabaseMetadata, target), (DatabaseFile, target), (OciLayout, target), (OciIndex, target), (OciManifest, target),
     (OciConfig, target), (OciLayer, target)]
  }

  function ScannerPairs(): seq<(Role, string)> {
    [(ManifestFile, "release"), (Dispositions, "release"), (ScannerInstall, "scanner"), (ScannerConfig, "scanner"),
     (ScannerIgnorefile, "scanner"), (ScannerArchive, "scanner"), (ScannerBinary, "scanner"), (ScannerChecksums, "scanner"),
     (ScannerChecksumsSignature, "scanner")]
  }

  function FixedPairs(): seq<(Role, string)> {
    ScannerPairs() + DatabasePairs("vulnerability-database") + DatabasePairs("java-database")
  }

  function RootPairs(id: string): seq<(Role, string)> { [(ReleaseRoot, id), (ReleaseRootSignature, id)] }

  function SpecPairs(name: string): seq<(Role, string)> {
    [(Artifact, name), (SbomFile, name), (Report, name), (RawReport, name), (ScanExecution, name)]
  }

  function ExpectedPairs(specs: seq<string>): seq<(Role, string)> {
    FixedPairs() + RootPairs("connector") + FlatMap(SpecPairs, specs)
  }

  /** The count, uniqueness, order and closure checks of `validate_vulnerability_inventory`. */
  predicate ConsumerAccepts(inventory: seq<Item>, specs: seq<string>) {
    && |inventory| == 25 + 5 * |specs|
    && NoDup(Map(PathOf, inventory)) && NoDup(Map(PairOf, inventory))
    && Sort(KeyLeq, Map(KeyOf, inventory)) == Map(KeyOf, inventory)
    && Elems(Map(PairOf, inventory)) == Elems(ExpectedPairs(specs))
  }

  /** The loop of `validate_vulnerability_inventory`. */
  method CheckInventory(inventory: seq<Item>, specs: seq<string>) returns (ok: bool)
    ensures ok <==> ConsumerAccepts(inventory, specs)
  {
    hide KeyOf, KeyLeq, ExpectedPairs;
    if |inventory| != 25 + 5 * |specs| { return false; }
    var seen, pairs, order := {}, {}, [];
    for i := 0 to |inventory|
      invariant seen == Elems(Map(PathOf, inventory[..i])) && NoDup(Map(PathOf, inventory[..i]))
      invariant pairs == Elems(Map(PairOf, inventory[..i])) && NoDup(Map(PairOf, inventory[..i]))
      invariant order == Map(KeyOf, inventory[..i])
    {
      var item := inventory[i];
      GrowDistinct(PathOf, inventory, i);
      GrowDistinct(PairOf, inventory, i);
      GrowDistinct(KeyOf, inventory, i);
      if item.path in seen || PairOf(item) in pairs { return false; }
      seen, pairs, order := seen + {item.path}, pairs + {PairOf(item)}, order + [KeyOf(item)];
    }
    assert inventory[..|inventory|] == inventory;
    ok := Sort(KeyLeq, order) == order && pairs == Elems(ExpectedPairs(specs));
  }

  lemma GrowDistinct<A, B>(g: A -> B, s: seq<A>, i: nat)
    requires i < |s|
    ensures Map(g, s[..i + 1]) == Map(g, s[..i]) + [g(s[i])]
    ensures Elems(Map(g, s[..i + 1])) == Elems(Map(g, s[..i])) + {g(s[i])}
    ensures NoDup(Map(g, s[..i])) ==> (NoDup(Map(g, s[..i + 1])) <==> g(s[i]) !in Map(g, s[..i]))
    ensures g(s[i]) in Map(g, s[..i]) ==> !NoDup(Map(g, s))
  {
    assert Map(g, s[..i + 1]) == Map(g, s[..i]) + [g(s[i])];
    NoDupConcat(Map(g, s[..i]), [g(s[i])]);
    if g(s[i]) in Map(g, s[..i]) {
      var k :| 0 <= k < i && Map(g, s[..i])[k] == g(s[i]);
      assert Map(g, s)[k] == Map(g, s)[i];
    }
  }

  /** The profile the consumer serves: one Connector root and single-file packages of the specs. */
  predicate ConnectorProfile(v: Verified, specs: seq<string>) {
    && Map(IdOf, v.roots) == ["connector"]
    && Elems(Map(NameOf, v.targets)) == Elems(specs)
    && forall t :: t in v.targets ==> t.subject.Package? && t.subject.delivery.Single?
  }

  // ----- Pairs of the emitted items -----

  function RootPairsOf(r: Root): seq<(Role, string)> { RootPairs(r.id) }

  function TargetPairs(t: ScanTarget): seq<(Role, string)> {
    (match t.subject
     case SourceTree => []
     case Image(_) => [(ReleaseSbom, t.name)]
     case Package(Single(_), _) => [(Artifact, t.name), (SbomFile, t.name)]
     case Package(Split(parts), _) => seq(|parts|, i => (ArtifactPart, t.name)) + [(SbomFile, t.name)])
    + [(Report, t.name), (RawReport, t.name), (ScanExecution, t.name)]
  }

  lemma TargetPairsOf(f: Files, t: ScanTarget)
    ensures Map(PairOf, TargetItems(f)(t)) == TargetPairs(t)
  {
    var tail := [Entry(f, t.report, Report, t.name), Entry(f, t.rawReport, RawReport, t.name), Entry(f, t.execution, ScanExecution, t.name)];
    MapAppend(PairOf, SubjectItems(f, t), tail);
    if t.subject.Package? && t.subject.delivery.Split? {
      MapAppend(PairOf, Map(PartItem(f, ArtifactPart, t.name), t.subject.delivery.parts), [Entry(f, t.subject.sbom, SbomFile, t.name)]);
    }
  }

  lemma {:induction false} PairsFlatten<A>(items: A -> seq<Item>, pairs: A -> seq<(Role, string)>, xs: seq<A>)
    requires forall x :: x in xs ==> Map(PairOf, items(x)) == pairs(x)
    ensures Map(PairOf, FlatMap(items, xs)) == FlatMap(pairs, xs)
  {
    if xs != [] {
      PairsFlatten(items, pairs, xs[1..]);
      MapAppend(PairOf, items(xs[0]), FlatMap(items, xs[1..]));
    }
  }

  lemma FixedPairsOf(f: Files, v: Verified)
    ensures Map(PairOf, FixedItems(f, v)) == FixedPairs()
  {
    MapAppend(PairOf, ScannerItems(f, v) + DatabaseItems(f, v.vulnerability, "vulnerability-database"),
              DatabaseItems(f, v.java, "java-database"));
    MapAppend(PairOf, ScannerItems(f, v), DatabaseItems(f, v.vulnerability, "vulnerability-database"));
  }

  lemma AllPairsOf(f: Files, v: Verified)
    ensures Map(PairOf, AllItems(f, v)) == FixedPairs() + FlatMap(RootPairsOf, v.roots) + FlatMap(TargetPairs, v.targets)
  {
    hide TargetItems, FixedItems, FixedPairs, TargetPairs;
    FixedPairsOf(f, v);
    forall t | t in v.targets ensures Map(PairOf, TargetItems(f)(t)) == TargetPairs(t) { TargetPairsOf(f, t); }
    PairsFlatten(TargetItems(f), TargetPairs, v.targets);
    PairsFlatten(RootItems(f), RootPairsOf, v.roots);
    MapAppend(PairOf, FixedItems(f, v) + FlatMap(RootItems(f), v.roots), FlatMap(TargetItems(f), v.targets));
    MapAppend(PairOf, FixedItems(f, v), FlatMap(RootItems(f), v.roots));
  }

  function EmittedPairs(v: Verified): seq<(Role, string)> {
    FixedPairs() + FlatMap(RootPairsOf, v.roots) + FlatMap(TargetPairs, v.targets)
  }

  predicate FixedRole(r: Role) {
    !(r.ReleaseRoot? || r.ReleaseRootSignature? || r.Artifact? || r.ArtifactPart? || r.SbomFile? || r.ReleaseSbom?
      || r.Report? || r.RawReport? || r.ScanExecution?)
  }

  lemma FixedPairRoles(p: (Role, string))
    requires p in FixedPairs()
    ensures FixedRole(p.0)
  {
    if p in ScannerPairs() {
    } else if p in DatabasePairs("vulnerability-database") {
    } else {
      assert p in DatabasePairs("java-database");
    }
  }

  lemma InEmitted(v: Verified, p: (Role, string))
    ensures p in EmittedPairs(v) <==>
            p in FixedPairs() || (exists i :: 0 <= i < |v.roots| && p in RootPairs(v.roots[i].id))
            || (exists i :: 0 <= i < |v.targets| && p in TargetPairs(v.targets[i]))
  {
    hide FixedPairs, TargetPairs;
    FlatMapContains(RootPairsOf, v.roots, p);
    FlatMapContains(TargetPairs, v.targets, p);
  }

  lemma InExpected(specs: seq<string>, p: (Role, string))
    ensures p in ExpectedPairs(specs) <==>
            p in FixedPairs() || p in RootPairs("connector") || (exists i :: 0 <= i < |specs| && p in SpecPairs(specs[i]))
  {
    hide FixedPairs, SpecPairs;
    FlatMapContains(SpecPairs, specs, p);
  }

  /** A pair of a package role is expected exactly for the names in the specs. */
  lemma ExpectedSpec(specs: seq<string>, role: Role, name: string)
    requires role.Artifact? || role.Report?
    ensures (role, name) in ExpectedPairs(specs) <==> name in specs
  {
    hide FixedPairs;
    InExpected(specs, (role, name));
    if (role, name) in FixedPairs() { FixedPairRoles((role, name)); }
    if name in specs {
      var i :| 0 <= i < |specs| && specs[i] == name;
      assert (role, name) in SpecPairs(specs[i]);
    }
  }

  lemma ExpectedRoot(specs: seq<string>, id: string)
    ensures (ReleaseRoot, id) in ExpectedPairs(specs) <==> id == "connector"
  {
    hide FixedPairs;
    InExpected(specs, (ReleaseRoot, id));
    if (ReleaseRoot, id) in FixedPairs() { FixedPairRoles((ReleaseRoot, id)); }
  }

  lemma EmittedReport(v: Verified, name: string)
    ensures (Report, name) in EmittedPairs(v) <==> exists i :: 0 <= i < |v.targets| && v.targets[i].name == name
  {
    hide FixedPairs;
    InEmitted(v, (Report, name));
    if (Report, name) in FixedPairs() { FixedPairRoles((Report, name)); }
    if i :| 0 <= i < |v.targets| && v.targets[i].name == name {
      TargetReport(v.targets[i]);
    }
  }

  lemma TargetReport(t: ScanTarget)
    ensures (Report, t.name) in TargetPairs(t)
    ensures forall p :: p in TargetPairs(t) ==> p.1 == t.name
    ensures (Artifact, t.name) in TargetPairs(t) <==> t.subject.Package? && t.subject.delivery.Single?
  {
    var pairs := TargetPairs(t);
    assert pairs[|pairs| - 3] == (Report, t.name);
    if t.subject.Package? && t.subject.delivery.Single? { assert pairs[0] == (Artifact, t.name); }
  }

  lemma EmittedArtifact(v: Verified, i: nat)
    requires NoDup(Map(NameOf, v.targets)) && i < |v.targets| && (Artifact, v.targets[i].name) in EmittedPairs(v)
    ensures v.targets[i].subject.Package? && v.targets[i].subject.delivery.Single?
  {
    hide FixedPairs, TargetPairs;
    var p := (Artifact, v.targets[i].name);
    InEmitted(v, p);
    if p in FixedPairs() { FixedPairRoles(p); }
    var k :| 0 <= k < |v.targets| && p in TargetPairs(v.targets[k]);
    TargetReport(v.targets[k]);
    TargetReport(v.targets[i]);
    assert Map(NameOf, v.targets)[k] == Map(NameOf, v.targets)[i];
  }

  lemma EmittedRoot(v: Verified, id: string)
    ensures (ReleaseRoot, id) in EmittedPairs(v) <==> exists i :: 0 <= i < |v.roots| && v.roots[i].id == id
  {
    hide FixedPairs;
    InEmitted(v, (ReleaseRoot, id));
    if (ReleaseRoot, id) in FixedPairs() { FixedPairRoles((ReleaseRoot, id)); }
    if i :| 0 <= i < |v.roots| && v.roots[i].id == id { assert (ReleaseRoot, id) in RootPairs(v.roots[i].id); }
  }

  lemma ClosureGivesProfile(v: Verified, specs: seq<string>)
    requires WellFormed(v) && Elems(EmittedPairs(v)) == Elems(ExpectedPairs(specs))
    ensures ConnectorProfile(v, specs)
  {
    hide FixedPairs, EmittedPairs, ExpectedPairs;
    var names := Map(NameOf, v.targets);
    forall i | 0 <= i < |v.targets|
      ensures v.targets[i].name in specs && v.targets[i].subject.Package? && v.targets[i].subject.delivery.Single?
    {
      var name := v.targets[i].name;
      EmittedReport(v, name);
      assert (Report, name) in Elems(EmittedPairs(v));
      ExpectedSpec(specs, Report, name);
      ExpectedSpec(specs, Artifact, name);
      assert (Artifact, name) in Elems(ExpectedPairs(specs));
      EmittedArtifact(v, i);
    }
    forall n | n in specs ensures n in names {
      ExpectedSpec(specs, Report, n);
      assert (Report, n) in Elems(ExpectedPairs(specs));
      EmittedReport(v, n);
      var i :| 0 <= i < |v.targets| && v.targets[i].name == n;
      assert names[i] == n;
    }
    RootsAreConnector(v, specs);
  }

  lemma RootsAreConnector(v: Verified, specs: seq<string>)
    requires NoDup(Map(IdOf, v.roots)) && Elems(EmittedPairs(v)) == Elems(ExpectedPairs(specs))
    ensures Map(IdOf, v.roots) == ["connector"]
  {
    hide FixedPairs, EmittedPairs, ExpectedPairs;
    ExpectedRoot(specs, "connector");
    assert (ReleaseRoot, "connector") in Elems(ExpectedPairs(specs));
    EmittedRoot(v, "connector");
    forall i | 0 <= i < |v.roots| ensures v.roots[i].id == "connector" {
      EmittedRoot(v, v.roots[i].id);
      assert (ReleaseRoot, v.roots[i].id) in Elems(EmittedPairs(v));
      ExpectedRoot(specs, v.roots[i].id);
    }
    var ids := Map(IdOf, v.roots);
    assert Elems(ids) == {"connector"};
    DistinctCount(ids);
  }

  lemma ProfilePairs(v: Verified, specs: seq<string>)
    requires ConnectorProfile(v, specs)
    ensures EmittedPairs(v) == ExpectedPairs(Map(NameOf, v.targets))
  {
    hide FixedPairs;
    assert |v.roots| == 1 && v.roots[0].id == "connector" by {
      assert Map(IdOf, v.roots)[0] == "connector";
    }
    assert FlatMap(RootPairsOf, v.roots[1..]) == [];
    assert FlatMap(RootPairsOf, v.roots) == RootPairs("connector");
    forall t | t in v.targets ensures TargetPairs(t) == SpecPairs(t.name) {}
    SamePairs(v.targets);
  }

  lemma {:induction false} SamePairs(ts: seq<ScanTarget>)
    requires forall t :: t in ts ==> TargetPairs(t) == SpecPairs(t.name)
    ensures FlatMap(TargetPairs, ts) == FlatMap(SpecPairs, Map(NameOf, ts))
  {
    if ts != [] {
      SamePairs(ts[1..]);
      assert Map(NameOf, ts)[1..] == Map(NameOf, ts[1..]);
    }
  }

  lemma FixedPairsDistinct()
    ensures NoDup(FixedPairs())
  {
    assert |"vulnerability-database"| != |"java-database"|;
  }

  lemma SpecPairsApart(name: string)
    ensures NoDup(SpecPairs(name))
    ensures forall p :: p in SpecPairs(name) ==> p.1 == name && !FixedRole(p.0) && p !in RootPairs("connector")
  {
  }

  lemma SpecsDistinct(specs: seq<string>)
    requires NoDup(specs)
    ensures NoDup(FlatMap(SpecPairs, specs))
    ensures forall p :: p in FlatMap(SpecPairs, specs) ==> !FixedRole(p.0) && p !in RootPairs("connector")
  {
    hide SpecPairs, FixedRole, RootPairs;
    FlatMapNoDup(SpecPairs, specs);
    forall i | 0 <= i < |specs| ensures NoDup(SpecPairs(specs[i])) { SpecPairsApart(specs[i]); }
    forall i, j, y | 0 <= i < j < |specs| && y in SpecPairs(specs[i]) ensures y !in SpecPairs(specs[j]) {
      SpecPairsApart(specs[i]);
      SpecPairsApart(specs[j]);
    }
    forall p | p in FlatMap(SpecPairs, specs) ensures !FixedRole(p.0) && p !in RootPairs("connector") {
      FlatMapContains(SpecPairs, specs, p);
      var i :| 0 <= i < |specs| && p in SpecPairs(specs[i]);
      SpecPairsApart(specs[i]);
    }
  }

  lemma ExpectedDistinct(specs: seq<string>)
    requires NoDup(specs)
    ensures NoDup(ExpectedPairs(specs)) && |ExpectedPairs(specs)| == 25 + 5 * |specs|
  {
    hide FixedPairs, SpecPairs, FlatMap;
    FixedPairsDistinct();
    FixedPairsLength();
    SpecsDistinct(specs);
    SpecsLength(specs);
    NoDupConcat(FixedPairs() + RootPairs("connector"), FlatMap(SpecPairs, specs));
    NoDupConcat(FixedPairs(), RootPairs("connector"));
    forall p | p in FixedPairs() ensures FixedRole(p.0) { FixedPairRoles(p); }
  }

  lemma FixedPairsLength()
    ensures |FixedPairs()| == 23
  {
  }

  lemma {:induction false} SpecsLength(specs: seq<string>)
    ensures |FlatMap(SpecPairs, specs)| == 5 * |specs|
  {
    if specs != [] { SpecsLength(specs[1..]); }
  }

  lemma ExpectedBySet(a: seq<string>, b: seq<string>)
    requires Elems(a) == Elems(b)
    ensures Elems(ExpectedPairs(a)) == Elems(ExpectedPairs(b))
  {
    ExpectedWithin(a, b);
    ExpectedWithin(b, a);
  }

  lemma ExpectedWithin(a: seq<string>, b: seq<string>)
    requires Elems(a) <= Elems(b)
    ensures Elems(ExpectedPairs(a)) <= Elems(ExpectedPairs(b))
  {
    hide FixedPairs, ExpectedPairs, SpecPairs;
    forall p | p in Elems(ExpectedPairs(a)) ensures p in Elems(ExpectedPairs(b)) {
      InExpected(a, p);
      InExpected(b, p);
      if i :| 0 <= i < |a| && p in SpecPairs(a[i]) {
        assert a[i] in Elems(a);
        var k :| 0 <= k < |b| && b[k] == a[i];
      }
    }
  }

  lemma KeysSorted(inventory: seq<Item>)
    requires SortedBy(ItemLeq, inventory)
    ensures Sort(KeyLeq, Map(KeyOf, inventory)) == Map(KeyOf, inventory)
  {
    hide KeyLeq, KeyOf;
    KeyOrder();
    SortSorted(KeyLeq, Map(KeyOf, inventory));
    assert SortedBy(KeyLeq, Map(KeyOf, inventory)) by {
      forall i, j | 0 <= i < j < |inventory| ensures KeyLeq(Map(KeyOf, inventory)[i], Map(KeyOf, inventory)[j]) {
        assert ItemLeq(inventory[i], inventory[j]);
      }
    }
    SortedUniqueAmong(KeyLeq, Sort(KeyLeq, Map(KeyOf, inventory)), Map(KeyOf, inventory));
  }

  /** The consumer accepts an emitted inventory exactly when the run had the Connector profile. */
  lemma ConsumerMeetsGate(f: Files, v: Verified, specs: seq<string>)
    requires WellFormed(v) && NoDup(specs) && NoDup(Map(PathOf, AllItems(f, v)))
    ensures ConsumerAccepts(Sort(ItemLeq, AllItems(f, v)), specs) <==> ConnectorProfile(v, specs)
  {
    hide AllItems, ItemLeq, KeyLeq, EmittedPairs, ExpectedPairs, FixedPairs, WellFormed, TargetPairs, RootPairsOf;
    var inventory := Sort(ItemLeq, AllItems(f, v));
    EmittedInventory(f, v);
    KeysSorted(inventory);
    EmittedAsPairs(f, v, inventory);
    if Elems(Map(PairOf, inventory)) == Elems(ExpectedPairs(specs)) { ClosureGivesProfile(v, specs); }
    if ConnectorProfile(v, specs) { ProfileGivesClosure(v, specs); }
  }

  lemma EmittedAsPairs(f: Files, v: Verified, inventory: seq<Item>)
    requires multiset(inventory) == multiset(AllItems(f, v))
    ensures NoDup(Map(PairOf, inventory)) <==> NoDup(EmittedPairs(v))
    ensures Elems(Map(PairOf, inventory)) == Elems(EmittedPairs(v))
    ensures |inventory| == |EmittedPairs(v)|
  {
    hide AllItems, FixedPairs, TargetPairs, RootPairsOf;
    AllPairsOf(f, v);
    MapPermutation(PairOf, inventory, AllItems(f, v));
    NoDupPermutation(Map(PairOf, inventory), EmittedPairs(v));
  }

  lemma ProfileGivesClosure(v: Verified, specs: seq<string>)
    requires WellFormed(v) && NoDup(specs) && ConnectorProfile(v, specs)
    ensures NoDup(EmittedPairs(v)) && Elems(EmittedPairs(v)) == Elems(ExpectedPairs(specs))
    ensures |EmittedPairs(v)| == 25 + 5 * |specs|
  {
    hide FixedPairs, EmittedPairs, ExpectedPairs;
    var names := Map(NameOf, v.targets);
    ProfilePairs(v, specs);
    ExpectedDistinct(names);
    ExpectedBySet(names, specs);
    DistinctCount(names);
    DistinctCount(specs);
  }
}
