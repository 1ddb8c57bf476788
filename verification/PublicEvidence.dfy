/** Flattening signed vulnerability evidence to public assets, and rebuilding it. */
module PublicEvidence {
  import opened Sequences
  import opened Sorting
  import opened Text
  import opened ReleaseManifest
  import opened CoreAssets
  import opened ReleaseInventory
  import opened GateInventory

  type Bytes = seq<bv8>
  type Tree = map<string, Bytes>

  /** SHA-256 of contents, and the sixteen hexadecimal digits taken from the digest of a path. */
  datatype Digests = Digests(sha256: Bytes -> string, pathDigits: string -> string)

  const RECEIPT := "vulnerability-receipt.json"
  const RECEIPT_BUNDLE := "vulnerability-receipt.sigstore.json"
  const PUBLIC_PREFIX := "vulnerability-evidence-"
  const CORE_PREFIX := "connector/"

  // ----- Names -----

  function Basename(path: string): string {
    if path == [] then [] else if path[|path| - 1] == '/' then [] else Basename(path[..|path| - 1]) + [path[|path| - 1]]
  }

  /** The name after a directory prefix is the basename when it has no separator of its own. */
  lemma {:induction false} BasenameOf(dir: string, name: string)
    requires '/' !in name
    ensures Basename(dir + "/" + name) == name
  {
    var path := dir + "/" + name;
    if name != [] {
      var init := name[..|name| - 1];
      BasenameOf(dir, init);
      assert path[..|path| - 1] == dir + "/" + init;
      assert name == init + [name[|name| - 1]];
    }
  }

  /** `vulnerability_public_asset_name`. */
  function PublicName(d: Digests): Item -> string {
    (i: Item) => PUBLIC_PREFIX + d.pathDigits(i.path) + "-" + Basename(i.path)
  }

  predicate IsPublic(i: Item) { !StartsWith(i.path, CORE_PREFIX) }

  function PublicItems(inventory: seq<Item>): seq<Item> { Select(IsPublic, inventory) }

  /** `vulnerability_public_asset_map` accepts: no two flat names collide and the count is fixed. */
  predicate Projectable(d: Digests, inventory: seq<Item>, packages: nat) {
    NoDup(Map(PublicName(d), PublicItems(inventory))) && |PublicItems(inventory)| == 23 + 3 * packages
  }

  method PublicAssetMap(d: Digests, inventory: seq<Item>, packages: nat) returns (r: Option<map<string, Item>>)
    ensures r.Some? <==> Projectable(d, inventory, packages)
    ensures r.Some? ==> r.value == Assign(map[], Map(Named(d), PublicItems(inventory)))
  {
    hide PublicName, IsPublic;
    var public: map<string, Item> := map[];
    for k := 0 to |inventory|
      invariant public == Assign(map[], Map(Named(d), PublicItems(inventory[..k])))
      invariant NoDup(Map(PublicName(d), PublicItems(inventory[..k])))
    {
      var item := inventory[k];
      PublicStep(inventory, k);
      if !IsPublic(item) {
        assert PublicItems(inventory[..k]) + [] == PublicItems(inventory[..k]);
        continue;
      }
      ProjectStep(d, PublicItems(inventory[..k]), item);
      var name := PublicName(d)(item);
      if name in public {
        PublicPrefix(d, inventory, k + 1);
        return None;
      }
      public := public[name := item];
    }
    assert inventory[..|inventory|] == inventory;
    ProjectSize(d, PublicItems(inventory));
    r := if |public| != 23 + 3 * packages then None else Some(public);
  }

  function Named(d: Digests): Item -> (string, Item) { (i: Item) => (PublicName(d)(i), i) }

  lemma PublicStep(inventory: seq<Item>, k: nat)
    requires k < |inventory|
    ensures PublicItems(inventory[..k + 1]) == PublicItems(inventory[..k]) + if IsPublic(inventory[k]) then [inventory[k]] else []
  {
    hide IsPublic;
    assert inventory[..k + 1] == inventory[..k] + [inventory[k]];
    SelectAppend(IsPublic, inventory[..k], [inventory[k]]);
    assert [inventory[k]][1..] == [];
  }

  lemma NamedKeys(d: Digests, items: seq<Item>)
    ensures Map(Fst, Map(Named(d), items)) == Map(PublicName(d), items)
  {
    hide PublicName;
  }

  lemma ProjectStep(d: Digests, items: seq<Item>, item: Item)
    ensures Assign(map[], Map(Named(d), items + [item])) == Assign(map[], Map(Named(d), items))[PublicName(d)(item) := item]
    ensures PublicName(d)(item) in Assign(map[], Map(Named(d), items)) <==> PublicName(d)(item) in Map(PublicName(d), items)
    ensures NoDup(Map(PublicName(d), items)) ==>
              (NoDup(Map(PublicName(d), items + [item])) <==> PublicName(d)(item) !in Map(PublicName(d), items))
  {
    hide PublicName;
    AssignKeys(map[], Map(Named(d), items));
    NamedKeys(d, items);
    MapAppend(Named(d), items, [item]);
    assert Map(Named(d), [item]) == [(PublicName(d)(item), item)];
    AssignAppend(map[], Map(Named(d), items), [(PublicName(d)(item), item)]);
    assert [(PublicName(d)(item), item)][..0] == [];
    MapAppend(PublicName(d), items, [item]);
    assert Map(PublicName(d), [item]) == [PublicName(d)(item)];
    NoDupConcat(Map(PublicName(d), items), [PublicName(d)(item)]);
  }

  lemma PublicPrefix(d: Digests, inventory: seq<Item>, k: nat)
    requires k <= |inventory| && !NoDup(Map(PublicName(d), PublicItems(inventory[..k])))
    ensures !NoDup(Map(PublicName(d), PublicItems(inventory)))
  {
    hide PublicName, IsPublic;
    assert inventory == inventory[..k] + inventory[k..];
    SelectAppend(IsPublic, inventory[..k], inventory[k..]);
    MapAppend(PublicName(d), PublicItems(inventory[..k]), PublicItems(inventory[k..]));
    NoDupConcat(Map(PublicName(d), PublicItems(inventory[..k])), Map(PublicName(d), PublicItems(inventory[k..])));
  }

  lemma ProjectSize(d: Digests, items: seq<Item>)
    requires NoDup(Map(PublicName(d), items))
    ensures |Assign(map[], Map(Named(d), items))| == |items|
  {
    hide PublicName;
    var m := Assign(map[], Map(Named(d), items));
    AssignKeys(map[], Map(Named(d), items));
    NamedKeys(d, items);
    DistinctCount(Map(PublicName(d), items));
    assert |m| == |m.Keys|;
  }

  // ----- The paths an admitted receipt may name -----

  datatype Spec = Spec(target: Target, format: Format)

  function SpecName(s: Spec): string { "connector-" + TargetId(s.target) + "-" + FormatName(s.format) }

  function SpecOf(t: Target): Format -> Spec { f => Spec(t, f) }
  function SpecsOf(t: Target): seq<Spec> { Map(SpecOf(t), Formats(t.os)) }

  /** One scan target per released package. */
  function Specs(matrix: seq<Target>): seq<Spec> { FlatMap(SpecsOf, matrix) }

  function OciPrefix(target: string): string {
    if target == "java-database" then "trivy-java-db-oci" else "trivy-db-oci"
  }

  /** The path each role must have. */
  predicate PathAdmitted(version: string, specs: seq<Spec>, i: Item) {
    match i.role
    case ManifestFile => i.path == "vulnerability-manifest.json"
    case Dispositions => i.path == "vulnerability-dispositions.json"
    case ScannerInstall => i.path == "trivy-install-receipt.json"
    case ScannerArchive => i.path == "trivy_0.74.0_Linux-64bit.tar.gz"
    case ScannerBinary => i.path == "trivy-linux-amd64"
    case ScannerChecksums => i.path == "trivy_0.74.0_checksums.txt"
    case ScannerChecksumsSignature => i.path == "trivy_0.74.0_checksums.txt.sigstore.json"
    case ScannerConfig => i.path == "trivy-empty.yaml"
    case ScannerIgnorefile => i.path == "trivy-empty.ignore"
    case DatabaseMetadata =>
      i.path == if i.target == "java-database" then "trivy-java-db-metadata.json" else "trivy-db-metadata.json"
    case DatabaseFile => i.path == if i.target == "java-database" then "trivy-java.db" else "trivy.db"
    case OciLayout => i.path == OciPrefix(i.target) + "/oci-layout"
    case OciIndex => i.path == OciPrefix(i.target) + "/index.json"
    case OciManifest => OciBlob(i)
    case OciConfig => OciBlob(i)
    case OciLayer => OciBlob(i)
    case ReleaseRoot => i.path == CORE_PREFIX + MANIFEST
    case ReleaseRootSignature => i.path == CORE_PREFIX + BundleName(MANIFEST)
    case Artifact =>
      exists s :: s in specs && SpecName(s) == i.target && i.path == CORE_PREFIX + PackageName(version, s.target, s.format)
    case SbomFile =>
      exists s :: s in specs && SpecName(s) == i.target && i.path == CORE_PREFIX + SbomName(PackageName(version, s.target, s.format))
    case Report => i.path == "vulnerability-" + i.target + ".json" && SpecTarget(specs, i.target)
    case RawReport => i.path == "vulnerability-" + i.target + ".raw.json" && SpecTarget(specs, i.target)
    case ScanExecution => i.path == "scan-execution-" + i.target + ".json" && SpecTarget(specs, i.target)
    case ArtifactPart => false
    case ReleaseSbom => false
  }

  predicate OciBlob(i: Item) {
    StartsWith(i.path, OciPrefix(i.target) + "/blobs/sha256/") && Basename(i.path) == i.sha256
  }

  predicate SpecTarget(specs: seq<Spec>, name: string) { exists s :: s in specs && SpecName(s) == name }

  /** `validate_vulnerability_inventory` for the released matrix. */
  predicate Admitted(d: Digests, version: string, matrix: seq<Target>, inventory: seq<Item>) {
    && ConsumerAccepts(inventory, Map(SpecName, Specs(matrix)))
    && (forall i :: i in inventory ==> PathAdmitted(version, Specs(matrix), i))
    && Projectable(d, inventory, |Specs(matrix)|)
  }

  predicate CoreRole(r: Role) { r.ReleaseRoot? || r.ReleaseRootSignature? || r.Artifact? || r.SbomFile? }

  lemma PublicPath(version: string, specs: seq<Spec>, i: Item)
    requires PathAdmitted(version, specs, i)
    ensures IsPublic(i) <==> !CoreRole(i.role)
    ensures i.path != RECEIPT && i.path != RECEIPT_BUNDLE
  {
    hide SpecName, PackageName;
    if CoreRole(i.role) {
      var name := CorePath(version, specs, i);
      assert RECEIPT[0] == 'v' && RECEIPT_BUNDLE[0] == 'v';
    } else {
      OtherPath(version, specs, i);
    }
  }

  /** A core path is the core prefix and the name of a core file. */
  lemma CorePath(version: string, specs: seq<Spec>, i: Item) returns (name: string)
    requires PathAdmitted(version, specs, i) && CoreRole(i.role)
    ensures i.path == CORE_PREFIX + name && i.path[0] == 'c'
    ensures name == MANIFEST || name == BundleName(MANIFEST)
         || exists s :: s in specs && (name == PackageName(version, s.target, s.format)
                                       || name == SbomName(PackageName(version, s.target, s.format)))
  {
    hide PackageName, SpecName;
    match i.role {
      case ReleaseRoot => name := MANIFEST;
      case ReleaseRootSignature => name := BundleName(MANIFEST);
      case Artifact =>
        var s :| s in specs && SpecName(s) == i.target && i.path == CORE_PREFIX + PackageName(version, s.target, s.format);
        name := PackageName(version, s.target, s.format);
      case SbomFile =>
        var s :| s in specs && SpecName(s) == i.target && i.path == CORE_PREFIX + SbomName(PackageName(version, s.target, s.format));
        name := SbomName(PackageName(version, s.target, s.format));
      case _ =>
    }
    assert i.path[0] == CORE_PREFIX[0];
  }

  lemma OtherPath(version: string, specs: seq<Spec>, i: Item)
    requires PathAdmitted(version, specs, i) && !CoreRole(i.role)
    ensures i.path != "" && i.path[0] != 'c' && i.path != RECEIPT && i.path != RECEIPT_BUNDLE
  {
    hide SpecName;
    assert RECEIPT[0] == 'v' && RECEIPT[14] == 'r' && RECEIPT_BUNDLE[0] == 'v' && RECEIPT_BUNDLE[14] == 'r';
    assert OciPrefix(i.target)[0] == 't';
    match i.role {
      case ManifestFile => assert i.path[14] == 'm';
      case Dispositions => assert i.path[14] == 'd';
      case Report => ReportPath(specs, i.target, ".json");
      case RawReport => ReportPath(specs, i.target, ".raw.json");
      case ScanExecution => assert i.path[0] == 's';
      case OciManifest => assert i.path[0] == 't';
      case OciConfig => assert i.path[0] == 't';
      case OciLayer => assert i.path[0] == 't';
      case _ =>
    }
  }

  lemma ReportPath(specs: seq<Spec>, target: string, ending: string)
    requires SpecTarget(specs, target)
    ensures var path := "vulnerability-" + target + ending; |path| > 14 && path[0] == 'v' && path[14] == 'c'
  {
    var s :| s in specs && SpecName(s) == target;
    assert target[0] == 'c';
  }

  // ----- Staging -----

  predicate Matches(d: Digests, i: Item, b: Bytes) { |b| == i.size && d.sha256(b) == i.sha256 }

  /** The evidence directory holds exactly the inventory and the receipt pair, with matching bytes. */
  predicate EvidenceComplete(d: Digests, inventory: seq<Item>, evidence: Tree) {
    && evidence.Keys == Elems(Map(PathOf, inventory)) + {RECEIPT, RECEIPT_BUNDLE}
    && forall i :: i in inventory ==> i.path in evidence && Matches(d, i, evidence[i.path])
  }

  function Read(t: Tree, name: string): Bytes { if name in t then t[name] else [] }

  function ReceiptPair(t: Tree): seq<(string, Bytes)> { [(RECEIPT, Read(t, RECEIPT)), (RECEIPT_BUNDLE, Read(t, RECEIPT_BUNDLE))] }

  function Staged(d: Digests, evidence: Tree): Item -> (string, Bytes) { (i: Item) => (PublicName(d)(i), Read(evidence, i.path)) }

  function StagedFiles(d: Digests, inventory: seq<Item>, evidence: Tree): seq<(string, Bytes)> {
    Map(Staged(d, evidence), PublicItems(inventory)) + ReceiptPair(evidence)
  }

  /** A list of exclusive copies: it succeeds exactly when every name is new. */
  method CopyAll(tree: Tree, files: seq<(string, Bytes)>) returns (r: Option<Tree>)
    ensures r.Some? <==> AllNew(tree.Keys, files)
    ensures r.Some? ==> r.value == Assign(tree, files)
  {
    var t := tree;
    for k := 0 to |files|
      invariant AllNew(tree.Keys, files[..k]) && t == Assign(tree, files[..k])
    {
      CopyStep(tree, files, k);
      if files[k].0 in t { return None; }
      t := t[files[k].0 := files[k].1];
    }
    assert files[..|files|] == files;
    r := Some(t);
  }

  lemma CopyStep(tree: Tree, files: seq<(string, Bytes)>, k: nat)
    requires k < |files| && AllNew(tree.Keys, files[..k])
    ensures Assign(tree, files[..k + 1]) == Assign(tree, files[..k])[files[k].0 := files[k].1]
    ensures AllNew(tree.Keys, files[..k + 1]) <==> files[k].0 !in Assign(tree, files[..k])
    ensures files[k].0 in Assign(tree, files[..k]) ==> !AllNew(tree.Keys, files)
  {
    assert files[..k + 1] == files[..k] + [files[k]] && files == files[..k + 1] + files[k + 1..];
    AllNewStep(tree, files[..k], files[k]);
    if AllNew(tree.Keys, files) { AllNewPrefix(tree.Keys, files[..k + 1], files[k + 1..]); }
  }

  /** `stage_public_vulnerability_assets` into the directory that holds the core release. */
  method Stage(d: Digests, inventory: seq<Item>, packages: nat, evidence: Tree, output: Tree) returns (r: Option<Tree>)
    ensures r.Some? <==> EvidenceComplete(d, inventory, evidence) && Projectable(d, inventory, packages)
                         && AllNew(output.Keys, StagedFiles(d, inventory, evidence))
    ensures r.Some? ==> r.value == Assign(output, StagedFiles(d, inventory, evidence))
  {
    hide PublicName, EvidenceComplete, AllNew;
    if !EvidenceComplete(d, inventory, evidence) { return None; }
    var public := PublicAssetMap(d, inventory, packages);
    if public.None? { return None; }
    r := CopyAll(output, StagedFiles(d, inventory, evidence));
  }

  // ----- Rebuilding -----

  function SourceName(d: Digests, i: Item): string { if IsPublic(i) then PublicName(d)(i) else Basename(i.path) }

  function Rebuilt(d: Digests, public: Tree): Item -> (string, Bytes) { (i: Item) => (i.path, Read(public, SourceName(d, i))) }

  function RebuiltFiles(d: Digests, inventory: seq<Item>, public: Tree): seq<(string, Bytes)> {
    Map(Rebuilt(d, public), inventory) + ReceiptPair(public)
  }

  function ExpectedPublic(d: Digests, inventory: seq<Item>, core: set<string>): set<string> {
    core + Elems(Map(PublicName(d), PublicItems(inventory))) + {RECEIPT, RECEIPT_BUNDLE}
  }

  /** What `reconstruct_public_vulnerability_release` demands of the public directory. */
  ghost predicate Rebuildable(d: Digests, inventory: seq<Item>, packages: nat, core: set<string>, coreCount: nat, public: Tree) {
    && Projectable(d, inventory, packages)
    && |ExpectedPublic(d, inventory, core)| == coreCount + (23 + 3 * packages + 2)
    && public.Keys == ExpectedPublic(d, inventory, core)
    && SourcesMatch(d, inventory, public)
    && AllNew({}, RebuiltFiles(d, inventory, public))
  }

  ghost predicate SourcesMatch(d: Digests, inventory: seq<Item>, public: Tree) {
    forall i :: i in inventory ==> SourceName(d, i) in public && Matches(d, i, public[SourceName(d, i)])
  }

  /** The hash check of every copied source. */
  method CheckSources(d: Digests, inventory: seq<Item>, public: Tree) returns (ok: bool)
    ensures ok <==> SourcesMatch(d, inventory, public)
  {
    hide SourceName, Matches;
    for k := 0 to |inventory|
      invariant forall j :: 0 <= j < k ==> SourceName(d, inventory[j]) in public
                                           && Matches(d, inventory[j], public[SourceName(d, inventory[j])])
    {
      var source := SourceName(d, inventory[k]);
      if source !in public || !Matches(d, inventory[k], public[source]) { return false; }
    }
    ok := true;
  }

  /** `reconstruct_public_vulnerability_release`: the rebuilt core and evidence directories. */
  method Reconstruct(d: Digests, inventory: seq<Item>, packages: nat, core: set<string>, coreCount: nat, public: Tree)
    returns (r: Option<(Tree, Tree)>)
    ensures r.Some? <==> Rebuildable(d, inventory, packages, core, coreCount, public)
    ensures r.Some? ==> r.value == (Part(public, core), Assign(map[], RebuiltFiles(d, inventory, public)))
  {
    hide PublicName, AllNew, RebuiltFiles, SourcesMatch, PublicItems, Projectable, Assign, Part;
    var assets := PublicAssetMap(d, inventory, packages);
    if assets.None? { return None; }
    AssetNames(d, PublicItems(inventory));
    var expected := core + assets.value.Keys + {RECEIPT, RECEIPT_BUNDLE};
    if |expected| != coreCount + (23 + 3 * packages + 2) || public.Keys != expected { return None; }
    var ok := CheckSources(d, inventory, public);
    if !ok { return None; }
    var empty: Tree := map[];
    assert empty.Keys == {};
    var evidence := CopyAll(empty, RebuiltFiles(d, inventory, public));
    if evidence.None? { return None; }
    r := Some((Part(public, core), evidence.value));
  }

  function Part(t: Tree, names: set<string>): Tree { map n | n in names && n in t :: t[n] }

  lemma AssetNames(d: Digests, items: seq<Item>)
    ensures Assign(map[], Map(Named(d), items)).Keys == Elems(Map(PublicName(d), items))
  {
    hide PublicName;
    AssignKeys(map[], Map(Named(d), items));
    NamedKeys(d, items);
  }

  // ----- The round trip -----

  /** Core names carry no path separator. */
  predicate PlainNames(names: set<string>) { forall n :: n in names ==> '/' !in n }

  function CoreNames(version: string, matrix: seq<Target>): set<string> { Elems(MatrixAssets(version, matrix)) }

  /** No separator in the version or in a token, as the release's safe-name pattern guarantees. */
  predicate PlainMatrix(version: string, matrix: seq<Target>) { '/' !in version && forall t :: t in matrix ==> '/' !in t.arch }

  lemma CoreNamesPlain(version: string, matrix: seq<Target>)
    requires PlainMatrix(version, matrix)
    ensures PlainNames(CoreNames(version, matrix))
  {
    hide TargetAssets;
    forall n | n in CoreNames(version, matrix) ensures '/' !in n {
      if n in FixedAssets() {
        FixedPlain(n);
      } else {
        FlatMapContains(AssetsOf(version), matrix, n);
        var i :| 0 <= i < |matrix| && n in AssetsOf(version)(matrix[i]);
        AssetPlain(version, matrix[i], n);
      }
    }
  }

  lemma FixedPlain(n: string)
    requires n in FixedAssets()
    ensures '/' !in n
  {
  }

  lemma CoreInitial(version: string, matrix: seq<Target>, n: string)
    requires n in CoreNames(version, matrix)
    ensures n != "" && n[0] != 'v'
  {
    ElemsConcat(FixedAssets(), FlatMap(AssetsOf(version), matrix));
    if n in FixedAssets() {
      FixedInitial(n);
    } else {
      FlatMapContains(AssetsOf(version), matrix, n);
      var i :| 0 <= i < |matrix| && n in AssetsOf(version)(matrix[i]);
      AssetInitial(version, matrix[i], n);
    }
  }

  /** Flat names, the receipt pair and the core names keep apart. */
  lemma NamesApart(d: Digests, version: string, matrix: seq<Target>, i: Item)
    ensures PublicName(d)(i) !in CoreNames(version, matrix) && PublicName(d)(i) != RECEIPT && PublicName(d)(i) != RECEIPT_BUNDLE
    ensures RECEIPT !in CoreNames(version, matrix) && RECEIPT_BUNDLE !in CoreNames(version, matrix) && RECEIPT != RECEIPT_BUNDLE
  {
    hide CoreNames, Basename;
    var name := PublicName(d)(i);
    assert name[0] == 'v' && name[14] == 'e' by {
      assert PUBLIC_PREFIX[0] == 'v' && PUBLIC_PREFIX[14] == 'e' && |PUBLIC_PREFIX| == 23;
    }
    assert RECEIPT[0] == 'v' && RECEIPT[14] == 'r' && RECEIPT_BUNDLE[0] == 'v' && RECEIPT_BUNDLE[14] == 'r';
    assert |RECEIPT| != |RECEIPT_BUNDLE|;
    if name in CoreNames(version, matrix) { CoreInitial(version, matrix, name); }
    if RECEIPT in CoreNames(version, matrix) { CoreInitial(version, matrix, RECEIPT); }
    if RECEIPT_BUNDLE in CoreNames(version, matrix) { CoreInitial(version, matrix, RECEIPT_BUNDLE); }
  }

  /** The names a receipt takes from the core release are core names. */
  lemma CoreSource(d: Digests, version: string, matrix: seq<Target>, i: Item)
    requires PathAdmitted(version, Specs(matrix), i) && !IsPublic(i) && PlainNames(CoreNames(version, matrix))
    ensures SourceName(d, i) in CoreNames(version, matrix)
  {
    hide PathAdmitted, PackageName, SbomName, BundleName, CoreNames;
    PublicPath(version, Specs(matrix), i);
    var name := CorePath(version, Specs(matrix), i);
    if name == MANIFEST || name == BundleName(MANIFEST) {
      FixedIsCore(version, matrix, name);
    } else {
      var s :| s in Specs(matrix) && (name == PackageName(version, s.target, s.format) || name == SbomName(PackageName(version, s.target, s.format)));
      PackageIsCore(version, matrix, s, name);
    }
    assert i.path == "connector" + "/" + name;
    BasenameOf("connector", name);
  }

  lemma FixedIsCore(version: string, matrix: seq<Target>, name: string)
    requires name == MANIFEST || name == BundleName(MANIFEST)
    ensures name in CoreNames(version, matrix)
  {
    ElemsConcat(FixedAssets(), FlatMap(AssetsOf(version), matrix));
    FixedElems();
    assert name in Elems(FixedAssets());
  }

  lemma PackageIsCore(version: string, matrix: seq<Target>, s: Spec, name: string)
    requires s in Specs(matrix) && (name == PackageName(version, s.target, s.format) || name == SbomName(PackageName(version, s.target, s.format)))
    ensures name in CoreNames(version, matrix)
  {
    hide PackageName, SbomName, SpecsOf, AssetsOf, FixedAssets;
    FlatMapContains(SpecsOf, matrix, s);
    var k :| 0 <= k < |matrix| && s in SpecsOf(matrix[k]);
    SpecInContent(version, matrix[k], s, name);
    FlatMapContains(AssetsOf(version), matrix, name);
    ElemsConcat(FixedAssets(), FlatMap(AssetsOf(version), matrix));
    assert name in Elems(FlatMap(AssetsOf(version), matrix));
  }

  lemma SpecInContent(version: string, t: Target, s: Spec, name: string)
    requires s in SpecsOf(t) && (name == PackageName(version, s.target, s.format) || name == SbomName(PackageName(version, s.target, s.format)))
    ensures name in AssetsOf(version)(t)
  {
    hide PackageName, SbomName, TargetAssets;
    assert s.target == t && s.format in Formats(t.os);
    InTrio(PackageName(version, t, s.format), name);
    TrioInContent(version, t, s.format, name);
    AssetPartition(version, t);
    InCovered(TargetAssets(version, t), ContentOf(version, t), AttestedOf(version, t), name);
  }

  lemma InTrio(file: string, name: string)
    requires name == file || name == SbomName(file)
    ensures name in Trio(file)
  {
    hide SbomName;
    assert Trio(file)[0] == file && Trio(file)[1] == SbomName(file);
  }

  lemma TrioInContent(version: string, t: Target, f: Format, name: string)
    requires f in Formats(t.os) && name in Trio(PackageName(version, t, f))
    ensures name in ContentOf(version, t)
  {
    hide PackageName, Trio, ArtifactName;
  }

  lemma InCovered(all: seq<string>, content: seq<string>, attested: seq<string>, name: string)
    requires Covers(all, content, attested) && name in content
    ensures name in all
  {
    assert name in multiset(content);
    assert name in multiset(all);
  }

  lemma StagedNames(d: Digests, inventory: seq<Item>, evidence: Tree)
    ensures Map(Fst, StagedFiles(d, inventory, evidence)) == Map(PublicName(d), PublicItems(inventory)) + [RECEIPT, RECEIPT_BUNDLE]
  {
    hide PublicName, PublicItems;
    MapAppend(Fst, Map(Staged(d, evidence), PublicItems(inventory)), ReceiptPair(evidence));
    assert Map(Fst, Map(Staged(d, evidence), PublicItems(inventory))) == Map(PublicName(d), PublicItems(inventory));
  }

  /** Staging an admitted receipt beside the core release never collides. */
  lemma StageSucceeds(d: Digests, version: string, matrix: seq<Target>, inventory: seq<Item>, evidence: Tree)
    requires Projectable(d, inventory, |Specs(matrix)|)
    ensures AllNew(CoreNames(version, matrix), StagedFiles(d, inventory, evidence))
  {
    hide PublicName, CoreNames, PublicItems, StagedFiles;
    var items := PublicItems(inventory);
    var names := Map(PublicName(d), items);
    StagedNames(d, inventory, evidence);
    forall n | n in names
      ensures n !in CoreNames(version, matrix) && n != RECEIPT && n != RECEIPT_BUNDLE
    {
      var k :| 0 <= k < |items| && names[k] == n;
      NamesApart(d, version, matrix, items[k]);
    }
    NamesApart(d, version, matrix, Item("", Report, "", "", 0));
    NoDupConcat(names, [RECEIPT, RECEIPT_BUNDLE]);
  }

  /** What the staged public directory holds. */
  lemma StagedRead(d: Digests, version: string, matrix: seq<Target>, inventory: seq<Item>, evidence: Tree, core: Tree)
    requires Projectable(d, inventory, |Specs(matrix)|) && core.Keys == CoreNames(version, matrix)
    ensures var public := Assign(core, StagedFiles(d, inventory, evidence));
      && public.Keys == ExpectedPublic(d, inventory, CoreNames(version, matrix))
      && (forall n :: n in core ==> public[n] == core[n])
      && (forall i :: i in PublicItems(inventory) ==> PublicName(d)(i) in public && public[PublicName(d)(i)] == Read(evidence, i.path))
      && Read(public, RECEIPT) == Read(evidence, RECEIPT) && Read(public, RECEIPT_BUNDLE) == Read(evidence, RECEIPT_BUNDLE)
  {
    hide PublicName, CoreNames, PublicItems;
    var files := StagedFiles(d, inventory, evidence);
    var items := PublicItems(inventory);
    StageSucceeds(d, version, matrix, inventory, evidence);
    StagedNames(d, inventory, evidence);
    AssignRead(core, files);
    ElemsConcat(Map(PublicName(d), items), [RECEIPT, RECEIPT_BUNDLE]);
    forall i | i in items
      ensures var public := Assign(core, files); PublicName(d)(i) in public && public[PublicName(d)(i)] == Read(evidence, i.path)
    {
      var k :| 0 <= k < |items| && items[k] == i;
      assert Map(Staged(d, evidence), items)[k] == (PublicName(d)(i), Read(evidence, i.path));
      assert files[k] == (PublicName(d)(i), Read(evidence, i.path));
      assert files[k] in files;
    }
    var n := |items|;
    assert files[n] == ReceiptPair(evidence)[0] && files[n + 1] == ReceiptPair(evidence)[1];
    assert files[n] in files && files[n + 1] in files;
  }

  lemma PublicCount(d: Digests, version: string, matrix: seq<Target>, inventory: seq<Item>)
    requires NoDup(matrix) && Admissible(matrix) && Projectable(d, inventory, |Specs(matrix)|)
    ensures |ExpectedPublic(d, inventory, CoreNames(version, matrix))| == AssetCount(matrix) + (23 + 3 * |Specs(matrix)| + 2)
  {
    hide PublicName, PublicItems;
    var core, names := CoreNames(version, matrix), Map(PublicName(d), PublicItems(inventory));
    StageSucceeds(d, version, matrix, inventory, map[]);
    StagedNames(d, inventory, map[]);
    MatrixSize(version, matrix);
    DistinctCount(names);
    NoDupConcat(names, [RECEIPT, RECEIPT_BUNDLE]);
    ThreeSets(core, Elems(names), {RECEIPT, RECEIPT_BUNDLE}, names);
    assert RECEIPT != RECEIPT_BUNDLE by { assert |RECEIPT| != |RECEIPT_BUNDLE|; }
  }

  lemma ThreeSets(a: set<string>, b: set<string>, c: set<string>, names: seq<string>)
    requires b == Elems(names) && (forall n :: n in names ==> n !in a && n !in c) && a !! c
    ensures |a + b + c| == |a| + |b| + |c|
  {
    assert a !! b && (a + b) !! c;
  }

  lemma RebuiltNames(d: Digests, inventory: seq<Item>, public: Tree)
    ensures Map(Fst, RebuiltFiles(d, inventory, public)) == Map(PathOf, inventory) + [RECEIPT, RECEIPT_BUNDLE]
  {
    hide SourceName;
    MapAppend(Fst, Map(Rebuilt(d, public), inventory), ReceiptPair(public));
    assert Map(Fst, Map(Rebuilt(d, public), inventory)) == Map(PathOf, inventory);
  }

  lemma RebuiltFresh(d: Digests, version: string, matrix: seq<Target>, inventory: seq<Item>, public: Tree)
    requires NoDup(Map(PathOf, inventory)) && (forall i :: i in inventory ==> PathAdmitted(version, Specs(matrix), i))
    ensures AllNew({}, RebuiltFiles(d, inventory, public))
  {
    hide PathAdmitted, RebuiltFiles, Specs;
    var paths := Map(PathOf, inventory);
    RebuiltNames(d, inventory, public);
    forall n | n in paths ensures n != RECEIPT && n != RECEIPT_BUNDLE {
      var k :| 0 <= k < |paths| && paths[k] == n;
      assert inventory[k] in inventory;
      PublicPath(version, Specs(matrix), inventory[k]);
    }
    assert |RECEIPT| != |RECEIPT_BUNDLE|;
    NoDupConcat(paths, [RECEIPT, RECEIPT_BUNDLE]);
  }

  /** Every file a receipt takes from the core release is the one it was issued for. */
  ghost predicate CoreMatches(d: Digests, inventory: seq<Item>, core: Tree) {
    forall i :: i in inventory && !IsPublic(i) ==> Basename(i.path) in core && Matches(d, i, core[Basename(i.path)])
  }

  lemma SourcesOfStaged(d: Digests, version: string, matrix: seq<Target>, inventory: seq<Item>, evidence: Tree, core: Tree)
    requires Projectable(d, inventory, |Specs(matrix)|) && core.Keys == CoreNames(version, matrix) && PlainNames(core.Keys)
    requires (forall i :: i in inventory ==> PathAdmitted(version, Specs(matrix), i)) && EvidenceComplete(d, inventory, evidence)
    ensures SourcesMatch(d, inventory, Assign(core, StagedFiles(d, inventory, evidence))) <==> CoreMatches(d, inventory, core)
    ensures forall i :: i in inventory && IsPublic(i) ==>
              Read(Assign(core, StagedFiles(d, inventory, evidence)), SourceName(d, i)) == evidence[i.path]
  {
    hide PathAdmitted, PublicName, CoreNames, StagedFiles, IsPublic, Assign, PlainNames, Specs;
    var public := Assign(core, StagedFiles(d, inventory, evidence));
    StagedRead(d, version, matrix, inventory, evidence, core);
    forall i | i in inventory
      ensures IsPublic(i) ==> SourceName(d, i) in public && public[SourceName(d, i)] == evidence[i.path]
      ensures !IsPublic(i) ==> SourceName(d, i) == Basename(i.path) && SourceName(d, i) in core && SourceName(d, i) in public
                               && public[SourceName(d, i)] == core[SourceName(d, i)]
    {
      if IsPublic(i) {
        SelectMembers(IsPublic, inventory, i);
        assert i in PublicItems(inventory);
      } else {
        CoreSource(d, version, matrix, i);
        assert SourceName(d, i) in core;
      }
    }
  }

  /** Staging an admitted receipt beside its release and rebuilding: the asset count holds, the
      rebuild succeeds exactly when the core files are the recorded ones, and it returns every path
      with the recorded digest and size, byte for byte outside the core files. */
  lemma RoundTrip(d: Digests, version: string, matrix: seq<Target>, inventory: seq<Item>, evidence: Tree, core: Tree)
    requires NoDup(matrix) && Admissible(matrix) && PlainMatrix(version, matrix) && Admitted(d, version, matrix, inventory)
    requires EvidenceComplete(d, inventory, evidence) && core.Keys == CoreNames(version, matrix)
    ensures AllNew(core.Keys, StagedFiles(d, inventory, evidence))
    ensures var public := Assign(core, StagedFiles(d, inventory, evidence));
      Rebuildable(d, inventory, |Specs(matrix)|, CoreNames(version, matrix), AssetCount(matrix), public) <==> CoreMatches(d, inventory, core)
    ensures var public := Assign(core, StagedFiles(d, inventory, evidence));
      CoreMatches(d, inventory, core) ==> Restored(d, evidence, Assign(map[], RebuiltFiles(d, inventory, public)))
    ensures Part(Assign(core, StagedFiles(d, inventory, evidence)), CoreNames(version, matrix)) == core
  {
    hide Admissible, AssetCount, PathAdmitted, PublicName, CoreNames, StagedFiles, RebuiltFiles, IsPublic, Assign, PlainNames, Specs,
      CoreMatches, SourcesMatch, AllNew, EvidenceComplete, Projectable, Restored;
    var public := Assign(core, StagedFiles(d, inventory, evidence));
    CoreNamesPlain(version, matrix);
    StageSucceeds(d, version, matrix, inventory, evidence);
    StagedRead(d, version, matrix, inventory, evidence, core);
    PublicCount(d, version, matrix, inventory);
    RebuiltFresh(d, version, matrix, inventory, public);
    SourcesOfStaged(d, version, matrix, inventory, evidence, core);
    if CoreMatches(d, inventory, core) {
      RestoredFiles(d, version, matrix, inventory, evidence, public);
    }
    PartOf(public, core);
  }

  lemma PartOf(public: Tree, core: Tree)
    requires core.Keys <= public.Keys && forall n :: n in core ==> public[n] == core[n]
    ensures Part(public, core.Keys) == core
  {
  }

  /** Same paths, same digests and sizes, same bytes wherever the path is not a core path. */
  ghost predicate Restored(d: Digests, evidence: Tree, rebuilt: Tree) {
    && rebuilt.Keys == evidence.Keys
    && (forall p :: p in evidence ==> d.sha256(rebuilt[p]) == d.sha256(evidence[p]) && |rebuilt[p]| == |evidence[p]|)
    && (forall p :: p in evidence && !StartsWith(p, CORE_PREFIX) ==> rebuilt[p] == evidence[p])
  }

  lemma RestoredFiles(d: Digests, version: string, matrix: seq<Target>, inventory: seq<Item>, evidence: Tree, public: Tree)
    requires EvidenceComplete(d, inventory, evidence) && SourcesMatch(d, inventory, public)
    requires AllNew({}, RebuiltFiles(d, inventory, public))
    requires Read(public, RECEIPT) == Read(evidence, RECEIPT) && Read(public, RECEIPT_BUNDLE) == Read(evidence, RECEIPT_BUNDLE)
    requires forall i :: i in inventory && IsPublic(i) ==> Read(public, SourceName(d, i)) == evidence[i.path]
    ensures Restored(d, evidence, Assign(map[], RebuiltFiles(d, inventory, public)))
  {
    hide RebuiltFiles, Assign, IsPublic, StartsWith, SourcesMatch, EvidenceComplete;
    var files := RebuiltFiles(d, inventory, public);
    var rebuilt := Assign(map[], files);
    var paths := Map(PathOf, inventory);
    RebuiltNames(d, inventory, public);
    AssignRead(map[], files);
    ElemsConcat(paths, [RECEIPT, RECEIPT_BUNDLE]);
    CompleteKeys(d, inventory, evidence);
    forall p | p in evidence
      ensures p in rebuilt && d.sha256(rebuilt[p]) == d.sha256(evidence[p]) && |rebuilt[p]| == |evidence[p]|
      ensures !StartsWith(p, CORE_PREFIX) ==> rebuilt[p] == evidence[p]
    {
      if p in paths {
        var k :| 0 <= k < |paths| && paths[k] == p;
        RestoredItem(d, inventory, evidence, public, files, k);
      } else {
        RestoredReceipts(d, inventory, public, files);
        assert p == RECEIPT || p == RECEIPT_BUNDLE;
      }
    }
  }

  lemma CompleteKeys(d: Digests, inventory: seq<Item>, evidence: Tree)
    requires EvidenceComplete(d, inventory, evidence)
    ensures evidence.Keys == Elems(Map(PathOf, inventory)) + {RECEIPT, RECEIPT_BUNDLE}
  {
  }

  lemma RestoredReceipts(d: Digests, inventory: seq<Item>, public: Tree, files: seq<(string, Bytes)>)
    requires files == RebuiltFiles(d, inventory, public)
    ensures (RECEIPT, Read(public, RECEIPT)) in files && (RECEIPT_BUNDLE, Read(public, RECEIPT_BUNDLE)) in files
  {
    hide SourceName;
    var n := |inventory|;
    assert files[n] == ReceiptPair(public)[0] && files[n + 1] == ReceiptPair(public)[1];
    assert files[n] in files && files[n + 1] in files;
  }

  lemma RestoredItem(d: Digests, inventory: seq<Item>, evidence: Tree, public: Tree, files: seq<(string, Bytes)>, k: nat)
    requires k < |inventory| && files == RebuiltFiles(d, inventory, public)
    requires EvidenceComplete(d, inventory, evidence) && SourcesMatch(d, inventory, public)
    requires forall i :: i in inventory && IsPublic(i) ==> Read(public, SourceName(d, i)) == evidence[i.path]
    ensures var i := inventory[k];
      && files[k] in files && files[k].0 == i.path && i.path in evidence
      && d.sha256(files[k].1) == d.sha256(evidence[i.path]) && |files[k].1| == |evidence[i.path]|
      && (!StartsWith(i.path, CORE_PREFIX) ==> files[k].1 == evidence[i.path])
  {
    hide SourceName;
    var i := inventory[k];
    assert i in inventory;
    assert files[k] == Map(Rebuilt(d, public), inventory)[k] == (i.path, Read(public, SourceName(d, i)));
  }

  /** Without digest collisions, staging a release whose core files are the recorded ones and
      rebuilding it gives back both directories, byte for byte. */
  lemma RoundTripExact(d: Digests, version: string, matrix: seq<Target>, inventory: seq<Item>, evidence: Tree, core: Tree)
    requires NoDup(matrix) && Admissible(matrix) && PlainMatrix(version, matrix) && Admitted(d, version, matrix, inventory)
    requires EvidenceComplete(d, inventory, evidence) && core.Keys == CoreNames(version, matrix) && CoreMatches(d, inventory, core)
    requires forall a, b :: d.sha256(a) == d.sha256(b) ==> a == b
    ensures var public := Assign(core, StagedFiles(d, inventory, evidence));
      && Rebuildable(d, inventory, |Specs(matrix)|, CoreNames(version, matrix), AssetCount(matrix), public)
      && Part(public, CoreNames(version, matrix)) == core && Assign(map[], RebuiltFiles(d, inventory, public)) == evidence
  {
    hide Admissible, AssetCount, PublicName, CoreNames, StagedFiles, RebuiltFiles, Assign, Specs, CoreMatches, AllNew, EvidenceComplete,
      Rebuildable, Admitted, Part;
    RoundTrip(d, version, matrix, inventory, evidence, core);
    RestoredExactly(d, evidence, Assign(map[], RebuiltFiles(d, inventory, Assign(core, StagedFiles(d, inventory, evidence)))));
  }

  lemma RestoredExactly(d: Digests, evidence: Tree, rebuilt: Tree)
    requires Restored(d, evidence, rebuilt) && forall a, b :: d.sha256(a) == d.sha256(b) ==> a == b
    ensures rebuilt == evidence
  {
  }
}
