/** `core_release_inventory` against `expected_core_asset_names` and `expected_core_asset_count`. */
module ReleaseInventory {
  import opened Sequences
  import opened Text
  import opened ReleaseManifest
  import opened CoreAssets

  // ----- The name part of `validate_manifest_shape` -----

  predicate ShapedFile(f: FileEntry, name: string) {
    f.filename == name && f.bundle == BundleName(name)
  }

  predicate ShapedTrio(a: ArtifactEntry, s: FileEntry, p: ProvenanceEntry, name: string) {
    && ShapedFile(a.file, name) && ShapedFile(s, SbomName(name)) && ShapedFile(p.file, ProvenanceName(name))
    && p.attestation == AttestationName(name)
  }

  predicate ShapedPackage(version: string, t: Target, p: PackageEntry, format: Format) {
    && p.format == format
    && ShapedTrio(p.artifact, p.sbom, p.provenance, PackageName(version, t, format))
    && match format
       case Deb => p.native.Unsigned?
       case Rpm => p.native.RpmVerified? && ShapedFile(p.native.evidence, PackageEvidenceName(t, Rpm))
                   && ShapedFile(p.native.publicKey, SigningKeyName(t))
       case Pkg => p.native.PkgVerified? && ShapedFile(p.native.evidence, PackageEvidenceName(t, Pkg))
  }

  /** A release-mode manifest target. */
  predicate ShapedTarget(version: string, e: TargetEntry) {
    var t := e.target;
    && ShapedTrio(e.artifact, e.sbom, e.provenance, ArtifactName(version, t))
    && |e.packages| == |Formats(t.os)|
    && (forall i :: 0 <= i < |e.packages| ==> ShapedPackage(version, t, e.packages[i], Formats(t.os)[i]))
    && match t.os
       case Linux => e.native.NotRequired?
       case Darwin => e.native.AppleVerified? && ShapedFile(e.native.evidence, ExecutableEvidenceName(t))
  }

  /** A local-unsigned manifest target: no packages and no native evidence. */
  predicate ShapedLocalTarget(version: string, e: TargetEntry) {
    && ShapedTrio(e.artifact, e.sbom, e.provenance, ArtifactName(version, e.target))
    && e.packages == []
    && e.native == if e.target.os.Linux? then NotRequired else NotPerformed
  }

  function TargetOf(e: TargetEntry): Target { e.target }

  predicate ShapedManifest(m: Manifest) {
    && m.manifestBundle == BundleName(MANIFEST) && m.checksumsBundle == BundleName(CHECKSUMS)
    && m.targets != [] && NoDup(Map(TargetOf, m.targets))
    && match m.mode
       case Release =>
         && m.metadata == Some(MetadataRef(RELEASE_METADATA, BundleName(RELEASE_METADATA)))
         && m.marker == None
         && forall e :: e in m.targets ==> ShapedTarget(m.context.version, e)
       case LocalUnsigned =>
         && m.metadata == None && m.marker == Some(LOCAL_MARKER)
         && forall e :: e in m.targets ==> ShapedLocalTarget(m.context.version, e)
  }

  // ----- A shaped target names exactly the matrix assets of its target -----

  ghost predicate ShapedFiles(fs: seq<FileEntry>, names: seq<string>) {
    |fs| == |names| && forall i :: 0 <= i < |fs| ==> ShapedFile(fs[i], names[i])
  }

  lemma ShapedFilesConcat(fs: seq<FileEntry>, names: seq<string>, fs': seq<FileEntry>, names': seq<string>)
    requires ShapedFiles(fs, names) && ShapedFiles(fs', names')
    ensures ShapedFiles(fs + fs', names + names')
  {
  }

  lemma ShapedFilesNames(fs: seq<FileEntry>, names: seq<string>)
    requires ShapedFiles(fs, names)
    ensures Map(FilenameOf, fs) == names
    ensures Map(Second, Map(Pair, fs)) == Map(BundleName, names)
  {
  }

  lemma PackageNames(version: string, t: Target, p: PackageEntry, format: Format)
    requires ShapedPackage(version, t, p, format)
    ensures ShapedFiles(PackageFiles(p),
                        Trio(PackageName(version, t, format))
                        + match format
                          case Deb => []
                          case Rpm => [PackageEvidenceName(t, Rpm), SigningKeyName(t)]
                          case Pkg => [PackageEvidenceName(t, Pkg)])
  {
    TrioFiles(p.artifact, p.sbom, p.provenance, PackageName(version, t, format));
    match format {
      case Deb =>
        ShapedFilesConcat([p.artifact.file, p.sbom, p.provenance.file], Trio(PackageName(version, t, Deb)), [], []);
      case Rpm =>
        PairFiles(p.native.evidence, PackageEvidenceName(t, Rpm), p.native.publicKey, SigningKeyName(t));
        ShapedFilesConcat([p.artifact.file, p.sbom, p.provenance.file], Trio(PackageName(version, t, Rpm)),
                          [p.native.evidence, p.native.publicKey], [PackageEvidenceName(t, Rpm), SigningKeyName(t)]);
      case Pkg =>
        OneFile(p.native.evidence, PackageEvidenceName(t, Pkg));
        ShapedFilesConcat([p.artifact.file, p.sbom, p.provenance.file], Trio(PackageName(version, t, Pkg)),
                          [p.native.evidence], [PackageEvidenceName(t, Pkg)]);
    }
  }

  lemma OneFile(f: FileEntry, name: string)
    requires ShapedFile(f, name)
    ensures ShapedFiles([f], [name])
  {
  }

  lemma PairFiles(f: FileEntry, name: string, g: FileEntry, name': string)
    requires ShapedFile(f, name) && ShapedFile(g, name')
    ensures ShapedFiles([f, g], [name, name'])
  {
  }

  lemma TrioFiles(a: ArtifactEntry, s: FileEntry, p: ProvenanceEntry, name: string)
    requires ShapedTrio(a, s, p, name)
    ensures ShapedFiles([a.file, s, p.file], Trio(name))
  {
  }

  lemma FlatMapOne<A, B>(f: A -> seq<B>, s: seq<A>)
    requires |s| == 1
    ensures FlatMap(f, s) == f(s[0])
  {
    assert FlatMap(f, s) == f(s[0]) + FlatMap(f, s[1..]);
  }

  lemma FlatMapTwo<A, B>(f: A -> seq<B>, s: seq<A>)
    requires |s| == 2
    ensures FlatMap(f, s) == f(s[0]) + f(s[1])
  {
    FlatMapOne(f, s[1..]);
  }

  lemma TargetNames(version: string, e: TargetEntry)
    requires ShapedTarget(version, e)
    ensures ShapedFiles(TargetFiles(e), ContentOf(version, e.target))
  {
    var t := e.target;
    var a := ArtifactName(version, t);
    var own := [e.artifact.file, e.sbom, e.provenance.file];
    TrioFiles(e.artifact, e.sbom, e.provenance, a);
    match t.os {
      case Linux =>
        var d, r := PackageName(version, t, Deb), PackageName(version, t, Rpm);
        FlatMapTwo(PackageFiles, e.packages);
        PackageNames(version, t, e.packages[0], Deb);
        PackageNames(version, t, e.packages[1], Rpm);
        JoinLinux(own, Trio(a), PackageFiles(e.packages[0]), Trio(d), PackageFiles(e.packages[1]), Trio(r),
                  [PackageEvidenceName(t, Rpm), SigningKeyName(t)]);
      case Darwin =>
        var p := PackageName(version, t, Pkg);
        FlatMapOne(PackageFiles, e.packages);
        PackageNames(version, t, e.packages[0], Pkg);
        OneFile(e.native.evidence, ExecutableEvidenceName(t));
        JoinDarwin(own, Trio(a), [e.native.evidence], [ExecutableEvidenceName(t)], PackageFiles(e.packages[0]),
                   Trio(p), [PackageEvidenceName(t, Pkg)]);
    }
  }

  lemma JoinLinux(own: seq<FileEntry>, a: seq<string>, pd: seq<FileEntry>, d: seq<string>, pr: seq<FileEntry>,
                  r: seq<string>, ek: seq<string>)
    requires ShapedFiles(own, a) && ShapedFiles(pd, d + []) && ShapedFiles(pr, r + ek)
    ensures ShapedFiles(own + [] + (pd + pr), a + d + r + ek)
  {
    assert d + [] == d && own + [] == own;
    ShapedFilesConcat(pd, d, pr, r + ek);
    ShapedFilesConcat(own, a, pd + pr, d + (r + ek));
    assert a + (d + (r + ek)) == a + d + r + ek;
  }

  lemma JoinDarwin(own: seq<FileEntry>, a: seq<string>, native: seq<FileEntry>, n: seq<string>, pp: seq<FileEntry>,
                   p: seq<string>, e: seq<string>)
    requires ShapedFiles(own, a) && ShapedFiles(native, n) && ShapedFiles(pp, p + e)
    ensures ShapedFiles(own + native + pp, a + n + p + e)
  {
    ShapedFilesConcat(own, a, native, n);
    ShapedFilesConcat(own + native, a + n, pp, p + e);
    assert a + n + (p + e) == a + n + p + e;
  }

  lemma TargetAttested(version: string, e: TargetEntry)
    requires ShapedTarget(version, e)
    ensures Map(Second, TargetAttestations(e)) == Map(AttestationName, AttestedOf(version, e.target))
  {
    if e.target.os.Linux? {
      FlatMapTwo(PackageAttestation, e.packages);
    } else {
      FlatMapOne(PackageAttestation, e.packages);
    }
  }

  // ----- Whole manifests -----

  function Matrix(m: Manifest): seq<Target> { Map(TargetOf, m.targets) }

  lemma {:induction false} TargetsNames(version: string, es: seq<TargetEntry>)
    requires forall e :: e in es ==> ShapedTarget(version, e)
    ensures ShapedFiles(FlatMap(TargetFiles, es), FlatMap(ContentAt(version), Map(TargetOf, es)))
    ensures Map(Second, FlatMap(TargetAttestations, es))
         == Map(AttestationName, FlatMap(AttestedAt(version), Map(TargetOf, es)))
  {
    if es != [] {
      var rest := es[1..];
      TargetsNames(version, rest);
      TargetNames(version, es[0]);
      TargetAttested(version, es[0]);
      assert Map(TargetOf, es)[1..] == Map(TargetOf, rest);
      assert Map(TargetOf, es)[0] == es[0].target;
      ShapedFilesConcat(TargetFiles(es[0]), ContentOf(version, es[0].target), FlatMap(TargetFiles, rest),
                        FlatMap(ContentAt(version), Map(TargetOf, rest)));
      MapAppend(Second, TargetAttestations(es[0]), FlatMap(TargetAttestations, rest));
      MapAppend(AttestationName, AttestedOf(version, es[0].target), FlatMap(AttestedAt(version), Map(TargetOf, rest)));
    }
  }

  /** The manifest-driven inventory of a shaped release manifest is a reordering of the matrix. */
  lemma InventoryIsMatrix(m: Manifest)
    requires ShapedManifest(m) && m.mode.Release?
    ensures multiset(InventoryNames(m)) == multiset(MatrixAssets(m.context.version, Matrix(m)))
  {
    var version := m.context.version;
    var files := FlatMap(TargetFiles, m.targets);
    var content := FlatMap(ContentAt(version), Matrix(m));
    var attested := FlatMap(AttestedAt(version), Matrix(m));
    TargetsNames(version, m.targets);
    ShapedFilesNames(files, content);
    MatrixPartition(version, Matrix(m));
    BlobBundles(m);
    RegroupFixed([RELEASE_METADATA], content, [MANIFEST], [CHECKSUMS], FixedBundles(), Map(BundleName, content),
            Map(AttestationName, attested));
    assert multiset(MatrixAssets(version, Matrix(m)))
        == multiset(FixedAssets()) + multiset(FlatMap(AssetsOf(version), Matrix(m)));
  }

  lemma BlobBundles(m: Manifest)
    requires ShapedManifest(m) && m.mode.Release?
    ensures Map(Second, Blobs(m)) == FixedBundles() + Map(Second, Map(Pair, FlatMap(TargetFiles, m.targets)))
    ensures ContentHead(m) == [RELEASE_METADATA]
  {
    var head := [(MANIFEST, m.manifestBundle), (CHECKSUMS, m.checksumsBundle)];
    var meta := [(m.metadata.value.filename, m.metadata.value.bundle)];
    MapAppend(Second, head + meta, Map(Pair, FlatMap(TargetFiles, m.targets)));
  }

  lemma RegroupFixed<T>(a: seq<T>, x: seq<T>, b: seq<T>, c: seq<T>, d: seq<T>, y: seq<T>, z: seq<T>)
    ensures multiset(a + x + b + c + (d + y) + z) == multiset(a + b + c + d) + (multiset(x) + multiset(y) + multiset(z))
  {
  }

  // ----- `expected_core_asset_count` and `expected_core_asset_names` -----

  function CountOs(matrix: seq<Target>, os: Os): nat {
    if matrix == [] then 0 else (if matrix[0].os == os then 1 else 0) + CountOs(matrix[1..], os)
  }

  function AssetCount(matrix: seq<Target>): nat {
    6 + 25 * CountOs(matrix, Linux) + 18 * CountOs(matrix, Darwin)
  }

  lemma {:induction false} CountOsStep(matrix: seq<Target>, i: nat, os: Os)
    requires i < |matrix|
    ensures CountOs(matrix[..i + 1], os) == CountOs(matrix[..i], os) + if matrix[i].os == os then 1 else 0
  {
    if i > 0 {
      CountOsStep(matrix[1..], i - 1, os);
      assert matrix[..i + 1][1..] == matrix[1..][..i] && matrix[..i][1..] == matrix[1..][..i - 1];
    }
  }

  /** The three running totals add up to 6 + 25 per Linux target + 18 per Darwin target. */
  method ExpectedCoreAssetCount(matrix: seq<Target>) returns (count: nat)
    ensures count == AssetCount(matrix)
  {
    var total, blobInputs, attestations := 3, 3, 0;
    for i := 0 to |matrix|
      invariant total == blobInputs == 3 + 11 * CountOs(matrix[..i], Linux) + 8 * CountOs(matrix[..i], Darwin)
      invariant attestations == 3 * CountOs(matrix[..i], Linux) + 2 * CountOs(matrix[..i], Darwin)
    {
      ghost var start, startAttestations := total, attestations;
      total, blobInputs, attestations := total + 3, blobInputs + 3, attestations + 1;
      var formats := [Deb, Rpm];
      if matrix[i].os == Darwin {
        total, blobInputs := total + 1, blobInputs + 1;
        formats := [Pkg];
      }
      for j := 0 to |formats|
        invariant blobInputs == total
        invariant formats == [Deb, Rpm] ==> total == start + [3, 6, 11][j]
        invariant formats == [Pkg] ==> total == start + [4, 8][j]
        invariant attestations == startAttestations + 1 + j
      {
        total, blobInputs, attestations := total + 3, blobInputs + 3, attestations + 1;
        if formats[j] in {Rpm, Pkg} { total, blobInputs := total + 1, blobInputs + 1; }
        if formats[j] == Rpm { total, blobInputs := total + 1, blobInputs + 1; }
      }
      CountOsStep(matrix, i, Linux);
      CountOsStep(matrix, i, Darwin);
    }
    assert matrix[..|matrix|] == matrix;
    count := total + blobInputs + attestations;
  }

  lemma TargetAssetCount(version: string, t: Target)
    ensures |TargetAssets(version, t)| == if t.os.Linux? then 25 else 18
  {
  }

  lemma {:induction false} MatrixAssetCount(version: string, matrix: seq<Target>)
    ensures |MatrixAssets(version, matrix)| == AssetCount(matrix)
  {
    TargetsAssetCount(version, matrix);
  }

  lemma {:induction false} TargetsAssetCount(version: string, matrix: seq<Target>)
    ensures |FlatMap(AssetsOf(version), matrix)| == AssetCount(matrix) - 6
  {
    if matrix != [] {
      TargetAssetCount(version, matrix[0]);
      TargetsAssetCount(version, matrix[1..]);
    }
  }

  function FormatContent(version: string, t: Target): Format -> seq<string> {
    format =>
      Trio(PackageName(version, t, format))
      + (if format in {Rpm, Pkg} then [PackageEvidenceName(t, format)] else [])
      + (if format == Rpm then [SigningKeyName(t)] else [])
  }

  /** `names.update(...)` once per item. */
  method CollectNames<A>(f: A -> seq<string>, items: seq<A>) returns (names: set<string>)
    ensures names == Elems(FlatMap(f, items))
  {
    names := {};
    for j := 0 to |items|
      invariant names == Elems(FlatMap(f, items[..j]))
    {
      names := names + Elems(f(items[j]));
      FlatMapStep(f, items, j);
      ElemsConcat(FlatMap(f, items[..j]), f(items[j]));
    }
    assert items[..|items|] == items;
  }

  /** The content files and attestation bundles one target contributes to the name sets. */
  method TargetCoreNames(version: string, t: Target) returns (files: set<string>, attestations: set<string>)
    ensures files == Elems(ContentOf(version, t))
    ensures attestations == Elems(Map(AttestationName, AttestedOf(version, t)))
  {
    var artifact := ArtifactName(version, t);
    files, attestations := Elems(Trio(artifact)), {AttestationName(artifact)};
    if t.os == Darwin { files := files + {ExecutableEvidenceName(t)}; }
    var packageFiles := CollectNames(FormatContent(version, t), Formats(t.os));
    var packageBundles := CollectNames(FormatAttestation(version, t), Formats(t.os));
    files, attestations := files + packageFiles, attestations + packageBundles;
    ContentByFormat(version, t);
    AttestedByFormat(version, t);
  }

  function FormatAttestation(version: string, t: Target): Format -> seq<string> {
    format => [AttestationName(PackageName(version, t, format))]
  }

  lemma MapTwo<A, B>(f: A -> B, x: A, y: A)
    ensures Map(f, [x, y]) == [f(x), f(y)]
  {
  }

  lemma AttestedByFormat(version: string, t: Target)
    ensures Elems(Map(AttestationName, AttestedOf(version, t)))
         == {AttestationName(ArtifactName(version, t))} + Elems(FlatMap(FormatAttestation(version, t), Formats(t.os)))
  {
    var f := FormatAttestation(version, t);
    if t.os.Linux? {
      FlatMapTwo(f, [Deb, Rpm]);
      MapThree(AttestationName, ArtifactName(version, t), PackageName(version, t, Deb), PackageName(version, t, Rpm));
    } else {
      FlatMapOne(f, [Pkg]);
      MapTwo(AttestationName, ArtifactName(version, t), PackageName(version, t, Pkg));
    }
  }

  lemma ContentByFormat(version: string, t: Target)
    ensures Elems(ContentOf(version, t))
         == Elems(Trio(ArtifactName(version, t))) + (if t.os.Darwin? then {ExecutableEvidenceName(t)} else {})
            + Elems(FlatMap(FormatContent(version, t), Formats(t.os)))
  {
    var f := FormatContent(version, t);
    if t.os.Linux? {
      FlatMapTwo(f, [Deb, Rpm]);
    } else {
      FlatMapOne(f, [Pkg]);
    }
  }

  /** The loop of `expected_core_asset_names`: all content files and attestation bundles. */
  method MatrixCoreNames(version: string, matrix: seq<Target>) returns (files: set<string>, attestations: set<string>)
    ensures files == Elems(FlatMap(ContentAt(version), matrix))
    ensures attestations == Elems(Map(AttestationName, FlatMap(AttestedAt(version), matrix)))
  {
    files, attestations := {}, {};
    for i := 0 to |matrix|
      invariant files == Elems(FlatMap(ContentAt(version), matrix[..i]))
      invariant attestations == Elems(Map(AttestationName, FlatMap(AttestedAt(version), matrix[..i])))
    {
      var f, a := TargetCoreNames(version, matrix[i]);
      files, attestations := files + f, attestations + a;
      ContentStep(ContentAt(version), matrix, i);
      AttestationStep(AttestedAt(version), matrix, i);
    }
    assert matrix[..|matrix|] == matrix;
  }

  lemma ContentStep(f: Target -> seq<string>, matrix: seq<Target>, i: nat)
    requires i < |matrix|
    ensures Elems(FlatMap(f, matrix[..i + 1])) == Elems(FlatMap(f, matrix[..i])) + Elems(f(matrix[i]))
  {
    FlatMapStep(f, matrix, i);
    ElemsConcat(FlatMap(f, matrix[..i]), f(matrix[i]));
  }

  lemma AttestationStep(f: Target -> seq<string>, matrix: seq<Target>, i: nat)
    requires i < |matrix|
    ensures Elems(Map(AttestationName, FlatMap(f, matrix[..i + 1])))
         == Elems(Map(AttestationName, FlatMap(f, matrix[..i]))) + Elems(Map(AttestationName, f(matrix[i])))
  {
    FlatMapStep(f, matrix, i);
    MapAppend(AttestationName, FlatMap(f, matrix[..i]), f(matrix[i]));
    ElemsConcat(Map(AttestationName, FlatMap(f, matrix[..i])), Map(AttestationName, f(matrix[i])));
  }

  /** The closed form succeeds exactly on duplicate-free, admissible matrices, with their assets. */
  method ExpectedCoreAssetNames(version: string, matrix: seq<Target>) returns (r: Option<set<string>>)
    ensures r.Some? <==> NoDup(matrix) && Admissible(matrix)
    ensures r.Some? ==> r.value == Elems(MatrixAssets(version, matrix)) && |r.value| == AssetCount(matrix)
  {
    var files, attestations := MatrixCoreNames(version, matrix);
    var inputs := {MANIFEST, RELEASE_METADATA, CHECKSUMS};
    var names := inputs + files + (set n | n in inputs + files :: BundleName(n)) + attestations;
    var expected := ExpectedCoreAssetCount(matrix);
    FixedElems();
    CollectedNames(version, matrix, inputs, names);
    Counted(version, matrix);
    r := if |names| != expected then None else Some(names);
  }

  lemma Counted(version: string, matrix: seq<Target>)
    ensures |Elems(MatrixAssets(version, matrix))| == AssetCount(matrix) <==> NoDup(matrix) && Admissible(matrix)
  {
    MatrixAssetCount(version, matrix);
    DistinctCount(MatrixAssets(version, matrix));
    MatrixDistinct(version, matrix);
  }

  lemma CollectedNames(version: string, matrix: seq<Target>, inputs: set<string>, names: set<string>)
    requires Elems(FixedAssets()) == inputs + (set n | n in inputs :: BundleName(n))
    requires names == (inputs + Elems(FlatMap(ContentAt(version), matrix)))
                      + (set n | n in inputs + Elems(FlatMap(ContentAt(version), matrix)) :: BundleName(n))
                      + Elems(Map(AttestationName, FlatMap(AttestedAt(version), matrix)))
    ensures names == Elems(MatrixAssets(version, matrix))
  {
    MatrixPartition(version, matrix);
    Collected(FixedAssets(), inputs, FlatMap(AssetsOf(version), matrix),
              FlatMap(ContentAt(version), matrix), FlatMap(AttestedAt(version), matrix), names);
  }

  lemma Collected(fixed: seq<string>, inputs: set<string>, assets: seq<string>, content: seq<string>,
                  attested: seq<string>, names: set<string>)
    requires Elems(fixed) == inputs + (set n | n in inputs :: BundleName(n)) && Covers(assets, content, attested)
    requires names == (inputs + Elems(content)) + (set n | n in inputs + Elems(content) :: BundleName(n))
                      + Elems(Map(AttestationName, attested))
    ensures names == Elems(fixed + assets)
  {
    CoversElems(assets, content, attested);
    BundlesUnion(inputs, Elems(content));
    ElemsConcat(fixed, assets);
    assert (set n | n in content :: BundleName(n)) == (set n | n in Elems(content) :: BundleName(n));
  }

  lemma ElemsConcat<T>(a: seq<T>, b: seq<T>)
    ensures Elems(a + b) == Elems(a) + Elems(b)
  {
  }

  lemma BundlesUnion(a: set<string>, b: set<string>)
    ensures (set n | n in a + b :: BundleName(n)) == (set n | n in a :: BundleName(n)) + (set n | n in b :: BundleName(n))
  {
  }

  lemma FixedElems()
    ensures Elems(FixedAssets()) == {MANIFEST, RELEASE_METADATA, CHECKSUMS}
                                    + (set n | n in {MANIFEST, RELEASE_METADATA, CHECKSUMS} :: BundleName(n))
  {
    var bundles := set n | n in {MANIFEST, RELEASE_METADATA, CHECKSUMS} :: BundleName(n);
    assert bundles == Elems(FixedBundles()) by {
      assert FixedBundles()[0] == BundleName(MANIFEST) && FixedBundles()[1] == BundleName(CHECKSUMS)
          && FixedBundles()[2] == BundleName(RELEASE_METADATA);
    }
    ElemsConcat([RELEASE_METADATA] + [MANIFEST] + [CHECKSUMS], FixedBundles());
    assert Elems([RELEASE_METADATA] + [MANIFEST] + [CHECKSUMS]) == {MANIFEST, RELEASE_METADATA, CHECKSUMS};
  }

  lemma CoversElems(all: seq<string>, content: seq<string>, attested: seq<string>)
    requires Covers(all, content, attested)
    ensures Elems(all) == Elems(content) + (set n | n in content :: BundleName(n)) + Elems(Map(AttestationName, attested))
  {
    forall x ensures x in all <==> x in content || x in Map(BundleName, content) || x in Map(AttestationName, attested) {
      assert x in all <==> x in multiset(all);
    }
    assert Elems(Map(BundleName, content)) == set n | n in content :: BundleName(n);
  }

  // ----- The theorem -----

  /** `core_release_inventory` up to reading the files: the sorted names, or the duplicate error. */
  method CoreInventoryNames(m: Manifest) returns (r: Option<seq<string>>)
    ensures r.Some? <==> NoDup(InventoryNames(m))
    ensures r.Some? ==> r.value == SortedNames(InventoryNames(m))
  {
    var content := ExpectedContentFiles(m);
    var blobs, attestations := SigningPlan(m);
    var names := content + [CHECKSUMS] + Map(Second, blobs) + Map(Second, attestations);
    assert multiset(names) == multiset(InventoryNames(m));
    NoDupPermutation(names, InventoryNames(m));
    DistinctCount(names);
    SortedNamesEqual(names, InventoryNames(m));
    r := if |names| != |Elems(names)| then None else Some(SortedNames(names));
  }

  /** For every shaped release manifest and any ordering of its matrix, the manifest-driven
      inventory is duplicate-free exactly on admissible tokens; then it is the closed-form set. */
  lemma InventoryAgrees(m: Manifest, matrix: seq<Target>)
    requires ShapedManifest(m) && m.mode.Release? && multiset(matrix) == multiset(Matrix(m))
    ensures NoDup(InventoryNames(m)) <==> Admissible(matrix)
    ensures Elems(InventoryNames(m)) == Elems(MatrixAssets(m.context.version, matrix))
    ensures Admissible(matrix) ==> |Elems(InventoryNames(m))| == AssetCount(matrix)
  {
    InventoryDistinct(m);
    NoDupPermutation(matrix, Matrix(m));
    AdmissibleOrder(matrix, Matrix(m));
    MatrixElems(m.context.version, matrix, Matrix(m));
    MatrixSize(m.context.version, matrix);
  }

  lemma InventoryDistinct(m: Manifest)
    requires ShapedManifest(m) && m.mode.Release?
    ensures NoDup(InventoryNames(m)) <==> Admissible(Matrix(m))
    ensures Elems(InventoryNames(m)) == Elems(MatrixAssets(m.context.version, Matrix(m)))
  {
    InventoryIsMatrix(m);
    NoDupPermutation(InventoryNames(m), MatrixAssets(m.context.version, Matrix(m)));
    MatrixDistinct(m.context.version, Matrix(m));
  }

  lemma MatrixSize(version: string, matrix: seq<Target>)
    requires NoDup(matrix)
    ensures Admissible(matrix) ==> |Elems(MatrixAssets(version, matrix))| == AssetCount(matrix)
  {
    MatrixDistinct(version, matrix);
    DistinctCount(MatrixAssets(version, matrix));
    MatrixAssetCount(version, matrix);
  }

  lemma AdmissibleOrder(a: seq<Target>, b: seq<Target>)
    requires Elems(a) == Elems(b)
    ensures Admissible(a) <==> Admissible(b)
  {
    AdmissibleByElements(a);
    AdmissibleByElements(b);
    assert forall t :: t in a <==> t in Elems(a);
    assert forall t :: t in b <==> t in Elems(b);
  }

  lemma AdmissibleByElements(matrix: seq<Target>)
    ensures Admissible(matrix) <==> forall t, u :: t in matrix && u in matrix ==> !Imitates(t, u)
  {
    if Admissible(matrix) {
      forall t, u | t in matrix && u in matrix ensures !Imitates(t, u) {
        var i :| 0 <= i < |matrix| && matrix[i] == t;
        var j :| 0 <= j < |matrix| && matrix[j] == u;
      }
    }
  }

  lemma MatrixElems(version: string, a: seq<Target>, b: seq<Target>)
    requires Elems(a) == Elems(b)
    ensures Elems(MatrixAssets(version, a)) == Elems(MatrixAssets(version, b))
  {
    forall name ensures name in FlatMap(AssetsOf(version), a) <==> name in FlatMap(AssetsOf(version), b) {
      FlatMapContains(AssetsOf(version), a, name);
      FlatMapContains(AssetsOf(version), b, name);
      if i :| 0 <= i < |a| && name in AssetsOf(version)(a[i]) {
        assert a[i] in Elems(b);
        var j :| 0 <= j < |b| && b[j] == a[i];
      }
      if i :| 0 <= i < |b| && name in AssetsOf(version)(b[i]) {
        assert b[i] in Elems(a);
        var j :| 0 <= j < |a| && a[j] == b[i];
      }
    }
    ElemsConcat(FixedAssets(), FlatMap(AssetsOf(version), a));
    ElemsConcat(FixedAssets(), FlatMap(AssetsOf(version), b));
  }
}
