/** The release manifest of connector/release/release.py and the names it enumerates. */
module ReleaseManifest {
  import opened Sequences
  import opened Text

  const WORK_STATE := ".release-work.json"
  const LOCAL_MARKER := "RELEASE-NOT-FOR-DISTRIBUTION"
  const MANIFEST := "manifest.json"
  const CHECKSUMS := "SHA256SUMS"
  const RELEASE_METADATA := "connector-release-metadata.json"
  const PRODUCT := "sub2api-codex-connector"

  datatype Os = Linux | Darwin
  datatype Format = Deb | Rpm | Pkg
  datatype Mode = Release | LocalUnsigned
  datatype Target = Target(os: Os, arch: string)

  function OsName(os: Os): string { if os.Linux? then "linux" else "darwin" }

  function FormatName(format: Format): string {
    match format case Deb => "deb" case Rpm => "rpm" case Pkg => "pkg"
  }

  function Formats(os: Os): seq<Format> { if os.Darwin? then [Pkg] else [Deb, Rpm] }

  function TargetId(t: Target): string { OsName(t.os) + "-" + t.arch }

  function ArtifactStem(version: string, os: Os): string {
    PRODUCT + "_" + version + "_" + OsName(os) + "_"
  }

  function ArtifactName(version: string, t: Target): string { ArtifactStem(version, t.os) + t.arch }

  function PackageName(version: string, t: Target, format: Format): string {
    ArtifactName(version, t) + "." + FormatName(format)
  }

  function SbomName(file: string): string { file + ".spdx.json" }
  function ProvenanceName(file: string): string { file + ".intoto.json" }
  function AttestationName(file: string): string { file + ".intoto.sigstore.json" }
  function BundleName(file: string): string { file + ".sigstore.json" }
  function ExecutableEvidenceName(t: Target): string { "native-" + TargetId(t) + ".json" }
  function PackageEvidenceName(t: Target, format: Format): string {
    "native-package-" + TargetId(t) + "-" + FormatName(format) + ".json"
  }
  function SigningKeyName(t: Target): string { "rpm-signing-" + TargetId(t) + ".asc" }

  datatype FileEntry = FileEntry(filename: string, sha256: string, size: nat, bundle: string)
  datatype ArtifactEntry = ArtifactEntry(file: FileEntry, candidateSha256: string, candidateSize: nat)
  datatype ProvenanceEntry = ProvenanceEntry(file: FileEntry, attestation: string)

  /** `native_signature` of an executable; only a verified Apple signature carries evidence. */
  datatype Native =
    | NotRequired
    | NotPerformed
    | AppleVerified(team: string, identity: string, evidence: FileEntry)

  datatype PackageNative =
    | Unsigned
    | RpmVerified(fingerprint: string, evidence: FileEntry, publicKey: FileEntry)
    | PkgVerified(team: string, application: string, installer: string, evidence: FileEntry)

  datatype PackageEntry = PackageEntry(
    format: Format, artifact: ArtifactEntry, sbom: FileEntry, provenance: ProvenanceEntry, native: PackageNative)

  datatype TargetEntry = TargetEntry(
    target: Target, artifact: ArtifactEntry, sbom: FileEntry, provenance: ProvenanceEntry,
    native: Native, packages: seq<PackageEntry>)

  /** Identity of the source, the toolchain and the build run. */
  datatype Context = Context(
    version: string, protocol: int, codex: string, schema: string, serverMinimum: string, serverMaximum: string,
    repository: string, commit: string, snapshot: string, goVersion: string, epoch: nat,
    builder: string, invocation: string, started: string, finished: string)

  datatype MetadataRef = MetadataRef(filename: string, bundle: string)

  datatype Manifest = Manifest(
    mode: Mode, context: Context, targets: seq<TargetEntry>, marker: Option<string>,
    metadata: Option<MetadataRef>, manifestBundle: string, checksumsBundle: string)

  // ----- The names a manifest enumerates -----

  function NativeEvidence(n: Native): seq<FileEntry> {
    match n
    case AppleVerified(_, _, evidence) => [evidence]
    case _ => []
  }

  function PackageNativeFiles(n: PackageNative): seq<FileEntry> {
    match n
    case Unsigned => []
    case RpmVerified(_, evidence, publicKey) => [evidence, publicKey]
    case PkgVerified(_, _, _, evidence) => [evidence]
  }

  function PackageFiles(p: PackageEntry): seq<FileEntry> {
    [p.artifact.file, p.sbom, p.provenance.file] + PackageNativeFiles(p.native)
  }

  function TargetFiles(t: TargetEntry): seq<FileEntry> {
    [t.artifact.file, t.sbom, t.provenance.file] + NativeEvidence(t.native) + FlatMap(PackageFiles, t.packages)
  }

  function FilenameOf(f: FileEntry): string { f.filename }
  function Pair(f: FileEntry): (string, string) { (f.filename, f.bundle) }
  function First(p: (string, string)): string { p.0 }
  function Second(p: (string, string)): string { p.1 }

  /** Every content file of a manifest; `expected_content_files` returns these sorted. */
  function ContentNames(m: Manifest): seq<string> {
    ContentHead(m) + Map(FilenameOf, FlatMap(TargetFiles, m.targets)) + [MANIFEST]
  }

  function ContentHead(m: Manifest): seq<string> {
    (if m.marker.Some? then [m.marker.value] else [])
    + (if m.metadata.Some? then [m.metadata.value.filename] else [])
  }

  /** (input, bundle) pairs of the provenance attestations. */
  function PackageAttestation(p: PackageEntry): seq<(string, string)> {
    [(p.provenance.file.filename, p.provenance.attestation)]
  }

  function TargetAttestations(t: TargetEntry): seq<(string, string)> {
    [(t.provenance.file.filename, t.provenance.attestation)] + FlatMap(PackageAttestation, t.packages)
  }

  function Attestations(m: Manifest): seq<(string, string)> { FlatMap(TargetAttestations, m.targets) }

  /** (input, bundle) pairs of the blob signatures. */
  function Blobs(m: Manifest): seq<(string, string)> {
    [(MANIFEST, m.manifestBundle), (CHECKSUMS, m.checksumsBundle)]
    + (if m.metadata.Some? then [(m.metadata.value.filename, m.metadata.value.bundle)] else [])
    + Map(Pair, FlatMap(TargetFiles, m.targets))
  }

  /** The file names one target adds, as the inner loop of `expected_content_files` collects them. */
  method TargetContent(t: TargetEntry) returns (names: seq<string>)
    ensures names == Map(FilenameOf, TargetFiles(t))
  {
    names := [t.artifact.file.filename, t.sbom.filename, t.provenance.file.filename];
    if t.native.AppleVerified? { names := names + [t.native.evidence.filename]; }
    ghost var own := [t.artifact.file, t.sbom, t.provenance.file] + NativeEvidence(t.native);
    for j := 0 to |t.packages|
      invariant names == Map(FilenameOf, own + FlatMap(PackageFiles, t.packages[..j]))
    {
      var p := t.packages[j];
      var added := [p.artifact.file.filename, p.sbom.filename, p.provenance.file.filename];
      if p.native.RpmVerified? { added := added + [p.native.evidence.filename, p.native.publicKey.filename]; }
      if p.native.PkgVerified? { added := added + [p.native.evidence.filename]; }
      assert added == Map(FilenameOf, PackageFiles(p));
      names := names + added;
      StepUnder(FilenameOf, own, PackageFiles, t.packages, j);
    }
    assert t.packages[..|t.packages|] == t.packages;
  }

  /** `expected_content_files`. */
  method ExpectedContentFiles(m: Manifest) returns (sorted: seq<string>)
    ensures sorted == SortedNames(ContentNames(m))
  {
    var head: seq<string> := [];
    if m.marker.Some? { head := head + [m.marker.value]; }
    if m.metadata.Some? { head := head + [m.metadata.value.filename]; }
    assert head == ContentHead(m);
    var names: seq<string> := [];
    for i := 0 to |m.targets|
      invariant names == Map(FilenameOf, [] + FlatMap(TargetFiles, m.targets[..i]))
    {
      var added := TargetContent(m.targets[i]);
      names := names + added;
      StepUnder(FilenameOf, [], TargetFiles, m.targets, i);
    }
    assert names == Map(FilenameOf, FlatMap(TargetFiles, m.targets)) by {
      assert m.targets[..|m.targets|] == m.targets;
      assert [] + FlatMap(TargetFiles, m.targets) == FlatMap(TargetFiles, m.targets);
    }
    sorted := SortedNames(head + names + [MANIFEST]);
  }

  lemma StepUnder<A, B, C>(g: B -> C, own: seq<B>, f: A -> seq<B>, s: seq<A>, i: nat)
    requires i < |s|
    ensures Map(g, own + FlatMap(f, s[..i + 1])) == Map(g, own + FlatMap(f, s[..i])) + Map(g, f(s[i]))
  {
    FlatMapStep(f, s, i);
    assert own + (FlatMap(f, s[..i]) + f(s[i])) == (own + FlatMap(f, s[..i])) + f(s[i]);
    MapAppend(g, own + FlatMap(f, s[..i]), f(s[i]));
  }

  method TargetPlan(t: TargetEntry) returns (blobs: seq<(string, string)>, attestations: seq<(string, string)>)
    ensures blobs == Map(Pair, TargetFiles(t))
    ensures attestations == TargetAttestations(t)
  {
    blobs := [Pair(t.artifact.file), Pair(t.sbom), Pair(t.provenance.file)];
    if t.native.AppleVerified? { blobs := blobs + [Pair(t.native.evidence)]; }
    attestations := [(t.provenance.file.filename, t.provenance.attestation)];
    ghost var own := [t.artifact.file, t.sbom, t.provenance.file] + NativeEvidence(t.native);
    for j := 0 to |t.packages|
      invariant blobs == Map(Pair, own + FlatMap(PackageFiles, t.packages[..j]))
      invariant attestations == [(t.provenance.file.filename, t.provenance.attestation)]
                                + FlatMap(PackageAttestation, t.packages[..j])
    {
      var p := t.packages[j];
      var added := [Pair(p.artifact.file), Pair(p.sbom), Pair(p.provenance.file)];
      if p.native.RpmVerified? { added := added + [Pair(p.native.evidence), Pair(p.native.publicKey)]; }
      if p.native.PkgVerified? { added := added + [Pair(p.native.evidence)]; }
      assert added == Map(Pair, PackageFiles(p));
      blobs := blobs + added;
      attestations := attestations + [(p.provenance.file.filename, p.provenance.attestation)];
      StepUnder(Pair, own, PackageFiles, t.packages, j);
      FlatMapStep(PackageAttestation, t.packages, j);
    }
    assert t.packages[..|t.packages|] == t.packages;
  }

  method TargetPlans(targets: seq<TargetEntry>) returns (blobs: seq<(string, string)>, attestations: seq<(string, string)>)
    ensures blobs == Map(Pair, FlatMap(TargetFiles, targets))
    ensures attestations == FlatMap(TargetAttestations, targets)
  {
    blobs, attestations := [], [];
    for i := 0 to |targets|
      invariant blobs == Map(Pair, FlatMap(TargetFiles, targets[..i]))
      invariant attestations == FlatMap(TargetAttestations, targets[..i])
    {
      var b, a := TargetPlan(targets[i]);
      blobs, attestations := blobs + b, attestations + a;
      FlatMapStep(TargetFiles, targets, i);
      MapAppend(Pair, FlatMap(TargetFiles, targets[..i]), TargetFiles(targets[i]));
      FlatMapStep(TargetAttestations, targets, i);
    }
    assert targets[..|targets|] == targets;
  }

  /** `signing_plan`. */
  method SigningPlan(m: Manifest) returns (blobs: seq<(string, string)>, attestations: seq<(string, string)>)
    ensures blobs == Blobs(m)
    ensures attestations == Attestations(m)
  {
    blobs := [(MANIFEST, m.manifestBundle), (CHECKSUMS, m.checksumsBundle)];
    if m.metadata.Some? {
      blobs := blobs + [(m.metadata.value.filename, m.metadata.value.bundle)];
    } else {
      assert blobs + [] == blobs;
    }
    var planned, attested := TargetPlans(m.targets);
    blobs, attestations := blobs + planned, attested;
  }

  /** Every content file and the checksum file is signed exactly once, and nothing else is: the
      signing plan and `expected_content_files` enumerate the same release. */
  lemma PlanSignsContent(m: Manifest)
    requires m.marker.None?
    ensures multiset(Map(First, Blobs(m))) == multiset(ContentNames(m) + [CHECKSUMS])
  {
    var files := Map(Pair, FlatMap(TargetFiles, m.targets));
    var meta := if m.metadata.Some? then [(m.metadata.value.filename, m.metadata.value.bundle)] else [];
    var head := [(MANIFEST, m.manifestBundle), (CHECKSUMS, m.checksumsBundle)];
    FirstsOfPairs(FlatMap(TargetFiles, m.targets));
    MapAppend(First, head + meta, files);
    MapAppend(First, head, meta);
    assert Map(First, head) == [MANIFEST, CHECKSUMS];
    assert Map(First, meta) == ContentHead(m);
    Shuffle(MANIFEST, CHECKSUMS, ContentHead(m), Map(First, files));
  }

  lemma Shuffle<T>(a: T, b: T, head: seq<T>, files: seq<T>)
    ensures multiset([a, b] + head + files) == multiset(head + files + [a] + [b])
  {
    assert multiset([a, b] + head + files) == multiset([a, b]) + multiset(head) + multiset(files);
  }

  lemma FirstsOfPairs(files: seq<FileEntry>)
    ensures Map(First, Map(Pair, files)) == Map(FilenameOf, files)
  {
  }

  /** Names of `core_release_inventory`: content files, checksums, then both kinds of bundle. */
  function InventoryNames(m: Manifest): seq<string> {
    ContentNames(m) + [CHECKSUMS] + Map(Second, Blobs(m)) + Map(Second, Attestations(m))
  }
}
