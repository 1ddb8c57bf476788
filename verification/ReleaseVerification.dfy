/** `sign`'s admission and `verify`'s checks, and their acceptance of what `finalize` wrote. */
module ReleaseVerification {
  import opened Sequences
  import opened Text
  import opened ReleaseManifest
  import opened CoreAssets
  import opened ReleaseInventory
  import opened Sbom
  import opened Provenance
  import opened ReleasePipeline

  /** The externally supplied trust policy. */
  datatype Trust = Trust(team: string, application: string, installer: string, fingerprint: string)

  predicate HashEntryOk(o: Oracle, dir: Dir, f: FileEntry) {
    f.filename in dir && o.size(dir[f.filename]) == f.size && o.sha256(dir[f.filename]) == f.sha256
  }

  /** `validate_package_native_files`. */
  predicate PackageNativeOk(o: Oracle, dir: Dir, t: Target, p: PackageEntry, trust: Trust) {
    match p.native
    case Unsigned => true
    case RpmVerified(fingerprint, evidence, key) =>
      && HashEntryOk(o, dir, evidence) && HashEntryOk(o, dir, key) && fingerprint == trust.fingerprint
      && Get(dir, evidence.filename)
         == EvidenceDoc(RpmSigned(TargetId(t), p.artifact.file.filename, p.artifact.file.sha256, fingerprint,
                                  key.filename, key.sha256))
    case PkgVerified(team, application, installer, evidence) =>
      && HashEntryOk(o, dir, evidence)
      && team == trust.team && application == trust.application && installer == trust.installer
      && Get(dir, evidence.filename)
         == EvidenceDoc(PkgSigned(TargetId(t), p.artifact.file.filename, p.artifact.file.sha256, team, application, installer))
  }

  predicate PackageDocsOk(o: Oracle, dir: Dir, ctx: Context, e: TargetEntry, p: PackageEntry, trusted: Option<string>) {
    match (Get(dir, p.sbom.filename), Get(dir, e.sbom.filename), Get(dir, p.provenance.file.filename))
    case (SbomDoc(doc), SbomDoc(connectorDoc), PackageStatementDoc(st)) =>
      && VerifyPackageSbom(o.tools, doc, connectorDoc, o.sha1(Get(dir, p.artifact.file.filename)), p.artifact.file,
                           p.format, e.target, ctx)
      && VerifyPackageProvenance(st, p, e.target, e.artifact.file, ctx, trusted)
    case _ => false
  }

  predicate CandidateOk(a: ArtifactEntry) {
    a.file.sha256 == a.candidateSha256 && a.file.size == a.candidateSize
  }

  predicate PackageOk(o: Oracle, dir: Dir, ctx: Context, e: TargetEntry, p: PackageEntry, trust: Trust, trusted: Option<string>) {
    && HashEntryOk(o, dir, p.artifact.file) && HashEntryOk(o, dir, p.sbom) && HashEntryOk(o, dir, p.provenance.file)
    && (p.native.Unsigned? ==> CandidateOk(p.artifact))
    && PackageDocsOk(o, dir, ctx, e, p, trusted)
    && PackageNativeOk(o, dir, e.target, p, trust)
  }

  /** Native evidence of an executable against the pinned Apple identity. */
  predicate NativeOk(o: Oracle, dir: Dir, e: TargetEntry, trust: Trust) {
    match e.native
    case AppleVerified(team, identity, evidence) =>
      && HashEntryOk(o, dir, evidence) && team == trust.team && identity == trust.application
      && Get(dir, evidence.filename)
         == EvidenceDoc(ExecutableSigned(TargetId(e.target), e.artifact.file.filename, e.artifact.file.sha256, team, identity))
    case _ => true
  }

  predicate TargetDocsOk(o: Oracle, dir: Dir, ctx: Context, e: TargetEntry, trusted: Option<string>) {
    match (Get(dir, e.sbom.filename), Get(dir, e.provenance.file.filename))
    case (SbomDoc(doc), StatementDoc(st)) =>
      && VerifySbom(o.tools, doc, o.sha1(Get(dir, e.artifact.file.filename)), e.artifact.file, ctx)
      && VerifyProvenance(st, e.artifact, e.target, e.native, ctx, trusted)
    case _ => false
  }

  predicate TargetOk(o: Oracle, dir: Dir, m: Manifest, e: TargetEntry, trust: Trust, trusted: Option<string>) {
    && HashEntryOk(o, dir, e.artifact.file) && HashEntryOk(o, dir, e.sbom) && HashEntryOk(o, dir, e.provenance.file)
    && (m.mode.LocalUnsigned? || e.native.NotRequired? ==> CandidateOk(e.artifact))
    && TargetDocsOk(o, dir, m.context, e, trusted)
    && NativeOk(o, dir, e, trust)
    && forall p :: p in e.packages ==> PackageOk(o, dir, m.context, e, p, trust, trusted)
  }

  function LineName(line: (string, string)): string { line.1 }

  /** `parse_checksums` rejects repeats; the names must be the content files and the digests theirs. */
  predicate ChecksumsOk(o: Oracle, dir: Dir, m: Manifest) {
    match Get(dir, CHECKSUMS)
    case ChecksumsDoc(lines) =>
      && CHECKSUMS in dir
      && NoDup(Map(LineName, lines))
      && SortedNames(Map(LineName, lines)) == SortedNames(ContentNames(m))
      && forall line :: line in lines ==> line.1 in dir && o.sha256(dir[line.1]) == line.0
    case _ => false
  }

  predicate MetadataOk(o: Oracle, dir: Dir, m: Manifest) {
    && RELEASE_METADATA in dir
    && dir[RELEASE_METADATA] == MetadataDoc(m, o.sha256(Get(dir, MANIFEST)), o.size(Get(dir, MANIFEST)))
  }

  predicate ContentOk(o: Oracle, dir: Dir, m: Manifest, trust: Trust, trusted: Option<string>) {
    && ChecksumsOk(o, dir, m)
    && (m.mode.Release? ==> MetadataOk(o, dir, m))
    && forall e :: e in m.targets ==> TargetOk(o, dir, m, e, trust, trusted)
  }

  function BundleSet(m: Manifest): set<string> {
    Elems(Map(Second, Blobs(m))) + Elems(Map(Second, Attestations(m)))
  }

  /** `validate_finalized_release_for_signing` and the mode checks before it. */
  predicate SignChecks(o: Oracle, dir: Dir, m: Manifest, matrix: seq<Target>, trust: Trust) {
    && ShapedManifest(m) && m.mode.Release? && Matrix(m) == matrix
    && LOCAL_MARKER !in dir
    && ContentOk(o, dir, m, trust, Some(m.context.builder))
    && dir.Keys == Elems(ContentNames(m)) + {CHECKSUMS}
  }

  /** Everything `sign` checks before it calls the signer. */
  predicate SignAdmits(o: Oracle, dir: Dir, matrix: seq<Target>, trust: Trust) {
    match Get(dir, MANIFEST)
    case ManifestDoc(m) => SignChecks(o, dir, m, matrix, trust) && BundleSet(m) !! dir.Keys
    case _ => false
  }

  /** `verify`'s inventory, checksum, hash and document checks in release mode. */
  predicate VerifyAdmits(o: Oracle, dir: Dir, matrix: seq<Target>, trust: Trust, identity: string) {
    match Get(dir, MANIFEST)
    case ManifestDoc(m) =>
      && ShapedManifest(m) && m.mode.Release? && Matrix(m) == matrix
      && LOCAL_MARKER !in dir
      && dir.Keys == Elems(ContentNames(m)) + {CHECKSUMS} + BundleSet(m)
      && ContentOk(o, dir, m, trust, Some(identity))
    case _ => false
  }

  /** The same checks on a local-unsigned directory, which has no bundles and no trust policy. */
  predicate VerifyLocalAdmits(o: Oracle, dir: Dir, trust: Trust) {
    match Get(dir, MANIFEST)
    case ManifestDoc(m) =>
      && ShapedManifest(m) && m.mode.LocalUnsigned? && LOCAL_MARKER in dir
      && dir.Keys == Elems(ContentNames(m)) + {CHECKSUMS}
      && ContentOk(o, dir, m, trust, None)
    case _ => false
  }

  // ----- Names of the finalized directory -----

  lemma PackageFileNames(o: Oracle, dir: Dir, s: State, r: Record, p: PackageRecord)
    requires PackageReady(o, dir, s, r, p)
    ensures multiset(Map(FilenameOf, PackageFiles(PackageEntryFor(o, dir, s, r)(p))))
         == multiset(PackagePayloads(s, r)(p)) + multiset(Map(Fst, PackageDocs(o, dir, s, r)(p)))
  {
    var e := PackageEntryFor(o, dir, s, r)(p);
    var n := PackageOf(s, r, p);
    var native := Map(FilenameOf, PackageNativeFiles(e.native));
    MapAppend(FilenameOf, [e.artifact.file, e.sbom, e.provenance.file], PackageNativeFiles(e.native));
    assert Map(FilenameOf, [e.artifact.file, e.sbom, e.provenance.file]) == [n, SbomName(n), ProvenanceName(n)];
    assert Map(Fst, PackageDocs(o, dir, s, r)(p)) == [SbomName(n), ProvenanceName(n)];
    assert PackagePayloads(s, r)(p) == [n] + native;
    Reorder(n, SbomName(n), ProvenanceName(n), native);
  }

  lemma Reorder<T>(a: T, b: T, c: T, rest: seq<T>)
    ensures multiset([a, b, c] + rest) == multiset([a] + rest) + multiset([b, c])
  {
    assert [a, b, c] == [a] + [b, c];
    Regroup([a], [b, c], rest);
  }

  lemma Regroup<T>(a: seq<T>, b: seq<T>, c: seq<T>)
    ensures multiset(a + b + c) == multiset(a + c) + multiset(b)
  {
  }

  /** Files listed per entry split into payloads and documents, over a whole list of items. */
  lemma {:induction false} SplitFiles<A, E, F, N, D>(entry: A -> E, files: E -> seq<F>, name: F -> N, payloads: A -> seq<N>,
                                                     docs: A -> seq<D>, key: D -> N, xs: seq<A>)
    requires forall x :: x in xs ==>
      multiset(Map(name, files(entry(x)))) == multiset(payloads(x)) + multiset(Map(key, docs(x)))
    ensures multiset(Map(name, FlatMap(files, Map(entry, xs))))
         == multiset(FlatMap(payloads, xs)) + multiset(Map(key, FlatMap(docs, xs)))
  {
    if xs != [] {
      var entries := Map(entry, xs);
      SplitFiles(entry, files, name, payloads, docs, key, xs[1..]);
      assert entries[1..] == Map(entry, xs[1..]);
      MapAppend(name, files(entries[0]), FlatMap(files, entries[1..]));
      MapAppend(key, docs(xs[0]), FlatMap(docs, xs[1..]));
    }
  }

  lemma PackagesFileNames(o: Oracle, dir: Dir, s: State, r: Record, ps: seq<PackageRecord>)
    requires forall p :: p in ps ==> PackageReady(o, dir, s, r, p)
    ensures multiset(Map(FilenameOf, FlatMap(PackageFiles, Map(PackageEntryFor(o, dir, s, r), ps))))
         == multiset(FlatMap(PackagePayloads(s, r), ps)) + multiset(Map(Fst, FlatMap(PackageDocs(o, dir, s, r), ps)))
  {
    forall p | p in ps
      ensures multiset(Map(FilenameOf, PackageFiles(PackageEntryFor(o, dir, s, r)(p))))
           == multiset(PackagePayloads(s, r)(p)) + multiset(Map(Fst, PackageDocs(o, dir, s, r)(p)))
    {
      PackageFileNames(o, dir, s, r, p);
    }
    SplitFiles(PackageEntryFor(o, dir, s, r), PackageFiles, FilenameOf, PackagePayloads(s, r), PackageDocs(o, dir, s, r),
               Fst, ps);
  }

  lemma RecordFileNames(o: Oracle, dir: Dir, s: State, r: Record)
    requires RecordReady(o, dir, s, r)
    ensures multiset(Map(FilenameOf, TargetFiles(TargetEntryFor(o, dir, s)(r))))
         == multiset(RecordPayloads(s)(r)) + multiset(Map(Fst, RecordDocs(o, dir, s)(r)))
  {
    if s.mode.Release? {
      ReleaseFileNames(o, dir, s, r, TargetEntryFor(o, dir, s)(r));
    } else {
      LocalFileNames(o, dir, s, r, TargetEntryFor(o, dir, s)(r));
    }
  }

  ghost predicate Entered(o: Oracle, dir: Dir, s: State, r: Record, e: TargetEntry) {
    && e.artifact.file.filename == ArtifactOf(s, r)
    && e.sbom.filename == SbomName(ArtifactOf(s, r)) && e.provenance.file.filename == ProvenanceName(ArtifactOf(s, r))
    && e.native == NativeFor(o, dir, s, r)
  }

  function OwnDocs(o: Oracle, dir: Dir, s: State, r: Record): seq<(string, Content)> {
    [(SbomName(ArtifactOf(s, r)), ArtifactSbom(o, dir, s, r)),
     (ProvenanceName(ArtifactOf(s, r)), ArtifactStatement(o, dir, s, r))]
  }

  lemma ReleaseFileNames(o: Oracle, dir: Dir, s: State, r: Record, e: TargetEntry)
    requires s.mode.Release? && (forall p :: p in r.packages ==> PackageReady(o, dir, s, r, p))
    requires Entered(o, dir, s, r, e) && e.packages == Map(PackageEntryFor(o, dir, s, r), r.packages)
    ensures multiset(Map(FilenameOf, TargetFiles(e)))
         == multiset(RecordPayloads(s)(r))
            + multiset(Map(Fst, OwnDocs(o, dir, s, r) + FlatMap(PackageDocs(o, dir, s, r), r.packages)))
  {
    var n := ArtifactOf(s, r);
    EntryFileNames(e, n);
    DocNames(OwnDocs(o, dir, s, r), n);
    PackagesFileNames(o, dir, s, r, r.packages);
    MapAppend(Fst, OwnDocs(o, dir, s, r), FlatMap(PackageDocs(o, dir, s, r), r.packages));
    ReleasePayloads(o, dir, s, r);
    Interleave(n, SbomName(n), ProvenanceName(n), Map(FilenameOf, NativeEvidence(e.native)),
               Map(FilenameOf, FlatMap(PackageFiles, e.packages)),
               FlatMap(PackagePayloads(s, r), r.packages), Map(Fst, FlatMap(PackageDocs(o, dir, s, r), r.packages)));
  }

  lemma LocalFileNames(o: Oracle, dir: Dir, s: State, r: Record, e: TargetEntry)
    requires s.mode.LocalUnsigned? && Entered(o, dir, s, r, e) && e.packages == []
    ensures multiset(Map(FilenameOf, TargetFiles(e)))
         == multiset(RecordPayloads(s)(r)) + multiset(Map(Fst, OwnDocs(o, dir, s, r) + []))
  {
    var n := ArtifactOf(s, r);
    EntryFileNames(e, n);
    DocNames(OwnDocs(o, dir, s, r) + [], n);
    assert NativeEvidence(e.native) == [] && FlatMap(PackageFiles, e.packages) == [];
    LocalOrder(n, SbomName(n), ProvenanceName(n));
  }

  lemma LocalOrder<T>(a: T, b: T, c: T)
    ensures multiset([a, b, c] + [] + []) == multiset([a] + []) + multiset([b, c])
  {
    assert [a, b, c] + [] + [] == [a] + [b, c];
    assert [a] + [] == [a];
  }

  lemma EntryFileNames(e: TargetEntry, n: string)
    requires e.artifact.file.filename == n && e.sbom.filename == SbomName(n) && e.provenance.file.filename == ProvenanceName(n)
    ensures Map(FilenameOf, TargetFiles(e))
         == [n, SbomName(n), ProvenanceName(n)] + Map(FilenameOf, NativeEvidence(e.native))
            + Map(FilenameOf, FlatMap(PackageFiles, e.packages))
  {
    var own := [e.artifact.file, e.sbom, e.provenance.file];
    MapAppend(FilenameOf, own + NativeEvidence(e.native), FlatMap(PackageFiles, e.packages));
    MapAppend(FilenameOf, own, NativeEvidence(e.native));
  }

  lemma DocNames(docs: seq<(string, Content)>, n: string)
    requires |docs| == 2 && docs[0].0 == SbomName(n) && docs[1].0 == ProvenanceName(n)
    ensures Map(Fst, docs) == [SbomName(n), ProvenanceName(n)]
  {
  }

  lemma ReleasePayloads(o: Oracle, dir: Dir, s: State, r: Record)
    requires s.mode.Release?
    ensures RecordPayloads(s)(r)
         == [ArtifactOf(s, r)] + Map(FilenameOf, NativeEvidence(NativeFor(o, dir, s, r)))
            + FlatMap(PackagePayloads(s, r), r.packages)
  {
    var names := Map(FilenameOf, NativeEvidence(NativeFor(o, dir, s, r)));
    assert names == if r.target.os.Darwin? then [ExecutableEvidenceName(r.target)] else [];
    Assoc([ArtifactOf(s, r)], names, FlatMap(PackagePayloads(s, r), r.packages));
  }

  lemma Assoc<T>(a: seq<T>, b: seq<T>, c: seq<T>)
    ensures a + (b + c) == a + b + c
  {
  }

  lemma Interleave<T>(a: T, b: T, c: T, native: seq<T>, all: seq<T>, payloads: seq<T>, docs: seq<T>)
    requires multiset(all) == multiset(payloads) + multiset(docs)
    ensures multiset([a, b, c] + native + all) == multiset([a] + native + payloads) + multiset([b, c] + docs)
  {
    assert [a, b, c] == [a] + [b, c];
    RegroupAll([a], [b, c], native, all, payloads, docs);
  }

  lemma RegroupAll<T>(a: seq<T>, b: seq<T>, native: seq<T>, all: seq<T>, payloads: seq<T>, docs: seq<T>)
    requires multiset(all) == multiset(payloads) + multiset(docs)
    ensures multiset(a + b + native + all) == multiset(a + native + payloads) + multiset(b + docs)
  {
  }

  /** The manifest lists exactly the payloads present before and the documents written. */
  lemma RecordsFileNames(o: Oracle, dir: Dir, s: State, rs: seq<Record>)
    requires forall r :: r in rs ==> RecordReady(o, dir, s, r)
    ensures multiset(Map(FilenameOf, FlatMap(TargetFiles, Map(TargetEntryFor(o, dir, s), rs))))
         == multiset(FlatMap(RecordPayloads(s), rs)) + multiset(Map(Fst, FlatMap(RecordDocs(o, dir, s), rs)))
  {
    forall r | r in rs
      ensures multiset(Map(FilenameOf, TargetFiles(TargetEntryFor(o, dir, s)(r))))
           == multiset(RecordPayloads(s)(r)) + multiset(Map(Fst, RecordDocs(o, dir, s)(r)))
    {
      RecordFileNames(o, dir, s, r);
    }
    SplitFiles(TargetEntryFor(o, dir, s), TargetFiles, FilenameOf, RecordPayloads(s), RecordDocs(o, dir, s), Fst, rs);
  }

  // ----- The manifest is shaped -----

  lemma PackageShaped(o: Oracle, dir: Dir, s: State, r: Record, p: PackageRecord)
    ensures ShapedPackage(s.context.version, r.target, PackageEntryFor(o, dir, s, r)(p), p.format)
  {
  }

  lemma RecordShaped(o: Oracle, dir: Dir, s: State, r: Record)
    requires RecordReady(o, dir, s, r)
    ensures s.mode.Release? ==> ShapedTarget(s.context.version, TargetEntryFor(o, dir, s)(r))
    ensures s.mode.LocalUnsigned? ==> ShapedLocalTarget(s.context.version, TargetEntryFor(o, dir, s)(r))
  {
    if s.mode.Release? {
      var e := TargetEntryFor(o, dir, s)(r);
      assert |r.packages| == |Formats(r.target.os)|;
      forall i | 0 <= i < |e.packages|
        ensures ShapedPackage(s.context.version, r.target, e.packages[i], Formats(r.target.os)[i])
      {
        PackageShaped(o, dir, s, r, r.packages[i]);
        assert Map(FormatOf, r.packages)[i] == r.packages[i].format;
      }
    }
  }

  predicate EntryShaped(mode: Mode, version: string, e: TargetEntry) {
    if mode.Release? then ShapedTarget(version, e) else ShapedLocalTarget(version, e)
  }

  lemma EntriesShaped(mode: Mode, version: string, f: Record -> TargetEntry, rs: seq<Record>)
    requires forall r :: r in rs ==> EntryShaped(mode, version, f(r)) && f(r).target == r.target
    ensures forall e :: e in Map(f, rs) ==> EntryShaped(mode, version, e)
    ensures Map(TargetOf, Map(f, rs)) == Map(TargetAt, rs)
  {
    forall e | e in Map(f, rs) ensures EntryShaped(mode, version, e) {
      var i :| 0 <= i < |rs| && Map(f, rs)[i] == e;
      assert rs[i] in rs;
    }
    assert forall i :: 0 <= i < |rs| ==> rs[i] in rs;
  }

  lemma ManifestShaped(o: Oracle, dir: Dir, s: State)
    requires Ready(o, dir, s)
    ensures ShapedManifest(ManifestFor(o, dir, s))
    ensures Matrix(ManifestFor(o, dir, s)) == Map(TargetAt, s.records)
  {
    forall r | r in s.records
      ensures EntryShaped(s.mode, s.context.version, TargetEntryFor(o, dir, s)(r))
      ensures TargetEntryFor(o, dir, s)(r).target == r.target
    {
      RecordShaped(o, dir, s, r);
    }
    EntriesShaped(s.mode, s.context.version, TargetEntryFor(o, dir, s), s.records);
    ShapedBy(ManifestFor(o, dir, s));
  }

  lemma ShapedBy(m: Manifest)
    requires m.manifestBundle == BundleName(MANIFEST) && m.checksumsBundle == BundleName(CHECKSUMS)
    requires m.targets != [] && NoDup(Map(TargetOf, m.targets))
    requires m.mode.Release? ==> m.metadata == Some(MetadataRef(RELEASE_METADATA, BundleName(RELEASE_METADATA))) && m.marker == None
    requires m.mode.LocalUnsigned? ==> m.metadata == None && m.marker == Some(LOCAL_MARKER)
    requires forall e :: e in m.targets ==> EntryShaped(m.mode, m.context.version, e)
    ensures ShapedManifest(m)
  {
  }

  // ----- Payloads, documents and fixed files keep apart -----

  function Payloads(s: State): seq<string> { FlatMap(RecordPayloads(s), s.records) }
  function DocumentNames(o: Oracle, dir: Dir, s: State): seq<string> { Map(Fst, AllDocs(o, dir, s)) }

  const FIXED := {WORK_STATE, LOCAL_MARKER, MANIFEST, RELEASE_METADATA, CHECKSUMS}

  ghost predicate Separate(payloads: seq<string>, docs: seq<string>) {
    NoDup(payloads + docs) && forall n :: n in payloads + docs ==> n !in FIXED
  }

  lemma TargetNamesOf(o: Oracle, dir: Dir, s: State)
    requires Ready(o, dir, s)
    ensures multiset(Map(FilenameOf, FlatMap(TargetFiles, ManifestFor(o, dir, s).targets)))
         == multiset(Payloads(s) + DocumentNames(o, dir, s))
  {
    RecordsFileNames(o, dir, s, s.records);
  }

  lemma FixedNotAsset(version: string, matrix: seq<Target>, n: string)
    requires n in FlatMap(AssetsOf(version), matrix)
    ensures n !in FIXED
  {
    MatrixInitial(version, matrix, n);
    if n in FIXED { FixedNameInitial(n); }
  }

  lemma MatrixInitial(version: string, matrix: seq<Target>, n: string)
    requires n in FlatMap(AssetsOf(version), matrix)
    ensures n != "" && n[0] in {'s', 'n', 'r'}
  {
    FlatMapContains(AssetsOf(version), matrix, n);
    var i :| 0 <= i < |matrix| && n in AssetsOf(version)(matrix[i]);
    AssetInitial(version, matrix[i], n);
  }

  lemma FixedNameInitial(n: string)
    requires n in FIXED
    ensures n != "" && n[0] in {'.', 'R', 'm', 'c', 'S'}
  {
    assert WORK_STATE[0] == '.' && LOCAL_MARKER[0] == 'R' && MANIFEST[0] == 'm' && RELEASE_METADATA[0] == 'c'
        && CHECKSUMS[0] == 'S';
  }

  lemma ReleaseContentNames(m: Manifest)
    requires ShapedManifest(m) && m.mode.Release?
    ensures Map(FilenameOf, FlatMap(TargetFiles, m.targets)) == FlatMap(ContentAt(m.context.version), Matrix(m))
  {
    TargetsNames(m.context.version, m.targets);
    ShapedFilesNames(FlatMap(TargetFiles, m.targets), FlatMap(ContentAt(m.context.version), Matrix(m)));
  }

  lemma SeparateRelease(o: Oracle, dir: Dir, s: State)
    requires Ready(o, dir, s) && s.mode.Release? && Admissible(Map(TargetAt, s.records))
    ensures Separate(Payloads(s), DocumentNames(o, dir, s))
  {
    var m := ManifestFor(o, dir, s);
    var names := Map(FilenameOf, FlatMap(TargetFiles, m.targets));
    var version, matrix := s.context.version, Matrix(m);
    ManifestShaped(o, dir, s);
    TargetNamesOf(o, dir, s);
    ReleaseContentNames(m);
    ContentDistinct(version, matrix);
    NoDupPermutation(names, Payloads(s) + DocumentNames(o, dir, s));
    forall n | n in Payloads(s) + DocumentNames(o, dir, s) ensures n !in FIXED {
      assert n in Elems(names);
      ContentIsAsset(version, matrix, n);
      FixedNotAsset(version, matrix, n);
    }
  }

  lemma ContentDistinct(version: string, matrix: seq<Target>)
    requires NoDup(matrix) && Admissible(matrix)
    ensures NoDup(FlatMap(ContentAt(version), matrix))
  {
    MatrixPartition(version, matrix);
    TargetsDistinct(version, matrix);
    CoveredDistinct(FlatMap(AssetsOf(version), matrix), FlatMap(ContentAt(version), matrix), FlatMap(AttestedAt(version), matrix));
  }

  lemma CoveredDistinct(all: seq<string>, content: seq<string>, attested: seq<string>)
    requires Covers(all, content, attested) && NoDup(all)
    ensures NoDup(content)
  {
    NoDupMultiset(all);
    NoDupMultiset(content);
    assert forall x :: multiset(content)[x] <= multiset(all)[x];
  }

  lemma ContentIsAsset(version: string, matrix: seq<Target>, n: string)
    requires n in FlatMap(ContentAt(version), matrix)
    ensures n in FlatMap(AssetsOf(version), matrix)
  {
    MatrixPartition(version, matrix);
    assert n in multiset(FlatMap(ContentAt(version), matrix));
    assert n in multiset(FlatMap(AssetsOf(version), matrix));
  }

  function TrioAt(version: string): Target -> seq<string> { t => Trio(ArtifactName(version, t)) }

  lemma {:induction false} LocalContentNames(version: string, es: seq<TargetEntry>)
    requires forall e :: e in es ==> ShapedLocalTarget(version, e)
    ensures Map(FilenameOf, FlatMap(TargetFiles, es)) == FlatMap(TrioAt(version), Map(TargetOf, es))
  {
    if es != [] {
      LocalContentNames(version, es[1..]);
      assert es[0] in es;
      EntryFileNames(es[0], ArtifactName(version, es[0].target));
      assert NativeEvidence(es[0].native) == [] && FlatMap(PackageFiles, es[0].packages) == [];
      MapAppend(FilenameOf, TargetFiles(es[0]), FlatMap(TargetFiles, es[1..]));
      assert Map(TargetOf, es)[1..] == Map(TargetOf, es[1..]);
      LocalTrio(version, es[0]);
    }
  }

  lemma LocalTrio(version: string, e: TargetEntry)
    ensures Trio(ArtifactName(version, e.target)) + [] + [] == TrioAt(version)(e.target)
  {
  }

  lemma TrioIsAsset(version: string, t: Target, n: string)
    requires n in Trio(ArtifactName(version, t))
    ensures n in TargetAssets(version, t)
  {
    AssetPartition(version, t);
    assert n in ContentOf(version, t);
    assert n in multiset(TargetAssets(version, t));
  }

  lemma TriosDistinct(version: string, matrix: seq<Target>)
    requires NoDup(matrix) && Admissible(matrix)
    ensures NoDup(FlatMap(TrioAt(version), matrix))
    ensures forall n :: n in FlatMap(TrioAt(version), matrix) ==> n in FlatMap(AssetsOf(version), matrix)
  {
    FlatMapNoDup(TrioAt(version), matrix);
    TargetsDistinct(version, matrix);
    FlatMapNoDup(AssetsOf(version), matrix);
    forall i | 0 <= i < |matrix| ensures NoDup(TrioAt(version)(matrix[i])) {
      TrioDistinct(ArtifactName(version, matrix[i]));
    }
    forall i, n | 0 <= i < |matrix| && n in TrioAt(version)(matrix[i]) ensures n in AssetsOf(version)(matrix[i]) {
      TrioIsAsset(version, matrix[i], n);
    }
    forall n | n in FlatMap(TrioAt(version), matrix) ensures n in FlatMap(AssetsOf(version), matrix) {
      FlatMapContains(TrioAt(version), matrix, n);
      FlatMapContains(AssetsOf(version), matrix, n);
    }
  }

  lemma TrioDistinct(file: string)
    ensures NoDup(Trio(file))
  {
    assert |SbomName(file)| == |file| + 10 && |ProvenanceName(file)| == |file| + 12;
  }

  lemma SeparateLocal(o: Oracle, dir: Dir, s: State)
    requires Ready(o, dir, s) && s.mode.LocalUnsigned? && Admissible(Map(TargetAt, s.records))
    ensures Separate(Payloads(s), DocumentNames(o, dir, s))
  {
    var m := ManifestFor(o, dir, s);
    var names := Map(FilenameOf, FlatMap(TargetFiles, m.targets));
    ManifestShaped(o, dir, s);
    TargetNamesOf(o, dir, s);
    LocalContentNames(s.context.version, m.targets);
    TriosDistinct(s.context.version, Matrix(m));
    NoDupPermutation(names, Payloads(s) + DocumentNames(o, dir, s));
    forall n | n in Payloads(s) + DocumentNames(o, dir, s) ensures n !in FIXED {
      assert n in Elems(names);
      FixedNotAsset(s.context.version, Matrix(m), n);
    }
  }

  // ----- Reading the finalized directory -----

  /** A directory with documents, three further files and no working file. */
  ghost predicate Layered(d: Dir, dir: Dir, docs: seq<(string, Content)>, work: string,
                          f1: (string, Content), f2: (string, Content), f3: (string, Content)) {
    d == Assign(dir, docs)[f1.0 := f1.1][f2.0 := f2.1][f3.0 := f3.1] - {work}
  }

  ghost predicate Apart(names: seq<string>, work: string, n1: string, n2: string, n3: string) {
    NoDup([work, n1, n2, n3]) && forall n :: n in names ==> n != work && n != n1 && n != n2 && n != n3
  }

  lemma LayeredRead(d: Dir, dir: Dir, payloads: seq<string>, docs: seq<(string, Content)>, work: string,
                    f1: (string, Content), f2: (string, Content), f3: (string, Content))
    requires Layered(d, dir, docs, work, f1, f2, f3)
    requires dir.Keys == {work} + Elems(payloads) && NoDup(payloads + Map(Fst, docs))
    requires Apart(payloads + Map(Fst, docs), work, f1.0, f2.0, f3.0)
    ensures d.Keys == Elems(payloads) + Elems(Map(Fst, docs)) + {f1.0, f2.0, f3.0}
    ensures forall n :: n in payloads ==> n in d && d[n] == dir[n]
    ensures forall x :: x in docs ==> x.0 in d && d[x.0] == x.1
    ensures d[f1.0] == f1.1 && d[f2.0] == f2.1 && d[f3.0] == f3.1
  {
    var names := Map(Fst, docs);
    var fixedNames := [work, f1.0, f2.0, f3.0];
    assert fixedNames[0] != fixedNames[1] && fixedNames[0] != fixedNames[2] && fixedNames[0] != fixedNames[3]
        && fixedNames[1] != fixedNames[2] && fixedNames[1] != fixedNames[3] && fixedNames[2] != fixedNames[3];
    NoDupConcat(payloads, names);
    AssignRead(dir, docs);
    forall n | n in payloads ensures n in d && d[n] == dir[n] {
      assert n in payloads + names && n in Elems(payloads);
    }
    forall x | x in docs ensures x.0 in d && d[x.0] == x.1 {
      var i :| 0 <= i < |docs| && docs[i] == x;
      assert names[i] == x.0;
      assert x.0 in payloads + names;
    }
    ElemsConcat(payloads, names);
  }

  function Marker(o: Oracle, m: Manifest): (string, Content) {
    match m.mode
    case LocalUnsigned => (LOCAL_MARKER, MarkerDoc)
    case Release => (RELEASE_METADATA, MetadataDoc(m, o.sha256(ManifestDoc(m)), o.size(ManifestDoc(m))))
  }

  function Sums(o: Oracle, dir: Dir, s: State): Content {
    ChecksumsFor(o, Described(o, dir, s), ContentNames(ManifestFor(o, dir, s)))
  }

  lemma FinalizedLayered(o: Oracle, dir: Dir, s: State)
    ensures Layered(Finalized(o, dir, s), dir, AllDocs(o, dir, s), WORK_STATE, Marker(o, ManifestFor(o, dir, s)),
                    (MANIFEST, ManifestDoc(ManifestFor(o, dir, s))), (CHECKSUMS, Sums(o, dir, s)))
  {
    Commute(Assign(dir, AllDocs(o, dir, s)), MANIFEST, RELEASE_METADATA,
            ManifestDoc(ManifestFor(o, dir, s)), Marker(o, ManifestFor(o, dir, s)).1);
    FixedDiffer();
  }

  lemma Commute(d: Dir, a: string, b: string, x: Content, y: Content)
    ensures a != b ==> d[a := x][b := y] == d[b := y][a := x]
  {
  }

  lemma FixedDiffer()
    ensures NoDup([WORK_STATE, LOCAL_MARKER, MANIFEST, RELEASE_METADATA, CHECKSUMS])
    ensures MANIFEST != RELEASE_METADATA
  {
    assert WORK_STATE[0] == '.' && LOCAL_MARKER[0] == 'R' && MANIFEST[0] == 'm' && RELEASE_METADATA[0] == 'c'
        && CHECKSUMS[0] == 'S';
  }

  lemma SeparateApart(names: seq<string>, mode: Mode)
    requires forall n :: n in names ==> n !in FIXED
    ensures Apart(names, WORK_STATE, if mode.Release? then RELEASE_METADATA else LOCAL_MARKER, MANIFEST, CHECKSUMS)
  {
    FixedDiffer();
  }

  /** What each name of the finalized directory holds. */
  lemma FinalizedRead(o: Oracle, dir: Dir, s: State)
    requires Ready(o, dir, s) && Separate(Payloads(s), DocumentNames(o, dir, s))
    ensures forall n :: n in Payloads(s) ==> n in Finalized(o, dir, s) && Finalized(o, dir, s)[n] == dir[n]
    ensures forall d :: d in AllDocs(o, dir, s) ==> d.0 in Finalized(o, dir, s) && Finalized(o, dir, s)[d.0] == d.1
    ensures var m := ManifestFor(o, dir, s);
            var d := Finalized(o, dir, s);
            && d.Keys == Elems(Payloads(s)) + Elems(DocumentNames(o, dir, s)) + {Marker(o, m).0, MANIFEST, CHECKSUMS}
            && d[MANIFEST] == ManifestDoc(m) && d[Marker(o, m).0] == Marker(o, m).1 && d[CHECKSUMS] == Sums(o, dir, s)
  {
    FinalizedLayered(o, dir, s);
    SeparateApart(Payloads(s) + DocumentNames(o, dir, s), s.mode);
    LayeredRead(Finalized(o, dir, s), dir, Payloads(s), AllDocs(o, dir, s), WORK_STATE,
                Marker(o, ManifestFor(o, dir, s)), (MANIFEST, ManifestDoc(ManifestFor(o, dir, s))),
                (CHECKSUMS, Sums(o, dir, s)));
  }
}
