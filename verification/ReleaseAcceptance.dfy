/** `sign` and `verify` accept what `finalize` wrote, and exactly when. */
module ReleaseAcceptance {
  import opened Sequences
  import opened Text
  import opened ReleaseManifest
  import opened CoreAssets
  import opened ReleaseInventory
  import opened Sbom
  import opened Provenance
  import opened ReleasePipeline
  import opened ReleaseVerification

  ghost predicate Holds(d: Dir, name: string, c: Content) { name in d && d[name] == c }

  /** A directory with the payloads of `dir` untouched and the per-target documents in place. */
  ghost predicate Carries(d: Dir, o: Oracle, dir: Dir, s: State) {
    && (forall n :: n in Payloads(s) ==> Holds(d, n, Get(dir, n)))
    && (forall x :: x in AllDocs(o, dir, s) ==> Holds(d, x.0, x.1))
  }

  // ----- One package -----

  ghost predicate PackageCarried(d: Dir, o: Oracle, dir: Dir, s: State, r: Record, p: PackageRecord) {
    && (forall n :: n in PackagePayloads(s, r)(p) ==> Holds(d, n, Get(dir, n)))
    && (forall x :: x in PackageDocs(o, dir, s, r)(p) ==> Holds(d, x.0, x.1))
  }

  predicate PackageTrusted(n: PackageNative, trust: Trust) {
    match n
    case Unsigned => true
    case RpmVerified(fingerprint, _, _) => fingerprint == trust.fingerprint
    case PkgVerified(team, application, installer, _) =>
      team == trust.team && application == trust.application && installer == trust.installer
  }

  predicate BuilderTrusted(ctx: Context, trusted: Option<string>) { trusted.Some? ==> trusted.value == ctx.builder }

  lemma PackageNativeAccepted(d: Dir, o: Oracle, dir: Dir, s: State, r: Record, p: PackageRecord, trust: Trust)
    requires PackageReady(o, dir, s, r, p)
    requires forall n :: n in PackagePayloads(s, r)(p) ==> Holds(d, n, Get(dir, n))
    ensures PackageNativeOk(o, d, r.target, PackageEntryFor(o, dir, s, r)(p), trust)
            <==> PackageTrusted(PackageEntryFor(o, dir, s, r)(p).native, trust)
  {
    var names := PackagePayloads(s, r)(p);
    match p.format {
      case Deb =>
      case Rpm => assert names[1] == PackageEvidenceName(r.target, p.format) && names[2] == SigningKeyName(r.target);
      case Pkg => assert names[1] == PackageEvidenceName(r.target, p.format);
    }
  }

  lemma PackageStatementAccepted(o: Oracle, dir: Dir, s: State, r: Record, p: PackageRecord, connector: FileEntry,
                                 trusted: Option<string>)
    requires connector.sha256 == o.sha256(Get(dir, ArtifactOf(s, r)))
    ensures VerifyPackageProvenance(PackageStatementOf(o, dir, s, r, p).packageStatement, PackageEntryFor(o, dir, s, r)(p),
                                    r.target, connector, s.context, trusted)
            <==> BuilderTrusted(s.context, trusted)
  {
  }

  lemma PackageDocsAccepted(d: Dir, o: Oracle, dir: Dir, s: State, r: Record, p: PackageRecord, e: TargetEntry,
                            trusted: Option<string>)
    requires Holds(d, PackageOf(s, r, p), Get(dir, PackageOf(s, r, p)))
    requires Holds(d, SbomName(PackageOf(s, r, p)), PackageSbom(o, dir, s, r, p))
    requires Holds(d, ProvenanceName(PackageOf(s, r, p)), PackageStatementOf(o, dir, s, r, p))
    requires Holds(d, e.sbom.filename, ArtifactSbom(o, dir, s, r))
    requires e.target == r.target && e.artifact.file == EntryOf(o, dir, ArtifactOf(s, r))
    requires Buildable(s.context, ModulesOf(o, Get(dir, ArtifactOf(s, r))))
    ensures PackageDocsOk(o, d, s.context, e, PackageEntryFor(o, dir, s, r)(p), trusted)
            <==> StdlibReserved(ModulesOf(o, Get(dir, ArtifactOf(s, r)))) && BuilderTrusted(s.context, trusted)
  {
    hide VerifyPackageSbom, VerifyPackageProvenance, MakeSbom, MakePackageSbom, MakePackageProvenance, Buildable;
    var name := PackageOf(s, r, p);
    PackageStatementAccepted(o, dir, s, r, p, e.artifact.file, trusted);
    PackageSbomAccepted(o.tools, s.context, r.target, p.format, e.artifact.file, o.sha1(Get(dir, ArtifactOf(s, r))),
                        EntryOf(o, dir, name), o.sha1(Get(dir, name)), ModulesOf(o, Get(dir, ArtifactOf(s, r))));
  }

  lemma PackageHashes(d: Dir, o: Oracle, dir: Dir, s: State, r: Record, p: PackageRecord)
    requires PackageReady(o, dir, s, r, p) && PackageCarried(d, o, dir, s, r, p)
    ensures var q := PackageEntryFor(o, dir, s, r)(p);
            && HashEntryOk(o, d, q.artifact.file) && HashEntryOk(o, d, q.sbom) && HashEntryOk(o, d, q.provenance.file)
            && (q.native.Unsigned? ==> CandidateOk(q.artifact))
    ensures Holds(d, PackageOf(s, r, p), Get(dir, PackageOf(s, r, p)))
    ensures Holds(d, SbomName(PackageOf(s, r, p)), PackageSbom(o, dir, s, r, p))
    ensures Holds(d, ProvenanceName(PackageOf(s, r, p)), PackageStatementOf(o, dir, s, r, p))
  {
    var docs := PackageDocs(o, dir, s, r)(p);
    assert PackagePayloads(s, r)(p)[0] == PackageOf(s, r, p);
    assert docs[0] in docs && docs[1] in docs;
  }

  lemma PackageComposed(d: Dir, o: Oracle, ctx: Context, e: TargetEntry, q: PackageEntry, trust: Trust,
                        trusted: Option<string>, reserved: bool)
    requires HashEntryOk(o, d, q.artifact.file) && HashEntryOk(o, d, q.sbom) && HashEntryOk(o, d, q.provenance.file)
    requires q.native.Unsigned? ==> CandidateOk(q.artifact)
    requires PackageDocsOk(o, d, ctx, e, q, trusted) <==> reserved && BuilderTrusted(ctx, trusted)
    requires PackageNativeOk(o, d, e.target, q, trust) <==> PackageTrusted(q.native, trust)
    ensures PackageOk(o, d, ctx, e, q, trust, trusted)
            <==> reserved && BuilderTrusted(ctx, trusted) && PackageTrusted(q.native, trust)
  {
  }

  lemma PackageAccepted(d: Dir, o: Oracle, dir: Dir, s: State, r: Record, p: PackageRecord, e: TargetEntry,
                        trust: Trust, trusted: Option<string>)
    requires PackageReady(o, dir, s, r, p) && PackageCarried(d, o, dir, s, r, p)
    requires Holds(d, e.sbom.filename, ArtifactSbom(o, dir, s, r))
    requires e.target == r.target && e.artifact.file == EntryOf(o, dir, ArtifactOf(s, r))
    requires Buildable(s.context, ModulesOf(o, Get(dir, ArtifactOf(s, r))))
    ensures PackageOk(o, d, s.context, e, PackageEntryFor(o, dir, s, r)(p), trust, trusted)
            <==> && StdlibReserved(ModulesOf(o, Get(dir, ArtifactOf(s, r)))) && BuilderTrusted(s.context, trusted)
                 && PackageTrusted(PackageEntryFor(o, dir, s, r)(p).native, trust)
  {
    PackageHashes(d, o, dir, s, r, p);
    PackageDocsAccepted(d, o, dir, s, r, p, e, trusted);
    PackageNativeAccepted(d, o, dir, s, r, p, trust);
    PackageComposed(d, o, s.context, e, PackageEntryFor(o, dir, s, r)(p), trust, trusted,
                    StdlibReserved(ModulesOf(o, Get(dir, ArtifactOf(s, r)))));
  }

  // ----- One target -----

  ghost predicate RecordCarried(d: Dir, o: Oracle, dir: Dir, s: State, r: Record) {
    && (forall n :: n in RecordPayloads(s)(r) ==> Holds(d, n, Get(dir, n)))
    && (forall x :: x in RecordDocs(o, dir, s)(r) ==> Holds(d, x.0, x.1))
  }

  predicate NativeTrusted(n: Native, trust: Trust) {
    n.AppleVerified? ==> n.team == trust.team && n.identity == trust.application
  }

  /** The identities recorded for a target are the pinned ones. */
  ghost predicate EntryTrusted(e: TargetEntry, trust: Trust) {
    NativeTrusted(e.native, trust) && forall p :: p in e.packages ==> PackageTrusted(p.native, trust)
  }

  /** No dependency of the binary takes a reserved identifier or URI. */
  predicate Clean(o: Oracle, dir: Dir, s: State, r: Record) {
    var modules := ModulesOf(o, Get(dir, ArtifactOf(s, r)));
    StdlibReserved(modules) && UrisReserved(s.context, modules)
  }

  lemma PackageIsCarried(d: Dir, o: Oracle, dir: Dir, s: State, r: Record, p: PackageRecord)
    requires s.mode.Release? && RecordCarried(d, o, dir, s, r) && p in r.packages
    ensures PackageCarried(d, o, dir, s, r, p)
  {
    var i :| 0 <= i < |r.packages| && r.packages[i] == p;
    forall n | n in PackagePayloads(s, r)(p) ensures Holds(d, n, Get(dir, n)) {
      FlatMapContains(PackagePayloads(s, r), r.packages, n);
      assert n in RecordPayloads(s)(r);
    }
    forall x | x in PackageDocs(o, dir, s, r)(p) ensures Holds(d, x.0, x.1) {
      FlatMapContains(PackageDocs(o, dir, s, r), r.packages, x);
      assert x in RecordDocs(o, dir, s)(r);
    }
  }

  /** The artifact, its two documents and, for a signed executable, its evidence. */
  ghost predicate OwnCarried(d: Dir, o: Oracle, dir: Dir, s: State, r: Record) {
    && Holds(d, ArtifactOf(s, r), Get(dir, ArtifactOf(s, r)))
    && Holds(d, SbomName(ArtifactOf(s, r)), ArtifactSbom(o, dir, s, r))
    && Holds(d, ProvenanceName(ArtifactOf(s, r)), ArtifactStatement(o, dir, s, r))
    && (s.mode.Release? && r.target.os.Darwin? ==>
          Holds(d, ExecutableEvidenceName(r.target), Get(dir, ExecutableEvidenceName(r.target))))
  }

  lemma OwnIsCarried(d: Dir, o: Oracle, dir: Dir, s: State, r: Record)
    requires RecordCarried(d, o, dir, s, r)
    ensures OwnCarried(d, o, dir, s, r)
  {
    OwnPayloads(s, r);
    OwnDocuments(o, dir, s, r);
  }

  lemma OwnPayloads(s: State, r: Record)
    ensures ArtifactOf(s, r) in RecordPayloads(s)(r)
    ensures s.mode.Release? && r.target.os.Darwin? ==> ExecutableEvidenceName(r.target) in RecordPayloads(s)(r)
  {
    assert RecordPayloads(s)(r)[0] == ArtifactOf(s, r);
    if s.mode.Release? && r.target.os.Darwin? {
      assert RecordPayloads(s)(r)[1] == ExecutableEvidenceName(r.target);
    }
  }

  lemma OwnDocuments(o: Oracle, dir: Dir, s: State, r: Record)
    ensures (SbomName(ArtifactOf(s, r)), ArtifactSbom(o, dir, s, r)) in RecordDocs(o, dir, s)(r)
    ensures (ProvenanceName(ArtifactOf(s, r)), ArtifactStatement(o, dir, s, r)) in RecordDocs(o, dir, s)(r)
  {
    var docs := RecordDocs(o, dir, s)(r);
    assert docs[0] in docs && docs[1] in docs;
  }

  lemma StatementAccepted(o: Oracle, dir: Dir, s: State, r: Record, trusted: Option<string>)
    requires OwnReady(o, dir, s, r)
    ensures var e := TargetEntryFor(o, dir, s)(r);
            VerifyProvenance(ArtifactStatement(o, dir, s, r).statement, e.artifact, e.target, e.native, s.context, trusted)
            <==> UrisReserved(s.context, ModulesOf(o, Get(dir, ArtifactOf(s, r)))) && BuilderTrusted(s.context, trusted)
  {
    var e := TargetEntryFor(o, dir, s)(r);
    ProvenanceAccepted(o.tools, s.context, r.target, e.artifact, e.native, ModulesOf(o, Get(dir, ArtifactOf(s, r))), trusted);
  }

  lemma DocumentAccepted(o: Oracle, dir: Dir, s: State, r: Record)
    requires OwnReady(o, dir, s, r)
    ensures var c := Get(dir, ArtifactOf(s, r));
            VerifySbom(o.tools, ArtifactSbom(o, dir, s, r).document, o.sha1(c), EntryOf(o, dir, ArtifactOf(s, r)), s.context)
            <==> StdlibReserved(ModulesOf(o, c))
  {
    var c := Get(dir, ArtifactOf(s, r));
    SbomAccepted(o.tools, s.context, r.target, EntryOf(o, dir, ArtifactOf(s, r)), o.sha1(c), ModulesOf(o, c));
  }

  lemma DocsAccepted(d: Dir, o: Oracle, dir: Dir, s: State, r: Record, trusted: Option<string>)
    requires OwnReady(o, dir, s, r) && OwnCarried(d, o, dir, s, r)
    ensures TargetDocsOk(o, d, s.context, TargetEntryFor(o, dir, s)(r), trusted)
            <==> Clean(o, dir, s, r) && BuilderTrusted(s.context, trusted)
  {
    hide VerifySbom, VerifyProvenance, MakeSbom, StatementOf, OwnReady, StdlibReserved, UrisReserved;
    DocumentAccepted(o, dir, s, r);
    StatementAccepted(o, dir, s, r, trusted);
  }

  lemma NativeAccepted(d: Dir, o: Oracle, dir: Dir, s: State, r: Record, trust: Trust)
    requires RecordReady(o, dir, s, r) && OwnCarried(d, o, dir, s, r)
    ensures NativeOk(o, d, TargetEntryFor(o, dir, s)(r), trust) <==> NativeTrusted(TargetEntryFor(o, dir, s)(r).native, trust)
  {
  }

  lemma HashesAccepted(d: Dir, o: Oracle, dir: Dir, s: State, r: Record)
    requires OwnCarried(d, o, dir, s, r)
    ensures var e := TargetEntryFor(o, dir, s)(r);
            HashEntryOk(o, d, e.artifact.file) && HashEntryOk(o, d, e.sbom) && HashEntryOk(o, d, e.provenance.file)
  {
  }

  lemma PackagesAccepted(d: Dir, o: Oracle, dir: Dir, s: State, r: Record, e: TargetEntry, trust: Trust,
                         trusted: Option<string>)
    requires forall p :: p in r.packages ==> PackageReady(o, dir, s, r, p) && PackageCarried(d, o, dir, s, r, p)
    requires Holds(d, e.sbom.filename, ArtifactSbom(o, dir, s, r))
    requires e.target == r.target && e.artifact.file == EntryOf(o, dir, ArtifactOf(s, r))
    requires e.packages == Map(PackageEntryFor(o, dir, s, r), r.packages)
    requires Buildable(s.context, ModulesOf(o, Get(dir, ArtifactOf(s, r))))
    requires StdlibReserved(ModulesOf(o, Get(dir, ArtifactOf(s, r)))) && BuilderTrusted(s.context, trusted)
    ensures forall p :: p in e.packages ==> (PackageOk(o, d, s.context, e, p, trust, trusted) <==> PackageTrusted(p.native, trust))
  {
    hide PackageOk, PackageReady, PackageCarried, PackageTrusted, PackageEntryFor, StdlibReserved, ArtifactSbom;
    forall p | p in e.packages ensures PackageOk(o, d, s.context, e, p, trust, trusted) <==> PackageTrusted(p.native, trust) {
      var i :| 0 <= i < |e.packages| && e.packages[i] == p;
      PackageAccepted(d, o, dir, s, r, r.packages[i], e, trust, trusted);
    }
  }

  lemma TargetComposed(d: Dir, o: Oracle, m: Manifest, e: TargetEntry, trust: Trust, trusted: Option<string>, clean: bool)
    requires HashEntryOk(o, d, e.artifact.file) && HashEntryOk(o, d, e.sbom) && HashEntryOk(o, d, e.provenance.file)
    requires m.mode.LocalUnsigned? || e.native.NotRequired? ==> CandidateOk(e.artifact)
    requires TargetDocsOk(o, d, m.context, e, trusted) <==> clean && BuilderTrusted(m.context, trusted)
    requires NativeOk(o, d, e, trust) <==> NativeTrusted(e.native, trust)
    requires clean && BuilderTrusted(m.context, trusted) ==>
      (forall p :: p in e.packages ==> (PackageOk(o, d, m.context, e, p, trust, trusted) <==> PackageTrusted(p.native, trust)))
    ensures TargetOk(o, d, m, e, trust, trusted) <==> clean && BuilderTrusted(m.context, trusted) && EntryTrusted(e, trust)
  {
  }

  lemma CandidateKept(o: Oracle, dir: Dir, s: State, r: Record)
    requires RecordReady(o, dir, s, r)
    ensures var e := TargetEntryFor(o, dir, s)(r);
            s.mode.LocalUnsigned? || e.native.NotRequired? ==> CandidateOk(e.artifact)
  {
  }

  lemma EntryPackagesAccepted(d: Dir, o: Oracle, dir: Dir, s: State, r: Record, trust: Trust, trusted: Option<string>)
    requires RecordReady(o, dir, s, r) && RecordCarried(d, o, dir, s, r)
    requires Clean(o, dir, s, r) && BuilderTrusted(s.context, trusted)
    ensures var e := TargetEntryFor(o, dir, s)(r);
            forall p :: p in e.packages ==> (PackageOk(o, d, s.context, e, p, trust, trusted) <==> PackageTrusted(p.native, trust))
  {
    if s.mode.Release? {
      OwnIsCarried(d, o, dir, s, r);
      forall p | p in r.packages ensures PackageReady(o, dir, s, r, p) && PackageCarried(d, o, dir, s, r, p) {
        PackageIsCarried(d, o, dir, s, r, p);
      }
      PackagesAccepted(d, o, dir, s, r, TargetEntryFor(o, dir, s)(r), trust, trusted);
    }
  }

  /** A target passes exactly when its dependencies are clean, the identities recorded for it are
      the pinned ones and the builder is trusted. */
  lemma TargetAccepted(d: Dir, o: Oracle, dir: Dir, s: State, r: Record, m: Manifest, trust: Trust, trusted: Option<string>)
    requires RecordReady(o, dir, s, r) && RecordCarried(d, o, dir, s, r)
    requires m.mode == s.mode && m.context == s.context
    ensures TargetOk(o, d, m, TargetEntryFor(o, dir, s)(r), trust, trusted)
            <==> && Clean(o, dir, s, r) && BuilderTrusted(s.context, trusted)
                 && EntryTrusted(TargetEntryFor(o, dir, s)(r), trust)
  {
    OwnIsCarried(d, o, dir, s, r);
    HashesAccepted(d, o, dir, s, r);
    DocsAccepted(d, o, dir, s, r, trusted);
    NativeAccepted(d, o, dir, s, r, trust);
    CandidateKept(o, dir, s, r);
    if Clean(o, dir, s, r) && BuilderTrusted(s.context, trusted) {
      EntryPackagesAccepted(d, o, dir, s, r, trust, trusted);
    }
    TargetComposed(d, o, m, TargetEntryFor(o, dir, s)(r), trust, trusted, Clean(o, dir, s, r));
  }

  // ----- The whole directory -----

  /** Every file of `base` is in `d`, unchanged. */
  ghost predicate Extends(d: Dir, base: Dir) { forall n :: n in base ==> Holds(d, n, base[n]) }

  lemma FinalizedCarries(d: Dir, o: Oracle, dir: Dir, s: State)
    requires Ready(o, dir, s) && Separate(Payloads(s), DocumentNames(o, dir, s)) && Extends(d, Finalized(o, dir, s))
    ensures Carries(d, o, dir, s)
  {
    FinalizedRead(o, dir, s);
    forall n | n in Payloads(s) ensures Holds(d, n, Get(dir, n)) {
      assert n in Elems(Payloads(s));
    }
  }

  lemma RecordIsCarried(d: Dir, o: Oracle, dir: Dir, s: State, r: Record)
    requires Carries(d, o, dir, s) && r in s.records
    ensures RecordCarried(d, o, dir, s, r)
  {
    forall n | n in RecordPayloads(s)(r) ensures Holds(d, n, Get(dir, n)) {
      FlatMapContains(RecordPayloads(s), s.records, n);
    }
    forall x | x in RecordDocs(o, dir, s)(r) ensures Holds(d, x.0, x.1) {
      FlatMapContains(RecordDocs(o, dir, s), s.records, x);
    }
  }

  lemma ChecksumsAccepted(o: Oracle, d: Dir, base: Dir, m: Manifest)
    requires Holds(d, CHECKSUMS, ChecksumsFor(o, base, ContentNames(m))) && NoDup(ContentNames(m))
    requires forall n :: n in ContentNames(m) ==> Holds(d, n, Get(base, n))
    ensures ChecksumsOk(o, d, m)
  {
    LinesAccepted(o, d, base, ContentNames(m), SortedNames(ContentNames(m)));
    SortedNamesEqual(SortedNames(ContentNames(m)), ContentNames(m));
  }

  lemma LinesAccepted(o: Oracle, d: Dir, base: Dir, names: seq<string>, sorted: seq<string>)
    requires NoDup(names) && multiset(sorted) == multiset(names)
    requires forall n :: n in names ==> Holds(d, n, Get(base, n))
    ensures var lines := Map(ChecksumLine(o, base), sorted);
      && Map(LineName, lines) == sorted && NoDup(sorted)
      && forall line :: line in lines ==> line.1 in d && o.sha256(d[line.1]) == line.0
  {
    var lines := Map(ChecksumLine(o, base), sorted);
    NoDupPermutation(names, sorted);
    forall line | line in lines ensures line.1 in d && o.sha256(d[line.1]) == line.0 {
      var i :| 0 <= i < |lines| && lines[i] == line;
      assert sorted[i] in multiset(names);
    }
  }

  lemma ContentSpelled(o: Oracle, dir: Dir, s: State)
    ensures var m := ManifestFor(o, dir, s);
            ContentNames(m) == [Marker(o, m).0] + Map(FilenameOf, FlatMap(TargetFiles, m.targets)) + [MANIFEST]
  {
    assert ContentHead(ManifestFor(o, dir, s)) == [Marker(o, ManifestFor(o, dir, s)).0];
  }

  lemma Bracketed(first: string, names: seq<string>, last: string, payloads: seq<string>, docs: seq<string>, work: string, sums: string)
    requires multiset(names) == multiset(payloads + docs) && NoDup(payloads + docs)
    requires Apart(payloads + docs, work, first, last, sums)
    ensures NoDup([first] + names + [last]) && work !in [first] + names + [last] && sums !in [first] + names + [last]
    ensures Elems([first] + names + [last]) == Elems(payloads) + Elems(docs) + {first, last}
  {
    NoDupPermutation(names, payloads + docs);
    var fixedNames := [work, first, last, sums];
    assert fixedNames[0] != fixedNames[1] && fixedNames[0] != fixedNames[2] && fixedNames[1] != fixedNames[2]
        && fixedNames[3] != fixedNames[1] && fixedNames[3] != fixedNames[2];
    forall n | n in names ensures n != work && n != first && n != last && n != sums {
      assert n in multiset(payloads + docs);
      assert n in payloads + docs;
    }
    NoDupConcat([first], names);
    NoDupConcat([first] + names, [last]);
    ElemsConcat([first] + names, [last]);
    ElemsConcat([first], names);
    ElemsConcat(payloads, docs);
  }

  /** The finalized directory is exactly the manifest's content files and the checksum file. */
  lemma FinalizedNames(o: Oracle, dir: Dir, s: State)
    requires Ready(o, dir, s) && Separate(Payloads(s), DocumentNames(o, dir, s))
    ensures var names := ContentNames(ManifestFor(o, dir, s));
            && NoDup(names) && WORK_STATE !in names && CHECKSUMS !in names
            && Finalized(o, dir, s).Keys == Elems(names) + {CHECKSUMS}
  {
    var m := ManifestFor(o, dir, s);
    FinalizedRead(o, dir, s);
    TargetNamesOf(o, dir, s);
    ContentSpelled(o, dir, s);
    SeparateApart(Payloads(s) + DocumentNames(o, dir, s), s.mode);
    NamesOver(m, Finalized(o, dir, s), Marker(o, m).0, Map(FilenameOf, FlatMap(TargetFiles, m.targets)), Payloads(s),
              DocumentNames(o, dir, s));
  }

  lemma NamesOver(m: Manifest, final: Dir, marker: string, names: seq<string>, payloads: seq<string>, docs: seq<string>)
    requires ContentNames(m) == [marker] + names + [MANIFEST] && multiset(names) == multiset(payloads + docs)
    requires NoDup(payloads + docs) && Apart(payloads + docs, WORK_STATE, marker, MANIFEST, CHECKSUMS)
    requires final.Keys == Elems(payloads) + Elems(docs) + {marker, MANIFEST, CHECKSUMS}
    ensures NoDup(ContentNames(m)) && WORK_STATE !in ContentNames(m) && CHECKSUMS !in ContentNames(m)
    ensures final.Keys == Elems(ContentNames(m)) + {CHECKSUMS}
  {
    Bracketed(marker, names, MANIFEST, payloads, docs, WORK_STATE, CHECKSUMS);
  }

  lemma SumsAccepted(d: Dir, o: Oracle, dir: Dir, s: State)
    requires Ready(o, dir, s) && Separate(Payloads(s), DocumentNames(o, dir, s)) && Extends(d, Finalized(o, dir, s))
    ensures ChecksumsOk(o, d, ManifestFor(o, dir, s))
  {
    FinalizedNames(o, dir, s);
    FinalizedRead(o, dir, s);
    SumsOver(d, o, Described(o, dir, s), ManifestFor(o, dir, s), Finalized(o, dir, s));
  }

  lemma SumsOver(d: Dir, o: Oracle, base: Dir, m: Manifest, final: Dir)
    requires final == base[CHECKSUMS := ChecksumsFor(o, base, ContentNames(m))] - {WORK_STATE}
    requires CHECKSUMS in final && Extends(d, final)
    requires NoDup(ContentNames(m)) && WORK_STATE !in ContentNames(m) && CHECKSUMS !in ContentNames(m)
    requires final.Keys == Elems(ContentNames(m)) + {CHECKSUMS}
    ensures ChecksumsOk(o, d, m)
  {
    forall n | n in ContentNames(m) ensures Holds(d, n, Get(base, n)) {
      assert n in Elems(ContentNames(m));
      assert n in final && final[n] == base[n];
    }
    ChecksumsAccepted(o, d, base, m);
  }

  /** All dependencies are clean and all recorded identities are the pinned ones. */
  ghost predicate Sound(o: Oracle, dir: Dir, s: State, trust: Trust) {
    forall r :: r in s.records ==> Clean(o, dir, s, r) && EntryTrusted(TargetEntryFor(o, dir, s)(r), trust)
  }

  ghost predicate EntryPasses(d: Dir, o: Oracle, dir: Dir, s: State, m: Manifest, trust: Trust, trusted: Option<string>,
                              r: Record, e: TargetEntry)
  {
    TargetOk(o, d, m, e, trust, trusted)
    <==> Clean(o, dir, s, r) && BuilderTrusted(s.context, trusted) && EntryTrusted(e, trust)
  }

  lemma RecordPasses(d: Dir, o: Oracle, dir: Dir, s: State, m: Manifest, trust: Trust, trusted: Option<string>, r: Record)
    requires RecordReady(o, dir, s, r) && Carries(d, o, dir, s) && r in s.records
    requires m.mode == s.mode && m.context == s.context
    ensures EntryPasses(d, o, dir, s, m, trust, trusted, r, TargetEntryFor(o, dir, s)(r))
  {
    RecordIsCarried(d, o, dir, s, r);
    TargetAccepted(d, o, dir, s, r, m, trust, trusted);
  }

  lemma TargetsAccepted(d: Dir, o: Oracle, dir: Dir, s: State, m: Manifest, trust: Trust, trusted: Option<string>)
    requires s.records != [] && (forall r :: r in s.records ==> RecordReady(o, dir, s, r)) && Carries(d, o, dir, s)
    requires m.mode == s.mode && m.context == s.context && m.targets == Map(TargetEntryFor(o, dir, s), s.records)
    ensures (forall e :: e in m.targets ==> TargetOk(o, d, m, e, trust, trusted))
            <==> Sound(o, dir, s, trust) && BuilderTrusted(s.context, trusted)
  {
    hide TargetOk, RecordReady, Clean, EntryTrusted, TargetEntryFor, EntryPasses, Carries, BuilderTrusted;
    forall r | r in s.records ensures EntryPasses(d, o, dir, s, m, trust, trusted, r, TargetEntryFor(o, dir, s)(r)) {
      RecordPasses(d, o, dir, s, m, trust, trusted, r);
    }
    TargetsComposed(d, o, dir, s, m, TargetEntryFor(o, dir, s), trust, trusted);
  }

  lemma TargetsComposed(d: Dir, o: Oracle, dir: Dir, s: State, m: Manifest, f: Record -> TargetEntry, trust: Trust,
                        trusted: Option<string>)
    requires s.records != [] && m.targets == Map(f, s.records)
    requires forall r :: r in s.records ==> EntryPasses(d, o, dir, s, m, trust, trusted, r, f(r))
    ensures (forall e :: e in m.targets ==> TargetOk(o, d, m, e, trust, trusted))
            <==> (forall r :: r in s.records ==> Clean(o, dir, s, r) && EntryTrusted(f(r), trust))
                 && BuilderTrusted(s.context, trusted)
  {
    var good := (e: TargetEntry) => TargetOk(o, d, m, e, trust, trusted);
    var clean := (r: Record) => Clean(o, dir, s, r);
    var pinned := (e: TargetEntry) => EntryTrusted(e, trust);
    forall r | r in s.records
      ensures good(f(r)) <==> clean(r) && BuilderTrusted(s.context, trusted) && pinned(f(r))
    {
      assert EntryPasses(d, o, dir, s, m, trust, trusted, r, f(r));
    }
    AllPass(m.targets, s.records, f, good, clean, pinned, BuilderTrusted(s.context, trusted));
  }

  lemma AllPass<A(!new), B(!new)>(ys: seq<B>, xs: seq<A>, f: A -> B, good: B -> bool, clean: A -> bool, pinned: B -> bool, b: bool)
    requires ys == Map(f, xs) && xs != []
    requires forall x :: x in xs ==> (good(f(x)) <==> clean(x) && b && pinned(f(x)))
    ensures (forall y :: y in ys ==> good(y)) <==> (forall x :: x in xs ==> clean(x) && pinned(f(x))) && b
  {
    if forall y :: y in ys ==> good(y) {
      forall x | x in xs ensures clean(x) && pinned(f(x)) && b {
        var i :| 0 <= i < |xs| && xs[i] == x;
        assert ys[i] in ys;
      }
      assert xs[0] in xs;
    }
    if (forall x :: x in xs ==> clean(x) && pinned(f(x))) && b {
      forall y | y in ys ensures good(y) {
        var i :| 0 <= i < |ys| && ys[i] == y;
        assert xs[i] in xs;
      }
    }
  }

  /** Every content check of `sign` and `verify` on a directory that extends the finalized one. */
  lemma ContentAccepted(d: Dir, o: Oracle, dir: Dir, s: State, trust: Trust, trusted: Option<string>)
    requires Ready(o, dir, s) && Separate(Payloads(s), DocumentNames(o, dir, s)) && Extends(d, Finalized(o, dir, s))
    ensures ContentOk(o, d, ManifestFor(o, dir, s), trust, trusted)
            <==> Sound(o, dir, s, trust) && BuilderTrusted(s.context, trusted)
  {
    var m := ManifestFor(o, dir, s);
    FinalizedCarries(d, o, dir, s);
    SumsAccepted(d, o, dir, s);
    FinalizedRead(o, dir, s);
    TargetsAccepted(d, o, dir, s, m, trust, trusted);
    if s.mode.Release? { MetadataAccepted(d, o, dir, s); }
  }

  lemma MetadataAccepted(d: Dir, o: Oracle, dir: Dir, s: State)
    requires Ready(o, dir, s) && Separate(Payloads(s), DocumentNames(o, dir, s)) && Extends(d, Finalized(o, dir, s))
    requires s.mode.Release?
    ensures MetadataOk(o, d, ManifestFor(o, dir, s))
  {
    FinalizedRead(o, dir, s);
    assert Holds(d, MANIFEST, ManifestDoc(ManifestFor(o, dir, s)));
  }

  // ----- Sign, then verify -----

  lemma BundlesApart(m: Manifest)
    requires ShapedManifest(m) && m.mode.Release? && Admissible(Matrix(m))
    ensures BundleSet(m) !! Elems(ContentNames(m)) + {CHECKSUMS}
  {
    InventoryDistinct(m);
    var names := ContentNames(m) + [CHECKSUMS];
    var blobs, attested := Map(Second, Blobs(m)), Map(Second, Attestations(m));
    NoDupConcat(names + blobs, attested);
    NoDupConcat(names, blobs);
    ElemsConcat(names, blobs);
    ElemsConcat(ContentNames(m), [CHECKSUMS]);
    assert forall n :: n in Elems(names) ==> n in names && n in names + blobs;
  }

  /** Names outside the release vocabulary are neither content files nor bundles. */
  lemma NotReleased(m: Manifest, n: string)
    requires ShapedManifest(m) && m.mode.Release? && n != "" && n[0] in {'.', 'R'}
    ensures n !in Elems(ContentNames(m)) + {CHECKSUMS} + BundleSet(m)
  {
    InventoryDistinct(m);
    var names := ContentNames(m) + [CHECKSUMS];
    var blobs, attested := Map(Second, Blobs(m)), Map(Second, Attestations(m));
    ElemsConcat(names + blobs, attested);
    ElemsConcat(names, blobs);
    ElemsConcat(ContentNames(m), [CHECKSUMS]);
    NoAsset(m.context.version, Matrix(m), n);
  }

  lemma NoAsset(version: string, matrix: seq<Target>, n: string)
    requires n != "" && n[0] in {'.', 'R'}
    ensures n !in Elems(MatrixAssets(version, matrix))
  {
    ElemsConcat(FixedAssets(), FlatMap(AssetsOf(version), matrix));
    if n in FixedAssets() { FixedInitial(n); }
    if n in FlatMap(AssetsOf(version), matrix) { MatrixInitial(version, matrix, n); }
  }

  lemma MarkerAbsent(m: Manifest)
    requires ShapedManifest(m) && m.mode.Release?
    ensures LOCAL_MARKER !in Elems(ContentNames(m)) + {CHECKSUMS} + BundleSet(m)
    ensures WORK_STATE !in Elems(ContentNames(m)) + {CHECKSUMS} + BundleSet(m)
  {
    hide ShapedManifest, ContentNames, BundleSet;
    assert LOCAL_MARKER[0] == 'R' && WORK_STATE[0] == '.';
    NotReleased(m, LOCAL_MARKER);
    NotReleased(m, WORK_STATE);
  }

  lemma SignDecides(o: Oracle, d: Dir, m: Manifest, matrix: seq<Target>, trust: Trust, sound: bool)
    requires Holds(d, MANIFEST, ManifestDoc(m)) && ShapedManifest(m) && m.mode.Release? && LOCAL_MARKER !in d
    requires d.Keys == Elems(ContentNames(m)) + {CHECKSUMS}
    requires ContentOk(o, d, m, trust, Some(m.context.builder)) <==> sound
    ensures SignAdmits(o, d, matrix, trust) <==> matrix == Matrix(m) && sound && BundleSet(m) !! d.Keys
  {
    hide ContentOk, ShapedManifest, BundleSet, ContentNames, Matrix;
  }

  lemma ManifestHeld(o: Oracle, dir: Dir, s: State)
    ensures Holds(Finalized(o, dir, s), MANIFEST, ManifestDoc(ManifestFor(o, dir, s)))
  {
    hide ManifestFor, AllDocs;
    assert MANIFEST[0] == 'm' && CHECKSUMS[0] == 'S' && RELEASE_METADATA[0] == 'c' && WORK_STATE[0] == '.';
  }

  lemma ListedOnce(o: Oracle, d: Dir, m: Manifest)
    requires ChecksumsOk(o, d, m)
    ensures NoDup(ContentNames(m))
  {
    hide ContentNames;
    var lines := Get(d, CHECKSUMS).lines;
    SortedNamesEqual(Map(LineName, lines), ContentNames(m));
    NoDupPermutation(Map(LineName, lines), ContentNames(m));
  }

  lemma InnerDistinct(a: string, names: seq<string>, b: string)
    requires NoDup([a] + names + [b])
    ensures NoDup(names)
  {
    NoDupConcat([a] + names, [b]);
    NoDupConcat([a], names);
  }

  /** No two files finalization leaves share a name, once each content file is listed once. */
  lemma AdmittedSeparate(o: Oracle, dir: Dir, s: State, matrix: seq<Target>, trust: Trust)
    requires Ready(o, dir, s) && s.mode.Release? && SignAdmits(o, Finalized(o, dir, s), matrix, trust)
    ensures Separate(Payloads(s), DocumentNames(o, dir, s))
  {
    hide Ready, Finalized, ManifestFor, ContentNames, ChecksumsOk, MetadataOk, TargetOk, ShapedManifest, BundleSet, FIXED;
    var m := ManifestFor(o, dir, s);
    var names := Map(FilenameOf, FlatMap(TargetFiles, m.targets));
    ManifestHeld(o, dir, s);
    ListedOnce(o, Finalized(o, dir, s), m);
    ContentSpelled(o, dir, s);
    InnerDistinct(Marker(o, m).0, names, MANIFEST);
    TargetNamesOf(o, dir, s);
    NoDupPermutation(names, Payloads(s) + DocumentNames(o, dir, s));
    NamesNotFixed(o, dir, s);
  }

  lemma NamesNotFixed(o: Oracle, dir: Dir, s: State)
    requires Ready(o, dir, s)
    ensures forall n :: n in Payloads(s) + DocumentNames(o, dir, s) ==> n !in FIXED
  {
    hide RecordReady, ManifestFor, AllDocs, TargetFiles, ContentAt, AssetsOf, TrioAt, FIXED;
    var m := ManifestFor(o, dir, s);
    var version, matrix := m.context.version, Matrix(m);
    var names := Map(FilenameOf, FlatMap(TargetFiles, m.targets));
    ManifestShaped(o, dir, s);
    TargetNamesOf(o, dir, s);
    NoDupPermutation(names, Payloads(s) + DocumentNames(o, dir, s));
    if m.mode.Release? { ReleaseContentNames(m); } else { LocalContentNames(version, m.targets); }
    forall n | n in Payloads(s) + DocumentNames(o, dir, s) ensures n !in FIXED {
      assert n in Elems(names);
      if m.mode.Release? { ContentIsAsset(version, matrix, n); } else { LocalIsAsset(version, matrix, n); }
      FixedNotAsset(version, matrix, n);
    }
  }

  lemma LocalIsAsset(version: string, matrix: seq<Target>, n: string)
    requires n in FlatMap(TrioAt(version), matrix)
    ensures n in FlatMap(AssetsOf(version), matrix)
  {
    FlatMapContains(TrioAt(version), matrix, n);
    var i :| 0 <= i < |matrix| && n in TrioAt(version)(matrix[i]);
    TrioIsAsset(version, matrix[i], n);
    FlatMapContains(AssetsOf(version), matrix, n);
  }

  lemma ReleaseMode(o: Oracle, dir: Dir, s: State)
    ensures ManifestFor(o, dir, s).mode == s.mode && ManifestFor(o, dir, s).context == s.context
  {
  }

  /** No name of a finalized release serves two files: payloads and documents, content and bundles. */
  ghost predicate NamesSeparate(o: Oracle, dir: Dir, s: State) {
    Separate(Payloads(s), DocumentNames(o, dir, s)) && BundleSet(ManifestFor(o, dir, s)) !! Finalized(o, dir, s).Keys
  }

  /** `sign` admits a finalized release exactly when its matrix is the configured one, every dependency
      is clean, every recorded identity is the pinned one and no name serves two files. */
  lemma SignAcceptsExactly(o: Oracle, dir: Dir, s: State, matrix: seq<Target>, trust: Trust)
    requires Ready(o, dir, s) && s.mode.Release?
    ensures SignAdmits(o, Finalized(o, dir, s), matrix, trust)
            <==> matrix == Map(TargetAt, s.records) && Sound(o, dir, s, trust) && NamesSeparate(o, dir, s)
  {
    hide Ready, Finalized, ManifestFor, ContentNames, SignAdmits, Sound, BundleSet, Separate, Payloads, DocumentNames, ShapedManifest, ContentOk, Matrix;
    if SignAdmits(o, Finalized(o, dir, s), matrix, trust) { AdmittedSeparate(o, dir, s, matrix, trust); }
    if Separate(Payloads(s), DocumentNames(o, dir, s)) { SignWhenSeparate(o, dir, s, matrix, trust); }
  }

  lemma SignWhenSeparate(o: Oracle, dir: Dir, s: State, matrix: seq<Target>, trust: Trust)
    requires Ready(o, dir, s) && s.mode.Release? && Separate(Payloads(s), DocumentNames(o, dir, s))
    ensures SignAdmits(o, Finalized(o, dir, s), matrix, trust)
            <==> matrix == Map(TargetAt, s.records) && Sound(o, dir, s, trust) && BundleSet(ManifestFor(o, dir, s)) !! Finalized(o, dir, s).Keys
  {
    var m, d := ManifestFor(o, dir, s), Finalized(o, dir, s);
    ManifestShaped(o, dir, s);
    FinalizedNames(o, dir, s);
    FinalizedRead(o, dir, s);
    MarkerAbsent(m);
    ContentAccepted(d, o, dir, s, trust, Some(s.context.builder));
    SignDecides(o, d, m, matrix, trust, Sound(o, dir, s, trust));
  }

  /** An admissible matrix keeps all names apart. */
  lemma AdmissibleSeparate(o: Oracle, dir: Dir, s: State)
    requires Ready(o, dir, s) && s.mode.Release? && Admissible(Map(TargetAt, s.records))
    ensures NamesSeparate(o, dir, s)
  {
    var m := ManifestFor(o, dir, s);
    SeparateRelease(o, dir, s);
    ManifestShaped(o, dir, s);
    FinalizedNames(o, dir, s);
    BundlesApart(m);
  }

  /** With an admissible matrix the names are no further condition. */
  lemma SignAccepts(o: Oracle, dir: Dir, s: State, matrix: seq<Target>, trust: Trust)
    requires Ready(o, dir, s) && s.mode.Release? && Admissible(Map(TargetAt, s.records))
    ensures SignAdmits(o, Finalized(o, dir, s), matrix, trust)
            <==> matrix == Map(TargetAt, s.records) && Sound(o, dir, s, trust)
  {
    hide Ready, Finalized, SignAdmits, Sound, Admissible, NamesSeparate;
    AdmissibleSeparate(o, dir, s);
    SignAcceptsExactly(o, dir, s, matrix, trust);
  }

  /** The signer on an input and the bundle it is asked to write; it may fail. */
  type Signer = (string, string) -> Option<Content>

  /** The signing plan as one list: blobs, then attestations. */
  function Plan(m: Manifest): seq<(string, string)> { Blobs(m) + Attestations(m) }

  function BundleRow(sign: Signer): ((string, string)) -> (string, Content) {
    (p: (string, string)) => (p.1, match sign(p.0, p.1) case Some(c) => c case None => Payload([]))
  }

  function BundleRows(sign: Signer, plan: seq<(string, string)>): seq<(string, Content)> { Map(BundleRow(sign), plan) }

  /** The directory after signing: the bundles of the plan, written in its order. */
  function Signed(d: Dir, m: Manifest, sign: Signer): Dir { Assign(d, BundleRows(sign, Plan(m))) }

  lemma RowNames(sign: Signer, plan: seq<(string, string)>)
    ensures Map(Fst, BundleRows(sign, plan)) == Map(Second, plan)
  {
  }

  lemma PlanBundles(m: Manifest)
    ensures Elems(Map(Second, Plan(m))) == BundleSet(m)
  {
    hide Blobs, Attestations;
    MapAppend(Second, Blobs(m), Attestations(m));
    ElemsConcat(Map(Second, Blobs(m)), Map(Second, Attestations(m)));
  }

  lemma VerifyDecides(o: Oracle, d: Dir, m: Manifest, matrix: seq<Target>, trust: Trust, identity: string, sound: bool)
    requires Holds(d, MANIFEST, ManifestDoc(m)) && ShapedManifest(m) && m.mode.Release? && LOCAL_MARKER !in d
    requires d.Keys == Elems(ContentNames(m)) + {CHECKSUMS} + BundleSet(m)
    requires ContentOk(o, d, m, trust, Some(identity)) <==> sound
    ensures VerifyAdmits(o, d, matrix, trust, identity) <==> matrix == Matrix(m) && sound
  {
  }

  /** `verify` accepts a release signed by its own builder exactly when `sign` admitted it, and
      refuses it under every other identity. */
  lemma VerifyAccepts(o: Oracle, dir: Dir, s: State, matrix: seq<Target>, trust: Trust, identity: string, sign: Signer)
    requires Ready(o, dir, s) && s.mode.Release? && NamesSeparate(o, dir, s)
    ensures VerifyAdmits(o, Signed(Finalized(o, dir, s), ManifestFor(o, dir, s), sign), matrix, trust, identity)
            <==> SignAdmits(o, Finalized(o, dir, s), matrix, trust) && identity == s.context.builder
  {
    var m, base := ManifestFor(o, dir, s), Finalized(o, dir, s);
    var d := Signed(base, m, sign);
    SignWhenSeparate(o, dir, s, matrix, trust);
    ManifestShaped(o, dir, s);
    FinalizedNames(o, dir, s);
    FinalizedRead(o, dir, s);
    MarkerAbsent(m);
    SignedExtends(base, m, sign);
    ContentAccepted(d, o, dir, s, trust, Some(identity));
    VerifyDecides(o, d, m, matrix, trust, identity, Sound(o, dir, s, trust) && BuilderTrusted(s.context, Some(identity)));
  }

  lemma SignedExtends(base: Dir, m: Manifest, sign: Signer)
    requires BundleSet(m) !! base.Keys
    ensures Extends(Signed(base, m, sign), base)
    ensures Signed(base, m, sign).Keys == base.Keys + BundleSet(m)
  {
    hide Plan, BundleRow, Assign;
    PlanBundles(m);
    PrefixExtends(base, BundleSet(m), sign, Plan(m));
  }

  lemma PrefixExtends(base: Dir, bundles: set<string>, sign: Signer, plan: seq<(string, string)>)
    requires bundles !! base.Keys && Elems(Map(Second, plan)) <= bundles
    ensures Extends(Assign(base, BundleRows(sign, plan)), base)
    ensures Assign(base, BundleRows(sign, plan)).Keys == base.Keys + Elems(Map(Second, plan))
  {
    hide BundleRow, Assign;
    var rows := BundleRows(sign, plan);
    RowNames(sign, plan);
    AssignKeys(base, rows);
    forall n | n in base ensures Holds(Assign(base, rows), n, base[n]) {
      assert n !in Elems(Map(Second, plan));
      AssignKeeps(base, rows, n);
    }
  }

  /** A finalized local-unsigned directory passes its own verification exactly when every
      dependency is clean, and `sign` never admits it. */
  lemma LocalAccepted(o: Oracle, dir: Dir, s: State, matrix: seq<Target>, trust: Trust)
    requires Ready(o, dir, s) && s.mode.LocalUnsigned? && Admissible(Map(TargetAt, s.records))
    ensures VerifyLocalAdmits(o, Finalized(o, dir, s), trust) <==> Sound(o, dir, s, trust)
    ensures !SignAdmits(o, Finalized(o, dir, s), matrix, trust)
  {
    var m, d := ManifestFor(o, dir, s), Finalized(o, dir, s);
    SeparateLocal(o, dir, s);
    ManifestShaped(o, dir, s);
    FinalizedNames(o, dir, s);
    FinalizedRead(o, dir, s);
    ContentAccepted(d, o, dir, s, trust, None);
    LocalDecides(o, d, m, matrix, trust, Sound(o, dir, s, trust));
  }

  lemma LocalDecides(o: Oracle, d: Dir, m: Manifest, matrix: seq<Target>, trust: Trust, sound: bool)
    requires Holds(d, MANIFEST, ManifestDoc(m)) && ShapedManifest(m) && m.mode.LocalUnsigned? && LOCAL_MARKER in d
    requires d.Keys == Elems(ContentNames(m)) + {CHECKSUMS} && (ContentOk(o, d, m, trust, None) <==> sound)
    ensures (VerifyLocalAdmits(o, d, trust) <==> sound) && !SignAdmits(o, d, matrix, trust)
  {
  }
}
