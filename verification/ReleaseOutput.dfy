/** The output directory as an object the release commands change in place. */
module ReleaseOutput {
  import opened Sequences
  import opened Text
  import opened ReleaseManifest
  import opened CoreAssets
  import opened ReleaseInventory
  import opened Sbom
  import opened Provenance
  import opened ReleasePipeline
  import opened ReleaseVerification
  import opened ReleaseAcceptance

  // ----- Exclusive writes -----

  lemma FreshExtends(dir: Dir, docs: seq<(string, Content)>)
    requires AllNew(dir.Keys, docs)
    ensures Extends(Assign(dir, docs), dir)
  {
    AssignRead(dir, docs);
  }

  /** Writing stopped after some prefix of the documents. */
  ghost predicate Partly(d: Dir, dir: Dir, docs: seq<(string, Content)>) {
    exists k :: 0 <= k <= |docs| && d == Assign(dir, docs[..k])
  }

  lemma PartlyMore(d: Dir, dir: Dir, a: seq<(string, Content)>, b: seq<(string, Content)>)
    requires Partly(d, dir, a)
    ensures Partly(d, dir, a + b)
  {
    var k :| 0 <= k <= |a| && d == Assign(dir, a[..k]);
    assert (a + b)[..k] == a[..k];
  }

  lemma PartlyAll(dir: Dir, docs: seq<(string, Content)>)
    ensures Partly(Assign(dir, docs), dir, docs)
  {
    assert docs[..|docs|] == docs;
  }

  // ----- The documents depend on the payloads only -----

  lemma OwnLocal(o: Oracle, d: Dir, dir: Dir, s: State, r: Record)
    requires Extends(d, dir) && dir.Keys == PreNames(s) && r in s.records
    ensures OwnReady(o, d, s, r) <==> OwnReady(o, dir, s, r)
    ensures ArtifactSbom(o, d, s, r) == ArtifactSbom(o, dir, s, r)
    ensures ArtifactStatement(o, d, s, r) == ArtifactStatement(o, dir, s, r)
    ensures EntryOf(o, d, ArtifactOf(s, r)) == EntryOf(o, dir, ArtifactOf(s, r))
    ensures NativeFor(o, d, s, r) == NativeFor(o, dir, s, r)
  {
    hide MakeSbom, StatementOf, Buildable, Resolvable, Dependencies, ResolvedOf, PreNames;
    OwnPayloads(s, r);
    PayloadsIn(dir, s, r);
    assert Get(d, ArtifactOf(s, r)) == Get(dir, ArtifactOf(s, r));
    if s.mode.Release? && r.target.os.Darwin? {
      assert Get(d, ExecutableEvidenceName(r.target)) == Get(dir, ExecutableEvidenceName(r.target));
    }
  }

  lemma PayloadsIn(dir: Dir, s: State, r: Record)
    requires dir.Keys == PreNames(s) && r in s.records
    ensures forall n :: n in RecordPayloads(s)(r) ==> n in dir
  {
    forall n | n in RecordPayloads(s)(r) ensures n in dir {
      var i :| 0 <= i < |s.records| && s.records[i] == r;
      FlatMapContains(RecordPayloads(s), s.records, n);
      assert n in Elems(FlatMap(RecordPayloads(s), s.records));
    }
  }

  lemma PackagePayloadsIn(dir: Dir, s: State, r: Record, p: PackageRecord)
    requires dir.Keys == PreNames(s) && r in s.records && p in r.packages && s.mode.Release?
    ensures forall n :: n in PackagePayloads(s, r)(p) ==> n in dir
    ensures PackageOf(s, r, p) in dir && ArtifactOf(s, r) in dir
    ensures r.target.os.Darwin? ==> ExecutableEvidenceName(r.target) in dir
    ensures p.evidence.Some? ==> p.evidence.value in dir && (p.format.Rpm? ==> SigningKeyName(r.target) in dir)
  {
    PayloadsIn(dir, s, r);
    OwnPayloads(s, r);
    forall n | n in PackagePayloads(s, r)(p) ensures n in dir {
      var i :| 0 <= i < |r.packages| && r.packages[i] == p;
      FlatMapContains(PackagePayloads(s, r), r.packages, n);
      assert n in RecordPayloads(s)(r);
    }
    var names := PackagePayloads(s, r)(p);
    assert names[0] == PackageOf(s, r, p);
    if p.evidence.Some? {
      assert names[1] == p.evidence.value;
      if p.format.Rpm? { assert names[2] == SigningKeyName(r.target); }
    }
  }

  lemma PackageLocal(o: Oracle, d: Dir, dir: Dir, s: State, r: Record, p: PackageRecord)
    requires Extends(d, dir) && dir.Keys == PreNames(s) && r in s.records && p in r.packages && s.mode.Release?
    ensures PackageReady(o, d, s, r, p) <==> PackageReady(o, dir, s, r, p)
    ensures PackageSbom(o, d, s, r, p) == PackageSbom(o, dir, s, r, p)
    ensures PackageStatementOf(o, d, s, r, p) == PackageStatementOf(o, dir, s, r, p)
    ensures PackageReady(o, dir, s, r, p) ==> PackageEntryFor(o, d, s, r)(p) == PackageEntryFor(o, dir, s, r)(p)
  {
    PackagePayloadsIn(dir, s, r, p);
    OwnLocal(o, d, dir, s, r);
    assert Get(d, ArtifactOf(s, r)) == Get(dir, ArtifactOf(s, r));
    assert Get(d, PackageOf(s, r, p)) == Get(dir, PackageOf(s, r, p));
    if p.evidence.Some? {
      assert Get(d, p.evidence.value) == Get(dir, p.evidence.value);
      if p.format.Rpm? { assert Get(d, SigningKeyName(r.target)) == Get(dir, SigningKeyName(r.target)); }
    }
  }

  // ----- The last writes of finalization -----

  /** The marker or metadata, the manifest and the checksum file, in the order they are written. */
  function FinalWrites(o: Oracle, dir: Dir, s: State): seq<(string, Content)> {
    var m := ManifestFor(o, dir, s);
    (if s.mode.LocalUnsigned? then [Marker(o, m), (MANIFEST, ManifestDoc(m))] else [(MANIFEST, ManifestDoc(m)), Marker(o, m)])
    + [(CHECKSUMS, Sums(o, dir, s))]
  }

  lemma AssignThree(dir: Dir, x: (string, Content), y: (string, Content), z: (string, Content))
    ensures Assign(dir, [x, y] + [z]) == dir[x.0 := x.1][y.0 := y.1][z.0 := z.1]
  {
    assert ([x, y] + [z])[..2] == [x, y] && [x, y][..1] == [x] && [x][..0] == [];
    assert Assign(dir, [x]) == dir[x.0 := x.1];
  }

  lemma FinalizedByWrites(o: Oracle, dir: Dir, s: State)
    ensures Finalized(o, dir, s) == Assign(dir, AllDocs(o, dir, s) + FinalWrites(o, dir, s)) - {WORK_STATE}
  {
    hide AllDocs, Sums, ManifestFor;
    var m := ManifestFor(o, dir, s);
    var sums := (CHECKSUMS, Sums(o, dir, s));
    AssignAppend(dir, AllDocs(o, dir, s), FinalWrites(o, dir, s));
    if s.mode.LocalUnsigned? {
      AssignThree(Assign(dir, AllDocs(o, dir, s)), Marker(o, m), (MANIFEST, ManifestDoc(m)), sums);
    } else {
      AssignThree(Assign(dir, AllDocs(o, dir, s)), (MANIFEST, ManifestDoc(m)), Marker(o, m), sums);
    }
    FinalizedUnfolds(o, dir, s);
  }

  lemma FinalizedUnfolds(o: Oracle, dir: Dir, s: State)
    ensures var m := ManifestFor(o, dir, s);
            var written := Assign(dir, AllDocs(o, dir, s));
            Finalized(o, dir, s)
            == (if s.mode.LocalUnsigned? then written[Marker(o, m).0 := Marker(o, m).1][MANIFEST := ManifestDoc(m)]
                else written[MANIFEST := ManifestDoc(m)][Marker(o, m).0 := Marker(o, m).1])
               [CHECKSUMS := Sums(o, dir, s)] - {WORK_STATE}
  {
  }

  // ----- Steps of the proofs about the loops -----

  lemma PairWritten(dir: Dir, done: seq<(string, Content)>, x: (string, Content), y: (string, Content))
    requires AllNew(dir.Keys, done)
    ensures AllNew(dir.Keys, done + [x, y]) ==> AllNew(dir.Keys, done + [x])
    ensures AllNew(dir.Keys, done + [x]) <==> x.0 !in Assign(dir, done)
    ensures Assign(dir, done + [x]) == Assign(dir, done)[x.0 := x.1]
    ensures AllNew(dir.Keys, done + [x]) ==> (AllNew(dir.Keys, done + [x, y]) <==> y.0 !in Assign(dir, done + [x]))
    ensures Assign(dir, done + [x, y]) == Assign(dir, done + [x])[y.0 := y.1]
  {
    assert done + [x, y] == done + [x] + [y];
    AllNewStep(dir, done, x);
    if AllNew(dir.Keys, done + [x, y]) { AllNewPrefix(dir.Keys, done + [x], [y]); }
    if AllNew(dir.Keys, done + [x]) { AllNewStep(dir, done + [x], y); }
    AssignAppend(dir, done + [x], [y]);
    assert [y][..0] == [];
  }

  lemma PairPartly(dir: Dir, done: seq<(string, Content)>, x: (string, Content), y: (string, Content))
    ensures Partly(Assign(dir, done), dir, done + [x, y]) && Partly(Assign(dir, done + [x]), dir, done + [x, y])
    ensures Partly(Assign(dir, done + [x, y]), dir, done + [x, y])
  {
    PartlyAll(dir, done);
    PartlyAll(dir, done + [x]);
    PartlyAll(dir, done + [x, y]);
    PartlyMore(Assign(dir, done), dir, done, [x, y]);
    assert done + [x, y] == done + [x] + [y];
    PartlyMore(Assign(dir, done + [x]), dir, done + [x], [y]);
  }

  class Output {
    var files: Dir

    constructor ()
      ensures files == map[]
    {
      files := map[];
    }

    /** `write_exclusive_bytes`: never replaces a file. */
    method WriteExclusive(name: string, c: Content) returns (ok: bool)
      modifies this
      ensures ok <==> name !in old(files)
      ensures files == if ok then old(files)[name := c] else old(files)
    {
      ok := name !in files;
      if ok { files := files[name := c]; }
    }

    /** One pair of documents after those already written. */
    method WritePair(x: (string, Content), y: (string, Content), ghost dir: Dir, ghost done: seq<(string, Content)>)
      returns (ok: bool)
      requires AllNew(dir.Keys, done) && files == Assign(dir, done)
      modifies this
      ensures ok <==> AllNew(dir.Keys, done + [x, y])
      ensures ok ==> files == Assign(dir, done + [x, y])
      ensures Extends(files, dir) && Partly(files, dir, done + [x, y])
    {
      PairWritten(dir, done, x, y);
      PairPartly(dir, done, x, y);
      FreshExtends(dir, done);
      ok := WriteExclusive(x.0, x.1);
      if ok {
        FreshExtends(dir, done + [x]);
        ok := WriteExclusive(y.0, y.1);
        if ok { FreshExtends(dir, done + [x, y]); }
      }
    }

    /** The body of the loop of `finalize_package_entries`. */
    method FinalizePackage(o: Oracle, s: State, r: Record, p: PackageRecord, ghost dir: Dir, ghost done: seq<(string, Content)>)
      returns (entry: Option<PackageEntry>, names: seq<string>)
      requires dir.Keys == PreNames(s) && r in s.records && p in r.packages && s.mode.Release?
      requires AllNew(dir.Keys, done) && files == Assign(dir, done)
      modifies this
      ensures Extends(files, dir) && Partly(files, dir, done + PackageDocs(o, dir, s, r)(p))
      ensures entry.Some? <==> PackageReady(o, dir, s, r, p) && AllNew(dir.Keys, done + PackageDocs(o, dir, s, r)(p))
      ensures entry.Some? ==> entry.value == PackageEntryFor(o, dir, s, r)(p)
      ensures entry.Some? ==> files == Assign(dir, done + PackageDocs(o, dir, s, r)(p))
      ensures entry.Some? ==> names == Map(FilenameOf, PackageFiles(entry.value))
    {
      hide PackageSbom, PackageStatementOf, PreNames, PackageReady, Partly;
      FreshExtends(dir, done);
      PartlyAll(dir, done);
      PartlyMore(files, dir, done, PackageDocs(o, dir, s, r)(p));
      PackageLocal(o, files, dir, s, r, p);
      if !PackageReady(o, files, s, r, p) { return None, []; }
      var name := PackageOf(s, r, p);
      var sbom, statement := PackageSbom(o, files, s, r, p), PackageStatementOf(o, files, s, r, p);
      var ok := WritePair((SbomName(name), sbom), (ProvenanceName(name), statement), dir, done);
      if !ok { return None, []; }
      PackageLocal(o, files, dir, s, r, p);
      entry := Some(PackageEntryFor(o, files, s, r)(p));
      names := [name, SbomName(name), ProvenanceName(name)];
      match p.format {
        case Deb =>
        case Rpm => names := names + [PackageEvidenceName(r.target, p.format), SigningKeyName(r.target)];
        case Pkg => names := names + [PackageEvidenceName(r.target, p.format)];
      }
      PackageListed(o, dir, s, r, p);
    }

    /** `finalize_package_entries`. */
    method FinalizePackages(o: Oracle, s: State, r: Record, ghost dir: Dir, ghost done: seq<(string, Content)>)
      returns (entries: Option<seq<PackageEntry>>, names: seq<string>)
      requires dir.Keys == PreNames(s) && r in s.records && s.mode.Release?
      requires AllNew(dir.Keys, done) && files == Assign(dir, done)
      modifies this
      ensures Extends(files, dir) && Partly(files, dir, done + FlatMap(PackageDocs(o, dir, s, r), r.packages))
      ensures entries.Some? <==> && (forall p :: p in r.packages ==> PackageReady(o, dir, s, r, p))
                                 && AllNew(dir.Keys, done + FlatMap(PackageDocs(o, dir, s, r), r.packages))
      ensures entries.Some? ==> entries.value == Map(PackageEntryFor(o, dir, s, r), r.packages)
      ensures entries.Some? ==> files == Assign(dir, done + FlatMap(PackageDocs(o, dir, s, r), r.packages))
      ensures entries.Some? ==> names == Map(FilenameOf, FlatMap(PackageFiles, entries.value))
    {
      hide PackageDocs, PackageEntryFor, PackageFiles, PackageReady, PreNames, Partly, AllNew, Extends, Assign;
      var list: seq<PackageEntry> := [];
      names := [];
      FreshExtends(dir, done);
      assert done + [] == done;
      ghost var docs := PackageDocs(o, dir, s, r);
      for j := 0 to |r.packages|
        invariant AllNew(dir.Keys, done + FlatMap(docs, r.packages[..j]))
        invariant files == Assign(dir, done + FlatMap(docs, r.packages[..j])) && Extends(files, dir)
        invariant forall i :: 0 <= i < j ==> PackageReady(o, dir, s, r, r.packages[i])
        invariant list == Map(PackageEntryFor(o, dir, s, r), r.packages[..j])
        invariant names == Map(FilenameOf, FlatMap(PackageFiles, list))
      {
        ghost var before := done + FlatMap(docs, r.packages[..j]);
        var entry, added := FinalizePackage(o, s, r, r.packages[j], dir, before);
        DocsStep(docs, done, r.packages, j);
        if entry.None? {
          PartlyStopped(files, dir, docs, done, r.packages, j);
          if AllNew(dir.Keys, done + FlatMap(docs, r.packages)) {
            DocsPrefix(dir.Keys, docs, done, r.packages, j);
          }
          return None, [];
        }
        EntriesStep(PackageEntryFor(o, dir, s, r), PackageFiles, FilenameOf, r.packages, j);
        list, names := list + [entry.value], names + added;
      }
      assert r.packages[..|r.packages|] == r.packages;
      PartlyAll(dir, done + FlatMap(docs, r.packages));
      entries := Some(list);
    }

    /** The artifact part of the body of `finalize`'s loop. */
    method FinalizeArtifact(o: Oracle, s: State, r: Record, ghost dir: Dir, ghost done: seq<(string, Content)>)
      returns (entry: Option<TargetEntry>, names: seq<string>)
      requires dir.Keys == PreNames(s) && r in s.records
      requires AllNew(dir.Keys, done) && files == Assign(dir, done)
      modifies this
      ensures Extends(files, dir) && Partly(files, dir, done + OwnDocs(o, dir, s, r))
      ensures entry.Some? <==> OwnReady(o, dir, s, r) && AllNew(dir.Keys, done + OwnDocs(o, dir, s, r))
      ensures entry.Some? ==> entry.value == WithoutPackages(TargetEntryFor(o, dir, s)(r))
      ensures entry.Some? ==> files == Assign(dir, done + OwnDocs(o, dir, s, r))
      ensures entry.Some? ==> multiset(names) == multiset(Map(FilenameOf, TargetFiles(entry.value)))
    {
      hide ArtifactSbom, ArtifactStatement, PackageEntryFor, PackageFiles, PreNames, OwnReady, NativeFor, Partly;
      FreshExtends(dir, done);
      PartlyAll(dir, done);
      PartlyMore(files, dir, done, OwnDocs(o, dir, s, r));
      OwnLocal(o, files, dir, s, r);
      if !OwnReady(o, files, s, r) { return None, []; }
      var name, native := ArtifactOf(s, r), NativeFor(o, files, s, r);
      var sbom, statement := ArtifactSbom(o, files, s, r), ArtifactStatement(o, files, s, r);
      var artifact := ArtifactEntry(EntryOf(o, files, name), r.unsignedSha256, r.unsignedSize);
      var ok := WritePair((SbomName(name), sbom), (ProvenanceName(name), statement), dir, done);
      if !ok { return None, []; }
      entry := Some(TargetEntry(r.target, artifact, EntryFor(SbomName(name), sbom, o),
                                ProvenanceEntry(EntryFor(ProvenanceName(name), statement, o), AttestationName(name)),
                                native, []));
      names := Map(FilenameOf, NativeEvidence(native)) + [name, SbomName(name), ProvenanceName(name)];
      EntryFileNames(entry.value, name);
      EvidenceFirst(Map(FilenameOf, NativeEvidence(native)), [name, SbomName(name), ProvenanceName(name)]);
    }

    /** The body of `finalize`'s loop over targets. */
    method FinalizeTarget(o: Oracle, s: State, r: Record, ghost dir: Dir, ghost done: seq<(string, Content)>)
      returns (entry: Option<TargetEntry>, names: seq<string>)
      requires dir.Keys == PreNames(s) && r in s.records && Listed(s, r)
      requires AllNew(dir.Keys, done) && files == Assign(dir, done)
      modifies this
      ensures Extends(files, dir) && Partly(files, dir, done + RecordDocs(o, dir, s)(r))
      ensures entry.Some? <==> RecordReady(o, dir, s, r) && AllNew(dir.Keys, done + RecordDocs(o, dir, s)(r))
      ensures entry.Some? ==> entry.value == TargetEntryFor(o, dir, s)(r)
      ensures entry.Some? ==> files == Assign(dir, done + RecordDocs(o, dir, s)(r))
      ensures entry.Some? ==> multiset(names) == multiset(Map(FilenameOf, TargetFiles(entry.value)))
    {
      hide RecordDocs, OwnDocs, PackageEntryFor, PackageDocs, PackageReady, PreNames, OwnReady, TargetFiles, TargetEntryFor, AllNew, Partly;
      RecordDocsSplit(o, dir, s, r, done, dir.Keys);
      EntrySplit(o, dir, s, r);
      entry, names := FinalizeArtifact(o, s, r, dir, done);
      if s.mode.Release? {
        PartlyMore(files, dir, done + OwnDocs(o, dir, s, r), FlatMap(PackageDocs(o, dir, s, r), r.packages));
      }
      if entry.None? { return None, []; }
      if s.mode.Release? {
        var entries, added := FinalizePackages(o, s, r, dir, done + OwnDocs(o, dir, s, r));
        if entries.None? { return None, []; }
        PackagesAdded(entry.value, entries.value);
        entry, names := Some(entry.value.(packages := entries.value)), names + added;
      }
    }

    /** `finalize`'s loop over targets. */
    method FinalizeTargets(o: Oracle, s: State) returns (targets: Option<seq<TargetEntry>>, names: seq<string>)
      requires files.Keys == PreNames(s) && (forall r :: r in s.records ==> Listed(s, r))
      modifies this
      ensures Extends(files, old(files)) && Partly(files, old(files), AllDocs(o, old(files), s))
      ensures targets.Some? <==> && (forall r :: r in s.records ==> RecordReady(o, old(files), s, r))
                                 && AllNew(old(files).Keys, AllDocs(o, old(files), s))
      ensures targets.Some? ==> targets.value == Map(TargetEntryFor(o, old(files), s), s.records)
      ensures targets.Some? ==> files == Assign(old(files), AllDocs(o, old(files), s))
      ensures targets.Some? ==> multiset(names) == multiset(Map(FilenameOf, FlatMap(TargetFiles, targets.value)))
    {
      hide RecordDocs, TargetEntryFor, TargetFiles, RecordReady, PreNames, Listed, Partly;
      ghost var dir := files;
      var list: seq<TargetEntry> := [];
      names := [];
      ghost var docs := RecordDocs(o, dir, s);
      assert [] + FlatMap(docs, s.records) == AllDocs(o, dir, s);
      for i := 0 to |s.records|
        invariant AllNew(dir.Keys, [] + FlatMap(docs, s.records[..i]))
        invariant files == Assign(dir, [] + FlatMap(docs, s.records[..i])) && Extends(files, dir)
        invariant forall k :: 0 <= k < i ==> RecordReady(o, dir, s, s.records[k])
        invariant list == Map(TargetEntryFor(o, dir, s), s.records[..i])
        invariant multiset(names) == multiset(Map(FilenameOf, FlatMap(TargetFiles, list)))
      {
        var entry, added := FinalizeTarget(o, s, s.records[i], dir, [] + FlatMap(docs, s.records[..i]));
        DocsStep(docs, [], s.records, i);
        if entry.None? {
          PartlyStopped(files, dir, docs, [], s.records, i);
          if AllNew(dir.Keys, [] + FlatMap(docs, s.records)) {
            DocsPrefix(dir.Keys, docs, [], s.records, i);
          }
          return None, [];
        }
        EntriesStep(TargetEntryFor(o, dir, s), TargetFiles, FilenameOf, s.records, i);
        list, names := list + [entry.value], names + added;
      }
      assert s.records[..|s.records|] == s.records;
      PartlyAll(dir, AllDocs(o, dir, s));
      targets := Some(list);
    }

    /** The writes after the loop, up to the removal of the work state. */
    method FinalizeFiles(o: Oracle, s: State, m: Manifest, names: seq<string>, ghost dir: Dir) returns (ok: bool)
      requires m == ManifestFor(o, dir, s) && multiset(names) == multiset(Map(FilenameOf, FlatMap(TargetFiles, m.targets)))
      requires AllNew(dir.Keys, AllDocs(o, dir, s)) && files == Assign(dir, AllDocs(o, dir, s))
      modifies this
      ensures ok <==> AllNew(dir.Keys, AllDocs(o, dir, s) + FinalWrites(o, dir, s))
      ensures ok ==> files == Finalized(o, dir, s)
      ensures !ok ==> Extends(files, dir) && Partly(files, dir, AllDocs(o, dir, s) + FinalWrites(o, dir, s))
    {
      hide AllDocs, ManifestFor, TargetFiles, AllNew, SortedNames, Partly;
      ghost var done := AllDocs(o, dir, s);
      var manifest := ManifestDoc(m);
      var marker := Marker(o, m);
      var listed: seq<string>;
      if s.mode.LocalUnsigned? {
        ok := WritePair(marker, (MANIFEST, manifest), dir, done);
        listed := names + [marker.0, MANIFEST];
      } else {
        ok := WritePair((MANIFEST, manifest), marker, dir, done);
        listed := names + [MANIFEST, marker.0];
      }
      LastWrite(o, dir, s);
      Assoc(done, Paired(o, dir, s), [(CHECKSUMS, Sums(o, dir, s))]);
      PartlyMore(files, dir, done + Paired(o, dir, s), [(CHECKSUMS, Sums(o, dir, s))]);
      if !ok { return; }
      ListedContent(o, dir, s, names, listed);
      var lines := Map(ChecksumLine(o, files), SortedNames(listed));
      ok := WriteExclusive(CHECKSUMS, ChecksumsDoc(lines));
      if ok {
        FinalizedByWrites(o, dir, s);
        files := files - {WORK_STATE};
      } else {
        FreshExtends(dir, done + Paired(o, dir, s));
      }
    }

    /** `finalize`: the outcome is decided by the directory alone. A failure may leave documents
        behind but replaces and removes nothing. */
    method Finalize(o: Oracle, now: string) returns (ok: bool)
      modifies this
      ensures ok <==> FinalizeAdmits(o, old(files), now)
      ensures ok ==> files == Finalized(o, old(files), WorkState(old(files), now))
      ensures !ok ==> Extends(files, old(files)) && Leftover(o, files, old(files), now)
    {
      hide AllNew, Partly, RecordReady, AllDocs, FinalWrites, PreNames, Listed, ManifestFor, Finalized;
      ghost var dir := files;
      if !Get(files, WORK_STATE).StateDoc? { return false; }
      var s := WorkState(files, now);
      if files.Keys != PreNames(s) || s.records == [] || !NoDup(Map(TargetAt, s.records)) { return false; }
      if r :| r in s.records && !Listed(s, r) {
        ReadyListed(o, dir, s, r);
        return false;
      }
      var targets, names := FinalizeTargets(o, s);
      if targets.None? {
        PartlyMore(files, dir, AllDocs(o, dir, s), FinalWrites(o, dir, s));
        if AllNew(dir.Keys, AllDocs(o, dir, s) + FinalWrites(o, dir, s)) {
          AllNewPrefix(dir.Keys, AllDocs(o, dir, s), FinalWrites(o, dir, s));
        }
        return false;
      }
      var m := Manifest(s.mode, s.context, targets.value,
                        if s.mode.LocalUnsigned? then Some(LOCAL_MARKER) else None,
                        if s.mode.Release? then Some(MetadataRef(RELEASE_METADATA, BundleName(RELEASE_METADATA))) else None,
                        BundleName(MANIFEST), BundleName(CHECKSUMS));
      ManifestBuilt(o, dir, s, m);
      ok := FinalizeFiles(o, s, m, names, dir);
    }
  }

  /** The recorded state; in release mode the finishing time is stamped now. */
  function WorkState(dir: Dir, now: string): State
    requires Get(dir, WORK_STATE).StateDoc?
  {
    var s := Get(dir, WORK_STATE).state;
    if s.mode.Release? then s.(context := s.context.(finished := now)) else s
  }

  /** A ready directory on which every document is new. */
  ghost predicate FinalizeAdmits(o: Oracle, dir: Dir, now: string) {
    && Get(dir, WORK_STATE).StateDoc?
    && var s := WorkState(dir, now);
       Ready(o, dir, s) && AllNew(dir.Keys, AllDocs(o, dir, s) + FinalWrites(o, dir, s))
  }

  /** What a failed finalization leaves: the directory as it was, or, if its inventory was the expected
      one, with the first few documents. */
  ghost predicate Leftover(o: Oracle, d: Dir, dir: Dir, now: string) {
    d == dir
    || (Get(dir, WORK_STATE).StateDoc? &&
        var s := WorkState(dir, now);
        dir.Keys == PreNames(s) && Partly(d, dir, AllDocs(o, dir, s) + FinalWrites(o, dir, s)))
  }

  lemma ReadyListed(o: Oracle, dir: Dir, s: State, r: Record)
    requires r in s.records && !Listed(s, r)
    ensures !RecordReady(o, dir, s, r)
  {
  }

  lemma ManifestBuilt(o: Oracle, dir: Dir, s: State, m: Manifest)
    requires m == Manifest(s.mode, s.context, Map(TargetEntryFor(o, dir, s), s.records),
                           if s.mode.LocalUnsigned? then Some(LOCAL_MARKER) else None,
                           if s.mode.Release? then Some(MetadataRef(RELEASE_METADATA, BundleName(RELEASE_METADATA))) else None,
                           BundleName(MANIFEST), BundleName(CHECKSUMS))
    ensures m == ManifestFor(o, dir, s)
  {
  }

  /** The two documents written before the checksum file. */
  function Paired(o: Oracle, dir: Dir, s: State): seq<(string, Content)> {
    var m := ManifestFor(o, dir, s);
    if s.mode.LocalUnsigned? then [Marker(o, m), (MANIFEST, ManifestDoc(m))] else [(MANIFEST, ManifestDoc(m)), Marker(o, m)]
  }

  lemma LastWrite(o: Oracle, dir: Dir, s: State)
    requires AllNew(dir.Keys, AllDocs(o, dir, s))
    ensures var docs := AllDocs(o, dir, s);
            var all := docs + FinalWrites(o, dir, s);
            && (AllNew(dir.Keys, all) ==> AllNew(dir.Keys, docs + Paired(o, dir, s)))
            && (AllNew(dir.Keys, docs + Paired(o, dir, s)) ==>
                  (AllNew(dir.Keys, all) <==> CHECKSUMS !in Assign(dir, docs + Paired(o, dir, s))))
            && Assign(dir, all) == Assign(dir, docs + Paired(o, dir, s))[CHECKSUMS := Sums(o, dir, s)]
            && Assign(dir, docs + Paired(o, dir, s)) == Described(o, dir, s)
  {
    hide AllDocs, ManifestFor, Sums, AllNew;
    var docs, last := AllDocs(o, dir, s), (CHECKSUMS, Sums(o, dir, s));
    var paired := docs + Paired(o, dir, s);
    Assoc(docs, Paired(o, dir, s), [last]);
    if AllNew(dir.Keys, paired + [last]) { AllNewPrefix(dir.Keys, paired, [last]); }
    if AllNew(dir.Keys, paired) { AllNewStep(dir, paired, last); }
    AssignAppend(dir, paired, [last]);
    assert [last][..0] == [];
    DescribedByWrites(o, dir, s);
  }

  lemma DescribedByWrites(o: Oracle, dir: Dir, s: State)
    ensures Assign(dir, AllDocs(o, dir, s) + Paired(o, dir, s)) == Described(o, dir, s)
  {
    hide AllDocs, TargetEntryFor;
    var written := Assign(dir, AllDocs(o, dir, s));
    var x, y := Paired(o, dir, s)[0], Paired(o, dir, s)[1];
    AssignAppend(dir, AllDocs(o, dir, s), Paired(o, dir, s));
    assert Paired(o, dir, s) == [x, y] && [x, y][..1] == [x] && [x][..0] == [];
    assert Assign(written, [x]) == written[x.0 := x.1];
  }

  lemma ListedContent(o: Oracle, dir: Dir, s: State, names: seq<string>, listed: seq<string>)
    requires var m := ManifestFor(o, dir, s);
             && multiset(names) == multiset(Map(FilenameOf, FlatMap(TargetFiles, m.targets)))
             && (listed == names + [Marker(o, m).0, MANIFEST] || listed == names + [MANIFEST, Marker(o, m).0])
    ensures SortedNames(listed) == SortedNames(ContentNames(ManifestFor(o, dir, s)))
  {
    hide ManifestFor, TargetFiles, SortedNames;
    var m := ManifestFor(o, dir, s);
    ContentSpelled(o, dir, s);
    Surrounded(Marker(o, m).0, names, Map(FilenameOf, FlatMap(TargetFiles, m.targets)), MANIFEST);
    SortedNamesEqual(listed, ContentNames(m));
  }

  lemma Surrounded<T>(a: T, names: seq<T>, same: seq<T>, b: T)
    requires multiset(names) == multiset(same)
    ensures multiset(names + [a, b]) == multiset([a] + same + [b])
    ensures multiset(names + [b, a]) == multiset([a] + same + [b])
  {
    assert [a, b] == [a] + [b] && [b, a] == [b] + [a];
  }

  function WithoutPackages(e: TargetEntry): TargetEntry { e.(packages := []) }

  lemma EntrySplit(o: Oracle, dir: Dir, s: State, r: Record)
    ensures var e := TargetEntryFor(o, dir, s)(r);
            && e == WithoutPackages(e).(packages := if s.mode.Release? then Map(PackageEntryFor(o, dir, s, r), r.packages) else [])
            && (s.mode.LocalUnsigned? ==> e == WithoutPackages(e))
  {
  }

  lemma PackagesAdded(e: TargetEntry, packages: seq<PackageEntry>)
    requires e.packages == []
    ensures multiset(Map(FilenameOf, TargetFiles(e.(packages := packages))))
         == multiset(Map(FilenameOf, TargetFiles(e))) + multiset(Map(FilenameOf, FlatMap(PackageFiles, packages)))
  {
    var own := [e.artifact.file, e.sbom, e.provenance.file] + NativeEvidence(e.native);
    assert TargetFiles(e) == own + [] == own;
    MapAppend(FilenameOf, own, FlatMap(PackageFiles, packages));
  }

  lemma RecordDocsSplit(o: Oracle, dir: Dir, s: State, r: Record, done: seq<(string, Content)>, keys: set<string>)
    ensures var rest := if s.mode.Release? then FlatMap(PackageDocs(o, dir, s, r), r.packages) else [];
            done + RecordDocs(o, dir, s)(r) == done + OwnDocs(o, dir, s, r) + rest
    ensures s.mode.LocalUnsigned? ==> done + RecordDocs(o, dir, s)(r) == done + OwnDocs(o, dir, s, r)
    ensures AllNew(keys, done + RecordDocs(o, dir, s)(r)) ==> AllNew(keys, done + OwnDocs(o, dir, s, r))
  {
    hide AllNew, PackageDocs, ArtifactSbom, ArtifactStatement;
    var rest := if s.mode.Release? then FlatMap(PackageDocs(o, dir, s, r), r.packages) else [];
    Assoc(done, OwnDocs(o, dir, s, r), rest);
    if AllNew(keys, done + RecordDocs(o, dir, s)(r)) {
      AllNewPrefix(keys, done + OwnDocs(o, dir, s, r), rest);
    }
  }

  lemma EvidenceFirst<T>(evidence: seq<T>, own: seq<T>)
    ensures multiset(evidence + own) == multiset(own + evidence + [])
  {
    assert own + evidence + [] == own + evidence;
  }

  lemma PackageListed(o: Oracle, dir: Dir, s: State, r: Record, p: PackageRecord)
    ensures var name := PackageOf(s, r, p);
            Map(FilenameOf, PackageFiles(PackageEntryFor(o, dir, s, r)(p)))
            == [name, SbomName(name), ProvenanceName(name)]
               + (match p.format
                  case Deb => []
                  case Rpm => [PackageEvidenceName(r.target, p.format), SigningKeyName(r.target)]
                  case Pkg => [PackageEvidenceName(r.target, p.format)])
  {
  }

  lemma DocsStep<A>(docs: A -> seq<(string, Content)>, done: seq<(string, Content)>, items: seq<A>, j: nat)
    requires j < |items|
    ensures done + FlatMap(docs, items[..j + 1]) == done + FlatMap(docs, items[..j]) + docs(items[j])
  {
    FlatMapStep(docs, items, j);
  }

  lemma DocsPrefix<A>(keys: set<string>, docs: A -> seq<(string, Content)>, done: seq<(string, Content)>, items: seq<A>, j: nat)
    requires j < |items| && AllNew(keys, done + FlatMap(docs, items))
    ensures AllNew(keys, done + FlatMap(docs, items[..j]) + docs(items[j]))
  {
    hide AllNew, FlatMap;
    assert items == items[..j + 1] + items[j + 1..];
    FlatMapAppend(docs, items[..j + 1], items[j + 1..]);
    DocsStep(docs, done, items, j);
    Assoc(done, FlatMap(docs, items[..j + 1]), FlatMap(docs, items[j + 1..]));
    AllNewPrefix(keys, done + FlatMap(docs, items[..j + 1]), FlatMap(docs, items[j + 1..]));
  }

  lemma PartlyStopped<A>(d: Dir, dir: Dir, docs: A -> seq<(string, Content)>, done: seq<(string, Content)>, items: seq<A>, j: nat)
    requires j < |items| && Partly(d, dir, done + FlatMap(docs, items[..j]) + docs(items[j]))
    ensures Partly(d, dir, done + FlatMap(docs, items))
  {
    hide Partly, FlatMap;
    assert items == items[..j + 1] + items[j + 1..];
    FlatMapAppend(docs, items[..j + 1], items[j + 1..]);
    DocsStep(docs, done, items, j);
    Assoc(done, FlatMap(docs, items[..j + 1]), FlatMap(docs, items[j + 1..]));
    PartlyMore(d, dir, done + FlatMap(docs, items[..j + 1]), FlatMap(docs, items[j + 1..]));
  }

  lemma EntriesStep<A, E, F, N>(entry: A -> E, files: E -> seq<F>, name: F -> N, items: seq<A>, j: nat)
    requires j < |items|
    ensures Map(entry, items[..j + 1]) == Map(entry, items[..j]) + [entry(items[j])]
    ensures Map(name, FlatMap(files, Map(entry, items[..j + 1])))
         == Map(name, FlatMap(files, Map(entry, items[..j]))) + Map(name, files(entry(items[j])))
  {
    var list, e := Map(entry, items[..j]), entry(items[j]);
    assert Map(entry, items[..j + 1]) == list + [e];
    FlatMapAppend(files, list, [e]);
    assert FlatMap(files, [e]) == files(e) + FlatMap(files, []);
    MapAppend(name, FlatMap(files, list), files(e));
  }
}
