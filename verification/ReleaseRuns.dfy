/** The release commands over one output directory, and what every run of them keeps. */
module ReleaseRuns {
  import opened Sequences
  import opened Text
  import opened ReleaseManifest
  import opened CoreAssets
  import opened ReleaseInventory
  import opened Sbom
  import opened Provenance
  import opened ReleasePipeline
  import opened ReleaseVerification
  import opened ReleaseAcceptance
  import opened ReleaseOutput

  // ----- When finalization succeeds, and what it leaves -----

  lemma FinalNames(o: Oracle, dir: Dir, s: State)
    ensures var marker := Marker(o, ManifestFor(o, dir, s)).0;
            Map(Fst, FinalWrites(o, dir, s)) == (if s.mode.LocalUnsigned? then [marker, MANIFEST] else [MANIFEST, marker]) + [CHECKSUMS]
    ensures Marker(o, ManifestFor(o, dir, s)).0 == if s.mode.Release? then RELEASE_METADATA else LOCAL_MARKER
  {
    hide TargetEntryFor, Sums;
  }

  /** On a ready directory with an admissible matrix no write collides, so finalization succeeds. */
  lemma FinalizeSucceeds(o: Oracle, dir: Dir, now: string)
    requires Get(dir, WORK_STATE).StateDoc? && Ready(o, dir, WorkState(dir, now))
    requires Admissible(Map(TargetAt, WorkState(dir, now).records))
    ensures FinalizeAdmits(o, dir, now)
  {
    hide Ready, Admissible, AllDocs, ManifestFor, Separate, FinalWrites, Marker;
    var s := WorkState(dir, now);
    if s.mode.Release? { SeparateRelease(o, dir, s); } else { SeparateLocal(o, dir, s); }
    WritesFresh(o, dir, s);
  }

  lemma WritesFresh(o: Oracle, dir: Dir, s: State)
    requires Ready(o, dir, s) && Separate(Payloads(s), DocumentNames(o, dir, s))
    ensures AllNew(dir.Keys, AllDocs(o, dir, s) + FinalWrites(o, dir, s))
  {
    hide AllDocs, ManifestFor, RecordReady, FinalWrites, Marker;
    var marker := Marker(o, ManifestFor(o, dir, s)).0;
    FinalNames(o, dir, s);
    SeparateApart(Payloads(s) + DocumentNames(o, dir, s), s.mode);
    MapAppend(Fst, AllDocs(o, dir, s), FinalWrites(o, dir, s));
    NewNames(Payloads(s), DocumentNames(o, dir, s), WORK_STATE, marker, MANIFEST, CHECKSUMS);
  }

  lemma NewNames(payloads: seq<string>, docs: seq<string>, work: string, a: string, b: string, c: string)
    requires NoDup(payloads + docs) && Apart(payloads + docs, work, a, b, c)
    ensures NoDup(docs + ([a, b] + [c])) && NoDup(docs + ([b, a] + [c]))
    ensures forall n :: n in docs + ([a, b] + [c]) ==> n !in {work} + Elems(payloads)
    ensures forall n :: n in docs + ([b, a] + [c]) ==> n !in {work} + Elems(payloads)
  {
    var names := [work, a, b, c];
    assert names[0] != names[1] && names[0] != names[2] && names[0] != names[3] && names[1] != names[2] && names[1] != names[3]
        && names[2] != names[3];
    NoDupConcat(payloads, docs);
    NoDupConcat(docs, [a, b] + [c]);
    NoDupConcat(docs, [b, a] + [c]);
    assert forall n :: n in payloads ==> n in payloads + docs;
    assert forall n :: n in docs ==> n in payloads + docs;
  }

  /** Whenever finalization succeeds the directory holds exactly the manifest's content files and
      the checksum file, which lists exactly the content files with their digests in that directory. */
  lemma FinalizedInventory(o: Oracle, dir: Dir, now: string)
    requires FinalizeAdmits(o, dir, now)
    ensures var s := WorkState(dir, now);
            var m := ManifestFor(o, dir, s);
            var d := Finalized(o, dir, s);
            && d.Keys == Elems(ContentNames(m)) + {CHECKSUMS} && WORK_STATE !in d
            && Holds(d, MANIFEST, ManifestDoc(m)) && Holds(d, CHECKSUMS, ChecksumsFor(o, d, ContentNames(m)))
  {
    hide Ready, AllNew, Finalized, ManifestFor, Sums, ContentNames, ChecksumsFor;
    FinalizedKeys(o, dir, WorkState(dir, now));
    FinalizedHolds(o, dir, WorkState(dir, now));
    SumsOfDirectory(o, dir, WorkState(dir, now));
  }

  /** The digests are those of the directory the checksum file completes. */
  lemma SumsOfDirectory(o: Oracle, dir: Dir, s: State)
    requires CHECKSUMS !in ContentNames(ManifestFor(o, dir, s)) && WORK_STATE !in ContentNames(ManifestFor(o, dir, s))
    ensures Sums(o, dir, s) == ChecksumsFor(o, Finalized(o, dir, s), ContentNames(ManifestFor(o, dir, s)))
  {
    hide Described, ManifestFor, ContentNames;
    SameLines(o, Described(o, dir, s), Sums(o, dir, s), ContentNames(ManifestFor(o, dir, s)));
  }

  lemma SameLines(o: Oracle, base: Dir, sums: Content, names: seq<string>)
    requires CHECKSUMS !in names && WORK_STATE !in names
    ensures ChecksumsFor(o, base, names) == ChecksumsFor(o, base[CHECKSUMS := sums] - {WORK_STATE}, names)
  {
    var sorted, d := SortedNames(names), base[CHECKSUMS := sums] - {WORK_STATE};
    forall i | 0 <= i < |sorted| ensures ChecksumLine(o, base)(sorted[i]) == ChecksumLine(o, d)(sorted[i]) {
      assert sorted[i] in multiset(sorted);
      assert sorted[i] in multiset(names);
      assert sorted[i] in names && sorted[i] != CHECKSUMS && sorted[i] != WORK_STATE;
      assert Get(base, sorted[i]) == Get(d, sorted[i]);
    }
    assert Map(ChecksumLine(o, base), sorted) == Map(ChecksumLine(o, d), sorted);
  }

  lemma FinalizedKeys(o: Oracle, dir: Dir, s: State)
    requires Ready(o, dir, s) && AllNew(dir.Keys, AllDocs(o, dir, s) + FinalWrites(o, dir, s))
    ensures Finalized(o, dir, s).Keys == Elems(ContentNames(ManifestFor(o, dir, s))) + {CHECKSUMS}
    ensures CHECKSUMS !in ContentNames(ManifestFor(o, dir, s)) && WORK_STATE !in ContentNames(ManifestFor(o, dir, s))
  {
    hide AllDocs, ManifestFor, RecordReady, FinalWrites, Marker, Finalized, TargetFiles, FIXED, ContentNames;
    var m := ManifestFor(o, dir, s);
    var all := AllDocs(o, dir, s) + FinalWrites(o, dir, s);
    FinalizedByWrites(o, dir, s);
    FinalNames(o, dir, s);
    NamesNotFixed(o, dir, s);
    TargetNamesOf(o, dir, s);
    ContentSpelled(o, dir, s);
    MapAppend(Fst, AllDocs(o, dir, s), FinalWrites(o, dir, s));
    AssignRead(dir, all);
    SeparateApart(Payloads(s) + DocumentNames(o, dir, s), s.mode);
    KeysOver(Assign(dir, all), Payloads(s), DocumentNames(o, dir, s), WORK_STATE,
             Marker(o, m).0, MANIFEST, CHECKSUMS, Map(FilenameOf, FlatMap(TargetFiles, m.targets)));
  }

  lemma FinalizedHolds(o: Oracle, dir: Dir, s: State)
    requires AllNew(dir.Keys, AllDocs(o, dir, s) + FinalWrites(o, dir, s))
    ensures Holds(Finalized(o, dir, s), MANIFEST, ManifestDoc(ManifestFor(o, dir, s)))
    ensures Holds(Finalized(o, dir, s), CHECKSUMS, Sums(o, dir, s)) && WORK_STATE !in Finalized(o, dir, s)
  {
    hide AllDocs, ManifestFor, FinalWrites, Finalized, Sums;
    var all := AllDocs(o, dir, s) + FinalWrites(o, dir, s);
    FinalizedByWrites(o, dir, s);
    AssignRead(dir, all);
    LastTwo(o, dir, s);
    assert (MANIFEST, ManifestDoc(ManifestFor(o, dir, s))) in all && (CHECKSUMS, Sums(o, dir, s)) in all;
  }

  lemma LastTwo(o: Oracle, dir: Dir, s: State)
    ensures (MANIFEST, ManifestDoc(ManifestFor(o, dir, s))) in FinalWrites(o, dir, s)
    ensures (CHECKSUMS, Sums(o, dir, s)) in FinalWrites(o, dir, s)
    ensures WORK_STATE != MANIFEST && WORK_STATE != CHECKSUMS
  {
    hide ManifestFor, Sums;
    var writes := FinalWrites(o, dir, s);
    assert writes[0] in writes && writes[1] in writes && writes[2] in writes;
    assert WORK_STATE[0] == '.' && MANIFEST[0] == 'm' && CHECKSUMS[0] == 'S';
  }

  lemma KeysOver(all: Dir, payloads: seq<string>, docs: seq<string>, work: string, a: string, b: string, c: string, names: seq<string>)
    requires Apart(payloads + docs, work, a, b, c) && multiset(names) == multiset(payloads + docs)
    requires all.Keys == {work} + Elems(payloads) + Elems(docs + ([a, b] + [c]))
          || all.Keys == {work} + Elems(payloads) + Elems(docs + ([b, a] + [c]))
    ensures (all - {work}).Keys == Elems([a] + names + [b]) + {c}
    ensures c !in [a] + names + [b] && work !in [a] + names + [b]
  {
    var fixedNames := [work, a, b, c];
    assert fixedNames[0] != fixedNames[1] && fixedNames[0] != fixedNames[2] && fixedNames[0] != fixedNames[3]
        && fixedNames[1] != fixedNames[3] && fixedNames[2] != fixedNames[3];
    NoDupPermutation(names, payloads + docs);
    forall n | n in names ensures n in payloads + docs { assert n in Elems(names); }
    ElemsConcat([a] + names, [b]);
    ElemsConcat([a], names);
    ElemsConcat(payloads, docs);
    ElemsConcat(docs, [a, b] + [c]);
    ElemsConcat(docs, [b, a] + [c]);
    assert Elems([a, b] + [c]) == {a, b, c} && Elems([b, a] + [c]) == {a, b, c};
    assert forall n :: n in Elems(payloads) + Elems(docs) ==> n in payloads + docs;
  }

  // ----- sign -----

  lemma RowsStep(dir: Dir, sign: Signer, plan: seq<(string, string)>, i: nat)
    requires i < |plan|
    ensures Assign(dir, BundleRows(sign, plan[..i + 1]))
         == Assign(dir, BundleRows(sign, plan[..i]))[BundleRow(sign)(plan[i]).0 := BundleRow(sign)(plan[i]).1]
  {
    hide BundleRow, Assign;
    assert BundleRows(sign, plan[..i + 1]) == BundleRows(sign, plan[..i]) + [BundleRow(sign)(plan[i])];
    AssignLast(dir, BundleRows(sign, plan[..i]), BundleRow(sign)(plan[i]));
  }

  predicate Signs(sign: Signer, p: (string, string)) { sign(p.0, p.1).Some? }

  /** Calls the signer once per pair of a plan until it fails; each call writes the bundle of its pair. */
  method WriteBundles(out: Output, plan: seq<(string, string)>, sign: Signer) returns (k: nat)
    modifies out
    ensures k <= |plan| && (forall i :: 0 <= i < k ==> Signs(sign, plan[i])) && (k < |plan| ==> !Signs(sign, plan[k]))
    ensures out.files == Assign(old(out.files), BundleRows(sign, plan[..k]))
  {
    hide Assign;
    ghost var dir := out.files;
    NoRows(dir, sign, plan);
    for i := 0 to |plan|
      invariant forall j :: 0 <= j < i ==> Signs(sign, plan[j])
      invariant out.files == Assign(dir, BundleRows(sign, plan[..i]))
    {
      var bundle := sign(plan[i].0, plan[i].1);
      if bundle.None? { return i; }
      RowsStep(dir, sign, plan, i);
      out.files := out.files[plan[i].1 := bundle.value];
    }
    k := |plan|;
  }

  lemma NoRows(dir: Dir, sign: Signer, plan: seq<(string, string)>)
    ensures Assign(dir, BundleRows(sign, plan[..0])) == dir
  {
    assert plan[..0] == [];
  }

  /** No file a plan would write exists yet. */
  method BundlesAbsent(out: Output, plan: seq<(string, string)>) returns (ok: bool)
    ensures ok <==> Elems(Map(Second, plan)) !! out.files.Keys
  {
    for i := 0 to |plan|
      invariant forall k :: 0 <= k < i ==> plan[k].1 !in out.files
    {
      if plan[i].1 in out.files {
        assert Map(Second, plan)[i] in Elems(Map(Second, plan));
        return false;
      }
    }
    BundlesNew(out.files, plan);
    ok := true;
  }

  ghost predicate SignerHolds(sign: Signer, m: Manifest) { forall p :: p in Plan(m) ==> Signs(sign, p) }

  /** What a signer that fails leaves: the bundles of the first few pairs of the plan. */
  ghost predicate PartlySigned(d: Dir, dir: Dir, m: Manifest, sign: Signer) {
    exists k :: 0 <= k < |Plan(m)| && d == Assign(dir, BundleRows(sign, Plan(m)[..k]))
  }

  /** `sign`: refused without any change, stopped by a failing signer, or all planned bundles are written. */
  method Sign(out: Output, o: Oracle, matrix: seq<Target>, trust: Trust, sign: Signer) returns (ok: bool)
    modifies out
    ensures ok <==> SignAdmits(o, old(out.files), matrix, trust) && SignerHolds(sign, Get(old(out.files), MANIFEST).manifest)
    ensures !SignAdmits(o, old(out.files), matrix, trust) ==> out.files == old(out.files)
    ensures ok ==> out.files == Signed(old(out.files), Get(old(out.files), MANIFEST).manifest, sign)
    ensures !ok && SignAdmits(o, old(out.files), matrix, trust) ==>
      PartlySigned(out.files, old(out.files), Get(old(out.files), MANIFEST).manifest, sign)
  {
    hide SignChecks, Blobs, Attestations, Elems, Map, Assign, Signs;
    if !Get(out.files, MANIFEST).ManifestDoc? { return false; }
    var m := Get(out.files, MANIFEST).manifest;
    if !SignChecks(o, out.files, m, matrix, trust) { return false; }
    ghost var dir := out.files;
    var blobs, attestations := SigningPlan(m);
    PlanBundles(m);
    var absent := BundlesAbsent(out, blobs + attestations);
    if !absent { return false; }
    var signed := WriteBundles(out, blobs, sign);
    PlanPrefix(m, signed);
    if signed < |blobs| {
      assert blobs[signed] in Plan(m);
      return false;
    }
    var attested := WriteBundles(out, attestations, sign);
    PlanRows(dir, m, sign, attested);
    if attested < |attestations| {
      assert attestations[attested] in Plan(m);
      return false;
    }
    assert Plan(m)[..|Plan(m)|] == Plan(m);
    ok := true;
  }

  lemma PlanPrefix(m: Manifest, k: nat)
    requires k <= |Blobs(m)|
    ensures Plan(m)[..k] == Blobs(m)[..k]
  {
    hide Blobs, Attestations;
  }

  lemma PlanRows(dir: Dir, m: Manifest, sign: Signer, k: nat)
    requires k <= |Attestations(m)|
    ensures Assign(Assign(dir, BundleRows(sign, Blobs(m)[..|Blobs(m)|])), BundleRows(sign, Attestations(m)[..k]))
         == Assign(dir, BundleRows(sign, Plan(m)[..|Blobs(m)| + k]))
  {
    hide Blobs, Attestations, BundleRow, Assign;
    assert Plan(m)[..|Blobs(m)| + k] == Blobs(m)[..|Blobs(m)|] + Attestations(m)[..k];
    assert BundleRows(sign, Plan(m)[..|Blobs(m)| + k]) == BundleRows(sign, Blobs(m)[..|Blobs(m)|]) + BundleRows(sign, Attestations(m)[..k]);
    AssignAppend(dir, BundleRows(sign, Blobs(m)[..|Blobs(m)|]), BundleRows(sign, Attestations(m)[..k]));
  }

  // ----- When signing replaces nothing -----

  lemma ChecksumsNotListed(m: Manifest)
    requires ShapedManifest(m) && m.mode.Release?
    ensures CHECKSUMS !in ContentNames(m)
  {
    hide TargetFiles, ContentAt, AssetsOf, ShapedTarget;
    var names := Map(FilenameOf, FlatMap(TargetFiles, m.targets));
    ReleaseContentNames(m);
    forall n | n in names ensures n != CHECKSUMS {
      ContentIsAsset(m.context.version, Matrix(m), n);
      FixedNotAsset(m.context.version, Matrix(m), n);
    }
    assert CHECKSUMS[0] == 'S' && MANIFEST[0] == 'm' && RELEASE_METADATA[0] == 'c';
  }

  lemma BundlesDistinct(names: seq<string>, sums: string, blobs: seq<string>, attested: seq<string>, keys: set<string>)
    requires NoDup(names) && keys == Elems(names) + {sums} && Elems(blobs) + Elems(attested) !! keys && sums !in names
    ensures NoDup(names + [sums] + blobs + attested) <==> NoDup(blobs + attested)
  {
    assert names + [sums] + blobs + attested == (names + [sums]) + (blobs + attested);
    NoDupConcat(names, [sums]);
    NoDupConcat(names + [sums], blobs + attested);
    forall x | x in names + [sums] ensures x !in blobs + attested {
      assert x in keys;
      assert x !in Elems(blobs) + Elems(attested);
    }
  }

  /** On a directory that `sign` admits, every bundle is written under a new name exactly when no
      architecture token of the matrix imitates an ending. */
  lemma SigningReplacesNothing(o: Oracle, d: Dir, matrix: seq<Target>, trust: Trust, sign: Signer)
    requires SignAdmits(o, d, matrix, trust)
    ensures var rows := BundleRows(sign, Plan(Get(d, MANIFEST).manifest));
      (forall i :: 0 <= i < |rows| ==> rows[i].0 !in Assign(d, rows[..i])) <==> Admissible(matrix)
  {
    hide ShapedManifest, ContentNames, Blobs, Attestations, Assign, Admissible, BundleRow, ChecksumsOk, TargetOk, MetadataOk;
    var m := Get(d, MANIFEST).manifest;
    var rows := BundleRows(sign, Plan(m));
    ListedOnce(o, d, m);
    ChecksumsNotListed(m);
    RowNames(sign, Plan(m));
    MapAppend(Second, Blobs(m), Attestations(m));
    BundlesDistinct(ContentNames(m), CHECKSUMS, Map(Second, Blobs(m)), Map(Second, Attestations(m)), d.Keys);
    InventoryDistinct(m);
    EachNew(d, rows);
    PlanBundles(m);
    NamesNew(Map(Second, Plan(m)), d.Keys);
  }

  lemma AttestationIsBundle(file: string)
    ensures AttestationName(file) == BundleName(file + ".intoto")
  {
  }

  lemma ArtifactExtended(version: string, t: Target, u: Target, tail: string)
    requires t.os == u.os && u.arch == t.arch + tail
    ensures ArtifactName(version, u) == ArtifactName(version, t) + tail
  {
    assert ArtifactStem(version, u.os) + (t.arch + tail) == ArtifactStem(version, t.os) + t.arch + tail;
  }

  lemma PlanHas(m: Manifest, e: TargetEntry)
    requires e in m.targets && ShapedTarget(m.context.version, e)
    ensures BundleName(ArtifactName(m.context.version, e.target)) in Map(Second, Blobs(m))
    ensures AttestationName(ArtifactName(m.context.version, e.target)) in Map(Second, Attestations(m))
  {
    hide ArtifactName, ShapedPackage;
    var files := FlatMap(TargetFiles, m.targets);
    FlatMapContains(TargetFiles, m.targets, e.artifact.file);
    assert TargetFiles(e)[0] == e.artifact.file;
    var i :| 0 <= i < |files| && files[i] == e.artifact.file;
    assert Map(Pair, files)[i] in Blobs(m);
    var b :| 0 <= b < |Blobs(m)| && Blobs(m)[b] == Pair(e.artifact.file);
    assert Map(Second, Blobs(m))[b] == e.artifact.file.bundle;
    var own := (e.provenance.file.filename, e.provenance.attestation);
    assert TargetAttestations(e)[0] == own;
    FlatMapContains(TargetAttestations, m.targets, own);
    var a :| 0 <= a < |Attestations(m)| && Attestations(m)[a] == own;
    assert Map(Second, Attestations(m))[a] == e.provenance.attestation;
  }

  /** With tokens such as `amd64` and `amd64.intoto` the plan names one bundle twice: the attestation
      of the one executable is the signature of the other. */
  lemma PlanRepeats(m: Manifest, e: TargetEntry, f: TargetEntry)
    requires e in m.targets && f in m.targets && ShapedTarget(m.context.version, e) && ShapedTarget(m.context.version, f)
    requires e.target.os == f.target.os && f.target.arch == e.target.arch + ".intoto"
    ensures !NoDup(Map(Second, Plan(m)))
  {
    hide Blobs, Attestations, ArtifactName, ShapedTarget, BundleName, AttestationName;
    PlanHas(m, e);
    PlanHas(m, f);
    ArtifactExtended(m.context.version, e.target, f.target, ".intoto");
    AttestationIsBundle(ArtifactName(m.context.version, e.target));
    MapAppend(Second, Blobs(m), Attestations(m));
    NoDupConcat(Map(Second, Blobs(m)), Map(Second, Attestations(m)));
  }

  /** `sign` does admit such a release when its other names stay apart, and then writes the bundle twice. */
  lemma AdmittedAndReplaced(o: Oracle, dir: Dir, s: State, trust: Trust, sign: Signer, t: Target, u: Target)
    requires Ready(o, dir, s) && s.mode.Release? && NamesSeparate(o, dir, s) && Sound(o, dir, s, trust)
    requires t in Map(TargetAt, s.records) && u in Map(TargetAt, s.records) && t.os == u.os && u.arch == t.arch + ".intoto"
    ensures SignAdmits(o, Finalized(o, dir, s), Map(TargetAt, s.records), trust)
    ensures var rows := BundleRows(sign, Plan(ManifestFor(o, dir, s)));
      !(forall i :: 0 <= i < |rows| ==> rows[i].0 !in Assign(Finalized(o, dir, s), rows[..i]))
  {
    hide Ready, Finalized, NamesSeparate, Sound, SignAdmits, Plan, BundleRow, Assign, ManifestFor;
    var m := ManifestFor(o, dir, s);
    SignAcceptsExactly(o, dir, s, Map(TargetAt, s.records), trust);
    var e := EntriesOf(o, dir, s, t);
    var f := EntriesOf(o, dir, s, u);
    PlanRepeats(m, e, f);
    RowNames(sign, Plan(m));
    EachNew(Finalized(o, dir, s), BundleRows(sign, Plan(m)));
  }

  lemma EntriesOf(o: Oracle, dir: Dir, s: State, t: Target) returns (e: TargetEntry)
    requires Ready(o, dir, s) && s.mode.Release? && t in Map(TargetAt, s.records)
    ensures var m := ManifestFor(o, dir, s); e in m.targets && ShapedTarget(m.context.version, e) && e.target == t
  {
    hide RecordReady, ShapedTarget, TargetEntryFor;
    var m := ManifestFor(o, dir, s);
    ManifestShaped(o, dir, s);
    MatrixKept(o, dir, s);
    ReleaseMode(o, dir, s);
    var i :| 0 <= i < |s.records| && Map(TargetAt, s.records)[i] == t;
    e := m.targets[i];
    assert Map(TargetOf, m.targets)[i] == t && e in m.targets;
  }

  lemma MatrixKept(o: Oracle, dir: Dir, s: State)
    ensures Map(TargetOf, ManifestFor(o, dir, s).targets) == Map(TargetAt, s.records)
  {
  }

  lemma NamesNew(names: seq<string>, keys: set<string>)
    requires Elems(names) !! keys
    ensures forall n :: n in names ==> n !in keys
  {
    forall n | n in names ensures n !in keys { assert n in Elems(names); }
  }

  lemma BundlesNew(dir: Dir, plan: seq<(string, string)>)
    requires forall k :: 0 <= k < |plan| ==> plan[k].1 !in dir
    ensures Elems(Map(Second, plan)) !! dir.Keys
  {
    forall n | n in Elems(Map(Second, plan)) ensures n !in dir {
      var k :| 0 <= k < |plan| && Map(Second, plan)[k] == n;
    }
  }
}
