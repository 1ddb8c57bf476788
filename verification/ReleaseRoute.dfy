/** The way of a release from an empty directory to a verified one. */
module ReleaseRoute {
  import opened Sequences
  import opened ReleaseManifest
  import opened CoreAssets
  import opened ReleaseInventory
  import opened Sbom
  import opened Provenance
  import opened ReleasePipeline
  import opened ReleaseVerification
  import opened ReleaseAcceptance
  import opened ReleaseOutput
  import opened ReleaseWork
  import opened ReleaseRuns
  import opened ReleaseSafety

  /** What the platform signers deliver for one target. */
  datatype Supply =
    | RpmSupply(package: Content, fingerprint: string, key: Content)
    | AppleSupply(executable: Content, team: string, identity: string, package: Content, installer: string, candidate: Content)

  datatype Part = Part(build: Build, supply: Supply)

  function BuildOf(p: Part): Build { p.build }
  function TargetIn(p: Part): Target { p.build.target }

  predicate Supplied(p: Part) { p.supply.RpmSupply? <==> p.build.target.os.Linux? }

  /** The executable that is released: as built, or as the platform signer returned it. */
  function Released(p: Part): Content { match p.supply case RpmSupply(_, _, _) => p.build.first case AppleSupply(c, _, _, _, _, _) => c }

  /** The Go modules of an executable can be read, listed and resolved. */
  predicate Usable(o: Oracle, ctx: Context, c: Content) {
    o.modules(c).Some? && Buildable(ctx, o.modules(c).value) && Resolvable(o.tools, Dependencies(o.modules(c).value))
  }

  function SigningOf(p: Part): Signing {
    match p.supply
    case RpmSupply(_, fingerprint, key) => RpmSigning(fingerprint, key)
    case AppleSupply(_, team, identity, _, installer, candidate) => PkgSigning(team, identity, installer, candidate)
  }

  /** The commands that record the evidence of one target. */
  function CommandsFor(version: string, p: Part): seq<Command> {
    var t := p.build.target;
    match p.supply
    case RpmSupply(package, _, _) => [SignPayload(PackageName(version, t, Rpm), package), RecordNativePackage(t, SigningOf(p))]
    case AppleSupply(executable, team, identity, package, _, _) =>
      [SignPayload(ArtifactName(version, t), executable), RecordNative(t, team, identity),
       SignPayload(PackageName(version, t, Pkg), package), RecordNativePackage(t, SigningOf(p))]
  }

  // ----- What a target has before and after its evidence -----

  function Digest(o: Oracle, c: Content): Option<(string, nat)> { Some((o.sha256(c), o.size(c))) }

  function FinishedRecord(o: Oracle): Part -> Record {
    (p: Part) =>
      var b, t := p.build, p.build.target;
      Record(t, o.sha256(b.first), o.size(b.first),
             match p.supply
             case RpmSupply(_, _, _) =>
               [PackageRecord(Deb, Digest(o, b.packageFirst(Deb)), None),
                PackageRecord(Rpm, Digest(o, b.packageFirst(Rpm)), Some(PackageEvidenceName(t, Rpm)))]
             case AppleSupply(_, _, _, _, _, candidate) => [PackageRecord(Pkg, Digest(o, candidate), Some(PackageEvidenceName(t, Pkg)))])
  }

  function FinishedRows(o: Oracle, version: string): Part -> seq<(string, Content)> {
    (p: Part) =>
      var b, t := p.build, p.build.target;
      match p.supply
      case RpmSupply(package, fingerprint, key) =>
        [(ArtifactName(version, t), b.first), (PackageName(version, t, Deb), b.packageFirst(Deb)), (PackageName(version, t, Rpm), package),
         (PackageEvidenceName(t, Rpm),
          EvidenceDoc(RpmSigned(TargetId(t), PackageName(version, t, Rpm), o.sha256(package), fingerprint, SigningKeyName(t), o.sha256(key)))),
         (SigningKeyName(t), key)]
      case AppleSupply(executable, team, identity, package, installer, _) =>
        [(ArtifactName(version, t), executable),
         (ExecutableEvidenceName(t), EvidenceDoc(ExecutableSigned(TargetId(t), ArtifactName(version, t), o.sha256(executable), team, identity))),
         (PackageName(version, t, Pkg), package),
         (PackageEvidenceName(t, Pkg),
          EvidenceDoc(PkgSigned(TargetId(t), PackageName(version, t, Pkg), o.sha256(package), team, identity, installer)))]
  }

  /** The names of a finished target. */
  function FullNames(version: string): Target -> seq<string> {
    (t: Target) =>
      if t.os.Linux? then
        [ArtifactName(version, t), PackageName(version, t, Deb), PackageName(version, t, Rpm), PackageEvidenceName(t, Rpm), SigningKeyName(t)]
      else [ArtifactName(version, t), ExecutableEvidenceName(t), PackageName(version, t, Pkg), PackageEvidenceName(t, Pkg)]
  }

  ghost predicate Holding(d: Dir, rows: seq<(string, Content)>) { forall x :: x in rows ==> x.0 in d && d[x.0] == x.1 }

  // ----- Names of different files differ -----

  lemma FullNamesAssets(version: string, t: Target)
    requires NoDup(TargetAssets(version, t))
    ensures NoDup(FullNames(version)(t)) && forall n :: n in FullNames(version)(t) ==> n in TargetAssets(version, t)
  {
    hide ArtifactName, PackageName, PackageEvidenceName, ExecutableEvidenceName, SigningKeyName, TargetAssets;
    AssetsNamed(version, t);
    var names, full := NamedAssets(version, t), FullNames(version)(t);
    if t.os.Linux? {
      assert names[0] == full[0] && names[7] == full[1] && names[14] == full[2] && names[21] == full[3] && names[23] == full[4];
    } else {
      assert names[0] == full[0] && names[14] == full[1] && names[7] == full[2] && names[16] == full[3];
    }
  }

  /** Over an admissible matrix all names of finished targets differ, also from the work state. */
  lemma FullNamesApart(version: string, matrix: seq<Target>)
    requires NoDup(matrix) && Admissible(matrix)
    ensures forall i :: 0 <= i < |matrix| ==> NoDup(FullNames(version)(matrix[i])) && WORK_STATE !in FullNames(version)(matrix[i])
    ensures forall i, j, n :: 0 <= i < |matrix| && 0 <= j < |matrix| && i != j && n in FullNames(version)(matrix[i]) ==> n !in FullNames(version)(matrix[j])
  {
    hide FullNames, TargetAssets, Admissible;
    MatrixDistinct(version, matrix);
    NoDupConcat(FixedAssets(), FlatMap(AssetsOf(version), matrix));
    FlatMapNoDup(AssetsOf(version), matrix);
    forall i | 0 <= i < |matrix|
      ensures NoDup(FullNames(version)(matrix[i])) && forall n :: n in FullNames(version)(matrix[i]) ==> n in AssetsOf(version)(matrix[i])
      ensures WORK_STATE !in FullNames(version)(matrix[i])
    {
      FullNamesAssets(version, matrix[i]);
      if WORK_STATE in FullNames(version)(matrix[i]) { AssetInitial(version, matrix[i], WORK_STATE); }
    }
  }

  // ----- One target -----

  lemma RowsNamed(o: Oracle, version: string, p: Part)
    requires Supplied(p)
    ensures Map(Fst, FinishedRows(o, version)(p)) == FullNames(version)(p.build.target)
  {
    hide ArtifactName, PackageName, PackageEvidenceName, ExecutableEvidenceName, SigningKeyName, TargetId;
  }

  lemma Got(d: Dir, rows: seq<(string, Content)>, k: nat)
    requires Holding(d, rows) && k < |rows|
    ensures rows[k].0 in d && Get(d, rows[k].0) == rows[k].1
  {
    assert rows[k] in rows;
  }

  lemma FinishedPayloads(o: Oracle, s: State, p: Part)
    requires Supplied(p) && s.mode.Release?
    ensures RecordPayloads(s)(FinishedRecord(o)(p)) == FullNames(s.context.version)(p.build.target)
  {
    hide ArtifactName, PackageName, PackageEvidenceName, ExecutableEvidenceName, SigningKeyName;
    var r := FinishedRecord(o)(p);
    if p.supply.RpmSupply? { FlatMapTwo(PackagePayloads(s, r), r.packages); } else { FlatMapOne(PackagePayloads(s, r), r.packages); }
  }

  lemma LinuxOwnReady(o: Oracle, d: Dir, s: State, p: Part)
    requires Supplied(p) && p.supply.RpmSupply? && s.mode.Release? && Usable(o, s.context, p.build.first)
    requires Holding(d, FinishedRows(o, s.context.version)(p))
    ensures OwnReady(o, d, s, FinishedRecord(o)(p)) && Listed(s, FinishedRecord(o)(p))
  {
    hide ArtifactName, PackageName, PackageEvidenceName, SigningKeyName, TargetId, Buildable, Resolvable, Holding;
    Got(d, FinishedRows(o, s.context.version)(p), 0);
  }

  lemma LinuxPackagesReady(o: Oracle, d: Dir, s: State, p: Part)
    requires Supplied(p) && p.supply.RpmSupply? && s.mode.Release? && Holding(d, FinishedRows(o, s.context.version)(p))
    ensures var r := FinishedRecord(o)(p); PackageReady(o, d, s, r, r.packages[0]) && PackageReady(o, d, s, r, r.packages[1])
  {
    hide ArtifactName, PackageName, PackageEvidenceName, SigningKeyName, TargetId, Holding, NativeFor;
    var rows := FinishedRows(o, s.context.version)(p);
    Got(d, rows, 1);
    Got(d, rows, 2);
    Got(d, rows, 3);
    Got(d, rows, 4);
  }

  lemma AppleOwnReady(o: Oracle, d: Dir, s: State, p: Part)
    requires Supplied(p) && p.supply.AppleSupply? && s.mode.Release? && Usable(o, s.context, p.supply.executable)
    requires Holding(d, FinishedRows(o, s.context.version)(p))
    ensures OwnReady(o, d, s, FinishedRecord(o)(p)) && Listed(s, FinishedRecord(o)(p))
    ensures NativeFor(o, d, s, FinishedRecord(o)(p)).AppleVerified? && NativeFor(o, d, s, FinishedRecord(o)(p)).team == p.supply.team
            && NativeFor(o, d, s, FinishedRecord(o)(p)).identity == p.supply.identity
  {
    hide ArtifactName, PackageName, PackageEvidenceName, ExecutableEvidenceName, TargetId, Buildable, Resolvable, Holding;
    var rows := FinishedRows(o, s.context.version)(p);
    Got(d, rows, 0);
    Got(d, rows, 1);
  }

  lemma ApplePackageReady(o: Oracle, d: Dir, s: State, p: Part)
    requires Supplied(p) && p.supply.AppleSupply? && s.mode.Release? && Holding(d, FinishedRows(o, s.context.version)(p))
    requires var n := NativeFor(o, d, s, FinishedRecord(o)(p)); n.AppleVerified? && n.team == p.supply.team && n.identity == p.supply.identity
    ensures var r := FinishedRecord(o)(p); PackageReady(o, d, s, r, r.packages[0])
  {
    hide ArtifactName, PackageName, PackageEvidenceName, ExecutableEvidenceName, SigningKeyName, TargetId, Holding, NativeFor;
    var rows := FinishedRows(o, s.context.version)(p);
    Got(d, rows, 2);
    Got(d, rows, 3);
  }

  /** A finished target passes every check of finalization. */
  lemma FinishedReady(o: Oracle, d: Dir, s: State, p: Part)
    requires Supplied(p) && s.mode.Release? && Usable(o, s.context, Released(p)) && Holding(d, FinishedRows(o, s.context.version)(p))
    ensures RecordReady(o, d, s, FinishedRecord(o)(p))
  {
    hide OwnReady, PackageReady, Listed, Holding, FinishedRows, Usable;
    if p.supply.RpmSupply? {
      LinuxOwnReady(o, d, s, p);
      LinuxPackagesReady(o, d, s, p);
    } else {
      AppleOwnReady(o, d, s, p);
      ApplePackageReady(o, d, s, p);
    }
  }

  /** The directory after a target's evidence is recorded. */
  function Finished(o: Oracle, d: Dir, s: State, i: nat, p: Part): Dir
    requires i < |s.records|
  {
    Assign(d, FinishedRows(o, s.context.version)(p))[WORK_STATE := StateDoc(s.(records := s.records[i := FinishedRecord(o)(p)]))]
  }

  /** A target that was prepared and has no evidence yet. */
  ghost predicate Pending(o: Oracle, d: Dir, s: State, i: nat, p: Part) {
    var version, t := s.context.version, p.build.target;
    && Supplied(p) && s.mode.Release? && i < |s.records| && FirstTarget(s.records, t) == i && s.records[i] == Built(o, Release)(p.build)
    && Holds(d, WORK_STATE, StateDoc(s)) && Holding(d, Copies(Release, version)(p.build))
    && NoDup(FullNames(version)(t)) && WORK_STATE !in FullNames(version)(t)
    && PackageEvidenceName(t, FormatOfSigning(SigningOf(p))) !in d
    && (t.os.Linux? ==> SigningKeyName(t) !in d) && (t.os.Darwin? ==> ExecutableEvidenceName(t) !in d)
  }

  /** The steps of a Linux target: the signed package replaces the built one, then its evidence is recorded. */
  lemma LinuxEvidence(o: Oracle, d: Dir, s: State, i: nat, p: Part) returns (d1: Dir)
    requires Pending(o, d, s, i, p) && p.supply.RpmSupply?
    ensures Succeeds(o, CommandsFor(s.context.version, p)[0], d, d1)
    ensures Succeeds(o, CommandsFor(s.context.version, p)[1], d1, Finished(o, d, s, i, p))
  {
    hide ArtifactName, PackageName, PackageEvidenceName, ExecutableEvidenceName, SigningKeyName, TargetId, Assign, Signable, Built,
      PackageAdmits, PackageRecorded, Copies, Recorded, FinishedRows, FinishedRecord, Holding;
    var version, t := s.context.version, p.build.target;
    var name := PackageName(version, t, Rpm);
    d1 := d[name := p.supply.package];
    RecordsRpm(o, s, i, p);
    LinuxCopied(o, d, s, i, p);
    RpmSignable(s, i, p, name);
    LinuxAdmits(o, d, s, i, p);
    LinuxRecorded(o, d, s, i, p);
  }

  lemma LinuxCopied(o: Oracle, d: Dir, s: State, i: nat, p: Part)
    requires Pending(o, d, s, i, p) && p.supply.RpmSupply?
    ensures ArtifactName(s.context.version, p.build.target) in d && PackageName(s.context.version, p.build.target, Rpm) in d
    ensures Holding(d, [FinishedRows(o, s.context.version)(p)[0], FinishedRows(o, s.context.version)(p)[1]])
    ensures exists k :: 0 <= k < |s.records[i].packages| && s.records[i].packages[k].format == Rpm
    ensures Get(d, WORK_STATE) == StateDoc(s) && WORK_STATE != PackageName(s.context.version, p.build.target, Rpm)
  {
    hide ArtifactName, PackageName, PackageEvidenceName, ExecutableEvidenceName, SigningKeyName, TargetId;
    var version, t, b := s.context.version, p.build.target, p.build;
    var copies, names := Copies(Release, version)(b), FullNames(version)(t);
    assert Formats(t.os) == [Deb, Rpm];
    assert copies == [(names[0], b.first), (names[1], b.packageFirst(Deb)), (names[2], b.packageFirst(Rpm))];
    assert copies[0] in copies && copies[1] in copies && copies[2] in copies;
    assert s.records[i].packages[1].format == Rpm;
    assert names[2] in names;
  }

  lemma LinuxAdmits(o: Oracle, d: Dir, s: State, i: nat, p: Part)
    requires Pending(o, d, s, i, p) && p.supply.RpmSupply?
    ensures PackageAdmits(d[PackageName(s.context.version, p.build.target, Rpm) := p.supply.package], p.build.target, SigningOf(p))
  {
    hide ArtifactName, PackageName, PackageEvidenceName, ExecutableEvidenceName, SigningKeyName, TargetId, Built, Holding, Copies;
    LinuxCopied(o, d, s, i, p);
    RecordsRpm(o, s, i, p);
    var names := FullNames(s.context.version)(p.build.target);
    assert names[2] != names[3] && names[2] != names[4];
  }

  lemma LinuxRecorded(o: Oracle, d: Dir, s: State, i: nat, p: Part)
    requires Pending(o, d, s, i, p) && p.supply.RpmSupply?
    requires PackageAdmits(d[PackageName(s.context.version, p.build.target, Rpm) := p.supply.package], p.build.target, SigningOf(p))
    ensures PackageRecorded(o, d[PackageName(s.context.version, p.build.target, Rpm) := p.supply.package], p.build.target, SigningOf(p))
         == Finished(o, d, s, i, p)
  {
    hide ArtifactName, PackageName, PackageEvidenceName, ExecutableEvidenceName, SigningKeyName, TargetId, Built, Holding, Copies, Assign,
      Recorded, FinishedRecord, PackageAdmits;
    LinuxCopied(o, d, s, i, p);
    RecordsRpm(o, s, i, p);
    LinuxRows(o, d, s.context.version, p);
    var names := FullNames(s.context.version)(p.build.target);
    assert names[3] != names[4];
    var rows := FinishedRows(o, s.context.version)(p);
    Swapped(d[names[2] := p.supply.package], rows[3].0, rows[3].1, rows[4].0, rows[4].1);
  }

  lemma Swapped(d: Dir, a: string, x: Content, b: string, y: Content)
    requires a != b
    ensures d[a := x][b := y] == d[b := y][a := x]
  {
  }

  lemma RecordsRpm(o: Oracle, s: State, i: nat, p: Part)
    requires p.supply.RpmSupply? && p.build.target.os.Linux? && i < |s.records| && FirstTarget(s.records, p.build.target) == i
    requires s.records[i] == Built(o, Release)(p.build)
    ensures PackageListedAt(s, p.build.target, Rpm) && PackageAt(s, p.build.target, Rpm).evidence.None?
    ensures Recorded(o, s, p.build.target, SigningOf(p)) == s.(records := s.records[i := FinishedRecord(o)(p)])
  {
    hide ArtifactName, PackageName, PackageEvidenceName, SigningKeyName, TargetId;
    var packages := s.records[i].packages;
    assert Formats(p.build.target.os) == [Deb, Rpm];
    assert packages == [PackageBuilt(o, p.build)(Deb), PackageBuilt(o, p.build)(Rpm)];
    assert FirstFormat(packages, Rpm) == 1;
    assert packages[1 := RecordedPackage(o, p.build.target, packages[1], SigningOf(p))] == FinishedRecord(o)(p).packages;
  }

  lemma RpmSignable(s: State, i: nat, p: Part, name: string)
    requires i < |s.records| && s.records[i].target == p.build.target && name == PackageName(s.context.version, p.build.target, Rpm)
    requires exists k :: 0 <= k < |s.records[i].packages| && s.records[i].packages[k].format == Rpm
    ensures Signable(s, name)
  {
    hide PackageName, ArtifactName;
    var k :| 0 <= k < |s.records[i].packages| && s.records[i].packages[k].format == Rpm;
    assert s.records[i] in s.records && s.records[i].packages[k] in s.records[i].packages;
    assert name == PackageOf(s, s.records[i], s.records[i].packages[k]);
  }

  lemma LinuxRows(o: Oracle, d: Dir, version: string, p: Part)
    requires p.supply.RpmSupply?
    requires Holding(d, [FinishedRows(o, version)(p)[0], FinishedRows(o, version)(p)[1]])
    ensures var rows := FinishedRows(o, version)(p);
      Assign(d, rows) == d[rows[2].0 := rows[2].1][rows[3].0 := rows[3].1][rows[4].0 := rows[4].1]
  {
    hide ArtifactName, PackageName, PackageEvidenceName, SigningKeyName, TargetId;
    var rows := FinishedRows(o, version)(p);
    var first := [rows[0], rows[1]];
    assert first[0] in first && first[1] in first;
    assert rows == [] + [rows[0]] + [rows[1]] + [rows[2]] + [rows[3]] + [rows[4]];
    AssignLast(d, [], rows[0]);
    AssignLast(d, [] + [rows[0]], rows[1]);
    AssignLast(d, [] + [rows[0]] + [rows[1]], rows[2]);
    AssignLast(d, [] + [rows[0]] + [rows[1]] + [rows[2]], rows[3]);
    AssignLast(d, [] + [rows[0]] + [rows[1]] + [rows[2]] + [rows[3]], rows[4]);
    assert d[rows[0].0 := rows[0].1] == d && d[rows[1].0 := rows[1].1] == d;
  }

  lemma RecordsPkg(o: Oracle, s: State, i: nat, p: Part)
    requires p.supply.AppleSupply? && p.build.target.os.Darwin? && i < |s.records| && FirstTarget(s.records, p.build.target) == i
    requires s.records[i] == Built(o, Release)(p.build)
    ensures PackageListedAt(s, p.build.target, Pkg) && PackageAt(s, p.build.target, Pkg).evidence.None?
    ensures Recorded(o, s, p.build.target, SigningOf(p)) == s.(records := s.records[i := FinishedRecord(o)(p)])
  {
    hide ArtifactName, PackageName, PackageEvidenceName, TargetId;
    var packages := s.records[i].packages;
    assert packages == [PackageRecord(Pkg, None, None)];
    assert FirstFormat(packages, Pkg) == 0;
    assert packages[0 := RecordedPackage(o, p.build.target, packages[0], SigningOf(p))] == FinishedRecord(o)(p).packages;
  }

  lemma AppleSignable(o: Oracle, s: State, i: nat, p: Part)
    requires p.build.target.os.Darwin? && i < |s.records| && s.records[i] == Built(o, Release)(p.build)
    ensures Signable(s, ArtifactName(s.context.version, p.build.target)) && Signable(s, PackageName(s.context.version, p.build.target, Pkg))
  {
    hide PackageName, ArtifactName;
    var r := s.records[i];
    assert r in s.records && r.packages[0] in r.packages;
    assert ArtifactName(s.context.version, p.build.target) == ArtifactOf(s, r);
    assert PackageName(s.context.version, p.build.target, Pkg) == PackageOf(s, r, r.packages[0]);
  }

  lemma AppleNames(o: Oracle, d: Dir, s: State, i: nat, p: Part)
    requires Pending(o, d, s, i, p) && p.supply.AppleSupply?
    ensures var names := FullNames(s.context.version)(p.build.target);
      && |names| == 4 && names[0] in d && names[1] !in d && names[3] !in d && NoDup(names)
      && WORK_STATE != names[0] && WORK_STATE != names[1] && WORK_STATE != names[2] && WORK_STATE != names[3]
      && names == [ArtifactName(s.context.version, p.build.target), ExecutableEvidenceName(p.build.target),
                   PackageName(s.context.version, p.build.target, Pkg), PackageEvidenceName(p.build.target, Pkg)]
  {
    hide ArtifactName, PackageName, PackageEvidenceName, ExecutableEvidenceName;
    var names, copies := FullNames(s.context.version)(p.build.target), Copies(Release, s.context.version)(p.build);
    assert copies[0] == (names[0], p.build.first) && copies[0] in copies;
    assert names[0] in names && names[1] in names && names[2] in names && names[3] in names;
  }

  /** The steps of a Darwin target: signed executable, its evidence, delivered installer, its evidence. */
  lemma AppleEvidence(o: Oracle, d: Dir, s: State, i: nat, p: Part) returns (d1: Dir, d2: Dir, d3: Dir)
    requires Pending(o, d, s, i, p) && p.supply.AppleSupply?
    ensures var c := CommandsFor(s.context.version, p);
      && Succeeds(o, c[0], d, d1) && Succeeds(o, c[1], d1, d2) && Succeeds(o, c[2], d2, d3) && Succeeds(o, c[3], d3, Finished(o, d, s, i, p))
  {
    hide ArtifactName, PackageName, PackageEvidenceName, ExecutableEvidenceName, TargetId, Assign, Signable, Built,
      PackageAdmits, PackageRecorded, Copies, Recorded, FinishedRecord, Holding;
    var version, t := s.context.version, p.build.target;
    var names := FullNames(version)(t);
    var rows := FinishedRows(o, version)(p);
    RecordsPkg(o, s, i, p);
    AppleSignable(o, s, i, p);
    AppleNames(o, d, s, i, p);
    d1 := d[rows[0].0 := rows[0].1];
    d2 := d1[rows[1].0 := rows[1].1];
    d3 := d2[rows[2].0 := rows[2].1];
    assert names[1] != names[0] && names[3] != names[0] && names[3] != names[1] && names[3] != names[2] && names[2] != names[0] && names[2] != names[1];
    assert Get(d1, WORK_STATE) == Get(d2, WORK_STATE) == Get(d3, WORK_STATE) == StateDoc(s);
    AppleAdmits(o, s, i, p, d3);
    AppleRecorded(o, d, s, i, p, d3);
  }

  lemma AppleAdmits(o: Oracle, s: State, i: nat, p: Part, d3: Dir)
    requires p.supply.AppleSupply? && p.build.target.os.Darwin? && s.mode.Release? && Holds(d3, WORK_STATE, StateDoc(s))
    requires PackageListedAt(s, p.build.target, Pkg) && PackageAt(s, p.build.target, Pkg).evidence.None?
    requires ArtifactName(s.context.version, p.build.target) in d3 && PackageName(s.context.version, p.build.target, Pkg) in d3
    requires PackageEvidenceName(p.build.target, Pkg) !in d3
    ensures PackageAdmits(d3, p.build.target, SigningOf(p))
  {
    hide ArtifactName, PackageName, PackageEvidenceName;
  }

  lemma AppleRecorded(o: Oracle, d: Dir, s: State, i: nat, p: Part, d3: Dir)
    requires p.supply.AppleSupply? && i < |s.records| && PackageAdmits(d3, p.build.target, SigningOf(p)) && Holds(d3, WORK_STATE, StateDoc(s))
    requires PackageListedAt(s, p.build.target, Pkg)
    requires Recorded(o, s, p.build.target, SigningOf(p)) == s.(records := s.records[i := FinishedRecord(o)(p)])
    requires var rows := FinishedRows(o, s.context.version)(p);
      d3 == d[rows[0].0 := rows[0].1][rows[1].0 := rows[1].1][rows[2].0 := rows[2].1]
    ensures PackageRecorded(o, d3, p.build.target, SigningOf(p)) == Finished(o, d, s, i, p)
  {
    hide ArtifactName, PackageName, PackageEvidenceName, ExecutableEvidenceName, TargetId, Assign, Recorded, FinishedRecord, PackageAdmits;
    var rows := FinishedRows(o, s.context.version)(p);
    assert rows == [] + [rows[0]] + [rows[1]] + [rows[2]] + [rows[3]];
    NoRowsYet(d);
    AssignLast(d, [], rows[0]);
    AssignLast(d, [] + [rows[0]], rows[1]);
    AssignLast(d, [] + [rows[0]] + [rows[1]], rows[2]);
    AssignLast(d, [] + [rows[0]] + [rows[1]] + [rows[2]], rows[3]);
  }

  lemma NoRowsYet(d: Dir)
    ensures Assign(d, []) == d
  {
  }

  // ----- Runs of commands -----

  /** Every command of the list succeeds, from one directory to the next. */
  ghost predicate Run(o: Oracle, commands: seq<Command>, dirs: seq<Dir>) {
    |dirs| == |commands| + 1 && forall i :: 0 <= i < |commands| ==> Succeeds(o, commands[i], dirs[i], dirs[i + 1])
  }

  lemma RunAppend(o: Oracle, a: seq<Command>, x: seq<Dir>, b: seq<Command>, y: seq<Dir>)
    requires Run(o, a, x) && Run(o, b, y) && x[|a|] == y[0]
    ensures Run(o, a + b, x + y[1..])
  {
    hide Succeeds;
    var commands, dirs := a + b, x + y[1..];
    forall i | 0 <= i < |commands| ensures Succeeds(o, commands[i], dirs[i], dirs[i + 1]) {
      if i < |a| {
        assert commands[i] == a[i] && dirs[i] == x[i] && dirs[i + 1] == x[i + 1];
      } else {
        assert commands[i] == b[i - |a|] && dirs[i] == y[i - |a|] && dirs[i + 1] == y[i - |a| + 1];
      }
    }
  }

  /** The evidence of one target, as a run. */
  lemma TargetRun(o: Oracle, d: Dir, s: State, i: nat, p: Part) returns (dirs: seq<Dir>)
    requires Pending(o, d, s, i, p)
    ensures Run(o, CommandsFor(s.context.version, p), dirs) && dirs[0] == d && dirs[|dirs| - 1] == Finished(o, d, s, i, p)
  {
    hide Succeeds, Finished, Pending, ArtifactName, PackageName;
    var end := FinishedDefined(o, d, s, i, p);
    var commands := CommandsFor(s.context.version, p);
    if p.supply.RpmSupply? {
      var d1 := LinuxEvidence(o, d, s, i, p);
      dirs := [d, d1, end];
      assert |commands| == 2;
    } else {
      var d1, d2, d3 := AppleEvidence(o, d, s, i, p);
      dirs := [d, d1, d2, d3, end];
      assert |commands| == 4;
    }
  }

  lemma FinishedDefined(o: Oracle, d: Dir, s: State, i: nat, p: Part) returns (end: Dir)
    requires Pending(o, d, s, i, p)
    ensures i < |s.records| && end == Finished(o, d, s, i, p)
  {
    end := Finished(o, d, s, i, p);
  }

  // ----- All targets -----

  function BuiltRecord(o: Oracle): Part -> Record { (p: Part) => Built(o, Release)(p.build) }

  /** The names a target has from preparation on. */
  function StartNames(version: string): Target -> seq<string> {
    (t: Target) => if t.os.Linux? then FullNames(version)(t)[..3] else FullNames(version)(t)[..1]
  }

  function StateAt(o: Oracle, ctx: Context, parts: seq<Part>, i: nat): State
    requires i <= |parts|
  {
    State(Release, ctx, Map(FinishedRecord(o), parts[..i]) + Map(BuiltRecord(o), parts[i..]))
  }

  ghost predicate NamedAt(version: string, parts: seq<Part>, i: nat, n: string) {
    || n == WORK_STATE
    || (exists k :: 0 <= k < i && k < |parts| && n in FullNames(version)(parts[k].build.target))
    || (exists k :: i <= k < |parts| && n in StartNames(version)(parts[k].build.target))
  }

  /** The evidence of the first `i` targets is recorded, the others are as prepared. */
  ghost predicate Underway(o: Oracle, d: Dir, ctx: Context, parts: seq<Part>, i: nat) {
    && i <= |parts| && Holds(d, WORK_STATE, StateDoc(StateAt(o, ctx, parts, i)))
    && (forall k :: 0 <= k < i ==> Holding(d, FinishedRows(o, ctx.version)(parts[k])))
    && (forall k :: i <= k < |parts| ==> Holding(d, Copies(Release, ctx.version)(parts[k].build)))
    && forall n :: n in d <==> NamedAt(ctx.version, parts, i, n)
  }

  ghost predicate Prepares(o: Oracle, ctx: Context, parts: seq<Part>) {
    && parts != [] && NoDup(Map(TargetIn, parts)) && Admissible(Map(TargetIn, parts))
    && forall p :: p in parts ==> Supplied(p) && Reproducible(o, Release, p.build) && Usable(o, ctx, Released(p))
  }

  lemma CopiesNamed(version: string, b: Build)
    ensures Map(Fst, Copies(Release, version)(b)) == StartNames(version)(b.target)
  {
    hide ArtifactName, PackageName, PackageEvidenceName, ExecutableEvidenceName, SigningKeyName;
    var copies, names := Copies(Release, version)(b), FullNames(version)(b.target);
    if b.target.os.Linux? {
      assert Formats(b.target.os) == [Deb, Rpm];
      assert copies == [(names[0], b.first), (names[1], b.packageFirst(Deb)), (names[2], b.packageFirst(Rpm))];
    } else {
      assert copies == [(names[0], b.first)];
    }
  }

  lemma PartsApart(version: string, parts: seq<Part>)
    requires NoDup(Map(TargetIn, parts)) && Admissible(Map(TargetIn, parts))
    ensures forall i :: 0 <= i < |parts| ==> NoDup(FullNames(version)(parts[i].build.target)) && WORK_STATE !in FullNames(version)(parts[i].build.target)
    ensures forall i, j, n :: 0 <= i < |parts| && 0 <= j < |parts| && i != j && n in FullNames(version)(parts[i].build.target) ==>
              n !in FullNames(version)(parts[j].build.target)
  {
    hide FullNames, Admissible;
    var matrix := Map(TargetIn, parts);
    FullNamesApart(version, matrix);
    assert forall i :: 0 <= i < |parts| ==> matrix[i] == parts[i].build.target;
  }

  lemma CopiesApart(version: string, parts: seq<Part>)
    requires NoDup(Map(TargetIn, parts)) && Admissible(Map(TargetIn, parts))
    ensures var rows := FlatMap(Copies(Release, version), Map(BuildOf, parts));
      && NoDup(Map(Fst, rows)) && WORK_STATE !in Map(Fst, rows)
      && forall n :: n in Map(Fst, rows) <==> exists k :: 0 <= k < |parts| && n in StartNames(version)(parts[k].build.target)
  {
    hide FullNames, Admissible, Copies;
    var builds := Map(BuildOf, parts);
    var targets := Map(TargetIn, parts);
    var rows := FlatMap(Copies(Release, version), builds);
    PartsApart(version, parts);
    forall b | b in builds ensures Map(Fst, Copies(Release, version)(b)) == StartNames(version)(b.target) { CopiesNamed(version, b); }
    MapFlatMap(Fst, Copies(Release, version), StartNames(version), (b: Build) => b.target, builds);
    assert Map((b: Build) => b.target, builds) == targets;
    forall i | 0 <= i < |targets|
      ensures NoDup(StartNames(version)(targets[i])) && forall n :: n in StartNames(version)(targets[i]) ==> n in FullNames(version)(targets[i])
    {
      assert targets[i] == parts[i].build.target;
      StartWithin(version, targets[i]);
    }
    FlatMapNoDup(StartNames(version), targets);
    forall n ensures n in Map(Fst, rows) <==> exists k :: 0 <= k < |parts| && n in StartNames(version)(parts[k].build.target) {
      FlatMapContains(StartNames(version), targets, n);
      if k :| 0 <= k < |targets| && n in StartNames(version)(targets[k]) { assert targets[k] == parts[k].build.target; }
      if k :| 0 <= k < |parts| && n in StartNames(version)(parts[k].build.target) { assert targets[k] == parts[k].build.target; }
    }
  }

  lemma StartWithin(version: string, t: Target)
    requires NoDup(FullNames(version)(t))
    ensures NoDup(StartNames(version)(t)) && forall n :: n in StartNames(version)(t) ==> n in FullNames(version)(t)
    ensures forall k :: |StartNames(version)(t)| <= k < |FullNames(version)(t)| ==> FullNames(version)(t)[k] !in StartNames(version)(t)
  {
    hide ArtifactName, PackageName, PackageEvidenceName, ExecutableEvidenceName, SigningKeyName;
    var full, start := FullNames(version)(t), StartNames(version)(t);
    assert |start| <= |full| && start == full[..|start|];
  }

  lemma PreparedHolds(o: Oracle, ctx: Context, parts: seq<Part>, k: nat)
    requires NoDup(Map(TargetIn, parts)) && Admissible(Map(TargetIn, parts)) && k < |parts|
    ensures Holding(Prepared(o, Release, ctx, Map(BuildOf, parts)), Copies(Release, ctx.version)(parts[k].build))
  {
    hide Admissible, Copies, StartNames, Built, Assign;
    var builds := Map(BuildOf, parts);
    var rows := FlatMap(Copies(Release, ctx.version), builds);
    CopiesApart(ctx.version, parts);
    AssignRead(map[], rows);
    forall x | x in Copies(Release, ctx.version)(parts[k].build)
      ensures x in rows && x.0 != WORK_STATE
    {
      assert builds[k] == parts[k].build;
      FlatMapContains(Copies(Release, ctx.version), builds, x);
      RowNamed(rows, Map(Fst, rows), x);
    }
  }

  lemma PreparedNames(o: Oracle, ctx: Context, parts: seq<Part>, n: string)
    requires NoDup(Map(TargetIn, parts)) && Admissible(Map(TargetIn, parts))
    ensures n in Prepared(o, Release, ctx, Map(BuildOf, parts)) <==> NamedAt(ctx.version, parts, 0, n)
  {
    hide Admissible, Copies, StartNames, FullNames, Built, Assign;
    CopiesApart(ctx.version, parts);
    AssignKeys(map[], FlatMap(Copies(Release, ctx.version), Map(BuildOf, parts)));
  }

  /** Preparation is the first step. */
  lemma PreparedUnderway(o: Oracle, ctx: Context, parts: seq<Part>)
    requires Prepares(o, ctx, parts)
    ensures Underway(o, Prepared(o, Release, ctx, Map(BuildOf, parts)), ctx, parts, 0)
  {
    hide FullNames, Admissible, Copies, StartNames, NamedAt, Holding, Assign, Supplied, Reproducible, Usable, FinishedRows;
    var d := Prepared(o, Release, ctx, Map(BuildOf, parts));
    PreparedState(o, ctx, parts);
    forall k | 0 <= k < |parts| ensures Holding(d, Copies(Release, ctx.version)(parts[k].build)) { PreparedHolds(o, ctx, parts, k); }
    forall n ensures n in d <==> NamedAt(ctx.version, parts, 0, n) { PreparedNames(o, ctx, parts, n); }
  }

  lemma PreparedState(o: Oracle, ctx: Context, parts: seq<Part>)
    ensures Holds(Prepared(o, Release, ctx, Map(BuildOf, parts)), WORK_STATE, StateDoc(StateAt(o, ctx, parts, 0)))
  {
    hide Copies, Built, Assign;
    assert parts[0..] == parts && parts[..0] == [];
    assert Map(Built(o, Release), Map(BuildOf, parts)) == Map(FinishedRecord(o), parts[..0]) + Map(BuiltRecord(o), parts[0..]);
  }

  lemma StateRecords(o: Oracle, ctx: Context, parts: seq<Part>, i: nat)
    requires i < |parts| && NoDup(Map(TargetIn, parts))
    ensures var s := StateAt(o, ctx, parts, i);
      && |s.records| == |parts| && s.records[i] == Built(o, Release)(parts[i].build) && FirstTarget(s.records, parts[i].build.target) == i
      && s.(records := s.records[i := FinishedRecord(o)(parts[i])]) == StateAt(o, ctx, parts, i + 1)
  {
    hide Built;
    var s, t := StateAt(o, ctx, parts, i), parts[i].build.target;
    var targets := Map(TargetIn, parts);
    forall k | 0 <= k < |parts| ensures s.records[k].target == parts[k].build.target { RecordTarget(o, parts[k]); }
    assert parts[i..][0] == parts[i];
    var first := FirstTarget(s.records, t);
    assert first <= i;
    assert targets[first] == s.records[first].target && targets[i] == t;
    assert s.records[i := FinishedRecord(o)(parts[i])] == Map(FinishedRecord(o), parts[..i + 1]) + Map(BuiltRecord(o), parts[i + 1..]);
  }

  lemma RecordTarget(o: Oracle, p: Part)
    ensures FinishedRecord(o)(p).target == p.build.target && BuiltRecord(o)(p).target == p.build.target
  {
    var b := p.build;
    assert Built(o, Release)(b).target == b.target;
  }

  lemma NotYet(version: string, parts: seq<Part>, i: nat, n: string)
    requires i < |parts| && n in FullNames(version)(parts[i].build.target) && n !in StartNames(version)(parts[i].build.target) && n != WORK_STATE
    requires forall k :: 0 <= k < |parts| && k != i ==> n !in FullNames(version)(parts[k].build.target)
    requires forall k :: 0 <= k < |parts| ==> NoDup(FullNames(version)(parts[k].build.target))
    ensures !NamedAt(version, parts, i, n)
  {
    hide FullNames, StartNames;
    forall k | i <= k < |parts| ensures n !in StartNames(version)(parts[k].build.target) { StartWithin(version, parts[k].build.target); }
  }

  /** The next target is ready for its evidence. */
  lemma NextPending(o: Oracle, d: Dir, ctx: Context, parts: seq<Part>, i: nat)
    requires Prepares(o, ctx, parts) && Underway(o, d, ctx, parts, i) && i < |parts|
    ensures Pending(o, d, StateAt(o, ctx, parts, i), i, parts[i])
  {
    hide Admissible, Copies, Built, StateAt, ArtifactName, PackageName, PackageEvidenceName, ExecutableEvidenceName, SigningKeyName, NamedAt,
      Reproducible, Usable, Holding;
    var version, p := ctx.version, parts[i];
    var t := p.build.target;
    var full := FullNames(version)(t);
    assert p in parts;
    PartsApart(version, parts);
    StartWithin(version, t);
    StateRecords(o, ctx, parts, i);
    StateShape(o, ctx, parts, i);
    forall k | |StartNames(version)(t)| <= k < |full| ensures full[k] !in d {
      assert full[k] in full;
      NotYet(version, parts, i, full[k]);
    }
    if t.os.Linux? { assert full[3] !in d && full[4] !in d; } else { assert full[1] !in d && full[3] !in d; }
  }

  lemma StateShape(o: Oracle, ctx: Context, parts: seq<Part>, i: nat)
    requires i <= |parts|
    ensures StateAt(o, ctx, parts, i).mode == Release && StateAt(o, ctx, parts, i).context == ctx
  {
  }

  lemma KeptRows(o: Oracle, d: Dir, s: State, i: nat, p: Part, rows: seq<(string, Content)>)
    requires Supplied(p) && i < |s.records| && Holding(d, rows)
    requires forall x :: x in rows ==> x.0 != WORK_STATE && x.0 !in FullNames(s.context.version)(p.build.target)
    ensures Holding(Finished(o, d, s, i, p), rows)
  {
    hide FinishedRows, FullNames, Assign;
    RowsNamed(o, s.context.version, p);
    forall x | x in rows ensures x.0 in Finished(o, d, s, i, p) && Finished(o, d, s, i, p)[x.0] == x.1 {
      AssignKeeps(d, FinishedRows(o, s.context.version)(p), x.0);
    }
  }

  lemma OwnRows(o: Oracle, d: Dir, s: State, i: nat, p: Part)
    requires Supplied(p) && i < |s.records| && NoDup(FullNames(s.context.version)(p.build.target)) && WORK_STATE !in FullNames(s.context.version)(p.build.target)
    ensures Holding(Finished(o, d, s, i, p), FinishedRows(o, s.context.version)(p))
    ensures Finished(o, d, s, i, p).Keys == d.Keys + Elems(FullNames(s.context.version)(p.build.target)) + {WORK_STATE}
  {
    hide FinishedRows, FullNames, Assign;
    var rows := FinishedRows(o, s.context.version)(p);
    RowsNamed(o, s.context.version, p);
    AssignRead(d, rows);
    forall x | x in rows ensures x.0 != WORK_STATE {
      var j :| 0 <= j < |rows| && rows[j] == x;
      assert Map(Fst, rows)[j] == x.0;
    }
  }

  lemma RowNamed(rows: seq<(string, Content)>, names: seq<string>, x: (string, Content))
    requires Map(Fst, rows) == names && x in rows
    ensures x.0 in names
  {
    var j :| 0 <= j < |rows| && rows[j] == x;
    assert Map(Fst, rows)[j] == x.0;
  }

  lemma NamesNext(version: string, parts: seq<Part>, i: nat, n: string)
    requires i < |parts| && NoDup(FullNames(version)(parts[i].build.target))
    ensures NamedAt(version, parts, i + 1, n) <==> NamedAt(version, parts, i, n) || n in FullNames(version)(parts[i].build.target)
  {
    hide FullNames, StartNames;
    StartWithin(version, parts[i].build.target);
  }

  /** Recording the evidence of the next target keeps the others as they are. */
  lemma StepUnderway(o: Oracle, d: Dir, ctx: Context, parts: seq<Part>, i: nat)
    requires Prepares(o, ctx, parts) && Underway(o, d, ctx, parts, i) && i < |parts| && |StateAt(o, ctx, parts, i).records| == |parts|
    ensures Underway(o, Finished(o, d, StateAt(o, ctx, parts, i), i, parts[i]), ctx, parts, i + 1)
  {
    hide Admissible, Copies, Built, StateAt, FullNames, StartNames, FinishedRows, NamedAt, Finished, Holding, Reproducible, Usable, Supplied;
    var version, s, p := ctx.version, StateAt(o, ctx, parts, i), parts[i];
    var d' := Finished(o, d, s, i, p);
    assert p in parts;
    PartsApart(version, parts);
    StateRecords(o, ctx, parts, i);
    StateShape(o, ctx, parts, i);
    FinishedState(o, d, s, i, p);
    OwnRows(o, d, s, i, p);
    forall k | 0 <= k < |parts| && k != i ensures k < i ==> Holding(d', FinishedRows(o, version)(parts[k]))
      ensures k > i ==> Holding(d', Copies(Release, version)(parts[k].build))
    {
      assert parts[k] in parts;
      OtherRows(o, version, parts[k], p);
      if k < i { KeptRows(o, d, s, i, p, FinishedRows(o, version)(parts[k])); } else { KeptRows(o, d, s, i, p, Copies(Release, version)(parts[k].build)); }
    }
    forall n ensures n in d' <==> NamedAt(version, parts, i + 1, n) {
      NamesNext(version, parts, i, n);
      assert NamedAt(version, parts, i, WORK_STATE);
    }
  }

  lemma FinishedState(o: Oracle, d: Dir, s: State, i: nat, p: Part)
    requires i < |s.records|
    ensures Holds(Finished(o, d, s, i, p), WORK_STATE, StateDoc(s.(records := s.records[i := FinishedRecord(o)(p)])))
  {
    hide FinishedRows, FinishedRecord;
  }

  lemma OtherRows(o: Oracle, version: string, q: Part, p: Part)
    requires Supplied(q) && NoDup(FullNames(version)(q.build.target)) && WORK_STATE !in FullNames(version)(q.build.target)
    requires forall n :: n in FullNames(version)(q.build.target) ==> n !in FullNames(version)(p.build.target)
    ensures forall x :: x in FinishedRows(o, version)(q) ==> x.0 != WORK_STATE && x.0 !in FullNames(version)(p.build.target)
    ensures forall x :: x in Copies(Release, version)(q.build) ==> x.0 != WORK_STATE && x.0 !in FullNames(version)(p.build.target)
  {
    hide FullNames, StartNames, FinishedRows, Copies, Supplied;
    RowsNamed(o, version, q);
    CopiesNamed(version, q.build);
    StartWithin(version, q.build.target);
    forall x | x in FinishedRows(o, version)(q) ensures x.0 in FullNames(version)(q.build.target) {
      RowNamed(FinishedRows(o, version)(q), FullNames(version)(q.build.target), x);
    }
    forall x | x in Copies(Release, version)(q.build) ensures x.0 in FullNames(version)(q.build.target) {
      RowNamed(Copies(Release, version)(q.build), StartNames(version)(q.build.target), x);
    }
  }

  /** With all evidence recorded, finalization finds what it demands. */
  lemma AllReady(o: Oracle, d: Dir, ctx: Context, parts: seq<Part>, now: string)
    requires Prepares(o, ctx, parts) && Underway(o, d, ctx, parts, |parts|)
    ensures Get(d, WORK_STATE).StateDoc? && Ready(o, d, WorkState(d, now))
    ensures WorkState(d, now).mode == Release && WorkState(d, now).context == ctx.(finished := now)
    ensures WorkState(d, now).records == Map(FinishedRecord(o), parts) && Map(TargetAt, WorkState(d, now).records) == Map(TargetIn, parts)
  {
    hide Admissible, FullNames, StartNames, FinishedRows, FinishedRecord, Holding, Reproducible, RecordReady, Supplied, RecordPayloads, Usable;
    var n, s := |parts|, WorkState(d, now);
    assert parts[..n] == parts && parts[n..] == [];
    assert s.records == Map(FinishedRecord(o), parts);
    forall k | 0 <= k < n
      ensures RecordReady(o, d, s, s.records[k]) && RecordPayloads(s)(s.records[k]) == FullNames(ctx.version)(parts[k].build.target)
      ensures s.records[k].target == parts[k].build.target
    {
      assert parts[k] in parts;
      UsableLater(o, ctx, now, Released(parts[k]));
      FinishedReady(o, d, s, parts[k]);
      FinishedPayloads(o, s, parts[k]);
      RecordTarget(o, parts[k]);
    }
    assert Map(TargetAt, s.records) == Map(TargetIn, parts);
    forall r | r in s.records ensures RecordReady(o, d, s, r) { var k :| 0 <= k < n && s.records[k] == r; }
    forall x ensures x in d <==> x in PreNames(s) {
      FlatMapContains(RecordPayloads(s), s.records, x);
      if x in FlatMap(RecordPayloads(s), s.records) {
        var k :| 0 <= k < |s.records| && x in RecordPayloads(s)(s.records[k]);
        assert x in FullNames(ctx.version)(parts[k].build.target);
      }
      if k :| 0 <= k < n && x in FullNames(ctx.version)(parts[k].build.target) { assert x in RecordPayloads(s)(s.records[k]); }
    }
  }

  lemma UsableLater(o: Oracle, ctx: Context, now: string, c: Content)
    requires Usable(o, ctx, c)
    ensures Usable(o, ctx.(finished := now), c)
  {
  }

  /** The evidence of all targets from the `i`-th on, as a run. */
  lemma {:induction false} EvidenceRun(o: Oracle, d: Dir, ctx: Context, parts: seq<Part>, i: nat) returns (commands: seq<Command>, dirs: seq<Dir>)
    requires Prepares(o, ctx, parts) && Underway(o, d, ctx, parts, i)
    ensures Run(o, commands, dirs) && dirs[0] == d && Underway(o, dirs[|commands|], ctx, parts, |parts|)
    decreases |parts| - i
  {
    hide Succeeds, Prepares, Underway, Pending, Finished, StateAt;
    UnderwayBound(o, d, ctx, parts, i);
    if i == |parts| {
      commands, dirs := [], [d];
    } else {
      var s := StateAt(o, ctx, parts, i);
      NextPending(o, d, ctx, parts, i);
      StateCount(o, ctx, parts, i);
      var here := TargetRun(o, d, s, i, parts[i]);
      StepUnderway(o, d, ctx, parts, i);
      var rest, there := EvidenceRun(o, here[|here| - 1], ctx, parts, i + 1);
      RunAppend(o, CommandsFor(s.context.version, parts[i]), here, rest, there);
      commands, dirs := CommandsFor(s.context.version, parts[i]) + rest, here + there[1..];
      assert dirs[|commands|] == there[|rest|];
    }
  }

  lemma UnderwayBound(o: Oracle, d: Dir, ctx: Context, parts: seq<Part>, i: nat)
    requires Underway(o, d, ctx, parts, i)
    ensures i <= |parts|
  {
  }

  lemma StateCount(o: Oracle, ctx: Context, parts: seq<Part>, i: nat)
    requires i < |parts|
    ensures |StateAt(o, ctx, parts, i).records| == |parts|
  {
  }

  /** Preparing reproducible builds of an admissible matrix and recording all native evidence leads to
      a directory that finalization accepts. */
  lemma ReachesReady(o: Oracle, ctx: Context, parts: seq<Part>, now: string) returns (commands: seq<Command>, dirs: seq<Dir>)
    requires Prepares(o, ctx, parts)
    ensures Run(o, commands, dirs) && dirs[0] == map[] && commands != [] && commands[0] == PrepareOutput(Release, ctx, Map(BuildOf, parts))
    ensures var d := dirs[|commands|];
      && Get(d, WORK_STATE).StateDoc? && Ready(o, d, WorkState(d, now)) && FinalizeAdmits(o, d, now) && WorkState(d, now).mode == Release
      && Map(TargetAt, WorkState(d, now).records) == Map(TargetIn, parts) && WorkState(d, now).context == ctx.(finished := now)
      && Underway(o, d, ctx, parts, |parts|)
  {
    hide Prepares, Underway, Ready, FinalizeAdmits, WorkState, Prepared, Admissible;
    var first := PrepareOutput(Release, ctx, Map(BuildOf, parts));
    var d := Prepared(o, Release, ctx, Map(BuildOf, parts));
    PreparedUnderway(o, ctx, parts);
    var rest, there := EvidenceRun(o, d, ctx, parts, 0);
    OneStep(o, first, map[], d);
    RunAppend(o, [first], [map[], d], rest, there);
    commands, dirs := [first] + rest, [map[], d] + there[1..];
    assert dirs[|commands|] == there[|rest|];
    AllReady(o, dirs[|commands|], ctx, parts, now);
    PreparesAdmissible(o, ctx, parts);
    FinalizeSucceeds(o, dirs[|commands|], now);
  }

  lemma PreparesAdmissible(o: Oracle, ctx: Context, parts: seq<Part>)
    requires Prepares(o, ctx, parts)
    ensures Admissible(Map(TargetIn, parts))
  {
  }

  lemma OneStep(o: Oracle, c: Command, d: Dir, d': Dir)
    requires Succeeds(o, c, d, d')
    ensures Run(o, [c], [d, d'])
  {
  }

  // ----- When the release is sound -----

  /** A target can be accepted: no dependency of its executable takes a reserved identifier or URI, and
      its signers are the pinned ones. */
  predicate PartSound(o: Oracle, ctx: Context, p: Part, trust: Trust) {
    var modules := ModulesOf(o, Released(p));
    && StdlibReserved(modules) && UrisReserved(ctx, modules)
    && match p.supply
       case RpmSupply(_, fingerprint, _) => fingerprint == trust.fingerprint
       case AppleSupply(_, team, identity, _, installer, _) =>
         team == trust.team && identity == trust.application && installer == trust.installer
  }

  lemma LinuxTrust(o: Oracle, d: Dir, s: State, p: Part, trust: Trust)
    requires Supplied(p) && p.supply.RpmSupply? && s.mode.Release? && Holding(d, FinishedRows(o, s.context.version)(p))
    ensures EntryTrusted(TargetEntryFor(o, d, s)(FinishedRecord(o)(p)), trust) <==> p.supply.fingerprint == trust.fingerprint
  {
    hide ArtifactName, PackageName, PackageEvidenceName, SigningKeyName, TargetId, Holding, EntryOf, EntryFor, PackageSbom, PackageStatementOf,
      ArtifactSbom, ArtifactStatement, SbomName, ProvenanceName, AttestationName;
    var r := FinishedRecord(o)(p);
    var e := TargetEntryFor(o, d, s)(r);
    Got(d, FinishedRows(o, s.context.version)(p), 3);
    assert e.packages == [PackageEntryFor(o, d, s, r)(r.packages[0]), PackageEntryFor(o, d, s, r)(r.packages[1])];
    assert e.packages[0] in e.packages && e.packages[1] in e.packages;
    assert e.packages[0].native == Unsigned && e.packages[1].native.RpmVerified? && e.packages[1].native.fingerprint == p.supply.fingerprint;
  }

  lemma AppleTrust(o: Oracle, d: Dir, s: State, p: Part, trust: Trust)
    requires Supplied(p) && p.supply.AppleSupply? && s.mode.Release? && Holding(d, FinishedRows(o, s.context.version)(p))
    ensures EntryTrusted(TargetEntryFor(o, d, s)(FinishedRecord(o)(p)), trust)
            <==> p.supply.team == trust.team && p.supply.identity == trust.application && p.supply.installer == trust.installer
  {
    hide ArtifactName, PackageName, PackageEvidenceName, ExecutableEvidenceName, TargetId, Holding, EntryOf, EntryFor, PackageSbom,
      PackageStatementOf, ArtifactSbom, ArtifactStatement, SbomName, ProvenanceName, AttestationName;
    var r, rows := FinishedRecord(o)(p), FinishedRows(o, s.context.version)(p);
    var e := TargetEntryFor(o, d, s)(r);
    Got(d, rows, 1);
    Got(d, rows, 3);
    assert e.packages == [PackageEntryFor(o, d, s, r)(r.packages[0])];
    assert e.packages[0] in e.packages;
  }

  lemma PartDecides(o: Oracle, d: Dir, s: State, p: Part, trust: Trust)
    requires Supplied(p) && s.mode.Release? && Holding(d, FinishedRows(o, s.context.version)(p))
    ensures Clean(o, d, s, FinishedRecord(o)(p)) && EntryTrusted(TargetEntryFor(o, d, s)(FinishedRecord(o)(p)), trust)
            <==> PartSound(o, s.context, p, trust)
  {
    hide ArtifactName, PackageName, PackageEvidenceName, ExecutableEvidenceName, SigningKeyName, TargetId, Holding, EntryTrusted, TargetEntryFor,
      StdlibReserved, UrisReserved;
    Got(d, FinishedRows(o, s.context.version)(p), 0);
    if p.supply.RpmSupply? { LinuxTrust(o, d, s, p, trust); } else { AppleTrust(o, d, s, p, trust); }
  }

  lemma SoundLater(o: Oracle, ctx: Context, now: string, p: Part, trust: Trust)
    ensures PartSound(o, ctx.(finished := now), p, trust) <==> PartSound(o, ctx, p, trust)
  {
    hide StdlibReserved;
  }

  /** Whether the release is sound is decided by what is built and signed, before any command. */
  lemma SoundOfParts(o: Oracle, d: Dir, ctx: Context, parts: seq<Part>, now: string, trust: Trust)
    requires Prepares(o, ctx, parts) && Underway(o, d, ctx, parts, |parts|)
    ensures Get(d, WORK_STATE).StateDoc?
    ensures Sound(o, d, WorkState(d, now), trust) <==> forall p :: p in parts ==> PartSound(o, ctx, p, trust)
  {
    hide FinishedRows, FinishedRecord, Holding, Supplied, Usable, Reproducible, Admissible, Clean, EntryTrusted, TargetEntryFor, PartSound,
      Ready, NamedAt;
    var s := WorkState(d, now);
    AllReady(o, d, ctx, parts, now);
    forall k | 0 <= k < |parts|
      ensures Clean(o, d, s, s.records[k]) && EntryTrusted(TargetEntryFor(o, d, s)(s.records[k]), trust) <==> PartSound(o, ctx, parts[k], trust)
    {
      assert parts[k] in parts;
      PartDecides(o, d, s, parts[k], trust);
      SoundLater(o, ctx, now, parts[k], trust);
    }
    if forall p :: p in parts ==> PartSound(o, ctx, p, trust) {
      forall r | r in s.records ensures Clean(o, d, s, r) && EntryTrusted(TargetEntryFor(o, d, s)(r), trust) {
        var k :| 0 <= k < |s.records| && s.records[k] == r;
        assert parts[k] in parts;
      }
    }
    if Sound(o, d, s, trust) {
      forall p | p in parts ensures PartSound(o, ctx, p, trust) {
        var k :| 0 <= k < |parts| && parts[k] == p;
        assert s.records[k] in s.records;
      }
    }
  }

  lemma SigningSucceeds(o: Oracle, d: Dir, s: State, matrix: seq<Target>, trust: Trust, sign: Signer)
    requires Ready(o, d, s) && s.mode.Release? && Admissible(Map(TargetAt, s.records)) && matrix == Map(TargetAt, s.records)
    requires forall a: string, b: string :: sign(a, b).Some?
    requires Holds(Finalized(o, d, s), MANIFEST, ManifestDoc(ManifestFor(o, d, s)))
    ensures Sound(o, d, s, trust) <==>
            Succeeds(o, SignOutput(matrix, trust, sign), Finalized(o, d, s), Signed(Finalized(o, d, s), ManifestFor(o, d, s), sign))
  {
    hide Ready, Finalized, Signed, ManifestFor, Sound, SignAdmits, Admissible, Plan;
    SignAccepts(o, d, s, matrix, trust);
  }

  /** From there a release is finalized, and it is signed, and accepted by verification under its
      builder's identity and no other, exactly when all its parts are sound. */
  lemma ReachesVerified(o: Oracle, ctx: Context, parts: seq<Part>, now: string, trust: Trust, sign: Signer)
    returns (commands: seq<Command>, dirs: seq<Dir>)
    requires Prepares(o, ctx, parts)
    requires forall a: string, b: string :: sign(a, b).Some?
    ensures Run(o, commands, dirs) && dirs[0] == map[] && |commands| > 0 && Get(dirs[|commands|], WORK_STATE).StateDoc?
    ensures var d := dirs[|commands|];
      var s := WorkState(d, now);
      var signed := Signed(Finalized(o, d, s), ManifestFor(o, d, s), sign);
      var matrix := Map(TargetIn, parts);
      var sound := forall p :: p in parts ==> PartSound(o, ctx, p, trust);
      && Succeeds(o, FinalizeOutput(now), d, Finalized(o, d, s))
      && (Succeeds(o, SignOutput(matrix, trust, sign), Finalized(o, d, s), signed) <==> sound)
      && forall identity :: VerifyAdmits(o, signed, matrix, trust, identity) <==> sound && identity == ctx.builder
  {
    hide Prepares, Ready, FinalizeAdmits, WorkState, Finalized, Signed, ManifestFor, Sound, VerifyAdmits, SignAdmits, Admissible, Succeeds,
      Underway, PartSound, NamesSeparate;
    commands, dirs := ReachesReady(o, ctx, parts, now);
    var d, matrix := dirs[|commands|], Map(TargetIn, parts);
    var s := WorkState(d, now);
    PreparesAdmissible(o, ctx, parts);
    SoundOfParts(o, d, ctx, parts, now, trust);
    FinalizedInventory(o, d, now);
    FinalizeStep(o, d, now);
    SigningSucceeds(o, d, s, matrix, trust, sign);
    SignAccepts(o, d, s, matrix, trust);
    AdmissibleSeparate(o, d, s);
    forall identity ensures VerifyAdmits(o, Signed(Finalized(o, d, s), ManifestFor(o, d, s), sign), matrix, trust, identity)
                            <==> Sound(o, d, s, trust) && identity == s.context.builder {
      VerifyAccepts(o, d, s, matrix, trust, identity, sign);
    }
  }

  lemma FinalizeStep(o: Oracle, d: Dir, now: string)
    requires FinalizeAdmits(o, d, now)
    ensures Get(d, WORK_STATE).StateDoc? && Succeeds(o, FinalizeOutput(now), d, Finalized(o, d, WorkState(d, now)))
  {
    hide Ready, Finalized, AllNew;
  }
}
