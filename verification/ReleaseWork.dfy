/** The commands before finalization: prepare, native evidence, and the work state they keep. */
module ReleaseWork {
  import opened Sequences
  import opened ReleaseManifest
  import opened ReleaseInventory
  import opened ReleasePipeline
  import opened ReleaseVerification
  import opened ReleaseAcceptance
  import opened ReleaseOutput

  // ----- prepare -----

  /** Both passes of one target's build, and of each package built from it. */
  datatype Build = Build(
    target: Target, first: Content, second: Content, packageFirst: Format -> Content, packageSecond: Format -> Content)

  predicate SameBuild(o: Oracle, a: Content, b: Content) { o.sha256(a) == o.sha256(b) && o.size(a) == o.size(b) }

  predicate Packaged(mode: Mode, t: Target) { mode.Release? && t.os.Linux? }

  predicate Reproducible(o: Oracle, mode: Mode, b: Build) {
    && SameBuild(o, b.first, b.second)
    && (Packaged(mode, b.target) ==>
          forall f :: f in Formats(b.target.os) ==> SameBuild(o, b.packageFirst(f), b.packageSecond(f)))
  }

  function PackageCopy(version: string, b: Build): Format -> (string, Content) {
    f => (PackageName(version, b.target, f), b.packageFirst(f))
  }

  /** The files one target adds to the output. */
  function Copies(mode: Mode, version: string): Build -> seq<(string, Content)> {
    (b: Build) => [(ArtifactName(version, b.target), b.first)]
         + if Packaged(mode, b.target) then Map(PackageCopy(version, b), Formats(b.target.os)) else []
  }

  function PackageBuilt(o: Oracle, b: Build): Format -> PackageRecord {
    f => PackageRecord(f, Some((o.sha256(b.packageFirst(f)), o.size(b.packageFirst(f)))), None)
  }

  /** The installer of a Darwin target is built elsewhere, so only its place is recorded. */
  function Built(o: Oracle, mode: Mode): Build -> Record {
    (b: Build) => Record(b.target, o.sha256(b.first), o.size(b.first),
                match mode
                case LocalUnsigned => []
                case Release => if b.target.os.Linux? then Map(PackageBuilt(o, b), Formats(b.target.os))
                                else [PackageRecord(Pkg, None, None)])
  }

  function Prepared(o: Oracle, mode: Mode, ctx: Context, builds: seq<Build>): Dir {
    Assign(map[], FlatMap(Copies(mode, ctx.version), builds))
    [WORK_STATE := StateDoc(State(mode, ctx, Map(Built(o, mode), builds)))]
  }

  /** The scratch tree of the builds, which counts as one entry of the output until it is removed. */
  const WORK_TREE := ".release-work"

  function Scratch(): Dir { map[WORK_TREE := Payload([])] }

  /** The rows copied when writing stops at the end of `a` are a first part of all rows. */
  lemma StoppedAfter(dir: Dir, a: seq<(string, Content)>, b: seq<(string, Content)>)
    ensures Partly(Assign(dir, a), dir, a + b)
  {
    PartlyAll(dir, a);
    PartlyMore(Assign(dir, a), dir, a, b);
  }

  method CopyPackages(out: Output, o: Oracle, version: string, b: Build, ghost base: Dir, ghost done: seq<(string, Content)>)
    returns (records: Option<seq<PackageRecord>>)
    requires out.files == Assign(base, done)
    modifies out
    ensures records.Some? <==> forall f :: f in Formats(b.target.os) ==> SameBuild(o, b.packageFirst(f), b.packageSecond(f))
    ensures records.Some? ==> records.value == Map(PackageBuilt(o, b), Formats(b.target.os))
    ensures records.Some? ==> out.files == Assign(base, done + Map(PackageCopy(version, b), Formats(b.target.os)))
    ensures Partly(out.files, base, done + Map(PackageCopy(version, b), Formats(b.target.os)))
  {
    hide PackageName, PackageBuilt, PackageCopy, Partly, Assign;
    var formats := Formats(b.target.os);
    var list: seq<PackageRecord> := [];
    ghost var copy := PackageCopy(version, b);
    assert done + [] == done;
    for i := 0 to |formats|
      invariant list == Map(PackageBuilt(o, b), formats[..i])
      invariant out.files == Assign(base, done + Map(copy, formats[..i]))
      invariant forall k :: 0 <= k < i ==> SameBuild(o, b.packageFirst(formats[k]), b.packageSecond(formats[k]))
    {
      var f := formats[i];
      if !SameBuild(o, b.packageFirst(f), b.packageSecond(f)) {
        StoppedAfter(base, done + Map(copy, formats[..i]), Map(copy, formats[i..]));
        assert done + Map(copy, formats[..i]) + Map(copy, formats[i..]) == done + Map(copy, formats);
        return None;
      }
      CopyOne(base, done, copy, formats, i);
      assert Map(PackageBuilt(o, b), formats[..i + 1]) == list + [PackageBuilt(o, b)(f)];
      list := list + [PackageBuilt(o, b)(f)];
      out.files := out.files[PackageCopy(version, b)(f).0 := PackageCopy(version, b)(f).1];
    }
    assert formats[..|formats|] == formats;
    PartlyAll(base, done + Map(copy, formats));
    records := Some(list);
  }

  lemma CopyOne<A>(dir: Dir, done: seq<(string, Content)>, copy: A -> (string, Content), items: seq<A>, i: nat)
    requires i < |items|
    ensures Assign(dir, done + Map(copy, items[..i + 1]))
         == Assign(dir, done + Map(copy, items[..i]))[copy(items[i]).0 := copy(items[i]).1]
  {
    var before := done + Map(copy, items[..i]);
    assert done + Map(copy, items[..i + 1]) == before + [copy(items[i])];
    AssignLast(dir, before, copy(items[i]));
  }

  method PrepareTarget(out: Output, o: Oracle, mode: Mode, version: string, b: Build, ghost base: Dir, ghost done: seq<(string, Content)>)
    returns (record: Option<Record>)
    requires out.files == Assign(base, done)
    modifies out
    ensures record.Some? <==> Reproducible(o, mode, b)
    ensures record.Some? ==> record.value == Built(o, mode)(b)
    ensures record.Some? ==> out.files == Assign(base, done + Copies(mode, version)(b))
    ensures Partly(out.files, base, done + Copies(mode, version)(b))
  {
    hide PackageName, PackageBuilt, PackageCopy, Formats, Partly, Assign;
    var name := ArtifactName(version, b.target);
    ghost var own := [(name, b.first)];
    ghost var rest := if Packaged(mode, b.target) then Map(PackageCopy(version, b), Formats(b.target.os)) else [];
    assert Copies(mode, version)(b) == own + rest;
    Assoc(done, own, rest);
    if !SameBuild(o, b.first, b.second) {
      StoppedAfter(base, done, Copies(mode, version)(b));
      return None;
    }
    var packages: seq<PackageRecord> := [];
    AssignLast(base, done, (name, b.first));
    out.files := out.files[name := b.first];
    StoppedAfter(base, done + own, rest);
    if mode.Release? {
      if b.target.os.Linux? {
        var copied := CopyPackages(out, o, version, b, base, done + own);
        if copied.None? { return None; }
        packages := copied.value;
      } else {
        packages := [PackageRecord(Pkg, None, None)];
      }
    }
    assert own + [] == own;
    record := Some(Record(b.target, o.sha256(b.first), o.size(b.first), packages));
  }

  /** `prepare`: succeeds exactly on an empty directory with reproducible builds. A failure there
      leaves the scratch tree and the files copied so far; anywhere else it changes nothing. */
  method Prepare(out: Output, o: Oracle, mode: Mode, ctx: Context, builds: seq<Build>) returns (ok: bool)
    modifies out
    ensures ok <==> old(out.files) == map[] && forall b :: b in builds ==> Reproducible(o, mode, b)
    ensures ok ==> out.files == Prepared(o, mode, ctx, builds)
    ensures !ok && old(out.files) != map[] ==> out.files == old(out.files)
    ensures !ok && old(out.files) == map[] ==> Partly(out.files, Scratch(), FlatMap(Copies(mode, ctx.version), builds))
  {
    hide Copies, Built, Reproducible, Partly, Scratch;
    if out.files != map[] { return false; }
    ghost var copies := Copies(mode, ctx.version);
    var records: seq<Record> := [];
    out.files := Scratch();
    NothingCopied(Scratch(), copies, builds);
    for i := 0 to |builds|
      invariant out.files == Assign(Scratch(), FlatMap(copies, builds[..i]))
      invariant records == Map(Built(o, mode), builds[..i])
      invariant forall k :: 0 <= k < i ==> Reproducible(o, mode, builds[k])
    {
      var record := PrepareTarget(out, o, mode, ctx.version, builds[i], Scratch(), FlatMap(copies, builds[..i]));
      FlatMapStep(copies, builds, i);
      if record.None? {
        PartlyMore(out.files, Scratch(), FlatMap(copies, builds[..i + 1]), FlatMap(copies, builds[i + 1..]));
        FlatMapAppend(copies, builds[..i + 1], builds[i + 1..]);
        assert builds == builds[..i + 1] + builds[i + 1..];
        return false;
      }
      assert Map(Built(o, mode), builds[..i + 1]) == records + [record.value];
      records := records + [record.value];
    }
    assert builds[..|builds|] == builds;
    TreeRemoved(mode, ctx.version, builds, StateDoc(State(mode, ctx, records)));
    out.files := out.files[WORK_STATE := StateDoc(State(mode, ctx, records))];
    out.files := out.files - {WORK_TREE};
    ok := true;
  }

  lemma NothingCopied(dir: Dir, copies: Build -> seq<(string, Content)>, builds: seq<Build>)
    ensures Assign(dir, FlatMap(copies, builds[..0])) == dir
  {
    assert builds[..0] == [];
  }

  lemma NameInitial(version: string, t: Target, f: Format)
    ensures ArtifactName(version, t) != "" && ArtifactName(version, t)[0] == 's'
    ensures PackageName(version, t, f) != "" && PackageName(version, t, f)[0] == 's'
  {
  }

  lemma RowInitial(mode: Mode, version: string, b: Build, x: (string, Content))
    requires x in Copies(mode, version)(b)
    ensures x.0 != "" && x.0[0] == 's'
  {
    hide ArtifactName, PackageName;
    NameInitial(version, b.target, Deb);
    if x != (ArtifactName(version, b.target), b.first) {
      var copied := Map(PackageCopy(version, b), Formats(b.target.os));
      var j :| 0 <= j < |copied| && copied[j] == x;
      NameInitial(version, b.target, Formats(b.target.os)[j]);
    }
  }

  lemma CopyInitials(mode: Mode, version: string, builds: seq<Build>, n: string)
    requires n in Map(Fst, FlatMap(Copies(mode, version), builds))
    ensures n != "" && n[0] == 's'
  {
    hide Copies;
    var rows := FlatMap(Copies(mode, version), builds);
    var i :| 0 <= i < |rows| && Map(Fst, rows)[i] == n;
    FlatMapContains(Copies(mode, version), builds, rows[i]);
    var k :| 0 <= k < |builds| && rows[i] in Copies(mode, version)(builds[k]);
    RowInitial(mode, version, builds[k], rows[i]);
  }

  /** Removing the scratch tree leaves what would have been written without it. */
  lemma TreeRemoved(mode: Mode, version: string, builds: seq<Build>, state: Content)
    ensures var rows := FlatMap(Copies(mode, version), builds);
      Assign(Scratch(), rows)[WORK_STATE := state] - {WORK_TREE} == Assign(map[], rows)[WORK_STATE := state]
  {
    hide Copies;
    var rows := FlatMap(Copies(mode, version), builds);
    if WORK_TREE in Map(Fst, rows) { CopyInitials(mode, version, builds, WORK_TREE); }
    assert WORK_TREE[0] == '.' && |WORK_TREE| != |WORK_STATE|;
    WithoutEntry(map[], rows, WORK_TREE, Payload([]));
  }

  lemma {:induction false} WithoutEntry(dir: Dir, rows: seq<(string, Content)>, n: string, c: Content)
    requires n !in dir && n !in Map(Fst, rows)
    ensures Assign(dir[n := c], rows) - {n} == Assign(dir, rows) && n !in Assign(dir, rows)
  {
    AssignKeys(dir, rows);
    if rows != [] {
      var init := rows[..|rows| - 1];
      assert Map(Fst, rows)[..|rows| - 1] == Map(Fst, init) && Map(Fst, rows)[|rows| - 1] == rows[|rows| - 1].0;
      WithoutEntry(dir, init, n, c);
      assert Assign(dir[n := c], rows) - {n} == (Assign(dir[n := c], init) - {n})[rows[|rows| - 1].0 := rows[|rows| - 1].1];
    }
  }

  // ----- Native evidence -----

  predicate Working(d: Dir) { Get(d, WORK_STATE).StateDoc? }

  function StateIn(d: Dir): State
    requires Working(d)
  {
    Get(d, WORK_STATE).state
  }

  /** The first record of a target, as `target_record` finds it; the length when there is none. */
  function FirstTarget(records: seq<Record>, t: Target): (i: nat)
    ensures i <= |records| && (i < |records| ==> records[i].target == t)
    ensures forall k :: 0 <= k < i ==> records[k].target != t
  {
    if records == [] || records[0].target == t then 0 else 1 + FirstTarget(records[1..], t)
  }

  function FirstFormat(packages: seq<PackageRecord>, f: Format): (j: nat)
    ensures j <= |packages| && (j < |packages| ==> packages[j].format == f)
    ensures forall k :: 0 <= k < j ==> packages[k].format != f
  {
    if packages == [] || packages[0].format == f then 0 else 1 + FirstFormat(packages[1..], f)
  }

  /** What `record_native_evidence` demands of the directory. */
  predicate ExecutableAdmits(d: Dir, t: Target) {
    && Working(d) && StateIn(d).mode.Release?
    && FirstTarget(StateIn(d).records, t) < |StateIn(d).records| && t.os.Darwin?
    && ArtifactName(StateIn(d).context.version, t) in d && ExecutableEvidenceName(t) !in d
  }

  function ExecutableRecorded(o: Oracle, d: Dir, t: Target, team: string, identity: string): Dir
    requires ExecutableAdmits(d, t)
  {
    var name := ArtifactName(StateIn(d).context.version, t);
    d[ExecutableEvidenceName(t) := EvidenceDoc(ExecutableSigned(TargetId(t), name, o.sha256(d[name]), team, identity))]
  }

  /** `record_native_evidence`; `verified` is the verdict of the signature tool and its reports. */
  method RecordExecutable(out: Output, o: Oracle, t: Target, team: string, identity: string, verified: bool) returns (ok: bool)
    modifies out
    ensures ok <==> ExecutableAdmits(old(out.files), t) && verified
    ensures out.files == if ok then ExecutableRecorded(o, old(out.files), t, team, identity) else old(out.files)
  {
    if !Working(out.files) || !StateIn(out.files).mode.Release? { return false; }
    var s := StateIn(out.files);
    if FirstTarget(s.records, t) == |s.records| || !t.os.Darwin? { return false; }
    var name := ArtifactName(s.context.version, t);
    if name !in out.files || !verified { return false; }
    var evidence := ExecutableSigned(TargetId(t), name, o.sha256(out.files[name]), team, identity);
    ok := out.WriteExclusive(ExecutableEvidenceName(t), EvidenceDoc(evidence));
  }

  /** The external inputs of one package signature. */
  datatype Signing =
    | RpmSigning(fingerprint: string, key: Content)
    | PkgSigning(team: string, application: string, installer: string, candidate: Content)

  function FormatOfSigning(g: Signing): Format { if g.RpmSigning? then Rpm else Pkg }

  predicate PackageListedAt(s: State, t: Target, f: Format) {
    && FirstTarget(s.records, t) < |s.records|
    && FirstFormat(s.records[FirstTarget(s.records, t)].packages, f) < |s.records[FirstTarget(s.records, t)].packages|
  }

  function PackageAt(s: State, t: Target, f: Format): PackageRecord
    requires PackageListedAt(s, t, f)
  {
    var packages := s.records[FirstTarget(s.records, t)].packages;
    packages[FirstFormat(packages, f)]
  }

  /** What `record_native_package_evidence` demands of the directory. */
  predicate PackageAdmits(d: Dir, t: Target, g: Signing) {
    && Working(d) && StateIn(d).mode.Release?
    && var s, f := StateIn(d), FormatOfSigning(g);
       && PackageListedAt(s, t, f)
       && PackageName(s.context.version, t, f) in d && ArtifactName(s.context.version, t) in d
       && PackageEvidenceName(t, f) !in d && PackageAt(s, t, f).evidence.None?
       && (match g
           case RpmSigning(_, _) => t.os.Linux? && SigningKeyName(t) !in d
           case PkgSigning(_, _, _, _) => t.os.Darwin?)
  }

  function WithPackage(s: State, i: nat, j: nat, p: PackageRecord): State
    requires i < |s.records| && j < |s.records[i].packages|
  {
    s.(records := s.records[i := s.records[i].(packages := s.records[i].packages[j := p])])
  }

  function RecordedPackage(o: Oracle, t: Target, p: PackageRecord, g: Signing): PackageRecord {
    match g
    case RpmSigning(_, _) => p.(evidence := Some(PackageEvidenceName(t, Rpm)))
    case PkgSigning(_, _, _, candidate) =>
      p.(evidence := Some(PackageEvidenceName(t, Pkg)), candidate := Some((o.sha256(candidate), o.size(candidate))))
  }

  /** The work state with the evidence of one package recorded. */
  function Recorded(o: Oracle, s: State, t: Target, g: Signing): State
    requires PackageListedAt(s, t, FormatOfSigning(g))
  {
    var i := FirstTarget(s.records, t);
    WithPackage(s, i, FirstFormat(s.records[i].packages, FormatOfSigning(g)),
                RecordedPackage(o, t, PackageAt(s, t, FormatOfSigning(g)), g))
  }

  function PackageRecorded(o: Oracle, d: Dir, t: Target, g: Signing): Dir
    requires PackageAdmits(d, t, g)
  {
    var s, f := StateIn(d), FormatOfSigning(g);
    var name := PackageName(s.context.version, t, f);
    var state := StateDoc(Recorded(o, s, t, g));
    match g
    case RpmSigning(fingerprint, key) =>
      d[SigningKeyName(t) := key]
      [PackageEvidenceName(t, Rpm) := EvidenceDoc(RpmSigned(TargetId(t), name, o.sha256(d[name]), fingerprint,
                                                            SigningKeyName(t), o.sha256(key)))]
      [WORK_STATE := state]
    case PkgSigning(team, application, installer, _) =>
      d[PackageEvidenceName(t, Pkg) := EvidenceDoc(PkgSigned(TargetId(t), name, o.sha256(d[name]), team, application, installer))]
      [WORK_STATE := state]
  }

  /** The names a package signature adds. */
  function AddedNames(t: Target, g: Signing): set<string> {
    {PackageEvidenceName(t, FormatOfSigning(g))} + if g.RpmSigning? then {SigningKeyName(t)} else {}
  }

  lemma KeyNotEvidence(t: Target)
    ensures SigningKeyName(t) != PackageEvidenceName(t, Rpm)
    ensures WORK_STATE != PackageEvidenceName(t, Rpm) && WORK_STATE != PackageEvidenceName(t, Pkg) && WORK_STATE != SigningKeyName(t)
  {
    assert SigningKeyName(t)[0] == 'r' && PackageEvidenceName(t, Rpm)[0] == 'n' && PackageEvidenceName(t, Pkg)[0] == 'n';
    assert WORK_STATE[0] == '.';
  }

  /** A package record that failed after its key was copied leaves the key behind. */
  ghost predicate KeyLeft(d: Dir, d': Dir, t: Target, g: Signing) {
    g.RpmSigning? && PackageAdmits(d, t, g) && d' == d[SigningKeyName(t) := g.key]
  }

  /** `record_native_package_evidence`; `verified` is the verdict of the package and signature tools,
      `complete` that of the evidence check which follows the copy of a signing key. */
  method RecordPackage(out: Output, o: Oracle, t: Target, g: Signing, verified: bool, complete: bool) returns (ok: bool)
    modifies out
    ensures ok <==> PackageAdmits(old(out.files), t, g) && verified && complete
    ensures ok ==> out.files == PackageRecorded(o, old(out.files), t, g)
    ensures !ok ==> out.files == old(out.files) || KeyLeft(old(out.files), out.files, t, g)
    ensures !PackageAdmits(old(out.files), t, g) || !verified ==> out.files == old(out.files)
  {
    hide PackageName, ArtifactName, PackageEvidenceName, SigningKeyName, TargetId;
    KeyNotEvidence(t);
    if !Working(out.files) || !StateIn(out.files).mode.Release? { return false; }
    var s, f := StateIn(out.files), FormatOfSigning(g);
    var i := FirstTarget(s.records, t);
    if i == |s.records| { return false; }
    var j := FirstFormat(s.records[i].packages, f);
    if j == |s.records[i].packages| { return false; }
    var name, p := PackageName(s.context.version, t, f), s.records[i].packages[j];
    if name !in out.files || ArtifactName(s.context.version, t) !in out.files || !verified { return false; }
    if PackageEvidenceName(t, f) in out.files || p.evidence.Some? { return false; }
    var sha256 := o.sha256(out.files[name]);
    var evidence: Evidence;
    match g {
      case PkgSigning(team, application, installer, candidate) =>
        if !t.os.Darwin? { return false; }
        p := p.(candidate := Some((o.sha256(candidate), o.size(candidate))));
        evidence := PkgSigned(TargetId(t), name, sha256, team, application, installer);
      case RpmSigning(fingerprint, key) =>
        if !t.os.Linux? { return false; }
        ok := out.WriteExclusive(SigningKeyName(t), key);
        if !ok { return false; }
        evidence := RpmSigned(TargetId(t), name, sha256, fingerprint, SigningKeyName(t), o.sha256(key));
    }
    if !complete { return false; }
    ok := out.WriteExclusive(PackageEvidenceName(t, f), EvidenceDoc(evidence));
    p := p.(evidence := Some(PackageEvidenceName(t, f)));
    out.files := out.files[WORK_STATE := StateDoc(WithPackage(s, i, j, p))];
  }
}
