/** What every run of the release commands keeps. */
module ReleaseSafety {
  import opened Sequences
  import opened ReleaseManifest
  import opened CoreAssets
  import opened ReleaseInventory
  import opened ReleasePipeline
  import opened ReleaseVerification
  import opened ReleaseAcceptance
  import opened ReleaseOutput
  import opened ReleaseWork
  import opened ReleaseRuns

  // ----- Names of a directory before finalization -----

  /** The files of a package that are present from preparation on, or from its evidence on. */
  function PackageMust(s: State, r: Record): PackageRecord -> seq<string> {
    (p: PackageRecord) => if p.format.Pkg? then PackagePayloads(s, r)(p)[1..] else PackagePayloads(s, r)(p)
  }

  function RecordMust(s: State): Record -> seq<string> {
    r => [ArtifactOf(s, r)] + if s.mode.Release? then FlatMap(PackageMust(s, r), r.packages) else []
  }

  function Must(s: State): set<string> { {WORK_STATE} + Elems(FlatMap(RecordMust(s), s.records)) }

  /** Between what the state already requires and what finalization will demand: only executable
      evidence and macOS installers may still be missing. */
  predicate NamesBounded(d: Dir) { Working(d) && Must(StateIn(d)) <= d.Keys <= PreNames(StateIn(d)) }

  lemma FlatMapUpdate<A, B>(f: A -> seq<B>, g: A -> seq<B>, xs: seq<A>, i: nat, y: A, added: set<B>)
    requires i < |xs| && (forall k :: 0 <= k < |xs| ==> Elems(g(xs[k])) == Elems(f(xs[k])))
    requires Elems(g(y)) == Elems(f(xs[i])) + added
    ensures Elems(FlatMap(g, xs[i := y])) == Elems(FlatMap(f, xs)) + added
  {
    var ys := xs[i := y];
    var old', new' := Elems(FlatMap(f, xs)), Elems(FlatMap(g, ys));
    forall n | n in new' ensures n in old' + added {
      FlatMapContains(g, ys, n);
      FlatMapContains(f, xs, n);
      var k :| 0 <= k < |ys| && n in g(ys[k]);
      assert n in Elems(g(ys[k]));
      assert n in Elems(f(xs[k])) || n in added;
      assert n in Elems(f(xs[k])) ==> n in f(xs[k]);
    }
    forall n | n in old' + added ensures n in new' {
      FlatMapContains(g, ys, n);
      FlatMapContains(f, xs, n);
      if n in added {
        assert n in Elems(g(ys[i])) && n in g(ys[i]);
      } else {
        var k :| 0 <= k < |xs| && n in f(xs[k]);
        assert n in Elems(f(xs[k]));
        assert n in Elems(g(ys[k])) && n in g(ys[k]);
      }
    }
  }

  lemma PayloadsOfSame(s: State, s': State, r: Record, r': Record, p: PackageRecord)
    requires s.context.version == s'.context.version && r.target == r'.target
    ensures PackagePayloads(s', r')(p) == PackagePayloads(s, r)(p) && PackageMust(s', r')(p) == PackageMust(s, r)(p)
  {
  }

  lemma EvidenceAdds(o: Oracle, s: State, r: Record, p: PackageRecord, g: Signing)
    requires p.format == FormatOfSigning(g) && p.evidence.None?
    ensures var p' := RecordedPackage(o, r.target, p, g);
            && Elems(PackagePayloads(s, r)(p')) == Elems(PackagePayloads(s, r)(p)) + AddedNames(r.target, g)
            && Elems(PackageMust(s, r)(p')) == Elems(PackageMust(s, r)(p)) + AddedNames(r.target, g)
  {
    hide PackageName, PackageEvidenceName, SigningKeyName;
    var p' := RecordedPackage(o, r.target, p, g);
    var name := PackageOf(s, r, p);
    assert PackagePayloads(s, r)(p) == [name];
    match g {
      case RpmSigning(_, _) =>
        assert PackagePayloads(s, r)(p') == [name, PackageEvidenceName(r.target, Rpm), SigningKeyName(r.target)];
      case PkgSigning(_, _, _, _) =>
        assert PackagePayloads(s, r)(p') == [name, PackageEvidenceName(r.target, Pkg)];
    }
  }

  /** Recording evidence adds the same names to both bounds. */
  lemma BoundsGrow(o: Oracle, s: State, t: Target, g: Signing)
    requires s.mode.Release? && PackageListedAt(s, t, FormatOfSigning(g)) && PackageAt(s, t, FormatOfSigning(g)).evidence.None?
    ensures PreNames(Recorded(o, s, t, g)) == PreNames(s) + AddedNames(t, g)
    ensures Must(Recorded(o, s, t, g)) == Must(s) + AddedNames(t, g)
  {
    hide PackagePayloads, PackageMust, AddedNames, RecordPayloads, RecordMust;
    var i := FirstTarget(s.records, t);
    var s', r := Recorded(o, s, t, g), s.records[i];
    var r' := s'.records[i];
    RecordGrows(o, s, s', r, r', g);
    forall k | 0 <= k < |s.records|
      ensures Elems(RecordPayloads(s')(s.records[k])) == Elems(RecordPayloads(s)(s.records[k]))
      ensures Elems(RecordMust(s')(s.records[k])) == Elems(RecordMust(s)(s.records[k]))
    {
      RecordSame(s, s', s.records[k]);
    }
    FlatMapUpdate(RecordPayloads(s), RecordPayloads(s'), s.records, i, r', AddedNames(t, g));
    FlatMapUpdate(RecordMust(s), RecordMust(s'), s.records, i, r', AddedNames(t, g));
  }

  lemma RecordSame(s: State, s': State, r: Record)
    requires s.context.version == s'.context.version && s.mode == s'.mode
    ensures Elems(RecordPayloads(s')(r)) == Elems(RecordPayloads(s)(r)) && Elems(RecordMust(s')(r)) == Elems(RecordMust(s)(r))
  {
    hide PackagePayloads, PackageMust;
    forall p | p in r.packages
      ensures PackagePayloads(s', r)(p) == PackagePayloads(s, r)(p) && PackageMust(s', r)(p) == PackageMust(s, r)(p)
    {
      PayloadsOfSame(s, s', r, r, p);
    }
    FlatMapSame(PackagePayloads(s, r), PackagePayloads(s', r), r.packages);
    FlatMapSame(PackageMust(s, r), PackageMust(s', r), r.packages);
  }

  lemma {:induction false} FlatMapSame<A, B>(f: A -> seq<B>, g: A -> seq<B>, xs: seq<A>)
    requires forall x :: x in xs ==> f(x) == g(x)
    ensures FlatMap(f, xs) == FlatMap(g, xs)
  {
    if xs != [] { FlatMapSame(f, g, xs[1..]); }
  }

  lemma RecordGrows(o: Oracle, s: State, s': State, r: Record, r': Record, g: Signing)
    requires s.context == s'.context && s.mode == s'.mode && s.mode.Release?
    requires var j := FirstFormat(r.packages, FormatOfSigning(g));
             && j < |r.packages| && r.packages[j].evidence.None?
             && r' == r.(packages := r.packages[j := RecordedPackage(o, r.target, r.packages[j], g)])
    ensures Elems(RecordPayloads(s')(r')) == Elems(RecordPayloads(s)(r)) + AddedNames(r.target, g)
    ensures Elems(RecordMust(s')(r')) == Elems(RecordMust(s)(r)) + AddedNames(r.target, g)
  {
    hide PackagePayloads, PackageMust, AddedNames, RecordedPackage;
    var j := FirstFormat(r.packages, FormatOfSigning(g));
    var p' := RecordedPackage(o, r.target, r.packages[j], g);
    EvidenceAdds(o, s, r, r.packages[j], g);
    PayloadsOfSame(s, s', r, r', p');
    forall k | 0 <= k < |r.packages|
      ensures Elems(PackagePayloads(s', r')(r.packages[k])) == Elems(PackagePayloads(s, r)(r.packages[k]))
      ensures Elems(PackageMust(s', r')(r.packages[k])) == Elems(PackageMust(s, r)(r.packages[k]))
    {
      PayloadsOfSame(s, s', r, r', r.packages[k]);
    }
    FlatMapUpdate(PackagePayloads(s, r), PackagePayloads(s', r'), r.packages, j, p', AddedNames(r.target, g));
    FlatMapUpdate(PackageMust(s, r), PackageMust(s', r'), r.packages, j, p', AddedNames(r.target, g));
    ElemsAround(ArtifactOf(s, r), ExecutableEvidenceName(r.target), r.target.os.Darwin?, FlatMap(PackagePayloads(s, r), r.packages));
    ElemsAround(ArtifactOf(s, r), ExecutableEvidenceName(r.target), r.target.os.Darwin?, FlatMap(PackagePayloads(s', r'), r'.packages));
    ElemsAround(ArtifactOf(s, r), ExecutableEvidenceName(r.target), false, FlatMap(PackageMust(s, r), r.packages));
    ElemsAround(ArtifactOf(s, r), ExecutableEvidenceName(r.target), false, FlatMap(PackageMust(s', r'), r'.packages));
  }

  lemma ElemsAround<T>(a: T, b: T, with: bool, rest: seq<T>)
    ensures Elems([a] + ((if with then [b] else []) + rest)) == {a} + (if with then {b} else {}) + Elems(rest)
    ensures !with ==> Elems([a] + rest) == {a} + Elems(rest)
  {
  }

  lemma MustWithinPre(s: State)
    ensures Must(s) <= PreNames(s)
  {
    forall n | n in Elems(FlatMap(RecordMust(s), s.records)) ensures n in Elems(FlatMap(RecordPayloads(s), s.records)) {
      FlatMapContains(RecordMust(s), s.records, n);
      FlatMapContains(RecordPayloads(s), s.records, n);
      var i :| 0 <= i < |s.records| && n in RecordMust(s)(s.records[i]);
      RecordMustWithin(s, s.records[i], n);
    }
  }

  lemma RecordMustWithin(s: State, r: Record, n: string)
    requires n in RecordMust(s)(r)
    ensures n in RecordPayloads(s)(r)
  {
    OwnPayloads(s, r);
    if s.mode.Release? && n in FlatMap(PackageMust(s, r), r.packages) {
      FlatMapContains(PackageMust(s, r), r.packages, n);
      FlatMapContains(PackagePayloads(s, r), r.packages, n);
      var j :| 0 <= j < |r.packages| && n in PackageMust(s, r)(r.packages[j]);
      assert n in PackagePayloads(s, r)(r.packages[j]);
      assert n in FlatMap(PackagePayloads(s, r), r.packages);
    }
  }

  // ----- prepare establishes the bounds -----

  lemma {:induction false} MapFlatMap<A, B, C, D>(name: B -> C, f: A -> seq<B>, g: D -> seq<C>, h: A -> D, xs: seq<A>)
    requires forall x :: x in xs ==> Map(name, f(x)) == g(h(x))
    ensures Map(name, FlatMap(f, xs)) == FlatMap(g, Map(h, xs))
  {
    if xs != [] {
      MapFlatMap(name, f, g, h, xs[1..]);
      MapAppend(name, f(xs[0]), FlatMap(f, xs[1..]));
      assert Map(h, xs)[1..] == Map(h, xs[1..]);
    }
  }

  lemma UnrecordedMust(s: State, r: Record, p: PackageRecord)
    requires p.evidence.None?
    ensures PackageMust(s, r)(p) == if p.format.Pkg? then [] else [PackageOf(s, r, p)]
  {
    hide PackageName;
    assert PackagePayloads(s, r)(p) == [PackageOf(s, r, p)];
  }

  lemma LinuxCopies(o: Oracle, s: State, b: Build, r: Record)
    requires s.mode.Release? && b.target.os.Linux? && r == Built(o, s.mode)(b)
    ensures Map(Fst, Map(PackageCopy(s.context.version, b), Formats(b.target.os))) == FlatMap(PackageMust(s, r), r.packages)
  {
    hide PackageName, PackageMust;
    var deb, rpm := PackageBuilt(o, b)(Deb), PackageBuilt(o, b)(Rpm);
    assert r.packages == [deb, rpm];
    FlatMapTwo(PackageMust(s, r), [deb, rpm]);
    UnrecordedMust(s, r, deb);
    UnrecordedMust(s, r, rpm);
  }

  lemma CopiesAreMust(o: Oracle, s: State, b: Build)
    ensures Map(Fst, Copies(s.mode, s.context.version)(b)) == RecordMust(s)(Built(o, s.mode)(b))
  {
    hide PackageName, ArtifactName, PackageMust, PackageCopy, Formats;
    var r := Built(o, s.mode)(b);
    var name := ArtifactName(s.context.version, b.target);
    assert Map(Fst, [(name, b.first)]) == [name];
    if Packaged(s.mode, b.target) {
      LinuxCopies(o, s, b, r);
      MapAppend(Fst, [(name, b.first)], Map(PackageCopy(s.context.version, b), Formats(b.target.os)));
    } else {
      assert [(name, b.first)] + [] == [(name, b.first)] && [name] + [] == [name];
      if s.mode.Release? {
        UnrecordedMust(s, r, r.packages[0]);
        FlatMapOne(PackageMust(s, r), r.packages);
      }
    }
  }

  lemma PreparedBounded(o: Oracle, mode: Mode, ctx: Context, builds: seq<Build>)
    ensures var d := Prepared(o, mode, ctx, builds);
            NamesBounded(d) && d.Keys == Must(StateIn(d)) && StateIn(d).mode == mode
  {
    hide Copies, Built, RecordMust, RecordPayloads;
    var s := State(mode, ctx, Map(Built(o, mode), builds));
    var copies := Copies(mode, ctx.version);
    forall b | b in builds ensures Map(Fst, copies(b)) == RecordMust(s)(Built(o, mode)(b)) {
      CopiesAreMust(o, s, b);
    }
    MapFlatMap(Fst, copies, RecordMust(s), Built(o, mode), builds);
    AssignKeys(map[], FlatMap(copies, builds));
    MustWithinPre(s);
  }

  lemma NameInitials(s: State, r: Record, p: PackageRecord)
    ensures ArtifactOf(s, r) != "" && ArtifactOf(s, r)[0] == 's'
    ensures PackageOf(s, r, p) != "" && PackageOf(s, r, p)[0] == 's'
  {
  }

  lemma LocalNoManifest(s: State)
    requires s.mode.LocalUnsigned?
    ensures MANIFEST !in Must(s)
  {
    hide ArtifactName;
    forall n | n in Elems(FlatMap(RecordMust(s), s.records)) ensures n != MANIFEST {
      FlatMapContains(RecordMust(s), s.records, n);
      var i :| 0 <= i < |s.records| && n in RecordMust(s)(s.records[i]);
      NameInitials(s, s.records[i], PackageRecord(Deb, None, None));
      assert n == ArtifactOf(s, s.records[i]);
      assert MANIFEST[0] == 'm';
    }
    assert WORK_STATE[0] == '.' && MANIFEST[0] == 'm';
  }

  // ----- Commands and their effects -----

  datatype Command =
    | PrepareOutput(mode: Mode, context: Context, builds: seq<Build>)
    | SignPayload(name: string, content: Content)
    | RecordNative(target: Target, team: string, identity: string)
    | RecordNativePackage(target: Target, signing: Signing)
    | FinalizeOutput(now: string)
    | SignOutput(matrix: seq<Target>, trust: Trust, sign: Signer)

  /** The executables and packages an external signer may replace, or deliver. */
  predicate Signable(s: State, n: string) {
    exists r :: r in s.records && (n == ArtifactOf(s, r) || exists p :: p in r.packages && n == PackageOf(s, r, p))
  }

  /** A successful command. */
  ghost predicate Succeeds(o: Oracle, c: Command, d: Dir, d': Dir) {
    match c
    case PrepareOutput(mode, ctx, builds) => d == map[] && d' == Prepared(o, mode, ctx, builds)
    case SignPayload(name, content) =>
      Working(d) && StateIn(d).mode.Release? && Signable(StateIn(d), name) && d' == d[name := content]
    case RecordNative(t, team, identity) => ExecutableAdmits(d, t) && d' == ExecutableRecorded(o, d, t, team, identity)
    case RecordNativePackage(t, g) => PackageAdmits(d, t, g) && d' == PackageRecorded(o, d, t, g)
    case FinalizeOutput(now) => FinalizeAdmits(o, d, now) && d' == Finalized(o, d, WorkState(d, now))
    case SignOutput(matrix, trust, sign) =>
      && SignAdmits(o, d, matrix, trust) && SignerHolds(sign, Get(d, MANIFEST).manifest)
      && d' == Signed(d, Get(d, MANIFEST).manifest, sign)
  }

  /** What a command that fails may leave behind. */
  ghost predicate Fails(o: Oracle, c: Command, d: Dir, d': Dir) {
    || d' == d
    || match c
       case PrepareOutput(mode, ctx, builds) => d == map[] && Partly(d', Scratch(), FlatMap(Copies(mode, ctx.version), builds))
       case RecordNativePackage(t, g) => KeyLeft(d, d', t, g)
       case FinalizeOutput(now) => Extends(d', d) && Leftover(o, d', d, now)
       case SignOutput(matrix, trust, sign) =>
         SignAdmits(o, d, matrix, trust) && PartlySigned(d', d, Get(d, MANIFEST).manifest, sign)
       case _ => false
  }

  ghost predicate Outcome(o: Oracle, c: Command, d: Dir, d': Dir) { Succeeds(o, c, d, d') || Fails(o, c, d, d') }

  /** One command on the output directory; the flags are the verdicts of the tools that record evidence. */
  method Execute(out: Output, o: Oracle, c: Command, verified: bool, complete: bool) returns (ok: bool)
    modifies out
    ensures ok ==> Succeeds(o, c, old(out.files), out.files)
    ensures !ok ==> Fails(o, c, old(out.files), out.files)
  {
    hide Prepared, Finalized, Signed, PackageRecorded, SignAdmits, FinalizeAdmits, Signable, PackageAdmits, ExecutableAdmits,
      ExecutableRecorded, Partly, PartlySigned, Extends, Leftover, KeyLeft, SignerHolds;
    match c {
      case PrepareOutput(mode, ctx, builds) => ok := Prepare(out, o, mode, ctx, builds);
      case SignPayload(name, content) =>
        ok := Working(out.files) && StateIn(out.files).mode.Release? && Signable(StateIn(out.files), name);
        if ok { out.files := out.files[name := content]; }
      case RecordNative(t, team, identity) => ok := RecordExecutable(out, o, t, team, identity, verified);
      case RecordNativePackage(t, g) => ok := RecordPackage(out, o, t, g, verified, complete);
      case FinalizeOutput(now) => ok := out.Finalize(o, now);
      case SignOutput(matrix, trust, sign) => ok := Sign(out, o, matrix, trust, sign);
    }
  }

  // ----- The phases of a directory -----

  /** A preparation that stopped: the scratch tree and the first copies. */
  ghost predicate Abandoned(d: Dir) {
    exists mode: Mode, version: string, builds: seq<Build> :: Partly(d, Scratch(), FlatMap(Copies(mode, version), builds))
  }

  function PackageStrays(s: State, r: Record): PackageRecord -> seq<string> {
    p => [SbomName(PackageOf(s, r, p)), ProvenanceName(PackageOf(s, r, p))]
  }

  function RecordStrays(s: State): Record -> seq<string> {
    r => [SbomName(ArtifactOf(s, r)), ProvenanceName(ArtifactOf(s, r)), SigningKeyName(r.target)] + FlatMap(PackageStrays(s, r), r.packages)
  }

  /** What failed commands leave in a working directory: documents of finalization and signing keys. */
  function StrayNames(s: State): set<string> {
    Elems(FlatMap(RecordStrays(s), s.records)) + {MANIFEST, CHECKSUMS, RELEASE_METADATA, LOCAL_MARKER}
  }

  /** A working directory with something finalization does not expect, left by a failed command. */
  predicate Stray(d: Dir) {
    && Working(d) && Must(StateIn(d)) <= d.Keys
    && d.Keys - PreNames(StateIn(d)) != {} && d.Keys - PreNames(StateIn(d)) <= StrayNames(StateIn(d))
  }

  ghost predicate FinalNamesIn(d: Dir) {
    && Get(d, MANIFEST).ManifestDoc? && WORK_STATE !in d
    && d.Keys == Elems(ContentNames(Get(d, MANIFEST).manifest)) + {CHECKSUMS}
  }

  /** The names of a finalized release and of the first `k` bundles of its plan. */
  ghost predicate BundledIn(d: Dir, k: nat) {
    && Get(d, MANIFEST).ManifestDoc? && WORK_STATE !in d
    && var m := Get(d, MANIFEST).manifest;
       && m.mode.Release? && BundleSet(m) !! Elems(ContentNames(m)) + {CHECKSUMS} && k <= |Plan(m)|
       && d.Keys == Elems(ContentNames(m)) + {CHECKSUMS} + Elems(Map(Second, Plan(m)[..k]))
  }

  /** Signing that stopped after one bundle or more. */
  ghost predicate HalfSigned(d: Dir) { exists k :: 0 < k && BundledIn(d, k) && k < |Plan(Get(d, MANIFEST).manifest)| }

  ghost predicate SignedNamesIn(d: Dir) {
    && Get(d, MANIFEST).ManifestDoc? && WORK_STATE !in d
    && var m := Get(d, MANIFEST).manifest;
       && m.mode.Release? && BundleSet(m) !! Elems(ContentNames(m)) + {CHECKSUMS}
       && d.Keys == Elems(ContentNames(m)) + {CHECKSUMS} + BundleSet(m)
  }

  ghost predicate InPhase(d: Dir) {
    d == map[] || Abandoned(d) || NamesBounded(d) || Stray(d) || FinalNamesIn(d) || HalfSigned(d) || SignedNamesIn(d)
  }

  /** Only Linux targets, so no evidence and no installer is still to come from elsewhere. */
  predicate LinuxOnly(s: State) { forall r :: r in s.records ==> r.target.os.Linux? && forall p :: p in r.packages ==> !p.format.Pkg? }

  /** Without Darwin targets a working directory has exactly the names finalization will demand. */
  lemma LinuxExact(d: Dir)
    requires NamesBounded(d) && LinuxOnly(StateIn(d))
    ensures d.Keys == PreNames(StateIn(d))
  {
    hide RecordMust, RecordPayloads;
    var s := StateIn(d);
    forall r | r in s.records ensures RecordMust(s)(r) == RecordPayloads(s)(r) { LinuxSame(s, r); }
    FlatMapSame(RecordMust(s), RecordPayloads(s), s.records);
  }

  lemma LinuxSame(s: State, r: Record)
    requires r.target.os.Linux? && forall p :: p in r.packages ==> !p.format.Pkg?
    ensures RecordMust(s)(r) == RecordPayloads(s)(r)
  {
    hide PackagePayloads;
    FlatMapSame(PackageMust(s, r), PackagePayloads(s, r), r.packages);
    assert [] + FlatMap(PackagePayloads(s, r), r.packages) == FlatMap(PackagePayloads(s, r), r.packages);
  }

  lemma SignableBounded(s: State, n: string)
    requires s.mode.Release? && Signable(s, n)
    ensures n in PreNames(s) && n != WORK_STATE && n != MANIFEST
  {
    var r :| r in s.records && (n == ArtifactOf(s, r) || exists p :: p in r.packages && n == PackageOf(s, r, p));
    FlatMapContains(RecordPayloads(s), s.records, n);
    OwnPayloads(s, r);
    NameInitials(s, r, PackageRecord(Deb, None, None));
    assert WORK_STATE[0] == '.' && MANIFEST[0] == 'm';
    if n != ArtifactOf(s, r) {
      var p :| p in r.packages && n == PackageOf(s, r, p);
      NameInitials(s, r, p);
      FlatMapContains(PackagePayloads(s, r), r.packages, n);
      assert PackagePayloads(s, r)(p)[0] == n;
      assert n in RecordPayloads(s)(r);
    }
    assert n in RecordPayloads(s)(r);
  }

  lemma NativeBounded(d: Dir, t: Target)
    requires ExecutableAdmits(d, t)
    ensures ExecutableEvidenceName(t) in PreNames(StateIn(d)) && ExecutableEvidenceName(t) != WORK_STATE
  {
    var s := StateIn(d);
    var i := FirstTarget(s.records, t);
    OwnPayloads(s, s.records[i]);
    FlatMapContains(RecordPayloads(s), s.records, ExecutableEvidenceName(t));
    assert ExecutableEvidenceName(t)[0] == 'n' && WORK_STATE[0] == '.';
  }

  /** What a recording adds was not there, so it changes neither the strays nor the gap to the bounds. */
  lemma PackageStepBounds(o: Oracle, d: Dir, t: Target, g: Signing)
    requires PackageAdmits(d, t, g)
    ensures var d' := PackageRecorded(o, d, t, g);
      && Working(d') && d'.Keys == d.Keys + AddedNames(t, g) && AddedNames(t, g) !! d.Keys
      && PreNames(StateIn(d')) == PreNames(StateIn(d)) + AddedNames(t, g) && Must(StateIn(d')) == Must(StateIn(d)) + AddedNames(t, g)
      && StrayNames(StateIn(d')) == StrayNames(StateIn(d))
  {
    hide PreNames, Must, StrayNames, PackageName, ArtifactName, Recorded, PackageEvidenceName, SigningKeyName, TargetId;
    BoundsGrow(o, StateIn(d), t, g);
    StraysSame(o, StateIn(d), t, g);
    KeyNotEvidence(t);
  }

  lemma StraysSame(o: Oracle, s: State, t: Target, g: Signing)
    requires PackageListedAt(s, t, FormatOfSigning(g))
    ensures StrayNames(Recorded(o, s, t, g)) == StrayNames(s)
  {
    hide PackageStrays, RecordedPackage, SbomName, ProvenanceName, SigningKeyName;
    var i := FirstTarget(s.records, t);
    var s', r := Recorded(o, s, t, g), s.records[i];
    var j := FirstFormat(r.packages, FormatOfSigning(g));
    var r' := s'.records[i];
    forall k | 0 <= k < |s.records| ensures Elems(RecordStrays(s')(s.records[k])) == Elems(RecordStrays(s)(s.records[k])) {
      StraysOfSame(s, s', s.records[k], s.records[k]);
    }
    FormatKept(o, t, r.packages[j], g);
    PackageStraysSame(s, s', r, r', r.packages[j], RecordedPackage(o, t, r.packages[j], g));
    StraysUpdated(s, s', r, r', j, RecordedPackage(o, t, r.packages[j], g));
    FlatMapUpdate(RecordStrays(s), RecordStrays(s'), s.records, i, r', {});
    assert Elems(FlatMap(RecordStrays(s), s.records)) + {} == Elems(FlatMap(RecordStrays(s), s.records));
  }

  lemma FormatKept(o: Oracle, t: Target, p: PackageRecord, g: Signing)
    ensures RecordedPackage(o, t, p, g).format == p.format
  {
  }

  lemma PackageStraysSame(s: State, s': State, r: Record, r': Record, p: PackageRecord, p': PackageRecord)
    requires s.context.version == s'.context.version && r.target == r'.target && p.format == p'.format
    ensures PackageStrays(s', r')(p') == PackageStrays(s, r)(p)
  {
  }

  lemma StraysOfSame(s: State, s': State, r: Record, r': Record)
    requires s.context.version == s'.context.version && r.target == r'.target && r.packages == r'.packages
    ensures RecordStrays(s')(r') == RecordStrays(s)(r)
  {
    hide PackageStrays, SbomName, ProvenanceName, SigningKeyName;
    forall p | p in r.packages ensures PackageStrays(s', r')(p) == PackageStrays(s, r)(p) { PackageStraysSame(s, s', r, r', p, p); }
    FlatMapSame(PackageStrays(s, r), PackageStrays(s', r'), r.packages);
  }

  lemma StraysUpdated(s: State, s': State, r: Record, r': Record, j: nat, p': PackageRecord)
    requires s.context.version == s'.context.version && j < |r.packages| && r' == r.(packages := r.packages[j := p'])
    requires PackageStrays(s', r')(p') == PackageStrays(s, r)(r.packages[j])
    ensures Elems(RecordStrays(s')(r')) == Elems(RecordStrays(s)(r))
  {
    hide PackageStrays, SbomName, ProvenanceName, SigningKeyName;
    forall k | 0 <= k < |r.packages| ensures Elems(PackageStrays(s', r')(r.packages[k])) == Elems(PackageStrays(s, r)(r.packages[k])) {
      PackageStraysSame(s, s', r, r', r.packages[k], r.packages[k]);
    }
    FlatMapUpdate(PackageStrays(s, r), PackageStrays(s', r'), r.packages, j, p', {});
    assert Elems(FlatMap(PackageStrays(s, r), r.packages)) + {} == Elems(FlatMap(PackageStrays(s, r), r.packages));
    Fronted(RecordStrays(s)(r)[..3], FlatMap(PackageStrays(s, r), r.packages), FlatMap(PackageStrays(s', r'), r'.packages));
  }

  lemma Fronted<T>(front: seq<T>, a: seq<T>, b: seq<T>)
    requires Elems(a) == Elems(b)
    ensures Elems(front + a) == Elems(front + b)
  {
    ElemsConcat(front, a);
    ElemsConcat(front, b);
  }

  lemma SignLeavesWork(o: Oracle, d: Dir, matrix: seq<Target>, trust: Trust)
    requires SignAdmits(o, d, matrix, trust)
    ensures WORK_STATE !in d && CHECKSUMS in d
  {
    hide ShapedManifest, ContentOk, ContentNames, BundleSet;
    MarkerAbsent(Get(d, MANIFEST).manifest);
  }

  lemma SignStepPhase(o: Oracle, d: Dir, matrix: seq<Target>, trust: Trust, sign: Signer)
    requires SignAdmits(o, d, matrix, trust)
    ensures SignedNamesIn(Signed(d, Get(d, MANIFEST).manifest, sign))
  {
    hide ShapedManifest, ContentOk, ContentNames, BundleSet, Assign, Plan;
    var m := Get(d, MANIFEST).manifest;
    SignLeavesWork(o, d, matrix, trust);
    SignedExtends(d, m, sign);
    MarkerAbsent(m);
  }

  lemma FinalizeStepPhase(o: Oracle, d: Dir, now: string)
    requires FinalizeAdmits(o, d, now)
    ensures FinalNamesIn(Finalized(o, d, WorkState(d, now)))
  {
    hide Finalized, ManifestFor, ContentNames, Ready, AllNew, Sums;
    FinalizedInventory(o, d, now);
  }

  /** The steps of a working directory: it stays within its bounds, or keeps its strays. */
  lemma WorkingStep(o: Oracle, c: Command, d: Dir, d': Dir)
    requires (NamesBounded(d) || Stray(d)) && Succeeds(o, c, d, d') && !c.FinalizeOutput?
    ensures NamesBounded(d) ==> NamesBounded(d')
    ensures Stray(d) ==> Stray(d') && StateIn(d').mode == StateIn(d).mode
  {
    hide Must, PreNames, StrayNames, Prepared, Signed, PackageRecorded, SignAdmits, Signable, PackageAdmits, ExecutableEvidenceName,
      ExecutableRecorded, AddedNames, Finalized, FinalizeAdmits;
    match c {
      case SignPayload(name, content) => SignableBounded(StateIn(d), name);
      case RecordNative(t, team, identity) =>
        NativeBounded(d, t);
        NativeStep(o, d, t, team, identity);
      case RecordNativePackage(t, g) =>
        PackageStepBounds(o, d, t, g);
        PackageMode(o, d, t, g);
      case SignOutput(matrix, trust, sign) => SignLeavesWork(o, d, matrix, trust);
      case _ =>
    }
  }

  lemma NativeStep(o: Oracle, d: Dir, t: Target, team: string, identity: string)
    requires ExecutableAdmits(d, t) && ExecutableEvidenceName(t) != WORK_STATE
    ensures var d' := ExecutableRecorded(o, d, t, team, identity);
      d'.Keys == d.Keys + {ExecutableEvidenceName(t)} && Working(d') && StateIn(d') == StateIn(d)
  {
  }

  lemma PackageMode(o: Oracle, d: Dir, t: Target, g: Signing)
    requires PackageAdmits(d, t, g)
    ensures Working(PackageRecorded(o, d, t, g)) && StateIn(PackageRecorded(o, d, t, g)).mode == StateIn(d).mode == Release
  {
    hide PackageName, ArtifactName, PackageEvidenceName, SigningKeyName, TargetId;
  }

  lemma PackageNeedsWork(d: Dir, t: Target, g: Signing)
    requires PackageAdmits(d, t, g)
    ensures Working(d)
  {
  }

  /** The names depend on the version, not on the finishing time. */
  lemma SameNames(s: State, s': State)
    requires s.context.version == s'.context.version && s.mode == s'.mode && s.records == s'.records
    ensures PreNames(s') == PreNames(s) && StrayNames(s') == StrayNames(s)
  {
    hide RecordPayloads, RecordMust, RecordStrays;
    forall n: string ensures n in FlatMap(RecordPayloads(s'), s.records) <==> n in FlatMap(RecordPayloads(s), s.records) {
      FlatMapContains(RecordPayloads(s'), s.records, n);
      FlatMapContains(RecordPayloads(s), s.records, n);
      forall k | 0 <= k < |s.records| ensures n in RecordPayloads(s')(s.records[k]) <==> n in RecordPayloads(s)(s.records[k]) {
        RecordSame(s, s', s.records[k]);
        assert n in Elems(RecordPayloads(s')(s.records[k])) <==> n in Elems(RecordPayloads(s)(s.records[k]));
      }
    }
    forall r | r in s.records ensures RecordStrays(s)(r) == RecordStrays(s')(r) { StraysOfSame(s, s', r, r); }
    FlatMapSame(RecordStrays(s), RecordStrays(s'), s.records);
  }

  lemma DocumentIsStray(o: Oracle, dir: Dir, s: State, n: string)
    requires n in Map(Fst, AllDocs(o, dir, s) + FinalWrites(o, dir, s))
    ensures n in StrayNames(s)
  {
    hide RecordDocs, RecordStrays, FinalWrites;
    var docs := AllDocs(o, dir, s) + FinalWrites(o, dir, s);
    var k :| 0 <= k < |docs| && Map(Fst, docs)[k] == n;
    if docs[k] in AllDocs(o, dir, s) {
      FlatMapContains(RecordDocs(o, dir, s), s.records, docs[k]);
      var i :| 0 <= i < |s.records| && docs[k] in RecordDocs(o, dir, s)(s.records[i]);
      RecordDocIsStray(o, dir, s, s.records[i], docs[k]);
      FlatMapContains(RecordStrays(s), s.records, n);
      assert n in Elems(FlatMap(RecordStrays(s), s.records));
    } else {
      FinalWriteNames(o, dir, s, docs[k]);
    }
  }

  lemma RecordDocIsStray(o: Oracle, dir: Dir, s: State, r: Record, x: (string, Content))
    requires x in RecordDocs(o, dir, s)(r)
    ensures x.0 in RecordStrays(s)(r)
  {
    hide ArtifactSbom, ArtifactStatement, PackageSbom, PackageStatementOf, ArtifactOf, PackageOf, SbomName, ProvenanceName, SigningKeyName;
    if s.mode.Release? && x in FlatMap(PackageDocs(o, dir, s, r), r.packages) {
      FlatMapContains(PackageDocs(o, dir, s, r), r.packages, x);
      var j :| 0 <= j < |r.packages| && x in PackageDocs(o, dir, s, r)(r.packages[j]);
      FlatMapContains(PackageStrays(s, r), r.packages, x.0);
      assert x.0 in PackageStrays(s, r)(r.packages[j]);
    }
  }

  lemma FinalWriteNames(o: Oracle, dir: Dir, s: State, x: (string, Content))
    requires x in FinalWrites(o, dir, s)
    ensures x.0 in {MANIFEST, CHECKSUMS, RELEASE_METADATA, LOCAL_MARKER}
  {
    hide TargetEntryFor, Sums;
  }

  /** A finalization that wrote something and failed leaves strays. */
  lemma LeftoverStray(o: Oracle, d: Dir, d': Dir, now: string)
    requires NamesBounded(d) && Extends(d', d) && Leftover(o, d', d, now) && d' != d
    ensures Stray(d') && StateIn(d').mode == StateIn(d).mode
  {
    hide AllDocs, FinalWrites, Assign, PreNames, StrayNames, Must;
    var s := WorkState(d, now);
    var docs := AllDocs(o, d, s) + FinalWrites(o, d, s);
    var k :| 0 <= k <= |docs| && d' == Assign(d, docs[..k]);
    AssignKeys(d, docs[..k]);
    SameNames(StateIn(d), s);
    assert Holds(d', WORK_STATE, d[WORK_STATE]);
    assert StateIn(d') == StateIn(d) && d.Keys == PreNames(StateIn(d));
    forall n | n in d'.Keys - d.Keys ensures n in StrayNames(StateIn(d)) {
      assert n in Map(Fst, docs[..k]);
      var j :| 0 <= j < k && Map(Fst, docs[..k])[j] == n;
      assert Map(Fst, docs)[j] == n;
      DocumentIsStray(o, d, s, n);
    }
    SomethingNew(d, d');
  }

  lemma SomethingNew(d: Dir, d': Dir)
    requires Extends(d', d) && d' != d
    ensures d'.Keys - d.Keys != {}
  {
    if d'.Keys <= d.Keys {
      NothingNew(d, d');
    } else {
      var n :| n in d'.Keys && n !in d.Keys;
      assert n in d'.Keys - d.Keys;
    }
  }

  lemma NothingNew(d: Dir, d': Dir)
    requires Extends(d', d) && d'.Keys <= d.Keys
    ensures d' == d
  {
    forall n | n in d ensures n in d' && d'[n] == d[n] { assert Holds(d', n, d[n]); }
  }

  /** A signing key left behind is a stray, or is expected anyway. */
  lemma KeyStray(d: Dir, d': Dir, t: Target, g: Signing)
    requires (NamesBounded(d) || Stray(d)) && KeyLeft(d, d', t, g)
    ensures Working(d') && StateIn(d') == StateIn(d) && (NamesBounded(d') || Stray(d')) && (Stray(d) ==> Stray(d'))
  {
    hide PreNames, Must, StrayNames, SigningKeyName, PackageEvidenceName, PackageName, ArtifactName;
    KeyNotEvidence(t);
    KeyIsStray(StateIn(d), t);
    var s, key := StateIn(d), SigningKeyName(t);
    assert d'.Keys == d.Keys + {key} && StateIn(d') == s;
    if key !in PreNames(s) { assert key in d'.Keys - PreNames(s); }
  }

  lemma KeyIsStray(s: State, t: Target)
    requires FirstTarget(s.records, t) < |s.records|
    ensures SigningKeyName(t) in StrayNames(s)
  {
    hide SbomName, ProvenanceName, SigningKeyName, PackageStrays;
    var r := s.records[FirstTarget(s.records, t)];
    assert RecordStrays(s)(r)[2] == SigningKeyName(t);
    FlatMapContains(RecordStrays(s), s.records, SigningKeyName(t));
    assert SigningKeyName(t) in Elems(FlatMap(RecordStrays(s), s.records));
  }

  // ----- What each phase can become -----

  lemma AbandonedNames(d: Dir)
    requires Abandoned(d)
    ensures d != map[] && !Working(d) && !Get(d, MANIFEST).ManifestDoc?
  {
    hide Copies, Assign;
    var mode: Mode, version: string, builds: seq<Build> :| Partly(d, Scratch(), FlatMap(Copies(mode, version), builds));
    var rows := FlatMap(Copies(mode, version), builds);
    var k :| 0 <= k <= |rows| && d == Assign(Scratch(), rows[..k]);
    AssignKeys(Scratch(), rows[..k]);
    forall n | n in Map(Fst, rows[..k]) ensures n != "" && n[0] == 's' {
      var j :| 0 <= j < k && Map(Fst, rows[..k])[j] == n;
      assert Map(Fst, rows)[j] == n;
      CopyInitials(mode, version, builds, n);
    }
    assert WORK_STATE[0] == '.' && MANIFEST[0] == 'm' && WORK_TREE[0] == '.' && |WORK_STATE| != |WORK_TREE|;
    assert WORK_TREE in d;
  }

  /** A stopped preparation stays as it is: every command refuses it. */
  lemma AbandonedStays(o: Oracle, c: Command, d: Dir, d': Dir)
    requires Abandoned(d) && Outcome(o, c, d, d')
    ensures d' == d && !Succeeds(o, c, d, d')
  {
    hide Abandoned, Prepared, Finalized, Signed, PackageRecorded, SignChecks, Signable, PackageAdmits, Extends, Partly, Ready;
    AbandonedNames(d);
    if c.RecordNativePackage? && PackageAdmits(d, c.target, c.signing) { PackageNeedsWork(d, c.target, c.signing); }
  }

  lemma FinalizeNeedsNames(o: Oracle, d: Dir, now: string)
    requires Working(d) && FinalizeAdmits(o, d, now)
    ensures d.Keys == PreNames(StateIn(d))
  {
    hide PreNames, RecordReady, AllNew;
    SameNames(StateIn(d), WorkState(d, now));
  }

  lemma LeftoverNeedsNames(o: Oracle, d: Dir, d': Dir, now: string)
    requires Working(d) && Leftover(o, d', d, now) && d' != d
    ensures d.Keys == PreNames(StateIn(d))
  {
    hide PreNames, Partly;
    SameNames(StateIn(d), WorkState(d, now));
  }

  /** Strays stay: evidence may still be recorded, but the directory never finalizes and is never signed. */
  lemma StrayStays(o: Oracle, c: Command, d: Dir, d': Dir)
    requires Stray(d) && Outcome(o, c, d, d')
    ensures Stray(d') && StateIn(d').mode == StateIn(d).mode && !(Concludes(c) && Succeeds(o, c, d, d'))
  {
    hide Must, PreNames, StrayNames, Prepared, Finalized, Signed, PackageRecorded, SignAdmits, FinalizeAdmits, Signable, PackageAdmits,
      Extends, Leftover, KeyLeft, ExecutableRecorded, ExecutableAdmits, PartlySigned;
    if Succeeds(o, c, d, d') {
      if c.FinalizeOutput? {
        FinalizeNeedsNames(o, d, c.now);
      } else {
        if c.SignOutput? { SignLeavesWork(o, d, c.matrix, c.trust); }
        WorkingStep(o, c, d, d');
      }
    } else if d' != d {
      match c {
        case RecordNativePackage(t, g) => KeyStray(d, d', t, g);
        case FinalizeOutput(now) => LeftoverNeedsNames(o, d, d', now);
        case SignOutput(matrix, trust, _) => SignLeavesWork(o, d, matrix, trust);
        case _ =>
      }
    }
  }

  /** From a working directory every outcome is a working one, a finalized one, or one with strays. */
  lemma WorkingBecomes(o: Oracle, c: Command, d: Dir, d': Dir)
    requires NamesBounded(d) && Outcome(o, c, d, d')
    ensures NamesBounded(d') || Stray(d') || FinalNamesIn(d')
  {
    hide Must, PreNames, StrayNames, Prepared, Finalized, Signed, PackageRecorded, SignAdmits, FinalizeAdmits, Signable, PackageAdmits,
      Extends, Leftover, KeyLeft, ExecutableRecorded, ExecutableAdmits, PartlySigned, ContentNames;
    if Succeeds(o, c, d, d') {
      if c.FinalizeOutput? { FinalizeStepPhase(o, d, c.now); } else { WorkingStep(o, c, d, d'); }
    } else if d' != d {
      match c {
        case RecordNativePackage(t, g) => KeyStray(d, d', t, g);
        case FinalizeOutput(now) => LeftoverStray(o, d, d', now);
        case SignOutput(matrix, trust, _) => SignLeavesWork(o, d, matrix, trust);
        case _ =>
      }
    }
  }

  // ----- After finalization only signing remains, and it replaces nothing -----

  lemma OnlySigningFollows(o: Oracle, c: Command, d: Dir, d': Dir)
    requires FinalNamesIn(d) && Succeeds(o, c, d, d')
    ensures c.SignOutput? && SignedNamesIn(d') && Extends(d', d)
  {
    hide ContentNames, BundleSet, Prepared, Finalized, PackageRecorded, SignChecks, Signable, PackageAdmits, Assign, Plan;
    assert CHECKSUMS in d && !Working(d);
    match c {
      case RecordNativePackage(t, g) => PackageNeedsWork(d, t, g);
      case SignOutput(matrix, trust, sign) =>
        SignStepPhase(o, d, matrix, trust, sign);
        SignedExtends(d, Get(d, MANIFEST).manifest, sign);
      case _ =>
    }
  }

  lemma PlanParts(m: Manifest, k: nat)
    requires k <= |Plan(m)|
    ensures Elems(Map(Second, Plan(m)[..k])) <= BundleSet(m)
    ensures k > 0 ==> Elems(Map(Second, Plan(m)[..k])) != {}
  {
    hide Plan;
    PlanBundles(m);
    forall n | n in Elems(Map(Second, Plan(m)[..k])) ensures n in BundleSet(m) {
      var i :| 0 <= i < k && Map(Second, Plan(m)[..k])[i] == n;
      assert Map(Second, Plan(m))[i] in Elems(Map(Second, Plan(m)));
    }
    if k > 0 { assert Map(Second, Plan(m)[..k])[0] in Elems(Map(Second, Plan(m)[..k])); }
  }

  /** A signer that stops leaves the finalized files as they were and the first bundles of the plan. */
  lemma StoppedSigning(o: Oracle, d: Dir, d': Dir, matrix: seq<Target>, trust: Trust, sign: Signer)
    requires SignAdmits(o, d, matrix, trust) && PartlySigned(d', d, Get(d, MANIFEST).manifest, sign)
    ensures Extends(d', d) && (d' == d || HalfSigned(d'))
  {
    hide ContentOk, ShapedManifest, ContentNames, BundleSet, Plan, BundleRow, Assign;
    var m := Get(d, MANIFEST).manifest;
    var k :| 0 <= k < |Plan(m)| && d' == Assign(d, BundleRows(sign, Plan(m)[..k]));
    PlanParts(m, k);
    PrefixExtends(d, BundleSet(m), sign, Plan(m)[..k]);
    SignLeavesWork(o, d, matrix, trust);
    assert Holds(d', MANIFEST, d[MANIFEST]);
    if k == 0 {
      NoRows(d, sign, Plan(m));
    } else {
      MarkerAbsent(m);
      WorkNotBundle(m, k);
      assert BundledIn(d', k);
    }
  }

  lemma WorkNotBundle(m: Manifest, k: nat)
    requires ShapedManifest(m) && m.mode.Release? && k <= |Plan(m)|
    ensures WORK_STATE !in Elems(Map(Second, Plan(m)[..k]))
  {
    hide ShapedManifest, ContentNames, BundleSet, Plan;
    MarkerAbsent(m);
    PlanParts(m, k);
  }

  lemma FinalBecomes(o: Oracle, c: Command, d: Dir, d': Dir)
    requires FinalNamesIn(d) && Outcome(o, c, d, d')
    ensures d' == d || HalfSigned(d') || SignedNamesIn(d')
  {
    hide ContentNames, BundleSet, Prepared, Finalized, Signed, PackageRecorded, SignAdmits, Signable, PackageAdmits, Extends, Partly,
      PartlySigned, Ready, HalfSigned;
    assert CHECKSUMS in d && !Working(d);
    if Succeeds(o, c, d, d') {
      OnlySigningFollows(o, c, d, d');
    } else if d' != d {
      match c {
        case RecordNativePackage(t, g) => PackageNeedsWork(d, t, g);
        case SignOutput(matrix, trust, sign) => StoppedSigning(o, d, d', matrix, trust, sign);
        case _ =>
      }
    }
  }

  lemma SomeBundle(m: Manifest)
    ensures BundleSet(m) != {}
  {
    hide FlatMap, Attestations;
    assert Blobs(m)[0] == (MANIFEST, m.manifestBundle);
    assert Map(Second, Blobs(m))[0] in Elems(Map(Second, Blobs(m)));
  }

  /** With a bundle present, nothing succeeds and nothing changes any more. */
  lemma BundleStays(o: Oracle, c: Command, d: Dir, d': Dir)
    requires Get(d, MANIFEST).ManifestDoc? && WORK_STATE !in d && d.Keys != Elems(ContentNames(Get(d, MANIFEST).manifest)) + {CHECKSUMS}
    requires d != map[] && Outcome(o, c, d, d')
    ensures d' == d && !Succeeds(o, c, d, d')
  {
    hide ContentNames, BundleSet, Prepared, Finalized, Signed, PackageRecorded, Signable, PackageAdmits, ShapedManifest, ContentOk,
      Extends, Partly, PartlySigned, Ready;
    assert !Working(d);
    if c.RecordNativePackage? && PackageAdmits(d, c.target, c.signing) { PackageNeedsWork(d, c.target, c.signing); }
  }

  /** A half-signed release stays half-signed. */
  lemma HalfSignedStays(o: Oracle, c: Command, d: Dir, d': Dir)
    requires HalfSigned(d) && Outcome(o, c, d, d')
    ensures d' == d && !Succeeds(o, c, d, d')
  {
    hide ContentNames, BundleSet, Plan, Outcome, Succeeds;
    var k :| 0 < k && BundledIn(d, k);
    PlanParts(Get(d, MANIFEST).manifest, k);
    BundleStays(o, c, d, d');
  }

  /** A signed release is the end. */
  lemma NothingFollowsSigning(o: Oracle, c: Command, d: Dir, d': Dir)
    requires SignedNamesIn(d)
    ensures !Succeeds(o, c, d, d') && (Outcome(o, c, d, d') ==> d' == d)
  {
    hide ContentNames, BundleSet, Succeeds, Fails;
    SomeBundle(Get(d, MANIFEST).manifest);
    if Outcome(o, c, d, d') { BundleStays(o, c, d, d'); }
  }

  // ----- Every run keeps to the phases -----

  lemma EmptyBecomes(o: Oracle, c: Command, d': Dir)
    requires Outcome(o, c, map[], d')
    ensures d' == map[] || NamesBounded(d') || Abandoned(d')
  {
    hide Prepared, Must, PreNames, Finalized, Signed, PackageRecorded, SignChecks, Signable, PackageAdmits, Partly, Ready, Extends;
    match c {
      case PrepareOutput(mode, ctx, builds) => PreparedBounded(o, mode, ctx, builds);
      case RecordNativePackage(t, g) => if PackageAdmits(map[], t, g) { PackageNeedsWork(map[], t, g); }
      case _ =>
    }
  }

  /** Whatever a command does, and however it ends, a directory of one phase becomes one of a phase. */
  lemma OutcomePhase(o: Oracle, c: Command, d: Dir, d': Dir)
    requires InPhase(d) && Outcome(o, c, d, d')
    ensures InPhase(d')
  {
    hide Outcome, Abandoned, NamesBounded, Stray, FinalNamesIn, HalfSigned, SignedNamesIn;
    if d == map[] { EmptyBecomes(o, c, d'); }
    else if Abandoned(d) { AbandonedStays(o, c, d, d'); }
    else if NamesBounded(d) { WorkingBecomes(o, c, d, d'); }
    else if Stray(d) { StrayStays(o, c, d, d'); }
    else if FinalNamesIn(d) { FinalBecomes(o, c, d, d'); }
    else if HalfSigned(d) { HalfSignedStays(o, c, d, d'); }
    else { NothingFollowsSigning(o, c, d, d'); }
  }

  /** In every run from an empty directory, with commands that succeed or fail at any point, each
      directory is in one of the phases. */
  lemma {:induction false} RunPhases(o: Oracle, commands: seq<Command>, dirs: seq<Dir>)
    requires |dirs| == |commands| + 1 && dirs[0] == map[]
    requires forall i :: 0 <= i < |commands| ==> Outcome(o, commands[i], dirs[i], dirs[i + 1])
    ensures forall i :: 0 <= i < |dirs| ==> InPhase(dirs[i])
  {
    hide Outcome;
    if commands != [] {
      var n := |commands| - 1;
      forall i | 0 <= i < n ensures Outcome(o, commands[..n][i], dirs[..n + 1][i], dirs[..n + 1][i + 1]) {
        assert commands[..n][i] == commands[i] && dirs[..n + 1][i + 1] == dirs[i + 1];
      }
      RunPhases(o, commands[..n], dirs[..n + 1]);
      assert dirs[..n + 1][n] == dirs[n];
      OutcomePhase(o, commands[n], dirs[n], dirs[n + 1]);
      forall i | 0 <= i < |dirs| ensures InPhase(dirs[i]) {
        if i <= n { assert dirs[..n + 1][i] == dirs[i]; }
      }
    }
  }

  predicate Concludes(c: Command) { c.FinalizeOutput? || c.SignOutput? }

  /** After a failed command has left a stray, no continuation of the run is ever finalized or signed. */
  lemma {:induction false} StrayForever(o: Oracle, commands: seq<Command>, dirs: seq<Dir>)
    requires |dirs| == |commands| + 1 && Stray(dirs[0])
    requires forall i :: 0 <= i < |commands| ==> Outcome(o, commands[i], dirs[i], dirs[i + 1])
    ensures forall i :: 0 <= i < |dirs| ==> Stray(dirs[i])
    ensures forall i :: 0 <= i < |commands| && Concludes(commands[i]) ==> !Succeeds(o, commands[i], dirs[i], dirs[i + 1])
    decreases |commands|
  {
    hide Outcome, Stray, Succeeds;
    if commands != [] {
      StrayStays(o, commands[0], dirs[0], dirs[1]);
      forall i | 0 <= i < |commands| - 1 ensures Outcome(o, commands[1..][i], dirs[1..][i], dirs[1..][i + 1]) {
        assert commands[1..][i] == commands[i + 1] && dirs[1..][i] == dirs[i + 1] && dirs[1..][i + 1] == dirs[i + 2];
      }
      StrayForever(o, commands[1..], dirs[1..]);
      forall i | 0 <= i < |dirs| ensures Stray(dirs[i]) {
        if i > 0 { assert dirs[1..][i - 1] == dirs[i]; }
      }
      forall i | 0 <= i < |commands| && Concludes(commands[i]) ensures !Succeeds(o, commands[i], dirs[i], dirs[i + 1]) {
        if i > 0 { assert commands[1..][i - 1] == commands[i] && dirs[1..][i - 1] == dirs[i] && dirs[1..][i] == dirs[i + 1]; }
      }
    }
  }

  // ----- A local-unsigned run never reaches signing -----

  /** Whatever records the mode says local-unsigned. */
  predicate Locked(d: Dir) {
    && (WORK_STATE in d || MANIFEST in d)
    && (Working(d) ==> StateIn(d).mode.LocalUnsigned?)
    && (Get(d, MANIFEST).ManifestDoc? ==> Get(d, MANIFEST).manifest.mode.LocalUnsigned?)
  }

  lemma LockedUnsignable(o: Oracle, d: Dir, matrix: seq<Target>, trust: Trust)
    requires Locked(d)
    ensures !SignAdmits(o, d, matrix, trust)
  {
    hide ShapedManifest, ContentOk, ContentNames;
  }

  lemma PreparedLocked(o: Oracle, ctx: Context, builds: seq<Build>)
    ensures Locked(Prepared(o, LocalUnsigned, ctx, builds))
  {
    hide Prepared, Must, PreNames;
    PreparedBounded(o, LocalUnsigned, ctx, builds);
    LocalNoManifest(StateIn(Prepared(o, LocalUnsigned, ctx, builds)));
  }

  lemma DocumentKinds(o: Oracle, dir: Dir, s: State, x: (string, Content))
    requires x in AllDocs(o, dir, s) + FinalWrites(o, dir, s)
    ensures !x.1.StateDoc? && (x.1.ManifestDoc? ==> x.1.manifest.mode == s.mode)
  {
    hide RecordDocs, FinalWrites;
    if x !in AllDocs(o, dir, s) {
      FinalWriteKinds(o, dir, s, x);
    } else {
      FlatMapContains(RecordDocs(o, dir, s), s.records, x);
      var i :| 0 <= i < |s.records| && x in RecordDocs(o, dir, s)(s.records[i]);
      RecordDocKinds(o, dir, s, s.records[i], x);
    }
  }

  lemma FinalWriteKinds(o: Oracle, dir: Dir, s: State, x: (string, Content))
    requires x in FinalWrites(o, dir, s)
    ensures !x.1.StateDoc? && (x.1.ManifestDoc? ==> x.1.manifest.mode == s.mode)
  {
    hide TargetEntryFor;
  }

  predicate Descriptive(c: Content) { !c.StateDoc? && !c.ManifestDoc? }

  lemma ArtifactDocKinds(o: Oracle, dir: Dir, s: State, r: Record)
    ensures Descriptive(ArtifactSbom(o, dir, s, r)) && Descriptive(ArtifactStatement(o, dir, s, r))
  {
  }

  lemma PackageDocKinds(o: Oracle, dir: Dir, s: State, r: Record, p: PackageRecord)
    ensures Descriptive(PackageSbom(o, dir, s, r, p)) && Descriptive(PackageStatementOf(o, dir, s, r, p))
  {
  }

  lemma RecordDocKinds(o: Oracle, dir: Dir, s: State, r: Record, x: (string, Content))
    requires x in RecordDocs(o, dir, s)(r)
    ensures Descriptive(x.1)
  {
    hide Descriptive, ArtifactSbom, ArtifactStatement, PackageSbom, PackageStatementOf, ArtifactOf, PackageOf, SbomName, ProvenanceName;
    ArtifactDocKinds(o, dir, s, r);
    if s.mode.Release? && x in FlatMap(PackageDocs(o, dir, s, r), r.packages) {
      FlatMapContains(PackageDocs(o, dir, s, r), r.packages, x);
      var j :| 0 <= j < |r.packages| && x in PackageDocs(o, dir, s, r)(r.packages[j]);
      PackageDocKinds(o, dir, s, r, r.packages[j]);
    }
  }

  lemma LeftoverLocked(o: Oracle, d: Dir, d': Dir, now: string)
    requires Locked(d) && Extends(d', d) && Leftover(o, d', d, now)
    ensures Locked(d')
  {
    hide AllDocs, FinalWrites, Assign;
    if d' != d {
      var s := WorkState(d, now);
      var docs := AllDocs(o, d, s) + FinalWrites(o, d, s);
      var k :| 0 <= k <= |docs| && d' == Assign(d, docs[..k]);
      assert WORK_STATE in d && WORK_STATE in d' && d'[WORK_STATE] == d[WORK_STATE];
      if MANIFEST in d' {
        AssignValue(d, docs[..k], MANIFEST);
        if x :| x in docs[..k] && x.0 == MANIFEST && x.1 == d'[MANIFEST] {
          assert x in docs;
          DocumentKinds(o, d, s, x);
        }
      }
    }
  }

  lemma FinalizedLocked(o: Oracle, d: Dir, now: string)
    requires Locked(d) && FinalizeAdmits(o, d, now)
    ensures Locked(Finalized(o, d, WorkState(d, now)))
  {
    hide Finalized, ContentNames, Ready, AllNew, Sums, TargetEntryFor;
    FinalizedInventory(o, d, now);
  }

  /** No outcome of any command leaves the locked directories. */
  lemma OutcomeLocked(o: Oracle, c: Command, d: Dir, d': Dir)
    requires Locked(d) && Outcome(o, c, d, d')
    ensures Locked(d')
  {
    hide Prepared, Finalized, Signed, PackageRecorded, SignAdmits, FinalizeAdmits, Signable, Leftover, Extends, Partly, PartlySigned;
    if Succeeds(o, c, d, d') {
      match c {
        case FinalizeOutput(now) => FinalizedLocked(o, d, now);
        case SignOutput(matrix, trust, sign) => LockedUnsignable(o, d, matrix, trust);
        case _ =>
      }
    } else if d' != d {
      match c {
        case FinalizeOutput(now) => LeftoverLocked(o, d, d', now);
        case SignOutput(matrix, trust, sign) => LockedUnsignable(o, d, matrix, trust);
        case _ =>
      }
    }
  }

  /** Over every run that follows a local-unsigned preparation, whatever succeeds or fails, `sign`
      never admits the directory. */
  lemma {:induction false} LocalNeverSigned(o: Oracle, ctx: Context, builds: seq<Build>, commands: seq<Command>, dirs: seq<Dir>,
                                            matrix: seq<Target>, trust: Trust)
    requires |dirs| == |commands| + 1 && dirs[0] == Prepared(o, LocalUnsigned, ctx, builds)
    requires forall i :: 0 <= i < |commands| ==> Outcome(o, commands[i], dirs[i], dirs[i + 1])
    ensures Locked(dirs[|commands|]) && !SignAdmits(o, dirs[|commands|], matrix, trust)
  {
    hide Prepared, SignAdmits, Outcome;
    var n := |commands|;
    if n == 0 {
      PreparedLocked(o, ctx, builds);
    } else {
      forall i | 0 <= i < n - 1 ensures Outcome(o, commands[..n - 1][i], dirs[..n][i], dirs[..n][i + 1]) {
        assert commands[..n - 1][i] == commands[i] && dirs[..n][i + 1] == dirs[i + 1];
      }
      LocalNeverSigned(o, ctx, builds, commands[..n - 1], dirs[..n], matrix, trust);
      OutcomeLocked(o, commands[n - 1], dirs[n - 1], dirs[n]);
    }
    LockedUnsignable(o, dirs[n], matrix, trust);
  }
}
