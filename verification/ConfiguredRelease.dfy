/** The one target matrix the release configuration admits, and what holds of it without conditions on tokens. */
module ConfiguredRelease {
  import opened Sequences
  import opened ReleaseManifest
  import opened CoreAssets
  import opened ReleaseInventory
  import opened ReleasePipeline
  import opened ReleaseVerification
  import opened ReleaseAcceptance
  import opened ReleaseOutput
  import opened ReleaseRuns
  import opened ReleaseSafety
  import opened ReleaseWork
  import opened ReleaseRoute

  /** A target of the configuration file. */
  datatype ConfigTarget = ConfigTarget(id: string, goos: string, goarch: string, nativeSignature: string, packages: seq<(string, string)>)

  const AMD64 := Target(Linux, "amd64")
  const ARM64 := Target(Linux, "arm64")
  const SUPPORTED := {"linux-amd64", "linux-arm64"}

  function ConfigId(c: ConfigTarget): string { c.id }

  /** The packages a target must list. */
  function ExpectedPackages(goos: string): seq<(string, string)> {
    if goos == "linux" then [("deb", "none"), ("rpm", "rpm-openpgp")]
    else [("pkg", "apple-developer-id-installer-notarized-stapled")]
  }

  predicate TargetConfigured(c: ConfigTarget) {
    && c.id == c.goos + "-" + c.goarch
    && c.nativeSignature == (if c.goos == "darwin" then "apple-developer-id-and-notarization" else "none")
    && c.packages == ExpectedPackages(c.goos)
  }

  /** The target loop of `load_config` and the check of the ids it collected. */
  method LoadTargets(targets: seq<ConfigTarget>) returns (ok: bool)
    ensures ok <==> (forall c :: c in targets ==> TargetConfigured(c)) && NoDup(Map(ConfigId, targets)) && Elems(Map(ConfigId, targets)) == SUPPORTED
  {
    hide TargetConfigured, SUPPORTED;
    var ids: set<string> := {};
    for i := 0 to |targets|
      invariant ids == Elems(Map(ConfigId, targets[..i])) && NoDup(Map(ConfigId, targets[..i]))
      invariant forall k :: 0 <= k < i ==> TargetConfigured(targets[k])
    {
      var c := targets[i];
      assert c in targets;
      IdStep(targets, i);
      if !TargetConfigured(c) || c.id in ids { return false; }
      ids := ids + {c.id};
    }
    assert targets[..|targets|] == targets;
    ok := ids == SUPPORTED;
  }

  lemma IdStep(targets: seq<ConfigTarget>, i: nat)
    requires i < |targets| && NoDup(Map(ConfigId, targets[..i]))
    ensures Elems(Map(ConfigId, targets[..i + 1])) == Elems(Map(ConfigId, targets[..i])) + {targets[i].id}
    ensures NoDup(Map(ConfigId, targets[..i + 1])) <==> targets[i].id !in Elems(Map(ConfigId, targets[..i]))
    ensures targets[i].id in Elems(Map(ConfigId, targets[..i])) ==> !NoDup(Map(ConfigId, targets))
  {
    var before, id := Map(ConfigId, targets[..i]), targets[i].id;
    assert Map(ConfigId, targets[..i + 1]) == before + [id];
    NoDupConcat(before, [id]);
    if id in before {
      var k :| 0 <= k < i && before[k] == id;
      assert Map(ConfigId, targets)[k] == Map(ConfigId, targets)[i];
    }
  }

  // ----- The matrix behind the ids -----

  /** The release matrix: both Linux targets, each once. */
  predicate Configured(matrix: seq<Target>) { NoDup(matrix) && Elems(matrix) == {AMD64, ARM64} }

  /** The targets of a local build, which may leave some out. */
  predicate Narrowed(matrix: seq<Target>) { NoDup(matrix) && Elems(matrix) <= {AMD64, ARM64} }

  function TargetFrom(c: ConfigTarget): Target { Target(if c.goos == "darwin" then Darwin else Linux, c.goarch) }

  /** An id with one hyphen is split in one way. */
  lemma OneSplit(goos: string, goarch: string, os: string, arch: string)
    requires goos + "-" + goarch == os + "-" + arch && '-' !in os && '-' !in arch
    ensures goos == os && goarch == arch
  {
    var id := os + "-" + arch;
    assert (goos + "-" + goarch)[|goos|] == '-';
    assert id[|goos|] == '-';
    assert forall k :: 0 <= k < |os| ==> id[k] == os[k];
    assert forall k :: |os| < k < |id| ==> id[k] == arch[k - |os| - 1];
    assert |goos| == |os|;
    assert goos == (goos + "-" + goarch)[..|goos|] && os == id[..|os|];
    assert goarch == (goos + "-" + goarch)[|goos| + 1..] && arch == id[|os| + 1..];
  }

  lemma SupportedTarget(c: ConfigTarget)
    requires TargetConfigured(c) && c.id in SUPPORTED
    ensures TargetFrom(c) == if c.id == "linux-amd64" then AMD64 else ARM64
    ensures c.goos == "linux"
  {
    assert "linux-amd64" == "linux" + "-" + "amd64" && "linux-arm64" == "linux" + "-" + "arm64";
    if c.id == "linux-amd64" { OneSplit(c.goos, c.goarch, "linux", "amd64"); } else { OneSplit(c.goos, c.goarch, "linux", "arm64"); }
  }

  lemma TokensDiffer()
    ensures AMD64 != ARM64 && "linux-amd64" != "linux-arm64"
  {
    assert "amd64"[1] == 'm' && "arm64"[1] == 'r' && "linux-amd64"[7] == 'm' && "linux-arm64"[7] == 'r';
  }

  /** Every configuration that loads has the release matrix. */
  lemma LoadedIsConfigured(targets: seq<ConfigTarget>)
    requires (forall c :: c in targets ==> TargetConfigured(c)) && NoDup(Map(ConfigId, targets)) && Elems(Map(ConfigId, targets)) == SUPPORTED
    ensures Configured(Map(TargetFrom, targets))
  {
    hide TargetConfigured, TargetFrom, AMD64, ARM64;
    var ids, matrix := Map(ConfigId, targets), Map(TargetFrom, targets);
    TokensDiffer();
    forall k | 0 <= k < |targets| ensures matrix[k] == if ids[k] == "linux-amd64" then AMD64 else ARM64 {
      assert targets[k] in targets && ids[k] in Elems(ids);
      SupportedTarget(targets[k]);
    }
    assert forall k :: 0 <= k < |ids| ==> ids[k] in Elems(ids);
    assert "linux-amd64" in Elems(ids) && "linux-arm64" in Elems(ids);
    var i :| 0 <= i < |ids| && ids[i] == "linux-amd64";
    var j :| 0 <= j < |ids| && ids[j] == "linux-arm64";
    assert matrix[i] == AMD64 && matrix[j] == ARM64;
  }

  lemma NarrowedAdmissible(matrix: seq<Target>)
    requires Narrowed(matrix)
    ensures Admissible(matrix)
  {
    forall t | t in matrix ensures '.' !in t.arch { assert t in Elems(matrix); }
    PlainTokensAdmissible(matrix);
  }

  lemma ConfiguredOrders(matrix: seq<Target>)
    requires Configured(matrix)
    ensures matrix == [AMD64, ARM64] || matrix == [ARM64, AMD64]
  {
    hide AMD64, ARM64;
    TokensDiffer();
    DistinctCount(matrix);
    assert |{AMD64, ARM64}| == 2;
    assert matrix[0] in Elems(matrix) && matrix[1] in Elems(matrix) && matrix[0] != matrix[1];
  }

  /** The release has 56 core assets with distinct names, in every version. */
  lemma ConfiguredAssets(version: string, matrix: seq<Target>)
    requires Configured(matrix)
    ensures NoDup(MatrixAssets(version, matrix)) && |Elems(MatrixAssets(version, matrix))| == AssetCount(matrix) == 56
  {
    hide MatrixAssets, Admissible;
    ConfiguredOrders(matrix);
    NarrowedAdmissible(matrix);
    MatrixDistinct(version, matrix);
    MatrixSize(version, matrix);
    TwoLinux(matrix);
  }

  lemma TwoLinux(matrix: seq<Target>)
    requires matrix == [AMD64, ARM64] || matrix == [ARM64, AMD64]
    ensures CountOs(matrix, Linux) == 2 && CountOs(matrix, Darwin) == 0
  {
    assert matrix[1..] == [matrix[1]] && [matrix[1]][1..] == [];
    assert CountOs([], Linux) == 0 && CountOs([], Darwin) == 0;
    assert CountOs([matrix[1]], Linux) == 1 && CountOs([matrix[1]], Darwin) == 0;
  }

  /** Finalization of a directory with configured targets, all of them or for a local build some,
      depends on what the directory holds alone: no document ever collides with a file. */
  lemma ConfiguredFinalizes(o: Oracle, d: Dir, now: string)
    requires Get(d, WORK_STATE).StateDoc? && Narrowed(Map(TargetAt, WorkState(d, now).records))
    ensures FinalizeAdmits(o, d, now) <==> Ready(o, d, WorkState(d, now))
  {
    hide Ready, AllNew, WorkState, Narrowed, Admissible;
    NarrowedAdmissible(Map(TargetAt, WorkState(d, now).records));
    if Ready(o, d, WorkState(d, now)) { FinalizeSucceeds(o, d, now); }
  }

  /** Signing a directory that `sign` admits for the configured matrix replaces nothing. */
  lemma ConfiguredSigns(o: Oracle, d: Dir, matrix: seq<Target>, trust: Trust, sign: Signer)
    requires Configured(matrix) && SignAdmits(o, d, matrix, trust)
    ensures var rows := BundleRows(sign, Plan(Get(d, MANIFEST).manifest));
      forall i :: 0 <= i < |rows| ==> rows[i].0 !in Assign(d, rows[..i])
  {
    hide SignAdmits, Assign, Plan, BundleRow, Admissible;
    NarrowedAdmissible(matrix);
    SigningReplacesNothing(o, d, matrix, trust, sign);
  }

  /** What a release of the configured matrix needs: reproducible builds, readable modules and the
      signed packages of both targets. */
  ghost predicate Supplies(o: Oracle, ctx: Context, parts: seq<Part>) {
    && Configured(Map(TargetIn, parts))
    && forall p :: p in parts ==> p.supply.RpmSupply? && Reproducible(o, Release, p.build) && Usable(o, ctx, p.build.first)
  }

  /** Such a release is prepared, finalized, and signed and verified exactly when its parts are sound. */
  lemma ConfiguredRoute(o: Oracle, ctx: Context, parts: seq<Part>, now: string, trust: Trust, sign: Signer)
    returns (commands: seq<Command>, dirs: seq<Dir>)
    requires Supplies(o, ctx, parts)
    requires forall a: string, b: string :: sign(a, b).Some?
    ensures Run(o, commands, dirs) && dirs[0] == map[] && |commands| > 0 && Get(dirs[|commands|], WORK_STATE).StateDoc?
    ensures var d := dirs[|commands|];
      var s := WorkState(d, now);
      var signed := Signed(Finalized(o, d, s), ManifestFor(o, d, s), sign);
      var matrix := Map(TargetIn, parts);
      var sound := forall p :: p in parts ==> PartSound(o, ctx, p, trust);
      && Succeeds(o, FinalizeOutput(now), d, Finalized(o, d, s))
      && (Succeeds(o, SignOutput(matrix, trust, sign), Finalized(o, d, s), signed) <==> sound)
      && forall identity :: VerifyAdmits(o, signed, matrix, trust, identity) <==> sound && identity == ctx.builder
  {
    hide Succeeds, WorkState, Finalized, Signed, ManifestFor, VerifyAdmits, PartSound, Run, Admissible;
    SuppliesPrepare(o, ctx, parts);
    commands, dirs := ReachesVerified(o, ctx, parts, now, trust, sign);
  }

  lemma SuppliesPrepare(o: Oracle, ctx: Context, parts: seq<Part>)
    requires Supplies(o, ctx, parts)
    ensures Prepares(o, ctx, parts)
  {
    hide Reproducible, Usable, Admissible;
    var matrix := Map(TargetIn, parts);
    NarrowedAdmissible(matrix);
    ConfiguredOrders(matrix);
    forall p | p in parts ensures Supplied(p) {
      var k :| 0 <= k < |parts| && parts[k] == p;
      assert matrix[k] in Elems(matrix) && matrix[k] == p.build.target;
    }
  }
}
