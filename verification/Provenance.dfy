/** SLSA v1 provenance in in-toto v1 statements: the builders and the separately written checks. */
module Provenance {
  import opened Sequences
  import opened Text
  import opened ReleaseManifest
  import opened Sbom

  const STATEMENT_TYPE := "https://in-toto.io/Statement/v1"
  const SLSA_PREDICATE := "https://slsa.dev/provenance/v1"

  datatype Resolved = Resolved(uri: string, digest: Option<(string, string)>)

  datatype Parameters = Parameters(
    repository: string, commit: string, version: string, protocol: int, codex: string, schema: string,
    serverMinimum: string, serverMaximum: string, target: Target, nativePolicy: string)

  datatype BuildSettings = BuildSettings(
    cgoEnabled: bool, goAmd64: string, goArm64: string, goEnv: string, goExperiment: string, goFips140: string,
    goToolchain: string, trimpath: bool, buildVcs: bool, goBuildId: string)

  datatype Byproduct = Byproduct(name: string, sha256: string, passes: int, matched: bool, size: nat)

  datatype Statement = Statement(
    statementType: string, predicateType: string, subject: (string, string), buildType: string,
    parameters: Parameters, settings: BuildSettings, resolved: seq<Resolved>, builder: string,
    invocation: string, started: string, finished: string, byproduct: Byproduct)

  function Pinned(): BuildSettings {
    BuildSettings(false, "v1", "v8.0", "off", "", "off", "local", true, false, "")
  }

  predicate LowerHex(s: string) {
    forall c :: c in s ==> '0' <= c <= '9' || 'a' <= c <= 'f'
  }

  predicate HexCommit(s: string) { |s| == 40 && LowerHex(s) }
  predicate HexSha256(s: string) { |s| == 64 && LowerHex(s) }

  function HexDigit(n: nat): char
    requires n < 16
  {
    "0123456789abcdef"[n]
  }

  function Hex(bytes: seq<Byte>): string {
    if bytes == [] then "" else [HexDigit(bytes[0] / 16), HexDigit(bytes[0] % 16)] + Hex(bytes[1..])
  }

  /** A SHA-256 digest prints as exactly the text the checks demand. */
  lemma {:induction false} HexShape(bytes: seq<Byte>)
    ensures |Hex(bytes)| == 2 * |bytes| && LowerHex(Hex(bytes))
  {
    if bytes != [] { HexShape(bytes[1..]); }
  }

  function SourceDigest(ctx: Context): (string, string) {
    if HexCommit(ctx.commit) then ("gitCommit", ctx.commit) else ("sha256", ctx.snapshot)
  }

  function ToolchainUri(ctx: Context): string { "pkg:golang/toolchain@" + WithoutGo(ctx.goVersion) }

  function BuildType(ctx: Context): string {
    if HexCommit(ctx.commit) && StartsWith(ctx.repository, "https://github.com/")
    then ctx.repository + "/blob/" + ctx.commit + "/connector/release/README.md#release-flow"
    else "https://sub2api-codex.invalid/buildtypes/connector-release/v1"
  }

  function NativePolicy(os: Os): string {
    if os.Darwin? then "apple-developer-id-and-notarization" else "none"
  }

  function EntryPolicy(n: Native): string {
    match n case NotRequired => "none" case _ => "apple-developer-id-and-notarization"
  }

  // ----- The artifact statement -----

  /** One resolved Go module; a present checksum must decode to a SHA-256 digest. */
  function ResolveModule(tools: Tools, m: Module): Option<Resolved> {
    match m.goSum
    case None => Some(Resolved(ModuleUri(m), None))
    case Some(sum) =>
      match tools.decodeSum(sum)
      case None => None
      case Some(bytes) =>
        if |bytes| != 32 then None else Some(Resolved(ModuleUri(m), Some(("dirHash1", Hex(bytes)))))
  }

  predicate Resolvable(tools: Tools, deps: seq<Module>) {
    forall m :: m in deps ==> ResolveModule(tools, m).Some?
  }

  function ResolveAll(tools: Tools, deps: seq<Module>): (r: seq<Resolved>)
    requires Resolvable(tools, deps)
    ensures |r| == |deps|
    ensures forall i :: 0 <= i < |deps| ==> r[i] == ResolveModule(tools, deps[i]).value
  {
    seq(|deps|, i requires 0 <= i < |deps| => ResolveModule(tools, deps[i]).value)
  }

  function ResolvedHead(ctx: Context): seq<Resolved> {
    [Resolved(ctx.repository, Some(SourceDigest(ctx))), Resolved(ToolchainUri(ctx), None)]
  }

  function StatementOf(ctx: Context, t: Target, fileName: string, sha256: string, resolved: seq<Resolved>,
                       unsignedSha256: string, unsignedSize: nat): Statement
  {
    Statement(STATEMENT_TYPE, SLSA_PREDICATE, (fileName, sha256), BuildType(ctx),
              Parameters(ctx.repository, ctx.commit, ctx.version, ctx.protocol, ctx.codex, ctx.schema,
                         ctx.serverMinimum, ctx.serverMaximum, t, NativePolicy(t.os)),
              Pinned(), resolved, ctx.builder, ctx.invocation + "#" + TargetId(t), ctx.started, ctx.finished,
              Byproduct(fileName, unsignedSha256, 2, true, unsignedSize))
  }

  /** `make_provenance`: refused exactly when a dependency checksum is not a SHA-256 digest. */
  method MakeProvenance(tools: Tools, ctx: Context, t: Target, fileName: string, sha256: string,
                        unsignedSha256: string, unsignedSize: nat, modules: seq<Module>)
    returns (r: Option<Statement>)
    ensures r.Some? <==> Resolvable(tools, Dependencies(modules))
    ensures r.Some? ==>
      r.value == StatementOf(ctx, t, fileName, sha256, ResolvedHead(ctx) + ResolveAll(tools, Dependencies(modules)),
                             unsignedSha256, unsignedSize)
  {
    var resolved: seq<Resolved> := [];
    for i := 0 to |modules|
      invariant Resolvable(tools, Dependencies(modules[..i]))
      invariant resolved == ResolveAll(tools, Dependencies(modules[..i]))
    {
      DependenciesStep(modules, i);
      if modules[i].dep {
        var dependency := ResolveModule(tools, modules[i]);
        if dependency.None? {
          assert modules[i] in Dependencies(modules);
          return None;
        }
        resolved := resolved + [dependency.value];
      }
    }
    assert modules[..|modules|] == modules;
    return Some(StatementOf(ctx, t, fileName, sha256, ResolvedHead(ctx) + resolved, unsignedSha256, unsignedSize));
  }

  function UriOf(d: Resolved): string { d.uri }

  predicate DependencyAccepted(d: Resolved, known: set<string>) {
    d.uri in known ||
    (StartsWith(d.uri, "pkg:golang/") &&
     (d.digest.None? || (d.digest.value.0 == "dirHash1" && HexSha256(d.digest.value.1))))
  }

  predicate DependenciesAccepted(resolved: seq<Resolved>, known: set<string>) {
    NoDup(Map(UriOf, resolved)) && forall d :: d in resolved ==> DependencyAccepted(d, known)
  }

  /** The dependency loop of `verify_provenance`. */
  method CheckDependencies(resolved: seq<Resolved>, known: set<string>) returns (ok: bool)
    ensures ok <==> DependenciesAccepted(resolved, known)
  {
    var seen := {};
    for i := 0 to |resolved|
      invariant seen == Elems(Map(UriOf, resolved[..i]))
      invariant NoDup(Map(UriOf, resolved[..i]))
      invariant forall d :: d in resolved[..i] ==> DependencyAccepted(d, known)
    {
      var d := resolved[i];
      assert resolved[..i + 1] == resolved[..i] + [d];
      MapAppend(UriOf, resolved[..i], [d]);
      assert Map(UriOf, [d]) == [d.uri];
      NoDupConcat(Map(UriOf, resolved[..i]), [d.uri]);
      if d.uri in seen {
        assert resolved == resolved[..i + 1] + resolved[i + 1..];
        MapAppend(UriOf, resolved[..i + 1], resolved[i + 1..]);
        NoDupConcat(Map(UriOf, resolved[..i + 1]), Map(UriOf, resolved[i + 1..]));
        return false;
      }
      seen := seen + {d.uri};
      if d.uri in known { continue; }
      if !DependencyAccepted(d, known) { return false; }
    }
    assert resolved[..|resolved|] == resolved;
    return true;
  }

  /** `verify_provenance`. */
  predicate VerifyProvenance(st: Statement, artifact: ArtifactEntry, t: Target, native: Native, ctx: Context,
                                   trusted: Option<string>)
  {
    && st.statementType == STATEMENT_TYPE && st.predicateType == SLSA_PREDICATE
    && st.subject == (artifact.file.filename, artifact.file.sha256)
    && st.buildType == BuildType(ctx)
    && st.parameters == Parameters(ctx.repository, ctx.commit, ctx.version, ctx.protocol, ctx.codex, ctx.schema,
                                   ctx.serverMinimum, ctx.serverMaximum, t, EntryPolicy(native))
    && |st.resolved| >= 2
    && Resolved(ctx.repository, Some(SourceDigest(ctx))) in st.resolved
    && Resolved(ToolchainUri(ctx), None) in st.resolved
    && DependenciesAccepted(st.resolved, {ctx.repository, ToolchainUri(ctx)})
    && st.settings == Pinned()
    && st.builder == ctx.builder && (trusted.Some? ==> st.builder == trusted.value)
    && st.invocation == ctx.invocation + "#" + TargetId(t) && st.started == ctx.started && st.finished == ctx.finished
    && st.byproduct == Byproduct(artifact.file.filename, artifact.candidateSha256, 2, true, artifact.candidateSize)
  }

  // ----- Acceptance -----

  /** No dependency URI is the source repository or the toolchain, which are listed already. */
  predicate UrisReserved(ctx: Context, modules: seq<Module>) {
    && ctx.repository != ToolchainUri(ctx)
    && forall m :: m in Dependencies(modules) ==> ModuleUri(m) != ctx.repository && ModuleUri(m) != ToolchainUri(ctx)
  }

  lemma DependencyUris(tools: Tools, deps: seq<Module>)
    requires Resolvable(tools, deps)
    ensures Map(UriOf, ResolveAll(tools, deps)) == Map(ModuleUri, deps)
  {
    forall i | 0 <= i < |deps| ensures ResolveAll(tools, deps)[i].uri == ModuleUri(deps[i]) {
      assert deps[i] in deps;
    }
  }

  lemma UrisDistinct(deps: seq<Module>)
    requires NoDup(Map(ModuleId, deps))
    ensures NoDup(Map(ModuleUri, deps))
  {
    forall i, j | 0 <= i < j < |deps| ensures Map(ModuleUri, deps)[i] != Map(ModuleUri, deps)[j] {
      assert Map(ModuleId, deps)[i] != Map(ModuleId, deps)[j];
      if ModuleUri(deps[i]) == ModuleUri(deps[j]) { SameUriSameId(deps[i], deps[j]); }
    }
  }

  lemma ResolvedAccepted(tools: Tools, m: Module, known: set<string>)
    requires ResolveModule(tools, m).Some?
    ensures DependencyAccepted(ResolveModule(tools, m).value, known)
  {
    assert ModuleUri(m)[..11] == "pkg:golang/";
    if m.goSum.Some? { HexShape(tools.decodeSum(m.goSum.value).value); }
  }

  /** The list of resolved dependencies that the builder writes passes the loop exactly when the
      two leading URIs stay reserved. */
  lemma ResolvedListAccepted(tools: Tools, ctx: Context, modules: seq<Module>, deps: seq<Module>)
    requires deps == Dependencies(modules) && Resolvable(tools, deps) && NoDup(Map(ModuleId, deps))
    ensures DependenciesAccepted(ResolvedHead(ctx) + ResolveAll(tools, deps), {ctx.repository, ToolchainUri(ctx)})
            <==> UrisReserved(ctx, modules)
  {
    var tail := ResolveAll(tools, deps);
    DependencyUris(tools, deps);
    UrisDistinct(deps);
    MapAppend(UriOf, ResolvedHead(ctx), tail);
    assert Map(UriOf, ResolvedHead(ctx)) == [ctx.repository, ToolchainUri(ctx)];
    LedBy(ctx.repository, ToolchainUri(ctx), ModuleUri, deps);
    forall d | d in ResolvedHead(ctx) + tail ensures DependencyAccepted(d, {ctx.repository, ToolchainUri(ctx)}) {
      if d in tail {
        var i :| 0 <= i < |tail| && tail[i] == d;
        assert deps[i] in deps;
        ResolvedAccepted(tools, deps[i], {ctx.repository, ToolchainUri(ctx)});
      }
    }
  }

  lemma LedBy(a: string, b: string, uri: Module -> string, deps: seq<Module>)
    requires NoDup(Map(uri, deps))
    ensures NoDup([a, b] + Map(uri, deps)) <==> a != b && forall m :: m in deps ==> uri(m) != a && uri(m) != b
  {
    var uris := Map(uri, deps);
    NoDupConcat([a, b], uris);
    assert [a, b][0] == a && [a, b][1] == b;
    forall x ensures x in uris <==> exists m :: m in deps && uri(m) == x {
      if x in uris {
        var i :| 0 <= i < |uris| && uris[i] == x;
        assert deps[i] in deps;
      }
      if m :| m in deps && uri(m) == x {
        var i :| 0 <= i < |deps| && deps[i] == m;
        assert uris[i] == x;
      }
    }
    assert a in [a, b] && b in [a, b];
    assert NoDup([a, b]) <==> a != b;
    assert a in uris <==> exists m :: m in deps && uri(m) == a;
    assert b in uris <==> exists m :: m in deps && uri(m) == b;
  }

  /** The written statement is accepted exactly when the reserved URIs are free and the trusted
      identity, if one is given, is the builder. */
  lemma ProvenanceAccepted(tools: Tools, ctx: Context, t: Target, artifact: ArtifactEntry, native: Native,
                           modules: seq<Module>, trusted: Option<string>)
    requires NoDup(Map(ModuleId, Dependencies(modules))) && Resolvable(tools, Dependencies(modules))
    requires native.NotRequired? <==> t.os.Linux?
    ensures VerifyProvenance(
              StatementOf(ctx, t, artifact.file.filename, artifact.file.sha256,
                          ResolvedHead(ctx) + ResolveAll(tools, Dependencies(modules)),
                          artifact.candidateSha256, artifact.candidateSize),
              artifact, t, native, ctx, trusted)
            <==> UrisReserved(ctx, modules) && (trusted.Some? ==> trusted.value == ctx.builder)
  {
    hide DependenciesAccepted, UrisReserved, Resolvable, ResolveAll, Dependencies, ToolchainUri, SourceDigest, BuildType, TargetId;
    ResolvedListAccepted(tools, ctx, modules, Dependencies(modules));
    var resolved := ResolvedHead(ctx) + ResolveAll(tools, Dependencies(modules));
    assert resolved[0] == ResolvedHead(ctx)[0] && resolved[1] == ResolvedHead(ctx)[1];
  }

  // ----- The package statement -----

  datatype PackageStatement = PackageStatement(
    statementType: string, predicateType: string, subject: (string, string), buildType: string,
    repository: string, commit: string, version: string, target: string, format: string, nativePolicy: string,
    passes: int, verified: bool, resolved: seq<Resolved>, builder: string,
    invocation: string, started: string, finished: string, byproduct: Byproduct)

  const PACKAGE_BUILD_TYPE := "https://sub2api-codex.invalid/buildtypes/connector-native-package/v2"

  function PackagePolicy(format: Format): string {
    match format
    case Deb => "none"
    case Rpm => "rpm-openpgp"
    case Pkg => "apple-developer-id-installer-notarized-stapled"
  }

  function PackageEntryPolicy(n: PackageNative): string {
    match n
    case Unsigned => "none"
    case RpmVerified(_, _, _) => "rpm-openpgp"
    case PkgVerified(_, _, _, _) => "apple-developer-id-installer-notarized-stapled"
  }

  /** `make_package_provenance`. */
  function MakePackageProvenance(ctx: Context, t: Target, format: Format, fileName: string, sha256: string,
                                 connectorSha256: string, candidateSha256: string, candidateSize: nat): PackageStatement
  {
    PackageStatement(STATEMENT_TYPE, SLSA_PREDICATE, (fileName, sha256), PACKAGE_BUILD_TYPE,
                     ctx.repository, ctx.commit, ctx.version, TargetId(t), FormatName(format), PackagePolicy(format),
                     2, true,
                     [Resolved(ctx.repository, Some(SourceDigest(ctx))),
                      Resolved("pkg:generic/" + PRODUCT + "@" + ctx.version, Some(("sha256", connectorSha256)))],
                     ctx.builder, ctx.invocation + "#" + TargetId(t) + "-" + FormatName(format), ctx.started, ctx.finished,
                     Byproduct(fileName + ".unsigned-candidate", candidateSha256, 2, true, candidateSize))
  }

  /** `verify_package_provenance`. */
  predicate VerifyPackageProvenance(st: PackageStatement, package: PackageEntry, t: Target, connector: FileEntry,
                                    ctx: Context, trusted: Option<string>)
  {
    var artifact := package.artifact;
    && st.statementType == STATEMENT_TYPE && st.predicateType == SLSA_PREDICATE
    && st.subject == (artifact.file.filename, artifact.file.sha256)
    && st.buildType == PACKAGE_BUILD_TYPE
    && st.repository == ctx.repository && st.commit == ctx.commit && st.version == ctx.version
    && st.target == TargetId(t) && st.format == FormatName(package.format)
    && st.nativePolicy == PackageEntryPolicy(package.native)
    && st.passes == 2 && st.verified
    && st.resolved == [Resolved(ctx.repository, Some(SourceDigest(ctx))),
                       Resolved("pkg:generic/" + PRODUCT + "@" + ctx.version, Some(("sha256", connector.sha256)))]
    && st.builder == ctx.builder && (trusted.Some? ==> st.builder == trusted.value)
    && st.invocation == ctx.invocation + "#" + TargetId(t) + "-" + FormatName(package.format)
    && st.started == ctx.started && st.finished == ctx.finished
    && st.byproduct == Byproduct(artifact.file.filename + ".unsigned-candidate", artifact.candidateSha256, 2, true,
                                 artifact.candidateSize)
  }

  // ----- Module lists that are built but refused -----

  /** A dependency whose SPDX identifier is the standard library's. */
  const LIBRARY_TWIN := [Module(true, "Go/Standard", "Library", None)]

  /** A dependency whose URI is the toolchain's. */
  function ToolchainTwin(ctx: Context): seq<Module> { [Module(true, "toolchain", WithoutGo(ctx.goVersion), None)] }

  lemma OneDependency(tools: Tools, ctx: Context, m: Module)
    requires m.dep && m.goSum.None? && ExactGoRelease(ctx.goVersion)
    ensures Dependencies([m]) == [m] && Buildable(ctx, [m]) && Resolvable(tools, Dependencies([m]))
  {
    assert Dependencies([m]) == [m];
  }

  lemma TwinId()
    ensures ModuleId(LIBRARY_TWIN[0]) == STDLIB_ID
  {
    assert SpdxId("Go/Standard") == "Go-Standard" && SpdxId("Library") == "Library";
  }

  lemma TwinTaken()
    ensures !StdlibReserved(LIBRARY_TWIN)
  {
    hide ModuleId, STDLIB_ID;
    var m := LIBRARY_TWIN[0];
    TwinId();
    assert Dependencies([m]) == [m];
    assert Map(ModuleId, [m])[0] == STDLIB_ID;
  }

  /** A dependency spelled like the reserved SPDX identifier: the documents are built, and the SBOM
      is refused whatever the artifact. */
  lemma StandardLibraryClash(tools: Tools, ctx: Context, t: Target, artifact: FileEntry, sha1: string)
    requires ExactGoRelease(ctx.goVersion)
    ensures Buildable(ctx, LIBRARY_TWIN) && Resolvable(tools, Dependencies(LIBRARY_TWIN))
    ensures !VerifySbom(tools, MakeSbom(tools, ctx, t, artifact.filename, sha1, artifact.sha256, LIBRARY_TWIN), sha1, artifact, ctx)
  {
    hide VerifySbom, MakeSbom, StdlibReserved;
    OneDependency(tools, ctx, LIBRARY_TWIN[0]);
    TwinTaken();
    SbomAccepted(tools, ctx, t, artifact, sha1, LIBRARY_TWIN);
  }

  lemma ToolchainTaken(ctx: Context)
    ensures !UrisReserved(ctx, ToolchainTwin(ctx)) && StdlibReserved(ToolchainTwin(ctx))
  {
    var m := ToolchainTwin(ctx)[0];
    assert Dependencies([m]) == [m] && m in Dependencies([m]);
    assert ModuleUri(m) == ToolchainUri(ctx);
    assert ModuleId(m)[16] == 't' && STDLIB_ID[16] == 'G';
  }

  /** A dependency named like the toolchain: the SBOM is built and accepted, the statement is built
      and refused, because the toolchain's URI occurs twice. */
  lemma ToolchainClash(tools: Tools, ctx: Context, t: Target, artifact: ArtifactEntry, sha1: string, native: Native, trusted: Option<string>)
    requires ExactGoRelease(ctx.goVersion) && (native.NotRequired? <==> t.os.Linux?)
    ensures var modules := ToolchainTwin(ctx);
      && Buildable(ctx, modules) && Resolvable(tools, Dependencies(modules))
      && VerifySbom(tools, MakeSbom(tools, ctx, t, artifact.file.filename, sha1, artifact.file.sha256, modules), sha1, artifact.file, ctx)
      && !VerifyProvenance(StatementOf(ctx, t, artifact.file.filename, artifact.file.sha256,
                                       ResolvedHead(ctx) + ResolveAll(tools, Dependencies(modules)),
                                       artifact.candidateSha256, artifact.candidateSize), artifact, t, native, ctx, trusted)
  {
    hide VerifySbom, MakeSbom, StdlibReserved, UrisReserved, VerifyProvenance, StatementOf, ResolveAll;
    var modules := ToolchainTwin(ctx);
    OneDependency(tools, ctx, modules[0]);
    ToolchainTaken(ctx);
    SbomAccepted(tools, ctx, t, artifact.file, sha1, modules);
    ProvenanceAccepted(tools, ctx, t, artifact, native, modules, trusted);
  }

  // ----- Module lists as Go writes them -----

  /** A module version of Go: `v` and a semantic version, or a parenthesised placeholder. */
  predicate GoVersion(version: string) { version != "" && version[0] in {'v', '('} }

  predicate AsGoWrites(modules: seq<Module>) { forall m :: m in Dependencies(modules) ==> GoVersion(m.version) }

  lemma GoIdFree(m: Module)
    requires GoVersion(m.version)
    ensures ModuleId(m) != STDLIB_ID
  {
    hide IdOf;
    var id, k := ModuleId(m), 17 + |m.path|;
    assert id[k - 1] == '-' && id[k] == SpdxId(m.version)[0] && k >= 17;
    VersionInitial(m.version);
    assert forall i :: 16 <= i < |STDLIB_ID| && STDLIB_ID[i] == '-' ==> i == 18 || i == 27;
    assert STDLIB_ID[19] == 'S' && STDLIB_ID[28] == 'L';
  }

  lemma VersionInitial(version: string)
    requires GoVersion(version)
    ensures SpdxId(version)[0] in {'v', '-'}
  {
  }

  lemma {:induction false} DigitsOnly(s: string)
    ensures DigitRun(s) <= |s| && '@' !in s[..DigitRun(s)]
    ensures DigitRun(s) > 0 ==> '0' <= s[0] <= '9'
  {
    if s != "" && '0' <= s[0] <= '9' {
      DigitsOnly(s[1..]);
      assert s[..DigitRun(s)] == [s[0]] + s[1..][..DigitRun(s[1..])];
    }
  }

  lemma {:induction false} PlainDigits(s: string, n: nat)
    requires DottedDigits(s, n)
    ensures '@' !in s && s != "" && '0' <= s[0] <= '9'
  {
    var run := DigitRun(s);
    DigitsOnly(s);
    if n > 1 {
      PlainDigits(s[run + 1..], n - 1);
      assert s == s[..run] + ['.'] + s[run + 1..];
    } else {
      assert s == s[..run];
    }
  }

  lemma GoUriFree(ctx: Context, m: Module)
    requires GoVersion(m.version) && ExactGoRelease(ctx.goVersion)
    ensures ModuleUri(m) != ToolchainUri(ctx)
  {
    var number := WithoutGo(ctx.goVersion);
    PlainDigits(number, 3);
    var a, b := ModuleUri(m), ToolchainUri(ctx);
    var k := 11 + |m.path|;
    assert a[k] == '@' && a[k + 1] == m.version[0];
    assert forall i :: 21 <= i < |b| ==> b[i] == number[i - 21];
    assert forall i :: 11 <= i < |b| && b[i] == '@' ==> i == 20;
  }

  /** With versions as Go writes them and a source repository that is no package URI, no dependency
      takes a reserved identifier or URI: what finalization writes is accepted. */
  lemma GoModulesAccepted(ctx: Context, modules: seq<Module>)
    requires AsGoWrites(modules) && ExactGoRelease(ctx.goVersion) && !StartsWith(ctx.repository, "pkg:golang/")
    ensures StdlibReserved(modules) && UrisReserved(ctx, modules)
  {
    hide ModuleId, STDLIB_ID, GoVersion, ExactGoRelease;
    var deps := Dependencies(modules);
    forall m | m in deps ensures ModuleId(m) != STDLIB_ID && ModuleUri(m) != ToolchainUri(ctx) && ModuleUri(m) != ctx.repository {
      GoIdFree(m);
      GoUriFree(ctx, m);
      assert StartsWith(ModuleUri(m), "pkg:golang/");
    }
    assert StartsWith(ToolchainUri(ctx), "pkg:golang/");
  }
}
