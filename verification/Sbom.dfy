/** SPDX 2.3 documents that finalization writes and the separately written checks on them. */
module Sbom {
  import opened Sequences
  import opened Text
  import opened ReleaseManifest

  type Byte = b: nat | b < 256

  /** The foreign functions the builders call: digests of text, time formatting, base64. */
  datatype Tools = Tools(
    sha1Text: string -> string, sha256Text: string -> string, iso8601: nat -> string,
    decodeSum: string -> Option<seq<Byte>>)

  datatype Module = Module(dep: bool, path: string, version: string, goSum: Option<string>)

  datatype Checksum = Checksum(algorithm: string, value: string)

  datatype Package = Package(
    id: string, name: string, version: string, filesAnalyzed: bool, checksums: seq<Checksum>,
    verificationCode: Option<string>, licenseInfoFromFiles: seq<string>, licenseConcluded: string,
    licenseDeclared: string, copyrightText: string, purl: Option<string>)

  datatype File = File(
    id: string, fileName: string, checksums: seq<Checksum>, licenseConcluded: string,
    licenseInfoInFiles: seq<string>, copyrightText: string)

  datatype Relationship = Relationship(element: string, kind: string, related: string)

  datatype Document = Document(
    spdxVersion: string, dataLicense: string, name: string, namespace: string, created: string, creator: string,
    packages: seq<Package>, files: seq<File>, relationships: seq<Relationship>)

  const STDLIB_ID := "SPDXRef-Package-Go-Standard-Library"
  const CONNECTOR_ID := "SPDXRef-Package-Connector"
  const CONNECTOR_FILE_ID := "SPDXRef-File-Connector"
  const INSTALLER_ID := "SPDXRef-Package-ConnectorInstaller"
  const INSTALLER_FILE_ID := "SPDXRef-File-ConnectorInstaller"
  const NONE := "NOASSERTION"

  // ----- Identifiers -----

  predicate IdChar(c: char) {
    'A' <= c <= 'Z' || 'a' <= c <= 'z' || '0' <= c <= '9' || c == '.' || c == '-'
  }

  function IdOf(c: char): char { if IdChar(c) then c else '-' }

  function SpdxId(value: string): string { Map(IdOf, value) }

  function ModuleId(m: Module): string { "SPDXRef-Package-" + SpdxId(m.path) + "-" + SpdxId(m.version) }

  function ModuleUri(m: Module): string { "pkg:golang/" + m.path + "@" + m.version }

  /** '@' is not an identifier character, so an id is the image of the URI it came from. */
  lemma IdFromUri(m: Module)
    ensures ModuleId(m) == "SPDXRef-Package-" + SpdxId(ModuleUri(m)[11..])
  {
    var uri := ModuleUri(m);
    assert uri[11..] == m.path + "@" + m.version;
    MapAppend(IdOf, m.path + "@", m.version);
    MapAppend(IdOf, m.path, "@");
    assert Map(IdOf, "@") == "-";
    var p, v := SpdxId(m.path), SpdxId(m.version);
    assert "SPDXRef-Package-" + (p + "-" + v) == "SPDXRef-Package-" + p + "-" + v;
  }

  /** Distinct identifiers imply distinct package URIs. */
  lemma SameUriSameId(m: Module, n: Module)
    requires ModuleUri(m) == ModuleUri(n)
    ensures ModuleId(m) == ModuleId(n)
  {
    IdFromUri(m);
    IdFromUri(n);
  }

  /** A dependency identifier always holds a second separator, so it is never the Connector's. */
  lemma ModuleIdNotConnector(m: Module)
    ensures ModuleId(m) != CONNECTOR_ID && ModuleId(m) != INSTALLER_ID
  {
    var k := 16 + |SpdxId(m.path)|;
    assert ModuleId(m)[k] == '-';
    assert forall i :: 16 <= i < |CONNECTOR_ID| ==> CONNECTOR_ID[i] != '-';
    assert forall i :: 16 <= i < |INSTALLER_ID| ==> INSTALLER_ID[i] != '-';
  }

  // ----- Builders -----

  function DigitRun(s: string): nat
    ensures DigitRun(s) <= |s|
  {
    if s == "" || !('0' <= s[0] <= '9') then 0 else 1 + DigitRun(s[1..])
  }

  /** `groups` runs of digits separated by dots. */
  predicate DottedDigits(s: string, groups: nat)
    decreases groups
  {
    groups > 0 && DigitRun(s) > 0 &&
    if groups == 1 then DigitRun(s) == |s|
    else DigitRun(s) < |s| && s[DigitRun(s)] == '.' && DottedDigits(s[DigitRun(s) + 1..], groups - 1)
  }

  predicate ExactGoRelease(v: string) {
    StartsWith(v, "go") && DottedDigits(v[2..], 3)
  }

  function WithoutGo(v: string): string { if StartsWith(v, "go") then v[2..] else v }

  function StdlibPackage(goVersion: string): Package {
    Package(STDLIB_ID, "Go standard library", WithoutGo(goVersion), false, [], None, [], "BSD-3-Clause",
            "BSD-3-Clause", "Copyright The Go Authors", Some("pkg:golang/stdlib@" + WithoutGo(goVersion)))
  }

  function ConnectorComponent(version: string): Package {
    Package(CONNECTOR_ID, PRODUCT, version, false, [], None, [], "Apache-2.0", "Apache-2.0",
            "Copyright 2026 Sub2API Codex Control contributors", None)
  }

  function DependencyPackage(m: Module): Package {
    Package(ModuleId(m), m.path, m.version, false, [], None, [], NONE, NONE, NONE,
            if m.version == "(devel)" || m.version == "(unknown)" then None else Some(ModuleUri(m)))
  }

  function Dependencies(modules: seq<Module>): (r: seq<Module>)
    ensures forall m :: m in r <==> m in modules && m.dep
  {
    if modules == [] then []
    else (if modules[0].dep then [modules[0]] else []) + Dependencies(modules[1..])
  }

  function DependsOn(parent: string): string -> Relationship { id => Relationship(parent, "DEPENDS_ON", id) }

  lemma {:induction false} DependenciesStep(modules: seq<Module>, i: nat)
    requires i < |modules|
    ensures Dependencies(modules[..i + 1]) == Dependencies(modules[..i]) + if modules[i].dep then [modules[i]] else []
  {
    if i > 0 {
      DependenciesStep(modules[1..], i - 1);
      assert modules[..i + 1][1..] == modules[1..][..i] && modules[..i][1..] == modules[1..][..i - 1];
    }
  }

  /** `go_dependency_spdx_entries`: one package and one relationship per dependency, in order,
      refused exactly when two dependencies map to the same identifier. */
  method DependencyEntries(modules: seq<Module>, parent: string)
    returns (r: Option<(seq<Package>, seq<Relationship>)>)
    ensures r.Some? <==> NoDup(Map(ModuleId, Dependencies(modules)))
    ensures r.Some? ==> r.value == EntriesOf(Dependencies(modules), parent)
  {
    var entries: (seq<Package>, seq<Relationship>) := ([], []);
    var seen := {};
    for i := 0 to |modules|
      invariant entries == EntriesOf(Dependencies(modules[..i]), parent)
      invariant seen == Elems(Map(ModuleId, Dependencies(modules[..i])))
      invariant NoDup(Map(ModuleId, Dependencies(modules[..i])))
    {
      DependenciesStep(modules, i);
      ghost var done := Dependencies(modules[..i]);
      if !modules[i].dep {
        assert done + [] == done;
        continue;
      }
      EntryStep(ModuleId, done, modules[i], parent);
      var id := ModuleId(modules[i]);
      if id in seen {
        PrefixNoDup(ModuleId, modules, i + 1);
        return None;
      }
      seen := seen + {id};
      entries := (entries.0 + [DependencyPackage(modules[i])], entries.1 + [DependsOn(parent)(id)]);
    }
    assert modules[..|modules|] == modules;
    return Some(entries);
  }

  function EntriesOf(deps: seq<Module>, parent: string): (seq<Package>, seq<Relationship>) {
    (Map(DependencyPackage, deps), Map(DependsOn(parent), Map(ModuleId, deps)))
  }

  lemma EntryStep(idOf: Module -> string, done: seq<Module>, m: Module, parent: string)
    ensures Map(idOf, done + [m]) == Map(idOf, done) + [idOf(m)]
    ensures Map(DependencyPackage, done + [m]) == Map(DependencyPackage, done) + [DependencyPackage(m)]
    ensures Map(DependsOn(parent), Map(idOf, done) + [idOf(m)])
         == Map(DependsOn(parent), Map(idOf, done)) + [DependsOn(parent)(idOf(m))]
    ensures Elems(Map(idOf, done) + [idOf(m)]) == Elems(Map(idOf, done)) + {idOf(m)}
    ensures NoDup(Map(idOf, done) + [idOf(m)]) <==> NoDup(Map(idOf, done)) && idOf(m) !in Elems(Map(idOf, done))
  {
    NoDupConcat(Map(idOf, done), [idOf(m)]);
  }

  lemma {:induction false} PrefixNoDup(idOf: Module -> string, modules: seq<Module>, i: nat)
    requires i <= |modules| && !NoDup(Map(idOf, Dependencies(modules[..i])))
    ensures !NoDup(Map(idOf, Dependencies(modules)))
    decreases |modules| - i
  {
    if i == |modules| {
      assert modules[..i] == modules;
    } else {
      DependenciesStep(modules, i);
      var done := Dependencies(modules[..i]);
      if modules[i].dep {
        EntryStep(idOf, done, modules[i], "");
      } else {
        assert done + [] == done;
      }
      PrefixNoDup(idOf, modules, i + 1);
    }
  }

  /** `make_sbom` and `make_package_sbom` go on only with an exact Go release and distinct ids. */
  predicate Buildable(ctx: Context, modules: seq<Module>) {
    ExactGoRelease(ctx.goVersion) && NoDup(Map(ModuleId, Dependencies(modules)))
  }

  function FileChecksums(sha1: string, sha256: string): seq<Checksum> {
    [Checksum("SHA1", sha1), Checksum("SHA256", sha256)]
  }

  function SubjectPackage(tools: Tools, id: string, version: string, sha1: string, sha256: string, purl: Option<string>)
    : Package
  {
    Package(id, PRODUCT, version, true, FileChecksums(sha1, sha256), Some(tools.sha1Text(sha1)), [NONE], NONE, NONE, NONE, purl)
  }

  function SubjectFile(id: string, fileName: string, sha1: string, sha256: string): File {
    File(id, fileName, FileChecksums(sha1, sha256), NONE, [NONE], NONE)
  }

  /** `make_sbom` on a buildable module list. */
  function MakeSbom(tools: Tools, ctx: Context, t: Target, fileName: string, sha1: string, sha256: string,
                    modules: seq<Module>): Document
  {
    var (packages, relationships) := EntriesOf(Dependencies(modules), CONNECTOR_ID);
    Document("SPDX-2.3", "CC0-1.0", fileName + ".spdx",
             "https://sub2api-codex.invalid/spdx/"
             + tools.sha256Text(sha256 + ":" + TargetId(t) + ":" + ctx.version),
             tools.iso8601(ctx.epoch), "Tool: sub2api-codex-release/1",
             SbomHead(tools, ctx, sha1, sha256) + packages,
             [SubjectFile(CONNECTOR_FILE_ID, fileName, sha1, sha256)],
             SbomEdges() + relationships)
  }

  function PackagePurl(ctx: Context, t: Target, format: Format): string {
    "pkg:generic/" + PRODUCT + "@" + ctx.version + "?os=" + OsName(t.os) + "&arch=" + t.arch + "&type=" + FormatName(format)
  }

  function IdOfPackage(p: Package): string { p.id }
  function Contains(parent: string): string -> Relationship { id => Relationship(parent, "CONTAINS", id) }

  /** `make_package_sbom` on a buildable module list. */
  function MakePackageSbom(tools: Tools, ctx: Context, t: Target, format: Format, fileName: string, sha1: string,
                           sha256: string, modules: seq<Module>): Document
  {
    var (packages, relationships) := EntriesOf(Dependencies(modules), CONNECTOR_ID);
    var contained := [ConnectorComponent(ctx.version), StdlibPackage(ctx.goVersion)] + packages;
    Document("SPDX-2.3", "CC0-1.0", fileName + ".spdx",
             "https://sub2api-codex.invalid/spdx/"
             + tools.sha256Text(sha256 + ":" + TargetId(t) + ":" + FormatName(format)),
             tools.iso8601(ctx.epoch), "Tool: sub2api-codex-release/2",
             [SubjectPackage(tools, INSTALLER_ID, ctx.version, sha1, sha256, Some(PackagePurl(ctx, t, format)))] + contained,
             [SubjectFile(INSTALLER_FILE_ID, fileName, sha1, sha256)],
             [Relationship("SPDXRef-DOCUMENT", "DESCRIBES", INSTALLER_ID),
              Relationship(INSTALLER_ID, "CONTAINS", INSTALLER_FILE_ID)]
             + Map(Contains(INSTALLER_ID), Map(IdOfPackage, contained))
             + ([Relationship(CONNECTOR_ID, "DEPENDS_ON", STDLIB_ID)] + relationships))
  }

  // ----- Checks -----

  predicate IsStdlib(p: Package) { p.id == STDLIB_ID }
  predicate IsConnector(p: Package) { p.id == CONNECTOR_ID }

  predicate SubjectMatches(tools: Tools, found: seq<Package>, sha1: string, sha256: string, version: string) {
    && found != []
    && found[0].name == PRODUCT && found[0].version == version && found[0].filesAnalyzed
    && found[0].checksums == FileChecksums(sha1, sha256)
    && found[0].verificationCode == Some(tools.sha1Text(sha1))
    && found[0].licenseInfoFromFiles == [NONE]
    && found[0].licenseConcluded == NONE && found[0].licenseDeclared == NONE
  }

  predicate BinaryMatches(found: seq<File>, sha1: string, sha256: string) {
    && found != []
    && found[0].checksums == FileChecksums(sha1, sha256)
    && found[0].licenseConcluded == NONE && found[0].licenseInfoInFiles == [NONE]
  }

  function HasFileName(name: string): File -> bool { (f: File) => f.fileName == name }

  /** `verify_sbom`, given the SHA-1 of the artifact bytes. */
  predicate VerifySbom(tools: Tools, doc: Document, sha1: string, artifact: FileEntry, ctx: Context) {
    && doc.spdxVersion == "SPDX-2.3" && doc.dataLicense == "CC0-1.0"
    && ExactGoRelease(ctx.goVersion)
    && SubjectMatches(tools, Select(IsConnector, doc.packages), sha1, artifact.sha256, ctx.version)
    && BinaryMatches(Select(HasFileName(artifact.filename), doc.files), sha1, artifact.sha256)
    && Select(IsStdlib, doc.packages) == [StdlibPackage(ctx.goVersion)]
    && multiset(doc.relationships)[StdlibEdge()] == 1
  }

  function StdlibEdge(): Relationship { Relationship(CONNECTOR_ID, "DEPENDS_ON", STDLIB_ID) }

  function SbomHead(tools: Tools, ctx: Context, sha1: string, sha256: string): seq<Package> {
    [SubjectPackage(tools, CONNECTOR_ID, ctx.version, sha1, sha256, None), StdlibPackage(ctx.goVersion)]
  }

  function SbomEdges(): seq<Relationship> {
    [Relationship("SPDXRef-DOCUMENT", "DESCRIBES", CONNECTOR_ID),
     Relationship(CONNECTOR_ID, "CONTAINS", CONNECTOR_FILE_ID),
     StdlibEdge()]
  }

  predicate ConnectorDepends(r: Relationship) { r.element == CONNECTOR_ID && r.kind == "DEPENDS_ON" }
  function Related(r: Relationship): string { r.related }

  /** A dictionary built by assignment in list order: a later package replaces an earlier one. */
  function ById(packages: seq<Package>): map<string, Package> {
    if packages == [] then map[]
    else var last := packages[|packages| - 1]; ById(packages[..|packages| - 1])[last.id := last]
  }

  function Lookup(byId: map<string, Package>, ids: seq<string>): seq<Package>
    requires forall id :: id in ids ==> id in byId
  {
    seq(|ids|, i requires 0 <= i < |ids| => byId[ids[i]])
  }

  predicate InstallerMatches(tools: Tools, described: Package, file: File, sha1: string, artifact: FileEntry,
                             purl: string, version: string)
  {
    && described.id == INSTALLER_ID && described.name == PRODUCT && described.version == version
    && described.filesAnalyzed
    && described.checksums == FileChecksums(sha1, artifact.sha256)
    && described.verificationCode == Some(tools.sha1Text(sha1))
    && described.licenseInfoFromFiles == [NONE] && described.licenseConcluded == NONE
    && described.licenseDeclared == NONE && described.copyrightText == NONE
    && described.purl == Some(purl)
    && file.id == INSTALLER_FILE_ID && file.fileName == artifact.filename
    && file.checksums == FileChecksums(sha1, artifact.sha256)
    && file.licenseConcluded == NONE && file.licenseInfoInFiles == [NONE] && file.copyrightText == NONE
  }

  function InstallerEdges(contained: seq<Package>, ids: seq<string>): seq<Relationship> {
    [Relationship("SPDXRef-DOCUMENT", "DESCRIBES", INSTALLER_ID),
     Relationship(INSTALLER_ID, "CONTAINS", INSTALLER_FILE_ID)]
    + Map(Contains(INSTALLER_ID), Map(IdOfPackage, contained))
    + Map(DependsOn(CONNECTOR_ID), ids)
  }

  /** The dependency closure the Connector document declares, when it is sound. */
  predicate ClosureSound(lib: string, ids: seq<string>, byId: map<string, Package>, stdlib: Package) {
    && NoDup(ids) && (forall id :: id in ids ==> id in byId)
    && multiset(ids)[lib] == 1 && lib in byId && byId[lib] == stdlib
  }

  /** `verify_package_sbom`: the package document against the Connector document beside it. */
  predicate VerifyPackageSbom(tools: Tools, doc: Document, connectorDoc: Document, sha1: string,
                              artifact: FileEntry, format: Format, t: Target, ctx: Context)
  {
    var ids := Map(Related, Select(ConnectorDepends, connectorDoc.relationships));
    var byId := ById(connectorDoc.packages);
    && doc.spdxVersion == "SPDX-2.3" && doc.dataLicense == "CC0-1.0"
    && doc.packages != [] && |doc.files| == 1
    && ExactGoRelease(ctx.goVersion)
    && ClosureSound(STDLIB_ID, ids, byId, StdlibPackage(ctx.goVersion))
    && InstallerMatches(tools, doc.packages[0], doc.files[0], sha1, artifact, PackagePurl(ctx, t, format), ctx.version)
    && doc.packages[1..] == [ConnectorComponent(ctx.version)] + Lookup(byId, ids)
    && doc.relationships == InstallerEdges([ConnectorComponent(ctx.version)] + Lookup(byId, ids), ids)
  }

  // ----- What finalization writes against what verification accepts -----

  /** No dependency takes the identifier reserved for the Go standard library. */
  predicate StdlibReserved(modules: seq<Module>) {
    STDLIB_ID !in Map(ModuleId, Dependencies(modules))
  }

  lemma StdlibOnce(deps: seq<Module>, head: seq<Package>, stdlib: Package)
    requires Select(IsStdlib, head) == [stdlib]
    ensures Select(IsStdlib, head + Map(DependencyPackage, deps)) == [stdlib]
            <==> STDLIB_ID !in Map(ModuleId, deps)
  {
    var packages := Map(DependencyPackage, deps);
    SelectAppend(IsStdlib, head, packages);
    if STDLIB_ID !in Map(ModuleId, deps) {
      forall p | p in packages ensures !IsStdlib(p) {
        var i :| 0 <= i < |packages| && packages[i] == p;
        assert Map(ModuleId, deps)[i] == p.id;
      }
      SelectNone(IsStdlib, packages);
    } else {
      var i :| 0 <= i < |deps| && Map(ModuleId, deps)[i] == STDLIB_ID;
      assert packages[i] in packages && IsStdlib(packages[i]);
      SelectMembers(IsStdlib, packages, packages[i]);
    }
  }

  lemma StdlibEdgeOnce(ids: seq<string>)
    ensures multiset(SbomEdges() + Map(DependsOn(CONNECTOR_ID), ids))[StdlibEdge()] == 1 <==> STDLIB_ID !in ids
  {
    var edges := Map(DependsOn(CONNECTOR_ID), ids);
    assert multiset(SbomEdges() + edges) == multiset(SbomEdges()) + multiset(edges);
    assert multiset(SbomEdges())[StdlibEdge()] == 1 by { assert "DESCRIBES" != "DEPENDS_ON" && "CONTAINS" != "DEPENDS_ON"; }
    if STDLIB_ID in ids {
      var i :| 0 <= i < |ids| && ids[i] == STDLIB_ID;
      assert edges[i] == StdlibEdge();
    } else {
      assert StdlibEdge() !in edges;
    }
  }

  lemma SubjectFound(tools: Tools, ctx: Context, sha1: string, sha256: string, rest: seq<Package>)
    ensures SubjectMatches(tools, Select(IsConnector, SbomHead(tools, ctx, sha1, sha256) + rest), sha1, sha256, ctx.version)
  {
    var head := SbomHead(tools, ctx, sha1, sha256);
    SelectAppend(IsConnector, head, rest);
    HeadSelection(head[0], head[1]);
    assert ([head[0]] + Select(IsConnector, rest))[0] == head[0];
  }

  lemma BinaryFound(fileName: string, sha1: string, sha256: string)
    ensures BinaryMatches(Select(HasFileName(fileName), [SubjectFile(CONNECTOR_FILE_ID, fileName, sha1, sha256)]), sha1, sha256)
  {
    SelectAll(HasFileName(fileName), [SubjectFile(CONNECTOR_FILE_ID, fileName, sha1, sha256)]);
  }

  /** The artifact SBOM is accepted exactly when the standard-library identifier stays reserved. */
  lemma SbomAccepted(tools: Tools, ctx: Context, t: Target, artifact: FileEntry, sha1: string, modules: seq<Module>)
    requires Buildable(ctx, modules)
    ensures VerifySbom(tools, MakeSbom(tools, ctx, t, artifact.filename, sha1, artifact.sha256, modules), sha1, artifact, ctx)
            <==> StdlibReserved(modules)
  {
    var deps := Dependencies(modules);
    SubjectFound(tools, ctx, sha1, artifact.sha256, Map(DependencyPackage, deps));
    BinaryFound(artifact.filename, sha1, artifact.sha256);
    HeadSelection(SbomHead(tools, ctx, sha1, artifact.sha256)[0], StdlibPackage(ctx.goVersion));
    StdlibOnce(deps, SbomHead(tools, ctx, sha1, artifact.sha256), StdlibPackage(ctx.goVersion));
    StdlibEdgeOnce(Map(ModuleId, deps));
  }

  lemma HeadSelection(connector: Package, stdlib: Package)
    requires connector.id == CONNECTOR_ID && stdlib.id == STDLIB_ID
    ensures Select(IsConnector, [connector, stdlib]) == [connector]
    ensures Select(IsStdlib, [connector, stdlib]) == [stdlib]
  {
    assert |CONNECTOR_ID| != |STDLIB_ID|;
    assert [connector, stdlib][1..] == [stdlib] && [stdlib][1..] == [];
    assert Select(IsConnector, [stdlib]) == [] && Select(IsStdlib, [stdlib]) == [stdlib];
  }

  // ----- The package document -----

  lemma DeclaredDependencies(ids: seq<string>)
    ensures Map(Related, Select(ConnectorDepends, SbomEdges() + Map(DependsOn(CONNECTOR_ID), ids))) == [STDLIB_ID] + ids
  {
    EdgeSelection();
    assert Map(Related, Map(DependsOn(CONNECTOR_ID), ids)) == ids;
    SelectedAfter(ConnectorDepends, Related, SbomEdges(), StdlibEdge(), Map(DependsOn(CONNECTOR_ID), ids));
  }

  lemma SelectedAfter<T, U>(test: T -> bool, f: T -> U, head: seq<T>, kept: T, tail: seq<T>)
    requires Select(test, head) == [kept] && forall x :: x in tail ==> test(x)
    ensures Map(f, Select(test, head + tail)) == [f(kept)] + Map(f, tail)
  {
    SelectAppend(test, head, tail);
    SelectAll(test, tail);
    MapAppend(f, [kept], tail);
  }

  lemma EdgeSelection()
    ensures Select(ConnectorDepends, SbomEdges()) == [StdlibEdge()]
  {
    var describes := Relationship("SPDXRef-DOCUMENT", "DESCRIBES", CONNECTOR_ID);
    var contains := Relationship(CONNECTOR_ID, "CONTAINS", CONNECTOR_FILE_ID);
    assert |"SPDXRef-DOCUMENT"| != |CONNECTOR_ID| && |"CONTAINS"| != |"DEPENDS_ON"|;
    assert SbomEdges() == [describes, contains] + [StdlibEdge()];
    SelectAppend(ConnectorDepends, [describes, contains], [StdlibEdge()]);
    SelectNone(ConnectorDepends, [describes, contains]);
    SelectAll(ConnectorDepends, [StdlibEdge()]);
  }

  /** With distinct identifiers the dictionary returns every listed package under its own id. */
  lemma {:induction false} ByIdFinds(packages: seq<Package>)
    requires NoDup(Map(IdOfPackage, packages))
    ensures ById(packages).Keys == Elems(Map(IdOfPackage, packages))
    ensures Found(ById(packages), packages)
  {
    if packages != [] {
      var init, last := packages[..|packages| - 1], packages[|packages| - 1];
      assert packages == init + [last];
      MapAppend(IdOfPackage, init, [last]);
      assert Map(IdOfPackage, [last]) == [last.id];
      NoDupConcat(Map(IdOfPackage, init), [last.id]);
      ByIdFinds(init);
      forall i | 0 <= i < |packages| ensures packages[i].id in ById(packages) && ById(packages)[packages[i].id] == packages[i] {
        if i < |init| {
          assert Map(IdOfPackage, init)[i] == packages[i].id;
        }
      }
    }
  }

  lemma DependencyPackageIds(deps: seq<Module>)
    ensures Map(IdOfPackage, Map(DependencyPackage, deps)) == Map(ModuleId, deps)
  {
  }

  lemma HeadDistinct(deps: seq<Module>, ids: seq<string>)
    requires ids == Map(ModuleId, deps) && NoDup(ids) && STDLIB_ID !in ids
    ensures NoDup([CONNECTOR_ID, STDLIB_ID] + ids)
  {
    forall id | id in ids ensures id != CONNECTOR_ID {
      var i :| 0 <= i < |ids| && ids[i] == id;
      ModuleIdNotConnector(deps[i]);
    }
    assert |CONNECTOR_ID| != |STDLIB_ID|;
    NoDupConcat([CONNECTOR_ID, STDLIB_ID], ids);
  }

  /** The closure read back from the Connector document is the standard library and the
      dependencies in order, and it is sound exactly when the standard-library id is reserved. */
  lemma ClosureReadBack(connector: Package, stdlib: Package, deps: seq<Module>)
    requires connector.id == CONNECTOR_ID && stdlib.id == STDLIB_ID && NoDup(Map(ModuleId, deps))
    ensures ClosureSound(STDLIB_ID, [STDLIB_ID] + Map(ModuleId, deps), ById([connector, stdlib] + Map(DependencyPackage, deps)), stdlib)
            <==> STDLIB_ID !in Map(ModuleId, deps)
    ensures STDLIB_ID !in Map(ModuleId, deps) ==>
              Lookup(ById([connector, stdlib] + Map(DependencyPackage, deps)), [STDLIB_ID] + Map(ModuleId, deps))
              == [stdlib] + Map(DependencyPackage, deps)
  {
    NoDupConcat([STDLIB_ID], Map(ModuleId, deps));
    if STDLIB_ID !in Map(ModuleId, deps) {
      SoundWhenReserved(connector, stdlib, Map(DependencyPackage, deps), deps, Map(ModuleId, deps));
    }
  }

  lemma SoundWhenReserved(connector: Package, stdlib: Package, rest: seq<Package>, deps: seq<Module>, depIds: seq<string>)
    requires connector.id == CONNECTOR_ID && stdlib.id == STDLIB_ID
    requires rest == Map(DependencyPackage, deps) && depIds == Map(ModuleId, deps)
    requires NoDup(depIds) && STDLIB_ID !in depIds
    ensures ClosureSound(STDLIB_ID, [STDLIB_ID] + depIds, ById([connector, stdlib] + rest), stdlib)
    ensures Lookup(ById([connector, stdlib] + rest), [STDLIB_ID] + depIds) == [stdlib] + rest
  {
    HeadDistinct(deps, depIds);
    DependencyPackageIds(deps);
    SoundOver(CONNECTOR_ID, STDLIB_ID, connector, stdlib, rest, depIds);
  }

  lemma SoundOver(main: string, lib: string, connector: Package, stdlib: Package, rest: seq<Package>, depIds: seq<string>)
    requires connector.id == main && stdlib.id == lib && Map(IdOfPackage, rest) == depIds
    requires NoDup([main, lib] + depIds) && lib !in depIds
    ensures ClosureSound(lib, [lib] + depIds, ById([connector, stdlib] + rest), stdlib)
    ensures Lookup(ById([connector, stdlib] + rest), [lib] + depIds) == [stdlib] + rest
  {
    FoundById(connector, stdlib, rest);
    WithoutFirst(main, lib, depIds);
    ReadBack(lib, stdlib, rest, depIds, ById([connector, stdlib] + rest));
  }

  ghost predicate Found(byId: map<string, Package>, packages: seq<Package>) {
    forall i :: 0 <= i < |packages| ==> packages[i].id in byId && byId[packages[i].id] == packages[i]
  }

  lemma FoundById(connector: Package, stdlib: Package, rest: seq<Package>)
    requires NoDup([connector.id, stdlib.id] + Map(IdOfPackage, rest))
    ensures Found(ById([connector, stdlib] + rest), [stdlib]) && Found(ById([connector, stdlib] + rest), rest)
  {
    PackageIds(connector, stdlib, rest);
    ByIdFinds([connector, stdlib] + rest);
    FoundPart(ById([connector, stdlib] + rest), [connector, stdlib], rest);
    assert [connector, stdlib] == [connector] + [stdlib];
    FoundPart(ById([connector, stdlib] + rest), [connector], [stdlib]);
  }

  lemma FoundPart(byId: map<string, Package>, a: seq<Package>, b: seq<Package>)
    requires Found(byId, a + b)
    ensures Found(byId, a) && Found(byId, b)
  {
    forall i | 0 <= i < |a| ensures a[i].id in byId && byId[a[i].id] == a[i] { assert (a + b)[i] == a[i]; }
    forall i | 0 <= i < |b| ensures b[i].id in byId && byId[b[i].id] == b[i] { assert (a + b)[|a| + i] == b[i]; }
  }

  lemma WithoutFirst<T>(a: T, b: T, rest: seq<T>)
    requires NoDup([a, b] + rest)
    ensures NoDup([b] + rest)
  {
    assert [a, b] + rest == [a] + ([b] + rest);
    NoDupConcat([a], [b] + rest);
  }

  lemma PackageIds(connector: Package, stdlib: Package, rest: seq<Package>)
    ensures Map(IdOfPackage, [connector, stdlib] + rest) == [connector.id, stdlib.id] + Map(IdOfPackage, rest)
  {
  }

  lemma ReadBack(lib: string, stdlib: Package, rest: seq<Package>, depIds: seq<string>, byId: map<string, Package>)
    requires stdlib.id == lib && depIds == Map(IdOfPackage, rest) && lib !in depIds && NoDup([lib] + depIds)
    requires Found(byId, [stdlib]) && Found(byId, rest)
    ensures ClosureSound(lib, [lib] + depIds, byId, stdlib)
    ensures Lookup(byId, [lib] + depIds) == [stdlib] + rest
  {
    var ids := [lib] + depIds;
    assert multiset(ids) == multiset{lib} + multiset(depIds);
    assert [stdlib][0] == stdlib;
    forall i | 0 <= i < |ids| ensures ids[i] in byId && byId[ids[i]] == ([stdlib] + rest)[i] {
      if i > 0 { assert ids[i] == depIds[i - 1] == rest[i - 1].id; }
    }
  }

  /** The package SBOM is accepted exactly when the standard-library identifier stays reserved. */
  lemma PackageSbomAccepted(tools: Tools, ctx: Context, t: Target, format: Format, connector: FileEntry,
                            connectorSha1: string, artifact: FileEntry, sha1: string, modules: seq<Module>)
    requires Buildable(ctx, modules)
    ensures VerifyPackageSbom(
              tools, MakePackageSbom(tools, ctx, t, format, artifact.filename, sha1, artifact.sha256, modules),
              MakeSbom(tools, ctx, t, connector.filename, connectorSha1, connector.sha256, modules),
              sha1, artifact, format, t, ctx)
            <==> StdlibReserved(modules)
  {
    var deps := Dependencies(modules);
    var head := SbomHead(tools, ctx, connectorSha1, connector.sha256);
    DeclaredDependencies(Map(ModuleId, deps));
    ClosureReadBack(head[0], head[1], deps);
    MadeSubject(tools, ctx, t, format, artifact, sha1, modules);
    MadeEdges(tools, ctx, t, format, artifact, sha1, modules);
  }

  lemma MadeSubject(tools: Tools, ctx: Context, t: Target, format: Format, artifact: FileEntry, sha1: string,
                    modules: seq<Module>)
    ensures var doc := MakePackageSbom(tools, ctx, t, format, artifact.filename, sha1, artifact.sha256, modules);
      && doc.spdxVersion == "SPDX-2.3" && doc.dataLicense == "CC0-1.0" && doc.packages != [] && |doc.files| == 1
      && InstallerMatches(tools, doc.packages[0], doc.files[0], sha1, artifact, PackagePurl(ctx, t, format), ctx.version)
      && doc.packages[1..] == [ConnectorComponent(ctx.version)]
                              + ([StdlibPackage(ctx.goVersion)] + Map(DependencyPackage, Dependencies(modules)))
  {
    Tail(SubjectPackage(tools, INSTALLER_ID, ctx.version, sha1, artifact.sha256, Some(PackagePurl(ctx, t, format))),
         ConnectorComponent(ctx.version), StdlibPackage(ctx.goVersion), Map(DependencyPackage, Dependencies(modules)));
  }

  lemma Tail(subject: Package, component: Package, stdlib: Package, rest: seq<Package>)
    ensures ([subject] + ([component, stdlib] + rest))[0] == subject
    ensures ([subject] + ([component, stdlib] + rest))[1..] == [component] + ([stdlib] + rest)
    ensures [component, stdlib] + rest == [component] + ([stdlib] + rest)
  {
  }

  lemma MadeEdges(tools: Tools, ctx: Context, t: Target, format: Format, artifact: FileEntry, sha1: string,
                  modules: seq<Module>)
    ensures MakePackageSbom(tools, ctx, t, format, artifact.filename, sha1, artifact.sha256, modules).relationships
         == InstallerEdges([ConnectorComponent(ctx.version)]
                           + ([StdlibPackage(ctx.goVersion)] + Map(DependencyPackage, Dependencies(modules))),
                           [STDLIB_ID] + Map(ModuleId, Dependencies(modules)))
  {
    FirstEdge(Map(ModuleId, Dependencies(modules)));
    Tail(ConnectorComponent(ctx.version), ConnectorComponent(ctx.version), StdlibPackage(ctx.goVersion),
         Map(DependencyPackage, Dependencies(modules)));
  }

  lemma FirstEdge(ids: seq<string>)
    ensures Map(DependsOn(CONNECTOR_ID), [STDLIB_ID] + ids) == [StdlibEdge()] + Map(DependsOn(CONNECTOR_ID), ids)
  {
  }
}
