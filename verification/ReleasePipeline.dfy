/** The release directory as a map from names to contents, and the documents finalization writes. */
module ReleasePipeline {
  import opened Sequences
  import opened Text
  import opened ReleaseManifest
  import opened CoreAssets
  import opened ReleaseInventory
  import opened Sbom
  import opened Provenance

  datatype Evidence =
    | ExecutableSigned(target: string, artifact: string, sha256: string, team: string, identity: string)
    | RpmSigned(target: string, package: string, sha256: string, fingerprint: string, publicKey: string, keySha256: string)
    | PkgSigned(target: string, package: string, sha256: string, team: string, application: string, installer: string)

  /** `native_evidence` and the reproducible candidate of one package in the work state. */
  datatype PackageRecord = PackageRecord(format: Format, candidate: Option<(string, nat)>, evidence: Option<string>)
  datatype Record = Record(target: Target, unsignedSha256: string, unsignedSize: nat, packages: seq<PackageRecord>)
  datatype State = State(mode: Mode, context: Context, records: seq<Record>)

  /** Canonical JSON is injective, so a document stands for its bytes. */
  datatype Content =
    | Payload(bytes: seq<Byte>)
    | StateDoc(state: State)
    | EvidenceDoc(evidence: Evidence)
    | SbomDoc(document: Document)
    | StatementDoc(statement: Statement)
    | PackageStatementDoc(packageStatement: PackageStatement)
    | ManifestDoc(manifest: Manifest)
    | MetadataDoc(described: Manifest, manifestSha256: string, manifestSize: nat)
    | ChecksumsDoc(lines: seq<(string, string)>)
    | MarkerDoc

  type Dir = map<string, Content>

  /** What the tool cannot compute itself: hashes, sizes and the Go module table of a binary. */
  datatype Oracle = Oracle(
    tools: Tools, sha256: Content -> string, sha1: Content -> string, size: Content -> nat,
    modules: Content -> Option<seq<Module>>)

  function Get(dir: Dir, name: string): Content { if name in dir then dir[name] else Payload([]) }

  function EntryOf(o: Oracle, dir: Dir, name: string): FileEntry {
    FileEntry(name, o.sha256(Get(dir, name)), o.size(Get(dir, name)), BundleName(name))
  }

  // ----- Names before finalization -----

  function ArtifactOf(s: State, r: Record): string { ArtifactName(s.context.version, r.target) }
  function PackageOf(s: State, r: Record, p: PackageRecord): string { PackageName(s.context.version, r.target, p.format) }

  function PackagePayloads(s: State, r: Record): PackageRecord -> seq<string> {
    p => [PackageOf(s, r, p)]
         + (if p.evidence.Some? then [p.evidence.value] + (if p.format.Rpm? then [SigningKeyName(r.target)] else []) else [])
  }

  /** The entries `validate_pre_finalize_inventory` expects for one target. */
  function RecordPayloads(s: State): Record -> seq<string> {
    r => [ArtifactOf(s, r)]
         + (if s.mode.Release? then
              (if r.target.os.Darwin? then [ExecutableEvidenceName(r.target)] else [])
              + FlatMap(PackagePayloads(s, r), r.packages)
            else [])
  }

  function PreNames(s: State): set<string> { {WORK_STATE} + Elems(FlatMap(RecordPayloads(s), s.records)) }

  // ----- Documents written per target -----

  function ModulesOf(o: Oracle, c: Content): seq<Module> {
    match o.modules(c) case Some(ms) => ms case None => []
  }

  function ArtifactSbom(o: Oracle, dir: Dir, s: State, r: Record): Content {
    var name := ArtifactOf(s, r);
    var c := Get(dir, name);
    SbomDoc(MakeSbom(o.tools, s.context, r.target, name, o.sha1(c), o.sha256(c), ModulesOf(o, c)))
  }

  function ResolvedOf(o: Oracle, ctx: Context, modules: seq<Module>): seq<Resolved> {
    ResolvedHead(ctx) + if Resolvable(o.tools, Dependencies(modules)) then ResolveAll(o.tools, Dependencies(modules)) else []
  }

  function ArtifactStatement(o: Oracle, dir: Dir, s: State, r: Record): Content {
    var name := ArtifactOf(s, r);
    var c := Get(dir, name);
    StatementDoc(StatementOf(s.context, r.target, name, o.sha256(c), ResolvedOf(o, s.context, ModulesOf(o, c)),
                             r.unsignedSha256, r.unsignedSize))
  }

  function PackageSbom(o: Oracle, dir: Dir, s: State, r: Record, p: PackageRecord): Content {
    var name := PackageOf(s, r, p);
    var c := Get(dir, name);
    SbomDoc(MakePackageSbom(o.tools, s.context, r.target, p.format, name, o.sha1(c), o.sha256(c),
                            ModulesOf(o, Get(dir, ArtifactOf(s, r)))))
  }

  function CandidateOf(p: PackageRecord): (string, nat) { match p.candidate case Some(c) => c case None => ("", 0) }

  function PackageStatementOf(o: Oracle, dir: Dir, s: State, r: Record, p: PackageRecord): Content {
    var name := PackageOf(s, r, p);
    PackageStatementDoc(MakePackageProvenance(s.context, r.target, p.format, name, o.sha256(Get(dir, name)),
                                              o.sha256(Get(dir, ArtifactOf(s, r))), CandidateOf(p).0, CandidateOf(p).1))
  }

  function PackageDocs(o: Oracle, dir: Dir, s: State, r: Record): PackageRecord -> seq<(string, Content)> {
    p => [(SbomName(PackageOf(s, r, p)), PackageSbom(o, dir, s, r, p)),
          (ProvenanceName(PackageOf(s, r, p)), PackageStatementOf(o, dir, s, r, p))]
  }

  function RecordDocs(o: Oracle, dir: Dir, s: State): Record -> seq<(string, Content)> {
    r => [(SbomName(ArtifactOf(s, r)), ArtifactSbom(o, dir, s, r)),
          (ProvenanceName(ArtifactOf(s, r)), ArtifactStatement(o, dir, s, r))]
         + (if s.mode.Release? then FlatMap(PackageDocs(o, dir, s, r), r.packages) else [])
  }

  // ----- Manifest entries -----

  function EntryFor(name: string, c: Content, o: Oracle): FileEntry {
    FileEntry(name, o.sha256(c), o.size(c), BundleName(name))
  }

  function NativeFor(o: Oracle, dir: Dir, s: State, r: Record): Native {
    if r.target.os.Linux? then NotRequired
    else if s.mode.LocalUnsigned? then NotPerformed
    else
      var name := ExecutableEvidenceName(r.target);
      match Get(dir, name)
      case EvidenceDoc(ExecutableSigned(_, _, _, team, identity)) => AppleVerified(team, identity, EntryOf(o, dir, name))
      case _ => AppleVerified("", "", EntryOf(o, dir, name))
  }

  function PackageNativeFor(o: Oracle, dir: Dir, r: Record, p: PackageRecord): PackageNative {
    var name := PackageEvidenceName(r.target, p.format);
    match p.format
    case Deb => Unsigned
    case Rpm =>
      RpmVerified(match Get(dir, name) case EvidenceDoc(RpmSigned(_, _, _, fingerprint, _, _)) => fingerprint case _ => "",
                  EntryOf(o, dir, name), EntryOf(o, dir, SigningKeyName(r.target)))
    case Pkg =>
      match Get(dir, name)
      case EvidenceDoc(PkgSigned(_, _, _, team, application, installer)) =>
        PkgVerified(team, application, installer, EntryOf(o, dir, name))
      case _ => PkgVerified("", "", "", EntryOf(o, dir, name))
  }

  function PackageEntryFor(o: Oracle, dir: Dir, s: State, r: Record): PackageRecord -> PackageEntry {
    p => var name := PackageOf(s, r, p);
         PackageEntry(p.format, ArtifactEntry(EntryOf(o, dir, name), CandidateOf(p).0, CandidateOf(p).1),
                      EntryFor(SbomName(name), PackageSbom(o, dir, s, r, p), o),
                      ProvenanceEntry(EntryFor(ProvenanceName(name), PackageStatementOf(o, dir, s, r, p), o),
                                      AttestationName(name)),
                      PackageNativeFor(o, dir, r, p))
  }

  function TargetEntryFor(o: Oracle, dir: Dir, s: State): Record -> TargetEntry {
    r => var name := ArtifactOf(s, r);
         TargetEntry(r.target, ArtifactEntry(EntryOf(o, dir, name), r.unsignedSha256, r.unsignedSize),
                     EntryFor(SbomName(name), ArtifactSbom(o, dir, s, r), o),
                     ProvenanceEntry(EntryFor(ProvenanceName(name), ArtifactStatement(o, dir, s, r), o),
                                     AttestationName(name)),
                     NativeFor(o, dir, s, r),
                     if s.mode.Release? then Map(PackageEntryFor(o, dir, s, r), r.packages) else [])
  }

  function ManifestFor(o: Oracle, dir: Dir, s: State): Manifest {
    Manifest(s.mode, s.context, Map(TargetEntryFor(o, dir, s), s.records),
             if s.mode.LocalUnsigned? then Some(LOCAL_MARKER) else None,
             if s.mode.Release? then Some(MetadataRef(RELEASE_METADATA, BundleName(RELEASE_METADATA))) else None,
             BundleName(MANIFEST), BundleName(CHECKSUMS))
  }

  // ----- When finalization goes through -----

  predicate Unchanged(o: Oracle, c: Content, sha256: string, size: nat) {
    o.sha256(c) == sha256 && o.size(c) == size
  }

  /** The per-package conditions of `validate_work_state` and `finalize_package_entries`. */
  predicate PackageReady(o: Oracle, dir: Dir, s: State, r: Record, p: PackageRecord) {
    var c := Get(dir, PackageOf(s, r, p));
    var name := PackageEvidenceName(r.target, p.format);
    && p.candidate.Some?
    && match p.format
       case Deb => p.evidence.None? && Unchanged(o, c, p.candidate.value.0, p.candidate.value.1)
       case Rpm =>
         && p.evidence == Some(name)
         && (match Get(dir, name)
             case EvidenceDoc(RpmSigned(target, package, sha256, _, key, keySha256)) =>
               && target == TargetId(r.target) && package == PackageOf(s, r, p) && sha256 == o.sha256(c)
               && key == SigningKeyName(r.target) && keySha256 == o.sha256(Get(dir, key))
             case _ => false)
       case Pkg =>
         && p.evidence == Some(name)
         && (match (Get(dir, name), NativeFor(o, dir, s, r))
             case (EvidenceDoc(PkgSigned(target, package, sha256, team, application, _)), AppleVerified(team', identity, _)) =>
               && target == TargetId(r.target) && package == PackageOf(s, r, p) && sha256 == o.sha256(c)
               && team == team' && application == identity
             case _ => false)
  }

  function FormatOf(p: PackageRecord): Format { p.format }

  /** The artifact part of `finalize`'s loop body. */
  predicate OwnReady(o: Oracle, dir: Dir, s: State, r: Record) {
    var c := Get(dir, ArtifactOf(s, r));
    && (s.mode.LocalUnsigned? || r.target.os.Linux? ==> Unchanged(o, c, r.unsignedSha256, r.unsignedSize))
    && (s.mode.Release? && r.target.os.Darwin? ==>
          match Get(dir, ExecutableEvidenceName(r.target))
          case EvidenceDoc(ExecutableSigned(target, artifact, sha256, _, _)) =>
            target == TargetId(r.target) && artifact == ArtifactOf(s, r) && sha256 == o.sha256(c)
          case _ => false)
    && o.modules(c).Some? && Buildable(s.context, o.modules(c).value)
    && Resolvable(o.tools, Dependencies(o.modules(c).value))
  }

  /** The package list `validate_work_state` demands. */
  predicate Listed(s: State, r: Record) {
    match s.mode
    case LocalUnsigned => r.packages == []
    case Release => Map(FormatOf, r.packages) == Formats(r.target.os)
  }

  predicate RecordReady(o: Oracle, dir: Dir, s: State, r: Record) {
    && OwnReady(o, dir, s, r) && Listed(s, r)
    && forall p :: p in r.packages ==> PackageReady(o, dir, s, r, p)
  }

  function TargetAt(r: Record): Target { r.target }

  /** A directory `finalize` accepts: its exact inventory, with every record ready. */
  predicate Ready(o: Oracle, dir: Dir, s: State) {
    && dir.Keys == PreNames(s)
    && s.records != [] && NoDup(Map(TargetAt, s.records))
    && forall r :: r in s.records ==> RecordReady(o, dir, s, r)
  }

  // ----- The finalized directory -----

  function AllDocs(o: Oracle, dir: Dir, s: State): seq<(string, Content)> { FlatMap(RecordDocs(o, dir, s), s.records) }

  /** Everything except the checksum file. */
  function Described(o: Oracle, dir: Dir, s: State): Dir {
    var m := ManifestFor(o, dir, s);
    var manifest := ManifestDoc(m);
    var written := Assign(dir, AllDocs(o, dir, s));
    match s.mode
    case LocalUnsigned => written[LOCAL_MARKER := MarkerDoc][MANIFEST := manifest]
    case Release => written[MANIFEST := manifest][RELEASE_METADATA := MetadataDoc(m, o.sha256(manifest), o.size(manifest))]
  }

  function ChecksumLine(o: Oracle, dir: Dir): string -> (string, string) { name => (o.sha256(Get(dir, name)), name) }

  function ChecksumsFor(o: Oracle, dir: Dir, names: seq<string>): Content {
    ChecksumsDoc(Map(ChecksumLine(o, dir), SortedNames(names)))
  }

  /** The directory a successful `finalize` leaves behind. */
  function Finalized(o: Oracle, dir: Dir, s: State): Dir {
    var d := Described(o, dir, s);
    d[CHECKSUMS := ChecksumsFor(o, d, ContentNames(ManifestFor(o, dir, s)))] - {WORK_STATE}
  }
}
