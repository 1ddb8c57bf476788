/** The vulnerability manifest as it is built from staged evidence, and as the gate reads it back. */
module ManifestBuilder {
  import opened Sequences
  import opened Sorting
  import opened Text
  import opened StagedPaths
  import opened RootPolicy
  import opened RootAdapters
  import opened ReleaseRoots
  import opened RootTargets
  import SplitDelivery

  /** A target's record in the manifest, without its report and execution fields. */
  datatype Record =
    | SourceRecord(identity: string)
    | ImageRecord(name: string, identity: string, rootId: string, image: ImageIdentity, sbom: Located)
    | PackageRecord(name: string, identity: string, rootId: string, filename: string, content: SplitDelivery.Package,
                    sbom: Located, subjectName: string)

  function NameOf(r: Record): string { if r.SourceRecord? then SOURCE else r.name }
  function RecordKind(r: Record): TargetKind {
    match r case SourceRecord(_) => SourceTarget case ImageRecord(_, _, _, _, _) => ContainerTarget case PackageRecord(_, _, _, _, _, _, _) => FileTarget
  }

  datatype Authority = SourceAuthority(commit: string, repository: string) | RootAuthority(rootId: string, kind: Kind, selector: Selector)
  datatype Subject = Subject(argument: string, path: Option<string>, hashKind: string, identity: string, sha256: string, size: nat)

  /** One scanner with its configuration and databases, whose records are kept as JSON text. */
  datatype Scanner = Scanner(
    configuration: string, databases: string, installPath: string, installSha256: string,
    binarySha256: string, binarySize: nat, name: string, version: string)

  /** A scan execution receipt; `sound` stands for the checks that do not depend on the target. */
  datatype Execution = Execution(
    identity: string, kind: TargetKind, name: string, authority: Authority, subject: Subject, scanner: Scanner,
    reportPath: string, reportSha256: string, sound: bool)

  /** Receipts and file digests by clean path, and the digest of a text. */
  datatype Scans = Scans(receipt: string -> Option<Execution>, sha256: string -> string, digest: string -> string)

  /** The policy and the staged evidence both sides read. */
  datatype Context = Context(policy: Policy, repository: string, st: Staging, ev: Evidence, scans: Scans)

  datatype Input = Input(name: string, reportPath: string, executionPath: string)
  datatype Entry = Entry(record: Record, reportPath: string, reportSha256: string, executionPath: string, executionSha256: string)
  datatype Manifest = Manifest(profile: string, source: Source, roots: seq<RootRecord>, scanner: Scanner, targets: seq<Entry>)

  // ----- One target -----

  /** `normalized_derived_target`, which the builder and the gate each have a copy of. */
  function Normalized(name: string, d: DerivedTarget): Option<Record> {
    if d.targetId != name then None
    else
      match d
      case DerivedImage(rootId, _, image, sbom) => Some(ImageRecord(name, image.digest, rootId, image, sbom))
      case DerivedFile(rootId, _, filename, sha256, size, path, delivery, sbom) =>
        if delivery.None? && path.None? then None
        else
          var used := if delivery.Some? then delivery.value
                      else SplitDelivery.Delivery(false, [SplitDelivery.Part(path.value, sha256, size, 1, 1)]);
          Some(PackageRecord(name, "sha256:" + sha256, rootId, filename, SplitDelivery.Package(sha256, size, used), sbom,
                             name + "." + sbom.sha256 + ".spdx.json"))
  }

  /** The root a generator expression finds first. */
  function FindRoot(roots: seq<RootRecord>, id: string): Option<RootRecord> {
    if roots == [] then None else if roots[0].id == id then Some(roots[0]) else FindRoot(roots[1..], id)
  }

  function Hashed(scans: Scans, argument: string, hashKind: string, identity: string, text: string): Subject {
    Subject(argument, None, hashKind, identity, scans.digest(text), |text|)
  }

  function SubjectOf(scans: Scans, source: Source, r: Record): Subject {
    match r
    case SourceRecord(identity) =>
      Hashed(scans, source.repository, "canonical-source-identity", identity, "git:" + source.repository + "@" + source.commit)
    case ImageRecord(_, identity, _, image, _) =>
      var argument := image.repository + "@" + identity;
      Hashed(scans, argument, "canonical-oci-identity", identity, "oci:" + argument)
    case PackageRecord(_, _, _, _, _, sbom, subjectName) =>
      Subject(subjectName, Some(sbom.path), "content", "sha256:" + sbom.sha256, sbom.sha256, sbom.size)
  }

  datatype Expectation = Expectation(record: Record, authority: Authority, subject: Subject)

  /** The record of a derived target with its authority and scan subject. */
  function Authorized(ctx: Context, source: Source, roots: Roots, name: string, m: Mapping, d: Derivation): Option<Expectation> {
    if !d.Derived? then None
    else
      match (Normalized(name, d.target), FindRoot(roots.records, m.root))
      case (Some(record), Some(root)) =>
        if record.ImageRecord? && record.image.repository == "" then None
        else Some(Expectation(record, RootAuthority(m.root, root.kind, m.selector), SubjectOf(ctx.scans, source, record)))
      case _ => None
  }

  function FromSource(ctx: Context, source: Source): Expectation {
    var record := SourceRecord("git:" + source.commit);
    Expectation(record, SourceAuthority(source.commit, source.repository), SubjectOf(ctx.scans, source, record))
  }

  /** What the signed roots say a target is. */
  ghost function Expected(ctx: Context, source: Source, req: Requirements, roots: Roots, name: string): Option<Expectation> {
    if name == SOURCE then Some(FromSource(ctx, source))
    else if name !in req.mappings then None
    else
      var m := req.mappings[name];
      Authorized(ctx, source, roots, name, m, Derive(roots.adapters, m.root, m.selector, ctx.ev))
  }

  predicate KindAgrees(p: Policy, r: Record) { NameOf(r) in p.targetKinds && p.targetKinds[NameOf(r)] == RecordKind(r) }

  /** `validate_execution_receipt`: the receipt a path names, if it is about this target. */
  function Validated(scans: Scans, path: string, x: Expectation): Option<Execution> {
    if path == "" || path[0] == '/' || Clean(path) == "" then None
    else
      match scans.receipt(Clean(path))
      case None => None
      case Some(e) =>
        if e.sound && e.identity == x.record.identity && e.kind == RecordKind(x.record) && e.name == NameOf(x.record)
           && e.authority == x.authority && e.subject == x.subject then Some(e) else None
  }

  /** The entry the builder records for an input, from what is expected of its target. */
  function EntryFrom(ctx: Context, input: Input, x: Expectation): Option<Entry> {
    if !KindAgrees(ctx.policy, x.record) then None
    else
      match Validated(ctx.scans, input.executionPath, x)
      case None => None
      case Some(e) =>
        if e.reportPath != input.reportPath then None
        else Some(Entry(x.record, input.reportPath, e.reportSha256, Clean(input.executionPath), ctx.scans.sha256(Clean(input.executionPath))))
  }

  ghost function EntryFor(ctx: Context, source: Source, req: Requirements, roots: Roots, input: Input): Option<Entry> {
    match Expected(ctx, source, req, roots, input.name)
    case None => None
    case Some(x) => EntryFrom(ctx, input, x)
  }

  /** The entries of a list of inputs, when each has one. */
  ghost function Entries(ctx: Context, source: Source, req: Requirements, roots: Roots, inputs: seq<Input>): Option<seq<Entry>> {
    if inputs == [] then Some([])
    else
      match (Entries(ctx, source, req, roots, inputs[..|inputs| - 1]), EntryFor(ctx, source, req, roots, inputs[|inputs| - 1]))
      case (Some(init), Some(last)) => Some(init + [last])
      case _ => None
  }

  /** The scanner an entry's receipt names, read again from its path. */
  function ScannerOf(scans: Scans, e: Entry): Option<Scanner> {
    match scans.receipt(Clean(e.executionPath)) case None => None case Some(x) => Some(x.scanner)
  }

  function EntryName(e: Entry): string { NameOf(e.record) }
  function InputName(i: Input): string { i.name }
  predicate ByName(a: Entry, b: Entry) { StrLeq(EntryName(a), EntryName(b)) }

  // ----- The builder -----

  ghost predicate OneScanner(scans: Scans, entries: seq<Entry>, scanner: Scanner) {
    forall e :: e in entries ==> ScannerOf(scans, e) == Some(scanner)
  }

  /** The manifest of a list of entries: one scanner for all, targets by name. */
  ghost function Shared(ctx: Context, profile: string, source: Source, roots: Roots, entries: seq<Entry>): Option<Manifest> {
    if entries == [] || ScannerOf(ctx.scans, entries[0]).None? then None
    else
      var scanner := ScannerOf(ctx.scans, entries[0]).value;
      if OneScanner(ctx.scans, entries, scanner) then Some(Manifest(profile, source, roots.records, scanner, Sort(ByName, entries))) else None
  }

  ghost predicate NamesMatch(p: Policy, profile: string, names: seq<string>) {
    profile in p.profiles && NoDup(names) && Elems(names) == Elems(p.profiles[profile])
  }

  /** The requirements of a profile and the roots that meet them. */
  ghost function Grounds(ctx: Context, profile: string, source: Source, ds: seq<Descriptor>): Option<(Requirements, Roots)> {
    if profile !in ctx.policy.profiles then None
    else
      match PolicyRequirements(ctx.policy, profile, ctx.policy.profiles[profile])
      case None => None
      case Some(req) =>
        match LoadedRoots(ctx.st, ds, req.roots, source)
        case None => None
        case Some(roots) => Some((req, roots))
  }

  /** The manifest a build writes, if it writes one. */
  ghost function Built(ctx: Context, profile: string, source: Source, ds: seq<Descriptor>, inputs: seq<Input>): Option<Manifest> {
    if source.repository != ctx.repository || !NamesMatch(ctx.policy, profile, Map(InputName, inputs)) then None
    else
      match Grounds(ctx, profile, source, ds)
      case None => None
      case Some(g) =>
        match Entries(ctx, source, g.0, g.1, inputs)
        case None => None
        case Some(entries) => Shared(ctx, profile, source, g.1, entries)
  }

  /** A dictionary lookup that derives one mapped target. */
  method Expect(ctx: Context, source: Source, req: Requirements, roots: Roots, name: string) returns (x: Option<Expectation>)
    requires name != SOURCE && name in req.mappings && req.mappings[name].root in roots.adapters ==> Complete(roots.adapters[req.mappings[name].root])
    ensures x == Expected(ctx, source, req, roots, name)
  {
    hide Authorized, FromSource, Derive, Complete;
    if name == SOURCE { return Some(FromSource(ctx, source)); }
    if name !in req.mappings { return None; }
    var m := req.mappings[name];
    var d := DeriveTarget(roots.adapters, m.root, m.selector, ctx.ev);
    x := Authorized(ctx, source, roots, name, m, d);
  }

  /** The adapters every target of a profile needs are complete. */
  ghost predicate Grounded(req: Requirements, roots: Roots, names: set<string>) {
    forall n :: n in names && n != SOURCE && n in req.mappings && req.mappings[n].root in roots.adapters ==> Complete(roots.adapters[req.mappings[n].root])
  }

  lemma GroundsComplete(ctx: Context, profile: string, source: Source, ds: seq<Descriptor>)
    requires Grounds(ctx, profile, source, ds).Some?
    ensures var g := Grounds(ctx, profile, source, ds).value; Grounded(g.0, g.1, Elems(ctx.policy.profiles[profile]))
  {
    hide PolicyRequirements, LoadedRoots, Complete, Derive, Resolves;
    var g := Grounds(ctx, profile, source, ds).value;
    var targets := ctx.policy.profiles[profile];
    forall n | n in Elems(targets) && n != SOURCE && n in g.0.mappings && g.0.mappings[n].root in g.1.adapters
      ensures Complete(g.1.adapters[g.0.mappings[n].root])
    {
      TargetsServed(ctx.policy, profile, targets, ctx.st, ds, source, n, ctx.ev);
    }
  }

  method LoadGrounds(ctx: Context, profile: string, source: Source, ds: seq<Descriptor>) returns (g: Option<(Requirements, Roots)>)
    ensures g == Grounds(ctx, profile, source, ds)
    ensures g.Some? ==> Grounded(g.value.0, g.value.1, Elems(ctx.policy.profiles[profile]))
  {
    hide PolicyRequirements, LoadedRoots, Grounded;
    if profile !in ctx.policy.profiles { return None; }
    var req := PolicyRequirements(ctx.policy, profile, ctx.policy.profiles[profile]);
    if req.None? { return None; }
    var o := LoadRoots(ctx.st, ds, req.value.roots, source);
    if !o.Loaded? { return None; }
    g := Some((req.value, o.roots));
    GroundsComplete(ctx, profile, source, ds);
  }

  lemma {:induction false} EntriesStep(ctx: Context, source: Source, req: Requirements, roots: Roots, inputs: seq<Input>, i: nat)
    requires i < |inputs|
    ensures Entries(ctx, source, req, roots, inputs[..i + 1]).Some? <==>
            Entries(ctx, source, req, roots, inputs[..i]).Some? && EntryFor(ctx, source, req, roots, inputs[i]).Some?
    ensures Entries(ctx, source, req, roots, inputs[..i + 1]).Some? ==>
            Entries(ctx, source, req, roots, inputs[..i + 1]).value
              == Entries(ctx, source, req, roots, inputs[..i]).value + [EntryFor(ctx, source, req, roots, inputs[i]).value]
    ensures Entries(ctx, source, req, roots, inputs).Some? ==> Entries(ctx, source, req, roots, inputs[..i + 1]).Some?
    decreases |inputs| - i
  {
    hide EntryFor;
    var taken := inputs[..i + 1];
    assert taken[..|taken| - 1] == inputs[..i] && taken[|taken| - 1] == inputs[i];
    if i + 1 == |inputs| {
      assert taken == inputs;
    } else {
      EntriesStep(ctx, source, req, roots, inputs, i + 1);
    }
  }

  /** The loop that appends a record per target. */
  method AppendRecords(ctx: Context, source: Source, req: Requirements, roots: Roots, inputs: seq<Input>) returns (r: Option<seq<Entry>>)
    requires Grounded(req, roots, Elems(Map(InputName, inputs)))
    ensures r == Entries(ctx, source, req, roots, inputs)
  {
    hide Expected, EntryFrom, Complete;
    var normalized: seq<Entry> := [];
    for i := 0 to |inputs|
      invariant Entries(ctx, source, req, roots, inputs[..i]) == Some(normalized)
    {
      EntriesStep(ctx, source, req, roots, inputs, i);
      assert Map(InputName, inputs)[i] in Elems(Map(InputName, inputs));
      var x := Expect(ctx, source, req, roots, inputs[i].name);
      if x.None? { return None; }
      var entry := EntryFrom(ctx, inputs[i], x.value);
      if entry.None? { return None; }
      normalized := normalized + [entry.value];
    }
    assert inputs[..|inputs|] == inputs;
    r := Some(normalized);
  }

  /** The loop over recorded executions that insists on one scanner. */
  method ShareScanner(ctx: Context, entries: seq<Entry>) returns (shared: Option<Scanner>)
    ensures entries == [] ==> shared.None?
    ensures entries != [] ==> (shared.Some? <==> ScannerOf(ctx.scans, entries[0]).Some?
                                                 && OneScanner(ctx.scans, entries, ScannerOf(ctx.scans, entries[0]).value))
    ensures shared.Some? ==> shared == ScannerOf(ctx.scans, entries[0])
  {
    hide ScannerOf;
    shared := None;
    for i := 0 to |entries|
      invariant i == 0 ==> shared.None?
      invariant i > 0 ==> shared.Some? && shared == ScannerOf(ctx.scans, entries[0]) && OneScanner(ctx.scans, entries[..i], shared.value)
    {
      assert entries[i] in entries;
      var candidate := ScannerOf(ctx.scans, entries[i]);
      if candidate.None? { return None; }
      assert entries[..i + 1] == entries[..i] + [entries[i]];
      if shared.None? {
        shared := candidate;
      } else if shared != candidate {
        return None;
      }
    }
    assert entries[..|entries|] == entries;
  }

  /** `build`. */
  method Build(ctx: Context, profile: string, source: Source, ds: seq<Descriptor>, inputs: seq<Input>) returns (r: Option<Manifest>)
    ensures r == Built(ctx, profile, source, ds, inputs)
  {
    hide Grounds, Grounded, Entries, OneScanner, ScannerOf, ByName, Sort;
    var names := Map(InputName, inputs);
    if source.repository != ctx.repository || profile !in ctx.policy.profiles { return None; }
    DistinctCount(names);
    if |names| != |Elems(names)| || Elems(names) != Elems(ctx.policy.profiles[profile]) { return None; }
    var g := LoadGrounds(ctx, profile, source, ds);
    if g.None? { return None; }
    var entries := AppendRecords(ctx, source, g.value.0, g.value.1, inputs);
    if entries.None? { return None; }
    var scanner := ShareScanner(ctx, entries.value);
    if scanner.None? { return None; }
    r := Some(Manifest(profile, source, g.value.1.records, scanner.value, Sort(ByName, entries.value)));
  }

  // ----- The gate -----

  /** The staged files a record names, read again. */
  ghost predicate ContentHolds(ev: Evidence, r: Record) {
    match r
    case SourceRecord(_) => true
    case ImageRecord(_, identity, _, image, sbom) => identity == image.digest && StillStaged(ev, sbom)
    case PackageRecord(name, identity, _, _, content, sbom, subjectName) =>
      && identity == "sha256:" + content.sha256 && SplitDelivery.GateShape(content) && SplitDelivery.Delivered(ev.staged, content)
      && (forall p :: p in content.delivery.parts ==> ev.present(p.path))
      && StillStaged(ev, sbom) && subjectName == name + "." + sbom.sha256 + ".spdx.json"
  }

  predicate StillStaged(ev: Evidence, f: Located) {
    ev.present(f.path) && f.sha256 == ev.staged.sha256(ev.staged.file(f.path)) && f.size == |ev.staged.file(f.path)|
  }

  /** An entry's report, receipt and scanner agree with the receipt found for what is expected. */
  predicate ReceiptHolds(ctx: Context, scanner: Scanner, e: Entry, x: Expectation) {
    && e.record == x.record
    && var v := Validated(ctx.scans, e.executionPath, x);
       && v.Some? && ctx.scans.sha256(Clean(e.executionPath)) == e.executionSha256
       && v.value.reportPath == e.reportPath && v.value.reportSha256 == e.reportSha256 && v.value.scanner == scanner
  }

  /** The gate's loop body for one target. */
  ghost predicate EntryHolds(ctx: Context, source: Source, req: Requirements, roots: Roots, scanner: Scanner, e: Entry) {
    && KindAgrees(ctx.policy, e.record) && ContentHolds(ctx.ev, e.record)
    && var x := Expected(ctx, source, req, roots, EntryName(e)); x.Some? && ReceiptHolds(ctx, scanner, e, x.value)
  }

  /** The manifest checks of the gate that speak of roots, targets and scanner. */
  ghost predicate GateAdmits(ctx: Context, profile: string, commit: string, m: Manifest) {
    && m.profile == profile && m.source == Source(ctx.repository, commit)
    && NamesMatch(ctx.policy, profile, Map(EntryName, m.targets))
    && var g := Grounds(ctx, profile, m.source, Map(DescriptorOf, m.roots));
       && g.Some? && g.value.1.records == m.roots
       && forall e :: e in m.targets ==> EntryHolds(ctx, m.source, g.value.0, g.value.1, m.scanner, e)
  }

  method CheckContent(ev: Evidence, r: Record) returns (ok: bool)
    ensures ok <==> ContentHolds(ev, r)
  {
    hide SplitDelivery.Delivered, SplitDelivery.GateShape;
    match r {
      case SourceRecord(_) => ok := true;
      case ImageRecord(_, identity, _, image, sbom) => ok := identity == image.digest && StillStaged(ev, sbom);
      case PackageRecord(name, identity, _, _, content, sbom, subjectName) =>
        if identity != "sha256:" + content.sha256 { return false; }
        var delivered := SplitDelivery.GateVerifies(ev.staged, content);
        if !delivered { return false; }
        var there := CheckPresent(ev, content.delivery.parts);
        ok := there && StillStaged(ev, sbom) && subjectName == name + "." + sbom.sha256 + ".spdx.json";
    }
  }

  method CheckPresent(ev: Evidence, parts: seq<SplitDelivery.Part>) returns (ok: bool)
    ensures ok <==> forall p :: p in parts ==> ev.present(p.path)
  {
    for i := 0 to |parts|
      invariant forall k :: 0 <= k < i ==> ev.present(parts[k].path)
    {
      if !ev.present(parts[i].path) { assert parts[i] in parts; return false; }
    }
    ok := true;
  }

  /** The gate's target loop. */
  method CheckEntries(ctx: Context, source: Source, req: Requirements, roots: Roots, scanner: Scanner, targets: seq<Entry>) returns (ok: bool)
    requires Grounded(req, roots, Elems(Map(EntryName, targets)))
    ensures ok <==> forall e :: e in targets ==> EntryHolds(ctx, source, req, roots, scanner, e)
  {
    hide Expected, KindAgrees, ReceiptHolds, ContentHolds, Complete;
    for i := 0 to |targets|
      invariant forall k :: 0 <= k < i ==> EntryHolds(ctx, source, req, roots, scanner, targets[k])
    {
      var e := targets[i];
      assert e in targets && Map(EntryName, targets)[i] in Elems(Map(EntryName, targets));
      var x := Expect(ctx, source, req, roots, EntryName(e));
      var content := CheckContent(ctx.ev, e.record);
      if !KindAgrees(ctx.policy, e.record) || x.None? || !ReceiptHolds(ctx, scanner, e, x.value) || !content { return false; }
    }
    ok := true;
  }

  method CheckManifest(ctx: Context, profile: string, commit: string, m: Manifest) returns (ok: bool)
    ensures ok <==> GateAdmits(ctx, profile, commit, m)
  {
    hide Grounds, Grounded, EntryHolds;
    if m.profile != profile || m.source != Source(ctx.repository, commit) { return false; }
    var g := LoadGrounds(ctx, profile, m.source, Map(DescriptorOf, m.roots));
    if g.None? || g.value.1.records != m.roots { return false; }
    var names := Map(EntryName, m.targets);
    DistinctCount(names);
    if profile !in ctx.policy.profiles || |names| != |Elems(names)| || Elems(names) != Elems(ctx.policy.profiles[profile]) { return false; }
    ok := CheckEntries(ctx, m.source, g.value.0, g.value.1, m.scanner, m.targets);
  }
}
