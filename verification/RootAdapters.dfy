/** The typed adapters of release roots: what each constructor admits and which selectors resolve. */
module RootAdapters {
  import opened Sequences
  import opened RootPolicy
  import SplitDelivery

  datatype FileRecord = FileRecord(filename: string, sha256: string, size: nat)
  datatype Source = Source(repository: string, commit: string)

  datatype ConnectorPackage = ConnectorPackage(format: string, artifact: FileRecord, sbom: FileRecord)
  datatype ConnectorTarget = ConnectorTarget(id: string, packages: seq<ConnectorPackage>)
  datatype ConnectorFacts = ConnectorFacts(version: string, codex: string, schema: string, protocol: int)

  datatype Image = Image(repository: string, digest: string, sbom: string, sbomSha256: string, provenance: string)
  datatype ServerPackage = ServerPackage(filename: string, content: SplitDelivery.Package, sbom: FileRecord, provenance: string)

  /** What a server root says about the Control lock and the Connector release it was built with. */
  datatype ControlBinding = ControlBinding(lock: FileRecord, bundle: FileRecord)
  datatype ConnectorBinding = ConnectorBinding(
    source: Source, facts: ConnectorFacts, manifest: FileRecord, manifestBundle: string, metadata: FileRecord,
    metadataBundle: FileRecord, inventory: map<string, FileRecord>)

  /** Decoded root documents; `sound` stands for the checks of their remaining fields. */
  datatype RootValue =
    | ConnectorRoot(sound: bool, source: Source, facts: ConnectorFacts, targets: seq<ConnectorTarget>)
    | ControlRoot(sound: bool, source: Source, images: map<string, Image>)
    | ServerRoot(sound: bool, source: Source, control: ControlBinding, connector: ConnectorBinding, packages: map<string, ServerPackage>)

  datatype Adapter =
    | ConnectorAdapter(rootId: string, source: Source, facts: ConnectorFacts, released: map<(string, string), ConnectorPackage>)
    | ControlAdapter(rootId: string, source: Source, images: map<string, Image>)
    | ServerAdapter(rootId: string, source: Source, control: ControlBinding, connector: ConnectorBinding, served: map<string, ServerPackage>)

  function KindOf(a: Adapter): Kind {
    match a case ConnectorAdapter(_, _, _, _) => ConnectorKind case ControlAdapter(_, _, _) => ControlKind case ServerAdapter(_, _, _, _, _) => ServerKind
  }

  const CONNECTOR_IDS := ["linux-amd64", "linux-arm64"]
  const FORMATS := ["deb", "rpm"]
  const COMPONENTS := ["control-api", "pwa", "postgres-tools"]
  const MODES := ["online", "offline"]

  // ----- Evidence names -----

  /** Adds names that must all be new. */
  method AddNames(known: set<string>, names: seq<string>) returns (ok: bool, all: set<string>)
    ensures ok <==> NoDup(names) && forall n :: n in names ==> n !in known
    ensures ok ==> all == known + Elems(names)
  {
    all := known;
    for i := 0 to |names|
      invariant all == known + Elems(names[..i]) && NoDup(names[..i]) && forall k :: 0 <= k < i ==> names[k] !in known
    {
      assert names[..i + 1] == names[..i] + [names[i]];
      NoDupConcat(names[..i], [names[i]]);
      if names[i] in all {
        if names[i] in names[..i] { var k :| 0 <= k < i && names[k] == names[i]; }
        return false, all;
      }
      all := all + {names[i]};
    }
    assert names[..|names|] == names;
    ok := true;
  }

  /** One more list of names keeps all of them distinct exactly when it adds only new ones. */
  lemma NamesStep<A>(f: A -> seq<string>, items: seq<A>, i: nat)
    requires i < |items| && NoDup(FlatMap(f, items[..i]))
    ensures NoDup(FlatMap(f, items[..i + 1])) <==> NoDup(f(items[i])) && forall n :: n in f(items[i]) ==> n !in Elems(FlatMap(f, items[..i]))
    ensures Elems(FlatMap(f, items[..i + 1])) == Elems(FlatMap(f, items[..i])) + Elems(f(items[i]))
    ensures !NoDup(FlatMap(f, items[..i + 1])) ==> !NoDup(FlatMap(f, items))
  {
    hide FlatMap, NoDup, Elems;
    var before, added, rest := FlatMap(f, items[..i]), f(items[i]), FlatMap(f, items[i + 1..]);
    FlatMapStep(f, items, i);
    assert items == items[..i + 1] + items[i + 1..];
    FlatMapAppend(f, items[..i + 1], items[i + 1..]);
    AddedNames(before, added, rest);
  }

  lemma AddedNames(before: seq<string>, added: seq<string>, rest: seq<string>)
    requires NoDup(before)
    ensures NoDup(before + added) <==> NoDup(added) && forall n :: n in added ==> n !in Elems(before)
    ensures Elems(before + added) == Elems(before) + Elems(added)
    ensures !NoDup(before + added) ==> !NoDup(before + added + rest)
  {
    hide NoDup;
    NoDupConcat(before, added);
    NoDupConcat(before + added, rest);
    assert forall n :: n in Elems(before) <==> n in before;
  }

  /** The evidence-name bookkeeping of a constructor's loop. */
  method CheckDistinct<A>(f: A -> seq<string>, items: seq<A>) returns (ok: bool)
    ensures ok <==> NoDup(FlatMap(f, items))
  {
    var names: set<string> := {};
    for i := 0 to |items|
      invariant NoDup(FlatMap(f, items[..i])) && names == Elems(FlatMap(f, items[..i]))
    {
      NamesStep(f, items, i);
      var fine, more := AddNames(names, f(items[i]));
      if !fine { return false; }
      names := more;
    }
    assert items[..|items|] == items;
    ok := true;
  }

  /** A constructor's table, filled key by key. */
  method CopyKeys<V>(source: map<string, V>, keys: seq<string>) returns (copy: map<string, V>)
    requires source.Keys == Elems(keys)
    ensures copy == source
  {
    copy := map[];
    for i := 0 to |keys|
      invariant copy.Keys == Elems(keys[..i]) && forall c :: c in copy ==> c in source && copy[c] == source[c]
    {
      assert keys[i] in Elems(keys);
      assert keys[..i + 1] == keys[..i] + [keys[i]];
      copy := copy[keys[i] := source[keys[i]]];
    }
    assert keys[..|keys|] == keys;
  }

  // ----- The Connector adapter -----

  function TargetIdOf(t: ConnectorTarget): string { t.id }
  function PackageFormat(p: ConnectorPackage): string { p.format }
  function PackageEvidence(p: ConnectorPackage): seq<string> { [p.artifact.filename, p.sbom.filename] }
  function TargetEvidence(t: ConnectorTarget): seq<string> { FlatMap(PackageEvidence, t.packages) }
  function Row(id: string): ConnectorPackage -> ((string, string), ConnectorPackage) { (p: ConnectorPackage) => ((id, p.format), p) }
  function Rows(t: ConnectorTarget): seq<((string, string), ConnectorPackage)> { Map(Row(t.id), t.packages) }

  predicate ConnectorSound(v: RootValue, source: Source) {
    && v.ConnectorRoot? && v.sound && v.source == source
    && Map(TargetIdOf, v.targets) == CONNECTOR_IDS
    && (forall t :: t in v.targets ==> Map(PackageFormat, t.packages) == FORMATS)
    && NoDup(FlatMap(TargetEvidence, v.targets))
  }

  method BuildConnector(rootId: string, v: RootValue, source: Source) returns (r: Option<Adapter>)
    ensures r.Some? <==> ConnectorSound(v, source)
    ensures r.Some? ==> r.value == ConnectorAdapter(rootId, source, v.facts, Assign(map[], FlatMap(Rows, v.targets)))
  {
    hide TargetEvidence, Rows, FORMATS, CONNECTOR_IDS;
    if !v.ConnectorRoot? || !v.sound || v.source != source { return None; }
    var released: map<(string, string), ConnectorPackage> := map[];
    var names: set<string> := {};
    var ids: seq<string> := [];
    for i := 0 to |v.targets|
      invariant ids == Map(TargetIdOf, v.targets[..i])
      invariant forall k :: 0 <= k < i ==> Map(PackageFormat, v.targets[k].packages) == FORMATS
      invariant NoDup(FlatMap(TargetEvidence, v.targets[..i])) && names == Elems(FlatMap(TargetEvidence, v.targets[..i]))
      invariant released == Assign(map[], FlatMap(Rows, v.targets[..i]))
    {
      var t := v.targets[i];
      assert Map(TargetIdOf, v.targets[..i + 1]) == ids + [t.id];
      ids := ids + [t.id];
      if Map(PackageFormat, t.packages) != FORMATS { return None; }
      NamesStep(TargetEvidence, v.targets, i);
      var ok, more := AddNames(names, TargetEvidence(t));
      if !ok { return None; }
      FlatMapStep(Rows, v.targets, i);
      AssignAppend(map[], FlatMap(Rows, v.targets[..i]), Rows(t));
      released := AddRows(released, t);
      names := more;
    }
    assert v.targets[..|v.targets|] == v.targets;
    if ids != CONNECTOR_IDS { return None; }
    r := Some(ConnectorAdapter(rootId, source, v.facts, released));
  }

  method AddRows(released: map<(string, string), ConnectorPackage>, t: ConnectorTarget) returns (all: map<(string, string), ConnectorPackage>)
    ensures all == Assign(released, Rows(t))
  {
    all := released;
    for j := 0 to |t.packages|
      invariant all == Assign(released, Map(Row(t.id), t.packages[..j]))
    {
      var p := t.packages[j];
      assert Map(Row(t.id), t.packages[..j + 1]) == Map(Row(t.id), t.packages[..j]) + [Row(t.id)(p)];
      AssignLast(released, Map(Row(t.id), t.packages[..j]), Row(t.id)(p));
      all := all[(t.id, p.format) := p];
    }
    assert t.packages[..|t.packages|] == t.packages;
  }

  lemma RowsOfTarget(t: ConnectorTarget, id: string, format: string)
    ensures (id, format) in Map(Fst, Rows(t)) <==> t.id == id && format in Map(PackageFormat, t.packages)
  {
    var keys, formats := Map(Fst, Rows(t)), Map(PackageFormat, t.packages);
    assert |keys| == |formats| && forall j :: 0 <= j < |keys| ==> keys[j] == (t.id, formats[j]);
    if t.id == id && format in formats {
      var j :| 0 <= j < |formats| && formats[j] == format;
      assert keys[j] == (id, format);
    }
  }

  lemma {:induction false} RowKeys(ts: seq<ConnectorTarget>, k: (string, string))
    ensures k in Map(Fst, FlatMap(Rows, ts)) <==> exists i :: 0 <= i < |ts| && k in Map(Fst, Rows(ts[i]))
  {
    hide Rows;
    if ts != [] {
      RowKeys(ts[1..], k);
      MapAppend(Fst, Rows(ts[0]), FlatMap(Rows, ts[1..]));
      if i :| 0 <= i < |ts[1..]| && k in Map(Fst, Rows(ts[1..][i])) { assert ts[i + 1] == ts[1..][i]; }
      if i :| 0 <= i < |ts| && k in Map(Fst, Rows(ts[i])) { assert i > 0 ==> ts[1..][i - 1] == ts[i]; }
    }
  }

  /** The table of an admitted Connector root has exactly the fixed selectors. */
  lemma ConnectorSelectors(v: RootValue, source: Source, id: string, format: string)
    requires ConnectorSound(v, source)
    ensures (id, format) in Assign(map[], FlatMap(Rows, v.targets)) <==> id in CONNECTOR_IDS && format in FORMATS
  {
    hide FORMATS, CONNECTOR_IDS, Rows, Assign, FlatMap;
    var ids := Map(TargetIdOf, v.targets);
    AssignKeys(map[], FlatMap(Rows, v.targets));
    RowKeys(v.targets, (id, format));
    if i :| 0 <= i < |v.targets| && (id, format) in Map(Fst, Rows(v.targets[i])) {
      assert v.targets[i] in v.targets && ids[i] == v.targets[i].id;
      RowsOfTarget(v.targets[i], id, format);
    }
    if id in CONNECTOR_IDS && format in FORMATS {
      var i :| 0 <= i < |ids| && ids[i] == id;
      assert v.targets[i] in v.targets;
      RowsOfTarget(v.targets[i], id, format);
    }
  }

  // ----- The Control adapter -----

  function ImageEvidence(images: map<string, Image>): string -> seq<string> {
    c => if c in images then [images[c].sbom, images[c].provenance] else []
  }

  predicate ControlSound(v: RootValue, source: Source) {
    && v.ControlRoot? && v.sound && v.source == source && v.images.Keys == Elems(COMPONENTS)
    && NoDup(FlatMap(ImageEvidence(v.images), COMPONENTS))
  }

  method BuildControl(rootId: string, v: RootValue, source: Source) returns (r: Option<Adapter>)
    ensures r.Some? <==> ControlSound(v, source)
    ensures r.Some? ==> r.value == ControlAdapter(rootId, source, v.images)
  {
    hide COMPONENTS, ImageEvidence;
    if !v.ControlRoot? || !v.sound || v.source != source || v.images.Keys != Elems(COMPONENTS) { return None; }
    var ok := CheckDistinct(ImageEvidence(v.images), COMPONENTS);
    if !ok { return None; }
    var images := CopyKeys(v.images, COMPONENTS);
    r := Some(ControlAdapter(rootId, source, images));
  }

  // ----- The server adapter -----

  function PartPath(p: SplitDelivery.Part): string { p.path }

  function ServedEvidence(packages: map<string, ServerPackage>): string -> seq<string> {
    m => if m in packages then Map(PartPath, packages[m].content.delivery.parts) + [packages[m].sbom.filename, packages[m].provenance] else []
  }

  function ServerTarget(mode: string): Option<string> {
    if mode == "online" then Some("server-online-linux-amd64")
    else if mode == "offline" then Some("server-offline-linux-amd64")
    else None
  }

  /** One server package: an admitted delivery with the fixed part names, and a content-addressed SBOM. */
  predicate ServedSound(mode: string, p: ServerPackage) {
    && SplitDelivery.RootAdmits(p.content) && SplitDelivery.NamedParts(p.filename, p.content)
    && ServerTarget(mode).Some? && p.sbom.filename == ServerTarget(mode).value + "." + p.sbom.sha256 + ".spdx.json"
  }

  predicate ServerSound(v: RootValue, source: Source) {
    && v.ServerRoot? && v.sound && v.source == source && v.packages.Keys == Elems(MODES)
    && (forall m :: m in v.packages ==> ServedSound(m, v.packages[m]))
    && NoDup(FlatMap(ServedEvidence(v.packages), MODES))
  }

  method BuildServer(rootId: string, v: RootValue, source: Source) returns (r: Option<Adapter>)
    ensures r.Some? <==> ServerSound(v, source)
    ensures r.Some? ==> r.value == ServerAdapter(rootId, source, v.control, v.connector, v.packages)
  {
    hide MODES, ServedSound, ServedEvidence;
    if !v.ServerRoot? || !v.sound || v.source != source || v.packages.Keys != Elems(MODES) { return None; }
    var ok := CheckPackages(v.packages, MODES);
    if !ok { return None; }
    ok := CheckDistinct(ServedEvidence(v.packages), MODES);
    if !ok { return None; }
    var served := CopyKeys(v.packages, MODES);
    r := Some(ServerAdapter(rootId, source, v.control, v.connector, served));
  }

  method CheckPackages(packages: map<string, ServerPackage>, modes: seq<string>) returns (ok: bool)
    requires packages.Keys == Elems(modes)
    ensures ok <==> forall m :: m in packages ==> ServedSound(m, packages[m])
  {
    hide ServedSound;
    for i := 0 to |modes|
      invariant forall k :: 0 <= k < i ==> modes[k] in packages && ServedSound(modes[k], packages[modes[k]])
    {
      assert modes[i] in Elems(modes);
      if !ServedSound(modes[i], packages[modes[i]]) { return false; }
    }
    forall m | m in packages ensures ServedSound(m, packages[m]) {
      assert m in Elems(modes);
      var k :| 0 <= k < |modes| && modes[k] == m;
    }
    ok := true;
  }

  // ----- Constructing and binding -----

  /** The constructor of a kind, on the document of a root. */
  function Construct(kind: Kind, rootId: string, v: RootValue, source: Source): Option<Adapter> {
    match kind
    case ConnectorKind =>
      if ConnectorSound(v, source) then Some(ConnectorAdapter(rootId, source, v.facts, Assign(map[], FlatMap(Rows, v.targets)))) else None
    case ControlKind => if ControlSound(v, source) then Some(ControlAdapter(rootId, source, v.images)) else None
    case ServerKind => if ServerSound(v, source) then Some(ServerAdapter(rootId, source, v.control, v.connector, v.packages)) else None
  }

  method Build(kind: Kind, rootId: string, v: RootValue, source: Source) returns (r: Option<Adapter>)
    ensures r == Construct(kind, rootId, v, source)
  {
    hide ConnectorSound, ControlSound, ServerSound;
    match kind {
      case ConnectorKind => r := BuildConnector(rootId, v, source);
      case ControlKind => r := BuildControl(rootId, v, source);
      case ServerKind => r := BuildServer(rootId, v, source);
    }
  }

  /** A root's evidence record. */
  datatype RootRecord = RootRecord(
    id: string, kind: Kind, path: string, sha256: string, size: nat, bundlePath: string, bundleSha256: string, bundleSize: nat)

  /** `bind_control_root`; `name` gives the file name of a path. */
  predicate ControlBound(server: Adapter, root: RootRecord, name: string -> string) {
    && server.ServerAdapter?
    && server.control == ControlBinding(FileRecord(name(root.path), root.sha256, root.size),
                                        FileRecord(name(root.bundlePath), root.bundleSha256, root.bundleSize))
  }

  /** `bind_connector_root`. */
  predicate ConnectorBound(server: Adapter, root: RootRecord, connector: Adapter, name: string -> string) {
    && server.ServerAdapter? && connector.ConnectorAdapter?
    && var b := server.connector;
       var manifest, bundle := FileRecord(name(root.path), root.sha256, root.size), name(root.bundlePath);
       && b.manifest == manifest && b.manifestBundle == bundle
       && Has(b.inventory, manifest) && Has(b.inventory, FileRecord(bundle, root.bundleSha256, root.bundleSize))
       && Has(b.inventory, b.metadata) && Has(b.inventory, b.metadataBundle)
       && connector.source == b.source && connector.facts == b.facts
  }

  predicate Has(inventory: map<string, FileRecord>, f: FileRecord) { f.filename in inventory && inventory[f.filename] == f }
}
