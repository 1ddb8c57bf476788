/** Deriving the fixed scan targets from loaded release roots. */
module RootTargets {
  import opened Sequences
  import opened RootPolicy
  import opened RootAdapters
  import opened ReleaseRoots
  import SplitDelivery

  const MAX_SBOM_BYTES := 134217728
  const MAX_ARTIFACT_BYTES := 17179869184

  /** Staged files as adapters reach them: contents, which paths are regular files, the path of a
      file named by a root, and the paths of a root's own evidence. */
  datatype Evidence = Evidence(
    staged: SplitDelivery.Staged, present: string -> bool, asset: (string, string) -> string, own: (string, string) -> bool)

  datatype Located = Located(path: string, sha256: string, size: nat)
  datatype ImageIdentity = ImageIdentity(repository: string, digest: string)

  datatype DerivedTarget =
    | DerivedImage(rootId: string, targetId: string, image: ImageIdentity, sbom: Located)
    | DerivedFile(rootId: string, targetId: string, filename: string, sha256: string, size: nat, path: Option<string>,
                  delivery: Option<SplitDelivery.Delivery>, sbom: Located)

  datatype Derivation = Unavailable | WrongSelector | EvidenceFails | Derived(target: DerivedTarget)

  function KindOfTarget(d: DerivedTarget): TargetKind { if d.DerivedImage? then ContainerTarget else FileTarget }

  function Inspected(ev: Evidence, path: string, limit: nat): Option<Located> {
    var data := ev.staged.file(path);
    if ev.present(path) && |data| <= limit then Some(Located(path, ev.staged.sha256(data), |data|)) else None
  }

  /** `_verify_declared_file`. */
  function Declared(ev: Evidence, rootId: string, f: FileRecord, limit: nat): Option<Located> {
    var path := ev.asset(rootId, f.filename);
    if ev.own(rootId, path) then None
    else if Inspected(ev, path, limit) == Some(Located(path, f.sha256, f.size)) then Some(Located(path, f.sha256, f.size)) else None
  }

  function Place(ev: Evidence, rootId: string): SplitDelivery.Part -> SplitDelivery.Part {
    (p: SplitDelivery.Part) => p.(path := ev.asset(rootId, p.path))
  }

  /** A package with its parts at their staged paths. */
  function Placed(ev: Evidence, rootId: string, p: SplitDelivery.Package): SplitDelivery.Package {
    p.(delivery := p.delivery.(parts := Map(Place(ev, rootId), p.delivery.parts)))
  }

  predicate Reachable(ev: Evidence, rootId: string, path: string) { ev.present(path) && !ev.own(rootId, path) }

  /** What `_verify_delivery` demands of the staged parts. */
  ghost predicate PartsStaged(ev: Evidence, rootId: string, p: SplitDelivery.Package) {
    && (forall part :: part in p.delivery.parts ==> Reachable(ev, rootId, part.path))
    && SplitDelivery.Delivered(ev.staged, p)
  }

  function ControlTarget(component: string): Option<string> {
    if component == "control-api" then Some("control-api-image")
    else if component == "pwa" then Some("pwa-image")
    else if component == "postgres-tools" then Some("postgres-tools-image")
    else None
  }

  function DeriveConnector(rootId: string, id: string, format: string, p: ConnectorPackage, ev: Evidence): Derivation {
    match (Declared(ev, rootId, p.artifact, MAX_ARTIFACT_BYTES), Declared(ev, rootId, p.sbom, MAX_SBOM_BYTES))
    case (Some(artifact), Some(sbom)) =>
      Derived(DerivedFile(rootId, "connector-" + id + "-" + format, p.artifact.filename, artifact.sha256, artifact.size, Some(artifact.path), None, sbom))
    case _ => EvidenceFails
  }

  function DeriveImage(rootId: string, targetId: string, image: Image, ev: Evidence): Derivation {
    match Inspected(ev, ev.asset(rootId, image.sbom), MAX_SBOM_BYTES)
    case None => EvidenceFails
    case Some(sbom) =>
      if sbom.sha256 == image.sbomSha256 then Derived(DerivedImage(rootId, targetId, ImageIdentity(image.repository, image.digest), sbom))
      else EvidenceFails
  }

  ghost function DeriveServed(rootId: string, targetId: string, p: ServerPackage, ev: Evidence): Derivation {
    var placed := Placed(ev, rootId, p.content);
    var sbom := Declared(ev, rootId, p.sbom, MAX_SBOM_BYTES);
    if !PartsStaged(ev, rootId, placed) || sbom.None? then EvidenceFails
    else
      var parts := placed.delivery.parts;
      Derived(DerivedFile(rootId, targetId, p.filename, p.content.sha256, p.content.size,
                          if !placed.delivery.split && parts != [] then Some(parts[0].path) else None, Some(placed.delivery), sbom.value))
  }

  /** `derive_target`. */
  ghost function Derive(adapters: map<string, Adapter>, rootId: string, selector: Selector, ev: Evidence): Derivation {
    if rootId !in adapters then Unavailable
    else
      match (adapters[rootId], selector)
      case (ConnectorAdapter(_, _, _, released), Released(id, format)) =>
        if (id, format) in released then DeriveConnector(rootId, id, format, released[(id, format)], ev) else WrongSelector
      case (ControlAdapter(_, _, images), Component(c)) =>
        if ControlTarget(c).Some? && c in images then DeriveImage(rootId, ControlTarget(c).value, images[c], ev) else WrongSelector
      case (ServerAdapter(_, _, _, _, served), Mode(m)) =>
        if ServerTarget(m).Some? && m in served then DeriveServed(rootId, ServerTarget(m).value, served[m], ev) else WrongSelector
      case _ => WrongSelector
  }

  method CheckPaths(ev: Evidence, rootId: string, parts: seq<SplitDelivery.Part>) returns (ok: bool)
    ensures ok <==> forall p :: p in parts ==> Reachable(ev, rootId, p.path)
  {
    for i := 0 to |parts|
      invariant forall k :: 0 <= k < i ==> Reachable(ev, rootId, parts[k].path)
    {
      if !Reachable(ev, rootId, parts[i].path) { assert parts[i] in parts; return false; }
    }
    ok := true;
  }

  method ServePackage(rootId: string, targetId: string, p: ServerPackage, ev: Evidence) returns (r: Derivation)
    requires SplitDelivery.RootAdmits(p.content)
    ensures r == DeriveServed(rootId, targetId, p, ev)
  {
    hide SplitDelivery.Delivered;
    var placed := Placed(ev, rootId, p.content);
    var ok := CheckPaths(ev, rootId, placed.delivery.parts);
    if !ok { return EvidenceFails; }
    ok := SplitDelivery.AdapterVerifies(ev.staged, placed);
    var sbom := Declared(ev, rootId, p.sbom, MAX_SBOM_BYTES);
    if !ok || sbom.None? { return EvidenceFails; }
    var path := if placed.delivery.split then None else Some(placed.delivery.parts[0].path);
    r := Derived(DerivedFile(rootId, targetId, p.filename, p.content.sha256, p.content.size, path, Some(placed.delivery), sbom.value));
  }

  method DeriveTarget(adapters: map<string, Adapter>, rootId: string, selector: Selector, ev: Evidence) returns (r: Derivation)
    requires rootId in adapters ==> Complete(adapters[rootId])
    ensures r == Derive(adapters, rootId, selector, ev)
  {
    hide DeriveConnector, DeriveImage, DeriveServed, ControlTarget, ServerTarget;
    if rootId !in adapters { return Unavailable; }
    match (adapters[rootId], selector) {
      case (ConnectorAdapter(_, _, _, released), Released(id, format)) =>
        if (id, format) !in released { return WrongSelector; }
        r := DeriveConnector(rootId, id, format, released[(id, format)], ev);
      case (ControlAdapter(_, _, images), Component(c)) =>
        var target := ControlTarget(c);
        if target.None? || c !in images { return WrongSelector; }
        r := DeriveImage(rootId, target.value, images[c], ev);
      case (ServerAdapter(_, _, _, _, served), Mode(m)) =>
        var target := ServerTarget(m);
        if target.None? || m !in served { return WrongSelector; }
        r := ServePackage(rootId, target.value, served[m], ev);
      case _ => r := WrongSelector;
    }
  }

  // ----- Every mapped target resolves -----

  /** Nothing but staged evidence can keep a target from being derived, under its own name and kind. */
  predicate Resolves(d: Derivation, name: string, kind: TargetKind, root: string) {
    d.EvidenceFails? || (d.Derived? && d.target.targetId == name && KindOfTarget(d.target) == kind && d.target.rootId == root)
  }

  lemma ReleasedResolves(a: Adapter, id: string, format: string, root: string, ev: Evidence)
    requires a.ConnectorAdapter? && Complete(a) && id in CONNECTOR_IDS && format in FORMATS
    ensures forall m: map<string, Adapter> :: root in m && m[root] == a ==>
      Resolves(Derive(m, root, Released(id, format), ev), "connector-" + id + "-" + format, FileTarget, root)
  {
    hide CONNECTOR_IDS, FORMATS;
  }

  lemma ComponentResolves(a: Adapter, c: string, root: string, ev: Evidence)
    requires a.ControlAdapter? && Complete(a) && c in COMPONENTS && ControlTarget(c).Some?
    ensures forall m: map<string, Adapter> :: root in m && m[root] == a ==>
      Resolves(Derive(m, root, Component(c), ev), ControlTarget(c).value, ContainerTarget, root)
  {
    hide COMPONENTS, ControlTarget;
    assert c in Elems(COMPONENTS);
  }

  lemma ModeResolves(a: Adapter, mode: string, root: string, ev: Evidence)
    requires a.ServerAdapter? && Complete(a) && mode in MODES && ServerTarget(mode).Some?
    ensures forall m: map<string, Adapter> :: root in m && m[root] == a ==>
      Resolves(Derive(m, root, Mode(mode), ev), ServerTarget(mode).value, FileTarget, root)
  {
    hide MODES, ServerTarget, PartsStaged;
    assert mode in Elems(MODES);
  }

  /** What the registry fixes for a target: a selector its root's kind has, naming the target itself. */
  predicate Fixed(r: Requirement) {
    && r.mapping.root in RootKinds()
    && match r.mapping.selector
       case Released(id, format) => RootKinds()[r.mapping.root] == ConnectorKind && id in CONNECTOR_IDS && format in FORMATS
                                    && r.name == "connector-" + id + "-" + format && r.kind == FileTarget
       case Component(c) => RootKinds()[r.mapping.root] == ControlKind && c in COMPONENTS && ControlTarget(c) == Some(r.name) && r.kind == ContainerTarget
       case Mode(m) => RootKinds()[r.mapping.root] == ServerKind && m in MODES && ServerTarget(m) == Some(r.name) && r.kind == FileTarget
  }

  lemma ConnectorFixed(r: Requirement, id: string, format: string)
    requires r == Requirement("connector-" + id + "-" + format, Mapping("connector", Released(id, format)), FileTarget)
    requires id in CONNECTOR_IDS && format in FORMATS
    ensures Fixed(r)
  {
    hide CONNECTOR_IDS, FORMATS;
  }

  lemma ConnectorNames()
    ensures "connector-" + "linux-amd64" + "-" + "deb" == "connector-linux-amd64-deb"
    ensures "connector-" + "linux-amd64" + "-" + "rpm" == "connector-linux-amd64-rpm"
    ensures "connector-" + "linux-arm64" + "-" + "deb" == "connector-linux-arm64-deb"
    ensures "connector-" + "linux-arm64" + "-" + "rpm" == "connector-linux-arm64-rpm"
  {
  }

  lemma ConnectorsFixed()
    ensures forall k :: 5 <= k < |REQUIREMENTS| ==> Fixed(REQUIREMENTS[k])
  {
    hide Fixed;
    ConnectorNames();
    assert CONNECTOR_IDS[0] == "linux-amd64" && CONNECTOR_IDS[1] == "linux-arm64" && FORMATS[0] == "deb" && FORMATS[1] == "rpm";
    ConnectorFixed(REQUIREMENTS[5], "linux-amd64", "deb");
    ConnectorFixed(REQUIREMENTS[6], "linux-amd64", "rpm");
    ConnectorFixed(REQUIREMENTS[7], "linux-arm64", "deb");
    ConnectorFixed(REQUIREMENTS[8], "linux-arm64", "rpm");
  }

  lemma ServersFixed()
    ensures forall k :: 3 <= k < 5 ==> Fixed(REQUIREMENTS[k])
  {
    assert MODES[0] == "online" && MODES[1] == "offline";
    assert Fixed(REQUIREMENTS[3]) && Fixed(REQUIREMENTS[4]);
  }

  lemma ImagesFixed()
    ensures forall k :: 0 <= k < 3 ==> Fixed(REQUIREMENTS[k])
  {
    assert COMPONENTS[0] == "control-api" && COMPONENTS[1] == "pwa" && COMPONENTS[2] == "postgres-tools";
    assert Fixed(REQUIREMENTS[0]) && Fixed(REQUIREMENTS[1]) && Fixed(REQUIREMENTS[2]);
  }

  lemma AllFixed(r: Requirement)
    requires r in REQUIREMENTS
    ensures Fixed(r)
  {
    hide Fixed;
    ConnectorsFixed();
    ServersFixed();
    ImagesFixed();
    var k :| 0 <= k < |REQUIREMENTS| && REQUIREMENTS[k] == r;
  }

  lemma Registered(r: Requirement)
    requires r in REQUIREMENTS
    ensures r.name in FixedMappings() && FixedMappings()[r.name] == r.mapping && r.name in FixedKinds() && FixedKinds()[r.name] == r.kind
  {
    hide REQUIREMENTS;
    FixedNames();
    RequirementNamesDistinct();
    var k :| 0 <= k < |REQUIREMENTS| && REQUIREMENTS[k] == r;
    var names := Map(RequirementName, REQUIREMENTS);
    assert names[k] == r.name;
    assert r.name in Elems(names);
    var q := MappingOf(r.name);
    var j :| 0 <= j < |REQUIREMENTS| && REQUIREMENTS[j] == q;
    assert names[j] == names[k];
  }

  /** The registry entry a selector belongs to. */
  lemma SelectorRegistered(selector: Selector) returns (r: Requirement)
    requires match selector
             case Released(id, format) => id in CONNECTOR_IDS && format in FORMATS
             case Component(c) => c in COMPONENTS
             case Mode(m) => m in MODES
    ensures r in REQUIREMENTS && r.mapping.selector == selector
  {
    match selector {
      case Released(id, format) =>
        r := if id == "linux-amd64" then (if format == "deb" then REQUIREMENTS[5] else REQUIREMENTS[6])
             else (if format == "deb" then REQUIREMENTS[7] else REQUIREMENTS[8]);
      case Component(c) => r := if c == "control-api" then REQUIREMENTS[0] else if c == "pwa" then REQUIREMENTS[1] else REQUIREMENTS[2];
      case Mode(m) => r := if m == "online" then REQUIREMENTS[3] else REQUIREMENTS[4];
    }
  }

  lemma SelectorFits(a: Adapter, root: string, selector: Selector, ev: Evidence, m: map<string, Adapter>)
    requires Complete(a) && root in m && m[root] == a && Derive(m, root, selector, ev).Derived?
    ensures match selector
            case Released(id, format) => id in CONNECTOR_IDS && format in FORMATS
            case Component(c) => c in COMPONENTS
            case Mode(mode) => mode in MODES
  {
    hide CONNECTOR_IDS, FORMATS, COMPONENTS, MODES, DeriveConnector, DeriveImage, DeriveServed, ControlTarget, ServerTarget, SplitDelivery.RootAdmits;
    match (a, selector) {
      case (ControlAdapter(_, _, images), Component(c)) => assert c in Elems(COMPONENTS);
      case (ServerAdapter(_, _, _, _, served), Mode(mode)) => assert mode in Elems(MODES);
      case _ =>
    }
  }

  /** Nothing outside the registry is ever derived: a derived target is the registered target of its
      selector, of the registered kind, from a root of the registered root's kind. */
  lemma DerivedIsRegistered(adapters: map<string, Adapter>, root: string, selector: Selector, ev: Evidence)
    requires root in adapters && Complete(adapters[root]) && Derive(adapters, root, selector, ev).Derived?
    ensures var d := Derive(adapters, root, selector, ev).target;
      && d.rootId == root && d.targetId in FixedMappings() && FixedMappings()[d.targetId].selector == selector
      && d.targetId in FixedKinds() && FixedKinds()[d.targetId] == KindOfTarget(d)
      && FixedMappings()[d.targetId].root in RootKinds() && RootKinds()[FixedMappings()[d.targetId].root] == KindOf(adapters[root])
  {
    hide REQUIREMENTS, FixedMappings, FixedKinds, RootKinds, CONNECTOR_IDS, FORMATS, COMPONENTS, MODES, ControlTarget, ServerTarget,
      SplitDelivery.RootAdmits, PartsStaged, Declared, Inspected;
    SelectorFits(adapters[root], root, selector, ev, adapters);
    var r := SelectorRegistered(selector);
    AllFixed(r);
    Registered(r);
  }

  /** With a profile's roots loaded, every one of its mapped targets is served: its root has an
      adapter, its fixed selector is known there, and what is derived is that very target. */
  lemma TargetsServed(p: Policy, profile: string, targets: seq<string>, st: Staging, ds: seq<Descriptor>, source: Source, t: string, ev: Evidence)
    requires PolicyRequirements(p, profile, targets).Some? && t in targets && t != SOURCE
    requires LoadedRoots(st, ds, PolicyRequirements(p, profile, targets).value.roots, source).Some?
    ensures var r := PolicyRequirements(p, profile, targets).value;
      var adapters := LoadedRoots(st, ds, r.roots, source).value.adapters;
      && t in r.mappings && t in p.targetKinds && r.mappings[t].root in adapters && Complete(adapters[r.mappings[t].root])
      && Resolves(Derive(adapters, r.mappings[t].root, r.mappings[t].selector, ev), t, p.targetKinds[t], r.mappings[t].root)
  {
    hide REQUIREMENTS, FixedMappings, FixedKinds, RootKinds, LoadedRoots, Derive, Complete, CONNECTOR_IDS, FORMATS, COMPONENTS, MODES, Resolves, ControlTarget, ServerTarget;
    var r := PolicyRequirements(p, profile, targets).value;
    RequirementsCover(p, profile, targets, t);
    var q := MappingOf(t);
    AllFixed(q);
    var root := q.mapping.root;
    LoadServes(st, ds, r.roots, source, root);
    var a := LoadedRoots(st, ds, r.roots, source).value.adapters[root];
    match q.mapping.selector {
      case Released(id, format) => ReleasedResolves(a, id, format, root, ev);
      case Component(c) => ComponentResolves(a, c, root, ev);
      case Mode(m) => ModeResolves(a, m, root, ev);
    }
  }
}
