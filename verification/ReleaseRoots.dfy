/** Loading release roots: ordered construction, cross-binding, and the targets they serve. */
module ReleaseRoots {
  import opened Sequences
  import opened Sorting
  import opened Text
  import opened RootPolicy
  import opened RootAdapters
  import SplitDelivery

  datatype Descriptor = Descriptor(id: string, kind: Kind, path: string, bundlePath: string)
  datatype RootFile = RootFile(sha256: string, size: nat, value: RootValue)

  /** The staged evidence: root documents, their bundles, the naming rules and file names of paths. */
  datatype Staging = Staging(
    root: string -> Option<RootFile>, bundle: string -> Option<(string, nat)>, named: Descriptor -> bool, name: string -> string)

  datatype Roots = Roots(records: seq<RootRecord>, adapters: map<string, Adapter>)
  datatype Outcome = Loaded(roots: Roots) | Refused | InternalError

  function IdOf(d: Descriptor): string { d.id }
  function KindIn(d: Descriptor): Kind { d.kind }
  function ById(d: Descriptor): (string, Descriptor) { (d.id, d) }
  function ByKind(d: Descriptor): (Kind, Descriptor) { (d.kind, d) }

  function IdTable(ds: seq<Descriptor>): map<string, Descriptor> { Assign(map[], Map(ById, ds)) }
  function KindTable(ds: seq<Descriptor>): map<Kind, Descriptor> { Assign(map[], Map(ByKind, ds)) }

  // ----- Descriptors -----

  predicate Apart(d: Descriptor, e: Descriptor) {
    d.path != e.path && d.path != e.bundlePath && d.bundlePath != e.path && d.bundlePath != e.bundlePath
  }

  predicate DescriptorFits(st: Staging, required: map<string, Kind>, d: Descriptor) {
    d.id in required && required[d.id] == d.kind && st.named(d)
  }

  ghost predicate DescriptorsAdmitted(st: Staging, ds: seq<Descriptor>, required: map<string, Kind>) {
    && NoDup(Map(IdOf, ds)) && (forall d :: d in ds ==> DescriptorFits(st, required, d))
    && (forall i, j :: 0 <= i < j < |ds| ==> Apart(ds[i], ds[j]))
    && Elems(Map(IdOf, ds)) == required.Keys
  }

  /** The first loop of `load_release_roots`. */
  method ParseDescriptors(st: Staging, ds: seq<Descriptor>, required: map<string, Kind>) returns (r: Option<map<string, Descriptor>>)
    ensures r.Some? <==> DescriptorsAdmitted(st, ds, required)
    ensures r.Some? ==> r.value == IdTable(ds)
  {
    hide DescriptorFits;
    var parsed: map<string, Descriptor> := map[];
    var occupied: set<string> := {};
    for i := 0 to |ds|
      invariant parsed == IdTable(ds[..i]) && NoDup(Map(IdOf, ds[..i]))
      invariant occupied == Elems(FlatMap(PathsOf, ds[..i]))
      invariant forall k :: 0 <= k < i ==> DescriptorFits(st, required, ds[k])
      invariant forall k, l :: 0 <= k < l < i ==> Apart(ds[k], ds[l])
    {
      var d := ds[i];
      IdStep(ds, i);
      if d.id in parsed { return None; }
      if !DescriptorFits(st, required, d) { assert d in ds; return None; }
      OccupiedStep(ds, i);
      if d.path in occupied || d.bundlePath in occupied { return None; }
      occupied := occupied + {d.path, d.bundlePath};
      parsed := parsed[d.id := d];
    }
    assert ds[..|ds|] == ds;
    IdKeys(ds);
    if parsed.Keys != required.Keys { return None; }
    r := Some(parsed);
  }

  function PathsOf(d: Descriptor): seq<string> { [d.path, d.bundlePath] }

  lemma OccupiedStep(ds: seq<Descriptor>, i: nat)
    requires i < |ds|
    ensures var occupied := Elems(FlatMap(PathsOf, ds[..i]));
      && Elems(FlatMap(PathsOf, ds[..i + 1])) == occupied + {ds[i].path, ds[i].bundlePath}
      && (ds[i].path !in occupied && ds[i].bundlePath !in occupied <==> forall k :: 0 <= k < i ==> Apart(ds[k], ds[i]))
  {
    FlatMapStep(PathsOf, ds, i);
    assert Elems(PathsOf(ds[i])) == {ds[i].path, ds[i].bundlePath};
    FlatMapContains(PathsOf, ds[..i], ds[i].path);
    FlatMapContains(PathsOf, ds[..i], ds[i].bundlePath);
    forall k | 0 <= k < i ensures Apart(ds[k], ds[i]) <==> ds[i].path !in PathsOf(ds[..i][k]) && ds[i].bundlePath !in PathsOf(ds[..i][k]) {
      assert ds[..i][k] == ds[k];
    }
  }

  lemma IdStep(ds: seq<Descriptor>, i: nat)
    requires i < |ds|
    ensures IdTable(ds[..i + 1]) == IdTable(ds[..i])[ds[i].id := ds[i]]
    ensures ds[i].id in IdTable(ds[..i]) <==> ds[i].id in Map(IdOf, ds[..i])
    ensures NoDup(Map(IdOf, ds[..i])) ==> (NoDup(Map(IdOf, ds[..i + 1])) <==> ds[i].id !in Map(IdOf, ds[..i]))
    ensures ds[i].id in Map(IdOf, ds[..i]) ==> !NoDup(Map(IdOf, ds))
  {
    var before := Map(IdOf, ds[..i]);
    IdKeys(ds[..i]);
    assert Map(ById, ds[..i + 1]) == Map(ById, ds[..i]) + [ById(ds[i])];
    AssignLast(map[], Map(ById, ds[..i]), ById(ds[i]));
    assert Map(IdOf, ds[..i + 1]) == before + [ds[i].id];
    NoDupConcat(before, [ds[i].id]);
    if ds[i].id in before {
      var k :| 0 <= k < i && before[k] == ds[i].id;
      assert Map(IdOf, ds)[k] == Map(IdOf, ds)[i];
    }
  }

  lemma IdKeys(ds: seq<Descriptor>)
    ensures IdTable(ds).Keys == Elems(Map(IdOf, ds))
  {
    AssignKeys(map[], Map(ById, ds));
    assert Map(Fst, Map(ById, ds)) == Map(IdOf, ds);
  }

  lemma KindKeys(ds: seq<Descriptor>)
    ensures KindTable(ds).Keys == Elems(Map(KindIn, ds))
  {
    AssignKeys(map[], Map(ByKind, ds));
    assert Map(Fst, Map(ByKind, ds)) == Map(KindIn, ds);
  }

  // ----- Root documents -----

  predicate FilePresent(st: Staging, d: Descriptor) { st.root(d.path).Some? && st.bundle(d.bundlePath).Some? }

  function ValueOf(st: Staging, d: Descriptor): RootValue {
    match st.root(d.path) case Some(f) => f.value case None => ControlRoot(false, Source("", ""), map[])
  }

  function RecordFor(st: Staging): Descriptor -> RootRecord {
    (d: Descriptor) =>
      var f := match st.root(d.path) case Some(f) => (f.sha256, f.size) case None => ("", 0);
      var b := match st.bundle(d.bundlePath) case Some(b) => b case None => ("", 0);
      RootRecord(d.id, d.kind, d.path, f.0, f.1, d.bundlePath, b.0, b.1)
  }

  /** The descriptors in the order of their ids. */
  function InOrder(ds: seq<Descriptor>): seq<Descriptor> { Map(Find(IdTable(ds)), SortedNames(Map(IdOf, ds))) }
  function Find(t: map<string, Descriptor>): string -> Descriptor { id => if id in t then t[id] else Descriptor(id, ControlKind, "", "") }

  ghost predicate DocumentsAdmitted(st: Staging, ds: seq<Descriptor>) {
    NoDup(Map(KindIn, ds)) && forall d :: d in ds ==> FilePresent(st, d)
  }

  /** The second loop: one document per kind, in the order of the ids. */
  method Materialize(st: Staging, ordered: seq<Descriptor>) returns (r: Option<(seq<RootRecord>, map<Kind, Descriptor>)>)
    ensures r.Some? <==> DocumentsAdmitted(st, ordered)
    ensures r.Some? ==> r.value == (Map(RecordFor(st), ordered), KindTable(ordered))
  {
    hide FilePresent, RecordFor;
    var records: seq<RootRecord> := [];
    var byKind: map<Kind, Descriptor> := map[];
    for i := 0 to |ordered|
      invariant records == Map(RecordFor(st), ordered[..i]) && byKind == KindTable(ordered[..i])
      invariant NoDup(Map(KindIn, ordered[..i])) && forall k :: 0 <= k < i ==> FilePresent(st, ordered[k])
    {
      var d := ordered[i];
      KindStep(ordered, i);
      if d.kind in byKind { return None; }
      byKind := byKind[d.kind := d];
      if !FilePresent(st, d) { assert d in ordered; return None; }
      assert Map(RecordFor(st), ordered[..i + 1]) == records + [RecordFor(st)(d)];
      records := records + [RecordFor(st)(d)];
    }
    assert ordered[..|ordered|] == ordered;
    r := Some((records, byKind));
  }

  lemma KindStep(ds: seq<Descriptor>, i: nat)
    requires i < |ds|
    ensures KindTable(ds[..i + 1]) == KindTable(ds[..i])[ds[i].kind := ds[i]]
    ensures ds[i].kind in KindTable(ds[..i]) <==> ds[i].kind in Map(KindIn, ds[..i])
    ensures NoDup(Map(KindIn, ds[..i])) ==> (NoDup(Map(KindIn, ds[..i + 1])) <==> ds[i].kind !in Map(KindIn, ds[..i]))
    ensures ds[i].kind in Map(KindIn, ds[..i]) ==> !NoDup(Map(KindIn, ds))
  {
    var before := Map(KindIn, ds[..i]);
    KindKeys(ds[..i]);
    assert Map(ByKind, ds[..i + 1]) == Map(ByKind, ds[..i]) + [ByKind(ds[i])];
    AssignLast(map[], Map(ByKind, ds[..i]), ByKind(ds[i]));
    assert Map(KindIn, ds[..i + 1]) == before + [ds[i].kind];
    NoDupConcat(before, [ds[i].kind]);
    if ds[i].kind in before {
      var k :| 0 <= k < i && before[k] == ds[i].kind;
      assert Map(KindIn, ds)[k] == Map(KindIn, ds)[i];
    }
  }

  // ----- Construction in the order Control, Server, Connector -----

  function Made(st: Staging, t: map<Kind, Descriptor>, kind: Kind, source: Source): Option<Adapter> {
    if kind in t then Construct(kind, t[kind].id, ValueOf(st, t[kind]), source) else None
  }

  /** A Connector root built beside a server root answers to the server's Connector source. */
  function ConnectorSource(server: Option<Adapter>, source: Source): Source {
    if server.Some? && server.value.ServerAdapter? then server.value.connector.source else source
  }

  function Missing(t: map<Kind, Descriptor>, kind: Kind, a: Option<Adapter>): bool { kind in t && a.None? }

  function One(a: Option<Adapter>): seq<(string, Adapter)> { if a.Some? then [(a.value.rootId, a.value)] else [] }

  /** The adapters of one root per kind, or nothing when a constructor or a binding refuses. */
  function Assembled(st: Staging, t: map<Kind, Descriptor>, source: Source): Option<map<string, Adapter>> {
    var control, server := Made(st, t, ControlKind, source), Made(st, t, ServerKind, source);
    var connector := Made(st, t, ConnectorKind, ConnectorSource(server, source));
    if (ServerKind in t && ControlKind !in t) || Missing(t, ControlKind, control) || Missing(t, ServerKind, server)
       || Missing(t, ConnectorKind, connector) then None
    else if ServerKind in t && ControlKind in t && server.Some?
            && (!ControlBound(server.value, RecordFor(st)(t[ControlKind]), st.name)
                || (ConnectorKind in t && connector.Some?
                    && !ConnectorBound(server.value, RecordFor(st)(t[ConnectorKind]), connector.value, st.name))) then None
    else Some(Assign(map[], One(control) + One(server) + One(connector)))
  }

  /** `load_release_roots`. */
  ghost function LoadedRoots(st: Staging, ds: seq<Descriptor>, required: map<string, Kind>, source: Source): Option<Roots> {
    if required == map[] || ds == [] then (if required == map[] && ds == [] then Some(Roots([], map[])) else None)
    else if !DescriptorsAdmitted(st, ds, required) || !DocumentsAdmitted(st, InOrder(ds)) then None
    else
      match Assembled(st, KindTable(InOrder(ds)), source)
      case None => None
      case Some(adapters) => Some(Roots(Map(RecordFor(st), InOrder(ds)), adapters))
  }

  lemma MadeKind(st: Staging, t: map<Kind, Descriptor>, kind: Kind, source: Source)
    ensures Made(st, t, kind, source).Some? ==> KindOf(Made(st, t, kind, source).value) == kind && kind in t
                                                && Made(st, t, kind, source).value.rootId == t[kind].id
  {
    hide ConnectorSound, ControlSound, ServerSound;
  }

  /** Construction, with the checks the source calls internal errors. */
  method Assemble(st: Staging, t: map<Kind, Descriptor>, source: Source) returns (o: Outcome, adapters: map<string, Adapter>)
    requires forall k, l :: k in t && l in t && t[k].id == t[l].id ==> k == l
    ensures !o.InternalError?
    ensures o.Refused? <==> Assembled(st, t, source).None?
    ensures Assembled(st, t, source).Some? ==> adapters == Assembled(st, t, source).value
  {
    hide Construct, ControlBound, ConnectorBound, RecordFor;
    adapters := map[];
    if ServerKind in t && ControlKind !in t { return Refused, adapters; }
    MadeKind(st, t, ControlKind, source);
    MadeKind(st, t, ServerKind, source);
    ghost var control, server := Made(st, t, ControlKind, source), Made(st, t, ServerKind, source);
    if ControlKind in t {
      var a := Build(ControlKind, t[ControlKind].id, ValueOf(st, t[ControlKind]), source);
      if a.None? { return Refused, adapters; }
      adapters := adapters[t[ControlKind].id := a.value];
    }
    assert adapters == Assign(map[], One(control));
    if ServerKind in t {
      var a := Build(ServerKind, t[ServerKind].id, ValueOf(st, t[ServerKind]), source);
      if a.None? { return Refused, adapters; }
      adapters := adapters[t[ServerKind].id := a.value];
    }
    OneMore(One(control), server);
    var authority := source;
    MadeKind(st, t, ConnectorKind, ConnectorSource(server, source));
    ghost var connector := Made(st, t, ConnectorKind, ConnectorSource(server, source));
    if ConnectorKind in t {
      if ServerKind in t {
        if t[ServerKind].id !in adapters || !adapters[t[ServerKind].id].ServerAdapter? { return InternalError, adapters; }
        authority := adapters[t[ServerKind].id].connector.source;
      }
      var a := Build(ConnectorKind, t[ConnectorKind].id, ValueOf(st, t[ConnectorKind]), authority);
      if a.None? { return Refused, adapters; }
      adapters := adapters[t[ConnectorKind].id := a.value];
    }
    OneMore(One(control) + One(server), connector);
    if ServerKind in t {
      if t[ServerKind].id !in adapters || !adapters[t[ServerKind].id].ServerAdapter? || ControlKind !in t
         || t[ControlKind].id !in adapters || !adapters[t[ControlKind].id].ControlAdapter? { return InternalError, adapters; }
      var s := adapters[t[ServerKind].id];
      if !ControlBound(s, RecordFor(st)(t[ControlKind]), st.name) { return Refused, adapters; }
      if ConnectorKind in t {
        if t[ConnectorKind].id !in adapters || !adapters[t[ConnectorKind].id].ConnectorAdapter? { return InternalError, adapters; }
        if !ConnectorBound(s, RecordFor(st)(t[ConnectorKind]), adapters[t[ConnectorKind].id], st.name) { return Refused, adapters; }
      }
    }
    o := Loaded(Roots([], adapters));
  }

  lemma OneMore(rows: seq<(string, Adapter)>, a: Option<Adapter>)
    ensures Assign(map[], rows + One(a)) == if a.Some? then Assign(map[], rows)[a.value.rootId := a.value] else Assign(map[], rows)
  {
    if a.Some? { AssignLast(map[], rows, (a.value.rootId, a.value)); } else { assert rows + [] == rows; }
  }

  // ----- Loading -----

  /** Two rows of a table with distinct keys and the same rows in any order are the same table. */
  lemma AssignPermutation<K, V>(a: seq<(K, V)>, b: seq<(K, V)>)
    requires NoDup(Map(Fst, a)) && multiset(a) == multiset(b)
    ensures Assign(map[], a) == Assign(map[], b)
  {
    hide Assign;
    MapPermutation(Fst, a, b);
    NoDupPermutation(Map(Fst, a), Map(Fst, b));
    AssignRead(map[], a);
    AssignRead(map[], b);
    forall k | k in Assign(map[], a) ensures Assign(map[], a)[k] == Assign(map[], b)[k] {
      assert k in Elems(Map(Fst, a));
      var i :| 0 <= i < |a| && Map(Fst, a)[i] == k;
      assert a[i] in multiset(b);
      assert a[i] in b && a[i] in a;
    }
  }

  /** Sorting by id only reorders the descriptors. */
  lemma InOrderPermutes(ds: seq<Descriptor>)
    requires NoDup(Map(IdOf, ds))
    ensures multiset(InOrder(ds)) == multiset(ds) && Map(IdOf, InOrder(ds)) == SortedNames(Map(IdOf, ds))
  {
    var ids, t := Map(IdOf, ds), IdTable(ds);
    FoundAll(ds);
    MapPermutation(Find(t), SortedNames(ids), ids);
    assert Map(Find(t), ids) == ds;
    IdKeys(ds);
    NoDupPermutation(ids, SortedNames(ids));
    forall i | 0 <= i < |SortedNames(ids)| ensures Find(t)(SortedNames(ids)[i]).id == SortedNames(ids)[i] {
      assert SortedNames(ids)[i] in Elems(ids);
      var k :| 0 <= k < |ids| && ids[k] == SortedNames(ids)[i];
    }
  }

  lemma FoundAll(ds: seq<Descriptor>)
    requires NoDup(Map(IdOf, ds))
    ensures forall i :: 0 <= i < |ds| ==> Find(IdTable(ds))(ds[i].id) == ds[i]
  {
    var pairs := Map(ById, ds);
    assert Map(Fst, pairs) == Map(IdOf, ds);
    AssignRead(map[], pairs);
    forall i | 0 <= i < |ds| ensures Find(IdTable(ds))(ds[i].id) == ds[i] {
      assert pairs[i] in pairs;
    }
  }

  /** `load_release_roots`: the internal-error branches are never taken. */
  method LoadRoots(st: Staging, ds: seq<Descriptor>, required: map<string, Kind>, source: Source) returns (o: Outcome)
    ensures !o.InternalError?
    ensures o.Loaded? <==> LoadedRoots(st, ds, required, source).Some?
    ensures o.Loaded? ==> o.roots == LoadedRoots(st, ds, required, source).value
  {
    hide DescriptorsAdmitted, DocumentsAdmitted, Assembled, InOrder, KindTable, RecordFor, IdTable;
    if required == map[] || ds == [] {
      if required == map[] && ds == [] { return Loaded(Roots([], map[])); }
      return Refused;
    }
    var parsed := ParseDescriptors(st, ds, required);
    if parsed.None? { return Refused; }
    OrderFromTable(ds);
    var ordered := Map(Find(parsed.value), SortedNames(Map(IdOf, ds)));
    var documents := Materialize(st, ordered);
    if documents.None? { return Refused; }
    AdmittedIds(st, ds, required);
    TableIds(ordered);
    var adapters;
    o, adapters := Assemble(st, documents.value.1, source);
    if o.Loaded? { o := Loaded(Roots(documents.value.0, adapters)); }
  }

  lemma OrderFromTable(ds: seq<Descriptor>)
    ensures InOrder(ds) == Map(Find(IdTable(ds)), SortedNames(Map(IdOf, ds)))
  {
  }

  lemma AdmittedIds(st: Staging, ds: seq<Descriptor>, required: map<string, Kind>)
    requires DescriptorsAdmitted(st, ds, required)
    ensures NoDup(Map(IdOf, InOrder(ds)))
  {
    InOrderPermutes(ds);
    NoDupPermutation(Map(IdOf, ds), SortedNames(Map(IdOf, ds)));
  }

  /** With distinct ids and kinds, the table of kinds names each root once. */
  lemma TableIds(ds: seq<Descriptor>)
    requires NoDup(Map(IdOf, ds))
    ensures forall k, l :: k in KindTable(ds) && l in KindTable(ds) && KindTable(ds)[k].id == KindTable(ds)[l].id ==> k == l
    ensures forall k :: k in KindTable(ds) ==> KindTable(ds)[k] in ds && KindTable(ds)[k].kind == k
  {
    hide Assign;
    var t := KindTable(ds);
    forall k | k in t ensures t[k] in ds && t[k].kind == k {
      AssignValue(map[], Map(ByKind, ds), k);
      var p :| p in Map(ByKind, ds) && p.0 == k && p.1 == t[k];
      var i :| 0 <= i < |ds| && Map(ByKind, ds)[i] == p;
      assert ds[i] in ds;
    }
    forall k, l | k in t && l in t && t[k].id == t[l].id ensures k == l {
      var i :| 0 <= i < |ds| && ds[i] == t[k];
      var j :| 0 <= j < |ds| && ds[j] == t[l];
      assert Map(IdOf, ds)[i] == Map(IdOf, ds)[j];
    }
  }

  // ----- Reloading what was loaded -----

  function DescriptorOf(r: RootRecord): Descriptor { Descriptor(r.id, r.kind, r.path, r.bundlePath) }

  lemma {:induction false} ApartPermutes(a: seq<Descriptor>, b: seq<Descriptor>)
    requires multiset(a) == multiset(b) && NoDup(Map(IdOf, a)) && forall i, j :: 0 <= i < j < |a| ==> Apart(a[i], a[j])
    ensures forall i, j :: 0 <= i < j < |b| ==> Apart(b[i], b[j])
  {
    MapPermutation(IdOf, a, b);
    NoDupPermutation(Map(IdOf, a), Map(IdOf, b));
    forall i, j | 0 <= i < j < |b| ensures Apart(b[i], b[j]) {
      assert b[i] in multiset(a) && b[j] in multiset(a);
      var k :| 0 <= k < |a| && a[k] == b[i];
      var l :| 0 <= l < |a| && a[l] == b[j];
      assert Map(IdOf, b)[i] != Map(IdOf, b)[j];
      assert k < l ==> Apart(a[k], a[l]);
      assert l < k ==> Apart(a[l], a[k]);
    }
  }

  lemma AdmittedPermutes(st: Staging, a: seq<Descriptor>, b: seq<Descriptor>, required: map<string, Kind>)
    requires DescriptorsAdmitted(st, a, required) && multiset(a) == multiset(b)
    ensures DescriptorsAdmitted(st, b, required) && InOrder(b) == InOrder(a)
  {
    hide DescriptorFits, SortedNames, Assign;
    MapPermutation(IdOf, a, b);
    NoDupPermutation(Map(IdOf, a), Map(IdOf, b));
    ApartPermutes(a, b);
    forall d | d in b ensures DescriptorFits(st, required, d) {
      assert d in multiset(a);
      assert d in a;
    }
    MapPermutation(ById, a, b);
    assert Map(Fst, Map(ById, a)) == Map(IdOf, a);
    AssignPermutation(Map(ById, a), Map(ById, b));
    SortedNamesEqual(Map(IdOf, a), Map(IdOf, b));
  }

  /** The records a load returns describe the same roots: loading them again gives the same result. */
  lemma ReloadSame(st: Staging, ds: seq<Descriptor>, required: map<string, Kind>, source: Source)
    requires LoadedRoots(st, ds, required, source).Some?
    ensures var roots := LoadedRoots(st, ds, required, source).value;
      LoadedRoots(st, Map(DescriptorOf, roots.records), required, source) == Some(roots)
  {
    hide DescriptorsAdmitted, DocumentsAdmitted, Assembled, InOrder;
    if required != map[] && ds != [] {
      var ordered := InOrder(ds);
      AdmittedDistinct(st, ds, required);
      InOrderPermutes(ds);
      assert Map(DescriptorOf, Map(RecordFor(st), ordered)) == ordered;
      AdmittedPermutes(st, ds, ordered, required);
      assert |multiset(ordered)| == |ordered| && |multiset(ds)| == |ds|;
    } else {
      assert Map(DescriptorOf, []) == [];
    }
  }

  lemma AdmittedDistinct(st: Staging, ds: seq<Descriptor>, required: map<string, Kind>)
    requires DescriptorsAdmitted(st, ds, required)
    ensures NoDup(Map(IdOf, ds))
  {
  }

  function RecordId(r: RootRecord): string { r.id }

  /** Loaded roots have distinct ids. */
  lemma LoadedIds(st: Staging, ds: seq<Descriptor>, required: map<string, Kind>, source: Source)
    requires LoadedRoots(st, ds, required, source).Some?
    ensures NoDup(Map(RecordId, LoadedRoots(st, ds, required, source).value.records))
  {
    hide DocumentsAdmitted, Assembled, InOrder, DescriptorsAdmitted, SortedNames;
    if required != map[] && ds != [] {
      AdmittedDistinct(st, ds, required);
      InOrderPermutes(ds);
      NoDupPermutation(Map(IdOf, ds), SortedNames(Map(IdOf, ds)));
      assert Map(RecordId, Map(RecordFor(st), InOrder(ds))) == Map(IdOf, InOrder(ds));
    }
  }

  // ----- Every mapped target has its adapter -----

  /** An adapter holds exactly the selectors its kind can be asked for, and only admitted deliveries. */
  ghost predicate Complete(a: Adapter) {
    match a
    case ConnectorAdapter(_, _, _, released) => forall id, f :: id in CONNECTOR_IDS && f in FORMATS <==> (id, f) in released
    case ControlAdapter(_, _, images) => images.Keys == Elems(COMPONENTS)
    case ServerAdapter(_, _, _, _, served) => served.Keys == Elems(MODES) && forall m :: m in served ==> SplitDelivery.RootAdmits(served[m].content)
  }

  lemma ConstructComplete(kind: Kind, id: string, v: RootValue, source: Source)
    ensures Construct(kind, id, v, source).Some? ==> Complete(Construct(kind, id, v, source).value) && KindOf(Construct(kind, id, v, source).value) == kind
  {
    hide CONNECTOR_IDS, FORMATS, COMPONENTS, MODES, Rows, Assign, SplitDelivery.RootAdmits;
    if kind.ConnectorKind? && ConnectorSound(v, source) {
      forall t, f ensures t in CONNECTOR_IDS && f in FORMATS <==> (t, f) in Assign(map[], FlatMap(Rows, v.targets)) {
        ConnectorSelectors(v, source, t, f);
      }
    }
  }

  lemma RowsRead(a: Option<Adapter>, b: Option<Adapter>, c: Option<Adapter>)
    requires a.Some? && b.Some? ==> a.value.rootId != b.value.rootId
    requires a.Some? && c.Some? ==> a.value.rootId != c.value.rootId
    requires b.Some? && c.Some? ==> b.value.rootId != c.value.rootId
    ensures var m := Assign(map[], One(a) + One(b) + One(c));
      && (a.Some? ==> a.value.rootId in m && m[a.value.rootId] == a.value)
      && (b.Some? ==> b.value.rootId in m && m[b.value.rootId] == b.value)
      && (c.Some? ==> c.value.rootId in m && m[c.value.rootId] == c.value)
  {
    hide Assign;
    OneMore([], a);
    OneMore(One(a), b);
    OneMore(One(a) + One(b), c);
    assert [] + One(a) == One(a);
  }

  /** The adapter of each kind, complete and under its own id. */
  lemma AssembledServes(st: Staging, t: map<Kind, Descriptor>, source: Source, k: Kind)
    requires Assembled(st, t, source).Some? && k in t
    requires forall k, l :: k in t && l in t && t[k].id == t[l].id ==> k == l
    ensures var m := Assembled(st, t, source).value; t[k].id in m && KindOf(m[t[k].id]) == k && Complete(m[t[k].id])
  {
    hide Construct, ControlBound, ConnectorBound, RecordFor, Complete;
    var control, server := Made(st, t, ControlKind, source), Made(st, t, ServerKind, source);
    var connector := Made(st, t, ConnectorKind, ConnectorSource(server, source));
    MadeKind(st, t, ControlKind, source);
    MadeKind(st, t, ServerKind, source);
    MadeKind(st, t, ConnectorKind, ConnectorSource(server, source));
    RowsRead(control, server, connector);
    var used := if k.ConnectorKind? then ConnectorSource(server, source) else source;
    ConstructComplete(k, t[k].id, ValueOf(st, t[k]), used);
  }

  /** Loading yields, for every required root, a complete adapter of the required kind. */
  lemma LoadServes(st: Staging, ds: seq<Descriptor>, required: map<string, Kind>, source: Source, id: string)
    requires LoadedRoots(st, ds, required, source).Some? && id in required
    ensures var m := LoadedRoots(st, ds, required, source).value.adapters; id in m && KindOf(m[id]) == required[id] && Complete(m[id])
  {
    hide DocumentsAdmitted, Assembled, InOrder, Complete, RecordFor, DescriptorFits;
    var ordered := InOrder(ds);
    AdmittedIds(st, ds, required);
    TableIds(ordered);
    InOrderPermutes(ds);
    assert id in Elems(Map(IdOf, ds));
    var i :| 0 <= i < |ds| && Map(IdOf, ds)[i] == id;
    var d := ds[i];
    assert d in ds && DescriptorFits(st, required, d);
    FitsKind(st, required, d);
    assert d in multiset(ordered);
    KindOfDescriptor(st, ordered, d);
    AssembledServes(st, KindTable(ordered), source, d.kind);
  }

  lemma FitsKind(st: Staging, required: map<string, Kind>, d: Descriptor)
    requires DescriptorFits(st, required, d)
    ensures required[d.id] == d.kind
  {
  }

  lemma KindOfDescriptor(st: Staging, ds: seq<Descriptor>, d: Descriptor)
    requires DocumentsAdmitted(st, ds) && d in ds
    ensures d.kind in KindTable(ds) && KindTable(ds)[d.kind] == d
  {
    hide Assign;
    var pairs := Map(ByKind, ds);
    assert Map(Fst, pairs) == Map(KindIn, ds);
    AssignRead(map[], pairs);
    var i :| 0 <= i < |ds| && ds[i] == d;
    assert pairs[i] in pairs;
  }
}
