/** The closed release-root policy and the roots and selectors it fixes for a profile. */
module RootPolicy {
  import opened Sequences

  datatype Kind = ConnectorKind | ControlKind | ServerKind
  datatype Selector = Component(component: string) | Mode(mode: string) | Released(target: string, format: string)
  datatype TargetKind = SourceTarget | ContainerTarget | FileTarget
  datatype Mapping = Mapping(root: string, selector: Selector)

  const SOURCE := "source"

  /** `POLICY_ROOT_KINDS`, in its order. */
  const ROOT_ORDER := ["connector", "control", "server"]

  function RootKinds(): map<string, Kind> {
    map["connector" := ConnectorKind, "control" := ControlKind, "server" := ServerKind]
  }

  datatype Requirement = Requirement(name: string, mapping: Mapping, kind: TargetKind)

  /** `POLICY_TARGETS`. */
  const REQUIREMENTS := [
    Requirement("control-api-image", Mapping("control", Component("control-api")), ContainerTarget),
    Requirement("pwa-image", Mapping("control", Component("pwa")), ContainerTarget),
    Requirement("postgres-tools-image", Mapping("control", Component("postgres-tools")), ContainerTarget),
    Requirement("server-online-linux-amd64", Mapping("server", Mode("online")), FileTarget),
    Requirement("server-offline-linux-amd64", Mapping("server", Mode("offline")), FileTarget),
    Requirement("connector-linux-amd64-deb", Mapping("connector", Released("linux-amd64", "deb")), FileTarget),
    Requirement("connector-linux-amd64-rpm", Mapping("connector", Released("linux-amd64", "rpm")), FileTarget),
    Requirement("connector-linux-arm64-deb", Mapping("connector", Released("linux-arm64", "deb")), FileTarget),
    Requirement("connector-linux-arm64-rpm", Mapping("connector", Released("linux-arm64", "rpm")), FileTarget)]

  function NamedMapping(r: Requirement): (string, Mapping) { (r.name, r.mapping) }
  function NamedKind(r: Requirement): (string, TargetKind) { (r.name, r.kind) }
  function RequirementName(r: Requirement): string { r.name }

  function FixedMappings(): map<string, Mapping> { Assign(map[], Map(NamedMapping, REQUIREMENTS)) }
  function FixedKinds(): map<string, TargetKind> { Assign(map[SOURCE := SourceTarget], Map(NamedKind, REQUIREMENTS)) }

  datatype Policy = Policy(
    kinds: map<string, Kind>, targetKinds: map<string, TargetKind>, mappings: map<string, Mapping>,
    profiles: map<string, seq<string>>, rootProfiles: map<string, seq<string>>)

  /** The roots some target of a list is derived from. */
  function UsedRoots(targets: seq<string>): set<string> {
    set t | t in targets && t != SOURCE && t in FixedMappings() :: FixedMappings()[t].root
  }

  function InSet(s: set<string>): string -> bool { x => x in s }

  predicate ProfileAdmitted(p: Policy, name: string)
    requires name in p.profiles
  {
    var targets := p.profiles[name];
    && targets != [] && NoDup(targets) && (forall t :: t in targets ==> t in p.targetKinds)
    && name in p.rootProfiles && p.rootProfiles[name] == Select(InSet(UsedRoots(targets)), ROOT_ORDER)
  }

  /** The policy is the fixed registry, with each profile's roots exactly those its targets use. */
  predicate PolicyAdmitted(p: Policy) {
    && p.kinds == RootKinds() && p.targetKinds == FixedKinds() && p.mappings == FixedMappings()
    && p.profiles != map[] && p.rootProfiles.Keys == p.profiles.Keys
    && forall name :: name in p.profiles ==> ProfileAdmitted(p, name)
  }

  predicate IsMapped(t: string) { t != SOURCE }

  datatype Requirements = Requirements(roots: map<string, Kind>, mappings: map<string, Mapping>)

  function Kept(p: Policy): string -> (string, Mapping) {
    t => (t, if t in p.mappings then p.mappings[t] else Mapping("", Component("")))
  }

  function Rooted(p: Policy): string -> (string, Kind) { id => (id, if id in p.kinds then p.kinds[id] else ControlKind) }

  /** `policy_requirements`. */
  function PolicyRequirements(p: Policy, profile: string, targets: seq<string>): Option<Requirements> {
    if PolicyAdmitted(p) && profile in p.profiles && targets == p.profiles[profile] && profile in p.rootProfiles then
      Some(Requirements(Assign(map[], Map(Rooted(p), p.rootProfiles[profile])),
                        Assign(map[], Map(Kept(p), Select(IsMapped, targets)))))
    else None
  }

  // ----- What an admitted profile fixes -----

  lemma FixedNames()
    ensures FixedMappings().Keys == Elems(Map(RequirementName, REQUIREMENTS))
    ensures FixedKinds().Keys == FixedMappings().Keys + {SOURCE}
  {
    hide REQUIREMENTS;
    AssignKeys(map[], Map(NamedMapping, REQUIREMENTS));
    AssignKeys(map[SOURCE := SourceTarget], Map(NamedKind, REQUIREMENTS));
    assert Map(Fst, Map(NamedMapping, REQUIREMENTS)) == Map(RequirementName, REQUIREMENTS);
    assert Map(Fst, Map(NamedKind, REQUIREMENTS)) == Map(RequirementName, REQUIREMENTS);
  }

  lemma RequirementNamesDistinct()
    ensures NoDup(Map(RequirementName, REQUIREMENTS))
  {
    var names := Map(RequirementName, REQUIREMENTS);
    assert |names| == 9;
    assert |names[0]| == 17 && |names[1]| == 9 && |names[2]| == 20 && names[3] == "server-online-linux-amd64"
        && |names[4]| == 26 && names[5] == "connector-linux-amd64-deb" && names[6] == "connector-linux-amd64-rpm"
        && names[7] == "connector-linux-arm64-deb" && names[8] == "connector-linux-arm64-rpm";
    assert names[3][0] == 's' && names[5][0] == 'c' && names[6][0] == 'c' && names[7][0] == 'c' && names[8][0] == 'c';
    assert names[5][17] == 'm' && names[6][17] == 'm' && names[7][17] == 'r' && names[8][17] == 'r';
    assert names[5][22] == 'd' && names[6][22] == 'r' && names[7][22] == 'd' && names[8][22] == 'r';
  }

  /** Every fixed target has its own requirement. */
  lemma MappingOf(name: string) returns (r: Requirement)
    requires name in FixedMappings()
    ensures r in REQUIREMENTS && r.name == name && FixedMappings()[name] == r.mapping && r.name in FixedKinds() && FixedKinds()[name] == r.kind
  {
    hide REQUIREMENTS;
    FixedNames();
    RequirementNamesDistinct();
    var names, pairs, kinds := Map(RequirementName, REQUIREMENTS), Map(NamedMapping, REQUIREMENTS), Map(NamedKind, REQUIREMENTS);
    var i :| 0 <= i < |names| && names[i] == name;
    r := REQUIREMENTS[i];
    assert Map(Fst, pairs) == names && Map(Fst, kinds) == names;
    AssignRead(map[], pairs);
    AssignRead(map[SOURCE := SourceTarget], kinds);
    assert pairs[i] in pairs && kinds[i] in kinds;
  }

  lemma RootsOfRequirements(r: Requirement)
    requires r in REQUIREMENTS
    ensures r.mapping.root in ROOT_ORDER && r.mapping.root in RootKinds()
  {
    assert ROOT_ORDER[0] == "connector" && ROOT_ORDER[1] == "control" && ROOT_ORDER[2] == "server";
  }

  /** A root is required, with the registry's kind. */
  predicate Serves(r: Requirements, root: string) { root in RootKinds() && root in r.roots && r.roots[root] == RootKinds()[root] }

  /** Each mapped target of an admitted profile keeps its fixed mapping, and its root is required
      with the fixed kind. */
  lemma RequirementsCover(p: Policy, profile: string, targets: seq<string>, t: string)
    requires PolicyRequirements(p, profile, targets).Some? && t in targets && t != SOURCE
    ensures var r := PolicyRequirements(p, profile, targets).value;
      && t in r.mappings && t in FixedMappings() && r.mappings[t] == FixedMappings()[t]
      && Serves(r, FixedMappings()[t].root)
  {
    hide REQUIREMENTS, FixedMappings, FixedKinds, RootKinds, ROOT_ORDER;
    var r := PolicyRequirements(p, profile, targets).value;
    FixedNames();
    assert ProfileAdmitted(p, profile);
    assert t in p.targetKinds && t in FixedMappings();
    var q := MappingOf(t);
    RootsOfRequirements(q);
    var root := FixedMappings()[t].root;
    SelectMembers(InSet(UsedRoots(targets)), ROOT_ORDER, root);
    assert root in p.rootProfiles[profile];
    ReadKeyed(Rooted(p), p.rootProfiles[profile], root);
    SelectMembers(IsMapped, targets, t);
    ReadKeyed(Kept(p), Select(IsMapped, targets), t);
  }

  /** A dictionary comprehension over a list gives every listed key its value. */
  lemma {:induction false} ReadKeyed<V>(f: string -> (string, V), keys: seq<string>, k: string)
    requires k in keys && forall x :: x in keys ==> f(x).0 == x
    ensures var m := Assign(map[], Map(f, keys)); k in m && m[k] == f(k).1
  {
    hide Assign;
    var init, last := keys[..|keys| - 1], keys[|keys| - 1];
    assert keys == init + [last] && last in keys;
    assert Map(f, keys) == Map(f, init) + [f(last)];
    AssignLast(map[], Map(f, init), f(last));
    if k != last { ReadKeyed(f, init, k); }
  }

  /** The required roots are those of the profile, with the registry's kinds. */
  lemma RequiredRoots(p: Policy, profile: string, targets: seq<string>, id: string)
    requires PolicyRequirements(p, profile, targets).Some? && id in PolicyRequirements(p, profile, targets).value.roots
    ensures id in RootKinds() && PolicyRequirements(p, profile, targets).value.roots[id] == RootKinds()[id]
  {
    hide REQUIREMENTS, FixedMappings, FixedKinds;
    var roots := p.rootProfiles[profile];
    assert ProfileAdmitted(p, profile);
    AssignKeys(map[], Map(Rooted(p), roots));
    assert Map(Fst, Map(Rooted(p), roots)) == roots;
    assert id in roots;
    SelectMembers(InSet(UsedRoots(targets)), ROOT_ORDER, id);
    ReadKeyed(Rooted(p), roots, id);
  }
}
