/** The package index that ties each vulnerability of a report to a listed package. */
module PackageIndex {
  import opened Sequences
  import opened Decimal
  import opened VulnerabilityFindings

  /** The composed spelling `epoch:version-release` of a package version. */
  function Composed(p: Package): string {
    var released := if p.release != "" then VersionOf(p) + "-" + p.release else VersionOf(p);
    if p.epoch > 0 then Spell(p.epoch) + ":" + released else released
  }

  function Spellings(p: Package): set<string> {
    {VersionOf(p)} + if VersionOf(p) != "" then {Composed(p)} else {}
  }

  predicate Compatible(a: string, b: string) { a == "" || b == "" || a == b }

  /** A vulnerability belongs to a package: same name, compatible package URL, either spelling. */
  predicate Belongs(v: Vulnerability, p: Package) {
    p.name == v.package && Compatible(v.purl, p.purl) && v.installed in Spellings(p)
  }

  type Occurrence = (string, string, string, string)

  function OccurrenceOf(p: Package): Occurrence { (p.name, VersionOf(p), p.purl, p.filePath) }

  predicate VulnerabilityNamed(v: Vulnerability) { v.package != "" && v.installed != "" }

  ghost predicate Structured(r: ScanResult) {
    && r.packages != [] && (forall p :: p in r.packages ==> PackageComplete(p))
    && NoDup(Map(OccurrenceOf, r.packages))
    && (forall v :: v in r.vulnerabilities ==> VulnerabilityNamed(v) && exists p :: p in r.packages && Belongs(v, p))
  }

  // ----- The index -----

  type Index = map<(string, string), set<string>>

  /** The spellings of every listed package with a name and package URL. */
  ghost predicate Indexes(index: Index, packages: seq<Package>) {
    && (forall p :: p in packages ==> (p.name, p.purl) in index)
    && (forall k :: k in index ==> forall x :: x in index[k] <==> exists p :: p in packages && (p.name, p.purl) == k && x in Spellings(p))
  }

  /** The membership test of `validate_report_structure`. */
  predicate Found(keys: set<(string, string, string)>, index: Index, v: Vulnerability) {
    exists k :: k in keys && k.0 == v.package && Compatible(v.purl, k.2) && (k.0, k.2) in index && v.installed in index[(k.0, k.2)]
  }

  /** The index accepts a vulnerability exactly when it belongs to some listed package. */
  lemma IndexExact(packages: seq<Package>, keys: set<(string, string, string)>, index: Index, v: Vulnerability)
    requires keys == Elems(Map(PackageKey, packages)) && Indexes(index, packages)
    ensures Found(keys, index, v) <==> exists p :: p in packages && Belongs(v, p)
  {
    hide Spellings;
    if Found(keys, index, v) {
      var k :| k in keys && k.0 == v.package && Compatible(v.purl, k.2) && (k.0, k.2) in index && v.installed in index[(k.0, k.2)];
      var p :| p in packages && (p.name, p.purl) == (k.0, k.2) && v.installed in Spellings(p);
      assert Belongs(v, p);
    }
    if p :| p in packages && Belongs(v, p) {
      var i :| 0 <= i < |packages| && packages[i] == p;
      assert Map(PackageKey, packages)[i] == PackageKey(p);
      assert PackageKey(p) in keys && (p.name, p.purl) in index && v.installed in index[(p.name, p.purl)];
    }
  }

  lemma IndexStep(index: Index, packages: seq<Package>, p: Package, grown: Index)
    requires Indexes(index, packages)
    requires grown == index[(p.name, p.purl) := (if (p.name, p.purl) in index then index[(p.name, p.purl)] else {}) + Spellings(p)]
    ensures Indexes(grown, packages + [p])
  {
    hide Spellings;
    var key := (p.name, p.purl);
    var all := packages + [p];
    forall k | k in grown
      ensures forall x :: x in grown[k] <==> exists q :: q in all && (q.name, q.purl) == k && x in Spellings(q)
    {
      forall x ensures x in grown[k] <==> exists q :: q in all && (q.name, q.purl) == k && x in Spellings(q) {
        assert k == key && key !in index ==> !exists q :: q in packages && (q.name, q.purl) == k;
        if q :| q in packages && (q.name, q.purl) == k && x in Spellings(q) { assert q in all; }
        if k == key && x in Spellings(p) { assert p in all; }
      }
    }
  }

  /** The package loop of `validate_report_structure`. */
  method IndexPackages(packages: seq<Package>) returns (ok: bool, keys: set<(string, string, string)>, index: Index)
    ensures ok <==> (forall p :: p in packages ==> PackageComplete(p)) && NoDup(Map(OccurrenceOf, packages))
    ensures ok ==> keys == Elems(Map(PackageKey, packages)) && Indexes(index, packages)
  {
    hide PackageComplete, Spellings, Indexes, PackageKey, OccurrenceOf;
    keys, index := {}, map[];
    var occurrences: set<Occurrence> := {};
    NoPackages();
    for i := 0 to |packages|
      invariant forall k :: 0 <= k < i ==> PackageComplete(packages[k])
      invariant occurrences == Elems(Map(OccurrenceOf, packages[..i])) && NoDup(Map(OccurrenceOf, packages[..i]))
      invariant keys == Elems(Map(PackageKey, packages[..i])) && Indexes(index, packages[..i])
    {
      var p := packages[i];
      if !PackageComplete(p) { return false, keys, index; }
      Grow(OccurrenceOf, packages, i);
      Grow(PackageKey, packages, i);
      if OccurrenceOf(p) in occurrences {
        Repeated(OccurrenceOf, packages, i);
        return false, keys, index;
      }
      NoDupConcat(Map(OccurrenceOf, packages[..i]), [OccurrenceOf(p)]);
      occurrences, keys := occurrences + {OccurrenceOf(p)}, keys + {PackageKey(p)};
      var grown := index[(p.name, p.purl) := (if (p.name, p.purl) in index then index[(p.name, p.purl)] else {}) + Spellings(p)];
      IndexStep(index, packages[..i], p, grown);
      assert packages[..i + 1] == packages[..i] + [p];
      index := grown;
    }
    assert packages[..|packages|] == packages;
    ok := true;
  }

  lemma NoPackages()
    ensures Indexes(map[], [])
  {
  }

  method ValidateResult(r: ScanResult) returns (ok: bool, keys: set<(string, string, string)>)
    ensures ok <==> Structured(r)
    ensures ok ==> keys == Elems(ResultKeys(r))
  {
    hide PackageComplete, PackageKey, OccurrenceOf, Indexes, Found, Belongs, VulnerabilityNamed;
    keys := {};
    if r.packages == [] { return false, keys; }
    var index;
    ok, keys, index := IndexPackages(r.packages);
    if !ok { return; }
    for i := 0 to |r.vulnerabilities|
      invariant forall k :: 0 <= k < i ==>
        VulnerabilityNamed(r.vulnerabilities[k]) && exists p :: p in r.packages && Belongs(r.vulnerabilities[k], p)
    {
      var v := r.vulnerabilities[i];
      IndexExact(r.packages, keys, index, v);
      if !VulnerabilityNamed(v) || !Found(keys, index, v) { return false, keys; }
    }
  }

  /** `validate_report_structure`: the number of distinct packages of a structured report. */
  method ValidateReport(results: seq<ScanResult>) returns (r: Option<nat>)
    ensures r.Some? <==> results != [] && forall x :: x in results ==> Structured(x)
    ensures r.Some? ==> r.value == |Elems(FlatMap(ResultKeys, results))|
  {
    hide Structured, ResultKeys;
    if results == [] { return None; }
    var inventory: set<(string, string, string)> := {};
    for i := 0 to |results|
      invariant forall k :: 0 <= k < i ==> Structured(results[k])
      invariant inventory == Elems(FlatMap(ResultKeys, results[..i]))
    {
      var ok, keys := ValidateResult(results[i]);
      if !ok { return None; }
      FlatMapStep(ResultKeys, results, i);
      inventory := inventory + keys;
    }
    assert results[..|results|] == results;
    r := Some(|inventory|);
  }

  /** A vulnerability has what only extraction asks for. */
  predicate Rated(v: Vulnerability) { v.id != "" && v.severity != "" }

  /** A structured result lacks nothing extraction needs except identifiers and severities. */
  lemma StructuredIsComplete(r: ScanResult)
    requires Structured(r)
    ensures ResultComplete(r) <==> forall v :: v in r.vulnerabilities ==> Rated(v)
  {
  }

  /** Both report checks on one report: they return the same number of packages, and extraction
      fails on a structured report only over ratings or findings that clash. */
  method CountTwice(target: string, results: seq<ScanResult>) returns (structure: Option<nat>, extraction: Option<nat>)
    ensures structure.Some? && extraction.Some? ==> structure == extraction
    ensures structure.Some? ==> (extraction.Some? <==>
      && (forall r, v :: r in results && v in r.vulnerabilities ==> Rated(v))
      && NoDup(Map(IdentityOf, Unique(FlatMap(ResultFindings(target), results)))))
  {
    hide Structured, ResultComplete, ResultFindings, Rated, Unique;
    structure := ValidateReport(results);
    var findings := ExtractFindings(target, results);
    extraction := if findings.Some? then Some(findings.value.1) else None;
    forall r | r in results && Structured(r) ensures ResultComplete(r) <==> forall v :: v in r.vulnerabilities ==> Rated(v) {
      StructuredIsComplete(r);
    }
  }
}
