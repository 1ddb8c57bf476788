/** Findings of the vulnerability gate: extraction, review dispositions, and the receipt's counts. */
module VulnerabilityFindings {
  import opened Sequences
  import opened Text

  // ----- Reports -----

  /** A listed package; `release` and `epoch` are empty and zero when the report omits them. */
  datatype Package = Package(
    name: string, version: Option<string>, purl: string, root: bool, filePath: string, release: string, epoch: nat)
  datatype Vulnerability = Vulnerability(
    id: string, purl: string, package: string, installed: string, fixed: string, severity: string)
  datatype ScanResult = ScanResult(packages: seq<Package>, vulnerabilities: seq<Vulnerability>)

  datatype Finding = Finding(target: string, id: string, package: string, installed: string, fixed: string, severity: string)
  type Identity = (string, string, string, string)

  function IdentityOf(f: Finding): Identity { (f.target, f.id, f.package, f.installed) }

  function UpperChar(c: char): char { if 'a' <= c <= 'z' then (c as int - 32) as char else c }
  function Upper(s: string): string { Map(UpperChar, s) }

  function VersionOf(p: Package): string { if p.version.Some? then p.version.value else "" }

  predicate PackageComplete(p: Package) { p.name != "" && (VersionOf(p) != "" || p.root) && (p.version.None? ==> p.root) }
  predicate VulnerabilityComplete(v: Vulnerability) { v.id != "" && v.installed != "" && v.severity != "" && (v.purl != "" || v.package != "") }

  predicate ResultComplete(r: ScanResult) {
    && r.packages != [] && (forall p :: p in r.packages ==> PackageComplete(p))
    && (forall v :: v in r.vulnerabilities ==> VulnerabilityComplete(v))
  }

  function FindingOf(target: string): Vulnerability -> Finding {
    (v: Vulnerability) => Finding(target, v.id, if v.purl != "" then v.purl else v.package, v.installed, v.fixed, Upper(v.severity))
  }

  function PackageKey(p: Package): (string, string, string) { (p.name, VersionOf(p), p.purl) }

  function ResultFindings(target: string): ScanResult -> seq<Finding> { (r: ScanResult) => Map(FindingOf(target), r.vulnerabilities) }
  function ResultKeys(r: ScanResult): seq<(string, string, string)> { Map(PackageKey, r.packages) }

  // ----- Collapsing exact duplicates -----

  /** The first occurrence of every element, in order. */
  function Unique<T(==)>(s: seq<T>): seq<T> {
    if s == [] then []
    else var init, last := s[..|s| - 1], s[|s| - 1]; if last in init then Unique(init) else Unique(init) + [last]
  }

  lemma {:induction false} UniqueElements<T>(s: seq<T>)
    ensures NoDup(Unique(s)) && Elems(Unique(s)) == Elems(s)
  {
    if s != [] {
      var init, last := s[..|s| - 1], s[|s| - 1];
      assert s == init + [last];
      UniqueElements(init);
      if last !in init {
        assert last !in Elems(Unique(init));
        NoDupConcat(Unique(init), [last]);
      }
      assert Elems(s) == Elems(init) + {last};
    }
  }

  /** A report is accepted exactly when it is complete and its distinct findings differ in identity. */
  ghost predicate Extractable(target: string, results: seq<ScanResult>) {
    && results != [] && (forall r :: r in results ==> ResultComplete(r))
    && NoDup(Map(IdentityOf, Unique(FlatMap(ResultFindings(target), results))))
  }

  method CollectResult(target: string, r: ScanResult) returns (ok: bool, keys: set<(string, string, string)>, findings: seq<Finding>)
    ensures ok <==> ResultComplete(r)
    ensures ok ==> keys == Elems(ResultKeys(r)) && findings == ResultFindings(target)(r)
  {
    hide PackageComplete, VulnerabilityComplete, FindingOf, PackageKey;
    keys, findings := {}, [];
    if r.packages == [] { return false, keys, findings; }
    for i := 0 to |r.packages|
      invariant forall k :: 0 <= k < i ==> PackageComplete(r.packages[k])
      invariant keys == Elems(Map(PackageKey, r.packages[..i]))
    {
      if !PackageComplete(r.packages[i]) { return false, keys, findings; }
      Grow(PackageKey, r.packages, i);
      keys := keys + {PackageKey(r.packages[i])};
    }
    for i := 0 to |r.vulnerabilities|
      invariant forall k :: 0 <= k < i ==> VulnerabilityComplete(r.vulnerabilities[k])
      invariant findings == Map(FindingOf(target), r.vulnerabilities[..i])
    {
      if !VulnerabilityComplete(r.vulnerabilities[i]) { return false, keys, findings; }
      Grow(FindingOf(target), r.vulnerabilities, i);
      findings := findings + [FindingOf(target)(r.vulnerabilities[i])];
    }
    assert r.packages[..|r.packages|] == r.packages && r.vulnerabilities[..|r.vulnerabilities|] == r.vulnerabilities;
    ok := true;
  }

  lemma Grow<A, B>(g: A -> B, s: seq<A>, i: nat)
    requires i < |s|
    ensures Map(g, s[..i + 1]) == Map(g, s[..i]) + [g(s[i])]
    ensures Elems(Map(g, s[..i + 1])) == Elems(Map(g, s[..i])) + {g(s[i])}
  {
    assert Map(g, s[..i + 1]) == Map(g, s[..i]) + [g(s[i])];
  }

  method CollapseFindings(all: seq<Finding>) returns (unique: seq<Finding>)
    ensures unique == Unique(all)
  {
    unique := [];
    var seen: set<Finding> := {};
    for i := 0 to |all|
      invariant unique == Unique(all[..i]) && seen == Elems(all[..i])
    {
      assert all[..i + 1][..i] == all[..i];
      assert Elems(all[..i + 1]) == Elems(all[..i]) + {all[i]};
      if all[i] in seen { continue; }
      seen, unique := seen + {all[i]}, unique + [all[i]];
    }
    assert all[..|all|] == all;
  }

  /** `_extract_findings`: the distinct findings in report order and the number of distinct packages. */
  method ExtractFindings(target: string, results: seq<ScanResult>) returns (r: Option<(seq<Finding>, nat)>)
    ensures r.Some? <==> Extractable(target, results)
    ensures r.Some? ==> r.value == (Unique(FlatMap(ResultFindings(target), results)), |Elems(FlatMap(ResultKeys, results))|)
  {
    hide ResultComplete, ResultKeys, ResultFindings;
    if results == [] { return None; }
    var findings: seq<Finding> := [];
    var packages: set<(string, string, string)> := {};
    for i := 0 to |results|
      invariant forall k :: 0 <= k < i ==> ResultComplete(results[k])
      invariant findings == FlatMap(ResultFindings(target), results[..i])
      invariant packages == Elems(FlatMap(ResultKeys, results[..i]))
    {
      var ok, keys, added := CollectResult(target, results[i]);
      if !ok { return None; }
      FlatMapStep(ResultFindings(target), results, i);
      FlatMapStep(ResultKeys, results, i);
      findings, packages := findings + added, packages + keys;
    }
    assert results[..|results|] == results;
    SomePackage(results);
    findings := CollapseFindings(findings);
    var identities := Map(IdentityOf, findings);
    DistinctCount(identities);
    if |identities| != |Elems(identities)| { return None; }
    r := Some((findings, |packages|));
  }

  /** Complete results list at least one package, so the coverage check after the loop cannot fail. */
  lemma SomePackage(results: seq<ScanResult>)
    requires results != [] && ResultComplete(results[0])
    ensures Elems(FlatMap(ResultKeys, results)) != {}
  {
    assert ResultKeys(results[0])[0] in FlatMap(ResultKeys, results);
    assert ResultKeys(results[0])[0] in Elems(FlatMap(ResultKeys, results));
  }

  // ----- Review dispositions -----

  /** Times are microseconds. */
  const MINUTE := 60_000_000
  const DAY := 86_400_000_000

  datatype Disposition = Disposition(
    identity: Identity, status: string, owner: string, rationale: string, reviewedAt: int, expiresAt: int)

  /** The gate's review terms; owner and rationale texts are judged by the policy's own tests. */
  datatype ReviewTerms = ReviewTerms(allowed: seq<string>, maxDays: int, namedOwner: string -> bool, explained: string -> bool)

  function EntryIdentity(e: Disposition): Identity { e.identity }

  predicate IdentityFilled(i: Identity) { i.0 != "" && i.1 != "" && i.2 != "" && i.3 != "" }

  predicate Live(terms: ReviewTerms, e: Disposition, now: int) {
    && e.status in terms.allowed && terms.namedOwner(e.owner) && terms.explained(e.rationale)
    && e.reviewedAt <= now + 5 * MINUTE && e.expiresAt > now
    && e.reviewedAt < e.expiresAt <= e.reviewedAt + terms.maxDays * DAY
  }

  /** Entries in bijection with the expected identities, each live. */
  ghost predicate Dispositioned(entries: seq<Disposition>, expected: set<Identity>, targets: set<string>, terms: ReviewTerms, now: int) {
    && terms.allowed != []
    && NoDup(Map(EntryIdentity, entries)) && Elems(Map(EntryIdentity, entries)) == expected
    && forall e :: e in entries ==> IdentityFilled(e.identity) && e.identity.0 in targets && Live(terms, e, now)
  }

  /** `_load_dispositions`. */
  method LoadDispositions(entries: seq<Disposition>, expected: set<Identity>, targets: set<string>, terms: ReviewTerms, now: int)
    returns (ok: bool)
    ensures ok <==> Dispositioned(entries, expected, targets, terms, now)
  {
    hide Live, IdentityFilled;
    if terms.allowed == [] { return false; }
    var observed: set<Identity> := {};
    for i := 0 to |entries|
      invariant observed == Elems(Map(EntryIdentity, entries[..i])) && observed <= expected
      invariant NoDup(Map(EntryIdentity, entries[..i]))
      invariant forall k :: 0 <= k < i ==>
        IdentityFilled(entries[k].identity) && entries[k].identity.0 in targets && Live(terms, entries[k], now)
    {
      var e := entries[i];
      Grow(EntryIdentity, entries, i);
      NoDupConcat(Map(EntryIdentity, entries[..i]), [e.identity]);
      assert Map(EntryIdentity, entries)[i] == e.identity && e in entries;
      if !IdentityFilled(e.identity) { return false; }
      if e.identity in observed {
        Repeated(EntryIdentity, entries, i);
        return false;
      }
      observed := observed + {e.identity};
      if e.identity !in expected {
        assert e.identity in Elems(Map(EntryIdentity, entries));
        return false;
      }
      if e.identity.0 !in targets || !Live(terms, e, now) { return false; }
    }
    assert entries[..|entries|] == entries;
    var missing := expected - observed;
    assert forall x :: x in expected ==> x in observed || x in missing;
    ok := missing == {};
  }

  lemma Repeated<A, B>(g: A -> B, s: seq<A>, i: nat)
    requires i < |s| && g(s[i]) in Map(g, s[..i])
    ensures !NoDup(Map(g, s))
  {
    var k :| 0 <= k < i && Map(g, s[..i])[k] == g(s[i]);
    assert Map(g, s)[k] == Map(g, s)[i];
  }

  // ----- The severity gate -----

  /** The known severities, each once, in the receipt's order. */
  function Known(blocked: seq<string>, reviewed: seq<string>): seq<string> { SortedNames(Unique(blocked + reviewed)) }

  lemma KnownNames(blocked: seq<string>, reviewed: seq<string>)
    ensures NoDup(Known(blocked, reviewed)) && Elems(Known(blocked, reviewed)) == Elems(blocked) + Elems(reviewed)
  {
    UniqueElements(blocked + reviewed);
    NoDupPermutation(Known(blocked, reviewed), Unique(blocked + reviewed));
    assert Elems(blocked + reviewed) == Elems(blocked) + Elems(reviewed);
  }

  function Count(severity: string, findings: seq<Finding>): nat {
    if findings == [] then 0 else (if findings[0].severity == severity then 1 else 0) + Count(severity, findings[1..])
  }

  function CountSum(severities: seq<string>, findings: seq<Finding>): nat {
    if severities == [] then 0 else Count(severities[0], findings) + CountSum(severities[1..], findings)
  }

  lemma {:induction false} CountAppend(severity: string, a: seq<Finding>, b: seq<Finding>)
    ensures Count(severity, a + b) == Count(severity, a) + Count(severity, b)
  {
    if a == [] {
      assert a + b == b;
    } else {
      CountAppend(severity, a[1..], b);
      assert (a + b)[1..] == a[1..] + b;
    }
  }

  /** A finding is counted under its own severity and no other. */
  lemma {:induction false} CountSumStep(severities: seq<string>, findings: seq<Finding>)
    requires NoDup(severities) && findings != []
    ensures CountSum(severities, findings) == CountSum(severities, findings[1..]) + (if findings[0].severity in severities then 1 else 0)
  {
    if severities != [] {
      assert severities == [severities[0]] + severities[1..];
      NoDupConcat([severities[0]], severities[1..]);
      CountSumStep(severities[1..], findings);
    }
  }

  lemma {:induction false} CountSumAll(severities: seq<string>, findings: seq<Finding>)
    requires NoDup(severities) && forall f :: f in findings ==> f.severity in severities
    ensures CountSum(severities, findings) == |findings|
  {
    if findings == [] {
      NoFindings(severities);
    } else {
      CountSumStep(severities, findings);
      CountSumAll(severities, findings[1..]);
    }
  }

  lemma {:induction false} NoFindings(severities: seq<string>)
    ensures CountSum(severities, []) == 0
  {
    if severities != [] { NoFindings(severities[1..]); }
  }

  datatype Receipt = Receipt(counts: map<string, nat>, reviewed: nat)

  /** Findings of all targets, as the per-target extraction leaves them. */
  ghost predicate ByTarget(names: seq<string>, perTarget: seq<seq<Finding>>) {
    && |names| == |perTarget| && NoDup(names)
    && forall k :: 0 <= k < |names| ==>
         NoDup(Map(IdentityOf, perTarget[k])) && (forall f :: f in perTarget[k] ==> f.target == names[k])
  }

  function Whole(s: seq<Finding>): seq<Finding> { s }
  function All(perTarget: seq<seq<Finding>>): seq<Finding> { FlatMap(Whole, perTarget) }

  lemma ByTargetRest(names: seq<string>, perTarget: seq<seq<Finding>>)
    requires ByTarget(names, perTarget) && names != []
    ensures ByTarget(names[1..], perTarget[1..]) && names[0] !in names[1..]
    ensures NoDup(Map(IdentityOf, perTarget[0])) && forall f :: f in perTarget[0] ==> f.target == names[0]
  {
    assert names == [names[0]] + names[1..];
    NoDupConcat([names[0]], names[1..]);
    assert forall k :: 0 <= k < |perTarget[1..]| ==> perTarget[1..][k] == perTarget[k + 1] && names[1..][k] == names[k + 1];
  }

  /** Identities stay distinct across targets, so the disposition set is as large as the findings. */
  lemma {:induction false} IdentitiesDistinct(names: seq<string>, perTarget: seq<seq<Finding>>)
    requires ByTarget(names, perTarget)
    ensures NoDup(Map(IdentityOf, All(perTarget)))
    ensures forall f :: f in All(perTarget) ==> f.target in names
    decreases |perTarget|
  {
    hide ByTarget;
    SameLength(names, perTarget);
    if perTarget != [] {
      ByTargetRest(names, perTarget);
      IdentitiesDistinct(names[1..], perTarget[1..]);
      JoinIdentities(names[0], names[1..], perTarget[0], All(perTarget[1..]));
    }
  }

  lemma SameLength(names: seq<string>, perTarget: seq<seq<Finding>>)
    requires ByTarget(names, perTarget)
    ensures |names| == |perTarget|
  {
  }

  lemma JoinIdentities(name: string, others: seq<string>, here: seq<Finding>, there: seq<Finding>)
    requires name !in others && NoDup(Map(IdentityOf, here)) && NoDup(Map(IdentityOf, there))
    requires (forall f :: f in here ==> f.target == name) && forall f :: f in there ==> f.target in others
    ensures NoDup(Map(IdentityOf, here + there))
  {
    MapAppend(IdentityOf, here, there);
    NoDupConcat(Map(IdentityOf, here), Map(IdentityOf, there));
    forall x | x in Map(IdentityOf, here) ensures x.0 == name {
      var i :| 0 <= i < |here| && Map(IdentityOf, here)[i] == x;
      assert here[i] in here;
    }
    forall x | x in Map(IdentityOf, there) ensures x.0 in others {
      var j :| 0 <= j < |there| && Map(IdentityOf, there)[j] == x;
      assert there[j] in there;
    }
  }

  /** The severity part of `verify` passes. */
  ghost predicate GatePasses(names: seq<string>, perTarget: seq<seq<Finding>>, blocked: seq<string>, reviewed: seq<string>,
                             entries: seq<Disposition>, terms: ReviewTerms, now: int)
  {
    && (forall f :: f in All(perTarget) ==> f.severity in reviewed && f.severity !in blocked)
    && Dispositioned(entries, Elems(Map(IdentityOf, All(perTarget))), Elems(names), terms, now)
  }

  method CountFindings(findings: seq<Finding>, known: seq<string>) returns (counts: map<string, nat>)
    requires forall f :: f in findings ==> f.severity in known
    ensures counts.Keys == Elems(known) && forall s :: s in known ==> counts[s] == Count(s, findings)
  {
    counts := map s | s in known :: 0;
    for i := 0 to |findings|
      invariant counts.Keys == Elems(known)
      invariant forall s :: s in known ==> counts[s] == Count(s, findings[..i])
    {
      var f := findings[i];
      assert findings[..i + 1] == findings[..i] + [f];
      forall s ensures Count(s, findings[..i + 1]) == Count(s, findings[..i]) + (if f.severity == s then 1 else 0) {
        CountAppend(s, findings[..i], [f]);
        assert [f][1..] == [];
      }
      assert f in findings;
      counts := counts[f.severity := counts[f.severity] + 1];
    }
    assert findings[..|findings|] == findings;
  }

  /** The severity part of `verify`, from the findings to the receipt's counts. */
  method Gate(names: seq<string>, perTarget: seq<seq<Finding>>, blocked: seq<string>, reviewed: seq<string>,
              entries: seq<Disposition>, terms: ReviewTerms, now: int) returns (r: Option<Receipt>)
    requires ByTarget(names, perTarget)
    ensures r.Some? <==> GatePasses(names, perTarget, blocked, reviewed, entries, terms, now)
    ensures r.Some? ==> Issued(r.value, perTarget, blocked, reviewed, entries)
  {
    hide Dispositioned, Count, ByTarget, Known;
    var findings := All(perTarget);
    var ok := CheckSeverities(findings, blocked, reviewed);
    if !ok { return None; }
    ok := LoadDispositions(entries, Elems(Map(IdentityOf, findings)), Elems(names), terms, now);
    if !ok { return None; }
    AllKnown(findings, blocked, reviewed);
    var counts := CountFindings(findings, Known(blocked, reviewed));
    r := Some(Receipt(counts, |entries|));
  }

  /** Unsupported and blocked severities end the gate. */
  method CheckSeverities(findings: seq<Finding>, blocked: seq<string>, reviewed: seq<string>) returns (ok: bool)
    ensures ok <==> forall f :: f in findings ==> f.severity in reviewed && f.severity !in blocked
  {
    hide Known;
    var known := Known(blocked, reviewed);
    KnownNames(blocked, reviewed);
    for i := 0 to |findings|
      invariant forall k :: 0 <= k < i ==> findings[k].severity in reviewed && findings[k].severity !in blocked
    {
      var severity := findings[i].severity;
      assert findings[i] in findings;
      assert severity in known <==> severity in Elems(known);
      if severity !in known { return false; }
      if severity in blocked { return false; }
    }
    ok := true;
  }

  lemma AllKnown(findings: seq<Finding>, blocked: seq<string>, reviewed: seq<string>)
    requires forall f :: f in findings ==> f.severity in reviewed
    ensures forall f :: f in findings ==> f.severity in Known(blocked, reviewed)
  {
    KnownNames(blocked, reviewed);
    forall f | f in findings ensures f.severity in Known(blocked, reviewed) {
      assert f.severity in Elems(reviewed);
      assert f.severity in Elems(Known(blocked, reviewed));
    }
  }

  ghost predicate Issued(r: Receipt, perTarget: seq<seq<Finding>>, blocked: seq<string>, reviewed: seq<string>, entries: seq<Disposition>) {
    && r.counts.Keys == Elems(Known(blocked, reviewed))
    && (forall s :: s in r.counts ==> r.counts[s] == Count(s, All(perTarget)))
    && r.reviewed == |entries|
  }

  /** Whenever the gate passes, no finding is blocked, dispositions and findings are in bijection and
      live, and the reviewed number is both the number of findings and the sum of the counts. */
  lemma PassedCounts(names: seq<string>, perTarget: seq<seq<Finding>>, blocked: seq<string>, reviewed: seq<string>,
                     entries: seq<Disposition>, terms: ReviewTerms, now: int)
    requires ByTarget(names, perTarget) && GatePasses(names, perTarget, blocked, reviewed, entries, terms, now)
    ensures |entries| == |All(perTarget)| == CountSum(Known(blocked, reviewed), All(perTarget))
    ensures multiset(Map(EntryIdentity, entries)) == multiset(Map(IdentityOf, All(perTarget)))
    ensures forall e :: e in entries ==> Live(terms, e, now)
    ensures forall f :: f in All(perTarget) ==> f.severity !in blocked
  {
    hide Live, Count, ByTarget;
    var findings := All(perTarget);
    var ids, wanted := Map(EntryIdentity, entries), Map(IdentityOf, findings);
    IdentitiesDistinct(names, perTarget);
    DistinctCount(ids);
    DistinctCount(wanted);
    SameElements(ids, wanted);
    KnownNames(blocked, reviewed);
    AllKnown(findings, blocked, reviewed);
    CountSumAll(Known(blocked, reviewed), findings);
  }

  lemma SameElements<T>(a: seq<T>, b: seq<T>)
    requires NoDup(a) && NoDup(b) && Elems(a) == Elems(b)
    ensures multiset(a) == multiset(b)
  {
    NoDupMultiset(a);
    NoDupMultiset(b);
    assert forall x :: x in multiset(a) <==> x in Elems(a);
    assert forall x :: x in multiset(b) <==> x in Elems(b);
    assert forall x :: multiset(a)[x] == multiset(b)[x];
  }

  // ----- The consumer's count checks -----

  const CRITICAL := "CRITICAL"
  const HIGH := "HIGH"
  const MEDIUM := "MEDIUM"
  const LOW := "LOW"
  const UNKNOWN := "UNKNOWN"

  /** The severity checks of `validate_vulnerability_receipt`. */
  predicate ConsumerCounts(r: Receipt) {
    && r.counts.Keys == {CRITICAL, HIGH, LOW, MEDIUM, UNKNOWN}
    && r.counts[CRITICAL] == 0 && r.counts[HIGH] == 0 && r.counts[UNKNOWN] == 0
    && r.reviewed == r.counts[LOW] + r.counts[MEDIUM]
  }

  predicate Severe(s: string) { s == CRITICAL || s == HIGH || s == UNKNOWN }

  lemma SeveritiesDiffer()
    ensures NoDup([CRITICAL, HIGH, LOW, MEDIUM, UNKNOWN])
  {
    assert CRITICAL[0] == 'C' && HIGH[0] == 'H' && LOW[0] == 'L' && MEDIUM[0] == 'M' && UNKNOWN[0] == 'U';
  }

  lemma {:induction false} CountZero(severity: string, findings: seq<Finding>)
    ensures Count(severity, findings) == 0 <==> forall f :: f in findings ==> f.severity != severity
  {
    if findings != [] {
      CountZero(severity, findings[1..]);
      assert findings[0] in findings;
    }
  }

  lemma CountSumCons(x: string, rest: seq<string>, findings: seq<Finding>)
    ensures CountSum([x] + rest, findings) == Count(x, findings) + CountSum(rest, findings)
  {
    assert ([x] + rest)[1..] == rest;
  }

  lemma FiveCounts(a: string, b: string, c: string, d: string, e: string, findings: seq<Finding>)
    ensures CountSum([a, b, c, d, e], findings)
         == Count(a, findings) + Count(b, findings) + Count(c, findings) + Count(d, findings) + Count(e, findings)
  {
    hide Count, CountSum;
    CountSumCons(a, [b, c, d, e], findings);
    CountSumCons(b, [c, d, e], findings);
    CountSumCons(c, [d, e], findings);
    CountSumCons(d, [e], findings);
    CountSumCons(e, [], findings);
    CountSumNone(findings);
    assert [a] + [b, c, d, e] == [a, b, c, d, e] && [b] + [c, d, e] == [b, c, d, e] && [c] + [d, e] == [c, d, e]
        && [d] + [e] == [d, e] && [e] + [] == [e];
  }

  lemma CountSumNone(findings: seq<Finding>)
    ensures CountSum([], findings) == 0
  {
  }

  /** The consumer accepts the counts of a passed gate exactly when the policy knows the five
      severities and no finding is critical, high or unknown. */
  lemma ConsumerAcceptsCounts(names: seq<string>, perTarget: seq<seq<Finding>>, blocked: seq<string>, reviewed: seq<string>,
                              entries: seq<Disposition>, terms: ReviewTerms, now: int, r: Receipt)
    requires ByTarget(names, perTarget) && GatePasses(names, perTarget, blocked, reviewed, entries, terms, now)
    requires Issued(r, perTarget, blocked, reviewed, entries)
    ensures ConsumerCounts(r) <==>
            && Elems(blocked) + Elems(reviewed) == {CRITICAL, HIGH, LOW, MEDIUM, UNKNOWN}
            && forall f :: f in All(perTarget) ==> !Severe(f.severity)
  {
    hide Count, ByTarget, Dispositioned, CountSum, CRITICAL, HIGH, LOW, MEDIUM, UNKNOWN;
    var findings := All(perTarget);
    PassedCounts(names, perTarget, blocked, reviewed, entries, terms, now);
    KnownNames(blocked, reviewed);
    CountZero(CRITICAL, findings);
    CountZero(HIGH, findings);
    CountZero(UNKNOWN, findings);
    if r.counts.Keys == {CRITICAL, HIGH, LOW, MEDIUM, UNKNOWN} {
      AllKnown(findings, blocked, reviewed);
      FiveSum(findings, Known(blocked, reviewed));
    }
  }

  lemma FiveSum(findings: seq<Finding>, known: seq<string>)
    requires NoDup(known) && Elems(known) == {CRITICAL, HIGH, LOW, MEDIUM, UNKNOWN} && forall f :: f in findings ==> f.severity in known
    ensures |findings| == Count(CRITICAL, findings) + Count(HIGH, findings) + Count(LOW, findings) + Count(MEDIUM, findings)
                          + Count(UNKNOWN, findings)
  {
    hide Count, CountSum, CRITICAL, HIGH, LOW, MEDIUM, UNKNOWN;
    var five := [CRITICAL, HIGH, LOW, MEDIUM, UNKNOWN];
    SeveritiesDiffer();
    forall f | f in findings ensures f.severity in five {
      assert f.severity in Elems(known);
    }
    CountSumAll(five, findings);
    FiveCounts(CRITICAL, HIGH, LOW, MEDIUM, UNKNOWN, findings);
  }

  // ----- Which policies the consumer can serve -----

  /** A policy that blocks critical, high and unknown findings never issues a receipt the consumer
      refuses. */
  lemma BlockingPolicy(names: seq<string>, perTarget: seq<seq<Finding>>, blocked: seq<string>, reviewed: seq<string>,
                       entries: seq<Disposition>, terms: ReviewTerms, now: int, r: Receipt)
    requires Elems(blocked) + Elems(reviewed) == {CRITICAL, HIGH, LOW, MEDIUM, UNKNOWN}
    requires CRITICAL in blocked && HIGH in blocked && UNKNOWN in blocked
    requires ByTarget(names, perTarget) && GatePasses(names, perTarget, blocked, reviewed, entries, terms, now)
    requires Issued(r, perTarget, blocked, reviewed, entries)
    ensures ConsumerCounts(r)
  {
    hide ByTarget, Dispositioned, Issued, ConsumerCounts, CRITICAL, HIGH, LOW, MEDIUM, UNKNOWN;
    ConsumerAcceptsCounts(names, perTarget, blocked, reviewed, entries, terms, now, r);
  }

  /** Any other policy over the five severities has a run that passes the gate with one reviewed
      finding and is refused by the consumer. */
  lemma ReviewingPolicy(blocked: seq<string>, reviewed: seq<string>, severity: string, terms: ReviewTerms, status: string,
                        owner: string, rationale: string)
    returns (perTarget: seq<seq<Finding>>, entries: seq<Disposition>, r: Receipt)
    requires Severe(severity) && severity in reviewed && severity !in blocked
    requires status in terms.allowed && terms.namedOwner(owner) && terms.explained(rationale) && terms.maxDays >= 1
    ensures ByTarget(["source"], perTarget) && GatePasses(["source"], perTarget, blocked, reviewed, entries, terms, 0)
    ensures Issued(r, perTarget, blocked, reviewed, entries) && !ConsumerCounts(r)
  {
    var f := Finding("source", "CVE", "package", "1", "", severity);
    perTarget, entries := [[f]], [Disposition(IdentityOf(f), status, owner, rationale, 0, DAY)];
    var findings := [f];
    AllOne(f);
    assert Map(IdentityOf, findings) == [IdentityOf(f)] && Map(EntryIdentity, entries) == [IdentityOf(f)];
    r := Receipt(map s | s in Known(blocked, reviewed) :: Count(s, findings), 1);
    OneFinding(blocked, reviewed, f, entries, terms);
    ConsumerAcceptsCounts(["source"], perTarget, blocked, reviewed, entries, terms, 0, r);
    assert f in findings;
  }

  lemma AllOne(f: Finding)
    ensures All([[f]]) == [f]
  {
    assert [[f]][1..] == [];
    assert FlatMap(Whole, [[f]]) == Whole([f]) + FlatMap(Whole, []);
  }

  lemma OneFinding(blocked: seq<string>, reviewed: seq<string>, f: Finding, entries: seq<Disposition>, terms: ReviewTerms)
    requires f.target == "source" && IdentityFilled(IdentityOf(f)) && f.severity in reviewed && f.severity !in blocked
    requires |entries| == 1 && entries[0].identity == IdentityOf(f) && Live(terms, entries[0], 0) && terms.allowed != []
    ensures ByTarget(["source"], [[f]]) && GatePasses(["source"], [[f]], blocked, reviewed, entries, terms, 0)
  {
    hide Live;
    AllOne(f);
    assert Map(IdentityOf, [f]) == [IdentityOf(f)] && Map(EntryIdentity, entries) == [IdentityOf(f)];
    assert Elems([IdentityOf(f)]) == {IdentityOf(f)} && "source" in Elems(["source"]);
  }

  /** What extraction keeps of a report: one identity per finding, all of its own target. */
  lemma ExtractedOne(target: string, results: seq<ScanResult>)
    requires Extractable(target, results)
    ensures var found := Unique(FlatMap(ResultFindings(target), results));
      NoDup(Map(IdentityOf, found)) && forall f :: f in found ==> f.target == target
  {
    var all := FlatMap(ResultFindings(target), results);
    UniqueElements(all);
    forall f | f in Unique(all) ensures f.target == target {
      assert f in Elems(Unique(all));
      FlatMapContains(ResultFindings(target), results, f);
    }
  }

  /** What extraction returns for the reports of distinct targets is what the gate combines. */
  lemma ExtractedByTarget(names: seq<string>, reports: seq<seq<ScanResult>>, lists: seq<seq<Finding>>)
    requires NoDup(names) && |names| == |reports| == |lists|
    requires forall k :: 0 <= k < |names| ==>
      Extractable(names[k], reports[k]) && lists[k] == Unique(FlatMap(ResultFindings(names[k]), reports[k]))
    ensures ByTarget(names, lists)
  {
    hide Extractable, Unique, ResultFindings;
    forall k | 0 <= k < |names|
      ensures NoDup(Map(IdentityOf, lists[k])) && forall f :: f in lists[k] ==> f.target == names[k]
    {
      ExtractedOne(names[k], reports[k]);
    }
  }
}
