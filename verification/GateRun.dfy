/** One run of the vulnerability gate: its receipt, the times that admit it, and the replay of receipts. */
module GateRun {
  import opened Sequences
  import opened Sorting
  import opened VulnerabilityFindings
  import opened GateTime
  import opened StagedPaths
  import Inventory = GateInventory
  import PackageIndex
  import Manifests = ManifestBuilder
  import ManifestAgreement
  import ReleaseRoots
  import RootAdapters
  import RootPolicy
  import SplitDelivery

  /** What a run reads for one target besides the manifest: the raw report, when the scan ended, and the report. */
  datatype Reading = Reading(rawReport: string, finished: int, created: int, results: seq<ScanResult>)

  /** A scanned target: its evidence files, when its scan ended, and its report. */
  datatype Scan = Scan(target: Inventory.ScanTarget, finished: int, created: int, sha256: string, results: seq<ScanResult>)

  /** All a run reads besides the clock. `installed` is the verdict on the scanner's installation,
      configuration and database identities; `paths` names the files that belong to no target or root. */
  datatype Evidence = Evidence(
    context: Manifests.Context, profile: string, commit: string, manifest: Manifests.Manifest, installed: bool,
    reading: Manifests.Entry -> Reading, files: Inventory.Files, paths: Inventory.Verified, policySha256: string,
    generated: int, maxReportHours: int, maxDatabaseHours: int, vulnerability: DatabaseTimes, java: DatabaseTimes,
    blocked: seq<string>, reviewed: seq<string>, dispositions: seq<Disposition>, terms: ReviewTerms)

  datatype RunReceipt = RunReceipt(
    verifiedAt: int, profile: string, roots: seq<RootAdapters.RootRecord>, manifestSha256: string, policySha256: string,
    dispositionsSha256: string, scanner: Manifests.Scanner, vulnerabilityUpdated: int, javaUpdated: int,
    reports: map<string, string>, packages: map<string, nat>, inventory: seq<Inventory.Item>, summary: Receipt)

  function PartPath(p: SplitDelivery.Part): string { p.path }

  /** The evidence files of a record. */
  function SubjectOf(r: Manifests.Record): Inventory.Subject {
    match r
    case SourceRecord(_) => Inventory.SourceTree
    case ImageRecord(_, _, _, _, sbom) => Inventory.Image(sbom.path)
    case PackageRecord(_, _, _, _, content, sbom, _) =>
      var paths := Map(PartPath, content.delivery.parts);
      Inventory.Package(if !content.delivery.split && |paths| == 1 then Inventory.Single(paths[0]) else Inventory.Split(paths), sbom.path)
  }

  function ScanOf(e: Evidence): Manifests.Entry -> Scan {
    (t: Manifests.Entry) =>
      var read := e.reading(t);
      Scan(Inventory.ScanTarget(Manifests.EntryName(t), SubjectOf(t.record), t.reportPath, read.rawReport, Clean(t.executionPath)),
           read.finished, read.created, t.reportSha256, read.results)
  }

  function Scans(e: Evidence): seq<Scan> { Map(ScanOf(e), e.manifest.targets) }

  function RootFiles(r: RootAdapters.RootRecord): Inventory.Root { Inventory.Root(r.id, r.path, r.bundlePath) }

  /** All evidence files of a run: the fixed ones, those of the roots and those of the targets. */
  function Verified(e: Evidence): Inventory.Verified {
    e.paths.(roots := Map(RootFiles, e.manifest.roots), targets := Map(ScannedTarget, Scans(e)))
  }

  ghost predicate ManifestHolds(e: Evidence) { e.installed && Manifests.GateAdmits(e.context, e.profile, e.commit, e.manifest) }

  function ScannedTarget(s: Scan): Inventory.ScanTarget { s.target }
  function ScanName(s: Scan): string { s.target.name }
  function ScanResults(s: Scan): seq<ScanResult> { s.results }
  function ReportRow(s: Scan): (string, string) { (s.target.name, s.sha256) }
  function PackageRow(s: Scan): (string, nat) { (s.target.name, |Elems(FlatMap(ResultKeys, s.results))|) }
  function Extracted(s: Scan): seq<Finding> { Unique(FlatMap(ResultFindings(s.target.name), s.results)) }

  function Names(e: Evidence): seq<string> { Map(ScanName, Scans(e)) }
  function Findings(e: Evidence): seq<seq<Finding>> { Map(Extracted, Scans(e)) }
  function Items(e: Evidence): seq<Inventory.Item> { Inventory.AllItems(e.files, Verified(e)) }

  // ----- The run -----

  predicate ScanCurrent(e: Evidence, s: Scan, now: int) {
    && Fresh(s.finished, now, e.maxReportHours) && s.finished <= e.generated + SKEW && Fresh(s.created, now, e.maxReportHours)
  }

  /** Both readings of a report accept it. */
  ghost predicate ReportHolds(s: Scan) {
    && s.results != [] && (forall r :: r in s.results ==> PackageIndex.Structured(r))
    && Extractable(s.target.name, s.results)
  }

  /** The checks of a run at a time, in the order the run makes them. */
  ghost predicate Admits(e: Evidence, now: int) {
    && ManifestHolds(e) && Fresh(e.generated, now, e.maxReportHours)
    && DatabaseCurrent(e.vulnerability, now, e.maxDatabaseHours) && DatabaseCurrent(e.java, now, e.maxDatabaseHours)
    && (forall s :: s in Scans(e) ==> ScanCurrent(e, s, now) && ReportHolds(s))
    && NoDup(Map(Inventory.PathOf, Items(e)))
    && GatePasses(Names(e), Findings(e), e.blocked, e.reviewed, e.dispositions, e.terms, now)
  }

  /** What a receipt says: every evidence file once and in order, the digests, and the counts. */
  ghost predicate Issues(e: Evidence, now: int, r: RunReceipt) {
    && Admits(e, now) && r.verifiedAt == now && r.profile == e.profile && r.roots == e.manifest.roots
    && r.manifestSha256 == e.files(e.paths.manifest).0 && r.policySha256 == e.policySha256
    && r.dispositionsSha256 == e.files(e.paths.dispositions).0 && r.scanner == e.manifest.scanner
    && r.vulnerabilityUpdated == e.vulnerability.updated && r.javaUpdated == e.java.updated
    && r.reports == Assign(map[], Map(ReportRow, Scans(e))) && r.packages == Assign(map[], Map(PackageRow, Scans(e)))
    && multiset(r.inventory) == multiset(Items(e)) && SortedBy(Inventory.ItemLeq, r.inventory)
    && Issued(r.summary, Findings(e), e.blocked, e.reviewed, e.dispositions)
  }

  datatype Read = Read(findings: seq<seq<Finding>>, reports: map<string, string>, packages: map<string, nat>)

  ghost function ReadOf(scans: seq<Scan>): Read {
    Read(Map(Extracted, scans), Assign(map[], Map(ReportRow, scans)), Assign(map[], Map(PackageRow, scans)))
  }

  lemma ReadStep(scans: seq<Scan>, i: nat)
    requires i < |scans|
    ensures var before, s := ReadOf(scans[..i]), scans[i];
      ReadOf(scans[..i + 1]) == Read(before.findings + [Extracted(s)], before.reports[s.target.name := s.sha256],
                                     before.packages[s.target.name := PackageRow(s).1])
  {
    hide Extracted, PackageRow, Assign;
    var s := scans[i];
    assert Map(Extracted, scans[..i + 1]) == Map(Extracted, scans[..i]) + [Extracted(s)];
    assert Map(ReportRow, scans[..i + 1]) == Map(ReportRow, scans[..i]) + [ReportRow(s)];
    assert Map(PackageRow, scans[..i + 1]) == Map(PackageRow, scans[..i]) + [PackageRow(s)];
    AssignLast(map[], Map(ReportRow, scans[..i]), ReportRow(s));
    AssignLast(map[], Map(PackageRow, scans[..i]), PackageRow(s));
    RowName(s);
  }

  lemma RowName(s: Scan)
    ensures PackageRow(s).0 == s.target.name
  {
  }

  /** One report: its distinct findings and its number of packages. */
  method ReadReport(s: Scan) returns (r: Option<(seq<Finding>, nat)>)
    ensures r.Some? <==> ReportHolds(s)
    ensures r.Some? ==> r.value == (Extracted(s), PackageRow(s).1)
  {
    hide PackageIndex.Structured, Extractable, ResultKeys, ResultFindings, Unique;
    var structure := PackageIndex.ValidateReport(s.results);
    if structure.None? { return None; }
    r := ExtractFindings(s.target.name, s.results);
  }

  /** The target loop of `verify`. */
  method ReadScans(e: Evidence, now: int) returns (r: Option<Read>)
    ensures r.Some? <==> forall s :: s in Scans(e) ==> ScanCurrent(e, s, now) && ReportHolds(s)
    ensures r.Some? ==> r.value == ReadOf(Scans(e))
  {
    hide ReportHolds, Extracted, PackageRow, ScanCurrent, Assign;
    var read := Read([], map[], map[]);
    NothingRead(Scans(e));
    for i := 0 to |Scans(e)|
      invariant forall k :: 0 <= k < i ==> ScanCurrent(e, Scans(e)[k], now) && ReportHolds(Scans(e)[k])
      invariant read == ReadOf(Scans(e)[..i])
    {
      var s := Scans(e)[i];
      assert s in Scans(e);
      if !ScanCurrent(e, s, now) { return None; }
      var report := ReadReport(s);
      if report.None? { return None; }
      ReadStep(Scans(e), i);
      read := Read(read.findings + [report.value.0], read.reports[s.target.name := s.sha256],
                   read.packages[s.target.name := report.value.1]);
    }
    assert Scans(e)[..|Scans(e)|] == Scans(e);
    r := Some(read);
  }

  lemma NothingRead(scans: seq<Scan>)
    ensures ReadOf(scans[..0]) == Read([], map[], map[])
  {
    assert scans[..0] == [];
  }

  lemma ScansByTarget(e: Evidence)
    requires NoDup(Names(e)) && forall s :: s in Scans(e) ==> ReportHolds(s)
    ensures ByTarget(Names(e), Findings(e))
  {
    hide Extractable, ResultFindings, Unique;
    forall k | 0 <= k < |Scans(e)| ensures Extractable(Names(e)[k], Map(ScanResults, Scans(e))[k]) { assert Scans(e)[k] in Scans(e); }
    ExtractedByTarget(Names(e), Map(ScanResults, Scans(e)), Findings(e));
  }

  lemma NamesAre(e: Evidence)
    ensures Names(e) == Map(Manifests.EntryName, e.manifest.targets)
  {
  }

  lemma NamesDistinct(e: Evidence)
    requires ManifestHolds(e)
    ensures NoDup(Names(e))
  {
    hide Names, Scans;
    NamesAre(e);
  }

  lemma ReadFindings(e: Evidence)
    ensures ReadOf(Scans(e)).findings == Findings(e)
  {
    hide Extracted, Assign;
  }

  /** `verify`: refused, or the receipt of this time. */
  method Run(e: Evidence, now: int) returns (r: Option<RunReceipt>)
    ensures r.Some? <==> Admits(e, now)
    ensures r.Some? ==> Issues(e, now, r.value)
  {
    hide ReportHolds, ScanCurrent, GatePasses, Issued, Inventory.AllItems, Inventory.ItemLeq, Assign, Extracted, PackageRow, DatabaseCurrent,
      Manifests.GateAdmits, Verified, Scans, Names, Findings;
    if !e.installed || !Fresh(e.generated, now, e.maxReportHours) { return None; }
    var admitted := Manifests.CheckManifest(e.context, e.profile, e.commit, e.manifest);
    if !admitted { return None; }
    if !DatabaseCurrent(e.vulnerability, now, e.maxDatabaseHours) || !DatabaseCurrent(e.java, now, e.maxDatabaseHours) { return None; }
    var read := ReadScans(e, now);
    if read.None? { return None; }
    var inventory := Inventory.BuildInventory(e.files, Verified(e));
    if inventory.None? { return None; }
    NamesDistinct(e);
    ScansByTarget(e);
    ReadFindings(e);
    var summary := Gate(Names(e), read.value.findings, e.blocked, e.reviewed, e.dispositions, e.terms, now);
    if summary.None? { return None; }
    Inventory.ItemOrder();
    SortSorted(Inventory.ItemLeq, Items(e));
    r := Some(RunReceipt(now, e.profile, e.manifest.roots, e.files(e.paths.manifest).0, e.policySha256,
                         e.files(e.paths.dispositions).0, e.manifest.scanner,
                         e.vulnerability.updated, e.java.updated, read.value.reports, read.value.packages,
                         inventory.value, summary.value));
  }

  // ----- One receipt for all admitting times -----

  lemma ItemsToldApart(items: seq<Inventory.Item>, x: Inventory.Item, y: Inventory.Item)
    requires NoDup(Map(Inventory.PathOf, items)) && x in items && y in items
    requires Inventory.ItemLeq(x, y) && Inventory.ItemLeq(y, x)
    ensures x == y
  {
    hide Inventory.KeyLeq;
    Inventory.KeyOrder();
    assert Inventory.KeyOf(x) == Inventory.KeyOf(y);
    var i :| 0 <= i < |items| && items[i] == x;
    var j :| 0 <= j < |items| && items[j] == y;
    assert Map(Inventory.PathOf, items)[i] == Map(Inventory.PathOf, items)[j];
  }

  /** Distinct paths and the order leave one way to list the evidence. */
  lemma OneInventory(items: seq<Inventory.Item>, a: seq<Inventory.Item>, b: seq<Inventory.Item>)
    requires NoDup(Map(Inventory.PathOf, items)) && multiset(a) == multiset(items) == multiset(b)
    requires SortedBy(Inventory.ItemLeq, a) && SortedBy(Inventory.ItemLeq, b)
    ensures a == b
  {
    hide Inventory.ItemLeq;
    Inventory.ItemOrder();
    forall x, y | x in a && y in a && Inventory.ItemLeq(x, y) && Inventory.ItemLeq(y, x) ensures x == y {
      assert x in multiset(a) && y in multiset(a);
      assert x in items && y in items;
      ItemsToldApart(items, x, y);
    }
    SortedUniqueAmong(Inventory.ItemLeq, a, b);
  }

  lemma OneSummary(r: Receipt, s: Receipt, e: Evidence)
    requires Issued(r, Findings(e), e.blocked, e.reviewed, e.dispositions) && Issued(s, Findings(e), e.blocked, e.reviewed, e.dispositions)
    ensures r == s
  {
    hide Known, Count;
    assert r.counts == s.counts;
  }

  /** The receipts of one body of evidence differ in their time only, whenever they are issued. */
  lemma OneReceipt(e: Evidence, a: int, b: int, r: RunReceipt, s: RunReceipt)
    requires Issues(e, a, r) && Issues(e, b, s)
    ensures s == r.(verifiedAt := b)
  {
    hide GatePasses, Issued, ScanCurrent, ReportHolds, DatabaseCurrent, Fresh, Inventory.ItemLeq, Inventory.AllItems, Assign, ManifestHolds,
      Verified, Scans;
    OneInventory(Items(e), r.inventory, s.inventory);
    OneSummary(r.summary, s.summary, e);
  }

  /** A receipt of one time, stamped with another admitting time, is the receipt of that time. */
  lemma Restamped(e: Evidence, a: int, b: int, r: RunReceipt)
    requires Issues(e, a, r) && Admits(e, b)
    ensures Issues(e, b, r.(verifiedAt := b))
  {
    hide Admits, Issued, Inventory.ItemLeq, Inventory.AllItems, Assign;
  }

  // ----- The admitting times -----

  /** Everything with a date that the run examines. */
  function DatedOf(e: Evidence): Dated {
    Dated(e.generated, e.maxReportHours, e.maxDatabaseHours, [e.vulnerability, e.java], Map((s: Scan) => s.finished, Scans(e)),
          Map((s: Scan) => s.created, Scans(e)), e.dispositions, e.terms)
  }

  /** The checks of a run that read no clock. */
  ghost predicate Sound(e: Evidence) {
    && ManifestHolds(e) && Reviewed(e)
  }

  /** The reports, their files, their findings and the dispositions fit together. */
  ghost predicate Reviewed(e: Evidence) {
    && (forall s :: s in Scans(e) ==> ReportHolds(s))
    && NoDup(Map(Inventory.PathOf, Items(e)))
    && (forall f :: f in All(Findings(e)) ==> f.severity in e.reviewed && f.severity !in e.blocked)
    && e.terms.allowed != []
    && NoDup(Map(EntryIdentity, e.dispositions)) && Elems(Map(EntryIdentity, e.dispositions)) == Elems(Map(IdentityOf, All(Findings(e))))
    && forall x :: x in e.dispositions ==> IdentityFilled(x.identity) && x.identity.0 in Elems(Names(e))
  }

  lemma ScansCurrent(e: Evidence, now: int)
    ensures (forall s :: s in Scans(e) ==> ScanCurrent(e, s, now)) <==>
            && (forall t :: t in DatedOf(e).executions ==> Fresh(t, now, e.maxReportHours) && t <= e.generated + SKEW)
            && (forall t :: t in DatedOf(e).reports ==> Fresh(t, now, e.maxReportHours))
  {
    hide Fresh;
    AllOfMap((s: Scan) => s.finished, Scans(e), (t: int) => Fresh(t, now, e.maxReportHours) && t <= e.generated + SKEW);
    AllOfMap((s: Scan) => s.created, Scans(e), (t: int) => Fresh(t, now, e.maxReportHours));
  }

  lemma AdmitsSplit(e: Evidence, now: int)
    ensures Admits(e, now) <==> Sound(e) && TimesPass(DatedOf(e), now)
  {
    hide Fresh, DatabaseCurrent, Live, ReportHolds, ScanCurrent, Inventory.AllItems, All, IdentityFilled, ManifestHolds, Scans, Names, Findings,
      Verified;
    ScansCurrent(e, now);
    var databases := DatedOf(e).databases;
    assert databases[0] == e.vulnerability && databases[1] == e.java && |databases| == 2;
  }

  /** The first and the last time at which the evidence is current. */
  function Opens(e: Evidence): int { Latest(Starts(DatedOf(e))) - SKEW }
  function Closes(e: Evidence): int { Earliest(Ends(DatedOf(e))) }

  /** For fixed evidence a run passes exactly at the times of one closed interval, if at any. */
  lemma RunInterval(e: Evidence, now: int)
    ensures Admits(e, now) <==> Sound(e) && TimelessPass(DatedOf(e)) && Opens(e) <= now <= Closes(e)
  {
    hide Admits, Sound, TimesPass, TimelessPass, DatedOf, Starts, Ends;
    AdmitsSplit(e, now);
    AdmittingInterval(DatedOf(e), now);
  }

  // ----- Replay -----

  predicate InWindow(verifiedAt: int, current: int, maxAgeHours: Option<int>) {
    && verifiedAt <= current + SKEW && (maxAgeHours.Some? ==> Fresh(verifiedAt, current, maxAgeHours.value))
  }

  /** `verify_recorded_receipt`: runs the gate at the recorded time and compares. */
  method Replay(e: Evidence, recorded: RunReceipt, current: int, maxAgeHours: Option<int>) returns (ok: bool)
    ensures ok <==> InWindow(recorded.verifiedAt, current, maxAgeHours) && Issues(e, recorded.verifiedAt, recorded)
  {
    hide Issues, Admits;
    if recorded.verifiedAt > current + SKEW { return false; }
    if maxAgeHours.Some? && !Fresh(recorded.verifiedAt, current, maxAgeHours.value) { return false; }
    var expected := Run(e, recorded.verifiedAt);
    IssuedAdmits(e, recorded);
    if expected.None? { return false; }
    if Issues(e, recorded.verifiedAt, recorded) {
      OneReceipt(e, recorded.verifiedAt, recorded.verifiedAt, expected.value, recorded);
      StampOf(e, expected.value, recorded.verifiedAt);
    }
    ok := expected.value == recorded;
  }

  lemma IssuedAdmits(e: Evidence, r: RunReceipt)
    ensures Issues(e, r.verifiedAt, r) ==> Admits(e, r.verifiedAt)
  {
    hide Admits, Issued, Items;
  }

  lemma StampOf(e: Evidence, r: RunReceipt, now: int)
    requires Issues(e, now, r)
    ensures r.verifiedAt == now
  {
    hide Admits, Issued, Items;
  }

  ghost predicate Replays(e: Evidence, recorded: RunReceipt, current: int, maxAgeHours: Option<int>) {
    InWindow(recorded.verifiedAt, current, maxAgeHours) && Issues(e, recorded.verifiedAt, recorded)
  }

  /** A receipt that some run issued is replayed over the same evidence exactly from five minutes
      before its time on: for ever without an age limit, and for the allowed age with one. */
  lemma ReplayWindow(e: Evidence, issuedAt: int, r: RunReceipt, current: int, maxAgeHours: Option<int>)
    requires Issues(e, issuedAt, r)
    ensures Replays(e, r, current, maxAgeHours) <==>
            && issuedAt - SKEW <= current
            && (maxAgeHours.Some? ==> 1 <= maxAgeHours.value <= 168 && current <= issuedAt + maxAgeHours.value * HOUR)
  {
    hide Issues;
    StampOf(e, r, issuedAt);
  }

  /** Nothing else replays: a replayed receipt is, up to its time, every receipt ever issued over
      the evidence, and its time is one at which the gate passes. */
  lemma ReplayedIsIssued(e: Evidence, r: RunReceipt, current: int, maxAgeHours: Option<int>, issuedAt: int, s: RunReceipt)
    requires Replays(e, r, current, maxAgeHours) && Issues(e, issuedAt, s)
    ensures r == s.(verifiedAt := r.verifiedAt) && Opens(e) <= r.verifiedAt <= Closes(e)
  {
    hide Issues, Admits, Sound, Opens, Closes, TimelessPass;
    OneReceipt(e, issuedAt, r.verifiedAt, s, r);
    IssuedAdmits(e, r);
    RunInterval(e, r.verifiedAt);
  }

  // ----- From the builder to the consumer -----

  /** Over the evidence a manifest was built from, the manifest is no further condition: a run passes
      exactly when the scanner's installation and the reviewed reports hold, at the times of one interval. */
  lemma BuiltRunInterval(e: Evidence, ds: seq<ReleaseRoots.Descriptor>, inputs: seq<Manifests.Input>, now: int)
    requires Manifests.Built(e.context, e.profile, RootAdapters.Source(e.context.repository, e.commit), ds, inputs) == Some(e.manifest)
    ensures Admits(e, now) <==> e.installed && Reviewed(e) && TimelessPass(DatedOf(e)) && Opens(e) <= now <= Closes(e)
  {
    hide Admits, Reviewed, TimelessPass, DatedOf, Opens, Closes, Manifests.Built, Manifests.GateAdmits;
    RunInterval(e, now);
    ManifestAgreement.BuiltIsAdmitted(e.context, e.profile, RootAdapters.Source(e.context.repository, e.commit), ds, inputs);
  }

  lemma SplitParts(e: Evidence, t: Inventory.ScanTarget)
    requires ManifestHolds(e) && t in Verified(e).targets && t.subject.Package? && t.subject.delivery.Split?
    ensures |t.subject.delivery.parts| >= 2
  {
    hide Manifests.Expected, Manifests.ReceiptHolds, Manifests.KindAgrees, SplitDelivery.Delivered, Manifests.Grounds, Manifests.NamesMatch;
    var targets := e.manifest.targets;
    var i :| 0 <= i < |targets| && Verified(e).targets[i] == t;
    assert targets[i] in targets;
  }

  lemma GroundIds(ctx: Manifests.Context, profile: string, source: RootAdapters.Source, ds: seq<ReleaseRoots.Descriptor>)
    requires Manifests.Grounds(ctx, profile, source, ds).Some?
    ensures NoDup(Map(ReleaseRoots.RecordId, Manifests.Grounds(ctx, profile, source, ds).value.1.records))
  {
    hide RootPolicy.PolicyRequirements, ReleaseRoots.LoadedRoots;
    ReleaseRoots.LoadedIds(ctx.st, ds, RootPolicy.PolicyRequirements(ctx.policy, profile, ctx.policy.profiles[profile]).value.roots, source);
  }

  lemma RootIdsDistinct(e: Evidence)
    requires ManifestHolds(e)
    ensures NoDup(Map(Inventory.IdOf, Verified(e).roots))
  {
    hide Manifests.EntryHolds, Manifests.NamesMatch, Manifests.Grounds, Scans;
    GroundIds(e.context, e.profile, e.manifest.source, Map(ReleaseRoots.DescriptorOf, e.manifest.roots));
    assert Map(Inventory.IdOf, Verified(e).roots) == Map(ReleaseRoots.RecordId, e.manifest.roots);
  }

  lemma RunWellFormed(e: Evidence)
    requires ManifestHolds(e)
    ensures Inventory.WellFormed(Verified(e))
  {
    hide ManifestHolds;
    NamesDistinct(e);
    RootIdsDistinct(e);
    assert Map(Inventory.NameOf, Verified(e).targets) == Names(e);
    forall t | t in Verified(e).targets && t.subject.Package? && t.subject.delivery.Split? ensures |t.subject.delivery.parts| >= 2 {
      SplitParts(e, t);
    }
  }

  /** The consumer's demands on a receipt: the closure of the inventory and the severity counts. */
  ghost predicate Consumed(r: RunReceipt, specs: seq<string>) {
    Inventory.ConsumerAccepts(r.inventory, specs) && ConsumerCounts(r.summary)
  }

  /** A receipt some run issued meets the release consumer exactly when the run had the Connector
      profile, the policy knows the five severities and no finding is critical, high or unknown. */
  lemma IssuedMeetsConsumer(e: Evidence, now: int, r: RunReceipt, specs: seq<string>)
    requires Issues(e, now, r) && NoDup(specs)
    ensures Consumed(r, specs) <==>
            && Inventory.ConnectorProfile(Verified(e), specs)
            && Elems(e.blocked) + Elems(e.reviewed) == {CRITICAL, HIGH, LOW, MEDIUM, UNKNOWN}
            && forall f :: f in All(Findings(e)) ==> !Severe(f.severity)
  {
    hide GatePasses, Issued, ScanCurrent, ReportHolds, DatabaseCurrent, Fresh, Inventory.ItemLeq, Inventory.AllItems, Assign, ManifestHolds,
      Verified, Scans, Names, Findings, ConsumerCounts, Inventory.ConsumerAccepts, Inventory.ConnectorProfile, Severe,
      CRITICAL, HIGH, LOW, MEDIUM, UNKNOWN;
    RunWellFormed(e);
    Inventory.ItemOrder();
    SortSorted(Inventory.ItemLeq, Items(e));
    OneInventory(Items(e), r.inventory, Sort(Inventory.ItemLeq, Items(e)));
    Inventory.ConsumerMeetsGate(e.files, Verified(e), specs);
    NamesDistinct(e);
    ScansByTarget(e);
    ConsumerAcceptsCounts(Names(e), Findings(e), e.blocked, e.reviewed, e.dispositions, e.terms, now, r.summary);
  }
}
