/** The times at which the dated evidence of a gate run is current. */
module GateTime {
  import opened Sequences
  import opened VulnerabilityFindings

  const HOUR := 60 * MINUTE
  const SKEW := 5 * MINUTE

  /** `_validate_freshness`. */
  predicate Fresh(observed: int, now: int, maxHours: int) {
    1 <= maxHours <= 168 && observed <= now + SKEW && now - observed <= maxHours * HOUR
  }

  datatype DatabaseTimes = DatabaseTimes(updated: int, downloaded: int, nextUpdate: int)

  /** The time checks of `_validate_database_record`. */
  predicate DatabaseCurrent(d: DatabaseTimes, now: int, maxHours: int) {
    && d.downloaded <= now + SKEW && d.updated - SKEW <= d.downloaded && d.updated < d.nextUpdate
    && Fresh(d.updated, now, maxHours)
  }

  /** Everything with a date that one gate run examines. */
  datatype Dated = Dated(
    generated: int, maxReportHours: int, maxDatabaseHours: int, databases: seq<DatabaseTimes>, executions: seq<int>,
    reports: seq<int>, dispositions: seq<Disposition>, terms: ReviewTerms)

  ghost predicate TimesPass(e: Dated, now: int) {
    && Fresh(e.generated, now, e.maxReportHours)
    && (forall d :: d in e.databases ==> DatabaseCurrent(d, now, e.maxDatabaseHours))
    && (forall t :: t in e.executions ==> Fresh(t, now, e.maxReportHours) && t <= e.generated + SKEW)
    && (forall t :: t in e.reports ==> Fresh(t, now, e.maxReportHours))
    && (forall x :: x in e.dispositions ==> Live(e.terms, x, now))
  }

  // ----- The admitting times are one interval -----

  /** Checks that do not depend on the time of the run. */
  ghost predicate TimelessPass(e: Dated) {
    && 1 <= e.maxReportHours <= 168
    && (forall d :: d in e.databases ==>
          1 <= e.maxDatabaseHours <= 168 && d.updated - SKEW <= d.downloaded && d.updated < d.nextUpdate)
    && (forall t :: t in e.executions ==> t <= e.generated + SKEW)
    && (forall x :: x in e.dispositions ==>
          && x.status in e.terms.allowed && e.terms.namedOwner(x.owner) && e.terms.explained(x.rationale)
          && x.reviewedAt < x.expiresAt <= x.reviewedAt + e.terms.maxDays * DAY)
  }

  /** The instants that must not lie more than five minutes ahead of the run. */
  function Starts(e: Dated): seq<int> {
    [e.generated] + Map((d: DatabaseTimes) => d.downloaded, e.databases) + Map((d: DatabaseTimes) => d.updated, e.databases)
    + e.executions + e.reports + Map((x: Disposition) => x.reviewedAt, e.dispositions)
  }

  /** The last instants at which each piece of evidence still holds. */
  function Ends(e: Dated): seq<int> {
    [e.generated + e.maxReportHours * HOUR]
    + Map((d: DatabaseTimes) => d.updated + e.maxDatabaseHours * HOUR, e.databases)
    + Map((t: int) => t + e.maxReportHours * HOUR, e.executions) + Map((t: int) => t + e.maxReportHours * HOUR, e.reports)
    + Map((x: Disposition) => x.expiresAt - 1, e.dispositions)
  }

  function Latest(s: seq<int>): (r: int)
    requires s != []
    ensures r in s && forall x :: x in s ==> x <= r
  {
    if |s| == 1 then s[0] else assert s == [s[0]] + s[1..]; var r := Latest(s[1..]); if s[0] > r then s[0] else r
  }

  function Earliest(s: seq<int>): (r: int)
    requires s != []
    ensures r in s && forall x :: x in s ==> r <= x
  {
    if |s| == 1 then s[0] else assert s == [s[0]] + s[1..]; var r := Earliest(s[1..]); if s[0] < r then s[0] else r
  }

  lemma AllOfMap<A(!new)>(f: A -> int, s: seq<A>, good: int -> bool)
    ensures (forall y :: y in Map(f, s) ==> good(y)) <==> (forall x :: x in s ==> good(f(x)))
  {
    forall x | x in s ensures f(x) in Map(f, s) {
      var i :| 0 <= i < |s| && s[i] == x;
      assert Map(f, s)[i] == f(x);
    }
    forall y | y in Map(f, s) ensures exists x :: x in s && f(x) == y {
      var i :| 0 <= i < |s| && Map(f, s)[i] == y;
      assert s[i] in s;
    }
  }

  lemma AllStarted(e: Dated, now: int)
    ensures Latest(Starts(e)) - SKEW <= now <==>
            && e.generated <= now + SKEW
            && (forall d :: d in e.databases ==> d.downloaded <= now + SKEW && d.updated <= now + SKEW)
            && (forall t :: t in e.executions ==> t <= now + SKEW) && (forall t :: t in e.reports ==> t <= now + SKEW)
            && (forall x :: x in e.dispositions ==> x.reviewedAt <= now + SKEW)
  {
    var good := (t: int) => t <= now + SKEW;
    AllOfMap((d: DatabaseTimes) => d.downloaded, e.databases, good);
    AllOfMap((d: DatabaseTimes) => d.updated, e.databases, good);
    AllOfMap((x: Disposition) => x.reviewedAt, e.dispositions, good);
    assert (forall t :: t in Starts(e) ==> good(t)) <==> good(Latest(Starts(e)));
    StartsSplit(e, good);
  }

  lemma StartsSplit(e: Dated, good: int -> bool)
    ensures (forall t :: t in Starts(e) ==> good(t)) <==>
            && good(e.generated)
            && (forall t :: t in Map((d: DatabaseTimes) => d.downloaded, e.databases) ==> good(t))
            && (forall t :: t in Map((d: DatabaseTimes) => d.updated, e.databases) ==> good(t))
            && (forall t :: t in e.executions ==> good(t)) && (forall t :: t in e.reports ==> good(t))
            && (forall t :: t in Map((x: Disposition) => x.reviewedAt, e.dispositions) ==> good(t))
  {
    var a, b, c := [e.generated], Map((d: DatabaseTimes) => d.downloaded, e.databases), Map((d: DatabaseTimes) => d.updated, e.databases);
    var f := Map((x: Disposition) => x.reviewedAt, e.dispositions);
    SixParts(a, b, c, e.executions, e.reports, f, good);
    assert e.generated in a;
  }

  lemma SixParts(a: seq<int>, b: seq<int>, c: seq<int>, d: seq<int>, e: seq<int>, f: seq<int>, good: int -> bool)
    ensures (forall t :: t in a + b + c + d + e + f ==> good(t)) <==>
            && (forall t :: t in a ==> good(t)) && (forall t :: t in b ==> good(t)) && (forall t :: t in c ==> good(t))
            && (forall t :: t in d ==> good(t)) && (forall t :: t in e ==> good(t)) && (forall t :: t in f ==> good(t))
  {
    assert forall t :: t in a + b + c + d + e + f <==> t in a || t in b || t in c || t in d || t in e || t in f;
  }

  lemma AllCurrent(e: Dated, now: int)
    ensures now <= Earliest(Ends(e)) <==>
            && now <= e.generated + e.maxReportHours * HOUR
            && (forall d :: d in e.databases ==> now <= d.updated + e.maxDatabaseHours * HOUR)
            && (forall t :: t in e.executions ==> now <= t + e.maxReportHours * HOUR)
            && (forall t :: t in e.reports ==> now <= t + e.maxReportHours * HOUR)
            && (forall x :: x in e.dispositions ==> now < x.expiresAt)
  {
    var good := (t: int) => now <= t;
    var byDatabase := (d: DatabaseTimes) => d.updated + e.maxDatabaseHours * HOUR;
    var byReport := (t: int) => t + e.maxReportHours * HOUR;
    var byExpiry := (x: Disposition) => x.expiresAt - 1;
    AllOfMap(byDatabase, e.databases, good);
    AllOfMap(byReport, e.executions, good);
    AllOfMap(byReport, e.reports, good);
    AllOfMap(byExpiry, e.dispositions, good);
    var a := [e.generated + e.maxReportHours * HOUR];
    assert (forall t :: t in Ends(e) ==> good(t)) <==> good(Earliest(Ends(e)));
    SixParts(a, Map(byDatabase, e.databases), Map(byReport, e.executions), Map(byReport, e.reports), Map(byExpiry, e.dispositions), [], good);
    assert Ends(e) + [] == Ends(e);
    assert a[0] in a;
  }

  /** For fixed evidence the admitting times are exactly one closed interval of microseconds. */
  lemma AdmittingInterval(e: Dated, now: int)
    ensures TimesPass(e, now) <==> TimelessPass(e) && Latest(Starts(e)) - SKEW <= now <= Earliest(Ends(e))
  {
    AllStarted(e, now);
    AllCurrent(e, now);
  }

  /** In particular nothing between two admitting times is refused. */
  lemma NoGap(e: Dated, a: int, b: int, c: int)
    requires a <= b <= c && TimesPass(e, a) && TimesPass(e, c)
    ensures TimesPass(e, b)
  {
    AdmittingInterval(e, a);
    AdmittingInterval(e, b);
    AdmittingInterval(e, c);
  }
}
