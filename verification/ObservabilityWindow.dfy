/** Admission of a release's observability receipt, and how its time windows interlock. */
module ObservabilityWindow {

  /** The current time is in microseconds; receipts carry whole seconds, as their timestamps do. */
  const SECOND := 1_000_000
  const MINUTE := 60 * SECOND
  const HOUR := 60 * MINUTE
  const DAY := 24 * HOUR

  const FUTURE_SKEW := 30 * SECOND
  const MAX_RECEIPT_AGE := 5 * MINUTE
  const MAX_DELIVERY_AGE := 30 * DAY
  const MAX_GATE_AGE := 3 * MINUTE
  const MAX_BACKUP_AGE := 8 * HOUR
  const DEFAULT_MINIMUM := 24 * 60 * 60

  /** The times of an external alert delivery; `intact` stands for its identity and evidence checks. */
  datatype Delivery = Delivery(
    intact: bool, firingStarted: int, firingReceived: int, resolvedAt: int, resolvedReceived: int, acknowledged: int, verified: int)

  datatype GateSnapshot = GateSnapshot(healthy: bool, observed: int, pending: nat, firing: nat, restarts: nat, headroom: bool)

  datatype Stability = Stability(
    started: int, ended: int, renewal: bool, reconnect: bool, monitoringCycles: nat, backupCycles: nat, incidents: nat)

  datatype Backup = Backup(intact: bool, completed: int)

  datatype Receipt = Receipt(intact: bool, deployed: int, verified: int, gate: GateSnapshot, stability: Stability, backup: Backup)

  predicate Recent(t: int, now: int, age: int) { t * SECOND <= now + FUTURE_SKEW && now - t * SECOND <= age }

  /** `verify_external_delivery`. */
  predicate DeliveryAdmitted(d: Delivery, now: int) {
    && d.intact
    && d.firingStarted < d.firingReceived < d.resolvedAt <= d.resolvedReceived <= d.verified
    && d.firingReceived <= d.acknowledged <= d.verified
    && Recent(d.verified, now, MAX_DELIVERY_AGE)
  }

  /** `_validate_release_gate`. */
  predicate GateAdmitted(g: GateSnapshot, now: int) {
    g.healthy && g.pending == 0 && g.firing == 0 && g.restarts == 0 && g.headroom && Recent(g.observed, now, MAX_GATE_AGE)
  }

  /** `_validate_stability`. */
  predicate StabilityAdmitted(s: Stability, deployed: int, now: int, minimum: int) {
    && deployed <= s.started < s.ended && s.ended - s.started >= minimum && s.ended * SECOND <= now + FUTURE_SKEW
    && s.renewal && s.reconnect && s.monitoringCycles >= 2 && s.backupCycles >= 1 && s.incidents == 0
  }

  function Max(a: int, b: int): int { if a >= b then a else b }

  /** `verify_release_observability`. */
  predicate Admitted(r: Receipt, d: Delivery, minimum: int, now: int) {
    && r.intact && minimum >= 3600
    && r.deployed < r.verified && Recent(r.verified, now, MAX_RECEIPT_AGE)
    && DeliveryAdmitted(d, now) && r.deployed < d.verified
    && GateAdmitted(r.gate, now)
    && StabilityAdmitted(r.stability, r.deployed, now, minimum)
    && r.backup.intact && r.deployed < r.backup.completed <= r.verified && Recent(r.backup.completed, now, MAX_BACKUP_AGE)
    && Max(Max(d.verified, r.gate.observed), Max(r.stability.ended, r.backup.completed)) <= r.verified
  }

  // ----- The admitting times -----

  /** The checks that do not mention the current time. */
  predicate Consistent(r: Receipt, d: Delivery, minimum: int) {
    && r.intact && d.intact && r.backup.intact && minimum >= 3600
    && d.firingStarted < d.firingReceived < d.resolvedAt <= d.resolvedReceived <= d.verified
    && d.firingReceived <= d.acknowledged <= d.verified
    && r.gate.healthy && r.gate.pending == 0 && r.gate.firing == 0 && r.gate.restarts == 0 && r.gate.headroom
    && r.deployed <= r.stability.started < r.stability.ended && r.stability.ended - r.stability.started >= minimum
    && r.stability.renewal && r.stability.reconnect && r.stability.monitoringCycles >= 2 && r.stability.backupCycles >= 1
    && r.stability.incidents == 0
    && r.deployed < d.verified <= r.verified && r.gate.observed <= r.verified && r.stability.ended <= r.verified
    && r.deployed < r.backup.completed <= r.verified
  }

  function Opens(r: Receipt): int { r.verified * SECOND - FUTURE_SKEW }

  function Min(a: int, b: int): int { if a <= b then a else b }

  function Closes(r: Receipt, d: Delivery): int {
    Min(Min(r.verified * SECOND + MAX_RECEIPT_AGE, d.verified * SECOND + MAX_DELIVERY_AGE),
        Min(r.gate.observed * SECOND + MAX_GATE_AGE, r.backup.completed * SECOND + MAX_BACKUP_AGE))
  }

  /** For fixed receipts the admitting times are one interval, and it is at most three minutes and
      thirty seconds long. */
  lemma AdmittingInterval(r: Receipt, d: Delivery, minimum: int, now: int)
    ensures Admitted(r, d, minimum, now) <==> Consistent(r, d, minimum) && Opens(r) <= now <= Closes(r, d)
    ensures Consistent(r, d, minimum) ==> Closes(r, d) - Opens(r) <= 3 * MINUTE + 30 * SECOND
  {
  }

  /** Two admitting times of the same receipts are never further apart. */
  lemma AdmittingSpan(r: Receipt, d: Delivery, minimum: int, a: int, b: int)
    requires Admitted(r, d, minimum, a) && Admitted(r, d, minimum, b)
    ensures b - a <= 3 * MINUTE + 30 * SECOND
    ensures forall t :: a <= t <= b ==> Admitted(r, d, minimum, t)
  {
    AdmittingInterval(r, d, minimum, a);
    AdmittingInterval(r, d, minimum, b);
    forall t | a <= t <= b ensures Admitted(r, d, minimum, t) { AdmittingInterval(r, d, minimum, t); }
  }

  /** How many seconds after deployment the backup of an admitted release is complete at the earliest:
      never before it, and late enough to be at most eight hours old when the stability time is over. */
  function EarliestBackup(minimum: int): int { Max(minimum - 8 * 3600 - 30, 1) }

  /** Admission implies the stability time since deployment and bounds the backup from below. */
  lemma SinceDeployment(r: Receipt, d: Delivery, minimum: int, now: int)
    requires Admitted(r, d, minimum, now)
    ensures r.verified - r.deployed >= minimum
    ensures r.backup.completed - r.deployed >= EarliestBackup(minimum)
    ensures minimum == DEFAULT_MINIMUM ==> r.backup.completed - r.deployed >= 15 * 3600 + 59 * 60 + 30
  {
    AdmittingInterval(r, d, minimum, now);
  }

  function Sample(minimum: int, completed: int): (Receipt, Delivery) {
    (Receipt(true, 0, minimum, GateSnapshot(true, minimum, 0, 0, 0, true), Stability(0, minimum, true, true, 2, 1, 0), Backup(true, completed)),
     Delivery(true, 1, 2, 3, 3, 3, minimum))
  }

  /** Both lower bounds are attained, for every stability time the check allows. */
  lemma BackupAttained(minimum: int)
    requires minimum >= 3600
    ensures var (r, d) := Sample(minimum, EarliestBackup(minimum));
      && Admitted(r, d, minimum, Opens(r)) && r.verified - r.deployed == minimum
      && r.backup.completed - r.deployed == EarliestBackup(minimum)
  {
    var (r, d) := Sample(minimum, EarliestBackup(minimum));
    AdmittingInterval(r, d, minimum, Opens(r));
  }

  /** The longest interval is attained, for every stability time the check allows. */
  lemma SpanAttained(minimum: int)
    requires minimum >= 3600
    ensures var (r, d) := Sample(minimum, minimum);
      && Admitted(r, d, minimum, Opens(r)) && Admitted(r, d, minimum, Closes(r, d))
      && Closes(r, d) - Opens(r) == 3 * MINUTE + 30 * SECOND
  {
    var (r, d) := Sample(minimum, minimum);
    AdmittingInterval(r, d, minimum, Opens(r));
    AdmittingInterval(r, d, minimum, Closes(r, d));
  }
}
