/**
 * Free-trial bookkeeping for a customer record: the seven-day window, the
 * days left, and the result of the server-side sweep that deactivates
 * expired trials. Times are integer milliseconds; the current time is a
 * parameter.
 */
module Trial {
  import opened Wrappers

  const DayMs: int := 24 * 60 * 60 * 1000

  const TrialDays: int := 7

  /** The tag that marks a customer as being in the trial period. */
  const TrialTag: string := "Período de teste"

  /** `Math.ceil(a / d)` for a positive divisor. */
  function CeilDiv(a: int, d: int): (q: int)
    requires d > 0
    ensures d * (q - 1) < a <= d * q
  {
    -((-a) / d)
  }

  /** Ceiling division never decreases as the dividend grows. */
  lemma CeilDivMonotone(a: int, b: int, d: int)
    requires d > 0 && a <= b
    ensures CeilDiv(a, d) <= CeilDiv(b, d)
  {
    var qa, qb := CeilDiv(a, d), CeilDiv(b, d);
    if qa > qb {
      assert d * (qa - 1) >= d * qb by {
        assert qa - 1 >= qb;
        MultiplyMonotone(d, qb, qa - 1);
      }
    }
  }

  lemma MultiplyMonotone(d: int, x: int, y: int)
    requires d > 0 && x <= y
    ensures d * x <= d * y
  {
  }

  /** The columns read from `clientes`; `created_at` as milliseconds since the epoch. */
  datatype ClientRow = ClientRow(tag: string, status: string, createdAtMs: int)

  datatype TrialStatus = TrialStatus(
    isTrialClient: bool,
    status: string,
    expiresAtMs: int,
    daysLeft: int,
    isExpired: bool)

  /** The status computed from a row at time `nowMs`. */
  function StatusOf(row: ClientRow, nowMs: int): (t: TrialStatus)
    ensures t.isTrialClient <==> row.tag == TrialTag
    ensures t.status == row.status
    ensures t.expiresAtMs == row.createdAtMs + TrialDays * DayMs
    ensures t.daysLeft >= 0
    ensures t.daysLeft > 0 <==> nowMs < t.expiresAtMs
    ensures t.daysLeft > 0 ==> DayMs * (t.daysLeft - 1) < t.expiresAtMs - nowMs <= DayMs * t.daysLeft
    ensures t.isExpired <==> t.isTrialClient && nowMs >= t.expiresAtMs
  {
    var isTrialClient := row.tag == TrialTag;
    var expiresAt := row.createdAtMs + TrialDays * DayMs;
    var daysLeft := CeilDiv(expiresAt - nowMs, DayMs);
    TrialStatus(isTrialClient, row.status, expiresAt, if daysLeft > 0 then daysLeft else 0,
                daysLeft <= 0 && isTrialClient)
  }

  /** An expired record is always a trial record. */
  lemma ExpiredImpliesTrial(row: ClientRow, nowMs: int)
    ensures StatusOf(row, nowMs).isExpired ==> StatusOf(row, nowMs).isTrialClient
  {
  }

  /** The days left never go up as time passes. */
  lemma DaysLeftNonIncreasing(row: ClientRow, now1: int, now2: int)
    requires now1 <= now2
    ensures StatusOf(row, now2).daysLeft <= StatusOf(row, now1).daysLeft
  {
    var expiresAt := row.createdAtMs + TrialDays * DayMs;
    CeilDivMonotone(expiresAt - now2, expiresAt - now1, DayMs);
  }

  /** Once expired, a record stays expired. */
  lemma ExpiryIsPermanent(row: ClientRow, now1: int, now2: int)
    requires now1 <= now2
    ensures StatusOf(row, now1).isExpired ==> StatusOf(row, now2).isExpired
  {
  }

  /** What the `clientes` query comes back with. */
  datatype QueryOutcome = QueryFailed | QueryThrew | QueryReturned(row: Option<ClientRow>)

  /** `getTrialStatus`: the status of the returned row; nothing on any error or without a row. */
  function GetTrialStatus(outcome: QueryOutcome, nowMs: int): (r: Option<TrialStatus>)
    ensures r.Some? <==> outcome.QueryReturned? && outcome.row.Some?
    ensures r.Some? ==> r.value.expiresAtMs == outcome.row.value.createdAtMs + 7 * 86_400_000
    ensures r.Some? ==> r.value == StatusOf(outcome.row.value, nowMs)
  {
    match outcome
    case QueryReturned(Some(row)) => Some(StatusOf(row, nowMs))
    case _ => None
  }

  /** What the `inactivate_expired_trial_clients` call gives back. */
  datatype SweepOutcome = SweepFailed | SweepThrew | SweepDone

  /** `checkAndInactivateExpiredTrials`: `true` exactly when the call reported no error and did not throw. */
  function CheckAndInactivateExpiredTrials(outcome: SweepOutcome): (ok: bool)
    ensures ok <==> outcome == SweepDone
  {
    match outcome
    case SweepDone => true
    case _ => false
  }
}
