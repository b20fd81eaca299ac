/** The two tables of db/migrations/001_init.sql, the request body that creates a
    job, and the SET clause of every UPDATE that the scheduler sends to `jobs`. */
module Schema {

  datatype Option<+T> = None | Some(value: T)

  type JobId = nat      // BIGSERIAL, also the key of pg_try_advisory_lock
  type WorkerId = nat   // stands for "worker-<8 hex digits>"; never reused
  type ProcId = nat     // one worker process
  type Time = int       // TIMESTAMPTZ in microseconds

  const SECOND: Time := 1_000_000
  const STALE_THRESHOLD: Time := 30 * SECOND

  datatype Json =
    | Null
    | Bool(b: bool)
    | Num(n: int)
    | Str(s: string)
    | Arr(items: seq<Json>)
    | Obj(fields: map<string, Json>)

  datatype Status = Pending | Claimed | Running | Done | Failed | Dead

  datatype Job = Job(
    jtype: string,
    payload: Json,
    status: Status,
    priority: int,
    attempt: int,
    maxRetries: int,
    runAt: Time,
    claimedAt: Option<Time>,
    heartbeatAt: Option<Time>,
    completedAt: Option<Time>,
    result: Option<Json>,
    error: Option<string>,
    workerId: Option<WorkerId>,
    createdAt: Time)

  datatype DeadLetter = DeadLetter(
    originalId: JobId,
    jtype: string,
    payload: Json,
    error: string,
    attempts: int,
    workerId: WorkerId,
    diedAt: Time)

  /** Body of POST /jobs. */
  datatype JobCreate = JobCreate(
    jtype: string,
    payload: map<string, Json>,
    priority: int,
    maxRetries: int,
    runAt: Option<Time>)
  {
    predicate Valid() {
      1 <= priority <= 10 && 0 <= maxRetries <= 10
    }
  }

  predicate Terminal(status: Status) {
    status == Done || status == Failed || status == Dead
  }

  /** A row some worker holds: the status list of the reaper's WHERE clause. */
  predicate Held(status: Status) {
    status == Claimed || status == Running
  }

  function Pow2(n: int): (r: nat)
    ensures r >= 1
    decreases if n <= 0 then 0 else n
  {
    if n <= 0 then 1 else 2 * Pow2(n - 1)
  }

  /** backoff = (2 ** attempt) * BASE_DELAY */
  function Backoff(base: nat, attempt: int): (r: nat) {
    Pow2(attempt) * base
  }

  /** The sum of the backoffs of attempts 0 .. attempt - 1. */
  function TotalBackoff(base: nat, attempt: int): (r: nat)
    decreases if attempt <= 0 then 0 else attempt
  {
    if attempt <= 0 then 0 else TotalBackoff(base, attempt - 1) + Backoff(base, attempt - 1)
  }

  lemma {:induction false} TotalBackoffClosed(base: nat, attempt: nat)
    ensures TotalBackoff(base, attempt) == base * (Pow2(attempt) - 1)
  {
    if attempt > 0 {
      TotalBackoffClosed(base, attempt - 1);
      AddPower(base, Pow2(attempt - 1));
    }
  }

  lemma AddPower(base: int, p: int)
    ensures base * (p - 1) + p * base == base * (2 * p - 1)
  {
  }

  /** The attempt at which a job that keeps failing is dead-lettered. */
  function Budget(maxRetries: int): int {
    if maxRetries < 1 then 1 else maxRetries
  }

  /** dict(payload) when it is an object, {} otherwise. */
  function PayloadDict(payload: Json): Json {
    if payload.Obj? then payload else Obj(map[])
  }

  // ----- INSERT and the SET clauses -----

  function NewRow(req: JobCreate, now: Time): Job {
    Job(req.jtype, Obj(req.payload), Pending, req.priority, 0, req.maxRetries,
        if req.runAt.Some? then req.runAt.value else now,
        None, None, None, None, None, None, now)
  }

  function ClaimedRow(row: Job, w: WorkerId, now: Time): Job {
    row.(status := Claimed, claimedAt := Some(now), workerId := Some(w))
  }

  function RunningRow(row: Job, now: Time): Job {
    row.(status := Running, heartbeatAt := Some(now))
  }

  function DoneRow(row: Job, result: Json, w: WorkerId, now: Time): Job {
    row.(status := Done, result := Some(result), completedAt := Some(now),
         workerId := Some(w), heartbeatAt := None, attempt := row.attempt + 1)
  }

  function RetriedRow(row: Job, error: string, now: Time, backoff: Time): Job {
    row.(status := Pending, attempt := row.attempt + 1, runAt := now + backoff,
         error := Some(error), workerId := None)
  }

  function DeadRow(row: Job, error: string): Job {
    row.(status := Dead, error := Some(error), attempt := row.attempt + 1)
  }

  function BeatRow(row: Job, now: Time): Job {
    row.(heartbeatAt := Some(now))
  }

  function ResetRow(row: Job): Job {
    row.(status := Pending, claimedAt := None, workerId := None, heartbeatAt := None)
  }

  /** WHERE clause of the reaper; a NULL heartbeat_at never compares as older. */
  predicate StaleRow(row: Job, now: Time) {
    Held(row.status) && row.heartbeatAt.Some? && row.heartbeatAt.value < now - STALE_THRESHOLD
  }

  /** WHERE clause of the heartbeat. */
  predicate BeatsFor(row: Job, w: WorkerId) {
    row.workerId == Some(w) && row.status == Running
  }

  /** WHERE clause of the claim, apart from the advisory lock. */
  predicate Due(row: Job, now: Time) {
    row.status == Pending && row.runAt <= now
  }
}
