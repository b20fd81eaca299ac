/** The job-queue protocol as one transition system: API clients, workers, heartbeat
    loops and reapers interleave the atomic steps below in any order.

    `hist` and the fields marked "history" record what happened; no step of the program
    reads them. */
module Protocol {
  import opened Schema

  /** One execution: the record that the claim returned, and the NOW() of the claim. */
  datatype Exec = Exec(
    id: JobId,
    row: Job,
    claimNow: Time,
    wasReset: bool)   // history: a reaper reset the row during this execution

  /** Where a worker coroutine is. */
  datatype Pc =
    | AtLoopTop                             // before `while not shutdown_event.is_set()`
    | Scanning(took: set<JobId>)            // inside _try_claim; the locks that its SELECT has got
    | Waiting(until: Time)                  // wait_for(notify_event.wait(), POLL_INTERVAL)
    | Took(exec: Exec)                      // claimed, not yet marked running
    | Executing(exec: Exec)                 // marked running, outcome not yet written
    | Releasing(id: JobId, raised: bool)    // in the `finally` that unlocks
    | Stopped(abandoned: Option<JobId>)     // out of run_worker, or the process died

  datatype Worker = Worker(
    proc: ProcId,
    pc: Pc,
    sessionOpen: bool,        // claim_conn
    event: bool,              // notify_event
    inbox: set<JobId>,        // notifications sent and not yet delivered
    scanned: set<JobId>,      // history: jobs inserted before the latest scan began
    lastBeat: Time,           // history: latest successful heartbeat statement
    lateClaims: nat)          // history: claims made after shutdown was set

  /** A session-level advisory lock; re-entrant for its holder. */
  datatype Lock = Lock(holder: WorkerId, count: nat)

  datatype Fate = InTable | Cancelled(afterReset: bool)

  datatype History = History(
    jtype: string,
    payload: Json,
    maxRetries: int,
    runAt: Time,                    // as enqueued
    claims: nat,                    // committed claims
    abandoned: nat,                 // executions that ended before an outcome write
    claimer: Option<WorkerId>,      // who claimed last
    letter: Option<nat>,            // position of the dead letter
    fate: Fate)

  datatype State = State(
    baseDelay: nat,
    poll: nat,
    clock: Time,
    jobs: map<JobId, Job>,
    dead: seq<DeadLetter>,
    locks: map<JobId, Lock>,
    workers: map<WorkerId, Worker>,
    down: set<ProcId>,              // processes whose shutdown_event is set
    crashed: map<ProcId, Time>,     // dead processes and when they died
    hist: map<JobId, History>)

  datatype Step =
    | Tick(now: Time)
    | Enqueue(job: JobId, req: JobCreate)
    | Cancel(job: JobId)
    | StartWorker(w: WorkerId, p: ProcId)
    | Deliver(w: WorkerId, job: JobId)
    | LoopCheck(w: WorkerId)
    | TakeLocks(w: WorkerId, keys: multiset<JobId>)
    | Claim(w: WorkerId, job: JobId, at: Time)
    | ScanEmpty(w: WorkerId)
    | WakeUp(w: WorkerId)
    | MarkRunning(w: WorkerId)
    | SuccessWrite(w: WorkerId, result: Json)
    | RetryWrite(w: WorkerId, error: string)
    | DeadLetterTxn(w: WorkerId, error: string, at: Time)
    | Unlock(w: WorkerId)
    | UnlockFails(w: WorkerId)
    | Raise(w: WorkerId)
    | CloseSession(w: WorkerId)
    | Shutdown(p: ProcId)
    | Crash(p: ProcId)
    | Heartbeat(w: WorkerId)
    | Reap(p: ProcId, rows: set<JobId>, at: Time)

  predicate Initial(s: State) {
    && s.jobs == map[] && s.dead == [] && s.locks == map[] && s.workers == map[]
    && s.down == {} && s.crashed == map[] && s.hist == map[]
  }

  // ----- Reading the state -----

  predicate Busy(pc: Pc) {
    pc.Took? || pc.Executing?
  }

  /** w has claimed id and has not yet written an outcome. */
  predicate Executes(s: State, w: WorkerId, id: JobId) {
    w in s.workers && Busy(s.workers[w].pc) && s.workers[w].pc.exec.id == id
  }

  /** w is between claiming id and unlocking it. */
  predicate Occupies(s: State, w: WorkerId, id: JobId) {
    Executes(s, w, id) || (w in s.workers && s.workers[w].pc.Releasing? && s.workers[w].pc.id == id)
  }

  /** The last claim of id is still executing. */
  predicate InFlight(s: State, id: JobId) {
    id in s.hist && s.hist[id].claimer.Some? && Executes(s, s.hist[id].claimer.value, id)
  }

  /** The rows that the reaper's WHERE clause selects when its NOW() is `at`. */
  function StaleAt(s: State, at: Time): set<JobId> {
    set id | id in s.jobs && StaleRow(s.jobs[id], at)
  }

  function StaleIds(s: State): set<JobId> {
    StaleAt(s, s.clock)
  }

  predicate Lockable(s: State, w: WorkerId, key: JobId) {
    key in s.locks ==> s.locks[key].holder == w
  }

  // ----- Pieces of state updates -----

  function SetPc(s: State, w: WorkerId, pc: Pc): State
    requires w in s.workers
  {
    s.(workers := s.workers[w := s.workers[w].(pc := pc)])
  }

  function LockCount(locks: map<JobId, Lock>, key: JobId): nat {
    if key in locks then locks[key].count else 0
  }

  function Acquire(locks: map<JobId, Lock>, w: WorkerId, keys: multiset<JobId>): map<JobId, Lock> {
    map key | key in locks.Keys + KeySet(keys) ::
      if key in keys then Lock(w, LockCount(locks, key) + keys[key]) else locks[key]
  }

  /** pg_advisory_unlock: drops one count; warns and does nothing when w is not the holder. */
  function Release(locks: map<JobId, Lock>, w: WorkerId, key: JobId): map<JobId, Lock> {
    if key !in locks || locks[key].holder != w then locks
    else if locks[key].count <= 1 then locks - {key}
    else locks[key := Lock(w, locks[key].count - 1)]
  }

  /** Closing a session frees all its advisory locks. */
  function ReleaseAll(locks: map<JobId, Lock>, w: WorkerId): map<JobId, Lock> {
    map key | key in locks && locks[key].holder != w :: locks[key]
  }

  /** What a worker that dies at pc leaves unfinished. */
  function LeftBehind(pc: Pc): Option<JobId> {
    match pc
    case Took(e) => Some(e.id)
    case Executing(e) => Some(e.id)
    case Releasing(id, raised) => if raised then Some(id) else None
    case Stopped(abandoned) => abandoned
    case _ => None
  }

  function Abandon(h: History): History {
    h.(abandoned := h.abandoned + 1)
  }

  /** Control after the unlock: back to the loop, or out of run_worker. */
  function AfterRelease(pc: Pc): Pc
    requires pc.Releasing?
  {
    if pc.raised then Stopped(Some(pc.id)) else AtLoopTop
  }

  function MarkReset(pc: Pc): Pc {
    match pc
    case Took(e) => Took(e.(wasReset := true))
    case Executing(e) => Executing(e.(wasReset := true))
    case _ => pc
  }

  // ----- The steps: a guard and an effect each -----

  predicate CanTick(s: State, now: Time) {
    s.clock <= now
  }

  function DoTick(s: State, now: Time): State {
    s.(clock := now)
  }

  predicate CanEnqueue(s: State, id: JobId, req: JobCreate) {
    id !in s.hist && req.Valid()
  }

  /** INSERT, with the trigger that notifies every listening session. */
  function DoEnqueue(s: State, id: JobId, req: JobCreate): State {
    var row := NewRow(req, s.clock);
    s.(jobs := s.jobs[id := row],
       hist := s.hist[id := History(row.jtype, row.payload, row.maxRetries, row.runAt, 0, 0, None, None, InTable)],
       workers := map w | w in s.workers :: Notify(s.workers[w], id))
  }

  function Notify(wk: Worker, id: JobId): Worker {
    if wk.pc.Stopped? then wk else wk.(inbox := wk.inbox + {id})
  }

  predicate CanCancel(s: State, id: JobId) {
    id in s.jobs && s.jobs[id].status == Pending
  }

  function DoCancel(s: State, id: JobId): State {
    s.(jobs := s.jobs - {id},
       hist := if id in s.hist
               then s.hist[id := s.hist[id].(fate := Cancelled(
                 InFlight(s, id) && s.workers[s.hist[id].claimer.value].pc.exec.wasReset))]
               else s.hist)
  }

  predicate CanStart(s: State, w: WorkerId, p: ProcId) {
    w !in s.workers && p !in s.crashed
  }

  /** run_worker up to its loop, add_listener included. */
  function DoStart(s: State, w: WorkerId, p: ProcId): State {
    s.(workers := s.workers[w := Worker(p, AtLoopTop, true, false, {}, {}, s.clock, 0)])
  }

  predicate CanDeliver(s: State, w: WorkerId, id: JobId) {
    w in s.workers && id in s.workers[w].inbox
  }

  function DoDeliver(s: State, w: WorkerId, id: JobId): State
    requires w in s.workers
  {
    s.(workers := s.workers[w := s.workers[w].(inbox := s.workers[w].inbox - {id}, event := true)])
  }

  predicate CanLoopCheck(s: State, w: WorkerId) {
    w in s.workers && s.workers[w].pc.AtLoopTop?
  }

  function DoLoopCheck(s: State, w: WorkerId): State
    requires w in s.workers
  {
    if s.workers[w].proc in s.down then SetPc(s, w, Stopped(None))
    else s.(workers := s.workers[w := s.workers[w].(pc := Scanning({}), scanned := s.hist.Keys)])
  }

  predicate CanTakeLocks(s: State, w: WorkerId, keys: multiset<JobId>) {
    && w in s.workers && s.workers[w].pc.Scanning?
    && forall k | k in keys :: Lockable(s, w, k)
  }

  /** Evaluating pg_try_advisory_lock(id) in the claim's WHERE clause, for the chosen row and
      for any others that the plan visits; not undone when the transaction ends. */
  function DoTakeLocks(s: State, w: WorkerId, keys: multiset<JobId>): State
    requires CanTakeLocks(s, w, keys)
  {
    SetPc(s.(locks := Acquire(s.locks, w, keys)), w, Scanning(s.workers[w].pc.took + KeySet(keys)))
  }

  function KeySet(keys: multiset<JobId>): set<JobId> {
    set k | k in keys
  }

  /** The row passed the WHERE clause, so this very SELECT has taken its lock, once more if the session
      held it already. */
  predicate CanClaim(s: State, w: WorkerId, id: JobId, at: Time) {
    && w in s.workers && s.workers[w].pc.Scanning? && id in s.workers[w].pc.took
    && at <= s.clock && id in s.jobs && Due(s.jobs[id], at)
    && id in s.locks && s.locks[id].holder == w
  }

  function DoClaim(s: State, w: WorkerId, id: JobId, at: Time): State
    requires w in s.workers && id in s.jobs
  {
    RecordClaim(s.(jobs := s.jobs[id := ClaimedRow(s.jobs[id], w, at)]), w, id, s.jobs[id], at)
  }

  /** Bookkeeping of a claim: everything but the row itself. */
  function RecordClaim(s: State, w: WorkerId, id: JobId, row: Job, at: Time): State
    requires w in s.workers
  {
    var wk := s.workers[w];
    s.(workers := s.workers[w := wk.(
         pc := Took(Exec(id, row, at, false)),
         lateClaims := wk.lateClaims + (if wk.proc in s.down then 1 else 0))],
       hist := if id in s.hist
               then s.hist[id := s.hist[id].(claims := s.hist[id].claims + 1, claimer := Some(w))]
               else s.hist)
  }

  predicate CanScanEmpty(s: State, w: WorkerId) {
    w in s.workers && s.workers[w].pc.Scanning?
  }

  function DoScanEmpty(s: State, w: WorkerId): State
    requires w in s.workers
  {
    SetPc(s, w, Waiting(s.clock + s.poll))
  }

  predicate CanWakeUp(s: State, w: WorkerId) {
    && w in s.workers && s.workers[w].pc.Waiting?
    && (s.workers[w].event || s.workers[w].pc.until <= s.clock)
  }

  /** The wait ends and notify_event.clear() runs. */
  function DoWakeUp(s: State, w: WorkerId): State
    requires w in s.workers
  {
    s.(workers := s.workers[w := s.workers[w].(pc := AtLoopTop, event := false)])
  }

  predicate CanMarkRunning(s: State, w: WorkerId) {
    w in s.workers && s.workers[w].pc.Took?
  }

  function DoMarkRunning(s: State, w: WorkerId): State
    requires CanMarkRunning(s, w)
  {
    var e := s.workers[w].pc.exec;
    SetPc(if e.id in s.jobs then s.(jobs := s.jobs[e.id := RunningRow(s.jobs[e.id], s.clock)]) else s,
          w, Executing(e))
  }

  predicate CanSuccess(s: State, w: WorkerId) {
    w in s.workers && s.workers[w].pc.Executing?
  }

  function DoSuccess(s: State, w: WorkerId, result: Json): State
    requires CanSuccess(s, w)
  {
    var e := s.workers[w].pc.exec;
    SetPc(if e.id in s.jobs then s.(jobs := s.jobs[e.id := DoneRow(s.jobs[e.id], result, w, s.clock)]) else s,
          w, Releasing(e.id, false))
  }

  predicate CanRetry(s: State, w: WorkerId) {
    && w in s.workers && s.workers[w].pc.Executing?
    && s.workers[w].pc.exec.row.attempt + 1 < s.workers[w].pc.exec.row.maxRetries
  }

  /** The backoff comes from the claimed record, the new attempt from the row. */
  function DoRetry(s: State, w: WorkerId, error: string): State
    requires CanRetry(s, w)
  {
    var e := s.workers[w].pc.exec;
    var backoff := Backoff(s.baseDelay, e.row.attempt);
    SetPc(if e.id in s.jobs then s.(jobs := s.jobs[e.id := RetriedRow(s.jobs[e.id], error, s.clock, backoff)]) else s,
          w, Releasing(e.id, false))
  }

  predicate CanDeadLetter(s: State, w: WorkerId, at: Time) {
    && w in s.workers && s.workers[w].pc.Executing?
    && s.workers[w].pc.exec.row.attempt + 1 >= s.workers[w].pc.exec.row.maxRetries
    && s.workers[w].pc.exec.claimNow <= at <= s.clock
  }

  /** One transaction: the dead letter, built from the claimed record, and the row's UPDATE. */
  function DoDeadLetter(s: State, w: WorkerId, error: string, at: Time): State
    requires CanDeadLetter(s, w, at)
  {
    var e := s.workers[w].pc.exec;
    RecordLetter(if e.id in s.jobs then s.(jobs := s.jobs[e.id := DeadRow(s.jobs[e.id], error)]) else s,
                 w, LetterFor(e, w, error, at))
  }

  function LetterFor(e: Exec, w: WorkerId, error: string, at: Time): DeadLetter {
    DeadLetter(e.id, e.row.jtype, PayloadDict(e.row.payload), error, e.row.attempt + 1, w, at)
  }

  function RecordLetter(s: State, w: WorkerId, letter: DeadLetter): State
    requires w in s.workers
  {
    var id := letter.originalId;
    SetPc(s.(dead := s.dead + [letter],
             hist := if id in s.hist then s.hist[id := s.hist[id].(letter := Some(|s.dead|))] else s.hist),
          w, Releasing(id, false))
  }

  predicate CanUnlock(s: State, w: WorkerId) {
    w in s.workers && s.workers[w].pc.Releasing?
  }

  function DoUnlock(s: State, w: WorkerId): State
    requires CanUnlock(s, w)
  {
    SetPc(s.(locks := Release(s.locks, w, s.workers[w].pc.id)), w, AfterRelease(s.workers[w].pc))
  }

  /** `except Exception: pass` around the unlock: the lock stays. */
  function DoUnlockFails(s: State, w: WorkerId): State
    requires CanUnlock(s, w)
  {
    SetPc(s, w, AfterRelease(s.workers[w].pc))
  }

  predicate CanRaise(s: State, w: WorkerId) {
    w in s.workers && !s.workers[w].pc.Stopped?
  }

  /** An exception leaves the worker: through the `finally` of _execute_job once the handler
      was reached, straight out of run_worker otherwise. */
  function DoRaise(s: State, w: WorkerId): State
    requires w in s.workers
  {
    var pc := s.workers[w].pc;
    if Busy(pc) then
      var id := pc.exec.id;
      SetPc(s.(hist := if id in s.hist then s.hist[id := Abandon(s.hist[id])] else s.hist),
            w, if pc.Executing? then Releasing(id, true) else Stopped(Some(id)))
    else SetPc(s, w, Stopped(LeftBehind(pc)))
  }

  predicate CanClose(s: State, w: WorkerId) {
    w in s.workers && s.workers[w].pc.Stopped? && s.workers[w].sessionOpen
  }

  function DoClose(s: State, w: WorkerId): State
    requires w in s.workers
  {
    s.(locks := ReleaseAll(s.locks, w), workers := s.workers[w := s.workers[w].(sessionOpen := false)])
  }

  function DoShutdown(s: State, p: ProcId): State {
    s.(down := s.down + {p})
  }

  predicate CanCrash(s: State, p: ProcId) {
    p !in s.crashed
  }

  /** All coroutines of a process die at once; its sessions close later. */
  function DoCrash(s: State, p: ProcId): State {
    s.(crashed := s.crashed[p := s.clock],
       workers := map w | w in s.workers ::
         if s.workers[w].proc == p then s.workers[w].(pc := Stopped(LeftBehind(s.workers[w].pc)))
         else s.workers[w],
       hist := map id | id in s.hist ::
         if InFlight(s, id) && s.workers[s.hist[id].claimer.value].proc == p then Abandon(s.hist[id])
         else s.hist[id])
  }

  /** A heartbeat or reaper statement sent before shutdown_event was set may take effect after it. */
  predicate CanBeat(s: State, w: WorkerId) {
    w in s.workers && s.workers[w].proc !in s.crashed
  }

  function DoBeat(s: State, w: WorkerId): State
    requires w in s.workers
  {
    s.(jobs := map id | id in s.jobs ::
         if BeatsFor(s.jobs[id], w) then BeatRow(s.jobs[id], s.clock) else s.jobs[id],
       workers := s.workers[w := s.workers[w].(lastBeat := s.clock)])
  }

  /** The heartbeat loops and the reaper loop of p go on. */
  predicate LoopsGoOn(s: State, p: ProcId) {
    p !in s.down && p !in s.crashed
  }

  predicate CanReap(s: State, p: ProcId, rows: set<JobId>, at: Time) {
    p !in s.crashed && at <= s.clock && rows <= StaleAt(s, at)
  }

  /** The reaper's UPDATE. It may miss rows that another transaction held. */
  function DoReap(s: State, rows: set<JobId>): State {
    NoteResets(s.(jobs := map id | id in s.jobs :: if id in rows then ResetRow(s.jobs[id]) else s.jobs[id]), rows)
  }

  /** Bookkeeping of a reset: everything but the rows. */
  function NoteResets(s: State, rows: set<JobId>): State {
    s.(workers := map w | w in s.workers :: NoteReset(s.workers[w], rows))
  }

  function NoteReset(wk: Worker, rows: set<JobId>): Worker {
    if Busy(wk.pc) && wk.pc.exec.id in rows then wk.(pc := MarkReset(wk.pc)) else wk
  }

  predicate Enabled(s: State, step: Step) {
    match step
    case Tick(now) => CanTick(s, now)
    case Enqueue(id, req) => CanEnqueue(s, id, req)
    case Cancel(id) => CanCancel(s, id)
    case StartWorker(w, p) => CanStart(s, w, p)
    case Deliver(w, id) => CanDeliver(s, w, id)
    case LoopCheck(w) => CanLoopCheck(s, w)
    case TakeLocks(w, keys) => CanTakeLocks(s, w, keys)
    case Claim(w, id, at) => CanClaim(s, w, id, at)
    case ScanEmpty(w) => CanScanEmpty(s, w)
    case WakeUp(w) => CanWakeUp(s, w)
    case MarkRunning(w) => CanMarkRunning(s, w)
    case SuccessWrite(w, result) => CanSuccess(s, w)
    case RetryWrite(w, error) => CanRetry(s, w)
    case DeadLetterTxn(w, error, at) => CanDeadLetter(s, w, at)
    case Unlock(w) => CanUnlock(s, w)
    case UnlockFails(w) => CanUnlock(s, w)
    case Raise(w) => CanRaise(s, w)
    case CloseSession(w) => CanClose(s, w)
    case Shutdown(p) => true
    case Crash(p) => CanCrash(s, p)
    case Heartbeat(w) => CanBeat(s, w)
    case Reap(p, rows, at) => CanReap(s, p, rows, at)
  }

  function Apply(s: State, step: Step): State
    requires Enabled(s, step)
  {
    match step
    case Tick(now) => DoTick(s, now)
    case Enqueue(id, req) => DoEnqueue(s, id, req)
    case Cancel(id) => DoCancel(s, id)
    case StartWorker(w, p) => DoStart(s, w, p)
    case Deliver(w, id) => DoDeliver(s, w, id)
    case LoopCheck(w) => DoLoopCheck(s, w)
    case TakeLocks(w, keys) => DoTakeLocks(s, w, keys)
    case Claim(w, id, at) => DoClaim(s, w, id, at)
    case ScanEmpty(w) => DoScanEmpty(s, w)
    case WakeUp(w) => DoWakeUp(s, w)
    case MarkRunning(w) => DoMarkRunning(s, w)
    case SuccessWrite(w, result) => DoSuccess(s, w, result)
    case RetryWrite(w, error) => DoRetry(s, w, error)
    case DeadLetterTxn(w, error, at) => DoDeadLetter(s, w, error, at)
    case Unlock(w) => DoUnlock(s, w)
    case UnlockFails(w) => DoUnlockFails(s, w)
    case Raise(w) => DoRaise(s, w)
    case CloseSession(w) => DoClose(s, w)
    case Shutdown(p) => DoShutdown(s, p)
    case Crash(p) => DoCrash(s, p)
    case Heartbeat(w) => DoBeat(s, w)
    case Reap(p, rows, at) => DoReap(s, rows)
  }

  // ----- Runs -----

  ghost predicate Runs(s: State, steps: seq<Step>, s': State)
    decreases |steps|
  {
    if steps == [] then s == s'
    else Enabled(s, steps[0]) && Runs(Apply(s, steps[0]), steps[1..], s')
  }

  ghost predicate Reachable(s: State) {
    exists init: State, steps: seq<Step> :: Initial(init) && Runs(init, steps, s)
  }
}
