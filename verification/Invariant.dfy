/** The inductive invariant of the protocol. */
module Invariant {
  import opened Schema
  import opened Protocol

  /** The job that a worker occupies, or abandoned when it stopped. */
  function About(pc: Pc): Option<JobId> {
    match pc
    case Took(e) => Some(e.id)
    case Executing(e) => Some(e.id)
    case Releasing(id, raised) => Some(id)
    case Stopped(abandoned) => abandoned
    case _ => None
  }

  // ----- Workers -----

  /** What a row that is not terminal satisfies: retry budget and cumulative backoff. */
  ghost predicate PendingRow(base: nat, h: History, row: Job) {
    && 0 <= row.attempt
    && (row.attempt == 0 || row.attempt < row.maxRetries)
    && row.runAt >= h.runAt + TotalBackoff(base, row.attempt)
    && (row.attempt == 0 ==> row.runAt == h.runAt)
    && row.jtype == h.jtype && row.payload == h.payload && row.maxRetries == h.maxRetries
    && h.letter == None
  }

  /** The current row of a job that w executes agrees with the record its claim returned. */
  ghost predicate RowOfExec(w: WorkerId, pc: Pc, row: Job)
    requires Busy(pc)
  {
    var e := pc.exec;
    && row == e.row.(status := row.status, claimedAt := row.claimedAt, heartbeatAt := row.heartbeatAt,
                     workerId := row.workerId)
    && match row.status
       case Pending => e.wasReset && row.claimedAt == None && row.heartbeatAt == None
       case Claimed => pc.Took? && !e.wasReset && row.workerId == Some(w) && row.heartbeatAt == e.row.heartbeatAt
       case Running => pc.Executing? && (e.wasReset || row.workerId == Some(w))
       case _ => false
  }

  ghost predicate ExecInv(s: State, w: WorkerId, pc: Pc)
    requires Busy(pc)
  {
    var e := pc.exec;
    && e.id in s.hist
    && s.hist[e.id].claimer == Some(w)
    && e.row.status == Pending
    && e.row.runAt <= e.claimNow <= s.clock
    && PendingRow(s.baseDelay, s.hist[e.id], e.row)
    && (if e.id in s.jobs then RowOfExec(w, pc, s.jobs[e.id])
        else e.wasReset && s.hist[e.id].fate == Cancelled(true))
  }

  /** A registered worker has scanned since each insert, or will: the insert's notification is
      still under way, or has set its event, or the worker is about to scan. */
  ghost predicate WakeInv(wk: Worker, inserted: set<JobId>) {
    wk.pc.AtLoopTop? || wk.pc.Stopped? || wk.event || inserted <= wk.scanned + wk.inbox
  }

  ghost predicate SelfInv(wk: Worker, inserted: set<JobId>, clock: Time, isDown: bool, isCrashed: bool) {
    && (!wk.pc.Stopped? ==> wk.sessionOpen && !isCrashed)
    && wk.lastBeat <= clock
    && (if isDown then wk.lateClaims + (if wk.pc.Scanning? then 1 else 0) <= 1 else wk.lateClaims == 0)
    && WakeInv(wk, inserted)
  }

  ghost predicate HoldsLock(s: State, w: WorkerId, pc: Pc) {
    !pc.Stopped? && About(pc).Some? ==> About(pc).value in s.locks && s.locks[About(pc).value].holder == w
  }

  ghost predicate WorkerInv(s: State, w: WorkerId)
    requires w in s.workers
  {
    var wk := s.workers[w];
    && SelfInv(wk, s.hist.Keys, s.clock, wk.proc in s.down, wk.proc in s.crashed)
    && (About(wk.pc).Some? ==> About(wk.pc).value in s.hist)
    && HoldsLock(s, w, wk.pc)
    && (Busy(wk.pc) ==> ExecInv(s, w, wk.pc))
  }

  // ----- Jobs -----

  /** The worker that claimed a held row last still executes it, or abandoned it. */
  ghost predicate HeldBy(s: State, id: JobId, row: Job, w: WorkerId, wk: Worker) {
    && (row.workerId == None || row.workerId == Some(w))
    && (row.status == Claimed ==> row.workerId == Some(w))
    && (row.status == Running ==>
          && row.heartbeatAt.Some?
          && (row.workerId == Some(w) ==> row.heartbeatAt.value >= wk.lastBeat))
    && (if Busy(wk.pc) then wk.pc.exec.id == id else LeftBehind(wk.pc) == Some(id))
    && (wk.proc in s.crashed && row.heartbeatAt.Some? ==> row.heartbeatAt.value <= s.crashed[wk.proc])
  }

  ghost predicate HeldRow(s: State, id: JobId, row: Job, claimer: Option<WorkerId>) {
    claimer.Some? && claimer.value in s.workers
    && HeldBy(s, id, row, claimer.value, s.workers[claimer.value])
  }

  ghost predicate LetterFits(dead: seq<DeadLetter>, id: JobId, row: Job, pos: Option<nat>) {
    && pos.Some? && pos.value < |dead|
    && var letter := dead[pos.value];
    && letter.originalId == id
    && letter.jtype == row.jtype
    && letter.payload == row.payload
    && letter.attempts == row.attempt
    && row.error == Some(letter.error)
  }

  /** Which of the nullable columns are set. */
  ghost predicate Columns(row: Job, claimer: Option<WorkerId>) {
    && (row.result.Some? <==> row.status == Done)
    && (row.completedAt.Some? <==> row.status == Done)
    && (row.status == Done ==> row.heartbeatAt == None && row.workerId == claimer && claimer.Some?)
    && (Held(row.status) ==> (row.claimedAt.Some? <==> row.workerId.Some?))
    && (!Terminal(row.status) ==> (row.error.Some? <==> row.attempt > 0))
    && ((row.status == Pending || row.status == Claimed) && row.heartbeatAt.Some? ==> row.attempt > 0)
  }

  ghost predicate RowInv(s: State, id: JobId, row: Job, h: History) {
    && row.jtype == h.jtype && row.payload == h.payload && row.maxRetries == h.maxRetries
    && 1 <= row.priority <= 10
    && Columns(row, h.claimer)
    && (row.heartbeatAt.Some? ==> row.heartbeatAt.value <= s.clock)
    && h.claims == row.attempt + h.abandoned + (if InFlight(s, id) then 1 else 0)
    && match row.status
       case Pending => PendingRow(s.baseDelay, h, row) && row.workerId == None
       case Claimed => PendingRow(s.baseDelay, h, row) && HeldRow(s, id, row, h.claimer)
       case Running => PendingRow(s.baseDelay, h, row) && HeldRow(s, id, row, h.claimer)
       case Done => 1 <= row.attempt <= Budget(row.maxRetries) && h.letter == None
       case Dead => row.attempt == Budget(row.maxRetries) && LetterFits(s.dead, id, row, h.letter)
       case Failed => false
  }

  ghost predicate HistInv(h: History, inTable: bool) {
    && h.payload.Obj?
    && 0 <= h.maxRetries <= 10
    && h.claims <= Budget(h.maxRetries) + h.abandoned
    && (inTable <==> h.fate == InTable)
  }

  ghost predicate JobInv(s: State, id: JobId)
    requires id in s.hist
  {
    && HistInv(s.hist[id], id in s.jobs)
    && (id in s.jobs ==> RowInv(s, id, s.jobs[id], s.hist[id]))
  }

  // ----- Dead letters, locks, clock -----

  ghost predicate LetterInv(s: State, i: nat)
    requires i < |s.dead|
  {
    var letter := s.dead[i];
    && letter.originalId in s.hist
    && var h := s.hist[letter.originalId];
    && h.letter == Some(i)
    && h.claimer == Some(letter.workerId)
    && (if letter.originalId in s.jobs then s.jobs[letter.originalId].status == Dead
        else h.fate == Cancelled(true))
    && letter.jtype == h.jtype && letter.payload == h.payload
    && letter.attempts == Budget(h.maxRetries)
    && h.runAt + TotalBackoff(s.baseDelay, letter.attempts - 1) <= letter.diedAt <= s.clock
  }

  ghost predicate LockInv(s: State, key: JobId)
    requires key in s.locks
  {
    && s.locks[key].holder in s.workers
    && s.workers[s.locks[key].holder].sessionOpen
    && s.locks[key].count >= 1
  }

  ghost predicate ClockInv(s: State) {
    forall p | p in s.crashed :: s.crashed[p] <= s.clock
  }

  ghost predicate Workers(s: State) { forall w {:trigger WorkerInv(s, w)} | w in s.workers :: WorkerInv(s, w) }
  ghost predicate Locks(s: State) { forall key {:trigger LockInv(s, key)} | key in s.locks :: LockInv(s, key) }
  ghost predicate Jobs(s: State) {
    s.jobs.Keys <= s.hist.Keys && forall id {:trigger JobInv(s, id)} | id in s.hist :: JobInv(s, id)
  }
  ghost predicate Letters(s: State) { forall i: nat {:trigger LetterInv(s, i)} | i < |s.dead| :: LetterInv(s, i) }

  ghost predicate Inv(s: State) {
    ClockInv(s) && Workers(s) && Locks(s) && Jobs(s) && Letters(s)
  }

  lemma InitialInv(s: State)
    requires Initial(s)
    ensures Inv(s)
  {
  }

  // ----- Frames: what each part of the invariant depends on -----

  ghost predicate SameRow(s: State, t: State, id: JobId) {
    && (id in s.jobs <==> id in t.jobs) && (id in s.jobs ==> s.jobs[id] == t.jobs[id])
  }

  ghost predicate SameHist(s: State, t: State, id: JobId) {
    id in s.hist && id in t.hist && s.hist[id] == t.hist[id]
  }

  ghost predicate SameLock(s: State, t: State, key: JobId) {
    key in s.locks ==> key in t.locks && t.locks[key].holder == s.locks[key].holder
  }

  ghost predicate SameRole(a: Worker, b: Worker) {
    a.pc == b.pc && a.proc == b.proc && a.lastBeat == b.lastBeat
  }

  /** The invariant of a worker that does not change. */
  lemma WorkerFrame(s: State, t: State, w: WorkerId)
    requires w in s.workers && w in t.workers && WorkerInv(s, w)
    requires s.workers[w] == t.workers[w]
    requires s.clock <= t.clock && s.baseDelay == t.baseDelay && s.hist.Keys == t.hist.Keys
    requires s.workers[w].proc in s.down ==> s.workers[w].proc in t.down
    requires s.workers[w].pc.Stopped? || s.workers[w].proc !in t.crashed
    requires !s.workers[w].pc.Stopped? && About(s.workers[w].pc).Some? ==> SameLock(s, t, About(s.workers[w].pc).value)
    requires Busy(s.workers[w].pc) ==>
               var id := s.workers[w].pc.exec.id; SameRow(s, t, id) && SameHist(s, t, id)
    ensures WorkerInv(t, w)
  {
  }

  /** The invariant of a job that does not change, unless its last claimer changes what it does to it. */
  lemma JobFrame(s: State, t: State, id: JobId)
    requires id in s.hist && JobInv(s, id)
    requires SameRow(s, t, id) && SameHist(s, t, id)
    requires s.clock <= t.clock && s.baseDelay == t.baseDelay && s.dead <= t.dead
    requires var c := s.hist[id].claimer;
             c.Some? && c.value in s.workers ==>
               && c.value in t.workers
               && (|| (&& SameRole(s.workers[c.value], t.workers[c.value])
                       && (s.workers[c.value].proc in s.crashed <==> s.workers[c.value].proc in t.crashed)
                       && (s.workers[c.value].proc in s.crashed ==>
                             s.crashed[s.workers[c.value].proc] == t.crashed[s.workers[c.value].proc]))
                   || (About(s.workers[c.value].pc) != Some(id) && About(t.workers[c.value].pc) != Some(id)))
    requires var c := s.hist[id].claimer;
             c.Some? && c.value !in s.workers && c.value in t.workers ==> About(t.workers[c.value].pc) != Some(id)
    ensures JobInv(t, id)
  {
    assert InFlight(s, id) == InFlight(t, id);
  }

  lemma LetterFrame(s: State, t: State, i: nat)
    requires i < |s.dead| && LetterInv(s, i) && s.dead <= t.dead
    requires var id := s.dead[i].originalId;
             SameHist(s, t, id) && (SameRow(s, t, id) || (id in s.jobs && id in t.jobs && t.jobs[id].status == Dead))
    requires s.clock <= t.clock && s.baseDelay == t.baseDelay
    ensures LetterInv(t, i)
  {
  }
}

/** Every step of the protocol keeps the invariant. */
module Preservation {
  import opened Schema
  import opened Protocol
  import opened Invariant

  /** From s to t nothing changes but worker w, job id, dead letters added, and locks of w. */
  ghost predicate OnlyTouches(s: State, t: State, w: WorkerId, id: Option<JobId>) {
    && t.workers.Keys == s.workers.Keys + {w}
    && (forall v | v in s.workers && v != w :: t.workers[v] == s.workers[v])
    && t.hist.Keys == s.hist.Keys
    && (forall j | j in s.hist && Some(j) != id :: SameHist(s, t, j) && SameRow(s, t, j))
    && t.jobs.Keys == s.jobs.Keys
    && t.clock == s.clock && t.baseDelay == s.baseDelay
    && t.down == s.down && t.crashed == s.crashed && s.dead <= t.dead
    && (forall key | key in s.locks && s.locks[key].holder != w :: SameLock(s, t, key))
  }

  /** w keeps its role, or both before and after it is about no other job than id. */
  ghost predicate RoleChange(s: State, t: State, w: WorkerId, id: Option<JobId>)
    requires w in t.workers
  {
    || (w in s.workers && SameRole(s.workers[w], t.workers[w]))
    || (&& (w in s.workers ==> About(s.workers[w].pc) == None || About(s.workers[w].pc) == id)
        && (About(t.workers[w].pc) == None || About(t.workers[w].pc) == id))
  }

  /** Only the last claimer executes a job. */
  lemma ExecutorClaimed(s: State, w: WorkerId, id: JobId)
    requires Inv(s) && Executes(s, w, id)
    ensures id in s.hist && s.hist[id].claimer == Some(w) && s.hist[id].letter == None
    ensures InFlight(s, id) && id in s.locks && s.locks[id].holder == w
  {
    assert WorkerInv(s, w);
  }

  lemma OtherWorkers(s: State, t: State, w: WorkerId, id: Option<JobId>)
    requires Inv(s) && OnlyTouches(s, t, w, id) && WorkerInv(t, w)
    requires id.Some? ==> forall v | v in s.workers && v != w :: !Executes(s, v, id.value)
    ensures Workers(t)
  {
    forall v | v in t.workers ensures WorkerInv(t, v) {
      if v != w { assert WorkerInv(s, v); WorkerFrame(s, t, v); }
    }
  }

  lemma OtherJobs(s: State, t: State, w: WorkerId, id: Option<JobId>)
    requires Inv(s) && OnlyTouches(s, t, w, id)
    requires RoleChange(s, t, w, id)
    requires id.Some? ==> id.value in s.hist && JobInv(t, id.value)
    ensures Jobs(t)
  {
    forall j | j in t.hist ensures JobInv(t, j) {
      if Some(j) != id { assert JobInv(s, j); JobFrame(s, t, j); }
    }
  }

  lemma OtherLetters(s: State, t: State, w: WorkerId, id: Option<JobId>)
    requires Inv(s) && OnlyTouches(s, t, w, id)
    requires id.Some? ==>
               id.value in s.hist
               && (s.hist[id.value].letter == None || (SameHist(s, t, id.value) && SameRow(s, t, id.value)))
    requires forall i: nat | |s.dead| <= i < |t.dead| :: LetterInv(t, i)
    ensures Letters(t)
  {
    forall i: nat | i < |t.dead| ensures LetterInv(t, i) {
      if i < |s.dead| { assert LetterInv(s, i); LetterFrame(s, t, i); }
    }
  }

  /** A step of one worker keeps the invariant if it does so for that worker, the job it is
      about, the locks and the new dead letters. */
  lemma OneWorkerStep(s: State, t: State, w: WorkerId, id: Option<JobId>)
    requires Inv(s) && OnlyTouches(s, t, w, id)
    requires RoleChange(s, t, w, id)
    requires id.Some? ==>
               && id.value in s.hist && JobInv(t, id.value)
               && (forall v | v in s.workers && v != w :: !Executes(s, v, id.value))
               && (s.hist[id.value].letter == None || (SameHist(s, t, id.value) && SameRow(s, t, id.value)))
    requires WorkerInv(t, w) && Locks(t)
    requires forall i: nat | |s.dead| <= i < |t.dead| :: LetterInv(t, i)
    ensures Inv(t)
  {
    OtherWorkers(s, t, w, id);
    OtherJobs(s, t, w, id);
    OtherLetters(s, t, w, id);
  }

  /** Nobody else executes the job that w occupies. */
  lemma SoleExecutor(s: State, w: WorkerId, id: JobId)
    requires Inv(s) && w in s.workers && !s.workers[w].pc.Stopped? && About(s.workers[w].pc) == Some(id)
    ensures forall v | v in s.workers && v != w :: !Executes(s, v, id)
  {
    assert WorkerInv(s, w);
    forall v | v in s.workers && v != w ensures !Executes(s, v, id) {
      if Executes(s, v, id) { ExecutorClaimed(s, v, id); }
    }
  }

  // ----- Steps that touch no job -----

  /** A step of w that leaves jobs, history, letters and locks alone. */
  lemma IdleStep(s: State, w: WorkerId, wk: Worker)
    requires Inv(s)
    requires w in s.workers ==> About(s.workers[w].pc) == None && (s.workers[w].sessionOpen ==> wk.sessionOpen)
    requires About(wk.pc) == None
    requires SelfInv(wk, s.hist.Keys, s.clock, wk.proc in s.down, wk.proc in s.crashed)
    ensures Inv(s.(workers := s.workers[w := wk]))
  {
    var t := s.(workers := s.workers[w := wk]);
    assert WorkerInv(t, w);
    forall k | k in t.locks ensures LockInv(t, k) { assert LockInv(s, k); }
    OneWorkerStep(s, t, w, None);
  }

  lemma StartWorkerKeepsInv(s: State, w: WorkerId, p: ProcId)
    requires Inv(s) && CanStart(s, w, p)
    ensures Inv(DoStart(s, w, p))
  {
    IdleStep(s, w, Worker(p, AtLoopTop, true, false, {}, {}, s.clock, 0));
  }

  lemma LoopCheckKeepsInv(s: State, w: WorkerId)
    requires Inv(s) && CanLoopCheck(s, w)
    ensures Inv(DoLoopCheck(s, w))
  {
    var wk := s.workers[w];
    assert WorkerInv(s, w);
    if wk.proc in s.down {
      IdleStep(s, w, wk.(pc := Stopped(None)));
    } else {
      IdleStep(s, w, wk.(pc := Scanning({}), scanned := s.hist.Keys));
    }
  }

  lemma ScanEmptyKeepsInv(s: State, w: WorkerId)
    requires Inv(s) && CanScanEmpty(s, w)
    ensures Inv(DoScanEmpty(s, w))
  {
    assert WorkerInv(s, w);
    IdleStep(s, w, s.workers[w].(pc := Waiting(s.clock + s.poll)));
  }

  lemma WakeUpKeepsInv(s: State, w: WorkerId)
    requires Inv(s) && CanWakeUp(s, w)
    ensures Inv(DoWakeUp(s, w))
  {
    assert WorkerInv(s, w);
    IdleStep(s, w, s.workers[w].(pc := AtLoopTop, event := false));
  }

  lemma DeliverKeepsInv(s: State, w: WorkerId, id: JobId)
    requires Inv(s) && CanDeliver(s, w, id)
    ensures Inv(DoDeliver(s, w, id))
  {
    var t := DoDeliver(s, w, id);
    assert WorkerInv(s, w);
    assert WorkerInv(t, w);
    forall k | k in t.locks ensures LockInv(t, k) { assert LockInv(s, k); }
    OneWorkerStep(s, t, w, None);
  }

  // ----- Locks -----

  lemma TakeLocksKeepsInv(s: State, w: WorkerId, keys: multiset<JobId>)
    requires Inv(s) && CanTakeLocks(s, w, keys)
    ensures Inv(DoTakeLocks(s, w, keys))
  {
    var t := DoTakeLocks(s, w, keys);
    assert WorkerInv(s, w);
    assert WorkerInv(t, w);
    forall k | k in t.locks ensures LockInv(t, k) { if k in s.locks { assert LockInv(s, k); } }
    OneWorkerStep(s, t, w, None);
  }

  lemma CloseSessionKeepsInv(s: State, w: WorkerId)
    requires Inv(s) && CanClose(s, w)
    ensures Inv(DoClose(s, w))
  {
    var t := DoClose(s, w);
    assert WorkerInv(s, w);
    assert WorkerInv(t, w);
    forall k | k in t.locks ensures LockInv(t, k) { assert LockInv(s, k); }
    OneWorkerStep(s, t, w, None);
  }

  /** Leaving the `finally` of _execute_job for pc, with locks of others untouched. */
  lemma LeaveJob(s: State, w: WorkerId, locks: map<JobId, Lock>, pc: Pc)
    requires Inv(s) && w in s.workers && s.workers[w].pc.Releasing?
    requires pc == AfterRelease(s.workers[w].pc) || pc == Stopped(LeftBehind(s.workers[w].pc))
    requires forall k | k in s.locks && s.locks[k].holder != w :: k in locks && locks[k] == s.locks[k]
    requires forall k | k in locks :: k in s.locks && locks[k].holder == s.locks[k].holder && locks[k].count >= 1
    ensures Inv(SetPc(s.(locks := locks), w, pc))
  {
    var id := s.workers[w].pc.id;
    var t := SetPc(s.(locks := locks), w, pc);
    assert WorkerInv(s, w) && JobInv(s, id);
    SoleExecutor(s, w, id);
    LeftJob(s, t, w, id);
    forall k | k in t.locks ensures LockInv(t, k) { assert LockInv(s, k); }
    OneWorkerStep(s, t, w, Some(id));
  }

  lemma LeftJob(s: State, t: State, w: WorkerId, id: JobId)
    requires w in s.workers && s.workers[w].pc.Releasing? && s.workers[w].pc.id == id
    requires id in s.hist && JobInv(s, id) && WorkerInv(s, w) && w in t.workers
    requires t == SetPc(s.(locks := t.locks), w, t.workers[w].pc)
    requires var pc := t.workers[w].pc;
             pc == AfterRelease(s.workers[w].pc) || pc == Stopped(LeftBehind(s.workers[w].pc))
    ensures JobInv(t, id) && WorkerInv(t, w)
  {
    assert InFlight(s, id) == InFlight(t, id);
  }

  lemma UnlockKeepsInv(s: State, w: WorkerId)
    requires Inv(s) && CanUnlock(s, w)
    ensures Inv(DoUnlock(s, w)) && Inv(DoUnlockFails(s, w))
  {
    var pc := s.workers[w].pc;
    forall k | k in s.locks ensures LockInv(s, k) { }
    LeaveJob(s, w, Release(s.locks, w, pc.id), AfterRelease(pc));
    LeaveJob(s, w, s.locks, AfterRelease(pc));
    assert s.(locks := s.locks) == s;
  }

  // ----- Claim and execution -----

  /** A step of w that changes its pc, the row and the history of the job it is about. */
  lemma JobStep(s: State, t: State, w: WorkerId, id: JobId)
    requires Inv(s) && OnlyTouches(s, t, w, Some(id)) && RoleChange(s, t, w, Some(id))
    requires w in s.workers && t.locks == s.locks && s.workers[w].sessionOpen == t.workers[w].sessionOpen
    requires id in s.hist && s.hist[id].letter == None
    requires forall v | v in s.workers && v != w :: !Executes(s, v, id)
    requires JobInv(t, id) && WorkerInv(t, w)
    requires forall i: nat | |s.dead| <= i < |t.dead| :: LetterInv(t, i)
    ensures Inv(t)
  {
    forall k | k in t.locks ensures LockInv(t, k) { assert LockInv(s, k); }
    OneWorkerStep(s, t, w, Some(id));
  }

  lemma ClaimedJob(s: State, w: WorkerId, id: JobId, at: Time)
    requires CanClaim(s, w, id, at) && id in s.hist && WorkerInv(s, w) && JobInv(s, id) && !InFlight(s, id)
    ensures JobInv(DoClaim(s, w, id, at), id) && WorkerInv(DoClaim(s, w, id, at), w)
  {
    assert InFlight(DoClaim(s, w, id, at), id);
  }

  lemma ClaimKeepsInv(s: State, w: WorkerId, id: JobId, at: Time)
    requires Inv(s) && CanClaim(s, w, id, at)
    ensures Inv(DoClaim(s, w, id, at))
  {
    assert id in s.hist;
    assert WorkerInv(s, w) && JobInv(s, id);
    forall v | v in s.workers && v != w ensures !Executes(s, v, id) {
      if Executes(s, v, id) { ExecutorClaimed(s, v, id); }
    }
    ClaimedJob(s, w, id, at);
    JobStep(s, DoClaim(s, w, id, at), w, id);
  }

  /** What the invariant says of the job that w executes. */
  lemma OwnJob(s: State, w: WorkerId, id: JobId)
    requires Inv(s) && Executes(s, w, id)
    ensures id in s.hist && JobInv(s, id) && WorkerInv(s, w) && s.hist[id].letter == None && InFlight(s, id)
    ensures forall v | v in s.workers && v != w :: !Executes(s, v, id)
  {
    ExecutorClaimed(s, w, id);
    SoleExecutor(s, w, id);
    assert WorkerInv(s, w) && JobInv(s, id);
  }

  lemma MarkedJob(s: State, w: WorkerId, id: JobId)
    requires CanMarkRunning(s, w) && s.workers[w].pc.exec.id == id && ClockInv(s)
    requires id in s.hist && JobInv(s, id) && WorkerInv(s, w) && InFlight(s, id)
    ensures JobInv(DoMarkRunning(s, w), id) && WorkerInv(DoMarkRunning(s, w), w)
  {
    assert InFlight(DoMarkRunning(s, w), id);
  }

  lemma MarkRunningKeepsInv(s: State, w: WorkerId)
    requires Inv(s) && CanMarkRunning(s, w)
    ensures Inv(DoMarkRunning(s, w))
  {
    var id := s.workers[w].pc.exec.id;
    OwnJob(s, w, id);
    MarkedJob(s, w, id);
    JobStep(s, DoMarkRunning(s, w), w, id);
  }

  lemma SucceededJob(s: State, w: WorkerId, id: JobId, result: Json)
    requires CanSuccess(s, w) && s.workers[w].pc.exec.id == id
    requires id in s.hist && JobInv(s, id) && WorkerInv(s, w) && InFlight(s, id)
    ensures JobInv(DoSuccess(s, w, result), id) && WorkerInv(DoSuccess(s, w, result), w)
  {
    assert !InFlight(DoSuccess(s, w, result), id);
  }

  lemma SuccessKeepsInv(s: State, w: WorkerId, result: Json)
    requires Inv(s) && CanSuccess(s, w)
    ensures Inv(DoSuccess(s, w, result))
  {
    var id := s.workers[w].pc.exec.id;
    OwnJob(s, w, id);
    SucceededJob(s, w, id, result);
    JobStep(s, DoSuccess(s, w, result), w, id);
  }

  lemma RetriedJob(s: State, w: WorkerId, id: JobId, error: string)
    requires CanRetry(s, w) && s.workers[w].pc.exec.id == id
    requires id in s.hist && JobInv(s, id) && WorkerInv(s, w) && InFlight(s, id)
    ensures JobInv(DoRetry(s, w, error), id) && WorkerInv(DoRetry(s, w, error), w)
  {
    assert !InFlight(DoRetry(s, w, error), id);
  }

  lemma RetryKeepsInv(s: State, w: WorkerId, error: string)
    requires Inv(s) && CanRetry(s, w)
    ensures Inv(DoRetry(s, w, error))
  {
    var id := s.workers[w].pc.exec.id;
    OwnJob(s, w, id);
    RetriedJob(s, w, id, error);
    JobStep(s, DoRetry(s, w, error), w, id);
  }

  lemma DeadLetteredJob(s: State, w: WorkerId, id: JobId, error: string, at: Time)
    requires CanDeadLetter(s, w, at) && s.workers[w].pc.exec.id == id
    requires id in s.hist && JobInv(s, id) && WorkerInv(s, w) && InFlight(s, id)
    ensures var t := DoDeadLetter(s, w, error, at);
            JobInv(t, id) && WorkerInv(t, w) && LetterInv(t, |s.dead|)
  {
    assert !InFlight(DoDeadLetter(s, w, error, at), id);
  }

  lemma DeadLetterKeepsInv(s: State, w: WorkerId, error: string, at: Time)
    requires Inv(s) && CanDeadLetter(s, w, at)
    ensures Inv(DoDeadLetter(s, w, error, at))
  {
    var id := s.workers[w].pc.exec.id;
    OwnJob(s, w, id);
    DeadLetteredJob(s, w, id, error, at);
    JobStep(s, DoDeadLetter(s, w, error, at), w, id);
  }

  lemma AbandonedJob(s: State, w: WorkerId, id: JobId)
    requires w in s.workers && Executes(s, w, id)
    requires id in s.hist && JobInv(s, id) && WorkerInv(s, w) && InFlight(s, id)
    ensures JobInv(DoRaise(s, w), id) && WorkerInv(DoRaise(s, w), w)
  {
    assert !InFlight(DoRaise(s, w), id);
  }

  lemma RaiseKeepsInv(s: State, w: WorkerId)
    requires Inv(s) && CanRaise(s, w)
    ensures Inv(DoRaise(s, w))
  {
    var pc := s.workers[w].pc;
    assert WorkerInv(s, w);
    if Busy(pc) {
      OwnJob(s, w, pc.exec.id);
      AbandonedJob(s, w, pc.exec.id);
      JobStep(s, DoRaise(s, w), w, pc.exec.id);
    } else if pc.Releasing? {
      forall k | k in s.locks ensures LockInv(s, k) { }
      assert s.(locks := s.locks) == s;
      LeaveJob(s, w, s.locks, Stopped(LeftBehind(pc)));
    } else {
      IdleStep(s, w, s.workers[w].(pc := Stopped(None)));
    }
  }

  // ----- Steps of clients, heartbeats, reapers and processes -----

  lemma TickKeepsInv(s: State, now: Time)
    requires Inv(s) && CanTick(s, now)
    ensures Inv(DoTick(s, now))
  {
    var t := DoTick(s, now);
    forall w | w in t.workers ensures WorkerInv(t, w) { assert WorkerInv(s, w); WorkerFrame(s, t, w); }
    forall id | id in t.hist ensures JobInv(t, id) { assert JobInv(s, id); JobFrame(s, t, id); }
    forall i: nat | i < |t.dead| ensures LetterInv(t, i) { assert LetterInv(s, i); LetterFrame(s, t, i); }
    forall k | k in t.locks ensures LockInv(t, k) { assert LockInv(s, k); }
  }

  lemma ShutdownKeepsInv(s: State, p: ProcId)
    requires Inv(s)
    ensures Inv(DoShutdown(s, p))
  {
    var t := DoShutdown(s, p);
    forall w | w in t.workers ensures WorkerInv(t, w) { assert WorkerInv(s, w); WorkerFrame(s, t, w); }
    forall id | id in t.hist ensures JobInv(t, id) { assert JobInv(s, id); JobFrame(s, t, id); }
    forall i: nat | i < |t.dead| ensures LetterInv(t, i) { assert LetterInv(s, i); LetterFrame(s, t, i); }
    forall k | k in t.locks ensures LockInv(t, k) { assert LockInv(s, k); }
  }
}

/** The steps that may touch many rows or workers at once keep the invariant. */
module PreservationGlobal {
  import opened Schema
  import opened Protocol
  import opened Invariant
  import opened Preservation

  // ----- Enqueue -----

  lemma NotifiedWorker(s: State, id: JobId, req: JobCreate, w: WorkerId)
    requires CanEnqueue(s, id, req) && w in s.workers && WorkerInv(s, w) && id !in s.jobs
    ensures WorkerInv(DoEnqueue(s, id, req), w)
  {
    assert DoEnqueue(s, id, req).workers[w] == Notify(s.workers[w], id);
  }

  lemma NewJob(s: State, id: JobId, req: JobCreate)
    requires CanEnqueue(s, id, req)
    ensures JobInv(DoEnqueue(s, id, req), id)
  {
    assert !InFlight(DoEnqueue(s, id, req), id);
  }

  lemma EnqueueKeepsInv(s: State, id: JobId, req: JobCreate)
    requires Inv(s) && CanEnqueue(s, id, req)
    ensures Inv(DoEnqueue(s, id, req))
  {
    var t := DoEnqueue(s, id, req);
    assert id !in s.jobs;
    forall w | w in t.workers ensures WorkerInv(t, w) {
      assert WorkerInv(s, w);
      NotifiedWorker(s, id, req, w);
    }
    NewJob(s, id, req);
    forall j | j in t.hist ensures JobInv(t, j) {
      if j != id { assert JobInv(s, j); JobFrame(s, t, j); }
    }
    forall i: nat | i < |t.dead| ensures LetterInv(t, i) { assert LetterInv(s, i); LetterFrame(s, t, i); }
    forall k | k in t.locks ensures LockInv(t, k) { assert LockInv(s, k); }
  }

  // ----- Cancel -----

  lemma WorkerOfCancelled(s: State, id: JobId, w: WorkerId)
    requires CanCancel(s, id) && w in s.workers && WorkerInv(s, w)
    ensures WorkerInv(DoCancel(s, id), w)
  {
    var t := DoCancel(s, id);
    if Executes(s, w, id) { assert InFlight(s, id); }
    else { WorkerFrame(s, t, w); }
  }

  lemma CancelKeepsInv(s: State, id: JobId)
    requires Inv(s) && CanCancel(s, id)
    ensures Inv(DoCancel(s, id))
  {
    var t := DoCancel(s, id);
    assert id in s.hist && JobInv(s, id);
    forall w | w in t.workers ensures WorkerInv(t, w) {
      assert WorkerInv(s, w);
      WorkerOfCancelled(s, id, w);
    }
    forall j | j in t.hist ensures JobInv(t, j) {
      assert JobInv(s, j);
      if j != id { JobFrame(s, t, j); }
    }
    forall i: nat | i < |t.dead| ensures LetterInv(t, i) { assert LetterInv(s, i); LetterFrame(s, t, i); }
    forall k | k in t.locks ensures LockInv(t, k) { assert LockInv(s, k); }
  }

  // ----- Crash -----

  lemma CrashedWorker(s: State, p: ProcId, w: WorkerId)
    requires w in s.workers && WorkerInv(s, w)
    ensures WorkerInv(DoCrash(s, p), w)
  {
    var t := DoCrash(s, p);
    if s.workers[w].proc != p { WorkerFrame(s, t, w); }
  }

  lemma CrashedJob(s: State, p: ProcId, id: JobId)
    requires CanCrash(s, p) && id in s.hist && JobInv(s, id) && ClockInv(s)
    ensures JobInv(DoCrash(s, p), id)
  {
    var t := DoCrash(s, p);
    var c := s.hist[id].claimer;
    if c.Some? && c.value in s.workers && s.workers[c.value].proc == p {
      assert !InFlight(t, id);
    } else {
      JobFrame(s, t, id);
    }
  }

  lemma CrashKeepsInv(s: State, p: ProcId)
    requires Inv(s) && CanCrash(s, p)
    ensures Inv(DoCrash(s, p))
  {
    var t := DoCrash(s, p);
    forall w | w in t.workers ensures WorkerInv(t, w) { assert WorkerInv(s, w); CrashedWorker(s, p, w); }
    forall id | id in t.hist ensures JobInv(t, id) { assert JobInv(s, id); CrashedJob(s, p, id); }
    forall i: nat | i < |t.dead| ensures LetterInv(t, i) {
      assert LetterInv(s, i);
      var id := s.dead[i].originalId;
      if InFlight(s, id) { ExecutorClaimed(s, s.hist[id].claimer.value, id); }
      LetterFrame(s, t, i);
    }
    forall k | k in t.locks ensures LockInv(t, k) { assert LockInv(s, k); }
  }

  // ----- Heartbeat -----

  lemma BeatenJob(s: State, w: WorkerId, id: JobId)
    requires CanBeat(s, w) && id in s.hist && JobInv(s, id) && ClockInv(s)
    ensures JobInv(DoBeat(s, w), id)
  {
    assert InFlight(s, id) == InFlight(DoBeat(s, w), id);
  }

  lemma BeatingWorker(s: State, w: WorkerId, v: WorkerId)
    requires CanBeat(s, w) && v in s.workers && WorkerInv(s, v)
    requires v != w && Busy(s.workers[v].pc) ==>
               var id := s.workers[v].pc.exec.id; id in s.jobs ==> !BeatsFor(s.jobs[id], w)
    ensures WorkerInv(DoBeat(s, w), v)
  {
    if v != w { WorkerFrame(s, DoBeat(s, w), v); }
  }

  lemma BeatKeepsInv(s: State, w: WorkerId)
    requires Inv(s) && CanBeat(s, w)
    ensures Inv(DoBeat(s, w))
  {
    var t := DoBeat(s, w);
    forall v | v in t.workers ensures WorkerInv(t, v) {
      assert WorkerInv(s, v);
      if v != w && Busy(s.workers[v].pc) { OwnJob(s, v, s.workers[v].pc.exec.id); }
      BeatingWorker(s, w, v);
    }
    forall id | id in t.hist ensures JobInv(t, id) { assert JobInv(s, id); BeatenJob(s, w, id); }
    forall i: nat | i < |t.dead| ensures LetterInv(t, i) { assert LetterInv(s, i); LetterFrame(s, t, i); }
    forall k | k in t.locks ensures LockInv(t, k) { assert LockInv(s, k); }
  }

  // ----- Reap -----

  lemma ReapedJob(s: State, rows: set<JobId>, at: Time, id: JobId)
    requires rows <= StaleAt(s, at) && at <= s.clock && id in s.hist && JobInv(s, id) && ClockInv(s)
    ensures JobInv(DoReap(s, rows), id)
  {
    assert InFlight(s, id) == InFlight(DoReap(s, rows), id);
    assert id in StaleAt(s, at) <==> id in s.jobs && StaleRow(s.jobs[id], at);
  }

  lemma ReapedWorker(s: State, rows: set<JobId>, at: Time, w: WorkerId)
    requires rows <= StaleAt(s, at) && at <= s.clock && w in s.workers && WorkerInv(s, w)
    ensures WorkerInv(DoReap(s, rows), w)
  {
    var t := DoReap(s, rows);
    if !(Busy(s.workers[w].pc) && s.workers[w].pc.exec.id in rows) { WorkerFrame(s, t, w); }
  }

  lemma ReapKeepsInv(s: State, p: ProcId, rows: set<JobId>, at: Time)
    requires Inv(s) && CanReap(s, p, rows, at)
    ensures Inv(DoReap(s, rows))
  {
    var t := DoReap(s, rows);
    forall w | w in t.workers ensures WorkerInv(t, w) { assert WorkerInv(s, w); ReapedWorker(s, rows, at, w); }
    forall id | id in t.hist ensures JobInv(t, id) { assert JobInv(s, id); ReapedJob(s, rows, at, id); }
    forall i: nat | i < |t.dead| ensures LetterInv(t, i) { assert LetterInv(s, i); LetterFrame(s, t, i); }
    forall k | k in t.locks ensures LockInv(t, k) { assert LockInv(s, k); }
  }
}
