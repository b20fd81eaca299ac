/** What holds in every reachable state of the protocol, and over every run from one. */
module Safety {
  import opened Schema
  import opened Protocol
  import opened Invariant
  import opened Preservation
  import opened PreservationGlobal

  // ----- The invariant holds -----

  lemma StepKeepsInv(s: State, step: Step)
    requires Inv(s) && Enabled(s, step)
    ensures Inv(Apply(s, step))
  {
    match step
    case Tick(now) => TickKeepsInv(s, now);
    case Enqueue(id, req) => EnqueueKeepsInv(s, id, req);
    case Cancel(id) => CancelKeepsInv(s, id);
    case StartWorker(w, p) => StartWorkerKeepsInv(s, w, p);
    case Deliver(w, id) => DeliverKeepsInv(s, w, id);
    case LoopCheck(w) => LoopCheckKeepsInv(s, w);
    case TakeLocks(w, keys) => TakeLocksKeepsInv(s, w, keys);
    case Claim(w, id, at) => ClaimKeepsInv(s, w, id, at);
    case ScanEmpty(w) => ScanEmptyKeepsInv(s, w);
    case WakeUp(w) => WakeUpKeepsInv(s, w);
    case MarkRunning(w) => MarkRunningKeepsInv(s, w);
    case SuccessWrite(w, result) => SuccessKeepsInv(s, w, result);
    case RetryWrite(w, error) => RetryKeepsInv(s, w, error);
    case DeadLetterTxn(w, error, at) => DeadLetterKeepsInv(s, w, error, at);
    case Unlock(w) => UnlockKeepsInv(s, w);
    case UnlockFails(w) => UnlockKeepsInv(s, w);
    case Raise(w) => RaiseKeepsInv(s, w);
    case CloseSession(w) => CloseSessionKeepsInv(s, w);
    case Shutdown(p) => ShutdownKeepsInv(s, p);
    case Crash(p) => CrashKeepsInv(s, p);
    case Heartbeat(w) => BeatKeepsInv(s, w);
    case Reap(p, rows, at) => ReapKeepsInv(s, p, rows, at);
  }

  lemma {:induction false} RunKeepsInv(s: State, steps: seq<Step>, s': State)
    requires Inv(s) && Runs(s, steps, s')
    ensures Inv(s')
    decreases |steps|
  {
    if steps != [] {
      StepKeepsInv(s, steps[0]);
      RunKeepsInv(Apply(s, steps[0]), steps[1..], s');
    }
  }

  lemma ReachableInv(s: State)
    requires Reachable(s)
    ensures Inv(s)
  {
    var init: State, steps: seq<Step> :| Initial(init) && Runs(init, steps, s);
    InitialInv(init);
    RunKeepsInv(init, steps, s);
  }

  // ----- What a step does to a worker -----

  /** The worker whose coroutine, session or heartbeat loop takes the step. */
  function Actor(step: Step): Option<WorkerId> {
    match step
    case StartWorker(w, _) => Some(w)
    case Deliver(w, _) => Some(w)
    case LoopCheck(w) => Some(w)
    case TakeLocks(w, _) => Some(w)
    case Claim(w, _, _) => Some(w)
    case ScanEmpty(w) => Some(w)
    case WakeUp(w) => Some(w)
    case MarkRunning(w) => Some(w)
    case SuccessWrite(w, _) => Some(w)
    case RetryWrite(w, _) => Some(w)
    case DeadLetterTxn(w, _, _) => Some(w)
    case Unlock(w) => Some(w)
    case UnlockFails(w) => Some(w)
    case Raise(w) => Some(w)
    case CloseSession(w) => Some(w)
    case Heartbeat(w) => Some(w)
    case _ => None
  }

  /** A statement of the coroutine of w; its listener and its heartbeat loop run beside it. */
  predicate OfCoroutine(step: Step, w: WorkerId) {
    Actor(step) == Some(w) && !step.Deliver? && !step.Heartbeat?
  }

  lemma FirstStep(s: State, step: Step, rest: seq<Step>, s': State)
    requires Enabled(s, step) && Runs(Apply(s, step), rest, s')
    ensures Runs(s, [step] + rest, s')
  {
    assert ([step] + rest)[1..] == rest;
  }

  /** What a step of anybody else does to a worker. */
  function Disturbed(s: State, step: Step, wk: Worker): Worker {
    match step
    case Enqueue(id, _) => Notify(wk, id)
    case Reap(_, rows, _) => NoteReset(wk, rows)
    case Crash(p) => if wk.proc == p then wk.(pc := Stopped(LeftBehind(wk.pc))) else wk
    case _ => wk
  }

  lemma OthersStep(s: State, step: Step, w: WorkerId)
    requires Enabled(s, step) && w in s.workers && Actor(step) != Some(w)
    ensures w in Apply(s, step).workers && Apply(s, step).workers[w] == Disturbed(s, step, s.workers[w])
  {
    match step
    case Tick(_) =>
    case Enqueue(_, _) =>
    case Cancel(_) =>
    case StartWorker(_, _) =>
    case Deliver(_, _) =>
    case LoopCheck(_) =>
    case TakeLocks(_, _) =>
    case Claim(_, _, _) =>
    case ScanEmpty(_) =>
    case WakeUp(_) =>
    case Unlock(_) =>
    case UnlockFails(_) =>
    case Raise(_) =>
    case CloseSession(_) =>
    case Shutdown(_) =>
    case Crash(_) =>
    case Heartbeat(_) =>
    case Reap(_, _, _) =>
    case _ => OthersWrite(s, step, w);
  }

  /** The statements of _execute_job that write a row by id alone. */
  predicate WritesRow(step: Step) {
    step.MarkRunning? || step.SuccessWrite? || step.RetryWrite? || step.DeadLetterTxn?
  }

  lemma OthersWrite(s: State, step: Step, w: WorkerId)
    requires Enabled(s, step) && w in s.workers && Actor(step) != Some(w) && WritesRow(step)
    ensures w in Apply(s, step).workers && Apply(s, step).workers[w] == s.workers[w]
  {
  }

  /** What stays in the history of a job. */
  lemma HistoryOfStep(s: State, step: Step, id: JobId)
    requires Enabled(s, step) && id in s.hist
    ensures var t := Apply(s, step);
            && id in t.hist && t.hist[id].runAt == s.hist[id].runAt
            && (t.hist[id].claimer == s.hist[id].claimer || (step.Claim? && step.job == id))
  {
    match step
    case Enqueue(_, _) =>
    case Cancel(_) =>
    case Claim(_, _, _) =>
    case DeadLetterTxn(_, _, _) =>
    case Raise(_) =>
    case Crash(_) =>
    case _ => TablesOfStep(s, step);
  }

  /** The steps that change the jobs table. */
  predicate TouchesJobs(step: Step) {
    step.Enqueue? || step.Cancel? || step.Claim? || step.Heartbeat? || step.Reap? || WritesRow(step)
  }

  predicate TouchesHistory(step: Step) {
    step.Enqueue? || step.Cancel? || step.Claim? || step.DeadLetterTxn? || step.Raise? || step.Crash?
  }

  lemma OtherRowKept(s: State, step: Step, id: JobId)
    requires Enabled(s, step) && WritesRow(step) && id in s.jobs && !Executes(s, step.w, id)
    ensures id in Apply(s, step).jobs && Apply(s, step).jobs[id] == s.jobs[id]
  {
  }

  /** Which steps move the clock, add letters, or end processes. */
  lemma FrameOfStep(s: State, step: Step)
    requires Enabled(s, step)
    ensures var t := Apply(s, step);
            && t.baseDelay == s.baseDelay && t.poll == s.poll
            && (!step.Tick? ==> t.clock == s.clock) && (!step.DeadLetterTxn? ==> t.dead == s.dead)
            && (!step.Shutdown? ==> t.down == s.down) && (!step.Crash? ==> t.crashed == s.crashed)
  {
    if WritesRow(step) { FrameOfWrite(s, step); }
  }

  /** Which steps change the jobs table, the locks and the history. */
  lemma TablesOfStep(s: State, step: Step)
    requires Enabled(s, step)
    ensures var t := Apply(s, step);
            && (!TouchesJobs(step) ==> t.jobs == s.jobs)
            && (!step.TakeLocks? && !step.Unlock? && !step.CloseSession? ==> t.locks == s.locks)
            && (!TouchesHistory(step) ==> t.hist == s.hist)
  {
    if WritesRow(step) { FrameOfWrite(s, step); }
  }

  /** The statements that write a row by id alone leave everything else alone. */
  lemma FrameOfWrite(s: State, step: Step)
    requires Enabled(s, step) && WritesRow(step)
    ensures var t := Apply(s, step);
            && t == s.(jobs := t.jobs, workers := t.workers, dead := t.dead, hist := t.hist)
            && t.jobs.Keys == s.jobs.Keys && s.dead <= t.dead
            && (!step.DeadLetterTxn? ==> t.dead == s.dead && t.hist == s.hist)
  {
  }

  // ----- Mutual exclusion -----

  /** From claim to unlock a job has one worker, whose session holds the advisory lock. */
  lemma MutualExclusion(s: State, w: WorkerId, v: WorkerId, id: JobId)
    requires Reachable(s) && Occupies(s, w, id) && Occupies(s, v, id)
    ensures w == v && id in s.locks && s.locks[id].holder == w && s.workers[w].sessionOpen
  {
    ReachableInv(s);
    assert WorkerInv(s, w) && WorkerInv(s, v);
  }

  // ----- Terminal states absorb -----

  lemma TerminalStep(s: State, step: Step, id: JobId)
    requires Inv(s) && Enabled(s, step) && id in s.jobs && Terminal(s.jobs[id].status)
    ensures var t := Apply(s, step); id in t.jobs && t.jobs[id] == s.jobs[id]
  {
    assert id in s.hist && JobInv(s, id);
    if !TouchesJobs(step) {
      TablesOfStep(s, step);
    } else if WritesRow(step) {
      TerminalWrite(s, step, id);
    }
  }

  /** No worker is left that could write the row. */
  lemma TerminalWrite(s: State, step: Step, id: JobId)
    requires Inv(s) && Enabled(s, step) && WritesRow(step)
    requires id in s.jobs && Terminal(s.jobs[id].status)
    ensures s.workers[step.w].pc.exec.id != id
    ensures var t := Apply(s, step); id in t.jobs && t.jobs[id] == s.jobs[id]
  {
    assert WorkerInv(s, step.w);
  }

  /** Once a job is done or dead, no step of any run changes anything in its row. */
  lemma {:induction false} TerminalAbsorbs(s: State, steps: seq<Step>, s': State, id: JobId)
    requires Reachable(s) && Runs(s, steps, s') && id in s.jobs && Terminal(s.jobs[id].status)
    ensures id in s'.jobs && s'.jobs[id] == s.jobs[id]
  {
    ReachableInv(s);
    TerminalRun(s, steps, s', id);
  }

  lemma {:induction false} TerminalRun(s: State, steps: seq<Step>, s': State, id: JobId)
    requires Inv(s) && Runs(s, steps, s') && id in s.jobs && Terminal(s.jobs[id].status)
    ensures id in s'.jobs && s'.jobs[id] == s.jobs[id]
    decreases |steps|
  {
    if steps != [] {
      TerminalStep(s, steps[0], id);
      StepKeepsInv(s, steps[0]);
      TerminalRun(Apply(s, steps[0]), steps[1..], s', id);
    }
  }

  /** The result of a successful handler is written once and for good. */
  lemma {:induction false} ResultIsFinal(s: State, w: WorkerId, result: Json, steps: seq<Step>, s': State, id: JobId)
    requires Reachable(s) && CanSuccess(s, w) && s.workers[w].pc.exec.id == id && id in s.jobs
    requires Runs(DoSuccess(s, w, result), steps, s')
    ensures id in s'.jobs && s'.jobs[id].status == Done && s'.jobs[id].result == Some(result)
    ensures s'.jobs[id].completedAt == Some(s.clock) && s'.jobs[id].attempt == s.jobs[id].attempt + 1
    ensures s'.jobs[id].workerId == Some(w) && s'.jobs[id].error == s.jobs[id].error
  {
    ReachableInv(s);
    SuccessKeepsInv(s, w, result);
    TerminalRun(DoSuccess(s, w, result), steps, s', id);
  }

  // ----- Snapshot agreement -----

  /** The record returned by the claim still agrees with the row when the outcome is decided. */
  lemma SnapshotAgreement(s: State, w: WorkerId, id: JobId)
    requires Reachable(s) && Executes(s, w, id) && id in s.jobs
    ensures var row, snap := s.jobs[id], s.workers[w].pc.exec.row;
            && row.attempt == snap.attempt && row.maxRetries == snap.maxRetries
            && row.jtype == snap.jtype && row.payload == snap.payload && row.runAt == snap.runAt
            && row.priority == snap.priority && row.error == snap.error
    ensures !Terminal(s.jobs[id].status)
    ensures s.workers[w].pc.Executing? ==>
              && (Enabled(s, RetryWrite(w, "")) <==> s.jobs[id].attempt + 1 < s.jobs[id].maxRetries)
              && (Enabled(s, DeadLetterTxn(w, "", s.clock)) <==> s.jobs[id].attempt + 1 >= s.jobs[id].maxRetries)
  {
    ReachableInv(s);
    assert WorkerInv(s, w);
  }

  /** The dead letter is that of the row, not only of the record that the worker kept, and it is dated at
      the NOW() of its transaction. When the row is gone it is still that of the request. */
  lemma LetterMatchesRow(s: State, w: WorkerId, error: string, at: Time)
    requires Reachable(s) && CanDeadLetter(s, w, at)
    ensures var id := s.workers[w].pc.exec.id;
            var t := Apply(s, DeadLetterTxn(w, error, at));
            && id in s.hist && |t.dead| == |s.dead| + 1 && s.dead <= t.dead
            && var letter := t.dead[|s.dead|];
            && letter.originalId == id && letter.workerId == w && letter.error == error && letter.diedAt == at
            && letter.jtype == s.hist[id].jtype && letter.payload == s.hist[id].payload
            && letter.attempts == Budget(s.hist[id].maxRetries)
            && (id !in s.jobs ==> t.jobs == s.jobs)
            && (id in s.jobs ==>
                  var row := s.jobs[id];
                  && letter.jtype == row.jtype && letter.payload == row.payload && letter.attempts == row.attempt + 1
                  && t.jobs == s.jobs[id := row.(status := Dead, attempt := row.attempt + 1, error := Some(error))])
  {
    ReachableInv(s);
    assert WorkerInv(s, w);
    var id := s.workers[w].pc.exec.id;
    assert JobInv(s, id);
  }

  /** A retry puts the row back for 2^attempt * BASE_DELAY after the failure. The attempt is that of the
      row, although the backoff is computed from the record that the worker kept. */
  lemma RetryReschedules(s: State, w: WorkerId, error: string)
    requires Reachable(s) && CanRetry(s, w)
    ensures var id := s.workers[w].pc.exec.id;
            var t := Apply(s, RetryWrite(w, error));
            && t.dead == s.dead
            && (id !in s.jobs ==> t.jobs == s.jobs)
            && (id in s.jobs ==>
                  var row := s.jobs[id];
                  && row.attempt + 1 < row.maxRetries
                  && t.jobs == s.jobs[id := row.(
                       status := Pending, attempt := row.attempt + 1, error := Some(error),
                       runAt := s.clock + Pow2(row.attempt) * s.baseDelay, workerId := None)])
  {
    ReachableInv(s);
    assert WorkerInv(s, w);
  }

  // ----- Retry budget, accounting, backoff -----

  lemma RetryBudget(s: State, id: JobId)
    requires Reachable(s) && id in s.jobs
    ensures var row := s.jobs[id];
            && row.status != Failed
            && (!Terminal(row.status) ==> row.attempt == 0 || 0 < row.attempt < row.maxRetries)
            && (row.status == Dead ==> row.attempt == Budget(row.maxRetries))
            && (row.status == Done ==> 1 <= row.attempt <= Budget(row.maxRetries))
  {
    ReachableInv(s);
    assert JobInv(s, id);
  }

  /** Claims of a job are its counted attempts, plus executions that died before an outcome
      write, plus the one in flight; so they are bounded, even after the row is deleted. */
  lemma ExecutionAccounting(s: State, id: JobId)
    requires Reachable(s) && id in s.hist
    ensures id in s.jobs ==>
              s.hist[id].claims == s.jobs[id].attempt + s.hist[id].abandoned + (if InFlight(s, id) then 1 else 0)
    ensures s.hist[id].claims <= Budget(s.hist[id].maxRetries) + s.hist[id].abandoned
    ensures InFlight(s, id) <==> exists w :: Executes(s, w, id)
  {
    ReachableInv(s);
    assert JobInv(s, id);
    if w :| Executes(s, w, id) { ExecutorClaimed(s, w, id); }
  }

  /** Backoffs add up over any number of resets and new claims. */
  lemma CumulativeBackoff(s: State, id: JobId)
    requires Reachable(s) && id in s.jobs
    ensures id in s.hist
    ensures var row, h := s.jobs[id], s.hist[id];
            && (!Terminal(row.status) ==> row.runAt >= h.runAt + s.baseDelay * (Pow2(row.attempt) - 1))
            && (row.status == Dead ==>
                  && h.letter.Some? && h.letter.value < |s.dead|
                  && h.runAt + s.baseDelay * (Pow2(row.attempt - 1) - 1) <= s.dead[h.letter.value].diedAt <= s.clock)
  {
    ReachableInv(s);
    assert id in s.hist && JobInv(s, id);
    var row := s.jobs[id];
    if row.status == Dead {
      assert LetterInv(s, s.hist[id].letter.value);
      TotalBackoffClosed(s.baseDelay, row.attempt - 1);
    } else if row.status != Done {
      TotalBackoffClosed(s.baseDelay, row.attempt);
    }
  }

  /** Which nullable columns are set, by status. The row of a done job names its last claimer; a row
      that runs after it was reset while claimed has neither claimed_at nor worker_id; before the job
      runs, only a failed attempt can have left a heartbeat. */
  lemma ColumnCoherence(s: State, id: JobId)
    requires Reachable(s) && id in s.jobs
    ensures id in s.hist && Columns(s.jobs[id], s.hist[id].claimer)
    ensures s.jobs[id].status == Pending ==> s.jobs[id].workerId == None
    ensures s.jobs[id].status == Running ==> s.jobs[id].heartbeatAt.Some?
    ensures s.jobs[id].status == Claimed ==> s.jobs[id].workerId == s.hist[id].claimer
  {
    ReachableInv(s);
    assert id in s.hist && JobInv(s, id);
  }

  // ----- Dead letters -----

  /** No job has two dead letters. */
  lemma LettersDistinct(s: State, i: nat, j: nat)
    requires Reachable(s) && i < |s.dead| && j < |s.dead| && s.dead[i].originalId == s.dead[j].originalId
    ensures i == j
  {
    ReachableInv(s);
    assert LetterInv(s, i) && LetterInv(s, j);
  }

  /** A dead job has its dead letter: type, payload as enqueued, error and final attempt. */
  lemma DeadHasLetter(s: State, id: JobId)
    requires Reachable(s) && id in s.jobs && s.jobs[id].status == Dead
    ensures id in s.hist
    ensures exists i: nat :: i < |s.dead| && s.dead[i].originalId == id
              && s.dead[i].jtype == s.hist[id].jtype && s.dead[i].payload == s.hist[id].payload
              && s.dead[i].attempts == s.jobs[id].attempt && s.jobs[id].error == Some(s.dead[i].error)
  {
    ReachableInv(s);
    assert id in s.hist && JobInv(s, id);
    var i := s.hist[id].letter.value;
    assert LetterInv(s, i);
    assert s.dead[i].originalId == id;
  }

  /** A dead letter belongs to a dead job, or to a job that was reset by a reaper while it
      executed and was then cancelled; it holds what was enqueued. */
  lemma LetterHasOrigin(s: State, i: nat)
    requires Reachable(s) && i < |s.dead|
    ensures var letter := s.dead[i]; var id := letter.originalId;
            && id in s.hist
            && (id in s.jobs ==> s.jobs[id].status == Dead)
            && (id !in s.jobs ==> s.hist[id].fate == Cancelled(true))
            && letter.jtype == s.hist[id].jtype && letter.payload == s.hist[id].payload
            && letter.attempts == Budget(s.hist[id].maxRetries)
            && s.hist[id].claimer == Some(letter.workerId)
  {
    ReachableInv(s);
    assert LetterInv(s, i);
  }

  // ----- Ownership -----

  /** Rows with w in worker_id that some worker holds: none but the one w executes, or the one
      it abandoned when it died. */
  lemma Ownership(s: State, w: WorkerId, id: JobId)
    requires Reachable(s) && id in s.jobs && Held(s.jobs[id].status) && s.jobs[id].workerId == Some(w)
    ensures w in s.workers
    ensures Executes(s, w, id) || (LeftBehind(s.workers[w].pc) == Some(id) && !Busy(s.workers[w].pc))
    ensures forall j | j in s.jobs && Held(s.jobs[j].status) && s.jobs[j].workerId == Some(w) :: j == id
  {
    ReachableInv(s);
    OwnershipInv(s, w, id);
  }

  lemma OwnershipInv(s: State, w: WorkerId, id: JobId)
    requires Inv(s) && id in s.jobs && Held(s.jobs[id].status) && s.jobs[id].workerId == Some(w)
    ensures w in s.workers
    ensures Executes(s, w, id) || (LeftBehind(s.workers[w].pc) == Some(id) && !Busy(s.workers[w].pc))
    ensures forall j | j in s.jobs && Held(s.jobs[j].status) && s.jobs[j].workerId == Some(w) :: j == id
  {
    assert id in s.hist && JobInv(s, id);
    forall j | j in s.jobs && Held(s.jobs[j].status) && s.jobs[j].workerId == Some(w) ensures j == id {
      assert j in s.hist && JobInv(s, j);
    }
  }

  /** The heartbeat's UPDATE, which has no id in its WHERE clause, touches at most one row. */
  lemma HeartbeatTouchesOne(s: State, w: WorkerId, id: JobId, j: JobId)
    requires Reachable(s) && CanBeat(s, w)
    requires id in s.jobs && DoBeat(s, w).jobs[id] != s.jobs[id]
    requires j in s.jobs && DoBeat(s, w).jobs[j] != s.jobs[j]
    ensures id == j && (Executes(s, w, id) || LeftBehind(s.workers[w].pc) == Some(id))
  {
    Ownership(s, w, id);
    assert Held(s.jobs[j].status) && s.jobs[j].workerId == Some(w);
  }

  /** A job cancelled under its executor was reset by a reaper during that execution, and no
      later step of the executor can bring it back. */
  lemma CancelDuringExecution(s: State, w: WorkerId, id: JobId)
    requires Reachable(s) && CanCancel(s, id) && Executes(s, w, id)
    ensures s.workers[w].pc.exec.wasReset
    ensures id in s.hist && DoCancel(s, id).hist[id].fate == Cancelled(true)
  {
    ReachableInv(s);
    ExecutorClaimed(s, w, id);
    assert WorkerInv(s, w);
  }

  /** w executes id in every state of the run. */
  ghost predicate ExecutesThroughout(s: State, steps: seq<Step>, w: WorkerId, id: JobId)
    decreases |steps|
  {
    && Executes(s, w, id)
    && (steps != [] ==> Enabled(s, steps[0]) && ExecutesThroughout(Apply(s, steps[0]), steps[1..], w, id))
  }

  predicate Resets(step: Step, id: JobId) {
    step.Reap? && id in step.rows
  }

  /** Some step of the run resets row id. */
  predicate ResetIn(steps: seq<Step>, id: JobId) {
    exists i :: 0 <= i < |steps| && Resets(steps[i], id)
  }

  lemma ResetInRest(steps: seq<Step>, id: JobId)
    requires steps != []
    ensures ResetIn(steps, id) <==> Resets(steps[0], id) || ResetIn(steps[1..], id)
  {
    if ResetIn(steps[1..], id) {
      var i :| 0 <= i < |steps[1..]| && Resets(steps[1..][i], id);
      assert Resets(steps[i + 1], id);
    }
    if i :| 0 <= i < |steps| && Resets(steps[i], id) && i > 0 {
      assert Resets(steps[1..][i - 1], id);
    }
  }

  lemma ExecOfStep(s: State, step: Step, w: WorkerId, id: JobId)
    requires Enabled(s, step) && Executes(s, w, id) && Executes(Apply(s, step), w, id)
    ensures var e, f := s.workers[w].pc.exec, Apply(s, step).workers[w].pc.exec;
            f.row == e.row && (f.wasReset <==> e.wasReset || Resets(step, id))
  {
    if Actor(step) != Some(w) { OthersStep(s, step, w); }
  }

  lemma {:induction false} ExecOfRun(s: State, steps: seq<Step>, s': State, w: WorkerId, id: JobId)
    requires Runs(s, steps, s') && ExecutesThroughout(s, steps, w, id)
    ensures Executes(s', w, id)
    ensures s'.workers[w].pc.exec.wasReset <==> s.workers[w].pc.exec.wasReset || ResetIn(steps, id)
    decreases |steps|
  {
    if steps != [] {
      ExecOfStep(s, steps[0], w, id);
      ExecOfRun(Apply(s, steps[0]), steps[1..], s', w, id);
      ResetInRest(steps, id);
    }
  }

  /** A client can cancel a job under its executor only if, since the claim, a reaper reset the row;
      and that is what the history flag of the execution records. */
  lemma CancelNeedsReset(s: State, w: WorkerId, id: JobId, at: Time, steps: seq<Step>, s': State)
    requires Reachable(s) && CanClaim(s, w, id, at)
    requires Runs(DoClaim(s, w, id, at), steps, s') && ExecutesThroughout(DoClaim(s, w, id, at), steps, w, id)
    ensures Executes(s', w, id) && (s'.workers[w].pc.exec.wasReset <==> ResetIn(steps, id))
    ensures CanCancel(s', id) ==> ResetIn(steps, id)
    ensures id !in s'.jobs ==> ResetIn(steps, id)
  {
    ReachableInv(s);
    ClaimKeepsInv(s, w, id, at);
    RunKeepsInv(DoClaim(s, w, id, at), steps, s');
    ExecOfRun(DoClaim(s, w, id, at), steps, s', w, id);
    assert WorkerInv(s', w);
  }

  /** A deleted job never returns to the table. */
  lemma {:induction false} GoneForGood(s: State, steps: seq<Step>, s': State, id: JobId)
    requires Runs(s, steps, s') && id in s.hist && id !in s.jobs
    ensures id in s'.hist && id !in s'.jobs
    decreases |steps|
  {
    if steps != [] {
      AbsentStep(s, steps[0], id);
      GoneForGood(Apply(s, steps[0]), steps[1..], s', id);
    }
  }

  lemma AbsentStep(s: State, step: Step, id: JobId)
    requires Enabled(s, step) && id in s.hist && id !in s.jobs
    ensures id in Apply(s, step).hist && id !in Apply(s, step).jobs
  {
    HistoryOfStep(s, step, id);
    if !TouchesJobs(step) { TablesOfStep(s, step); }
  }

  // ----- Draining -----

  /** w has left its job unfinished and is not going to come back to it. */
  predicate Gone(pc: Pc) {
    !Busy(pc) && LeftBehind(pc).Some?
  }

  lemma GoneStep(s: State, step: Step, w: WorkerId)
    requires Enabled(s, step) && w in s.workers && Gone(s.workers[w].pc)
    ensures w in Apply(s, step).workers && Gone(Apply(s, step).workers[w].pc)
  {
    if Actor(step) != Some(w) { OthersStep(s, step, w); }
  }

  lemma {:induction false} GoneStays(s: State, steps: seq<Step>, s': State, w: WorkerId)
    requires Runs(s, steps, s') && w in s.workers && Gone(s.workers[w].pc)
    ensures w in s'.workers && Gone(s'.workers[w].pc)
    decreases |steps|
  {
    if steps != [] {
      GoneStep(s, steps[0], w);
      GoneStays(Apply(s, steps[0]), steps[1..], s', w);
    }
  }

  /** w writes the outcome of its execution. */
  predicate IsOutcome(step: Step, w: WorkerId) {
    WritesRow(step) && !step.MarkRunning? && step.w == w
  }

  function OutcomesBy(steps: seq<Step>, w: WorkerId): nat {
    if steps == [] then 0 else (if IsOutcome(steps[0], w) then 1 else 0) + OutcomesBy(steps[1..], w)
  }

  /** The run contains the outcome write of the execution of id by w that is under way. */
  ghost predicate WroteOutcome(s: State, steps: seq<Step>, w: WorkerId, id: JobId)
    decreases |steps|
  {
    && Executes(s, w, id) && steps != [] && Enabled(s, steps[0])
    && (IsOutcome(steps[0], w) || WroteOutcome(Apply(s, steps[0]), steps[1..], w, id))
  }

  function Open(s: State, w: WorkerId): nat
    requires w in s.workers
  {
    if Busy(s.workers[w].pc) then 1 else 0
  }

  /** A claim opens an execution, and its outcome write closes it, unless the worker leaves the job. */
  lemma OpenOfStep(s: State, step: Step, w: WorkerId)
    requires Enabled(s, step) && w in s.workers
    ensures var t := Apply(s, step);
            && w in t.workers
            && (|| Gone(t.workers[w].pc)
                || Open(s, w) + (if step.Claim? && step.w == w then 1 else 0)
                   == Open(t, w) + (if IsOutcome(step, w) then 1 else 0))
            && (Busy(s.workers[w].pc) && !IsOutcome(step, w) && !Gone(t.workers[w].pc) ==>
                  Executes(t, w, s.workers[w].pc.exec.id))
  {
    if Actor(step) != Some(w) {
      OthersStep(s, step, w);
    } else if WritesRow(step) {
      OpenOfWrite(s, step);
    } else {
      OpenOfMove(s, step, w);
    }
  }

  lemma OpenOfMove(s: State, step: Step, w: WorkerId)
    requires Enabled(s, step) && w in s.workers && Actor(step) == Some(w) && !WritesRow(step)
    ensures w in Apply(s, step).workers
    ensures var a, b := s.workers[w].pc, Apply(s, step).workers[w].pc;
            if step.Claim? then !Busy(a) && Busy(b)
            else Gone(b) || (if Busy(a) then b == a else !Busy(b))
  {
    if !step.Claim? && !step.Raise? { MoveKeepsJob(s, step, w); }
  }

  lemma MoveKeepsJob(s: State, step: Step, w: WorkerId)
    requires Enabled(s, step) && w in s.workers && Actor(step) == Some(w) && !WritesRow(step)
    requires !step.Claim? && !step.Raise?
    ensures w in Apply(s, step).workers
    ensures if Busy(s.workers[w].pc) then Apply(s, step).workers[w].pc == s.workers[w].pc
            else !Busy(Apply(s, step).workers[w].pc)
  {
    match step
    case Deliver(_, _) =>
    case LoopCheck(_) =>
    case TakeLocks(_, _) =>
    case ScanEmpty(_) =>
    case WakeUp(_) =>
    case Unlock(_) =>
    case UnlockFails(_) =>
    case CloseSession(_) =>
    case Heartbeat(_) =>
  }

  lemma OpenOfWrite(s: State, step: Step)
    requires Enabled(s, step) && WritesRow(step)
    ensures var w, t := step.w, Apply(s, step);
            && w in t.workers && (IsOutcome(step, w) ==> !Busy(t.workers[w].pc))
            && (step.MarkRunning? ==> Executes(t, w, s.workers[w].pc.exec.id))
  {
  }

  /** A worker that leaves its loop normally has finished the job that it held and every job that it
      claimed since: it wrote one outcome for each. */
  lemma {:induction false} FinishesItsJobs(s: State, steps: seq<Step>, s': State, w: WorkerId)
    requires Runs(s, steps, s') && w in s.workers && w in s'.workers && s'.workers[w].pc == Stopped(None)
    ensures OutcomesBy(steps, w) == Open(s, w) + ClaimsBy(steps, w)
    ensures Busy(s.workers[w].pc) ==> WroteOutcome(s, steps, w, s.workers[w].pc.exec.id)
    decreases |steps|
  {
    if steps != [] {
      var t := Apply(s, steps[0]);
      OpenOfStep(s, steps[0], w);
      if Gone(t.workers[w].pc) { GoneStays(t, steps[1..], s', w); }
      FinishesItsJobs(t, steps[1..], s', w);
    }
  }

  function ClaimsBy(steps: seq<Step>, w: WorkerId): nat {
    if steps == [] then 0
    else (if steps[0].Claim? && steps[0].w == w then 1 else 0) + ClaimsBy(steps[1..], w)
  }

  lemma WorkerOfStep(s: State, step: Step, w: WorkerId)
    requires Enabled(s, step) && w in s.workers
    ensures var t := Apply(s, step);
            && w in t.workers && t.workers[w].proc == s.workers[w].proc
            && t.workers[w].lateClaims == s.workers[w].lateClaims
                 + (if step.Claim? && step.w == w && s.workers[w].proc in s.down then 1 else 0)
  {
    if Actor(step) != Some(w) { OthersStep(s, step, w); }
  }

  /** While the process of w is shut down, lateClaims counts the Claim steps of w. */
  lemma {:induction false} LateClaimsCounted(s: State, steps: seq<Step>, s': State, w: WorkerId)
    requires Runs(s, steps, s') && w in s.workers && s.workers[w].proc in s.down
    ensures w in s'.workers && s'.workers[w].proc == s.workers[w].proc && s.workers[w].proc in s'.down
    ensures s'.workers[w].lateClaims == s.workers[w].lateClaims + ClaimsBy(steps, w)
    decreases |steps|
  {
    if steps != [] {
      WorkerOfStep(s, steps[0], w);
      FrameOfStep(s, steps[0]);
      LateClaimsCounted(Apply(s, steps[0]), steps[1..], s', w);
    }
  }

  lemma NewWorkerStarts(s: State, step: Step, w: WorkerId)
    requires Enabled(s, step) && w !in s.workers
    ensures !(step.Claim? && step.w == w)
    ensures w in Apply(s, step).workers ==>
              step.StartWorker? && step.w == w && Apply(s, step).workers[w].lateClaims == 0
  {
  }

  /** The same for a worker that starts in a process that is already shut down. */
  lemma {:induction false} LateStarterCounted(s: State, steps: seq<Step>, s': State, w: WorkerId, p: ProcId)
    requires Runs(s, steps, s') && w !in s.workers && p in s.down && w in s'.workers && s'.workers[w].proc == p
    ensures s'.workers[w].lateClaims == ClaimsBy(steps, w) && p in s'.down
    decreases |steps|
  {
    var t := Apply(s, steps[0]);
    FrameOfStep(s, steps[0]);
    NewWorkerStarts(s, steps[0], w);
    if w in t.workers {
      WorkerStays(t, steps[1..], s', w);
      LateClaimsCounted(t, steps[1..], s', w);
    } else {
      LateStarterCounted(t, steps[1..], s', w, p);
    }
  }

  lemma {:induction false} WorkerStays(s: State, steps: seq<Step>, s': State, w: WorkerId)
    requires Runs(s, steps, s') && w in s.workers
    ensures w in s'.workers && s'.workers[w].proc == s.workers[w].proc
    decreases |steps|
  {
    if steps != [] {
      WorkerOfStep(s, steps[0], w);
      WorkerStays(Apply(s, steps[0]), steps[1..], s', w);
    }
  }

  /** After shutdown_event is set a worker claims at most one more job. */
  lemma AtMostOneLateClaim(s: State, p: ProcId, steps: seq<Step>, s': State, w: WorkerId)
    requires Reachable(s) && p !in s.down && Runs(DoShutdown(s, p), steps, s')
    requires w in s'.workers && s'.workers[w].proc == p
    ensures ClaimsBy(steps, w) <= 1
  {
    ReachableInv(s);
    ShutdownKeepsInv(s, p);
    RunKeepsInv(DoShutdown(s, p), steps, s');
    assert WorkerInv(s', w);
    if w in s.workers {
      assert WorkerInv(s, w);
      WorkerStays(DoShutdown(s, p), steps, s', w);
      LateClaimsCounted(DoShutdown(s, p), steps, s', w);
    } else {
      LateStarterCounted(DoShutdown(s, p), steps, s', w, p);
    }
  }

  /** A worker that leaves its loop normally owns no claimed or running row, and once its
      session is closed no advisory lock of it is left. */
  lemma CleanExit(s: State, w: WorkerId)
    requires Reachable(s) && w in s.workers && s.workers[w].pc == Stopped(None)
    ensures forall id | id in s.jobs && Held(s.jobs[id].status) :: s.jobs[id].workerId != Some(w)
    ensures !s.workers[w].sessionOpen ==> forall key | key in s.locks :: s.locks[key].holder != w
  {
    ReachableInv(s);
    forall id | id in s.jobs && Held(s.jobs[id].status) ensures s.jobs[id].workerId != Some(w) {
      assert id in s.hist && JobInv(s, id);
    }
    forall key | key in s.locks && !s.workers[w].sessionOpen ensures s.locks[key].holder != w {
      assert LockInv(s, key);
    }
  }

  /** A graceful shutdown: from shutdown_event to the normal end of its loop a worker claims at most one
      more job, writes the outcome of that one and of the one it was executing, and leaves nothing. */
  lemma GracefulDrain(s: State, p: ProcId, steps: seq<Step>, s': State, w: WorkerId)
    requires Reachable(s) && p !in s.down && Runs(DoShutdown(s, p), steps, s')
    requires w in s.workers && s.workers[w].proc == p
    requires w in s'.workers && s'.workers[w].pc == Stopped(None)
    ensures ClaimsBy(steps, w) <= 1 && OutcomesBy(steps, w) == Open(s, w) + ClaimsBy(steps, w)
    ensures forall id | Executes(s, w, id) :: WroteOutcome(DoShutdown(s, p), steps, w, id)
    ensures forall id | id in s'.jobs && Held(s'.jobs[id].status) :: s'.jobs[id].workerId != Some(w)
  {
    ReachableInv(s);
    ShutdownKeepsInv(s, p);
    RunKeepsInv(DoShutdown(s, p), steps, s');
    WorkerStays(DoShutdown(s, p), steps, s', w);
    AtMostOneLateClaim(s, p, steps, s', w);
    FinishesItsJobs(DoShutdown(s, p), steps, s', w);
    forall id | id in s'.jobs && Held(s'.jobs[id].status) && s'.jobs[id].workerId == Some(w) ensures false {
      OwnershipInv(s', w, id);
    }
  }

  // ----- Progress -----

  /** A worker that has not stopped is never stuck: from wherever it is, its next statement can be taken,
      and a wait ends with the event or the timeout. */
  lemma WorkerProceeds(s: State, w: WorkerId, result: Json)
    requires w in s.workers
    ensures match s.workers[w].pc
            case AtLoopTop => Enabled(s, LoopCheck(w))
            case Scanning(_) => Enabled(s, ScanEmpty(w))
            case Waiting(until) => Enabled(s, WakeUp(w)) <==> s.workers[w].event || until <= s.clock
            case Took(_) => Enabled(s, MarkRunning(w))
            case Executing(_) => Enabled(s, SuccessWrite(w, result))
            case Releasing(_, _) => Enabled(s, Unlock(w))
            case Stopped(_) => Enabled(s, CloseSession(w)) <==> s.workers[w].sessionOpen
  {
  }

  /** A failure leads to a retry or to a dead letter, by the attempt and max_retries of the claimed record. */
  lemma FailureDecided(s: State, w: WorkerId, error: string)
    requires Reachable(s) && w in s.workers && s.workers[w].pc.Executing?
    ensures var row := s.workers[w].pc.exec.row;
            && (Enabled(s, RetryWrite(w, error)) <==> row.attempt + 1 < row.maxRetries)
            && (Enabled(s, DeadLetterTxn(w, error, s.clock)) <==> row.attempt + 1 >= row.maxRetries)
  {
    ReachableInv(s);
    assert WorkerInv(s, w);
  }

  // ----- Wake-ups -----

  /** For every insert and every registered worker that has not stopped: its latest scan began after
      the insert, or it is about to scan, or the notification is pending in one of two places. That
      goes for jobs inserted before the worker registered, too. */
  lemma NoLostWakeUp(s: State, w: WorkerId, id: JobId)
    requires Reachable(s) && w in s.workers && !s.workers[w].pc.Stopped? && id in s.hist
    ensures id in s.workers[w].scanned || s.workers[w].pc.AtLoopTop?
            || s.workers[w].event || id in s.workers[w].inbox
    ensures s.workers[w].pc.Waiting? && !s.workers[w].event && id !in s.workers[w].inbox ==>
              id in s.workers[w].scanned
    ensures s.workers[w].pc.Waiting? && id !in s.workers[w].scanned && id !in s.workers[w].inbox ==>
              CanWakeUp(s, w)
  {
    ReachableInv(s);
    assert WorkerInv(s, w);
  }

  /** A worker is told of an insert at most once. */
  lemma InboxOfStep(s: State, step: Step, w: WorkerId, id: JobId)
    requires Enabled(s, step) && w in s.workers && id in s.hist
    ensures var t := Apply(s, step);
            && w in t.workers && id in t.hist
            && (id !in s.workers[w].inbox || step == Deliver(w, id) ==> id !in t.workers[w].inbox)
  {
    if Actor(step) != Some(w) { OthersStep(s, step, w); }
    HistoryOfStep(s, step, id);
  }

  lemma {:induction false} InboxOfRun(s: State, steps: seq<Step>, s': State, w: WorkerId, id: JobId)
    requires Runs(s, steps, s') && w in s.workers && id in s.hist
    requires id !in s.workers[w].inbox || Deliver(w, id) in steps
    ensures w in s'.workers && id in s'.hist && id !in s'.workers[w].inbox
    decreases |steps|
  {
    if steps != [] {
      InboxOfStep(s, steps[0], w, id);
      assert steps == [steps[0]] + steps[1..];
      InboxOfRun(Apply(s, steps[0]), steps[1..], s', w, id);
    }
  }

  /** Once the notification of an insert has reached a worker, over any later run: the worker has
      scanned since the insert, or is about to, or its event is set; so it does not stay blocked. */
  lemma DeliveredWakes(s: State, steps: seq<Step>, s': State, w: WorkerId, id: JobId)
    requires Reachable(s) && Runs(s, steps, s') && CanDeliver(s, w, id) && id in s.hist && Deliver(w, id) in steps
    ensures w in s'.workers
    ensures !s'.workers[w].pc.Stopped? ==>
              id in s'.workers[w].scanned || s'.workers[w].pc.AtLoopTop? || s'.workers[w].event
    ensures s'.workers[w].pc.Waiting? && id !in s'.workers[w].scanned ==> CanWakeUp(s', w)
  {
    ReachableInv(s);
    RunKeepsInv(s, steps, s');
    InboxOfRun(s, steps, s', w, id);
    assert WorkerInv(s', w);
  }

  /** The poll fallback. After a scan that found nothing a worker can wake up exactly when its event is set
      or POLL_INTERVAL has passed since the scan, whatever happens in between, unless it has stopped. */
  lemma PollFallback(s: State, steps: seq<Step>, s': State, w: WorkerId)
    requires CanScanEmpty(s, w) && Runs(Apply(s, ScanEmpty(w)), steps, s') && WakeUp(w) !in steps
    ensures w in s'.workers
    ensures s'.workers[w].pc.Stopped?
            || (Enabled(s', WakeUp(w)) <==> s'.workers[w].event || s.clock + s.poll <= s'.clock)
  {
    WaitingRun(Apply(s, ScanEmpty(w)), steps, s', w, s.clock + s.poll);
  }

  lemma {:induction false} WaitingRun(s: State, steps: seq<Step>, s': State, w: WorkerId, until: Time)
    requires Runs(s, steps, s') && w in s.workers && s.workers[w].pc == Waiting(until) && WakeUp(w) !in steps
    ensures w in s'.workers && (s'.workers[w].pc.Stopped? || s'.workers[w].pc == Waiting(until))
    decreases |steps|
  {
    if steps != [] {
      var t := Apply(s, steps[0]);
      WaitingStep(s, steps[0], w, until);
      if t.workers[w].pc.Stopped? { StoppedStays(t, steps[1..], s', w); }
      else { WaitingRun(t, steps[1..], s', w, until); }
    }
  }

  lemma WaitingStep(s: State, step: Step, w: WorkerId, until: Time)
    requires Enabled(s, step) && w in s.workers && s.workers[w].pc == Waiting(until) && step != WakeUp(w)
    ensures var t := Apply(s, step);
            w in t.workers && (t.workers[w].pc.Stopped? || t.workers[w].pc == Waiting(until))
  {
    if Actor(step) != Some(w) { OthersStep(s, step, w); }
  }

  lemma {:induction false} StoppedStays(s: State, steps: seq<Step>, s': State, w: WorkerId)
    requires Runs(s, steps, s') && w in s.workers && s.workers[w].pc.Stopped?
    ensures w in s'.workers && s'.workers[w].pc.Stopped?
    decreases |steps|
  {
    if steps != [] {
      StoppedStep(s, steps[0], w);
      StoppedStays(Apply(s, steps[0]), steps[1..], s', w);
    }
  }

  lemma StoppedStep(s: State, step: Step, w: WorkerId)
    requires Enabled(s, step) && w in s.workers && s.workers[w].pc.Stopped?
    ensures w in Apply(s, step).workers && Apply(s, step).workers[w].pc == s.workers[w].pc
  {
    if Actor(step) != Some(w) { OthersStep(s, step, w); }
  }

  // ----- One occurrence is claimed or cancelled, not both -----

  /** Steps that put job id back into the queue. */
  predicate Requeues(s: State, step: Step, id: JobId) {
    match step
    case RetryWrite(w, error) => Executes(s, w, id)
    case Reap(p, rows, at) => id in rows
    case _ => false
  }

  ghost predicate RequeuedIn(s: State, steps: seq<Step>, id: JobId)
    decreases |steps|
  {
    steps != [] && Enabled(s, steps[0])
    && (Requeues(s, steps[0], id) || RequeuedIn(Apply(s, steps[0]), steps[1..], id))
  }

  /** Between a claim and a later successful cancel, or a later claim, of the same job lies a
      retry or a reset: no occurrence in the queue is consumed twice. */
  lemma {:induction false} ConsumedOnce(s: State, steps: seq<Step>, s': State, id: JobId)
    requires Runs(s, steps, s') && id in s.jobs && s.jobs[id].status != Pending && id in s.hist
    requires id in s'.jobs && s'.jobs[id].status == Pending
    ensures RequeuedIn(s, steps, id)
    decreases |steps|
  {
    if steps != [] && !Requeues(s, steps[0], id) {
      var t := Apply(s, steps[0]);
      HistoryOfStep(s, steps[0], id);
      NotRequeued(s, steps[0], id);
      if id !in t.jobs { GoneForGood(t, steps[1..], s', id); }
      ConsumedOnce(t, steps[1..], s', id);
    }
  }

  lemma NotRequeued(s: State, step: Step, id: JobId)
    requires Enabled(s, step) && !Requeues(s, step, id)
    requires id in s.hist && id in s.jobs && s.jobs[id].status != Pending
    ensures id in Apply(s, step).jobs ==> Apply(s, step).jobs[id].status != Pending
  {
    if !TouchesJobs(step) { TablesOfStep(s, step); }
  }
}
