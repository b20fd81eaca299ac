/** What the steps of a whole run add up to. */
module Accounting {
  import opened Schema
  import opened Protocol
  import opened Invariant
  import opened Preservation
  import opened PreservationGlobal
  import opened Safety

  // ----- Claims, outcomes and abandoned executions -----

  /** The Claim steps for id in a run. */
  function Claims(steps: seq<Step>, id: JobId): nat {
    if steps == [] then 0
    else (if steps[0].Claim? && steps[0].job == id then 1 else 0) + Claims(steps[1..], id)
  }

  /** The executions of id that a run ended before an outcome write. */
  ghost function Abandons(s: State, steps: seq<Step>, id: JobId): nat
    decreases |steps|
  {
    if steps == [] || !Enabled(s, steps[0]) then 0
    else (if EndsExecution(s, steps[0], id) then 1 else 0) + Abandons(Apply(s, steps[0]), steps[1..], id)
  }

  /** The step kills the worker, or its whole process, while it executes id. */
  predicate EndsExecution(s: State, step: Step, id: JobId) {
    match step
    case Raise(w) => Executes(s, w, id)
    case Crash(p) => InFlight(s, id) && s.workers[s.hist[id].claimer.value].proc == p
    case _ => false
  }

  lemma CountersOfStep(s: State, step: Step, id: JobId)
    requires Enabled(s, step) && id in s.hist
    ensures var t := Apply(s, step);
            && id in t.hist
            && t.hist[id].claims == s.hist[id].claims + (if step.Claim? && step.job == id then 1 else 0)
            && t.hist[id].abandoned == s.hist[id].abandoned + (if EndsExecution(s, step, id) then 1 else 0)
  {
    match step
    case Enqueue(_, _) =>
    case Cancel(_) =>
    case Claim(_, _, _) =>
    case DeadLetterTxn(_, _, _) =>
    case Raise(_) =>
    case Crash(_) =>
    case _ => TablesOfStep(s, step);
  }

  lemma CountersBefore(s: State, step: Step, id: JobId)
    requires Inv(s) && Enabled(s, step) && id !in s.hist
    ensures !(step.Claim? && step.job == id) && !EndsExecution(s, step, id)
    ensures id in Apply(s, step).hist ==> Apply(s, step).hist[id].claims == 0 && Apply(s, step).hist[id].abandoned == 0
  {
    if step.Raise? && Executes(s, step.w, id) { ExecutorClaimed(s, step.w, id); }
  }

  lemma {:induction false} CountersOfRun(s: State, steps: seq<Step>, s': State, id: JobId)
    requires Inv(s) && Runs(s, steps, s') && id in s'.hist
    ensures s'.hist[id].claims == (if id in s.hist then s.hist[id].claims else 0) + Claims(steps, id)
    ensures s'.hist[id].abandoned == (if id in s.hist then s.hist[id].abandoned else 0) + Abandons(s, steps, id)
    decreases |steps|
  {
    if steps != [] {
      if id in s.hist {
        CountersOfStep(s, steps[0], id);
      } else {
        CountersBefore(s, steps[0], id);
      }
      StepKeepsInv(s, steps[0]);
      CountersOfRun(Apply(s, steps[0]), steps[1..], s', id);
    }
  }

  /** Total work: in a run from the empty queue a job is claimed at most max(1, max_retries) times,
      not counting executions whose worker died. */
  lemma BoundedWork(init: State, steps: seq<Step>, s: State, id: JobId)
    requires Initial(init) && Runs(init, steps, s) && id in s.hist
    ensures Claims(steps, id) <= Budget(s.hist[id].maxRetries) + Abandons(init, steps, id)
  {
    InitialInv(init);
    RunKeepsInv(init, steps, s);
    CountersOfRun(init, steps, s, id);
    assert JobInv(s, id);
  }

  /** The step writes the outcome of an execution of id, whether or not the row still exists. */
  predicate WritesOutcome(s: State, step: Step, id: JobId) {
    match step
    case SuccessWrite(w, _) => Executes(s, w, id)
    case RetryWrite(w, _) => Executes(s, w, id)
    case DeadLetterTxn(w, _, _) => Executes(s, w, id)
    case _ => false
  }

  ghost function Outcomes(s: State, steps: seq<Step>, id: JobId): nat
    decreases |steps|
  {
    if steps == [] || !Enabled(s, steps[0]) then 0
    else (if WritesOutcome(s, steps[0], id) then 1 else 0) + Outcomes(Apply(s, steps[0]), steps[1..], id)
  }

  function Count(b: bool): nat {
    if b then 1 else 0
  }

  /** A claim of id opens an execution, an outcome write or the death of its worker closes it, and
      nothing else does either. */
  lemma ExecutionOfStep(s: State, step: Step, id: JobId)
    requires Inv(s) && Enabled(s, step)
    ensures Count(InFlight(Apply(s, step), id)) + Count(WritesOutcome(s, step, id)) + Count(EndsExecution(s, step, id))
            == Count(InFlight(s, id)) + Count(step.Claim? && step.job == id)
  {
    if step.Claim? {
      ClaimOpens(s, step.w, step.job, step.at, id);
    } else {
      if Actor(step).Some? && Executes(s, Actor(step).value, id) {
        ExecutorClaimed(s, Actor(step).value, id);
        OwnStep(s, step, Actor(step).value, id);
      } else {
        StrangerStep(s, step, id);
      }
    }
  }

  lemma ClaimOpens(s: State, w: WorkerId, job: JobId, at: Time, id: JobId)
    requires Inv(s) && CanClaim(s, w, job, at)
    ensures InFlight(DoClaim(s, w, job, at), id) <==> id == job || InFlight(s, id)
    ensures !InFlight(s, job)
  {
    if InFlight(s, job) { ExecutorClaimed(s, s.hist[job].claimer.value, job); }
  }

  lemma OwnStep(s: State, step: Step, w: WorkerId, id: JobId)
    requires Enabled(s, step) && Actor(step) == Some(w) && Executes(s, w, id) && !step.Claim?
    requires id in s.hist && s.hist[id].claimer == Some(w)
    ensures InFlight(Apply(s, step), id) <==> !WritesOutcome(s, step, id) && !EndsExecution(s, step, id)
  {
  }

  lemma ClaimerOfStep(s: State, step: Step, id: JobId)
    requires Enabled(s, step) && !step.Claim?
    ensures id in s.hist ==> id in Apply(s, step).hist && Apply(s, step).hist[id].claimer == s.hist[id].claimer
    ensures id !in s.hist && id in Apply(s, step).hist ==> Apply(s, step).hist[id].claimer == None
  {
    if id in s.hist {
      HistoryOfStep(s, step, id);
    } else if !step.Enqueue? {
      NoNewHistory(s, step, id);
    }
  }

  lemma NoNewHistory(s: State, step: Step, id: JobId)
    requires Enabled(s, step) && !step.Enqueue? && id !in s.hist
    ensures id !in Apply(s, step).hist
  {
    if !step.Cancel? && !step.Claim? && !step.DeadLetterTxn? && !step.Raise? && !step.Crash? {
      TablesOfStep(s, step);
    }
  }

  lemma StillStranger(s: State, step: Step, w: WorkerId, id: JobId)
    requires Enabled(s, step) && Actor(step) == Some(w) && !step.Claim? && !Executes(s, w, id)
    ensures !Executes(Apply(s, step), w, id)
  {
  }

  lemma StrangerStep(s: State, step: Step, id: JobId)
    requires Enabled(s, step) && !step.Claim? && !(Actor(step).Some? && Executes(s, Actor(step).value, id))
    ensures InFlight(Apply(s, step), id) <==> InFlight(s, id) && !EndsExecution(s, step, id)
  {
    ClaimerOfStep(s, step, id);
    if id in s.hist && s.hist[id].claimer.Some? {
      var c := s.hist[id].claimer.value;
      if Actor(step) == Some(c) { StillStranger(s, step, c, id); }
      else if c in s.workers { OthersStep(s, step, c); }
      else { NewWorkerStarts(s, step, c); }
      Combine(s, step, Apply(s, step), c, id);
    }
  }

  lemma Combine(s: State, step: Step, t: State, c: WorkerId, id: JobId)
    requires id in s.hist && s.hist[id].claimer == Some(c) && id in t.hist && t.hist[id].claimer == Some(c)
    requires if Actor(step) == Some(c) then !Executes(t, c, id)
             else if c in s.workers then c in t.workers && t.workers[c] == Disturbed(s, step, s.workers[c])
             else c !in t.workers
    requires Actor(step).Some? ==> !Executes(s, Actor(step).value, id)
    ensures InFlight(t, id) <==> InFlight(s, id) && !EndsExecution(s, step, id)
  {
  }

  /** Every committed claim leads to exactly one outcome write, unless its worker died before it or
      is still at it: in no run are there two writes for one claim. */
  lemma OneOutcomePerClaim(init: State, steps: seq<Step>, s: State, id: JobId)
    requires Initial(init) && Runs(init, steps, s)
    ensures Claims(steps, id) == Outcomes(init, steps, id) + Abandons(init, steps, id) + Count(InFlight(s, id))
  {
    InitialInv(init);
    OutcomesOfRun(init, steps, s, id);
  }

  lemma {:induction false} OutcomesOfRun(s: State, steps: seq<Step>, s': State, id: JobId)
    requires Inv(s) && Runs(s, steps, s')
    ensures Count(InFlight(s, id)) + Claims(steps, id)
            == Outcomes(s, steps, id) + Abandons(s, steps, id) + Count(InFlight(s', id))
    decreases |steps|
  {
    if steps != [] {
      ExecutionOfStep(s, steps[0], id);
      StepKeepsInv(s, steps[0]);
      OutcomesOfRun(Apply(s, steps[0]), steps[1..], s', id);
    }
  }

  // ----- Advisory locks -----

  /** How often the session of w holds the lock on key. */
  function HeldCount(s: State, w: WorkerId, key: JobId): nat {
    if key in s.locks && s.locks[key].holder == w then s.locks[key].count else 0
  }

  function Takes(steps: seq<Step>, w: WorkerId, key: JobId): nat {
    if steps == [] then 0
    else (if steps[0].TakeLocks? && steps[0].w == w then steps[0].keys[key] else 0) + Takes(steps[1..], w, key)
  }

  predicate Unlocks(s: State, step: Step, w: WorkerId, key: JobId) {
    step == Unlock(w) && CanUnlock(s, w) && s.workers[w].pc.id == key
  }

  ghost function UnlockCount(s: State, steps: seq<Step>, w: WorkerId, key: JobId): nat
    decreases |steps|
  {
    if steps == [] || !Enabled(s, steps[0]) then 0
    else Count(Unlocks(s, steps[0], w, key)) + UnlockCount(Apply(s, steps[0]), steps[1..], w, key)
  }

  lemma LocksOfStep(s: State, step: Step, w: WorkerId, key: JobId)
    requires Inv(s) && Enabled(s, step) && step != CloseSession(w)
    ensures HeldCount(Apply(s, step), w, key) + Count(Unlocks(s, step, w, key))
            == HeldCount(s, w, key) + (if step.TakeLocks? && step.w == w then step.keys[key] else 0)
  {
    if step.Unlock? {
      UnlockBalance(s, step.w, w, key);
    } else if !step.TakeLocks? && !step.CloseSession? {
      TablesOfStep(s, step);
    }
  }

  lemma UnlockBalance(s: State, v: WorkerId, w: WorkerId, key: JobId)
    requires Inv(s) && CanUnlock(s, v)
    ensures HeldCount(DoUnlock(s, v), w, key) + Count(v == w && s.workers[v].pc.id == key) == HeldCount(s, w, key)
  {
    assert WorkerInv(s, v);
    assert LockInv(s, s.workers[v].pc.id);
  }

  /** While a session is open it holds each lock as often as it took it, less the unlocks: the
      unlock of a job always finds the lock held, and frees a lock taken once. */
  lemma {:induction false} LockBalance(s: State, steps: seq<Step>, s': State, w: WorkerId, key: JobId)
    requires Inv(s) && Runs(s, steps, s') && CloseSession(w) !in steps
    ensures HeldCount(s', w, key) + UnlockCount(s, steps, w, key) == HeldCount(s, w, key) + Takes(steps, w, key)
    decreases |steps|
  {
    if steps != [] {
      LocksOfStep(s, steps[0], w, key);
      StepKeepsInv(s, steps[0]);
      LockBalance(Apply(s, steps[0]), steps[1..], s', w, key);
    }
  }

  /** The SELECT that v has under way has got the lock on id. */
  predicate Taking(s: State, v: WorkerId, id: JobId) {
    v in s.workers && s.workers[v].pc.Scanning? && id in s.workers[v].pc.took
  }

  /** v holds the lock on id once more than the claim or execution of id that it has under way needs. */
  predicate HasSurplus(s: State, v: WorkerId, id: JobId) {
    HeldCount(s, v, id) >= 1 + Count(Taking(s, v, id)) + Count(Occupies(s, v, id))
  }

  lemma SurplusOfStep(s: State, step: Step, v: WorkerId, id: JobId)
    requires Inv(s) && Enabled(s, step) && v in s.workers && HasSurplus(s, v, id) && step != CloseSession(v)
    ensures v in Apply(s, step).workers && HasSurplus(Apply(s, step), v, id)
    ensures step.Claim? && step.job == id ==> step.w == v
  {
    LocksOfStep(s, step, v, id);
    if Actor(step) == Some(v) { UsesOfStep(s, step, v, id); } else { OthersStep(s, step, v); }
  }

  /** What a step of v needs of the lock on id, it has just taken or gives back. */
  lemma UsesOfStep(s: State, step: Step, v: WorkerId, id: JobId)
    requires Enabled(s, step) && Actor(step) == Some(v) && v in s.workers
    ensures var t := Apply(s, step);
            && v in t.workers
            && Count(Taking(t, v, id)) + Count(Occupies(t, v, id)) + Count(Unlocks(s, step, v, id))
               <= Count(Taking(s, v, id)) + Count(Occupies(s, v, id))
                  + (if step.TakeLocks? && step.w == v then step.keys[id] else 0)
  {
    if WritesRow(step) {
      UsesOfWrite(s, step, v, id);
    } else if !step.TakeLocks? && !step.Claim? && !step.Unlock? {
      NoNewUse(s, step, v, id);
    }
  }

  lemma NoNewUse(s: State, step: Step, v: WorkerId, id: JobId)
    requires Enabled(s, step) && Actor(step) == Some(v) && v in s.workers
    requires !WritesRow(step) && !step.TakeLocks? && !step.Claim? && !step.Unlock?
    ensures v in Apply(s, step).workers
    ensures Taking(Apply(s, step), v, id) ==> Taking(s, v, id)
    ensures Occupies(Apply(s, step), v, id) ==> Occupies(s, v, id)
  {
    match step
    case Deliver(_, _) =>
    case LoopCheck(_) =>
    case ScanEmpty(_) =>
    case WakeUp(_) =>
    case UnlockFails(_) =>
    case Raise(_) =>
    case CloseSession(_) =>
    case Heartbeat(_) =>
  }

  lemma UsesOfWrite(s: State, step: Step, v: WorkerId, id: JobId)
    requires Enabled(s, step) && WritesRow(step) && step.w == v
    ensures var t := Apply(s, step); v in t.workers && !Taking(t, v, id) && (Occupies(t, v, id) <==> Occupies(s, v, id))
  {
  }

  /** A surplus lock lasts until its holder closes its session, whatever it claims, executes and unlocks
      meanwhile: every claim takes the lock once more, and every unlock gives one back. Until then
      nobody else claims the job. */
  lemma {:induction false} SurplusLasts(s: State, steps: seq<Step>, s': State, v: WorkerId, id: JobId)
    requires Inv(s) && Runs(s, steps, s') && v in s.workers && HasSurplus(s, v, id)
    requires CloseSession(v) !in steps
    ensures HasSurplus(s', v, id)
    ensures forall i | 0 <= i < |steps| && steps[i].Claim? && steps[i].job == id :: steps[i].w == v
    decreases |steps|
  {
    if steps != [] {
      SurplusOfStep(s, steps[0], v, id);
      StepKeepsInv(s, steps[0]);
      SurplusLasts(Apply(s, steps[0]), steps[1..], s', v, id);
      assert forall i :: 1 <= i < |steps| ==> steps[i] == steps[1..][i - 1];
    }
  }

  /** u claims id in a run in which the session that now holds the lock on id is not closed. */
  ghost predicate ClaimedWithoutClose(s: State, steps: seq<Step>, s': State, u: WorkerId, id: JobId) {
    && Runs(s, steps, s')
    && (id in s.locks ==> CloseSession(s.locks[id].holder) !in steps)
    && exists i :: 0 <= i < |steps| && steps[i].Claim? && steps[i].w == u && steps[i].job == id
  }

  /** Nobody needs the lock on id at the moment, except u. */
  predicate NotInUse(s: State, u: WorkerId, id: JobId) {
    id in s.locks && s.locks[id].holder != u ==>
      !Taking(s, s.locks[id].holder, id) && !Occupies(s, s.locks[id].holder, id)
  }

  /** The exact price of a surplus lock: a worker that is free can get a pending job, before any session
      closes, if and only if no other session holds the job's lock, needed or not. */
  lemma ClaimableExactly(s: State, u: WorkerId, id: JobId)
    requires Reachable(s) && id in s.jobs && s.jobs[id].status == Pending && NotInUse(s, u, id)
    requires u in s.workers && s.workers[u].pc.AtLoopTop? && s.workers[u].proc !in s.down
    ensures (exists steps, s' :: ClaimedWithoutClose(s, steps, s', u, id)) <==> Lockable(s, u, id)
  {
    ReachableInv(s);
    if Lockable(s, u, id) {
      var steps, s' := WaitAndClaim(s, u, id);
      assert steps[3].Claim? && ClaimedWithoutClose(s, steps, s', u, id);
    } else {
      var v := s.locks[id].holder;
      assert LockInv(s, id);
      forall steps, s' | Runs(s, steps, s') && CloseSession(v) !in steps
        ensures !ClaimedWithoutClose(s, steps, s', u, id)
      {
        SurplusLasts(s, steps, s', v, id);
      }
    }
  }

  lemma WaitAndClaim(s: State, u: WorkerId, id: JobId) returns (steps: seq<Step>, s': State)
    requires id in s.jobs && s.jobs[id].status == Pending && Lockable(s, u, id)
    requires u in s.workers && s.workers[u].pc.AtLoopTop? && s.workers[u].proc !in s.down
    ensures Runs(s, steps, s') && |steps| == 4 && steps[0].Tick? && steps[1] == LoopCheck(u)
    ensures steps[2] == TakeLocks(u, multiset{id}) && steps[3].Claim? && steps[3].w == u && steps[3].job == id
  {
    var now := if s.clock <= s.jobs[id].runAt then s.jobs[id].runAt else s.clock;
    var rest: seq<Step>;
    rest, s' := CheckAndClaim(DoTick(s, now), u, id);
    FirstStep(s, Tick(now), rest, s');
    steps := [Tick(now)] + rest;
  }

  lemma CheckAndClaim(s: State, u: WorkerId, id: JobId) returns (steps: seq<Step>, s': State)
    requires id in s.jobs && Due(s.jobs[id], s.clock) && Lockable(s, u, id)
    requires u in s.workers && s.workers[u].pc.AtLoopTop? && s.workers[u].proc !in s.down
    ensures steps == [LoopCheck(u), TakeLocks(u, multiset{id}), Claim(u, id, s.clock)] && Runs(s, steps, s')
  {
    var scanning := DoLoopCheck(s, u);
    var locked := DoTakeLocks(scanning, u, multiset{id});
    s' := DoClaim(locked, u, id, s.clock);
    steps := [Claim(u, id, s.clock)];
    FirstStep(locked, Claim(u, id, s.clock), [], s');
    FirstStep(scanning, TakeLocks(u, multiset{id}), steps, s');
    steps := [TakeLocks(u, multiset{id})] + steps;
    FirstStep(s, LoopCheck(u), steps, s');
    steps := [LoopCheck(u)] + steps;
  }

  // ----- What was enqueued is what runs -----

  /** The columns that no statement updates. */
  predicate SameRequest(a: Job, b: Job) {
    && a.jtype == b.jtype && a.payload == b.payload && a.priority == b.priority
    && a.maxRetries == b.maxRetries && a.createdAt == b.createdAt
  }

  lemma RowOfStep(s: State, step: Step, id: JobId)
    requires Enabled(s, step) && id in s.hist
    ensures id in s.jobs && id in Apply(s, step).jobs ==> SameRequest(s.jobs[id], Apply(s, step).jobs[id])
    ensures id !in s.jobs ==> id !in Apply(s, step).jobs
  {
    if id !in s.jobs {
      AbsentStep(s, step, id);
    } else if !TouchesJobs(step) {
      TablesOfStep(s, step);
    } else if WritesRow(step) {
      RequestOfWrite(s, step, id);
    }
  }

  lemma RequestOfWrite(s: State, step: Step, id: JobId)
    requires Enabled(s, step) && WritesRow(step) && id in s.jobs
    ensures id in Apply(s, step).jobs && SameRequest(s.jobs[id], Apply(s, step).jobs[id])
  {
    if !Executes(s, step.w, id) { OtherRowKept(s, step, id); }
  }

  lemma {:induction false} RequestOfRun(s: State, steps: seq<Step>, s': State, id: JobId)
    requires Runs(s, steps, s') && id in s.hist
    ensures id in s'.hist && s'.hist[id].runAt == s.hist[id].runAt && s'.baseDelay == s.baseDelay
    ensures id in s.jobs && id in s'.jobs ==> SameRequest(s.jobs[id], s'.jobs[id])
    ensures id !in s.jobs ==> id !in s'.jobs
    decreases |steps|
  {
    if steps != [] {
      RowOfStep(s, steps[0], id);
      HistoryOfStep(s, steps[0], id);
      FrameOfStep(s, steps[0]);
      RequestOfRun(Apply(s, steps[0]), steps[1..], s', id);
    }
  }

  /** From POST /jobs to any claim: the worker gets the type and payload of the request, and not
      before the requested time plus all backoffs of earlier failures. Before the first failure run_at
      is exactly the requested time. */
  lemma ClaimServesRequest(s: State, id: JobId, req: JobCreate, steps: seq<Step>, s': State, w: WorkerId, at: Time)
    requires Reachable(s) && CanEnqueue(s, id, req)
    requires Runs(Apply(s, Enqueue(id, req)), steps, s') && CanClaim(s', w, id, at)
    ensures var e := Apply(s', Claim(w, id, at)).workers[w].pc.exec;
            var wanted := if req.runAt.Some? then req.runAt.value else s.clock;
            && e.row.jtype == req.jtype && e.row.payload == Obj(req.payload)
            && e.row.priority == req.priority && e.row.maxRetries == req.maxRetries
            && e.row.createdAt == s.clock && e.row.attempt >= 0
            && (e.row.attempt == 0 ==> e.row.runAt == wanted)
            && at >= e.row.runAt >= wanted + s.baseDelay * (Pow2(e.row.attempt) - 1)
  {
    ReachableInv(s);
    var t := DoEnqueue(s, id, req);
    EnqueueKeepsInv(s, id, req);
    RequestOfRun(t, steps, s', id);
    RunKeepsInv(t, steps, s');
    assert JobInv(s', id);
    TotalBackoffClosed(s.baseDelay, s'.jobs[id].attempt);
  }

  lemma RunAtOfStep(s: State, step: Step, id: JobId)
    requires Inv(s) && Enabled(s, step) && id in s.jobs && id in Apply(s, step).jobs
    ensures var a, b := s.jobs[id], Apply(s, step).jobs[id];
            b.runAt >= a.runAt && b.attempt >= a.attempt && (b.attempt == a.attempt ==> b.runAt == a.runAt)
  {
    assert id in s.hist;
    if !TouchesJobs(step) {
      TablesOfStep(s, step);
    } else if WritesRow(step) && !Executes(s, step.w, id) {
      OtherRowKept(s, step, id);
    } else if step.RetryWrite? {
      assert WorkerInv(s, step.w);
    }
  }

  /** run_at and attempt never go back, and run_at moves only when a failed attempt is counted. */
  lemma {:induction false} RunAtGrows(s: State, steps: seq<Step>, s': State, id: JobId)
    requires Inv(s) && Runs(s, steps, s') && id in s.jobs && id in s'.jobs
    ensures var a, b := s.jobs[id], s'.jobs[id];
            b.runAt >= a.runAt && b.attempt >= a.attempt && (b.attempt == a.attempt ==> b.runAt == a.runAt)
    decreases |steps|
  {
    if steps != [] {
      var t := Apply(s, steps[0]);
      StepKeepsInv(s, steps[0]);
      if id in t.jobs {
        RunAtOfStep(s, steps[0], id);
        RunAtGrows(t, steps[1..], s', id);
      } else {
        assert id in s.hist;
        HistoryOfStep(s, steps[0], id);
        RequestOfRun(t, steps[1..], s', id);
      }
    }
  }

  /** After a failed attempt nobody claims the job before its backoff is over, 2^attempt * BASE_DELAY after
      the failure, and the next attempt is due exactly then. */
  lemma BackoffRespected(s: State, v: WorkerId, error: string, id: JobId, steps: seq<Step>, s': State,
                         w: WorkerId, at: Time)
    requires Reachable(s) && CanRetry(s, v) && s.workers[v].pc.exec.id == id && id in s.jobs
    requires Runs(Apply(s, RetryWrite(v, error)), steps, s') && CanClaim(s', w, id, at)
    ensures var due := s.clock + Pow2(s.jobs[id].attempt) * s.baseDelay;
            && at >= due
            && (s'.jobs[id].attempt == s.jobs[id].attempt + 1 ==> s'.jobs[id].runAt == due)
  {
    ReachableInv(s);
    RetryReschedules(s, v, error);
    RetryKeepsInv(s, v, error);
    RunAtGrows(DoRetry(s, v, error), steps, s', id);
  }
}
