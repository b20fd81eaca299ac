/** The program's own operations, on tables and locks updated in place, each proved to be
    steps of the protocol. */
module Scheduler {
  import opened Schema
  import opened Protocol
  import opened Invariant
  import opened Preservation
  import opened PreservationGlobal
  import opened Safety
  import opened Accounting
  import opened Transactions
  import opened Refinement

  datatype CancelOutcome = NotFound | Conflict(status: Status) | Gone

  /** How the `try` of _execute_job goes: the handler returned and the UPDATE to 'done' succeeded; one of
      them raised an Exception; or what was raised is no Exception, or _handle_failure raised in turn. */
  datatype HandlerOutcome = Returned(result: Json) | Raised(error: string) | Escaped

  // ----- ORDER BY priority DESC, run_at ASC -----

  predicate Before(a: Job, b: Job) {
    a.priority > b.priority || (a.priority == b.priority && a.runAt <= b.runAt)
  }

  /** The rows that pass the claim's WHERE clause when worker w evaluates it. */
  function Eligible(jobs: map<JobId, Job>, locks: map<JobId, Lock>, w: WorkerId, now: Time): set<JobId> {
    set id | id in jobs && Due(jobs[id], now) && (id in locks ==> locks[id].holder == w)
  }

  predicate IsFirst(jobs: map<JobId, Job>, ids: set<JobId>, id: JobId)
    requires ids <= jobs.Keys
  {
    id in ids && forall j | j in ids :: Before(jobs[id], jobs[j])
  }

  /** From `before` to `after` session w has taken these locks, each as often as it occurs in `keys`. */
  ghost predicate LocksTaken(before: map<JobId, Lock>, after: map<JobId, Lock>, w: WorkerId, keys: multiset<JobId>) {
    && (forall key :: key in after <==> key in before || key in keys)
    && forall key | key in after :: after[key] ==
         if key !in keys then before[key]
         else Lock(w, keys[key] + (if key in before then before[key].count else 0))
  }

  /** What the first eligible row is, in terms of the columns, and what it means that there is none. */
  lemma FirstMeans(jobs: map<JobId, Job>, locks: map<JobId, Lock>, w: WorkerId, now: Time, first: Option<JobId>)
    requires first == None <==> Eligible(jobs, locks, w, now) == {}
    requires first.Some? ==> IsFirst(jobs, Eligible(jobs, locks, w, now), first.value)
    ensures first == None <==>
              !exists id :: id in jobs && jobs[id].status == Pending && jobs[id].runAt <= now
                            && (id in locks ==> locks[id].holder == w)
    ensures first.Some? ==>
              && first.value in jobs && jobs[first.value].status == Pending && jobs[first.value].runAt <= now
              && (first.value in locks ==> locks[first.value].holder == w)
    ensures first.Some? ==>
              forall j | j in jobs && jobs[j].status == Pending && jobs[j].runAt <= now
                         && (j in locks ==> locks[j].holder == w) ::
                || jobs[first.value].priority > jobs[j].priority
                || (jobs[first.value].priority == jobs[j].priority && jobs[first.value].runAt <= jobs[j].runAt)
  {
    assert forall id | id in jobs && jobs[id].status == Pending && jobs[id].runAt <= now
                       && (id in locks ==> locks[id].holder == w) :: id in Eligible(jobs, locks, w, now);
    if first.Some? {
      assert forall j | j in Eligible(jobs, locks, w, now) :: Before(jobs[first.value], jobs[j]);
    }
  }

  lemma {:induction false} FirstExists(jobs: map<JobId, Job>, ids: set<JobId>)
    requires ids <= jobs.Keys && ids != {}
    ensures exists id :: IsFirst(jobs, ids, id)
    decreases |ids|
  {
    var x :| x in ids;
    if ids == {x} {
      assert IsFirst(jobs, ids, x);
    } else {
      var rest := ids - {x};
      assert ids == rest + {x};
      FirstExists(jobs, rest);
      var y :| IsFirst(jobs, rest, y);
      assert IsFirst(jobs, ids, if Before(jobs[x], jobs[y]) then x else y);
    }
  }

  // ----- One execution, among everything else -----

  /** How one execution goes: what all others do before each of its statements takes effect, and
      which of the statements without a handler of their own raise. */
  datatype Around = Around(
    beforeMark: seq<Step>,
    beforeOutcome: seq<Step>,
    beforeUnlock: seq<Step>,
    markRaises: bool,
    unlockRaises: bool)

  /** The steps that may come between two statements of a coroutine: all but its own. Its listener and
      its heartbeat loop go on, and its process may die. */
  predicate MayHappen(s: State, w: WorkerId, step: Step) {
    Enabled(s, step) && !OfCoroutine(step, w)
  }

  /** The state after those of the steps that can be taken beside w. */
  function Meanwhile(s: State, w: WorkerId, steps: seq<Step>): State
    decreases |steps|
  {
    if steps == [] then s
    else Meanwhile(if MayHappen(s, w, steps[0]) then Apply(s, steps[0]) else s, w, steps[1..])
  }

  function TakenBeside(s: State, w: WorkerId, steps: seq<Step>): seq<Step>
    decreases |steps|
  {
    if steps == [] then []
    else if MayHappen(s, w, steps[0]) then [steps[0]] + TakenBeside(Apply(s, steps[0]), w, steps[1..])
    else TakenBeside(s, w, steps[1..])
  }

  /** The statements of w itself in a run. */
  function Own(steps: seq<Step>, w: WorkerId): seq<Step> {
    if steps == [] then []
    else if OfCoroutine(steps[0], w) then [steps[0]] + Own(steps[1..], w)
    else Own(steps[1..], w)
  }

  /** What does not change for w until it unlocks: its process, its locks, the delays. */
  ghost predicate Kept(s: State, t: State, w: WorkerId) {
    && w in s.workers && w in t.workers && t.workers[w].proc == s.workers[w].proc
    && s.clock <= t.clock && t.baseDelay == s.baseDelay && t.poll == s.poll && s.dead <= t.dead
    && forall key :: HeldCount(t, w, key) == HeldCount(s, w, key)
  }

  /** The process of w is dead, and w with it, wherever it was. */
  predicate Died(pc: Pc, t: State, w: WorkerId) {
    w in t.workers && t.workers[w].proc in t.crashed && t.workers[w].pc == Stopped(LeftBehind(pc))
  }

  /** What w can rely on when it comes back to its own code, if it does. */
  ghost predicate Undisturbed(s: State, t: State, w: WorkerId) {
    && Kept(s, t, w)
    && (SamePlace(s.workers[w], t.workers[w]) || Died(s.workers[w].pc, t, w))
    && s.crashed.Keys <= t.crashed.Keys
  }

  lemma PlaceBeside(s: State, step: Step, w: WorkerId)
    requires MayHappen(s, w, step) && w in s.workers
    ensures var t := Apply(s, step);
            && w in t.workers
            && (SamePlace(s.workers[w], t.workers[w]) || Died(s.workers[w].pc, t, w))
            && s.crashed.Keys <= t.crashed.Keys
  {
    if Actor(step) != Some(w) { OthersStep(s, step, w); }
    FrameOfStep(s, step);
  }

  lemma StepBeside(s: State, step: Step, w: WorkerId)
    requires Inv(s) && MayHappen(s, w, step) && w in s.workers
    ensures Inv(Apply(s, step)) && Undisturbed(s, Apply(s, step), w)
  {
    StepKeepsInv(s, step);
    PlaceBeside(s, step, w);
    KeptByStep(s, step, w);
  }

  lemma KeptByStep(s: State, step: Step, w: WorkerId)
    requires Inv(s) && Enabled(s, step) && w in s.workers
    requires step != CloseSession(w) && step != Unlock(w) && !(step.TakeLocks? && step.w == w)
    ensures Kept(s, Apply(s, step), w)
  {
    WorkerOfStep(s, step, w);
    FrameOfStep(s, step);
    forall key ensures HeldCount(Apply(s, step), w, key) == HeldCount(s, w, key) {
      LocksOfStep(s, step, w, key);
    }
  }

  lemma {:induction false} OwnBeside(s: State, w: WorkerId, steps: seq<Step>)
    requires Inv(s) && w in s.workers
    ensures var t := Meanwhile(s, w, steps);
            && Inv(t) && Undisturbed(s, t, w)
            && Runs(s, TakenBeside(s, w, steps), t) && Own(TakenBeside(s, w, steps), w) == []
    decreases |steps|
  {
    if steps != [] {
      if MayHappen(s, w, steps[0]) {
        var u := Apply(s, steps[0]);
        StepBeside(s, steps[0], w);
        OwnBeside(u, w, steps[1..]);
        var rest := TakenBeside(u, w, steps[1..]);
        assert ([steps[0]] + rest)[1..] == rest;
      } else {
        OwnBeside(s, w, steps[1..]);
      }
    }
  }

  /** Every run of steps beside w is one that an execution has to face. */
  lemma {:induction false} AnyRunBeside(s: State, steps: seq<Step>, t: State, w: WorkerId)
    requires Runs(s, steps, t) && Own(steps, w) == []
    ensures Meanwhile(s, w, steps) == t
    decreases |steps|
  {
    if steps != [] { AnyRunBeside(Apply(s, steps[0]), steps[1..], t, w); }
  }

  lemma {:induction false} OwnConcat(a: seq<Step>, b: seq<Step>, w: WorkerId)
    ensures Own(a + b, w) == Own(a, w) + Own(b, w)
  {
    if a == [] {
      assert a + b == b;
    } else {
      var rest := a[1..] + b;
      OwnConcat(a[1..], b, w);
      assert (a + b)[0] == a[0] && (a + b)[1..] == rest;
    }
  }

  /** Once its outcome is written the row of a job stays as it is, or is deleted, as long as w holds
      the lock. */
  lemma RowBesideRelease(s: State, step: Step, w: WorkerId, id: JobId)
    requires Inv(s) && MayHappen(s, w, step) && HeldCount(s, w, id) >= 1 && !Executes(s, w, id) && id in s.hist
    requires id in s.jobs ==> !Held(s.jobs[id].status)
    ensures id in Apply(s, step).jobs ==> id in s.jobs && Apply(s, step).jobs[id] == s.jobs[id]
  {
    if id !in s.jobs {
      AbsentStep(s, step, id);
    } else if !TouchesJobs(step) {
      TablesOfStep(s, step);
    } else if WritesRow(step) {
      if Executes(s, step.w, id) { ExecutorClaimed(s, step.w, id); }
      OtherRowKept(s, step, id);
    }
  }

  lemma {:induction false} RowUntilUnlock(s: State, w: WorkerId, steps: seq<Step>, id: JobId)
    requires Inv(s) && w in s.workers && HeldCount(s, w, id) >= 1 && !Busy(s.workers[w].pc) && id in s.hist
    requires id in s.jobs ==> !Held(s.jobs[id].status)
    ensures var t := Meanwhile(s, w, steps); id in t.jobs ==> id in s.jobs && t.jobs[id] == s.jobs[id]
    decreases |steps|
  {
    if steps != [] {
      if MayHappen(s, w, steps[0]) {
        StepBeside(s, steps[0], w);
        HistoryOfStep(s, steps[0], id);
        RowBesideRelease(s, steps[0], w, id);
        RowUntilUnlock(Apply(s, steps[0]), w, steps[1..], id);
      } else {
        RowUntilUnlock(s, w, steps[1..], id);
      }
    }
  }

  /** The outcome that _execute_job writes. */
  function OutcomeStep(s: State, w: WorkerId, outcome: HandlerOutcome): (step: Step)
    requires Inv(s) && CanSuccess(s, w)
    ensures Enabled(s, step)
  {
    assert WorkerInv(s, w);
    match outcome
    case Returned(result) => SuccessWrite(w, result)
    case Raised(error) => if CanRetry(s, w) then RetryWrite(w, error) else DeadLetterTxn(w, error, s.clock)
    case Escaped => Raise(w)
  }

  /** The state in which the outcome is decided, the job being marked running, or w has died. */
  ghost function AtOutcome(s: State, w: WorkerId, around: Around): (t: State)
    requires Inv(s) && CanMarkRunning(s, w)
    ensures Inv(t) && Kept(s, t, w)
    ensures || (CanSuccess(t, w) && t.workers[w].pc.exec.id == s.workers[w].pc.exec.id
                && t.workers[w].pc.exec.row == s.workers[w].pc.exec.row)
            || Died(s.workers[w].pc, t, w)
  {
    OwnBeside(s, w, around.beforeMark);
    var marking := Meanwhile(s, w, around.beforeMark);
    if marking.workers[w].pc.Stopped? then marking
    else
      MarkRunningKeepsInv(marking, w);
      KeptByStep(marking, MarkRunning(w), w);
      var running := DoMarkRunning(marking, w);
      OwnBeside(running, w, around.beforeOutcome);
      Meanwhile(running, w, around.beforeOutcome)
  }

  /** The state in which w unlocks, or has died. */
  ghost function AtUnlock(s: State, w: WorkerId, outcome: HandlerOutcome, around: Around): (t: State)
    requires Inv(s) && CanMarkRunning(s, w)
    ensures Inv(t) && Kept(s, t, w) && AtOutcome(s, w, around).clock <= t.clock
    ensures || t.workers[w].pc == Releasing(s.workers[w].pc.exec.id, outcome.Escaped?)
            || (t.workers[w].pc in {Stopped(None), Stopped(Some(s.workers[w].pc.exec.id))}
                && t.workers[w].proc in t.crashed)
  {
    var decided := AtOutcome(s, w, around);
    if decided.workers[w].pc.Stopped? then decided
    else
      var step := OutcomeStep(decided, w, outcome);
      OutcomeKeeps(decided, w, outcome);
      OwnBeside(Apply(decided, step), w, around.beforeUnlock);
      Meanwhile(Apply(decided, step), w, around.beforeUnlock)
  }

  lemma OutcomeKeeps(s: State, w: WorkerId, outcome: HandlerOutcome)
    requires Inv(s) && CanSuccess(s, w)
    ensures var t := Apply(s, OutcomeStep(s, w, outcome));
            && Inv(t) && Kept(s, t, w)
            && t.workers[w].pc == Releasing(s.workers[w].pc.exec.id, outcome.Escaped?)
  {
    var step := OutcomeStep(s, w, outcome);
    StepKeepsInv(s, step);
    KeptByStep(s, step, w);
  }

  /** The state in which _execute_job returns to run_worker, raises, or has died with its process. */
  ghost function Executed(s: State, w: WorkerId, outcome: HandlerOutcome, around: Around): State
    requires Inv(s) && CanMarkRunning(s, w)
  {
    OwnBeside(s, w, around.beforeMark);
    var last := if around.markRaises then Meanwhile(s, w, around.beforeMark) else AtUnlock(s, w, outcome, around);
    if last.workers[w].pc.Stopped? then last
    else if around.markRaises then DoRaise(last, w)
    else if around.unlockRaises then DoUnlockFails(last, w)
    else DoUnlock(last, w)
  }

  /** What an outcome written at time `at` does to its row and to the dead letters, seen from the
      claimed record. */
  ghost predicate OutcomeShows(t: State, w: WorkerId, e: Exec, outcome: HandlerOutcome, at: Time) {
    match outcome
    case Returned(result) =>
      e.id in t.jobs ==>
        var row := t.jobs[e.id];
        && row.status == Done && row.result == Some(result) && row.workerId == Some(w)
        && row.attempt == e.row.attempt + 1 && row.completedAt == Some(at) && row.heartbeatAt == None
        && row.runAt == e.row.runAt && row.error == e.row.error
    case Raised(error) =>
      var last := e.row.attempt + 1 >= e.row.maxRetries;
      && (e.id in t.jobs ==>
            var row := t.jobs[e.id];
            && row.status == (if last then Dead else Pending) && row.error == Some(error)
            && row.attempt == e.row.attempt + 1 && row.result == None && row.completedAt == None
            && row.runAt == (if last then e.row.runAt else at + Pow2(e.row.attempt) * t.baseDelay)
            && (!last ==> row.workerId == None))
      && (last ==> DeadLetter(e.id, e.row.jtype, e.row.payload, error, e.row.attempt + 1, w, at) in t.dead)
    case Escaped => true
  }

  lemma OutcomeWritten(s: State, w: WorkerId, outcome: HandlerOutcome)
    requires Inv(s) && CanSuccess(s, w)
    ensures var t := Apply(s, OutcomeStep(s, w, outcome)); var id := s.workers[w].pc.exec.id;
            && OutcomeShows(t, w, s.workers[w].pc.exec, outcome, s.clock)
            && (!outcome.Escaped? && id in t.jobs ==> !Held(t.jobs[id].status))
  {
    var e := s.workers[w].pc.exec;
    OwnJob(s, w, e.id);
    assert JobInv(s, e.id);
    var t := Apply(s, OutcomeStep(s, w, outcome));
    if outcome.Raised? && e.row.attempt + 1 >= e.row.maxRetries {
      assert t.dead[|s.dead|] == LetterFor(e, w, outcome.error, s.clock);
    }
  }

  lemma OutcomeAtUnlock(s: State, w: WorkerId, outcome: HandlerOutcome, around: Around)
    requires Inv(s) && CanMarkRunning(s, w)
    ensures var t, e := AtUnlock(s, w, outcome, around), s.workers[w].pc.exec;
            t.workers[w].pc != Stopped(Some(e.id)) ==>
              OutcomeShows(t, w, e, outcome, AtOutcome(s, w, around).clock)
  {
    var decided := AtOutcome(s, w, around);
    if CanSuccess(decided, w) {
      OutcomeLasts(decided, w, outcome, around.beforeUnlock);
      SameShows(AtUnlock(s, w, outcome, around), w, s.workers[w].pc.exec, decided.workers[w].pc.exec, outcome,
                decided.clock);
    }
  }

  /** Only the record and its id matter. */
  lemma SameShows(t: State, w: WorkerId, a: Exec, b: Exec, outcome: HandlerOutcome, at: Time)
    requires a.id == b.id && a.row == b.row
    ensures OutcomeShows(t, w, a, outcome, at) <==> OutcomeShows(t, w, b, outcome, at)
  {
  }

  lemma OutcomeLasts(s: State, w: WorkerId, outcome: HandlerOutcome, steps: seq<Step>)
    requires Inv(s) && CanSuccess(s, w)
    ensures var written := Apply(s, OutcomeStep(s, w, outcome));
            OutcomeShows(Meanwhile(written, w, steps), w, s.workers[w].pc.exec, outcome, s.clock)
  {
    var written := Apply(s, OutcomeStep(s, w, outcome));
    var e := s.workers[w].pc.exec;
    OutcomeKeeps(s, w, outcome);
    OutcomeWritten(s, w, outcome);
    OwnBeside(written, w, steps);
    assert WorkerInv(written, w) && LockInv(written, e.id);
    if !outcome.Escaped? {
      RowUntilUnlock(written, w, steps, e.id);
      StillShows(written, Meanwhile(written, w, steps), w, e, outcome, s.clock);
    }
  }

  lemma StillShows(t: State, u: State, w: WorkerId, e: Exec, outcome: HandlerOutcome, at: Time)
    requires OutcomeShows(t, w, e, outcome, at) && t.baseDelay == u.baseDelay && t.dead <= u.dead
    requires e.id in u.jobs ==> e.id in t.jobs && u.jobs[e.id] == t.jobs[e.id]
    ensures OutcomeShows(u, w, e, outcome, at)
  {
    assert forall letter | letter in t.dead :: letter in u.dead;
  }

  /** What one execution comes to, whatever all others do in between. The worker is back at its loop unless
      a statement outside the `try` or in its handler raised, or its process died; it gives the lock
      back once, if it gets that far; and unless it leaves the job behind, or the row was cancelled, the
      row shows the outcome, even if a reaper reset it during the execution. */
  lemma ExecutedOutcome(s: State, w: WorkerId, outcome: HandlerOutcome, around: Around)
    requires Inv(s) && CanMarkRunning(s, w)
    ensures var t := Executed(s, w, outcome, around); var e := s.workers[w].pc.exec;
            && w in t.workers
            && var died := t.workers[w].proc in t.crashed;
            && t.workers[w].pc in {AtLoopTop, Stopped(None), Stopped(Some(e.id))}
            && (t.workers[w].pc.Stopped? <==> died || around.markRaises || outcome.Escaped?)
            && (t.workers[w].pc == Stopped(None) ==> died)
            && HeldCount(t, w, e.id)
               == HeldCount(s, w, e.id) - Count(!died && !around.markRaises && !around.unlockRaises)
            && (t.workers[w].pc != Stopped(Some(e.id)) ==>
                  var at := AtOutcome(s, w, around).clock;
                  s.clock <= at <= t.clock && OutcomeShows(t, w, e, outcome, at))
  {
    OwnBeside(s, w, around.beforeMark);
    if around.markRaises {
      assert WorkerInv(Meanwhile(s, w, around.beforeMark), w);
    } else {
      var last := AtUnlock(s, w, outcome, around);
      OutcomeAtUnlock(s, w, outcome, around);
      assert WorkerInv(last, w);
      if CanUnlock(last, w) { UnlockBalance(last, w, w, s.workers[w].pc.exec.id); }
    }
  }

  /** The statements of w in one execution: one mark, one outcome, one unlock, in this order; w gets to the
      end of them unless its process died. */
  ghost predicate OneOutcome(own: seq<Step>, w: WorkerId, outcome: HandlerOutcome, around: Around, died: bool) {
    var all := if around.markRaises then 1 else 3;
    && |own| <= all && (|own| == all || died)
    && (|own| >= 1 ==> own[0] == if around.markRaises then Raise(w) else MarkRunning(w))
    && (|own| >= 2 ==> WritesOutcomeOf(own[1], w, outcome))
    && (|own| == 3 ==> own[2] == if around.unlockRaises then UnlockFails(w) else Unlock(w))
  }

  predicate WritesOutcomeOf(step: Step, w: WorkerId, outcome: HandlerOutcome) {
    match outcome
    case Returned(result) => step == SuccessWrite(w, result)
    case Raised(error) =>
      step == RetryWrite(w, error) || (step.DeadLetterTxn? && step.w == w && step.error == error)
    case Escaped => step == Raise(w)
  }

  /** One execution, with all that happens meanwhile, is a run of the protocol in which w takes exactly
      its own three steps, or the first of them until its process dies. */
  lemma ExecutedIsRun(s: State, w: WorkerId, outcome: HandlerOutcome, around: Around) returns (steps: seq<Step>)
    requires Inv(s) && CanMarkRunning(s, w)
    ensures var t := Executed(s, w, outcome, around);
            && Runs(s, steps, t) && w in t.workers
            && OneOutcome(Own(steps, w), w, outcome, around, t.workers[w].proc in t.crashed)
  {
    OwnBeside(s, w, around.beforeMark);
    var marking := Meanwhile(s, w, around.beforeMark);
    var before := TakenBeside(s, w, around.beforeMark);
    if marking.workers[w].pc.Stopped? {
      steps := before;
    } else if around.markRaises {
      steps := Then(s, before, marking, Raise(w), [], DoRaise(marking, w), w);
    } else {
      var rest, last := FromMark(s, w, outcome, around);
      steps := Then(s, before, marking, MarkRunning(w), rest, last, w);
    }
  }

  /** The part after the job is marked running. */
  lemma FromMark(s: State, w: WorkerId, outcome: HandlerOutcome, around: Around) returns (rest: seq<Step>, last: State)
    requires Inv(s) && CanMarkRunning(s, w) && !around.markRaises
    requires CanMarkRunning(Meanwhile(s, w, around.beforeMark), w)
    ensures last == Executed(s, w, outcome, around) && w in last.workers
    ensures Runs(DoMarkRunning(Meanwhile(s, w, around.beforeMark), w), rest, last)
    ensures OneOutcome([MarkRunning(w)] + Own(rest, w), w, outcome, around, last.workers[w].proc in last.crashed)
  {
    var decided := AtOutcome(s, w, around);
    var between := OthersBeforeOutcome(s, w, around);
    if decided.workers[w].pc.Stopped? {
      assert AtUnlock(s, w, outcome, around) == decided;
      rest, last := between, decided;
    } else {
      var step, later;
      step, later, last := FromOutcome(s, w, outcome, around);
      rest := Then(DoMarkRunning(Meanwhile(s, w, around.beforeMark), w), between, decided, step, later, last, w);
    }
  }

  lemma OthersBeforeOutcome(s: State, w: WorkerId, around: Around) returns (steps: seq<Step>)
    requires Inv(s) && CanMarkRunning(s, w) && CanMarkRunning(Meanwhile(s, w, around.beforeMark), w)
    ensures Runs(DoMarkRunning(Meanwhile(s, w, around.beforeMark), w), steps, AtOutcome(s, w, around))
    ensures Own(steps, w) == []
  {
    OwnBeside(s, w, around.beforeMark);
    var marking := Meanwhile(s, w, around.beforeMark);
    MarkRunningKeepsInv(marking, w);
    OwnBeside(DoMarkRunning(marking, w), w, around.beforeOutcome);
    steps := TakenBeside(DoMarkRunning(marking, w), w, around.beforeOutcome);
  }

  /** The part after the outcome is written. */
  lemma FromOutcome(s: State, w: WorkerId, outcome: HandlerOutcome, around: Around)
    returns (step: Step, rest: seq<Step>, last: State)
    requires Inv(s) && CanMarkRunning(s, w) && !around.markRaises && CanSuccess(AtOutcome(s, w, around), w)
    ensures var decided := AtOutcome(s, w, around);
            step == OutcomeStep(decided, w, outcome) && Runs(Apply(decided, step), rest, last)
    ensures last == Executed(s, w, outcome, around) && w in last.workers
    ensures || Own(rest, w) == [if around.unlockRaises then UnlockFails(w) else Unlock(w)]
            || (Own(rest, w) == [] && last.workers[w].proc in last.crashed)
  {
    var decided := AtOutcome(s, w, around);
    step := OutcomeStep(decided, w, outcome);
    OutcomeKeeps(decided, w, outcome);
    var written := Apply(decided, step);
    OwnBeside(written, w, around.beforeUnlock);
    var unlocking := AtUnlock(s, w, outcome, around);
    var others := TakenBeside(written, w, around.beforeUnlock);
    if unlocking.workers[w].pc.Stopped? {
      rest, last := others, unlocking;
    } else {
      var unlock := if around.unlockRaises then UnlockFails(w) else Unlock(w);
      last := Apply(unlocking, unlock);
      rest := Then(written, others, unlocking, unlock, [], last, w);
    }
  }

  /** Steps of others, a step of w, and the rest. */
  lemma Then(s: State, others: seq<Step>, t: State, step: Step, rest: seq<Step>, u: State, w: WorkerId)
    returns (steps: seq<Step>)
    requires Runs(s, others, t) && Own(others, w) == []
    requires Enabled(t, step) && Runs(Apply(t, step), rest, u)
    requires OfCoroutine(step, w)
    ensures Runs(s, steps, u) && Own(steps, w) == [step] + Own(rest, w)
  {
    steps := others + ([step] + rest);
    assert ([step] + rest)[1..] == rest;
    RunsConcat(s, others, t, [step] + rest, u);
    OwnConcat(others, [step] + rest, w);
  }

  /** With nobody else around and time passing in the handler, a successful execution changes its
      row, gives its lock back, and frees its worker. */
  lemma AloneEffect(s: State, w: WorkerId, result: Json, took: nat)
    requires Inv(s) && CanMarkRunning(s, w) && s.workers[w].pc.exec.id in s.jobs
    ensures var end := s.clock + took;
            Executed(s, w, Returned(result), Around([], [Tick(end)], [], false, false)) ==
            DoUnlock(DoSuccess(DoTick(DoMarkRunning(s, w), end), w, result), w)
  {
    AloneAtUnlock(s, w, result, took);
  }

  lemma AloneAtUnlock(s: State, w: WorkerId, result: Json, took: nat)
    requires Inv(s) && CanMarkRunning(s, w)
    ensures var end := s.clock + took;
            AtUnlock(s, w, Returned(result), Around([], [Tick(end)], [], false, false)) ==
            DoSuccess(DoTick(DoMarkRunning(s, w), end), w, result)
  {
    var running, tick := DoMarkRunning(s, w), Tick(s.clock + took);
    assert [tick][1..] == [] && MayHappen(running, w, tick);
    assert Meanwhile(running, w, [tick]) == DoTick(running, s.clock + took);
  }

  lemma AloneState(s: State, w: WorkerId, result: Json, took: nat)
    requires Inv(s) && CanMarkRunning(s, w) && s.workers[w].pc.exec.id in s.jobs
    ensures var id, end := s.workers[w].pc.exec.id, s.clock + took;
            var t := Executed(s, w, Returned(result), Around([], [Tick(end)], [], false, false));
            && t.jobs == s.jobs[id := DoneRow(RunningRow(s.jobs[id], s.clock), result, w, end)]
            && t.workers == s.workers[w := s.workers[w].(pc := AtLoopTop)]
            && (forall key | key in t.locks :: key in s.locks && t.locks[key].holder == s.locks[key].holder)
            && t.clock == end && t.dead == s.dead && t.down == s.down
  {
    AloneEffect(s, w, result, took);
    AloneFields(s, w, result, s.clock + took);
  }

  lemma AloneFields(s: State, w: WorkerId, result: Json, end: Time)
    requires CanMarkRunning(s, w) && s.workers[w].pc.exec.id in s.jobs
    ensures var id := s.workers[w].pc.exec.id;
            var t := DoUnlock(DoSuccess(DoTick(DoMarkRunning(s, w), end), w, result), w);
            && t.jobs == s.jobs[id := DoneRow(RunningRow(s.jobs[id], s.clock), result, w, end)]
            && t.workers == s.workers[w := s.workers[w].(pc := AtLoopTop)]
            && (forall key | key in t.locks :: key in s.locks && t.locks[key].holder == s.locks[key].holder)
            && t.clock == end && t.dead == s.dead && t.down == s.down
  {
  }

  // ----- Claims -----

  /** Taking locks, that of an eligible row among them, and claiming the row are two enabled steps. */
  lemma ClaimIsRun(s: State, w: WorkerId, id: JobId, keys: multiset<JobId>)
    requires Inv(s) && CanTakeLocks(s, w, keys) && id in keys && id in Eligible(s.jobs, s.locks, w, s.clock)
    ensures var locked := DoTakeLocks(s, w, keys);
            && CanClaim(locked, w, id, s.clock)
            && var t := DoClaim(locked, w, id, s.clock);
            Inv(t) && Runs(s, [TakeLocks(w, keys), Claim(w, id, s.clock)], t)
  {
    var locked := DoTakeLocks(s, w, keys);
    TakeLocksKeepsInv(s, w, keys);
    ClaimKeepsInv(locked, w, id, s.clock);
    OneStep(locked, Claim(w, id, s.clock), DoClaim(locked, w, id, s.clock));
    assert [TakeLocks(w, keys), Claim(w, id, s.clock)][1..] == [Claim(w, id, s.clock)];
  }

  /** A complete scan leaves no stale row. */
  lemma NothingStale(s: State)
    ensures StaleIds(DoReap(s, StaleIds(s))) == {}
  {
    var t := DoReap(s, StaleIds(s));
    forall id | id in t.jobs ensures !StaleRow(t.jobs[id], t.clock) {
      assert id in StaleIds(s) <==> StaleRow(s.jobs[id], s.clock);
    }
  }

  /** Which rows a complete scan resets, and to what. */
  lemma ReapColumns(s: State)
    ensures forall id | id in s.jobs ::
              var row := s.jobs[id];
              id in DoReap(s, StaleIds(s)).jobs
              && DoReap(s, StaleIds(s)).jobs[id] ==
                 if (row.status == Claimed || row.status == Running)
                    && row.heartbeatAt.Some? && s.clock > row.heartbeatAt.value + 30_000_000
                 then row.(status := Pending, claimedAt := None, workerId := None, heartbeatAt := None)
                 else row
  {
    assert forall id | id in s.jobs :: id in StaleIds(s) <==> StaleRow(s.jobs[id], s.clock);
  }

  // ----- Draining the queue -----

  /** The row of a job claimed at `from` whose success was written at `to`. */
  function Finished(row: Job, result: Json, w: WorkerId, from: Time, to: Time): Job {
    DoneRow(RunningRow(ClaimedRow(row, w, from), from), result, w, to)
  }

  function PendingIds(jobs: map<JobId, Job>): set<JobId> {
    set id | id in jobs && jobs[id].status == Pending
  }

  function DueIds(jobs: map<JobId, Job>, now: Time): set<JobId> {
    set id | id in jobs && Due(jobs[id], now)
  }

  /** Distinct jobs, by priority descending and run_at ascending. */
  predicate Ordered(jobs: map<JobId, Job>, order: seq<JobId>) {
    && (forall i | 0 <= i < |order| :: order[i] in jobs)
    && forall i, j | 0 <= i < j < |order| ::
         && order[i] != order[j]
         && jobs[order[i]].priority >= jobs[order[j]].priority
         && (jobs[order[i]].priority == jobs[order[j]].priority ==> jobs[order[i]].runAt <= jobs[order[j]].runAt)
  }

  /** When each execution began and ended: one after the other. */
  predicate InTurn(spans: seq<(Time, Time)>, begin: Time, end: Time) {
    && (forall i | 0 <= i < |spans| :: begin <= spans[i].0 <= spans[i].1 <= end)
    && forall i, j | 0 <= i < j < |spans| :: spans[i].1 <= spans[j].0
  }

  /** No job is claimed before another that was due at that moment and comes first. */
  ghost predicate Greedy(start: map<JobId, Job>, order: seq<JobId>, spans: seq<(Time, Time)>) {
    forall i, j | 0 <= i < j < |order| && i < |spans| && order[i] in start && order[j] in start ::
      && order[i] != order[j]
      && (Due(start[order[j]], spans[i].0) ==> Before(start[order[i]], start[order[j]]))
  }

  /** The same for the jobs that are left. */
  ghost predicate NoneBefore(start: map<JobId, Job>, jobs: map<JobId, Job>, order: seq<JobId>,
                             spans: seq<(Time, Time)>) {
    forall i, j | 0 <= i < |order| && i < |spans| && order[i] in start && j in jobs && j in start
                  && Due(jobs[j], spans[i].0) :: Before(start[order[i]], start[j])
  }

  /** The jobs in `order` were due and are finished, each in its span. */
  ghost predicate Served(start: map<JobId, Job>, jobs: map<JobId, Job>, order: seq<JobId>,
                         spans: seq<(Time, Time)>, results: JobId -> Json, w: WorkerId) {
    && |spans| == |order|
    && forall i | 0 <= i < |order| ::
         && order[i] in start && order[i] in jobs && Due(start[order[i]], spans[i].0)
         && jobs[order[i]] == Finished(start[order[i]], results(order[i]), w, spans[i].0, spans[i].1)
  }

  ghost predicate Untouched(start: map<JobId, Job>, jobs: map<JobId, Job>, order: seq<JobId>) {
    jobs.Keys == start.Keys && forall id | id in jobs && id !in order :: jobs[id] == start[id]
  }

  /** What a worker alone has done to the queue from `begin` to `end`. */
  ghost predicate Drained(start: map<JobId, Job>, jobs: map<JobId, Job>, order: seq<JobId>,
                          spans: seq<(Time, Time)>, results: JobId -> Json, w: WorkerId, begin: Time, end: Time) {
    && Untouched(start, jobs, order) && Served(start, jobs, order, spans, results, w)
    && InTurn(spans, begin, end) && Greedy(start, order, spans) && NoneBefore(start, jobs, order, spans)
  }

  lemma ServedStep(start: map<JobId, Job>, jobs: map<JobId, Job>, order: seq<JobId>, spans: seq<(Time, Time)>,
                   results: JobId -> Json, w: WorkerId, id: JobId, now: Time, later: Time)
    requires Untouched(start, jobs, order) && Served(start, jobs, order, spans, results, w)
    requires id in start && id !in order && Due(start[id], now)
    ensures var row := Finished(start[id], results(id), w, now, later);
            && Untouched(start, jobs[id := row], order + [id])
            && Served(start, jobs[id := row], order + [id], spans + [(now, later)], results, w)
  {
    var order' := order + [id];
    assert forall k | k in order :: k in order';
    assert id == order'[|order|];
  }

  lemma GreedyStep(start: map<JobId, Job>, jobs: map<JobId, Job>, order: seq<JobId>, spans: seq<(Time, Time)>,
                   id: JobId, span: (Time, Time))
    requires Greedy(start, order, spans) && NoneBefore(start, jobs, order, spans) && |order| == |spans|
    requires id in start && id !in order && id in jobs && jobs[id] == start[id]
    ensures Greedy(start, order + [id], spans + [span])
  {
  }

  lemma NoneBeforeStep(start: map<JobId, Job>, jobs: map<JobId, Job>, order: seq<JobId>, spans: seq<(Time, Time)>,
                       id: JobId, row: Job, now: Time, later: Time)
    requires NoneBefore(start, jobs, order, spans) && Untouched(start, jobs, order) && |order| == |spans|
    requires IsFirst(jobs, DueIds(jobs, now), id) && row.status == Done
    requires forall j | j in jobs && j in order :: jobs[j].status == Done
    ensures NoneBefore(start, jobs[id := row], order + [id], spans + [(now, later)])
  {
    forall j | j in jobs && j != id && Due(jobs[j], now) ensures Before(start[id], start[j]) {
      assert j in DueIds(jobs, now);
    }
  }

  lemma DrainStep(start: map<JobId, Job>, jobs: map<JobId, Job>, order: seq<JobId>, spans: seq<(Time, Time)>,
                  results: JobId -> Json, w: WorkerId, begin: Time, now: Time, id: JobId, later: Time)
    requires Drained(start, jobs, order, spans, results, w, begin, now) && begin <= now <= later
    requires IsFirst(jobs, DueIds(jobs, now), id)
    ensures var row := Finished(jobs[id], results(id), w, now, later);
            && Drained(start, jobs[id := row], order + [id], spans + [(now, later)], results, w, begin, later)
            && PendingIds(jobs[id := row]) < PendingIds(jobs)
  {
    var row := Finished(jobs[id], results(id), w, now, later);
    assert id !in order && jobs[id] == start[id];
    ServedStep(start, jobs, order, spans, results, w, id, now, later);
    GreedyStep(start, jobs, order, spans, id, (now, later));
    NoneBeforeStep(start, jobs, order, spans, id, row, now, later);
    FewerPending(jobs, id, row);
    InTurnStep(spans, begin, now, later);
  }

  lemma InTurnStep(spans: seq<(Time, Time)>, begin: Time, now: Time, later: Time)
    requires InTurn(spans, begin, now) && begin <= now <= later
    ensures InTurn(spans + [(now, later)], begin, later)
  {
  }

  lemma FewerPending(jobs: map<JobId, Job>, id: JobId, row: Job)
    requires id in jobs && jobs[id].status == Pending && row.status == Done
    ensures PendingIds(jobs[id := row]) < PendingIds(jobs)
  {
    assert PendingIds(jobs[id := row]) <= PendingIds(jobs);
    assert id in PendingIds(jobs) && id !in PendingIds(jobs[id := row]);
  }

  /** Nothing is due any more: the claims were exactly the jobs that have become due by then, each once,
      every other row is as before, and in each row stands the result of its one execution. If no
      job became due on the way, the order is by priority and run_at. */
  lemma DrainedAll(start: map<JobId, Job>, jobs: map<JobId, Job>, order: seq<JobId>, spans: seq<(Time, Time)>,
                   results: JobId -> Json, w: WorkerId, begin: Time, end: Time)
    requires Drained(start, jobs, order, spans, results, w, begin, end) && DueIds(jobs, end) == {}
    ensures multiset(order) == multiset(DueIds(start, end))
    ensures forall id | id in start ::
              && id in jobs
              && (if Due(start[id], end) then jobs[id].status == Done && jobs[id].result == Some(results(id))
                  else jobs[id] == start[id])
    ensures DueIds(start, end) == DueIds(start, begin) ==> Ordered(start, order)
  {
    assert forall id | id in DueIds(start, end) && id !in order :: id in DueIds(jobs, end);
    DistinctOnce(order, DueIds(start, end));
    forall id | id in start
      ensures if Due(start[id], end) then jobs[id].status == Done && jobs[id].result == Some(results(id))
              else jobs[id] == start[id]
    {
      if id in order {
        var i :| 0 <= i < |order| && order[i] == id;
        assert Due(start[id], spans[i].0);
      }
    }
    forall i, j | 0 <= i < j < |order| && DueIds(start, end) == DueIds(start, begin)
      ensures Before(start[order[i]], start[order[j]])
    {
      assert order[j] in DueIds(start, end);
      assert order[j] in DueIds(start, begin);
      assert Due(start[order[j]], spans[i].0);
    }
  }

  lemma {:induction false} DistinctOnce(order: seq<JobId>, ids: set<JobId>)
    requires forall i, j | 0 <= i < j < |order| :: order[i] != order[j]
    requires forall id :: id in order <==> id in ids
    ensures multiset(order) == multiset(ids)
    decreases |order|
  {
    if order == [] {
      assert ids == {};
    } else {
      var n := |order| - 1;
      var x := order[n];
      assert order == order[..n] + [x];
      assert forall id | id in order[..n] :: id != x;
      DistinctOnce(order[..n], ids - {x});
      assert multiset(order) == multiset(order[..n]) + multiset{x};
      assert multiset(ids) == multiset(ids - {x}) + multiset{x};
    }
  }

  lemma OnlyNewId(s: State, step: Step)
    requires Enabled(s, step)
    ensures Apply(s, step).hist.Keys <= s.hist.Keys + (if step.Enqueue? then {step.job} else {})
  {
    forall id | id in Apply(s, step).hist && id !in s.hist ensures step.Enqueue? && id == step.job {
      if !step.Enqueue? { NoNewHistory(s, step, id); }
    }
  }

  /** The rows that a heartbeat changes: at most one, the job of this worker. */
  lemma OneBeaten(s: State, w: WorkerId, rows: set<JobId>)
    requires Inv(s) && w in s.workers && rows == set id | id in s.jobs && BeatsFor(s.jobs[id], w)
    ensures |rows| <= 1 && (|rows| == 1 <==> exists id :: id in s.jobs && BeatsFor(s.jobs[id], w))
    ensures forall id | id in rows :: rows == {id} && (Executes(s, w, id) || LeftBehind(s.workers[w].pc) == Some(id))
  {
    assert forall id :: id in rows <==> id in s.jobs && BeatsFor(s.jobs[id], w);
    forall id | id in rows ensures rows == {id} && w in s.workers
      && (Executes(s, w, id) || LeftBehind(s.workers[w].pc) == Some(id))
    {
      OwnershipInv(s, w, id);
      forall j | j in rows ensures j == id { assert Held(s.jobs[j].status); }
    }
    if rows != {} { var id :| id in rows; }
  }

  class Queue {
    const baseDelay: nat
    const poll: nat
    var clock: Time
    var nextId: nat
    var jobs: map<JobId, Job>
    var dead: seq<DeadLetter>
    var locks: map<JobId, Lock>
    var workers: map<WorkerId, Worker>
    var down: set<ProcId>
    var crashed: map<ProcId, Time>
    var hist: map<JobId, History>        // history; no operation depends on it

    function Abs(): State
      reads this
    {
      State(baseDelay, poll, clock, jobs, dead, locks, workers, down, crashed, hist)
    }

    ghost predicate Valid()
      reads this
    {
      Inv(Abs()) && forall id | id in hist :: id < nextId
    }

    constructor (baseDelay: nat, poll: nat, now: Time)
      ensures Valid() && Initial(Abs()) && clock == now
    {
      this.baseDelay, this.poll, this.clock, this.nextId := baseDelay, poll, now, 1;
      jobs, dead, locks, workers, down, crashed := map[], [], map[], map[], {}, map[];
      hist := map[];
      new;
      InitialInv(Abs());
    }

    // ----- api/routes/jobs.py -----

    method CreateJob(req: JobCreate) returns (id: JobId)
      requires Valid() && 1 <= req.priority <= 10 && 0 <= req.maxRetries <= 10
      modifies this`nextId, this`jobs, this`workers, this`hist
      ensures Valid() && id == old(nextId) && CanEnqueue(old(Abs()), id, req)
      ensures Abs() == DoEnqueue(old(Abs()), id, req)
      ensures jobs == old(jobs)[id := Job(
                        req.jtype, Obj(req.payload), Pending, req.priority, 0, req.maxRetries,
                        if req.runAt.Some? then req.runAt.value else clock,
                        None, None, None, None, None, None, clock)]
      ensures workers.Keys == old(workers).Keys
      ensures forall w | w in workers :: workers[w] ==
                if old(workers)[w].pc.Stopped? then old(workers)[w]
                else old(workers)[w].(inbox := old(workers)[w].inbox + {id})
    {
      id := nextId;
      EnqueueKeepsInv(Abs(), id, req);
      nextId := nextId + 1;
      hist := DoEnqueue(Abs(), id, req).hist;
      jobs := jobs[id := NewRow(req, clock)];
      workers := map w | w in workers :: Notify(workers[w], id);
    }

    method CancelJob(id: JobId) returns (outcome: CancelOutcome)
      requires Valid()
      modifies this`jobs, this`hist
      ensures Valid()
      ensures outcome == NotFound <==> id !in old(jobs)
      ensures forall status :: outcome == Conflict(status) <==>
                id in old(jobs) && old(jobs)[id].status == status && status != Pending
      ensures outcome == Gone <==> id in old(jobs) && old(jobs)[id].status == Pending
      ensures jobs == if outcome == Gone then old(jobs) - {id} else old(jobs)
      ensures Abs() == if outcome == Gone then DoCancel(old(Abs()), id) else old(Abs())
    {
      if id !in jobs {
        return NotFound;
      }
      if jobs[id].status != Pending {
        return Conflict(jobs[id].status);
      }
      CancelKeepsInv(Abs(), id);
      hist := DoCancel(Abs(), id).hist;
      jobs := jobs - {id};
      return Gone;
    }

    // ----- worker/heartbeat.py -----

    /** One UPDATE of heartbeat_loop, and the row count that it logs: at most one, for the running job
        that this worker executes, or left running when its coroutine ended. */
    method Beat(w: WorkerId) returns (count: nat)
      requires Valid() && w in workers && workers[w].proc !in crashed
      modifies this`jobs, this`workers
      ensures Valid() && Abs() == DoBeat(old(Abs()), w)
      ensures count <= 1
      ensures count == 1 <==> exists id :: id in old(jobs) && old(jobs)[id].workerId == Some(w)
                                           && old(jobs)[id].status == Running
      ensures jobs.Keys == old(jobs).Keys
      ensures forall id | id in jobs :: jobs[id] ==
                if old(jobs)[id].workerId == Some(w) && old(jobs)[id].status == Running
                then old(jobs)[id].(heartbeatAt := Some(clock)) else old(jobs)[id]
      ensures forall id | id in jobs && jobs[id] != old(jobs)[id] ::
                count == 1 && (Executes(old(Abs()), w, id) || LeftBehind(old(workers)[w].pc) == Some(id))
    {
      BeatKeepsInv(Abs(), w);
      var rows := set id | id in jobs && BeatsFor(jobs[id], w);
      OneBeaten(Abs(), w, rows);
      count := |rows|;
      jobs := map id | id in jobs :: if BeatsFor(jobs[id], w) then BeatRow(jobs[id], clock) else jobs[id];
      workers := workers[w := workers[w].(lastBeat := clock)];
    }

    /** One UPDATE of stale_reaper_loop; counts the rows it resets. */
    method ReapStale(p: ProcId) returns (count: nat)
      requires Valid() && p !in down && p !in crashed
      modifies this`jobs, this`workers
      ensures Valid() && count == |StaleIds(old(Abs()))|
      ensures Abs() == DoReap(old(Abs()), StaleIds(old(Abs())))
      ensures StaleIds(Abs()) == {}
      ensures jobs.Keys == old(jobs).Keys
      ensures forall id | id in jobs ::
                var row := old(jobs)[id];
                jobs[id] == if (row.status == Claimed || row.status == Running)
                               && row.heartbeatAt.Some? && clock > row.heartbeatAt.value + 30_000_000
                            then row.(status := Pending, claimedAt := None, workerId := None, heartbeatAt := None)
                            else row
    {
      ReapColumns(Abs());
      NothingStale(Abs());
      count := ResetStale(p);
    }

    /** The same, as a step of the protocol. */
    method ResetStale(p: ProcId) returns (count: nat)
      requires Valid() && p !in down && p !in crashed
      modifies this`jobs, this`workers
      ensures Valid() && count == |StaleIds(old(Abs()))|
      ensures Abs() == DoReap(old(Abs()), StaleIds(old(Abs())))
    {
      ReapKeepsInv(Abs(), p, StaleIds(Abs()), clock);
      var rows := set id | id in jobs && StaleRow(jobs[id], clock);
      assert rows == StaleIds(Abs());
      count := |rows|;
      jobs := map id | id in jobs :: if id in rows then ResetRow(jobs[id]) else jobs[id];
      workers := map w | w in workers :: NoteReset(workers[w], rows);
    }

    // ----- worker/worker.py -----

    /** run_worker up to its loop: the event, the two connections, the listener. */
    method StartWorker(w: WorkerId, p: ProcId)
      requires Valid() && w !in workers && p !in crashed
      modifies this`workers
      ensures Valid() && Abs() == DoStart(old(Abs()), w, p)
      ensures workers == old(workers)[w := Worker(p, AtLoopTop, true, false, {}, {}, clock, 0)]
    {
      StartWorkerKeepsInv(Abs(), w, p);
      workers := workers[w := Worker(p, AtLoopTop, true, false, {}, {}, clock, 0)];
    }

    /** The notification callback: a worker that waits can wake up, whatever its timeout is. */
    method OnNotify(w: WorkerId, id: JobId)
      requires Valid() && w in workers && id in workers[w].inbox
      modifies this`workers
      ensures Valid() && Abs() == DoDeliver(old(Abs()), w, id)
      ensures workers[w].pc.Waiting? ==> CanWakeUp(Abs(), w)
      ensures workers == old(workers)[w := old(workers)[w].(inbox := old(workers)[w].inbox - {id}, event := true)]
    {
      DeliverKeepsInv(Abs(), w, id);
      workers := workers[w := workers[w].(inbox := workers[w].inbox - {id}, event := true)];
    }

    /** The wait of run_worker: it ends when the event is set or the timeout is over, and clears the
        event. A worker that stays blocked has scanned after every insert it was told of. */
    method EndWait(w: WorkerId) returns (woken: bool)
      requires Valid() && w in workers && workers[w].pc.Waiting?
      modifies this`workers
      ensures Valid() && Abs() == if woken then DoWakeUp(old(Abs()), w) else old(Abs())
      ensures woken <==> old(workers)[w].event || old(workers)[w].pc.until <= clock
      ensures workers == if woken then old(workers)[w := old(workers)[w].(pc := AtLoopTop, event := false)]
                         else old(workers)
      ensures !woken ==> clock < workers[w].pc.until
                         && forall id | id in hist && id !in workers[w].inbox :: id in workers[w].scanned
    {
      assert WorkerInv(Abs(), w);
      woken := workers[w].event || workers[w].pc.until <= clock;
      if woken {
        WakeUpKeepsInv(Abs(), w);
        workers := workers[w := workers[w].(pc := AtLoopTop, event := false)];
      }
    }

    /** wait_for(notify_event.wait(), POLL_INTERVAL), with all that others do meanwhile. The worker stays blocked
        only if it has scanned after every insert that it was told of. */
    method WaitForJob(w: WorkerId, meanwhile: seq<Step>) returns (woken: bool)
      requires Valid() && w in workers && workers[w].pc.Waiting?
      modifies this
      ensures Valid() && w in workers
      ensures woken ==> CanLoopCheck(Abs(), w)
      ensures !woken ==>
                || workers[w].pc.Stopped?
                || (&& workers[w].pc == old(workers)[w].pc && clock < workers[w].pc.until
                    && forall id | id in hist && id !in workers[w].inbox :: id in workers[w].scanned)
    {
      OwnBeside(Abs(), w, meanwhile);
      Await(w, meanwhile);
      woken := false;
      if !workers[w].pc.Stopped? {
        woken := EndWait(w);
      }
    }

    /** The `finally` of run_worker: closing the claim connection frees its advisory locks. */
    method CloseSession(w: WorkerId)
      requires Valid() && w in workers && workers[w].pc.Stopped? && workers[w].sessionOpen
      modifies this`locks, this`workers
      ensures Valid() && Abs() == DoClose(old(Abs()), w)
      ensures forall key :: key in locks <==> key in old(locks) && old(locks)[key].holder != w
      ensures forall key | key in locks :: locks[key] == old(locks)[key]
      ensures workers == old(workers)[w := old(workers)[w].(sessionOpen := false)]
    {
      CloseSessionKeepsInv(Abs(), w);
      locks := ReleaseAll(locks, w);
      workers := workers[w := workers[w].(sessionOpen := false)];
    }

    /** _try_claim with nobody else in between. Besides the lock of the row that it claims, the SELECT may
        take any others it can get, and keeps them when it returns no row. */
    method TryClaim(w: WorkerId, surplus: multiset<JobId>) returns (job: Option<Exec>)
      requires Valid() && w in workers && workers[w].pc.Scanning?
      requires forall k | k in surplus && k in locks :: locks[k].holder == w
      modifies this`jobs, this`locks, this`workers, this`hist
      ensures Valid() && w in workers && workers[w].proc == old(workers)[w].proc
      ensures job == None <==>
                !exists id :: id in old(jobs) && old(jobs)[id].status == Pending && old(jobs)[id].runAt <= clock
                              && (id in old(locks) ==> old(locks)[id].holder == w)
      ensures job == None ==> jobs == old(jobs) && workers[w].pc == Waiting(clock + poll)
      ensures job.Some? ==>
                var id := job.value.id;
                && id in old(jobs) && old(jobs)[id].status == Pending && old(jobs)[id].runAt <= clock
                && (id in old(locks) ==> old(locks)[id].holder == w)
                && jobs == old(jobs)[id := old(jobs)[id].(status := Claimed, claimedAt := Some(clock),
                                                          workerId := Some(w))]
                && job.value == Exec(id, old(jobs)[id], clock, false) && workers[w].pc == Took(job.value)
      ensures job.Some? ==>
                forall j | j in old(jobs) && old(jobs)[j].status == Pending && old(jobs)[j].runAt <= clock
                           && (j in old(locks) ==> old(locks)[j].holder == w) ::
                  var first, other := old(jobs)[job.value.id], old(jobs)[j];
                  || first.priority > other.priority
                  || (first.priority == other.priority && first.runAt <= other.runAt)
      ensures LocksTaken(old(locks), locks, w, surplus + (if job.Some? then multiset{job.value.id} else multiset{}))
    {
      job := SelectAndClaim(w, surplus);
      FirstMeans(old(jobs), old(locks), w, clock, if job.Some? then Some(job.value.id) else None);
    }

    /** The transaction of _try_claim, as steps of the protocol. */
    method SelectAndClaim(w: WorkerId, surplus: multiset<JobId>) returns (job: Option<Exec>)
      requires Valid() && CanTakeLocks(Abs(), w, surplus)
      modifies this`jobs, this`locks, this`workers, this`hist
      ensures Valid() && w in workers && workers.Keys == old(workers).Keys && workers[w].proc == old(workers)[w].proc
      ensures job == None <==> Eligible(old(jobs), old(locks), w, clock) == {}
      ensures job == None ==>
                && jobs == old(jobs) && workers[w].pc == Waiting(clock + poll)
                && LocksTaken(old(locks), locks, w, surplus)
                && Abs() == DoScanEmpty(DoTakeLocks(old(Abs()), w, surplus), w)
      ensures job.Some? ==>
                var id := job.value.id;
                && IsFirst(old(jobs), Eligible(old(jobs), old(locks), w, clock), id)
                && job.value == Exec(id, old(jobs)[id], clock, false)
                && jobs == old(jobs)[id := old(jobs)[id].(status := Claimed, claimedAt := Some(clock),
                                                          workerId := Some(w))]
                && workers[w].pc == Took(job.value) && LocksTaken(old(locks), locks, w, surplus + multiset{id})
                && Abs() == DoClaim(DoTakeLocks(old(Abs()), w, surplus + multiset{id}), w, id, clock)
    {
      var rows := Eligible(jobs, locks, w, clock);
      if rows == {} {
        FindNone(w, surplus);
        return None;
      }
      FirstExists(jobs, rows);
      var id :| id in rows && IsFirst(jobs, rows, id);
      var e := LockAndClaim(w, id, surplus + multiset{id});
      return Some(e);
    }

    /** A SELECT that returns no row: the locks that it got stay, and the worker waits for POLL_INTERVAL. */
    method FindNone(w: WorkerId, surplus: multiset<JobId>)
      requires Valid() && CanTakeLocks(Abs(), w, surplus)
      modifies this`locks, this`workers
      ensures Valid() && Abs() == DoScanEmpty(DoTakeLocks(old(Abs()), w, surplus), w)
      ensures w in workers && workers[w].pc == Waiting(clock + poll) && LocksTaken(old(locks), locks, w, surplus)
    {
      TakeLocksKeepsInv(Abs(), w, surplus);
      ScanEmptyKeepsInv(DoTakeLocks(Abs(), w, surplus), w);
      locks := Acquire(locks, w, surplus);
      workers := workers[w := workers[w].(pc := Waiting(clock + poll))];
      assert workers == DoScanEmpty(DoTakeLocks(old(Abs()), w, surplus), w).workers;
    }

    /** The advisory locks, and the UPDATE to 'claimed' of the row that SELECT returned. */
    method LockAndClaim(w: WorkerId, id: JobId, keys: multiset<JobId>) returns (e: Exec)
      requires Valid() && CanTakeLocks(Abs(), w, keys) && id in keys && id in Eligible(jobs, locks, w, clock)
      modifies this`jobs, this`locks, this`workers, this`hist
      ensures Valid() && e == Exec(id, old(jobs)[id], clock, false)
      ensures Abs() == DoClaim(DoTakeLocks(old(Abs()), w, keys), w, id, clock)
      ensures Runs(old(Abs()), [TakeLocks(w, keys), Claim(w, id, clock)], Abs())
      ensures jobs == old(jobs)[id := old(jobs)[id].(status := Claimed, claimedAt := Some(clock), workerId := Some(w))]
      ensures w in workers && workers[w].pc == Took(e) && LocksTaken(old(locks), locks, w, keys)
    {
      ClaimIsRun(Abs(), w, id, keys);
      TakeLocksKeepsInv(Abs(), w, keys);
      locks := Acquire(locks, w, keys);
      workers := workers[w := workers[w].(pc := Scanning(workers[w].pc.took + KeySet(keys)))];
      e := MarkClaimed(w, id);
    }

    method MarkClaimed(w: WorkerId, id: JobId) returns (e: Exec)
      requires Valid() && CanClaim(Abs(), w, id, clock)
      modifies this`jobs, this`workers, this`hist
      ensures Valid() && e == Exec(id, old(jobs)[id], clock, false) && Abs() == DoClaim(old(Abs()), w, id, clock)
      ensures jobs == old(jobs)[id := old(jobs)[id].(status := Claimed, claimedAt := Some(clock), workerId := Some(w))]
      ensures workers.Keys == old(workers).Keys && workers[w].pc == Took(e)
    {
      ClaimKeepsInv(Abs(), w, id, clock);
      e := Exec(id, jobs[id], clock, false);
      hist := DoClaim(Abs(), w, id, clock).hist;
      jobs := jobs[id := ClaimedRow(jobs[id], w, clock)];
      var late := if workers[w].proc in down then 1 else 0;
      workers := workers[w := workers[w].(pc := Took(e), lateClaims := workers[w].lateClaims + late)];
    }

    /** _handle_failure: dead-letter on the last attempt, otherwise retry with backoff. */
    method HandleFailure(w: WorkerId, error: string)
      requires Valid() && w in workers && workers[w].pc.Executing?
      modifies this`jobs, this`dead, this`workers, this`hist
      ensures Valid()
      ensures Abs() == Apply(old(Abs()), OutcomeStep(old(Abs()), w, Raised(error)))
      ensures var e := old(workers)[w].pc.exec; var last := e.row.attempt + 1 >= e.row.maxRetries;
              && workers == old(workers)[w := old(workers)[w].(pc := Releasing(e.id, false))]
              && dead == old(dead) + (if last then [DeadLetter(e.id, e.row.jtype, e.row.payload, error,
                                                               e.row.attempt + 1, w, clock)] else [])
              && (e.id !in old(jobs) ==> jobs == old(jobs))
              && (e.id in old(jobs) ==>
                    var row := old(jobs)[e.id];
                    jobs == old(jobs)[e.id :=
                      if last then row.(status := Dead, attempt := row.attempt + 1, error := Some(error))
                      else row.(status := Pending, attempt := row.attempt + 1, error := Some(error),
                                runAt := clock + Pow2(row.attempt) * baseDelay, workerId := None)])
    {
      var e := workers[w].pc.exec;
      assert WorkerInv(Abs(), w) && JobInv(Abs(), e.id);
      if e.row.attempt + 1 >= e.row.maxRetries {
        Bury(w, error);
      } else {
        Reschedule(w, error);
      }
    }

    method Bury(w: WorkerId, error: string)
      requires Valid() && CanDeadLetter(Abs(), w, clock)
      modifies this`jobs, this`dead, this`workers, this`hist
      ensures Valid() && Abs() == DoDeadLetter(old(Abs()), w, error, clock)
    {
      var e := workers[w].pc.exec;
      DeadLetterKeepsInv(Abs(), w, error, clock);
      hist := RecordLetter(Abs(), w, LetterFor(e, w, error, clock)).hist;
      dead := dead + [DeadLetter(e.id, e.row.jtype, PayloadDict(e.row.payload), error, e.row.attempt + 1, w, clock)];
      if e.id in jobs {
        jobs := jobs[e.id := DeadRow(jobs[e.id], error)];
      }
      workers := workers[w := workers[w].(pc := Releasing(e.id, false))];
    }

    method Reschedule(w: WorkerId, error: string)
      requires Valid() && CanRetry(Abs(), w)
      modifies this`jobs, this`workers
      ensures Valid() && Abs() == DoRetry(old(Abs()), w, error)
    {
      var e := workers[w].pc.exec;
      RetryKeepsInv(Abs(), w, error);
      if e.id in jobs {
        jobs := jobs[e.id := RetriedRow(jobs[e.id], error, clock, Backoff(baseDelay, e.row.attempt))];
      }
      workers := workers[w := workers[w].(pc := Releasing(e.id, false))];
    }

    /** The UPDATE to 'running'. */
    method MarkRunning(w: WorkerId)
      requires Valid() && w in workers && workers[w].pc.Took?
      modifies this`jobs, this`workers
      ensures Valid() && Abs() == DoMarkRunning(old(Abs()), w)
      ensures var e := old(workers)[w].pc.exec;
              && workers == old(workers)[w := old(workers)[w].(pc := Executing(e))]
              && jobs == if e.id !in old(jobs) then old(jobs)
                         else old(jobs)[e.id := old(jobs)[e.id].(status := Running, heartbeatAt := Some(clock))]
    {
      var e := workers[w].pc.exec;
      MarkRunningKeepsInv(Abs(), w);
      if e.id in jobs {
        jobs := jobs[e.id := RunningRow(jobs[e.id], clock)];
      }
      workers := workers[w := workers[w].(pc := Executing(e))];
    }

    /** The UPDATE to 'done'. */
    method HandleSuccess(w: WorkerId, result: Json)
      requires Valid() && w in workers && workers[w].pc.Executing?
      modifies this`jobs, this`workers
      ensures Valid() && Abs() == DoSuccess(old(Abs()), w, result)
      ensures var e := old(workers)[w].pc.exec;
              && workers == old(workers)[w := old(workers)[w].(pc := Releasing(e.id, false))]
              && jobs == if e.id !in old(jobs) then old(jobs)
                         else old(jobs)[e.id := old(jobs)[e.id].(
                                status := Done, result := Some(result), completedAt := Some(clock),
                                workerId := Some(w), heartbeatAt := None, attempt := old(jobs)[e.id].attempt + 1)]
    {
      var e := workers[w].pc.exec;
      SuccessKeepsInv(Abs(), w, result);
      if e.id in jobs {
        jobs := jobs[e.id := DoneRow(jobs[e.id], result, w, clock)];
      }
      workers := workers[w := workers[w].(pc := Releasing(e.id, false))];
    }

    /** The `finally` of _execute_job; an exception of the unlock is dropped. */
    method ReleaseLock(w: WorkerId, raises: bool)
      requires Valid() && w in workers && workers[w].pc.Releasing?
      modifies this`locks, this`workers
      ensures Valid() && Abs() == if raises then DoUnlockFails(old(Abs()), w) else DoUnlock(old(Abs()), w)
      ensures var id := old(workers)[w].pc.id;
              && id in old(locks) && old(locks)[id].holder == w
              && locks == (if raises then old(locks)
                           else if old(locks)[id].count <= 1 then old(locks) - {id}
                           else old(locks)[id := Lock(w, old(locks)[id].count - 1)])
      ensures workers == old(workers)[w := old(workers)[w].(
                pc := if old(workers)[w].pc.raised then Stopped(Some(old(workers)[w].pc.id)) else AtLoopTop)]
    {
      assert WorkerInv(Abs(), w) && LockInv(Abs(), workers[w].pc.id);
      UnlockKeepsInv(Abs(), w);
      if !raises {
        locks := Release(locks, w, workers[w].pc.id);
      }
      workers := workers[w := workers[w].(pc := AfterRelease(workers[w].pc))];
    }

    /** An exception that leaves the current statement of run_worker or _execute_job. */
    method Escape(w: WorkerId)
      requires Valid() && w in workers && Busy(workers[w].pc)
      modifies this`workers, this`hist
      ensures Valid() && Abs() == DoRaise(old(Abs()), w)
      ensures var pc := old(workers)[w].pc;
              workers == old(workers)[w := old(workers)[w].(
                pc := if pc.Executing? then Releasing(pc.exec.id, true) else Stopped(Some(pc.exec.id)))]
    {
      RaiseKeepsInv(Abs(), w);
      var id := workers[w].pc.exec.id;
      hist := DoRaise(Abs(), w).hist;
      workers := workers[w := workers[w].(pc := if workers[w].pc.Executing? then Releasing(id, true)
                                                else Stopped(Some(id)))];
    }

    /** All others go on while w awaits a statement. */
    method Await(w: WorkerId, steps: seq<Step>)
      requires Valid() && w in workers
      modifies this
      ensures Valid() && Abs() == Meanwhile(old(Abs()), w, steps)
    {
      for i := 0 to |steps|
        invariant Valid() && w in workers
        invariant Meanwhile(old(Abs()), w, steps) == Meanwhile(Abs(), w, steps[i..])
      {
        assert steps[i..][1..] == steps[i + 1..];
        if MayHappen(Abs(), w, steps[i]) {
          StepBeside(Abs(), steps[i], w);
          Happen(steps[i]);
        }
      }
    }

    method Happen(step: Step)
      requires Valid() && Enabled(Abs(), step)
      modifies this
      ensures Valid() && Abs() == Apply(old(Abs()), step)
    {
      StepKeepsInv(Abs(), step);
      FrameOfStep(Abs(), step);
      OnlyNewId(Abs(), step);
      if step.Deliver? {
        OnNotify(step.w, step.job);
        return;
      }
      var t := Apply(Abs(), step);
      if step.Enqueue? && nextId <= step.job {
        nextId := step.job + 1;
      }
      Become(t);
    }

    method Become(t: State)
      requires t.baseDelay == baseDelay && t.poll == poll
      modifies this`clock, this`jobs, this`dead, this`locks, this`workers, this`down, this`crashed
      modifies this`hist
      ensures Abs() == t
    {
      clock, jobs, dead, locks, workers := t.clock, t.jobs, t.dead, t.locks, t.workers;
      down, crashed, hist := t.down, t.crashed, t.hist;
    }

    /** _execute_job, with all that others do meanwhile. When the process dies no further statement is sent. */
    method ExecuteJob(w: WorkerId, outcome: HandlerOutcome, around: Around)
      requires Valid() && w in workers && workers[w].pc.Took?
      modifies this
      ensures Valid() && Abs() == Executed(old(Abs()), w, outcome, around)
      ensures w in workers
      ensures workers[w].pc.Stopped? <==> workers[w].proc in crashed || around.markRaises || outcome.Escaped?
      ensures workers[w].pc.AtLoopTop? ==>
                var at := AtOutcome(old(Abs()), w, around).clock;
                old(clock) <= at <= clock && OutcomeShows(Abs(), w, old(workers)[w].pc.exec, outcome, at)
    {
      ExecutedOutcome(Abs(), w, outcome, around);
      SendStatements(w, outcome, around);
    }

    /** Its statements, one after the other. */
    method SendStatements(w: WorkerId, outcome: HandlerOutcome, around: Around)
      requires Valid() && CanMarkRunning(Abs(), w)
      modifies this
      ensures Valid() && Abs() == Executed(old(Abs()), w, outcome, around)
    {
      ghost var s := Abs();
      OwnBeside(s, w, around.beforeMark);
      if around.markRaises {
        Await(w, around.beforeMark);
        if !workers[w].pc.Stopped? {
          Escape(w);
        }
        return;
      }
      MarkAndHandle(w, around);
      Conclude(s, w, outcome, around);
      if !workers[w].pc.Stopped? {
        ReleaseLock(w, around.unlockRaises);
      }
    }

    /** The UPDATE to 'running', and the handler. */
    method MarkAndHandle(w: WorkerId, around: Around)
      requires Valid() && CanMarkRunning(Abs(), w)
      modifies this
      ensures Valid() && Abs() == AtOutcome(old(Abs()), w, around)
    {
      OwnBeside(Abs(), w, around.beforeMark);
      Await(w, around.beforeMark);
      if !workers[w].pc.Stopped? {
        MarkRunning(w);
        OwnBeside(Abs(), w, around.beforeOutcome);
        Await(w, around.beforeOutcome);
      }
    }

    /** The outcome write, and what others do before the unlock. */
    method Conclude(ghost s: State, w: WorkerId, outcome: HandlerOutcome, around: Around)
      requires Valid() && Inv(s) && CanMarkRunning(s, w) && Abs() == AtOutcome(s, w, around)
      modifies this
      ensures Valid() && Abs() == AtUnlock(s, w, outcome, around)
    {
      if !workers[w].pc.Stopped? {
        WriteOutcome(w, outcome);
        Await(w, around.beforeUnlock);
      }
    }

    /** The `try` of _execute_job. */
    method WriteOutcome(w: WorkerId, outcome: HandlerOutcome)
      requires Valid() && CanSuccess(Abs(), w)
      modifies this`jobs, this`dead, this`workers, this`hist
      ensures Valid() && w in workers && Abs() == Apply(old(Abs()), OutcomeStep(old(Abs()), w, outcome))
    {
      match outcome {
        case Returned(result) => HandleSuccess(w, result);
        case Raised(error) => HandleFailure(w, error);
        case Escaped => Escape(w);
      }
    }

    /** Every advisory lock belongs to w. */
    predicate LocksOf(w: WorkerId)
      reads this
    {
      forall key | key in locks :: locks[key].holder == w
    }

    /** w is at the top of its loop, in a process that is not shut down, and no other session holds a lock. */
    ghost predicate Ready(w: WorkerId)
      reads this
    {
      Valid() && w in workers && workers[w].pc.AtLoopTop? && workers[w].proc !in down && LocksOf(w)
    }

    /** One round of run_worker's loop, alone on the queue and with a handler that succeeds after
        `took`: executes the first due job, or finds none. */
    method RunOnce(w: WorkerId, surplus: multiset<JobId>, results: JobId -> Json, took: nat)
      returns (job: Option<JobId>)
      requires Ready(w)
      modifies this
      ensures Valid() && LocksOf(w) && dead == old(dead) && w in workers
      ensures job == None <==> DueIds(old(jobs), old(clock)) == {}
      ensures job == None ==> jobs == old(jobs) && clock == old(clock) && workers[w].pc.Waiting?
      ensures job.Some? ==>
                && Ready(w) && clock == old(clock) + took
                && IsFirst(old(jobs), DueIds(old(jobs), old(clock)), job.value)
                && jobs == old(jobs)[job.value := Finished(old(jobs)[job.value], results(job.value), w,
                                                           old(clock), clock)]
    {
      LoopCheck(w);
      assert Eligible(jobs, locks, w, clock) == DueIds(jobs, clock);
      var claimed := SelectAndClaim(w, surplus);
      if claimed == None {
        return None;
      }
      var id := claimed.value.id;
      ServeAlone(w, results(id), took);
      return Some(id);
    }

    /** _execute_job with nobody else around and a handler that succeeds after `took`. */
    method ServeAlone(w: WorkerId, result: Json, took: nat)
      requires Valid() && CanMarkRunning(Abs(), w) && workers[w].pc.exec.id in jobs && LocksOf(w)
      modifies this
      ensures Valid() && LocksOf(w) && dead == old(dead) && down == old(down) && clock == old(clock) + took
      ensures workers == old(workers)[w := old(workers)[w].(pc := AtLoopTop)]
      ensures var id := old(workers)[w].pc.exec.id;
              jobs == old(jobs)[id := DoneRow(RunningRow(old(jobs)[id], old(clock)), result, w, clock)]
    {
      AloneState(Abs(), w, result, took);
      ExecuteJob(w, Returned(result), Around([], [Tick(clock + took)], [], false, false));
    }

    /** run_worker, alone on the queue and with handlers that succeed, until nothing is due. In round i the
        SELECT takes the locks surplus(i) besides, and the handler took(i) of time. */
    method Drain(w: WorkerId, surplus: nat -> multiset<JobId>, results: JobId -> Json, took: nat -> nat)
      returns (order: seq<JobId>, spans: seq<(Time, Time)>)
      requires Ready(w)
      modifies this
      ensures Valid() && LocksOf(w) && dead == old(dead) && w in workers && workers[w].pc.Waiting?
      ensures Drained(old(jobs), jobs, order, spans, results, w, old(clock), clock) && DueIds(jobs, clock) == {}
    {
      order, spans := [], [];
      while true
        invariant Ready(w) && dead == old(dead) && old(clock) <= clock
        invariant Drained(old(jobs), jobs, order, spans, results, w, old(clock), clock)
        decreases PendingIds(jobs)
      {
        ghost var before := jobs;
        var from := clock;
        var job := RunOnce(w, surplus(|order|), results, took(|order|));
        if job == None {
          return;
        }
        DrainStep(old(jobs), before, order, spans, results, w, old(clock), from, job.value, clock);
        order, spans := order + [job.value], spans + [(from, clock)];
      }
    }

    /** `while not shutdown_event.is_set()` */
    method LoopCheck(w: WorkerId)
      requires Valid() && w in workers && workers[w].pc.AtLoopTop?
      modifies this`workers
      ensures Valid() && Abs() == DoLoopCheck(old(Abs()), w)
      ensures workers == old(workers)[w :=
                if old(workers)[w].proc in down then old(workers)[w].(pc := Stopped(None))
                else old(workers)[w].(pc := Scanning({}), scanned := hist.Keys)]
    {
      LoopCheckKeepsInv(Abs(), w);
      if workers[w].proc in down {
        workers := workers[w := workers[w].(pc := Stopped(None))];
      } else {
        workers := workers[w := workers[w].(pc := Scanning({}), scanned := hist.Keys)];
      }
    }
  }
}
