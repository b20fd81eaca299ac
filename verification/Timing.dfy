/** Heartbeats, stale rows and reclaim in time. */
module Timing {
  import opened Schema
  import opened Protocol
  import opened Invariant
  import opened Preservation
  import opened PreservationGlobal
  import opened Safety

  /** The latest successful heartbeat statement of w is not older than STALE_THRESHOLD. */
  predicate Timely(s: State, w: WorkerId) {
    w in s.workers && s.clock <= s.workers[w].lastBeat + STALE_THRESHOLD
  }

  // ----- No false reaping -----

  /** Which healthy executions a reaper can reset, exactly: those claimed with an old heartbeat
      that a retry left behind, and only until they are marked running. */
  lemma FalselyStale(s: State, w: WorkerId, id: JobId)
    requires Reachable(s) && Executes(s, w, id) && Timely(s, w) && !s.workers[w].pc.exec.wasReset
    ensures id in StaleIds(s) <==>
              && s.workers[w].pc.Took?
              && s.workers[w].pc.exec.row.heartbeatAt.Some?
              && s.workers[w].pc.exec.row.heartbeatAt.value < s.clock - STALE_THRESHOLD
    ensures id in StaleIds(s) ==> s.jobs[id].attempt > 0
  {
    ReachableInv(s);
    FalselyStaleInv(s, w, id);
    OwnJob(s, w, id);
  }

  lemma FalselyStaleInv(s: State, w: WorkerId, id: JobId)
    requires Inv(s) && Executes(s, w, id) && Timely(s, w) && !s.workers[w].pc.exec.wasReset
    ensures id in StaleIds(s) <==>
              && s.workers[w].pc.Took?
              && s.workers[w].pc.exec.row.heartbeatAt.Some?
              && s.workers[w].pc.exec.row.heartbeatAt.value < s.clock - STALE_THRESHOLD
  {
    OwnJob(s, w, id);
  }

  /** The heartbeats of w are timely in every state of the run. */
  ghost predicate BeatingThroughout(s: State, steps: seq<Step>, w: WorkerId)
    decreases |steps|
  {
    && Timely(s, w)
    && (steps != [] ==> Enabled(s, steps[0]) && BeatingThroughout(Apply(s, steps[0]), steps[1..], w))
  }

  /** A job claimed with no heartbeat is never reset while its worker executes it, whatever the
      interleaving, as long as the worker's heartbeats are timely. */
  lemma {:induction false} NoFalseReaping(s: State, at: Time, steps: seq<Step>, w: WorkerId, id: JobId)
    requires Reachable(s) && CanClaim(s, w, id, at) && s.jobs[id].heartbeatAt == None
    requires var t := DoClaim(s, w, id, at); ExecutesThroughout(t, steps, w, id) && BeatingThroughout(t, steps, w)
    ensures !ResetIn(steps, id)
  {
    ReachableInv(s);
    ClaimKeepsInv(s, w, id, at);
    NoFalseReapingRun(DoClaim(s, w, id, at), steps, w, id);
  }

  lemma {:induction false} NoFalseReapingRun(s: State, steps: seq<Step>, w: WorkerId, id: JobId)
    requires Inv(s) && ExecutesThroughout(s, steps, w, id) && BeatingThroughout(s, steps, w)
    requires !s.workers[w].pc.exec.wasReset && s.workers[w].pc.exec.row.heartbeatAt == None
    ensures !ResetIn(steps, id)
    decreases |steps|
  {
    if steps != [] {
      FalselyStaleInv(s, w, id);
      StaleLater(s, steps[0], id);
      StepKeepsInv(s, steps[0]);
      ExecOfStep(s, steps[0], w, id);
      NoFalseReapingRun(Apply(s, steps[0]), steps[1..], w, id);
      ResetInRest(steps, id);
    }
  }

  /** A row that a reaper resets is stale by the clock, whenever the reaper's statement began. */
  lemma StaleLater(s: State, step: Step, id: JobId)
    requires Enabled(s, step)
    ensures Resets(step, id) ==> id in StaleIds(s)
  {
    if Resets(step, id) { assert id in StaleAt(s, step.at); }
  }

  lemma HealthyCons(s: State, step: Step, rest: seq<Step>, w: WorkerId, id: JobId)
    requires Timely(s, w) && Enabled(s, step) && BeatingThroughout(Apply(s, step), rest, w)
    ensures BeatingThroughout(s, [step] + rest, w)
    ensures Executes(s, w, id) && ExecutesThroughout(Apply(s, step), rest, w, id) ==>
              ExecutesThroughout(s, [step] + rest, w, id)
  {
    assert ([step] + rest)[1..] == rest;
  }

  /** Two timely heartbeats of w age a row that they do not touch, and then a reaper takes it. */
  lemma AgeAndReap(s: State, w: WorkerId, id: JobId, p: ProcId) returns (steps: seq<Step>)
    requires Timely(s, w) && CanBeat(s, w) && p !in s.crashed
    requires id in s.jobs && Held(s.jobs[id].status) && !BeatsFor(s.jobs[id], w)
    requires s.jobs[id].heartbeatAt.Some? && s.jobs[id].heartbeatAt.value <= s.clock
    ensures BeatingThroughout(s, steps, w) && ResetIn(steps, id)
    ensures Executes(s, w, id) ==> ExecutesThroughout(s, steps, w, id)
  {
    var beaten, soon := DoBeat(s, w), s.clock + STALE_THRESHOLD;
    var aged := DoTick(beaten, soon);
    var rest := BeatAndReap(aged, w, id, p);
    HealthyCons(beaten, Tick(soon), rest, w, id);
    HealthyCons(s, Heartbeat(w), [Tick(soon)] + rest, w, id);
    steps := [Heartbeat(w)] + ([Tick(soon)] + rest);
    ResetInRest([Tick(soon)] + rest, id);
    ResetInRest(steps, id);
  }

  lemma BeatAndReap(s: State, w: WorkerId, id: JobId, p: ProcId) returns (steps: seq<Step>)
    requires Timely(s, w) && CanBeat(s, w) && p !in s.crashed
    requires id in s.jobs && Held(s.jobs[id].status) && !BeatsFor(s.jobs[id], w)
    requires s.jobs[id].heartbeatAt.Some? && s.jobs[id].heartbeatAt.value <= s.clock - STALE_THRESHOLD
    ensures BeatingThroughout(s, steps, w) && ResetIn(steps, id)
    ensures Executes(s, w, id) ==> ExecutesThroughout(s, steps, w, id)
  {
    var beaten, now := DoBeat(s, w), s.clock + 1;
    var late := DoTick(beaten, now);
    assert id in StaleAt(late, now);
    var reap := Reap(p, {id}, now);
    assert DoReap(late, {id}).workers[w] == NoteReset(late.workers[w], {id});
    HealthyCons(late, reap, [], w, id);
    HealthyCons(beaten, Tick(now), [reap] + [], w, id);
    HealthyCons(s, Heartbeat(w), [Tick(now)] + ([reap] + []), w, id);
    steps := [Heartbeat(w)] + ([Tick(now)] + ([reap] + []));
    assert Resets(steps[2], id);
  }

  /** Some run resets row id while w executes it with timely heartbeats. */
  ghost predicate HealthyButReset(s: State, w: WorkerId, id: JobId) {
    exists steps :: ExecutesThroughout(s, steps, w, id) && BeatingThroughout(s, steps, w) && ResetIn(steps, id)
  }

  /** The exact condition, at the claim: the healthy execution that begins can be reset by a reaper if
      and only if the claimed row still carries a heartbeat, which a failed attempt left behind. */
  lemma FalseReapingExactly(s: State, w: WorkerId, id: JobId, at: Time, p: ProcId)
    requires Reachable(s) && CanClaim(s, w, id, at) && Timely(s, w)
    requires LoopsGoOn(s, s.workers[w].proc) && LoopsGoOn(s, p)
    ensures HealthyButReset(DoClaim(s, w, id, at), w, id) <==> s.jobs[id].heartbeatAt.Some?
  {
    ReachableInv(s);
    assert WorkerInv(s, w) && id in s.hist && JobInv(s, id);
    var t := DoClaim(s, w, id, at);
    if s.jobs[id].heartbeatAt.Some? {
      var steps := AgeAndReap(t, w, id, p);
    } else if steps :| ExecutesThroughout(t, steps, w, id) && BeatingThroughout(t, steps, w) && ResetIn(steps, id) {
      NoFalseReaping(s, at, steps, w, id);
    }
  }

  // ----- Long jobs during a graceful shutdown -----

  /** w is in the handler of id in every state of the run, in a process that is shutting down. */
  ghost predicate DrainsThroughout(s: State, steps: seq<Step>, w: WorkerId, id: JobId)
    decreases |steps|
  {
    && Executes(s, w, id) && s.workers[w].pc.Executing? && s.workers[w].proc in s.down
    && (steps != [] ==> Enabled(s, steps[0]) && DrainsThroughout(Apply(s, steps[0]), steps[1..], w, id))
  }

  lemma DrainingStep(s: State, step: Step, w: WorkerId, id: JobId)
    requires Inv(s) && Enabled(s, step) && Executes(s, w, id) && s.workers[w].proc in s.down
    requires Executes(Apply(s, step), w, id) && Apply(s, step).workers[w].pc.Executing? && s.workers[w].pc.Executing?
    requires id in s.jobs && s.jobs[id].status == Running && !Resets(step, id) && step != Heartbeat(w)
    ensures id in Apply(s, step).jobs && Apply(s, step).jobs[id] == s.jobs[id]
  {
    OwnJob(s, w, id);
    if Actor(step).Some? && Executes(s, Actor(step).value, id) { ExecutorClaimed(s, Actor(step).value, id); }
    if Actor(step) == Some(w) { OwnDrainingStep(s, step, w, id); } else { UnattendedRow(s, step, id); }
  }

  lemma OwnDrainingStep(s: State, step: Step, w: WorkerId, id: JobId)
    requires Enabled(s, step) && Actor(step) == Some(w) && Executes(s, w, id) && step != Heartbeat(w)
    requires s.workers[w].pc.Executing? && Executes(Apply(s, step), w, id)
    requires id in s.jobs
    ensures Apply(s, step).jobs == s.jobs
  {
  }

  /** The heartbeat loop stops while the job goes on. Once no heartbeat that was sent before the shutdown
      is on its way any more, a job that runs for longer than STALE_THRESHOLD after the last one is
      stale, and a reaper of another process may reset it. */
  lemma {:induction false} DrainingJobGoesStale(s: State, steps: seq<Step>, s': State, w: WorkerId, id: JobId)
    requires Reachable(s) && Runs(s, steps, s') && DrainsThroughout(s, steps, w, id) && !ResetIn(steps, id)
    requires Heartbeat(w) !in steps
    requires id in s.jobs && s.jobs[id].status == Running
    ensures id in s'.jobs && s'.jobs[id] == s.jobs[id] && s.jobs[id].heartbeatAt.Some?
    ensures id in StaleIds(s') <==> s.jobs[id].heartbeatAt.value + STALE_THRESHOLD < s'.clock
  {
    ReachableInv(s);
    assert id in s.hist && JobInv(s, id);
    DrainingRun(s, steps, s', w, id);
  }

  lemma {:induction false} DrainingRun(s: State, steps: seq<Step>, s': State, w: WorkerId, id: JobId)
    requires Inv(s) && Runs(s, steps, s') && DrainsThroughout(s, steps, w, id) && !ResetIn(steps, id)
    requires Heartbeat(w) !in steps
    requires id in s.jobs && s.jobs[id].status == Running
    ensures id in s'.jobs && s'.jobs[id] == s.jobs[id]
    decreases |steps|
  {
    if steps != [] {
      ResetInRest(steps, id);
      DrainingStep(s, steps[0], w, id);
      StepKeepsInv(s, steps[0]);
      DrainingRun(Apply(s, steps[0]), steps[1..], s', w, id);
    }
  }

  // ----- Rows whose worker is gone -----

  /** Nobody executes the held row id any more: its last claimer died, or its coroutine did. */
  predicate Abandoned(s: State, id: JobId) {
    && id in s.jobs && Held(s.jobs[id].status)
    && id in s.hist && s.hist[id].claimer.Some? && s.hist[id].claimer.value in s.workers
    && !Busy(s.workers[s.hist[id].claimer.value].pc)
  }

  lemma UnattendedRow(s: State, step: Step, id: JobId)
    requires Enabled(s, step) && id in s.jobs && Held(s.jobs[id].status)
    requires Actor(step).Some? ==> !Executes(s, Actor(step).value, id)
    requires id in s.hist
    ensures id in Apply(s, step).jobs
    ensures Apply(s, step).jobs[id] ==
            if Resets(step, id) then ResetRow(s.jobs[id])
            else if step.Heartbeat? && BeatsFor(s.jobs[id], step.w) then BeatRow(s.jobs[id], s.clock)
            else s.jobs[id]
  {
    if !TouchesJobs(step) {
      TablesOfStep(s, step);
    } else if WritesRow(step) {
      OtherRowKept(s, step, id);
    }
  }

  /** Only a reaper, and the heartbeat loop of its last claimer, change an abandoned row. */
  lemma AbandonedStep(s: State, step: Step, id: JobId)
    requires Inv(s) && Enabled(s, step) && Abandoned(s, id)
    ensures var s' := Apply(s, step);
            && id in s'.jobs && id in s'.hist && s'.hist[id].claimer == s.hist[id].claimer
            && (if Resets(step, id)
                then s'.jobs[id] == ResetRow(s.jobs[id]) && s.jobs[id].heartbeatAt.Some?
                else && Abandoned(s', id)
                     && s'.jobs[id] == if step.Heartbeat? && BeatsFor(s.jobs[id], step.w)
                                       then BeatRow(s.jobs[id], s.clock) else s.jobs[id])
  {
    assert JobInv(s, id);
    if Actor(step).Some? && Executes(s, Actor(step).value, id) {
      ExecutorClaimed(s, Actor(step).value, id);
    }
    StaleLater(s, step, id);
    UnattendedRow(s, step, id);
    HistoryOfStep(s, step, id);
    GoneStep(s, step, s.hist[id].claimer.value);
  }

  /** The run changes or deletes the row. */
  ghost predicate Changes(s: State, steps: seq<Step>, s': State, id: JobId)
    requires id in s.jobs
  {
    Runs(s, steps, s') && (id !in s'.jobs || s'.jobs[id] != s.jobs[id])
  }

  /** The run puts the row back into the queue. */
  ghost predicate Returns(s: State, steps: seq<Step>, s': State, id: JobId) {
    Runs(s, steps, s') && ResetIn(steps, id)
  }

  /** Among abandoned rows, exactly those without a heartbeat are never put back, nor changed in any
      other way: a job whose worker is gone between its first claim and its first heartbeat is lost. */
  lemma LostExactlyWithoutHeartbeat(s: State, id: JobId, p: ProcId)
    requires Reachable(s) && Abandoned(s, id) && LoopsGoOn(s, p)
    ensures s.jobs[id].heartbeatAt == None ==> s.jobs[id].status == Claimed
    ensures (exists steps, s' :: Returns(s, steps, s', id)) <==> s.jobs[id].heartbeatAt.Some?
    ensures (exists steps, s' :: Changes(s, steps, s', id)) <==> s.jobs[id].heartbeatAt.Some?
  {
    ReachableInv(s);
    assert JobInv(s, id);
    if s.jobs[id].heartbeatAt.Some? {
      var steps, s' := PutBack(s, id, p);
      assert Changes(s, steps, s', id) && Returns(s, steps, s', id);
    } else {
      forall steps, s' | Runs(s, steps, s') ensures !Changes(s, steps, s', id) && !Returns(s, steps, s', id) {
        LostRun(s, steps, s', id);
      }
    }
  }

  /** Waiting long enough and reaping once puts a held row with a heartbeat back. */
  lemma PutBack(s: State, id: JobId, p: ProcId) returns (steps: seq<Step>, s': State)
    requires id in s.jobs && Held(s.jobs[id].status) && s.jobs[id].heartbeatAt.Some?
    requires p !in s.crashed
    ensures Runs(s, steps, s') && ResetIn(steps, id) && id in s'.jobs && s'.jobs[id] == ResetRow(s.jobs[id])
  {
    var due := s.jobs[id].heartbeatAt.value + STALE_THRESHOLD + 1;
    var now := if s.clock <= due then due else s.clock;
    var u := DoTick(s, now);
    assert id in StaleAt(u, now);
    s' := DoReap(u, {id});
    var last := [Reap(p, {id}, now)];
    steps := [Tick(now)] + last;
    assert last[1..] == [] && Runs(s', last[1..], s');
    assert Apply(u, last[0]) == s' && Runs(u, last, s');
    assert steps[1..] == last && Apply(s, steps[0]) == u;
    assert Resets(steps[1], id);
  }

  lemma {:induction false} LostRun(s: State, steps: seq<Step>, s': State, id: JobId)
    requires Inv(s) && Runs(s, steps, s') && Abandoned(s, id) && s.jobs[id].heartbeatAt == None
    ensures id in s'.jobs && s'.jobs[id] == s.jobs[id] && !ResetIn(steps, id)
    decreases |steps|
  {
    if steps != [] {
      assert JobInv(s, id);
      AbandonedStep(s, steps[0], id);
      StepKeepsInv(s, steps[0]);
      LostRun(Apply(s, steps[0]), steps[1..], s', id);
      ResetInRest(steps, id);
    }
  }

  /** Some run resets row id although the heartbeats of w are timely throughout. */
  ghost predicate BeatingButReset(s: State, w: WorkerId, id: JobId) {
    exists steps :: BeatingThroughout(s, steps, w) && ResetIn(steps, id)
  }

  /** The heartbeat loop of a process outlives a worker coroutine. While it is timely, the abandoned row
      of that worker can be reset exactly if it has a heartbeat that the loop does not refresh: a
      running row with the worker's id stays abandoned. */
  lemma ReclaimedExactlyUnlessBeating(s: State, w: WorkerId, id: JobId, p: ProcId)
    requires Reachable(s) && Abandoned(s, id) && s.hist[id].claimer == Some(w)
    requires Timely(s, w) && LoopsGoOn(s, s.workers[w].proc) && LoopsGoOn(s, p)
    ensures BeatingButReset(s, w, id) <==> s.jobs[id].heartbeatAt.Some? && !BeatsFor(s.jobs[id], w)
  {
    ReachableInv(s);
    assert JobInv(s, id);
    if s.jobs[id].heartbeatAt.Some? && !BeatsFor(s.jobs[id], w) {
      var steps := AgeAndReap(s, w, id, p);
    } else if steps :| BeatingThroughout(s, steps, w) && ResetIn(steps, id) {
      BeatingRun(s, steps, w, id);
    }
  }

  lemma {:induction false} BeatingRun(s: State, steps: seq<Step>, w: WorkerId, id: JobId)
    requires Inv(s) && Abandoned(s, id) && s.hist[id].claimer == Some(w) && BeatingThroughout(s, steps, w)
    requires s.jobs[id].heartbeatAt == None || BeatsFor(s.jobs[id], w)
    ensures !ResetIn(steps, id)
    decreases |steps|
  {
    if steps != [] {
      assert JobInv(s, id);
      StaleLater(s, steps[0], id);
      AbandonedStep(s, steps[0], id);
      StepKeepsInv(s, steps[0]);
      BeatingRun(Apply(s, steps[0]), steps[1..], w, id);
      ResetInRest(steps, id);
    }
  }

  // ----- Reclaim after the death of a process -----

  /** The process of the worker that claimed the held row id last died at time t. */
  predicate Orphaned(s: State, id: JobId, t: Time) {
    && id in s.jobs && Held(s.jobs[id].status)
    && id in s.hist && s.hist[id].claimer.Some? && s.hist[id].claimer.value in s.workers
    && var p := s.workers[s.hist[id].claimer.value].proc;
    && p in s.crashed && s.crashed[p] == t
  }

  lemma OrphanIsAbandoned(s: State, id: JobId, t: Time)
    requires Inv(s) && Orphaned(s, id, t)
    ensures Abandoned(s, id)
    ensures forall w | CanBeat(s, w) :: !BeatsFor(s.jobs[id], w)
  {
    assert JobInv(s, id);
    assert WorkerInv(s, s.hist[id].claimer.value);
  }

  /** Only a reaper changes an orphaned row, and then it is pending with no owner. */
  lemma OrphanStep(s: State, step: Step, id: JobId, t: Time)
    requires Inv(s) && Enabled(s, step) && Orphaned(s, id, t)
    ensures var s' := Apply(s, step);
            && id in s'.jobs
            && (if Resets(step, id)
                then s'.jobs[id] == ResetRow(s.jobs[id]) && s.jobs[id].heartbeatAt.Some?
                else s'.jobs[id] == s.jobs[id] && Orphaned(s', id, t))
  {
    OrphanIsAbandoned(s, id, t);
    AbandonedStep(s, step, id);
    OrphanClaimer(s, step, id, t);
  }

  lemma OrphanClaimer(s: State, step: Step, id: JobId, t: Time)
    requires Enabled(s, step) && Orphaned(s, id, t)
    ensures var s' := Apply(s, step); var w := s.hist[id].claimer.value;
            && w in s'.workers && s'.workers[w].proc == s.workers[w].proc
            && s'.workers[w].proc in s'.crashed && s'.crashed[s'.workers[w].proc] == t
  {
    WorkerOfStep(s, step, s.hist[id].claimer.value);
  }

  /** A scan that passes row id over although the row is stale by the scan's NOW(). */
  predicate Misses(s: State, step: Step, id: JobId) {
    step.Reap? && id in StaleAt(s, step.at) && id !in step.rows
  }

  /** No scan misses row id, as long as none has reset it. */
  ghost predicate NoneMisses(s: State, steps: seq<Step>, id: JobId)
    decreases |steps|
  {
    steps != [] ==>
      && Enabled(s, steps[0]) && !Misses(s, steps[0], id)
      && (Resets(steps[0], id) || NoneMisses(Apply(s, steps[0]), steps[1..], id))
  }

  predicate ScanWithin(steps: seq<Step>, x: Time, gap: Time) {
    exists i :: 0 <= i < |steps| && steps[i].Reap? && x < steps[i].at <= x + gap
  }

  /** Some scan begins in every stretch of length `gap` between the two states. */
  ghost predicate ScansApart(s: State, steps: seq<Step>, s': State, gap: Time) {
    forall x :: s.clock <= x && x + gap <= s'.clock ==> ScanWithin(steps, x, gap)
  }

  lemma {:induction false} ScansFindOrphan(s: State, steps: seq<Step>, s': State, id: JobId, t: Time)
    requires Inv(s) && Runs(s, steps, s') && Orphaned(s, id, t) && s.jobs[id].heartbeatAt.Some?
    requires NoneMisses(s, steps, id) && !ResetIn(steps, id)
    ensures forall i | 0 <= i < |steps| && steps[i].Reap? :: steps[i].at <= t + STALE_THRESHOLD
    decreases |steps|
  {
    if steps != [] {
      assert JobInv(s, id);
      ResetInRest(steps, id);
      OrphanStep(s, steps[0], id, t);
      StepKeepsInv(s, steps[0]);
      ScansFindOrphan(Apply(s, steps[0]), steps[1..], s', id, t);
      assert forall i :: 1 <= i < |steps| ==> steps[i] == steps[1..][i - 1];
    }
  }

  /** A job orphaned at time t with a heartbeat, as every running job has, is put back into the queue by
      t + STALE_THRESHOLD + gap, if scans are at most `gap` apart and none misses it. */
  lemma BoundedReclaim(s: State, steps: seq<Step>, s': State, id: JobId, t: Time, gap: Time)
    requires Reachable(s) && Runs(s, steps, s') && Orphaned(s, id, t)
    requires ScansApart(s, steps, s', gap) && NoneMisses(s, steps, id)
    requires s.clock + gap <= s'.clock && t + STALE_THRESHOLD + gap <= s'.clock
    ensures s.jobs[id].status == Running ==> s.jobs[id].heartbeatAt.Some?
    ensures s.jobs[id].heartbeatAt.Some? ==> ResetIn(steps, id)
  {
    ReachableInv(s);
    assert JobInv(s, id);
    var x := if s.clock <= t + STALE_THRESHOLD then t + STALE_THRESHOLD else s.clock;
    assert ScanWithin(steps, x, gap);
    if s.jobs[id].heartbeatAt.Some? && !ResetIn(steps, id) { ScansFindOrphan(s, steps, s', id, t); }
  }

  /** The same law for a dead process, where no heartbeat loop is left: the row stays as it is for ever
      exactly if it has no heartbeat. */
  lemma OrphanLostExactly(s: State, id: JobId, t: Time, p: ProcId)
    requires Reachable(s) && Orphaned(s, id, t) && LoopsGoOn(s, p)
    ensures (exists steps, s' :: Returns(s, steps, s', id)) <==> s.jobs[id].heartbeatAt.Some?
  {
    ReachableInv(s);
    OrphanIsAbandoned(s, id, t);
    LostExactlyWithoutHeartbeat(s, id, p);
  }

  /** A closed session leaves no advisory lock, so it blocks no later claim. */
  lemma DeadSessionHoldsNothing(s: State, w: WorkerId, key: JobId)
    requires Reachable(s) && w in s.workers && !s.workers[w].sessionOpen && key in s.locks
    ensures s.locks[key].holder != w
  {
    ReachableInv(s);
    assert LockInv(s, key);
  }
}
