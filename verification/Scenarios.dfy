/** Concrete runs: each shows that a place where the code and its documentation disagree is reachable,
    and that the hypotheses of the timing results can be met. */
module Scenarios {
  import opened Schema
  import opened Protocol
  import opened Accounting
  import opened Timing

  /** A healthy worker, whose heartbeats are at most 20 s apart, has its job reset under it:
      the retry left the heartbeat of the first execution in the row. */
  lemma HealthyWorkerReaped() returns (s: State)
    ensures Reachable(s) && Executes(s, 0, 0) && Timely(s, 0) && !s.workers[0].pc.exec.wasReset
    ensures CanReap(s, 0, {0}, s.clock) && LoopsGoOn(s, 0)
    ensures var t := DoReap(s, {0}); Executes(t, 0, 0) && t.jobs[0].status == Pending
  {
    StartReachable(3);
    var s1 := ClaimNext(Start(3), 0, 0);
    var s2 := FailOnce(s1, 0, 0, Start(3).jobs[0]);
    assert Backoff(5 * SECOND, 0) == 5 * SECOND;
    var s3 := BeatMeanwhile(s2, 0, 0);
    s := ClaimNext(s3, 0, 0);
    assert 0 in StaleAt(s, s.clock);
    assert DoReap(s, {0}).workers[0] == NoteReset(s.workers[0], {0});
  }

  /** A worker process dies between its first claim of a job and the job's first heartbeat:
      the job is claimed for ever. */
  lemma ClaimedForEver() returns (s: State)
    ensures Reachable(s) && Orphaned(s, 0, 0) && s.jobs[0].heartbeatAt == None
  {
    StartReachable(3);
    var s1 := ClaimNext(Start(3), 0, 0);
    Extend(s1, Crash(0));
    s := DoCrash(s1, 0);
  }

  /** The UPDATE to 'running' raises: the coroutine ends, its process lives and goes on with its
      heartbeats, and the job is claimed for ever. */
  lemma LostInLiveProcess() returns (s: State)
    ensures Reachable(s) && Abandoned(s, 0) && s.jobs[0].heartbeatAt == None
    ensures s.crashed == map[] && LoopsGoOn(s, 0) && Timely(s, 0)
    ensures s.workers[0].proc == 0 && !s.workers[0].sessionOpen
  {
    StartReachable(3);
    var s1 := ClaimNext(Start(3), 0, 0);
    Extend(s1, Raise(0));
    var s2 := DoRaise(s1, 0);
    Extend(s2, CloseSession(0));
    s := DoClose(s2, 0);
  }

  /** The failure write raises while the job runs: the coroutine ends, and as long as its process is
      not shut down the heartbeat loop keeps the abandoned row fresh. */
  lemma RunningAbandoned() returns (s: State)
    ensures Reachable(s) && Abandoned(s, 0) && s.hist[0].claimer == Some(0) && BeatsFor(s.jobs[0], 0)
    ensures s.crashed == map[] && LoopsGoOn(s, 0) && Timely(s, 0)
    ensures s.workers[0].proc == 0 && !s.workers[0].sessionOpen
  {
    StartReachable(3);
    var s1 := ClaimNext(Start(3), 0, 0);
    Extend(s1, MarkRunning(0));
    s := DieRunning(DoMarkRunning(s1, 0), 0);
  }

  /** A job that goes on for 31 s after the shutdown of its process is reset by the reaper of another
      process, under the worker that drains it. */
  lemma DrainingWorkerReaped() returns (s: State)
    ensures Reachable(s) && Executes(s, 0, 0) && s.workers[0].pc.Executing? && s.workers[0].proc in s.down
    ensures CanReap(s, 1, {0}, s.clock) && LoopsGoOn(s, 1)
    ensures var t := DoReap(s, {0}); Executes(t, 0, 0) && t.jobs[0].status == Pending
  {
    StartReachable(3);
    var s1 := ClaimNext(Start(3), 0, 0);
    Extend(s1, MarkRunning(0));
    var s2 := DoMarkRunning(s1, 0);
    Extend(s2, Shutdown(0));
    var s3 := DoShutdown(s2, 0);
    Extend(s3, Tick(31 * SECOND));
    s := DoTick(s3, 31 * SECOND);
    assert 0 in StaleAt(s, s.clock);
    assert DoReap(s, {0}).workers[0] == NoteReset(s.workers[0], {0});
  }

  /** With max_retries 0 a dead letter counts one attempt. */
  lemma AttemptsAboveMaxRetries() returns (s: State)
    ensures Reachable(s) && |s.dead| == 1 && s.dead[0].originalId == 0 && s.dead[0].attempts == 1
    ensures 0 in s.jobs && s.jobs[0].status == Dead && s.jobs[0].maxRetries == 0
  {
    StartReachable(0);
    var s1 := ClaimNext(Start(0), 0, 0);
    Extend(s1, MarkRunning(0));
    var s2 := DoMarkRunning(s1, 0);
    Extend(s2, DeadLetterTxn(0, "error", 0));
    s := DoDeadLetter(s2, 0, "error", 0);
  }

  /** Worker 0 has finished its only job and goes on with its loop; job 1 is due, and worker 1 is free,
      but cannot get it in any run in which worker 0 does not close its session. */
  lemma SurplusKept() returns (s: State)
    ensures Reachable(s) && 0 in s.workers && s.workers[0].pc.AtLoopTop? && HasSurplus(s, 0, 1)
    ensures 1 in s.workers && s.workers[1].pc.AtLoopTop? && s.down == {}
    ensures 1 in s.jobs && Due(s.jobs[1], s.clock) && 1 in s.locks && s.locks[1].holder == 0
    ensures !exists steps, s' :: ClaimedWithoutClose(s, steps, s', 1, 1)
    ensures exists steps, s' :: ClaimedWithoutClose(s, steps, s', 0, 1)
  {
    var s1 := TwoWorkers();
    var s2 := TakeBoth(s1);
    s := Succeed(s2, 0, 0);
    ClaimableExactly(s, 1, 1);
    ClaimableExactly(s, 0, 1);
  }

  // ----- Building the runs -----

  lemma {:induction false} RunsAppend(s: State, steps: seq<Step>, t: State, step: Step)
    requires Runs(s, steps, t) && Enabled(t, step)
    ensures Runs(s, steps + [step], Apply(t, step))
    decreases |steps|
  {
    if steps == [] {
      assert (steps + [step])[1..] == [];
      assert Runs(Apply(t, step), [], Apply(t, step));
    } else {
      RunsAppend(Apply(s, steps[0]), steps[1..], t, step);
      assert (steps + [step])[1..] == steps[1..] + [step];
    }
  }

  lemma Extend(s: State, step: Step)
    requires Reachable(s) && Enabled(s, step)
    ensures Reachable(Apply(s, step))
  {
    var init, steps :| Initial(init) && Runs(init, steps, s);
    RunsAppend(init, steps, s, step);
  }

  function Request(maxRetries: int): JobCreate {
    JobCreate("flaky", map[], 5, maxRetries, None)
  }

  /** A queue with one worker and one job, due at once. */
  function Start(maxRetries: int): State {
    State(5 * SECOND, 5 * SECOND, 0, map[0 := NewRow(Request(maxRetries), 0)], [], map[],
          map[0 := Worker(0, AtLoopTop, true, false, {0}, {}, 0, 0)], {}, map[],
          map[0 := History("flaky", Obj(map[]), maxRetries, 0, 0, 0, None, None, InTable)])
  }

  lemma StartReachable(maxRetries: int)
    requires 0 <= maxRetries <= 10
    ensures Reachable(Start(maxRetries))
  {
    var s0 := State(5 * SECOND, 5 * SECOND, 0, map[], [], map[], map[], {}, map[], map[]);
    assert Initial(s0) && Runs(s0, [], s0);
    Extend(s0, StartWorker(0, 0));
    var s1 := DoStart(s0, 0, 0);
    Extend(s1, Enqueue(0, Request(maxRetries)));
    var s2 := DoEnqueue(s1, 0, Request(maxRetries));
    var start := Start(maxRetries);
    assert {} + {0} == {0 as JobId};
    assert s2.workers[0] == Notify(s1.workers[0], 0) == start.workers[0];
    assert s2.workers == start.workers && s2.jobs == start.jobs && s2.hist == start.hist;
  }

  lemma AcquireOne(locks: map<JobId, Lock>, w: WorkerId, id: JobId)
    requires id !in locks
    ensures Acquire(locks, w, multiset{id}) == locks[id := Lock(w, 1)] && KeySet(multiset{id}) == {id}
  {
  }

  lemma AcquireTwo(w: WorkerId, a: JobId, b: JobId)
    requires a != b
    ensures Acquire(map[], w, multiset{a, b}) == map[a := Lock(w, 1), b := Lock(w, 1)]
    ensures KeySet(multiset{a, b}) == {a, b}
  {
  }

  /** A worker at the top of its loop begins a scan and takes locks. */
  lemma LockNext(s: State, w: WorkerId, keys: multiset<JobId>) returns (t: State)
    requires Reachable(s) && w in s.workers && s.workers[w].pc.AtLoopTop? && s.workers[w].proc !in s.down
    requires forall k | k in keys :: k !in s.locks
    ensures Reachable(t)
    ensures t == s.(locks := Acquire(s.locks, w, keys),
                    workers := s.workers[w := s.workers[w].(pc := Scanning(KeySet(keys)), scanned := s.hist.Keys)])
  {
    Extend(s, LoopCheck(w));
    var s1 := DoLoopCheck(s, w);
    Extend(s1, TakeLocks(w, keys));
    t := DoTakeLocks(s1, w, keys);
    assert {} + KeySet(keys) == KeySet(keys);
  }

  /** The same worker then claims the job, when it is due. */
  lemma ClaimNext(s: State, w: WorkerId, id: JobId) returns (t: State)
    requires Reachable(s) && w in s.workers && s.workers[w].pc.AtLoopTop? && s.workers[w].proc !in s.down
    requires id in s.jobs && Due(s.jobs[id], s.clock) && id !in s.locks
    ensures Reachable(t)
    ensures t.workers == s.workers[w := s.workers[w].(pc := Took(Exec(id, s.jobs[id], s.clock, false)),
                                                      scanned := s.hist.Keys)]
    ensures t.jobs == s.jobs[id := ClaimedRow(s.jobs[id], w, s.clock)] && t.clock == s.clock
    ensures t.locks == s.locks[id := Lock(w, 1)] && t.down == s.down && t.crashed == s.crashed
    ensures t.baseDelay == s.baseDelay && t.dead == s.dead
    ensures id in s.hist ==> id in t.hist && t.hist[id].claimer == Some(w)
  {
    AcquireOne(s.locks, w, id);
    var s1 := LockNext(s, w, multiset{id});
    Extend(s1, Claim(w, id, s.clock));
    t := DoClaim(s1, w, id, s.clock);
  }

  /** One failed execution: the job is pending again, with the heartbeat of that execution. */
  lemma FailOnce(s: State, w: WorkerId, id: JobId, row: Job) returns (t: State)
    requires Reachable(s) && w in s.workers && s.workers[w].pc == Took(Exec(id, row, s.clock, false))
    requires id in s.jobs && row.attempt + 1 < row.maxRetries && s.locks == map[id := Lock(w, 1)]
    ensures Reachable(t) && t.clock == s.clock && t.down == s.down && t.locks == map[]
    ensures id in t.jobs && t.jobs[id].status == Pending && t.jobs[id].heartbeatAt == Some(s.clock)
    ensures t.jobs[id].runAt == s.clock + Backoff(s.baseDelay, row.attempt)
    ensures w in t.workers && t.workers[w] == s.workers[w].(pc := AtLoopTop)
    ensures t.crashed == s.crashed
  {
    Extend(s, MarkRunning(w));
    var s1 := DoMarkRunning(s, w);
    Extend(s1, RetryWrite(w, "error"));
    var s2 := DoRetry(s1, w, "error");
    Extend(s2, Unlock(w));
    t := DoUnlock(s2, w);
  }

  /** 31 s pass, with a heartbeat of the idle worker after 20 s. */
  lemma BeatMeanwhile(s: State, w: WorkerId, id: JobId) returns (t: State)
    requires Reachable(s) && s.clock == 0 && CanBeat(s, w) && id in s.jobs && s.jobs[id].status == Pending
    ensures Reachable(t) && t.clock == 31 * SECOND && t.down == s.down && t.crashed == s.crashed
    ensures id in t.jobs && t.jobs[id] == s.jobs[id] && t.locks == s.locks
    ensures t.workers == s.workers[w := s.workers[w].(lastBeat := 20 * SECOND)]
  {
    Extend(s, Tick(20 * SECOND));
    var s1 := DoTick(s, 20 * SECOND);
    Extend(s1, Heartbeat(w));
    var s2 := DoBeat(s1, w);
    Extend(s2, Tick(31 * SECOND));
    t := DoTick(s2, 31 * SECOND);
  }

  /** An exception leaves run_worker through both `finally` blocks. */
  lemma DieRunning(s: State, w: WorkerId) returns (t: State)
    requires Reachable(s) && w in s.workers && s.workers[w].pc.Executing? && s.workers[w].sessionOpen
    ensures Reachable(t) && t.jobs == s.jobs && t.clock == s.clock && t.down == s.down && t.crashed == s.crashed
    ensures var id := s.workers[w].pc.exec.id;
            && t.workers == s.workers[w := s.workers[w].(pc := Stopped(Some(id)), sessionOpen := false)]
            && (id in s.hist ==> id in t.hist && t.hist[id].claimer == s.hist[id].claimer)
  {
    Extend(s, Raise(w));
    var s1 := DoRaise(s, w);
    Extend(s1, Unlock(w));
    var s2 := DoUnlock(s1, w);
    Extend(s2, CloseSession(w));
    t := DoClose(s2, w);
  }

  /** Two workers of two processes at the top of their loops, and two due jobs. */
  lemma TwoWorkers() returns (s: State)
    ensures Reachable(s) && s.clock == 0 && s.down == {} && s.locks == map[]
    ensures s.workers.Keys == {0, 1} && s.workers[0].pc.AtLoopTop? && s.workers[1].pc.AtLoopTop?
    ensures s.jobs == map[0 := NewRow(Request(3), 0), 1 := NewRow(Request(3), 0)]
  {
    StartReachable(3);
    Extend(Start(3), StartWorker(1, 1));
    var s1 := DoStart(Start(3), 1, 1);
    Extend(s1, Enqueue(1, Request(3)));
    s := DoEnqueue(s1, 1, Request(3));
  }

  /** Worker 0 claims job 0 with a SELECT that gets the locks of both jobs. */
  lemma TakeBoth(s: State) returns (t: State)
    requires Reachable(s) && s.clock == 0 && s.down == {} && s.locks == map[]
    requires s.workers.Keys == {0, 1} && s.workers[0].pc.AtLoopTop?
    requires s.jobs == map[0 := NewRow(Request(3), 0), 1 := NewRow(Request(3), 0)]
    ensures Reachable(t) && t.clock == 0 && t.down == {} && t.locks == map[0 := Lock(0, 1), 1 := Lock(0, 1)]
    ensures t.workers.Keys == {0, 1} && t.workers[0].pc == Took(Exec(0, s.jobs[0], 0, false))
    ensures t.workers[1] == s.workers[1] && t.jobs == s.jobs[0 := ClaimedRow(s.jobs[0], 0, 0)]
  {
    AcquireTwo(0, 0, 1);
    var s1 := LockNext(s, 0, multiset{0, 1});
    Extend(s1, Claim(0, 0, 0));
    t := DoClaim(s1, 0, 0, 0);
  }

  /** A successful execution from the claim to the unlock. */
  lemma Succeed(s: State, w: WorkerId, id: JobId) returns (t: State)
    requires Reachable(s) && w in s.workers && s.workers[w].pc.Took? && s.workers[w].pc.exec.id == id
    requires id in s.jobs && id in s.locks && s.locks[id] == Lock(w, 1)
    ensures Reachable(t) && t.clock == s.clock && t.down == s.down && t.locks == s.locks - {id}
    ensures t.workers == s.workers[w := s.workers[w].(pc := AtLoopTop)]
    ensures t.jobs.Keys == s.jobs.Keys && forall j | j in s.jobs && j != id :: t.jobs[j] == s.jobs[j]
  {
    Extend(s, MarkRunning(w));
    var s1 := DoMarkRunning(s, w);
    Extend(s1, SuccessWrite(w, Null));
    var s2 := DoSuccess(s1, w, Null);
    Extend(s2, Unlock(w));
    t := DoUnlock(s2, w);
  }
}
