/** The transaction-level system is not weaker than the protocol: row locks do not outlive their
    transactions, a row that is not locked can be claimed, cancelled, buried or reset whatever else
    is open, and what a transaction commits carries the NOW() of its start. */
module Realization {
  import opened Schema
  import opened Protocol
  import opened Invariant
  import opened Preservation
  import opened Safety
  import opened Transactions
  import opened Refinement

  // ----- Row locks -----

  /** A row lock belongs to the open transaction that took it for that row. */
  ghost predicate RowLockOk(f: Fine, id: JobId)
    requires id in f.rowLocks
  {
    match f.rowLocks[id]
    case Claimer(w) => w in f.claims && !f.claims[w].Begun? && f.claims[w].job == id
    case Canceller(c) => c in f.cancels && f.cancels[c].job == id
    case Burier(w) => w in f.letters && f.letters[w].Buried? && f.letters[w].letter.originalId == id
    case Reaper(p) => p in f.reaps && id in f.reaps[p].versions
  }

  ghost predicate RowLocksOk(f: Fine) {
    forall id {:trigger RowLockOk(f, id)} | id in f.rowLocks :: RowLockOk(f, id)
  }

  lemma RowLockStep(f: Fine, fs: FineStep, id: JobId)
    requires FineEnabled(f, fs) && id in FineApply(f, fs).rowLocks
    requires id in f.rowLocks ==> RowLockOk(f, id)
    ensures RowLockOk(FineApply(f, fs), id)
  {
    if fs.Single? {
      SingleLeavesRowLocks(f, FineApply(f, fs), id);
    } else if Ends(fs) {
      RowLockAfterEnd(f, fs, id);
    } else {
      RowLockGoesOn(f, fs, id);
    }
  }

  lemma SingleLeavesRowLocks(f: Fine, g: Fine, id: JobId)
    requires id in f.rowLocks && RowLockOk(f, id) && g == f.(base := g.base)
    ensures RowLockOk(g, id)
  {
  }

  lemma RowLockGoesOn(f: Fine, fs: FineStep, id: JobId)
    requires FineEnabled(f, fs) && !fs.Single? && !Ends(fs) && id in FineApply(f, fs).rowLocks
    requires id in f.rowLocks ==> RowLockOk(f, id)
    ensures RowLockOk(FineApply(f, fs), id)
  {
    match fs
    case SelectRow(w, job) => LockedBySelect(f, w, job, id);
    case LockForCancel(c, job) => LockedByCancel(f, c, job, id);
    case UpdateDead(w) => LockedByLetter(f, w, id);
    case ResetOne(p, job) => LockedByReset(f, p, job, id);
    case _ => NoNewRowLock(f, fs, id);
  }

  lemma LockedBySelect(f: Fine, w: WorkerId, job: JobId, id: JobId)
    requires CanSelectRow(f, w, job) && (id in f.rowLocks ==> RowLockOk(f, id)) && (id in f.rowLocks || id == job)
    ensures id in DoSelectRow(f, w, job).rowLocks && RowLockOk(DoSelectRow(f, w, job), id)
  {
  }

  lemma LockedByCancel(f: Fine, c: ClientId, job: JobId, id: JobId)
    requires CanLockForCancel(f, c, job) && (id in f.rowLocks ==> RowLockOk(f, id)) && (id in f.rowLocks || id == job)
    ensures id in DoLockForCancel(f, c, job).rowLocks && RowLockOk(DoLockForCancel(f, c, job), id)
  {
  }

  lemma LockedByLetter(f: Fine, w: WorkerId, id: JobId)
    requires CanUpdateDead(f, w) && id in DoUpdateDead(f, w).rowLocks && (id in f.rowLocks ==> RowLockOk(f, id))
    ensures RowLockOk(DoUpdateDead(f, w), id)
  {
  }

  lemma LockedByReset(f: Fine, p: ProcId, job: JobId, id: JobId)
    requires CanResetOne(f, p, job) && (id in f.rowLocks ==> RowLockOk(f, id)) && (id in f.rowLocks || id == job)
    ensures id in DoResetOne(f, p, job).rowLocks && RowLockOk(DoResetOne(f, p, job), id)
  {
  }

  lemma NoNewRowLock(f: Fine, fs: FineStep, id: JobId)
    requires FineEnabled(f, fs) && !fs.Single? && !Ends(fs) && id in f.rowLocks && RowLockOk(f, id)
    requires !fs.SelectRow? && !fs.LockForCancel? && !fs.UpdateDead? && !fs.ResetOne?
    ensures id in FineApply(f, fs).rowLocks && RowLockOk(FineApply(f, fs), id)
  {
    match fs
    case BeginClaim(_) =>
    case TryLocks(_, _) =>
    case UpdateClaimed(_) =>
    case DeleteRow(_) =>
    case InsertLetter(_, _) =>
    case BeginReap(_) =>
  }

  predicate Ends(fs: FineStep) {
    fs.SelectNone? || fs.CommitClaim? || fs.RefuseCancel? || fs.CommitCancel? || fs.AbortCancel? || fs.CommitLetter?
    || fs.CommitReap? || fs.AbortReap? || fs.AbortWorker? || fs.AbortProcess?
  }

  lemma RowLockAfterEnd(f: Fine, fs: FineStep, id: JobId)
    requires FineEnabled(f, fs) && Ends(fs) && id in FineApply(f, fs).rowLocks
    requires id in f.rowLocks ==> RowLockOk(f, id)
    ensures RowLockOk(FineApply(f, fs), id)
  {
    match fs
    case RefuseCancel(_) =>
    case CommitCancel(_) =>
    case AbortCancel(_) =>
    case CommitReap(_) =>
    case AbortReap(_) =>
    case _ => RowLockAfterWorker(f, fs, id);
  }

  lemma RowLockAfterWorker(f: Fine, fs: FineStep, id: JobId)
    requires FineEnabled(f, fs) && id in FineApply(f, fs).rowLocks
    requires fs.SelectNone? || fs.CommitClaim? || fs.CommitLetter? || fs.AbortWorker? || fs.AbortProcess?
    requires id in f.rowLocks ==> RowLockOk(f, id)
    ensures RowLockOk(FineApply(f, fs), id)
  {
    match fs
    case SelectNone(_) =>
    case CommitClaim(_) =>
    case CommitLetter(_) =>
    case AbortWorker(_) =>
    case AbortProcess(_) =>
  }

  lemma {:induction false} RowLocksRun(f: Fine, steps: seq<FineStep>, g: Fine)
    requires FineRuns(f, steps, g) && RowLocksOk(f)
    ensures RowLocksOk(g)
    decreases |steps|
  {
    if steps != [] {
      var h := FineApply(f, steps[0]);
      forall id | id in h.rowLocks ensures RowLockOk(h, id) {
        assert id in f.rowLocks ==> RowLockOk(f, id);
        RowLockStep(f, steps[0], id);
      }
      RowLocksRun(h, steps[1..], g);
    }
  }

  /** No row lock outlives its transaction: a row is locked only while some claim, cancel, dead letter or
      reset of that very row is open. */
  lemma LocksEndWithTransactions(f: Fine, id: JobId)
    requires FineReachable(f) && id in f.rowLocks
    ensures RowLockOk(f, id)
  {
    var init: Fine, steps: seq<FineStep> :| FineInitial(init) && FineRuns(init, steps, f);
    RowLocksRun(init, steps, f);
  }

  // ----- Whatever else is open -----

  /** A run of f that commits this state, and leaves all open transactions and row locks as they were. */
  ghost predicate Realizes(f: Fine, steps: seq<FineStep>, base: State) {
    FineRuns(f, steps, f.(base := base))
  }

  lemma OneFineStep(f: Fine, fs: FineStep, g: Fine)
    requires FineEnabled(f, fs) && g == FineApply(f, fs)
    ensures FineRuns(f, [fs], g)
  {
    assert [fs][1..] == [] && FineRuns(g, [fs][1..], g);
  }

  lemma NotLocking(f: Fine, owner: Owner)
    requires RowLocksOk(f)
    requires match owner
             case Claimer(w) => w !in f.claims
             case Canceller(c) => c !in f.cancels
             case Burier(w) => w !in f.letters
             case Reaper(p) => p !in f.reaps
    ensures forall id | id in f.rowLocks :: f.rowLocks[id] != owner
  {
    forall id | id in f.rowLocks ensures f.rowLocks[id] != owner { assert RowLockOk(f, id); }
  }

  lemma AllRowLocksOk(f: Fine)
    requires FineReachable(f)
    ensures RowLocksOk(f) && FineInv(f)
  {
    CommittedStatesReachable(f);
    forall id | id in f.rowLocks ensures RowLockOk(f, id) { LocksEndWithTransactions(f, id); }
  }

  /** A scanning worker claims any due row whose lock it can get and which nobody has locked, whatever
      other locks it takes besides. */
  lemma ClaimRealized(f: Fine, w: WorkerId, keys: multiset<JobId>, id: JobId) returns (steps: seq<FineStep>)
    requires FineReachable(f) && w !in f.claims && CanTakeLocks(f.base, w, keys)
    requires id in keys && id in f.base.jobs && Due(f.base.jobs[id], f.base.clock) && id !in f.rowLocks
    ensures Realizes(f, steps, DoClaim(DoTakeLocks(f.base, w, keys), w, id, f.base.clock))
  {
    AllRowLocksOk(f);
    NotLocking(f, Claimer(w));
    var mid := f.(base := DoTakeLocks(f.base, w, keys), claims := f.claims[w := Begun(f.base.clock)]);
    ScanPhase(f, w, keys);
    ClaimCommitted(f, mid, w, id);
    var h := DoSelectRow(mid, w, id);
    OneFineStep(mid, SelectRow(w, id), h);
    var g := ClaimPhase(h, w);
    FineConcat(mid, [SelectRow(w, id)], h, [UpdateClaimed(w)] + [CommitClaim(w)], g);
    var rest := [SelectRow(w, id)] + ([UpdateClaimed(w)] + [CommitClaim(w)]);
    FineConcat(f, [BeginClaim(w)] + [TryLocks(w, keys)], mid, rest, g);
    steps := [BeginClaim(w)] + [TryLocks(w, keys)] + rest;
  }

  lemma ScanPhase(f: Fine, w: WorkerId, keys: multiset<JobId>)
    requires w !in f.claims && CanTakeLocks(f.base, w, keys)
    ensures FineRuns(f, [BeginClaim(w)] + [TryLocks(w, keys)],
                     f.(base := DoTakeLocks(f.base, w, keys), claims := f.claims[w := Begun(f.base.clock)]))
  {
    var begun := f.(claims := f.claims[w := Begun(f.base.clock)]);
    var mid := begun.(base := DoTakeLocks(f.base, w, keys));
    OneFineStep(f, BeginClaim(w), begun);
    OneFineStep(begun, TryLocks(w, keys), mid);
    FineConcat(f, [BeginClaim(w)], begun, [TryLocks(w, keys)], mid);
  }

  lemma ClaimCommitted(f: Fine, mid: Fine, w: WorkerId, id: JobId)
    requires w !in f.claims && forall j | j in f.rowLocks :: f.rowLocks[j] != Claimer(w)
    requires mid == f.(base := mid.base, claims := f.claims[w := Begun(f.base.clock)]) && CanSelectRow(mid, w, id)
    ensures var h := DoSelectRow(mid, w, id);
            && CanUpdateClaimed(h, w)
            && DoCommitClaim(DoUpdateClaimed(h, w), w) == f.(base := DoClaim(mid.base, w, id, f.base.clock))
  {
    var g := DoCommitClaim(DoUpdateClaimed(DoSelectRow(mid, w, id), w), w);
    assert g.rowLocks == f.rowLocks && g.claims == f.claims;
  }

  /** A scan can also end without a row, and then the locks that it took stay. */
  lemma EmptyScanRealized(f: Fine, w: WorkerId, keys: multiset<JobId>) returns (steps: seq<FineStep>)
    requires w !in f.claims && CanTakeLocks(f.base, w, keys)
    ensures Realizes(f, steps, DoScanEmpty(DoTakeLocks(f.base, w, keys), w))
  {
    var mid := f.(base := DoTakeLocks(f.base, w, keys), claims := f.claims[w := Begun(f.base.clock)]);
    ScanPhase(f, w, keys);
    var g := DoSelectNone(mid, w);
    assert g.claims == f.claims;
    OneFineStep(mid, SelectNone(w), g);
    FineConcat(f, [BeginClaim(w)] + [TryLocks(w, keys)], mid, [SelectNone(w)], g);
    steps := [BeginClaim(w)] + [TryLocks(w, keys)] + [SelectNone(w)];
  }

  /** Every other statement takes effect at once, unless its worker has a transaction open or somebody
      has locked the row that it writes. */
  lemma SingleRealized(f: Fine, step: Step)
    requires IsSingle(step) && Enabled(f.base, step)
    requires Actor(step).Some? && !step.Deliver? && !step.Heartbeat? ==>
               Actor(step).value !in f.claims && Actor(step).value !in f.letters
    requires step.MarkRunning? || step.SuccessWrite? || step.RetryWrite? ==>
               f.base.workers[step.w].pc.exec.id !in f.rowLocks
    requires step.Heartbeat? ==>
               forall id | id in f.rowLocks && id in f.base.jobs ::
                 !(f.base.jobs[id].workerId == Some(step.w) && f.base.jobs[id].status == Running)
    ensures Realizes(f, [Single(step)], Apply(f.base, step))
  {
    OneFineStep(f, Single(step), f.(base := Apply(f.base, step)));
  }

  /** A worker whose statement raises, or whose process dies, leaves no transaction open, and the others
      go on with theirs. */
  lemma AbortsRealized(f: Fine, w: WorkerId, p: ProcId)
    requires w in f.base.workers && f.base.workers[w].proc == p
    ensures CanRaise(f.base, w) ==>
              && FineEnabled(f, AbortWorker(w))
              && var g := FineApply(f, AbortWorker(w));
              && g.base == DoRaise(f.base, w) && g.claims == f.claims - {w} && g.letters == f.letters - {w}
              && g.cancels == f.cancels && g.reaps == f.reaps
              && forall id | id in g.rowLocks :: g.rowLocks[id] != Claimer(w) && g.rowLocks[id] != Burier(w)
    ensures CanCrash(f.base, p) ==>
              && FineEnabled(f, AbortProcess(p))
              && var g := FineApply(f, AbortProcess(p));
              && g.base == DoCrash(f.base, p) && w !in g.claims && w !in g.letters && p !in g.reaps
              && g.cancels == f.cancels
              && forall id | id in g.rowLocks ::
                   g.rowLocks[id] != Claimer(w) && g.rowLocks[id] != Burier(w) && g.rowLocks[id] != Reaper(p)
  {
  }

  /** A row that is not pending is looked at under its lock, and let go. */
  lemma RefusalRealized(f: Fine, c: ClientId, id: JobId) returns (steps: seq<FineStep>)
    requires FineReachable(f) && id in f.base.jobs && f.base.jobs[id].status != Pending
    requires c !in f.cancels && id !in f.rowLocks
    ensures Realizes(f, steps, f.base)
  {
    AllRowLocksOk(f);
    NotLocking(f, Canceller(c));
    var checking := DoLockForCancel(f, c, id);
    var g := DoEndCancel(checking, c);
    assert g.rowLocks == f.rowLocks && g.cancels == f.cancels;
    OneFineStep(f, LockForCancel(c, id), checking);
    OneFineStep(checking, RefuseCancel(c), g);
    FineConcat(f, [LockForCancel(c, id)], checking, [RefuseCancel(c)], g);
    steps := [LockForCancel(c, id)] + [RefuseCancel(c)];
  }

  lemma ClaimPhase(f: Fine, w: WorkerId) returns (g: Fine)
    requires CanUpdateClaimed(f, w) && w in f.base.workers
    ensures FineRuns(f, [UpdateClaimed(w)] + [CommitClaim(w)], g)
    ensures g == DoCommitClaim(DoUpdateClaimed(f, w), w)
  {
    var written := DoUpdateClaimed(f, w);
    g := DoCommitClaim(written, w);
    OneFineStep(f, UpdateClaimed(w), written);
    OneFineStep(written, CommitClaim(w), g);
    FineConcat(f, [UpdateClaimed(w)], written, [CommitClaim(w)], g);
  }

  /** A pending row that nobody has locked is cancelled. */
  lemma CancelRealized(f: Fine, c: ClientId, id: JobId) returns (steps: seq<FineStep>)
    requires FineReachable(f) && CanCancel(f.base, id) && c !in f.cancels && id !in f.rowLocks
    ensures Realizes(f, steps, DoCancel(f.base, id))
  {
    AllRowLocksOk(f);
    NotLocking(f, Canceller(c));
    CancelCommitted(f, c, id);
    var checking := DoLockForCancel(f, c, id);
    OneFineStep(f, LockForCancel(c, id), checking);
    var g := DeletePhase(checking, c);
    FineConcat(f, [LockForCancel(c, id)], checking, [DeleteRow(c)] + [CommitCancel(c)], g);
    steps := [LockForCancel(c, id)] + ([DeleteRow(c)] + [CommitCancel(c)]);
  }

  lemma CancelCommitted(f: Fine, c: ClientId, id: JobId)
    requires CanLockForCancel(f, c, id) && forall j | j in f.rowLocks :: f.rowLocks[j] != Canceller(c)
    ensures DoCommitCancel(DoDeleteRow(DoLockForCancel(f, c, id), c), c) == f.(base := DoCancel(f.base, id))
  {
    var g := DoCommitCancel(DoDeleteRow(DoLockForCancel(f, c, id), c), c);
    assert g.rowLocks == f.rowLocks && g.cancels == f.cancels;
  }

  lemma DeletePhase(f: Fine, c: ClientId) returns (g: Fine)
    requires c in f.cancels && f.cancels[c].Checking? && f.cancels[c].status == Pending
    ensures FineRuns(f, [DeleteRow(c)] + [CommitCancel(c)], g) && g == DoCommitCancel(DoDeleteRow(f, c), c)
  {
    var deleted := DoDeleteRow(f, c);
    g := DoCommitCancel(deleted, c);
    OneFineStep(f, DeleteRow(c), deleted);
    OneFineStep(deleted, CommitCancel(c), g);
    FineConcat(f, [DeleteRow(c)], deleted, [CommitCancel(c)], g);
  }

  /** A failed last attempt is dead-lettered if nobody has locked its row. */
  lemma LetterRealized(f: Fine, w: WorkerId, error: string) returns (steps: seq<FineStep>)
    requires FineReachable(f) && CanDeadLetter(f.base, w, f.base.clock) && w !in f.letters
    requires f.base.workers[w].pc.exec.id !in f.rowLocks
    ensures Realizes(f, steps, DoDeadLetter(f.base, w, error, f.base.clock))
  {
    AllRowLocksOk(f);
    NotLocking(f, Burier(w));
    LetterCommitted(f, w, error);
    var inserted := DoInsertLetter(f, w, error);
    OneFineStep(f, InsertLetter(w, error), inserted);
    var g := BuryPhase(inserted, w);
    FineConcat(f, [InsertLetter(w, error)], inserted, [UpdateDead(w)] + [CommitLetter(w)], g);
    steps := [InsertLetter(w, error)] + ([UpdateDead(w)] + [CommitLetter(w)]);
  }

  lemma LetterCommitted(f: Fine, w: WorkerId, error: string)
    requires CanInsertLetter(f, w) && f.base.workers[w].pc.exec.id !in f.rowLocks
    requires forall j | j in f.rowLocks :: f.rowLocks[j] != Burier(w)
    ensures DoCommitLetter(DoUpdateDead(DoInsertLetter(f, w, error), w), w)
            == f.(base := DoDeadLetter(f.base, w, error, f.base.clock))
  {
    var buried := DoUpdateDead(DoInsertLetter(f, w, error), w);
    var id := f.base.workers[w].pc.exec.id;
    assert buried.rowLocks == if id in f.base.jobs then f.rowLocks[id := Burier(w)] else f.rowLocks;
    assert Unlocked(buried.rowLocks, Burier(w)) == f.rowLocks;
    assert buried.letters - {w} == f.letters;
  }

  lemma BuryPhase(f: Fine, w: WorkerId) returns (g: Fine)
    requires CanUpdateDead(f, w) && w in f.base.workers
    ensures FineRuns(f, [UpdateDead(w)] + [CommitLetter(w)], g) && g == DoCommitLetter(DoUpdateDead(f, w), w)
  {
    var buried := DoUpdateDead(f, w);
    g := DoCommitLetter(buried, w);
    OneFineStep(f, UpdateDead(w), buried);
    OneFineStep(buried, CommitLetter(w), g);
    FineConcat(f, [UpdateDead(w)], buried, [CommitLetter(w)], g);
  }

  /** Stale rows that nobody has locked are reset, all in one transaction. */
  lemma ReapRealized(f: Fine, p: ProcId, rows: set<JobId>) returns (steps: seq<FineStep>)
    requires FineReachable(f) && LoopsGoOn(f.base, p) && p !in f.reaps && rows <= StaleIds(f.base)
    requires forall id | id in rows :: id !in f.rowLocks
    ensures Realizes(f, steps, DoReap(f.base, rows))
  {
    AllRowLocksOk(f);
    NotLocking(f, Reaper(p));
    ReapCommitted(f, p, rows);
    var begun := DoBeginReap(f, p);
    OneFineStep(f, BeginReap(p), begun);
    var tail := ResetRows(begun, p, rows);
    FinishReap(f, begun, tail, AfterResets(begun, p, rows), p);
    steps := [BeginReap(p)] + (tail + [CommitReap(p)]);
  }

  lemma FinishReap(f: Fine, begun: Fine, tail: seq<FineStep>, last: Fine, p: ProcId)
    requires FineRuns(f, [BeginReap(p)], begun) && FineRuns(begun, tail, last) && p in last.reaps
    ensures FineRuns(f, [BeginReap(p)] + (tail + [CommitReap(p)]), DoCommitReap(last, p))
  {
    OneFineStep(last, CommitReap(p), DoCommitReap(last, p));
    FineConcat(begun, tail, last, [CommitReap(p)], DoCommitReap(last, p));
    FineConcat(f, [BeginReap(p)], begun, tail + [CommitReap(p)], DoCommitReap(last, p));
  }

  /** The reset versions, committed, and the row locks given back. */
  lemma ReapCommitted(f: Fine, p: ProcId, rows: set<JobId>)
    requires p !in f.reaps && rows <= StaleIds(f.base) && forall id | id in f.rowLocks :: f.rowLocks[id] != Reaper(p)
    requires forall id | id in rows :: id !in f.rowLocks
    ensures DoCommitReap(AfterResets(DoBeginReap(f, p), p, rows), p) == f.(base := DoReap(f.base, rows))
  {
    var last := AfterResets(DoBeginReap(f, p), p, rows);
    ResetsOfOwn(f, p, rows);
    ResettedRows(f.base, rows);
    LocksGivenBack(f.rowLocks, p, rows);
    assert last.reaps - {p} == f.reaps;
  }

  lemma ResetsOfOwn(f: Fine, p: ProcId, rows: set<JobId>)
    ensures var last := AfterResets(DoBeginReap(f, p), p, rows);
            && last.base == f.base && last.claims == f.claims && last.cancels == f.cancels && last.letters == f.letters
            && last.rowLocks == f.rowLocks + LocksFor(p, rows)
            && last.reaps == f.reaps[p := ReapTx(f.base.clock, Resetted(f.base, rows))]
  {
    assert map[] + Resetted(f.base, rows) == Resetted(f.base, rows);
  }

  lemma ResettedRows(s: State, rows: set<JobId>)
    requires rows <= StaleIds(s)
    ensures Resetted(s, rows).Keys == rows && s.jobs + Resetted(s, rows) == DoReap(s, rows).jobs
  {
    assert forall id | id in rows :: id in StaleIds(s);
  }

  lemma {:induction false} FineConcat(f: Fine, a: seq<FineStep>, g: Fine, b: seq<FineStep>, h: Fine)
    requires FineRuns(f, a, g) && FineRuns(g, b, h)
    ensures FineRuns(f, a + b, h)
    decreases |a|
  {
    if a == [] {
      assert a + b == b;
    } else {
      FineConcat(FineApply(f, a[0]), a[1..], g, b, h);
      assert (a + b)[0] == a[0] && (a + b)[1..] == a[1..] + b;
    }
  }

  /** The reaper of p has locked these rows and buffered their new versions. */
  function AfterResets(f: Fine, p: ProcId, rows: set<JobId>): Fine
    requires p in f.reaps
  {
    f.(reaps := f.reaps[p := ReapTx(f.reaps[p].at, f.reaps[p].versions + Resetted(f.base, rows))],
       rowLocks := f.rowLocks + LocksFor(p, rows))
  }

  /** It can lock them one after the other. */
  lemma {:induction false} ResetRows(f: Fine, p: ProcId, rows: set<JobId>) returns (steps: seq<FineStep>)
    requires p in f.reaps && rows <= StaleAt(f.base, f.reaps[p].at)
    requires forall id | id in rows :: id !in f.rowLocks
    ensures FineRuns(f, steps, AfterResets(f, p, rows))
    decreases rows
  {
    if rows == {} {
      steps := [];
      NothingReset(f, p);
    } else {
      var id :| id in rows;
      var h := DoResetOne(f, p, id);
      OneFineStep(f, ResetOne(p, id), h);
      ResetMore(f, p, rows, id);
      var rest := ResetRows(h, p, rows - {id});
      FineConcat(f, [ResetOne(p, id)], h, rest, AfterResets(f, p, rows));
      steps := [ResetOne(p, id)] + rest;
    }
  }

  lemma NothingReset(f: Fine, p: ProcId)
    requires p in f.reaps
    ensures AfterResets(f, p, {}) == f
  {
    assert f.reaps[p].versions + Resetted(f.base, {}) == f.reaps[p].versions;
    assert f.rowLocks + LocksFor(p, {}) == f.rowLocks;
  }

  lemma ResetMore(f: Fine, p: ProcId, rows: set<JobId>, id: JobId)
    requires CanResetOne(f, p, id) && id in rows && rows <= StaleAt(f.base, f.reaps[p].at)
    ensures AfterResets(DoResetOne(f, p, id), p, rows - {id}) == AfterResets(f, p, rows)
  {
    var h, less := DoResetOne(f, p, id), rows - {id};
    assert id in StaleAt(f.base, f.reaps[p].at);
    OneMoreReset(f.base, f.reaps[p].versions, rows, id);
    OneMoreLock(f.rowLocks, p, rows, id);
    assert h.reaps[p := AfterResets(h, p, less).reaps[p]] == AfterResets(f, p, rows).reaps;
  }

  lemma OneMoreReset(s: State, versions: map<JobId, Job>, rows: set<JobId>, id: JobId)
    requires id in rows && id in s.jobs
    ensures versions[id := ResetRow(s.jobs[id])] + Resetted(s, rows - {id}) == versions + Resetted(s, rows)
  {
  }

  lemma OneMoreLock(rowLocks: map<JobId, Owner>, p: ProcId, rows: set<JobId>, id: JobId)
    requires id in rows
    ensures rowLocks[id := Reaper(p)] + LocksFor(p, rows - {id}) == rowLocks + LocksFor(p, rows)
  {
  }

  lemma LocksGivenBack(rowLocks: map<JobId, Owner>, p: ProcId, rows: set<JobId>)
    requires forall id | id in rowLocks :: rowLocks[id] != Reaper(p) && id !in rows
    ensures Unlocked(rowLocks + LocksFor(p, rows), Reaper(p)) == rowLocks
  {
  }

  function LocksFor(p: ProcId, rows: set<JobId>): map<JobId, Owner> {
    map id | id in rows :: Reaper(p)
  }

  function Resetted(s: State, rows: set<JobId>): map<JobId, Job> {
    map id | id in rows && id in s.jobs :: ResetRow(s.jobs[id])
  }

  // ----- NOW() is the start of the transaction -----

  /** The claim that w began is open in every state of the run. */
  ghost predicate ClaimOpen(f: Fine, steps: seq<FineStep>, w: WorkerId)
    decreases |steps|
  {
    w in f.claims && (steps != [] ==> FineEnabled(f, steps[0]) && ClaimOpen(FineApply(f, steps[0]), steps[1..], w))
  }

  lemma ClaimDateStep(f: Fine, fs: FineStep, w: WorkerId)
    requires FineEnabled(f, fs) && w in f.claims && w in FineApply(f, fs).claims
    ensures FineApply(f, fs).claims[w].at == f.claims[w].at
  {
  }

  lemma {:induction false} ClaimDateRun(f: Fine, steps: seq<FineStep>, g: Fine, w: WorkerId)
    requires FineRuns(f, steps, g) && ClaimOpen(f, steps, w)
    ensures w in g.claims && g.claims[w].at == f.claims[w].at
    decreases |steps|
  {
    if steps != [] {
      ClaimDateStep(f, steps[0], w);
      ClaimDateRun(FineApply(f, steps[0]), steps[1..], g, w);
    }
  }

  /** A committed claim carries the time at which its transaction began, however long it took. */
  lemma ClaimedAtBegin(f: Fine, w: WorkerId, steps: seq<FineStep>, g: Fine)
    requires FineReachable(f) && FineEnabled(f, BeginClaim(w)) && FineRuns(FineApply(f, BeginClaim(w)), steps, g)
    requires ClaimOpen(FineApply(f, BeginClaim(w)), steps, w) && FineEnabled(g, CommitClaim(w))
    ensures var id := g.claims[w].job; var h := FineApply(g, CommitClaim(w));
            && id in g.base.jobs && g.base.jobs[id].status == Pending && g.base.jobs[id].runAt <= f.base.clock
            && h.base.jobs == g.base.jobs[id := g.base.jobs[id].(
                 status := Claimed, claimedAt := Some(f.base.clock), workerId := Some(w))]
  {
    var f1 := FineApply(f, BeginClaim(w));
    ClaimDateRun(f1, steps, g, w);
    CommittedStatesReachable(f);
    BeginClaimRefines(f, w);
    FineRunRefines(f1, steps, g);
    assert ClaimOk(g, w);
  }

  ghost predicate LetterOpen(f: Fine, steps: seq<FineStep>, w: WorkerId)
    decreases |steps|
  {
    w in f.letters && (steps != [] ==> FineEnabled(f, steps[0]) && LetterOpen(FineApply(f, steps[0]), steps[1..], w))
  }

  lemma LetterDateStep(f: Fine, fs: FineStep, w: WorkerId)
    requires FineEnabled(f, fs) && w in f.letters && w in FineApply(f, fs).letters
    ensures FineApply(f, fs).letters[w].letter == f.letters[w].letter
  {
  }

  lemma {:induction false} LetterDateRun(f: Fine, steps: seq<FineStep>, g: Fine, w: WorkerId)
    requires FineRuns(f, steps, g) && LetterOpen(f, steps, w)
    ensures w in g.letters && g.letters[w].letter == f.letters[w].letter
    decreases |steps|
  {
    if steps != [] {
      LetterDateStep(f, steps[0], w);
      LetterDateRun(FineApply(f, steps[0]), steps[1..], g, w);
    }
  }

  /** A committed dead letter carries the time of its INSERT, however long its transaction took. */
  lemma DiedAtInsert(f: Fine, w: WorkerId, error: string, steps: seq<FineStep>, g: Fine)
    requires FineEnabled(f, InsertLetter(w, error)) && FineRuns(FineApply(f, InsertLetter(w, error)), steps, g)
    requires LetterOpen(FineApply(f, InsertLetter(w, error)), steps, w) && FineEnabled(g, CommitLetter(w))
    ensures var h := FineApply(g, CommitLetter(w));
            && |h.base.dead| == |g.base.dead| + 1 && g.base.dead <= h.base.dead
            && var letter := h.base.dead[|g.base.dead|];
            && letter.diedAt == f.base.clock && letter.error == error && letter.workerId == w
            && letter.originalId == f.base.workers[w].pc.exec.id
  {
    LetterDateRun(FineApply(f, InsertLetter(w, error)), steps, g, w);
  }
}
