/** The transaction-level system refines the atomic protocol. */
module Refinement {
  import opened Schema
  import opened Protocol
  import opened Invariant
  import opened Preservation
  import opened PreservationGlobal
  import opened Safety
  import opened Transactions

  // ----- What one atomic step of others leaves alone -----

  /** Row id is the same in both states, or absent from both. */
  ghost predicate RowKept(s: State, t: State, id: JobId) {
    && (id in s.jobs ==> id in t.jobs && t.jobs[id] == s.jobs[id])
    && (id !in s.jobs && id in s.hist ==> id !in t.jobs && id in t.hist)
  }

  ghost predicate LockKept(s: State, t: State, w: WorkerId, key: JobId) {
    key in s.locks && s.locks[key].holder == w ==> key in t.locks && t.locks[key].holder == w
  }

  ghost predicate SamePlace(a: Worker, b: Worker) {
    b.pc == a.pc || b.pc == MarkReset(a.pc)
  }

  lemma RowOfSingle(s: State, step: Step, id: JobId)
    requires IsSingle(step) && Enabled(s, step) && !Writes(s, step, id) && Inv(s)
    ensures RowKept(s, Apply(s, step), id)
  {
  }

  lemma LockOfSingle(s: State, step: Step, w: WorkerId, key: JobId)
    requires IsSingle(step) && Enabled(s, step)
    requires !OfCoroutine(step, w)
    ensures LockKept(s, Apply(s, step), w, key)
  {
  }

  lemma PlaceOfSingle(s: State, step: Step, w: WorkerId)
    requires IsSingle(step) && Enabled(s, step) && w in s.workers
    requires !OfCoroutine(step, w)
    ensures w in Apply(s, step).workers && SamePlace(s.workers[w], Apply(s, step).workers[w])
  {
    if Actor(step) != Some(w) { OthersStep(s, step, w); }
  }

  // ----- What keeps an open transaction in order -----

  /** What a step of the transactions of ws, cs and ps leaves alone: row locks of all others and the
      rows under them, rows that do not exist, the places and locks of other workers, and other
      processes. */
  ghost predicate LeavesOthers(f: Fine, g: Fine, ws: set<WorkerId>, cs: set<ClientId>, ps: set<ProcId>) {
    && f.base.clock <= g.base.clock
    && (forall id | id in f.rowLocks && !OwnedBy(f.rowLocks[id], ws, ps)
                    && !(f.rowLocks[id].Canceller? && f.rowLocks[id].c in cs) ::
          RowKept(f.base, g.base, id) && id in g.rowLocks && g.rowLocks[id] == f.rowLocks[id])
    && (forall id | id in f.base.hist && id !in f.base.jobs :: RowKept(f.base, g.base, id))
    && (forall w | w in f.base.workers && w !in ws && (w in f.claims || w in f.letters) ::
          && w in g.base.workers && SamePlace(f.base.workers[w], g.base.workers[w]))
    && (forall w, key | w in f.claims && w !in ws && key in f.base.locks :: LockKept(f.base, g.base, w, key))
    && (forall w | w !in ws ::
          && (w in f.claims <==> w in g.claims) && (w in f.claims ==> f.claims[w] == g.claims[w])
          && (w in f.letters <==> w in g.letters) && (w in f.letters ==> f.letters[w] == g.letters[w]))
    && (forall c | c !in cs ::
          (c in f.cancels <==> c in g.cancels) && (c in f.cancels ==> f.cancels[c] == g.cancels[c]))
    && (forall p | p !in ps ::
          && (p in f.reaps <==> p in g.reaps) && (p in f.reaps ==> f.reaps[p] == g.reaps[p])
          && (p in g.base.crashed ==> p in f.base.crashed))
  }

  lemma OtherClaims(f: Fine, g: Fine, ws: set<WorkerId>, cs: set<ClientId>, ps: set<ProcId>,
                   w: WorkerId)
    requires LeavesOthers(f, g, ws, cs, ps) && w in f.claims && w !in ws && ClaimOk(f, w)
    ensures w in g.claims && ClaimOk(g, w)
  {
  }

  lemma OtherLetterTxs(f: Fine, g: Fine, ws: set<WorkerId>, cs: set<ClientId>, ps: set<ProcId>,
                   w: WorkerId)
    requires LeavesOthers(f, g, ws, cs, ps) && w in f.letters && w !in ws && LetterOk(f, w)
    ensures w in g.letters && LetterOk(g, w)
  {
  }

  lemma OtherCancels(f: Fine, g: Fine, ws: set<WorkerId>, cs: set<ClientId>, ps: set<ProcId>,
                     c: ClientId)
    requires LeavesOthers(f, g, ws, cs, ps) && c in f.cancels && c !in cs && CancelOk(f, c)
    ensures c in g.cancels && CancelOk(g, c)
  {
  }

  lemma OtherReaps(f: Fine, g: Fine, ws: set<WorkerId>, cs: set<ClientId>, ps: set<ProcId>,
                   p: ProcId)
    requires LeavesOthers(f, g, ws, cs, ps) && p in f.reaps && p !in ps && ReapOk(f, p)
    ensures p in g.reaps && ReapOk(g, p)
  {
  }

  lemma OthersStayOk(f: Fine, g: Fine, ws: set<WorkerId>, cs: set<ClientId>, ps: set<ProcId>)
    requires FineInv(f) && LeavesOthers(f, g, ws, cs, ps) && Inv(g.base)
    requires forall w | w in ws && w in g.claims :: ClaimOk(g, w)
    requires forall w | w in ws && w in g.letters :: LetterOk(g, w)
    requires forall c | c in cs && c in g.cancels :: CancelOk(g, c)
    requires forall p | p in ps && p in g.reaps :: ReapOk(g, p)
    ensures FineInv(g)
  {
    forall w | w in g.claims ensures ClaimOk(g, w) {
      if w !in ws { assert ClaimOk(f, w); OtherClaims(f, g, ws, cs, ps, w); }
    }
    forall w | w in g.letters ensures LetterOk(g, w) {
      if w !in ws { assert LetterOk(f, w); OtherLetterTxs(f, g, ws, cs, ps, w); }
    }
    forall c | c in g.cancels ensures CancelOk(g, c) {
      if c !in cs { assert CancelOk(f, c); OtherCancels(f, g, ws, cs, ps, c); }
    }
    forall p | p in g.reaps ensures ReapOk(g, p) {
      if p !in ps { assert ReapOk(f, p); OtherReaps(f, g, ws, cs, ps, p); }
    }
  }

  // ----- Each fine step -----

  /** The fine step from f to g keeps the simulation and amounts to these atomic steps. */
  ghost predicate Simulates(f: Fine, g: Fine, steps: seq<Step>) {
    FineInv(g) && Runs(f.base, steps, g.base)
  }

  lemma OneStep(s: State, step: Step, t: State)
    requires Enabled(s, step) && t == Apply(s, step)
    ensures Runs(s, [step], t)
  {
    assert [step][1..] == [];
    assert Runs(t, [step][1..], t);
  }

  /** A worker has at most one transaction open. */
  lemma Places(f: Fine, w: WorkerId)
    requires FineInv(f)
    ensures w in f.claims ==> w in f.base.workers && f.base.workers[w].pc.Scanning?
    ensures w in f.letters ==> w in f.base.workers && f.base.workers[w].pc.Executing?
  {
    if w in f.claims {
      assert ClaimOk(f, w);
    } else if w in f.letters {
      assert LetterOk(f, w);
    }
    assert w in f.claims && w in f.letters ==> ClaimOk(f, w) && LetterOk(f, w);
  }

  lemma SingleRefines(f: Fine, step: Step)
    requires FineInv(f) && CanSingle(f, step)
    ensures Simulates(f, f.(base := Apply(f.base, step)), [step])
  {
    var g := f.(base := Apply(f.base, step));
    StepKeepsInv(f.base, step);
    OneStep(f.base, step, g.base);
    FrameOfStep(f.base, step);
    forall id | id in f.rowLocks ensures RowKept(f.base, g.base, id) { RowOfSingle(f.base, step, id); }
    forall id | id in f.base.hist && id !in f.base.jobs ensures RowKept(f.base, g.base, id) {
      AbsentStep(f.base, step, id);
    }
    forall w | w in f.base.workers && (w in f.claims || w in f.letters)
      ensures w in g.base.workers && SamePlace(f.base.workers[w], g.base.workers[w])
    {
      PlaceOfSingle(f.base, step, w);
    }
    forall w, key | w in f.claims && key in f.base.locks ensures LockKept(f.base, g.base, w, key) {
      LockOfSingle(f.base, step, w, key);
    }
    OthersStayOk(f, g, {}, {}, {});
  }

  lemma BeginClaimRefines(f: Fine, w: WorkerId)
    requires FineInv(f) && w in f.base.workers && f.base.workers[w].pc.Scanning? && w !in f.claims
    ensures Simulates(f, f.(claims := f.claims[w := Begun(f.base.clock)]), [])
  {
    var g := f.(claims := f.claims[w := Begun(f.base.clock)]);
    assert ClaimOk(g, w);
    Places(f, w);
    OthersStayOk(f, g, {w}, {}, {});
  }

  lemma TryLocksRefines(f: Fine, w: WorkerId, keys: multiset<JobId>)
    requires FineInv(f) && CanTryLocks(f, w, keys)
    ensures Simulates(f, f.(base := DoTakeLocks(f.base, w, keys)), [TakeLocks(w, keys)])
  {
    var g := f.(base := DoTakeLocks(f.base, w, keys));
    TakeLocksKeepsInv(f.base, w, keys);
    OneStep(f.base, TakeLocks(w, keys), g.base);
    assert ClaimOk(f, w);
    assert ClaimOk(g, w);
    Places(f, w);
    OthersStayOk(f, g, {w}, {}, {});
  }

  lemma SelectRowRefines(f: Fine, w: WorkerId, id: JobId)
    requires FineInv(f) && CanSelectRow(f, w, id)
    ensures Simulates(f, DoSelectRow(f, w, id), [])
  {
    var g := DoSelectRow(f, w, id);
    assert ClaimOk(f, w);
    assert ClaimOk(g, w);
    Places(f, w);
    OthersStayOk(f, g, {w}, {}, {});
  }

  lemma SelectNoneRefines(f: Fine, w: WorkerId)
    requires FineInv(f) && CanSelectNone(f, w)
    ensures Simulates(f, DoSelectNone(f, w), [ScanEmpty(w)])
  {
    var g := DoSelectNone(f, w);
    ScanEmptyKeepsInv(f.base, w);
    OneStep(f.base, ScanEmpty(w), g.base);
    Places(f, w);
    OthersStayOk(f, g, {w}, {}, {});
  }

  lemma UpdateClaimedRefines(f: Fine, w: WorkerId)
    requires FineInv(f) && CanUpdateClaimed(f, w)
    ensures Simulates(f, DoUpdateClaimed(f, w), [])
  {
    var g := DoUpdateClaimed(f, w);
    assert ClaimOk(f, w);
    assert ClaimOk(g, w);
    Places(f, w);
    OthersStayOk(f, g, {w}, {}, {});
  }

  /** The buffered version is the claim of the committed row, because the row lock kept it. */
  lemma CommitClaimIsClaim(f: Fine, w: WorkerId)
    requires FineInv(f) && CanCommitClaim(f, w)
    ensures var tx := f.claims[w];
            CanClaim(f.base, w, tx.job, tx.at) && DoCommitClaim(f, w).base == DoClaim(f.base, w, tx.job, tx.at)
  {
    assert ClaimOk(f, w);
  }

  lemma CommitClaimRefines(f: Fine, w: WorkerId)
    requires FineInv(f) && CanCommitClaim(f, w)
    ensures Simulates(f, DoCommitClaim(f, w), [Claim(w, f.claims[w].job, f.claims[w].at)])
  {
    var g := DoCommitClaim(f, w);
    var tx := f.claims[w];
    CommitClaimIsClaim(f, w);
    ClaimKeepsInv(f.base, w, tx.job, tx.at);
    OneStep(f.base, Claim(w, tx.job, tx.at), g.base);
    assert ClaimOk(f, w);
    Places(f, w);
    OthersStayOk(f, g, {w}, {}, {});
  }

  lemma LockForCancelRefines(f: Fine, c: ClientId, id: JobId)
    requires FineInv(f) && CanLockForCancel(f, c, id)
    ensures Simulates(f, DoLockForCancel(f, c, id), [])
  {
    var g := DoLockForCancel(f, c, id);
    assert CancelOk(g, c);
    OthersStayOk(f, g, {}, {c}, {});
  }

  lemma EndCancelRefines(f: Fine, c: ClientId)
    requires FineInv(f) && c in f.cancels
    ensures Simulates(f, DoEndCancel(f, c), [])
  {
    assert CancelOk(f, c);
    OthersStayOk(f, DoEndCancel(f, c), {}, {c}, {});
  }

  lemma DeleteRowRefines(f: Fine, c: ClientId)
    requires FineInv(f) && c in f.cancels && f.cancels[c].Checking? && f.cancels[c].status == Pending
    ensures Simulates(f, DoDeleteRow(f, c), [])
  {
    assert CancelOk(f, c);
    assert CancelOk(DoDeleteRow(f, c), c);
    OthersStayOk(f, DoDeleteRow(f, c), {}, {c}, {});
  }

  lemma CommitCancelRefines(f: Fine, c: ClientId)
    requires FineInv(f) && c in f.cancels && f.cancels[c].Deleted?
    ensures Simulates(f, DoCommitCancel(f, c), [Cancel(f.cancels[c].job)])
  {
    var g := DoCommitCancel(f, c);
    var id := f.cancels[c].job;
    assert CancelOk(f, c);
    CancelKeepsInv(f.base, id);
    OneStep(f.base, Cancel(id), g.base);
    OthersStayOk(f, g, {}, {c}, {});
  }

  lemma InsertLetterRefines(f: Fine, w: WorkerId, error: string)
    requires FineInv(f) && CanInsertLetter(f, w)
    ensures Simulates(f, DoInsertLetter(f, w, error), [])
  {
    var g := DoInsertLetter(f, w, error);
    assert LetterOk(g, w);
    Places(f, w);
    OthersStayOk(f, g, {w}, {}, {});
  }

  lemma UpdateDeadRefines(f: Fine, w: WorkerId)
    requires FineInv(f) && CanUpdateDead(f, w)
    ensures Simulates(f, DoUpdateDead(f, w), [])
  {
    UpdateDeadOk(f, w);
    UpdateDeadLeavesOthers(f, w);
    Places(f, w);
    OthersStayOk(f, DoUpdateDead(f, w), {w}, {}, {});
  }

  lemma UpdateDeadOk(f: Fine, w: WorkerId)
    requires FineInv(f) && CanUpdateDead(f, w)
    ensures LetterOk(DoUpdateDead(f, w), w)
  {
    assert LetterOk(f, w);
    OwnJob(f.base, w, f.base.workers[w].pc.exec.id);
  }

  lemma UpdateDeadLeavesOthers(f: Fine, w: WorkerId)
    requires FineInv(f) && CanUpdateDead(f, w)
    ensures LeavesOthers(f, DoUpdateDead(f, w), {w}, {}, {})
  {
  }

  lemma CommitLetterIsDeadLetter(f: Fine, w: WorkerId)
    requires FineInv(f) && CanCommitLetter(f, w)
    ensures var letter := f.letters[w].letter;
            && CanDeadLetter(f.base, w, letter.diedAt)
            && DoCommitLetter(f, w).base == DoDeadLetter(f.base, w, letter.error, letter.diedAt)
  {
    assert LetterOk(f, w);
  }

  lemma CommitLetterRefines(f: Fine, w: WorkerId)
    requires FineInv(f) && CanCommitLetter(f, w)
    ensures var letter := f.letters[w].letter;
            Simulates(f, DoCommitLetter(f, w), [DeadLetterTxn(w, letter.error, letter.diedAt)])
  {
    var g := DoCommitLetter(f, w);
    var letter := f.letters[w].letter;
    CommitLetterIsDeadLetter(f, w);
    DeadLetterKeepsInv(f.base, w, letter.error, letter.diedAt);
    OneStep(f.base, DeadLetterTxn(w, letter.error, letter.diedAt), g.base);
    CommitLetterLeavesOthers(f, w);
    Places(f, w);
    OthersStayOk(f, g, {w}, {}, {});
  }

  lemma CommitLetterLeavesOthers(f: Fine, w: WorkerId)
    requires FineInv(f) && CanCommitLetter(f, w)
    ensures LeavesOthers(f, DoCommitLetter(f, w), {w}, {}, {})
  {
    assert LetterOk(f, w);
  }

  lemma BeginReapRefines(f: Fine, p: ProcId)
    requires FineInv(f) && CanBeginReap(f, p)
    ensures Simulates(f, DoBeginReap(f, p), [])
  {
    assert ReapOk(DoBeginReap(f, p), p);
    OthersStayOk(f, DoBeginReap(f, p), {}, {}, {p});
  }

  lemma ResetOneRefines(f: Fine, p: ProcId, id: JobId)
    requires FineInv(f) && CanResetOne(f, p, id)
    ensures Simulates(f, DoResetOne(f, p, id), [])
  {
    ResetOneOk(f, p, id);
    ResetOneLeavesOthers(f, p, id);
    OthersStayOk(f, DoResetOne(f, p, id), {}, {}, {p});
  }

  lemma ResetOneLeavesOthers(f: Fine, p: ProcId, id: JobId)
    requires CanResetOne(f, p, id)
    ensures LeavesOthers(f, DoResetOne(f, p, id), {}, {}, {p})
  {
  }

  lemma ResetOneOk(f: Fine, p: ProcId, id: JobId)
    requires FineInv(f) && CanResetOne(f, p, id)
    ensures ReapOk(DoResetOne(f, p, id), p)
  {
    assert ReapOk(f, p);
  }

  /** The versions buffered one row at a time amount to one reset of all these rows at the commit:
      they are still there, and stale. */
  lemma CommitReapIsReap(f: Fine, p: ProcId)
    requires FineInv(f) && p in f.reaps
    ensures var tx := f.reaps[p];
            && CanReap(f.base, p, tx.versions.Keys, tx.at)
            && DoCommitReap(f, p).base == DoReap(f.base, tx.versions.Keys)
  {
    var tx := f.reaps[p];
    assert ReapOk(f, p);
    forall id | id in tx.versions ensures id in StaleAt(f.base, tx.at) { }
    assert f.base.jobs + tx.versions == DoReap(f.base, tx.versions.Keys).jobs;
  }

  lemma CommitReapRefines(f: Fine, p: ProcId)
    requires FineInv(f) && p in f.reaps
    ensures Simulates(f, DoCommitReap(f, p), [Reap(p, f.reaps[p].versions.Keys, f.reaps[p].at)])
  {
    var g := DoCommitReap(f, p);
    var rows, at := f.reaps[p].versions.Keys, f.reaps[p].at;
    CommitReapIsReap(f, p);
    ReapKeepsInv(f.base, p, rows, at);
    OneStep(f.base, Reap(p, rows, at), g.base);
    ReapLeavesOthers(f, p);
    OthersStayOk(f, g, {}, {}, {p});
  }

  lemma ReapLeavesOthers(f: Fine, p: ProcId)
    requires FineInv(f) && p in f.reaps
    ensures LeavesOthers(f, DoCommitReap(f, p), {}, {}, {p})
  {
    assert ReapOk(f, p);
    var g := DoCommitReap(f, p);
    forall id | id !in f.reaps[p].versions ensures RowKept(f.base, g.base, id) { }
    forall w | w in f.base.workers ensures w in g.base.workers && SamePlace(f.base.workers[w], g.base.workers[w]) {
      assert g.base.workers[w] == NoteReset(f.base.workers[w], f.reaps[p].versions.Keys);
    }
  }

  lemma AbortReapRefines(f: Fine, p: ProcId)
    requires FineInv(f) && p in f.reaps
    ensures Simulates(f, DoAbortReap(f, p), [])
  {
    OthersStayOk(f, DoAbortReap(f, p), {}, {}, {p});
  }

  lemma RaiseLeavesOthers(f: Fine, w: WorkerId)
    requires CanRaise(f.base, w)
    ensures LeavesOthers(f, RollBack(f, {w}, {}).(base := DoRaise(f.base, w)), {w}, {}, {})
  {
  }

  lemma CrashLeavesOthers(f: Fine, p: ProcId)
    requires CanCrash(f.base, p)
    ensures LeavesOthers(f, RollBack(f, WorkersOf(f.base, p), {p}).(base := DoCrash(f.base, p)),
                         WorkersOf(f.base, p), {}, {p})
  {
  }

  lemma AbortWorkerRefines(f: Fine, w: WorkerId)
    requires FineInv(f) && CanRaise(f.base, w)
    ensures Simulates(f, RollBack(f, {w}, {}).(base := DoRaise(f.base, w)), [Raise(w)])
  {
    var g := RollBack(f, {w}, {}).(base := DoRaise(f.base, w));
    RaiseKeepsInv(f.base, w);
    OneStep(f.base, Raise(w), g.base);
    RaiseLeavesOthers(f, w);
    OthersStayOk(f, g, {w}, {}, {});
  }

  lemma AbortProcessRefines(f: Fine, p: ProcId)
    requires FineInv(f) && CanCrash(f.base, p)
    ensures Simulates(f, RollBack(f, WorkersOf(f.base, p), {p}).(base := DoCrash(f.base, p)), [Crash(p)])
  {
    var g := RollBack(f, WorkersOf(f.base, p), {p}).(base := DoCrash(f.base, p));
    CrashKeepsInv(f.base, p);
    OneStep(f.base, Crash(p), g.base);
    CrashLeavesOthers(f, p);
    OthersStayOk(f, g, WorkersOf(f.base, p), {}, {p});
  }

  lemma StepRefines(f: Fine, fs: FineStep)
    requires FineInv(f) && FineEnabled(f, fs)
    ensures Simulates(f, FineApply(f, fs), Project(f, fs))
  {
    match fs
    case Single(step) => SingleRefines(f, step);
    case BeginClaim(w) => BeginClaimRefines(f, w);
    case TryLocks(w, keys) => TryLocksRefines(f, w, keys);
    case SelectRow(w, id) => SelectRowRefines(f, w, id);
    case SelectNone(w) => SelectNoneRefines(f, w);
    case UpdateClaimed(w) => UpdateClaimedRefines(f, w);
    case CommitClaim(w) => CommitClaimRefines(f, w);
    case LockForCancel(c, id) => LockForCancelRefines(f, c, id);
    case RefuseCancel(c) => EndCancelRefines(f, c);
    case DeleteRow(c) => DeleteRowRefines(f, c);
    case CommitCancel(c) => CommitCancelRefines(f, c);
    case AbortCancel(c) => EndCancelRefines(f, c);
    case InsertLetter(w, error) => InsertLetterRefines(f, w, error);
    case UpdateDead(w) => UpdateDeadRefines(f, w);
    case CommitLetter(w) => CommitLetterRefines(f, w);
    case BeginReap(p) => BeginReapRefines(f, p);
    case ResetOne(p, id) => ResetOneRefines(f, p, id);
    case CommitReap(p) => CommitReapRefines(f, p);
    case AbortReap(p) => AbortReapRefines(f, p);
    case AbortWorker(w) => AbortWorkerRefines(f, w);
    case AbortProcess(p) => AbortProcessRefines(f, p);
  }

  // ----- Runs -----

  ghost predicate FineRuns(f: Fine, steps: seq<FineStep>, g: Fine)
    decreases |steps|
  {
    if steps == [] then f == g
    else FineEnabled(f, steps[0]) && FineRuns(FineApply(f, steps[0]), steps[1..], g)
  }

  ghost function ProjectRun(f: Fine, steps: seq<FineStep>): seq<Step>
    decreases |steps|
  {
    if steps == [] || !FineEnabled(f, steps[0]) then []
    else Project(f, steps[0]) + ProjectRun(FineApply(f, steps[0]), steps[1..])
  }

  lemma {:induction false} RunsConcat(s: State, a: seq<Step>, t: State, b: seq<Step>, u: State)
    requires Runs(s, a, t) && Runs(t, b, u)
    ensures Runs(s, a + b, u)
    decreases |a|
  {
    if a == [] {
      assert a + b == b;
    } else {
      RunsConcat(Apply(s, a[0]), a[1..], t, b, u);
      assert (a + b)[1..] == a[1..] + b;
    }
  }

  /** Every interleaving of statements moves the committed state as a run of atomic steps. */
  lemma {:induction false} FineRunRefines(f: Fine, steps: seq<FineStep>, g: Fine)
    requires FineInv(f) && FineRuns(f, steps, g)
    ensures FineInv(g) && Runs(f.base, ProjectRun(f, steps), g.base)
    decreases |steps|
  {
    if steps != [] {
      StepRefines(f, steps[0]);
      var h := FineApply(f, steps[0]);
      FineRunRefines(h, steps[1..], g);
      RunsConcat(f.base, Project(f, steps[0]), h.base, ProjectRun(h, steps[1..]), g.base);
    }
  }

  ghost predicate FineReachable(f: Fine) {
    exists init: Fine, steps: seq<FineStep> :: FineInitial(init) && FineRuns(init, steps, f)
  }

  /** So all that holds of reachable states of the protocol holds of every committed state. */
  lemma CommittedStatesReachable(f: Fine)
    requires FineReachable(f)
    ensures Reachable(f.base) && FineInv(f)
  {
    var init: Fine, steps: seq<FineStep> :| FineInitial(init) && FineRuns(init, steps, f);
    InitialInv(init.base);
    FineRunRefines(init, steps, f);
  }

  /** While a claim and a cancel are both open they are about different jobs, and so are two
      claims: the row lock admits one of them. */
  lemma OneTransactionPerRow(f: Fine, w: WorkerId, v: WorkerId, c: ClientId)
    requires FineReachable(f) && w in f.claims && !f.claims[w].Begun?
    ensures c in f.cancels ==> f.cancels[c].job != f.claims[w].job
    ensures v in f.claims && v != w && !f.claims[v].Begun? ==> f.claims[v].job != f.claims[w].job
    ensures f.claims[w].job in f.base.jobs && f.base.jobs[f.claims[w].job] == f.claims[w].row
  {
    CommittedStatesReachable(f);
    assert ClaimOk(f, w);
    if c in f.cancels { assert CancelOk(f, c); }
    if v in f.claims { assert ClaimOk(f, v); }
  }

  /** A claim and a cancel never both consume one occurrence of a job in the queue: if a claim of id
      commits and later a cancel of id deletes it, a retry or a reset lies between them. */
  lemma ClaimThenCancel(f: Fine, w: WorkerId, steps: seq<FineStep>, g: Fine, c: ClientId)
    requires FineReachable(f) && FineEnabled(f, CommitClaim(w))
    requires FineRuns(FineApply(f, CommitClaim(w)), steps, g) && FineEnabled(g, CommitCancel(c))
    requires g.cancels[c].job == f.claims[w].job
    ensures var h := FineApply(f, CommitClaim(w));
            RequeuedIn(h.base, ProjectRun(h, steps), f.claims[w].job)
  {
    var id := f.claims[w].job;
    CommittedStatesReachable(f);
    var h := FineApply(f, CommitClaim(w));
    assert ClaimOk(f, w);
    CommitClaimRefines(f, w);
    FineRunRefines(h, steps, g);
    assert CancelOk(g, c);
    ConsumedOnce(h.base, ProjectRun(h, steps), g.base, id);
  }

  /** After a cancel of id commits no claim of id does, nor does any later SELECT return it. */
  lemma CancelThenNoClaim(f: Fine, c: ClientId, steps: seq<FineStep>, g: Fine, w: WorkerId)
    requires FineReachable(f) && FineEnabled(f, CommitCancel(c))
    requires FineRuns(FineApply(f, CommitCancel(c)), steps, g) && w in g.claims && !g.claims[w].Begun?
    ensures g.claims[w].job != f.cancels[c].job
  {
    var id := f.cancels[c].job;
    CommittedStatesReachable(f);
    var h := FineApply(f, CommitCancel(c));
    assert CancelOk(f, c);
    CommitCancelRefines(f, c);
    FineRunRefines(h, steps, g);
    assert ClaimOk(g, w);
    if g.claims[w].job == id { GoneForGood(h.base, ProjectRun(h, steps), g.base, id); }
  }
}
