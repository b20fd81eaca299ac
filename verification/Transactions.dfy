/** The transactions below the protocol's atomic steps. The claim, the cancel and the dead-letter
    transaction are split into their statements, the claim's SELECT into the locks that it tries, and the
    reaper's UPDATE into the rows it changes;
    what they write stays private until commit, and the row locks they take are held until then.
    Every other UPDATE changes at most one row and waits while that is locked; the claim's SELECT
    skips locked rows. Committed states move exactly as the atomic protocol allows. */
module Transactions {
  import opened Schema
  import opened Protocol
  import opened Invariant
  import opened Safety

  type ClientId = nat

  /** Who holds a row lock. */
  datatype Owner = Claimer(w: WorkerId) | Canceller(c: ClientId) | Burier(w: WorkerId) | Reaper(p: ProcId)

  /** _try_claim: BEGIN at `at`; the row that SELECT ... FOR UPDATE SKIP LOCKED returned; the new
      version written by UPDATE. */
  datatype ClaimTx =
    | Begun(at: Time)
    | Selected(at: Time, job: JobId, row: Job)
    | Written(at: Time, job: JobId, row: Job, version: Job)

  /** cancel_job: SELECT status ... FOR UPDATE, then DELETE. */
  datatype CancelTx =
    | Checking(job: JobId, status: Status)
    | Deleted(job: JobId)

  /** The dead-letter transaction: the INSERT, then the UPDATE of the row when it exists. */
  datatype LetterTx =
    | Inserted(letter: DeadLetter)
    | Buried(letter: DeadLetter, version: Option<Job>)

  /** The reaper's UPDATE: its NOW(), and the new versions of the rows it has locked so far. */
  datatype ReapTx = ReapTx(at: Time, versions: map<JobId, Job>)

  datatype Fine = Fine(
    base: State,                        // committed
    claims: map<WorkerId, ClaimTx>,
    cancels: map<ClientId, CancelTx>,
    letters: map<WorkerId, LetterTx>,
    reaps: map<ProcId, ReapTx>,
    rowLocks: map<JobId, Owner>)

  datatype FineStep =
    | Single(step: Step)
    | BeginClaim(w: WorkerId)
    | TryLocks(w: WorkerId, keys: multiset<JobId>)
    | SelectRow(w: WorkerId, job: JobId)
    | SelectNone(w: WorkerId)
    | UpdateClaimed(w: WorkerId)
    | CommitClaim(w: WorkerId)
    | LockForCancel(c: ClientId, job: JobId)
    | RefuseCancel(c: ClientId)
    | DeleteRow(c: ClientId)
    | CommitCancel(c: ClientId)
    | AbortCancel(c: ClientId)
    | InsertLetter(w: WorkerId, error: string)
    | UpdateDead(w: WorkerId)
    | CommitLetter(w: WorkerId)
    | BeginReap(p: ProcId)
    | ResetOne(p: ProcId, job: JobId)
    | CommitReap(p: ProcId)
    | AbortReap(p: ProcId)
    | AbortWorker(w: WorkerId)
    | AbortProcess(p: ProcId)

  predicate FineInitial(f: Fine) {
    Initial(f.base) && f.claims == map[] && f.cancels == map[] && f.letters == map[]
    && f.reaps == map[] && f.rowLocks == map[]
  }

  function Unlocked(rowLocks: map<JobId, Owner>, owner: Owner): map<JobId, Owner> {
    map id | id in rowLocks && rowLocks[id] != owner :: rowLocks[id]
  }

  /** The rows that a single-statement transaction writes. */
  predicate Writes(s: State, step: Step, id: JobId) {
    match step
    case MarkRunning(w) => Executes(s, w, id)
    case SuccessWrite(w, _) => Executes(s, w, id)
    case RetryWrite(w, _) => Executes(s, w, id)
    case Heartbeat(w) => id in s.jobs && BeatsFor(s.jobs[id], w)
    case _ => false
  }

  /** Statements and coroutine moves that are atomic by themselves. */
  predicate IsSingle(step: Step) {
    !step.Claim? && !step.Cancel? && !step.DeadLetterTxn? && !step.TakeLocks? && !step.ScanEmpty?
    && !step.Raise? && !step.Crash? && !step.Reap?
  }

  /** Only the statements of a worker coroutine wait for its open transaction. */
  predicate Interrupts(f: Fine, step: Step) {
    && Actor(step).Some? && OfCoroutine(step, Actor(step).value)
    && (Actor(step).value in f.claims || Actor(step).value in f.letters)
  }

  // ----- _try_claim -----

  /** SELECT tries the advisory locks of rows as the plan visits them; those it gets stay, whatever the
      transaction comes to. */
  predicate CanTryLocks(f: Fine, w: WorkerId, keys: multiset<JobId>) {
    w in f.claims && f.claims[w].Begun? && CanTakeLocks(f.base, w, keys)
  }

  predicate CanSelectRow(f: Fine, w: WorkerId, id: JobId) {
    && w in f.claims && f.claims[w].Begun? && w in f.base.workers
    && f.base.workers[w].pc.Scanning? && id in f.base.workers[w].pc.took
    && id in f.base.locks && f.base.locks[id].holder == w
    && id in f.base.jobs && Due(f.base.jobs[id], f.claims[w].at) && id !in f.rowLocks
  }

  /** FOR UPDATE SKIP LOCKED: the row that passed the WHERE clause is not locked, and is locked now. */
  function DoSelectRow(f: Fine, w: WorkerId, id: JobId): Fine
    requires CanSelectRow(f, w, id)
  {
    f.(rowLocks := f.rowLocks[id := Claimer(w)],
       claims := f.claims[w := Selected(f.claims[w].at, id, f.base.jobs[id])])
  }

  predicate CanSelectNone(f: Fine, w: WorkerId) {
    w in f.claims && f.claims[w].Begun? && CanScanEmpty(f.base, w)
  }

  function DoSelectNone(f: Fine, w: WorkerId): Fine
    requires CanSelectNone(f, w)
  {
    f.(base := DoScanEmpty(f.base, w), claims := f.claims - {w})
  }

  predicate CanUpdateClaimed(f: Fine, w: WorkerId) {
    w in f.claims && f.claims[w].Selected? && f.claims[w].job in f.base.jobs
  }

  /** UPDATE writes a new version of the current row. */
  function DoUpdateClaimed(f: Fine, w: WorkerId): Fine
    requires CanUpdateClaimed(f, w)
  {
    var tx := f.claims[w];
    f.(claims := f.claims[w := Written(tx.at, tx.job, tx.row, ClaimedRow(f.base.jobs[tx.job], w, tx.at))])
  }

  predicate CanCommitClaim(f: Fine, w: WorkerId) {
    w in f.claims && f.claims[w].Written? && w in f.base.workers
  }

  /** The buffered version becomes the row. */
  function DoCommitClaim(f: Fine, w: WorkerId): Fine
    requires CanCommitClaim(f, w)
  {
    var tx := f.claims[w];
    f.(base := RecordClaim(f.base.(jobs := f.base.jobs[tx.job := tx.version]), w, tx.job, tx.row, tx.at),
       claims := f.claims - {w}, rowLocks := Unlocked(f.rowLocks, Claimer(w)))
  }

  // ----- cancel_job -----

  predicate CanLockForCancel(f: Fine, c: ClientId, id: JobId) {
    c !in f.cancels && id in f.base.jobs && id !in f.rowLocks
  }

  function DoLockForCancel(f: Fine, c: ClientId, id: JobId): Fine
    requires CanLockForCancel(f, c, id)
  {
    f.(cancels := f.cancels[c := Checking(id, f.base.jobs[id].status)],
       rowLocks := f.rowLocks[id := Canceller(c)])
  }

  function DoDeleteRow(f: Fine, c: ClientId): Fine
    requires c in f.cancels
  {
    f.(cancels := f.cancels[c := Deleted(f.cancels[c].job)])
  }

  function DoCommitCancel(f: Fine, c: ClientId): Fine
    requires c in f.cancels
  {
    f.(base := DoCancel(f.base, f.cancels[c].job),
       cancels := f.cancels - {c}, rowLocks := Unlocked(f.rowLocks, Canceller(c)))
  }

  /** 409, or any failure. */
  function DoEndCancel(f: Fine, c: ClientId): Fine {
    f.(cancels := f.cancels - {c}, rowLocks := Unlocked(f.rowLocks, Canceller(c)))
  }

  // ----- The dead-letter transaction -----

  predicate CanInsertLetter(f: Fine, w: WorkerId) {
    w !in f.letters && CanDeadLetter(f.base, w, f.base.clock)
  }

  function DoInsertLetter(f: Fine, w: WorkerId, error: string): Fine
    requires CanInsertLetter(f, w)
  {
    f.(letters := f.letters[w := Inserted(LetterFor(f.base.workers[w].pc.exec, w, error, f.base.clock))])
  }

  predicate CanUpdateDead(f: Fine, w: WorkerId) {
    w in f.letters && f.letters[w].Inserted? && f.letters[w].letter.originalId !in f.rowLocks
  }

  function DoUpdateDead(f: Fine, w: WorkerId): Fine
    requires CanUpdateDead(f, w)
  {
    var letter := f.letters[w].letter;
    var id := letter.originalId;
    if id in f.base.jobs then
      f.(letters := f.letters[w := Buried(letter, Some(DeadRow(f.base.jobs[id], letter.error)))],
         rowLocks := f.rowLocks[id := Burier(w)])
    else f.(letters := f.letters[w := Buried(letter, None)])
  }

  predicate CanCommitLetter(f: Fine, w: WorkerId) {
    w in f.letters && f.letters[w].Buried? && w in f.base.workers
  }

  function DoCommitLetter(f: Fine, w: WorkerId): Fine
    requires CanCommitLetter(f, w)
  {
    var tx := f.letters[w];
    var id := tx.letter.originalId;
    f.(base := RecordLetter(if tx.version.Some? then f.base.(jobs := f.base.jobs[id := tx.version.value]) else f.base,
                            w, tx.letter),
       letters := f.letters - {w}, rowLocks := Unlocked(f.rowLocks, Burier(w)))
  }

  // ----- stale_reaper_loop -----

  predicate CanBeginReap(f: Fine, p: ProcId) {
    p !in f.reaps && p !in f.base.down && p !in f.base.crashed
  }

  function DoBeginReap(f: Fine, p: ProcId): Fine {
    f.(reaps := f.reaps[p := ReapTx(f.base.clock, map[])])
  }

  /** The UPDATE reaches a row that is not locked, or no more; its WHERE clause is evaluated on the
      current version. */
  predicate CanResetOne(f: Fine, p: ProcId, id: JobId) {
    p in f.reaps && id in StaleAt(f.base, f.reaps[p].at) && id !in f.rowLocks
  }

  function DoResetOne(f: Fine, p: ProcId, id: JobId): Fine
    requires CanResetOne(f, p, id)
  {
    var tx := f.reaps[p];
    f.(reaps := f.reaps[p := ReapTx(tx.at, tx.versions[id := ResetRow(f.base.jobs[id])])],
       rowLocks := f.rowLocks[id := Reaper(p)])
  }

  function DoCommitReap(f: Fine, p: ProcId): Fine
    requires p in f.reaps
  {
    var tx := f.reaps[p];
    f.(base := NoteResets(f.base.(jobs := f.base.jobs + tx.versions), tx.versions.Keys),
       reaps := f.reaps - {p}, rowLocks := Unlocked(f.rowLocks, Reaper(p)))
  }

  function DoAbortReap(f: Fine, p: ProcId): Fine {
    f.(reaps := f.reaps - {p}, rowLocks := Unlocked(f.rowLocks, Reaper(p)))
  }

  // ----- Aborts -----

  predicate OwnedBy(owner: Owner, ws: set<WorkerId>, ps: set<ProcId>) {
    match owner
    case Claimer(w) => w in ws
    case Burier(w) => w in ws
    case Canceller(_) => false
    case Reaper(p) => p in ps
  }

  /** The open transactions of these workers and reapers end without effect. */
  function RollBack(f: Fine, ws: set<WorkerId>, ps: set<ProcId>): Fine {
    f.(claims := f.claims - ws, letters := f.letters - ws, reaps := f.reaps - ps,
       rowLocks := map id | id in f.rowLocks && !OwnedBy(f.rowLocks[id], ws, ps) :: f.rowLocks[id])
  }

  function WorkersOf(s: State, p: ProcId): set<WorkerId> {
    set w | w in s.workers && s.workers[w].proc == p
  }

  predicate CanSingle(f: Fine, step: Step) {
    && IsSingle(step) && Enabled(f.base, step) && !Interrupts(f, step)
    && forall id | id in f.rowLocks :: !Writes(f.base, step, id)
  }

  predicate FineEnabled(f: Fine, fs: FineStep) {
    match fs
    case Single(step) => CanSingle(f, step)
    case BeginClaim(w) => w in f.base.workers && f.base.workers[w].pc.Scanning? && w !in f.claims
    case TryLocks(w, keys) => CanTryLocks(f, w, keys)
    case SelectRow(w, id) => CanSelectRow(f, w, id)
    case SelectNone(w) => CanSelectNone(f, w)
    case UpdateClaimed(w) => CanUpdateClaimed(f, w)
    case CommitClaim(w) => CanCommitClaim(f, w)
    case LockForCancel(c, id) => CanLockForCancel(f, c, id)
    case RefuseCancel(c) => c in f.cancels && f.cancels[c].Checking? && f.cancels[c].status != Pending
    case DeleteRow(c) => c in f.cancels && f.cancels[c].Checking? && f.cancels[c].status == Pending
    case CommitCancel(c) => c in f.cancels && f.cancels[c].Deleted?
    case AbortCancel(c) => c in f.cancels
    case InsertLetter(w, error) => CanInsertLetter(f, w)
    case UpdateDead(w) => CanUpdateDead(f, w)
    case CommitLetter(w) => CanCommitLetter(f, w)
    case BeginReap(p) => CanBeginReap(f, p)
    case ResetOne(p, id) => CanResetOne(f, p, id)
    case CommitReap(p) => p in f.reaps
    case AbortReap(p) => p in f.reaps
    case AbortWorker(w) => CanRaise(f.base, w)
    case AbortProcess(p) => CanCrash(f.base, p)
  }

  function FineApply(f: Fine, fs: FineStep): Fine
    requires FineEnabled(f, fs)
  {
    match fs
    case Single(step) => f.(base := Apply(f.base, step))
    case BeginClaim(w) => f.(claims := f.claims[w := Begun(f.base.clock)])
    case TryLocks(w, keys) => f.(base := DoTakeLocks(f.base, w, keys))
    case SelectRow(w, id) => DoSelectRow(f, w, id)
    case SelectNone(w) => DoSelectNone(f, w)
    case UpdateClaimed(w) => DoUpdateClaimed(f, w)
    case CommitClaim(w) => DoCommitClaim(f, w)
    case LockForCancel(c, id) => DoLockForCancel(f, c, id)
    case RefuseCancel(c) => DoEndCancel(f, c)
    case DeleteRow(c) => DoDeleteRow(f, c)
    case CommitCancel(c) => DoCommitCancel(f, c)
    case AbortCancel(c) => DoEndCancel(f, c)
    case InsertLetter(w, error) => DoInsertLetter(f, w, error)
    case UpdateDead(w) => DoUpdateDead(f, w)
    case CommitLetter(w) => DoCommitLetter(f, w)
    case BeginReap(p) => DoBeginReap(f, p)
    case ResetOne(p, id) => DoResetOne(f, p, id)
    case CommitReap(p) => DoCommitReap(f, p)
    case AbortReap(p) => DoAbortReap(f, p)
    case AbortWorker(w) => RollBack(f, {w}, {}).(base := DoRaise(f.base, w))
    case AbortProcess(p) => RollBack(f, WorkersOf(f.base, p), {p}).(base := DoCrash(f.base, p))
  }

  /** The atomic steps that a fine step amounts to: none before commit, except that advisory locks
      are taken at once. */
  function Project(f: Fine, fs: FineStep): seq<Step>
    requires FineEnabled(f, fs)
  {
    match fs
    case Single(step) => [step]
    case TryLocks(w, keys) => [TakeLocks(w, keys)]
    case SelectNone(w) => [ScanEmpty(w)]
    case CommitClaim(w) => [Claim(w, f.claims[w].job, f.claims[w].at)]
    case CommitCancel(c) => [Cancel(f.cancels[c].job)]
    case CommitLetter(w) => [DeadLetterTxn(w, f.letters[w].letter.error, f.letters[w].letter.diedAt)]
    case CommitReap(p) => [Reap(p, f.reaps[p].versions.Keys, f.reaps[p].at)]
    case AbortWorker(w) => [Raise(w)]
    case AbortProcess(p) => [Crash(p)]
    case _ => []
  }

  // ----- The simulation relation -----

  ghost predicate ClaimOk(f: Fine, w: WorkerId)
    requires w in f.claims
  {
    var tx := f.claims[w];
    && w in f.base.workers && f.base.workers[w].pc.Scanning? && tx.at <= f.base.clock
    && (!tx.Begun? ==>
          && tx.job in f.base.jobs && f.base.jobs[tx.job] == tx.row && Due(tx.row, tx.at)
          && tx.job in f.base.workers[w].pc.took
          && tx.job in f.base.locks && f.base.locks[tx.job].holder == w
          && tx.job in f.rowLocks && f.rowLocks[tx.job] == Claimer(w))
    && (tx.Written? ==> tx.version == ClaimedRow(tx.row, w, tx.at))
  }

  ghost predicate CancelOk(f: Fine, c: ClientId)
    requires c in f.cancels
  {
    var id := f.cancels[c].job;
    && id in f.rowLocks && f.rowLocks[id] == Canceller(c)
    && id in f.base.jobs
    && f.base.jobs[id].status == (if f.cancels[c].Checking? then f.cancels[c].status else Pending)
  }

  ghost predicate LetterOk(f: Fine, w: WorkerId)
    requires w in f.letters
  {
    var letter := f.letters[w].letter;
    && CanDeadLetter(f.base, w, letter.diedAt)
    && letter == LetterFor(f.base.workers[w].pc.exec, w, letter.error, letter.diedAt)
    && (f.letters[w].Buried? ==>
          var id := letter.originalId;
          if id in f.base.jobs then
            && id in f.rowLocks && f.rowLocks[id] == Burier(w)
            && f.letters[w].version == Some(DeadRow(f.base.jobs[id], letter.error))
          else id in f.base.hist && f.letters[w].version == None)
  }

  ghost predicate ReapOk(f: Fine, p: ProcId)
    requires p in f.reaps
  {
    var tx := f.reaps[p];
    && p !in f.base.crashed && tx.at <= f.base.clock
    && forall id | id in tx.versions ::
         && id in f.base.jobs && StaleRow(f.base.jobs[id], tx.at) && tx.versions[id] == ResetRow(f.base.jobs[id])
         && id in f.rowLocks && f.rowLocks[id] == Reaper(p)
  }

  ghost predicate FineInv(f: Fine) {
    && Inv(f.base)
    && (forall w {:trigger ClaimOk(f, w)} | w in f.claims :: ClaimOk(f, w))
    && (forall c {:trigger CancelOk(f, c)} | c in f.cancels :: CancelOk(f, c))
    && (forall w {:trigger LetterOk(f, w)} | w in f.letters :: LetterOk(f, w))
    && (forall p {:trigger ReapOk(f, p)} | p in f.reaps :: ReapOk(f, p))
  }
}
