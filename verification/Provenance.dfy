/** How a dead letter can be left without a dead job: the positions of the steps that lead to it. */
module Provenance {
  import opened Schema
  import opened Protocol
  import opened Invariant
  import opened Preservation
  import opened PreservationGlobal
  import opened Safety

  lemma {:induction false} LastStep(s: State, steps: seq<Step>, t: State) returns (mid: State)
    requires Runs(s, steps, t) && steps != []
    ensures var n := |steps| - 1;
            Runs(s, steps[..n], mid) && Enabled(mid, steps[n]) && t == Apply(mid, steps[n])
    decreases |steps|
  {
    var n := |steps| - 1;
    if n == 0 {
      mid := s;
    } else {
      mid := LastStep(Apply(s, steps[0]), steps[1..], t);
      assert steps[1..][..n - 1] == steps[..n][1..];
      assert steps[1..][n - 1] == steps[n];
    }
  }

  /** Step a is the last claim of id, and w made it. */
  predicate ClaimedAt(steps: seq<Step>, a: nat, w: WorkerId, id: JobId) {
    && a < |steps| && steps[a].Claim? && steps[a].w == w && steps[a].job == id
    && forall k | a < k < |steps| :: !(steps[k].Claim? && steps[k].job == id)
  }

  predicate ResetAt(steps: seq<Step>, b: nat, id: JobId) {
    b < |steps| && Resets(steps[b], id)
  }

  predicate CancelledAt(steps: seq<Step>, c: nat, id: JobId) {
    c < |steps| && steps[c] == Cancel(id)
  }

  ghost predicate CancelAfter(steps: seq<Step>, b: nat, id: JobId) {
    exists c: nat :: b < c && CancelledAt(steps, c, id)
  }

  ghost predicate ResetAfter(steps: seq<Step>, a: nat, id: JobId, inTable: bool) {
    exists b: nat :: a < b && ResetAt(steps, b, id) && (inTable || CancelAfter(steps, b, id))
  }

  /** A run that ends with w executing id: w claimed it last; if the row was reset since, then after the
      claim; if it was deleted since, then by a cancel after such a reset. */
  ghost predicate ExecStory(steps: seq<Step>, w: WorkerId, id: JobId, wasReset: bool, inTable: bool) {
    exists a: nat :: ClaimedAt(steps, a, w, id) && (wasReset ==> ResetAfter(steps, a, id, inTable))
  }

  /** Appending a step that neither claims, resets nor cancels anything that matters. */
  lemma StoryGoesOn(steps: seq<Step>, step: Step, w: WorkerId, id: JobId, wasReset: bool, inTable: bool,
                    wasReset': bool, inTable': bool)
    requires ExecStory(steps, w, id, wasReset, inTable) && !(step.Claim? && step.job == id)
    requires wasReset' ==> wasReset || Resets(step, id)
    requires !inTable ==> wasReset
    requires !inTable' ==> wasReset && (!inTable || step == Cancel(id))
    ensures ExecStory(steps + [step], w, id, wasReset', inTable')
  {
    var steps', n := steps + [step], |steps|;
    var a: nat :| ClaimedAt(steps, a, w, id) && (wasReset ==> ResetAfter(steps, a, id, inTable));
    assert ClaimedAt(steps', a, w, id);
    if wasReset {
      var b: nat :| a < b && ResetAt(steps, b, id) && (inTable || CancelAfter(steps, b, id));
      assert ResetAt(steps', b, id);
      if !inTable {
        var c: nat :| b < c && CancelledAt(steps, c, id);
        assert CancelledAt(steps', c, id);
      } else if !inTable' {
        assert CancelledAt(steps', n, id);
      }
    } else if wasReset' {
      assert ResetAt(steps', n, id);
    }
  }

  lemma RowLeaves(s: State, step: Step, id: JobId)
    requires Inv(s) && Enabled(s, step) && id in s.jobs && id !in Apply(s, step).jobs
    ensures step == Cancel(id) && s.jobs[id].status == Pending
  {
    if !TouchesJobs(step) {
      TablesOfStep(s, step);
    } else if WritesRow(step) {
      FrameOfWrite(s, step);
    }
  }

  /** A worker begins to execute a job only by claiming it. */
  lemma ExecutionBegins(s: State, step: Step, w: WorkerId, id: JobId)
    requires Enabled(s, step) && !Executes(s, w, id) && Executes(Apply(s, step), w, id)
    ensures step.Claim? && step.w == w && step.job == id
    ensures !Apply(s, step).workers[w].pc.exec.wasReset && id in Apply(s, step).jobs
  {
    if w !in s.workers {
      NewWorkerStarts(s, step, w);
    } else {
      OpenOfStep(s, step, w);
      if Actor(step) != Some(w) {
        OthersStep(s, step, w);
      } else if WritesRow(step) {
        OpenOfWrite(s, step);
      } else {
        OpenOfMove(s, step, w);
      }
    }
  }

  lemma {:induction false} ExecOrigin(init: State, steps: seq<Step>, s: State, w: WorkerId, id: JobId)
    requires Initial(init) && Runs(init, steps, s) && Executes(s, w, id)
    ensures ExecStory(steps, w, id, s.workers[w].pc.exec.wasReset, id in s.jobs)
    decreases |steps|
  {
    var n := |steps| - 1;
    var mid := LastStep(init, steps, s);
    assert steps == steps[..n] + [steps[n]];
    InitialInv(init);
    RunKeepsInv(init, steps[..n], mid);
    if Executes(mid, w, id) {
      ExecOrigin(init, steps[..n], mid, w, id);
      ExecContinues(mid, steps[n], w, id);
      StoryGoesOn(steps[..n], steps[n], w, id, mid.workers[w].pc.exec.wasReset, id in mid.jobs,
                  s.workers[w].pc.exec.wasReset, id in s.jobs);
    } else {
      ExecutionBegins(mid, steps[n], w, id);
      assert ClaimedAt(steps, n, w, id);
    }
  }

  lemma ExecContinues(s: State, step: Step, w: WorkerId, id: JobId)
    requires Inv(s) && Enabled(s, step) && Executes(s, w, id) && Executes(Apply(s, step), w, id)
    ensures !(step.Claim? && step.job == id)
    ensures var before, now := s.workers[w].pc.exec.wasReset, Apply(s, step).workers[w].pc.exec.wasReset;
            && (now ==> before || Resets(step, id))
            && (id !in s.jobs ==> before)
            && (id !in Apply(s, step).jobs ==> before && (id !in s.jobs || step == Cancel(id)))
  {
    ExecutorClaimed(s, w, id);
    ExecOfStep(s, step, w, id);
    assert WorkerInv(s, w);
    if id in s.jobs && id !in Apply(s, step).jobs { RowLeaves(s, step, id); }
  }

  /** The story of a dead letter whose job is gone. */
  ghost predicate LetterStory(steps: seq<Step>, w: WorkerId, id: JobId) {
    exists a: nat, b: nat, c: nat, d: nat ::
      && a < b < c < d < |steps|
      && ClaimedAt(steps, a, w, id) && ResetAt(steps, b, id) && CancelledAt(steps, c, id)
      && steps[d].DeadLetterTxn? && steps[d].w == w
  }

  lemma LetterStoryGoesOn(steps: seq<Step>, step: Step, w: WorkerId, id: JobId)
    requires LetterStory(steps, w, id) && !(step.Claim? && step.job == id)
    ensures LetterStory(steps + [step], w, id)
  {
    var steps' := steps + [step];
    var a: nat, b: nat, c: nat, d: nat :|
      && a < b < c < d < |steps|
      && ClaimedAt(steps, a, w, id) && ResetAt(steps, b, id) && CancelledAt(steps, c, id)
      && steps[d].DeadLetterTxn? && steps[d].w == w;
    assert ClaimedAt(steps', a, w, id) && ResetAt(steps', b, id) && CancelledAt(steps', c, id) && steps'[d] == steps[d];
  }

  lemma LetterStoryEnds(steps: seq<Step>, step: Step, w: WorkerId, id: JobId)
    requires ExecStory(steps, w, id, true, false) && step.DeadLetterTxn? && step.w == w
    ensures LetterStory(steps + [step], w, id)
  {
    StoryGoesOn(steps, step, w, id, true, false, true, false);
    var steps', n := steps + [step], |steps|;
    var a: nat :| ClaimedAt(steps', a, w, id) && ResetAfter(steps', a, id, false);
    var b: nat :| a < b && ResetAt(steps', b, id) && CancelAfter(steps', b, id);
    var c: nat :| b < c && CancelledAt(steps', c, id);
    assert steps'[n] == step && a < b < c < n;
  }

  /** In a run from the empty queue, a dead letter without a dead job was written after, in this order: the
      last claim of the job, a reset of its row, a cancel. The worker of that claim wrote it. */
  lemma {:induction false} LetterOrigin(init: State, steps: seq<Step>, s: State, i: nat)
    requires Initial(init) && Runs(init, steps, s) && i < |s.dead| && s.dead[i].originalId !in s.jobs
    ensures LetterStory(steps, s.dead[i].workerId, s.dead[i].originalId)
    decreases |steps|
  {
    var n := |steps| - 1;
    var mid := LastStep(init, steps, s);
    assert steps == steps[..n] + [steps[n]];
    InitialInv(init);
    RunKeepsInv(init, steps[..n], mid);
    LettersOfStep(mid, steps[n], i);
    if i < |mid.dead| {
      LetterStays(mid, steps[n], i);
      LetterOrigin(init, steps[..n], mid, i);
      LetterStoryGoesOn(steps[..n], steps[n], s.dead[i].workerId, s.dead[i].originalId);
    } else {
      var w, id := steps[n].w, s.dead[i].originalId;
      assert WorkerInv(mid, w);
      ExecOrigin(init, steps[..n], mid, w, id);
      LetterStoryEnds(steps[..n], steps[n], w, id);
    }
  }

  lemma LettersOfStep(s: State, step: Step, i: nat)
    requires Enabled(s, step) && i < |Apply(s, step).dead|
    ensures var t := Apply(s, step);
            if i < |s.dead| then t.dead[i] == s.dead[i]
            else && step.DeadLetterTxn? && t.dead[i].workerId == step.w
                 && Executes(s, step.w, t.dead[i].originalId)
                 && (t.dead[i].originalId !in t.jobs ==> t.dead[i].originalId !in s.jobs)
  {
    if !step.DeadLetterTxn? { FrameOfStep(s, step); }
  }

  /** A job with a dead letter stays dead or stays deleted. */
  lemma LetterStays(s: State, step: Step, i: nat)
    requires Inv(s) && Enabled(s, step) && i < |s.dead|
    requires var id := s.dead[i].originalId; id !in Apply(s, step).jobs
    ensures var id := s.dead[i].originalId; id !in s.jobs && !(step.Claim? && step.job == id)
  {
    assert LetterInv(s, i);
    if s.dead[i].originalId in s.jobs { TerminalStep(s, step, s.dead[i].originalId); }
  }
}
