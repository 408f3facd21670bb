/** Safety of the stop protocol over whole runs: what a report shows after a
    stop, that a start is not undone, and that the mark is durable. */
module StopSafety {
  import opened Prelude
  import opened Substrate
  import opened StopProtocol

  /** A run of a freshly opened driver. */
  ghost predicate FromIdle(r: Run) {
    IsRun(r) && r.states[0].tasks == map[] && r.states[0].mem == r.states[0].disk
  }

  ghost predicate NoClearBetween(r: Run, a: int, b: int)
    requires IsRun(r)
  {
    forall x | a < x < b && 0 <= x < |r.labels| :: !Clears(r.states[x], r.labels[x])
  }

  // --------------------------------------------------- how a step touches the mark

  lemma UnclearedMarkStays(s: State, l: Label)
    requires Enabled(s, l) && !Clears(s, l)
    ensures s.disk ==> Next(s, l).disk
    ensures s.disk && s.mem ==> Next(s, l).mem
  {
  }

  /** Only a marking writes the marker and only a second half fills the cache. */
  lemma MarkOrigin(s: State, l: Label)
    requires Enabled(s, l)
    ensures !s.disk && Next(s, l).disk ==> MarksDisk(s, l)
    ensures !s.mem && Next(s, l).mem ==>
              || (l.Restart? && s.disk)
              || (l.Act? && (s.tasks[l.task].CkMem? || s.tasks[l.task].StRemarkMem?))
  {
  }

  // ------------------------------------------------- a stop shows in the reports

  /** The marker is written, and a checkpoint that got to its RPC has it cached. */
  ghost predicate StopSecured(s: State) {
    s.disk && forall t | t in s.tasks && s.tasks[t].CkRpc? :: s.mem
  }

  /** A task's pc after a step is its own doing, or it is new, or it is unchanged. */
  lemma PcOrigin(s: State, l: Label, t: nat)
    requires Enabled(s, l) && t in Next(s, l).tasks
    ensures var pc := Next(s, l).tasks[t];
      || (t in s.tasks && s.tasks[t] == pc)
      || (t !in s.tasks && ((l.Arrive? && l.task == t && l.pc == pc) || pc == AgWait))
      || (t in s.tasks && l == Acquire(t) && pc == AfterLock(s.tasks[t]))
      || (t in s.tasks && l.Act? && l.task == t && !Waiting(pc) && Op(pc) == Op(s.tasks[t]))
  {
    if l.Act? {
      ActShape(s, l.task, l.outcome, l.child);
    }
  }

  /** The step before a checkpoint's memory write, and the one before its RPC. */
  lemma CheckpointOrigin(s: State, l: Label, t: nat)
    requires Enabled(s, l) && t in Next(s, l).tasks
    requires Next(s, l).tasks[t].CkMem? || Next(s, l).tasks[t].CkRpc?
    ensures t in s.tasks
    ensures s.tasks[t] == Next(s, l).tasks[t] || (l.Act? && l.task == t)
    ensures l.Act? && l.task == t ==>
              if Next(s, l).tasks[t].CkMem? then MarksDisk(s, l) && s.tasks[t].CkDisk?
              else s.tasks[t].CkMem? && Next(s, l).mem
  {
    PcOrigin(s, l, t);
  }

  /** Step m is the marking that the checkpoint acting at step k went through. */
  ghost predicate IsMarkingOf(r: Run, m: int, k: int)
    requires IsRun(r)
  {
    && 0 <= m < k < |r.labels| && r.labels[k].Act?
    && var t := r.labels[k].task;
       && MarksDisk(r.states[m], r.labels[m]) && r.labels[m].task == t && r.states[m].tasks[t].CkDisk?
       && forall x | m < x <= k ::
            t in r.states[x].tasks && (r.states[x].tasks[t].CkMem? || r.states[x].tasks[t].CkRpc?)
  }

  /** Looking back from a checkpoint that is past its marker write to that write. */
  lemma {:induction false} MarkingBefore(r: Run, t: nat, k: nat) returns (m: nat)
    requires FromIdle(r) && k < |r.states|
    requires t in r.states[k].tasks && (r.states[k].tasks[t].CkMem? || r.states[k].tasks[t].CkRpc?)
    ensures m < k && MarksDisk(r.states[m], r.labels[m]) && r.labels[m].task == t
    ensures r.states[m].tasks[t].CkDisk?
    ensures forall x | m < x <= k ::
              t in r.states[x].tasks && (r.states[x].tasks[t].CkMem? || r.states[x].tasks[t].CkRpc?)
  {
    hide Next;
    CheckpointOrigin(r.states[k - 1], r.labels[k - 1], t);
    if r.states[k - 1].tasks[t].CkDisk? {
      m := k - 1;
    } else {
      m := MarkingBefore(r, t, k - 1);
    }
  }

  lemma StopSecuredStep(s: State, l: Label)
    requires LockHeld(s) && Enabled(s, l) && !Clears(s, l) && StopSecured(s)
    ensures StopSecured(Next(s, l))
  {
    UnclearedMarkStays(s, l);
    forall t | t in Next(s, l).tasks && Next(s, l).tasks[t].CkRpc?
      ensures Next(s, l).mem
    {
      CheckpointOrigin(s, l, t);
    }
  }

  lemma {:induction false} SecuredFromMarkingOn(r: Run, m: nat, x: nat)
    requires IsRun(r) && m < x < |r.states| && MarksDisk(r.states[m], r.labels[m]) && NoClearBetween(r, m, x)
    ensures StopSecured(r.states[x])
    decreases x
  {
    LockHeldAlways(r, x - 1);
    if x == m + 1 {
      MarkingSecures(r.states[m], r.labels[m]);
    } else {
      SecuredFromMarkingOn(r, m, x - 1);
      StopSecuredStep(r.states[x - 1], r.labels[x - 1]);
    }
  }

  /** Once a checkpoint's RPC has taken effect the mark is up on disk and in
      memory, and stays so until something clears it. */
  lemma {:induction false} MarkedFromStopOn(r: Run, m: nat, k: nat, x: nat)
    requires IsRun(r) && IsMarkingOf(r, m, k) && StopTakesEffect(r.states[k], r.labels[k])
    requires k <= x < |r.states| && NoClearBetween(r, m, x)
    ensures r.states[x].disk && r.states[x].mem
    decreases x
  {
    hide Next;
    if x == k {
      SecuredFromMarkingOn(r, m, k);
    } else {
      MarkedFromStopOn(r, m, k, x - 1);
      UnclearedMarkStays(r.states[x - 1], r.labels[x - 1]);
    }
  }

  lemma MarkingSecures(s: State, l: Label)
    requires LockHeld(s) && Enabled(s, l) && MarksDisk(s, l)
    ensures StopSecured(Next(s, l))
  {
    forall t | t in Next(s, l).tasks && Next(s, l).tasks[t].CkRpc?
      ensures false
    {
      CheckpointOrigin(s, l, t);
    }
  }

  /** A report whose mark was read after a checkpoint's RPC took effect, whatever
      state it saw and whatever the actor went through in between, carries the
      gateway-stopped rows and never the "checkpointed by Substrate" row, unless
      something cleared the mark between that checkpoint's marking and the report's
      own reading of it. */
  lemma StopIsReported(r: Run, o: nat, j: int, k: int, seen: ActorState)
    requires FromIdle(r) && 0 <= k < j < |r.labels|
    requires StopTakesEffect(r.states[k], r.labels[k]) && ReadsMark(r.states[j], r.labels[j], o, seen)
    requires forall m | IsMarkingOf(r, m, k) :: NoClearBetween(r, m, j)
    ensures r.states[j].mem
    ensures seen in {Suspended, Running, Resuming, Reverting} ==>
              ActorStateConditions(seen, r.states[j].mem) == STOPPED_ROWS
    ensures seen == Suspending ==> ActorStateConditions(seen, r.states[j].mem) == STOP_IN_FLIGHT_ROWS
    ensures SUBSTRATE_CHECKPOINT_ROW !in ActorStateConditions(seen, r.states[j].mem)
  {
    var m := MarkingBefore(r, r.labels[k].task, k);
    assert IsMarkingOf(r, m, k);
    MarkedFromStopOn(r, m, k, j);
  }

  /** An observer at its mark read got there by reading that very state. */
  lemma MarkOriginates(s: State, l: Label, o: nat)
    requires Enabled(s, l) && o in Next(s, l).tasks && AtMark(Next(s, l).tasks[o])
    ensures o in s.tasks
    ensures s.tasks[o] == Next(s, l).tasks[o] || (ReadsState(s, l, o) && Next(s, l).tasks[o].poll == s.sub)
  {
    hide CheckpointNext, StartNext, AgainNext, CreateNext, DeleteNext;
    PcOrigin(s, l, o);
  }

  /** In every run the mark is read after the state: whoever saw the stop in the
      actor's state therefore reports it by StopIsReported. */
  lemma {:induction false} StateBeforeMark(r: Run, o: nat, j: nat) returns (i: nat)
    requires FromIdle(r) && j < |r.states| && o in r.states[j].tasks && AtMark(r.states[j].tasks[o])
    ensures i < j && ReadsState(r.states[i], r.labels[i], o)
    ensures forall x | i < x <= j :: o in r.states[x].tasks && r.states[x].tasks[o] == r.states[j].tasks[o]
    ensures r.states[j].tasks[o].poll == r.states[i].sub
  {
    hide Next, Enabled, AtMark, ReadsState;
    assert j > 0;
    MarkOriginates(r.states[j - 1], r.labels[j - 1], o);
    if r.states[j - 1].tasks[o] == r.states[j].tasks[o] {
      i := StateBeforeMark(r, o, j - 1);
    } else {
      i := j - 1;
    }
  }

  // ------------------------------------------------------ a start is not undone

  /** What a start has cleared stays cleared while it holds the lock. */
  ghost predicate StartCleared(s: State) {
    forall t | t in s.tasks ::
      (s.tasks[t].StMem? ==> !s.disk) && (s.tasks[t].StRpc? ==> !s.disk && !s.mem)
  }

  /** Neither mark is up and no task is past the check, so no re-suspend is due. */
  ghost predicate NoSuspendDue(s: State) {
    && !s.disk && !s.mem
    && forall t | t in s.tasks ::
         !s.tasks[t].AgGet? && !s.tasks[t].AgRpc? && !s.tasks[t].CkMem? && !s.tasks[t].StRemarkMem?
  }

  lemma StartOrigin(s: State, l: Label, t: nat)
    requires Enabled(s, l) && t in Next(s, l).tasks
    requires Next(s, l).tasks[t].StMem? || Next(s, l).tasks[t].StRpc?
    ensures t in s.tasks && (s.tasks[t] == Next(s, l).tasks[t] || (l.Act? && l.task == t))
    ensures l.Act? && l.task == t ==>
              !Next(s, l).disk || (s.tasks[t].StMem? && Next(s, l).disk == s.disk)
    ensures l.Act? && l.task == t && Next(s, l).tasks[t].StRpc? ==> s.tasks[t].StMem? && !Next(s, l).mem
  {
    PcOrigin(s, l, t);
  }

  lemma StartClearedStep(s: State, l: Label)
    requires LockHeld(s) && Enabled(s, l) && StartCleared(s)
    ensures StartCleared(Next(s, l))
  {
    forall t | t in Next(s, l).tasks && (Next(s, l).tasks[t].StMem? || Next(s, l).tasks[t].StRpc?)
      ensures !Next(s, l).disk && (Next(s, l).tasks[t].StRpc? ==> !Next(s, l).mem)
    {
      StartOrigin(s, l, t);
      MarkOrigin(s, l);
    }
  }

  lemma {:induction false} StartClearedAlways(r: Run, i: nat)
    requires FromIdle(r) && i < |r.states|
    ensures StartCleared(r.states[i])
  {
    if i > 0 {
      StartClearedAlways(r, i - 1);
      LockHeldAlways(r, i - 1);
      StartClearedStep(r.states[i - 1], r.labels[i - 1]);
    }
  }

  lemma AgainOrigin(s: State, l: Label, t: nat)
    requires Enabled(s, l) && t in Next(s, l).tasks
    requires var pc := Next(s, l).tasks[t]; pc.AgGet? || pc.AgRpc? || pc.CkMem? || pc.StRemarkMem?
    ensures t in s.tasks
    ensures s.tasks[t] == Next(s, l).tasks[t] || MarksDisk(s, l) || s.tasks[t].AgGet? || s.mem
  {
    PcOrigin(s, l, t);
  }

  lemma NoSuspendDueStep(s: State, l: Label)
    requires Enabled(s, l) && NoSuspendDue(s) && !MarksDisk(s, l)
    ensures NoSuspendDue(Next(s, l))
  {
    MarkOrigin(s, l);
    forall t | t in Next(s, l).tasks && var pc := Next(s, l).tasks[t];
                 pc.AgGet? || pc.AgRpc? || pc.CkMem? || pc.StRemarkMem?
      ensures false
    {
      AgainOrigin(s, l, t);
    }
  }

  lemma StartEndsClear(s: State, l: Label)
    requires LockHeld(s) && Enabled(s, l) && StartCleared(s) && StartReturnsOk(s, l)
    ensures NoSuspendDue(Next(s, l))
  {
    assert Holding(s.tasks[l.task]);
  }

  lemma {:induction false} NothingDueAfterStart(r: Run, i: nat, j: nat)
    requires FromIdle(r) && i < j < |r.states| && StartReturnsOk(r.states[i], r.labels[i])
    requires forall x | i < x < j :: !MarksDisk(r.states[x], r.labels[x])
    ensures NoSuspendDue(r.states[j])
    decreases j
  {
    if j == i + 1 {
      LockHeldAlways(r, i);
      StartClearedAlways(r, i);
      StartEndsClear(r.states[i], r.labels[i]);
    } else {
      NothingDueAfterStart(r, i, j - 1);
      NoSuspendDueStep(r.states[j - 1], r.labels[j - 1]);
    }
  }

  /** Once start_sandbox has returned Ok, no suspend_again task, queued or running,
      spawned before or after, sends SuspendActor until a later mark is set. This
      holds whatever create, delete and the reap do without the lock. */
  lemma StartIsNotUndone(r: Run, i: nat, j: nat)
    requires FromIdle(r) && i < j < |r.labels|
    requires StartReturnsOk(r.states[i], r.labels[i]) && IssuesAgain(r.states[j], r.labels[j])
    ensures exists x | i < x < j :: MarksDisk(r.states[x], r.labels[x])
  {
    if forall x | i < x < j :: !MarksDisk(r.states[x], r.labels[x]) {
      NothingDueAfterStart(r, i, j);
    }
  }

  // ------------------------------------------------ a resume follows its bundle

  /** The task has stored its bundle and has not yet had its resume answered. */
  predicate PastStore(pc: Pc) {
    pc.StDisk? || pc.StMem? || pc.StRpc? || pc.CrDisk? || pc.CrMem? || pc.CrResume?
  }

  predicate Stores(s: State, l: Label, t: nat) {
    l.Act? && l.task == t && t in s.tasks && l.outcome == Success && (s.tasks[t].StStore? || s.tasks[t].CrStore?)
  }

  lemma PastStoreOrigin(s: State, l: Label, t: nat)
    requires Enabled(s, l) && t in Next(s, l).tasks && PastStore(Next(s, l).tasks[t])
    ensures Stores(s, l, t) || (t in s.tasks && PastStore(s.tasks[t]))
  {
    hide CheckpointNext, AgainNext, ObserverNext, DeleteNext;
    PcOrigin(s, l, t);
  }

  /** In every interleaving, a create or start that gets to its ResumeActor has
      itself stored its bundle before, in the same call. */
  lemma {:induction false} ResumeFollowsItsStore(r: Run, i: nat, t: nat) returns (j: nat)
    requires FromIdle(r) && i < |r.states| && t in r.states[i].tasks && PastStore(r.states[i].tasks[t])
    ensures j < i && Stores(r.states[j], r.labels[j], t)
    ensures forall k | j < k <= i :: t in r.states[k].tasks && PastStore(r.states[k].tasks[t])
  {
    hide Next, PastStore, Enabled;
    assert i > 0;
    PastStoreOrigin(r.states[i - 1], r.labels[i - 1], t);
    if Stores(r.states[i - 1], r.labels[i - 1], t) {
      j := i - 1;
    } else {
      j := ResumeFollowsItsStore(r, i - 1, t);
    }
  }
}
