/** How long the stopped mark lives, what a start leaves of it, and what the order
    of the observers' reads is worth. */
module StopDurability {
  import opened Prelude
  import opened Substrate
  import opened StopProtocol
  import opened StopSafety
  import opened StopAgreement

  // -------------------------------------------------------------- durability

  /** From a marking on, and until something clears it, the marker is on disk,
      across any number of restarts, and every restart in between reloads it. */
  lemma {:induction false} MarkIsDurable(r: Run, m: nat, x: nat)
    requires IsRun(r) && m < x < |r.states| && MarksDisk(r.states[m], r.labels[m]) && NoClearBetween(r, m, x)
    ensures r.states[x].disk
    ensures forall y | m < y < x && r.labels[y].Restart? :: r.states[y + 1].mem
    decreases x
  {
    hide Next;
    if x > m + 1 {
      MarkIsDurable(r, m, x - 1);
      UnclearedMarkStays(r.states[x - 1], r.labels[x - 1]);
      RestartReloads(r.states[x - 1], r.labels[x - 1]);
    } else {
      MarkingMarks(r.states[m], r.labels[m]);
    }
  }

  lemma RestartReloads(s: State, l: Label)
    requires Enabled(s, l)
    ensures l.Restart? ==> Next(s, l).mem == s.disk == Next(s, l).disk
  {
  }

  lemma MarkingMarks(s: State, l: Label)
    requires Enabled(s, l) && MarksDisk(s, l)
    ensures Next(s, l).disk && !l.Restart?
  {
  }

  // ------------------------------------------------------ what a start leaves

  /** A start whose resume failed finishes marking the actor again. */
  predicate Remarks(s: State, l: Label) {
    l.Act? && l.task in s.tasks && s.tasks[l.task].StRemarkMem?
  }

  /** The step removes the marker. */
  predicate RemovesMarker(s: State, l: Label) {
    l.Act? && l.task in s.tasks && l.outcome == Success
    && WritesDisk(s.tasks[l.task]) && !MarkOf(s.tasks[l.task])
  }

  /** Step m is the marker write of the start that finishes re-marking at step i. */
  ghost predicate IsRemarkOf(r: Run, m: int, i: int)
    requires IsRun(r)
  {
    && 0 <= m < i < |r.labels| && r.labels[i].Act?
    && var t := r.labels[i].task;
       && MarksDisk(r.states[m], r.labels[m]) && r.labels[m].task == t && r.states[m].tasks[t].StRemarkDisk?
       && forall x | m < x <= i :: t in r.states[x].tasks && r.states[x].tasks[t].StRemarkMem?
  }

  ghost predicate NothingRemoves(r: Run, m: int, i: int)
    requires IsRun(r)
  {
    forall x | m < x < i && 0 <= x < |r.labels| :: !RemovesMarker(r.states[x], r.labels[x])
  }

  lemma RemarkOrigin(s: State, l: Label, t: nat)
    requires Enabled(s, l) && t in Next(s, l).tasks && Next(s, l).tasks[t].StRemarkMem?
    ensures t in s.tasks
    ensures s.tasks[t].StRemarkMem? || (MarksDisk(s, l) && l.task == t && s.tasks[t].StRemarkDisk?)
  {
    hide CheckpointNext, AgainNext, ObserverNext, CreateNext, DeleteNext;
    PcOrigin(s, l, t);
  }

  /** Looking back from a start about to cache its re-mark to its marker write. */
  lemma {:induction false} RemarkBefore(r: Run, t: nat, i: nat) returns (m: nat)
    requires FromIdle(r) && i < |r.states| && t in r.states[i].tasks && r.states[i].tasks[t].StRemarkMem?
    ensures m < i && MarksDisk(r.states[m], r.labels[m]) && r.labels[m].task == t
    ensures r.states[m].tasks[t].StRemarkDisk?
    ensures forall x | m < x <= i :: t in r.states[x].tasks && r.states[x].tasks[t].StRemarkMem?
  {
    hide Next, Enabled;
    RemarkOrigin(r.states[i - 1], r.labels[i - 1], t);
    if r.states[i - 1].tasks[t].StRemarkMem? {
      m := RemarkBefore(r, t, i - 1);
    } else {
      m := i - 1;
    }
  }

  /** What one step does to the marker. */
  lemma MarkerStep(s: State, l: Label)
    requires Enabled(s, l)
    ensures Next(s, l).disk == if MarksDisk(s, l) then true else if RemovesMarker(s, l) then false else s.disk
  {
    if l.Act? {
      WriteEffect(s, l.task, l.outcome, l.child);
    } else {
      OtherFrame(s, l);
    }
    hide Next;
  }

  /** While it stands between its two writes the lock keeps every other marking out,
      so the marker is there if and only if nothing has removed it. */
  lemma {:induction false} RemarkHolds(r: Run, m: nat, i: nat, x: nat)
    requires IsRun(r) && IsRemarkOf(r, m, i) && m < x <= i
    ensures r.states[x].disk <==> NothingRemoves(r, m, x)
    decreases x
  {
    hide Next, Enabled, MarksDisk, RemovesMarker;
    MarkerStep(r.states[x - 1], r.labels[x - 1]);
    if x > m + 1 {
      RemarkHolds(r, m, i, x - 1);
      LockHeldAlways(r, x - 1);
      OneMarking(r.states[x - 1], r.labels[x - 1], r.labels[i].task);
    }
  }

  lemma OneMarking(s: State, l: Label, t: nat)
    requires LockHeld(s) && t in s.tasks && s.tasks[t].StRemarkMem?
    ensures !MarksDisk(s, l)
  {
  }

  /** start_sandbox leaves the mark clear when it returns Ok, whatever runs beside
      it. When its resume failed and the second marking went through, the cached
      mark is set, and the marker is there if and only if nothing removed it between
      that marking's own two writes, whatever the run was like before. */
  lemma StartOutcome(r: Run, i: nat)
    requires FromIdle(r) && i < |r.labels|
    ensures StartReturnsOk(r.states[i], r.labels[i]) ==> !r.states[i + 1].disk && !r.states[i + 1].mem
    ensures Remarks(r.states[i], r.labels[i]) ==>
              && r.states[i + 1].mem && (exists m :: IsRemarkOf(r, m, i))
              && forall m | IsRemarkOf(r, m, i) :: r.states[i + 1].disk <==> NothingRemoves(r, m, i)
  {
    hide Next, NothingRemoves;
    if StartReturnsOk(r.states[i], r.labels[i]) {
      NothingDueAfterStart(r, i, i + 1);
    }
    if Remarks(r.states[i], r.labels[i]) {
      RemarkSets(r.states[i], r.labels[i]);
      var m := RemarkBefore(r, r.labels[i].task, i);
      assert IsRemarkOf(r, m, i);
      forall m | IsRemarkOf(r, m, i) ensures r.states[i].disk <==> NothingRemoves(r, m, i) {
        RemarkHolds(r, m, i, i);
      }
    }
  }

  lemma RemarkSets(s: State, l: Label)
    requires Enabled(s, l) && Remarks(s, l)
    ensures Next(s, l).disk == s.disk && Next(s, l).mem
  {
  }

  // ---------------------------------------------------- the order of the reads

  /** The observers must read the state before the mark: read the other way round,
      with nothing ever cleared, a stop in between shows as Substrate's own
      checkpoint. */
  lemma MarkReadFirstMisreports() returns (r: Run, markRead: nat, stateRead: nat)
    ensures FromIdle(r) && markRead < stateRead < |r.states|
    ensures forall x | 0 <= x < |r.labels| :: !Clears(r.states[x], r.labels[x])
    ensures exists k | markRead <= k < stateRead :: StopTakesEffect(r.states[k], r.labels[k])
    ensures r.states[stateRead].sub.Some?
    ensures ActorStateConditions(r.states[stateRead].sub.value, r.states[markRead].mem) == [SUBSTRATE_CHECKPOINT_ROW]
  {
    hide Next, Enabled;
    forall i | 0 <= i < |STOPPING| - 1 ensures Follows(STOPPING[i], STOPPING[i + 1]) {
      StoppingSteps(i);
    }
    ListedIsRun(STOPPING);
    r, markRead, stateRead := Listed(STOPPING), 0, 6;
    assert StopTakesEffect(r.states[5], r.labels[5]);
  }

  // --------------------------------------------------------------- counting

  /** A re-suspend that actually takes a running actor down. */
  predicate AgainSuspends(s: State, l: Label) {
    IssuesAgain(s, l) && l.outcome != Refused && s.sub == Some(Running)
  }

  predicate EntersRunning(s: State, n: State) { s.sub != Some(Running) && n.sub == Some(Running) }

  ghost function Resuspends(r: Run, n: nat): nat
    requires IsRun(r) && n < |r.states|
  {
    if n == 0 then 0
    else Resuspends(r, n - 1) + if AgainSuspends(r.states[n - 1], r.labels[n - 1]) then 1 else 0
  }

  ghost function Entries(r: Run, n: nat): nat
    requires IsRun(r) && n < |r.states|
  {
    if n == 0 then if r.states[0].sub == Some(Running) then 1 else 0
    else Entries(r, n - 1) + if EntersRunning(r.states[n - 1], r.states[n]) then 1 else 0
  }

  /** The re-suspends that take effect never outnumber the times the actor was up,
      so an actor nobody resumes is suspended at most once. */
  lemma {:induction false} ResuspendsAreBounded(r: Run, n: nat)
    requires IsRun(r) && n < |r.states|
    ensures Resuspends(r, n) + (if r.states[n].sub == Some(Running) then 1 else 0) <= Entries(r, n)
  {
    hide Next;
    if n > 0 {
      ResuspendsAreBounded(r, n - 1);
      AgainLeavesRunning(r.states[n - 1], r.labels[n - 1]);
    }
  }

  lemma AgainLeavesRunning(s: State, l: Label)
    requires Enabled(s, l)
    ensures AgainSuspends(s, l) ==> Next(s, l).sub == Some(Suspending)
  {
  }
}
