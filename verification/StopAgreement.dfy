/** When the driver's cached set agrees with the `.stopped` files: exactly which
    steps part them, and that nothing else does. */
module StopAgreement {
  import opened Prelude
  import opened Substrate
  import opened StopProtocol
  import opened StopSafety

  // ------------------------------------------------- agreement of cache and disk

  /** Between the two writes of a mark_stopped, or of the reap's removals. */
  predicate Mid(pc: Pc) { Written(pc) || pc.ReDiskAgain? }

  /** Past its marker write, with the cached set still to follow. */
  predicate Written(pc: Pc) { pc.CkMem? || pc.StMem? || pc.StRemarkMem? || pc.CrMem? || pc.DeMem? }

  /** The mark it has written and the cached set is to show. */
  predicate MarkIn(pc: Pc) { pc.CkMem? || pc.StRemarkMem? }

  /** About to write or remove the marker. */
  predicate WritesDisk(pc: Pc) { AtMarking(pc) || pc.ReDisk? || pc.ReDiskAgain? }

  /** About to make the two writes of a mark_stopped. */
  predicate AtMarking(pc: Pc) { pc.CkDisk? || pc.StDisk? || pc.StRemarkDisk? || pc.CrDisk? || pc.DeDisk? }

  predicate MarkOf(pc: Pc) { pc.CkDisk? || pc.StRemarkDisk? }

  ghost predicate NobodyWrites(s: State) { forall t | t in s.tasks :: !Mid(s.tasks[t]) }

  ghost predicate Opposed(s: State, t: nat, u: nat)
    requires t in s.tasks
  {
    u in s.tasks && u != t && Mid(s.tasks[u]) && MarkIn(s.tasks[u]) != MarkOf(s.tasks[t])
  }

  /** A marker is written while another task is between the writes of the opposite mark. */
  ghost predicate Clashes(s: State, l: Label) {
    l.Act? && l.task in s.tasks && l.outcome == Success && WritesDisk(s.tasks[l.task])
    && exists u :: Opposed(s, l.task, u)
  }

  /** The reap gives up between removing a marker and forgetting the cached mark,
      because this removal or one for another actor failed, and nobody else is
      between two writes. */
  ghost predicate CutsReap(s: State, l: Label) {
    l.Act? && l.task in s.tasks && l.outcome != Success && s.tasks[l.task].ReDiskAgain?
    && s.mem && forall u | u in s.tasks && u != l.task :: !Mid(s.tasks[u])
  }

  ghost predicate Diverts(s: State, l: Label) { Clashes(s, l) || CutsReap(s, l) }

  /** Whoever is between two writes is about to cache what is on disk, and when
      nobody is, the cached set agrees with the marker. */
  ghost predicate InSync(s: State) {
    && (forall t | t in s.tasks && Mid(s.tasks[t]) :: MarkIn(s.tasks[t]) == s.disk)
    && (NobodyWrites(s) ==> s.mem == s.disk)
  }

  /** What a step of task t does to the two marks and to who is between two writes. */
  ghost predicate Effect(s: State, t: nat, o: Outcome, n: State)
    requires t in s.tasks
  {
    var pc := s.tasks[t];
    if WritesDisk(pc) && o == Success then
      && n.disk == MarkOf(pc) && n.mem == s.mem && t in n.tasks && Mid(n.tasks[t]) && MarkIn(n.tasks[t]) == MarkOf(pc)
      && (pc.ReDiskAgain? ==> n.tasks[t].DeMem?)
    else
      && n.disk == s.disk && n.mem == (if Written(pc) then MarkIn(pc) else s.mem)
      && (t in n.tasks ==> !Mid(n.tasks[t]))
  }

  lemma LockedEffect(s: State, t: nat, o: Outcome, child: nat)
    requires Enabled(s, Act(t, o, child)) && Op(s.tasks[t]) in {Checkpoint, Start, Again}
    ensures Effect(s, t, o, Next(s, Act(t, o, child)))
  {
    hide CreateNext, DeleteNext, ObserverNext;
  }

  lemma ClearEffect(s: State, t: nat, o: Outcome, child: nat)
    requires Enabled(s, Act(t, o, child)) && Op(s.tasks[t]) in {Create, Delete}
    ensures Effect(s, t, o, Next(s, Act(t, o, child)))
  {
    hide CheckpointNext, StartNext, AgainNext, ObserverNext;
  }

  lemma ObserverEffect(s: State, t: nat, o: Outcome, child: nat)
    requires Enabled(s, Act(t, o, child)) && Op(s.tasks[t]) == Observe
    ensures Effect(s, t, o, Next(s, Act(t, o, child)))
  {
    hide CheckpointNext, StartNext, AgainNext, CreateNext, DeleteNext;
  }

  lemma WriteEffect(s: State, t: nat, o: Outcome, child: nat)
    requires Enabled(s, Act(t, o, child))
    ensures Effect(s, t, o, Next(s, Act(t, o, child)))
  {
    hide Next, Effect, Possible;
    if Op(s.tasks[t]) in {Checkpoint, Start, Again} {
      LockedEffect(s, t, o, child);
    } else if Op(s.tasks[t]) == Observe {
      ObserverEffect(s, t, o, child);
    } else {
      ClearEffect(s, t, o, child);
    }
  }

  /** The others stay where they are, and who is new is not writing. */
  ghost predicate Others(s: State, t: nat, n: State) {
    && (forall u | u in s.tasks && u != t :: u in n.tasks && n.tasks[u] == s.tasks[u])
    && (forall u | u in n.tasks && u != t :: (u in s.tasks && n.tasks[u] == s.tasks[u]) || !Mid(n.tasks[u]))
  }

  lemma OthersStay(s: State, t: nat, o: Outcome, child: nat)
    requires Enabled(s, Act(t, o, child))
    ensures Others(s, t, Next(s, Act(t, o, child)))
  {
    ActShape(s, t, o, child);
    hide Next;
  }

  /** Tasks that come, queue up or go away outside a write, and whatever Substrate
      and a restart do. */
  lemma OtherFrame(s: State, l: Label)
    requires Enabled(s, l) && !l.Act?
    ensures var n := Next(s, l);
      && n.disk == s.disk && (if l.Restart? then n.mem == n.disk && n.tasks == map[] else n.mem == s.mem)
      && (forall t | t in n.tasks :: (t in s.tasks && n.tasks[t] == s.tasks[t]) || !Mid(n.tasks[t]))
      && (forall t | t in s.tasks && Mid(s.tasks[t]) && !l.Restart? :: t in n.tasks && n.tasks[t] == s.tasks[t])
  {
  }

  lemma InSyncAct(s: State, t: nat, o: Outcome, child: nat)
    requires InSync(s) && Enabled(s, Act(t, o, child)) && !Diverts(s, Act(t, o, child))
    ensures InSync(Next(s, Act(t, o, child)))
  {
    hide Next, Possible;
    WriteEffect(s, t, o, child);
    OthersStay(s, t, o, child);
    var n, pc := Next(s, Act(t, o, child)), s.tasks[t];
    if WritesDisk(pc) && o == Success {
      forall u | u in n.tasks && Mid(n.tasks[u]) ensures MarkIn(n.tasks[u]) == n.disk {
        assert u != t ==> !Opposed(s, t, u);
      }
    } else if NobodyWrites(n) {
      assert forall u | u in s.tasks && u != t :: n.tasks[u] == s.tasks[u];
    }
  }

  lemma InSyncStep(s: State, l: Label)
    requires InSync(s) && Enabled(s, l) && !Diverts(s, l)
    ensures InSync(Next(s, l))
  {
    if l.Act? {
      InSyncAct(s, l.task, l.outcome, l.child);
    } else {
      OtherFrame(s, l);
    }
    hide Next;
  }

  /** Whenever nobody is between two writes, the cached set is the marker on disk,
      in every run up to its first diverting step. */
  lemma {:induction false} CacheAgreesWithDisk(r: Run, i: nat)
    requires FromIdle(r) && i < |r.states|
    requires forall k | 0 <= k < i :: !Diverts(r.states[k], r.labels[k])
    ensures InSync(r.states[i])
    ensures NobodyWrites(r.states[i]) ==> r.states[i].mem == r.states[i].disk
  {
    hide Next, Enabled;
    if i > 0 {
      CacheAgreesWithDisk(r, i - 1);
      InSyncStep(r.states[i - 1], r.labels[i - 1]);
    }
  }

  /** The lock does its part: of two tasks that clash, one is a create, a delete or
      the reap, which clear without it. */
  lemma LockedNeverClash(r: Run, i: nat, u: nat)
    requires FromIdle(r) && i < |r.labels| && Clashes(r.states[i], r.labels[i])
    requires Opposed(r.states[i], r.labels[i].task, u)
    ensures Op(r.states[i].tasks[u]) in {Create, Delete} || Op(r.states[i].tasks[r.labels[i].task]) in {Create, Delete}
  {
    LockHeldAlways(r, i);
    hide Next, Enabled;
  }

  // ------------------------------------------------ and exactly in those runs

  /** Tasks between two writes make the ones they have left, nothing failing. */
  ghost predicate Drains(states: seq<State>, tasks: seq<nat>) {
    && |states| == |tasks| + 1
    && forall i | 0 <= i < |tasks| ::
         && tasks[i] in states[i].tasks && Mid(states[i].tasks[tasks[i]])
         && Enabled(states[i], Step(tasks[i])) && states[i + 1] == Next(states[i], Step(tasks[i]))
  }

  /** In whatever order the writes under way are finished, cache and disk agree then. */
  ghost predicate Settles(s: State) {
    forall states: seq<State>, tasks | Drains(states, tasks) && states[0] == s && NobodyWrites(states[|tasks|]) ::
      states[|tasks|].mem == states[|tasks|].disk
  }

  lemma {:induction false} InSyncDrains(states: seq<State>, tasks: seq<nat>, i: nat)
    requires Drains(states, tasks) && InSync(states[0]) && i <= |tasks|
    ensures InSync(states[i])
  {
    hide Next, Enabled;
    if i > 0 {
      InSyncDrains(states, tasks, i - 1);
      assert !Diverts(states[i - 1], Step(tasks[i - 1]));
      InSyncStep(states[i - 1], Step(tasks[i - 1]));
    }
  }

  lemma InSyncSettles(s: State)
    requires InSync(s)
    ensures Settles(s)
  {
    forall states: seq<State>, tasks | Drains(states, tasks) && states[0] == s && NobodyWrites(states[|tasks|])
      ensures states[|tasks|].mem == states[|tasks|].disk
    {
      InSyncDrains(states, tasks, |tasks|);
    }
  }

  /** One more write. */
  lemma DrainsOn(states: seq<State>, tasks: seq<nat>, t: nat) returns (more: seq<State>)
    requires Drains(states, tasks) && t in states[|tasks|].tasks && Mid(states[|tasks|].tasks[t])
    ensures Drains(more, tasks + [t]) && more == states + [Next(states[|tasks|], Step(t))]
    ensures Effect(states[|tasks|], t, Success, more[|tasks| + 1])
    ensures Others(states[|tasks|], t, more[|tasks| + 1])
  {
    MidCanWrite(states[|tasks|], t);
    hide Next, Enabled;
    more := states + [Next(states[|tasks|], Step(t))];
    forall i | 0 <= i < |tasks| + 1
      ensures (tasks + [t])[i] in more[i].tasks && Mid(more[i].tasks[(tasks + [t])[i]])
      ensures Enabled(more[i], Step((tasks + [t])[i])) && more[i + 1] == Next(more[i], Step((tasks + [t])[i]))
    {
      if i < |tasks| {
        assert more[i] == states[i] && more[i + 1] == states[i + 1] && (tasks + [t])[i] == tasks[i];
      }
    }
    WriteEffect(states[|tasks|], t, Success, 0);
    OthersStay(states[|tasks|], t, Success, 0);
  }

  lemma MidCanWrite(s: State, t: nat)
    requires t in s.tasks && Mid(s.tasks[t])
    ensures Enabled(s, Step(t))
  {
  }

  /** Task t makes the one or two writes it has left. */
  lemma DrainOne(states: seq<State>, tasks: seq<nat>, t: nat) returns (more: seq<State>, done: seq<nat>)
    requires Drains(states, tasks) && t in states[|tasks|].tasks && Mid(states[|tasks|].tasks[t])
    ensures Drains(more, done) && more[0] == states[0]
    ensures var s, n := states[|tasks|], more[|done|];
      && n.mem == MarkIn(s.tasks[t]) && n.disk == (s.disk && !s.tasks[t].ReDiskAgain?)
      && Others(s, t, n) && (t in n.tasks ==> !Mid(n.tasks[t]))
  {
    hide Next, Enabled;
    more := DrainsOn(states, tasks, t);
    done := tasks + [t];
    if states[|tasks|].tasks[t].ReDiskAgain? {
      more := DrainsOn(more, done, t);
      done := done + [t];
    }
  }

  /** All of these tasks do, one after the other. */
  lemma {:induction false} DrainAll(states: seq<State>, tasks: seq<nat>, left: set<nat>, m: bool)
    returns (more: seq<State>, done: seq<nat>)
    requires Drains(states, tasks)
    requires forall t | t in left ::
               var s := states[|tasks|]; t in s.tasks && Mid(s.tasks[t]) && MarkIn(s.tasks[t]) == m
    ensures Drains(more, done) && more[0] == states[0]
    ensures var s, n := states[|tasks|], more[|done|];
      && n.mem == (if left == {} then s.mem else m)
      && n.disk == (s.disk && forall t | t in left :: !s.tasks[t].ReDiskAgain?)
      && (forall u | u in s.tasks && u !in left :: u in n.tasks && n.tasks[u] == s.tasks[u])
      && (forall u | u in n.tasks && Mid(n.tasks[u]) :: u !in left && u in s.tasks)
    decreases left
  {
    hide Next, Enabled, Mid, MarkIn;
    more, done := states, tasks;
    if left != {} {
      var t :| t in left;
      more, done := DrainOne(states, tasks, t);
      more, done := DrainAll(more, done, left - {t}, m);
    }
  }

  /** Whatever diverts can end with nobody writing and the cached set wrong. */
  lemma DivertsUnsettles(s: State, l: Label)
    requires InSync(s) && Enabled(s, l) && Diverts(s, l)
    ensures !Settles(Next(s, l))
  {
    hide Next, Enabled, Possible;
    assert l.task in s.tasks;
    WriteEffect(s, l.task, l.outcome, l.child);
    OthersStay(s, l.task, l.outcome, l.child);
    if Clashes(s, l) {
      ClashUnsettles(s, l.task, Next(s, l));
    } else {
      assert Drains([Next(s, l)], []);
    }
  }

  lemma ClashUnsettles(s: State, t: nat, n: State)
    requires InSync(s) && t in s.tasks && WritesDisk(s.tasks[t]) && exists u :: Opposed(s, t, u)
    requires Effect(s, t, Success, n) && Others(s, t, n)
    ensures !Settles(n)
  {
    var v := MarkOf(s.tasks[t]);
    var u :| Opposed(s, t, u);
    var others := set x | x in n.tasks && x != t && Mid(n.tasks[x]);
    assert u in others && forall x | x in others :: MarkIn(n.tasks[x]) == !v;
    hide Next, Enabled, InSync, Effect, Others, Opposed;
    OpposedUnsettles(n, t, others, v);
  }

  /** The two marks of a clash are both under way, and v is on disk: let the other
      one be cached last, or, where a reap removes the marker once more, v. */
  lemma OpposedUnsettles(n: State, t: nat, others: set<nat>, v: bool)
    requires t in n.tasks && Mid(n.tasks[t]) && MarkIn(n.tasks[t]) == v == n.disk && others != {}
    requires forall x :: x in others <==> x in n.tasks && x != t && Mid(n.tasks[x])
    requires forall x | x in others :: MarkIn(n.tasks[x]) == !v
    ensures !Settles(n)
  {
    hide Next, Enabled;
    assert Drains([n], []);
    var states, tasks;
    if x :| x in others && n.tasks[x].ReDiskAgain? {
      states, tasks := DrainAll([n], [], others, !v);
      states, tasks := DrainOne(states, tasks, t);
    } else {
      states, tasks := DrainOne([n], [], t);
      states, tasks := DrainAll(states, tasks, others, !v);
    }
    assert NobodyWrites(states[|tasks|]) && states[|tasks|].mem != states[|tasks|].disk;
  }

  /** A step out of an agreeing state is bound to agree again if and only if it
      does not divert. */
  lemma StepSettlesExactly(s: State, l: Label)
    requires InSync(s) && Enabled(s, l)
    ensures Settles(Next(s, l)) <==> !Diverts(s, l)
  {
    hide Next, Enabled, Diverts, Settles, InSync;
    if Diverts(s, l) {
      DivertsUnsettles(s, l);
    } else {
      InSyncStep(s, l);
      InSyncSettles(Next(s, l));
    }
  }

  /** The exact condition over whole runs: cache and disk are bound to agree at every
      point of a run, once the writes under way there are finished, if and only if
      no step of the run diverts. */
  lemma AgreementIsExact(r: Run)
    requires FromIdle(r)
    ensures (forall i | 0 <= i < |r.states| :: Settles(r.states[i])) <==>
            (forall i | 0 <= i < |r.labels| :: !Diverts(r.states[i], r.labels[i]))
  {
    hide Next, Enabled, Diverts, Settles, InSync;
    if k :| 0 <= k < |r.labels| && Diverts(r.states[k], r.labels[k]) {
      var i := FirstDivert(r, k);
      CacheAgreesWithDisk(r, i);
      DivertsUnsettles(r.states[i], r.labels[i]);
      assert !Settles(r.states[i + 1]);
    } else {
      forall i | 0 <= i < |r.states| ensures Settles(r.states[i]) {
        CacheAgreesWithDisk(r, i);
        InSyncSettles(r.states[i]);
      }
    }
  }

  lemma FirstDivert(r: Run, k: nat) returns (i: nat)
    requires IsRun(r) && k < |r.labels| && Diverts(r.states[k], r.labels[k])
    ensures i <= k && Diverts(r.states[i], r.labels[i])
    ensures forall j | 0 <= j < i :: !Diverts(r.states[j], r.labels[j])
  {
    hide Next, Enabled, Diverts;
    i := 0;
    while !Diverts(r.states[i], r.labels[i])
      invariant i <= k && forall j | 0 <= j < i :: !Diverts(r.states[j], r.labels[j])
      decreases k - i
    {
      i := i + 1;
    }
  }

  // ------------------------------------------------------------- witness runs

  function Step(t: nat): Label { Act(t, Success, 0) }

  /** A stop, step by step: the state before each and the step taken. */
  const STOPPING: seq<(State, Label)> := [
    (State(Some(Running), false, false, None, map[]), Arrive(0, CkWait)),
    (State(Some(Running), false, false, None, map[0 := CkWait]), Acquire(0)),
    (State(Some(Running), false, false, Some(0), map[0 := CkGet]), Step(0)),
    (State(Some(Running), false, false, Some(0), map[0 := CkDisk(Running)]), Step(0)),
    (State(Some(Running), true, false, Some(0), map[0 := CkMem(Running)]), Step(0)),
    (State(Some(Running), true, true, Some(0), map[0 := CkRpc(Running)]), Step(0)),
    (State(Some(Suspending), true, true, None, map[]), Restart)
  ]

  /** A delete that gets in between the two writes of that stop's marking. */
  const OVERLAPPING: seq<(State, Label)> := [
    (State(Some(Running), true, false, Some(0), map[0 := CkMem(Running)]), Arrive(1, DeRpc)),
    (State(Some(Running), true, false, Some(0), map[0 := CkMem(Running), 1 := DeRpc]), Step(1)),
    (State(Some(Deleting), true, false, Some(0), map[0 := CkMem(Running), 1 := DeBundle]), Step(1)),
    (State(Some(Deleting), true, false, Some(0), map[0 := CkMem(Running), 1 := DeDisk]), Step(1)),
    (State(Some(Deleting), false, false, Some(0), map[0 := CkMem(Running), 1 := DeMem]), Step(1)),
    (State(Some(Deleting), false, false, Some(0), map[0 := CkMem(Running)]), Step(0)),
    (State(Some(Deleting), false, true, Some(0), map[0 := CkRpc(Running)]), Act(0, Refused, 0)),
    (State(Some(Deleting), false, true, None, map[]), Restart)
  ]

  /** A reap that removes a marker and is then cut short by another removal that fails. */
  const REAPING: seq<(State, Label)> := [
    (State(None, true, true, None, map[]), Arrive(0, ReDisk)),
    (State(None, true, true, None, map[0 := ReDisk]), Step(0)),
    (State(None, false, true, None, map[0 := ReDiskAgain]), Act(0, Refused, 0)),
    (State(None, false, true, None, map[]), Restart)
  ]

  /** The run through the first n states of a listing. */
  function Listed(steps: seq<(State, Label)>): Run
    requires steps != []
  {
    Run(seq(|steps|, i requires 0 <= i < |steps| => steps[i].0),
        seq(|steps| - 1, i requires 0 <= i < |steps| - 1 => steps[i].1))
  }

  predicate Follows(a: (State, Label), b: (State, Label)) { Enabled(a.0, a.1) && b.0 == Next(a.0, a.1) }

  lemma StoppingSteps(i: nat)
    requires i + 1 < |STOPPING|
    ensures Follows(STOPPING[i], STOPPING[i + 1])
  {
  }

  lemma OverlappingSteps(i: nat)
    requires i + 1 < |OVERLAPPING|
    ensures Follows(OVERLAPPING[i], OVERLAPPING[i + 1])
  {
    if i < 4 {
      DeleteSteps(i);
    }
  }

  lemma DeleteSteps(i: nat)
    requires i < 4
    ensures Follows(OVERLAPPING[i], OVERLAPPING[i + 1])
  {
    hide CheckpointNext, StartNext, AgainNext, ObserverNext, CreateNext;
  }

  lemma ListedIsRun(steps: seq<(State, Label)>)
    requires steps != [] && steps[0].0.tasks == map[] && steps[0].0.lock.None?
    requires steps[0].0.mem == steps[0].0.disk
    requires forall i | 0 <= i < |steps| - 1 :: Follows(steps[i], steps[i + 1])
    ensures FromIdle(Listed(steps))
  {
    hide Next, Enabled;
    var r := Listed(steps);
    forall i | 0 <= i < |r.labels|
      ensures Enabled(r.states[i], r.labels[i]) && r.states[i + 1] == Next(r.states[i], r.labels[i])
    {
      assert Follows(steps[i], steps[i + 1]);
    }
  }

  /** A clash that stays: a delete that clears the mark inside a stop's marking leaves
      the name cached as stopped with no marker on disk, although nobody is writing
      any more. */
  lemma OverlapDiverges()
    ensures var r := Listed(STOPPING[..4] + OVERLAPPING);
      && FromIdle(r) && Clashes(r.states[7], r.labels[7])
      && var s := r.states[|r.labels|]; s.tasks == map[] && s.mem && !s.disk
  {
    hide Next, Enabled;
    var steps := STOPPING[..4] + OVERLAPPING;
    forall i | 0 <= i < |steps| - 1 ensures Follows(steps[i], steps[i + 1]) {
      if i < 4 {
        StoppingSteps(i);
      } else {
        OverlappingSteps(i - 4);
      }
    }
    ListedIsRun(steps);
    var r := Listed(steps);
    assert r.states[7] == OVERLAPPING[3].0 && r.labels[7] == Step(1);
    assert Opposed(r.states[7], 1, 0);
  }

  /** So does a reap that is cut short, with nobody else about: the marker is gone
      and the name stays cached as stopped until the next restart. */
  lemma CutReapDiverges()
    ensures var r := Listed(REAPING);
      && FromIdle(r) && CutsReap(r.states[2], r.labels[2])
      && var s := r.states[|r.labels|]; s.tasks == map[] && s.mem && !s.disk
  {
    forall i | 0 <= i < |REAPING| - 1 ensures Follows(REAPING[i], REAPING[i + 1]) {
      ReapingSteps(i);
    }
    hide Next, Enabled;
    ListedIsRun(REAPING);
  }

  lemma ReapingSteps(i: nat)
    requires i + 1 < |REAPING|
    ensures Follows(REAPING[i], REAPING[i + 1])
  {
  }

  // ---------------------------------------------------- which overlaps diverge

  /** The four writes of two such calls, in the order given, nothing failing. */
  ghost predicate Writes(r: seq<State>, order: seq<nat>) {
    && |r| == |order| + 1
    && forall i | 0 <= i < |order| :: Enabled(r[i], Step(order[i])) && r[i + 1] == Next(r[i], Step(order[i]))
  }

  /** What one write does, whoever makes it. */
  lemma WriteStep(s: State, t: nat)
    requires t in s.tasks && (AtMarking(s.tasks[t]) || Written(s.tasks[t]))
    ensures Enabled(s, Step(t))
    ensures var n := Next(s, Step(t));
      && (forall u | u in s.tasks && u != t :: u in n.tasks && n.tasks[u] == s.tasks[u])
      && (AtMarking(s.tasks[t]) ==>
            && n.disk == MarkOf(s.tasks[t]) && n.mem == s.mem
            && t in n.tasks && Written(n.tasks[t]) && MarkIn(n.tasks[t]) == MarkOf(s.tasks[t]))
      && (Written(s.tasks[t]) ==> n.mem == MarkIn(s.tasks[t]) && n.disk == s.disk)
  {
  }

  function Orders(t: nat, u: nat): set<seq<nat>> {
    {[t, t, u, u], [t, u, t, u], [t, u, u, t], [u, t, t, u], [u, t, u, t], [u, u, t, t]}
  }

  /** Where the four writes of two calls lead: the disk to the mark of the call
      whose first write came last, the cache to that of the call that ended last. */
  lemma Interleaved(t: nat, u: nat, order: seq<nat>, r: seq<State>)
    requires t != u && Writes(r, order) && t in r[0].tasks && u in r[0].tasks
    requires AtMarking(r[0].tasks[t]) && AtMarking(r[0].tasks[u])
    requires order in {[t, t, u, u], [t, u, t, u], [t, u, u, t]}
    ensures r[4].disk == MarkOf(r[0].tasks[u])
    ensures r[4].mem == MarkOf(r[0].tasks[order[3]])
  {
    hide Next, Enabled, AtMarking, MarkOf, Written, MarkIn;
    WriteStep(r[0], order[0]);
    WriteStep(r[1], order[1]);
    WriteStep(r[2], order[2]);
    WriteStep(r[3], order[3]);
  }

  /** Two mark_stopped calls that may overlap leave cache and disk in agreement, in
      whatever order their writes fall, if and only if they write the same mark. */
  lemma OverlapsAgreeExactly(s: State, t: nat, u: nat)
    requires t != u && t in s.tasks && u in s.tasks && AtMarking(s.tasks[t]) && AtMarking(s.tasks[u])
    ensures (forall order, r: seq<State> | order in Orders(t, u) && Writes(r, order) && r[0] == s ::
               r[4].mem == r[4].disk)
            <==> MarkOf(s.tasks[t]) == MarkOf(s.tasks[u])
  {
    hide Next, Enabled, AtMarking, MarkOf, Written, MarkIn;
    forall order, r: seq<State> | order in Orders(t, u) && Writes(r, order) && r[0] == s
      ensures MarkOf(s.tasks[t]) == MarkOf(s.tasks[u]) ==> r[4].mem == r[4].disk
    {
      if order[0] == t {
        Interleaved(t, u, order, r);
      } else {
        Interleaved(u, t, order, r);
      }
    }
    WriteStep(s, t);
    var s1 := Next(s, Step(t));
    WriteStep(s1, u);
    var s2 := Next(s1, Step(u));
    WriteStep(s2, u);
    var s3 := Next(s2, Step(u));
    WriteStep(s3, t);
    var r := [s, s1, s2, s3, Next(s3, Step(t))];
    assert Writes(r, [t, u, u, t]);
    Interleaved(t, u, [t, u, u, t], r);
  }
}
