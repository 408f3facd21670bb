/** The stop, start and re-suspend protocol of src/lib.rs for one actor, as a
    labelled transition system. Every operation of the driver that touches the
    actor is a task with a program counter; Substrate, an operator and a driver
    restart step in between at will. */
module StopProtocol {
  import opened Prelude
  import opened Substrate

  /** Where a task stands: the step it takes next. */
  datatype Pc =
    // checkpoint: stop_sandbox and suspend_sandbox
    | CkWait | CkGet | CkDisk(seen: ActorState) | CkMem(seen: ActorState) | CkRpc(seen: ActorState)
    // start_sandbox
    | StWait | StUid | StStore | StDisk | StMem | StRpc | StRemarkDisk | StRemarkMem
    // suspend_again
    | AgWait | AgCheck | AgGet | AgRpc
    // the watch_sandboxes loop
    | WatchList | WatchMark(poll: Option<ActorState>) | WatchSpawn(poll: Option<ActorState>, marked: bool)
    // get_sandbox, and list_sandboxes for this actor
    | GetRead | GetMark(poll: Option<ActorState>)
    // create_sandbox, delete_sandbox and the startup reap clear the mark without the lock
    | CrCreate | CrStore | CrDisk | CrMem | CrResume
    | DeRpc | DeBundle | DeDisk | DeMem
    | ReDisk | ReDiskAgain

  datatype EnvStep = OutsideResume | OutsideSuspend | OutsideRevert | WorkerDeath | Finish

  datatype Label =
    | Arrive(task: nat, pc: Pc)
    | Acquire(task: nat)
    | Act(task: nat, outcome: Outcome, child: nat)
    | Cancel(task: nat)
    | Env(step: EnvStep)
    | Restart

  /** `sub` is None while Substrate has no such actor. `disk` is the `.stopped`
      file, `mem` the driver's cached set. */
  datatype State = State(
    sub: Option<ActorState>, disk: bool, mem: bool, lock: Option<nat>, tasks: map<nat, Pc>)

  datatype Operation = Checkpoint | Start | Again | Observe | Create | Delete

  /** The operation a task is running; the reap counts as a delete. */
  function Op(pc: Pc): Operation {
    if pc.CkWait? || pc.CkGet? || pc.CkDisk? || pc.CkMem? || pc.CkRpc? then Checkpoint
    else if pc.StWait? || pc.StUid? || pc.StStore? || pc.StDisk? || pc.StMem? || pc.StRpc?
         || pc.StRemarkDisk? || pc.StRemarkMem? then Start
    else if pc.AgWait? || pc.AgCheck? || pc.AgGet? || pc.AgRpc? then Again
    else if pc.WatchList? || pc.WatchMark? || pc.WatchSpawn? || pc.GetRead? || pc.GetMark? then Observe
    else if pc.CrCreate? || pc.CrStore? || pc.CrDisk? || pc.CrMem? || pc.CrResume? then Create
    else Delete
  }

  predicate Waiting(pc: Pc) { pc.CkWait? || pc.StWait? || pc.AgWait? }

  /** The task is between taking and releasing the actor's lock. */
  predicate Holding(pc: Pc) { !Waiting(pc) && Op(pc) in {Checkpoint, Start, Again} }

  /** A handler whose caller went away is dropped at an await; the lock goes with it. */
  predicate AwaitPoint(pc: Pc) {
    || pc.CkWait? || pc.CkGet? || pc.CkRpc?
    || pc.StWait? || pc.StUid? || pc.StStore? || pc.StRpc?
    || pc.WatchList? || pc.GetRead? || pc.CrCreate? || pc.CrStore? || pc.CrResume?
    || pc.DeRpc? || pc.DeBundle?
  }

  predicate Arrival(pc: Pc) {
    pc.CkWait? || pc.StWait? || pc.WatchList? || pc.GetRead? || pc.CrCreate? || pc.DeRpc? || pc.ReDisk?
  }

  function AfterLock(pc: Pc): Pc
    requires Waiting(pc)
  {
    if pc.CkWait? then CkGet else if pc.StWait? then StUid else AgCheck
  }

  function Goto(s: State, t: nat, pc: Pc): State { s.(tasks := s.tasks[t := pc]) }

  /** The task returns, releasing the lock if it holds it. */
  function End(s: State, t: nat): State {
    s.(tasks := s.tasks - {t}, lock := if s.lock == Some(t) then None else s.lock)
  }

  function Applied(sub: Option<ActorState>, effect: ActorState -> Option<ActorState>): Option<ActorState> {
    if sub.Some? then effect(sub.value) else None
  }

  /** What the RPC a task is about to issue would do to the actor: None when
      Substrate refuses it. */
  function RpcEffect(sub: Option<ActorState>, pc: Pc): Option<ActorState> {
    if pc.CkRpc? then
      if pc.seen == Crashed then Applied(sub, RevertEffect) else Applied(sub, SuspendEffect)
    else if pc.AgRpc? then Applied(sub, SuspendEffect)
    else if pc.StRpc? || pc.CrResume? then Applied(sub, ResumeEffect)
    else None
  }

  predicate IsRpc(pc: Pc) { pc.CkRpc? || pc.AgRpc? || pc.StRpc? || pc.CrResume? }

  /** Which outcomes the step at `pc` can have. */
  predicate Possible(s: State, pc: Pc, o: Outcome) {
    if IsRpc(pc) then o == Refused || RpcEffect(s.sub, pc).Some?
    else if pc.CrCreate? then true
    else if pc.DeRpc? then o == LostReply ==> s.sub.Some?
    else if pc.CkGet? || pc.StUid? then o == Refused || (o == Success && s.sub.Some?)
    else if pc.CkMem? || pc.StMem? || pc.StRemarkMem? || pc.CrMem? || pc.DeMem?
         || pc.AgCheck? || pc.WatchMark? || pc.WatchSpawn? || pc.GetMark? then o == Success
    else o != LostReply
  }

  predicate Enabled(s: State, l: Label) {
    match l
    case Arrive(t, pc) => t !in s.tasks && Arrival(pc)
    case Acquire(t) => t in s.tasks && Waiting(s.tasks[t]) && s.lock.None?
    case Act(t, o, child) =>
      t in s.tasks && !Waiting(s.tasks[t]) && Possible(s, s.tasks[t], o)
      && (s.tasks[t].WatchSpawn? ==> child !in s.tasks)
    case Cancel(t) => t in s.tasks && AwaitPoint(s.tasks[t])
    case Env(e) => EnvEffect(s.sub, e).Some?
    case Restart => true
  }

  /** The actor after an environment step, wrapped once more: None when the step
      cannot happen, Some(None) when the actor's record is gone. */
  function EnvEffect(sub: Option<ActorState>, e: EnvStep): Option<Option<ActorState>> {
    if sub.None? then None
    else match e
      case OutsideResume => Lift(ResumeEffect(sub.value))
      case OutsideSuspend => Lift(SuspendEffect(sub.value))
      case OutsideRevert => Lift(RevertEffect(sub.value))
      case WorkerDeath => if sub.value in {Resuming, Running, Suspending} then Some(Some(Crashed)) else None
      case Finish => if sub.value == Deleting then Some(None) else Lift(Completion(sub.value))
  }

  function Lift(o: Option<ActorState>): Option<Option<ActorState>> {
    if o.Some? then Some(o) else None
  }

  function Next(s: State, l: Label): State
    requires Enabled(s, l)
  {
    match l
    case Arrive(t, pc) => Goto(s, t, pc)
    case Acquire(t) => Goto(s, t, AfterLock(s.tasks[t])).(lock := Some(t))
    case Act(t, o, child) => ActNext(s, t, s.tasks[t], o, child)
    case Cancel(t) => End(s, t)
    case Env(e) => s.(sub := EnvEffect(s.sub, e).value)
    case Restart => s.(mem := s.disk, lock := None, tasks := map[])
  }

  /** One step of task `t`, statement by statement as the driver executes them. */
  function ActNext(s: State, t: nat, pc: Pc, o: Outcome, child: nat): State
    requires Possible(s, pc, o)
  {
    if Waiting(pc) then s
    else match Op(pc)
      case Checkpoint => CheckpointNext(s, t, pc, o)
      case Start => StartNext(s, t, pc, o)
      case Again => AgainNext(s, t, pc, o)
      case Observe => ObserverNext(s, t, pc, o, child)
      case Create => CreateNext(s, t, pc, o)
      case Delete => DeleteNext(s, t, pc, o)
  }

  /** Read the state, mark on disk, mark in memory, then the RPC. */
  function CheckpointNext(s: State, t: nat, pc: Pc, o: Outcome): State
    requires Possible(s, pc, o) && !Waiting(pc) && Op(pc) == Checkpoint
  {
    match pc
    case CkGet => if o == Success then Goto(s, t, CkDisk(s.sub.value)) else End(s, t)
    case CkDisk(seen) => if o == Success then Goto(s.(disk := true), t, CkMem(seen)) else End(s, t)
    case CkMem(seen) => Goto(s.(mem := true), t, CkRpc(seen))
    case CkRpc(_) => End(if o == Refused then s else s.(sub := RpcEffect(s.sub, pc)), t)
  }

  /** Uid, bundle, clear on disk, clear in memory, resume; a failed resume marks again. */
  function StartNext(s: State, t: nat, pc: Pc, o: Outcome): State
    requires Possible(s, pc, o) && !Waiting(pc) && Op(pc) == Start
  {
    match pc
    case StUid => if o == Success then Goto(s, t, StStore) else End(s, t)
    case StStore => if o == Success then Goto(s, t, StDisk) else End(s, t)
    case StDisk => if o == Success then Goto(s.(disk := false), t, StMem) else End(s, t)
    case StMem => Goto(s.(mem := false), t, StRpc)
    case StRpc =>
      var s1 := if o == Refused then s else s.(sub := RpcEffect(s.sub, pc));
      if o == Success then End(s1, t) else Goto(s1, t, StRemarkDisk)
    case StRemarkDisk => if o == Success then Goto(s.(disk := true), t, StRemarkMem) else End(s, t)
    case StRemarkMem => End(s.(mem := true), t)
  }

  /** Recheck the mark, look at the actor, suspend it. */
  function AgainNext(s: State, t: nat, pc: Pc, o: Outcome): State
    requires Possible(s, pc, o) && !Waiting(pc) && Op(pc) == Again
  {
    match pc
    case AgCheck => if s.mem then Goto(s, t, AgGet) else End(s, t)
    case AgGet => if o == Success && s.sub == Some(Running) then Goto(s, t, AgRpc) else End(s, t)
    case AgRpc => End(if o == Refused then s else s.(sub := RpcEffect(s.sub, pc)), t)
  }

  /** The watch loop lists, reads the marks and spawns; a get reads both once. */
  function ObserverNext(s: State, t: nat, pc: Pc, o: Outcome, child: nat): State
    requires Possible(s, pc, o) && !Waiting(pc) && Op(pc) == Observe
  {
    match pc
    case WatchList => if o == Success then Goto(s, t, WatchMark(s.sub)) else Goto(s, t, WatchList)
    case WatchMark(poll) => Goto(s, t, WatchSpawn(poll, s.mem))
    case WatchSpawn(poll, marked) =>
      Goto(if poll == Some(Running) && marked then Goto(s, child, AgWait) else s, t, WatchList)
    case GetRead => if o == Success && s.sub.Some? then Goto(s, t, GetMark(s.sub)) else End(s, t)
    case GetMark(_) => End(s, t)
  }

  /** create_sandbox, whose actor may already exist, clears without the lock. */
  function CreateNext(s: State, t: nat, pc: Pc, o: Outcome): State
    requires Possible(s, pc, o) && !Waiting(pc) && Op(pc) == Create
  {
    match pc
    case CrCreate =>
      var s1 := if o == Refused || s.sub.Some? then s else s.(sub := Some(Suspended));
      if o == Success then Goto(s1, t, CrStore) else End(s1, t)
    case CrStore => if o == Success then Goto(s, t, CrDisk) else End(s, t)
    case CrDisk => if o == Success then Goto(s.(disk := false), t, CrMem) else End(s, t)
    case CrMem => Goto(s.(mem := false), t, CrResume)
    case CrResume => End(if o == Refused then s else s.(sub := RpcEffect(s.sub, pc)), t)
  }

  /** So do delete_sandbox, to which a missing actor is no error, and
      reap_orphan_bundles, which removes the marker twice before it forgets the name. */
  function DeleteNext(s: State, t: nat, pc: Pc, o: Outcome): State
    requires Possible(s, pc, o) && !Waiting(pc) && Op(pc) == Delete
  {
    match pc
    case DeRpc =>
      var s1 := if o == Refused || s.sub.None? then s else s.(sub := Some(Deleting));
      if o == Success then Goto(s1, t, DeBundle) else End(s1, t)
    case DeBundle => if o == Success then Goto(s, t, DeDisk) else End(s, t)
    case DeDisk => if o == Success then Goto(s.(disk := false), t, DeMem) else End(s, t)
    case DeMem => End(s.(mem := false), t)
    case ReDisk => if o == Success then Goto(s.(disk := false), t, ReDiskAgain) else End(s, t)
    case ReDiskAgain => if o == Success then Goto(s.(disk := false), t, DeMem) else End(s, t)
  }

  // ------------------------------------------------------------------ events

  /** The step writes the marker: the first half of mark_stopped(true). */
  predicate MarksDisk(s: State, l: Label) {
    l.Act? && l.task in s.tasks && l.outcome == Success
    && (s.tasks[l.task].CkDisk? || s.tasks[l.task].StRemarkDisk?)
  }

  /** The step is either half of a mark_stopped(false) or the reap's own removal. */
  predicate Clears(s: State, l: Label) {
    l.Act? && l.task in s.tasks && l.outcome == Success
    && var pc := s.tasks[l.task];
       || pc.StDisk? || pc.StMem? || pc.CrDisk? || pc.CrMem? || pc.DeDisk? || pc.DeMem?
       || pc.ReDisk? || pc.ReDiskAgain?
  }

  /** A checkpoint's SuspendActor or RevertActor takes effect. */
  predicate StopTakesEffect(s: State, l: Label) {
    l.Act? && l.task in s.tasks && s.tasks[l.task].CkRpc? && l.outcome != Refused
  }

  /** A suspend_again task sends SuspendActor, whatever comes of it. */
  predicate IssuesAgain(s: State, l: Label) {
    l.Act? && l.task in s.tasks && s.tasks[l.task].AgRpc?
  }

  predicate StartReturnsOk(s: State, l: Label) {
    l.Act? && l.task in s.tasks && s.tasks[l.task].StRpc? && l.outcome == Success
  }

  predicate ReadsState(s: State, l: Label, o: nat) {
    l.Act? && l.task == o && o in s.tasks && l.outcome == Success
    && (s.tasks[o].WatchList? || s.tasks[o].GetRead?)
  }

  predicate AtMark(pc: Pc) { pc.WatchMark? || pc.GetMark? }

  /** The observer reads the mark, having seen the actor in state `seen`; the
      report it then makes is built from `seen` and s.mem. */
  predicate ReadsMark(s: State, l: Label, o: nat, seen: ActorState) {
    l.Act? && l.task == o && o in s.tasks && AtMark(s.tasks[o]) && s.tasks[o].poll == Some(seen)
  }

  // -------------------------------------------------------------------- runs

  datatype Run = Run(states: seq<State>, labels: seq<Label>)

  ghost predicate IsRun(r: Run) {
    && |r.states| == |r.labels| + 1
    && LockHeld(r.states[0])
    && forall i | 0 <= i < |r.labels| ::
         Enabled(r.states[i], r.labels[i]) && r.states[i + 1] == Next(r.states[i], r.labels[i])
  }

  /** The lock belongs to exactly the task that is between taking and releasing it. */
  ghost predicate LockHeld(s: State) {
    && (forall t | t in s.tasks :: Holding(s.tasks[t]) <==> s.lock == Some(t))
    && (s.lock.Some? ==> s.lock.value in s.tasks)
  }

  /** What a step of task `t` does to the lock and the tasks: the task ends, or
      moves on within its operation, perhaps spawning one re-suspend. */
  ghost predicate Shape(s: State, n: State, t: nat, child: nat)
    requires t in s.tasks
  {
    || (n.tasks == s.tasks - {t} && n.lock == if s.lock == Some(t) then None else s.lock)
    || (n.lock == s.lock && t in n.tasks && !Waiting(n.tasks[t])
        && Op(n.tasks[t]) == Op(s.tasks[t])
        && (n.tasks == s.tasks[t := n.tasks[t]]
            || (child !in s.tasks && n.tasks == s.tasks[child := AgWait][t := n.tasks[t]])))
  }

  lemma CheckpointShape(s: State, t: nat, o: Outcome, child: nat)
    requires Enabled(s, Act(t, o, child)) && Op(s.tasks[t]) == Checkpoint
    ensures Shape(s, CheckpointNext(s, t, s.tasks[t], o), t, child)
  {
  }

  lemma StartShape(s: State, t: nat, o: Outcome, child: nat)
    requires Enabled(s, Act(t, o, child)) && Op(s.tasks[t]) == Start
    ensures Shape(s, StartNext(s, t, s.tasks[t], o), t, child)
  {
  }

  lemma AgainShape(s: State, t: nat, o: Outcome, child: nat)
    requires Enabled(s, Act(t, o, child)) && Op(s.tasks[t]) == Again
    ensures Shape(s, AgainNext(s, t, s.tasks[t], o), t, child)
  {
  }

  lemma ObserveShape(s: State, t: nat, o: Outcome, child: nat)
    requires Enabled(s, Act(t, o, child)) && Op(s.tasks[t]) == Observe
    ensures Shape(s, ObserverNext(s, t, s.tasks[t], o, child), t, child)
  {
  }

  lemma CreateKeepsOp(s: State, t: nat, o: Outcome)
    requires t in s.tasks && Possible(s, s.tasks[t], o) && !Waiting(s.tasks[t]) && Op(s.tasks[t]) == Create
    ensures var n := CreateNext(s, t, s.tasks[t], o); t in n.tasks ==> !Waiting(n.tasks[t]) && Op(n.tasks[t]) == Create
  {
  }

  lemma CreateShape(s: State, t: nat, o: Outcome, child: nat)
    requires Enabled(s, Act(t, o, child)) && Op(s.tasks[t]) == Create
    ensures Shape(s, CreateNext(s, t, s.tasks[t], o), t, child)
  {
    CreateKeepsOp(s, t, o);
    hide Op, Waiting, Possible;
  }

  lemma DeleteKeepsOp(s: State, t: nat, o: Outcome)
    requires t in s.tasks && Possible(s, s.tasks[t], o) && !Waiting(s.tasks[t]) && Op(s.tasks[t]) == Delete
    ensures var n := DeleteNext(s, t, s.tasks[t], o); t in n.tasks ==> !Waiting(n.tasks[t]) && Op(n.tasks[t]) == Delete
  {
  }

  lemma DeleteShape(s: State, t: nat, o: Outcome, child: nat)
    requires Enabled(s, Act(t, o, child)) && Op(s.tasks[t]) == Delete
    ensures Shape(s, DeleteNext(s, t, s.tasks[t], o), t, child)
  {
    DeleteKeepsOp(s, t, o);
    hide Op, Waiting, Possible;
  }

  lemma ActShape(s: State, t: nat, o: Outcome, child: nat)
    requires Enabled(s, Act(t, o, child))
    ensures Shape(s, ActNext(s, t, s.tasks[t], o, child), t, child)
  {
    match Op(s.tasks[t])
    case Checkpoint => CheckpointShape(s, t, o, child);
    case Start => StartShape(s, t, o, child);
    case Again => AgainShape(s, t, o, child);
    case Observe => ObserveShape(s, t, o, child);
    case Create => CreateShape(s, t, o, child);
    case Delete => DeleteShape(s, t, o, child);
  }

  lemma LockHeldStep(s: State, l: Label)
    requires LockHeld(s) && Enabled(s, l)
    ensures LockHeld(Next(s, l))
  {
    match l
    case Act(t, o, child) => ActShape(s, t, o, child);
    case _ =>
  }

  /** Every state of a run keeps the lock discipline, so at most one task is
      between acquiring and releasing at any time. */
  lemma {:induction false} LockHeldAlways(r: Run, i: nat)
    requires IsRun(r) && i < |r.states|
    ensures LockHeld(r.states[i])
  {
    if i > 0 {
      LockHeldAlways(r, i - 1);
      LockHeldStep(r.states[i - 1], r.labels[i - 1]);
    }
  }
}
