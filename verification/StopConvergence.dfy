/** A gateway stop prevails: with the mark set and the outside quiet, the actor
    ends up suspended, by an explicit rank that every useful step lowers. */
module StopConvergence {
  import opened Prelude
  import opened Substrate
  import opened StopProtocol

  /** The mark is set, no start, create or delete is pending, the actor is on its
      way between restored and suspended, and watch stream w is open. */
  ghost predicate Settling(s: State, w: nat) {
    && LockHeld(s) && s.mem
    && s.sub in {Some(Resuming), Some(Running), Some(Suspending), Some(Suspended), Some(Reverting)}
    && (forall t | t in s.tasks :: Op(s.tasks[t]) in {Checkpoint, Again, Observe})
    && w in s.tasks && Watching(s.tasks[w])
  }

  predicate Watching(pc: Pc) { pc.WatchList? || pc.WatchMark? || pc.WatchSpawn? }

  /** No outside resume, no worker death, no restart, no cancelled call, nothing
      that clears the mark; an RPC that Substrate would accept succeeds. */
  predicate Quiet(s: State, l: Label) {
    match l
    case Arrive(_, pc) => pc in {CkWait, WatchList, GetRead}
    case Acquire(_) => true
    case Act(t, o, _) =>
      o == Success || (t in s.tasks && IsRpc(s.tasks[t]) && RpcEffect(s.sub, s.tasks[t]).None?)
    case Cancel(_) => false
    case Env(e) => e in {OutsideSuspend, OutsideRevert, Finish}
    case Restart => false
  }

  ghost predicate SomeoneWaits(s: State) { exists t :: t in s.tasks && Waiting(s.tasks[t]) }

  /** How far the task holding the lock is from its SuspendActor or RevertActor. */
  function HolderRank(pc: Pc): nat {
    match pc
    case CkGet => 4
    case CkDisk(_) => 3
    case CkMem(_) => 2
    case AgCheck => 3
    case AgGet => 2
    case _ => 1
  }

  /** How far the watch loop is from spawning a re-suspend. A poll from before
      the actor was up has to go round once more. */
  function WatchRank(pc: Pc): nat {
    match pc
    case WatchSpawn(poll, marked) => if poll == Some(Running) && marked then 11 else 14
    case WatchMark(poll) => if poll == Some(Running) then 12 else 15
    case _ => 13
  }

  ghost function Rank(s: State, w: nat): nat
    requires Settling(s, w)
  {
    match s.sub.value
    case Resuming => 18
    case Running =>
      2 + (if s.lock.Some? then HolderRank(s.tasks[s.lock.value])
           else if SomeoneWaits(s) then 10
           else WatchRank(s.tasks[w]))
    case Suspended => 0
    case _ => 1
  }

  datatype Duty = SubstrateFinishes | LockTurn | TaskTurn(task: nat)

  /** Whose step lowers the rank next. */
  ghost function NextDuty(s: State, w: nat): Duty
    requires Settling(s, w)
  {
    if s.sub != Some(Running) then SubstrateFinishes
    else if s.lock.Some? then TaskTurn(s.lock.value)
    else if SomeoneWaits(s) then LockTurn
    else TaskTurn(w)
  }

  ghost predicate Due(s: State, d: Duty) {
    match d
    case SubstrateFinishes => Enabled(s, Env(Finish))
    case LockTurn => s.lock.None? && SomeoneWaits(s)
    case TaskTurn(t) => t in s.tasks && !Waiting(s.tasks[t])
  }

  predicate Discharges(l: Label, d: Duty) {
    match d
    case SubstrateFinishes => l == Env(Finish)
    case LockTurn => l.Acquire?
    case TaskTurn(t) => l.Act? && l.task == t
  }

  // ------------------------------------------------------------- single steps

  lemma SettlingEnv(s: State, w: nat, e: EnvStep)
    requires Settling(s, w) && Enabled(s, Env(e)) && Quiet(s, Env(e))
    ensures var n := Next(s, Env(e));
      Settling(n, w) && Rank(n, w) <= Rank(s, w)
      && (Rank(s, w) > 0 && e == Finish ==> Rank(n, w) < Rank(s, w))
      && (Rank(n, w) == Rank(s, w) ==> NextDuty(n, w) == NextDuty(s, w))
  {
  }

  lemma SettlingArrive(s: State, w: nat, t: nat, pc: Pc)
    requires Settling(s, w) && Enabled(s, Arrive(t, pc)) && Quiet(s, Arrive(t, pc))
    ensures var n := Next(s, Arrive(t, pc));
      Settling(n, w) && Rank(n, w) <= Rank(s, w)
      && (Rank(n, w) == Rank(s, w) ==> NextDuty(n, w) == NextDuty(s, w))
  {
    LockHeldStep(s, Arrive(t, pc));
    var n := Next(s, Arrive(t, pc));
    if SomeoneWaits(s) {
      var u :| u in s.tasks && Waiting(s.tasks[u]);
      assert u in n.tasks && Waiting(n.tasks[u]);
    }
  }

  lemma SettlingAcquire(s: State, w: nat, t: nat)
    requires Settling(s, w) && Enabled(s, Acquire(t))
    ensures var n := Next(s, Acquire(t));
      Settling(n, w) && Rank(n, w) <= Rank(s, w)
      && (s.sub == Some(Running) ==> Rank(n, w) < Rank(s, w))
      && (s.sub != Some(Running) ==> NextDuty(n, w) == NextDuty(s, w))
  {
    LockHeldStep(s, Acquire(t));
  }

  /** The task holding the lock: while the actor runs, every one of its steps
      brings the suspend closer. */
  lemma SettlingHolder(s: State, w: nat, t: nat, o: Outcome, child: nat)
    requires var l := Act(t, o, child);
      Settling(s, w) && Enabled(s, l) && Quiet(s, l) && Op(s.tasks[t]) in {Checkpoint, Again}
    ensures var n := Next(s, Act(t, o, child));
      Settling(n, w) && Rank(n, w) <= Rank(s, w)
      && (s.sub == Some(Running) ==> Rank(n, w) < Rank(s, w))
      && (s.sub != Some(Running) ==> Rank(n, w) == Rank(s, w) && NextDuty(n, w) == NextDuty(s, w))
  {
    hide Next;
    LockHeldStep(s, Act(t, o, child));
    HolderShape(s, t, o, child);
    HolderProgress(s, t, o, child);
  }

  lemma HolderShape(s: State, t: nat, o: Outcome, child: nat)
    requires Enabled(s, Act(t, o, child))
    ensures Shape(s, Next(s, Act(t, o, child)), t, child)
  {
    ActShape(s, t, o, child);
  }

  /** A running actor either leaves RUNNING, or the holder is one step further. */
  lemma HolderProgress(s: State, t: nat, o: Outcome, child: nat)
    requires var l := Act(t, o, child); Enabled(s, l) && Quiet(s, l) && Op(s.tasks[t]) in {Checkpoint, Again} && s.mem
    ensures var n := Next(s, Act(t, o, child));
      && n.mem
      && (s.sub == Some(Running) ==>
            || n.sub in {Some(Suspending), Some(Reverting)}
            || (n.sub == s.sub && t in n.tasks && HolderRank(n.tasks[t]) < HolderRank(s.tasks[t])))
      && (s.sub in {Some(Resuming), Some(Suspending), Some(Suspended), Some(Reverting)} ==> n.sub == s.sub)
  {
  }

  /** An observer changes neither the actor nor the marks, and leaves every other
      task alone; only a poll that saw the actor up and marked adds one. */
  lemma ObserverFrame(s: State, t: nat, o: Outcome, child: nat)
    requires Enabled(s, Act(t, o, child)) && Op(s.tasks[t]) == Observe && s.lock != Some(t)
    ensures var n := Next(s, Act(t, o, child));
      && n.sub == s.sub && n.mem == s.mem && n.disk == s.disk && n.lock == s.lock
      && (forall u | u in s.tasks && u != t :: u in n.tasks && n.tasks[u] == s.tasks[u])
      && (forall u | u in n.tasks && u != t :: u in s.tasks || (u == child && n.tasks[u] == AgWait))
      && (t in n.tasks ==> Op(n.tasks[t]) == Observe && !Waiting(n.tasks[t]))
  {
    ActShape(s, t, o, child);
  }

  lemma WatchFrame(s: State, t: nat, o: Outcome, child: nat)
    requires Enabled(s, Act(t, o, child)) && Watching(s.tasks[t])
    ensures var n := Next(s, Act(t, o, child)); var pc := s.tasks[t];
      && t in n.tasks
      && n.tasks[t] == (match pc
                        case WatchList => if o == Success then WatchMark(s.sub) else WatchList
                        case WatchMark(poll) => WatchSpawn(poll, s.mem)
                        case _ => WatchList)
      && n.tasks.Keys == s.tasks.Keys
           + if pc.WatchSpawn? && pc.poll == Some(Running) && pc.marked then {child} else {}
  {
  }

  lemma WaitersKept(s: State, n: State, t: nat)
    requires t in s.tasks && !Waiting(s.tasks[t])
    requires forall u | u in s.tasks && u != t :: u in n.tasks && n.tasks[u] == s.tasks[u]
    ensures SomeoneWaits(s) ==> SomeoneWaits(n)
  {
    if SomeoneWaits(s) {
      var u :| u in s.tasks && Waiting(s.tasks[u]);
      assert u in n.tasks && Waiting(n.tasks[u]);
    }
  }

  /** A step of watch stream w. */
  lemma SettlingWatch(s: State, w: nat, o: Outcome, child: nat)
    requires var l := Act(w, o, child); Settling(s, w) && Enabled(s, l) && Quiet(s, l)
    ensures var n := Next(s, Act(w, o, child));
      Settling(n, w) && Rank(n, w) <= Rank(s, w)
      && (NextDuty(s, w) == TaskTurn(w) ==> Rank(n, w) < Rank(s, w))
      && (NextDuty(s, w) != TaskTurn(w) ==> Rank(n, w) == Rank(s, w) && NextDuty(n, w) == NextDuty(s, w))
  {
    hide Next;
    LockHeldStep(s, Act(w, o, child));
    ObserverFrame(s, w, o, child);
    WatchFrame(s, w, o, child);
    WaitersKept(s, Next(s, Act(w, o, child)), w);
  }

  /** A step of any other observer. */
  lemma SettlingBystander(s: State, w: nat, t: nat, o: Outcome, child: nat)
    requires var l := Act(t, o, child);
      Settling(s, w) && Enabled(s, l) && Quiet(s, l) && Op(s.tasks[t]) == Observe && t != w
    ensures var n := Next(s, Act(t, o, child));
      Settling(n, w) && Rank(n, w) <= Rank(s, w)
      && (Rank(n, w) == Rank(s, w) ==> NextDuty(n, w) == NextDuty(s, w))
      && NextDuty(s, w) != TaskTurn(t)
  {
    hide Next;
    LockHeldStep(s, Act(t, o, child));
    ObserverFrame(s, t, o, child);
    WaitersKept(s, Next(s, Act(t, o, child)), t);
  }

  /** Every quiet step keeps the setting and raises no rank; the duty stays the
      same until the rank drops, and doing it drops the rank. */
  lemma QuietStep(s: State, w: nat, l: Label)
    requires Settling(s, w) && Enabled(s, l) && Quiet(s, l)
    ensures Settling(Next(s, l), w) && Rank(Next(s, l), w) <= Rank(s, w)
    ensures Rank(s, w) > 0 && Discharges(l, NextDuty(s, w)) ==> Rank(Next(s, l), w) < Rank(s, w)
    ensures Rank(Next(s, l), w) == Rank(s, w) ==> NextDuty(Next(s, l), w) == NextDuty(s, w)
  {
    hide Next;
    match l
    case Arrive(t, pc) => SettlingArrive(s, w, t, pc);
    case Acquire(t) => SettlingAcquire(s, w, t);
    case Env(e) => SettlingEnv(s, w, e);
    case Act(t, o, child) =>
      if Op(s.tasks[t]) in {Checkpoint, Again} {
        SettlingHolder(s, w, t, o, child);
      } else if t == w {
        SettlingWatch(s, w, o, child);
      } else {
        SettlingBystander(s, w, t, o, child);
      }
    case _ =>
  }

  lemma RankZero(s: State, w: nat)
    requires Settling(s, w)
    ensures Rank(s, w) == 0 <==> s.sub == Some(Suspended)
    ensures Rank(s, w) > 0 ==> Due(s, NextDuty(s, w))
  {
  }

  // -------------------------------------------------------------- whole runs

  /** An endless quiet run from a settling state. */
  ghost predicate QuietRun(states: nat -> State, labels: nat -> Label, w: nat) {
    && Settling(states(0), w)
    && forall n: nat ::
         Enabled(states(n), labels(n)) && Quiet(states(n), labels(n)) && states(n + 1) == Next(states(n), labels(n))
  }

  /** What is due does not stay due for ever without being done. */
  ghost predicate WeaklyFair(states: nat -> State, labels: nat -> Label) {
    forall n: nat, d: Duty :: Due(states(n), d) ==> exists m: nat :: m >= n && Met(states, labels, d, m)
  }

  ghost predicate Met(states: nat -> State, labels: nat -> Label, d: Duty, m: nat) {
    !Due(states(m), d) || Discharges(labels(m), d)
  }

  lemma {:induction false} RankFalls(states: nat -> State, labels: nat -> Label, w: nat, n: nat, m: nat)
    requires QuietRun(states, labels, w) && n <= m
    ensures Settling(states(n), w) && Settling(states(m), w) && Rank(states(m), w) <= Rank(states(n), w)
    ensures Rank(states(m), w) == Rank(states(n), w) ==> NextDuty(states(m), w) == NextDuty(states(n), w)
    decreases m
  {
    hide Next;
    if m > n {
      RankFalls(states, labels, w, n, m - 1);
      QuietStep(states(m - 1), w, labels(m - 1));
    } else if m > 0 {
      RankFalls(states, labels, w, m - 1, m - 1);
      QuietStep(states(m - 1), w, labels(m - 1));
    }
  }

  /** From any point of a fair quiet run, the rank gets strictly smaller. */
  lemma RankDrops(states: nat -> State, labels: nat -> Label, w: nat, n: nat) returns (m: nat)
    requires QuietRun(states, labels, w) && WeaklyFair(states, labels)
    requires Settling(states(n), w) && Rank(states(n), w) > 0
    ensures m > n && Settling(states(m), w) && Rank(states(m), w) < Rank(states(n), w)
  {
    hide Next;
    var d := NextDuty(states(n), w);
    RankZero(states(n), w);
    var k: nat :| k >= n && Met(states, labels, d, k);
    RankFalls(states, labels, w, n, k);
    RankZero(states(k), w);
    QuietStep(states(k), w, labels(k));
    m := k + 1;
  }

  /** Under weak fairness every quiet run takes a marked actor to SUSPENDED, from
      wherever it was, within as many rank drops as its rank. */
  lemma {:induction false} StopPrevails(states: nat -> State, labels: nat -> Label, w: nat, n: nat) returns (m: nat)
    requires QuietRun(states, labels, w) && WeaklyFair(states, labels) && Settling(states(n), w)
    ensures m >= n && states(m).sub == Some(Suspended)
    decreases Rank(states(n), w)
  {
    hide Next;
    RankZero(states(n), w);
    if Rank(states(n), w) == 0 {
      m := n;
    } else {
      var k := RankDrops(states, labels, w, n);
      m := StopPrevails(states, labels, w, k);
    }
  }

  /** And there it stays. */
  lemma StopHolds(states: nat -> State, labels: nat -> Label, w: nat, n: nat, m: nat)
    requires QuietRun(states, labels, w) && n <= m && states(n).sub == Some(Suspended)
    ensures states(m).sub == Some(Suspended)
  {
    hide Next;
    RankFalls(states, labels, w, n, m);
    RankZero(states(n), w);
    RankZero(states(m), w);
  }
}
