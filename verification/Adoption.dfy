/** Liveness of the whole: once the gateway stops putting bundles and nobody dies,
    the last one put is published by the supervisor launcher and then run by the
    sandbox launcher, by an explicit rank that every useful step lowers. */
module Adoption {
  import opened Prelude
  import E = LaunchEndpoint
  import L = Launcher
  import LR = LauncherRoles
  import opened EndToEnd

  /** Nothing is put, forgotten or restarted, nobody exits, and a poll is given up
      only when the driver it went to is gone. Requests of others, wakeups, deadlines
      and bumps for other actors go on as they like. */
  predicate Calm(s: State, l: Label) {
    match l
    case Endpoint(e) => e.OtherBump? || e.Request? || e.Read? || e.Wake? || e.Deadline? || e.Hangup?
    case Roles(m) => (m.Sup? && m.ok && !s.ln.sup.pc.Poll?) || (m.Sb? && m.ok)
    case Fetch(_) => true
    case Deliver => true
    case GiveUp => s.request.Some? && s.request.value !in s.ep.handlers
  }

  /** The last put has completed and is for this incarnation, and nobody has exited. */
  ghost predicate Settled(s: State, me: string) {
    && Inv(s) && Attended(s, me) && L.Distinct(s.ep.puts)
    && s.ep.put.NoPut? && s.ep.mem.Some? && s.ep.mem.value.number == |s.ep.puts| - 1 && s.ep.mem.value.uid == me
    && !s.ln.sup.pc.SupExited? && !s.ln.sb.pc.SbExited?
  }

  /** No handler is stranded, and the poll under way is this incarnation's. */
  ghost predicate Attended(s: State, me: string) {
    && E.AllWakeable(s.ep)
    && (s.request.Some? && s.request.value in s.ep.handlers ==> s.ep.handlers[s.request.value].uid == me)
  }

  /** The generation to be adopted. */
  function Goal(s: State): Option<string> {
    if s.ep.mem.Some? then Some(s.ep.mem.value.generation) else None
  }

  predicate Published(s: State) { L.LastOf(s.ln.sup.published) == Goal(s) }

  /** Where the supervisor launcher's own poll stands; None when there is none or
      its handler is gone. */
  function Asked(s: State): Option<E.HandlerPc> {
    if s.request.Some? && s.request.value in s.ep.handlers then Some(s.ep.handlers[s.request.value].pc) else None
  }

  /** How far the poll is from its answer. */
  function PollRank(s: State): nat {
    match Asked(s)
    case None => if s.request.Some? then 50 else 47
    case Some(Parked(_, _)) => 49
    case Some(Answered(Send(e))) => if Some(e.generation) == Goal(s) then 45 else 90
    case Some(Answered(_)) => 48
    case Some(Reading(_)) => 46
  }

  function SupPart(s: State): nat {
    if s.ln.sup.pc.Poll? then PollRank(s)
    else if L.Applying(s.ln.sup.pc) == Goal(s) then LR.SupRank(s.ln.sup.pc)
    else 60 + LR.SupRank(s.ln.sup.pc)
  }

  function SbPart(b: L.Sandbox, goal: Option<string>): nat {
    match b.pc
    case Look => if b.running == goal then 0 else 50
    case SbExited(_) => 0
    case pc => if Some(pc.next) == goal then LR.SbRank(pc) else 60 + LR.SbRank(pc)
  }

  function Rank(s: State): nat {
    if Published(s) then SbPart(s.ln.sb, Goal(s)) else 100 + SupPart(s)
  }

  datatype Duty =
    | PollGivenUp | HandlerWakes(id: nat) | HandlerReads(id: nat) | AnswerArrives | SupPolls
    | SupTurn | SbTurn

  /** Whose step lowers the rank next. */
  function NextDuty(s: State): Duty {
    if Published(s) then SbTurn
    else if !s.ln.sup.pc.Poll? then SupTurn
    else match Asked(s)
      case None => if s.request.Some? then PollGivenUp else SupPolls
      case Some(Parked(_, _)) => HandlerWakes(s.request.value)
      case Some(Answered(_)) => AnswerArrives
      case Some(Reading(_)) => HandlerReads(s.request.value)
  }

  predicate Due(s: State, d: Duty) {
    match d
    case PollGivenUp => s.request.Some? && s.request.value !in s.ep.handlers
    case HandlerWakes(id) => E.Enabled(s.ep, E.Wake(id))
    case HandlerReads(id) => E.Enabled(s.ep, E.Read(id))
    case AnswerArrives => Enabled(s, Deliver)
    case SupPolls => s.ln.sup.pc.Poll? && s.request.None?
    case SupTurn => !s.ln.sup.pc.Poll? && !s.ln.sup.pc.SupExited?
    case SbTurn => !s.ln.sb.pc.SbExited?
  }

  /** A parked handler's deadline will do as well: the next poll reads afresh. */
  predicate Discharges(l: Label, d: Duty) {
    match d
    case PollGivenUp => l == GiveUp
    case HandlerWakes(id) => l == Endpoint(E.Wake(id)) || l == Endpoint(E.Deadline(id))
    case HandlerReads(id) => l == Endpoint(E.Read(id))
    case AnswerArrives => l == Deliver
    case SupPolls => l.Fetch?
    case SupTurn => l.Roles? && l.l.Sup?
    case SbTurn => l.Roles? && l.l.Sb?
  }

  // ------------------------------------------------------------- single steps

  /** What each step comes to for the rank and for whose turn it is. */
  ghost predicate Moves(s: State, l: Label, n: State) {
    && Goal(n) == Goal(s) && Rank(n) <= Rank(s)
    && (Rank(s) > 0 && Discharges(l, NextDuty(s)) ==> Rank(n) < Rank(s))
    && (Rank(n) == Rank(s) ==> NextDuty(n) == NextDuty(s))
  }

  lemma SamePlace(g: seq<string>, i: nat, j: nat)
    requires L.Distinct(g) && i <= j < |g| && g[i] == g[j]
    ensures i == j
  {
  }

  lemma RoomAbove(at: seq<nat>, k: nat, bound: nat)
    requires Increasing(at) && k < |at| && forall i | 0 <= i < |at| :: at[i] < bound
    ensures k + 1 < |at| ==> at[k] + 1 < bound
  {
    if k + 1 < |at| {
      assert at[k] < at[k + 1] < bound;
    }
  }

  /** The goal's place among the puts is the last. */
  lemma GoalIsLast(s: State, me: string)
    requires Settled(s, me) && Published(s)
    ensures 0 < |s.ln.sup.published| <= |s.numbers|
    ensures s.numbers[|s.ln.sup.published| - 1] == |s.ep.puts| - 1
    ensures |s.numbers| == |s.ln.sup.published|
  {
    var k := |s.ln.sup.published| - 1;
    assert s.ln.sup.published[k] == s.ln.sup.received[k] == s.ep.puts[s.numbers[k]];
    SamePlace(s.ep.puts, s.numbers[k], |s.ep.puts| - 1);
    RoomAbove(s.numbers, k, |s.ep.puts|);
  }

  /** The last put is the newest there is: once received, nothing follows it. */
  lemma NothingAfterGoal(s: State, me: string)
    requires Settled(s, me)
    ensures Published(s) ==> !L.BeforePublish(s.ln.sup.pc) && s.ln.dir.current == Goal(s)
    ensures !Published(s) && s.ln.sup.pc.Poll? ==> s.ln.sup.running != Goal(s)
    ensures L.Dropping(s.ln.sup.pc) ==> (Published(s) <==> L.Applying(s.ln.sup.pc) == Goal(s))
  {
    if Published(s) {
      GoalIsLast(s, me);
    }
  }

  /** What a poll is answered with while the goal is still to be published: never the
      generation that runs. */
  lemma PollSound(s: State, me: string)
    requires Settled(s, me) && !Published(s) && s.ln.sup.pc.Poll? && Asked(s).Some?
    ensures var h := s.ep.handlers[s.request.value];
      && E.Reply(s.ep.mem, h) == Some(E.Send(s.ep.mem.value))
      && (h.pc.Answered? && h.pc.answer.Send? ==> L.Enabled(s.ln, L.Receive(h.pc.answer.entry.generation)))
      && (h.pc.Parked? ==> E.Enabled(s.ep, E.Wake(s.request.value)))
  {
    NothingAfterGoal(s, me);
    var h := s.ep.handlers[s.request.value];
    assert E.Wakeable(s.ep, h) && E.NumberedAnswer(s.ep, h);
  }

  /** After the goal is published no poll is answered with anything to apply. */
  lemma NothingToApply(s: State, me: string)
    requires Settled(s, me) && Published(s) && s.ln.sup.pc.Poll? && Asked(s).Some?
    ensures var pc := Asked(s).value; pc.Answered? ==> !pc.answer.Send?
  {
    GoalIsLast(s, me);
    var h := s.ep.handlers[s.request.value];
    assert E.NumberedAnswer(s.ep, h);
  }

  // -------------------------------------------------- where a calm run may start

  lemma AttendedEndpoint(s: State, e: E.Label, me: string)
    requires Attended(s, me) && Enabled(s, Endpoint(e))
    ensures Attended(Next(s, Endpoint(e), me), me)
  {
    E.WakeableStep(s.ep, e);
    hide E.AllWakeable;
  }

  lemma AttendedStep(s: State, l: Label, me: string)
    requires Attended(s, me) && Enabled(s, l) && !l.Endpoint?
    ensures Attended(Next(s, l, me), me)
  {
    if l.Fetch? {
      E.WakeableStep(s.ep, E.Request(l.id, me, s.ln.sup.running));
    } else if (l.Deliver? || l.GiveUp?) && s.request.value in s.ep.handlers {
      E.WakeableStep(s.ep, E.Hangup(s.request.value));
    } else if l.GiveUp? {
      assert s.ep.handlers - {s.request.value} == s.ep.handlers;
    }
    hide E.AllWakeable, L.Next;
  }

  lemma NobodyAsks(s: State, me: string)
    requires s.ep.handlers == map[] && s.request.None?
    ensures Attended(s, me)
  {
  }

  lemma {:induction false} AttendedAlways(r: Run, me: string, i: nat)
    requires IsRun(r, me) && i < |r.states|
    ensures Attended(r.states[i], me)
  {
    hide Next, Enabled, Attended;
    if i > 0 {
      AttendedAlways(r, me, i - 1);
      match r.labels[i - 1] {
        case Endpoint(e) => AttendedEndpoint(r.states[i - 1], e, me);
        case l => AttendedStep(r.states[i - 1], l, me);
      }
    } else {
      NobodyAsks(r.states[0], me);
    }
  }

  /** In any state that a run can reach: once the last put has completed, is cached
      and is for this incarnation, and neither role has exited, all is settled. */
  lemma ReachableIsSettled(r: Run, me: string, i: nat)
    requires IsRun(r, me) && i < |r.states|
    requires var s := r.states[i];
      && s.ep.put.NoPut? && s.ep.mem.Some? && s.ep.mem.value.number == |s.ep.puts| - 1 && s.ep.mem.value.uid == me
      && !s.ln.sup.pc.SupExited? && !s.ln.sb.pc.SbExited?
    ensures Settled(r.states[i], me)
  {
    AttendedAlways(r, me, i);
    InvAlways(r, me, i);
    hide Inv, E.AllWakeable;
  }

  // ---------------------------------------------------------------- settledness

  lemma SettledEndpoint(s: State, e: E.Label, me: string)
    requires Settled(s, me) && Enabled(s, Endpoint(e)) && Calm(s, Endpoint(e))
    ensures Settled(Next(s, Endpoint(e), me), me)
  {
    EndpointStep(s, e, me);
    AttendedEndpoint(s, e, me);
    hide Inv, Attended, L.Distinct;
  }

  /** A calm supervisor role does not exit: CURRENT is never missing. */
  lemma SupStays(s: L.State, pid: nat)
    requires L.Inv(s) && L.Enabled(s, L.Sup(true, pid)) && !s.sup.pc.Poll?
    ensures !L.Next(s, L.Sup(true, pid)).sup.pc.SupExited?
  {
    L.InvStep(s, L.Sup(true, pid));
    hide L.OneSupervisor, L.Tidy, L.LaidOut, L.InOrder, L.Distinct;
  }

  lemma SettledRoles(s: State, m: L.Label, me: string)
    requires Settled(s, me) && Enabled(s, Roles(m)) && Calm(s, Roles(m))
    requires !L.Next(s.ln, m).sb.pc.SbExited?
    ensures Settled(Next(s, Roles(m), me), me)
  {
    hide E.Enabled, E.Next, Published, Attended, L.Distinct, L.Inv, RequestSound, Picks, NotOlder, E.Numbered;
    OtherStep(s, Roles(m), me);
    AttendedStep(s, Roles(m), me);
    if m.Sup? {
      SupStays(s.ln, m.pid);
    }
  }

  lemma SettledDeliver(s: State, me: string)
    requires Settled(s, me) && Enabled(s, Deliver)
    ensures Settled(Next(s, Deliver, me), me)
  {
    hide Inv, L.Distinct, Attended;
    DeliverStep(s, me);
    AttendedStep(s, Deliver, me);
  }

  lemma SettledPoll(s: State, l: Label, me: string)
    requires Settled(s, me) && Enabled(s, l) && (l.Fetch? || l.GiveUp?)
    ensures Settled(Next(s, l, me), me)
  {
    OtherStep(s, l, me);
    AttendedStep(s, l, me);
    hide Inv, L.Distinct, Attended;
  }

  // ------------------------------------------------------------------ the rank

  lemma EndpointMoves(s: State, e: E.Label, me: string)
    requires Settled(s, me) && Enabled(s, Endpoint(e)) && Calm(s, Endpoint(e))
    ensures Moves(s, Endpoint(e), Next(s, Endpoint(e), me))
  {
    hide Inv;
    if !Published(s) && s.ln.sup.pc.Poll? && Asked(s).Some? {
      PollSound(s, me);
    }
    hide Settled;
  }

  lemma PollMoves(s: State, l: Label, me: string)
    requires Settled(s, me) && Enabled(s, l) && (l.Fetch? || l.Deliver? || l.GiveUp?) && Calm(s, l)
    ensures Moves(s, l, Next(s, l, me))
  {
    NothingAfterGoal(s, me);
    if s.ln.sup.pc.Poll? && Asked(s).Some? {
      if Published(s) {
        NothingToApply(s, me);
      } else {
        PollSound(s, me);
      }
    }
    hide Inv;
  }

  lemma SupMoves(s: State, pid: nat, me: string)
    requires Settled(s, me) && Enabled(s, Roles(L.Sup(true, pid))) && Calm(s, Roles(L.Sup(true, pid)))
    ensures Moves(s, Roles(L.Sup(true, pid)), Next(s, Roles(L.Sup(true, pid)), me))
  {
    hide E.AllWakeable, E.Numbered, L.Distinct, L.SupDir, Picks, L.Tidy, L.InOrder, L.OneSupervisor;
    NothingAfterGoal(s, me);
  }

  lemma SbMoves(s: State, me: string)
    requires Settled(s, me) && Enabled(s, Roles(L.Sb(true)))
    requires !L.Next(s.ln, L.Sb(true)).sb.pc.SbExited?
    ensures Moves(s, Roles(L.Sb(true)), Next(s, Roles(L.Sb(true)), me))
  {
    hide E.Enabled, E.AllWakeable, E.Numbered, RequestSound, Picks;
    hide L.Distinct, L.SbDir, L.Tidy, L.OneSupervisor, L.LaidOut;
    NothingAfterGoal(s, me);
  }

  lemma CalmStep(s: State, l: Label, me: string)
    requires Settled(s, me) && Enabled(s, l) && Calm(s, l) && !Next(s, l, me).ln.sb.pc.SbExited?
    ensures Settled(Next(s, l, me), me) && Moves(s, l, Next(s, l, me))
  {
    match l {
      case Endpoint(e) =>
        SettledEndpoint(s, e, me);
        EndpointMoves(s, e, me);
      case Roles(m) =>
        SettledRoles(s, m, me);
        if m.Sup? {
          SupMoves(s, m.pid, me);
        } else {
          SbMoves(s, me);
        }
      case Deliver =>
        SettledDeliver(s, me);
        PollMoves(s, l, me);
      case _ =>
        SettledPoll(s, l, me);
        PollMoves(s, l, me);
    }
    hide Settled, Moves, L.Next, E.Next;
  }

  /** The goal is published and the sandbox runs on it. */
  predicate Adopted(s: State) {
    Published(s) && s.ln.sb.pc.Look? && Goal(s).Some? && s.ln.sb.running == Goal(s)
  }

  lemma RankZero(s: State, me: string)
    requires Settled(s, me)
    ensures Rank(s) == 0 <==> Adopted(s)
    ensures Rank(s) > 0 ==> Due(s, NextDuty(s))
    ensures Adopted(s) ==> L.LastOf(s.ln.sb.adopted) == Goal(s)
  {
    if !Published(s) && s.ln.sup.pc.Poll? && Asked(s).Some? {
      PollSound(s, me);
    }
    hide E.AllWakeable, E.Numbered, L.Distinct, Picks, L.Ordered, L.OneSupervisor, L.Tidy, L.LaidOut;
  }

  // -------------------------------------------------------------------- runs

  ghost predicate CalmRun(states: nat -> State, labels: nat -> Label, me: string) {
    Settled(states(0), me) && CalmSteps(states, labels, me)
  }

  ghost predicate CalmSteps(states: nat -> State, labels: nat -> Label, me: string) {
    forall n: nat ::
      && Enabled(states(n), labels(n)) && Calm(states(n), labels(n)) && !states(n).ln.sb.pc.SbExited?
      && states(n + 1) == Next(states(n), labels(n), me)
  }

  /** What is due does not stay due for ever without being done. */
  ghost predicate WeaklyFair(states: nat -> State, labels: nat -> Label) {
    forall n: nat, d: Duty :: Due(states(n), d) ==> exists m: nat :: m >= n && Met(states, labels, d, m)
  }

  ghost predicate Met(states: nat -> State, labels: nat -> Label, d: Duty, m: nat) {
    !Due(states(m), d) || Discharges(labels(m), d)
  }

  lemma {:induction false} RankFalls(states: nat -> State, labels: nat -> Label, me: string, n: nat, m: nat)
    requires CalmRun(states, labels, me) && n <= m
    ensures Settled(states(n), me) && Settled(states(m), me) && Rank(states(m)) <= Rank(states(n))
    ensures Rank(states(m)) == Rank(states(n)) ==> NextDuty(states(m)) == NextDuty(states(n))
    ensures Goal(states(m)) == Goal(states(n))
    decreases m
  {
    hide Next, Settled, Calm, Enabled, Rank, NextDuty;
    if m > 0 {
      RankFalls(states, labels, me, if n < m then n else m - 1, m - 1);
      assert states(m) == Next(states(m - 1), labels(m - 1), me);
      CalmStep(states(m - 1), labels(m - 1), me);
    }
  }

  /** From any point of a fair calm run, the rank gets strictly smaller. */
  lemma RankDrops(states: nat -> State, labels: nat -> Label, me: string, n: nat) returns (m: nat)
    requires CalmRun(states, labels, me) && WeaklyFair(states, labels)
    requires Settled(states(n), me) && Rank(states(n)) > 0
    ensures m > n && Settled(states(m), me) && Rank(states(m)) < Rank(states(n))
  {
    hide Next, Settled, Calm, Enabled, Rank, NextDuty, Due, Discharges;
    var d := NextDuty(states(n));
    RankZero(states(n), me);
    var k: nat :| k >= n && Met(states, labels, d, k);
    RankFalls(states, labels, me, n, k);
    RankZero(states(k), me);
    RankFalls(states, labels, me, k, k + 1);
    CalmStep(states(k), labels(k), me);
    m := k + 1;
  }

  /** Under weak fairness, with nobody exiting, the last put is published and then
      run by the sandbox launcher, from wherever the launchers were. */
  lemma {:induction false} LastPutIsAdopted(states: nat -> State, labels: nat -> Label, me: string, n: nat)
    returns (m: nat)
    requires CalmRun(states, labels, me) && WeaklyFair(states, labels) && Settled(states(n), me)
    ensures m >= n && Adopted(states(m)) && Goal(states(m)) == Goal(states(n))
    ensures L.LastOf(states(m).ln.sb.adopted) == Some(states(n).ep.mem.value.generation)
    decreases Rank(states(n))
  {
    RankZero(states(n), me);
    if Rank(states(n)) == 0 {
      m := n;
    } else {
      var k := RankDrops(states, labels, me, n);
      RankFalls(states, labels, me, n, k);
      m := LastPutIsAdopted(states, labels, me, k);
    }
    hide Next, Inv, Calm, Enabled, Rank, NextDuty, Due, Discharges, Adopted, E.AllWakeable;
  }

  /** And it stays so. */
  lemma AdoptionHolds(states: nat -> State, labels: nat -> Label, me: string, n: nat, m: nat)
    requires CalmRun(states, labels, me) && n <= m && Adopted(states(n))
    ensures Adopted(states(m)) && Goal(states(m)) == Goal(states(n))
  {
    hide Next, Settled, Calm, Enabled, Rank, NextDuty, Adopted;
    RankFalls(states, labels, me, n, m);
    RankZero(states(n), me);
    RankZero(states(m), me);
  }

  /** So wherever a run of the store, the endpoint and the launchers has led, restarts,
      dropped puts and lost answers included: if the last put is completed, cached
      and for this incarnation and neither role has exited, then from there on every
      fair calm run has the sandbox launcher run that generation, and keep to it. */
  lemma ReachedPutIsAdopted(r: Run, me: string, i: nat, states: nat -> State, labels: nat -> Label) returns (m: nat)
    requires IsRun(r, me) && i < |r.states| && states(0) == r.states[i]
    requires var s := r.states[i];
      && s.ep.put.NoPut? && s.ep.mem.Some? && s.ep.mem.value.number == |s.ep.puts| - 1 && s.ep.mem.value.uid == me
      && !s.ln.sup.pc.SupExited? && !s.ln.sb.pc.SbExited?
    requires CalmSteps(states, labels, me) && WeaklyFair(states, labels)
    ensures L.LastOf(states(m).ln.sb.adopted) == L.LastOf(r.states[i].ep.puts)
    ensures forall k | k >= m :: Adopted(states(k)) && Goal(states(k)) == L.LastOf(r.states[i].ep.puts)
  {
    hide Next, Inv, Calm, Enabled, Adopted, E.AllWakeable, CalmSteps;
    ReachableIsSettled(r, me, i);
    GoalIsLastPut(states(0), me);
    m := LastPutIsAdopted(states, labels, me, 0);
    forall k | k >= m ensures Adopted(states(k)) && Goal(states(k)) == Goal(states(0)) {
      AdoptionHolds(states, labels, me, m, k);
    }
  }

  lemma GoalIsLastPut(s: State, me: string)
    requires Settled(s, me)
    ensures Goal(s) == L.LastOf(s.ep.puts)
  {
  }
}
