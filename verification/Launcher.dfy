/** The two launcher roles of runtime/launcher.py over their shared directory:
    two processes without a lock, each step one file or process operation. */
module Launcher {
  import opened Prelude

  /** A generation's sandbox files in the order they are written and copied. */
  const FILES := 3

  /** bundle/<generation>: which of the files are there, and whose content each has. */
  type Files = map<nat, string>

  datatype Exit = NoListener | ChildDied | CurrentMissing | SourceMissing

  /** The supervisor role. `next` is the generation being applied. */
  datatype SupPc =
    | Poll
    | LayOwn(next: string) | LayShared(next: string, done: nat)
    | Unlink(next: string) | StopOld(next: string) | StartNew(next: string) | Listen(next: string)
    | Publish(next: string) | DropOwn(next: string) | DropShared(next: string, done: nat)
    | SupExited(why: Exit)

  /** The sandbox role. `at` is how many generations had been published when it
      read CURRENT, which the launcher itself does not know. */
  datatype SbPc =
    | Look
    | StopChild(next: string, at: nat) | Copy(next: string, at: nat, done: nat)
    | DropSource(next: string, at: nat, done: nat) | StartChild(next: string, at: nat)
    | SbExited(why: Exit)

  /** /run/openshell: the file CURRENT and the directory bundle/. */
  datatype Shared = Shared(current: Option<string>, bundles: map<string, Files>)

  /** The supervisor role: its own directories, its child and the supervisor
      processes that are alive; `received` and `published` remember what it was
      handed and what it put into CURRENT. */
  datatype Supervisor = Supervisor(
    pc: SupPc, running: Option<string>, own: set<string>, child: Option<nat>, procs: map<nat, string>,
    started: Option<string>, received: seq<string>, published: seq<string>)

  /** The sandbox role; `adopted` remembers the generations it started, and
      `adoptedAt` how many had been published when it read each from CURRENT. */
  datatype Sandbox = Sandbox(
    pc: SbPc, running: Option<string>, files: Files, adopted: seq<string>, adoptedAt: seq<nat>)

  datatype State = State(dir: Shared, sup: Supervisor, sb: Sandbox)

  datatype Label =
    | Receive(generation: string)        // the poll answers with a bundle
    | Sup(ok: bool, pid: nat)            // the supervisor role's next step
    | SupChildDies
    | Sb(ok: bool)                       // the sandbox role's next step

  const FRESH := State(Shared(None, map[]), Supervisor(Poll, None, {}, None, map[], None, [], []),
                       Sandbox(Look, None, map[], [], []))

  predicate Enabled(s: State, l: Label) {
    match l
    case Receive(g) => s.sup.pc.Poll? && Some(g) != s.sup.running
    case Sup(ok, pid) =>
      && !s.sup.pc.SupExited?
      && (s.sup.pc.Poll? ==> s.sup.child.Some? && s.sup.child.value !in s.sup.procs)
      && (s.sup.pc.StartNew? ==> pid !in s.sup.procs)
      && (!s.sup.pc.Listen? ==> ok)
    case SupChildDies => s.sup.child.Some? && s.sup.child.value in s.sup.procs
    case Sb(ok) => !s.sb.pc.SbExited? && (s.sb.pc.StartChild? || (s.sb.pc.Look? && s.sb.running.Some?) || ok)
  }

  function Next(s: State, l: Label): State
    requires Enabled(s, l)
  {
    match l
    case Receive(g) => s.(sup := s.sup.(pc := LayOwn(g), received := s.sup.received + [g]))
    case Sup(ok, pid) => State(SupDir(s.dir, s.sup), SupNext(s.dir, s.sup, ok, pid), s.sb)
    case SupChildDies => s.(sup := s.sup.(procs := s.sup.procs - {s.sup.child.value}))
    case Sb(ok) => State(SbDir(s.dir, s.sb), s.sup, SbNext(s.dir, s.sb, |s.sup.published|, ok))
  }

  function FilesOf(d: Shared, g: string): Files { if g in d.bundles then d.bundles[g] else map[] }

  /** One file of an rmtree that ignores what is already gone. */
  function DropFile(d: Shared, g: string, k: nat): Shared {
    if g in d.bundles then d.(bundles := d.bundles[g := d.bundles[g] - {k}]) else d
  }

  /** apply_bundle, statement by statement: what the step at u.pc does to the role.
      At Poll it is the check that finds the child dead. */
  function SupNext(d: Shared, u: Supervisor, ok: bool, pid: nat): Supervisor {
    match u.pc
    case Poll => u.(pc := SupExited(ChildDied))
    case LayOwn(g) => u.(own := u.own + {g}, pc := LayShared(g, 0))
    case LayShared(g, k) => u.(pc := if k < FILES then LayShared(g, k + 1) else Unlink(g))
    case Unlink(g) =>
      u.(pc := if u.running.Some? && d.current.None? then SupExited(CurrentMissing) else StopOld(g))
    case StopOld(g) =>
      u.(procs := if u.child.Some? then u.procs - {u.child.value} else u.procs, pc := StartNew(g))
    case StartNew(g) => u.(procs := u.procs[pid := g], child := Some(pid), started := Some(g), pc := Listen(g))
    case Listen(g) => u.(pc := if ok then Publish(g) else SupExited(NoListener))
    case Publish(g) =>
      u.(published := u.published + [g],
         running := if u.running.None? then Some(g) else u.running,
         pc := if u.running.None? then Poll else DropOwn(g))
    case DropOwn(g) =>
      u.(own := if u.running.Some? then u.own - {u.running.value} else u.own, pc := DropShared(g, 0))
    case DropShared(g, k) =>
      if k < FILES then u.(pc := DropShared(g, k + 1)) else u.(running := Some(g), pc := Poll)
    case SupExited(_) => u
  }

  /** What the same step does to the shared directory. */
  function SupDir(d: Shared, u: Supervisor): Shared {
    match u.pc
    case LayShared(g, k) => if k < FILES then d.(bundles := d.bundles[g := FilesOf(d, g)[k := g]]) else d
    case Unlink(_) => if u.running.Some? then d.(current := None) else d
    case Publish(g) => d.(current := Some(g))
    case DropShared(_, k) =>
      if u.running.None? then d
      else if k < FILES then DropFile(d, u.running.value, k)
      else d.(bundles := d.bundles - {u.running.value})
    case _ => d
  }

  /** sandbox_role, from reading CURRENT to starting the sandbox, when `published`
      generations have been published; at Look, !ok is the check that finds the
      child dead. */
  function SbNext(d: Shared, b: Sandbox, published: nat, ok: bool): Sandbox {
    match b.pc
    case Look =>
      if !ok then b.(pc := SbExited(ChildDied))
      else if d.current.None? || d.current == b.running then b
      else b.(pc := StopChild(d.current.value, published))
    case StopChild(g, at) => b.(pc := Copy(g, at, 0))
    case Copy(g, at, k) =>
      if k >= FILES then b.(pc := DropSource(g, at, 0))
      else if k in FilesOf(d, g) then b.(files := b.files[k := d.bundles[g][k]], pc := Copy(g, at, k + 1))
      else b.(pc := SbExited(SourceMissing))
    case DropSource(g, at, k) => b.(pc := if k < FILES then DropSource(g, at, k + 1) else StartChild(g, at))
    case StartChild(g, at) =>
      if ok then b.(running := Some(g), adopted := b.adopted + [g], adoptedAt := b.adoptedAt + [at], pc := Look)
      else b.(pc := SbExited(NoListener))
    case SbExited(_) => b
  }

  function SbDir(d: Shared, b: Sandbox): Shared {
    match b.pc
    case DropSource(g, _, k) => if k < FILES then DropFile(d, g, k) else d.(bundles := d.bundles - {g})
    case _ => d
  }

  // ------------------------------------------------------------- invariants

  /** The generation being applied: from the poll's answer to the return. */
  function Applying(pc: SupPc): Option<string> {
    match pc
    case Poll => None
    case SupExited(_) => None
    case _ => Some(pc.next)
  }

  predicate BeforePublish(pc: SupPc) {
    pc.LayOwn? || pc.LayShared? || pc.Unlink? || pc.StopOld? || pc.StartNew? || pc.Listen? || pc.Publish?
  }

  predicate Dropping(pc: SupPc) { pc.DropOwn? || pc.DropShared? }

  function LastOf(g: seq<string>): Option<string> { if g == [] then None else Some(g[|g| - 1]) }

  ghost predicate Distinct(g: seq<string>) { forall i, j | 0 <= i < j < |g| :: g[i] != g[j] }

  function Pending(pc: SupPc): seq<string> {
    if BeforePublish(pc) then [pc.next] else []
  }

  function AllButLast(g: seq<string>): seq<string> { if g == [] then [] else g[..|g| - 1] }

  /** What has been published, what is running and what CURRENT names. */
  ghost predicate Ordered(s: State) {
    && Distinct(s.sup.received)
    && (if s.sup.pc.SupExited? then s.sup.pc.why != CurrentMissing && s.sup.published <= s.sup.received
        else s.sup.received == s.sup.published + Pending(s.sup.pc))
    && (s.sup.pc.Poll? || BeforePublish(s.sup.pc) ==> s.sup.running == LastOf(s.sup.published))
    && (Dropping(s.sup.pc) ==>
          && Applying(s.sup.pc) == LastOf(s.sup.published)
          && s.sup.running == LastOf(AllButLast(s.sup.published)) && s.sup.running.Some?)
    && s.dir.current == CurrentOf(s)
  }

  /** What CURRENT names: nothing while the supervisor changes hands, and nothing
      any more when the new one never came up. */
  function CurrentOf(s: State): Option<string> {
    match s.sup.pc
    case StopOld(_) => None
    case StartNew(_) => None
    case Listen(_) => None
    case Publish(_) => None
    case SupExited(why) => if why == NoListener then None else LastOf(s.sup.published)
    case _ => LastOf(s.sup.published)
  }

  /** The supervisor's process: at most one, the child, of the generation started last. */
  ghost predicate OneSupervisor(s: State) {
    && (forall p | p in s.sup.procs :: s.sup.child == Some(p) && s.sup.started == Some(s.sup.procs[p]))
    && (s.sup.pc.StartNew? ==> s.sup.procs == map[])
    && (s.dir.current.Some? ==> s.sup.started == s.dir.current)
    && (s.sup.pc.Listen? || s.sup.pc.Publish? ==> s.sup.started == Applying(s.sup.pc))
  }

  /** The directories there are, and what is in them. */
  ghost predicate Tidy(s: State) {
    && (forall g, k | g in s.dir.bundles && k in s.dir.bundles[g] :: k < FILES && s.dir.bundles[g][k] == g)
    && (forall g | g in s.dir.bundles :: s.sup.running == Some(g) || Kept(s, g))
    && (forall g | g in s.sup.own :: (s.sup.running == Some(g) && !s.sup.pc.DropShared?) || Kept(s, g))
  }

  /** g is being applied, or was when the role gave up. */
  ghost predicate Kept(s: State, g: string) {
    Applying(s.sup.pc) == Some(g) || (s.sup.pc.SupExited? && LastOf(s.sup.received) == Some(g))
  }

  /** The first n files of g are there. */
  ghost predicate Has(d: Shared, g: string, n: nat) { forall k: nat | k < n :: k in FilesOf(d, g) }

  /** The sandbox role has taken, or is past taking, the last published generation. */
  predicate Consumed(s: State) {
    || (s.sb.adoptedAt != [] && s.sb.adoptedAt[|s.sb.adoptedAt| - 1] == |s.sup.published|)
    || ((s.sb.pc.DropSource? || s.sb.pc.StartChild?) && s.sb.pc.at == |s.sup.published|)
    || s.sb.pc.SbExited?
  }

  /** What the supervisor role lays out is all there before it goes on. */
  ghost predicate Laying(s: State) {
    match s.sup.pc
    case Poll => true
    case LayOwn(_) => true
    case LayShared(g, n) => n <= FILES && Has(s.dir, g, n)
    case DropOwn(_) => true
    case DropShared(_, _) => true
    case SupExited(_) => true
    case pc => Has(s.dir, pc.next, FILES)
  }

  /** And it stays there until the sandbox role, or a newer generation, removes it. */
  ghost predicate LastWhole(s: State) {
    s.sup.published != [] && !Consumed(s) ==> Has(s.dir, s.sup.published[|s.sup.published| - 1], FILES)
  }

  ghost predicate LaidOut(s: State) { Laying(s) && LastWhole(s) }

  /** The sandbox role works on a generation that was current when it looked, and
      takes them in the order they were published. */
  ghost predicate InOrder(s: State) {
    && |s.sb.adopted| == |s.sb.adoptedAt|
    && (forall i | 0 <= i < |s.sb.adopted| ::
          1 <= s.sb.adoptedAt[i] <= |s.sup.published| && s.sb.adopted[i] == s.sup.published[s.sb.adoptedAt[i] - 1])
    && (forall i, j | 0 <= i < j < |s.sb.adopted| :: s.sb.adoptedAt[i] < s.sb.adoptedAt[j])
    && s.sb.running == LastOf(s.sb.adopted)
    && (!s.sb.pc.Look? && !s.sb.pc.SbExited? ==>
          && 1 <= s.sb.pc.at <= |s.sup.published| && s.sb.pc.next == s.sup.published[s.sb.pc.at - 1]
          && (forall i | 0 <= i < |s.sb.adoptedAt| :: s.sb.adoptedAt[i] < s.sb.pc.at))
    && (s.sb.pc.Copy? ==> s.sb.pc.done <= FILES && Copied(s, s.sb.pc.next, s.sb.pc.done))
    && (s.sb.pc.DropSource? || s.sb.pc.StartChild? ==> Copied(s, s.sb.pc.next, FILES))
  }

  ghost predicate Copied(s: State, g: string, n: nat) {
    forall k: nat | k < n :: k in s.sb.files && s.sb.files[k] == g
  }

  ghost predicate Inv(s: State) {
    Ordered(s) && OneSupervisor(s) && Tidy(s) && LaidOut(s) && InOrder(s)
  }

  /** No generation is handed out a second time. */
  predicate NewGeneration(s: State, l: Label) { l.Receive? ==> l.generation !in s.sup.received }

  lemma OrderedStep(s: State, l: Label)
    requires Ordered(s) && Enabled(s, l) && NewGeneration(s, l)
    ensures Ordered(Next(s, l))
  {
    match l
    case Sup(ok, pid) =>
      if s.sup.pc.Publish? {
        OrderedPublish(s, ok, pid);
      } else {
        OrderedSup(s, ok, pid);
      }
    case _ =>
  }

  lemma OrderedSup(s: State, ok: bool, pid: nat)
    requires Ordered(s) && Enabled(s, Sup(ok, pid)) && !s.sup.pc.Publish?
    ensures Ordered(Next(s, Sup(ok, pid)))
  {
    assert s.sup.published + [] == s.sup.published;
    hide Distinct, FilesOf, DropFile;
  }

  lemma OrderedPublish(s: State, ok: bool, pid: nat)
    requires Ordered(s) && Enabled(s, Sup(ok, pid)) && s.sup.pc.Publish?
    ensures Ordered(Next(s, Sup(ok, pid)))
  {
    hide Distinct;
    assert AllButLast(s.sup.published + [s.sup.pc.next]) == s.sup.published;
  }

  lemma OneSupervisorStep(s: State, l: Label)
    requires Ordered(s) && OneSupervisor(s) && Enabled(s, l)
    ensures OneSupervisor(Next(s, l))
  {
    hide Distinct;
  }

  /** Distinct generations keep the roles out of each other's directories. */
  lemma Apart(s: State)
    requires Ordered(s) && InOrder(s)
    ensures BeforePublish(s.sup.pc) ==> s.sup.pc.next !in s.sup.published
    ensures Dropping(s.sup.pc) ==> s.sup.running != LastOf(s.sup.published)
    ensures !s.sb.pc.Look? && !s.sb.pc.SbExited? ==>
              && s.sb.pc.next in s.sup.published
              && (s.sb.pc.at < |s.sup.published| ==> Some(s.sb.pc.next) != LastOf(s.sup.published))
  {
    var p, r := s.sup.published, s.sup.received;
    if Dropping(s.sup.pc) {
      assert r[|p| - 2] != r[|p| - 1];
    }
    if BeforePublish(s.sup.pc) {
      forall i | 0 <= i < |p| ensures p[i] != s.sup.pc.next {
        assert r[i] != r[|p|];
      }
    }
    if !s.sb.pc.Look? && !s.sb.pc.SbExited? && s.sb.pc.at < |p| {
      assert r[s.sb.pc.at - 1] != r[|p| - 1];
    }
  }

  lemma TidyStep(s: State, l: Label)
    requires Ordered(s) && Tidy(s) && Enabled(s, l)
    ensures Tidy(Next(s, l))
  {
    hide Distinct;
    match l
    case Sup(ok, pid) => TidySup(s, ok, pid);
    case _ =>
  }

  lemma TidySup(s: State, ok: bool, pid: nat)
    requires Ordered(s) && Tidy(s) && Enabled(s, Sup(ok, pid))
    ensures Tidy(Next(s, Sup(ok, pid)))
  {
    hide Distinct;
  }

  lemma InOrderStep(s: State, l: Label)
    requires Ordered(s) && Tidy(s) && InOrder(s) && Enabled(s, l)
    ensures InOrder(Next(s, l))
  {
    hide Distinct;
    match l
    case Sb(ok) => InOrderSb(s, ok);
    case _ =>
  }

  lemma InOrderSb(s: State, ok: bool)
    requires Ordered(s) && Tidy(s) && InOrder(s) && Enabled(s, Sb(ok))
    ensures InOrder(Next(s, Sb(ok)))
  {
    if s.sb.pc.StartChild? {
      InOrderAdopt(s, ok);
    } else {
      assert s.dir.current.Some? ==> s.dir.current == LastOf(s.sup.published);
      assert s.sb.pc.Copy? && s.sb.pc.done in FilesOf(s.dir, s.sb.pc.next) ==>
          s.dir.bundles[s.sb.pc.next][s.sb.pc.done] == s.sb.pc.next;
      hide Ordered, Tidy, SbDir, FilesOf;
    }
  }

  lemma InOrderAdopt(s: State, ok: bool)
    requires InOrder(s) && Enabled(s, Sb(ok)) && s.sb.pc.StartChild?
    ensures InOrder(Next(s, Sb(ok)))
  {
  }

  lemma LaidOutStep(s: State, l: Label)
    requires Ordered(s) && Tidy(s) && LaidOut(s) && InOrder(s) && Enabled(s, l)
    ensures LaidOut(Next(s, l))
  {
    Apart(s);
    hide Distinct;
    match l
    case Sb(ok) => LaidOutSb(s, ok);
    case Sup(ok, pid) =>
      LayingSup(s, ok, pid);
      LastWholeSup(s, ok, pid);
    case _ =>
  }

  /** The supervisor role drops only the generation it ran before. */
  lemma SupDirKeeps(d: Shared, u: Supervisor, g: string)
    requires Dropping(u.pc) ==> u.running != Some(g)
    ensures FilesOf(d, g).Keys <= FilesOf(SupDir(d, u), g).Keys
    ensures u.pc.LayShared? && u.pc.next == g && u.pc.done < FILES ==> u.pc.done in FilesOf(SupDir(d, u), g)
  {
  }

  /** The sandbox role drops only the generation it has copied. */
  lemma SbDirKeeps(d: Shared, b: Sandbox, g: string)
    requires b.pc.DropSource? ==> b.pc.next != g
    ensures FilesOf(d, g).Keys <= FilesOf(SbDir(d, b), g).Keys
  {
  }

  lemma LayingSup(s: State, ok: bool, pid: nat)
    requires Ordered(s) && Laying(s) && Enabled(s, Sup(ok, pid))
    ensures Laying(Next(s, Sup(ok, pid)))
  {
    if BeforePublish(s.sup.pc) {
      SupDirKeeps(s.dir, s.sup, s.sup.pc.next);
    }
    hide Ordered, FilesOf, SupDir;
  }

  lemma LastWholeSup(s: State, ok: bool, pid: nat)
    requires Ordered(s) && LaidOut(s) && InOrder(s) && Enabled(s, Sup(ok, pid))
    ensures LastWhole(Next(s, Sup(ok, pid)))
  {
    Apart(s);
    if s.sup.pc.Publish? {
      SupDirKeeps(s.dir, s.sup, s.sup.pc.next);
    } else if s.sup.published != [] {
      assert SupNext(s.dir, s.sup, ok, pid).published == s.sup.published;
      SupDirKeeps(s.dir, s.sup, s.sup.published[|s.sup.published| - 1]);
      hide SupNext;
    }
    hide Distinct, FilesOf, SupDir;
  }

  lemma LaidOutSb(s: State, ok: bool)
    requires Ordered(s) && LaidOut(s) && InOrder(s) && Enabled(s, Sb(ok))
    ensures LaidOut(Next(s, Sb(ok)))
  {
    Apart(s);
    if BeforePublish(s.sup.pc) {
      SbDirKeeps(s.dir, s.sb, s.sup.pc.next);
    }
    if s.sup.published != [] && !Consumed(s) {
      SbDirKeeps(s.dir, s.sb, s.sup.published[|s.sup.published| - 1]);
    }
    hide Distinct, FilesOf, SbDir;
  }

  // -------------------------------------------------------------------- runs

  datatype Run = Run(states: seq<State>, labels: seq<Label>)

  /** A run from the golden snapshot's two fresh launchers, with no generation
      handed out twice. */
  ghost predicate IsRun(r: Run) {
    && |r.states| == |r.labels| + 1 && r.states[0] == FRESH
    && forall i | 0 <= i < |r.labels| ::
         && Enabled(r.states[i], r.labels[i]) && NewGeneration(r.states[i], r.labels[i])
         && r.states[i + 1] == Next(r.states[i], r.labels[i])
  }

  lemma InvStep(s: State, l: Label)
    requires Inv(s) && Enabled(s, l) && NewGeneration(s, l)
    ensures Inv(Next(s, l))
  {
    OrderedStep(s, l);
    OneSupervisorStep(s, l);
    TidyStep(s, l);
    LaidOutStep(s, l);
    InOrderStep(s, l);
    hide Next;
  }

  lemma {:induction false} InvAlways(r: Run, i: nat)
    requires IsRun(r) && i < |r.states|
    ensures Inv(r.states[i])
  {
    if i > 0 {
      InvAlways(r, i - 1);
      hide Next;
      InvStep(r.states[i - 1], r.labels[i - 1]);
    }
  }

  lemma AtMostTwo(s: set<string>, a: Option<string>, b: Option<string>)
    requires forall g | g in s :: Some(g) == a || Some(g) == b
    ensures |s| <= 2
  {
    if a.Some? && b.Some? {
      Subset(s, {a.value, b.value});
    } else if a.Some? {
      Subset(s, {a.value});
    } else if b.Some? {
      Subset(s, {b.value});
    } else {
      Subset(s, {});
    }
  }

  lemma {:induction false} Subset(a: set<string>, b: set<string>)
    requires a <= b
    ensures |a| <= |b|
    decreases a
  {
    if a != {} {
      var x :| x in a;
      Subset(a - {x}, b - {x});
    }
  }

  /** The hand-over in every reachable state: CURRENT names the generation
      published last, and the supervisor started last is that generation's; at
      most one supervisor is alive; no unlink of CURRENT has found it missing; at
      most two generations have a directory, on either side. */
  lemma HandOver(r: Run, i: nat)
    requires IsRun(r) && i < |r.states|
    ensures var s := r.states[i];
      && (s.dir.current.Some? ==> s.dir.current == LastOf(s.sup.published) && s.sup.started == s.dir.current)
      && (forall p, q | p in s.sup.procs && q in s.sup.procs :: p == q)
      && s.sup.pc != SupExited(CurrentMissing)
      && |s.dir.bundles.Keys| <= 2 && |s.sup.own| <= 2
  {
    InvAlways(r, i);
    var s := r.states[i];
    var other := if s.sup.pc.SupExited? then LastOf(s.sup.received) else Applying(s.sup.pc);
    AtMostTwo(s.dir.bundles.Keys, s.sup.running, other);
    AtMostTwo(s.sup.own, s.sup.running, other);
  }

  /** A generation goes into CURRENT only with all its sandbox files in place, its
      supervisor up, and no CURRENT in between. */
  lemma PublishedWhole(r: Run, i: nat)
    requires IsRun(r) && i < |r.labels| && r.labels[i].Sup? && r.states[i].sup.pc.Publish?
    ensures var s := r.states[i]; var g := s.sup.pc.next;
      && Has(s.dir, g, FILES) && s.sup.started == Some(g) && s.dir.current.None?
      && r.states[i + 1].dir.current == Some(g)
      && (forall k: nat | k < FILES :: k in FilesOf(s.dir, g) && FilesOf(s.dir, g)[k] == g)
  {
    InvAlways(r, i);
  }

  /** The sandbox is started on three files of one generation, the one the role
      read from CURRENT. */
  lemma StartedOnOneGeneration(r: Run, i: nat, k: nat)
    requires IsRun(r) && i < |r.labels| && r.states[i].sb.pc.StartChild? && k < FILES
    ensures var b := r.states[i].sb; k in b.files && b.files[k] == b.pc.next
    ensures var b, p := r.states[i].sb, r.states[i].sup.published;
      1 <= b.pc.at <= |p| && b.pc.next == p[b.pc.at - 1]
  {
    InvAlways(r, i);
    assert Copied(r.states[i], r.states[i].sb.pc.next, FILES);
  }

  /** A file to copy is missing only when a newer generation was published after
      the sandbox role read CURRENT. */
  lemma SourceMissingMeansNewer(r: Run, i: nat)
    requires IsRun(r) && i < |r.states| && r.states[i].sb.pc.Copy? && r.states[i].sb.pc.done < FILES
    requires r.states[i].sb.pc.done !in FilesOf(r.states[i].dir, r.states[i].sb.pc.next)
    ensures r.states[i].sb.pc.at < |r.states[i].sup.published|
  {
    InvAlways(r, i);
    var s := r.states[i];
    assert s.sb.pc.at == |s.sup.published| ==> !Consumed(s);
  }
}
