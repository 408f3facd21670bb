/** Whether the sandbox is started on the files of the supervisor it will talk to.
    The roles share no lock, so it is not always; this says exactly when it is. */
module LauncherMatch {
  import opened Prelude
  import opened Launcher

  /** Whose supervisor was started last, where CURRENT does not tell. */
  ghost predicate StartedKnown(s: State) {
    && (s.sup.pc.Poll? || (BeforePublish(s.sup.pc) && !s.sup.pc.Listen? && !s.sup.pc.Publish?) ==>
          s.sup.started == LastOf(s.sup.published))
    && (s.sup.pc.Listen? || s.sup.pc.Publish? ==> s.sup.started == Some(s.sup.pc.next))
    && (Dropping(s.sup.pc) ==> s.sup.started == LastOf(s.sup.published))
    && (s.sup.pc.SupExited? ==>
          if s.sup.pc.why == NoListener
          then s.sup.received != [] && s.sup.received == s.sup.published + [s.sup.received[|s.sup.received| - 1]]
               && s.sup.started == LastOf(s.sup.received)
          else s.sup.started == LastOf(s.sup.published))
  }

  lemma StartedStep(s: State, l: Label)
    requires Ordered(s) && StartedKnown(s) && Enabled(s, l)
    ensures StartedKnown(Next(s, l))
  {
    hide Distinct;
  }

  lemma {:induction false} StartedAlways(r: Run, i: nat)
    requires IsRun(r) && i < |r.states|
    ensures StartedKnown(r.states[i])
  {
    if i > 0 {
      StartedAlways(r, i - 1);
      InvAlways(r, i - 1);
      hide Next;
      StartedStep(r.states[i - 1], r.labels[i - 1]);
    }
  }

  /** When the sandbox role is about to start the sandbox, the supervisor started
      last is of its generation if and only if nothing newer has been published
      since the role read CURRENT and no newer supervisor has been started. */
  lemma StartsMatchExactly(r: Run, i: nat)
    requires IsRun(r) && i < |r.states| && r.states[i].sb.pc.StartChild?
    ensures var s := r.states[i];
      s.sup.started == Some(s.sb.pc.next) <==>
      s.sb.pc.at == |s.sup.published| && !s.sup.pc.Listen? && !s.sup.pc.Publish? && s.sup.pc != SupExited(NoListener)
  {
    InvAlways(r, i);
    StartedAlways(r, i);
    var s := r.states[i];
    var p, v := s.sup.published, s.sup.received;
    var at := s.sb.pc.at - 1;
    assert s.sb.pc.next == p[at] == v[at];
    if s.sup.pc.Listen? || s.sup.pc.Publish? || s.sup.pc == SupExited(NoListener) {
      assert v[at] != v[|p|];
    } else if at + 1 < |p| {
      assert v[at] != v[|p| - 1];
    }
  }

  // ---------------------------------------------------------- a missing source

  /** The sandbox role is on its way to copying g, or copying it. */
  predicate Fetching(b: Sandbox) { b.pc.StopChild? || b.pc.Copy? }

  /** What is left of a generation that the sandbox role is taking while the supervisor
      role is dropping it; and what runs where the supervisor role has given up. */
  ghost predicate DropKnown(s: State) {
    && (s.sup.pc.SupExited? ==> s.sup.running == LastOf(s.sup.published))
    && (s.sup.pc.DropOwn? && Fetching(s.sb) && s.sb.pc.at == |s.sup.published| - 1 ==> Has(s.dir, s.sb.pc.next, FILES))
    && (s.sup.pc.DropShared? && Fetching(s.sb) && s.sb.pc.at == |s.sup.published| - 1 ==>
          forall k: nat | k < FILES :: k in FilesOf(s.dir, s.sb.pc.next) <==> s.sup.pc.done <= k)
  }

  /** The generation dropped after a publication is whole when its dropping begins,
      if the sandbox role is still to take it. */
  lemma DropPublish(s: State, ok: bool, pid: nat)
    requires Inv(s) && Enabled(s, Sup(ok, pid)) && s.sup.pc.Publish?
    ensures DropKnown(Next(s, Sup(ok, pid)))
  {
    var n := Next(s, Sup(ok, pid));
    if Fetching(s.sb) && s.sb.pc.at == |s.sup.published| {
      assert !Consumed(s) && s.sb.pc.next == s.sup.published[|s.sup.published| - 1];
      forall k: nat | k < FILES ensures k in FilesOf(n.dir, s.sb.pc.next) {
        assert k in FilesOf(s.dir, s.sb.pc.next);
      }
    }
    hide Distinct, Tidy, OneSupervisor;
  }

  /** The generation being dropped is the one published before the last. */
  lemma DropsPrevious(s: State)
    requires Inv(s) && Dropping(s.sup.pc) && Fetching(s.sb) && s.sb.pc.at == |s.sup.published| - 1
    ensures s.sup.running == Some(s.sb.pc.next)
  {
    var p := s.sup.published;
    assert AllButLast(p)[|p| - 2] == p[|p| - 2];
    hide Distinct, Tidy, OneSupervisor, LaidOut;
  }

  lemma DropSup(s: State, ok: bool, pid: nat)
    requires Inv(s) && DropKnown(s) && Enabled(s, Sup(ok, pid)) && !s.sup.pc.Publish?
    ensures DropKnown(Next(s, Sup(ok, pid)))
  {
    hide Distinct, Tidy, OneSupervisor, LaidOut, InOrder;
    if Dropping(s.sup.pc) && Fetching(s.sb) && s.sb.pc.at == |s.sup.published| - 1 {
      DropsPrevious(s);
      var n := Next(s, Sup(ok, pid));
      var g := s.sb.pc.next;
      forall k: nat | k < FILES && n.sup.pc.DropShared?
        ensures k in FilesOf(n.dir, g) <==> n.sup.pc.done <= k
      {
        assert s.sup.pc.DropShared? ==> (k in FilesOf(s.dir, g) <==> s.sup.pc.done <= k);
        assert s.sup.pc.DropOwn? ==> k in FilesOf(s.dir, g);
      }
    }
  }

  lemma DropStep(s: State, l: Label)
    requires Inv(s) && DropKnown(s) && Enabled(s, l)
    ensures DropKnown(Next(s, l))
  {
    match l
    case Sup(ok, pid) =>
      if s.sup.pc.Publish? {
        DropPublish(s, ok, pid);
      } else {
        DropSup(s, ok, pid);
      }
    case _ =>
      hide Distinct, Tidy, OneSupervisor, LaidOut;
  }

  lemma {:induction false} DropAlways(r: Run, i: nat)
    requires IsRun(r) && i < |r.states|
    ensures DropKnown(r.states[i])
  {
    if i > 0 {
      DropAlways(r, i - 1);
      InvAlways(r, i - 1);
      hide Next, Inv, DropKnown;
      DropStep(r.states[i - 1], r.labels[i - 1]);
    }
  }

  /** A file to copy is missing if and only if a newer generation was published after
      the sandbox role read CURRENT and, where that is the latest, the supervisor
      role has got past this file in dropping the one before. */
  lemma SourceMissingExactly(r: Run, i: nat)
    requires IsRun(r) && i < |r.states| && r.states[i].sb.pc.Copy? && r.states[i].sb.pc.done < FILES
    ensures var s := r.states[i];
      s.sb.pc.done !in FilesOf(s.dir, s.sb.pc.next) <==>
      && s.sb.pc.at < |s.sup.published|
      && (Dropping(s.sup.pc) && s.sb.pc.at == |s.sup.published| - 1 ==>
            s.sup.pc.DropShared? && s.sb.pc.done < s.sup.pc.done)
  {
    InvAlways(r, i);
    DropAlways(r, i);
    MissingExactly(r.states[i]);
  }

  lemma MissingExactly(s: State)
    requires Inv(s) && DropKnown(s) && s.sb.pc.Copy? && s.sb.pc.done < FILES
    ensures s.sb.pc.done !in FilesOf(s.dir, s.sb.pc.next) <==>
            && s.sb.pc.at < |s.sup.published|
            && (Dropping(s.sup.pc) && s.sb.pc.at == |s.sup.published| - 1 ==>
                  s.sup.pc.DropShared? && s.sb.pc.done < s.sup.pc.done)
  {
    if s.sb.pc.at == |s.sup.published| {
      assert !Consumed(s) && s.sb.pc.next == s.sup.published[|s.sup.published| - 1];
    } else if !(Dropping(s.sup.pc) && s.sb.pc.at == |s.sup.published| - 1) {
      Superseded(s);
    }
    hide Distinct, OneSupervisor, Tidy;
  }

  /** A generation that a newer one has superseded is gone once it has been dropped. */
  lemma Superseded(s: State)
    requires Inv(s) && DropKnown(s) && s.sb.pc.Copy? && s.sb.pc.at < |s.sup.published|
    requires Dropping(s.sup.pc) ==> s.sb.pc.at < |s.sup.published| - 1
    ensures s.sb.pc.next !in s.dir.bundles
  {
    var p, v, at := s.sup.published, s.sup.received, s.sb.pc.at - 1;
    assert s.sb.pc.next == p[at] == v[at];
    assert v[at] != v[|p| - 1] && v[at] != v[|v| - 1];
    if Dropping(s.sup.pc) {
      assert AllButLast(p)[|p| - 2] == p[|p| - 2] == v[|p| - 2] != v[at];
    }
    hide Distinct, OneSupervisor, LaidOut;
  }

  // ------------------------------------------------------ what is taken is gone

  /** A generation the sandbox role has taken is not in the shared directory any more,
      the files it has got to in dropping it included. */
  ghost predicate TakenGone(s: State) {
    && (s.sb.pc.StartChild? ==> s.sb.pc.next !in s.dir.bundles)
    && (s.sb.pc.DropSource? ==> forall k: nat | k < s.sb.pc.done && k < FILES :: k !in FilesOf(s.dir, s.sb.pc.next))
    && forall i | 0 <= i < |s.sb.adopted| :: s.sb.adopted[i] !in s.dir.bundles
  }

  /** Neither role adds to a generation it is not laying out. */
  lemma SupAddsNothing(d: Shared, u: Supervisor, g: string)
    requires u.pc.LayShared? ==> u.pc.next != g
    ensures g in SupDir(d, u).bundles ==> g in d.bundles
    ensures FilesOf(SupDir(d, u), g).Keys <= FilesOf(d, g).Keys
  {
  }

  lemma SbAddsNothing(d: Shared, b: Sandbox, g: string)
    ensures g in SbDir(d, b).bundles ==> g in d.bundles
    ensures FilesOf(SbDir(d, b), g).Keys <= FilesOf(d, g).Keys
    ensures b.pc.DropSource? && b.pc.next == g ==>
              if b.pc.done < FILES then b.pc.done !in FilesOf(SbDir(d, b), g) else g !in SbDir(d, b).bundles
  {
  }

  lemma TakenSup(s: State, ok: bool, pid: nat)
    requires Inv(s) && TakenGone(s) && Enabled(s, Sup(ok, pid))
    ensures TakenGone(Next(s, Sup(ok, pid)))
  {
    Apart(s);
    var n := Next(s, Sup(ok, pid));
    forall i | 0 <= i < |s.sb.adopted| ensures s.sb.adopted[i] !in n.dir.bundles {
      assert s.sb.adopted[i] == s.sup.published[s.sb.adoptedAt[i] - 1];
      SupAddsNothing(s.dir, s.sup, s.sb.adopted[i]);
    }
    if s.sb.pc.StartChild? || s.sb.pc.DropSource? {
      SupAddsNothing(s.dir, s.sup, s.sb.pc.next);
    }
    hide Distinct, Tidy, OneSupervisor, LaidOut, SupDir, FilesOf, Ordered;
  }

  lemma TakenSb(s: State, ok: bool)
    requires TakenGone(s) && Enabled(s, Sb(ok))
    ensures TakenGone(Next(s, Sb(ok)))
  {
    forall i | 0 <= i < |s.sb.adopted| ensures s.sb.adopted[i] !in SbDir(s.dir, s.sb).bundles {
      SbAddsNothing(s.dir, s.sb, s.sb.adopted[i]);
    }
    if s.sb.pc.StartChild? || s.sb.pc.DropSource? {
      SbAddsNothing(s.dir, s.sb, s.sb.pc.next);
    }
    hide SbDir, FilesOf;
  }

  lemma TakenStep(s: State, l: Label)
    requires Inv(s) && TakenGone(s) && Enabled(s, l)
    ensures TakenGone(Next(s, l))
  {
    match l
    case Sup(ok, pid) => TakenSup(s, ok, pid);
    case Sb(ok) => TakenSb(s, ok);
    case _ =>
  }

  lemma {:induction false} TakenAlways(r: Run, i: nat)
    requires IsRun(r) && i < |r.states|
    ensures TakenGone(r.states[i])
  {
    if i > 0 {
      TakenAlways(r, i - 1);
      InvAlways(r, i - 1);
      hide Next, Inv, TakenGone;
      TakenStep(r.states[i - 1], r.labels[i - 1]);
    }
  }

  /** In every run the sandbox role removes what it takes: a generation that it starts
      on, or has ever started on, has no directory and so no key left in the shared
      one. */
  lemma TakenIsRemoved(r: Run, i: nat, g: string)
    requires IsRun(r) && i < |r.states|
    requires g in r.states[i].sb.adopted || (r.states[i].sb.pc.StartChild? && r.states[i].sb.pc.next == g)
    ensures g !in r.states[i].dir.bundles
  {
    TakenAlways(r, i);
  }

  // ------------------------------------------------- the supervisor's own files

  /** The supervisor that is alive has its own files, and so has the generation being
      applied once they are laid out. */
  ghost predicate OwnKept(s: State) {
    && (forall p | p in s.sup.procs :: s.sup.procs[p] in s.sup.own)
    && (Applying(s.sup.pc).Some? && !s.sup.pc.LayOwn? ==> Applying(s.sup.pc).value in s.sup.own)
  }

  lemma OwnStep(s: State, l: Label)
    requires Inv(s) && StartedKnown(s) && OwnKept(s) && Enabled(s, l)
    ensures OwnKept(Next(s, l))
  {
    Apart(s);
    hide Distinct, Tidy, InOrder, LaidOut;
  }

  /** In every run a live supervisor has its own files from its start on. */
  lemma {:induction false} LiveSupervisorKeepsItsFiles(r: Run, i: nat)
    requires IsRun(r) && i < |r.states|
    ensures OwnKept(r.states[i])
  {
    if i > 0 {
      LiveSupervisorKeepsItsFiles(r, i - 1);
      InvAlways(r, i - 1);
      StartedAlways(r, i - 1);
      hide Next, Inv, OwnKept, StartedKnown;
      OwnStep(r.states[i - 1], r.labels[i - 1]);
    }
  }

  // ------------------------------------------------------------- a mismatch

  function Last(r: Run): State
    requires r.states != []
  {
    r.states[|r.states| - 1]
  }

  /** One more step of a run. */
  lemma Extend(r: Run, l: Label) returns (q: Run)
    requires IsRun(r) && Enabled(Last(r), l) && NewGeneration(Last(r), l)
    ensures IsRun(q) && q == Run(r.states + [Next(Last(r), l)], r.labels + [l])
  {
    q := Run(r.states + [Next(Last(r), l)], r.labels + [l]);
    hide Next, Enabled;
    forall i | 0 <= i < |q.labels|
      ensures Enabled(q.states[i], q.labels[i]) && NewGeneration(q.states[i], q.labels[i])
      ensures q.states[i + 1] == Next(q.states[i], q.labels[i])
    {
      if i < |r.labels| {
        assert q.states[i] == r.states[i] && q.states[i + 1] == r.states[i + 1] && q.labels[i] == r.labels[i];
      }
    }
  }

  /** The supervisor role receives g and lays it out. */
  lemma LaysOut(r: Run, g: string) returns (q: Run)
    requires IsRun(r) && Last(r).sup.pc.Poll? && g !in Last(r).sup.received && Some(g) != Last(r).sup.running
    ensures IsRun(q) && Last(q).sb == Last(r).sb && Last(q).dir.current == Last(r).dir.current
    ensures Last(q).sup == Last(r).sup.(
              pc := Unlink(g), received := Last(r).sup.received + [g], own := Last(r).sup.own + {g})
    ensures Has(Last(q).dir, g, FILES)
  {
    q := Extend(r, Receive(g));
    q := Extend(q, Sup(true, 0));
    for k := 0 to FILES
      invariant IsRun(q) && Last(q).sb == Last(r).sb && Last(q).dir.current == Last(r).dir.current
      invariant Last(q).sup == Last(r).sup.(
                  pc := LayShared(g, k), received := Last(r).sup.received + [g], own := Last(r).sup.own + {g})
      invariant Has(Last(q).dir, g, k)
    {
      q := Extend(q, Sup(true, 0));
    }
    q := Extend(q, Sup(true, 0));
  }

  /** Then it takes CURRENT away and has its supervisor started. */
  lemma StartsSupervisor(r: Run, pid: nat) returns (q: Run)
    requires IsRun(r) && Last(r).sup.pc.Unlink?
    requires Last(r).sup.running.Some? ==> Last(r).dir.current.Some?
    requires forall p | p in Last(r).sup.procs :: Last(r).sup.child == Some(p)
    ensures IsRun(q) && Last(q).sb == Last(r).sb
    ensures forall g: string, n: nat :: Has(Last(r).dir, g, n) ==> Has(Last(q).dir, g, n)
    ensures var u, g := Last(r).sup, Last(r).sup.pc.next;
      Last(q).sup == u.(pc := Listen(g), child := Some(pid), procs := map[pid := g], started := Some(g))
  {
    q := Extend(r, Sup(true, pid));
    q := Extend(q, Sup(true, pid));
    assert Last(q).sup.procs == map[];
    q := Extend(q, Sup(true, pid));
    SameFiles(Last(r).dir, Last(q).dir);
  }

  lemma SameFiles(d: Shared, e: Shared)
    requires d.bundles == e.bundles
    ensures forall g: string, n: nat :: Has(d, g, n) ==> Has(e, g, n)
  {
    assert forall g :: FilesOf(d, g) == FilesOf(e, g);
  }

  /** The first supervisor listens and its generation is published. */
  lemma Publishes(r: Run) returns (q: Run)
    requires IsRun(r) && Last(r).sup.pc.Listen? && Last(r).sup.running.None?
    ensures IsRun(q) && Last(q).sb == Last(r).sb && Last(q).dir.current == Some(Last(r).sup.pc.next)
    ensures forall g: string, n: nat :: Has(Last(r).dir, g, n) ==> Has(Last(q).dir, g, n)
    ensures var u, g := Last(r).sup, Last(r).sup.pc.next;
      Last(q).sup == u.(pc := Poll, running := Some(g), published := u.published + [g])
  {
    q := Extend(r, Sup(true, 0));
    q := Extend(q, Sup(true, 0));
    SameFiles(Last(r).dir, Last(q).dir);
  }

  /** The sandbox role copies the generation that has just been published. */
  lemma Takes(r: Run, g: string) returns (q: Run)
    requires IsRun(r) && Last(r).sb == FRESH.sb && Last(r).dir.current == Some(g) && Has(Last(r).dir, g, FILES)
    ensures IsRun(q) && Last(q).sup == Last(r).sup && Last(q).dir.current == Last(r).dir.current
    ensures Last(q).sb.pc == StartChild(g, |Last(r).sup.published|)
  {
    q := Extend(r, Sb(true));
    q := Extend(q, Sb(true));
    for k := 0 to FILES
      invariant IsRun(q) && Last(q).sup == Last(r).sup && Last(q).dir == Last(r).dir
      invariant Last(q).sb.pc == Copy(g, |Last(r).sup.published|, k)
    {
      q := Extend(q, Sb(true));
    }
    q := Extend(q, Sb(true));
    for k := 0 to FILES
      invariant IsRun(q) && Last(q).sup == Last(r).sup && Last(q).dir.current == Last(r).dir.current
      invariant Last(q).sb.pc == DropSource(g, |Last(r).sup.published|, k)
    {
      q := Extend(q, Sb(true));
    }
    q := Extend(q, Sb(true));
  }

  /** The sandbox is started on the files of generation g1 while the supervisor that
      listens is g2's: g2 arrives after the role has copied g1. */
  lemma OldFilesNewSupervisor(g1: string, g2: string) returns (r: Run)
    requires g1 != g2
    ensures IsRun(r) && r.labels != [] && r.labels[|r.labels| - 1] == Sb(true)
    ensures r.states[|r.labels| - 1].sb.pc.StartChild?
    ensures Last(r).sb.running == Some(g1) && Last(r).sup.started == Some(g2)
    ensures Last(r).sup.procs.Values == {g2}
  {
    r := Run([FRESH], []);
    r := LaysOut(r, g1);
    r := StartsSupervisor(r, 1);
    r := Publishes(r);
    r := Takes(r, g1);
    r := LaysOut(r, g2);
    r := StartsSupervisor(r, 2);
    r := Extend(r, Sb(true));
  }
}
