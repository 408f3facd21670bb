/** The two roles' code over a directory that nobody else touches meanwhile: one
    call of apply_bundle, and one adoption by the sandbox role, are the steps of
    Launcher taken one after the other. */
module LauncherRoles {
  import opened Prelude
  import opened Launcher

  /** How far a role is from being back at its loop. */
  function SupRank(pc: SupPc): nat {
    match pc
    case LayOwn(_) => 20
    case LayShared(_, k) => if k < FILES then 19 - k else 15
    case Unlink(_) => 14
    case StopOld(_) => 13
    case StartNew(_) => 12
    case Listen(_) => 11
    case Publish(_) => 10
    case DropOwn(_) => 9
    case DropShared(_, k) => if k < FILES then 8 - k else 1
    case _ => 0
  }

  /** The supervisor role's steps till it is back at its loop or has exited. */
  function Applied(d: Shared, u: Supervisor, listens: bool, pid: nat): (Shared, Supervisor)
    decreases SupRank(u.pc)
  {
    if SupRank(u.pc) == 0 then (d, u)
    else Applied(SupDir(d, u), SupNext(d, u, u.pc.Listen? ==> listens, pid), listens, pid)
  }

  lemma AppliedStep(d: Shared, u: Supervisor, listens: bool, pid: nat)
    requires SupRank(u.pc) > 0
    ensures Applied(d, u, listens, pid) ==
            Applied(SupDir(d, u), SupNext(d, u, u.pc.Listen? ==> listens, pid), listens, pid)
  {
  }

  lemma AppliedEnds(d: Shared, u: Supervisor, listens: bool, pid: nat)
    requires SupRank(u.pc) == 0
    ensures Applied(d, u, listens, pid) == (d, u)
  {
  }

  function SbRank(pc: SbPc): nat {
    match pc
    case StopChild(_, _) => 20
    case Copy(_, _, k) => if k < FILES then 19 - k else 15
    case DropSource(_, _, k) => if k < FILES then 14 - k else 10
    case StartChild(_, _) => 9
    case _ => 0
  }

  function Adopted(d: Shared, b: Sandbox, published: nat, listens: bool): (Shared, Sandbox)
    decreases SbRank(b.pc)
  {
    if SbRank(b.pc) == 0 then (d, b)
    else Adopted(SbDir(d, b), SbNext(d, b, published, b.pc.StartChild? ==> listens), published, listens)
  }

  /** The directory both containers mount. */
  class Volume {
    var current: Option<string>
    var bundles: map<string, Files>

    constructor ()
      ensures current.None? && bundles == map[]
    {
      current, bundles := None, map[];
    }

    function View(): Shared
      reads this
    {
      Shared(current, bundles)
    }

    method Write(g: string, k: nat)
      modifies this
      ensures current == old(current) && bundles == old(bundles)[g := FilesOf(old(View()), g)[k := g]]
    {
      bundles := bundles[g := FilesOf(View(), g)[k := g]];
    }

    /** rmtree with its errors ignored, file by file. */
    method RemoveTree(g: string)
      modifies this
      ensures var d := Dropped(old(View()), g, FILES);
        View() == d.(bundles := d.bundles - {g})
      ensures View() == old(View()).(bundles := old(bundles) - {g})
    {
      for k := 0 to FILES
        invariant View() == Dropped(old(View()), g, k)
        invariant bundles - {g} == old(bundles) - {g} && current == old(current)
      {
        if g in bundles {
          bundles := bundles[g := bundles[g] - {k}];
        }
      }
      bundles := bundles - {g};
    }
  }

  /** The directory without the first n files of g. */
  function Dropped(d: Shared, g: string, n: nat): Shared {
    if n == 0 then d else DropFile(Dropped(d, g, n - 1), g, n - 1)
  }

  /** What a hand-over removes. */
  function Previous(running: Option<string>): set<string> { if running.Some? then {running.value} else {} }

  class SupervisorRole {
    const volume: Volume
    var running: Option<string>
    var own: set<string>
    var child: Option<nat>
    var procs: map<nat, string>
    ghost var started: Option<string>
    ghost var received: seq<string>
    ghost var published: seq<string>

    constructor (volume: Volume)
      ensures this.volume == volume
      ensures At(Poll) == FRESH.sup
    {
      this.volume := volume;
      running, own, child, procs, started, received, published := None, {}, None, map[], None, [], [];
    }

    /** The role as Launcher sees it, standing at pc. */
    ghost function At(pc: SupPc): Supervisor
      reads this
    {
      Supervisor(pc, running, own, child, procs, started, received, published)
    }

    /** Lay the generation out, replace the supervisor, publish. The poll that
        brought g has just returned. */
    method ApplyBundle(g: string, listens: bool, pid: nat) returns (exit: Option<Exit>)
      requires pid !in procs && running != Some(g)
      modifies this, volume
      ensures var s := State(old(volume.View()), old(At(Poll)), FRESH.sb);
        var (d, u) := Applied(s.dir, Next(s, Receive(g)).sup, listens, pid);
        volume.View() == d && At(if exit.Some? then SupExited(exit.value) else Poll) == u
      ensures exit.None? ==> listens && running == Some(g) && volume.current == Some(g)
      ensures exit.None? ==>
                && g in volume.bundles
                && (forall k: nat | k < FILES :: k in volume.bundles[g] && volume.bundles[g][k] == g)
                && volume.bundles - {g} == old(volume.bundles) - {g} - Previous(old(running))
      ensures exit.None? ==> own == old(own) + {g} - Previous(old(running))
      ensures exit.Some? ==> running == old(running) && own == old(own) + {g}
      ensures exit.Some? ==> volume.current == if old(running).Some? then None else old(volume.current)
      ensures exit == Some(CurrentMissing) <==> old(running).Some? && old(volume.current).None?
      ensures exit != Some(CurrentMissing) ==>
                && child == Some(pid)
                && procs == (if old(child).Some? then old(procs) - {old(child).value} else old(procs))[pid := g]
      ensures exit == Some(CurrentMissing) ==> child == old(child) && procs == old(procs)
    {
      hide Applied;
      received := received + [g];
      LayOut(g, listens, pid);
      exit := Replace(g, listens, pid);
      if exit.Some? {
        return;
      }
      AppliedStep(volume.View(), At(Publish(g)), listens, pid);
      volume.current, published := Some(g), published + [g];
      if running.Some? {
        DropOld(g, listens, pid);
      } else {
        AppliedEnds(volume.View(), At(Poll).(running := Some(g)), listens, pid);
      }
      running := Some(g);
    }

    /** The files of the supervisor, then those of the sandbox. */
    method LayOut(g: string, listens: bool, pid: nat)
      modifies this`own, volume
      ensures Applied(old(volume.View()), old(At(LayOwn(g))), listens, pid) ==
              Applied(volume.View(), At(Unlink(g)), listens, pid)
      ensures own == old(own) + {g} && volume.current == old(volume.current)
      ensures g in volume.bundles && forall k: nat | k < FILES :: k in volume.bundles[g] && volume.bundles[g][k] == g
      ensures volume.bundles - {g} == old(volume.bundles) - {g}
    {
      hide Applied;
      AppliedStep(volume.View(), At(LayOwn(g)), listens, pid);
      own := own + {g};
      for k := 0 to FILES
        invariant Applied(old(volume.View()), old(At(LayOwn(g))), listens, pid) ==
                  Applied(volume.View(), At(LayShared(g, k)), listens, pid)
        invariant own == old(own) + {g} && volume.current == old(volume.current)
        invariant forall j: nat | j < k :: j in FilesOf(volume.View(), g) && FilesOf(volume.View(), g)[j] == g
        invariant volume.bundles - {g} == old(volume.bundles) - {g}
      {
        AppliedStep(volume.View(), At(LayShared(g, k)), listens, pid);
        volume.Write(g, k);
      }
      assert 0 in FilesOf(volume.View(), g);
      AppliedStep(volume.View(), At(LayShared(g, FILES)), listens, pid);
    }

    /** Take CURRENT away, stop the old supervisor, start the new one and wait for it. */
    method Replace(g: string, listens: bool, pid: nat) returns (exit: Option<Exit>)
      modifies this`procs, this`child, this`started, volume
      ensures exit.None? ==>
                Applied(old(volume.View()), old(At(Unlink(g))), listens, pid) ==
                Applied(volume.View(), At(Publish(g)), listens, pid)
      ensures exit.Some? ==>
                Applied(old(volume.View()), old(At(Unlink(g))), listens, pid) ==
                (volume.View(), At(SupExited(exit.value)))
      ensures volume.bundles == old(volume.bundles)
      ensures volume.current == if running.Some? then None else old(volume.current)
      ensures exit == Some(CurrentMissing) <==> running.Some? && old(volume.current).None?
      ensures exit.None? ==> listens
      ensures exit != Some(CurrentMissing) ==>
                && child == Some(pid)
                && procs == (if old(child).Some? then old(procs) - {old(child).value} else old(procs))[pid := g]
      ensures exit == Some(CurrentMissing) ==> child == old(child) && procs == old(procs)
    {
      hide Applied;
      AppliedStep(volume.View(), At(Unlink(g)), listens, pid);
      if running.Some? {
        if volume.current.None? {
          AppliedEnds(volume.View(), At(SupExited(CurrentMissing)), listens, pid);
          return Some(CurrentMissing);
        }
        volume.current := None;
      }
      AppliedStep(volume.View(), At(StopOld(g)), listens, pid);
      Terminate();
      AppliedStep(volume.View(), At(StartNew(g)), listens, pid);
      procs, child, started := procs[pid := g], Some(pid), Some(g);
      AppliedStep(volume.View(), At(Listen(g)), listens, pid);
      AppliedEnds(volume.View(), At(SupExited(NoListener)), listens, pid);
      exit := if listens then None else Some(NoListener);
    }

    /** Remove what the previous generation left. */
    method DropOld(g: string, listens: bool, pid: nat)
      requires running.Some?
      modifies this`own, volume
      ensures Applied(old(volume.View()), old(At(DropOwn(g))), listens, pid) ==
              (volume.View(), At(Poll).(running := Some(g)))
      ensures volume.View() == old(volume.View()).(bundles := old(volume.bundles) - {running.value})
      ensures own == old(own) - {running.value}
    {
      hide Applied;
      AppliedStep(volume.View(), At(DropOwn(g)), listens, pid);
      own := own - {running.value};
      ghost var d, u := volume.View(), At(DropShared(g, 0));
      volume.RemoveTree(running.value);
      for k := 0 to FILES
        invariant Applied(d, u, listens, pid) ==
                  Applied(Dropped(d, running.value, k), At(DropShared(g, k)), listens, pid)
      {
        AppliedStep(Dropped(d, running.value, k), At(DropShared(g, k)), listens, pid);
      }
      AppliedStep(Dropped(d, running.value, FILES), At(DropShared(g, FILES)), listens, pid);
      AppliedEnds(volume.View(), At(Poll).(running := Some(g)), listens, pid);
    }

    /** Stop the child if it is alive. */
    method Terminate()
      modifies this`procs
      ensures procs == if child.Some? then old(procs) - {child.value} else old(procs)
    {
      if child.Some? && child.value in procs {
        procs := procs - {child.value};
      }
    }
  }

  lemma AdoptedStep(d: Shared, b: Sandbox, published: nat, listens: bool)
    requires SbRank(b.pc) > 0
    ensures Adopted(d, b, published, listens) ==
            Adopted(SbDir(d, b), SbNext(d, b, published, b.pc.StartChild? ==> listens), published, listens)
  {
  }

  lemma AdoptedEnds(d: Shared, b: Sandbox, published: nat, listens: bool)
    requires SbRank(b.pc) == 0
    ensures Adopted(d, b, published, listens) == (d, b)
  {
  }

  class SandboxRole {
    const volume: Volume
    var running: Option<string>
    var files: Files
    ghost var adopted: seq<string>
    ghost var adoptedAt: seq<nat>

    constructor (volume: Volume)
      ensures this.volume == volume && At(Look) == FRESH.sb
    {
      this.volume := volume;
      running, files, adopted, adoptedAt := None, map[], [], [];
    }

    ghost function At(pc: SbPc): Sandbox
      reads this
    {
      Sandbox(pc, running, files, adopted, adoptedAt)
    }

    /** One round of the loop with its child alive: look at CURRENT and, when it
        names another generation, take its files and start the sandbox on them. */
    method Round(ghost published: nat, listens: bool) returns (exit: Option<Exit>)
      modifies this, volume
      ensures var d := old(volume.View());
        (volume.View(), At(if exit.Some? then SbExited(exit.value) else Look)) ==
        Adopted(d, SbNext(d, old(At(Look)), published, true), published, listens)
      ensures var g := old(volume.current); var looks := g.Some? && g != old(running);
        && (!looks ==>
              exit.None? && running == old(running) && files == old(files) && volume.View() == old(volume.View()))
        && (looks && exit.None? ==>
              && running == g && volume.bundles == old(volume.bundles) - {g.value}
              && g.value in old(volume.bundles)
              && forall k: nat | k < FILES ::
                   k in old(volume.bundles)[g.value] && k in files && files[k] == old(volume.bundles)[g.value][k])
        && (exit == Some(SourceMissing) <==>
              looks && exists k: nat | k < FILES :: k !in FilesOf(old(volume.View()), g.value))
        && (exit == Some(NoListener) ==> !listens) && (exit.Some? ==> running == old(running))
    {
      hide Adopted;
      AdoptedEnds(volume.View(), At(Look), published, listens);
      if volume.current.None? || volume.current == running {
        return None;
      }
      var g := volume.current.value;
      AdoptedStep(volume.View(), At(StopChild(g, published)), published, listens);
      ghost var before := volume.View();
      exit := Take(g, published, listens);
      assert exit.None? ==> 0 in FilesOf(before, g);
      if exit.Some? {
        return;
      }
      AdoptedStep(volume.View(), At(StartChild(g, published)), published, listens);
      AdoptedEnds(volume.View(), At(SbExited(NoListener)), published, listens);
      if !listens {
        return Some(NoListener);
      }
      running := Some(g);
      adopted, adoptedAt := adopted + [g], adoptedAt + [published];
      AdoptedEnds(volume.View(), At(Look), published, listens);
    }

    /** Copy the generation's files, then remove it from the shared directory. */
    method Take(g: string, ghost published: nat, listens: bool) returns (exit: Option<Exit>)
      modifies this`files, volume
      ensures exit.None? ==>
                Adopted(old(volume.View()), old(At(Copy(g, published, 0))), published, listens) ==
                Adopted(volume.View(), At(StartChild(g, published)), published, listens)
      ensures exit.Some? ==>
                Adopted(old(volume.View()), old(At(Copy(g, published, 0))), published, listens) ==
                (volume.View(), At(SbExited(exit.value)))
      ensures exit.None? <==> forall k: nat | k < FILES :: k in FilesOf(old(volume.View()), g)
      ensures exit.Some? ==> exit == Some(SourceMissing) && volume.View() == old(volume.View())
      ensures exit.None? ==>
                && volume.View() == old(volume.View()).(bundles := old(volume.bundles) - {g})
                && forall k: nat | k < FILES :: k in files && files[k] == FilesOf(old(volume.View()), g)[k]
    {
      hide Adopted;
      for k := 0 to FILES
        invariant volume.View() == old(volume.View())
        invariant forall j: nat | j < k ::
                    j in FilesOf(volume.View(), g) && j in files && files[j] == FilesOf(volume.View(), g)[j]
        invariant Adopted(old(volume.View()), old(At(Copy(g, published, 0))), published, listens) ==
                  Adopted(volume.View(), At(Copy(g, published, k)), published, listens)
      {
        AdoptedStep(volume.View(), At(Copy(g, published, k)), published, listens);
        if g !in volume.bundles || k !in volume.bundles[g] {
          AdoptedEnds(volume.View(), At(SbExited(SourceMissing)), published, listens);
          assert k !in FilesOf(old(volume.View()), g);
          return Some(SourceMissing);
        }
        files := files[k := volume.bundles[g][k]];
      }
      AdoptedStep(volume.View(), At(Copy(g, published, FILES)), published, listens);
      ghost var d := volume.View();
      volume.RemoveTree(g);
      for k := 0 to FILES
        invariant Adopted(d, At(DropSource(g, published, 0)), published, listens) ==
                  Adopted(Dropped(d, g, k), At(DropSource(g, published, k)), published, listens)
      {
        AdoptedStep(Dropped(d, g, k), At(DropSource(g, published, k)), published, listens);
      }
      AdoptedStep(Dropped(d, g, FILES), At(DropSource(g, published, FILES)), published, listens);
      exit := None;
    }
  }
}
