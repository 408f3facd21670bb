/** The driver itself: its cached set of stopped names, its locks and its store,
    and the operations that act on them and on Substrate. Each method is one call
    running without interference; what it does to its actor is exactly what the
    steps of StopProtocol do, taken one after the other. */
module Driver {
  import opened Prelude
  import opened Substrate
  import opened StoreFiles
  import opened BundleStore
  import opened CreateRetry
  import opened LoneTask
  import P = StopProtocol
  import Listing

  /** The actor `name` as StopProtocol sees it, a lone task standing at pc. */
  function At(w: World, name: string, pc: P.Pc): P.State {
    P.State(if name in w.cluster.actors then Some(w.cluster.actors[name].state) else None,
            name in w.disk.stopped, name in w.cache.stopped, if P.Holding(pc) then Some(0) else None, map[0 := pc])
  }

  /** The actor's part of w is what s says. */
  predicate Shown(w: World, name: string, s: P.State) {
    && (if name in w.cluster.actors then s.sub == Some(w.cluster.actors[name].state) else s.sub.None?)
    && (name in w.disk.stopped <==> s.disk) && (name in w.cache.stopped <==> s.mem)
  }

  /** From w to z only this actor's state and marks changed: not its incarnation,
      nor any other actor, bundle, policy or template. */
  ghost predicate OnlyActor(w: World, z: World, name: string) {
    && z.disk.bundles == w.disk.bundles && z.cache.bundles == w.cache.bundles
    && z.cluster.templates == w.cluster.templates
    && z.cluster.policies == w.cluster.policies && z.cluster.nextUid == w.cluster.nextUid
    && MapsAgreeOff(w.cluster.actors, z.cluster.actors, name)
    && (name in w.cluster.actors <==> name in z.cluster.actors)
    && (name in w.cluster.actors ==>
          z.cluster.actors[name] == w.cluster.actors[name].(state := z.cluster.actors[name].state))
    && SetsAgreeOff(w.disk.stopped, z.disk.stopped, name) && SetsAgreeOff(w.cache.stopped, z.cache.stopped, name)
  }

  function MarkedView(v: View, name: string, mark: bool): View {
    v.(stopped := if mark then v.stopped + {name} else v.stopped - {name})
  }

  function Marked(w: World, name: string, mark: bool): World {
    World(w.cluster, MarkedView(w.disk, name, mark), MarkedView(w.cache, name, mark))
  }

  /** An RPC with that effect, unless it is refused. */
  function Rpc(w: World, name: string, effect: ActorState -> Option<ActorState>, o: Outcome): World {
    if o == Refused then w else w.(cluster := Moved(w.cluster, name, effect))
  }

  /** Marking and one RPC are all it takes. */
  lemma MarkedAndMoved(w: World, name: string, mark: bool, effect: ActorState -> Option<ActorState>, o: Outcome)
    ensures OnlyActor(w, w, name) && OnlyActor(w, Marked(w, name, mark), name)
    ensures OnlyActor(w, Rpc(w, name, effect, o), name)
    ensures OnlyActor(w, Rpc(Marked(w, name, mark), name, effect, o), name)
  {
  }

  /** Revert or suspend, as the actor's state has it. */
  lemma StopMoves(c: Cluster, name: string)
    requires name in c.actors
    ensures Moved(c, name, StopEffect) ==
            Moved(c, name, if c.actors[name].state == Crashed then RevertEffect else SuspendEffect)
  {
  }

  lemma CheckpointShown(w: World, name: string, get: Outcome, write: Outcome, rpc: Outcome)
    ensures Shown(if name !in w.cluster.actors || get != Success || write != Success then w
                  else Rpc(Marked(w, name, true), name, StopEffect, rpc),
                  name, CheckpointAlone(At(w, name, P.CkGet), get, write, rpc))
  {
    CheckpointAloneIs(At(w, name, P.CkGet), get, write, rpc);
    hide CheckpointAlone, StopEffect;
  }

  predicate Resumable(c: Cluster, name: string) {
    name in c.actors && ResumeEffect(c.actors[name].state).Some?
  }

  /** Cleared and resumed; marked again if the resume came back with an error. */
  function Restarted(w: World, name: string, write: Outcome, rpc: Outcome, again: Outcome): World {
    if write != Success then w
    else
      var taken := Rpc(Marked(w, name, false), name, ResumeEffect, rpc);
      if (rpc != Success || !Resumable(w.cluster, name)) && again == Success then Marked(taken, name, true) else taken
  }

  lemma StartShown(w: World, name: string, uid: Outcome, put: Outcome, write: Outcome, rpc: Outcome, again: Outcome)
    ensures Shown(if name !in w.cluster.actors || uid != Success || put != Success then w
                  else Restarted(w, name, write, rpc, again),
                  name, StartAlone(At(w, name, P.StUid), uid, put, write, rpc, again))
  {
    StartAloneIs(At(w, name, P.StUid), uid, put, write, rpc, again);
    hide StartAlone, ResumeEffect;
  }

  /** A failed start changes no more than the actor and its marks either. */
  lemma StartMoves(w: World, name: string, write: Outcome, rpc: Outcome, again: Outcome)
    ensures OnlyActor(w, w, name) && OnlyActor(w, Restarted(w, name, write, rpc, again), name)
  {
    hide ResumeEffect;
  }

  lemma StillBound(w: World, z: World, q: Request)
    requires OnlyActor(w, z, q.name) && HasBundle(w.disk, q, w.cluster) && HasBundle(w.cache, q, w.cluster)
    ensures HasBundle(z.disk, q, z.cluster) && HasBundle(z.cache, q, z.cluster)
  {
  }

  lemma AgainShown(w: World, name: string, get: Outcome, rpc: Outcome)
    ensures var up := name in w.cluster.actors && w.cluster.actors[name].state == Running;
      Shown(if name in w.cache.stopped && up && get == Success then Rpc(w, name, SuspendEffect, rpc) else w,
            name, AgainAlone(At(w, name, P.AgCheck), get, rpc))
  {
    AgainAloneIs(At(w, name, P.AgCheck), get, rpc);
    hide AgainAlone;
  }

  function DeleteEffect(s: ActorState): Option<ActorState> { Some(Deleting) }

  lemma DeleteShown(w: World, name: string, rpc: Outcome, remove: Outcome, write: Outcome)
    ensures var gone := Rpc(w, name, DeleteEffect, rpc);
      Shown(if rpc == Success && remove == Success && write == Success then Marked(gone, name, false) else gone,
            name, DeleteAlone(At(w, name, P.DeRpc), rpc, remove, write))
    ensures var gone := Rpc(w, name, DeleteEffect, rpc);
      OnlyActor(w, gone, name) && OnlyActor(w, Marked(gone, name, false), name)
  {
    DeleteAloneIs(At(w, name, P.DeRpc), rpc, remove, write);
    hide DeleteAlone;
  }

  /** A delete forgets the bundle in memory before it removes the file. */
  function Forgotten(w: World, name: string, rpc: Outcome, remove: Outcome): World {
    if rpc != Success then w
    else w.(cache := w.cache.(bundles := w.cache.bundles - {name}),
            disk := if remove == Success then w.disk.(bundles := w.disk.bundles - {name}) else w.disk)
  }

  /** How the write of a bundle goes: how many partial writes the kernel makes of
      it, which system call fails, if it comes to that, and whether the call goes
      away between the file and the cache. */
  datatype PutFate = PutFate(chunks: nat, fault: nat, dropped: bool)
  {
    predicate Renames() { chunks + 3 <= fault }

    function Outcome(): Outcome { if Renames() && !dropped then Success else Refused }
  }

  /** The world once the write of the actor's bundle has come as far as it does. */
  function Stored(w: World, r: Request, put: PutFate): World {
    w.(disk := if put.Renames() then WithBundle(w.disk, r, w.cluster) else w.disk,
       cache := if put.Outcome() == Success then WithBundle(w.cache, r, w.cluster) else w.cache)
  }

  /** The outcome of step k of a create whose step `fault` fails. */
  function Fate(k: nat, fault: nat, lost: bool): Outcome {
    if k != fault then Success else if lost then LostReply else Refused
  }

  /** An uninterrupted create is the protocol's create, taken step by step. */
  lemma CreateShown(w: World, q: Request)
    requires !Foreign(w.cluster, q)
    ensures Shown(CreateAll(w, q), q.name, CreateAlone(At(w, q.name, P.CrCreate)))
  {
    CreateAloneIs(At(w, q.name, P.CrCreate));
    UptoProgress(w, q, STEPS - 1);
    CreateAllUnfolds(w, q);
    hide CreateAlone, Upto, CreateAll, ResumeEffect;
  }

  /** How many steps took effect. */
  function Done(fault: nat, lost: bool): nat {
    if fault >= STEPS then STEPS else if lost then fault + 1 else fault
  }

  /** Some names' bundles, markers and cached marks are gone. */
  function Reaped(w: World, bundles: set<string>, disk: set<string>, mem: set<string>): World {
    World(w.cluster, View(w.disk.bundles - bundles, w.disk.stopped - disk),
          View(w.cache.bundles - bundles, w.cache.stopped - mem))
  }

  /** A reopen would find this actor's bundle and mark as they were. */
  ghost predicate Kept(before: View, after: View, n: string) {
    && (n in before.stopped <==> n in after.stopped) && (n in before.bundles <==> n in after.bundles)
    && (n in before.bundles ==> n in after.bundles && before.bundles[n] == after.bundles[n])
  }

  lemma PartlyReapedKeeps(before: View, after: View, live: set<string>, gone: set<string>, name: string)
    requires Listing.PartlyReaped(before, after, gone, name) && gone !! live && name !in live
    ensures after.stopped == before.stopped - gone
    ensures forall n | n in live :: Kept(before, after, n)
  {
    forall n | n in live ensures Kept(before, after, n) {
      Listing.LiveActorsKept(before, after, gone, name, n);
    }
  }

  /** What the whole reaping comes to, of which `done` marks were forgotten. */
  lemma ReapKeeps(w: World, live: set<string>, gone: set<string>, done: set<string>)
    requires gone !! live && done <= gone
    ensures var z := Reaped(Reaped(w, gone, gone, {}), {}, done, done);
      && (forall n | n in live :: Kept(w.disk, z.disk, n))
      && z.disk.stopped == w.disk.stopped - gone && z.cache.stopped == w.cache.stopped - done
      && (done == gone ==> z == Reaped(w, gone, gone, gone))
  {
    var z := Reaped(Reaped(w, gone, gone, {}), {}, done, done);
    assert z.disk.bundles == w.disk.bundles - gone && z.cache.bundles == w.cache.bundles - gone;
    assert z.disk.stopped == w.disk.stopped - gone;
  }

  lemma UptoNext(w: World, r: Request, k: nat)
    ensures Upto(w, r, 0) == w
    ensures Upto(w, r, k + 1) ==
            if k >= 2 && Foreign(Upto(w, r, k).cluster, r) then Upto(w, r, k) else CreateStep(Upto(w, r, k), r, k)
  {
  }

  /** ate-api-server. Each call is given the outcome it has if Substrate would
      accept it. */
  class Control {
    var cluster: Cluster

    constructor (c: Cluster)
      ensures cluster == c
    {
      cluster := c;
    }

    method GetActor(name: string, o: Outcome) returns (a: Option<Incarnation>)
      ensures a == if o == Success && name in cluster.actors then Some(cluster.actors[name]) else None
    {
      a := if o == Success && name in cluster.actors then Some(cluster.actors[name]) else None;
    }

    /** SuspendActor, RevertActor or ResumeActor. */
    method Move(name: string, effect: ActorState -> Option<ActorState>, o: Outcome) returns (ok: bool)
      modifies this
      ensures ok <==> o == Success && name in old(cluster.actors) && effect(old(cluster).actors[name].state).Some?
      ensures cluster == if o == Refused then old(cluster) else Moved(old(cluster), name, effect)
    {
      ok := o == Success && name in cluster.actors && effect(cluster.actors[name].state).Some?;
      if o != Refused {
        cluster := Moved(cluster, name, effect);
      }
    }

    /** ensure_ready: once it returns Ok the template is there. */
    method EnsureTemplate(template: string, o: Outcome) returns (ok: bool)
      modifies this
      ensures ok == (o == Success)
      ensures cluster == if o == Refused then old(cluster) else WithTemplate(old(cluster), template)
    {
      ok := o == Success;
      if o != Refused {
        cluster := WithTemplate(cluster, template);
      }
    }

    /** Err(true): the actor is already there. */
    method CreateActor(name: string, template: string, o: Outcome) returns (r: Result<(), bool>)
      modifies this
      ensures r == if o != Success then Err(false) else if name in old(cluster).actors then Err(true) else Ok(())
      ensures cluster == if o == Refused then old(cluster) else WithActor(old(cluster), name, template)
    {
      r := if o != Success then Err(false) else if name in cluster.actors then Err(true) else Ok(());
      if o != Refused {
        cluster := WithActor(cluster, name, template);
      }
    }

    method CreateEgressPolicy(name: string, o: Outcome) returns (ok: bool)
      modifies this
      ensures ok == (o == Success)
      ensures cluster == if o == Refused then old(cluster) else WithPolicy(old(cluster), name)
    {
      ok := o == Success;
      if o != Refused {
        cluster := WithPolicy(cluster, name);
      }
    }

    /** Ok says whether there was an actor to delete. */
    method DeleteActor(name: string, o: Outcome) returns (r: Result<bool, ()>)
      modifies this
      ensures r == if o == Success then Ok(name in old(cluster).actors) else Err(())
      ensures cluster == if o == Refused then old(cluster) else Moved(old(cluster), name, DeleteEffect)
    {
      r := if o == Success then Ok(name in cluster.actors) else Err(());
      if o != Refused {
        cluster := Moved(cluster, name, DeleteEffect);
      }
    }
  }

  /** An actor's lock. Who holds it is StopProtocol's matter: a call that runs alone,
      as all do here, finds it free. */
  class Mutex {
    constructor () {}
  }

  class SubstrateComputeDriver {
    const control: Control
    const store: Store
    var stopped: set<string>
    var locks: map<string, Mutex>

    /** A driver on a store that was just opened starts from the marks on disk. */
    constructor (control: Control, store: Store)
      requires store.Valid() && store.stopped == Reopened(store.disk.files).stopped
      ensures this.control == control && this.store == store && Valid() && stopped == store.stopped
      ensures Seen().cache.stopped == Seen().disk.stopped
    {
      this.control, this.store, stopped, locks := control, store, store.stopped, map[];
    }

    /** The store can be reopened and no two actors share a lock. */
    ghost predicate Valid()
      reads this, store, store.disk
    {
      store.Valid() && forall a, b | a in locks && b in locks && locks[a] == locks[b] :: a == b
    }

    /** Everything the driver's calls can change. */
    ghost function Seen(): World
      reads this, control, store, store.disk
    {
      World(control.cluster, Reopened(store.disk.files), View(store.bundles, stopped))
    }

    /** The lock of an actor: always the same one, and its alone. */
    method ActorLock(name: string) returns (m: Mutex)
      requires Valid()
      modifies this`locks
      ensures Valid() && name in locks && locks[name] == m
      ensures name in old(locks) ==> locks == old(locks)
      ensures name !in old(locks) ==> fresh(m) && locks == old(locks)[name := m]
    {
      if name !in locks {
        var lock := new Mutex();
        locks := locks[name := lock];
      }
      m := locks[name];
    }

    /** The marker on disk, then the cached set. */
    method MarkStopped(name: string, mark: bool, o: Outcome) returns (ok: bool)
      requires Valid()
      modifies this`stopped, store.disk
      ensures Valid() && ok == (o == Success)
      ensures Seen() == if ok then Marked(old(Seen()), name, mark) else old(Seen())
      ensures old(store.InStep()) ==> store.InStep()
    {
      hide Readable;
      ok := store.SetStopped(name, mark, o != Success);
      if ok {
        stopped := if mark then stopped + {name} else stopped - {name};
      }
    }

    /** Read the state, mark, then suspend the actor, or revert it if it has crashed. */
    method Checkpoint(name: string, get: Outcome, write: Outcome, rpc: Outcome) returns (ok: bool)
      requires Valid()
      modifies this, control, store.disk
      ensures Valid() && OnlyActor(old(Seen()), Seen(), name)
      ensures Shown(Seen(), name, CheckpointAlone(At(old(Seen()), name, P.CkGet), get, write, rpc))
      ensures ok <==>
                && get == Success && write == Success && rpc == Success
                && name in old(Seen()).cluster.actors && StopEffect(old(Seen()).cluster.actors[name].state).Some?
    {
      hide CheckpointAlone, Reopened, Moved, OnlyActor, Shown, At, MapsAgreeOff;
      ghost var w := Seen();
      CheckpointShown(w, name, get, write, rpc);
      MarkedAndMoved(w, name, true, StopEffect, rpc);
      var _ := ActorLock(name);
      var actor := control.GetActor(name, get);
      if actor.None? {
        return false;
      }
      ok := MarkStopped(name, true, write);
      if !ok {
        return;
      }
      StopMoves(w.cluster, name);
      if actor.value.state == Crashed {
        ok := control.Move(name, RevertEffect, rpc);
      } else {
        ok := control.Move(name, SuspendEffect, rpc);
      }
    }

    /** Uid, bundle, clear, resume; a failed resume marks the actor stopped again.
        Only a bundle that is stored, bound to this very incarnation, is resumed on. */
    method StartSandbox(q: Request, uid: Outcome, put: PutFate, write: Outcome, rpc: Outcome, again: Outcome)
      returns (ok: bool)
      requires Valid()
      modifies this, control, store, store.disk
      ensures Valid()
      ensures q.payload == "" ==> !ok && Seen() == old(Seen())
      ensures q.payload != "" ==>
                var w := if uid == Success then Stored(old(Seen()), q, put) else old(Seen());
                && OnlyActor(w, Seen(), q.name)
                && Shown(Seen(), q.name, StartAlone(At(w, q.name, P.StUid), uid, put.Outcome(), write, rpc, again))
      ensures Seen().cluster != old(Seen()).cluster ==>
                HasBundle(Seen().disk, q, Seen().cluster) && HasBundle(Seen().cache, q, Seen().cluster)
      ensures q.payload != "" && uid == Success && q.name in old(Seen()).cluster.actors ==>
                var mine := Bundle(q.generation, old(Seen()).cluster.actors[q.name].uid, q.sandboxName, q.payload);
                && (put.Renames() ==> q.name in Seen().disk.bundles && Seen().disk.bundles[q.name] == mine)
                && (put.Outcome() == Success ==> q.name in Seen().cache.bundles && Seen().cache.bundles[q.name] == mine)
      ensures ok <==>
                && q.payload != "" && uid == Success && put.Outcome() == Success && write == Success && rpc == Success
                && q.name in old(Seen()).cluster.actors && ResumeEffect(old(Seen()).cluster.actors[q.name].state).Some?
    {
      hide StartAlone, Reopened, Restarted, Shown, At, OnlyActor, ResumeEffect, Readable;
      if q.payload == "" {
        return false;
      }
      var _ := ActorLock(q.name);
      ghost var w := if uid == Success then Stored(Seen(), q, put) else Seen();
      StartShown(w, q.name, uid, put.Outcome(), write, rpc, again);
      StartMoves(w, q.name, write, rpc, again);
      var actor := control.GetActor(q.name, uid);
      if actor.None? {
        return false;
      }
      ok := store.Put(q.name, BundleFor(q, actor.value.uid), put.chunks, put.fault, put.dropped);
      if !ok {
        return;
      }
      ok := ClearAndResume(q.name, write, rpc, again);
      StillBound(w, Seen(), q);
    }

    /** The second half of a start: clear the mark and resume, or mark again. */
    method ClearAndResume(name: string, write: Outcome, rpc: Outcome, again: Outcome) returns (ok: bool)
      requires Valid()
      modifies this`stopped, control, store.disk
      ensures Valid()
      ensures ok <==> write == Success && rpc == Success && Resumable(old(Seen()).cluster, name)
      ensures Seen() == Restarted(old(Seen()), name, write, rpc, again)
    {
      hide Reopened, Moved, MarkedView, ResumeEffect, Readable;
      ok := MarkStopped(name, false, write);
      if !ok {
        return;
      }
      ok := control.Move(name, ResumeEffect, rpc);
      if !ok {
        var _ := MarkStopped(name, true, again);
      }
    }

    /** Suspend an actor that came up behind the gateway's stop. */
    method SuspendAgain(name: string, get: Outcome, rpc: Outcome)
      requires Valid()
      modifies this, control
      ensures Valid() && OnlyActor(old(Seen()), Seen(), name)
      ensures Shown(Seen(), name, AgainAlone(At(old(Seen()), name, P.AgCheck), get, rpc))
    {
      hide AgainAlone, Reopened, Moved, OnlyActor, Shown, At;
      ghost var w := Seen();
      AgainShown(w, name, get, rpc);
      MarkedAndMoved(w, name, true, SuspendEffect, rpc);
      var _ := ActorLock(name);
      if name !in stopped {
        return;
      }
      var actor := control.GetActor(name, get);
      if actor.None? || actor.value.state != Running {
        return;
      }
      var _ := control.Move(name, SuspendEffect, rpc);
    }

    /** Delete the actor, then forget its bundle and its mark. A missing actor is no
        error; a bundle file that stays behind is forgotten all the same. */
    method DeleteSandbox(name: string, rpc: Outcome, remove: Outcome, write: Outcome) returns (r: Result<bool, ()>)
      requires Valid()
      modifies this, control, store, store.disk
      ensures Valid()
      ensures r == if rpc == Success && remove == Success && write == Success
                   then Ok(name in old(Seen()).cluster.actors) else Err(())
      ensures OnlyActor(Forgotten(old(Seen()), name, rpc, remove), Seen(), name)
      ensures Shown(Seen(), name, DeleteAlone(At(old(Seen()), name, P.DeRpc), rpc, remove, write))
      ensures r.Ok? && old(store.InStep()) ==> store.InStep()
      ensures rpc == Success ==> name !in Seen().cache.bundles
      ensures r.Ok? ==> name !in Seen().disk.bundles
    {
      hide DeleteAlone, Reopened, Moved, Shown, OnlyActor;
      ghost var w := Seen();
      ghost var v := Forgotten(w, name, rpc, remove);
      DeleteShown(w, name, rpc, remove, write);
      DeleteShown(v, name, rpc, remove, write);
      assert At(v, name, P.DeRpc) == At(w, name, P.DeRpc);
      var deleted := control.DeleteActor(name, rpc);
      if deleted.Err? {
        return Err(());
      }
      var ok := store.Remove(name, remove != Success);
      if !ok {
        return Err(());
      }
      ok := MarkStopped(name, false, write);
      r := if ok then deleted else Err(());
    }

    /** What a create sets off. Its step number `fault` fails, if it comes to that,
        having taken effect when the reply was `lost`. Whatever happens, the world is
        the one CreateRetry's Upto gives for as many steps as took effect. */
    method CreateSandbox(q: Request, fault: nat, lost: bool, put: PutFate) returns (ok: bool)
      requires Valid() && CanFail(q, fault, lost, put)
      modifies this, control, store, store.disk
      ensures Valid()
      ensures q.payload == "" ==> !ok && Seen() == old(Seen())
      ensures q.payload != "" ==> Seen() == Upto(old(Seen()), q, Done(fault, lost))
      ensures ok <==> q.payload != "" && fault >= STEPS && Creates(old(Seen()), q)
      ensures ok ==> Created(Seen(), q)
    {
      hide Upto, CreateStep, Reopened, Readable;
      if q.payload == "" {
        return false;
      }
      ghost var w := Seen();
      if Foreign(w.cluster, q) {
        ForeignStops(w, q, 3);
        ForeignStops(w, q, Done(fault, lost));
      }
      var uid := ClaimActor(q, fault, lost);
      if uid.None? {
        return false;
      }
      UptoProgress(w, q, STEPS - 1);
      CreateAchieves(w, q);
      ok := BindAndResume(w, q, uid.value, fault, lost, put);
    }

    /** The first three steps: the template, the actor, a look at whose it is if it
        was there before, and its uid. */
    method ClaimActor(q: Request, fault: nat, lost: bool) returns (uid: Option<nat>)
      requires Valid() && (lost ==> fault in {0, 1, 3, 8})
      modifies control
      ensures Seen() == Upto(old(Seen()), q, if Done(fault, lost) < 3 then Done(fault, lost) else 3)
      ensures uid.Some? <==> fault >= 3 && !Foreign(old(Seen()).cluster, q)
      ensures uid.Some? ==> q.name in Seen().cluster.actors && uid.value == Seen().cluster.actors[q.name].uid
    {
      hide Upto, Reopened, Readable;
      ghost var w := Seen();
      UptoNext(w, q, 0);
      UptoNext(w, q, 1);
      UptoNext(w, q, 2);
      var ok := control.EnsureTemplate(q.template, Fate(0, fault, lost));
      if !ok {
        return None;
      }
      var created := control.CreateActor(q.name, q.template, Fate(1, fault, lost));
      if created == Err(false) {
        return None;
      }
      if created == Err(true) {
        var existing := control.GetActor(q.name, Fate(2, fault, lost));
        if existing.None? || existing.value.template != q.template {
          return None;
        }
      }
      assert Seen() == Upto(w, q, 2);
      var actor := control.GetActor(q.name, Fate(2, fault, lost));
      uid := if actor.Some? then Some(actor.value.uid) else None;
    }

    /** The other six: policy, the bundle's two writes, the mark's two, resume. */
    method BindAndResume(ghost w: World, q: Request, uid: nat, fault: nat, lost: bool, put: PutFate) returns (ok: bool)
      requires Valid() && CanFail(q, fault, lost, put) && fault >= 3
      requires Seen() == Upto(w, q, 3) && !Foreign(w.cluster, q)
      requires q.name in Seen().cluster.actors && uid == Seen().cluster.actors[q.name].uid
      modifies this, control, store, store.disk
      ensures Valid() && Seen() == Upto(w, q, Done(fault, lost))
      ensures ok <==> fault >= STEPS && Resumable(Upto(w, q, 8).cluster, q.name)
      ensures Done(fault, lost) > 4 ==> HasBundle(Seen().disk, q, Seen().cluster)
      ensures Done(fault, lost) > 5 ==> HasBundle(Seen().cache, q, Seen().cluster)
    {
      hide Upto, Reopened, Readable, Foreign, HasBundle;
      UptoBinds(w, q, Done(fault, lost));
      forall k | 3 <= k < STEPS ensures !Foreign(Upto(w, q, k).cluster, q) && q.name in Upto(w, q, k).cluster.actors {
        UptoProgress(w, q, k);
      }
      UptoNext(w, q, 3);
      UptoNext(w, q, 4);
      UptoNext(w, q, 5);
      UptoNext(w, q, 6);
      UptoNext(w, q, 7);
      UptoNext(w, q, 8);
      if q.egress {
        ok := control.CreateEgressPolicy(q.name, Fate(3, fault, lost));
        if !ok {
          return;
        }
      }
      assert Seen() == Upto(w, q, 4);
      ok := store.Put(q.name, BundleFor(q, uid), put.chunks, put.fault, put.dropped);
      if !ok {
        return;
      }
      assert Seen() == Upto(w, q, 6);
      ok := MarkStopped(q.name, false, Fate(6, fault, lost));
      if !ok {
        return;
      }
      assert Seen() == Upto(w, q, 8);
      ok := control.Move(q.name, ResumeEffect, Fate(8, fault, lost));
    }

    ghost predicate CanFail(q: Request, fault: nat, lost: bool, put: PutFate) {
      && fault != 7 && (fault == 3 ==> q.egress) && (lost ==> fault in {0, 1, 3, 8})
      && (fault == 4 <==> !put.Renames()) && (fault == 5 <==> put.Renames() && put.dropped)
    }

    /** Read the actor's state, then the mark; a stopped actor never shows as one
        that Substrate took down by itself. */
    method GetSandbox(name: string, get: Outcome) returns (r: Result<seq<Condition>, ()>)
      ensures r.Ok? <==> get == Success && name in Seen().cluster.actors
      ensures r.Ok? ==> r.value == ActorStateConditions(Seen().cluster.actors[name].state, name in Seen().cache.stopped)
      ensures r.Ok? && name in Seen().cache.stopped ==> SUBSTRATE_CHECKPOINT_ROW !in r.value
    {
      var actor := control.GetActor(name, get);
      if actor.None? {
        return Err(());
      }
      r := Ok(ActorStateConditions(actor.value.state, name in stopped));
    }

    /** Drop the bundles of actors that are gone, and their marks. `live` is what the
        page walk found. On Ok exactly the orphans' bundles and marks are gone. At a
        failure everything of a live actor is still as it was; `gone` are the orphans
        whose markers went and `done` those whose cached marks did too, and none of
        these has before all the markers went: of a store that agreed with the cache,
        exactly the marked ones in between stay cached as stopped without a marker. */
    method ReapOrphanBundles(live: set<string>, noRemove: set<string>, noUnmark: set<string>, noMark: set<string>)
      returns (r: Result<nat, ()>, ghost gone: set<string>, ghost done: set<string>)
      requires Valid() && store.InStep()
      modifies this, store, store.disk
      ensures Valid()
      ensures var orphans := old(Seen()).cache.bundles.Keys - live;
        && done <= gone <= orphans && (done != {} || r.Ok? ==> gone == orphans)
        && (r.Ok? ==> done == orphans && r.value == |orphans| && store.InStep()
                      && Seen() == Reaped(old(Seen()), orphans, orphans, orphans)
                      && Seen().cluster == old(Seen()).cluster
                      && Seen().disk.bundles == old(Seen()).disk.bundles - orphans
                      && Seen().cache.bundles == old(Seen()).cache.bundles - orphans)
      ensures Seen().disk.stopped == old(Seen()).disk.stopped - gone
      ensures Seen().cache.stopped == old(Seen()).cache.stopped - done
      ensures old(Seen()).cache.stopped == old(Seen()).disk.stopped ==>
                Seen().cache.stopped - Seen().disk.stopped == (gone - done) * old(Seen()).disk.stopped
      ensures forall n | n in live :: Kept(old(Seen()).disk, Seen().disk, n)
    {
      hide Reopened, Readable, Kept;
      ghost var w := Seen();
      var orphans;
      orphans, gone := DropOrphans(live, noRemove, noUnmark);
      done := {};
      if orphans.Err? {
        return Err(()), gone, done;
      }
      var ok;
      ok, done := ForgetMarks(orphans.value, noMark);
      ReapKeeps(w, live, gone, done);
      r := if ok then Ok(|orphans.value|) else Err(());
    }

    /** The reaping itself, bundle and marker by bundle and marker. */
    method DropOrphans(live: set<string>, noRemove: set<string>, noUnmark: set<string>)
      returns (r: Result<set<string>, string>, ghost gone: set<string>)
      requires Valid() && store.InStep()
      modifies store, store.disk
      ensures Valid() && stopped == old(stopped)
      ensures gone <= old(Seen()).cache.bundles.Keys - live
      ensures r.Ok? ==>
                && r.value == gone == old(Seen()).cache.bundles.Keys - live && store.InStep()
                && Seen() == Reaped(old(Seen()), gone, gone, {})
      ensures r.Err? ==>
                && Seen().disk.stopped == old(Seen()).disk.stopped - gone
                && forall n | n in live :: Kept(old(Seen()).disk, Seen().disk, n)
    {
      hide Reopened, Readable, Listing.PartlyReaped, Kept;
      ghost var before := Reopened(store.disk.files);
      r, gone := Listing.ReapOrphans(store, live, noRemove, noUnmark);
      if r.Err? {
        PartlyReapedKeeps(before, Reopened(store.disk.files), live, gone, r.error);
      }
    }

    /** Clear the marks of these names, till one cannot be. */
    method ForgetMarks(names: set<string>, noMark: set<string>) returns (ok: bool, ghost done: set<string>)
      requires Valid()
      modifies this`stopped, store.disk
      ensures Valid() && (old(store.InStep()) ==> store.InStep())
      ensures done <= names && Seen() == Reaped(old(Seen()), {}, done, done) && (ok ==> done == names)
    {
      hide Reopened, Readable;
      var left := names;
      done := {};
      while left != {}
        invariant Valid() && (old(store.InStep()) ==> store.InStep()) && left <= names && done == names - left
        invariant Seen() == Reaped(old(Seen()), {}, done, done)
      {
        var name :| name in left;
        left := left - {name};
        ok := MarkStopped(name, false, if name in noMark then Refused else Success);
        if !ok {
          return;
        }
        done := done + {name};
      }
      ok := true;
    }
  }
}
