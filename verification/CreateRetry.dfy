/** create_sandbox, which may be cut at any step and is then sent again: however
    often that happens, the last attempt ends where an uninterrupted create ends. */
module CreateRetry {
  import opened Prelude
  import opened Substrate
  import opened StoreFiles

  /** One incarnation of an actor. */
  datatype Incarnation = Incarnation(uid: nat, template: string, state: ActorState)

  /** Substrate's side: templates with a golden snapshot or on the way to one, the
      actors, the actors that have an egress policy, and the next uid. */
  datatype Cluster = Cluster(
    templates: set<string>, actors: map<string, Incarnation>, policies: set<string>, nextUid: nat)

  /** Substrate, and the bundles and marks on disk and in the driver's memory. */
  datatype World = World(cluster: Cluster, disk: View, cache: View)

  /** `template` is what name_for makes of the spec; `egress` says whether the
      driver is configured with egress rules. The rest goes into the bundle. */
  datatype Request = Request(
    name: string, template: string, egress: bool, generation: string, sandboxName: string, payload: string)

  ghost predicate SameSpec(r: Request, q: Request) {
    r.name == q.name && r.template == q.template && r.egress == q.egress
  }

  /** The actor is there, but another template's: somebody else's. */
  predicate Foreign(c: Cluster, r: Request) {
    r.name in c.actors && c.actors[r.name].template != r.template
  }

  function BundleFor(r: Request, uid: nat): Bundle { Bundle(r.generation, uid, r.sandboxName, r.payload) }

  // --------------------------------------------------- Substrate's operations

  function WithTemplate(c: Cluster, template: string): Cluster { c.(templates := c.templates + {template}) }

  /** CreateActor; an actor of that name that is already there stays as it is. */
  function WithActor(c: Cluster, name: string, template: string): Cluster {
    if name in c.actors then c
    else c.(actors := c.actors[name := Incarnation(c.nextUid, template, Suspended)], nextUid := c.nextUid + 1)
  }

  function WithPolicy(c: Cluster, name: string): Cluster { c.(policies := c.policies + {name}) }

  /** What an RPC with that effect makes of the actor; nothing when it is refused. */
  function Moved(c: Cluster, name: string, effect: ActorState -> Option<ActorState>): Cluster {
    if name in c.actors && effect(c.actors[name].state).Some? then
      c.(actors := c.actors[name := c.actors[name].(state := effect(c.actors[name].state).value)])
    else c
  }

  function Resumed(c: Cluster, name: string): Cluster { Moved(c, name, ResumeEffect) }

  /** Substrate finishes what it is doing to the actor. */
  function Finished(c: Cluster, name: string): Cluster {
    if name in c.actors && c.actors[name].state == Deleting then c.(actors := c.actors - {name})
    else Moved(c, name, Completion)
  }

  // ------------------------------------------------------------------ a create

  const STEPS := 9

  /** The view with a bundle for the actor's incarnation, if there is an actor. */
  function WithBundle(v: View, r: Request, c: Cluster): View {
    if r.name in c.actors then v.(bundles := v.bundles[r.name := BundleFor(r, c.actors[r.name].uid)]) else v
  }

  function Unmarked(v: View, name: string): View { v.(stopped := v.stopped - {name}) }

  /** Step k of a create: template, actor, uid, egress policy, the two writes of the
      bundle, the two of the mark, resume. */
  function CreateStep(w: World, r: Request, k: nat): World {
    if k == 0 then w.(cluster := WithTemplate(w.cluster, r.template))
    else if k == 1 then w.(cluster := WithActor(w.cluster, r.name, r.template))
    else if k == 3 then if r.egress then w.(cluster := WithPolicy(w.cluster, r.name)) else w
    else if k == 4 then w.(disk := WithBundle(w.disk, r, w.cluster))
    else if k == 5 then w.(cache := WithBundle(w.cache, r, w.cluster))
    else if k == 6 then w.(disk := Unmarked(w.disk, r.name))
    else if k == 7 then w.(cache := Unmarked(w.cache, r.name))
    else if k == 8 then w.(cluster := Resumed(w.cluster, r.name))
    else w
  }

  /** A create that got through its first `cut` steps. One that finds the actor to
      be somebody else's stops after looking. */
  function Upto(w: World, r: Request, cut: nat): World {
    if cut == 0 then w
    else
      var p := Upto(w, r, cut - 1);
      if cut > 2 && Foreign(p.cluster, r) then p else CreateStep(p, r, cut - 1)
  }

  function CreateAll(w: World, r: Request): World { Upto(w, r, STEPS) }

  predicate Up(s: ActorState) { s == Resuming || s == Running }

  /** When a create succeeds: the name is free, or the actor there is of this very
      template and Substrate can resume it. */
  predicate Creates(w: World, r: Request) {
    r.name !in w.cluster.actors
    || (w.cluster.actors[r.name].template == r.template && ResumeEffect(w.cluster.actors[r.name].state).Some?)
  }

  /** The request's bundle is there, bound to the actor's current incarnation. */
  predicate HasBundle(v: View, r: Request, c: Cluster) {
    && r.name in c.actors && r.name in v.bundles
    && v.bundles[r.name] == Bundle(r.generation, c.actors[r.name].uid, r.sandboxName, r.payload)
  }

  /** What a create is for: the template and the actor are there, with the policy,
      the bundle bound to that very incarnation, no mark, and the actor coming up. */
  ghost predicate Created(w: World, r: Request) {
    && r.template in w.cluster.templates
    && r.name in w.cluster.actors && w.cluster.actors[r.name].template == r.template
    && (r.egress ==> r.name in w.cluster.policies)
    && HasBundle(w.disk, r, w.cluster) && HasBundle(w.cache, r, w.cluster)
    && r.name !in w.disk.stopped && r.name !in w.cache.stopped
    && Up(w.cluster.actors[r.name].state)
  }

  /** What stands after k steps, given who the actor belongs to. */
  ghost predicate Progress(w: World, r: Request, k: nat) {
    && (k > 0 ==> r.template in w.cluster.templates)
    && (k > 1 ==> r.name in w.cluster.actors)
    && (k > 3 ==> r.egress ==> r.name in w.cluster.policies)
    && (k > 4 ==> HasBundle(w.disk, r, w.cluster))
    && (k > 5 ==> HasBundle(w.cache, r, w.cluster))
    && (k > 6 ==> r.name !in w.disk.stopped)
    && (k > 7 ==> r.name !in w.cache.stopped)
  }

  /** Before the resume, a create gives an actor of its own the state it had, or a
      new one its first. */
  lemma {:induction false} UptoProgress(w: World, r: Request, cut: nat)
    requires cut < STEPS && !Foreign(w.cluster, r)
    ensures var p := Upto(w, r, cut);
      && !Foreign(p.cluster, r) && Progress(p, r, cut)
      && (r.name in w.cluster.actors ==>
            r.name in p.cluster.actors && p.cluster.actors[r.name] == w.cluster.actors[r.name])
      && (r.name !in w.cluster.actors && r.name in p.cluster.actors ==>
            p.cluster.actors[r.name] == Incarnation(w.cluster.nextUid, r.template, Suspended))
  {
    if cut > 0 {
      UptoProgress(w, r, cut - 1);
    }
  }

  /** From its bundle steps on, whatever follows, the bundle is bound to the actor. */
  lemma UptoBinds(w: World, r: Request, cut: nat)
    requires cut <= STEPS && !Foreign(w.cluster, r)
    ensures cut > 4 ==> HasBundle(Upto(w, r, cut).disk, r, Upto(w, r, cut).cluster)
    ensures cut > 5 ==> HasBundle(Upto(w, r, cut).cache, r, Upto(w, r, cut).cluster)
  {
    if cut < STEPS {
      UptoProgress(w, r, cut);
      hide Upto;
    } else {
      UptoProgress(w, r, STEPS - 1);
      CreateAllUnfolds(w, r);
      hide Upto;
    }
  }

  lemma {:induction false} ForeignStops(w: World, r: Request, cut: nat)
    requires Foreign(w.cluster, r)
    ensures Upto(w, r, cut) == if cut == 0 then w else CreateStep(w, r, 0)
  {
    if cut > 0 {
      ForeignStops(w, r, cut - 1);
    }
  }

  /** A create does what it is for exactly when the name is free or the actor there
      is its own and can be resumed; somebody else's actor it leaves alone. */
  lemma CreateAchieves(w: World, r: Request)
    ensures Creates(w, r) <==> Created(CreateAll(w, r), r)
    ensures Foreign(w.cluster, r) ==> CreateAll(w, r) == w.(cluster := WithTemplate(w.cluster, r.template))
  {
    if Foreign(w.cluster, r) {
      ForeignStops(w, r, STEPS);
    } else {
      UptoProgress(w, r, STEPS - 1);
      hide Upto;
      assert CreateAll(w, r) == CreateStep(Upto(w, r, 8), r, 8) by {
        CreateAllUnfolds(w, r);
      }
    }
  }

  lemma CreateAllUnfolds(w: World, r: Request)
    requires !Foreign(Upto(w, r, 8).cluster, r)
    ensures CreateAll(w, r) == CreateStep(Upto(w, r, 8), r, 8)
  {
  }

  // ------------------------------------------------------------------- retries

  /** What may come before the attempt that gets through: attempts cut anywhere, or
      whose golden snapshot failed and took the template along; driver restarts;
      Substrate finishing what it was doing to the actor, or losing its worker; and
      anything at all elsewhere, to other actors, other templates and the uids. */
  datatype Episode =
    | Cut(r: Request, cut: nat) | GoldenFailed(r: Request) | Reopen | Finish | WorkerDies | Elsewhere(to: World)

  function DeathEffect(s: ActorState): Option<ActorState> {
    if s in {Resuming, Running, Suspending} then Some(Crashed) else None
  }

  function Spliced<T>(mine: map<string, T>, others: map<string, T>, name: string): map<string, T> {
    if name in mine then others[name := mine[name]] else others - {name}
  }

  function SplicedSet(mine: set<string>, others: set<string>, name: string): set<string> {
    if name in mine then others + {name} else others - {name}
  }

  function SplicedView(mine: View, others: View, name: string): View {
    View(Spliced(mine.bundles, others.bundles, name), SplicedSet(mine.stopped, others.stopped, name))
  }

  /** Of w only what concerns the actor itself. */
  function Moving(w: World, to: World, name: string): World {
    World(Cluster(to.cluster.templates, Spliced(w.cluster.actors, to.cluster.actors, name),
                  SplicedSet(w.cluster.policies, to.cluster.policies, name), to.cluster.nextUid),
          SplicedView(w.disk, to.disk, name), SplicedView(w.cache, to.cache, name))
  }

  function After(w: World, name: string, e: Episode): World {
    match e
    case Cut(r, cut) => Upto(w, r, cut)
    case GoldenFailed(r) => w.(cluster := w.cluster.(templates := w.cluster.templates - {r.template}))
    case Reopen => w.(cache := w.disk)
    case Finish => w.(cluster := Finished(w.cluster, name))
    case WorkerDies => w.(cluster := Moved(w.cluster, name, DeathEffect))
    case Elsewhere(to) => Moving(w, to, name)
  }

  function AfterAll(w: World, name: string, es: seq<Episode>): World {
    if es == [] then w else After(AfterAll(w, name, es[..|es| - 1]), name, es[|es| - 1])
  }

  predicate Attempted(e: Episode) { e.Cut? || e.GoldenFailed? }

  /** The same stretch of time without any of the attempts. */
  function Elapsed(w: World, name: string, es: seq<Episode>): World {
    if es == [] then w
    else
      var p, e := Elapsed(w, name, es[..|es| - 1]), es[|es| - 1];
      if Attempted(e) then p else After(p, name, e)
  }

  /** The retried actor may be ahead of the other on the way up, and may have lost
      its worker there. */
  predicate Ahead(behind: ActorState, ahead: ActorState, k: nat) {
    || behind == ahead
    || (behind == (if k < STEPS then Suspended else Resuming) && (Up(ahead) || ahead == Crashed))
  }

  ghost predicate SetsAgreeOff<T(!new)>(a: set<T>, b: set<T>, x: T) { forall y | y != x :: y in a <==> y in b }

  ghost predicate MapsAgreeOff<T(!new), U>(a: map<T, U>, b: map<T, U>, x: T) {
    forall y | y != x :: (y in a <==> y in b) && (y in a ==> y in b && a[y] == b[y])
  }

  ghost predicate NearActors(v: Cluster, w: Cluster, r: Request, k: nat) {
    && MapsAgreeOff(v.actors, w.actors, r.name)
    && if r.name in v.actors then
         && r.name in w.actors
         && var a, b := v.actors[r.name], w.actors[r.name];
            a.template == b.template && (k < 2 ==> a.uid == b.uid)
            && if b.template == r.template then Ahead(a.state, b.state, k) else a == b
       else
         && k < 2
         && (r.name in w.actors ==>
               w.actors[r.name].template == r.template && Ahead(Suspended, w.actors[r.name].state, k))
  }

  ghost predicate NearTemplates(v: Cluster, w: Cluster, r: Request, k: nat) {
    && SetsAgreeOff(v.templates, w.templates, r.template)
    && (k > 0 ==> r.template in v.templates && r.template in w.templates)
  }

  ghost predicate NearPolicies(v: Cluster, w: Cluster, r: Request, k: nat) {
    && SetsAgreeOff(v.policies, w.policies, r.name)
    && (r.name in v.policies ==> r.name in w.policies)
    && (Foreign(w, r) || !r.egress ==> v.policies == w.policies)
    && (k > 3 && r.egress && !Foreign(w, r) ==> r.name in v.policies)
  }

  /** The two views agree off the actor; `bound` and `cleared` say what is true of
      the actor itself in both. */
  ghost predicate NearViews(a: View, b: View, foreign: bool, name: string, bound: bool, cleared: bool) {
    && MapsAgreeOff(a.bundles, b.bundles, name) && SetsAgreeOff(a.stopped, b.stopped, name)
    && (foreign ==> a == b)
    && (bound && !foreign ==> name in a.bundles && name in b.bundles)
    && (cleared && !foreign ==> name !in a.stopped && name !in b.stopped)
  }

  ghost predicate NearStore(v: World, w: World, r: Request, k: nat) {
    && NearViews(v.disk, w.disk, Foreign(w.cluster, r), r.name, k > 4, k > 6)
    && NearViews(v.cache, w.cache, Foreign(w.cluster, r), r.name, k > 5, k > 7)
  }

  /** w has lived through attempts that v has not; both are k steps into the last. */
  ghost predicate Near(v: World, w: World, r: Request, k: nat) {
    && NearActors(v.cluster, w.cluster, r, k) && NearTemplates(v.cluster, w.cluster, r, k)
    && NearPolicies(v.cluster, w.cluster, r, k) && NearStore(v, w, r, k)
  }

  /** Nothing the two worlds hold differs but the actor's uid if both created it, the
      bundle that is bound to it, and how far up it has come. */
  ghost predicate SameOutcome(v: World, w: World, name: string) {
    && v.cluster.templates == w.cluster.templates && v.cluster.policies == w.cluster.policies
    && v.cluster.actors.Keys == w.cluster.actors.Keys && MapsAgreeOff(v.cluster.actors, w.cluster.actors, name)
    && ViewsMatch(v.disk, w.disk, name) && ViewsMatch(v.cache, w.cache, name)
    && (name in v.cluster.actors ==>
          && v.cluster.actors[name].template == w.cluster.actors[name].template
          && Ahead(v.cluster.actors[name].state, w.cluster.actors[name].state, STEPS))
  }

  ghost predicate ViewsMatch(a: View, b: View, name: string) {
    a.stopped == b.stopped && a.bundles.Keys == b.bundles.Keys && MapsAgreeOff(a.bundles, b.bundles, name)
  }

  lemma NearTogether(v: World, w: World, q: Request, r: Request, k: nat)
    requires SameSpec(q, r) && Near(v, w, r, k) && k < STEPS && !(k >= 2 && Foreign(w.cluster, r))
    ensures Near(CreateStep(v, q, k), CreateStep(w, r, k), r, k + 1)
  {
    NearActorsTogether(v, w, q, r, k);
    NearStoreTogether(v, w, q, r, k);
    hide NearActors, NearStore;
  }

  lemma NearActorsTogether(v: World, w: World, q: Request, r: Request, k: nat)
    requires SameSpec(q, r) && NearActors(v.cluster, w.cluster, r, k) && k < STEPS && !(k >= 2 && Foreign(w.cluster, r))
    ensures NearActors(CreateStep(v, q, k).cluster, CreateStep(w, r, k).cluster, r, k + 1)
    ensures Foreign(CreateStep(w, r, k).cluster, r) == Foreign(w.cluster, r)
  {
    if k == 8 {
      assert CreateStep(v, q, k).cluster == Resumed(v.cluster, r.name);
      assert CreateStep(w, r, k).cluster == Resumed(w.cluster, r.name);
    } else if k != 1 {
      assert CreateStep(v, q, k).cluster.actors == v.cluster.actors;
      assert CreateStep(w, r, k).cluster.actors == w.cluster.actors;
    }
  }

  lemma NearStoreTogether(v: World, w: World, q: Request, r: Request, k: nat)
    requires SameSpec(q, r) && Near(v, w, r, k) && k < STEPS && !(k >= 2 && Foreign(w.cluster, r))
    ensures NearStore(CreateStep(v, q, k), CreateStep(w, r, k), r, k + 1)
  {
    NearActorsTogether(v, w, q, r, k);
    hide Moved, WithActor, NearTemplates, NearPolicies, Ahead;
  }

  /** A step of an attempt that the other world does not see. */
  lemma NearAttempt(v: World, w: World, r: Request, q: Request, k: nat)
    requires SameSpec(q, r) && Near(v, w, r, 0) && (k >= 2 ==> r.name in w.cluster.actors && !Foreign(w.cluster, r))
    ensures Near(v, CreateStep(w, q, k), r, 0)
    ensures k >= 1 ==> r.name in CreateStep(w, q, k).cluster.actors
    ensures Foreign(CreateStep(w, q, k).cluster, r) == Foreign(w.cluster, r)
  {
  }

  lemma {:induction false} NearUpto(v: World, w: World, r: Request, q: Request, cut: nat)
    requires SameSpec(q, r) && Near(v, w, r, 0)
    ensures Near(v, Upto(w, q, cut), r, 0)
    ensures Foreign(Upto(w, q, cut).cluster, r) == Foreign(w.cluster, r)
    ensures cut >= 2 ==> r.name in Upto(w, q, cut).cluster.actors
  {
    if cut > 0 {
      NearUpto(v, w, r, q, cut - 1);
      var p := Upto(w, q, cut - 1);
      if !(cut > 2 && Foreign(p.cluster, q)) {
        NearAttempt(v, p, r, q, cut - 1);
      }
    }
    hide Near, CreateStep;
  }

  /** What happens to both worlds keeps them near each other. */
  lemma NearEvent(v: World, w: World, r: Request, e: Episode)
    requires Near(v, w, r, 0) && (e.Reopen? || e.Finish? || e.WorkerDies?)
    ensures Near(After(v, r.name, e), After(w, r.name, e), r, 0)
  {
    hide Upto;
  }

  lemma NearElsewhere(v: World, w: World, r: Request, to: World)
    requires Near(v, w, r, 0)
    ensures Near(Moving(v, to, r.name), Moving(w, to, r.name), r, 0)
  {
  }

  lemma NearEpisode(v: World, w: World, r: Request, e: Episode)
    requires Near(v, w, r, 0) && (Attempted(e) ==> SameSpec(e.r, r))
    ensures Near(if Attempted(e) then v else After(v, r.name, e), After(w, r.name, e), r, 0)
  {
    match e
    case Cut(q, cut) => NearUpto(v, w, r, q, cut);
    case GoldenFailed(_) =>
    case Elsewhere(to) => NearElsewhere(v, w, r, to);
    case _ => NearEvent(v, w, r, e);
    hide Upto, Moving, Finished, Moved;
  }

  lemma {:induction false} NearEpisodes(w: World, r: Request, es: seq<Episode>)
    requires forall e | e in es && Attempted(e) :: SameSpec(e.r, r)
    ensures Near(Elapsed(w, r.name, es), AfterAll(w, r.name, es), r, 0)
  {
    if es != [] {
      var front, e := es[..|es| - 1], es[|es| - 1];
      NearEpisodes(w, r, front);
      NearEpisode(Elapsed(w, r.name, front), AfterAll(w, r.name, front), r, e);
    }
    hide After, Near;
  }

  /** The last attempt against an uninterrupted create, step by step. */
  lemma {:induction false} NearToTheEnd(v: World, w: World, q: Request, r: Request, k: nat)
    requires SameSpec(q, r) && Near(v, w, r, 0) && k <= STEPS
    ensures var v', w' := Upto(v, q, k), Upto(w, r, k);
      if Foreign(w'.cluster, r) && k > 1 then Near(v', w', r, 2) && Foreign(v'.cluster, q) else Near(v', w', r, k)
  {
    if k > 0 {
      NearToTheEnd(v, w, q, r, k - 1);
      var v', w' := Upto(v, q, k - 1), Upto(w, r, k - 1);
      if !(k > 2 && Foreign(w'.cluster, r)) {
        NearTogether(v', w', q, r, k - 1);
      }
    }
    hide CreateStep;
  }

  lemma NearIsSame(v: World, w: World, r: Request, k: nat)
    requires Near(v, w, r, k) && (k == STEPS || (k == 2 && Foreign(w.cluster, r)))
    ensures SameOutcome(v, w, r.name)
  {
    var a, b := v.cluster, w.cluster;
    assert forall t :: t in a.templates <==> t in b.templates;
    assert forall t :: t in a.policies <==> t in b.policies;
    assert forall t :: t in a.actors.Keys <==> t in b.actors.Keys;
    assert forall t :: t in v.disk.bundles.Keys <==> t in w.disk.bundles.Keys;
    assert forall t :: t in v.cache.bundles.Keys <==> t in w.cache.bundles.Keys;
    assert forall t :: t in v.disk.stopped <==> t in w.disk.stopped;
    assert forall t :: t in v.cache.stopped <==> t in w.cache.stopped;
  }

  predicate IsCrashed(w: World, name: string) {
    name in w.cluster.actors && w.cluster.actors[name].state == Crashed
  }

  /** However often a create was cut, at whatever steps, its golden snapshot failed,
      the driver was restarted, the actor lost its worker, and whatever went on
      elsewhere, sending it once more ends where a single uninterrupted create of
      that spec would have ended, up to the credentials, the uid of an actor both
      had to create, and how far Substrate has brought it up. It succeeds exactly
      when that one would, unless the actor is crashed just then; and then its
      bundle is its own and bound to the current incarnation. */
  lemma RetriedCreateConverges(w: World, es: seq<Episode>, r: Request, first: Request)
    requires SameSpec(first, r) && forall e | e in es && Attempted(e) :: SameSpec(e.r, r)
    ensures var v, z := Elapsed(w, r.name, es), AfterAll(w, r.name, es);
      && SameOutcome(CreateAll(v, first), CreateAll(z, r), r.name)
      && (r.name in v.cluster.actors ==>
            r.name in z.cluster.actors && z.cluster.actors[r.name].uid == v.cluster.actors[r.name].uid)
      && (Creates(z, r) <==> Creates(v, first) && !IsCrashed(z, r.name))
      && (Creates(z, r) <==> Created(CreateAll(z, r), r))
  {
    NearEpisodes(w, r, es);
    var v, z := Elapsed(w, r.name, es), AfterAll(w, r.name, es);
    NearToTheEnd(v, z, first, r, STEPS);
    NearIsSame(CreateAll(v, first), CreateAll(z, r), r, if Foreign(CreateAll(z, r).cluster, r) then 2 else STEPS);
    CreateAchieves(z, r);
    NearVerdict(v, z, first, r);
    hide Upto, Near, AfterAll, Elapsed, Creates, Created, SameOutcome;
  }

  lemma NearVerdict(v: World, z: World, first: Request, r: Request)
    requires Near(v, z, r, 0) && SameSpec(first, r)
    ensures Creates(z, r) <==> Creates(v, first) && !IsCrashed(z, r.name)
    ensures r.name in v.cluster.actors ==>
              r.name in z.cluster.actors && z.cluster.actors[r.name].uid == v.cluster.actors[r.name].uid
  {
  }

  /** Whatever step a create has reached, once it comes to its resume the bundle of
      this very incarnation is stored. */
  lemma ResumeHasItsBundle(w: World, r: Request)
    requires !Foreign(w.cluster, r)
    ensures var p := Upto(w, r, STEPS - 1);
      && HasBundle(p.disk, r, p.cluster) && HasBundle(p.cache, r, p.cluster)
      && r.name !in p.disk.stopped && r.name !in p.cache.stopped
  {
    UptoProgress(w, r, STEPS - 1);
  }
}
