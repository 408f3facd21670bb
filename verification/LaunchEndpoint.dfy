/** The launch endpoint of src/launch.rs for one actor: serialized puts of its
    bundle, long-polling handlers that subscribe, read and wait, puts of other
    actors that share the version counter, and driver restarts. */
module LaunchEndpoint {
  import opened Prelude

  /** A stored bundle. `number` is its place among all the durable puts of this
      actor, which the driver does not know and no step consults. */
  datatype Entry = Entry(generation: string, uid: string, number: nat)

  /** A put between its rename and its return. */
  datatype PutPc = NoPut | Renamed(entry: Entry) | Inserted

  datatype Answer = Send(entry: Entry) | NoContent | Forbidden

  datatype HandlerPc =
    | Reading(seen: nat)
    | Parked(seen: nat, at: nat)
    | Answered(answer: Answer)

  /** A request by the incarnation `uid` whose launcher runs the generation `known`. */
  datatype Handler = Handler(uid: string, known: Option<string>, pc: HandlerPc)

  /** `puts` lists the generations that reached the disk, in order, and `inserts`
      counts the ones that reached the cache. */
  datatype State = State(
    puts: seq<string>, disk: Option<Entry>, mem: Option<Entry>, put: PutPc, inserts: nat,
    version: nat, handlers: map<nat, Handler>)

  datatype Label =
    | Rename(generation: string, uid: string) | Insert | Bump
    | DropPut                            // the call goes away while it waits to insert
    | OtherBump
    | Forget | Unlink
    | Request(id: nat, from: string, known: Option<string>)
    | Read(id: nat) | Wake(id: nat) | Deadline(id: nat) | Hangup(id: nat)
    | Restart

  /** What a read of `mem` gives the handler; None when there is nothing to send. */
  function Reply(mem: Option<Entry>, h: Handler): Option<Answer> {
    if mem.None? then None
    else if mem.value.uid != h.uid then Some(Forbidden)
    else if h.known != Some(mem.value.generation) then Some(Send(mem.value))
    else None
  }

  predicate Enabled(s: State, l: Label) {
    match l
    case Rename(_, _) => s.put.NoPut?
    case Insert => s.put.Renamed?
    case DropPut => s.put.Renamed?
    case Bump => s.put.Inserted?
    case Request(id, _, _) => id !in s.handlers
    case Read(id) => id in s.handlers && s.handlers[id].pc.Reading?
    // changed() is ready once the counter differs from the value last seen
    case Wake(id) => id in s.handlers && s.handlers[id].pc.Parked? && s.handlers[id].pc.seen != s.version
    case Deadline(id) => id in s.handlers && s.handlers[id].pc.Parked?
    case Hangup(id) => id in s.handlers
    case _ => true
  }

  function Next(s: State, l: Label): State
    requires Enabled(s, l)
  {
    match l
    case Rename(g, uid) =>
      var e := Entry(g, uid, |s.puts|);
      s.(puts := s.puts + [g], disk := Some(e), put := Renamed(e))
    case Insert => s.(mem := Some(s.put.entry), inserts := s.inserts + 1, put := Inserted)
    case Bump => s.(version := s.version + 1, put := NoPut)
    case DropPut => s.(put := NoPut)
    case OtherBump => s.(version := s.version + 1)
    case Forget => s.(mem := None)
    case Unlink => s.(disk := None)
    case Request(id, from, known) => Move(s, id, Handler(from, known, Reading(s.version)))
    case Read(id) =>
      var h := s.handlers[id];
      Move(s, id, h.(pc := match Reply(s.mem, h)
                           case Some(a) => Answered(a)
                           case None => Parked(h.pc.seen, s.inserts)))
    case Wake(id) => Move(s, id, s.handlers[id].(pc := Reading(s.version)))
    case Deadline(id) => Move(s, id, s.handlers[id].(pc := Answered(NoContent)))
    case Hangup(id) => s.(handlers := s.handlers - {id})
    // what a handler has already answered may still be on its way
    case Restart =>
      s.(mem := s.disk, put := NoPut, version := 0,
         handlers := map id | id in s.handlers && s.handlers[id].pc.Answered? :: s.handlers[id])
  }

  function Move(s: State, id: nat, h: Handler): State { s.(handlers := s.handlers[id := h]) }

  /** There is nothing for the request in what the store holds: no bundle, or the one
      its launcher already runs. */
  predicate Nothing(mem: Option<Entry>, uid: string, known: Option<string>) {
    mem.Some? ==> mem.value.uid == uid && known == Some(mem.value.generation)
  }

  /** Read number i is the first to hold anything for the request. */
  ghost predicate FirstNews(polls: seq<Option<Entry>>, i: nat, uid: string, known: Option<string>) {
    i < |polls| && !Nothing(polls[i], uid, known) && forall j | 0 <= j < i :: Nothing(polls[j], uid, known)
  }

  /** One request's loop: `polls` is what the store holds at each of its reads, the
      first at once and one more after every wakeup till the deadline fires. The
      first read with news decides: another incarnation's bundle is refused, one of
      its own that it does not run is sent. It waits out the deadline exactly when
      there was none. */
  method Launch(uid: string, known: Option<string>, polls: seq<Option<Entry>>) returns (a: Answer)
    requires polls != []
    ensures a.NoContent? <==> forall i | 0 <= i < |polls| :: Nothing(polls[i], uid, known)
    ensures forall i: nat | FirstNews(polls, i, uid, known) ::
              if polls[i].value.uid != uid then a == Forbidden else a == Send(polls[i].value)
    ensures a.Send? ==> a.entry.uid == uid && Some(a.entry.generation) != known
    ensures !a.NoContent? ==> exists i: nat :: FirstNews(polls, i, uid, known)
  {
    var i := 0;
    while i < |polls|
      invariant i <= |polls|
      invariant forall j | 0 <= j < i :: Nothing(polls[j], uid, known)
    {
      if polls[i].Some? {
        if polls[i].value.uid != uid {
          assert FirstNews(polls, i, uid, known);
          return Forbidden;
        }
        if known != Some(polls[i].value.generation) {
          assert FirstNews(polls, i, uid, known);
          return Send(polls[i].value);
        }
      }
      i := i + 1;
    }
    a := NoContent;
  }

  /** The same of the transition system's read. */
  lemma ReadAnswers(s: State, id: nat)
    requires Enabled(s, Read(id))
    ensures var h, pc := s.handlers[id], Next(s, Read(id)).handlers[id].pc;
      && (Nothing(s.mem, h.uid, h.known) <==> pc.Parked?)
      && (!Nothing(s.mem, h.uid, h.known) ==>
            pc == Answered(if s.mem.value.uid != h.uid then Forbidden else Send(s.mem.value)))
  {
  }

  // --------------------------------------------------------- no lost wakeup

  /** Nobody has seen a counter value that is yet to come, and a parked handler
      for which something was inserted since it read either sees the counter ahead
      of it or is about to. */
  ghost predicate Wakeable(s: State, h: Handler) {
    match h.pc
    case Reading(seen) => seen <= s.version
    case Parked(seen, at) =>
      && seen <= s.version && at <= s.inserts
      && (at < s.inserts ==> seen < s.version || s.put.Inserted?)
      && (at == s.inserts ==> Reply(s.mem, h).None?)
    case Answered(_) => true
  }

  ghost predicate AllWakeable(s: State) {
    forall id | id in s.handlers :: Wakeable(s, s.handlers[id])
  }

  lemma WakeableStep(s: State, l: Label)
    requires AllWakeable(s) && Enabled(s, l)
    ensures AllWakeable(Next(s, l))
  {
    var n := Next(s, l);
    forall id | id in n.handlers ensures Wakeable(n, n.handlers[id]) {
      if id in s.handlers {
        assert Wakeable(s, s.handlers[id]);
      }
    }
  }

  /** A handler that is parked although the store has an answer for it can run, or
      the put that stored the answer has yet to bump the counter. */
  lemma NoLostWakeup(s: State, id: nat)
    requires AllWakeable(s) && id in s.handlers && s.handlers[id].pc.Parked?
    ensures Reply(s.mem, s.handlers[id]).Some? ==> Enabled(s, Wake(id)) || s.put.Inserted?
    ensures s.handlers[id].pc.at < s.inserts ==> Enabled(s, Wake(id)) || s.put.Inserted?
  {
    assert Wakeable(s, s.handlers[id]);
  }

  /** So the bump that completes a put leaves every parked handler runnable, and
      running one for which the store has an answer delivers that answer. */
  lemma CompletedPutWakes(s: State, id: nat)
    requires AllWakeable(s) && Enabled(s, Bump)
    requires id in Next(s, Bump).handlers && Next(s, Bump).handlers[id].pc.Parked?
    ensures var n := Next(s, Bump);
      && Enabled(n, Wake(id)) && Enabled(Next(n, Wake(id)), Read(id))
      && var answered := Next(Next(n, Wake(id)), Read(id)).handlers[id].pc;
         match Reply(n.mem, n.handlers[id])
         case Some(a) => answered == Answered(a)
         case None => answered == Parked(n.version, n.inserts)
  {
    assert Wakeable(s, s.handlers[id]);
  }

  // -------------------------------------------------------------------- runs

  datatype Run = Run(states: seq<State>, labels: seq<Label>)

  ghost predicate IsRun(r: Run) {
    && |r.states| == |r.labels| + 1
    && r.states[0].handlers == map[] && Numbered(r.states[0])
    && forall i | 0 <= i < |r.labels| ::
         Enabled(r.states[i], r.labels[i]) && r.states[i + 1] == Next(r.states[i], r.labels[i])
  }

  lemma {:induction false} AlwaysWakeable(r: Run, i: nat)
    requires IsRun(r) && i < |r.states|
    ensures AllWakeable(r.states[i])
  {
    if i > 0 {
      AlwaysWakeable(r, i - 1);
      WakeableStep(r.states[i - 1], r.labels[i - 1]);
    }
  }

  /** No run strands a handler: parked with something to send, or with anything
      inserted since it read, it is runnable or a bump is due. */
  lemma NobodyIsStranded(r: Run, i: nat, id: nat)
    requires IsRun(r) && i < |r.states| && id in r.states[i].handlers && r.states[i].handlers[id].pc.Parked?
    ensures var s := r.states[i];
      Reply(s.mem, s.handlers[id]).Some? || s.handlers[id].pc.at < s.inserts ==>
        Enabled(s, Wake(id)) || Enabled(s, Bump)
  {
    AlwaysWakeable(r, i);
    NoLostWakeup(r.states[i], id);
  }

  // ------------------------------------------------------ what is ever read

  ghost predicate IsPut(s: State, e: Entry) { e.number < |s.puts| && s.puts[e.number] == e.generation }

  /** The disk and a put in flight hold the latest durable put; whatever a handler
      has answered with is no newer than the cache. */
  ghost predicate Numbered(s: State) {
    && (s.disk.Some? ==> IsPut(s, s.disk.value) && s.disk.value.number == |s.puts| - 1)
    && (s.mem.Some? ==> IsPut(s, s.mem.value))
    && (s.put.Renamed? ==> IsPut(s, s.put.entry) && s.put.entry.number == |s.puts| - 1)
    && (forall id | id in s.handlers :: NumberedAnswer(s, s.handlers[id]))
  }

  ghost predicate NumberedAnswer(s: State, h: Handler) {
    h.pc.Answered? && h.pc.answer.Send? ==>
      && var e := h.pc.answer.entry;
         IsPut(s, e) && (s.mem.Some? ==> e.number <= s.mem.value.number) && h.known != Some(e.generation)
         && h.uid == e.uid
  }

  /** The cache never goes back: after any step it holds no older put than before,
      restarts included. */
  lemma NumberedStep(s: State, l: Label)
    requires Numbered(s) && Enabled(s, l)
    ensures Numbered(Next(s, l)) && s.puts <= Next(s, l).puts
    ensures s.mem.Some? && Next(s, l).mem.Some? ==> s.mem.value.number <= Next(s, l).mem.value.number
    ensures s.mem.None? && Next(s, l).mem.Some? ==> Next(s, l).mem.value.number == |s.puts| - 1
  {
    var n := Next(s, l);
    forall id | id in n.handlers ensures NumberedAnswer(n, n.handlers[id]) {
      if id in s.handlers {
        assert NumberedAnswer(s, s.handlers[id]);
      }
    }
  }

  /** What a put does, step by step: its rename makes it the last durable put, its
      insert makes it what is read, and its bump wakes. */
  lemma PutServes(s: State, generation: string, uid: string)
    requires s.put.NoPut?
    ensures var e := Entry(generation, uid, |s.puts|);
      var renamed := Next(s, Rename(generation, uid));
      var inserted := Next(renamed, Insert);
      var bumped := Next(inserted, Bump);
      && renamed.disk == Some(e) && renamed.puts == s.puts + [generation] && renamed.mem == s.mem
      && inserted.disk == inserted.mem == Some(e) && inserted.inserts == s.inserts + 1
      && bumped.disk == bumped.mem == Some(e) && bumped.put.NoPut? && bumped.version == s.version + 1
      && bumped.handlers == s.handlers
  {
  }

  /** A restart serves the last durable put again, unless its file was removed,
      whether or not its call ever came to cache it. */
  lemma RestartServes(r: Run, i: nat)
    requires IsRun(r) && i < |r.labels| && r.labels[i].Restart? && r.states[i].disk.Some?
    ensures var n := r.states[i + 1];
      && n.mem.Some? && n.mem == n.disk && n.put.NoPut? && n.puts == r.states[i].puts != []
      && n.mem.value.number == |n.puts| - 1 && n.mem.value.generation == n.puts[|n.puts| - 1]
  {
    AlwaysNumbered(r, i);
  }

  lemma {:induction false} AlwaysNumbered(r: Run, i: nat)
    requires IsRun(r) && i < |r.states|
    ensures Numbered(r.states[i])
  {
    if i > 0 {
      AlwaysNumbered(r, i - 1);
      NumberedStep(r.states[i - 1], r.labels[i - 1]);
    }
  }
}
