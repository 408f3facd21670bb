/** The synthetic watch stream: poll, diff against the last snapshot, emit the
    difference. Replaying the stream gives back every snapshot. */
module Watch {
  import opened Prelude
  import opened Substrate

  datatype Actor = Actor(
    name: string, atespace: string, template: Option<string>, state: ActorState, workerPod: string)

  datatype DriverSandbox = DriverSandbox(
    id: string, name: string, namespace: string, workspace: string, instanceId: string,
    conditions: seq<Condition>, deleting: bool)

  /** An actor as the gateway sees it. Its gateway name comes from its bundle; an
      actor without one shows under its id. */
  function ActorToDriverSandbox(a: Actor, names: map<string, string>, stopped: set<string>): DriverSandbox {
    DriverSandbox(a.name, if a.name in names then names[a.name] else a.name, a.atespace, a.atespace, a.workerPod,
                  ActorStateConditions(a.state, a.name in stopped), a.state == Deleting)
  }

  type Snapshot = map<string, DriverSandbox>

  /** Every sandbox is filed under its own id. */
  ghost predicate Keyed(m: Snapshot) { forall id | id in m :: m[id].id == id }

  /** The snapshot one poll makes of its actors; a later actor of the same name wins. */
  function SnapshotOf(actors: seq<Actor>, names: map<string, string>, stopped: set<string>): (m: Snapshot)
    ensures Keyed(m)
  {
    if actors == [] then map[]
    else
      var last := ActorToDriverSandbox(actors[|actors| - 1], names, stopped);
      SnapshotOf(actors[..|actors| - 1], names, stopped)[last.id := last]
  }

  /** Actor a's entry in a snapshot, field by field. */
  ghost predicate Describes(d: DriverSandbox, a: Actor, names: map<string, string>, marked: bool) {
    && d.id == a.name && d.name == (if a.name in names then names[a.name] else a.name)
    && d.namespace == a.atespace && d.workspace == a.atespace && d.instanceId == a.workerPod
    && (d.deleting <==> a.state == Deleting)
    && (marked ==> SUBSTRATE_CHECKPOINT_ROW !in d.conditions)
    && (marked && a.state in {Suspended, Running, Resuming, Reverting} ==> d.conditions == STOPPED_ROWS)
    && (marked && a.state == Suspending ==> d.conditions == STOP_IN_FLIGHT_ROWS)
    && (SUBSTRATE_CHECKPOINT_ROW in d.conditions <==> !marked && a.state in {Suspending, Suspended})
    && (Condition("Ready", "True", "ContainerRunning") in d.conditions <==> !marked && a.state == Running)
  }

  predicate LastOfName(actors: seq<Actor>, i: nat) {
    i < |actors| && forall j | i < j < |actors| :: actors[j].name != actors[i].name
  }

  /** The snapshot has an entry for exactly the listed names, and each describes the
      last listed actor of that name and its mark. */
  ghost predicate Tells(view: Snapshot, actors: seq<Actor>, names: map<string, string>, stopped: set<string>) {
    && (forall n :: n in view <==> exists i | 0 <= i < |actors| :: actors[i].name == n)
    && forall i: nat | LastOfName(actors, i) ::
         actors[i].name in view && Describes(view[actors[i].name], actors[i], names, actors[i].name in stopped)
  }

  lemma EntryDescribes(a: Actor, names: map<string, string>, stopped: set<string>)
    ensures Describes(ActorToDriverSandbox(a, names, stopped), a, names, a.name in stopped)
    ensures ActorToDriverSandbox(a, names, stopped).id == a.name
  {
    RowsTell(a.state, a.name in stopped);
  }

  /** One actor more. */
  lemma TellsOneMore(view: Snapshot, actors: seq<Actor>, last: Actor, d: DriverSandbox,
                     names: map<string, string>, stopped: set<string>)
    requires Tells(view, actors, names, stopped) && Describes(d, last, names, last.name in stopped)
    ensures Tells(view[last.name := d], actors + [last], names, stopped)
  {
    hide Describes;
    var more, after := actors + [last], view[last.name := d];
    forall i: nat | LastOfName(more, i)
      ensures more[i].name in after && Describes(after[more[i].name], more[i], names, more[i].name in stopped)
    {
      if i < |actors| {
        assert more[i] == actors[i] && more[|actors|] == last;
        assert LastOfName(actors, i) by {
          assert forall j | i < j < |actors| :: more[j] == actors[j];
        }
      }
    }
    forall n ensures n in after <==> exists i | 0 <= i < |more| :: more[i].name == n {
      if n in view {
        var i :| 0 <= i < |actors| && actors[i].name == n;
        assert more[i].name == n;
      }
      assert more[|actors|].name == last.name;
      if i :| 0 <= i < |more| && more[i].name == n && n != last.name {
        assert actors[i].name == n;
      }
    }
  }

  lemma TellsNothing(names: map<string, string>, stopped: set<string>)
    ensures Tells(map[], [], names, stopped)
  {
  }

  lemma {:induction false} SnapshotTells(actors: seq<Actor>, names: map<string, string>, stopped: set<string>)
    ensures Tells(SnapshotOf(actors, names, stopped), actors, names, stopped)
  {
    hide Tells, Describes, ActorToDriverSandbox;
    if actors == [] {
      TellsNothing(names, stopped);
    } else {
      var front, last := actors[..|actors| - 1], actors[|actors| - 1];
      var entry := ActorToDriverSandbox(last, names, stopped);
      SnapshotTells(front, names, stopped);
      EntryDescribes(last, names, stopped);
      TellsOneMore(SnapshotOf(front, names, stopped), front, last, entry, names, stopped);
      assert actors == front + [last];
    }
  }

  datatype Event = Updated(sandbox: DriverSandbox) | Deleted(sandboxId: string)

  function Id(e: Event): string { if e.Updated? then e.sandbox.id else e.sandboxId }

  /** What a consumer of the stream does with an event. */
  function Apply(view: Snapshot, e: Event): Snapshot {
    match e
    case Updated(s) => view[s.id := s]
    case Deleted(id) => view - {id}
  }

  function Replay(view: Snapshot, events: seq<Event>): Snapshot {
    if events == [] then view else Apply(Replay(view, events[..|events| - 1]), events[|events| - 1])
  }

  lemma ReplayAppend(view: Snapshot, events: seq<Event>, e: Event)
    ensures Replay(view, events + [e]) == Apply(Replay(view, events), e)
  {
    assert (events + [e])[..|events|] == events;
  }

  lemma {:induction false} ReplayConcat(view: Snapshot, a: seq<Event>, b: seq<Event>)
    ensures Replay(view, a + b) == Replay(Replay(view, a), b)
  {
    if b == [] {
      assert a + b == a;
    } else {
      var front, last := b[..|b| - 1], b[|b| - 1];
      ReplayConcat(view, a, front);
      assert a + b == (a + front) + [last];
      ReplayAppend(view, a + front, last);
    }
  }

  // ------------------------------------------------------------------ diffs

  /** What has to be said about id to get from one snapshot to the other. */
  function Needed(prior: Snapshot, current: Snapshot, id: string): Option<Event> {
    if id !in current then if id in prior then Some(Deleted(id)) else None
    else if id in prior && prior[id] == current[id] then None
    else Some(Updated(current[id]))
  }

  ghost predicate OneEventPerId(events: seq<Event>) {
    forall i, j | 0 <= i < j < |events| :: Id(events[i]) != Id(events[j])
  }

  /** Every event is needed, and none is repeated. */
  ghost predicate PartOfDiff(prior: Snapshot, current: Snapshot, events: seq<Event>) {
    && OneEventPerId(events)
    && forall i | 0 <= i < |events| :: Needed(prior, current, Id(events[i])) == Some(events[i])
  }

  /** And nothing needed is left out. */
  ghost predicate IsDiff(prior: Snapshot, current: Snapshot, events: seq<Event>) {
    && PartOfDiff(prior, current, events)
    && forall id | Needed(prior, current, id).Some? :: Needed(prior, current, id).value in events
  }

  /** Part-way through a poll's events every id shows its prior or its current
      value, and which one is a matter of whether its event has come. */
  lemma {:induction false} PartialReplay(prior: Snapshot, current: Snapshot, events: seq<Event>, id: string)
    requires PartOfDiff(prior, current, events)
    ensures var view := Replay(prior, events);
      var source := if exists i | 0 <= i < |events| :: Id(events[i]) == id then current else prior;
      (id in view <==> id in source) && (id in view ==> view[id] == source[id])
  {
    if events != [] {
      var front, last := events[..|events| - 1], events[|events| - 1];
      PartialReplay(prior, current, front, id);
      assert Needed(prior, current, Id(last)) == Some(last);
      if i :| 0 <= i < |front| && Id(front[i]) == id {
        assert Id(events[i]) == id && Id(last) != id;
      }
      assert forall i | 0 <= i < |front| :: events[i] == front[i];
    }
  }

  /** A poll's events, all of them and in any order, turn the prior snapshot into
      the current one. */
  lemma DiffReplays(prior: Snapshot, current: Snapshot, events: seq<Event>)
    requires IsDiff(prior, current, events) && Keyed(current)
    ensures Replay(prior, events) == current
  {
    var view := Replay(prior, events);
    forall id
      ensures id in view <==> id in current
      ensures id in current ==> view[id] == current[id]
    {
      PartialReplay(prior, current, events, id);
      if Needed(prior, current, id).Some? {
        var i :| 0 <= i < |events| && events[i] == Needed(prior, current, id).value;
        assert Id(events[i]) == id;
      }
    }
  }

  /** Only a first poll could go without deletions, and it never needs one: the
      guard on them changes nothing. */
  lemma FirstPollDeletesNothing(current: Snapshot, events: seq<Event>)
    requires PartOfDiff(map[], current, events)
    ensures forall e | e in events :: e.Updated?
  {
    forall e | e in events ensures e.Updated? {
      var i :| 0 <= i < |events| && events[i] == e;
      assert Needed(map[], current, Id(events[i])) == Some(events[i]);
    }
  }

  // --------------------------------------------------------------- the loop

  /** The stream so far replays to the last snapshot, and what had been sent when
      any earlier poll was done replays to that poll's. */
  ghost predicate Faithful(sent: seq<Event>, prior: Snapshot, polls: seq<(Snapshot, nat)>) {
    && Replay(map[], sent) == prior
    && forall p | p in polls :: p.1 <= |sent| && Replay(map[], sent[..p.1]) == p.0
  }

  lemma FaithfulPoll(sent: seq<Event>, prior: Snapshot, polls: seq<(Snapshot, nat)>, current: Snapshot,
                     events: seq<Event>)
    requires Faithful(sent, prior, polls) && IsDiff(prior, current, events) && Keyed(current)
    ensures Faithful(sent + events, current, polls + [(current, |sent + events|)])
  {
    DiffReplays(prior, current, events);
    ReplayConcat(map[], sent, events);
    var all := sent + events;
    assert all[..|all|] == all;
    forall p | p in polls ensures all[..p.1] == sent[..p.1] {
    }
  }

  /** One stream. `sent` is what went into the channel, `polls` what each
      successful poll saw and how much had been sent when it was done. */
  class Watcher {
    var prior: Snapshot
    var bootstrapped: bool
    var sent: seq<Event>
    ghost var polls: seq<(Snapshot, nat)>

    constructor ()
      ensures Valid() && sent == [] && polls == []
    {
      prior, bootstrapped, sent, polls := map[], false, [], [];
    }

    /** Replaying what had been sent after any poll gives that poll's snapshot. */
    ghost predicate Valid()
      reads this
    {
      Faithful(sent, prior, polls) && (!bootstrapped ==> prior == map[])
    }

    /** One turn of the loop on the actors listed, None when the listing failed.
        The receiver takes `room` more events before it goes away. */
    method Poll(listed: Option<seq<Actor>>, names: map<string, string>, stopped: set<string>, room: nat)
      returns (open: bool, respawn: seq<string>)
      requires Valid()
      modifies this
      ensures old(sent) <= sent && |sent| <= |old(sent)| + room
      ensures listed.None? ==> open && respawn == [] && sent == old(sent) && polls == old(polls) && Valid()
      ensures listed.Some? ==>
                var current := SnapshotOf(listed.value, names, stopped);
                var events := sent[|old(sent)|..];
                && PartOfDiff(old(prior), current, events)
                && (open ==> Valid() && IsDiff(old(prior), current, events) && prior == current
                             && polls == old(polls) + [(current, |sent|)]
                             && Tells(prior, listed.value, names, stopped))
      ensures listed.Some? ==> forall n :: n in respawn <==>
                n in stopped && exists i | 0 <= i < |listed.value| ::
                                  listed.value[i].name == n && listed.value[i].state == Running
    {
      if listed.None? {
        return true, [];
      }
      respawn := ToRespawn(listed.value, stopped);
      var current := Collect(listed.value, names, stopped);
      SnapshotTells(listed.value, names, stopped);
      hide PartOfDiff, IsDiff, SnapshotOf, Faithful, Tells;
      var events: seq<Event>;
      events, open := Emit(current, room);
      assert sent[|old(sent)|..] == events;
      if open {
        FaithfulPoll(old(sent), prior, polls, current, events);
        prior, bootstrapped, polls := current, true, polls + [(current, |sent|)];
      }
    }

    /** Send the difference to the current snapshot, until the receiver goes away. */
    method Emit(current: Snapshot, room: nat) returns (events: seq<Event>, open: bool)
      requires Keyed(current) && (!bootstrapped ==> prior == map[])
      modifies this`sent
      ensures sent == old(sent) + events && |events| <= room
      ensures PartOfDiff(prior, current, events) && (open ==> IsDiff(prior, current, events))
    {
      events, open := [], true;
      assert PartOfDiff(prior, current, []);
      hide PartOfDiff, IsDiff;
      if bootstrapped {
        events, open := SendDeleted(current, room);
      }
      if open {
        ghost var deleted := events;
        events, open := SendChanged(current, events, room);
        assert events == deleted + events[|deleted|..];
      }
    }

    /** A deletion for every actor that is gone, in the order the map yields them. */
    method SendDeleted(current: Snapshot, room: nat) returns (events: seq<Event>, open: bool)
      requires Keyed(current)
      modifies this`sent
      ensures sent == old(sent) + events && |events| <= room && PartOfDiff(prior, current, events)
      ensures open ==> forall id | id in prior && id !in current :: Deleted(id) in events
      ensures forall e | e in events :: e.Deleted?
    {
      events := [];
      var todo := prior.Keys - current.Keys;
      assert PartOfDiff(prior, current, []);
      hide PartOfDiff;
      while todo != {}
        invariant todo <= prior.Keys - current.Keys && sent == old(sent) + events && |events| <= room
        invariant PartOfDiff(prior, current, events)
        invariant forall id | id in prior && id !in current :: (id in todo <==> Deleted(id) !in events)
        invariant forall e | e in events :: e.Deleted?
      {
        var id :| id in todo;
        todo := todo - {id};
        if |events| == room {
          return events, false;
        }
        AddEvent(prior, current, events, Deleted(id));
        events, sent := events + [Deleted(id)], sent + [Deleted(id)];
      }
      open := true;
    }

    /** Then every actor that is new or changed, likewise. */
    method SendChanged(current: Snapshot, deleted: seq<Event>, room: nat) returns (events: seq<Event>, open: bool)
      requires Keyed(current) && PartOfDiff(prior, current, deleted) && |deleted| <= room
      requires forall e | e in deleted :: e.Deleted?
      requires forall id | id in prior && id !in current :: Deleted(id) in deleted
      modifies this`sent
      ensures deleted <= events && sent == old(sent) + events[|deleted|..] && |events| <= room
      ensures PartOfDiff(prior, current, events) && (open ==> IsDiff(prior, current, events))
    {
      events := deleted;
      var todo := current.Keys;
      hide PartOfDiff;
      while todo != {}
        invariant todo <= current.Keys && deleted <= events && |events| <= room
        invariant sent == old(sent) + events[|deleted|..]
        invariant PartOfDiff(prior, current, events)
        invariant forall id | id in todo :: Updated(current[id]) !in events
        invariant forall id | id in current && id !in todo && Needed(prior, current, id).Some? ::
                    Updated(current[id]) in events
      {
        var id :| id in todo;
        todo := todo - {id};
        if id !in prior || prior[id] != current[id] {
          if |events| == room {
            return events, false;
          }
          AddEvent(prior, current, events, Updated(current[id]));
          events, sent := events + [Updated(current[id])], sent + [Updated(current[id])];
        }
      }
      open := true;
    }
  }

  lemma AddEvent(prior: Snapshot, current: Snapshot, events: seq<Event>, e: Event)
    requires PartOfDiff(prior, current, events) && Needed(prior, current, Id(e)) == Some(e) && e !in events
    ensures PartOfDiff(prior, current, events + [e])
  {
    forall i | 0 <= i < |events| ensures Id(events[i]) != Id(e) {
      assert Needed(prior, current, Id(events[i])) == Some(events[i]);
    }
  }

  /** The listed actor is up although the gateway stopped it. */
  predicate Resumed(actors: seq<Actor>, stopped: set<string>, n: string) {
    n in stopped && exists i | 0 <= i < |actors| :: actors[i].name == n && actors[i].state == Running
  }

  method ToRespawn(actors: seq<Actor>, stopped: set<string>) returns (names: seq<string>)
    ensures forall n :: n in names <==>
              n in stopped && exists i | 0 <= i < |actors| :: actors[i].name == n && actors[i].state == Running
  {
    names := [];
    for i := 0 to |actors|
      invariant forall n :: n in names <==> Resumed(actors[..i], stopped, n)
    {
      assert actors[..i + 1] == actors[..i] + [actors[i]];
      if actors[i].state == Running && actors[i].name in stopped {
        names := names + [actors[i].name];
      }
    }
    assert actors[..|actors|] == actors;
  }

  method Collect(actors: seq<Actor>, names: map<string, string>, stopped: set<string>) returns (current: Snapshot)
    ensures current == SnapshotOf(actors, names, stopped) && Tells(current, actors, names, stopped)
  {
    SnapshotTells(actors, names, stopped);
    hide Tells;
    current := map[];
    for i := 0 to |actors|
      invariant current == SnapshotOf(actors[..i], names, stopped)
    {
      assert actors[..i + 1][..i] == actors[..i];
      var sandbox := ActorToDriverSandbox(actors[i], names, stopped);
      current := current[sandbox.id := sandbox];
    }
    assert actors[..|actors|] == actors;
  }
}
