/** What an operation of StopProtocol amounts to when nothing else runs: the
    closed form of its steps, outcome by outcome. */
module LoneTask {
  import opened Prelude
  import opened Substrate
  import opened StopProtocol

  /** The outcome a step has when the world would let it have `o`. */
  function Resolve(s: State, pc: Pc, o: Outcome): (p: Outcome)
    ensures Possible(s, pc, p)
  {
    if Possible(s, pc, o) then o else if Possible(s, pc, Refused) then Refused else Success
  }

  /** The task takes its next step, if it has not ended. */
  function Then(s: State, o: Outcome): State {
    if 0 in s.tasks then ActNext(s, 0, s.tasks[0], Resolve(s, s.tasks[0], o), 1) else s
  }

  function CheckpointAlone(s: State, get: Outcome, write: Outcome, rpc: Outcome): State {
    Then(Then(Then(Then(s, get), write), Success), rpc)
  }

  function StartAlone(s: State, uid: Outcome, put: Outcome, write: Outcome, rpc: Outcome, again: Outcome): State {
    Then(Then(Then(Then(Then(Then(Then(s, uid), put), write), Success), rpc), again), Success)
  }

  function AgainAlone(s: State, get: Outcome, rpc: Outcome): State { Then(Then(Then(s, Success), get), rpc) }

  function DeleteAlone(s: State, rpc: Outcome, remove: Outcome, write: Outcome): State {
    Then(Then(Then(Then(s, rpc), remove), write), Success)
  }

  function CreateAlone(s: State): State {
    Then(Then(Then(Then(Then(s, Success), Success), Success), Success), Success)
  }

  /** The RPC goes through with that effect: whether or not its answer arrives. */
  predicate Takes(sub: Option<ActorState>, effect: ActorState -> Option<ActorState>, o: Outcome) {
    sub.Some? && effect(sub.value).Some? && o != Refused
  }

  function StopEffect(s: ActorState): Option<ActorState> {
    if s == Crashed then RevertEffect(s) else SuspendEffect(s)
  }

  /** The only task ended with the actor and its marks like this. */
  predicate EndsAs(s: State, sub: Option<ActorState>, disk: bool, mem: bool) {
    0 !in s.tasks && s.sub == sub && s.disk == disk && s.mem == mem
  }

  predicate Stands(s: State, pc: Pc) { 0 in s.tasks && s.tasks[0] == pc }

  lemma CheckpointMarks(s: State, get: Outcome, write: Outcome)
    requires Stands(s, CkGet)
    ensures var z := Then(Then(s, get), write);
      if s.sub.None? || get != Success || write != Success then EndsAs(z, s.sub, s.disk, s.mem)
      else Stands(z, CkMem(s.sub.value)) && z.sub == s.sub && z.disk && z.mem == s.mem
  {
    hide StartNext, AgainNext, ObserverNext, CreateNext, DeleteNext;
  }

  lemma CheckpointActs(s: State, rpc: Outcome)
    requires s.sub.Some? && Stands(s, CkMem(s.sub.value))
    ensures EndsAs(Then(Then(s, Success), rpc),
                   if Takes(s.sub, StopEffect, rpc) then StopEffect(s.sub.value) else s.sub, s.disk, true)
  {
    hide StartNext, AgainNext, ObserverNext, CreateNext, DeleteNext;
  }

  lemma EndedStays(s: State, o: Outcome)
    requires 0 !in s.tasks
    ensures Then(s, o) == s
  {
  }

  lemma CheckpointAloneIs(s: State, get: Outcome, write: Outcome, rpc: Outcome)
    requires Stands(s, CkGet)
    ensures var z := CheckpointAlone(s, get, write, rpc);
      if s.sub.None? || get != Success || write != Success then EndsAs(z, s.sub, s.disk, s.mem)
      else EndsAs(z, if Takes(s.sub, StopEffect, rpc) then StopEffect(s.sub.value) else s.sub, true, true)
  {
    CheckpointMarks(s, get, write);
    var m := Then(Then(s, get), write);
    if 0 in m.tasks {
      CheckpointActs(m, rpc);
    } else {
      EndedStays(m, Success);
    }
    hide Then, Takes;
  }

  /** A start's first four steps, two by two, and its last three. */
  lemma StartStores(s: State, uid: Outcome, put: Outcome)
    requires Stands(s, StUid)
    ensures var z := Then(Then(s, uid), put);
      if s.sub.None? || uid != Success || put != Success then EndsAs(z, s.sub, s.disk, s.mem)
      else Stands(z, StDisk) && z.sub == s.sub && z.disk == s.disk && z.mem == s.mem
  {
    hide CheckpointNext, AgainNext, ObserverNext, CreateNext, DeleteNext;
  }

  lemma StartClears(s: State, write: Outcome)
    requires Stands(s, StDisk)
    ensures var z := Then(Then(s, write), Success);
      if write != Success then EndsAs(z, s.sub, s.disk, s.mem)
      else Stands(z, StRpc) && z.sub == s.sub && !z.disk && !z.mem
  {
    hide CheckpointNext, AgainNext, ObserverNext, CreateNext, DeleteNext;
  }

  lemma StartEnds(s: State, rpc: Outcome, again: Outcome)
    requires s.sub.Some? && Stands(s, StRpc) && !s.disk && !s.mem
    ensures var taken := Takes(s.sub, ResumeEffect, rpc);
      var remarked := !(taken && rpc == Success) && again == Success;
      EndsAs(Then(Then(Then(s, rpc), again), Success),
             if taken then ResumeEffect(s.sub.value) else s.sub, remarked, remarked)
  {
    hide CheckpointNext, AgainNext, ObserverNext, CreateNext, DeleteNext;
  }

  lemma StartAloneIs(s: State, uid: Outcome, put: Outcome, write: Outcome, rpc: Outcome, again: Outcome)
    requires Stands(s, StUid)
    ensures var z := StartAlone(s, uid, put, write, rpc, again);
      if s.sub.None? || uid != Success || put != Success || write != Success then EndsAs(z, s.sub, s.disk, s.mem)
      else
        var taken := Takes(s.sub, ResumeEffect, rpc);
        var remarked := !(taken && rpc == Success) && again == Success;
        EndsAs(z, if taken then ResumeEffect(s.sub.value) else s.sub, remarked, remarked)
  {
    StartStores(s, uid, put);
    var m := Then(Then(s, uid), put);
    if 0 in m.tasks {
      StartClears(m, write);
    } else {
      EndedStays(m, write);
    }
    var n := Then(Then(m, write), Success);
    if 0 in n.tasks {
      StartEnds(n, rpc, again);
    } else {
      EndedStays(n, rpc);
    }
    hide Then, Takes;
  }

  lemma AgainAloneIs(s: State, get: Outcome, rpc: Outcome)
    requires Stands(s, AgCheck)
    ensures var taken := s.mem && s.sub == Some(Running) && get == Success && rpc != Refused;
      EndsAs(AgainAlone(s, get, rpc), if taken then Some(Suspending) else s.sub, s.disk, s.mem)
  {
    hide StartNext, CheckpointNext, ObserverNext, CreateNext, DeleteNext;
  }

  lemma DeleteForgets(s: State, rpc: Outcome, remove: Outcome)
    requires Stands(s, DeRpc)
    ensures var z := Then(Then(s, rpc), remove);
      var sub := if s.sub.Some? && rpc != Refused then Some(Deleting) else s.sub;
      if rpc != Success || remove != Success then EndsAs(z, sub, s.disk, s.mem)
      else Stands(z, DeDisk) && z.sub == sub && z.disk == s.disk && z.mem == s.mem
  {
    hide StartNext, CheckpointNext, ObserverNext, CreateNext, AgainNext;
  }

  lemma DeleteClears(s: State, write: Outcome)
    requires Stands(s, DeDisk)
    ensures var z := Then(Then(s, write), Success);
      EndsAs(z, s.sub, s.disk && write != Success, s.mem && write != Success)
  {
    hide StartNext, CheckpointNext, ObserverNext, CreateNext, AgainNext;
  }

  lemma DeleteAloneIs(s: State, rpc: Outcome, remove: Outcome, write: Outcome)
    requires Stands(s, DeRpc)
    ensures var cleared := rpc == Success && remove == Success && write == Success;
      EndsAs(DeleteAlone(s, rpc, remove, write),
             if s.sub.Some? && rpc != Refused then Some(Deleting) else s.sub, s.disk && !cleared, s.mem && !cleared)
  {
    DeleteForgets(s, rpc, remove);
    var m := Then(Then(s, rpc), remove);
    if 0 in m.tasks {
      DeleteClears(m, write);
    } else {
      EndedStays(m, write);
    }
    hide Then;
  }

  lemma CreateStores(s: State)
    requires Stands(s, CrCreate)
    ensures var z := Then(Then(s, Success), Success);
      Stands(z, CrDisk) && z.sub == (if s.sub.None? then Some(Suspended) else s.sub)
      && z.disk == s.disk && z.mem == s.mem
  {
    hide StartNext, CheckpointNext, ObserverNext, AgainNext, DeleteNext;
  }

  lemma CreateResumes(s: State)
    requires s.sub.Some? && Stands(s, CrDisk)
    ensures var z := Then(Then(Then(s, Success), Success), Success);
      EndsAs(z, if ResumeEffect(s.sub.value).Some? then ResumeEffect(s.sub.value) else s.sub, false, false)
  {
    hide StartNext, CheckpointNext, ObserverNext, AgainNext, DeleteNext;
  }

  /** A create of an actor of its own, nothing failing but perhaps the resume. */
  lemma CreateAloneIs(s: State)
    requires Stands(s, CrCreate)
    ensures var sub := if s.sub.None? then Some(Suspended) else s.sub;
      EndsAs(CreateAlone(s), if ResumeEffect(sub.value).Some? then ResumeEffect(sub.value) else sub, false, false)
  {
    CreateStores(s);
    CreateResumes(Then(Then(s, Success), Success));
    hide Then;
  }
}
