/** The store, the launch endpoint and the two launchers of one actor together:
    what the gateway puts is what the roles adopt, in that order, with the driver
    restarting and connections failing at any time. */
module EndToEnd {
  import opened Prelude
  import E = LaunchEndpoint
  import L = Launcher

  /** `request` is the poll the supervisor launcher is blocked in, and `numbers`
      the place among the puts of each generation it has received. */
  datatype State = State(ep: E.State, ln: L.State, request: Option<nat>, numbers: seq<nat>)

  datatype Label =
    | Endpoint(e: E.Label)      // the driver and everybody else's requests
    | Roles(l: L.Label)         // the launchers' own steps
    | Fetch(id: nat)            // the supervisor launcher polls
    | Deliver                   // its answer arrives
    | GiveUp                    // or a timeout or a broken connection does

  predicate Enabled(s: State, l: Label) {
    match l
    case Endpoint(e) =>
      && E.Enabled(s.ep, e)
      && (e.Request? || e.Hangup? ==> s.request != Some(e.id))
    case Roles(m) => !m.Receive? && L.Enabled(s.ln, m) && (m.Sup? && s.ln.sup.pc.Poll? ==> s.request.None?)
    case Fetch(id) => s.ln.sup.pc.Poll? && s.request.None? && id !in s.ep.handlers
    case Deliver =>
      s.request.Some? && s.request.value in s.ep.handlers && s.ep.handlers[s.request.value].pc.Answered?
    case GiveUp => s.request.Some?
  }

  /** One step of the whole, for the actor incarnation `me`. */
  function Next(s: State, l: Label, me: string): State
    requires Enabled(s, l)
  {
    match l
    case Endpoint(e) => s.(ep := E.Next(s.ep, e))
    case Roles(m) => s.(ln := L.Next(s.ln, m))
    case Fetch(id) => s.(ep := E.Next(s.ep, E.Request(id, me, s.ln.sup.running)), request := Some(id))
    case Deliver =>
      var t := s.(ep := E.Next(s.ep, E.Hangup(s.request.value)), request := None);
      var a := s.ep.handlers[s.request.value].pc.answer;
      // the launcher compares once more before it applies
      if a.Send? && L.Enabled(s.ln, L.Receive(a.entry.generation)) then
        t.(ln := L.Next(s.ln, L.Receive(a.entry.generation)), numbers := s.numbers + [a.entry.number])
      else t
    case GiveUp => s.(ep := s.ep.(handlers := s.ep.handlers - {s.request.value}), request := None)
  }

  // -------------------------------------------------------------- invariant

  ghost predicate Increasing(ns: seq<nat>) { forall i, j | 0 <= i < j < |ns| :: ns[i] < ns[j] }

  /** The items of `a` are the items of `b` at the places `at`, in that order. */
  ghost predicate Picks(a: seq<string>, b: seq<string>, at: seq<nat>) {
    && |at| == |a| && Increasing(at)
    && forall i | 0 <= i < |a| :: at[i] < |b| && a[i] == b[at[i]]
  }

  /** Nothing the launcher could still be given is older than what it has. */
  ghost predicate NotOlder(s: State, e: E.Entry) {
    forall i | 0 <= i < |s.numbers| :: s.numbers[i] <= e.number
  }

  ghost predicate RequestSound(s: State) {
    s.request.Some? ==>
      && s.ln.sup.pc.Poll?
      && (s.request.value in s.ep.handlers ==>
            var h := s.ep.handlers[s.request.value];
            && h.known == s.ln.sup.running
            && (h.pc.Answered? && h.pc.answer.Send? ==> NotOlder(s, h.pc.answer.entry)))
  }

  ghost predicate Inv(s: State) {
    && E.Numbered(s.ep) && L.Inv(s.ln) && RequestSound(s)
    && Picks(s.ln.sup.received, s.ep.puts, s.numbers)
    && (s.ep.mem.Some? ==> NotOlder(s, s.ep.mem.value))
  }

  lemma EndpointStep(s: State, e: E.Label, me: string)
    requires Inv(s) && Enabled(s, Endpoint(e))
    ensures Inv(Next(s, Endpoint(e), me))
  {
    hide L.Inv, L.Enabled;
    E.NumberedStep(s.ep, e);
    var n := E.Next(s.ep, e);
    if n.mem.Some? {
      forall i | 0 <= i < |s.numbers| ensures s.numbers[i] <= n.mem.value.number {
      }
    }
  }

  /** What the poll is answered with is newer than everything received before. */
  lemma DeliveredIsNewer(s: State)
    requires Inv(s) && Enabled(s, Deliver)
    requires var a := s.ep.handlers[s.request.value].pc.answer;
      a.Send? && L.Enabled(s.ln, L.Receive(a.entry.generation))
    ensures var e := s.ep.handlers[s.request.value].pc.answer.entry;
      forall i | 0 <= i < |s.numbers| :: s.numbers[i] < e.number
  {
    var h := s.ep.handlers[s.request.value];
    assert E.NumberedAnswer(s.ep, h);
    var e := h.pc.answer.entry;
    var last := |s.numbers| - 1;
    if last >= 0 {
      assert s.ln.sup.running == Some(s.ln.sup.received[last]);
      assert s.numbers[last] < e.number;
    }
  }

  lemma NotReceivedBefore(s: State, e: E.Entry)
    requires Picks(s.ln.sup.received, s.ep.puts, s.numbers) && L.Distinct(s.ep.puts) && E.IsPut(s.ep, e)
    requires forall i | 0 <= i < |s.numbers| :: s.numbers[i] < e.number
    ensures e.generation !in s.ln.sup.received
  {
    forall i | 0 <= i < |s.ln.sup.received| ensures s.ln.sup.received[i] != e.generation {
      assert s.ep.puts[s.numbers[i]] != s.ep.puts[e.number];
    }
  }

  lemma DeliverStep(s: State, me: string)
    requires Inv(s) && Enabled(s, Deliver) && L.Distinct(s.ep.puts)
    ensures Inv(Next(s, Deliver, me))
  {
    hide L.Inv;
    var h := s.ep.handlers[s.request.value];
    assert E.NumberedAnswer(s.ep, h);
    E.NumberedStep(s.ep, E.Hangup(s.request.value));
    if h.pc.answer.Send? {
      var g := h.pc.answer.entry.generation;
      if L.Enabled(s.ln, L.Receive(g)) {
        DeliveredIsNewer(s);
        NotReceivedBefore(s, h.pc.answer.entry);
        L.InvStep(s.ln, L.Receive(g));
      }
    }
  }

  lemma OtherStep(s: State, l: Label, me: string)
    requires Inv(s) && Enabled(s, l) && (l.Roles? || l.Fetch? || l.GiveUp?)
    ensures Inv(Next(s, l, me))
  {
    match l
    case Roles(m) =>
      L.InvStep(s.ln, m);
      RolesFrame(s.ln, m);
    case Fetch(id) => E.NumberedStep(s.ep, E.Request(id, me, s.ln.sup.running));
    case GiveUp =>
      if s.request.value in s.ep.handlers {
        E.NumberedStep(s.ep, E.Hangup(s.request.value));
      }
    case _ =>
  }

  /** Only a delivery adds to what was received, and a role that waits for its
      poll keeps running what it runs. */
  lemma RolesFrame(s: L.State, m: L.Label)
    requires L.Enabled(s, m) && !m.Receive?
    ensures L.Next(s, m).sup.received == s.sup.received
    ensures s.sup.pc.Poll? && !m.Sup? ==> L.Next(s, m).sup.pc.Poll? && L.Next(s, m).sup.running == s.sup.running
  {
  }

  // -------------------------------------------------------------------- runs

  datatype Run = Run(states: seq<State>, labels: seq<Label>)

  /** A run of one activation: a store and an endpoint in any state the driver can
      be in, fresh launchers, and no generation put twice. */
  ghost predicate IsRun(r: Run, me: string) {
    && |r.states| == |r.labels| + 1
    && E.Numbered(r.states[0].ep) && r.states[0].ep.handlers == map[]
    && r.states[0].ln == L.FRESH && r.states[0].request.None? && r.states[0].numbers == []
    && (forall i | 0 <= i < |r.states| :: L.Distinct(r.states[i].ep.puts))
    && forall i | 0 <= i < |r.labels| ::
         Enabled(r.states[i], r.labels[i]) && r.states[i + 1] == Next(r.states[i], r.labels[i], me)
  }

  lemma {:induction false} InvAlways(r: Run, me: string, i: nat)
    requires IsRun(r, me) && i < |r.states|
    ensures Inv(r.states[i])
  {
    if i > 0 {
      InvAlways(r, me, i - 1);
      var s, l := r.states[i - 1], r.labels[i - 1];
      hide Next, E.Next, L.Next, Inv;
      match l {
        case Endpoint(e) => EndpointStep(s, e, me);
        case Deliver => DeliverStep(s, me);
        case _ => OtherStep(s, l, me);
      }
    } else {
      Start(r.states[0]);
    }
  }

  lemma Start(s: State)
    requires E.Numbered(s.ep) && s.ln == L.FRESH && s.request.None? && s.numbers == []
    ensures Inv(s)
  {
  }

  lemma PicksCompose(a: seq<string>, b: seq<string>, c: seq<string>, at: seq<nat>, bt: seq<nat>) returns (ct: seq<nat>)
    requires Picks(a, b, at) && Picks(b, c, bt)
    ensures Picks(a, c, ct)
  {
    ct := seq(|a|, i requires 0 <= i < |a| => bt[at[i]]);
  }

  /** End to end: the generations the supervisor launcher publishes are picked, in
      order, from the durable puts, the ones the sandbox launcher runs are picked,
      in order, from those published, and so from the puts. Neither ever goes back
      to an older generation. */
  lemma GenerationsInOrder(r: Run, me: string, i: nat)
    returns (published: seq<nat>, adopted: seq<nat>, overall: seq<nat>)
    requires IsRun(r, me) && i < |r.states|
    ensures var s := r.states[i];
      && Picks(s.ln.sup.published, s.ep.puts, published)
      && Picks(s.ln.sb.adopted, s.ln.sup.published, adopted)
      && Picks(s.ln.sb.adopted, s.ep.puts, overall)
  {
    InvAlways(r, me, i);
    var s := r.states[i];
    var p := s.ln.sup.published;
    assert p <= s.ln.sup.received;
    published := s.numbers[..|p|];
    var at := s.ln.sb.adoptedAt;
    adopted := seq(|at|, k requires 0 <= k < |at| && at[k] > 0 => at[k] - 1);
    overall := PicksCompose(s.ln.sb.adopted, p, s.ep.puts, adopted, published);
  }
}
