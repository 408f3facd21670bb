/** ensure_ready: create a template unless it is there, then poll it until its
    golden snapshot is taken, has failed, or is given up on. */
module EnsureReady {
  import opened Prelude
  import opened Substrate
  import opened Template

  const SECOND := 1_000_000_000
  const READY_POLL_INTERVAL := 2 * SECOND

  datatype GoldenStatus = GoldenStatus(errorMessage: string, goldenTag: Option<string>)

  /** GetActorTemplate's answer: an error, or the template's status if it has one. */
  datatype Reply = RpcFailed | Found(golden: Option<GoldenStatus>)

  datatype Failure = InvalidSpec(error: SpecError) | Rpc | PhaseFailed(message: string) | Timeout

  predicate Broken(r: Reply) { r.Found? && r.golden.Some? && r.golden.value.errorMessage != "" }

  predicate Ready(r: Reply) {
    r.Found? && r.golden.Some? && r.golden.value.errorMessage == "" && r.golden.value.goldenTag.Some?
  }

  /** The poll settles nothing. */
  predicate Pending(r: Reply) { r.Found? && !Broken(r) && !Ready(r) }

  /** What the server and the clock do in one run: how each RPC comes out, how long
      poll k takes, and by how much the sleep after it overshoots. Times are
      nanoseconds. */
  datatype Behaviour = Behaviour(
    create: Outcome, reply: nat -> Reply, takes: nat -> nat, overshoots: nat -> nat, delete: Outcome)

  /** The time from the first poll's start to the end of poll k. */
  function ElapsedAfter(b: Behaviour, k: nat): nat {
    if k == 0 then b.takes(0)
    else ElapsedAfter(b, k - 1) + READY_POLL_INTERVAL + b.overshoots(k - 1) + b.takes(k)
  }

  /** Poll k is made, and is not the last. */
  predicate GoesOn(b: Behaviour, timeoutSecs: nat, k: nat) {
    Pending(b.reply(k)) && ElapsedAfter(b, k) <= timeoutSecs * SECOND
  }

  /** The polling stops at poll `last`, and with what. */
  ghost predicate StopsAt(b: Behaviour, timeoutSecs: nat, last: nat, r: Result<(), Failure>) {
    && (forall k: nat | k < last :: GoesOn(b, timeoutSecs, k))
    && match r
       case Ok(_) => Ready(b.reply(last))
       case Err(InvalidSpec(_)) => false
       case Err(Rpc) => b.reply(last).RpcFailed?
       case Err(PhaseFailed(m)) =>
         Broken(b.reply(last)) && b.reply(last).golden.value.errorMessage == m
       case Err(Timeout) => Pending(b.reply(last)) && ElapsedAfter(b, last) > timeoutSecs * SECOND
  }

  /** The last poll and its verdict are settled by what the server does. */
  lemma StopsOnce(b: Behaviour, timeoutSecs: nat, i: nat, r: Result<(), Failure>, j: nat, q: Result<(), Failure>)
    requires StopsAt(b, timeoutSecs, i, r) && StopsAt(b, timeoutSecs, j, q)
    ensures i == j && r == q
  {
    assert i < j ==> GoesOn(b, timeoutSecs, i);
    assert j < i ==> GoesOn(b, timeoutSecs, j);
    assert r.Ok? && q.Ok? ==> r.value == q.value;
  }

  lemma {:induction false} PollsTakeTime(b: Behaviour, k: nat)
    ensures ElapsedAfter(b, k) >= k * READY_POLL_INTERVAL
  {
    if k > 0 {
      PollsTakeTime(b, k - 1);
    }
  }

  /** Whatever the server does, no more than timeout/2 + 2 polls. */
  lemma PollsAreBounded(b: Behaviour, timeoutSecs: nat, last: nat)
    requires forall k: nat | k < last :: GoesOn(b, timeoutSecs, k)
    ensures last + 1 <= timeoutSecs / 2 + 2
  {
    if last > 0 {
      assert GoesOn(b, timeoutSecs, last - 1);
      PollsTakeTime(b, last - 1);
    }
  }

  /** A server that never settles and a clock without slack take exactly that many. */
  lemma BoundIsReached(b: Behaviour, timeoutSecs: nat)
    requires forall k :: Pending(b.reply(k)) && b.takes(k) == 0 && b.overshoots(k) == 0
    ensures StopsAt(b, timeoutSecs, timeoutSecs / 2 + 1, Err(Timeout))
  {
    forall k: nat ensures ElapsedAfter(b, k) == k * READY_POLL_INTERVAL {
      NoSlack(b, k);
    }
  }

  lemma {:induction false} NoSlack(b: Behaviour, k: nat)
    requires forall k :: b.takes(k) == 0 && b.overshoots(k) == 0
    ensures ElapsedAfter(b, k) == k * READY_POLL_INTERVAL
  {
    if k > 0 {
      NoSlack(b, k - 1);
    }
  }

  /** Every template of the driver's carries the name its own contents make. */
  ghost predicate WellNamed(
    templates: map<string, ActorTemplate>, atespace: string,
    encode: ActorTemplate -> seq<bv8>, digest: seq<bv8> -> string)
  {
    forall n | n in templates && NAME_PREFIX <= n ::
      && n == NameOf(templates[n], encode, digest)
      && exists s: DriverSandbox, c: Config :: IsFragment(c.fragment) && IsSynthesized(templates[n], n, atespace, s, c)
  }

  /** No template's digest collides with t's. */
  ghost predicate NoCollision(
    templates: map<string, ActorTemplate>, t: ActorTemplate,
    encode: ActorTemplate -> seq<bv8>, digest: seq<bv8> -> string)
  {
    forall n | n in templates :: Apart(Blank(t), Blank(templates[n]), encode, digest)
  }

  /** ate-api-server's templates of one atespace. */
  class TemplateControl {
    const atespace: string
    var templates: map<string, ActorTemplate>
    var polls: nat
    var deletes: nat

    constructor (atespace: string)
      ensures this.atespace == atespace && templates == map[] && polls == 0 && deletes == 0
    {
      this.atespace, templates, polls, deletes := atespace, map[], 0, 0;
    }

    /** `o` says how the call comes out if the name is free. */
    method Create(name: string, t: ActorTemplate, o: Outcome) returns (ok: bool, alreadyExists: bool)
      modifies this`templates
      ensures alreadyExists <==> name in old(templates)
      ensures ok <==> name !in old(templates) && o == Success
      ensures templates == if name in old(templates) || o == Refused then old(templates) else old(templates)[name := t]
    {
      alreadyExists := name in templates;
      ok := !alreadyExists && o == Success;
      if !alreadyExists && o != Refused {
        templates := templates[name := t];
      }
    }

    /** Poll k of the run b describes. */
    method Get(b: Behaviour, k: nat) returns (r: Reply)
      modifies this`polls
      ensures polls == old(polls) + 1 && r == b.reply(k)
    {
      r := b.reply(k);
      polls := polls + 1;
    }

    method Delete(name: string, o: Outcome)
      modifies this`templates, this`deletes
      ensures deletes == old(deletes) + 1
      ensures templates == if o == Refused then old(templates) else old(templates) - {name}
    {
      deletes := deletes + 1;
      if o != Refused {
        templates := templates - {name};
      }
    }

    /** The polling loop. Its result is that of the first poll that does not go on;
        a delete is sent exactly when that poll shows an error message. */
    method PollUntilReady(name: string, timeoutSecs: nat, b: Behaviour) returns (r: Result<(), Failure>)
      modifies this
      ensures 1 <= polls - old(polls) <= timeoutSecs / 2 + 2
      ensures StopsAt(b, timeoutSecs, polls - old(polls) - 1, r)
      ensures var last := b.reply(polls - old(polls) - 1);
        && (r.Ok? <==> last.Found? && last.golden.Some? && last.golden.value.errorMessage == ""
                       && last.golden.value.goldenTag.Some?)
        && (r.Err? && r.error.PhaseFailed? <==>
              last.Found? && last.golden.Some? && last.golden.value.errorMessage != "")
        && (r == Err(Rpc) <==> last.RpcFailed?)
      ensures deletes == old(deletes) + if r.Err? && r.error.PhaseFailed? then 1 else 0
      ensures templates ==
              if deletes > old(deletes) && b.delete != Refused then old(templates) - {name} else old(templates)
    {
      var elapsed, k := 0, 0;
      while true
        invariant deletes == old(deletes) && templates == old(templates) && polls == old(polls) + k
        invariant elapsed == if k == 0 then 0
                             else ElapsedAfter(b, k - 1) + READY_POLL_INTERVAL + b.overshoots(k - 1)
        invariant forall j: nat | j < k :: GoesOn(b, timeoutSecs, j)
        invariant k <= timeoutSecs / 2 + 1
        decreases timeoutSecs / 2 + 2 - k
      {
        elapsed := elapsed + b.takes(k);
        var reply := Get(b, k);
        if reply.RpcFailed? {
          return Err(Rpc);
        }
        if reply.golden.Some? {
          if reply.golden.value.errorMessage != "" {
            Delete(name, b.delete);
            return Err(PhaseFailed(reply.golden.value.errorMessage));
          }
          if reply.golden.value.goldenTag.Some? {
            return Ok(());
          }
        }
        if elapsed > timeoutSecs * SECOND {
          return Err(Timeout);
        }
        PollsAreBounded(b, timeoutSecs, k + 1);
        elapsed := elapsed + READY_POLL_INTERVAL + b.overshoots(k);
        k := k + 1;
      }
    }

    /** Create the template or find it, then poll. Every way out is told apart: no
        poll at all if the spec is bad or the create failed, otherwise what the
        polling comes to; and no other template is touched. */
    method EnsureReady(name: string, s: DriverSandbox, c: Config, timeoutSecs: nat, b: Behaviour)
      returns (r: Result<(), Failure>)
      requires IsFragment(c.fragment)
      modifies this
      ensures 0 <= polls - old(polls) <= timeoutSecs / 2 + 2
      ensures ResourcesFor(s, c).Err? ==> r == Err(InvalidSpec(ResourcesFor(s, c).error))
      ensures polls == old(polls) <==> ResourcesFor(s, c).Err? || (name !in old(templates) && b.create != Success)
      ensures polls == old(polls) && ResourcesFor(s, c).Ok? ==> r == Err(Rpc)
      ensures polls > old(polls) ==> StopsAt(b, timeoutSecs, polls - old(polls) - 1, r)
      ensures deletes == old(deletes) + if r.Err? && r.error.PhaseFailed? then 1 else 0
      ensures ChangedOnly(old(templates), templates, name, s, c)
      ensures name in templates <==>
                && (name in old(templates) || (ResourcesFor(s, c).Ok? && b.create != Refused))
                && (deletes > old(deletes) ==> b.delete == Refused)
    {
      hide IsSynthesized, IsFragment, StopsAt, ResourcesFor;
      var template := Synthesize(name, atespace, s, c);
      if template.Err? {
        return Err(InvalidSpec(template.error));
      }
      var created, alreadyExists := Create(name, template.value, b.create);
      if !created && !alreadyExists {
        return Err(Rpc);
      }
      r := PollUntilReady(name, timeoutSecs, b);
    }

    /** At most the template of that name came or went, and if it came it is the
        one the request makes. */
    ghost predicate ChangedOnly(before: map<string, ActorTemplate>, after: map<string, ActorTemplate>, name: string,
                                s: DriverSandbox, c: Config)
    {
      forall n | n in before || n in after ::
        if n != name then n in before && n in after && before[n] == after[n]
        else n in after ==> if n in before then after[n] == before[n] else IsSynthesized(after[n], n, atespace, s, c)
    }

    lemma StaysWellNamed(before: map<string, ActorTemplate>, after: map<string, ActorTemplate>, name: string,
                         s: DriverSandbox, c: Config, encode: ActorTemplate -> seq<bv8>, digest: seq<bv8> -> string)
      requires WellNamed(before, atespace, encode, digest) && IsFragment(c.fragment)
      requires ChangedOnly(before, after, name, s, c)
      requires forall t | IsSynthesized(t, name, atespace, s, c) :: name == NameOf(t, encode, digest)
      ensures WellNamed(after, atespace, encode, digest)
    {
      hide IsSynthesized, NameOf, IsFragment;
    }

    /** A template that already had the name a request makes is that request's. */
    lemma FoundIsMine(templates: map<string, ActorTemplate>, name: string,
                      s: DriverSandbox, c: Config, mine: ActorTemplate,
                      encode: ActorTemplate -> seq<bv8>, digest: seq<bv8> -> string)
      requires WellNamed(templates, atespace, encode, digest) && NoCollision(templates, mine, encode, digest)
      requires IsFragment(c.fragment) && IsSynthesized(mine, name, atespace, s, c)
      requires name == NameOf(mine, encode, digest) && name in templates
      ensures templates[name] == mine
    {
      assert NAME_PREFIX <= name;
      hide IsSynthesized, NameOf, IsFragment, NoCollision;
      var s': DriverSandbox, c': Config :|
        IsFragment(c'.fragment) && IsSynthesized(templates[name], name, atespace, s', c');
      ExistingIsIdentical(mine, s, c, templates[name], s', c', name, atespace, encode, digest);
    }

    /** So whatever ensure_ready leaves under that name is the request's own. */
    lemma EndsWithMine(before: map<string, ActorTemplate>, after: map<string, ActorTemplate>, name: string,
                       s: DriverSandbox, c: Config, encode: ActorTemplate -> seq<bv8>, digest: seq<bv8> -> string)
      requires WellNamed(before, atespace, encode, digest)
      requires forall t | IsSynthesized(t, "", "", s, c) :: NoCollision(before, t, encode, digest)
      requires IsFragment(c.fragment) && ChangedOnly(before, after, name, s, c)
      requires forall t, n, a | IsSynthesized(t, n, a, s, c) :: name == NameOf(t, encode, digest)
      requires exists t :: IsSynthesized(t, "", "", s, c)
      ensures WellNamed(after, atespace, encode, digest)
      ensures name in after ==>
                IsSynthesized(after[name], name, atespace, s, c) && name == NameOf(after[name], encode, digest)
    {
      hide IsSynthesized, NameOf, IsFragment, WellNamed, Apart;
      StaysWellNamed(before, after, name, s, c, encode, digest);
      if name in before {
        var t :| IsSynthesized(t, "", "", s, c);
        Renamed(t, "", "", name, atespace, s, c);
        FoundIsMine(before, name, s, c, t.(metadata := Some(Metadata(atespace, name))), encode, digest);
      }
    }

    /** name_for, then ensure_ready, as create_sandbox calls them: when they succeed
        the template of that name is the very one this request makes, whether it was
        created now or found, and a poll has shown it with a golden snapshot. */
    method TemplateFor(s: DriverSandbox, c: Config, timeoutSecs: nat, b: Behaviour,
                       encode: ActorTemplate -> seq<bv8>, digest: seq<bv8> -> string)
      returns (r: Result<string, Failure>)
      requires IsFragment(c.fragment)
      requires WellNamed(templates, atespace, encode, digest)
      requires forall t | IsSynthesized(t, "", "", s, c) :: NoCollision(templates, t, encode, digest)
      modifies this
      ensures WellNamed(templates, atespace, encode, digest)
      ensures r.Ok? ==>
                && r.value in templates && r.value == NameOf(templates[r.value], encode, digest)
                && IsSynthesized(templates[r.value], r.value, atespace, s, c)
                && polls > old(polls) && Ready(b.reply(polls - old(polls) - 1)) && deletes == old(deletes)
      ensures ResourcesFor(s, c).Err? <==> r.Err? && r.error.InvalidSpec?
      ensures polls == old(polls) && ResourcesFor(s, c).Ok? ==> r == Err(Rpc)
      ensures polls > old(polls) ==>
                exists q :: StopsAt(b, timeoutSecs, polls - old(polls) - 1, q)
                            && q.Ok? == r.Ok? && (r.Err? ==> q == Err(r.error))
      ensures ResourcesFor(s, c).Ok? && b.create == Success ==> polls > old(polls)
    {
      hide IsSynthesized, NameOf, IsFragment, NoCollision, ResourcesFor, WellNamed, Ready;
      var name := NameFor(s, c, encode, digest);
      if name.Err? {
        return Err(InvalidSpec(name.error));
      }
      ghost var before := templates;
      var ready := EnsureReady(name.value, s, c, timeoutSecs, b);
      EndsWithMine(before, templates, name.value, s, c, encode, digest);
      r := if ready.Ok? then Ok(name.value) else Err(ready.error);
    }
  }
}
