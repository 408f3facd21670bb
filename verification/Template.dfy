/** ActorTemplate synthesis and naming of src/template.rs. */
module Template {
  import opened Prelude
  import opened Quantity

  const SANDBOX_CONTAINER := "sandbox"
  const NAME_PREFIX := "oshl-"

  datatype Capabilities = Capabilities(add: seq<string>, drop: seq<string>)

  datatype SecurityContext = SecurityContext(capabilities: Option<Capabilities>)

  /** `rest` is everything else a container has: command, env, mounts. */
  datatype Container = Container(
    name: string, image: string, securityContext: Option<SecurityContext>, rest: string)

  datatype Resources = Resources(cpuMillicores: int, memoryBytes: int)

  datatype ResourceRequirements = ResourceRequirements(limits: Option<Resources>)

  datatype Metadata = Metadata(atespace: string, name: string)

  /** The fields the driver only copies are opaque. */
  datatype ActorTemplate = ActorTemplate(
    metadata: Option<Metadata>, workerSelector: Option<map<string, string>>, containers: seq<Container>,
    volumes: string, snapshotConfig: Option<string>, resources: Option<ResourceRequirements>,
    goldenEgressPolicy: Option<string>, status: Option<string>)

  datatype Limits = Limits(cpuLimit: string, memoryLimit: string)

  datatype SandboxTemplate = SandboxTemplate(image: string, resources: Option<Limits>)

  datatype SandboxSpec = SandboxSpec(
    sandboxToken: string, environment: map<string, string>, template: Option<SandboxTemplate>)

  datatype DriverSandbox = DriverSandbox(id: string, spec: Option<SandboxSpec>)

  datatype Config = Config(
    fragment: ActorTemplate, workerSelector: map<string, string>, defaultCpuMillicores: int, defaultMemoryBytes: int)

  // ---------------------------------------------------------------- fragment

  datatype FragmentError =
    | HasMetadata | HasWorkerSelector | HasStatus | NoSandboxContainer | AddsCapability(container: string)

  predicate AddsCapabilities(c: Container) {
    c.securityContext.Some? && c.securityContext.value.capabilities.Some?
    && c.securityContext.value.capabilities.value.add != []
  }

  predicate HasSandbox(cs: seq<Container>) { exists i | 0 <= i < |cs| :: cs[i].name == SANDBOX_CONTAINER }

  /** What a fragment must be: nothing of the driver's own, a sandbox container, and
      no capability added. */
  predicate IsFragment(t: ActorTemplate) {
    && t.metadata.None? && t.workerSelector.None? && t.status.None?
    && HasSandbox(t.containers)
    && forall i | 0 <= i < |t.containers| :: !AddsCapabilities(t.containers[i])
  }

  /** The checks of Fragment::new, in their order. It accepts exactly the fragments,
      unchanged, and blames the first container that adds a capability. */
  method NewFragment(t: ActorTemplate) returns (r: Result<ActorTemplate, FragmentError>)
    ensures r.Ok? <==> IsFragment(t)
    ensures r.Ok? <==>
              && t.metadata.None? && t.workerSelector.None? && t.status.None?
              && (exists i | 0 <= i < |t.containers| :: t.containers[i].name == "sandbox")
              && forall i | 0 <= i < |t.containers| && t.containers[i].securityContext.Some? ::
                   var c := t.containers[i].securityContext.value.capabilities; c.Some? ==> c.value.add == []
    ensures r.Ok? ==> r.value == t
    ensures r.Err? && r.error.AddsCapability? ==> exists i | 0 <= i < |t.containers| ::
              && t.containers[i].name == r.error.container && AddsCapabilities(t.containers[i])
              && forall j | 0 <= j < i :: !AddsCapabilities(t.containers[j])
    ensures r == Err(NoSandboxContainer) <==>
              t.metadata.None? && t.workerSelector.None? && t.status.None? && !HasSandbox(t.containers)
  {
    if t.metadata.Some? {
      return Err(HasMetadata);
    }
    if t.workerSelector.Some? {
      return Err(HasWorkerSelector);
    }
    if t.status.Some? {
      return Err(HasStatus);
    }
    if !HasSandbox(t.containers) {
      return Err(NoSandboxContainer);
    }
    for i := 0 to |t.containers|
      invariant forall j | 0 <= j < i :: !AddsCapabilities(t.containers[j])
    {
      if AddsCapabilities(t.containers[i]) {
        return Err(AddsCapability(t.containers[i].name));
      }
    }
    r := Ok(t);
  }

  // --------------------------------------------------------------- resources

  /** Unicode White_Space, which a limit is trimmed of. */
  predicate IsSpace(c: char) {
    var n := c as int;
    || 0x9 <= n <= 0xD || n in {0x20, 0x85, 0xA0, 0x1680} || 0x2000 <= n <= 0x200A
    || n in {0x2028, 0x2029, 0x202F, 0x205F, 0x3000}
  }

  function Trim(s: string): string {
    if s == "" then s
    else if IsSpace(s[0]) then Trim(s[1..])
    else if IsSpace(s[|s| - 1]) then Trim(s[..|s| - 1])
    else s
  }

  predicate Spaces(s: string) { forall i | 0 <= i < |s| :: IsSpace(s[i]) }

  /** t is s without the white space around it, and has none of its own there. */
  ghost predicate IsTrimmed(s: string, t: string) {
    && (exists a, b | Spaces(a) && Spaces(b) :: s == a + t + b)
    && (t != "" ==> !IsSpace(t[0]) && !IsSpace(t[|t| - 1]))
  }

  lemma TrimmedAround(s: string, inner: string, t: string, left: string, right: string)
    requires IsTrimmed(inner, t) && s == left + inner + right && Spaces(left) && Spaces(right)
    ensures IsTrimmed(s, t)
  {
    var a, b :| Spaces(a) && Spaces(b) && inner == a + t + b;
    assert s == (left + a) + t + (b + right);
    assert Spaces(left + a) && Spaces(b + right);
  }

  lemma {:induction false} TrimExact(s: string)
    ensures IsTrimmed(s, Trim(s))
  {
    hide IsSpace, IsTrimmed;
    if s == "" || (!IsSpace(s[0]) && !IsSpace(s[|s| - 1])) {
      AlreadyTrimmed(s);
    } else if IsSpace(s[0]) {
      TrimExact(s[1..]);
      assert s == [s[0]] + s[1..] + "";
      TrimmedAround(s, s[1..], Trim(s), [s[0]], "");
    } else {
      TrimExact(s[..|s| - 1]);
      assert s == "" + s[..|s| - 1] + [s[|s| - 1]];
      TrimmedAround(s, s[..|s| - 1], Trim(s), "", [s[|s| - 1]]);
    }
  }

  lemma AlreadyTrimmed(s: string)
    requires s == "" || (!IsSpace(s[0]) && !IsSpace(s[|s| - 1]))
    ensures IsTrimmed(s, s)
  {
    assert s == "" + s + "" && Spaces("");
  }

  function Image(s: DriverSandbox): string {
    if s.spec.Some? && s.spec.value.template.Some? then s.spec.value.template.value.image else ""
  }

  /** The trimmed CPU and memory limits of the request; "" when it names none. */
  function Asked(s: DriverSandbox): Limits {
    if s.spec.Some? && s.spec.value.template.Some? && s.spec.value.template.value.resources.Some? then
      var l := s.spec.value.template.value.resources.value;
      Limits(Trim(l.cpuLimit), Trim(l.memoryLimit))
    else Limits("", "")
  }

  /** What is asked for is each of the spec's own limits, trimmed. */
  lemma AskedExactly(s: DriverSandbox)
    ensures if s.spec.Some? && s.spec.value.template.Some? && s.spec.value.template.value.resources.Some? then
              var raw := s.spec.value.template.value.resources.value;
              IsTrimmed(raw.cpuLimit, Asked(s).cpuLimit) && IsTrimmed(raw.memoryLimit, Asked(s).memoryLimit)
            else Asked(s).cpuLimit == "" && Asked(s).memoryLimit == ""
  {
    if s.spec.Some? && s.spec.value.template.Some? && s.spec.value.template.value.resources.Some? {
      TrimExact(s.spec.value.template.value.resources.value.cpuLimit);
      TrimExact(s.spec.value.template.value.resources.value.memoryLimit);
    }
  }

  datatype SpecError = BadCpuLimit | BadMemoryLimit

  function Fallback(fromFragment: Option<int>, default: int): int {
    if fromFragment.Some? && fromFragment.value > 0 then fromFragment.value else default
  }

  function FragmentLimits(c: Config): Option<Resources> {
    if c.fragment.resources.Some? then c.fragment.resources.value.limits else None
  }

  function ResourcesFor(s: DriverSandbox, c: Config): Result<Resources, SpecError> {
    var asked, fragment := Asked(s), FragmentLimits(c);
    var cpu :=
      if asked.cpuLimit != "" then CpuMillicores(asked.cpuLimit)
      else Some(Fallback(if fragment.Some? then Some(fragment.value.cpuMillicores) else None, c.defaultCpuMillicores));
    var memory :=
      if asked.memoryLimit != "" then MemoryBytes(asked.memoryLimit)
      else Some(Fallback(if fragment.Some? then Some(fragment.value.memoryBytes) else None, c.defaultMemoryBytes));
    if cpu.None? then Err(BadCpuLimit)
    else if memory.None? then Err(BadMemoryLimit)
    else Ok(Resources(cpu.value, memory.value))
  }

  /** A limit that is asked for is what the template gets, exactly; a request is
      refused just when a limit it names is not a quantity an i64 can hold; and one
      that is not asked for is the fragment's, if positive, or else the default. */
  lemma LimitsAreExact(s: DriverSandbox, c: Config)
    ensures ResourcesFor(s, c).Ok? <==>
              && (Asked(s).cpuLimit == "" || exists v :: IsCpuQuantity(Asked(s).cpuLimit, v) && 1 <= v <= I64_MAX)
              && (Asked(s).memoryLimit == ""
                  || exists v :: IsMemoryQuantity(Asked(s).memoryLimit, v) && 1 <= v <= I64_MAX)
    ensures ResourcesFor(s, c).Ok? && Asked(s).cpuLimit != "" ==>
              IsCpuQuantity(Asked(s).cpuLimit, ResourcesFor(s, c).value.cpuMillicores)
    ensures ResourcesFor(s, c).Ok? && Asked(s).memoryLimit != "" ==>
              IsMemoryQuantity(Asked(s).memoryLimit, ResourcesFor(s, c).value.memoryBytes)
    ensures ResourcesFor(s, c) == Err(BadCpuLimit) <==>
              Asked(s).cpuLimit != "" && forall v | 1 <= v <= I64_MAX :: !IsCpuQuantity(Asked(s).cpuLimit, v)
    ensures var given := FragmentLimits(c);
      && (ResourcesFor(s, c).Ok? && Asked(s).cpuLimit == "" ==>
            ResourcesFor(s, c).value.cpuMillicores ==
            if given.Some? && given.value.cpuMillicores > 0 then given.value.cpuMillicores else c.defaultCpuMillicores)
      && (ResourcesFor(s, c).Ok? && Asked(s).memoryLimit == "" ==>
            ResourcesFor(s, c).value.memoryBytes ==
            if given.Some? && given.value.memoryBytes > 0 then given.value.memoryBytes else c.defaultMemoryBytes)
  {
    forall v
      ensures CpuMillicores(Asked(s).cpuLimit) == Some(v) <==> IsCpuQuantity(Asked(s).cpuLimit, v) && 1 <= v <= I64_MAX
    {
      CpuIsExact(Asked(s).cpuLimit, v);
    }
    forall v
      ensures MemoryBytes(Asked(s).memoryLimit) == Some(v) <==>
              IsMemoryQuantity(Asked(s).memoryLimit, v) && 1 <= v <= I64_MAX
    {
      MemoryIsExact(Asked(s).memoryLimit, v);
    }
    hide CpuMillicores, MemoryBytes, IsCpuQuantity, IsMemoryQuantity;
    if CpuMillicores(Asked(s).cpuLimit).Some? {
      assert CpuMillicores(Asked(s).cpuLimit) == Some(CpuMillicores(Asked(s).cpuLimit).value);
    }
    if MemoryBytes(Asked(s).memoryLimit).Some? {
      assert MemoryBytes(Asked(s).memoryLimit) == Some(MemoryBytes(Asked(s).memoryLimit).value);
    }
  }

  // --------------------------------------------------------------- synthesis

  const DROP_ALL := SecurityContext(Some(Capabilities([], ["ALL"])))

  /** Whole-memory snapshots, with a golden one. */
  const DEFAULT_SNAPSHOT := "memory+golden"

  /** The place of the first container with that name. */
  function Position(cs: seq<Container>): nat
    requires HasSandbox(cs)
  {
    if cs[0].name == SANDBOX_CONTAINER then 0 else 1 + Position(cs[1..])
  }

  lemma {:induction false} PositionIsFirst(cs: seq<Container>)
    requires HasSandbox(cs)
    ensures Position(cs) < |cs| && cs[Position(cs)].name == SANDBOX_CONTAINER
    ensures forall j | 0 <= j < Position(cs) :: cs[j].name != SANDBOX_CONTAINER
  {
    if cs[0].name != SANDBOX_CONTAINER {
      var i :| 0 <= i < |cs| && cs[i].name == SANDBOX_CONTAINER;
      assert cs[1..][i - 1].name == SANDBOX_CONTAINER;
      PositionIsFirst(cs[1..]);
      assert forall j | 0 < j < |cs| :: cs[j] == cs[1..][j - 1];
    }
  }

  /** Container number k of the template: the fragment's, without a capability, and
      with the request's image when it is the sandbox. */
  ghost predicate Shaped(fragment: seq<Container>, image: string, result: seq<Container>) {
    && HasSandbox(fragment) && |result| == |fragment|
    && forall k | 0 <= k < |result| ::
         result[k] == fragment[k].(securityContext := Some(DROP_ALL),
                                   image := if k == Position(fragment) then image else fragment[k].image)
  }

  /** The whole of a synthesized template. */
  ghost predicate IsSynthesized(t: ActorTemplate, name: string, atespace: string, s: DriverSandbox, c: Config) {
    && ResourcesFor(s, c).Ok?
    && Shaped(c.fragment.containers, Image(s), t.containers)
    && t.metadata == Some(Metadata(atespace, name))
    && t.workerSelector == Some(c.workerSelector)
    && t.volumes == c.fragment.volumes
    && t.snapshotConfig ==
       Some(if c.fragment.snapshotConfig.Some? then c.fragment.snapshotConfig.value else DEFAULT_SNAPSHOT)
    && t.resources == Some(ResourceRequirements(Some(ResourcesFor(s, c).value)))
    && t.goldenEgressPolicy == c.fragment.goldenEgressPolicy
    && t.status.None?
  }

  /** Build the template. On a checked fragment the search for the sandbox
      container never comes back empty-handed. */
  method Synthesize(name: string, atespace: string, s: DriverSandbox, c: Config)
    returns (r: Result<ActorTemplate, SpecError>)
    requires IsFragment(c.fragment)
    ensures r.Ok? <==> ResourcesFor(s, c).Ok?
    ensures r.Err? ==> r.error == ResourcesFor(s, c).error
    ensures r.Ok? ==> IsSynthesized(r.value, name, atespace, s, c)
    ensures r.Ok? ==>
              && r.value.metadata.Some? && r.value.metadata.value.name == name
              && r.value.metadata.value.atespace == atespace && r.value.status.None?
              && r.value.resources == Some(ResourceRequirements(Some(ResourcesFor(s, c).value)))
              && r.value.workerSelector == Some(c.workerSelector) && r.value.volumes == c.fragment.volumes
              && r.value.goldenEgressPolicy == c.fragment.goldenEgressPolicy && r.value.snapshotConfig.Some?
              && (c.fragment.snapshotConfig.Some? ==> r.value.snapshotConfig == c.fragment.snapshotConfig)
    ensures r.Ok? ==> |r.value.containers| == |c.fragment.containers|
    ensures r.Ok? ==> forall k | 0 <= k < |r.value.containers| ::
              var mine, given := r.value.containers[k], c.fragment.containers[k];
              && mine.name == given.name && mine.rest == given.rest
              && mine.securityContext == Some(SecurityContext(Some(Capabilities([], ["ALL"]))))
    ensures r.Ok? ==> forall k | 0 <= k < |r.value.containers| ::
              var first := c.fragment.containers[k].name == "sandbox"
                && forall j | 0 <= j < k :: c.fragment.containers[j].name != "sandbox";
              r.value.containers[k].image ==
              if !first then c.fragment.containers[k].image
              else if s.spec.Some? && s.spec.value.template.Some? then s.spec.value.template.value.image
              else ""
  {
    hide ResourcesFor, AddsCapabilities;
    var limits := ResourcesFor(s, c);
    if limits.Err? {
      return Err(limits.error);
    }
    var fragment := c.fragment.containers;
    var containers := fragment;
    for k := 0 to |containers|
      invariant |containers| == |fragment|
      invariant forall j | 0 <= j < k :: containers[j] == fragment[j].(securityContext := Some(DROP_ALL))
      invariant forall j | k <= j < |fragment| :: containers[j] == fragment[j]
    {
      containers := containers[k := containers[k].(securityContext := Some(DROP_ALL))];
    }
    PositionIsFirst(fragment);
    var i := 0;
    while containers[i].name != SANDBOX_CONTAINER
      invariant 0 <= i <= Position(fragment)
      decreases |containers| - i
    {
      i := i + 1;
    }
    assert i == Position(fragment);
    containers := containers[i := containers[i].(image := Image(s))];
    var snapshot := if c.fragment.snapshotConfig.Some? then c.fragment.snapshotConfig else Some(DEFAULT_SNAPSHOT);
    r := Ok(ActorTemplate(Some(Metadata(atespace, name)), Some(c.workerSelector), containers, c.fragment.volumes,
                          snapshot, Some(ResourceRequirements(Some(limits.value))),
                          c.fragment.goldenEgressPolicy, None));
  }

  // ------------------------------------------------------------------ naming

  /** A template without what distinguishes two of the same contents. */
  function Blank(t: ActorTemplate): ActorTemplate { t.(metadata := None) }

  /** The name of a template: a digest of its encoding, its metadata blanked. */
  function NameOf(t: ActorTemplate, encode: ActorTemplate -> seq<bv8>, digest: seq<bv8> -> string): string {
    NAME_PREFIX + digest(encode(Blank(t)))
  }

  method NameFor(s: DriverSandbox, c: Config, encode: ActorTemplate -> seq<bv8>, digest: seq<bv8> -> string)
    returns (r: Result<string, SpecError>)
    requires IsFragment(c.fragment)
    ensures r.Ok? <==> ResourcesFor(s, c).Ok?
    ensures r.Ok? ==> forall t, name, atespace | IsSynthesized(t, name, atespace, s, c) ::
              r.value == NameOf(t, encode, digest)
    ensures r.Ok? ==> exists t :: IsSynthesized(t, "", "", s, c)
  {
    var t := Synthesize("", "", s, c);
    if t.Err? {
      return Err(t.error);
    }
    forall u, name, atespace | IsSynthesized(u, name, atespace, s, c) ensures Blank(u) == Blank(t.value) {
      SynthesisIsUnique(t.value, "", "", u, name, atespace, s, c);
    }
    r := Ok(NAME_PREFIX + digest(encode(t.value.(metadata := None))));
  }

  /** The metadata is all that a synthesized template owes to its name. */
  lemma Renamed(t: ActorTemplate, tn: string, ta: string, name: string, atespace: string, s: DriverSandbox, c: Config)
    requires IsSynthesized(t, tn, ta, s, c)
    ensures IsSynthesized(t.(metadata := Some(Metadata(atespace, name))), name, atespace, s, c)
  {
  }

  lemma SynthesisIsUnique(t: ActorTemplate, tn: string, ta: string, u: ActorTemplate, un: string, ua: string,
                          s: DriverSandbox, c: Config)
    requires IsSynthesized(t, tn, ta, s, c) && IsSynthesized(u, un, ua, s, c)
    ensures Blank(t) == Blank(u)
  {
    assert t.containers == u.containers;
  }

  /** The digests of a and b do not collide. */
  predicate Apart(a: ActorTemplate, b: ActorTemplate, encode: ActorTemplate -> seq<bv8>, digest: seq<bv8> -> string) {
    digest(encode(a)) == digest(encode(b)) ==> a == b
  }

  /** Everything the golden snapshot depends on, said without building a template:
      the image, the limits, the pool, and of the fragment all but the sandbox
      container's placeholder image, the security contexts and the limits. */
  datatype Inputs = Inputs(
    image: string, limits: Resources, selector: map<string, string>, containers: seq<Container>, volumes: string,
    snapshot: string, egress: Option<string>)

  function Neutral(cs: seq<Container>): seq<Container>
    requires HasSandbox(cs)
  {
    seq(|cs|, k requires 0 <= k < |cs| =>
      cs[k].(securityContext := None, image := if k == Position(cs) then "" else cs[k].image))
  }

  function InputsFor(s: DriverSandbox, c: Config): Inputs
    requires IsFragment(c.fragment) && ResourcesFor(s, c).Ok?
  {
    Inputs(Image(s), ResourcesFor(s, c).value, c.workerSelector, Neutral(c.fragment.containers), c.fragment.volumes,
           if c.fragment.snapshotConfig.Some? then c.fragment.snapshotConfig.value else DEFAULT_SNAPSHOT,
           c.fragment.goldenEgressPolicy)
  }

  /** The sandbox container is found by its name alone. */
  lemma {:induction false} PositionByNames(a: seq<Container>, b: seq<Container>)
    requires HasSandbox(a) && |a| == |b| && forall k | 0 <= k < |a| :: a[k].name == b[k].name
    ensures HasSandbox(b) && Position(a) == Position(b)
  {
    var i :| 0 <= i < |a| && a[i].name == SANDBOX_CONTAINER;
    assert b[i].name == SANDBOX_CONTAINER;
    if a[0].name != SANDBOX_CONTAINER {
      assert a[1..][i - 1].name == SANDBOX_CONTAINER;
      PositionByNames(a[1..], b[1..]);
    }
  }

  lemma SameContainers(a: seq<Container>, imageA: string, x: seq<Container>,
                       b: seq<Container>, imageB: string, y: seq<Container>)
    requires Shaped(a, imageA, x) && Shaped(b, imageB, y)
    ensures x == y <==> imageA == imageB && Neutral(a) == Neutral(b)
  {
    PositionIsFirst(a);
    PositionIsFirst(b);
    if x == y {
      forall k | 0 <= k < |a| ensures a[k].name == b[k].name && a[k].rest == b[k].rest {
        assert x[k].name == a[k].name && x[k].rest == a[k].rest && y[k].name == b[k].name && y[k].rest == b[k].rest;
      }
      PositionByNames(a, b);
      assert x[Position(a)].image == imageA && y[Position(b)].image == imageB;
      forall k | 0 <= k < |a| ensures Neutral(a)[k] == Neutral(b)[k] {
        assert x[k].image == y[k].image;
      }
    } else if imageA == imageB && Neutral(a) == Neutral(b) {
      assert |Neutral(a)| == |Neutral(b)|;
      forall k | 0 <= k < |a| ensures a[k].name == b[k].name && a[k].rest == b[k].rest {
        assert Neutral(a)[k] == Neutral(b)[k];
      }
      PositionByNames(a, b);
      forall k | 0 <= k < |x| ensures x[k] == y[k] {
        assert Neutral(a)[k] == Neutral(b)[k];
      }
    }
  }

  /** The name identifies exactly the equal templates, and those are exactly the
      ones with equal inputs: whatever else differs between two requests or two
      configurations, ids, tokens, environments, the fragment's placeholder image
      and its own limits included, never shows. */
  lemma NameIdentifies(t: ActorTemplate, tn: string, ta: string, s: DriverSandbox, c: Config,
                       u: ActorTemplate, un: string, ua: string, s': DriverSandbox, c': Config,
                       encode: ActorTemplate -> seq<bv8>, digest: seq<bv8> -> string)
    requires IsFragment(c.fragment) && IsFragment(c'.fragment) && Apart(Blank(t), Blank(u), encode, digest)
    requires IsSynthesized(t, tn, ta, s, c) && IsSynthesized(u, un, ua, s', c')
    ensures NameOf(t, encode, digest) == NameOf(u, encode, digest) <==> Blank(t) == Blank(u)
    ensures Blank(t) == Blank(u) <==> InputsFor(s, c) == InputsFor(s', c')
  {
    SameContainers(c.fragment.containers, Image(s), t.containers, c'.fragment.containers, Image(s'), u.containers);
    var a, b := digest(encode(Blank(t))), digest(encode(Blank(u)));
    if NameOf(t, encode, digest) == NameOf(u, encode, digest) {
      assert (NAME_PREFIX + a)[|NAME_PREFIX|..] == a && (NAME_PREFIX + b)[|NAME_PREFIX|..] == b;
    }
    hide ResourcesFor, Shaped, Neutral, IsFragment;
  }

  /** Two requests for the same image with the same limits share a template,
      whoever they are for. */
  lemma PerSandboxFieldsNeverMatter(s: DriverSandbox, s': DriverSandbox, c: Config)
    requires IsFragment(c.fragment) && Image(s) == Image(s') && Asked(s) == Asked(s')
    ensures ResourcesFor(s, c) == ResourcesFor(s', c)
    ensures ResourcesFor(s, c).Ok? ==> InputsFor(s, c) == InputsFor(s', c)
  {
  }

  /** The template ensure_ready creates under a name is the one the name was made
      from, so an AlreadyExists for it is about an identical template. */
  lemma ExistingIsIdentical(mine: ActorTemplate, s: DriverSandbox, c: Config,
                            existing: ActorTemplate, s': DriverSandbox, c': Config,
                            name: string, atespace: string,
                            encode: ActorTemplate -> seq<bv8>, digest: seq<bv8> -> string)
    requires IsFragment(c.fragment) && IsFragment(c'.fragment) && Apart(Blank(mine), Blank(existing), encode, digest)
    requires IsSynthesized(mine, name, atespace, s, c) && name == NameOf(mine, encode, digest)
    requires IsSynthesized(existing, name, atespace, s', c') && name == NameOf(existing, encode, digest)
    ensures existing == mine
  {
    NameIdentifies(mine, name, atespace, s, c, existing, name, atespace, s', c', encode, digest);
    hide Shaped, ResourcesFor, NameOf, IsFragment;
  }
}
