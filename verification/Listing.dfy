/** Walking ListActors to its last page, and dropping the bundles and marks of
    actors the walk did not find. */
module Listing {
  import opened Prelude
  import opened Substrate
  import opened Watch
  import opened StoreFiles
  import opened BundleStore
  import Template

  const LIST_PAGE_SIZE := 1000

  datatype Page = Page(actors: seq<Actor>, nextPageToken: string)

  datatype PageRequest = PageRequest(atespace: string, pageSize: int, pageToken: string)

  type Answer = Result<Page, string>

  /** What a sequence of answers amounts to: the pages up to the first without a
      continuation token, or the first failure before that. */
  function Walk(answers: seq<Answer>): Result<seq<Actor>, string> {
    if answers == [] then Err("")
    else match answers[0]
      case Err(e) => Err(e)
      case Ok(page) =>
        if page.nextPageToken == "" then Ok(page.actors)
        else After(page.actors, Walk(answers[1..]))
  }

  function After(actors: seq<Actor>, rest: Result<seq<Actor>, string>): Result<seq<Actor>, string> {
    match rest
    case Err(e) => Err(e)
    case Ok(more) => Ok(actors + more)
  }

  lemma AfterAfter(a: seq<Actor>, b: seq<Actor>, rest: Result<seq<Actor>, string>)
    ensures After(a, After(b, rest)) == After(a + b, rest) && After([], rest) == rest
  {
    if rest.Ok? {
      assert a + (b + rest.value) == a + b + rest.value && [] + rest.value == rest.value;
    }
  }

  /** The token chain ends, or the server fails, somewhere. */
  predicate Ends(answers: seq<Answer>) {
    answers != [] && (answers[0].Err? || answers[0].value.nextPageToken == "" || Ends(answers[1..]))
  }

  /** How many answers the walk consumes. */
  function Consumed(answers: seq<Answer>): nat {
    if answers == [] then 0
    else if answers[0].Err? || answers[0].value.nextPageToken == "" then 1
    else 1 + Consumed(answers[1..])
  }

  /** ate-api-server, answering one page request after another. */
  class Server {
    const answers: seq<Answer>
    var asked: seq<PageRequest>

    constructor (answers: seq<Answer>)
      ensures this.answers == answers && asked == []
    {
      this.answers, asked := answers, [];
    }

    method ListActorsPage(req: PageRequest) returns (a: Answer)
      requires |asked| < |answers|
      modifies this
      ensures asked == old(asked) + [req] && a == answers[|old(asked)|]
    {
      a := answers[|asked|];
      asked := asked + [req];
    }

    /** The requests that walk these answers: the first without a token, each next
        one with the token the page before it carried. */
    ghost predicate Chained(from: nat, atespace: string)
      requires from <= |asked| <= |answers|
      reads this
    {
      forall i | from <= i < |asked| ::
        && asked[i].atespace == atespace && asked[i].pageSize == 1000
        && (i == from ==> asked[i].pageToken == "")
        && (i > from ==> answers[i - 1].Ok? && asked[i].pageToken == answers[i - 1].value.nextPageToken)
    }
  }

  /** Answer number i fails, and every one before it is a page that is not the last. */
  ghost predicate FailsAt(answers: seq<Answer>, i: nat, e: string) {
    && i < |answers| && answers[i] == Err(e)
    && forall j | 0 <= j < i :: answers[j].Ok? && answers[j].value.nextPageToken != ""
  }

  /** A page that fails is what the walk comes to, however much was read before. */
  lemma {:induction false} WalkFails(answers: seq<Answer>, i: nat, e: string)
    requires FailsAt(answers, i, e)
    ensures Walk(answers) == Err(e)
  {
    if i > 0 {
      WalkFails(answers[1..], i - 1, e);
    }
  }

  /** Page by page to the end, empty pages in the middle included; and the failure of
      any page on the way is the failure of the whole. */
  method ListAtespaceActors(server: Server, atespace: string) returns (r: Result<seq<Actor>, string>)
    requires |server.asked| <= |server.answers| && Ends(server.answers[|server.asked|..])
    modifies server
    ensures r == Walk(server.answers[|old(server.asked)|..])
    ensures old(server.asked) <= server.asked && |server.asked| <= |server.answers|
    ensures |server.asked| == |old(server.asked)| + Consumed(server.answers[|old(server.asked)|..])
    ensures server.Chained(|old(server.asked)|, atespace)
    ensures forall i: nat, e | FailsAt(server.answers[|old(server.asked)|..], i, e) :: r == Err(e)
  {
    ghost var from := |server.asked|;
    forall i: nat, e | FailsAt(server.answers[from..], i, e) ensures Walk(server.answers[from..]) == Err(e) {
      WalkFails(server.answers[from..], i, e);
    }
    var actors: seq<Actor> := [];
    var pageToken := "";
    AfterAfter([], [], Walk(server.answers[from..]));
    while true
      invariant from <= |server.asked| <= |server.answers| && Ends(server.answers[|server.asked|..])
      invariant old(server.asked) <= server.asked && server.Chained(from, atespace)
      invariant |server.asked| == from ==> pageToken == ""
      invariant |server.asked| > from ==> var last := server.answers[|server.asked| - 1];
                  last.Ok? && last.value.nextPageToken == pageToken
      invariant Walk(server.answers[from..]) == After(actors, Walk(server.answers[|server.asked|..]))
      invariant Consumed(server.answers[from..]) == |server.asked| - from + Consumed(server.answers[|server.asked|..])
      decreases |server.answers| - |server.asked|
    {
      ghost var k := |server.asked|;
      assert server.answers[k..][1..] == server.answers[k + 1..];
      var page := server.ListActorsPage(PageRequest(atespace, LIST_PAGE_SIZE, pageToken));
      if page.Err? {
        return Err(page.error);
      }
      AfterAfter(actors, page.value.actors, Walk(server.answers[k + 1..]));
      actors := actors + page.value.actors;
      if page.value.nextPageToken == "" {
        return Ok(actors);
      }
      pageToken := page.value.nextPageToken;
    }
  }

  function Flatten(pages: seq<seq<Actor>>): seq<Actor> {
    if pages == [] then [] else pages[0] + Flatten(pages[1..])
  }

  /** The pages of a chain that does not fail. */
  ghost predicate Chain(pages: seq<Page>) {
    && pages != [] && pages[|pages| - 1].nextPageToken == ""
    && forall i | 0 <= i < |pages| - 1 :: pages[i].nextPageToken != ""
  }

  /** The walk is the concatenation of all the pages of the chain and of nothing
      the server would have answered after it. */
  lemma {:induction false} WalkIsConcatenation(pages: seq<Page>, later: seq<Answer>)
    requires Chain(pages)
    ensures var answers := seq(|pages|, i requires 0 <= i < |pages| => Result<Page, string>.Ok(pages[i])) + later;
      Walk(answers) == Ok(Flatten(seq(|pages|, i requires 0 <= i < |pages| => pages[i].actors)))
  {
    var n := |pages|;
    var answers := seq(n, i requires 0 <= i < n => Result<Page, string>.Ok(pages[i])) + later;
    var lists := seq(n, i requires 0 <= i < n => pages[i].actors);
    var rest := pages[1..];
    assert lists[1..] == seq(n - 1, i requires 0 <= i < n - 1 => rest[i].actors);
    assert answers[1..] == seq(n - 1, i requires 0 <= i < n - 1 => Result<Page, string>.Ok(rest[i])) + later;
    if n > 1 {
      WalkIsConcatenation(rest, later);
    } else {
      assert Flatten(lists[1..]) == [] && lists[0] + [] == pages[0].actors;
    }
  }

  // ------------------------------------------------------- this driver's actors

  predicate Ours(a: Actor) { a.template.Some? && Template.NAME_PREFIX <= a.template.value }

  function OursOnly(actors: seq<Actor>): seq<Actor> {
    if actors == [] then []
    else OursOnly(actors[..|actors| - 1]) + if Ours(actors[|actors| - 1]) then [actors[|actors| - 1]] else []
  }

  /** Filtering the whole list is filtering its parts, so the page boundaries do
      not matter. */
  lemma {:induction false} FilterCommutes(a: seq<Actor>, b: seq<Actor>)
    ensures OursOnly(a + b) == OursOnly(a) + OursOnly(b)
  {
    if b == [] {
      assert a + b == a;
    } else {
      FilterCommutes(a, b[..|b| - 1]);
      assert (a + b)[..|a + b| - 1] == a + b[..|b| - 1];
    }
  }

  /** Kept are exactly the listed actors whose template's name is one this driver
      makes: "oshl-" and a digest. */
  lemma {:induction false} FilterMembers(actors: seq<Actor>, a: Actor)
    ensures a in OursOnly(actors) <==>
            a in actors && a.template.Some? && exists digest :: a.template.value == "oshl-" + digest
  {
    if actors != [] {
      FilterMembers(actors[..|actors| - 1], a);
      assert actors == actors[..|actors| - 1] + [actors[|actors| - 1]];
    }
    if a.template.Some? {
      var name := a.template.value;
      assert "oshl-" <= name ==> name == "oshl-" + name[5..];
      assert forall digest | name == "oshl-" + digest :: "oshl-" <= name;
    }
  }

  /** So an actor of a template that name_for named is this driver's. */
  lemma NamedIsOurs(actors: seq<Actor>, a: Actor, t: Template.ActorTemplate,
                    encode: Template.ActorTemplate -> seq<bv8>, digest: seq<bv8> -> string)
    requires a in actors && a.template == Some(Template.NameOf(t, encode, digest))
    ensures a in OursOnly(actors)
  {
    FilterMembers(actors, a);
  }

  method ListDriverActors(server: Server, atespace: string) returns (r: Result<seq<Actor>, string>)
    requires |server.asked| <= |server.answers| && Ends(server.answers[|server.asked|..])
    modifies server
    ensures var all := Walk(server.answers[|old(server.asked)|..]);
      r == match all case Ok(actors) => Ok(OursOnly(actors)) case Err(e) => Err(e)
    ensures forall i: nat, e | FailsAt(server.answers[|old(server.asked)|..], i, e) :: r == Err(e)
  {
    var all := ListAtespaceActors(server, atespace);
    if all.Err? {
      return Err(all.error);
    }
    var kept: seq<Actor> := [];
    for i := 0 to |all.value|
      invariant kept == OursOnly(all.value[..i])
    {
      assert all.value[..i + 1][..i] == all.value[..i];
      if Ours(all.value[i]) {
        kept := kept + [all.value[i]];
      }
    }
    assert all.value[..|all.value|] == all.value;
    r := Ok(kept);
  }

  // ---------------------------------------------------------------- reaping

  /** A view with some names' bundles and marks gone. */
  function Without(v: View, names: set<string>): View { View(v.bundles - names, v.stopped - names) }

  lemma WithoutOneMore(v: View, names: set<string>, n: string)
    ensures Meaning(Meaning(Without(v, names), RemoveOp(n)), UnmarkOp(n)) == Without(v, names + {n})
  {
    var bundles := Meaning(Without(v, names), RemoveOp(n)).bundles;
    assert bundles == v.bundles - (names + {n});
    assert v.stopped - names - {n} == v.stopped - (names + {n});
  }

  /** One orphan: its bundle, then its marker. */
  method DropOrphan(store: Store, name: string, noRemove: bool, noUnmark: bool) returns (ok: bool)
    requires store.Valid() && store.InStep()
    modifies store, store.disk
    ensures store.Valid() && ok == (!noRemove && !noUnmark)
    ensures var before, after := old(Reopened(store.disk.files)), Reopened(store.disk.files);
      && (ok ==> store.InStep() && after == Meaning(Meaning(before, RemoveOp(name)), UnmarkOp(name)))
      && (!ok ==> after == before || after == Meaning(before, RemoveOp(name)))
    ensures store.bundles == old(store.bundles) - {name}
  {
    hide Reopened, Readable, DoAll, FileOps;
    ok := store.Remove(name, noRemove);
    if ok {
      ok := store.SetStopped(name, false, noUnmark);
    }
  }

  /** Remove every bundle whose actor is not live, with its marker, in whatever
      order the map yields the names. A call that fails stops the reaping there.
      Bundles of live actors are never touched, nor are marks without a bundle. */
  method ReapOrphans(store: Store, live: set<string>, noRemove: set<string>, noUnmark: set<string>)
    returns (r: Result<set<string>, string>, ghost gone: set<string>)
    requires store.Valid() && store.InStep()
    modifies store, store.disk
    ensures store.Valid()
    ensures gone <= Reopened(old(store.disk.files)).bundles.Keys - live
    ensures r.Ok? ==> r.value == gone == Reopened(old(store.disk.files)).bundles.Keys - live && store.InStep()
    ensures r.Ok? ==> Reopened(store.disk.files) == Without(Reopened(old(store.disk.files)), gone)
    ensures r.Ok? ==>
              && Reopened(store.disk.files).bundles == Reopened(old(store.disk.files)).bundles - gone
              && Reopened(store.disk.files).stopped == Reopened(old(store.disk.files)).stopped - gone
    ensures r.Err? ==> r.error !in live && (r.error in noRemove || r.error in noUnmark)
    ensures r.Err? ==> PartlyReaped(Reopened(old(store.disk.files)), Reopened(store.disk.files), gone, r.error)
  {
    ghost var before := Reopened(store.disk.files);
    var names := store.bundles.Keys;
    var removed: set<string> := {};
    assert Without(before, {}) == before;
    hide Reopened, Readable, Without, Meaning;
    while names != {}
      invariant store.Valid() && store.InStep() && names <= before.bundles.Keys
      invariant forall n :: n in removed <==> n in before.bundles && n !in live && n !in names
      invariant Reopened(store.disk.files) == Without(before, removed)
    {
      var name :| name in names;
      names := names - {name};
      if name !in live {
        WithoutOneMore(before, removed, name);
        var ok := DropOrphan(store, name, name in noRemove, name in noUnmark);
        if !ok {
          return Err(name), removed;
        }
        removed := removed + {name};
      }
    }
    r, gone := Ok(removed), removed;
  }

  /** Reaping stopped at `name`: its bundle may be gone and its mark is not. */
  ghost predicate PartlyReaped(before: View, after: View, gone: set<string>, name: string) {
    after == Without(before, gone) || after == Meaning(Without(before, gone), RemoveOp(name))
  }

  /** However far it got, reaping leaves live actors' bundles and marks alone. */
  lemma LiveActorsKept(before: View, after: View, gone: set<string>, name: string, n: string)
    requires PartlyReaped(before, after, gone, name) && n !in gone && n != name
    ensures n in before.bundles <==> n in after.bundles
    ensures n in before.bundles ==> after.bundles[n] == before.bundles[n]
    ensures n in before.stopped <==> n in after.stopped
  {
  }
}
