/** The bundle store's directory: what each file operation does to it, what
    `open` recovers from it, and that a crash between any two file operations
    recovers the store from just before or just after the operation it cut. */
module StoreFiles {
  import opened Prelude
  import opened FileNames

  /** A bundle, as far as the store and the launch endpoint look at it. */
  datatype Bundle = Bundle(generation: string, actorUid: nat, sandboxName: string, payload: string)

  /** A file holds a whole serialized bundle, which reads back as that bundle, or
      some bytes that do not parse. */
  datatype Content = Whole(bundle: Bundle) | Partial(written: nat)

  type Dir = map<string, Content>

  /** One system call. Unlinking a file that is not there is not an error here. */
  datatype FileOp = Write(file: string, content: Content) | Rename(from: string, to: string) | Unlink(file: string)

  function Do(d: Dir, op: FileOp): Dir {
    match op
    case Write(f, c) => d[f := c]
    case Rename(a, b) => if a in d then (d - {a})[b := d[a]] else d
    case Unlink(f) => d - {f}
  }

  function DoAll(d: Dir, ops: seq<FileOp>): Dir {
    if ops == [] then d else Do(DoAll(d, ops[..|ops| - 1]), ops[|ops| - 1])
  }

  lemma DoAllAppend(d: Dir, ops: seq<FileOp>, op: FileOp)
    ensures DoAll(d, ops + [op]) == Do(DoAll(d, ops), op)
  {
    assert (ops + [op])[..|ops|] == ops;
  }

  // ------------------------------------------------------------- reopening

  datatype View = View(bundles: map<string, Bundle>, stopped: set<string>)

  /** `open` fails on a bundle file that does not parse, and on nothing else. */
  predicate Readable(d: Dir) {
    forall f | f in d && Classify(f).BundleOf? :: d[f].Whole?
  }

  function BundleNames(d: Dir): set<string> {
    set f | f in d && Classify(f).BundleOf? :: Classify(f).name
  }

  function MarkedNames(d: Dir): set<string> {
    set f | f in d && Classify(f).Marker? :: Classify(f).name
  }

  /** What `open` hands back for the directory d. */
  function Reopened(d: Dir): View {
    View(map n | n in BundleNames(d) && BundleFile(n) in d && d[BundleFile(n)].Whole? :: d[BundleFile(n)].bundle,
         MarkedNames(d))
  }

  /** File by file: a name has a bundle exactly when its bundle file exists, and a
      mark exactly when its marker file does. */
  lemma ReopenedExactly(d: Dir, n: string)
    requires Readable(d)
    ensures n in Reopened(d).bundles <==> BundleFile(n) in d
    ensures BundleFile(n) in d ==> d[BundleFile(n)].Whole? && Reopened(d).bundles[n] == d[BundleFile(n)].bundle
    ensures n in Reopened(d).stopped <==> MarkerFile(n) in d
  {
    NamesReadBack(BundleFile(n), n);
    NamesReadBack(MarkerFile(n), n);
    if n in BundleNames(d) {
      var f :| f in d && Classify(f).BundleOf? && Classify(f).name == n;
      NamesReadBack(f, n);
    }
    if n in MarkedNames(d) {
      var f :| f in d && Classify(f).Marker? && Classify(f).name == n;
      NamesReadBack(f, n);
    }
  }

  // ------------------------------------------------------- store operations

  /** `chunks` is how many partial writes the kernel makes of a put's one write. */
  datatype StoreOp =
    | PutOp(name: string, bundle: Bundle, chunks: nat)
    | RemoveOp(name: string)
    | MarkOp(name: string)
    | UnmarkOp(name: string)

  /** Truncate the temporary file and fill it bit by bit. */
  function TmpWrites(name: string, n: nat): seq<FileOp> {
    seq(n, (i: nat) => Write(TmpFile(name), Partial(i)))
  }

  /** The system calls of one store operation, in order. */
  function FileOps(op: StoreOp): seq<FileOp> {
    match op
    case PutOp(n, b, chunks) =>
      TmpWrites(n, chunks + 1) + [Write(TmpFile(n), Whole(b)), Rename(TmpFile(n), BundleFile(n))]
    case RemoveOp(n) => [Unlink(BundleFile(n))]
    case MarkOp(n) => [Write(MarkerFile(n), Partial(0))]
    case UnmarkOp(n) => [Unlink(MarkerFile(n))]
  }

  /** What the operation means, with no files in sight. */
  function Meaning(v: View, op: StoreOp): View {
    match op
    case PutOp(n, b, _) => v.(bundles := v.bundles[n := b])
    case RemoveOp(n) => v.(bundles := v.bundles - {n})
    case MarkOp(n) => v.(stopped := v.stopped + {n})
    case UnmarkOp(n) => v.(stopped := v.stopped - {n})
  }

  /** The calls of a put, one by one. */
  lemma PutCalls(n: string, b: Bundle, chunks: nat)
    ensures var ops := FileOps(PutOp(n, b, chunks));
      && |ops| == chunks + 3
      && (forall i: nat | i <= chunks :: ops[i] == Write(TmpFile(n), Partial(i)))
      && ops[chunks + 1] == Write(TmpFile(n), Whole(b))
      && ops[chunks + 2] == Rename(TmpFile(n), BundleFile(n))
  {
  }

  /** One more call of a sequence. */
  lemma NextCall(d: Dir, ops: seq<FileOp>, i: nat)
    requires i < |ops|
    ensures DoAll(d, ops[..0]) == d
    ensures DoAll(d, ops[..i + 1]) == Do(DoAll(d, ops[..i]), ops[i])
    ensures ops[..i + 1] == ops[..i] + [ops[i]]
  {
    assert ops[..i + 1] == ops[..i] + [ops[i]];
    DoAllAppend(d, ops[..i], ops[i]);
  }

  lemma {:induction false} TmpOnly(d: Dir, ops: seq<FileOp>, tmp: string)
    requires forall i | 0 <= i < |ops| :: ops[i].Write? && ops[i].file == tmp
    ensures DoAll(d, ops) == if ops == [] then d else d[tmp := ops[|ops| - 1].content]
  {
    if ops != [] {
      TmpOnly(d, ops[..|ops| - 1], tmp);
    }
  }

  /** A temporary file does not show. */
  lemma TmpInvisible(d: Dir, name: string, c: Content)
    requires Readable(d)
    ensures Readable(d[TmpFile(name) := c]) && Reopened(d[TmpFile(name) := c]) == Reopened(d)
  {
    var e := d[TmpFile(name) := c];
    NamesReadBack(TmpFile(name), name);
    SameView(d, e);
  }

  lemma SameView(d: Dir, e: Dir)
    requires Readable(d) && Readable(e)
    requires forall f | Classify(f) != Ignored :: (f in d <==> f in e) && (f in d ==> d[f] == e[f])
    ensures Reopened(d) == Reopened(e)
  {
    forall n
      ensures n in Reopened(d).bundles <==> n in Reopened(e).bundles
      ensures n in Reopened(d).bundles ==> Reopened(d).bundles[n] == Reopened(e).bundles[n]
      ensures n in Reopened(d).stopped <==> n in Reopened(e).stopped
    {
      ReopenedExactly(d, n);
      ReopenedExactly(e, n);
      NamesReadBack(BundleFile(n), n);
      NamesReadBack(MarkerFile(n), n);
    }
  }

  /** Cut a put anywhere before its rename and the directory differs at most in
      the temporary file. */
  lemma PutPrefix(d: Dir, n: string, b: Bundle, chunks: nat, k: nat)
    requires k <= chunks + 2
    ensures var ops := FileOps(PutOp(n, b, chunks));
      DoAll(d, ops[..k]) == if k == 0 then d else d[TmpFile(n) := ops[k - 1].content]
  {
    var ops := FileOps(PutOp(n, b, chunks))[..k];
    TmpOnly(d, ops, TmpFile(n));
  }

  lemma PutWhole(d: Dir, n: string, b: Bundle, chunks: nat)
    requires Readable(d)
    ensures var e := DoAll(d, FileOps(PutOp(n, b, chunks)));
      Readable(e) && Reopened(e) == Meaning(Reopened(d), PutOp(n, b, chunks))
  {
    var ops := FileOps(PutOp(n, b, chunks));
    PutPrefix(d, n, b, chunks, chunks + 2);
    assert ops[..|ops| - 1] == ops[..chunks + 2];
    var e := DoAll(d, ops);
    assert e == (d[TmpFile(n) := Whole(b)] - {TmpFile(n)})[BundleFile(n) := Whole(b)];
    NamesReadBack(TmpFile(n), n);
    assert Readable(e);
    ViewFromFiles(e, Meaning(Reopened(d), PutOp(n, b, chunks))) by {
      forall m ensures Shows(e, Meaning(Reopened(d), PutOp(n, b, chunks)), m) {
        ReopenedExactly(d, m);
        NamesDisjoint(n, m);
        NamesDisjoint(m, n);
      }
    }
  }

  /** The files of the name m are what the view v says of it. */
  ghost predicate Shows(e: Dir, v: View, m: string) {
    && (m in v.bundles <==> BundleFile(m) in e)
    && (m in v.bundles ==> e[BundleFile(m)] == Whole(v.bundles[m]))
    && (m in v.stopped <==> MarkerFile(m) in e)
  }

  lemma ViewFromFiles(e: Dir, v: View)
    requires Readable(e) && forall m :: Shows(e, v, m)
    ensures Reopened(e) == v
  {
    forall m
      ensures m in Reopened(e).bundles <==> m in v.bundles
      ensures m in v.bundles ==> Reopened(e).bundles[m] == v.bundles[m]
      ensures m in Reopened(e).stopped <==> m in v.stopped
    {
      assert Shows(e, v, m);
      ReopenedExactly(e, m);
    }
  }

  lemma OneCall(d: Dir, x: FileOp)
    ensures DoAll(d, [x]) == Do(d, x)
  {
    assert [x][..0] == [];
  }

  lemma UnlinkMeaning(d: Dir, n: string)
    requires Readable(d)
    ensures var e := d - {BundleFile(n)}; Readable(e) && Reopened(e) == Meaning(Reopened(d), RemoveOp(n))
    ensures var e := d - {MarkerFile(n)}; Readable(e) && Reopened(e) == Meaning(Reopened(d), UnmarkOp(n))
  {
    hide Reopened, Classify, BundleFile, MarkerFile;
    var e, f := d - {BundleFile(n)}, d - {MarkerFile(n)};
    forall m
      ensures Shows(e, Meaning(Reopened(d), RemoveOp(n)), m)
      ensures Shows(f, Meaning(Reopened(d), UnmarkOp(n)), m)
    {
      ReopenedExactly(d, m);
      NamesDisjoint(n, m);
      NamesDisjoint(m, n);
    }
    ViewFromFiles(e, Meaning(Reopened(d), RemoveOp(n)));
    ViewFromFiles(f, Meaning(Reopened(d), UnmarkOp(n)));
  }

  lemma MarkMeaning(d: Dir, n: string, c: Content)
    requires Readable(d)
    ensures var e := d[MarkerFile(n) := c]; Readable(e) && Reopened(e) == Meaning(Reopened(d), MarkOp(n))
  {
    NamesReadBack(MarkerFile(n), n);
    hide Reopened, Classify, BundleFile, MarkerFile;
    var e := d[MarkerFile(n) := c];
    forall m ensures Shows(e, Meaning(Reopened(d), MarkOp(n)), m) {
      ReopenedExactly(d, m);
      NamesDisjoint(n, m);
      NamesDisjoint(m, n);
    }
    ViewFromFiles(e, Meaning(Reopened(d), MarkOp(n)));
  }

  lemma SingleStep(d: Dir, op: StoreOp)
    requires Readable(d) && !op.PutOp?
    ensures var e := DoAll(d, FileOps(op)); Readable(e) && Reopened(e) == Meaning(Reopened(d), op)
  {
    OneCall(d, FileOps(op)[0]);
    if op.MarkOp? {
      MarkMeaning(d, op.name, Partial(0));
    } else {
      UnlinkMeaning(d, op.name);
    }
  }

  /** Crash after the first k system calls of an operation: `open` succeeds and
      recovers the store as it was before the operation, or, when it had run to its
      end, as the operation means it to be. */
  lemma CrashAtomic(d: Dir, op: StoreOp, k: nat)
    requires Readable(d) && k <= |FileOps(op)|
    ensures var e := DoAll(d, FileOps(op)[..k]);
      Readable(e) && Reopened(e) == if k == |FileOps(op)| then Meaning(Reopened(d), op) else Reopened(d)
  {
    var ops := FileOps(op);
    if k == |ops| {
      assert ops[..k] == ops;
      if op.PutOp? {
        PutWhole(d, op.name, op.bundle, op.chunks);
      } else {
        SingleStep(d, op);
      }
    } else if op.PutOp? {
      PutPrefix(d, op.name, op.bundle, op.chunks, k);
      if k > 0 {
        TmpInvisible(d, op.name, ops[k - 1].content);
      }
    } else {
      assert ops[..k] == [];
    }
  }

  // -------------------------------------------------------------- whole runs

  /** One operation of a run, and how many of its system calls it got through
      before it was done, failed, or the driver went down. */
  datatype Attempt = Attempt(op: StoreOp, steps: nat)

  ghost predicate Possible(a: Attempt) { a.steps <= |FileOps(a.op)| }

  function RunFiles(d: Dir, run: seq<Attempt>): Dir
    requires forall i | 0 <= i < |run| :: Possible(run[i])
  {
    if run == [] then d
    else
      var last := run[|run| - 1];
      assert Possible(last);
      DoAll(RunFiles(d, run[..|run| - 1]), FileOps(last.op)[..last.steps])
  }

  /** The same run with no files: a cut operation never happened. */
  function RunMeaning(v: View, run: seq<Attempt>): View {
    if run == [] then v
    else
      var last := run[|run| - 1];
      var before := RunMeaning(v, run[..|run| - 1]);
      if last.steps == |FileOps(last.op)| then Meaning(before, last.op) else before
  }

  /** Over any run of operations, each cut anywhere or not at all, with the driver
      reopened after every cut, the files recover exactly what the completed
      operations mean: leftovers of cut ones never show and never block `open`. */
  lemma {:induction false} RunIsAtomic(d: Dir, run: seq<Attempt>)
    requires Readable(d) && forall i | 0 <= i < |run| :: Possible(run[i])
    ensures Readable(RunFiles(d, run)) && Reopened(RunFiles(d, run)) == RunMeaning(Reopened(d), run)
  {
    if run != [] {
      var front, last := run[..|run| - 1], run[|run| - 1];
      RunIsAtomic(d, front);
      CrashAtomic(RunFiles(d, front), last.op, last.steps);
    }
  }
}
