/** The bundle store itself: a map cached over the directory, its version
    counter, and the operations that write through. */
module BundleStore {
  import opened Prelude
  import opened FileNames
  import opened StoreFiles

  /** The store's directory. `log` remembers the system calls that went through,
      so that what a crash could have left behind can be told afterwards. */
  class Disk {
    var files: Dir
    ghost var log: seq<FileOp>

    constructor (d: Dir)
      ensures files == d && log == []
    {
      files, log := d, [];
    }

    /** One system call, which either happens or fails without effect. */
    method Call(op: FileOp, fails: bool) returns (ok: bool)
      modifies this
      ensures ok == !fails
      ensures files == if ok then Do(old(files), op) else old(files)
      ensures log == if ok then old(log) + [op] else old(log)
    {
      ok := !fails;
      if ok {
        files := Do(files, op);
        log := log + [op];
      }
    }
  }

  function Min(a: nat, b: nat): nat { if a < b then a else b }

  class Store {
    const disk: Disk
    const stopped: set<string>
    var bundles: map<string, Bundle>
    var changed: nat

    constructor (disk: Disk, stopped: set<string>, bundles: map<string, Bundle>)
      ensures this.disk == disk && this.stopped == stopped && this.bundles == bundles && changed == 0
    {
      this.disk, this.stopped, this.bundles, changed := disk, stopped, bundles, 0;
    }

    /** The directory can be opened again. */
    ghost predicate Valid()
      reads this, disk
    {
      Readable(disk.files)
    }

    /** The cached map is what a reopen would load. */
    ghost predicate InStep()
      reads this, disk
    {
      bundles == Reopened(disk.files).bundles
    }

    /** Read the directory, entry by entry in whatever order it comes. It fails on
        an unreadable bundle file and only then; otherwise the store holds exactly
        the bundles and the marks whose files are there. */
    static method Open(disk: Disk) returns (r: Result<Store, string>)
      ensures r.Ok? <==> Readable(disk.files)
      ensures r.Ok? ==> fresh(r.value) && r.value.disk == disk && r.value.Valid() && r.value.InStep()
      ensures r.Ok? ==> r.value.stopped == Reopened(disk.files).stopped && r.value.changed == 0
    {
      var bundles: map<string, Bundle>, stopped: set<string> := map[], {};
      var todo := disk.files.Keys;
      while todo != {}
        invariant todo <= disk.files.Keys
        invariant forall f | f in disk.files && f !in todo && Classify(f).BundleOf? :: disk.files[f].Whole?
        invariant forall n :: n in bundles <==> BundleFile(n) in disk.files.Keys - todo
        invariant forall n | n in bundles :: disk.files[BundleFile(n)] == Whole(bundles[n])
        invariant forall n :: n in stopped <==> MarkerFile(n) in disk.files.Keys - todo
      {
        var file :| file in todo;
        todo := todo - {file};
        forall n ensures (Classify(file) == Marker(n) <==> file == MarkerFile(n))
          ensures (Classify(file) == BundleOf(n) <==> file == BundleFile(n))
        {
          NamesReadBack(file, n);
        }
        match Classify(file)
        case Marker(name) => stopped := stopped + {name};
        case BundleOf(name) =>
          if disk.files[file].Partial? {
            return Err(file);
          }
          bundles := bundles[name := disk.files[file].bundle];
        case Ignored =>
      }
      forall n ensures Shows(disk.files, View(bundles, stopped), n) {}
      ViewFromFiles(disk.files, View(bundles, stopped));
      var store := new Store(disk, stopped, bundles);
      r := Ok(store);
    }

    /** Create or remove the actor's marker. */
    method SetStopped(name: string, stopped: bool, fails: bool) returns (ok: bool)
      requires Valid()
      modifies disk
      ensures Valid() && ok == !fails
      ensures var op := if stopped then MarkOp(name) else UnmarkOp(name);
        var steps := if ok then FileOps(op) else [];
        disk.log == old(disk.log) + steps && disk.files == DoAll(old(disk.files), steps)
        && Reopened(disk.files) == if ok then Meaning(old(Reopened(disk.files)), op) else old(Reopened(disk.files))
    {
      ghost var op := if stopped then MarkOp(name) else UnmarkOp(name);
      ghost var before := disk.files;
      SingleStep(before, op);
      OneCall(before, FileOps(op)[0]);
      if stopped {
        ok := disk.Call(Write(MarkerFile(name), Partial(0)), fails);
      } else {
        ok := disk.Call(Unlink(MarkerFile(name)), fails);
      }
    }

    /** Write the bundle beside its file, rename it into place, then cache it and
        bump the counter. The system call number `fault` fails, if it comes to
        that; whatever was done till then is a prefix of the operation's calls. A
        call that is `dropped` goes away while it waits for the cache, once the file
        is in place: the disk is then ahead of the cache till the next put or reopen. */
    method Put(name: string, bundle: Bundle, chunks: nat, fault: nat, dropped: bool) returns (ok: bool)
      requires Valid()
      modifies this, disk
      ensures Valid()
      ensures ok == (chunks + 3 <= fault && !dropped)
      ensures var steps := FileOps(PutOp(name, bundle, chunks))[..Min(fault, chunks + 3)];
        disk.log == old(disk.log) + steps && disk.files == DoAll(old(disk.files), steps)
      ensures var before := old(Reopened(disk.files));
        Reopened(disk.files) == if chunks + 3 <= fault then Meaning(before, PutOp(name, bundle, chunks)) else before
      ensures bundles == if ok then old(bundles)[name := bundle] else old(bundles)
      ensures changed == if ok then old(changed) + 1 else old(changed)
      ensures old(InStep()) && (ok || fault < chunks + 3) ==> InStep()
    {
      ghost var op := PutOp(name, bundle, chunks);
      ghost var ops := FileOps(op);
      ghost var before := disk.files;
      PutCalls(name, bundle, chunks);
      CrashAtomic(before, op, Min(fault, chunks + 3));
      hide Do, DoAll, FileOps, Reopened, Readable, TmpFile, BundleFile;
      ok := WriteTmp(name, bundle, chunks, fault);
      if !ok {
        return;
      }
      NextCall(before, ops, chunks + 2);
      ok := disk.Call(Rename(TmpFile(name), BundleFile(name)), fault == chunks + 2);
      if !ok {
        return;
      }
      assert ops[..chunks + 3] == ops;
      if dropped {
        return false;
      }
      bundles := bundles[name := bundle];
      changed := changed + 1;
    }

    /** Fill the temporary file: everything a put does before its rename. */
    method WriteTmp(name: string, bundle: Bundle, chunks: nat, fault: nat) returns (ok: bool)
      modifies disk
      ensures ok == (chunks + 2 <= fault)
      ensures var steps := FileOps(PutOp(name, bundle, chunks))[..Min(fault, chunks + 2)];
        disk.log == old(disk.log) + steps && disk.files == DoAll(old(disk.files), steps)
    {
      ghost var ops := FileOps(PutOp(name, bundle, chunks));
      ghost var before := disk.files;
      PutCalls(name, bundle, chunks);
      hide Do, DoAll, FileOps, TmpFile, BundleFile;
      NextCall(before, ops, 0);
      var i := 0;
      while i < chunks + 1
        invariant i <= chunks + 1 && i <= fault
        invariant disk.log == old(disk.log) + ops[..i] && disk.files == DoAll(before, ops[..i])
      {
        NextCall(before, ops, i);
        ok := disk.Call(Write(TmpFile(name), Partial(i)), i == fault);
        if !ok {
          return;
        }
        i := i + 1;
      }
      NextCall(before, ops, chunks + 1);
      ok := disk.Call(Write(TmpFile(name), Whole(bundle)), fault == chunks + 1);
    }

    /** Forget the bundle, then unlink its file. */
    method Remove(name: string, fails: bool) returns (ok: bool)
      requires Valid()
      modifies this, disk
      ensures Valid() && ok == !fails && changed == old(changed)
      ensures var steps := if ok then FileOps(RemoveOp(name)) else [];
        disk.log == old(disk.log) + steps && disk.files == DoAll(old(disk.files), steps)
      ensures Reopened(disk.files) ==
              if ok then Meaning(old(Reopened(disk.files)), RemoveOp(name)) else old(Reopened(disk.files))
      ensures bundles == old(bundles) - {name}
      ensures ok && old(InStep()) ==> InStep()
    {
      SingleStep(disk.files, RemoveOp(name));
      OneCall(disk.files, Unlink(BundleFile(name)));
      bundles := bundles - {name};
      ok := disk.Call(Unlink(BundleFile(name)), fails);
    }
  }
}
