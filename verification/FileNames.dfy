/** The file names of the bundle store and how `open` reads them back. */
module FileNames {
  import opened Prelude
  import opened Strings

  const JSON := ".json"
  const STOPPED := ".stopped"
  const TMP := ".json.tmp"

  function BundleFile(name: string): string { name + JSON }

  function MarkerFile(name: string): string { name + STOPPED }

  function TmpFile(name: string): string { name + TMP }

  datatype Entry = Marker(name: string) | BundleOf(name: string) | Ignored

  /** What `open` makes of one directory entry: the marker suffix is tried first. */
  function Classify(file: string): Entry {
    match StripSuffix(file, STOPPED)
    case Some(name) => Marker(name)
    case None =>
      match StripSuffix(file, JSON)
      case Some(name) => BundleOf(name)
      case None => Ignored
  }

  /** For every actor name the three kinds of file are told apart and read back
      exactly: a bundle file is the bundle of that name and no other, a marker
      file the marker of that name, and a temporary file is never picked up. */
  lemma NamesReadBack(file: string, name: string)
    ensures Classify(file) == Marker(name) <==> file == MarkerFile(name)
    ensures Classify(file) == BundleOf(name) <==> file == BundleFile(name)
    ensures Classify(TmpFile(name)) == Ignored
  {
    StripSuffixExact(file, STOPPED, name);
    StripSuffixExact(file, JSON, name);
    LastChar(name, JSON);
    LastChar(name, TMP);
    if Classify(TmpFile(name)) != Ignored {
      var other := Classify(TmpFile(name)).name;
      StripSuffixExact(TmpFile(name), STOPPED, other);
      StripSuffixExact(TmpFile(name), JSON, other);
      LastChar(other, JSON);
      LastChar(other, STOPPED);
    }
    if file == BundleFile(name) && StripSuffix(file, STOPPED).Some? {
      var other := StripSuffix(file, STOPPED).value;
      StripSuffixExact(file, STOPPED, other);
      LastChar(other, STOPPED);
    }
  }

  /** What the files are called. */
  lemma FilesAre(name: string)
    ensures Classify(name + ".stopped") == Marker(name)
    ensures Classify(name + ".json") == BundleOf(name)
    ensures Classify(name + ".json.tmp") == Ignored
  {
    NamesReadBack(name + ".stopped", name);
    NamesReadBack(name + ".json", name);
  }

  /** Two names never share a file, whatever kinds of file they are. */
  lemma NamesDisjoint(a: string, b: string)
    ensures BundleFile(a) != MarkerFile(b) && BundleFile(a) != TmpFile(b) && MarkerFile(a) != TmpFile(b)
    ensures BundleFile(a) == BundleFile(b) ==> a == b
    ensures MarkerFile(a) == MarkerFile(b) ==> a == b
    ensures TmpFile(a) == TmpFile(b) ==> a == b
  {
    NamesReadBack(BundleFile(a), a);
    NamesReadBack(MarkerFile(a), a);
    NamesReadBack(BundleFile(b), b);
    NamesReadBack(MarkerFile(b), b);
    StripSuffixExact(TmpFile(a), TMP, a);
    StripSuffixExact(TmpFile(b), TMP, b);
  }
}
