/** The candidate list: the `.jar` files directly under the `plugins` directory of the install location. */
module Scanner {
  import opened Strings

  const PLUGINS := "plugins"
  const JAR_SUFFIX := ".jar"

  /** One entry of `File.listFiles()`: its name and whether it is an ordinary file. */
  datatype DirEntry = DirEntry(name: string, isFile: bool)

  /** `File.separatorChar` */
  function Separator(isWindows: bool): char
  {
    if isWindows then '\\' else '/'
  }

  /** `PLUGINS + File.separatorChar + file.getName()` */
  function CandidatePath(name: string, isWindows: bool): string
  {
    PLUGINS + [Separator(isWindows)] + name
  }

  /** The entry is a file whose path (and so whose name) ends in `.jar`. */
  predicate IsJar(e: DirEntry)
  {
    e.isFile && EndsWith(e.name, JAR_SUFFIX)
  }

  /** The candidate paths a listing yields. */
  function Candidates(entries: seq<DirEntry>, isWindows: bool): set<string>
  {
    set e | e in entries && IsJar(e) :: CandidatePath(e.name, isWindows)
  }

  /** The candidate set of one run, collected as the loop over `listFiles()` does. */
  method ScanPlugins(entries: seq<DirEntry>, isWindows: bool) returns (plugins: set<string>)
    ensures forall p :: p in plugins <==> exists e :: e in entries && IsJar(e) && p == CandidatePath(e.name, isWindows)
    ensures plugins == Candidates(entries, isWindows)
  {
    plugins := {};
    var i := 0;
    while i < |entries|
      invariant 0 <= i <= |entries|
      invariant forall p :: p in plugins <==> exists e :: e in entries[..i] && IsJar(e) && p == CandidatePath(e.name, isWindows)
    {
      var file := entries[i];
      if file.isFile && EndsWith(file.name, JAR_SUFFIX) {
        plugins := plugins + {CandidatePath(file.name, isWindows)};
      }
      assert entries[..i + 1] == entries[..i] + [file];
      i := i + 1;
    }
    assert entries[..i] == entries;
  }

  /** The name can be read back from its candidate path, after `plugins` and one separator. */
  lemma CandidatePathName(name: string, isWindows: bool)
    ensures StartsWith(CandidatePath(name, isWindows), PLUGINS)
    ensures CandidatePath(name, isWindows)[|PLUGINS| + 1..] == name
  {
  }

  /** Distinct file names give distinct candidates. */
  lemma CandidatePathInjective(a: string, b: string, isWindows: bool)
    ensures CandidatePath(a, isWindows) == CandidatePath(b, isWindows) <==> a == b
  {
    if CandidatePath(a, isWindows) == CandidatePath(b, isWindows) {
      CandidatePathName(a, isWindows);
      CandidatePathName(b, isWindows);
    }
  }
}
