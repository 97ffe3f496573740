/**
 * The part of the operating system and of the pickle library the
 * checkpoint controller uses: a directory tree seen as a map from path to
 * stored content, and the primitives `exists`, `unlink`, `rename`,
 * `pickle.dump` and `pickle.load`.
 */
module Files {
  import opened Executors

  type Path = string

  /** `Path(dir) / name`. */
  function Join(dir: Path, name: string): (p: Path)
    ensures |p| == |dir| + 1 + |name|
    ensures p[..|dir|] == dir && p[|dir|] == '/' && p[|dir| + 1..] == name
  {
    dir + "/" + name
  }

  /** What a file holds: a pickled checkpoint `{"states": states}`, or bytes
      that do not unpickle to one (a corrupt file, or a dump cut short). */
  datatype FileContent = Pickled(states: map<string, ExecutionState>) | Unreadable

  datatype LoadError = Unpicklable(path: Path)

  datatype Result<T> = Ok(value: T) | Err(error: LoadError)

  /** `pickle.load(open(p))["states"]`: gives back exactly what was dumped,
      and fails on anything else. */
  function Unpickle(p: Path, c: FileContent): (r: Result<map<string, ExecutionState>>)
    ensures r.Ok? <==> c.Pickled?
    ensures c.Pickled? ==> r.value == c.states
    ensures r.Err? ==> r.error == Unpicklable(p)
  {
    match c
    case Pickled(states) => Ok(states)
    case Unreadable => Err(Unpicklable(p))
  }

  /** `os.rename(src, dst)` on POSIX: `dst` takes what `src` held (replacing
      whatever was there) and `src` disappears. */
  function Moved(files: map<Path, FileContent>, src: Path, dst: Path): (r: map<Path, FileContent>)
    requires src in files
    ensures dst in r && r[dst] == files[src]
    ensures src != dst ==> src !in r
    ensures forall p :: p != src && p != dst ==> (p in r <==> p in files)
    ensures forall p :: p in files && p != src && p != dst ==> r[p] == files[p]
  {
    (files - {src})[dst := files[src]]
  }

  class FileSystem {
    var files: map<Path, FileContent>

    constructor (files: map<Path, FileContent>)
      ensures this.files == files
    {
      this.files := files;
    }

    /** `Path.exists()` / `os.path.isfile`: only regular files are modelled,
        so the two coincide. */
    method Exists(p: Path) returns (b: bool)
      ensures b <==> p in files
    {
      b := p in files;
    }

    /** `os.unlink(p)`; the controller only unlinks a file it has just seen. */
    method Unlink(p: Path)
      requires p in files
      modifies this
      ensures files == old(files) - {p}
    {
      files := files - {p};
    }

    method Rename(src: Path, dst: Path)
      requires src in files
      modifies this
      ensures files == Moved(old(files), src, dst)
    {
      files := (files - {src})[dst := files[src]];
    }

    /** `pickle.dump({"states": states}, open(p, 'wb'))`: creates or
        overwrites `p`. */
    method DumpPickle(p: Path, states: map<string, ExecutionState>)
      modifies this
      ensures files == old(files)[p := Pickled(states)]
    {
      files := files[p := Pickled(states)];
    }

    method LoadPickle(p: Path) returns (r: Result<map<string, ExecutionState>>)
      requires p in files
      ensures r == Unpickle(p, files[p])
    {
      match files[p]
      case Pickled(states) => r := Ok(states);
      case Unreadable => r := Err(Unpicklable(p));
    }
  }
}
