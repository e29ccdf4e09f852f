/** The part of Node's `fs` and `path` the template tooling uses, as a
    state of directories and files and a journal of the changes made to it. */
module FileSystems {
  import opened Wrappers
  import Text

  /** A change to the file system. */
  datatype FsOp =
    | MakeDirs(path: string)              // `fs.mkdirSync(path, { recursive: true })`
    | WriteFile(path: string, content: string)  // `fs.writeFileSync(path, content)`
    | RemoveAll(path: string)             // `fs.rmSync(path, { recursive: true, force: true })`

  /** The directories and the files (with their text) that exist. */
  datatype FsState = FsState(dirs: set<string>, files: map<string, string>)

  /** `x` is `p` or lies somewhere below it. */
  predicate Within(x: string, p: string) {
    x == p || Text.StartsWith(x, p + "/")
  }

  /** `p` and every directory above it (a root `/` is taken to exist). */
  function DirChain(p: string): set<string> {
    {p} + set i | 0 < i < |p| && p[i] == '/' :: p[..i]
  }

  function Apply(s: FsState, op: FsOp): FsState {
    match op
    case MakeDirs(p) => FsState(s.dirs + DirChain(p), s.files)
    case WriteFile(p, c) => FsState(s.dirs, s.files[p := c])
    case RemoveAll(p) =>
      FsState(set d | d in s.dirs && !Within(d, p), map f | f in s.files && !Within(f, p) :: s.files[f])
  }

  /** The state reached by applying `ops` in order. */
  function ApplyAll(s: FsState, ops: seq<FsOp>): FsState
    decreases |ops|
  {
    if ops == [] then s else Apply(ApplyAll(s, ops[..|ops| - 1]), ops[|ops| - 1])
  }

  lemma ApplyAllSnoc(s: FsState, ops: seq<FsOp>, op: FsOp)
    ensures ApplyAll(s, ops + [op]) == Apply(ApplyAll(s, ops), op)
  {
    assert (ops + [op])[..|ops|] == ops;
  }

  predicate Exists(s: FsState, p: string) {
    p in s.dirs || p in s.files
  }

  /** Removing a directory tree and creating it again leaves it existing
      and empty: nothing that was below it survives. */
  lemma CleanLeavesEmptyDirectory(s: FsState, p: string)
    ensures var t := Apply(Apply(s, RemoveAll(p)), MakeDirs(p));
      && p in t.dirs
      && (forall f | f in t.files :: !Within(f, p))
      && (forall d | d in t.dirs && Within(d, p) :: d == p)
  {
  }

  /** `path.dirname(p)`: the text before the last `/`; `.` when there is
      none and `/` when it is the first character. */
  function Dirname(p: string): string {
    var i := LastSlash(p, |p|);
    if i < 0 then "." else if i == 0 then "/" else p[..i]
  }

  /** Index of the last `/` in `p[..n]`, or -1. */
  function LastSlash(p: string, n: nat): (i: int)
    requires n <= |p|
    ensures -1 <= i < n
    ensures i >= 0 ==> p[i] == '/'
    ensures forall j | i < j < n :: p[j] != '/'
  {
    if n == 0 then -1 else if p[n - 1] == '/' then n - 1 else LastSlash(p, n - 1)
  }

  /** The directory a joined path lies in is the one it was joined onto,
      when the name has no `/` of its own. */
  lemma DirnameOfJoin(dir: string, name: string)
    requires dir != "" && '/' !in name
    ensures Dirname(Text.PathJoin(dir, name)) == dir
  {
    var p := Text.PathJoin(dir, name);
    assert p[|dir|] == '/';
    forall j | |dir| < j < |p| ensures p[j] != '/' {
      assert p[j] == name[j - |dir| - 1];
    }
    assert LastSlash(p, |p|) == |dir|;
    assert p[..|dir|] == dir;
  }

  /** The names directly inside directory `p`. */
  function Children(s: FsState, p: string): set<string> {
    set x | x in s.dirs + s.files.Keys && Text.StartsWith(x, p + "/") && '/' !in x[|p| + 1..] :: x[|p| + 1..]
  }

  /** The message of `fs.readFileSync` on a directory. */
  const DirectoryReadError: string := "EISDIR: illegal operation on a directory, read"

  /** `fs`, with the state it acts on and the journal of every change. */
  class FileSystem {
    var state: FsState
    var journal: seq<FsOp>
    /** The state before the first journalled change. */
    ghost const initial: FsState

    /** The state is the initial one with the journal replayed. */
    ghost predicate Valid()
      reads this
    {
      state == ApplyAll(initial, journal)
    }

    constructor(s: FsState)
      ensures Valid() && state == s && journal == []
    {
      state := s;
      journal := [];
      initial := s;
    }

    /** `fs.existsSync`. */
    predicate PathExists(p: string)
      reads this
    {
      Exists(state, p)
    }

    /** `fs.readFileSync(p, 'utf8')`. */
    function ReadFile(p: string): (r: Result<string>)
      reads this
      ensures r.Ok? <==> p in state.files
      ensures r.Ok? ==> r.value == state.files[p]
    {
      if p in state.files then Ok(state.files[p])
      else if p in state.dirs then Err(DirectoryReadError)
      else Err("ENOENT: no such file or directory, open '" + p + "'")
    }

    /** `fs.readdirSync(p)`, as a set of names. */
    function ReadDir(p: string): (r: Result<set<string>>)
      reads this
      ensures r.Ok? <==> p in state.dirs
      ensures r.Ok? ==> r.value == Children(state, p)
      ensures r.Ok? ==> forall c | c in r.value :: Exists(state, Text.PathJoin(p, c))
    {
      if p in state.dirs then
        var cs := Children(state, p);
        assert forall c | c in cs :: Exists(state, Text.PathJoin(p, c)) by {
          forall c | c in cs ensures Exists(state, Text.PathJoin(p, c)) {
            var x :| x in state.dirs + state.files.Keys && Text.StartsWith(x, p + "/") && '/' !in x[|p| + 1..] && c == x[|p| + 1..];
            assert x == (p + "/") + x[|p| + 1..];
          }
        }
        Ok(cs)
      else if p in state.files then Err("ENOTDIR: not a directory, scandir '" + p + "'")
      else Err("ENOENT: no such file or directory, scandir '" + p + "'")
    }

    method Perform(op: FsOp)
      requires Valid()
      modifies this
      ensures Valid()
      ensures state == Apply(old(state), op) && journal == old(journal) + [op]
    {
      ApplyAllSnoc(initial, journal, op);
      state := Apply(state, op);
      journal := journal + [op];
    }
  }
}
