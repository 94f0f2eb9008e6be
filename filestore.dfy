/** An abstract file system: the directories that exist and the files with their contents.
    A path is the current directory or a name inside a path, so `os.path.join(p, n)`
    is `Sub(p, n)`. */
module FileStore {
  import opened Outcomes

  datatype Path = Cwd | Sub(parent: Path, name: string)

  /** A snapshot of the file system: its directories and its files with their contents. */
  datatype Store = Store(dirs: set<Path>, files: map<Path, string>)

  /** The errors the modelled calls raise: the OSError subclasses of `open` and
      `os.makedirs`. `sf.write` fails on the same paths with libsndfile's own error, which
      is modelled as the one `open` would raise there. */
  datatype FsError =
    | FileExists(path: Path)
    | FileNotFound(path: Path)
    | NotADirectory(path: Path)
    | IsADirectory(path: Path)

  /** The tree shape every real directory listing has: the current directory exists,
      the parent of a directory is a directory, every file sits in a directory,
      and no path is both. */
  ghost predicate Closed(dirs: set<Path>, files: map<Path, string>)
  {
    && Cwd in dirs
    && (forall d | d in dirs && d.Sub? :: d.parent in dirs)
    && (forall f | f in files :: f.Sub? && f.parent in dirs && f !in dirs)
  }

  /** The path itself and all its ancestors up to the current directory:
      what `os.makedirs` may create. */
  function Ancestors(p: Path): (r: set<Path>)
    ensures p in r && Cwd in r
  {
    if p == Cwd then {Cwd} else {p} + Ancestors(p.parent)
  }

  /** How many names the path has. */
  function Depth(p: Path): nat
  {
    if p == Cwd then 0 else Depth(p.parent) + 1
  }

  /** No ancestor is deeper than the path itself. */
  lemma {:induction false} AncestorsAbove(p: Path)
    ensures forall q | q in Ancestors(p) :: Depth(q) <= Depth(p)
  {
    if p.Sub? {
      AncestorsAbove(p.parent);
    }
  }

  /** Some proper ancestor of `p` is a file. */
  predicate UnderFile(files: map<Path, string>, p: Path)
  {
    p.Sub? && (p.parent in files || UnderFile(files, p.parent))
  }

  lemma AncestorsClosed(p: Path)
    ensures forall d | d in Ancestors(p) && d.Sub? :: d.parent in Ancestors(p)
  {
    if p.Sub? {
      AncestorsClosed(p.parent);
    }
  }

  /** A proper ancestor that is a file is what UnderFile finds. */
  lemma AncestorFile(files: map<Path, string>, p: Path, q: Path)
    requires q in Ancestors(p) && q != p && q in files
    ensures UnderFile(files, p)
  {
    if p.parent != q {
      AncestorFile(files, p.parent, q);
    }
  }

  /** In a tree-shaped listing the ancestors of a directory are directories. */
  lemma AncestorsOfDir(dirs: set<Path>, files: map<Path, string>, p: Path)
    requires Closed(dirs, files) && p in dirs
    ensures Ancestors(p) <= dirs
  {
    if p.Sub? {
      AncestorsOfDir(dirs, files, p.parent);
    }
  }

  /** The error `os.makedirs(p, exist_ok=existOk)` raises, if any. */
  function MakeDirsError(dirs: set<Path>, files: map<Path, string>, p: Path, existOk: bool): Option<FsError>
  {
    if p == Cwd then Some(FileNotFound(p))
    else if p in files then Some(FileExists(p))
    else if p in dirs then (if existOk then None else Some(FileExists(p)))
    else if UnderFile(files, p) then Some(NotADirectory(p))
    else None
  }

  /** The error `open(dir/name, "a" or "w")` raises, if any. `sf.write` fails in the same
      cases and is given the same error. */
  function OpenError(dirs: set<Path>, files: map<Path, string>, dir: Path, name: string): Option<FsError>
  {
    if Sub(dir, name) in dirs then Some(IsADirectory(Sub(dir, name)))
    else if dir in dirs then None
    else if dir in files || UnderFile(files, dir) then Some(NotADirectory(Sub(dir, name)))
    else Some(FileNotFound(Sub(dir, name)))
  }

  /** The files after `text` is appended to the file at `p` (created empty when missing). */
  function Appended(files: map<Path, string>, p: Path, text: string): (r: map<Path, string>)
    ensures p in r && r.Keys == files.Keys + {p}
    ensures r[p] == (if p in files then files[p] else "") + text
    ensures forall q | q in files && q != p :: r[q] == files[q]
  {
    files[p := (if p in files then files[p] else "") + text]
  }

  /** With `exist_ok=True`, creating a directory that exists succeeds and changes nothing. */
  lemma MakeDirsIdempotent(dirs: set<Path>, files: map<Path, string>, p: Path)
    requires Closed(dirs, files) && p in dirs && p != Cwd
    ensures MakeDirsError(dirs, files, p, true) == None
    ensures dirs + Ancestors(p) == dirs
  {
    AncestorsOfDir(dirs, files, p);
  }

  /** `os.makedirs` without `exist_ok` succeeds exactly when nothing is at `p` and no
      ancestor of `p` is a file; the tree shape survives the creation, and a child
      of a freshly created directory is free. */
  lemma MakeDirsFresh(dirs: set<Path>, files: map<Path, string>, p: Path, child: string)
    requires Closed(dirs, files) && p != Cwd
    ensures MakeDirsError(dirs, files, p, false) == None <==>
              p !in dirs && p !in files && !UnderFile(files, p)
    ensures MakeDirsError(dirs, files, p, false) == None ==>
              && Closed(dirs + Ancestors(p), files)
              && Sub(p, child) !in dirs + Ancestors(p) && Sub(p, child) !in files
  {
    if MakeDirsError(dirs, files, p, false) == None {
      AncestorsAbove(p);
      AncestorsClosed(p);
      forall f | f in files
        ensures f !in Ancestors(p)
      {
        if f in Ancestors(p) {
          AncestorFile(files, p, f);
        }
      }
    }
  }

  class FileSystem {
    var dirs: set<Path>
    var files: map<Path, string>

    ghost predicate Valid()
      reads this
    {
      Closed(dirs, files)
    }

    /** An empty working directory. */
    constructor ()
      ensures Valid() && dirs == {Cwd} && files == map[]
    {
      dirs := {Cwd};
      files := map[];
    }

    function State(): Store
      reads this
    {
      Store(dirs, files)
    }

    /** `os.path.exists(p)`. */
    function Exists(p: Path): bool
      reads this
    {
      p in dirs || p in files
    }

    /** `os.makedirs(p, exist_ok=existOk)`. */
    method MakeDirs(p: Path, existOk: bool) returns (e: Option<FsError>)
      requires Valid()
      modifies this`dirs
      ensures Valid()
      ensures e == MakeDirsError(old(dirs), files, p, existOk)
      ensures dirs == if e.None? then old(dirs) + Ancestors(p) else old(dirs)
    {
      e := MakeDirsError(dirs, files, p, existOk);
      if e.None? {
        if p in dirs {
          MakeDirsIdempotent(dirs, files, p);
        } else {
          MakeDirsFresh(dirs, files, p, "");
        }
        dirs := dirs + Ancestors(p);
      }
    }

    /** `open(dir/name, "a").write(text)`: creates the file when missing, else extends it. */
    method Append(dir: Path, name: string, text: string) returns (e: Option<FsError>)
      requires Valid()
      modifies this`files
      ensures Valid()
      ensures e == OpenError(dirs, old(files), dir, name)
      ensures files == if e.None? then Appended(old(files), Sub(dir, name), text) else old(files)
    {
      e := OpenError(dirs, files, dir, name);
      if e.None? {
        var p := Sub(dir, name);
        files := files[p := (if p in files then files[p] else "") + text];
      }
    }

    /** `open(dir/name, "w").write(content)`, and `sf.write` with its failure modelled as
        that of `open`: creates or truncates. */
    method Write(dir: Path, name: string, content: string) returns (e: Option<FsError>)
      requires Valid()
      modifies this`files
      ensures Valid()
      ensures e == OpenError(dirs, old(files), dir, name)
      ensures files == if e.None? then old(files)[Sub(dir, name) := content] else old(files)
    {
      e := OpenError(dirs, files, dir, name);
      if e.None? {
        files := files[Sub(dir, name) := content];
      }
    }
  }
}
