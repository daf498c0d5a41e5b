/** The filesystem the stores write to, as a map from path to file
    contents plus the set of directories, and the helpers of utils.go that
    touch it. Paths in `denied` stand for the paths the process may not
    write or create (permissions, read-only mounts). */
module FileSystem {
  import opened Types
  import opened Paths
  import opened Order
  import opened Pem

  datatype Fs = Fs(files: map<string, PemData>, dirs: set<string>, denied: set<string>)

  /** os.Stat succeeds: a file or a directory is there; "" is the current
      directory, which always exists. */
  predicate Exists(fs: Fs, p: string)
  {
    p == "" || p in fs.files || p in fs.dirs
  }

  /** ioutil.ReadFile. */
  function Read(fs: Fs, p: string): (r: Result<PemData>)
    ensures r.Ok? <==> p in fs.files
    ensures r.Ok? ==> r.value == fs.files[p]
  {
    if p in fs.files then Ok(fs.files[p])
    else if p in fs.dirs then Err(IsADirectory(p))
    else Err(NotFound(p))
  }

  /** ioutil.WriteFile: replaces the file when its directory exists and the
      path may be written; otherwise nothing changes. */
  function Write(fs: Fs, p: string, data: PemData): (r: (Fs, Option<Error>))
    ensures r.1.None? <==> p !in fs.denied && p !in fs.dirs && (Dir(p) == "" || Dir(p) in fs.dirs)
    ensures r.1.None? ==> r.0 == fs.(files := fs.files[p := data])
    ensures r.1.Some? ==> r.0 == fs
  {
    if p in fs.denied then (fs, Some(PermissionDenied(p)))
    else if p in fs.dirs then (fs, Some(IsADirectory(p)))
    else if Dir(p) != "" && Dir(p) !in fs.dirs then
      (fs, Some(if Dir(p) in fs.files then NotADirectory(p) else NotFound(p)))
    else (fs.(files := fs.files[p := data]), None)
  }

  /** os.MkdirAll for one directory (its ancestors are not tracked). */
  function Mkdir(fs: Fs, d: string): (r: (Fs, Option<Error>))
    ensures r.1.None? <==> d !in fs.denied && d !in fs.files
    ensures r.1.None? ==> r.0 == fs.(dirs := fs.dirs + {d})
    ensures r.1.Some? ==> r.0 == fs
  {
    if d in fs.denied then (fs, Some(PermissionDenied(d)))
    else if d in fs.files then (fs, Some(NotADirectory(d)))
    else (fs.(dirs := fs.dirs + {d}), None)
  }

  /** EnsureParentPathExists: create the parent directory unless something
      already exists there. Only directories change; files never do. */
  function EnsureParent(fs: Fs, target: string): (r: (Fs, Option<Error>))
    ensures r.0.files == fs.files && r.0.denied == fs.denied && fs.dirs <= r.0.dirs
    ensures r.1.None? && Dir(target) !in fs.files ==> Dir(target) == "" || Dir(target) in r.0.dirs
    ensures r.1.Some? ==> r.0 == fs && Dir(target) !in fs.dirs
  {
    var d := Dir(target);
    if !Exists(fs, d) then Mkdir(fs, d) else (fs, None)
  }

  /** The directory part of a joined path, with its trailing slash. */
  function DirPrefix(dir: string): string
  {
    if dir == "" then "" else dir + "/"
  }

  /** The file-name pattern prefix*suffix; the star never spans a slash. */
  predicate NameMatches(name: string, prefix: string, suffix: string)
  {
    IsName(name) && |name| >= |prefix| + |suffix|
    && name[..|prefix|] == prefix && name[|name| - |suffix|..] == suffix
  }

  /** p matches the pattern Join(dir, prefix + "*" + suffix). */
  predicate GlobMatches(dir: string, prefix: string, suffix: string, p: string)
  {
    var dp := DirPrefix(dir);
    |p| >= |dp| && p[..|dp|] == dp && NameMatches(p[|dp|..], prefix, suffix)
  }

  lemma GlobMatchesJoin(dir: string, name: string, prefix: string, suffix: string)
    ensures GlobMatches(dir, prefix, suffix, Join(dir, name)) <==> NameMatches(name, prefix, suffix)
  {
    var dp := DirPrefix(dir);
    assert Join(dir, name) == dp + name;
    assert (dp + name)[..|dp|] == dp && (dp + name)[|dp|..] == name;
  }

  ghost function GlobSet(fs: Fs, dir: string, prefix: string, suffix: string): set<string>
  {
    set p | p in fs.files.Keys + fs.dirs && GlobMatches(dir, prefix, suffix, p)
  }

  /** filepath.Glob: the matching entries of the directory, sorted. */
  ghost function Globbed(fs: Fs, dir: string, prefix: string, suffix: string): (r: seq<string>)
    ensures StrictlySorted(r)
    ensures forall p :: p in r <==> (p in fs.files || p in fs.dirs) && GlobMatches(dir, prefix, suffix, p)
  {
    SortedList(GlobSet(fs, dir, prefix, suffix))
  }

  class Disk {
    var files: map<string, PemData>
    var dirs: set<string>
    const denied: set<string>

    function View(): Fs
      reads this
    {
      Fs(files, dirs, denied)
    }

    constructor (files: map<string, PemData>, dirs: set<string>, denied: set<string>)
      ensures View() == Fs(files, dirs, denied)
    {
      this.files := files;
      this.dirs := dirs;
      this.denied := denied;
    }

    method ReadFile(p: string) returns (r: Result<PemData>)
      ensures r == Read(View(), p)
    {
      if p in files {
        r := Ok(files[p]);
      } else if p in dirs {
        r := Err(IsADirectory(p));
      } else {
        r := Err(NotFound(p));
      }
    }

    method WriteFile(p: string, data: PemData) returns (err: Option<Error>)
      modifies this
      ensures (View(), err) == Write(old(View()), p, data)
    {
      if p in denied {
        err := Some(PermissionDenied(p));
      } else if p in dirs {
        err := Some(IsADirectory(p));
      } else if Dir(p) != "" && Dir(p) !in dirs {
        err := Some(if Dir(p) in files then NotADirectory(p) else NotFound(p));
      } else {
        files := files[p := data];
        err := None;
      }
    }

    method MkdirAll(d: string) returns (err: Option<Error>)
      modifies this
      ensures (View(), err) == Mkdir(old(View()), d)
    {
      if d in denied {
        err := Some(PermissionDenied(d));
      } else if d in files {
        err := Some(NotADirectory(d));
      } else {
        dirs := dirs + {d};
        err := None;
      }
    }

    method FileExists(p: string) returns (b: bool)
      ensures b == Exists(View(), p)
    {
      b := p == "" || p in files || p in dirs;
    }

    /** Selection of the least remaining match, one at a time. */
    method Glob(dir: string, prefix: string, suffix: string) returns (names: seq<string>)
      ensures names == Globbed(View(), dir, prefix, suffix)
    {
      var matches := set p | p in files.Keys + dirs && GlobMatches(dir, prefix, suffix, p);
      assert matches == GlobSet(View(), dir, prefix, suffix);
      names := [];
      var rest := matches;
      while rest != {}
        invariant rest <= matches
        invariant StrictlySorted(names)
        invariant forall x :: x in names <==> x in matches && x !in rest
        invariant forall i, y :: 0 <= i < |names| && y in rest ==> LexLess(names[i], y)
        decreases |rest|
      {
        LeastExists(rest);
        var m :| IsLeast(m, rest);
        names := names + [m];
        rest := rest - {m};
      }
      SortedUnique(names, SortedList(matches));
    }
  }

  method EnsureParentPathExists(disk: Disk, targetPath: string) returns (err: Option<Error>)
    modifies disk
    ensures (disk.View(), err) == EnsureParent(old(disk.View()), targetPath)
  {
    var dirPath := Dir(targetPath);
    var present := disk.FileExists(dirPath);
    if !present {
      err := disk.MkdirAll(dirPath);
    } else {
      err := None;
    }
  }
}
