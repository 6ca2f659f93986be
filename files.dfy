/** The file system the steps read and write, and the two ways the handlers
    build file names: `os.path.join` (POSIX flavour) and the literal
    `'{dir}/{name}'` format that `get_pairs` uses. */
module Files {
  import opened PyValues

  type Line = string
  type Path = string

  /** Every existing file, by path, as its lines (without terminators). */
  type FileSystem = map<Path, seq<Line>>

  predicate IsAbsolute(p: Path) {
    |p| > 0 && p[0] == '/'
  }

  /** `os.path.join(dir, name)`: an absolute `name` replaces `dir`; otherwise a
      separator is inserted unless `dir` is empty or already ends with one. */
  function Join(dir: Path, name: Path): (p: Path)
    ensures IsAbsolute(name) ==> p == name
    ensures !IsAbsolute(name) ==> exists sep :: sep in {"", "/"} && p == dir + sep + name
    ensures !IsAbsolute(name) && dir != "" && dir[|dir| - 1] != '/' ==> p == dir + "/" + name
  {
    if IsAbsolute(name) then name
    else if dir == "" || dir[|dir| - 1] == '/' then
      assert dir + name == dir + "" + name;
      dir + name
    else dir + "/" + name
  }

  /** `os.path.join(dir, v)` where `v` comes from the configuration: only a string is accepted. */
  function JoinValue(dir: Path, v: Value): (r: Result<Path>)
    ensures r.Ok? <==> v.Str?
    ensures v.Str? ==> r.value == Join(dir, v.s)
  {
    if v.Str? then Ok(Join(dir, v.s)) else Err(TypeError)
  }

  /** `'{}/{}'.format(dir, name)`: always one literal separator. */
  function SlashJoin(dir: Path, name: Path): (p: Path)
    ensures |p| == |dir| + 1 + |name| && p[..|dir|] == dir && p[|dir|] == '/' && p[|dir| + 1..] == name
  {
    dir + "/" + name
  }

  /** The literal format and `os.path.join` agree on a relative name under a
      directory that does not end in a separator ... */
  lemma SlashJoinAgreesWithJoin(dir: Path, name: Path)
    requires !IsAbsolute(name) && dir != "" && dir[|dir| - 1] != '/'
    ensures SlashJoin(dir, name) == Join(dir, name)
  {
  }

  /** ... and are spelled differently for an absolute name or a directory
      ending in '/' (only the absolute name reaches a different file, as
      `SlashJoinSameFile` and `AbsoluteNameOtherFile` state). */
  lemma SlashJoinDiffersFromJoin()
    ensures SlashJoin("out", "/data/x.txt") == "out//data/x.txt"
    ensures Join("out", "/data/x.txt") == "/data/x.txt"
    ensures SlashJoin("out/", "x.txt") == "out//x.txt"
    ensures Join("out/", "x.txt") == "out/x.txt"
  {
  }

  /** An absolute name under a relative directory: the literal format reaches
      a file inside the directory, `os.path.join` the absolute one. */
  lemma AbsoluteNameOtherFile(dir: Path, name: Path)
    requires IsAbsolute(name) && dir != "" && dir[0] != '/' && dir[0] != '.'
    ensures Canon(SlashJoin(dir, name)) != Canon(Join(dir, name))
  {
    CanonFirst(SlashJoin(dir, name));
    CanonFirst(Join(dir, name));
  }

  /** No two separators in a row. */
  predicate NoDoubleSlash(p: Path) {
    |p| < 2 || (!(p[0] == '/' && p[1] == '/') && NoDoubleSlash(p[1..]))
  }

  predicate DotPrefixed(p: Path) {
    |p| >= 2 && p[0] == '.' && p[1] == '/'
  }

  /** Every run of separators collapsed to one: POSIX reads `a//b` as `a/b`. */
  function Squeeze(p: Path): (r: Path)
    ensures NoDoubleSlash(r)
    ensures p != [] ==> r != [] && r[0] == p[0]
    ensures NoDoubleSlash(p) ==> r == p
  {
    if |p| < 2 then p
    else if p[0] == '/' && p[1] == '/' then Squeeze(p[1..])
    else
      var r := [p[0]] + Squeeze(p[1..]);
      assert r[1..] == Squeeze(p[1..]);
      assert NoDoubleSlash(p) ==> r == [p[0]] + p[1..];
      r
  }

  /** Leading `./` components dropped: POSIX reads `./a` as `a`. */
  function DropDot(p: Path): (r: Path)
    ensures !DotPrefixed(r)
    ensures NoDoubleSlash(p) ==> NoDoubleSlash(r)
    ensures !DotPrefixed(p) ==> r == p
  {
    if DotPrefixed(p) then
      assert p[1..][1..] == p[2..];
      assert NoDoubleSlash(p) ==> NoDoubleSlash(p[1..]) && (|p[1..]| < 2 || NoDoubleSlash(p[1..][1..]));
      DropDot(p[2..])
    else p
  }

  /** The spelling the model files a path under: two spellings that differ
      only in repeated separators or leading `./` components name one file. */
  function Canon(p: Path): (r: Path)
    ensures NoDoubleSlash(r) && !DotPrefixed(r)
    ensures NoDoubleSlash(p) && !DotPrefixed(p) ==> r == p
  {
    DropDot(Squeeze(p))
  }

  /** A path that does not start with '.' keeps its first character. */
  lemma CanonFirst(p: Path)
    requires p != [] && p[0] != '.'
    ensures Canon(p) != [] && Canon(p)[0] == p[0]
  {
  }

  /** The file `os.path.join(dir, v)` names, for `v` from the configuration. */
  function JoinFile(dir: Path, v: Value): (r: Result<Path>)
    ensures r.Ok? <==> v.Str?
    ensures v.Str? ==> r.value == Canon(Join(dir, v.s))
  {
    if v.Str? then Ok(Canon(Join(dir, v.s))) else Err(TypeError)
  }

  /** An extra separator after one that ends `a` leaves the file unchanged. */
  lemma {:induction false} SqueezeSlash(a: Path, b: Path)
    requires a != [] && a[|a| - 1] == '/'
    ensures Squeeze(a + "/" + b) == Squeeze(a + b)
    decreases |a|
  {
    var x, y := a + "/" + b, a + b;
    if |a| == 1 {
      assert x[1..] == y;
    } else {
      SqueezeSlash(a[1..], b);
      assert x[1..] == a[1..] + "/" + b;
      assert y[1..] == a[1..] + b;
      assert x[0] == y[0] && x[1] == y[1];
    }
  }

  /** The literal format names the same file as `os.path.join` for a relative
      name under a non-empty directory, with or without a trailing '/'. */
  lemma SlashJoinSameFile(dir: Path, name: Path)
    requires !IsAbsolute(name) && dir != ""
    ensures Canon(SlashJoin(dir, name)) == Canon(Join(dir, name))
  {
    if dir[|dir| - 1] == '/' {
      SqueezeSlash(dir, name);
      assert SlashJoin(dir, name) == dir + "/" + name;
    }
  }

  /** Under the directory ".", `os.path.join` names the file the bare name does. */
  lemma DotJoinSameFile(name: Path)
    ensures Canon(Join(".", name)) == Canon(name)
  {
    if !IsAbsolute(name) {
      if name == [] {
        assert Join(".", name) == "./";
        assert Squeeze("./") == "./";
      } else {
        var q := Squeeze(name);
        DotJoinSqueezed(name);
        assert ("./" + q)[2..] == q;
      }
    }
  }

  /** A relative name joined to "." keeps its "./" prefix when squeezed. */
  lemma DotJoinSqueezed(name: Path)
    requires name != [] && !IsAbsolute(name)
    ensures Squeeze(Join(".", name)) == "./" + Squeeze(name)
  {
    var p := "./" + name;
    var t := "/" + name;
    assert Join(".", name) == p;
    assert t[1..] == name && p[1..] == t;
    assert Squeeze(t) == "/" + Squeeze(name);
  }

  /** Opening a file for reading: `FileNotFoundError` when it does not exist. */
  function ReadFile(fs: FileSystem, path: Path): (r: Result<seq<Line>>)
    ensures r.Ok? <==> path in fs
    ensures r.Ok? ==> r.value == fs[path]
    ensures r.Err? ==> r.error == FileNotFound(path)
  {
    if path in fs then Ok(fs[path]) else Err(FileNotFound(path))
  }

  /** Opening files for writing: each is created, or truncated when it exists. */
  function Truncate(fs: FileSystem, paths: seq<Path>): (r: FileSystem)
    ensures r.Keys == fs.Keys + set p | p in paths
    ensures forall p :: p in paths ==> r[p] == []
    ensures forall p :: p in fs && p !in paths ==> r[p] == fs[p]
    decreases |paths|
  {
    if paths == [] then fs else Truncate(fs[paths[0] := []], paths[1..])
  }
}
