/** The host operating system as the terminal sees it: a working directory and a
    filesystem, with the effect and the error of each `os`/`shutil` call the
    command handlers make. Paths are taken literally, as keys of a map; the
    entries below a directory `d` are the longer keys that start with `Below(d)`. */
module FileSystem {
  import opened Wrappers
  import opened Ordering

  datatype Node = File(content: string) | Dir

  type Fs = map<string, Node>

  /** The exceptions the OS calls raise (the concrete message, `str(e)`, is left
      to the caller's collaborator). */
  datatype OsError =
    | FileNotFound(path: string)       // FileNotFoundError
    | NotADirectory(path: string)      // NotADirectoryError
    | IsADirectory(path: string)       // IsADirectoryError
    | DirectoryNotEmpty(path: string)  // OSError with ENOTEMPTY
    | FileExists(path: string)         // FileExistsError
    | SameFile(path: string)           // shutil.SameFileError
    | DestinationExists(path: string)  // shutil.Error: the destination path already exists
    | IntoItself(path: string)         // shutil.Error: cannot move a directory into itself
    | CopyErrors(path: string)         // shutil.Error: the entries copytree could not copy
    | InvalidArgument(path: string)    // OSError with EINVAL
    | InvalidOctal(text: string)       // ValueError from int(text, 8)

  /** What the paths of the entries below directory `d` start with: `d` and one `/`
      (a `d` that already ends in `/`, such as the root "/", supplies its own). */
  function Below(d: string): (r: string)
    ensures |r| > 0 && r[|r| - 1] == '/' && d <= r
  {
    if d != [] && d[|d| - 1] == '/' then d else d + "/"
  }

  /** `k` is `root` itself or lies somewhere below it. */
  predicate InTree(root: string, k: string) {
    k == root || (|Below(root)| < |k| && Below(root) <= k)
  }

  predicate IsDir(fs: Fs, p: string) {
    p in fs && fs[p].Dir?
  }

  predicate IsFile(fs: Fs, p: string) {
    p in fs && fs[p].File?
  }

  /** Some entry lies strictly below `p`. */
  predicate HasEntriesBelow(fs: Fs, p: string) {
    exists k :: k in fs && k != p && InTree(p, k)
  }

  /** `k` is a direct entry of directory `d`. */
  predicate IsChild(d: string, k: string) {
    |Below(d)| < |k| && Below(d) <= k && '/' !in k[|Below(d)|..]
  }

  /** A direct entry's key is its directory, a `/`, and its name. */
  lemma ChildKey(d: string, k: string)
    requires IsChild(d, k)
    ensures k == Below(d) + k[|Below(d)|..]
  {
    assert k[..|Below(d)|] == Below(d);
  }

  /** The names `os.listdir(d)` returns, as a set. */
  ghost function Children(fs: Fs, d: string): set<string> {
    set k | k in fs && IsChild(d, k) :: k[|Below(d)|..]
  }

  /** An entry "/name" is a direct entry of the root: `os.listdir("/")` lists `name`,
      and "/" is not empty. */
  lemma RootChild(fs: Fs, name: string)
    requires name != [] && '/' !in name && "/" + name in fs
    ensures name in Children(fs, "/") && HasEntriesBelow(fs, "/")
  {
    var k := "/" + name;
    assert k[|Below("/")|..] == name;
    assert IsChild("/", k) && InTree("/", k);
  }

  /** `os.path.basename(p)`: what follows the last `/`. */
  function BaseName(p: string): (r: string)
    ensures |r| <= |p| && r == p[|p| - |r|..]
    ensures forall i :: 0 <= i < |r| ==> r[i] != '/'
    ensures |r| < |p| ==> p[|p| - |r| - 1] == '/'
  {
    if p == [] || p[|p| - 1] == '/' then []
    else
      var q := p[..|p| - 1];
      var b := BaseName(q);
      var r := b + [p[|p| - 1]];
      assert q[|q| - |b|..] == p[|p| - |r|..|p| - 1];
      r
  }

  /** `os.path.join(d, name)` for a `name` without `/` (the only kind `Destination` passes). */
  function JoinPath(d: string, name: string): string {
    if d == [] then name else Below(d) + name
  }

  /** Joining a name without `/` onto a directory gives a path whose base name is that name. */
  lemma JoinPathBaseName(d: string, name: string)
    requires forall i :: 0 <= i < |name| ==> name[i] != '/'
    ensures BaseName(JoinPath(d, name)) == name
  {
    if d == [] {
      BaseNameAfterSlash([], name);
      assert [] + name == name;
    } else {
      BaseNameAfterSlash(Below(d), name);
    }
  }

  /** A name without `/`, after an empty prefix or one ending in `/`, is the base name. */
  lemma {:induction false} BaseNameAfterSlash(p: string, name: string)
    requires p == [] || p[|p| - 1] == '/'
    requires forall i :: 0 <= i < |name| ==> name[i] != '/'
    ensures BaseName(p + name) == name
  {
    if name == [] {
      assert p + name == p;
    } else {
      var init, last := name[..|name| - 1], name[|name| - 1];
      assert name == init + [last];
      assert p + name == (p + init) + [last];
      assert forall i :: 0 <= i < |init| ==> init[i] == name[i];
      BaseNameAfterSlash(p, init);
      BaseNameSnoc(p + init, last);
    }
  }

  /** A character other than `/` at the end extends the base name. */
  lemma BaseNameSnoc(q: string, c: char)
    requires c != '/'
    ensures BaseName(q + [c]) == BaseName(q) + [c]
  {
    var p := q + [c];
    assert p[..|p| - 1] == q;
  }

  /** Where `shutil.move` and `shutil.copy2` put `src` when the destination is `dst`. */
  function Destination(fs: Fs, src: string, dst: string): string {
    if IsDir(fs, dst) then JoinPath(dst, BaseName(src)) else dst
  }

  /** The key that `k`, below `a`, has once the tree at `a` is placed at `b`. */
  function Rebase(a: string, b: string, k: string): (r: string)
    requires InTree(a, k)
    ensures InTree(b, r)
  {
    if k == a then b
    else
      var r := Below(b) + k[|Below(a)|..];
      assert r[..|Below(b)|] == Below(b);
      r
  }

  lemma RebaseInjective(a: string, b: string, k1: string, k2: string)
    requires InTree(a, k1) && InTree(a, k2)
    requires Rebase(a, b, k1) == Rebase(a, b, k2)
    ensures k1 == k2
  {
    if k1 != a && k2 != a {
      var p, q := Below(a), Below(b);
      assert k1 == p + k1[|p|..] by { assert k1[..|p|] == p; }
      assert k2 == p + k2[|p|..] by { assert k2[..|p|] == p; }
      assert k1[|p|..] == Rebase(a, b, k1)[|q|..];
      assert k2[|p|..] == Rebase(a, b, k2)[|q|..];
    }
  }

  /** Placing a tree where it already is leaves every key of it in place. */
  lemma RebaseSelf(a: string, k: string)
    requires InTree(a, k)
    ensures Rebase(a, a, k) == k
  {
    if k != a {
      assert k[..|Below(a)|] == Below(a);
    }
  }

  /** The entries of the tree at `a`, placed at `b`. */
  function Placed(fs: Fs, a: string, b: string): (r: Fs)
    ensures forall k :: k in fs && InTree(a, k) ==> Rebase(a, b, k) in r && r[Rebase(a, b, k)] == fs[k]
    ensures forall k :: k in r ==> InTree(b, k) && Lands(fs, a, b, k)
  {
    forall k1, k2 | k1 in fs && InTree(a, k1) && k2 in fs && InTree(a, k2) && Rebase(a, b, k1) == Rebase(a, b, k2)
      ensures k1 == k2
    {
      RebaseInjective(a, b, k1, k2);
    }
    map k | k in fs && InTree(a, k) :: Rebase(a, b, k) := fs[k]
  }

  /** `k` is where some entry of the tree at `a` lands once that tree is placed at `b`. */
  ghost predicate Lands(fs: Fs, a: string, b: string, k: string) {
    exists j :: j in fs && InTree(a, j) && Rebase(a, b, j) == k
  }

  /** `fs` without the tree at `p`. */
  function Without(fs: Fs, p: string): (r: Fs)
    ensures forall k :: k in r <==> k in fs && !InTree(p, k)
    ensures forall k :: k in r ==> r[k] == fs[k]
  {
    map k | k in fs && !InTree(p, k) :: fs[k]
  }

  /** `os.chdir(p)`: the error it raises, if any. */
  function ChangeDir(fs: Fs, p: string): (e: Option<OsError>)
    ensures e.None? <==> IsDir(fs, p)
  {
    if p !in fs then Some(FileNotFound(p))
    else if fs[p].File? then Some(NotADirectory(p))
    else None
  }

  /** `os.makedirs(p, exist_ok=True)`. */
  function MakeDirs(fs: Fs, p: string): (r: Result<Fs, OsError>)
    ensures r.Success? <==> p != [] && !IsFile(fs, p)
    ensures r.Success? ==> r.value == fs[p := Dir]
    ensures p != [] && IsDir(fs, p) ==> r == Success(fs)
  {
    if p == [] then Failure(FileNotFound(p))
    else if p in fs then (if fs[p].Dir? then Success(fs) else Failure(FileExists(p)))
    else Success(fs[p := Dir])
  }

  /** `os.rmdir(p)`. */
  function RemoveDir(fs: Fs, p: string): (r: Result<Fs, OsError>)
    ensures r.Success? <==> IsDir(fs, p) && !HasEntriesBelow(fs, p)
    ensures r.Success? ==> r.value == fs - {p}
  {
    if p !in fs then Failure(FileNotFound(p))
    else if fs[p].File? then Failure(NotADirectory(p))
    else if HasEntriesBelow(fs, p) then Failure(DirectoryNotEmpty(p))
    else Success(fs - {p})
  }

  /** `open(p, "a").close()`: creates an empty file when `p` is absent. */
  function OpenAppend(fs: Fs, p: string): (r: Result<Fs, OsError>)
    ensures r.Success? <==> p != [] && !IsDir(fs, p)
    ensures p != [] && IsFile(fs, p) ==> r == Success(fs)
    ensures p != [] && p !in fs ==> r == Success(fs[p := File("")])
  {
    if p == [] then Failure(FileNotFound(p))
    else if p in fs then (if fs[p].Dir? then Failure(IsADirectory(p)) else Success(fs))
    else Success(fs[p := File("")])
  }

  /** `open(p, "r").read()`. */
  function ReadFile(fs: Fs, p: string): (r: Result<string, OsError>)
    ensures r.Success? <==> IsFile(fs, p)
    ensures r.Success? ==> r.value == fs[p].content
    ensures p !in fs ==> r == Failure(FileNotFound(p))
  {
    if p !in fs then Failure(FileNotFound(p))
    else if fs[p].Dir? then Failure(IsADirectory(p))
    else Success(fs[p].content)
  }

  /** `open(p, "w").write(text)`: the whole content is replaced. */
  function WriteFile(fs: Fs, p: string, text: string): (r: Result<Fs, OsError>)
    ensures r.Success? <==> p != [] && !IsDir(fs, p)
    ensures r.Success? ==> r.value == fs[p := File(text)]
  {
    if p == [] then Failure(FileNotFound(p))
    else if IsDir(fs, p) then Failure(IsADirectory(p))
    else Success(fs[p := File(text)])
  }

  /** `os.remove(p)`. */
  function Remove(fs: Fs, p: string): (r: Result<Fs, OsError>)
    ensures r.Success? <==> IsFile(fs, p)
    ensures r.Success? ==> r.value == fs - {p}
  {
    if p !in fs then Failure(FileNotFound(p))
    else if fs[p].Dir? then Failure(IsADirectory(p))
    else Success(fs - {p})
  }

  /** `shutil.rmtree(p)` on a directory: the directory and everything below it go. */
  function RemoveTree(fs: Fs, p: string): (r: Fs)
    ensures forall k :: k in r <==> k in fs && !InTree(p, k)
    ensures forall k :: k in r ==> r[k] == fs[k]
  {
    Without(fs, p)
  }

  /** An entry `k` of the tree at `src` that the model does not copy to its place at `dst`:
      a directory landing on a file, a file landing on a directory, or a file landing on itself.
      (`copytree` itself copies a file that lands on a directory into that directory.) */
  predicate Clashes(fs: Fs, src: string, dst: string, k: string)
    requires InTree(src, k)
  {
    var t := Rebase(src, dst, k);
    k in fs && t in fs && (fs[t].Dir? != fs[k].Dir? || (t == k && fs[k].File?))
  }

  /** `shutil.copytree(src, dst, dirs_exist_ok=True)`: the tree at `src` is merged into `dst`. */
  function CopyTree(fs: Fs, src: string, dst: string): (r: Result<Fs, OsError>)
    ensures r.Success? <==> dst != [] && !IsFile(fs, dst) && forall k :: k in fs && InTree(src, k) ==> !Clashes(fs, src, dst, k)
    ensures r.Success? ==> forall k :: k in fs && InTree(src, k) ==> Rebase(src, dst, k) in r.value && r.value[Rebase(src, dst, k)] == fs[k]
    ensures r.Success? ==> forall k :: k in r.value <==> k in fs || Lands(fs, src, dst, k)
    ensures r.Success? ==> forall k :: k in fs && !Lands(fs, src, dst, k) ==> r.value[k] == fs[k]
  {
    if dst == [] then Failure(FileNotFound(dst))
    else if IsFile(fs, dst) then Failure(FileExists(dst))
    else if exists k :: k in fs && InTree(src, k) && Clashes(fs, src, dst, k) then Failure(CopyErrors(dst))
    else Success(fs + Placed(fs, src, dst))
  }

  /** `shutil.copy2(src, dst)` on a file; a directory `dst` receives the file under its base name. */
  function CopyFile(fs: Fs, src: string, dst: string): (r: Result<Fs, OsError>)
    ensures r.Success? <==> IsFile(fs, src) && Destination(fs, src, dst) !in {[], src} && !IsDir(fs, Destination(fs, src, dst))
    ensures r.Success? ==> r.value == fs[Destination(fs, src, dst) := fs[src]]
    ensures src !in fs ==> r == Failure(FileNotFound(src))
  {
    var target := Destination(fs, src, dst);
    if src !in fs then Failure(FileNotFound(src))
    else if fs[src].Dir? then Failure(IsADirectory(src))
    else if target == [] then Failure(FileNotFound(target))
    else if target == src then Failure(SameFile(src))
    else if IsDir(fs, target) then Failure(IsADirectory(target))
    else Success(fs[target := fs[src]])
  }

  /** The tree at `a` is moved to `b`, replacing whatever was at `b`. */
  function Relocate(fs: Fs, a: string, b: string): (r: Fs)
    ensures forall k :: k in fs && InTree(a, k) ==> Rebase(a, b, k) in r && r[Rebase(a, b, k)] == fs[k]
    ensures forall k :: k in fs && !InTree(a, k) && !InTree(b, k) ==> k in r && r[k] == fs[k]
    ensures forall k :: k in r && InTree(a, k) ==> InTree(b, k)
    ensures forall k :: k in r ==> (k in fs && !InTree(a, k) && !InTree(b, k)) || Lands(fs, a, b, k)
  {
    Without(Without(fs, a), b) + Placed(fs, a, b)
  }

  /** Moving a tree onto itself changes nothing. */
  lemma RelocateSelf(fs: Fs, a: string)
    ensures Relocate(fs, a, a) == fs
  {
    SelfPlacement(fs, a, Relocate(fs, a, a));
  }

  /** A map holding every entry of `fs` at its own rebased place, and nothing else, is `fs`. */
  lemma SelfPlacement(fs: Fs, a: string, r: Fs)
    requires forall k :: k in fs && InTree(a, k) ==> Rebase(a, a, k) in r && r[Rebase(a, a, k)] == fs[k]
    requires forall k :: k in fs && !InTree(a, k) ==> k in r && r[k] == fs[k]
    requires forall k :: k in r ==> (k in fs && !InTree(a, k)) || Lands(fs, a, a, k)
    ensures r == fs
  {
    forall k | k in fs ensures k in r && r[k] == fs[k] {
      if InTree(a, k) {
        RebaseSelf(a, k);
      }
    }
    forall k | k in r ensures k in fs {
      if !(k in fs && !InTree(a, k)) {
        var j :| j in fs && InTree(a, j) && Rebase(a, a, j) == k;
        RebaseSelf(a, j);
      }
    }
    assert r.Keys == fs.Keys;
  }

  /** `shutil.move(src, dst)`: a destination directory is checked first; then a rename,
      falling back to copying when the rename fails. */
  function Move(fs: Fs, src: string, dst: string): (r: Result<Fs, OsError>)
    ensures src !in fs && !(IsDir(fs, dst) && Destination(fs, src, dst) in fs) ==> r == Failure(FileNotFound(src))
    ensures IsDir(fs, src) && src == dst ==> r == Success(fs)
    ensures IsFile(fs, src) && src != [] && src == dst ==> r == Success(fs)
    ensures src in fs && dst == [] && !IsDir(fs, dst) ==> r == Failure(FileNotFound(dst))
    ensures r.Success? && src != dst ==> src in fs && r.value == Relocate(fs, src, Destination(fs, src, dst))
    ensures IsDir(fs, dst) && src != dst && Destination(fs, src, dst) in fs ==> r == Failure(DestinationExists(Destination(fs, src, dst)))
    ensures IsDir(fs, src) && src != dst && InTree(src, dst) ==> r.Failure?
    ensures IsDir(fs, src) && IsFile(fs, dst) && dst != [] && !InTree(src, dst) ==> r == Failure(FileExists(dst))
    ensures r.Failure? ==>
      || src !in fs
      || Destination(fs, src, dst) == []
      || (IsDir(fs, dst) && src != dst && Destination(fs, src, dst) in fs)
      || (IsDir(fs, src) && src != dst && (InTree(src, dst) || IsFile(fs, Destination(fs, src, dst))))
  {
    var target := Destination(fs, src, dst);
    if IsDir(fs, dst) && src == dst then Success(fs)
    else if IsDir(fs, dst) && target in fs then Failure(DestinationExists(target))
    else if src !in fs then Failure(FileNotFound(src))
    else if target == [] then Failure(FileNotFound(target))
    else if fs[src].Dir? && InTree(src, dst) then Failure(IntoItself(src))
    else if fs[src].Dir? && IsFile(fs, target) then Failure(FileExists(target))
    else if target == src then
      RelocateSelf(fs, src);
      Success(fs)
    else Success(Relocate(fs, src, target))
  }

  /** `os.rename(a, b)`. */
  function Rename(fs: Fs, a: string, b: string): (r: Result<Fs, OsError>)
    ensures r.Success? <==>
      && a in fs && b != []
      && !(IsDir(fs, a) && a != b && InTree(a, b))
      && (b in fs ==> fs[b].Dir? == fs[a].Dir?)
      && !(IsDir(fs, b) && b != a && HasEntriesBelow(fs, b))
    ensures r.Success? ==> r.value == Relocate(fs, a, b)
    ensures a !in fs ==> r == Failure(FileNotFound(a))
    ensures IsDir(fs, a) && a != b && InTree(a, b) ==> r == Failure(InvalidArgument(b))
  {
    if a !in fs then Failure(FileNotFound(a))
    else if b == [] then Failure(FileNotFound(b))
    else if fs[a].Dir? && a != b && InTree(a, b) then Failure(InvalidArgument(b))
    else if b in fs && fs[a].File? && fs[b].Dir? then Failure(IsADirectory(b))
    else if b in fs && fs[a].Dir? && fs[b].File? then Failure(NotADirectory(a))
    else if IsDir(fs, b) && b != a && HasEntriesBelow(fs, b) then Failure(DirectoryNotEmpty(b))
    else Success(Relocate(fs, a, b))
  }

  /** `os.chmod(p, mode)`: the error it raises, if any (permission bits are not modelled). */
  function Chmod(fs: Fs, p: string): (e: Option<OsError>)
    ensures e.None? <==> p in fs
  {
    if p in fs then None else Some(FileNotFound(p))
  }

  /** The process's working directory and the filesystem it sees. */
  class HostOs {
    var files: Fs
    var cwd: string

    constructor(files0: Fs, cwd0: string)
      ensures files == files0 && cwd == cwd0
    {
      files := files0;
      cwd := cwd0;
    }

    /** `os.listdir(d)` on an existing directory: each direct entry's name once, in no particular order. */
    method ListDir(d: string) returns (names: seq<string>)
      requires IsDir(files, d)
      ensures Elems(names) == Children(files, d)
      ensures forall i, j :: 0 <= i < j < |names| ==> names[i] != names[j]
    {
      var keys := files.Keys;
      names := [];
      while keys != {}
        invariant keys <= files.Keys
        invariant Elems(names) == set k | k in files && k !in keys && IsChild(d, k) :: k[|Below(d)|..]
        invariant forall i, j :: 0 <= i < j < |names| ==> names[i] != names[j]
        decreases |keys|
      {
        var k :| k in keys;
        ghost var seen := set j | j in files && j !in keys && IsChild(d, j) :: j[|Below(d)|..];
        ghost var seen' := set j | j in files && j !in keys - {k} && IsChild(d, j) :: j[|Below(d)|..];
        if IsChild(d, k) {
          assert seen' == seen + {k[|Below(d)|..]};
          assert k[|Below(d)|..] !in seen by {
            forall j | j in files && j !in keys && IsChild(d, j) ensures j[|Below(d)|..] != k[|Below(d)|..] {
              ChildKey(d, j);
              ChildKey(d, k);
            }
          }
          names := names + [k[|Below(d)|..]];
        } else {
          assert seen' == seen;
        }
        keys := keys - {k};
      }
    }
  }
}
