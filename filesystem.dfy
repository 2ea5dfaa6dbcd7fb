/**
 * The `read_file`, `write_file` and `list_directory` tools over an in-memory
 * file tree. The raw path argument goes to the system, which walks it one
 * component at a time from the root or from the process's current directory:
 * every component before the last must name an existing directory, "." and
 * ".." included, and a trailing slash asks for a directory. There is no
 * confinement to a working directory (the tools do not call the path checks).
 * Failures come back as prefixed error strings carrying Node's error message.
 */
module FileSystemTools {
  import opened Wrappers
  import opened Strings
  import PathUtils

  /** A file with its text, or a directory with its entry names in listing order. */
  datatype Node = File(content: string) | Dir(children: seq<string>)

  /** The tree: absolute paths, as segment lists, to nodes. */
  type Tree = map<seq<string>, Node>

  function Parent(p: seq<string>): seq<string>
    requires p != []
  {
    p[..|p| - 1]
  }

  function Name(p: seq<string>): string
    requires p != []
  {
    p[|p| - 1]
  }

  /** The root is a directory; every other node sits in a directory that lists
      it; every listed name is present; no directory lists a name twice. */
  ghost predicate WellFormed(t: Tree) {
    [] in t && t[[]].Dir? && ParentsList(t) && ListedPresent(t) && NoRepeats(t)
  }

  ghost predicate ParentsList(t: Tree) {
    forall p :: p in t && p != [] ==> Parent(p) in t && t[Parent(p)].Dir? && Name(p) in t[Parent(p)].children
  }

  ghost predicate ListedPresent(t: Tree) {
    forall p, c :: p in t && t[p].Dir? && c in t[p].children ==> p + [c] in t
  }

  ghost predicate NoRepeats(t: Tree) {
    forall p, i, j :: p in t && t[p].Dir? && 0 <= i < j < |t[p].children| ==> t[p].children[i] != t[p].children[j]
  }

  /** Components the system looks up: non-empty and slash-free. */
  predicate Clean(comps: seq<string>) {
    forall k :: 0 <= k < |comps| ==> comps[k] != "" && '/' !in comps[k]
  }

  /** The components of a split path: the empty pieces that leading, repeated
      and trailing slashes leave are dropped. */
  function Components(segs: seq<string>): (r: seq<string>)
    requires forall k :: 0 <= k < |segs| ==> '/' !in segs[k]
    ensures Clean(r) && |r| <= |segs|
  {
    if segs == [] then []
    else if segs[0] == "" then Components(segs[1..])
    else [segs[0]] + Components(segs[1..])
  }

  /** Dropping the empty pieces changes nothing for `path.resolve`, which skips them. */
  lemma {:induction false} FoldComponents(stack: seq<string>, segs: seq<string>)
    requires PathUtils.PlainPath(stack) && forall k :: 0 <= k < |segs| ==> '/' !in segs[k]
    ensures PathUtils.Fold(stack, Components(segs)) == PathUtils.Fold(stack, segs)
    decreases |segs|
  {
    if segs != [] {
      FoldComponents(PathUtils.Step(stack, segs[0]), segs[1..]);
      if segs[0] != "" {
        var r := [segs[0]] + Components(segs[1..]);
        assert r[0] == segs[0] && r[1..] == Components(segs[1..]);
      }
    }
  }

  /** Where a walk ends: the directory holding the last component, and that
      component; or the first failure on the way. */
  datatype Walked = Reached(dir: seq<string>, last: string) | NoEntry | NotDir

  /** The system's walk from directory `cur`: the directory reached so far must
      exist (ENOENT) and be a directory (ENOTDIR) before the next component is
      taken from it; "." stays, ".." goes up (staying at the root), a name goes
      down. The last component is left for the operation to look up. */
  function Descend(t: Tree, cur: seq<string>, comps: seq<string>): (r: Walked)
    requires Clean(comps)
    ensures r.Reached? ==> r.dir in t && t[r.dir].Dir?
    ensures r.Reached? ==> r.last != "" && '/' !in r.last
    decreases |comps|
  {
    if cur !in t then NoEntry
    else if t[cur].File? then NotDir
    else if comps == [] then Reached(cur, ".")
    else if |comps| == 1 then Reached(cur, comps[0])
    else Descend(t, PathUtils.Step(cur, comps[0]), comps[1..])
  }

  /** The key a finished walk names. */
  function Target(w: Walked): seq<string>
    requires w.Reached?
  {
    PathUtils.Step(w.dir, w.last)
  }

  /** Where the walk of a path starts: the root for an absolute path, the
      current directory otherwise. */
  function Start(cwd: string, path: string): seq<string>
    requires path != ""
  {
    if path[0] == '/' then [] else PathUtils.Normalize(cwd)
  }

  /** The walk of a path argument; the empty path names nothing (ENOENT). */
  function Locate(t: Tree, cwd: string, path: string): (r: Walked)
    ensures r.Reached? ==> r.dir in t && t[r.dir].Dir? && r.last != "" && '/' !in r.last
  {
    if path == "" then NoEntry else Descend(t, Start(cwd, path), Components(PathUtils.Split(path)))
  }

  /** A path ending in "/" asks for a directory. */
  predicate TrailingSlash(path: string) {
    path != "" && path[|path| - 1] == '/'
  }

  /** When the walk succeeds it names the key `path.resolve` gives: the system
      and the text resolution disagree only on paths the system refuses. */
  lemma {:induction false} DescendFollowsFold(t: Tree, cur: seq<string>, comps: seq<string>)
    requires PathUtils.PlainPath(cur) && Clean(comps) && Descend(t, cur, comps).Reached?
    ensures Target(Descend(t, cur, comps)) == PathUtils.Fold(cur, comps)
    decreases |comps|
  {
    if |comps| == 1 {
      assert comps[1..] == [];
    } else if |comps| > 1 {
      DescendFollowsFold(t, PathUtils.Step(cur, comps[0]), comps[1..]);
    }
  }

  /** `path.resolve(cwd, path)` read from where the walk starts. */
  lemma ResolveFromStart(cwd: string, path: string)
    requires path != ""
    ensures PathUtils.ResolveAgainst(cwd, path) == PathUtils.Fold(Start(cwd, path), PathUtils.Split(path))
  {
    assert StartsWith(path, "/") <==> path[0] == '/' by {
      if path[0] == '/' {
        assert path[..1] == "/";
      }
    }
    if path[0] != '/' {
      PathUtils.SplitAppend(cwd, path);
      PathUtils.FoldAppend([], PathUtils.Split(cwd), PathUtils.Split(path));
    }
  }

  lemma LocateFollowsResolve(t: Tree, cwd: string, path: string)
    requires Locate(t, cwd, path).Reached?
    ensures Target(Locate(t, cwd, path)) == PathUtils.ResolveAgainst(cwd, path)
  {
    var segs := PathUtils.Split(path);
    DescendFollowsFold(t, Start(cwd, path), Components(segs));
    FoldComponents(Start(cwd, path), segs);
    ResolveFromStart(cwd, path);
  }

  /** A path `name/tail` from the current directory walks into `name` first. */
  lemma LocateThrough(t: Tree, cwd: string, name: string, tail: string)
    requires PathUtils.Plain(name) && tail != "" && tail[0] != '/'
    requires PathUtils.Normalize(cwd) in t && t[PathUtils.Normalize(cwd)].Dir?
    ensures Locate(t, cwd, name + "/" + tail) == Descend(t, PathUtils.Normalize(cwd) + [name], Components(PathUtils.Split(tail)))
  {
    var path := name + "/" + tail;
    assert path[0] == name[0];
    PathUtils.SplitAppend(name, tail);
    assert PathUtils.Split(name) == [name];
    var segs := [name] + PathUtils.Split(tail);
    assert segs[0] == name && segs[1..] == PathUtils.Split(tail);
    var rest := Components(PathUtils.Split(tail));
    assert PathUtils.Split(tail)[0] != "" by {
      PathUtils.SplitHead(tail);
    }
    assert rest != [];
    var comps := [name] + rest;
    assert comps[0] == name && comps[1..] == rest;
  }

  /** A component that does not exist cannot be walked through: `missing/../a.txt`
      is ENOENT for each tool, wherever ".." would lead. */
  lemma ThroughMissing(t: Tree, cwd: string, name: string, tail: string)
    requires PathUtils.Plain(name) && tail != "" && tail[0] != '/'
    requires PathUtils.Normalize(cwd) in t && t[PathUtils.Normalize(cwd)].Dir?
    requires PathUtils.Normalize(cwd) + [name] !in t
    ensures Locate(t, cwd, name + "/" + tail) == NoEntry
    ensures Read(t, cwd, name + "/" + tail) == Err(NotFound("open", name + "/" + tail))
    ensures Write(t, cwd, name + "/" + tail, "") == Err(NotFound("open", name + "/" + tail))
    ensures List(t, cwd, name + "/" + tail) == Err(NotFound("scandir", name + "/" + tail))
  {
    LocateThrough(t, cwd, name, tail);
  }

  /** A file cannot be walked through: `a.txt/..` and `a.txt/.` are ENOTDIR for
      each tool. */
  lemma ThroughFile(t: Tree, cwd: string, name: string, tail: string)
    requires PathUtils.Plain(name) && tail != "" && tail[0] != '/'
    requires PathUtils.Normalize(cwd) in t && t[PathUtils.Normalize(cwd)].Dir?
    requires PathUtils.Normalize(cwd) + [name] in t && t[PathUtils.Normalize(cwd) + [name]].File?
    ensures Locate(t, cwd, name + "/" + tail) == NotDir
    ensures Read(t, cwd, name + "/" + tail) == Err(NotDirectory("open", name + "/" + tail))
    ensures Write(t, cwd, name + "/" + tail, "") == Err(NotDirectory("open", name + "/" + tail))
    ensures List(t, cwd, name + "/" + tail) == Err(NotDirectory("scandir", name + "/" + tail))
  {
    LocateThrough(t, cwd, name, tail);
  }

  /** By text alone, `missing/../x` is `x` in the current directory: the walk
      above refuses what this resolution would accept. */
  lemma TextResolutionSkipsMissing(cwd: string, name: string, x: string)
    requires PathUtils.Plain(name) && PathUtils.Plain(x)
    ensures PathUtils.ResolveAgainst(cwd, name + "/" + (".." + "/" + x)) == PathUtils.Normalize(cwd) + [x]
  {
    var path := name + "/" + (".." + "/" + x);
    assert path[0] == name[0];
    SplitUpAndOver(name, x);
    ResolveFromStart(cwd, path);
    UpAndOver(PathUtils.Normalize(cwd), name, x);
  }

  lemma SplitUpAndOver(name: string, x: string)
    requires PathUtils.Plain(name) && PathUtils.Plain(x)
    ensures PathUtils.Split(name + "/" + (".." + "/" + x)) == [name, "..", x]
  {
    PathUtils.SplitAppend(name, ".." + "/" + x);
    PathUtils.SplitAppend("..", x);
    SplitOne(name);
    SplitOne("..");
    SplitOne(x);
  }

  lemma SplitOne(s: string)
    requires '/' !in s
    ensures PathUtils.Split(s) == [s]
  {
  }

  lemma UpAndOver(base: seq<string>, name: string, x: string)
    requires PathUtils.PlainPath(base) && PathUtils.Plain(name) && PathUtils.Plain(x)
    ensures PathUtils.Fold(base, [name, "..", x]) == base + [x]
  {
    var segs := [name, "..", x];
    assert segs[0] == name && segs[1..] == ["..", x];
    assert PathUtils.Step(base, name) == base + [name];
    assert PathUtils.Fold(base, segs) == PathUtils.Fold(base + [name], ["..", x]);
    assert ["..", x][0] == ".." && ["..", x][1..] == [x];
    assert PathUtils.Step(base + [name], "..") == base;
    assert PathUtils.Fold(base + [name], ["..", x]) == PathUtils.Fold(base, [x]);
    assert [x][0] == x && [x][1..] == [];
    assert PathUtils.Fold(base, [x]) == PathUtils.Fold(base + [x], []);
  }

  const ReadDirectoryError: string := "EISDIR: illegal operation on a directory, read"

  function NotFound(syscall: string, path: string): string {
    "ENOENT: no such file or directory, " + syscall + " '" + path + "'"
  }

  function NotDirectory(syscall: string, path: string): string {
    "ENOTDIR: not a directory, " + syscall + " '" + path + "'"
  }

  function WriteDirectoryError(path: string): string {
    "EISDIR: illegal operation on a directory, open '" + path + "'"
  }

  /** `fs.readFile(path)`: the content, or Node's error message. A directory
      opens but cannot be read; a file named with a trailing slash is ENOTDIR. */
  function Read(t: Tree, cwd: string, path: string): Result<string, string> {
    match Locate(t, cwd, path)
    case NoEntry => Err(NotFound("open", path))
    case NotDir => Err(NotDirectory("open", path))
    case Reached(dir, last) =>
      var k := PathUtils.Step(dir, last);
      if k !in t then Err(NotFound("open", path))
      else if t[k].Dir? then Err(ReadDirectoryError)
      else if TrailingSlash(path) then Err(NotDirectory("open", path))
      else Ok(t[k].content)
  }

  /** `read_file`'s `execute`. */
  function ReadFile(t: Tree, cwd: string, path: string): (r: string)
    ensures Read(t, cwd, path).Ok? ==> r == Read(t, cwd, path).value
    ensures Read(t, cwd, path).Err? ==> r == "Error reading file: " + Read(t, cwd, path).error
  {
    match Read(t, cwd, path)
    case Ok(content) => content
    case Err(message) => "Error reading file: " + message
  }

  /** A read succeeds exactly when the walk ends on an existing file and the
      path does not end in "/". */
  lemma ReadSucceedsIff(t: Tree, cwd: string, path: string)
    ensures Read(t, cwd, path).Ok? <==>
              && Locate(t, cwd, path).Reached?
              && Target(Locate(t, cwd, path)) in t && t[Target(Locate(t, cwd, path))].File?
              && !TrailingSlash(path)
  {
  }

  /** Reading an existing file gives its content exactly. */
  lemma ReadExisting(t: Tree, cwd: string, path: string)
    requires Locate(t, cwd, path).Reached? && !TrailingSlash(path)
    requires Target(Locate(t, cwd, path)) in t && t[Target(Locate(t, cwd, path))].File?
    ensures ReadFile(t, cwd, path) == t[Target(Locate(t, cwd, path))].content
  {
  }

  /** Reading a path that does not lead to a present entry gives an error
      string, never a failure. */
  lemma ReadMissing(t: Tree, cwd: string, path: string)
    requires !Locate(t, cwd, path).Reached? || Target(Locate(t, cwd, path)) !in t
    ensures StartsWith(ReadFile(t, cwd, path), "Error reading file: ")
  {
    var r := ReadFile(t, cwd, path);
    assert r == "Error reading file: " + Read(t, cwd, path).error;
    assert r[..20] == "Error reading file: ";
  }

  /** A file named with a trailing slash is not a directory: ENOTDIR. */
  lemma TrailingSlashOnFile(t: Tree, cwd: string, path: string)
    requires Locate(t, cwd, path).Reached? && TrailingSlash(path)
    requires Target(Locate(t, cwd, path)) in t && t[Target(Locate(t, cwd, path))].File?
    ensures Read(t, cwd, path) == Err(NotDirectory("open", path))
    ensures List(t, cwd, path) == Err(NotDirectory("scandir", path))
  {
  }

  /** `fs.writeFile(path, content)`: the new tree, or Node's error message. A
      directory, or any path ending in "/", is EISDIR; an existing file is
      replaced; a new one is created in the directory the walk ended in and
      appended to its entries. */
  function Write(t: Tree, cwd: string, path: string, content: string): Result<Tree, string> {
    match Locate(t, cwd, path)
    case NoEntry => Err(NotFound("open", path))
    case NotDir => Err(NotDirectory("open", path))
    case Reached(dir, last) =>
      var k := PathUtils.Step(dir, last);
      if (k in t && t[k].Dir?) || TrailingSlash(path) then Err(WriteDirectoryError(path))
      else if k in t then Ok(t[k := File(content)])
      // ".." above a directory that has no parent entry: only in a tree that is not well formed
      else if last == ".." then Err(NotFound("open", path))
      else Ok(t[k := File(content)][dir := Dir(t[dir].children + [last])])
  }

  /** `write_file`'s `execute`: the tree afterwards and the returned text. */
  function WriteFile(t: Tree, cwd: string, path: string, content: string): (r: (Tree, string))
    ensures Write(t, cwd, path, content).Ok? ==> r == (Write(t, cwd, path, content).value, "Successfully wrote to " + path)
    ensures Write(t, cwd, path, content).Err? ==> r == (t, "Error writing file: " + Write(t, cwd, path, content).error)
  {
    match Write(t, cwd, path, content)
    case Ok(t') => (t', "Successfully wrote to " + path)
    case Err(message) => (t, "Error writing file: " + message)
  }

  /** In a well-formed tree ".." from a present directory lands on a present entry. */
  lemma UpPresent(t: Tree, dir: seq<string>)
    requires WellFormed(t) && dir in t
    ensures PathUtils.Step(dir, "..") in t
  {
    if dir != [] {
      assert PathUtils.Step(dir, "..") == Parent(dir);
    }
  }

  /** A write succeeds exactly when the walk ends, the path has no trailing
      slash, and the target is not a directory. */
  lemma WriteSucceedsIff(t: Tree, cwd: string, path: string, content: string)
    requires WellFormed(t)
    ensures Write(t, cwd, path, content).Ok? <==>
              && Locate(t, cwd, path).Reached? && !TrailingSlash(path)
              && !(Target(Locate(t, cwd, path)) in t && t[Target(Locate(t, cwd, path))].Dir?)
  {
    var w := Locate(t, cwd, path);
    if w.Reached? && w.last == ".." {
      UpPresent(t, w.dir);
    }
  }

  /** A path ending in "/" is never written. */
  lemma TrailingSlashNeverWrites(t: Tree, cwd: string, path: string, content: string)
    requires TrailingSlash(path)
    ensures Write(t, cwd, path, content).Err?
    ensures WriteFile(t, cwd, path, content) == (t, "Error writing file: " + Write(t, cwd, path, content).error)
  {
  }

  /** Replacing an existing file's content keeps the tree well formed. */
  lemma ReplaceKeepsWellFormed(t: Tree, p: seq<string>, content: string)
    requires WellFormed(t) && p in t && t[p].File?
    ensures WellFormed(t[p := File(content)])
  {
  }

  /** Adding a new file to a directory and appending its name keeps the tree well formed. */
  lemma AddKeepsWellFormed(t: Tree, q: seq<string>, name: string, content: string)
    requires WellFormed(t) && q in t && t[q].Dir? && q + [name] !in t
    ensures WellFormed(t[q + [name] := File(content)][q := Dir(t[q].children + [name])])
  {
    AddKeepsParentsList(t, q, name, content);
    AddKeepsListedPresent(t, q, name, content);
    AddKeepsNoRepeats(t, q, name, content);
  }

  lemma AddKeepsParentsList(t: Tree, q: seq<string>, name: string, content: string)
    requires WellFormed(t) && q in t && t[q].Dir? && q + [name] !in t
    ensures ParentsList(t[q + [name] := File(content)][q := Dir(t[q].children + [name])])
  {
    var p := q + [name];
    var children := t[q].children;
    var t' := t[p := File(content)][q := Dir(children + [name])];
    assert Parent(p) == q && Name(p) == name;
    forall r | r in t' && r != []
      ensures Parent(r) in t' && t'[Parent(r)].Dir? && Name(r) in t'[Parent(r)].children
    {
      if r != p && Parent(r) == q {
        assert Name(r) in children;
      }
    }
  }

  lemma AddKeepsListedPresent(t: Tree, q: seq<string>, name: string, content: string)
    requires WellFormed(t) && q in t && t[q].Dir? && q + [name] !in t
    ensures ListedPresent(t[q + [name] := File(content)][q := Dir(t[q].children + [name])])
  {
    var children := t[q].children;
    var t' := t[q + [name] := File(content)][q := Dir(children + [name])];
    forall r, c | r in t' && t'[r].Dir? && c in t'[r].children
      ensures r + [c] in t'
    {
      if r == q && c != name {
        assert c in children;
      }
    }
  }

  lemma AddKeepsNoRepeats(t: Tree, q: seq<string>, name: string, content: string)
    requires WellFormed(t) && q in t && t[q].Dir? && q + [name] !in t
    ensures NoRepeats(t[q + [name] := File(content)][q := Dir(t[q].children + [name])])
  {
    var children := t[q].children;
    var t' := t[q + [name] := File(content)][q := Dir(children + [name])];
    forall r, i, j | r in t' && t'[r].Dir? && 0 <= i < j < |t'[r].children|
      ensures t'[r].children[i] != t'[r].children[j]
    {
    }
  }

  /** What a successful write did: the walk ended, the target is not a
      directory and the path has no trailing slash; an existing file is
      replaced, a new one is added under the directory the walk ended in and
      appended to its entries. */
  lemma WriteOutcome(t: Tree, cwd: string, path: string, content: string)
    requires WellFormed(t) && Write(t, cwd, path, content).Ok?
    ensures Locate(t, cwd, path).Reached? && !TrailingSlash(path)
    ensures var w := Locate(t, cwd, path);
            var k := Target(w);
            && !(k in t && t[k].Dir?)
            && (k in t ==> Write(t, cwd, path, content).value == t[k := File(content)])
            && (k !in t ==>
                  && k == w.dir + [w.last]
                  && Write(t, cwd, path, content).value == t[k := File(content)][w.dir := Dir(t[w.dir].children + [w.last])])
  {
    var w := Locate(t, cwd, path);
    if w.last == ".." {
      UpPresent(t, w.dir);
    } else if w.last != "." {
      assert Target(w) == w.dir + [w.last];
    }
  }

  /** A successful write keeps the tree well formed. */
  lemma WritePreservesWellFormed(t: Tree, cwd: string, path: string, content: string)
    requires WellFormed(t) && Write(t, cwd, path, content).Ok?
    ensures WellFormed(Write(t, cwd, path, content).value)
  {
    WriteOutcome(t, cwd, path, content);
    var w := Locate(t, cwd, path);
    if Target(w) in t {
      ReplaceKeepsWellFormed(t, Target(w), content);
    } else {
      AddKeepsWellFormed(t, w.dir, w.last, content);
    }
  }

  /** A walk only asks that directories be present, so a tree that keeps every
      directory walks the same way. */
  lemma {:induction false} DescendKeepsDirectories(t: Tree, t': Tree, cur: seq<string>, comps: seq<string>)
    requires Clean(comps) && Descend(t, cur, comps).Reached?
    requires forall p :: p in t && t[p].Dir? ==> p in t' && t'[p].Dir?
    ensures Descend(t', cur, comps) == Descend(t, cur, comps)
    decreases |comps|
  {
    if |comps| > 1 {
      DescendKeepsDirectories(t, t', PathUtils.Step(cur, comps[0]), comps[1..]);
    }
  }

  /** Writing then reading the same path gives back what was written, whatever was there. */
  lemma WriteThenRead(t: Tree, cwd: string, path: string, content: string)
    requires WellFormed(t) && Write(t, cwd, path, content).Ok?
    ensures WriteFile(t, cwd, path, content).1 == "Successfully wrote to " + path
    ensures ReadFile(WriteFile(t, cwd, path, content).0, cwd, path) == content
  {
    WriteOutcome(t, cwd, path, content);
    var t' := Write(t, cwd, path, content).value;
    var w := Locate(t, cwd, path);
    assert forall p :: p in t && t[p].Dir? ==> p in t' && t'[p].Dir?;
    DescendKeepsDirectories(t, t', Start(cwd, path), Components(PathUtils.Split(path)));
    assert Locate(t', cwd, path) == w;
    assert Target(w) in t' && t'[Target(w)] == File(content);
  }

  /** A failed write leaves every path as it was. */
  lemma FailedWriteUnchanged(t: Tree, cwd: string, path: string, content: string)
    requires Write(t, cwd, path, content).Err?
    ensures WriteFile(t, cwd, path, content).0 == t
    ensures StartsWith(WriteFile(t, cwd, path, content).1, "Error writing file: ")
  {
    var r := WriteFile(t, cwd, path, content).1;
    assert r[..20] == "Error writing file: ";
  }

  /** A successful write changes only the target and, for a new file, the
      directory the walk ended in. */
  lemma WriteChangesOnlyTarget(t: Tree, cwd: string, path: string, content: string, q: seq<string>)
    requires WellFormed(t) && Write(t, cwd, path, content).Ok? && Locate(t, cwd, path).Reached?
    requires q != Target(Locate(t, cwd, path)) && q != Locate(t, cwd, path).dir
    ensures q in Write(t, cwd, path, content).value <==> q in t
    ensures q in t ==> Write(t, cwd, path, content).value[q] == t[q]
  {
    WriteOutcome(t, cwd, path, content);
  }

  /** One entry of a listing: its kind, a space, its name. */
  function Entry(t: Tree, dir: seq<string>, name: string): string {
    (if dir + [name] in t && t[dir + [name]].Dir? then "[DIR] " else "[FILE] ") + name
  }

  /** The entries of a directory, in listing order. */
  function Entries(t: Tree, dir: seq<string>, names: seq<string>): (r: seq<string>)
    ensures |r| == |names| && forall k :: 0 <= k < |names| ==> r[k] == Entry(t, dir, names[k])
  {
    seq(|names|, k requires 0 <= k < |names| => Entry(t, dir, names[k]))
  }

  /** `fs.readdir(path)` rendered: one entry per line. */
  function List(t: Tree, cwd: string, path: string): Result<string, string> {
    match Locate(t, cwd, path)
    case NoEntry => Err(NotFound("scandir", path))
    case NotDir => Err(NotDirectory("scandir", path))
    case Reached(dir, last) =>
      var k := PathUtils.Step(dir, last);
      if k !in t then Err(NotFound("scandir", path))
      else if t[k].File? then Err(NotDirectory("scandir", path))
      else Ok(Join(Entries(t, k, t[k].children), "\n"))
  }

  /** `list_directory`'s `execute`. */
  function ListDirectory(t: Tree, cwd: string, path: string): (r: string)
    ensures List(t, cwd, path).Ok? ==> r == List(t, cwd, path).value
    ensures List(t, cwd, path).Err? ==> r == "Error listing directory: " + List(t, cwd, path).error
  {
    match List(t, cwd, path)
    case Ok(text) => text
    case Err(message) => "Error listing directory: " + message
  }

  /** A listing succeeds exactly when the walk ends on an existing directory. */
  lemma ListSucceedsIff(t: Tree, cwd: string, path: string)
    ensures List(t, cwd, path).Ok? <==>
              Locate(t, cwd, path).Reached? && Target(Locate(t, cwd, path)) in t && t[Target(Locate(t, cwd, path))].Dir?
  {
  }

  /** An existing directory lists each of its entries as "[DIR] name" or "[FILE] name". */
  lemma ListingShowsEntries(t: Tree, cwd: string, path: string, k: nat)
    requires WellFormed(t) && Locate(t, cwd, path).Reached?
    requires Target(Locate(t, cwd, path)) in t && t[Target(Locate(t, cwd, path))].Dir?
    requires k < |t[Target(Locate(t, cwd, path))].children|
    ensures var dir := Target(Locate(t, cwd, path));
            var name := t[dir].children[k];
            Contains(ListDirectory(t, cwd, path),
                     (if t[dir + [name]].Dir? then "[DIR] " else "[FILE] ") + name)
  {
    var dir := Target(Locate(t, cwd, path));
    var names := t[dir].children;
    JoinContainsPart(Entries(t, dir, names), "\n", k);
  }

  /** An empty directory lists as the empty string. */
  lemma EmptyDirectoryListsNothing(t: Tree, cwd: string, path: string)
    requires Locate(t, cwd, path).Reached? && Target(Locate(t, cwd, path)) in t
    requires t[Target(Locate(t, cwd, path))] == Dir([])
    ensures ListDirectory(t, cwd, path) == ""
  {
  }

  /** Listing a path that does not lead to a present entry gives an error string. */
  lemma ListMissing(t: Tree, cwd: string, path: string)
    requires !Locate(t, cwd, path).Reached? || Target(Locate(t, cwd, path)) !in t
    ensures StartsWith(ListDirectory(t, cwd, path), "Error listing directory: ")
  {
    var r := ListDirectory(t, cwd, path);
    assert r[..25] == "Error listing directory: ";
  }

  /** The process's file system: the tree, read by two tools and changed by one. */
  class Disk {
    var tree: Tree
    const cwd: string

    ghost predicate Valid()
      reads this
    {
      WellFormed(tree)
    }

    constructor(cwd: string, tree: Tree)
      requires WellFormed(tree)
      ensures Valid() && this.tree == tree && this.cwd == cwd
    {
      this.tree := tree;
      this.cwd := cwd;
    }

    method ReadFileTool(path: string) returns (r: string)
      ensures r == ReadFile(tree, cwd, path)
    {
      r := ReadFile(tree, cwd, path);
    }

    method ListDirectoryTool(path: string) returns (r: string)
      ensures r == ListDirectory(tree, cwd, path)
    {
      r := ListDirectory(tree, cwd, path);
    }

    /** `write_file`: the tree is updated in place on success and kept otherwise. */
    method WriteFileTool(path: string, content: string) returns (r: string)
      requires Valid()
      modifies this
      ensures Valid()
      ensures (tree, r) == WriteFile(old(tree), cwd, path, content)
    {
      var outcome := Write(tree, cwd, path, content);
      if outcome.Ok? {
        WritePreservesWellFormed(tree, cwd, path, content);
        tree := outcome.value;
        r := "Successfully wrote to " + path;
      } else {
        r := "Error writing file: " + outcome.error;
      }
    }
  }
}
