/**
 * Lexical path confinement: POSIX `path.resolve` over segments, and the test
 * that keeps a resolved path at or below the working directory. The process's
 * current directory is a parameter.
 */
module PathUtils {
  import opened Wrappers
  import opened Strings

  /** `s.split("/")`. */
  function Split(s: string): (r: seq<string>)
    ensures |r| >= 1
    ensures forall k :: 0 <= k < |r| ==> '/' !in r[k]
    decreases |s|
  {
    var i := IndexOf(s, '/');
    if i == -1 then [s] else [s[..i]] + Split(s[i + 1..])
  }

  /** A string that does not start with "/" has a non-empty first piece. */
  lemma SplitHead(s: string)
    requires s != "" && s[0] != '/'
    ensures Split(s)[0] != ""
  {
    var i := IndexOf(s, '/');
    if i != -1 {
      assert s[..i][0] == s[0];
    }
  }

  /** A join with at least two pieces starts with the first piece and a "/". */
  lemma JoinCons(a: string, rest: seq<string>)
    requires |rest| >= 1
    ensures Join([a] + rest, "/") == a + "/" + Join(rest, "/")
  {
    assert ([a] + rest)[1..] == rest;
  }

  /** A string is its text before and after a slash it holds. */
  lemma SplitAtSlash(s: string, i: nat)
    requires i < |s| && s[i] == '/'
    ensures s == s[..i] + "/" + s[i + 1..]
  {
  }

  /** Joining the pieces with "/" gives back the string. */
  lemma {:induction false} JoinSplit(s: string)
    ensures Join(Split(s), "/") == s
    decreases |s|
  {
    var i := IndexOf(s, '/');
    if i != -1 {
      JoinSplit(s[i + 1..]);
      JoinCons(s[..i], Split(s[i + 1..]));
      SplitAtSlash(s, i);
    }
  }

  /** Splitting a join of slash-free pieces gives back the pieces. */
  lemma {:induction false} SplitJoin(xs: seq<string>)
    requires |xs| >= 1 && forall k :: 0 <= k < |xs| ==> '/' !in xs[k]
    ensures Split(Join(xs, "/")) == xs
  {
    if |xs| > 1 {
      var s := Join(xs, "/");
      assert s == xs[0] + "/" + Join(xs[1..], "/");
      assert s[|xs[0]|] == '/' && s[..|xs[0]|] == xs[0];
      assert IndexOf(s, '/') == |xs[0]|;
      assert s[|xs[0]| + 1..] == Join(xs[1..], "/");
      SplitJoin(xs[1..]);
    }
  }

  /** Joining two non-empty lists is joining each and putting "/" between. */
  lemma {:induction false} JoinAppend(x: seq<string>, y: seq<string>)
    requires |x| >= 1 && |y| >= 1
    ensures Join(x + y, "/") == Join(x, "/") + "/" + Join(y, "/")
  {
    if |x| > 1 {
      assert (x + y)[1..] == x[1..] + y;
      JoinAppend(x[1..], y);
    } else {
      assert (x + y)[1..] == y;
    }
  }

  /** Splitting at a slash splits each side. */
  lemma SplitAppend(a: string, b: string)
    ensures Split(a + "/" + b) == Split(a) + Split(b)
  {
    JoinSplit(a);
    JoinSplit(b);
    JoinAppend(Split(a), Split(b));
    SplitJoin(Split(a) + Split(b));
  }

  /** A segment that survives normalisation. */
  predicate Plain(seg: string) {
    seg != "" && seg != "." && seg != ".." && '/' !in seg
  }

  /** A normalised absolute path, as its list of segments. */
  predicate PlainPath(p: seq<string>) {
    forall k :: 0 <= k < |p| ==> Plain(p[k])
  }

  /** One segment applied to the directory stack: empty and "." stay, ".." pops
      (and stays at the root), anything else is pushed. */
  function Step(stack: seq<string>, seg: string): seq<string> {
    if seg == "" || seg == "." then stack
    else if seg == ".." then (if stack == [] then [] else stack[..|stack| - 1])
    else stack + [seg]
  }

  /** The segments applied left to right. */
  function Fold(stack: seq<string>, segs: seq<string>): (r: seq<string>)
    requires PlainPath(stack) && forall k :: 0 <= k < |segs| ==> '/' !in segs[k]
    ensures PlainPath(r)
    decreases |segs|
  {
    if segs == [] then stack else Fold(Step(stack, segs[0]), segs[1..])
  }

  lemma {:induction false} FoldAppend(stack: seq<string>, x: seq<string>, y: seq<string>)
    requires PlainPath(stack)
    requires forall k :: 0 <= k < |x| ==> '/' !in x[k]
    requires forall k :: 0 <= k < |y| ==> '/' !in y[k]
    ensures Fold(stack, x + y) == Fold(Fold(stack, x), y)
    decreases |x|
  {
    if x != [] {
      assert (x + y)[0] == x[0] && (x + y)[1..] == x[1..] + y;
      FoldAppend(Step(stack, x[0]), x[1..], y);
    } else {
      assert x + y == y;
    }
  }

  /** Plain segments are appended as they are. */
  lemma {:induction false} FoldPlain(stack: seq<string>, segs: seq<string>)
    requires PlainPath(stack) && PlainPath(segs)
    ensures Fold(stack, segs) == stack + segs
    decreases |segs|
  {
    if segs != [] {
      FoldPlain(stack + [segs[0]], segs[1..]);
      assert stack + [segs[0]] + segs[1..] == stack + segs;
    }
  }

  /** `path.normalize` of an absolute path, as segments. */
  function Normalize(s: string): (r: seq<string>)
    ensures PlainPath(r)
  {
    Fold([], Split(s))
  }

  /** The path as text: "/" for the root, no trailing slash. */
  function Text(p: seq<string>): string {
    "/" + Join(p, "/")
  }

  /** Normalising a normalised path's text gives back its segments. */
  lemma NormalizeText(p: seq<string>)
    requires PlainPath(p)
    ensures Normalize(Text(p)) == p
  {
    var j := Join(p, "/");
    assert Text(p) == "" + "/" + j;
    SplitAppend("", j);
    var rest := Split(j);
    assert Split(Text(p)) == [""] + rest;
    assert ([""] + rest)[0] == "" && ([""] + rest)[1..] == rest;
    assert Fold([], [""] + rest) == Fold([], rest);
    if p == [] {
      assert rest == [""];
      assert Fold([], [""]) == Fold([], []);
    } else {
      SplitJoin(p);
      FoldPlain([], p);
    }
  }

  /** `path.resolve(base, p)` for an absolute `base`: an absolute `p` starts
      over, a relative one is read from `base`. */
  function ResolveAgainst(base: string, p: string): seq<string> {
    if StartsWith(p, "/") then Normalize(p) else Normalize(base + "/" + p)
  }

  /** A relative path is its segments applied to the base directory. */
  lemma ResolveRelative(base: seq<string>, p: string)
    requires PlainPath(base) && !StartsWith(p, "/")
    ensures ResolveAgainst(Text(base), p) == Fold(base, Split(p))
  {
    SplitAppend(Text(base), p);
    FoldAppend([], Split(Text(base)), Split(p));
    NormalizeText(base);
  }

  /** Where `workingDirectory` sits, given the process's current directory. */
  function Root(workingDirectory: string, cwd: string): (r: seq<string>)
    ensures PlainPath(r)
  {
    ResolveAgainst(cwd, workingDirectory)
  }

  /** Where `filePath` resolves to from the working directory. */
  function Target(filePath: string, workingDirectory: string, cwd: string): (r: seq<string>)
    ensures PlainPath(r)
  {
    ResolveAgainst(Text(Root(workingDirectory, cwd)), filePath)
  }

  /** The root itself, or a path strictly below a non-root directory. */
  predicate Inside(root: seq<string>, target: seq<string>) {
    target == root || (root != [] && |root| < |target| && target[..|root|] == root)
  }

  function SecurityViolation(filePath: string, root: string): string {
    "Security violation: Path \"" + filePath + "\" resolves outside working directory. "
      + "All file operations must be within: " + root
  }

  /** `resolvePathInWorkingDir`: the resolved path when it passes the prefix test, the
      security error otherwise. The test on text means exactly `Inside` on segments. */
  function ResolvePathInWorkingDir(filePath: string, workingDirectory: string, cwd: string): (r: Result<string, string>)
    ensures r.Ok? <==> Inside(Root(workingDirectory, cwd), Target(filePath, workingDirectory, cwd))
    ensures r.Ok? ==> r.value == Text(Target(filePath, workingDirectory, cwd))
    ensures r.Err? ==> r.error == SecurityViolation(filePath, Text(Root(workingDirectory, cwd)))
  {
    var root := Text(Root(workingDirectory, cwd));
    var resolved := Text(Target(filePath, workingDirectory, cwd));
    InsideIffTextTest(Root(workingDirectory, cwd), Target(filePath, workingDirectory, cwd));
    if !StartsWith(resolved, root + "/") && resolved != root then Err(SecurityViolation(filePath, root))
    else Ok(resolved)
  }

  /** `isPathWithinWorkingDir`: whether resolving succeeds. */
  function IsPathWithinWorkingDir(filePath: string, workingDirectory: string, cwd: string): (b: bool)
    ensures b <==> Inside(Root(workingDirectory, cwd), Target(filePath, workingDirectory, cwd))
  {
    ResolvePathInWorkingDir(filePath, workingDirectory, cwd).Ok?
  }

  /** Comparing two joins starts with comparing their first segments. */
  lemma HeadEqual(t: string, x: string, r: string, y: string)
    requires '/' !in t && '/' !in r && t != "" && r != ""
    requires x == "" || x[0] == '/'
    requires y == "" || y[0] == '/'
    ensures t + x == r + y <==> t == r && x == y
  {
    if t + x == r + y {
      assert t == (t + x)[..|t|];
      assert r == (r + y)[..|r|];
      assert x == (t + x)[|t|..];
      assert y == (r + y)[|r|..];
    }
  }

  /** A join starts with a segment and a slash only if that is its first segment. */
  lemma HeadPrefix(t: string, x: string, r: string, y: string)
    requires '/' !in t && '/' !in r
    requires x == "" || x[0] == '/'
    ensures StartsWith(t + x, r + "/" + y) <==> t == r && StartsWith(x, "/" + y)
  {
    var lhs, rhs := t + x, r + "/" + y;
    if StartsWith(lhs, rhs) {
      assert lhs[|r|] == rhs[|r|] == '/';
      assert t == lhs[..|t|] == rhs[..|r|] == r;
      assert x[..|"/" + y|] == lhs[|t|..|rhs|] == rhs[|r|..];
    }
    if t == r && StartsWith(x, "/" + y) {
      assert lhs[..|rhs|] == t + x[..|"/" + y|];
    }
  }

  lemma JoinShape(p: seq<string>)
    requires |p| >= 1
    ensures Join(p, "/") == p[0] + (if |p| == 1 then "" else "/" + Join(p[1..], "/"))
  {
  }

  /** A leading slash on both sides changes neither equality nor prefix. */
  lemma SlashBoth(a: string, b: string)
    ensures "/" + a == "/" + b <==> a == b
    ensures StartsWith("/" + a, "/" + b) <==> StartsWith(a, b)
  {
    if "/" + a == "/" + b {
      assert a == ("/" + a)[1..];
    }
    if StartsWith("/" + a, "/" + b) {
      assert a[..|b|] == ("/" + a)[1..|b| + 1];
    }
    if StartsWith(a, b) {
      assert ("/" + a)[..|b| + 1] == "/" + a[..|b|];
    }
  }

  /** A non-empty list of plain segments has a non-empty join that does not start with "/". */
  lemma JoinHead(p: seq<string>)
    requires PlainPath(p) && p != []
    ensures Join(p, "/") != "" && Join(p, "/")[0] != '/'
  {
    JoinShape(p);
    assert Join(p, "/")[0] == p[0][0];
  }

  /** What follows the first segment of a join. */
  function JoinTail(p: seq<string>): string
    requires |p| >= 1
  {
    if |p| == 1 then "" else "/" + Join(p[1..], "/")
  }

  /** On plain segments, equal joins mean equal lists. */
  lemma {:induction false} JoinInjective(a: seq<string>, b: seq<string>)
    requires PlainPath(a) && PlainPath(b)
    ensures Join(a, "/") == Join(b, "/") <==> a == b
  {
    if a == [] && b != [] {
      JoinHead(b);
    } else if a != [] && b == [] {
      JoinHead(a);
    } else if a != [] && b != [] {
      JoinShape(a);
      JoinShape(b);
      HeadEqual(a[0], JoinTail(a), b[0], JoinTail(b));
      assert a == [a[0]] + a[1..] && b == [b[0]] + b[1..];
      if |a| > 1 && |b| > 1 {
        JoinInjective(a[1..], b[1..]);
        SlashBoth(Join(a[1..], "/"), Join(b[1..], "/"));
      } else if |a| > 1 || |b| > 1 {
        assert JoinTail(a) != JoinTail(b) by {
          assert |JoinTail(a)| == 0 || |JoinTail(b)| == 0;
          assert |JoinTail(a)| > 0 || |JoinTail(b)| > 0;
        }
      }
    }
  }

  /** On plain segments, one join followed by "/" starts the other exactly when
      the first list is a proper prefix of the second. */
  lemma {:induction false} JoinPrefix(root: seq<string>, target: seq<string>)
    requires PlainPath(root) && PlainPath(target) && root != []
    ensures StartsWith(Join(target, "/"), Join(root, "/") + "/") <==> (|root| < |target| && target[..|root|] == root)
  {
    if target != [] {
      JoinShape(target);
      JoinShape(root);
      if |root| == 1 {
        HeadPrefix(target[0], JoinTail(target), root[0], "");
        assert target[..1] == [target[0]];
      } else {
        var y := Join(root[1..], "/") + "/";
        assert Join(root, "/") + "/" == root[0] + "/" + y;
        HeadPrefix(target[0], JoinTail(target), root[0], y);
        ConsPrefix(root, target);
        if |target| > 1 {
          JoinPrefix(root[1..], target[1..]);
          SlashBoth(Join(target[1..], "/"), y);
        }
      }
    }
  }

  /** A proper prefix of a list, seen from the heads and the tails. */
  lemma ConsPrefix(root: seq<string>, target: seq<string>)
    requires |root| >= 1 && |target| >= 1
    ensures (|root| < |target| && target[..|root|] == root)
            <==> (target[0] == root[0] && |root| - 1 < |target| - 1 && target[1..][..|root| - 1] == root[1..])
  {
    if |root| < |target| {
      assert target[..|root|] == [target[0]] + target[1..][..|root| - 1];
      assert root == [root[0]] + root[1..];
    }
  }

  /** The source's text test, `resolved.startsWith(root + "/") || resolved === root`,
      is `Inside` on segments. */
  lemma InsideIffTextTest(root: seq<string>, target: seq<string>)
    requires PlainPath(root) && PlainPath(target)
    ensures (StartsWith(Text(target), Text(root) + "/") || Text(target) == Text(root)) <==> Inside(root, target)
  {
    JoinInjective(target, root);
    SlashBoth(Join(target, "/"), Join(root, "/"));
    assert Text(root) + "/" == "/" + (Join(root, "/") + "/");
    SlashBoth(Join(target, "/"), Join(root, "/") + "/");
    if root == [] {
      if target != [] {
        JoinHead(target);
      }
    } else {
      JoinPrefix(root, target);
    }
  }

  /** Under the root directory "/", only "/" itself passes. */
  lemma FilesystemRootAdmitsOnlyItself(filePath: string, workingDirectory: string, cwd: string)
    requires Root(workingDirectory, cwd) == []
    ensures ResolvePathInWorkingDir(filePath, workingDirectory, cwd).Ok? <==> Target(filePath, workingDirectory, cwd) == []
  {
  }

  /** A relative path of plain segments lands below the root: "a/b.txt" from "/sandbox" is "/sandbox/a/b.txt". */
  lemma RelativeInside(filePath: string, workingDirectory: string, cwd: string)
    requires !StartsWith(filePath, "/") && PlainPath(Split(filePath))
    requires Root(workingDirectory, cwd) != []
    ensures ResolvePathInWorkingDir(filePath, workingDirectory, cwd)
              == Ok(Text(Root(workingDirectory, cwd) + Split(filePath)))
  {
    var root := Root(workingDirectory, cwd);
    ResolveRelative(root, filePath);
    FoldPlain(root, Split(filePath));
    assert (root + Split(filePath))[..|root|] == root;
  }

  lemma SandboxRoot(workingDirectory: string, cwd: string)
    requires workingDirectory == "/sandbox"
    ensures Root(workingDirectory, cwd) == ["sandbox"]
  {
    assert Text(["sandbox"]) == workingDirectory;
    NormalizeText(["sandbox"]);
  }

  lemma SplitPlain(s: string, segs: seq<string>)
    requires |segs| >= 1 && (forall k :: 0 <= k < |segs| ==> '/' !in segs[k]) && Join(segs, "/") == s
    ensures Split(s) == segs
  {
    SplitJoin(segs);
  }

  lemma SandboxABText(filePath: string)
    requires filePath == "a/b.txt"
    ensures Text(["sandbox"] + ["a", "b.txt"]) == "/sandbox/a/b.txt"
  {
    JoinAppend(["sandbox"], ["a", "b.txt"]);
    assert Join(["a", "b.txt"], "/") == filePath;
    assert Text(["sandbox"] + ["a", "b.txt"]) == "/" + ("sandbox" + "/" + filePath);
  }

  lemma RelativeExample(filePath: string, workingDirectory: string, cwd: string)
    requires filePath == "a/b.txt" && workingDirectory == "/sandbox"
    ensures ResolvePathInWorkingDir(filePath, workingDirectory, cwd) == Ok("/sandbox/a/b.txt")
  {
    SandboxRoot(workingDirectory, cwd);
    SplitPlain(filePath, ["a", "b.txt"]);
    RelativeInside(filePath, workingDirectory, cwd);
    SandboxABText(filePath);
  }

  lemma ClimbOut(segs: seq<string>)
    requires segs == ["..", "..", "etc", "passwd"]
    ensures Fold(["sandbox"], segs) == ["etc", "passwd"]
  {
    assert Fold(["sandbox"], segs) == Fold([], segs[1..]);
    assert Fold([], segs[1..]) == Fold([], segs[2..]);
    assert segs[2..][0] == "etc" && segs[2..][1..] == segs[3..];
    assert Step([], "etc") == ["etc"];
    assert Fold([], segs[2..]) == Fold(["etc"], segs[3..]);
    assert Fold(["etc"], segs[3..]) == Fold(["etc", "passwd"], []);
  }

  /** "../../etc/passwd" from "/sandbox" lands on "/etc/passwd". */
  lemma TraversalTarget(filePath: string, workingDirectory: string, cwd: string)
    requires filePath == "../../etc/passwd" && workingDirectory == "/sandbox"
    ensures Target(filePath, workingDirectory, cwd) == ["etc", "passwd"]
  {
    var segs: seq<string> := ["..", "..", "etc", "passwd"];
    SandboxRoot(workingDirectory, cwd);
    assert Join(segs, "/") == filePath;
    SplitPlain(filePath, segs);
    ResolveRelative(["sandbox"], filePath);
    ClimbOut(segs);
  }

  /** "../../etc/passwd" climbs out of "/sandbox". */
  lemma TraversalRejected(filePath: string, workingDirectory: string, cwd: string)
    requires filePath == "../../etc/passwd" && workingDirectory == "/sandbox"
    ensures ResolvePathInWorkingDir(filePath, workingDirectory, cwd).Err?
  {
    SandboxRoot(workingDirectory, cwd);
    TraversalTarget(filePath, workingDirectory, cwd);
    assert ["etc", "passwd"][..1] != ["sandbox"];
  }

  /** "/sandbox2/x" shares the text prefix "/sandbox" but is not below it. */
  lemma SiblingRejected(filePath: string, workingDirectory: string, cwd: string)
    requires filePath == "/sandbox2/x" && workingDirectory == "/sandbox"
    ensures ResolvePathInWorkingDir(filePath, workingDirectory, cwd).Err?
  {
    var root: seq<string>, target: seq<string> := ["sandbox"], ["sandbox2", "x"];
    assert Text(root) == workingDirectory && Text(target) == filePath;
    NormalizeText(root);
    NormalizeText(target);
    assert Target(filePath, workingDirectory, cwd) == target;
  }

  // ---------------------------------------------------------------- the root directory

  /** As written, the working directory "/" refuses "/etc": the prefix compared is "//". */
  lemma RootDirectoryRefusesChild(filePath: string, workingDirectory: string, cwd: string)
    requires filePath == "/etc" && workingDirectory == "/"
    ensures ResolvePathInWorkingDir(filePath, workingDirectory, cwd).Err?
  {
    var target: seq<string> := ["etc"];
    assert Text([]) == workingDirectory && Text(target) == filePath;
    NormalizeText([]);
    NormalizeText(target);
    assert Root(workingDirectory, cwd) == [];
    assert Target(filePath, workingDirectory, cwd) == target;
  }

  /** The target is the root or lies below it, segment by segment. */
  predicate Within(root: seq<string>, target: seq<string>) {
    |root| <= |target| && target[..|root|] == root
  }

  /** The check as evidently intended: a path is admitted exactly when it lies at or
      below the working directory, the root directory "/" included. */
  function ResolvePathWithinRoot(filePath: string, workingDirectory: string, cwd: string): (r: Result<string, string>)
    ensures r.Ok? <==> Within(Root(workingDirectory, cwd), Target(filePath, workingDirectory, cwd))
    ensures r.Ok? ==> r.value == Text(Target(filePath, workingDirectory, cwd))
    ensures r.Err? ==> r.error == SecurityViolation(filePath, Text(Root(workingDirectory, cwd)))
  {
    var root := Root(workingDirectory, cwd);
    var target := Target(filePath, workingDirectory, cwd);
    if Within(root, target) then Ok(Text(target)) else Err(SecurityViolation(filePath, Text(root)))
  }

  /** Below any directory other than "/", the corrected check agrees with the written one. */
  lemma WithinAgreesBelowRoot(filePath: string, workingDirectory: string, cwd: string)
    requires Root(workingDirectory, cwd) != []
    ensures ResolvePathWithinRoot(filePath, workingDirectory, cwd) == ResolvePathInWorkingDir(filePath, workingDirectory, cwd)
  {
    var root, target := Root(workingDirectory, cwd), Target(filePath, workingDirectory, cwd);
    if |root| == |target| && target[..|root|] == root {
      assert target == root;
    }
  }

  /** Under the corrected check the working directory "/" admits every path. */
  lemma RootDirectoryAdmitsAll(filePath: string, workingDirectory: string, cwd: string)
    requires Root(workingDirectory, cwd) == []
    ensures ResolvePathWithinRoot(filePath, workingDirectory, cwd) == Ok(Text(Target(filePath, workingDirectory, cwd)))
  {
    assert Target(filePath, workingDirectory, cwd)[..0] == [];
  }
}
