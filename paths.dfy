/**
 * Where the data store puts things: the public directory, the full path of
 * a uid, and the directories `mkdir_with_intermediates` creates.
 */
module Paths {
  import opened Wrappers
  import opened RubyText

  /** `"#{x}"`: nil interpolates as the empty string. */
  function Interpolate(x: Option<string>): string {
    x.GetOr("")
  }

  /** `public_directory`: "/#{user}/public/#{directory}" */
  function PublicDirectory(user: Option<string>, directory: Option<string>): (r: string)
    ensures StartsWith(r, "/" + Interpolate(user) + "/public/")
    ensures EndsWith(r, Interpolate(directory))
    ensures |r| == |Interpolate(user)| + |Interpolate(directory)| + 9
  {
    "/" + Interpolate(user) + "/public/" + Interpolate(directory)
  }

  /**
   * `full_path(uid)`: `File.join` of the public directory, the root path
   * (left out when nil) and the uid. The path always ends with the uid and
   * starts with the public directory (less any trailing '/') and a '/'.
   */
  function FullPath(publicDirectory: string, rootPath: Option<string>, uid: string): (r: string)
    ensures EndsWith(r, uid)
    ensures StartsWith(r, ChompSlashes(publicDirectory) + "/")
  {
    var parts := if rootPath.Some? then [publicDirectory, rootPath.value, uid] else [publicDirectory, uid];
    FileJoinStartsWithFirst(parts);
    FileJoin(parts)
  }

  /**
   * With a plain directory name, a root path without separators at its ends
   * and a uid that does not start with '/', the components are joined by
   * exactly one '/': `/user/public/directory[/root_path]/uid`.
   */
  lemma FullPathLayout(user: Option<string>, directory: string, rootPath: Option<string>, uid: string)
    requires directory != [] && directory[|directory| - 1] != '/'
    requires rootPath.Some? ==> rootPath.value != [] && rootPath.value[0] != '/'
                                && rootPath.value[|rootPath.value| - 1] != '/'
    requires uid == [] || uid[0] != '/'
    ensures var pd := PublicDirectory(user, Some(directory));
            FullPath(pd, rootPath, uid)
              == if rootPath.Some? then pd + "/" + rootPath.value + "/" + uid else pd + "/" + uid
  {
    var pd := PublicDirectory(user, Some(directory));
    assert pd[|pd| - 1] != '/' by { assert pd[|pd| - 1] == directory[|directory| - 1]; }
    if rootPath.Some? {
      var root := rootPath.value;
      var inner := JoinPath(pd, root);
      assert inner[|inner| - 1] != '/' by { assert inner[|inner| - 1] == root[|root| - 1]; }
      FileJoinThree(pd, root, uid);
    } else {
      FileJoinTwo(pd, uid);
    }
  }

  /** An empty root path puts objects exactly where a nil one does. */
  lemma EmptyRootPathIgnored(publicDirectory: string, uid: string)
    ensures FullPath(publicDirectory, Some(""), uid) == FullPath(publicDirectory, None, uid)
  {
    var pd := publicDirectory;
    FileJoinThree(pd, "", uid);
    FileJoinTwo(pd, uid);
    if |pd| > 0 && pd[|pd| - 1] == '/' {
      assert JoinPath(pd, "") == pd + "" == pd;
    } else {
      assert JoinPath(pd, "") == pd + "/";
      if |uid| > 0 && uid[0] == '/' {
        var c := ChompSlashes(pd);
        var c' := ChompSlashes(pd + "/");
        assert |c| == |pd| && c == pd;
        assert (pd + "/")[..|pd|] == pd;
        assert |c'| == |pd| && c' == pd;
      }
    }
  }

  /**
   * A uid without separators (every generated uid) cannot contain a root
   * path that has one: the uid a write returns never includes "some/path".
   */
  lemma SlashFreeUidExcludesRootPath(uid: string, rootPath: string)
    requires NoSlash(uid) && !NoSlash(rootPath)
    ensures !Includes(uid, rootPath)
  {
    var j :| 0 <= j < |rootPath| && rootPath[j] == '/';
  }

  // ---------------------------------------------------------------------------
  // mkdir_for_file_path and mkdir_with_intermediates

  /** `file_with_path.split("/")[0..-2].join("/")` */
  function ParentDirectory(filePath: string): string {
    Join(DropLast(Split(filePath)))
  }

  /** The parent is either empty or a proper prefix of the path ending right before a '/'. */
  lemma ParentDirectoryPrefix(filePath: string)
    ensures var r := ParentDirectory(filePath);
            r == "" || (StartsWith(filePath, r) && |r| < |filePath| && filePath[|r|] == '/')
  {
    var comps := Split(filePath);
    SplitMeaning(filePath);
    var n := |comps|;
    if n >= 2 {
      var r := Join(comps[..n - 1]);
      assert ParentDirectory(filePath) == r;
      var t := ChompSlashes(filePath);
      assert t == r + "/" + comps[n - 1];
      assert t[..|r|] == r && t[|r|] == '/';
      assert filePath[..|t|] == t;
      assert filePath[..|r|] == t[..|r|];
    } else {
      assert DropLast(comps) == [];
    }
  }

  /**
   * The directories the loop of `mkdir_with_intermediates` creates in its
   * first `n` steps: step i joins the first i + 1 components and creates the
   * result when it starts with the public directory and is not empty.
   */
  function DirectoriesToMake(publicDirectory: string, comps: seq<string>, n: nat): seq<string>
    requires n <= |comps|
  {
    if n == 0 then []
    else
      var p := Join(comps[..n]);
      DirectoriesToMake(publicDirectory, comps, n - 1)
        + (if StartsWith(p, publicDirectory) && p != "" then [p] else [])
  }

  /** Every directory `mkdir_with_intermediates(path)` creates, in call order. */
  function MkdirPlan(publicDirectory: string, path: string): seq<string> {
    var comps := Split(path);
    DirectoriesToMake(publicDirectory, comps, |comps|)
  }

  /** A step of the loop whose directory qualifies extends the call log by that directory. */
  lemma DirectoriesToMakeGrows(publicDirectory: string, comps: seq<string>, n: nat, calls: seq<string>)
    requires n < |comps|
    requires StartsWith(Join(comps[..n + 1]), publicDirectory) && Join(comps[..n + 1]) != ""
    ensures calls + DirectoriesToMake(publicDirectory, comps, n + 1)
            == calls + DirectoriesToMake(publicDirectory, comps, n) + [Join(comps[..n + 1])]
  {
    ConcatAssociative(calls, DirectoriesToMake(publicDirectory, comps, n), [Join(comps[..n + 1])]);
  }

  /** A step of the loop whose directory does not qualify creates nothing. */
  lemma DirectoriesToMakeSkips(publicDirectory: string, comps: seq<string>, n: nat)
    requires n < |comps|
    requires !(StartsWith(Join(comps[..n + 1]), publicDirectory) && Join(comps[..n + 1]) != "")
    ensures DirectoriesToMake(publicDirectory, comps, n + 1) == DirectoriesToMake(publicDirectory, comps, n)
  {
    assert DirectoriesToMake(publicDirectory, comps, n) + [] == DirectoriesToMake(publicDirectory, comps, n);
  }

  /** Each element is a proper prefix of every later one. */
  predicate PrefixChain(s: seq<string>) {
    forall i, j :: 0 <= i < j < |s| ==> |s[i]| < |s[j]| && StartsWith(s[j], s[i])
  }

  /**
   * After n steps the directories made are exactly the qualifying joins of
   * the first 1..n components.
   */
  lemma {:induction false} DirectoriesToMakeMembers(publicDirectory: string, comps: seq<string>, n: nat)
    requires n <= |comps|
    ensures forall x :: x in DirectoriesToMake(publicDirectory, comps, n) <==>
      (StartsWith(x, publicDirectory) && x != "" && exists m :: 1 <= m <= n && x == Join(comps[..m]))
  {
    if n > 0 {
      DirectoriesToMakeMembers(publicDirectory, comps, n - 1);
      var p := Join(comps[..n]);
      var made := DirectoriesToMake(publicDirectory, comps, n);
      assert made == DirectoriesToMake(publicDirectory, comps, n - 1)
                       + (if StartsWith(p, publicDirectory) && p != "" then [p] else []);
      forall x | StartsWith(x, publicDirectory) && x != "" && exists m :: 1 <= m <= n && x == Join(comps[..m])
        ensures x in made
      {
        var m :| 1 <= m <= n && x == Join(comps[..m]);
        if m < n {
          assert x in DirectoriesToMake(publicDirectory, comps, n - 1);
        }
      }
    }
  }

  /** Each directory made is a proper prefix of every one made after it. */
  lemma {:induction false} DirectoriesToMakeOrdered(publicDirectory: string, comps: seq<string>, n: nat)
    requires n <= |comps|
    ensures PrefixChain(DirectoriesToMake(publicDirectory, comps, n))
  {
    if n > 0 {
      DirectoriesToMakeOrdered(publicDirectory, comps, n - 1);
      DirectoriesToMakeMembers(publicDirectory, comps, n - 1);
      var before := DirectoriesToMake(publicDirectory, comps, n - 1);
      var p := Join(comps[..n]);
      var made := DirectoriesToMake(publicDirectory, comps, n);
      assert made == before + (if StartsWith(p, publicDirectory) && p != "" then [p] else []);
      forall i, j | 0 <= i < j < |made|
        ensures |made[i]| < |made[j]| && StartsWith(made[j], made[i])
      {
        assert made[i] == before[i];
        if j < |before| {
          assert made[j] == before[j];
          assert |before[i]| < |before[j]| && StartsWith(before[j], before[i]);
        } else {
          assert made[j] == p && before[i] in before;
          var m :| 1 <= m <= n - 1 && before[i] == Join(comps[..m]);
          assert comps[..n][..m] == comps[..m];
          JoinPrefixIsDirPrefix(comps[..n], m);
          assert DirPrefix(p, before[i]) && |before[i]| < |p|;
        }
      }
    }
  }

  /**
   * `mkdir_with_intermediates(path)` creates exactly the directories on the
   * way to `path` (less trailing separators) that start with the public
   * directory and are not empty.
   */
  lemma MkdirPlanMembers(publicDirectory: string, path: string, x: string)
    ensures x in MkdirPlan(publicDirectory, path) <==>
      (StartsWith(x, publicDirectory) && x != "" && DirPrefix(ChompSlashes(path), x))
  {
    var comps := Split(path);
    SplitMeaning(path);
    var t := ChompSlashes(path);
    DirectoriesToMakeMembers(publicDirectory, comps, |comps|);
    if x in MkdirPlan(publicDirectory, path) {
      var m :| 1 <= m <= |comps| && x == Join(comps[..m]);
      JoinPrefixIsDirPrefix(comps, m);
    }
    if StartsWith(x, publicDirectory) && x != "" && DirPrefix(t, x) {
      if |comps| == 0 {
        assert t == "";
      } else {
        var m := DirPrefixIsJoinPrefix(comps, x);
      }
    }
  }

  /** ... and creates them from the shortest to the longest, each inside the one before. */
  lemma MkdirPlanOrdered(publicDirectory: string, path: string)
    ensures PrefixChain(MkdirPlan(publicDirectory, path))
  {
    var comps := Split(path);
    DirectoriesToMakeOrdered(publicDirectory, comps, |comps|);
  }

  /**
   * Every directory `mkdir_for_file_path(file)` creates is a directory
   * above the file: a proper prefix of its path followed by '/'.
   */
  lemma MkdirForFileCreatesAncestors(publicDirectory: string, filePath: string, x: string)
    requires x in MkdirPlan(publicDirectory, ParentDirectory(filePath))
    ensures StartsWith(x, publicDirectory)
    ensures StartsWith(filePath, x) && |x| < |filePath| && filePath[|x|] == '/'
  {
    var parent := ParentDirectory(filePath);
    ParentDirectoryPrefix(filePath);
    var t := ChompSlashes(parent);
    MkdirPlanMembers(publicDirectory, parent, x);
    assert DirPrefix(t, x) && x != "";
    assert |t| >= |x| > 0;
    assert DirPrefix(parent, t);
    assert DirPrefix(filePath, parent) && |parent| < |filePath|;
    DirPrefixTransitive(filePath, parent, t);
    DirPrefixTransitive(filePath, t, x);
  }
}
