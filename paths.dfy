/**
 * The output-permission rule of the rendering script: the rendered file gets
 * mode 0755 when the destination's parent directory is named `bin`, and the
 * source template's own mode otherwise. The test is written with Ruby's
 * `File.dirname` and `File.basename`, which are modelled here for POSIX paths
 * ('/' is the only separator, and a run of them counts as one).
 */
module Paths {

  /** Octal 0755: read, write and execute for the owner, read and execute for the rest. */
  const ExecutableMode: int := 0x1ED

  /** `s` without the run of '/' that ends it. */
  function TrimTrailingSlashes(s: string): (r: string)
    ensures |r| <= |s| && r == s[..|r|]
    ensures forall i :: |r| <= i < |s| ==> s[i] == '/'
    ensures r == [] || r[|r| - 1] != '/'
  {
    if |s| > 0 && s[|s| - 1] == '/' then TrimTrailingSlashes(s[..|s| - 1]) else s
  }

  /** The run of non-separator characters that ends `s` (empty when `s` ends with '/'). */
  function LastComponent(s: string): (r: string)
    ensures |r| <= |s| && r == s[|s| - |r|..]
    ensures '/' !in r
    ensures |r| < |s| ==> s[|s| - |r| - 1] == '/'
    ensures |s| > 0 && s[|s| - 1] != '/' ==> |r| > 0
  {
    if |s| == 0 || s[|s| - 1] == '/' then [] else LastComponent(s[..|s| - 1]) + [s[|s| - 1]]
  }

  /** `s` with a leading run of several '/' reduced to one, as `File.dirname` reports it. */
  function CollapseLeadingSlashes(s: string): (r: string)
    ensures |r| <= |s| && r == s[|s| - |r|..]
    ensures forall i :: 0 <= i < |s| - |r| ==> s[i] == '/'
    ensures |s| > 0 ==> |r| > 0
    ensures |s| > 0 && s[0] == '/' ==> r[0] == '/' && (|r| == 1 || r[1] != '/')
    ensures |s| == 0 || s[0] != '/' ==> r == s
  {
    if |s| >= 2 && s[0] == '/' && s[1] == '/' then CollapseLeadingSlashes(s[1..]) else s
  }

  /**
   * Ruby's `File.dirname`: trailing separators are ignored, the last name is
   * removed with the separators before it; "." when nothing is left of a
   * relative path and "/" when nothing is left of an absolute one.
   */
  function Dirname(path: string): (d: string)
    ensures d != []
    ensures '/' !in path ==> d == "."
    ensures |path| > 0 && path[0] == '/' ==> d[0] == '/'
  {
    var t := TrimTrailingSlashes(path);
    if t == [] then (if path == [] then "." else "/")
    else
      var head := t[..|t| - |LastComponent(t)|];
      if head == [] then "."
      else
        var h := TrimTrailingSlashes(head);
        if h == [] then "/" else CollapseLeadingSlashes(h)
  }

  /** Ruby's `File.basename` without a suffix: the last name, or "/" for a path of separators only. */
  function Basename(path: string): (b: string)
    ensures b == "/" || '/' !in b
    ensures '/' !in path ==> b == path
  {
    if path == [] then []
    else
      var t := TrimTrailingSlashes(path);
      if t == [] then "/" else LastComponent(t)
  }

  /** The mode the rendered file is given: 0755 under a `bin` directory, else the template's mode. */
  function OutputMode(destination: string, sourceMode: int): (mode: int)
    ensures mode == ExecutableMode || mode == sourceMode
    ensures '/' !in destination ==> mode == sourceMode
  {
    if Basename(Dirname(destination)) == "bin" then ExecutableMode else sourceMode
  }

  /** The names of a path, first to last: `path` split at '/', empty pieces dropped. */
  function Components(path: string): seq<string>
    decreases |path|
  {
    if path == [] then []
    else if path[|path| - 1] == '/' then Components(path[..|path| - 1])
    else
      var c := LastComponent(path);
      Components(path[..|path| - |c|]) + [c]
  }

  /** A path of separators only has no names. */
  lemma {:induction false} ComponentsOfSlashes(s: string)
    requires forall i :: 0 <= i < |s| ==> s[i] == '/'
    ensures Components(s) == []
  {
    if s != [] {
      ComponentsOfSlashes(s[..|s| - 1]);
    }
  }

  /** Trailing separators add no name. */
  lemma {:induction false} ComponentsIgnoreTrailingSlashes(s: string)
    ensures Components(s) == Components(TrimTrailingSlashes(s))
  {
    if s != [] && s[|s| - 1] == '/' {
      ComponentsIgnoreTrailingSlashes(s[..|s| - 1]);
    }
  }

  /** The names of a path that does not end with separators only: those of its directory part, then its last name. */
  lemma ComponentsEndingInName(path: string, t: string)
    requires t == TrimTrailingSlashes(path) && t != []
    ensures Components(path) == Components(t[..|t| - |LastComponent(t)|]) + [LastComponent(t)]
  {
    ComponentsIgnoreTrailingSlashes(path);
    assert t[|t| - 1] != '/';
    ComponentsOfName(t);
  }

  /** A path that ends with a name: the names before it, then that name. */
  lemma ComponentsOfName(t: string)
    requires t != [] && t[|t| - 1] != '/'
    ensures Components(t) == Components(t[..|t| - |LastComponent(t)|]) + [LastComponent(t)]
  {
  }

  /** The name that ends `x + "/" + w` is `w`. */
  lemma {:induction false} LastComponentAfterSlash(x: string, w: string)
    requires '/' !in w
    ensures LastComponent(x + "/" + w) == w
    decreases |w|
  {
    var s := x + "/" + w;
    if w == [] {
      assert s[|s| - 1] == '/';
    } else {
      var w' := w[..|w| - 1];
      assert s[..|s| - 1] == x + "/" + w';
      assert '/' !in w' by {
        assert forall i :: 0 <= i < |w'| ==> w'[i] == w[i];
      }
      assert s[|s| - 1] == w[|w| - 1];
      assert w[|w| - 1] in w;
      LastComponentAfterSlash(x, w');
      assert w == w' + [w[|w| - 1]];
    }
  }

  /** The names of `x + "/" + w`, for a name `w`: those of `x`, then `w`. */
  lemma NameAfterSlash(x: string, w: string)
    requires w != [] && '/' !in w
    ensures Components(x + "/" + w) == Components(x) + [w]
  {
    var s := x + "/" + w;
    assert w[|w| - 1] in w;
    assert s[|s| - 1] == w[|w| - 1];
    LastComponentAfterSlash(x, w);
    assert s[..|s| - |w|] == x + "/";
    assert (x + "/")[..|x + "/"| - 1] == x;
  }

  lemma TrimKeepsName(c: string)
    requires c != [] && c[|c| - 1] != '/'
    ensures TrimTrailingSlashes(c) == c
  {
  }

  /** Dropping separators that start a string leaves the name that ends it. */
  lemma {:induction false} LastComponentAfterSlashes(a: string, b: string)
    requires forall i :: 0 <= i < |a| ==> a[i] == '/'
    requires b != [] && b[0] == '/'
    ensures LastComponent(a + b) == LastComponent(b)
    decreases |b|
  {
    if b[|b| - 1] != '/' {
      var b' := b[..|b| - 1];
      assert (a + b)[..|a + b| - 1] == a + b';
      if b' == [] {
        assert false;
      }
      assert b'[0] == '/';
      LastComponentAfterSlashes(a, b');
    }
  }

  lemma CollapseDropsNoName(h: string, c: string)
    requires h != [] && h[|h| - 1] != '/' && h[0] == '/'
    requires c == CollapseLeadingSlashes(h)
    ensures LastComponent(c) == LastComponent(h)
  {
    var dropped := h[..|h| - |c|];
    assert h == dropped + c;
    LastComponentAfterSlashes(dropped, c);
  }

  /** The base name of a collapsed directory is the last name of the directory. */
  lemma BasenameOfCollapsed(h: string)
    requires h != [] && h[|h| - 1] != '/'
    ensures Basename(CollapseLeadingSlashes(h)) == LastComponent(h)
  {
    var c := CollapseLeadingSlashes(h);
    assert c[|c| - 1] == h[|h| - 1];
    TrimKeepsName(c);
    if h[0] == '/' {
      CollapseDropsNoName(h, c);
    }
  }

  /**
   * The name of the directory holding `path`, read off its names: the
   * next-to-last one; "/" for an absolute path with fewer than two names and
   * "." for a relative one.
   */
  function ParentName(path: string): string {
    var cs := Components(path);
    if |cs| >= 2 then cs[|cs| - 2]
    else if path != [] && path[0] == '/' then "/"
    else "."
  }

  lemma BasenameOfRoots()
    ensures Basename(".") == "." && Basename("/") == "/"
  {
    assert TrimTrailingSlashes(".") == ".";
    assert LastComponent(".") == LastComponent([]) + ".";
    assert TrimTrailingSlashes("/") == TrimTrailingSlashes([]);
  }

  /** A path of separators only (or the empty path). */
  lemma ParentOfNoName(path: string)
    requires TrimTrailingSlashes(path) == []
    ensures Basename(Dirname(path)) == ParentName(path)
  {
    ComponentsOfSlashes(path);
    var root := if path == [] then "." else "/";
    assert path != [] ==> path[0] == '/';
    assert ParentName(path) == root;
    assert Dirname(path) == root;
    BasenameOfRoots();
  }

  /** The directory part of a path with one name: "." when it is relative, "/" when absolute. */
  lemma DirnameOfOneName(path: string, t: string, head: string)
    requires t == TrimTrailingSlashes(path) && t != []
    requires head == t[..|t| - |LastComponent(t)|]
    requires TrimTrailingSlashes(head) == []
    ensures Dirname(path) == if head == [] then "." else "/"
  {
  }

  /** A path with one name: absolute exactly when separators come before the name. */
  lemma OneNameIsAbsolute(path: string, t: string, head: string, last: string)
    requires t == TrimTrailingSlashes(path) && t != []
    requires last == LastComponent(t) && head == t[..|t| - |last|]
    requires TrimTrailingSlashes(head) == []
    ensures path != [] && (path[0] == '/' <==> head != [])
  {
    assert path[0] == t[0];
    if head == [] {
      assert t[0] == last[0];
      assert last[0] in last;
    } else {
      assert head[0] == '/';
      assert head[0] == t[0];
    }
  }

  /** A path with one name and separators around it. */
  lemma ParentOfOneName(path: string, t: string, head: string, last: string)
    requires t == TrimTrailingSlashes(path) && t != []
    requires last == LastComponent(t) && head == t[..|t| - |last|]
    requires TrimTrailingSlashes(head) == []
    ensures Basename(Dirname(path)) == ParentName(path)
  {
    ComponentsEndingInName(path, t);
    ComponentsOfSlashes(head);
    assert Components(path) == [last];
    OneNameIsAbsolute(path, t, head, last);
    DirnameOfOneName(path, t, head);
    BasenameOfRoots();
  }

  /** The directory part of a path with at least two names: `h` with its leading separators collapsed. */
  lemma DirnameOfNames(path: string, t: string, head: string, h: string)
    requires t == TrimTrailingSlashes(path) && t != []
    requires head == t[..|t| - |LastComponent(t)|]
    requires h == TrimTrailingSlashes(head) && h != []
    ensures Dirname(path) == CollapseLeadingSlashes(h)
  {
    assert |h| <= |head|;
    assert head != [];
    var t' := TrimTrailingSlashes(path);
    assert t' == t;
    var head' := t'[..|t'| - |LastComponent(t')|];
    assert head' == head;
    var h' := TrimTrailingSlashes(head');
    assert h' == h;
  }

  lemma NamesBeforeLast(path: string, t: string, head: string, h: string)
    requires t == TrimTrailingSlashes(path) && t != []
    requires head == t[..|t| - |LastComponent(t)|]
    requires h == TrimTrailingSlashes(head) && h != []
    ensures ParentName(path) == LastComponent(h)
  {
    ComponentsEndingInName(path, t);
    ComponentsEndingInName(head, h);
    var cs := Components(path);
    assert cs == Components(h[..|h| - |LastComponent(h)|]) + [LastComponent(h)] + [LastComponent(t)];
  }

  /** A path with at least two names: its directory's name is the last name of `h`. */
  lemma ParentOfNames(path: string, t: string, head: string, h: string)
    requires t == TrimTrailingSlashes(path) && t != []
    requires head == t[..|t| - |LastComponent(t)|]
    requires h == TrimTrailingSlashes(head) && h != []
    ensures Basename(Dirname(path)) == ParentName(path)
  {
    DirnameOfNames(path, t, head, h);
    BasenameOfCollapsed(h);
    NamesBeforeLast(path, t, head, h);
  }

  /** `File.basename(File.dirname(path))` is the name of the directory holding `path`. */
  lemma ParentDirectoryName(path: string)
    ensures Basename(Dirname(path)) == ParentName(path)
  {
    var t := TrimTrailingSlashes(path);
    if t == [] {
      ParentOfNoName(path);
    } else {
      var last := LastComponent(t);
      var head := t[..|t| - |last|];
      var h := TrimTrailingSlashes(head);
      if h == [] {
        ParentOfOneName(path, t, head, last);
      } else {
        ParentOfNames(path, t, head, h);
      }
    }
  }

  /** The output is executable exactly when the next-to-last name of the destination is `bin`. */
  lemma OutputModeByParentName(destination: string, sourceMode: int)
    ensures OutputMode(destination, sourceMode) ==
      if ParentName(destination) == "bin" then ExecutableMode else sourceMode
  {
    ParentDirectoryName(destination);
  }

  /** Only the immediate parent counts: `bin` further up, or as the file's own name, leaves the template's mode. */
  lemma OnlyImmediateParentCounts(dir: string, parent: string, file: string, sourceMode: int)
    requires parent != [] && '/' !in parent && file != [] && '/' !in file
    ensures OutputMode(dir + "/" + parent + "/" + file, sourceMode) ==
      if parent == "bin" then ExecutableMode else sourceMode
  {
    var path := dir + "/" + parent + "/" + file;
    NameAfterSlash(dir + "/" + parent, file);
    NameAfterSlash(dir, parent);
    assert Components(path) == Components(dir) + [parent] + [file];
    OutputModeByParentName(path, sourceMode);
  }
}
