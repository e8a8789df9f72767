/**
 * The two `os.path` operations the downloader and the API rely on, for POSIX
 * paths: `os.path.join` and a lexical model of `os.path.abspath` (split on '/',
 * drop empty and "." segments, let ".." remove the previous segment).
 */
module Paths {
  import opened Strings

  /** `posixpath.join(a, b)`: an absolute `b` replaces `a`; otherwise a '/' is inserted unless `a` is empty or already ends in one. */
  function Join(a: string, b: string): (p: string)
    ensures EndsWith(p, b)
    ensures !StartsWith(b, "/") ==> StartsWith(p, a)
    ensures !StartsWith(b, "/") && a != "" && a[|a| - 1] != '/' ==> |p| == |a| + 1 + |b| && p[|a|] == '/'
  {
    if |b| > 0 && b[0] == '/' then b
    else if a == "" || a[|a| - 1] == '/' then a + b
    else a + "/" + b
  }

  /** Joining under one directory is injective in the relative part. */
  lemma JoinInjective(a: string, x: string, y: string)
    requires !StartsWith(x, "/") && !StartsWith(y, "/")
    requires Join(a, x) == Join(a, y)
    ensures x == y
  {
    var n := if a == "" || a[|a| - 1] == '/' then |a| else |a| + 1;
    assert x == Join(a, x)[n..];
    assert y == Join(a, y)[n..];
  }

  /** Different relative parts joined under one directory give different paths. */
  lemma JoinDistinct(a: string, x: string, y: string)
    requires !StartsWith(x, "/") && !StartsWith(y, "/")
    requires x != y
    ensures Join(a, x) != Join(a, y)
  {
    var n := if a == "" || a[|a| - 1] == '/' then |a| else |a| + 1;
    assert x == Join(a, x)[n..];
    assert y == Join(a, y)[n..];
  }

  /** Joining a relative part onto a directory that does not end in '/' inserts exactly one '/'. */
  lemma JoinRelative(a: string, b: string)
    requires a != "" && a[|a| - 1] != '/'
    requires b == "" || b[0] != '/'
    ensures Join(a, b) == a + "/" + b
  {
  }

  // ---------------------------------------------------------------------------
  // Segments

  /** No segment holds a '/'. */
  predicate SlashFree(segs: seq<string>)
  {
    forall i :: 0 <= i < |segs| ==> '/' !in segs[i]
  }

  /** `p.split('/')`: the maximal '/'-free pieces of `p`, in order. */
  function Split(p: string): (segs: seq<string>)
    ensures |segs| >= 1
    ensures SlashFree(segs)
  {
    if p == "" then [""]
    else if p[0] == '/' then [""] + Split(p[1..])
    else
      var rest := Split(p[1..]);
      [[p[0]] + rest[0]] + rest[1..]
  }

  /** `"/".join(segs)` */
  function JoinSegs(segs: seq<string>): string
    requires |segs| >= 1
  {
    if |segs| == 1 then segs[0] else segs[0] + "/" + JoinSegs(segs[1..])
  }

  /** Joining the pieces of a split gives the string back. */
  lemma {:induction false} JoinSplit(p: string)
    ensures JoinSegs(Split(p)) == p
  {
    if p != "" {
      JoinSplit(p[1..]);
      var rest := Split(p[1..]);
      var segs := Split(p);
      assert p == [p[0]] + p[1..];
      if p[0] == '/' {
        assert segs == [""] + rest;
        assert segs[1..] == rest;
        assert JoinSegs(segs) == "" + "/" + JoinSegs(rest);
      } else if |rest| == 1 {
        assert segs == [[p[0]] + rest[0]];
        assert JoinSegs(segs) == [p[0]] + JoinSegs(rest);
      } else {
        assert segs == [[p[0]] + rest[0]] + rest[1..];
        assert segs[1..] == rest[1..];
        assert JoinSegs(segs) == [p[0]] + rest[0] + "/" + JoinSegs(rest[1..]);
        assert JoinSegs(rest) == rest[0] + "/" + JoinSegs(rest[1..]);
      }
    }
  }

  /** Splitting a join of '/'-free segments gives the segments back. */
  lemma {:induction false} SplitJoin(segs: seq<string>)
    requires |segs| >= 1 && SlashFree(segs)
    ensures Split(JoinSegs(segs)) == segs
    decreases |segs|, |segs[0]|
  {
    var head := segs[0];
    if |segs| == 1 {
      SplitSegment(head);
    } else {
      var p := JoinSegs(segs);
      assert p == head + "/" + JoinSegs(segs[1..]);
      if head == "" {
        assert p[1..] == JoinSegs(segs[1..]);
        SplitJoin(segs[1..]);
      } else {
        var shorter := [head[1..]] + segs[1..];
        assert SlashFree(shorter) by {
          assert forall c :: c in head[1..] ==> c in head;
        }
        SplitJoin(shorter);
        assert p[1..] == JoinSegs(shorter);
        assert head == [head[0]] + head[1..];
      }
    }
  }

  /** A '/'-free string splits into itself. */
  lemma {:induction false} SplitSegment(s: string)
    requires '/' !in s
    ensures Split(s) == [s]
  {
    if s != "" {
      assert '/' !in s[1..] by { assert forall c :: c in s[1..] ==> c in s; }
      SplitSegment(s[1..]);
      assert s == [s[0]] + s[1..];
    }
  }

  // ---------------------------------------------------------------------------
  // Normalisation

  /** A segment that survives normalisation: non-empty, '/'-free, neither "." nor "..". */
  predicate IsName(s: string)
  {
    s != "" && s != "." && s != ".." && '/' !in s
  }

  /** A normalised absolute path, as its list of names. */
  predicate Normalized(names: seq<string>)
  {
    forall i :: 0 <= i < |names| ==> IsName(names[i])
  }

  /** One step of `normpath`: "" and "." vanish, ".." drops the last name (none above "/"), a name is appended. */
  function Step(stack: seq<string>, seg: string): (r: seq<string>)
    requires Normalized(stack) && '/' !in seg
    ensures Normalized(r)
    ensures IsName(seg) ==> r == stack + [seg]
    ensures seg == ".." ==> r == (if stack == [] then [] else stack[..|stack| - 1])
    ensures seg == "" || seg == "." ==> r == stack
  {
    if seg == "" || seg == "." then stack
    else if seg == ".." then (if stack == [] then [] else stack[..|stack| - 1])
    else stack + [seg]
  }

  /** The names left after applying the segments in order to `stack`. */
  function Resolve(stack: seq<string>, segs: seq<string>): (r: seq<string>)
    requires Normalized(stack) && SlashFree(segs)
    ensures Normalized(r)
    decreases |segs|
  {
    if segs == [] then stack else Resolve(Step(stack, segs[0]), segs[1..])
  }

  /** Already normalised names resolve to themselves, appended. */
  lemma {:induction false} ResolveNames(stack: seq<string>, names: seq<string>)
    requires Normalized(stack) && Normalized(names)
    ensures Resolve(stack, names) == stack + names
    decreases |names|
  {
    if names != [] {
      ResolveNames(stack + [names[0]], names[1..]);
      assert stack + [names[0]] + names[1..] == stack + names;
    }
  }

  /** "/" followed by each name, each preceded by '/'. */
  function Flatten(names: seq<string>): (p: string)
    ensures names != [] ==> |p| > 0 && p[0] == '/'
  {
    if names == [] then "" else "/" + names[0] + Flatten(names[1..])
  }

  /** The path string of a list of names: "/" for the root. */
  function Render(names: seq<string>): (p: string)
    ensures |p| > 0 && p[0] == '/'
  {
    if names == [] then "/" else Flatten(names)
  }

  /** `os.path.abspath(p)` with working directory `cwd`: a relative path is resolved against `cwd`. */
  function Abspath(cwd: seq<string>, p: string): (a: string)
    requires Normalized(cwd)
    ensures StartsWith(a, "/")
  {
    Render(Resolve(if StartsWith(p, "/") then [] else cwd, Split(p)))
  }

  /** Flattening distributes over concatenation. */
  lemma {:induction false} FlattenAppend(xs: seq<string>, ys: seq<string>)
    ensures Flatten(xs + ys) == Flatten(xs) + Flatten(ys)
    decreases |xs|
  {
    if xs != [] {
      FlattenAppend(xs[1..], ys);
      assert (xs + ys)[0] == xs[0];
      assert (xs + ys)[1..] == xs[1..] + ys;
    } else {
      assert xs + ys == ys;
    }
  }

  /** The rendered path of a list of names splits into "" followed by those names. */
  lemma SplitRender(names: seq<string>)
    requires Normalized(names)
    ensures Split(Render(names)) == (if names == [] then ["", ""] else [""] + names)
  {
    if names == [] {
      assert Render(names) == "/";
      assert "/"[1..] == "";
      assert Split("/") == [""] + Split("");
    } else {
      FlattenIsJoin(names);
      SplitJoin([""] + names);
    }
  }

  /** A non-empty flattening is the join of "" and the names. */
  lemma {:induction false} FlattenIsJoin(names: seq<string>)
    requires names != []
    ensures Flatten(names) == JoinSegs([""] + names)
    decreases |names|
  {
    if |names| > 1 {
      FlattenIsJoin(names[1..]);
      assert ([""] + names)[1..] == names;
      assert ([""] + names[1..])[1..] == names[1..];
    } else {
      assert ([""] + names)[1..] == names;
    }
  }

  /** Normalising a normalised path changes nothing: `abspath` is idempotent. */
  lemma AbspathIdempotent(cwd: seq<string>, p: string)
    requires Normalized(cwd)
    ensures Abspath(cwd, Abspath(cwd, p)) == Abspath(cwd, p)
  {
    var names := Resolve(if StartsWith(p, "/") then [] else cwd, Split(p));
    var a := Render(names);
    assert Abspath(cwd, p) == a;
    assert StartsWith(a, "/");
    assert Abspath(cwd, a) == Render(Resolve([], Split(a)));
    SplitRender(names);
    if names == [] {
      assert ["", ""][1..] == [""];
      assert Resolve([], ["", ""]) == Resolve([], [""]) == Resolve([], []) == [];
    } else {
      ResolveNames([], names);
      assert ([""] + names)[1..] == names;
      assert Resolve([], [""] + names) == Resolve([], names) == names;
    }
  }

  // ---------------------------------------------------------------------------
  // Containment

  /** `path` is `root` itself or lies below it, compared at a segment boundary. */
  predicate UnderRoot(path: string, root: string)
  {
    path == root || StartsWith(path, root + "/")
  }

  /** The longest '/'-free prefix of `s`. */
  function TakeName(s: string): (n: string)
    ensures StartsWith(s, n) && '/' !in n
  {
    if s == [] || s[0] == '/' then [] else [s[0]] + TakeName(s[1..])
  }

  /** The leading name of `a + v` is `a` when `v` is empty or starts a new segment. */
  lemma {:induction false} TakeNameOf(a: string, v: string)
    requires '/' !in a
    requires v == "" || v[0] == '/'
    ensures TakeName(a + v) == a
  {
    if a != [] {
      assert (a + v)[1..] == a[1..] + v;
      assert '/' !in a[1..] by { assert forall c :: c in a[1..] ==> c in a; }
      TakeNameOf(a[1..], v);
    }
  }

  /** Two names followed by the starts of further segments agree when the strings do. */
  lemma NameBoundary(a: string, u: string, b: string, v: string)
    requires '/' !in a && '/' !in b
    requires u == "" || u[0] == '/'
    requires v == "" || v[0] == '/'
    requires a + u == b + v
    ensures a == b && u == v
  {
    TakeNameOf(a, u);
    TakeNameOf(b, v);
    assert u == (a + u)[|a|..];
    assert v == (b + v)[|b|..];
  }

  /** A rendered path lies under a rendered root exactly when the root's names are a prefix of the path's names. */
  lemma UnderRootIffPrefix(root: seq<string>, path: seq<string>)
    requires Normalized(root) && Normalized(path) && root != []
    ensures UnderRoot(Render(path), Render(root)) <==> root <= path
  {
    var r := Flatten(root);
    var p := Flatten(path);
    if root <= path {
      FlattenAppend(root, path[|root|..]);
      assert root + path[|root|..] == path;
    }
    if UnderRoot(p, r) {
      var w := p[|r|..];
      assert p == r + w;
      FlattenPrefix(root, path, w);
    }
  }

  /** If the flattening of `path` extends that of `root` by a whole number of segments, `root` is a prefix of `path`. */
  lemma {:induction false} FlattenPrefix(root: seq<string>, path: seq<string>, w: string)
    requires Normalized(root) && Normalized(path) && root != []
    requires w == "" || w[0] == '/'
    requires Flatten(path) == Flatten(root) + w
    ensures root <= path
    decreases |root|
  {
    FlattenHead(root, path, w);
    if |root| > 1 {
      FlattenPrefix(root[1..], path[1..], w);
      assert root == [root[0]] + root[1..] && path == [path[0]] + path[1..];
    }
  }

  /** The first names agree when one flattening extends the other by whole segments. */
  lemma FlattenHead(root: seq<string>, path: seq<string>, w: string)
    requires Normalized(root) && Normalized(path) && root != []
    requires w == "" || w[0] == '/'
    requires Flatten(path) == Flatten(root) + w
    ensures path != [] && path[0] == root[0]
    ensures Flatten(path[1..]) == Flatten(root[1..]) + w
  {
    var rt := Flatten(root[1..]) + w;
    FlattenThenSegment(root[1..], w);
    FlattenCons(root, w);
    FlattenNonEmpty(root, path, w);
    var pt := Flatten(path[1..]);
    FlattenCons(path, "");
    assert Flatten(path) + "" == Flatten(path);
    DropSlash(path[0] + pt, root[0] + rt);
    assert IsName(path[0]) && IsName(root[0]);
    NameBoundary(path[0], pt, root[0], rt);
  }

  /** A flattening followed by the start of a segment is empty or starts a segment. */
  lemma FlattenThenSegment(names: seq<string>, w: string)
    requires w == "" || w[0] == '/'
    ensures Flatten(names) + w == "" || (Flatten(names) + w)[0] == '/'
  {
  }

  /** One unfolding of `Flatten`, followed by `w`. */
  lemma FlattenCons(names: seq<string>, w: string)
    requires names != []
    ensures Flatten(names) + w == "/" + (names[0] + (Flatten(names[1..]) + w))
  {
  }

  /** Only the empty list flattens to the empty string. */
  lemma FlattenNonEmpty(root: seq<string>, path: seq<string>, w: string)
    requires root != []
    requires Flatten(path) == Flatten(root) + w
    ensures path != []
  {
  }

  /** Equal strings after a shared leading '/' are equal. */
  lemma DropSlash(a: string, b: string)
    requires "/" + a == "/" + b
    ensures a == b
  {
    assert a == ("/" + a)[1..];
    assert b == ("/" + b)[1..];
  }

  /** Rendering is injective on lists of names. */
  lemma {:induction false} NamesEqualWhenFlatEqual(xs: seq<string>, ys: seq<string>)
    requires Normalized(xs) && Normalized(ys)
    requires Flatten(xs) == Flatten(ys)
    ensures xs == ys
    decreases |xs|
  {
    if xs != [] {
      assert |ys| > 0;
      assert Flatten(xs) == "/" + (xs[0] + Flatten(xs[1..]));
      assert Flatten(ys) == "/" + (ys[0] + Flatten(ys[1..]));
      assert xs[0] + Flatten(xs[1..]) == ys[0] + Flatten(ys[1..]) by {
        assert Flatten(xs)[1..] == xs[0] + Flatten(xs[1..]);
        assert Flatten(ys)[1..] == ys[0] + Flatten(ys[1..]);
      }
      assert IsName(xs[0]) && IsName(ys[0]);
      NameBoundary(xs[0], Flatten(xs[1..]), ys[0], Flatten(ys[1..]));
      NamesEqualWhenFlatEqual(xs[1..], ys[1..]);
      assert xs == [xs[0]] + xs[1..] && ys == [ys[0]] + ys[1..];
    }
  }
}
