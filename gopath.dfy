/** Slash-separated paths as Go's `path` package treats them: `Clean`
    resolves `.`, `..` and repeated slashes lexically, and `Join` glues
    elements with '/' and cleans the result. The remote file listing names
    every entry with them. */
module GoPath {
  import opened Text

  /** The lexical resolution of the segments of a path, onto the stack `acc`
      of segments kept so far: empty and `.` segments vanish, `..` removes
      the segment before it when there is one that is not itself `..`, is
      dropped at the root of a rooted path, and stays otherwise. */
  function Resolve(segs: seq<string>, rooted: bool, acc: seq<string>): seq<string>
    decreases |segs|
  {
    if segs == [] then acc
    else
      var s := segs[0];
      var next :=
        if s == "" || s == "." then acc
        else if s == ".." then
          (if acc != [] && acc[|acc| - 1] != ".." then acc[..|acc| - 1]
           else if rooted then acc
           else acc + [".."])
        else acc + [s];
      Resolve(segs[1..], rooted, next)
  }

  /** The shape of a resolved path: no empty, `.` or slash-carrying segment,
      and `..` only in a leading run of a path that is not rooted. */
  predicate Normal(stack: seq<string>, rooted: bool) {
    forall i :: 0 <= i < |stack| ==>
      stack[i] != "" && stack[i] != "." && '/' !in stack[i]
      && (stack[i] == ".." ==> !rooted && forall j :: 0 <= j < i ==> stack[j] == "..")
  }

  /** The text of a resolved path: "/" or "." when nothing is left. */
  function Render(stack: seq<string>, rooted: bool): string {
    if stack == [] then (if rooted then "/" else ".")
    else (if rooted then "/" else "") + Join(stack, '/')
  }

  /** `path.Clean`. */
  function Clean(p: string): string {
    if p == "" then "."
    else Render(Resolve(Split(p, '/'), p[0] == '/', []), p[0] == '/')
  }

  /** `path.Join` of two elements: empty elements are skipped, and two empty
      elements give the empty path rather than ".". */
  function PathJoin(a: string, b: string): string {
    if a != "" then Clean(a + "/" + b)
    else if b != "" then Clean(b)
    else ""
  }

  /** Resolution keeps a resolved stack resolved. */
  lemma {:induction false} ResolveNormal(segs: seq<string>, rooted: bool, acc: seq<string>)
    requires Normal(acc, rooted)
    requires forall k :: 0 <= k < |segs| ==> '/' !in segs[k]
    ensures Normal(Resolve(segs, rooted, acc), rooted)
    decreases |segs|
  {
    if segs != [] {
      var s := segs[0];
      var next :=
        if s == "" || s == "." then acc
        else if s == ".." then
          (if acc != [] && acc[|acc| - 1] != ".." then acc[..|acc| - 1]
           else if rooted then acc
           else acc + [".."])
        else acc + [s];
      if s == ".." && !(acc != [] && acc[|acc| - 1] != "..") && !rooted {
        forall j | 0 <= j < |acc| ensures acc[j] == ".." {
          assert acc[|acc| - 1] == "..";
        }
      }
      assert Normal(next, rooted);
      ResolveNormal(segs[1..], rooted, next);
    }
  }

  /** Resolving segments that already form a resolved path keeps them all. */
  lemma {:induction false} ResolveFixed(stack: seq<string>, rooted: bool, acc: seq<string>)
    requires Normal(acc + stack, rooted)
    ensures Resolve(stack, rooted, acc) == acc + stack
    decreases |stack|
  {
    if stack != [] {
      var s := stack[0];
      var all := acc + stack;
      assert all[|acc|] == s;
      if s == ".." {
        assert forall j :: 0 <= j < |acc| ==> all[j] == acc[j];
        assert acc != [] ==> acc[|acc| - 1] == "..";
      }
      assert acc + [s] + stack[1..] == all;
      ResolveFixed(stack[1..], rooted, acc + [s]);
    }
  }

  /** A joined path starts with its first piece. */
  lemma JoinHead(pieces: seq<string>, sep: char)
    requires |pieces| >= 1 && pieces[0] != []
    ensures Join(pieces, sep) != [] && Join(pieces, sep)[0] == pieces[0][0]
  {
  }

  /** Cleaning the segments of a rendered path gives its stack back. */
  lemma RenderResolves(stack: seq<string>, rooted: bool)
    requires Normal(stack, rooted)
    ensures var q := Render(stack, rooted);
      q != "" && (q[0] == '/' <==> rooted) && Resolve(Split(q, '/'), q[0] == '/', []) == stack
  {
    if stack == [] {
      if rooted {
        RenderRoot();
      } else {
        assert Split(".", '/') == ["."];
      }
    } else if rooted {
      RenderRooted(stack);
    } else {
      RenderRelative(stack);
    }
  }

  lemma RenderRoot()
    ensures Resolve(Split("/", '/'), true, []) == []
  {
    var q := "/";
    assert q[1..] == "";
    assert Split(q, '/') == [""] + [""];
    var segs := [""] + [""];
    assert segs[1..] == [""];
    assert Resolve(segs, true, []) == Resolve([""], true, []);
  }

  lemma RenderRooted(stack: seq<string>)
    requires stack != [] && Normal(stack, true)
    ensures Render(stack, true)[0] == '/'
    ensures Resolve(Split(Render(stack, true), '/'), true, []) == stack
  {
    var q := Render(stack, true);
    assert forall k :: 0 <= k < |stack| ==> '/' !in stack[k];
    assert q == [] + ['/'] + Join(stack, '/');
    SplitAfterPiece([], Join(stack, '/'), '/');
    SplitJoin(stack, '/');
    assert ([""] + stack)[1..] == stack;
    ResolveFixed(stack, true, []);
  }

  lemma RenderRelative(stack: seq<string>)
    requires stack != [] && Normal(stack, false)
    ensures Render(stack, false) != [] && Render(stack, false)[0] != '/'
    ensures Resolve(Split(Render(stack, false), '/'), false, []) == stack
  {
    var q := Render(stack, false);
    assert forall k :: 0 <= k < |stack| ==> '/' !in stack[k];
    assert q == Join(stack, '/');
    JoinHead(stack, '/');
    assert stack[0][0] in stack[0];
    SplitJoin(stack, '/');
    ResolveFixed(stack, false, []);
  }

  /** `path.Clean` is idempotent, and keeps whether a path is rooted. */
  lemma CleanIdempotent(p: string)
    ensures Clean(p) != ""
    ensures Clean(Clean(p)) == Clean(p)
    ensures Clean(p)[0] == '/' <==> p != "" && p[0] == '/'
  {
    var rooted := p != "" && p[0] == '/';
    var stack := if p == "" then [] else Resolve(Split(p, '/'), rooted, []);
    if p != "" {
      ResolveNormal(Split(p, '/'), rooted, []);
    }
    assert Clean(p) == Render(stack, rooted);
    RenderResolves(stack, rooted);
  }

  /** Cleaning a joined path again changes nothing, unless both parts were
      empty: then the join is "" and cleaning it gives ".". */
  lemma CleanPathJoin(a: string, b: string)
    ensures a != "" || b != "" ==> Clean(PathJoin(a, b)) == PathJoin(a, b)
    ensures a == "" && b == "" ==> Clean(PathJoin(a, b)) == "."
    ensures PathJoin(a, b) == "" <==> a == "" && b == ""
  {
    if a != "" {
      CleanIdempotent(a + "/" + b);
    } else if b != "" {
      CleanIdempotent(b);
    }
  }
}
