/**
 `filepath.Clean` and `filepath.Dir` on slash-separated paths.
 */
module GoPath {
  import opened Text
  import opened SourceWalk

  // -------------------------------------------------------------------- Clean

  /** One more element: blanks and dots vanish, two dots take the previous element with them. */
  function Push(out: seq<string>, x: string, rooted: bool): seq<string> {
    if x == "" || x == "." then out
    else if x != ".." then out + [x]
    else if out != [] && out[|out| - 1] != ".." then out[..|out| - 1]
    else if rooted then out else out + [".."]
  }

  function Squash(xs: seq<string>, rooted: bool): seq<string> {
    if xs == [] then [] else Push(Squash(xs[..|xs| - 1], rooted), xs[|xs| - 1], rooted)
  }

  function Render(out: seq<string>, rooted: bool): string {
    if out == [] then (if rooted then "/" else ".") else (if rooted then "/" else "") + JoinAll(out)
  }

  predicate Rooted(p: string) { p != "" && p[0] == '/' }

  function Clean(p: string): string { Render(Squash(Split(p, '/'), Rooted(p)), Rooted(p)) }

  /** Elements of a clean path: proper names, after leading double dots in a relative path. */
  ghost predicate Normal(out: seq<string>, rooted: bool) {
    && (forall x :: x in out ==> x != "" && x != "." && '/' !in x)
    && (forall i :: 0 <= i < |out| && out[i] == ".." ==> !rooted && forall j :: 0 <= j < i ==> out[j] == "..")
  }

  ghost predicate IsClean(p: string) { exists out, rooted :: Normal(out, rooted) && p == Render(out, rooted) }

  lemma {:induction false} SquashNormal(xs: seq<string>, rooted: bool)
    requires forall x :: x in xs ==> '/' !in x
    ensures Normal(Squash(xs, rooted), rooted)
  {
    if xs != [] {
      assert xs[|xs| - 1] in xs;
      SquashNormal(xs[..|xs| - 1], rooted);
    }
  }

  lemma {:induction false} SquashOfNormal(out: seq<string>, rooted: bool)
    requires Normal(out, rooted)
    ensures Squash(out, rooted) == out
  {
    if out != [] {
      var front, last := out[..|out| - 1], out[|out| - 1];
      assert out == front + [last];
      PushNormal(front, last, rooted);
      hide Push, Normal;
      SquashOfNormal(front, rooted);
    }
  }

  lemma {:induction false} PushNormal(front: seq<string>, last: string, rooted: bool)
    requires Normal(front + [last], rooted)
    ensures Normal(front, rooted) && Push(front, last, rooted) == front + [last]
  {
    var out := front + [last];
    assert out[|front|] == last && last in out;
    forall x | x in front ensures x in out {}
    forall i | 0 <= i < |front| ensures out[i] == front[i] {}
  }

  lemma {:induction false} SquashLeadingBlank(xs: seq<string>, rooted: bool)
    ensures Squash([""] + xs, rooted) == Squash(xs, rooted)
  {
    hide Push;
    if xs == [] {
      assert [""] + xs == [""] && [""][..0] == [];
      PushBlank(Squash([], rooted), rooted);
    } else {
      SquashLeadingBlank(xs[..|xs| - 1], rooted);
      assert ([""] + xs)[..|xs|] == [""] + xs[..|xs| - 1];
    }
  }

  lemma {:induction false} PushBlank(out: seq<string>, rooted: bool)
    ensures Push(out, "", rooted) == out
  {
  }

  lemma {:induction false} SquashTrailingBlank(xs: seq<string>, rooted: bool)
    ensures Squash(xs + [""], rooted) == Squash(xs, rooted)
  {
    assert (xs + [""])[..|xs|] == xs;
  }

  lemma {:induction false} SquashAlike(xs: seq<string>, ys: seq<string>, more: seq<string>, rooted: bool)
    requires Squash(xs, rooted) == Squash(ys, rooted)
    ensures Squash(xs + more, rooted) == Squash(ys + more, rooted)
  {
    if more == [] {
      assert xs + more == xs && ys + more == ys;
    } else {
      var front, last := more[..|more| - 1], more[|more| - 1];
      SquashAlike(xs, ys, front, rooted);
      assert (xs + more)[..|xs + more| - 1] == xs + front && (ys + more)[..|ys + more| - 1] == ys + front;
    }
  }

  lemma {:induction false} SquashTwo(xs: seq<string>, a: string, b: string, rooted: bool)
    ensures Squash(xs + [a], rooted) == Push(Squash(xs, rooted), a, rooted)
    ensures Squash(xs + [a, b], rooted) == Push(Push(Squash(xs, rooted), a, rooted), b, rooted)
  {
    assert (xs + [a])[..|xs|] == xs && (xs + [a, b])[..|xs| + 1] == xs + [a];
  }

  /** Dropping path elements that come to nothing. */
  lemma {:induction false} CleanDrop(a: string, mid: string, b: string)
    requires forall rooted :: Squash(Split(a, '/') + Split(mid, '/'), rooted) == Squash(Split(a, '/'), rooted)
    ensures Clean(a + "/" + mid + "/" + b) == Clean(a + "/" + b)
  {
    hide Squash;
    var rooted := Rooted(a + "/" + b);
    assert Rooted(a + "/" + mid + "/" + b) == rooted;
    assert a + "/" + mid + "/" + b == a + "/" + (mid + "/" + b);
    SplitConcat(a, mid + "/" + b, '/');
    SplitConcat(mid, b, '/');
    SplitConcat(a, b, '/');
    assert Split(a + "/" + mid + "/" + b, '/') == (Split(a, '/') + Split(mid, '/')) + Split(b, '/');
    SquashAlike(Split(a, '/') + Split(mid, '/'), Split(a, '/'), Split(b, '/'), rooted);
  }

  /**
   The four rules of `filepath.Clean`: repeated slashes are one, `.` is dropped, an element followed by `..` is
   dropped with it, and `..` at the root is dropped.
   */
  lemma {:induction false} CleanRules(a: string, x: string, b: string)
    requires x !in {"", ".", ".."} && '/' !in x
    ensures Clean(a + "//" + b) == Clean(a + "/" + b)
    ensures Clean(a + "/./" + b) == Clean(a + "/" + b)
    ensures Clean(a + "/" + x + "/../" + b) == Clean(a + "/" + b)
    ensures Clean("/../" + b) == Clean("/" + b)
  {
    hide Split;
    hide Squash, Push, Clean;
    var xs := Split(a, '/');
    SplitNone("", '/');
    SplitNone(".", '/');
    forall rooted: bool ensures Squash(xs + [""], rooted) == Squash(xs, rooted) && Squash(xs + ["."], rooted) == Squash(xs, rooted) {
      IdleElements(xs, x, rooted);
    }
    CleanDrop(a, "", b);
    assert a + "/" + "" + "/" + b == a + "//" + b;
    CleanDrop(a, ".", b);
    assert a + "/" + "." + "/" + b == a + "/./" + b;
    InnerUp(a, x, b);
    RootUp(b);
  }

  lemma {:induction false} IdleElements(xs: seq<string>, x: string, rooted: bool)
    requires x !in {"", ".", ".."} && '/' !in x
    ensures Squash(xs + [""], rooted) == Squash(xs, rooted) && Squash(xs + ["."], rooted) == Squash(xs, rooted)
    ensures Squash(xs + [x, ".."], rooted) == Squash(xs, rooted)
  {
    SquashTwo(xs, "", "", rooted);
    SquashTwo(xs, ".", "", rooted);
    SquashTwo(xs, x, "..", rooted);
    assert Push(Squash(xs, rooted), x, rooted)[..|Squash(xs, rooted)|] == Squash(xs, rooted);
  }

  lemma {:induction false} InnerUp(a: string, x: string, b: string)
    requires x !in {"", ".", ".."} && '/' !in x
    ensures Clean(a + "/" + x + "/../" + b) == Clean(a + "/" + b)
  {
    hide Split, Squash, Push, Clean;
    var xs, mid := Split(a, '/'), x + "/" + "..";
    SplitNone("..", '/');
    SplitNone(x, '/');
    SplitConcat(x, "..", '/');
    assert Split(mid, '/') == [x, ".."];
    forall rooted: bool ensures Squash(xs + Split(mid, '/'), rooted) == Squash(xs, rooted) { IdleElements(xs, x, rooted); }
    CleanDrop(a, mid, b);
    assert a + "/" + mid + "/" + b == a + "/" + x + "/../" + b;
  }

  lemma {:induction false} RootUp(b: string)
    ensures Clean("/../" + b) == Clean("/" + b)
  {
    hide Split;
    SplitNone("", '/');
    SplitNone("..", '/');
    assert "/../" + b == "" + "/" + (".." + "/" + b) && "/" + b == "" + "/" + b;
    SplitConcat("", ".." + "/" + b, '/');
    SplitConcat("..", b, '/');
    SplitConcat("", b, '/');
    assert [""] + ([".."] + Split(b, '/')) == ["", ".."] + Split(b, '/');
    SquashTwo([], "", "..", true);
    assert [] + ["", ".."] == ["", ".."] && [] + [""] == [""];
    SquashAlike(["", ".."], [""], Split(b, '/'), true);
  }

  /** Cleaning yields a clean path. */
  lemma {:induction false} CleanIsClean(p: string)
    ensures IsClean(Clean(p))
  {
    SplitParts(p, '/');
    SquashNormal(Split(p, '/'), Rooted(p));
  }

  lemma {:induction false} SplitJoin(out: seq<string>)
    requires out != [] && forall x :: x in out ==> '/' !in x
    ensures Split(JoinAll(out), '/') == out
  {
    hide Split;
    assert out[0] in out;
    SplitNone(out[0], '/');
    if |out| > 1 {
      assert forall x :: x in out[1..] ==> x in out;
      SplitJoin(out[1..]);
      SplitConcat(out[0], JoinAll(out[1..]), '/');
      assert out == [out[0]] + out[1..];
    }
  }

  lemma {:induction false} JoinAllSnoc(front: seq<string>, last: string)
    requires front != []
    ensures JoinAll(front + [last]) == JoinAll(front) + "/" + last
  {
    if |front| > 1 {
      JoinAllSnoc(front[1..], last);
      assert (front + [last])[1..] == front[1..] + [last];
    }
  }

  lemma {:induction false} NotRooted(out: seq<string>)
    requires out != [] && Normal(out, false)
    ensures !Rooted(JoinAll(out))
  {
    assert out[0] in out;
    assert JoinAll(out)[0] == out[0][0];
    assert out[0][0] in out[0];
  }

  /** A clean path with a slash behind it, cleaned again. */
  lemma {:induction false} CleanSlash(out: seq<string>, rooted: bool)
    requires out != [] && Normal(out, rooted)
    ensures Clean(Render(out, rooted) + "/") == Render(out, rooted)
  {
    hide Split, Squash, JoinAll;
    var s := JoinAll(out);
    SplitJoin(out);
    SplitConcat(s, "", '/');
    SplitNone("", '/');
    SquashTrailingBlank(out, rooted);
    SquashOfNormal(out, rooted);
    if rooted {
      SplitConcat("", s + "/", '/');
      assert "" + "/" + (s + "/") == "/" + s + "/" && s + "/" + "" == s + "/";
      SquashLeadingBlank(out + [""], rooted);
    } else {
      NotRooted(out);
      RenderProper(out, rooted);
      assert s + "/" + "" == s + "/" && "" + s == s;
      assert (s + "/")[0] == s[0];
    }
  }

  /** A clean path is left alone. */
  lemma {:induction false} CleanOfClean(out: seq<string>)
    requires out != [] && Normal(out, false)
    ensures Clean(JoinAll(out)) == JoinAll(out)
  {
    SplitJoin(out);
    SquashOfNormal(out, false);
    NotRooted(out);
  }

  // ---------------------------------------------------------------------- Dir

  function LastSlash(p: string): (r: int)
    ensures -1 <= r < |p| && (r >= 0 ==> p[r] == '/')
  {
    if p == "" then -1 else if p[|p| - 1] == '/' then |p| - 1 else LastSlash(p[..|p| - 1])
  }

  /** `filepath.Dir`. */
  function Parent(p: string): string { Clean(p[..LastSlash(p) + 1]) }

  lemma {:induction false} LastSlashIsLast(p: string, i: int)
    requires LastSlash(p) < i < |p|
    ensures p[i] != '/'
  {
    if i < |p| - 1 { LastSlashIsLast(p[..|p| - 1], i); }
  }

  lemma {:induction false} LastSlashAt(a: string, b: string)
    requires '/' !in b
    ensures LastSlash(a + "/" + b) == |a|
  {
    if b == "" {
      assert a + "/" + b == a + "/";
    } else {
      LastSlashAt(a, b[..|b| - 1]);
      assert (a + "/" + b)[..|a + "/" + b| - 1] == a + "/" + b[..|b| - 1];
      assert b[|b| - 1] in b;
    }
  }

  lemma {:induction false} LastSlashNone(b: string)
    requires '/' !in b
    ensures LastSlash(b) == -1
  {
    hide LastSlash;
    assert forall i :: 0 <= i < |b| ==> b[i] in b;
  }

  lemma {:induction false} RenderProper(out: seq<string>, rooted: bool)
    requires out != [] && Normal(out, rooted)
    ensures Render(out, rooted) !in {"", ".", "/"}
  {
    assert out[0] in out;
    var s := JoinAll(out);
    JoinAllNonEmpty(out);
    if rooted {
      assert |Render(out, rooted)| > 1;
    } else {
      assert Render(out, rooted) == s;
      assert s[0] == out[0][0] && out[0][0] in out[0];
      assert |out| > 1 ==> |s| > 1;
      assert |out| == 1 ==> s == out[0];
      assert s != "/" && s != ".";
    }
  }

  /** The directory of a clean path is the text before its last slash, and clean itself. */
  lemma {:induction false} ParentIs(p: string)
    requires IsClean(p)
    ensures IsClean(Parent(p))
    ensures Parent(p) == if LastSlash(p) < 0 then "." else if LastSlash(p) == 0 then "/" else p[..LastSlash(p)]
    ensures LastSlash(p) > 0 ==> Parent(p) !in {"", ".", "/"}
  {
    var out, rooted :| Normal(out, rooted) && p == Render(out, rooted);
    if |out| <= 1 {
      ShortParent(out, rooted);
    } else {
      LongParent(out, rooted);
    }
  }

  lemma {:induction false} RenderSnoc(front: seq<string>, last: string, rooted: bool)
    requires front != []
    ensures Render(front + [last], rooted) == Render(front, rooted) + "/" + last
  {
    hide JoinAll;
    JoinAllSnoc(front, last);
  }

  lemma {:induction false} LongParent(out: seq<string>, rooted: bool)
    requires |out| > 1 && Normal(out, rooted)
    ensures var p := Render(out, rooted);
            IsClean(Parent(p)) && LastSlash(p) > 0 && Parent(p) == p[..LastSlash(p)] && Parent(p) !in {"", ".", "/"}
  {
    hide LastSlash, Clean, Render;
    var front, last := out[..|out| - 1], out[|out| - 1];
    var p, q := Render(out, rooted), Render(front, rooted);
    assert out == front + [last];
    assert last in out && forall x :: x in front ==> x in out;
    RenderSnoc(front, last, rooted);
    LastSlashAt(q, last);
    assert p[..|q| + 1] == q + "/" && p[..|q|] == q;
    assert Normal(front, rooted);
    CleanSlash(front, rooted);
    RenderProper(front, rooted);
  }

  lemma {:induction false} ShortParent(out: seq<string>, rooted: bool)
    requires |out| <= 1 && Normal(out, rooted)
    ensures var p := Render(out, rooted);
            Parent(p) == (if rooted then "/" else ".") && LastSlash(p) == (if rooted then 0 else -1) && IsClean(Parent(p))
  {
    hide LastSlash, Clean;
    var p := Render(out, rooted);
    CleanRoots();
    if out != [] { assert out[0] in out; }
    var x := if out == [] then "" else out[0];
    if rooted {
      assert p == "" + "/" + x;
      LastSlashAt("", x);
      assert p[..1] == "/";
    } else {
      LastSlashNone(p);
      assert p[..0] == "";
    }
    assert Normal([], rooted) && Render([], rooted) == if rooted then "/" else ".";
  }

  lemma {:induction false} CleanRoots()
    ensures Clean("") == "." && Clean("/") == "/"
  {
    SplitConcat("", "", '/');
    SplitNone("", '/');
    assert "" + "/" + "" == "/";
    assert Squash([], true) == [] && Squash([], false) == [];
    SquashLeadingBlank([""], true);
    SquashLeadingBlank([], true);
    SquashLeadingBlank([], false);
    assert [""] + [""] == ["", ""] && [""] + [] == [""];
  }

  // ---------------------------------------------------------------- ancestors

  /** `d` names a directory on the way to `p`, other than the root. */
  predicate Ancestor(d: string, p: string) { d != "" && d + "/" <= p }

  /** The ancestors of a clean path are its parent and the parent's ancestors. */
  lemma {:induction false} AncestorsOf(d: string, p: string)
    requires IsClean(p)
    ensures Ancestor(d, p) ==> Parent(p) !in {".", "/"} && (d == Parent(p) || Ancestor(d, Parent(p)))
  {
    hide LastSlash, Parent, IsClean;
    ParentIs(p);
    if Ancestor(d, p) {
      assert p[|d|] == '/';
      if LastSlash(p) < |d| { LastSlashIsLast(p, |d|); }
      var q := p[..LastSlash(p)];
      assert q[..|d|] == d;
      if |d| < LastSlash(p) { assert q[..|d| + 1] == d + "/"; }
    }
  }
}
