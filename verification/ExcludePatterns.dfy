/**
 Normalising exclude patterns (internal/filesets/index.go:127-159).
 */
module ExcludePatterns {
  import opened Text
  import opened VolumeTree

  function TrimLeft(s: string): string { if s != "" && Space(s[0]) then TrimLeft(s[1..]) else s }

  function TrimRight(s: string): string { if s != "" && Space(s[|s| - 1]) then TrimRight(s[..|s| - 1]) else s }

  /** `strings.TrimSpace`. */
  function TrimSpace(s: string): string { TrimRight(TrimLeft(s)) }

  /** A directory pattern covers everything below the directory. */
  function Normal(raw: string): string {
    var p := TrimSpace(raw);
    if p != "" && p[|p| - 1] == '/' then p + "**" else p
  }

  /** The patterns a list stands for. */
  function Patterns(raws: seq<string>): set<string> { set r | r in raws && TrimSpace(r) != "" :: Normal(r) }

  method NormalizeExcludePatterns(raws: seq<string>) returns (out: seq<string>)
    ensures out == SortedKeys(Patterns(raws))
  {
    hide Normal, TrimSpace, Less;
    var found := [];
    for i := 0 to |raws|
      invariant NoDup(found) && Elements(found) == Patterns(raws[..i])
    {
      var raw := raws[i];
      assert raws[..i + 1] == raws[..i] + [raw];
      assert Patterns(raws[..i + 1]) == Patterns(raws[..i]) + if TrimSpace(raw) == "" then {} else {Normal(raw)};
      if TrimSpace(raw) != "" && Normal(raw) !in found {
        assert Elements(found + [Normal(raw)]) == Elements(found) + {Normal(raw)};
        found := found + [Normal(raw)];
      }
    }
    assert raws[..|raws|] == raws;
    out := Sort(Id, found);
    SortSorts(Id, found);
    SortElements(Id, found);
    StrictFromSorted(out);
    SortedKeysStrict(Patterns(raws));
    SortedUnique(out, SortedKeys(Patterns(raws)));
  }

  /** No blank at either end. */
  predicate Trimmed(s: string) { s == "" || (!Space(s[0]) && !Space(s[|s| - 1])) }

  lemma {:induction false} TrimLeftIs(s: string)
    ensures TrimLeft(s) == "" || !Space(TrimLeft(s)[0])
    ensures Trimmed(s) ==> TrimLeft(s) == s
  {
    if s != "" && Space(s[0]) { TrimLeftIs(s[1..]); }
  }

  lemma {:induction false} TrimRightIs(s: string)
    ensures TrimRight(s) <= s && (TrimRight(s) == "" || !Space(TrimRight(s)[|TrimRight(s)| - 1]))
    ensures Trimmed(s) ==> TrimRight(s) == s
  {
    if s != "" && Space(s[|s| - 1]) { TrimRightIs(s[..|s| - 1]); }
  }

  lemma {:induction false} TrimSpaceIs(s: string)
    ensures Trimmed(TrimSpace(s)) && (Trimmed(s) ==> TrimSpace(s) == s)
  {
    TrimLeftIs(s);
    TrimRightIs(TrimLeft(s));
  }

  lemma {:induction false} NormalTwice(raw: string)
    requires TrimSpace(raw) != ""
    ensures TrimSpace(Normal(raw)) != "" && Normal(Normal(raw)) == Normal(raw)
  {
    TrimSpaceIs(raw);
    hide TrimSpace;
    var n := Normal(raw);
    assert Trimmed(n) && n != "" && n[|n| - 1] != '/';
    TrimSpaceIs(n);
  }

  /** Only white space is cut off, at both ends, and all of it. */
  lemma {:induction false} TrimmedPart(s: string)
    ensures exists l, r :: s == l + TrimSpace(s) + r && Blank(l) && Blank(r)
  {
    TrimLeftPart(s);
    var l :| s == l + TrimLeft(s) && Blank(l);
    TrimRightPart(TrimLeft(s));
    var r :| TrimLeft(s) == TrimSpace(s) + r && Blank(r);
    assert s == l + TrimSpace(s) + r;
  }

  lemma {:induction false} TrimLeftPart(s: string)
    ensures exists l :: s == l + TrimLeft(s) && Blank(l)
  {
    if s != "" && Space(s[0]) {
      TrimLeftPart(s[1..]);
      var l :| s[1..] == l + TrimLeft(s[1..]) && Blank(l);
      assert s == ([s[0]] + l) + TrimLeft(s) && Blank([s[0]] + l);
    } else {
      assert s == "" + TrimLeft(s) && Blank("");
    }
  }

  lemma {:induction false} TrimRightPart(s: string)
    ensures exists r :: s == TrimRight(s) + r && Blank(r)
  {
    if s != "" && Space(s[|s| - 1]) {
      var t := s[..|s| - 1];
      TrimRightPart(t);
      var r :| t == TrimRight(t) + r && Blank(r);
      assert s == TrimRight(s) + (r + [s[|s| - 1]]) && Blank(r + [s[|s| - 1]]);
    } else {
      assert s == TrimRight(s) + "" && Blank("");
    }
  }

  /**
   A pattern stands for itself without the white space around it, and a pattern that ends in a
   slash for everything below that directory.
   */
  lemma {:induction false} NormalSays(raw: string, dir: string, l: string, r: string)
    requires Blank(l) && Blank(r) && raw == l + dir + r && dir != "" && !Space(dir[0]) && !Space(dir[|dir| - 1])
    ensures Normal(raw) == if dir[|dir| - 1] == '/' then dir + "**" else dir
  {
    TrimPadded(l, dir, r);
  }

  lemma {:induction false} TrimPadded(l: string, x: string, r: string)
    requires Blank(l) && Blank(r) && x != "" && !Space(x[0]) && !Space(x[|x| - 1])
    ensures TrimSpace(l + x + r) == x
    decreases |l| + |r|
  {
    if l != "" {
      assert (l + x + r)[1..] == l[1..] + x + r && Blank(l[1..]);
      TrimPadded(l[1..], x, r);
    } else {
      assert l + x + r == x + r && TrimLeft(x + r) == x + r;
      if r != "" {
        assert (x + r)[..|x + r| - 1] == x + r[..|r| - 1] && Blank(r[..|r| - 1]);
        TrimPadded(l, x, r[..|r| - 1]);
        assert l + x + r[..|r| - 1] == x + r[..|r| - 1] && TrimLeft(x + r[..|r| - 1]) == x + r[..|r| - 1];
      } else {
        assert x + r == x;
      }
    }
  }

  /** What is white space among the ASCII characters. */
  lemma {:induction false} AsciiSpace(c: char)
    requires c < 128 as char
    ensures Space(c) <==> c in {'\t', '\n', 11 as char, 12 as char, '\r', ' '}
  {
  }

  /** A list of patterns: each of the results comes from one, trimmed and expanded, and blank ones give none. */
  lemma {:induction false} PatternsSay(raws: seq<string>, p: string)
    ensures p in Patterns(raws) <==> exists raw :: raw in raws && !Blank(raw) && p == Normal(raw)
  {
    forall raw ensures TrimSpace(raw) == "" <==> Blank(raw) { TrimBlank(raw); }
  }

  lemma {:induction false} TrimBlank(s: string)
    ensures TrimSpace(s) == "" <==> Blank(s)
  {
    TrimmedPart(s);
    TrimSpaceIs(s);
    if TrimSpace(s) != "" {
      var l, r :| s == l + TrimSpace(s) + r && Blank(l) && Blank(r);
      assert s[|l|] == TrimSpace(s)[0];
    }
  }

  /** Normalising again changes nothing: the patterns stored in an index are a fixed point. */
  lemma {:induction false} NormalizeTwice(raws: seq<string>)
    ensures Patterns(SortedKeys(Patterns(raws))) == Patterns(raws)
  {
    hide TrimSpace, Normal;
    var once := Patterns(raws);
    assert forall x :: x in SortedKeys(once) <==> x in Elements(SortedKeys(once));
    forall x | x in once ensures TrimSpace(x) != "" && Normal(x) == x {
      var r :| r in raws && TrimSpace(r) != "" && Normal(r) == x;
      NormalTwice(r);
    }
  }

  /** Order, repetition and blanks in the configured list do not matter. */
  lemma {:induction false} OrderDoesNotMatter(a: seq<string>, b: seq<string>)
    requires forall r :: TrimSpace(r) != "" ==> (r in a <==> r in b)
    ensures SortedKeys(Patterns(a)) == SortedKeys(Patterns(b))
  {
    hide TrimSpace, Normal, SortedKeys;
    assert Patterns(a) == Patterns(b);
  }
}
