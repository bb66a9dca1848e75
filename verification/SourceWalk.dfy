/**
 `BuildLocalIndex` (internal/filesets/index.go): the walk over the source directory, with
 its exclusions and its guard against paths that leave the source. The glob matcher is
 the parameter `ex`, applied to slash-separated relative paths.
 */
module SourceWalk {
  import opened Text
  import opened FilesetIndex

  datatype Node = File(content: string) | Dir(entries: seq<Entry>) | Symlink | Special

  datatype Entry = Entry(name: string, node: Node)

  type Entries = seq<Entry>

  function Join(rel: string, name: string): string { if rel == "" then name else rel + "/" + name }

  /** A name as file systems list it; names such as `..x` are proper. */
  predicate ProperName(name: string) { name !in {"", ".", ".."} && '/' !in name && NUL !in name }

  /** File names as a file system has them, each once per directory. */
  predicate WellNamed(es: Entries)
    decreases es
  {
    && (forall i :: 0 <= i < |es| ==> ProperName(es[i].name))
    && (forall i, j :: 0 <= i < j < |es| ==> es[i].name != es[j].name)
    && (forall i :: 0 <= i < |es| && es[i].node.Dir? ==> WellNamed(es[i].node.entries))
  }

  /** The files the walk lists below `rel`, in the order it meets them. */
  function Listing(es: Entries, rel: string, ex: string -> bool): seq<(string, string)>
    decreases es
  {
    if es == [] then [] else
      var last := es[|es| - 1];
      Listing(es[..|es| - 1], rel, ex) + Visit(last.node, Join(rel, last.name), ex)
  }

  function Visit(n: Node, path: string, ex: string -> bool): seq<(string, string)>
    decreases n
  {
    match n
    case Dir(es) => if ex(path) then [] else Listing(es, path, ex)
    case File(c) => if ex(path) then [] else [(path, c)]
    case _ => []
  }

  function Hashed(h: string -> string, fs: seq<(string, string)>): seq<FileEntry> {
    if fs == [] then [] else [EntryOf(h, fs[0].0, fs[0].1)] + Hashed(h, fs[1..])
  }

  lemma {:induction false} HashedAt(h: string -> string, fs: seq<(string, string)>)
    ensures |Hashed(h, fs)| == |fs|
    ensures forall i :: 0 <= i < |fs| ==> Hashed(h, fs)[i] == EntryOf(h, fs[i].0, fs[i].1)
  {
    if fs != [] { HashedAt(h, fs[1..]); }
  }

  /** The walk reaches a path that `strings.HasPrefix(rel, "..")` rejects. */
  predicate Escapes(es: Entries, rel: string, ex: string -> bool)
    decreases es
  {
    es != [] &&
    var last := es[|es| - 1];
    (Escapes(es[..|es| - 1], rel, ex) || EscapesAt(last.node, Join(rel, last.name), ex))
  }

  predicate EscapesAt(n: Node, path: string, ex: string -> bool)
    decreases n
  {
    ".." <= path || (n.Dir? && !ex(path) && Escapes(n.entries, path, ex))
  }

  method Walk(es: Entries, rel: string, ex: string -> bool, h: string -> string, found: seq<FileEntry>)
    returns (ok: bool, files: seq<FileEntry>)
    ensures ok <==> !Escapes(es, rel, ex)
    ensures ok ==> files == found + Hashed(h, Listing(es, rel, ex))
    decreases es
  {
    hide Hashed, Listing, Visit, Escapes, EscapesAt;
    WalkNil(h, es, rel, ex);
    ok, files := true, found;
    for i := 0 to |es|
      invariant !Escapes(es[..i], rel, ex)
      invariant files == found + Hashed(h, Listing(es[..i], rel, ex))
    {
      WalkSnoc(h, es, i, rel, ex);
      ok, files := WalkNode(es[i].node, Join(rel, es[i].name), ex, h, files);
      if !ok {
        EscapesFrom(es, i, rel, ex);
        return;
      }
    }
    assert es[..|es|] == es;
  }

  /** The walk callback at one path, and the descent into a directory it does not skip. */
  method WalkNode(n: Node, path: string, ex: string -> bool, h: string -> string, found: seq<FileEntry>)
    returns (ok: bool, files: seq<FileEntry>)
    ensures ok <==> !EscapesAt(n, path, ex)
    ensures ok ==> files == found + Hashed(h, Visit(n, path, ex))
    decreases n
  {
    ok, files := !(".." <= path), found;
    if ok && !ex(path) {
      match n
      case Dir(sub) => ok, files := Walk(sub, path, ex, h, files);
      case File(c) => files := files + [EntryOf(h, path, c)];
      case Symlink =>
      case Special =>
    }
  }

  lemma {:induction false} WalkNil(h: string -> string, es: Entries, rel: string, ex: string -> bool)
    ensures Hashed(h, Listing(es[..0], rel, ex)) == [] && !Escapes(es[..0], rel, ex)
  {
  }

  lemma {:induction false} WalkSnoc(h: string -> string, es: Entries, i: nat, rel: string, ex: string -> bool)
    requires i < |es|
    ensures Hashed(h, Listing(es[..i + 1], rel, ex)) ==
            Hashed(h, Listing(es[..i], rel, ex)) + Hashed(h, Visit(es[i].node, Join(rel, es[i].name), ex))
    ensures Escapes(es[..i + 1], rel, ex) <==>
            Escapes(es[..i], rel, ex) || EscapesAt(es[i].node, Join(rel, es[i].name), ex)
  {
    assert es[..i + 1][..i] == es[..i];
    HashedConcat(h, Listing(es[..i], rel, ex), Visit(es[i].node, Join(rel, es[i].name), ex));
  }

  lemma {:induction false} HashedConcat(h: string -> string, a: seq<(string, string)>, b: seq<(string, string)>)
    ensures Hashed(h, a + b) == Hashed(h, a) + Hashed(h, b)
  {
    HashedAt(h, a);
    HashedAt(h, b);
    HashedAt(h, a + b);
    assert Hashed(h, a + b) == Hashed(h, a) + Hashed(h, b);
  }

  // ------------------------------------------- the walk against path resolution

  /** The slash-separated text of a path. */
  function JoinAll(comps: seq<string>): string
    requires comps != []
  {
    if |comps| == 1 then comps[0] else comps[0] + "/" + JoinAll(comps[1..])
  }

  function Child(es: Entries, name: string): Option<Node> {
    if es == [] then None
    else if es[|es| - 1].name == name then Some(es[|es| - 1].node)
    else Child(es[..|es| - 1], name)
  }

  /** The node at a path. */
  function Resolve(es: Entries, comps: seq<string>): Option<Node>
    requires comps != []
    decreases |comps|
  {
    var c := Child(es, comps[0]);
    if |comps| == 1 then c
    else if c.Some? && c.value.Dir? then Resolve(c.value.entries, comps[1..])
    else None
  }

  /** Some directory on the way, or the file itself, matches an exclude pattern. */
  predicate Hidden(rel: string, comps: seq<string>, ex: string -> bool)
    decreases |comps|
  {
    comps != [] && (ex(Join(rel, comps[0])) || Hidden(Join(rel, comps[0]), comps[1..], ex))
  }

  /** Hidden: some directory on the way, or the path itself, is excluded. */
  lemma {:induction false} HiddenSays(comps: seq<string>, ex: string -> bool)
    requires comps != [] && comps[0] != ""
    ensures Hidden("", comps, ex) <==> exists k :: 0 < k <= |comps| && ex(JoinAll(comps[..k]))
  {
    HiddenFrom([], comps, ex);
    assert forall k :: 0 < k <= |comps| ==> [] + comps[..k] == comps[..k];
  }

  lemma {:induction false} HiddenFrom(on: seq<string>, comps: seq<string>, ex: string -> bool)
    requires (on != [] || comps != []) && (on + comps)[0] != ""
    ensures Hidden(if on == [] then "" else JoinAll(on), comps, ex) <==> exists k :: 0 < k <= |comps| && ex(JoinAll(on + comps[..k]))
    decreases |comps|
  {
    hide JoinAll, Join;
    if comps != [] {
      var rel := if on == [] then "" else JoinAll(on);
      var next, rest := on + [comps[0]], comps[1..];
      assert next + rest == on + comps;
      JoinNext(on, comps[0]);
      HiddenFrom(next, rest, ex);
      assert comps[..1] == [comps[0]];
      forall k | 0 < k <= |rest| ensures next + rest[..k] == on + comps[..k + 1] { assert comps[..k + 1] == [comps[0]] + rest[..k]; }
      if k :| 0 < k <= |comps| && ex(JoinAll(on + comps[..k])) {
        if k > 1 { assert next + rest[..k - 1] == on + comps[..k]; }
      }
      if k :| 0 < k <= |rest| && ex(JoinAll(next + rest[..k])) { assert ex(JoinAll(on + comps[..k + 1])); }
      if ex(Join(rel, comps[0])) { assert ex(JoinAll(on + comps[..1])); }
    }
  }

  lemma {:induction false} JoinNext(on: seq<string>, name: string)
    requires on == [] || on[0] != ""
    ensures Join(if on == [] then "" else JoinAll(on), name) == JoinAll(on + [name])
  {
    if on != [] {
      JoinsOnto(on, name);
      assert JoinAll(on) != "";
    } else {
      assert on + [name] == [name];
    }
  }

  lemma {:induction false} JoinsOnto(on: seq<string>, name: string)
    requires on != []
    ensures JoinAll(on + [name]) == JoinAll(on) + "/" + name
  {
    assert (on + [name])[1..] == on[1..] + [name];
    if |on| > 1 { JoinsOnto(on[1..], name); }
  }

  ghost predicate SlashFree(comps: seq<string>) {
    comps != [] && forall c :: c in comps ==> c != "" && '/' !in c
  }

  lemma {:induction false} TailSlashFree(comps: seq<string>)
    requires SlashFree(comps) && |comps| > 1
    ensures SlashFree(comps[1..])
  {
    assert forall c :: c in comps[1..] ==> c in comps;
  }

  lemma {:induction false} JoinAllNonEmpty(comps: seq<string>)
    requires SlashFree(comps)
    ensures JoinAll(comps) != ""
  {
    assert comps[0] in comps;
  }

  /** A path text is an ancestor-or-self of another only if its components are a prefix. */
  lemma {:induction false} JoinAllPrefix(a: seq<string>, b: seq<string>)
    requires SlashFree(a) && SlashFree(b)
    requires JoinAll(a) == JoinAll(b) || JoinAll(a) + "/" <= JoinAll(b)
    ensures a <= b && (JoinAll(a) == JoinAll(b) ==> a == b)
    decreases |a|
  {
    assert a[0] in a && b[0] in b;
    var x := if |a| == 1 then "" else JoinAll(a[1..]);
    var y := if |b| == 1 then "" else JoinAll(b[1..]);
    if |a| > 1 {
      TailSlashFree(a);
      JoinAllNonEmpty(a[1..]);
      assert JoinAll(a) == a[0] + ['/'] + x;
      assert '/' in JoinAll(a);
    }
    if |b| > 1 {
      TailSlashFree(b);
      JoinAllNonEmpty(b[1..]);
      assert JoinAll(b) == b[0] + ['/'] + y;
      assert '/' in JoinAll(b);
    }
    if JoinAll(a) == JoinAll(b) {
      if |a| > 1 {
        CutUnique('/', a[0], x, b[0], y);
        JoinAllPrefix(a[1..], b[1..]);
        assert a == [a[0]] + a[1..] && b == [b[0]] + b[1..];
      }
    } else {
      var t := JoinAll(b)[|JoinAll(a)| + 1..];
      assert JoinAll(b) == JoinAll(a) + ['/'] + t;
      assert JoinAll(b)[|JoinAll(a)|] == '/';
      assert |b| > 1;
      if |a| == 1 {
        CutUnique('/', a[0], t, b[0], y);
      } else {
        assert JoinAll(b) == a[0] + ['/'] + (x + ['/'] + t);
        CutUnique('/', a[0], x + ['/'] + t, b[0], y);
        assert JoinAll(a[1..]) + "/" <= JoinAll(b[1..]);
        JoinAllPrefix(a[1..], b[1..]);
        assert a == [a[0]] + a[1..] && b == [b[0]] + b[1..];
      }
    }
  }

  lemma {:induction false} ChildIs(es: Entries, k: nat)
    requires WellNamed(es) && k < |es|
    ensures Child(es, es[k].name) == Some(es[k].node)
  {
    var front := es[..|es| - 1];
    assert WellNamed(front);
    if k < |es| - 1 {
      ChildIs(front, k);
      assert front[k] == es[k];
    }
  }

  lemma {:induction false} ChildAt(es: Entries, name: string) returns (k: nat)
    requires Child(es, name).Some?
    ensures k < |es| && es[k] == Entry(name, Child(es, name).value)
  {
    k := |es| - 1;
    if es[k].name != name {
      var front := es[..k];
      k := ChildAt(front, name);
    }
  }

  lemma {:induction false} ListingMembers(es: Entries, rel: string, ex: string -> bool, f: (string, string))
    ensures f in Listing(es, rel, ex) <==>
            exists k :: 0 <= k < |es| && f in Visit(es[k].node, Join(rel, es[k].name), ex)
    decreases |es|
  {
    hide Visit, Join;
    if es != [] {
      var front, last := es[..|es| - 1], es[|es| - 1];
      ListingMembers(front, rel, ex, f);
      assert forall k :: 0 <= k < |front| ==> front[k] == es[k];
      if f in Listing(front, rel, ex) {
        var k :| 0 <= k < |front| && f in Visit(front[k].node, Join(rel, front[k].name), ex);
        assert f in Visit(es[k].node, Join(rel, es[k].name), ex);
      }
      if k :| 0 <= k < |es| && f in Visit(es[k].node, Join(rel, es[k].name), ex) {
        if k < |front| { assert f in Visit(front[k].node, Join(rel, front[k].name), ex); }
      }
    }
  }

  lemma {:induction false} JoinAssoc(rel: string, comps: seq<string>)
    requires SlashFree(comps) && |comps| > 1
    ensures Join(Join(rel, comps[0]), JoinAll(comps[1..])) == Join(rel, JoinAll(comps))
  {
    assert comps[0] in comps;
  }

  /** Every file that resolves and is not hidden is listed. */
  lemma {:induction false} ListsResolved(es: Entries, rel: string, ex: string -> bool, comps: seq<string>, content: string)
    requires WellNamed(es) && SlashFree(comps)
    requires Resolve(es, comps) == Some(File(content)) && !Hidden(rel, comps, ex)
    ensures (Join(rel, JoinAll(comps)), content) in Listing(es, rel, ex)
    decreases |comps|
  {
    var k := ChildAt(es, comps[0]);
    var path := Join(rel, comps[0]);
    var f := (Join(rel, JoinAll(comps)), content);
    if |comps| > 1 {
      TailSlashFree(comps);
      ListsResolved(es[k].node.entries, path, ex, comps[1..], content);
      JoinAssoc(rel, comps);
    }
    assert f in Visit(es[k].node, path, ex);
    ListingMembers(es, rel, ex, f);
  }

  /** Every listed file resolves and is not hidden. */
  lemma {:induction false} ResolvesListed(es: Entries, rel: string, ex: string -> bool, f: (string, string))
    returns (comps: seq<string>)
    requires WellNamed(es) && f in Listing(es, rel, ex)
    ensures SlashFree(comps) && (forall c :: c in comps ==> NUL !in c)
    ensures Resolve(es, comps) == Some(File(f.1)) && !Hidden(rel, comps, ex)
    ensures f.0 == Join(rel, JoinAll(comps))
    decreases es
  {
    ListingMembers(es, rel, ex, f);
    var k :| 0 <= k < |es| && f in Visit(es[k].node, Join(rel, es[k].name), ex);
    ChildIs(es, k);
    if es[k].node.Dir? {
      var rest := ResolvesListed(es[k].node.entries, Join(rel, es[k].name), ex, f);
      comps := [es[k].name] + rest;
      assert comps[1..] == rest;
      JoinAssoc(rel, comps);
    } else {
      comps := [es[k].name];
    }
  }

  lemma {:induction false} ResolvePrefix(es: Entries, a: seq<string>, b: seq<string>)
    requires a != [] && a < b && Resolve(es, b).Some?
    ensures Resolve(es, a).Some? && Resolve(es, a).value.Dir?
    decreases |a|
  {
    if |a| > 1 { ResolvePrefix(Child(es, a[0]).value.entries, a[1..], b[1..]); }
  }

  /**
   The files of a source that the index lists, by path. `VisibleExact` says which they
   are without mentioning the walk.
   */
  ghost function Visible(es: Entries, ex: string -> bool): map<string, string>
    requires WellNamed(es)
  {
    var l := Listing(es, "", ex);
    map p | p in (set f | f in l :: f.0) :: ContentIn(l, p)
  }

  ghost function ContentIn(l: seq<(string, string)>, p: string): (c: string)
    requires exists c :: (p, c) in l
    ensures (p, c) in l
  {
    var c :| (p, c) in l;
    c
  }

  lemma {:induction false} SamePathSameFile(es: Entries, ex: string -> bool, f: (string, string), g: (string, string))
    requires WellNamed(es) && f in Listing(es, "", ex) && g in Listing(es, "", ex)
    requires f.0 == g.0 || f.0 + "/" <= g.0
    ensures f.0 == g.0 && f.1 == g.1
  {
    var a := ResolvesListed(es, "", ex, f);
    var b := ResolvesListed(es, "", ex, g);
    JoinAllPrefix(a, b);
    if a != b { ResolvePrefix(es, a, b); }
  }

  /**
   A path is indexed with a content exactly when it resolves to a regular file with that
   content and neither it nor a directory above it is excluded.
   */
  lemma {:induction false} VisibleExact(es: Entries, ex: string -> bool, comps: seq<string>, content: string)
    requires WellNamed(es) && SlashFree(comps)
    ensures JoinAll(comps) in Visible(es, ex) && Visible(es, ex)[JoinAll(comps)] == content <==>
            Resolve(es, comps) == Some(File(content)) && !Hidden("", comps, ex)
  {
    var p, l := JoinAll(comps), Listing(es, "", ex);
    if Resolve(es, comps) == Some(File(content)) && !Hidden("", comps, ex) {
      ListsResolved(es, "", ex, comps, content);
      assert (p, content) in l;
      SamePathSameFile(es, ex, (p, content), (p, ContentIn(l, p)));
    } else if p in Visible(es, ex) && Visible(es, ex)[p] == content {
      assert (p, content) in l;
      var c := ResolvesListed(es, "", ex, (p, content));
      JoinAllPrefix(c, comps);
    }
  }

  /** No indexed path lies below another one. */
  lemma {:induction false} VisiblePrefixFree(es: Entries, ex: string -> bool)
    requires WellNamed(es)
    ensures PrefixFree(Visible(es, ex).Keys) && RealPaths(Visible(es, ex))
  {
    var l := Listing(es, "", ex);
    forall p, q | p in Visible(es, ex) && q in Visible(es, ex) ensures !(p + "/" <= q) {
      if p + "/" <= q {
        SamePathSameFile(es, ex, (p, ContentIn(l, p)), (q, ContentIn(l, q)));
      }
    }
    forall p | p in Visible(es, ex) ensures p != "" && NUL !in p {
      var comps := ResolvesListed(es, "", ex, (p, ContentIn(l, p)));
      JoinAllNulFree(comps);
      JoinAllNonEmpty(comps);
    }
  }

  lemma {:induction false} JoinAllNulFree(comps: seq<string>)
    requires comps != [] && forall c :: c in comps ==> NUL !in c
    ensures NUL !in JoinAll(comps)
  {
    assert comps[0] in comps;
    if |comps| > 1 { JoinAllNulFree(comps[1..]); }
  }

  lemma {:induction false} EscapesFrom(es: Entries, i: nat, rel: string, ex: string -> bool)
    requires i < |es| && EscapesAt(es[i].node, Join(rel, es[i].name), ex)
    ensures Escapes(es, rel, ex)
    decreases |es|
  {
    if i < |es| - 1 { EscapesFrom(es[..|es| - 1], i, rel, ex); }
  }

  lemma {:induction false} EscapesSome(es: Entries, rel: string, ex: string -> bool) returns (i: nat)
    requires Escapes(es, rel, ex)
    ensures i < |es| && EscapesAt(es[i].node, Join(rel, es[i].name), ex)
    decreases |es|
  {
    i := |es| - 1;
    if !EscapesAt(es[i].node, Join(rel, es[i].name), ex) {
      i := EscapesSome(es[..i], rel, ex);
    }
  }

  /** Only names at the top of the source can trip the guard, whatever is excluded. */
  lemma {:induction false} EscapesExactly(es: Entries, ex: string -> bool)
    requires WellNamed(es)
    ensures Escapes(es, "", ex) <==> exists i :: 0 <= i < |es| && ".." <= es[i].name
  {
    if Escapes(es, "", ex) {
      var i := EscapesSome(es, "", ex);
      NoEscapeBelow(es[i].node, es[i].name, ex);
    }
    if i :| 0 <= i < |es| && ".." <= es[i].name {
      EscapesFrom(es, i, "", ex);
    }
  }

  lemma {:induction false} NoEscapeBelow(n: Node, path: string, ex: string -> bool)
    requires path != "" && '/' !in path[..1]
    ensures EscapesAt(n, path, ex) <==> ".." <= path
    decreases n
  {
    if n.Dir? && !(".." <= path) && Escapes(n.entries, path, ex) {
      var i := EscapesSome(n.entries, path, ex);
      var p := Join(path, n.entries[i].name);
      assert p[..1] == path[..1] && p[1] == (path + "/")[1];
      NoEscapeBelow(n.entries[i].node, p, ex);
    }
  }

  /** `Unreadable`: a directory or a file could not be read. */
  datatype BuildResult = Built(index: Index) | Escaping | Unreadable

  /**
   Any failing read fails; so does the escape guard; otherwise the index of exactly the visible files.
   `readable`: everything the walk reads can be read.
   */
  method BuildLocalIndex(es: Entries, ex: string -> bool, h: string -> string, readable: bool) returns (r: BuildResult)
    requires WellNamed(es)
    ensures r.Unreadable? ==> !readable
    ensures r.Escaping? ==> exists i :: 0 <= i < |es| && ".." <= es[i].name
    ensures r.Built? <==> readable && forall i :: 0 <= i < |es| ==> !(".." <= es[i].name)
    ensures r.Built? ==> r.index == LocalIndex(h, Visible(es, ex))
  {
    EscapesExactly(es, ex);
    var first: bool := *; // whether the failing read comes before the escaping path
    if !readable && first { return Unreadable; }
    var ok, files := Walk(es, "", ex, h, []);
    if !ok { return Escaping; }
    if !readable { return Unreadable; }
    assert files == Hashed(h, Listing(es, "", ex));
    var sorted := Sort(PathOf, files);
    SortedListingIsLocal(es, ex, h);
    var text := TreeText(sorted);
    r := Built(Index(sorted, h(text)));
  }

  method TreeText(files: seq<FileEntry>) returns (b: string)
    ensures b == Preimage(files)
  {
    b := "";
    for i := 0 to |files|
      invariant b == Preimage(files[..i])
    {
      PreimageConcat(files[..i], files[i]);
      assert files[..i + 1] == files[..i] + [files[i]];
      b := b + files[i].path + [NUL] + Decimal(files[i].size) + [NUL] + files[i].sha + ['\n'];
    }
    assert files[..|files|] == files;
  }

  lemma {:induction false} PreimageConcat(a: seq<FileEntry>, e: FileEntry)
    ensures Preimage(a + [e]) == Preimage(a) + e.path + [NUL] + Decimal(e.size) + [NUL] + e.sha + ['\n']
  {
    RecordIs(e);
    hide Record, Decimal;
    if a == [] {
      assert [e][1..] == [];
      assert Preimage([e]) == Record(e) + "";
      assert "" + e.path + [NUL] + Decimal(e.size) + [NUL] + e.sha + ['\n'] == Record(e);
    } else {
      PreimageConcat(a[1..], e);
      assert (a + [e])[1..] == a[1..] + [e];
      RecordAppended(Record(a[0]), Preimage(a[1..]), e);
    }
  }

  lemma {:induction false} RecordIs(e: FileEntry)
    ensures Record(e) == e.path + [NUL] + Decimal(e.size) + [NUL] + e.sha + ['\n']
  {
  }

  lemma {:induction false} RecordAppended(a: string, b: string, e: FileEntry)
    ensures a + (b + e.path + [NUL] + Decimal(e.size) + [NUL] + e.sha + ['\n']) ==
            (a + b) + e.path + [NUL] + Decimal(e.size) + [NUL] + e.sha + ['\n']
  {
    hide Decimal;
  }

  /** Entries of different names list different paths. */
  lemma {:induction false} CousinsDiffer(es: Entries, rel: string, ex: string -> bool, last: Entry, f: (string, string), g: (string, string))
    requires WellNamed(es + [last])
    requires f in Listing(es, rel, ex) && g in Visit(last.node, Join(rel, last.name), ex)
    ensures f.0 != g.0
  {
    var all := es + [last];
    assert all[|es|] == last && forall i :: 0 <= i < |es| ==> all[i] == es[i];
    assert WellNamed(es) && WellNamed([last]);
    var c := ResolvesListed(es, rel, ex, f);
    ListingMembers([last], rel, ex, g);
    var d := ResolvesListed([last], rel, ex, g);
    if f.0 == g.0 {
      JoinInjective(rel, JoinAll(c), JoinAll(d));
      JoinAllPrefix(c, d);
      var k := ChildAt(es, c[0]);
      var m := ChildAt([last], d[0]);
    }
  }

  lemma {:induction false} FrontWellNamed(es: Entries)
    requires WellNamed(es) && es != []
    ensures WellNamed(es[..|es| - 1])
    ensures es[|es| - 1].node.Dir? ==> WellNamed(es[|es| - 1].node.entries)
  {
  }

  lemma {:induction false} ListingNoDup(es: Entries, rel: string, ex: string -> bool, i: nat, j: nat)
    requires WellNamed(es)
    requires i < j < |Listing(es, rel, ex)|
    ensures Listing(es, rel, ex)[i].0 != Listing(es, rel, ex)[j].0
    decreases es
  {
    hide WellNamed, Join, EscapesAt;
    var front, last := es[..|es| - 1], es[|es| - 1];
    FrontWellNamed(es);
    var a, b := Listing(front, rel, ex), Visit(last.node, Join(rel, last.name), ex);
    if j < |a| {
      ListingNoDup(front, rel, ex, i, j);
    } else if i >= |a| {
      VisitNoDup(last.node, Join(rel, last.name), ex, i - |a|, j - |a|);
    } else {
      assert es == front + [last];
      CousinsDiffer(front, rel, ex, last, a[i], b[j - |a|]);
    }
  }

  lemma {:induction false} VisitNoDup(n: Node, path: string, ex: string -> bool, i: nat, j: nat)
    requires n.Dir? ==> WellNamed(n.entries)
    requires i < j < |Visit(n, path, ex)|
    ensures Visit(n, path, ex)[i].0 != Visit(n, path, ex)[j].0
    decreases n
  {
    ListingNoDup(n.entries, path, ex, i, j);
  }

  lemma {:induction false} JoinInjective(rel: string, a: string, b: string)
    requires Join(rel, a) == Join(rel, b)
    ensures a == b
  {
    if rel != "" {
      assert Join(rel, a)[|rel| + 1..] == a && Join(rel, b)[|rel| + 1..] == b;
    }
  }

  lemma {:induction false} ListingHashes(es: Entries, ex: string -> bool, h: string -> string, e: FileEntry)
    requires WellNamed(es)
    ensures e in Hashed(h, Listing(es, "", ex)) <==>
            e.path in Visible(es, ex) && e == EntryOf(h, e.path, Visible(es, ex)[e.path])
  {
    var l := Listing(es, "", ex);
    var files := Hashed(h, l);
    HashedAt(h, l);
    if e in files {
      var i :| 0 <= i < |files| && files[i] == e;
      assert (l[i].0, l[i].1) in l && l[i].0 == e.path;
      assert e.path in Visible(es, ex);
      SamePathSameFile(es, ex, l[i], (e.path, ContentIn(l, e.path)));
    }
    if e.path in Visible(es, ex) && e == EntryOf(h, e.path, Visible(es, ex)[e.path]) {
      var i :| 0 <= i < |l| && l[i] == (e.path, ContentIn(l, e.path));
      assert files[i] == e;
    }
  }

  lemma {:induction false} SortedListingIsLocal(es: Entries, ex: string -> bool, h: string -> string)
    requires WellNamed(es)
    ensures Sort(PathOf, Hashed(h, Listing(es, "", ex))) == LocalIndex(h, Visible(es, ex)).files
  {
    var files := Hashed(h, Listing(es, "", ex));
    HashedAt(h, Listing(es, "", ex));
    forall i, j | 0 <= i < j < |files| ensures files[i].path != files[j].path {
      ListingNoDup(es, "", ex, i, j);
    }
    SortedDistinctPaths(files);
    SortElements(PathOf, files);
    LocalIndexEntries(h, Visible(es, ex));
    forall e ensures e in Sort(PathOf, files) <==> e in LocalIndex(h, Visible(es, ex)).files {
      assert e in Elements(Sort(PathOf, files)) <==> e in Elements(files);
      ListingHashes(es, ex, h, e);
    }
    PathSortedUnique(Sort(PathOf, files), LocalIndex(h, Visible(es, ex)).files);
  }

  lemma {:induction false} SortedDistinctPaths(files: seq<FileEntry>)
    requires forall i, j :: 0 <= i < j < |files| ==> files[i].path != files[j].path
    ensures PathSorted(Sort(PathOf, files))
  {
    var r := Sort(PathOf, files);
    SortSorts(PathOf, files);
    SortElements(PathOf, files);
    forall i, j | 0 <= i < j < |r| ensures Less(r[i].path, r[j].path) {
      assert r[i] in Elements(files) && r[j] in Elements(files);
      LessTotal(r[i].path, r[j].path);
      assert !Less(PathOf(r[j]), PathOf(r[i]));
      var k :| 0 <= k < |files| && files[k] == r[i];
      var m :| 0 <= m < |files| && files[m] == r[j];
      assert NoDup(r);
    }
  }
}
