/**
 The archive of selected files (internal/util/tar.go:94-195): a header for every directory on
 the way to a file, before the file and only once.
 */
module TarStream {
  import opened Text
  import opened SourceWalk
  import opened GoPath

  datatype Header = Header(name: string, dir: bool)

  datatype Kind = Regular | Directory | Link | Other | Missing

  /** The path a header stands for. */
  function PathIn(h: Header): string { if h.dir && h.name != "" then h.name[..|h.name| - 1] else h.name }

  /** A directory header for `d`. */
  function DirHeader(d: string): Header { Header(d + "/", true) }

  /** The path at `k` has the headers of all its ancestors before it. */
  ghost predicate Announced(hs: seq<Header>, k: nat)
    requires k < |hs|
  {
    forall d :: Ancestor(d, PathIn(hs[k])) ==> DirHeader(d) in hs[..k]
  }

  ghost predicate AllAnnounced(hs: seq<Header>) { forall k :: 0 <= k < |hs| ==> Announced(hs, k) }

  /** No directory header occurs twice. */
  ghost predicate DirsOnce(hs: seq<Header>) {
    forall i, j :: 0 <= i < j < |hs| && hs[i].dir && hs[j].dir ==> hs[i] != hs[j]
  }

  /** The files of an archive, in order. */
  function FilesIn(hs: seq<Header>): seq<string> {
    if hs == [] then [] else FilesIn(hs[..|hs| - 1]) + if hs[|hs| - 1].dir then [] else [hs[|hs| - 1].name]
  }

  /** The listed paths that make it into the archive: regular files that do not leave the root. */
  function Chosen(files: seq<string>, lstat: string -> Kind): seq<string> {
    if files == [] then [] else
      var rel := files[|files| - 1];
      Chosen(files[..|files| - 1], lstat) +
      if Included(rel, lstat) then [Clean(rel)] else []
  }

  predicate Included(rel: string, lstat: string -> Kind) { rel != "" && !(".." <= Clean(rel)) && lstat(Clean(rel)) == Regular }

  /** No listed path is itself a directory. */
  ghost predicate NoDirs(files: seq<string>, lstat: string -> Kind) {
    forall f :: f in files ==> lstat(Clean(f)) != Directory
  }

  predicate Remembered(n: string, headers: seq<Header>) { |n| > 1 && n[|n| - 1] == '/' && Header(n, true) in headers }

  predicate IsRoot(dir: string) { dir in {".", "", "/"} }

  /** The header of a directory on the way to a path. */
  ghost predicate OnTheWay(h: Header, p: string) { exists d :: h == DirHeader(d) && Ancestor(d, p) }

  /** What one listed path may put into an archive: its directories, and itself if it is a file or a directory. */
  ghost predicate Wanted(h: Header, rel: string, lstat: string -> Kind) {
    var p := Clean(rel);
    && rel != "" && !(".." <= p)
    && (OnTheWay(h, p) || (h == Header(p, false) && lstat(p) == Regular) || (h.dir && PathIn(h) == p && lstat(p) == Directory))
  }

  lemma {:induction false} ParentOnTheWay(p: string, d: string)
    requires IsClean(p) && !IsRoot(Parent(p)) && (d == Parent(p) || Ancestor(d, Parent(p)))
    ensures Ancestor(d, p)
  {
    hide IsClean, LastSlash, Parent;
    ParentIs(p);
    var q := Parent(p);
    assert LastSlash(p) > 0 && q == p[..LastSlash(p)] && p[LastSlash(p)] == '/';
    assert q + "/" == p[..LastSlash(p) + 1];
  }

  class Archive {
    /** Nothing goes wrong with the output or with reading a file that is there. */
    const writable: bool
    var headers: seq<Header>
    /** The names of the directory headers written so far by `EmitDir`. */
    var emitted: set<string>

    ghost predicate Valid()
      reads this
    {
      && AllAnnounced(headers)
      && (forall n :: n in emitted ==> Remembered(n, headers))
    }

    /** Exactly the directory headers of the archive are remembered. */
    ghost predicate Tracked()
      reads this
    {
      DirsOnce(headers) && forall h :: h in headers && h.dir ==> h.name in emitted
    }

    constructor (writable: bool)
      ensures Valid() && Tracked() && headers == [] && emitted == {} && this.writable == writable
    {
      this.writable, headers, emitted := writable, [], {};
    }

    /** Writing may fail at any time, unless the output is sound. */
    method Write(h: Header) returns (ok: bool)
      requires Valid() && forall d :: Ancestor(d, PathIn(h)) ==> DirHeader(d) in headers
      modifies this`headers
      ensures Valid() && headers == if ok then old(headers) + [h] else old(headers)
      ensures writable ==> ok
    {
      ok := *;
      ok := ok || writable;
      if ok {
        AnnouncedSnoc(headers, h);
        headers := headers + [h];
      }
    }

    /**
     The directory's header, after those of its ancestors. The test for the parent compares
     a name without a slash with names that end in one, so it never stops the recursion.
     */
    method EmitDir(dir: string) returns (ok: bool)
      requires Valid() && IsClean(dir)
      modifies this`headers, this`emitted
      ensures Valid() && (old(Tracked()) ==> Tracked()) && (writable ==> ok)
      ensures old(headers) <= headers && FilesIn(headers) == FilesIn(old(headers))
      ensures ok ==> IsRoot(dir) || (DirHeader(dir) in headers && forall d :: Ancestor(d, dir) ==> DirHeader(d) in headers)
      ensures forall h :: h in headers ==> h in old(headers) || (!IsRoot(dir) && (h == DirHeader(dir) || OnTheWay(h, dir)))
      decreases |dir|
    {
      hide IsClean, Parent, LastSlash, DirsOnce, AllAnnounced, Announced, FilesIn, OnTheWay;
      ok := true;
      if IsRoot(dir) { return; }
      ParentIs(dir);
      var name := if dir[|dir| - 1] != '/' then dir + "/" else dir;
      CleanNoSlash(dir);
      var parent := Parent(dir);
      if parent != "." && parent != dir && parent !in emitted {
        ok := EmitDir(parent);
        forall h | h in headers && h !in old(headers) ensures OnTheWay(h, dir) { UpTheTree(dir, h); }
        if !ok { return; }
      }
      ParentsWritten(dir, parent, headers, emitted);
      if name in emitted { return; }
      ghost var before, tracked := headers, Tracked();
      ok := Write(Header(name, true));
      if !ok { return; }
      emitted := emitted + {name};
      FilesInSnoc(before, Header(name, true));
      if tracked { DirsOnceSnoc(before, Header(name, true)); }
    }

    method Add(rel: string, lstat: string -> Kind) returns (ok: bool)
      requires Valid()
      modifies this`headers, this`emitted
      ensures Valid() && (old(Tracked()) && lstat(Clean(rel)) != Directory ==> Tracked())
      ensures old(headers) <= headers
      ensures ok ==> FilesIn(headers) == FilesIn(old(headers)) + Chosen([rel], lstat)
      ensures forall h :: h in headers ==> h in old(headers) || Wanted(h, rel, lstat)
      ensures writable ==> (ok <==> rel == "" || ".." <= Clean(rel) || lstat(Clean(rel)) != Missing)
    {
      hide IsClean, Parent, LastSlash, Clean, DirsOnce, AllAnnounced, Announced, FilesIn, IsRoot, OnTheWay;
      ok := true;
      ChosenOne(rel, lstat);
      if rel == "" { return; }
      var path := Clean(rel);
      if ".." <= path { return; }
      var kind := lstat(path);
      if kind == Missing { return false; }
      CleanIsClean(rel);
      ParentIs(path);
      ok := EmitDir(Parent(path));
      forall h | h in headers && h !in old(headers) ensures OnTheWay(h, path) { UpTheTree(path, h); }
      if !ok { return; }
      ghost var before, tracked := headers, Tracked();
      AncestorsWritten(path, headers);
      if kind == Directory {
        var name := if path == "" || path == "/" || path[|path| - 1] != '/' then path + "/" else path;
        CleanNoSlash(path);
        ok := Write(Header(name, true));
        FilesInSnoc(before, Header(name, true));
      } else if kind == Regular {
        ok := Write(Header(path, false));
        FilesInSnoc(before, Header(path, false));
        if tracked && ok { DirsOnceSnoc(before, Header(path, false)); }
        if ok && !writable { ok := *; } // copying the content
      }
    }
  }

  lemma {:induction false} UpTheTree(p: string, h: Header)
    requires IsClean(p) && !IsRoot(Parent(p)) && (h == DirHeader(Parent(p)) || OnTheWay(h, Parent(p)))
    ensures OnTheWay(h, p)
  {
    hide IsClean, Parent, IsRoot, Ancestor;
    if h == DirHeader(Parent(p)) {
      ParentOnTheWay(p, Parent(p));
    } else {
      var d :| h == DirHeader(d) && Ancestor(d, Parent(p));
      ParentOnTheWay(p, d);
    }
  }

  /**
   The archive of a list of files. Whatever fails, every entry comes after its directories;
   if nothing fails, the files are the chosen ones in order; and unless a directory is
   listed itself, no directory is written twice.
   */
  method TarFiles(files: seq<string>, lstat: string -> Kind, writable: bool) returns (ok: bool, headers: seq<Header>)
    ensures writable ==> (ok <==> forall f :: f in files ==> f == "" || ".." <= Clean(f) || lstat(Clean(f)) != Missing)
    ensures AllAnnounced(headers)
    ensures NoDirs(files, lstat) ==> DirsOnce(headers)
    ensures ok ==> FilesIn(headers) == Chosen(files, lstat)
    ensures forall h :: h in headers ==> exists f :: f in files && Wanted(h, f, lstat)
  {
    hide AllAnnounced, DirsOnce, FilesIn, Chosen, Clean, Remembered, Wanted;
    var a := new Archive(writable);
    ok := true;
    NothingYet(files, lstat);
    for i := 0 to |files|
      invariant writable ==> forall f :: f in files[..i] ==> f == "" || ".." <= Clean(f) || lstat(Clean(f)) != Missing
      invariant a.writable == writable
      invariant ok && a.Valid() && (NoDirs(files, lstat) ==> a.Tracked()) && fresh(a)
      invariant FilesIn(a.headers) == Chosen(files[..i], lstat)
      invariant forall h :: h in a.headers ==> exists f :: f in files && Wanted(h, f, lstat)
    {
      ChosenSnoc(files, i, lstat);
      ok := a.Add(files[i], lstat);
      if !ok { return false, a.headers; }
    }
    assert files[..|files|] == files;
    headers := a.headers;
  }

  lemma {:induction false} NothingYet(files: seq<string>, lstat: string -> Kind)
    ensures FilesIn([]) == Chosen(files[..0], lstat)
  {
  }

  lemma {:induction false} ChosenSnoc(files: seq<string>, i: nat, lstat: string -> Kind)
    requires i < |files|
    ensures Chosen(files[..i + 1], lstat) == Chosen(files[..i], lstat) + Chosen([files[i]], lstat)
  {
    ChosenOne(files[i], lstat);
    assert files[..i + 1][..i] == files[..i];
  }

  /** The files of an archive: the listed paths, cleaned, that do not lead out of the source and are regular files. */
  lemma {:induction false} ChosenSays(files: seq<string>, lstat: string -> Kind, x: string)
    ensures x in Chosen(files, lstat) <==> exists f :: f in files && f != "" && x == Clean(f) && !(".." <= x) && lstat(x) == Regular
  {
    hide Clean;
    if files != [] {
      var front, rel := files[..|files| - 1], files[|files| - 1];
      ChosenSays(front, lstat, x);
      assert files == front + [rel];
      if x in Chosen(front, lstat) {
        var f :| f in front && f != "" && x == Clean(f) && !(".." <= x) && lstat(x) == Regular;
        assert f in files;
      }
      if f :| f in files && f != "" && x == Clean(f) && !(".." <= x) && lstat(x) == Regular { assert f in front || f == rel; }
    }
  }

  /** A listed path comes before those listed after it. */
  lemma {:induction false} ChosenConcat(a: seq<string>, b: seq<string>, lstat: string -> Kind)
    ensures Chosen(a + b, lstat) == Chosen(a, lstat) + Chosen(b, lstat)
  {
    hide Clean;
    if b == [] {
      assert a + b == a;
    } else {
      ChosenConcat(a, b[..|b| - 1], lstat);
      assert (a + b)[..|a + b| - 1] == a + b[..|b| - 1];
    }
  }

  /** The headers of a small archive, spelled out: directories carry a slash at the end. */
  lemma {:induction false} HeaderText()
    ensures DirHeader("a/b") == Header("a/b/", true) && PathIn(Header("a/b/", true)) == "a/b" && PathIn(Header("a/b", false)) == "a/b"
  {
    assert "a/b/"[..3] == "a/b";
  }

  // ------------------------------------------------------- files of an index

  /** Every path of a fileset's source passes the archive's filter unchanged. */
  lemma {:induction false} IndexedPathsPass(es: Entries, ex: string -> bool, p: string)
    requires WellNamed(es) && p in Visible(es, ex) && !Escapes(es, "", ex)
    ensures p != "" && Clean(p) == p && !(".." <= Clean(p))
  {
    hide Visible, WellNamed, Clean, JoinAll, Resolve, Escapes;
    var comps := ListedPath(es, ex, p);
    ProperComponents(es, comps);
    assert comps[0] in comps;
    EscapesExactly(es, ex);
    assert forall i :: 0 <= i < |comps| ==> comps[i] in comps;
    CleanOfClean(comps);
    JoinAllNonEmpty(comps);
    TopOfPath(comps);
  }

  /** An archive of indexed files that are still there holds exactly the listed files. */
  lemma {:induction false} IndexedFilesChosen(es: Entries, ex: string -> bool, files: seq<string>, lstat: string -> Kind)
    requires WellNamed(es) && !Escapes(es, "", ex)
    requires forall f :: f in files ==> f in Visible(es, ex) && lstat(f) == Regular
    ensures Chosen(files, lstat) == files && NoDirs(files, lstat)
  {
    hide WellNamed, Escapes, Visible, Clean, Chosen;
    forall f | f in files ensures Included(f, lstat) && Clean(f) == f { IndexedPathsPass(es, ex, f); }
    AllPass(files, lstat);
  }

  lemma {:induction false} AllPass(files: seq<string>, lstat: string -> Kind)
    requires forall i :: 0 <= i < |files| ==> Included(files[i], lstat) && Clean(files[i]) == files[i]
    ensures Chosen(files, lstat) == files
  {
    hide Clean, Included;
    if files != [] {
      AllPass(files[..|files| - 1], lstat);
      assert files == files[..|files| - 1] + [files[|files| - 1]];
    }
  }

  lemma {:induction false} ProperComponents(es: Entries, comps: seq<string>)
    requires WellNamed(es) && comps != [] && Resolve(es, comps).Some?
    ensures forall c :: c in comps ==> ProperName(c)
    ensures exists k :: 0 <= k < |es| && es[k].name == comps[0]
    decreases |comps|
  {
    var k := ChildAt(es, comps[0]);
    assert ProperName(es[k].name);
    if |comps| > 1 {
      ProperComponents(es[k].node.entries, comps[1..]);
      assert comps == [comps[0]] + comps[1..];
    }
  }

  lemma {:induction false} TopOfPath(comps: seq<string>)
    requires comps != [] && comps[0] != "" && !(".." <= comps[0])
    ensures !(".." <= JoinAll(comps))
  {
    var s, c := JoinAll(comps), comps[0];
    assert c <= s;
    if |c| == 1 && |comps| > 1 {
      assert s[1] == '/';
    } else if |c| > 1 {
      assert s[0] == c[0] && s[1] == c[1];
    }
  }

  lemma {:induction false} ListedPath(es: Entries, ex: string -> bool, p: string) returns (comps: seq<string>)
    requires WellNamed(es) && p in Visible(es, ex)
    ensures SlashFree(comps) && p == JoinAll(comps) && Resolve(es, comps).Some?
  {
    comps := ResolvesListed(es, "", ex, (p, Visible(es, ex)[p]));
  }

  lemma {:induction false} AnnouncedSnoc(hs: seq<Header>, h: Header)
    requires AllAnnounced(hs) && forall d :: Ancestor(d, PathIn(h)) ==> DirHeader(d) in hs
    ensures AllAnnounced(hs + [h])
  {
    hide PathIn, Ancestor;
    var all := hs + [h];
    forall k | 0 <= k < |all| ensures Announced(all, k) {
      assert all[..k] == hs[..k];
      if k < |hs| { assert Announced(hs, k); } else { assert all[..k] == hs; }
    }
  }

  lemma {:induction false} DirsOnceSnoc(hs: seq<Header>, h: Header)
    requires DirsOnce(hs) && (h.dir ==> h !in hs)
    ensures DirsOnce(hs + [h])
  {
  }

  lemma {:induction false} FilesInSnoc(hs: seq<Header>, h: Header)
    ensures FilesIn(hs + [h]) == FilesIn(hs) + if h.dir then [] else [h.name]
  {
    assert (hs + [h])[..|hs|] == hs;
  }

  lemma {:induction false} CleanNoSlash(p: string)
    requires IsClean(p)
    ensures p != "" && (p != "/" ==> p[|p| - 1] != '/')
  {
    hide Squash, JoinAll;
    var out, rooted :| Normal(out, rooted) && p == Render(out, rooted);
    if out != [] {
      assert out[|out| - 1] in out;
      LastOfJoin(out);
    }
  }

  lemma {:induction false} LastOfJoin(out: seq<string>)
    requires SlashFree(out)
    ensures JoinAll(out) != "" && JoinAll(out)[|JoinAll(out)| - 1] != '/'
  {
    assert out[0] in out;
    if |out| == 1 {
      assert out[0][|out[0]| - 1] in out[0];
    } else {
      TailSlashFree(out);
      LastOfJoin(out[1..]);
    }
  }

  lemma {:induction false} ParentsWritten(dir: string, parent: string, headers: seq<Header>, emitted: set<string>)
    requires IsClean(dir) && parent == Parent(dir) && !IsRoot(dir)
    requires forall n :: n in emitted ==> Remembered(n, headers)
    requires parent != "." && parent != dir && parent !in emitted ==>
               IsRoot(parent) || (DirHeader(parent) in headers && forall d :: Ancestor(d, parent) ==> DirHeader(d) in headers)
    ensures forall d :: Ancestor(d, dir) ==> DirHeader(d) in headers
  {
    hide Parent, IsClean;
    ParentIs(dir);
    CleanNoSlash(parent);
    assert parent !in emitted;
    forall d | Ancestor(d, dir) ensures DirHeader(d) in headers { AncestorsOf(d, dir); }
  }

  lemma {:induction false} AncestorsWritten(path: string, headers: seq<Header>)
    requires IsClean(path)
    requires var parent := Parent(path);
             IsRoot(parent) || (DirHeader(parent) in headers && forall d :: Ancestor(d, parent) ==> DirHeader(d) in headers)
    ensures forall d :: Ancestor(d, path) ==> DirHeader(d) in headers
  {
    hide Parent, IsClean;
    forall d | Ancestor(d, path) ensures DirHeader(d) in headers { AncestorsOf(d, path); }
  }

  lemma {:induction false} ChosenOne(rel: string, lstat: string -> Kind)
    ensures Chosen([rel], lstat) == if Included(rel, lstat) then [Clean(rel)] else []
  {
    assert [rel][..0] == [];
  }
}
