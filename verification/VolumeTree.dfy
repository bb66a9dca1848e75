/**
 The files of a Docker volume and what one fileset synchronisation does to them
 (internal/planner/apply_filesets.go:165-178 over internal/dockercli/dockercli.go:401-450):
 extract the changed files, `rm -rf` the vanished ones, write the index last.

 Paths are hierarchical, so a successful extraction leaves no file above or below a file
 it wrote, and removing a path removes everything below it.
 */
module VolumeTree {
  import opened Text
  import opened FilesetIndex

  type Files = map<string, string>

  /** The index file: missing or empty, cut short in the middle, or readable. */
  datatype Stored = Absent | Torn | Written(index: Index)

  /** The name of the index file in the volume (internal/filesets/index.go:16). */
  const INDEX := ".dockform-index.json"

  /** `stored` is what the file `INDEX` holds; `files` are all others. */
  datatype Volume = Volume(labelled: bool, files: Files, stored: Stored)

  /** A path in a directory of the index file's name: with such a file there can be no index file. */
  predicate BelowIndex(p: string) { INDEX + "/" <= p }

  predicate Blocked(files: Files) { exists p :: p in files && BelowIndex(p) }

  /** No path is the index file's or lies below it. */
  predicate Clear(paths: set<string>) { forall p :: p in paths ==> p != INDEX && !BelowIndex(p) }

  predicate Under(q: string, p: string) { q == p || p + "/" <= q }

  /** Two paths that cannot both be files. */
  predicate Clash(p: string, q: string) { p + "/" <= q || q + "/" <= p }

  /** `unicode.IsSpace`. */
  predicate Space(c: char) {
    || '\t' <= c <= '\r' || c == ' ' || c == '\U{85}' || c == '\U{A0}' || c == '\U{1680}' || '\U{2000}' <= c <= '\U{200A}'
    || c == '\U{2028}' || c == '\U{2029}' || c == '\U{202F}' || c == '\U{205F}' || c == '\U{3000}'
  }

  /** `strings.TrimSpace(p) == ""`: such a path is dropped from the removal list. */
  predicate Blank(p: string) { forall i :: 0 <= i < |p| ==> Space(p[i]) }

  predicate ClashesWith(p: string, paths: set<string>) { exists q :: q in paths && Clash(p, q) }

  predicate Doomed(p: string, del: set<string>) { exists d :: d in del && !Blank(d) && Under(p, d) }

  /** A file of the index file's name in the archive becomes the index file, which is not among `files`. */
  function Extracted(files: Files, tar: Files): Files {
    map p | p in files.Keys + tar.Keys && (if p in tar then p != INDEX else !ClashesWith(p, tar.Keys)) ::
      if p in tar then tar[p] else files[p]
  }

  function Removed(files: Files, del: set<string>): Files {
    map p | p in files && !Doomed(p, del) :: files[p]
  }

  ghost function Synced(files: Files, tar: Files, del: set<string>): Files {
    Removed(Extracted(files, tar), del)
  }

  lemma {:induction false} ExtractedAt(files: Files, tar: Files, p: string)
    ensures p in Extracted(files, tar) <==> (if p in tar then p != INDEX else p in files && !ClashesWith(p, tar.Keys))
    ensures p in Extracted(files, tar) ==> Extracted(files, tar)[p] == if p in tar then tar[p] else files[p]
  {
  }

  lemma {:induction false} RemovedAt(files: Files, del: set<string>, p: string)
    ensures p in Removed(files, del) <==> p in files && !Doomed(p, del)
    ensures p in Removed(files, del) ==> Removed(files, del)[p] == files[p]
  {
  }

  /** What is at a path after extraction and removal. */
  lemma {:induction false} SyncedAt(files: Files, tar: Files, del: set<string>, p: string)
    ensures p in Synced(files, tar, del) <==> (if p in tar then p != INDEX else p in files && !ClashesWith(p, tar.Keys)) && !Doomed(p, del)
    ensures p in Synced(files, tar, del) ==> Synced(files, tar, del)[p] == if p in tar then tar[p] else files[p]
  {
    hide Extracted, Removed, ClashesWith, Doomed;
    ExtractedAt(files, tar, p);
    RemovedAt(Extracted(files, tar), del, p);
  }

  /** The archive of the files to create and to update, read from the source. */
  function TarOf(src: Files, d: Diff): Files {
    map p | p in Paths(d.toCreate) + Paths(d.toUpdate) && p in src :: src[p]
  }

  /** Every indexed file is in the volume with the indexed size and digest. */
  ghost predicate Agrees(h: string -> string, files: Files, i: Index) {
    forall e :: e in i.files ==> e.path in files && e == EntryOf(h, e.path, files[e.path])
  }

  /** The index read back; callers reject a torn one before they use this. */
  function RemoteOf(s: Stored): Index { if s.Written? then s.index else EmptyIndex }

  /** The archive to extract and the paths to remove for a source and an old index. */
  datatype Change = Change(tar: Files, del: set<string>)

  ghost function ChangeOf(src: Files, local: Index, remote: Index): Change {
    var d := DiffOf(local, remote);
    Change(TarOf(src, d), Elements(d.toDelete))
  }

  /** The change writes, displaces or removes the index file itself. */
  predicate TouchesIndex(c: Change) { INDEX in c.tar || INDEX in c.del || Blocked(c.tar) }

  // -------------------------------------------------------------- correctness

  /** Files and an index file as a directory can hold them. */
  ghost predicate Beside(files: Files, remote: Index) { INDEX !in files && (remote != EmptyIndex ==> !Blocked(files)) }

  /** What the theorems assume of a volume, its index and a source. */
  ghost predicate Premises(h: string -> string, files: Files, remote: Index, src: Files, local: Index) {
    && Digests(h)
    && IsLocal(h, local, src) && PrefixFree(src.Keys)
    && PrefixFree(files.Keys)
    && (IsBuilt(h, remote) || remote == EmptyIndex)
    && Agrees(h, files, remote) && Beside(files, remote)
  }

  /** No file of the old index has become a directory of the source. */
  ghost predicate NoFileBecameDir(remote: Index, src: Files) {
    forall q, p :: q in Paths(remote.files) && p in src && q + "/" <= p ==> Blank(q)
  }

  /** The index lists the file that is in the volume, and the source has the same content. */
  ghost predicate UpToDate(files: Files, remote: Index, src: Files, p: string) {
    p in Paths(remote.files) && p in files && p in src && files[p] == src[p]
  }

  ghost predicate ChangeIs(c: Change, files: Files, remote: Index, src: Files) {
    && c.del == Paths(remote.files) - src.Keys
    && (forall p :: p in c.tar <==> p in src && !UpToDate(files, remote, src, p))
    && (forall p :: p in c.tar ==> c.tar[p] == src[p])
  }

  lemma {:induction false} ChangeExact(h: string -> string, files: Files, remote: Index, src: Files, local: Index)
    requires Premises(h, files, remote, src, local)
    ensures ChangeIs(ChangeOf(src, local, remote), files, remote, src)
  {
    var d := DiffOf(local, remote);
    ShortcutIsSound(h, local, remote);
    LocalPaths(h, local, src);
    forall p | p in src
      ensures p in Paths(d.toCreate) + Paths(d.toUpdate) <==> !UpToDate(files, remote, src, p)
    {
      InDiff(h, files, remote, src, local, d, p);
    }
  }

  lemma {:induction false} InDiff(h: string -> string, files: Files, remote: Index, src: Files, local: Index, d: Diff, p: string)
    requires CollisionFree(h) && IsLocal(h, local, src) && PathSorted(remote.files) && Agrees(h, files, remote)
    requires DiffExact(d, local, remote) && p in src
    ensures p in Paths(d.toCreate) + Paths(d.toUpdate) <==> !UpToDate(files, remote, src, p)
  {
    var e := EntryOf(h, p, src[p]);
    IsLocalHas(h, local, src, p);
    if p in Paths(d.toCreate) + Paths(d.toUpdate) {
      var e' :| (e' in d.toCreate || e' in d.toUpdate) && e'.path == p;
      assert e' == e;
    }
    assert p in Paths(d.toCreate) + Paths(d.toUpdate) <==> e in d.toCreate || e in d.toUpdate;
    if p in Paths(remote.files) {
      var r :| r in remote.files && r.path == p;
      if e in remote.files { SortedEntryUnique(remote.files, e, r); }
      assert e in remote.files <==> h(files[p]) == h(src[p]) && |files[p]| == |src[p]|;
    }
  }

  /** The fate of one path, without reference to archives and removal lists. */
  ghost predicate Fate(files: Files, remote: Index, src: Files, out: Files, p: string) {
    if p in src then
      var lost := p == INDEX || exists q :: q in Paths(remote.files) && !Blank(q) && q + "/" <= p;
      (p in out <==> !lost) && (p in out ==> out[p] == src[p])
    else if p in files then
      var kept := !ClashesWith(p, src.Keys) && (p in Paths(remote.files) ==> Blank(p));
      (p in out <==> kept) && (p in out ==> out[p] == files[p])
    else p !in out
  }

  lemma {:induction false} FateOf(files: Files, remote: Index, src: Files, c: Change, p: string)
    requires ChangeIs(c, files, remote, src) && PrefixFree(src.Keys) && PrefixFree(files.Keys)
    requires Paths(remote.files) <= files.Keys && INDEX !in files
    ensures Fate(files, remote, src, Synced(files, c.tar, c.del), p)
  {
    hide Synced;
    SyncedAt(files, c.tar, c.del, p);
    if p in src {
      SourceDoom(remote, src, c.del, p);
      if p !in c.tar {
        assert UpToDate(files, remote, src, p);
        forall q | q in c.tar ensures !Clash(p, q) { assert q in src; }
      }
    } else if p in files {
      forall q | q in src && Clash(p, q) ensures q in c.tar {
        assert !UpToDate(files, remote, src, q);
      }
      assert ClashesWith(p, c.tar.Keys) <==> ClashesWith(p, src.Keys);
      OldDoom(files, remote, src, c.del, p);
    }
  }

  lemma {:induction false} SourceDoom(remote: Index, src: Files, del: set<string>, p: string)
    requires del == Paths(remote.files) - src.Keys && p in src && PrefixFree(src.Keys)
    ensures Doomed(p, del) <==> exists q :: q in Paths(remote.files) && !Blank(q) && q + "/" <= p
  {
    if q :| q in Paths(remote.files) && !Blank(q) && q + "/" <= p {
      assert q in del && Under(p, q);
    }
  }

  lemma {:induction false} OldDoom(files: Files, remote: Index, src: Files, del: set<string>, p: string)
    requires del == Paths(remote.files) - src.Keys && p !in src && p in files && PrefixFree(files.Keys)
    requires Paths(remote.files) <= files.Keys
    ensures Doomed(p, del) <==> p in Paths(remote.files) && !Blank(p)
  {
    if Doomed(p, del) {
      var q :| q in del && !Blank(q) && Under(p, q);
      assert q in files;
    } else if p in Paths(remote.files) {
      assert p in del && Under(p, p);
    }
  }

  lemma {:induction false} IndexedAreFiles(h: string -> string, files: Files, remote: Index)
    requires Agrees(h, files, remote)
    ensures Paths(remote.files) <= files.Keys
  {
    forall q | q in Paths(remote.files) ensures q in files {
      var e :| e in remote.files && e.path == q;
    }
  }

  /**
   One synchronisation, path by path. A source file ends up with its content unless it has the
   index file's name or a file of the old index lies above it; a file of the old index that the source no longer
   has is gone unless its name is blank; any other file stays as it was unless it cannot
   coexist with a source file.
   */
  lemma {:induction false} SyncFate(h: string -> string, files: Files, remote: Index, src: Files, local: Index)
    requires Premises(h, files, remote, src, local)
    ensures var c := ChangeOf(src, local, remote);
            forall p :: Fate(files, remote, src, Synced(files, c.tar, c.del), p)
  {
    hide Synced, ChangeOf;
    var c := ChangeOf(src, local, remote);
    ChangeExact(h, files, remote, src, local);
    IndexedAreFiles(h, files, remote);
    forall p ensures Fate(files, remote, src, Synced(files, c.tar, c.del), p) {
      FateOf(files, remote, src, c, p);
    }
  }

  /** The files are in place afterwards exactly when none has the index file's name and no file of the old index became a directory. */
  lemma {:induction false} FilesInPlace(h: string -> string, files: Files, remote: Index, src: Files, local: Index)
    requires Premises(h, files, remote, src, local)
    ensures var c := ChangeOf(src, local, remote);
            InPlace(src, Synced(files, c.tar, c.del)) <==> NoFileBecameDir(remote, src) && INDEX !in src
  {
    hide Synced, ChangeOf;
    var c := ChangeOf(src, local, remote);
    var out := Synced(files, c.tar, c.del);
    SyncFate(h, files, remote, src, local);
    if NoFileBecameDir(remote, src) && INDEX !in src {
      forall p | p in src ensures p in out && out[p] == src[p] { assert Fate(files, remote, src, out, p); }
    } else if INDEX in src {
      assert Fate(files, remote, src, out, INDEX);
    } else {
      var q, p :| q in Paths(remote.files) && p in src && q + "/" <= p && !Blank(q);
      assert Fate(files, remote, src, out, p);
    }
  }

  /** Every source file is there with its content. */
  ghost predicate InPlace(src: Files, files: Files) { forall p :: p in src ==> p in files && files[p] == src[p] }

  /** Skipping on equal tree hashes is right: the source is already in place. */
  lemma {:induction false} SkipIsExact(h: string -> string, files: Files, remote: Index, src: Files, local: Index)
    requires Premises(h, files, remote, src, local)
    requires local.treeHash == remote.treeHash
    ensures forall p :: p in src ==> p in files && files[p] == src[p]
    ensures remote == local
  {
    TreeHashDecides(h, local, remote);
    forall p | p in src ensures p in files && files[p] == src[p] {
      IsLocalHas(h, local, src, p);
    }
  }

  /** A file turned directory is lost: old index `a`, new source `a/b`. */
  lemma {:induction false} FileBecomesDir(h: string -> string, was: Files, prev: Index, src: Files, local: Index)
    requires Digests(h) && was == map["a" := "x"] && src == map["a/b" := "y"]
    requires IsLocal(h, prev, was) && IsLocal(h, local, src)
    ensures Premises(h, was, prev, src, local)
    ensures var c := ChangeOf(src, local, prev); "a/b" !in Synced(was, c.tar, c.del)
  {
    hide Synced, ChangeOf;
    LocalPaths(h, prev, was);
    assert "a" in Paths(prev.files);
    assert "a" + "/" == "a/" <= "a/b";
    assert "a"[0] == 'a' && !Blank("a");
    SyncFate(h, was, prev, src, local);
    var c := ChangeOf(src, local, prev);
    assert Fate(was, prev, src, Synced(was, c.tar, c.del), "a/b");
  }

  // -------------------------------------------------------------------- retry

  predicate Touched(p: string, c: Change) {
    p in c.tar || ClashesWith(p, c.tar.Keys) || Doomed(p, c.del)
  }

  ghost predicate SameAt(a: Files, b: Files, p: string) {
    (p in a <==> p in b) && (p in a && p in b ==> a[p] == b[p])
  }

  /** An extraction or removal cut short: anything may have become of the touched paths. */
  ghost predicate Partial(before: Files, after: Files, c: Change) {
    forall p :: !Touched(p, c) ==> SameAt(before, after, p)
  }

  ghost function SyncedVolume(v: Volume, src: Files, local: Index, remote: Index): Volume {
    if local.treeHash == remote.treeHash then v
    else
      var c := ChangeOf(src, local, remote);
      Volume(v.labelled, Synced(v.files, c.tar, c.del), Written(local))
  }

  /** An attempt with a plan's findings takes a volume without the label for missing and does not read its index. */
  predicate Reads(v: Volume, planned: bool) { v.labelled || !planned }

  /** The index file as an attempt sees it. */
  function Seen(v: Volume, planned: bool): Stored { if Reads(v, planned) then v.stored else Absent }

  /** What an attempt without a failing call comes to: it stops on an index it cannot parse or write, or leaves a volume. */
  datatype Try = Unparsed | Unwritable | Left(v: Volume)

  ghost function Tried(v: Volume, src: Files, local: Index, planned: bool): Try {
    if Seen(v, planned).Torn? then Unparsed else
      var remote := RemoteOf(Seen(v, planned));
      var out := SyncedVolume(v, src, local, remote);
      if local.treeHash != remote.treeHash && Blocked(out.files) then Unwritable else Left(out)
  }

  /**
   What a failed attempt working with change `c` can leave: some of the extraction and
   removal done under the old index, unless they touch the index file; all of it done and the index file old, emptied or
   torn by the failed write; or everything done, with a failure after the index write.
   */
  ghost predicate Interrupted(v: Volume, v': Volume, c: Change, local: Index) {
    && v'.labelled == v.labelled
    && (|| ((v'.stored == v.stored || TouchesIndex(c)) && Partial(v.files, v'.files, c))
        || (v'.files == Synced(v.files, c.tar, c.del) && v'.stored in {Torn, Absent, Written(local)}))
  }

  /** What an attempt may leave, wherever it is stopped. */
  ghost predicate FailedAttempt(v: Volume, v': Volume, src: Files, local: Index, planned: bool) {
    || v' == v
    || (&& !Seen(v, planned).Torn?
        && local.treeHash != RemoteOf(Seen(v, planned)).treeHash
        && Interrupted(v, v', ChangeOf(src, local, RemoteOf(Seen(v, planned))), local))
  }

  /** Every way an interruption can leave the files: `junk` at the touched paths. */
  function Cut(files: Files, junk: Files, c: Change): Files {
    map p | p in files.Keys + junk.Keys && (if Touched(p, c) then p in junk && p != INDEX else p in files) ::
      if Touched(p, c) then junk[p] else files[p]
  }

  lemma {:induction false} SameFiles(a: Files, b: Files)
    requires forall p :: SameAt(a, b, p)
    ensures a == b
  {
    forall p ensures p in a <==> p in b { assert SameAt(a, b, p); }
    forall p | p in a && p in b ensures a[p] == b[p] { assert SameAt(a, b, p); }
  }

  /** Whatever a cut-short run did, doing it again gives the uninterrupted result. */
  lemma {:induction false} PartialThenFull(before: Files, after: Files, c: Change)
    requires Partial(before, after, c)
    ensures Synced(after, c.tar, c.del) == Synced(before, c.tar, c.del)
  {
    hide Synced;
    var a, b := Synced(after, c.tar, c.del), Synced(before, c.tar, c.del);
    forall p ensures SameAt(a, b, p) {
      SyncedAt(after, c.tar, c.del, p);
      SyncedAt(before, c.tar, c.del, p);
      if !Touched(p, c) { assert SameAt(before, after, p); }
    }
    SameFiles(a, b);
  }

  lemma {:induction false} PartialChain(x: Files, y: Files, z: Files, c: Change)
    requires Partial(x, y, c) && Partial(y, z, c)
    ensures Partial(x, z, c)
  {
    forall p | !Touched(p, c) ensures SameAt(x, z, p) {
      assert SameAt(x, y, p) && SameAt(y, z, p);
    }
  }

  /** Extracting the whole source over a volume that already holds it changes nothing. */
  lemma {:induction false} ReExtract(files: Files, remote: Index, src: Files, out: Files)
    requires forall p :: Fate(files, remote, src, out, p)
    requires NoFileBecameDir(remote, src)
    ensures Synced(out, src, {}) == out
  {
    hide Synced;
    forall p ensures SameAt(Synced(out, src, {}), out, p) {
      SyncedAt(out, src, {}, p);
      assert Fate(files, remote, src, out, p);
    }
    SameFiles(Synced(out, src, {}), out);
  }

  lemma {:induction false} NothingStored(h: string -> string, src: Files, local: Index)
    requires Digests(h) && IsLocal(h, local, src) && PrefixFree(src.Keys)
    ensures Premises(h, map[], EmptyIndex, src, local) && local.treeHash != ""
  {
  }

  lemma {:induction false} EmptiedChange(h: string -> string, src: Files, local: Index)
    requires Digests(h) && IsLocal(h, local, src) && PrefixFree(src.Keys)
    ensures ChangeOf(src, local, EmptyIndex) == Change(src, {}) && local.treeHash != ""
  {
    hide ChangeOf, IsLocal, PrefixFree;
    var c := ChangeOf(src, local, EmptyIndex);
    NothingStored(h, src, local);
    ChangeExact(h, map[], EmptyIndex, src, local);
    assert forall p :: p in src ==> !UpToDate(map[], EmptyIndex, src, p);
    assert c.tar.Keys == src.Keys;
  }

  lemma {:induction false} WholeIsPartial(files: Files, c: Change)
    ensures Partial(files, files, c) && Partial(files, Synced(files, c.tar, c.del), c)
  {
    hide Synced;
    forall p | !Touched(p, c) ensures SameAt(files, Synced(files, c.tar, c.del), p) { SyncedAt(files, c.tar, c.del, p); }
  }

  /** A run of failed attempts, all with or all without the findings of a plan. */
  ghost predicate FailedRun(run: seq<Volume>, src: Files, local: Index, planned: bool) {
    && run != []
    && forall i :: 0 <= i < |run| - 1 ==> FailedAttempt(run[i], run[i + 1], src, local, planned)
  }

  lemma {:induction false} RunFront(run: seq<Volume>, src: Files, local: Index, planned: bool)
    requires FailedRun(run, src, local, planned) && |run| > 1
    ensures FailedRun(run[..|run| - 1], src, local, planned)
    ensures FailedAttempt(run[|run| - 2], run[|run| - 1], src, local, planned)
  {
    hide FailedAttempt;
    assert FailedAttempt(run[|run| - 2], run[|run| - 2 + 1], src, local, planned);
  }

  /** Some failed index write has emptied the index file. */
  predicate Emptied(run: seq<Volume>) {
    run != [] && !run[0].stored.Absent? && exists i :: 0 <= i < |run| && run[i].stored.Absent?
  }

  /** Where a run of attempts that read the index can be, with change `c` at the start. */
  ghost predicate Midway(v0: Volume, v: Volume, src: Files, local: Index, c: Change, emptied: bool) {
    var out := Synced(v0.files, c.tar, c.del);
    && v.labelled == v0.labelled && (emptied ==> !v0.stored.Absent?)
    && (|| v.stored.Torn?
        || (!emptied && v.stored == v0.stored && Partial(v0.files, v.files, c))
        || (!emptied && v.stored == Written(local) && v.files == out)
        || (emptied && v.stored.Absent? && Partial(out, v.files, Change(src, {})))
        || (emptied && v.stored == Written(local) && v.files == Synced(out, src, {})))
  }

  lemma {:induction false} MidwayStep(v0: Volume, v: Volume, v': Volume, src: Files, local: Index, planned: bool, c: Change, emptied: bool,
                   after: bool)
    requires Reads(v0, planned) && c == ChangeOf(src, local, RemoteOf(v0.stored))
    requires after <==> emptied || (!v0.stored.Absent? && v'.stored.Absent?)
    requires !TouchesIndex(c) && (after ==> ChangeOf(src, local, EmptyIndex) == Change(src, {}) && Clear(src.Keys))
    requires Midway(v0, v, src, local, c, emptied) && FailedAttempt(v, v', src, local, planned)
    ensures Midway(v0, v', src, local, c, after)
  {
    hide Synced, ChangeOf;
    var whole, out := Change(src, {}), Synced(v0.files, c.tar, c.del);
    if v' != v && !v'.stored.Torn? {
      if !emptied && v.stored == v0.stored && Partial(v0.files, v.files, c) {
        PartialThenFull(v0.files, v.files, c);
        if Partial(v.files, v'.files, c) { PartialChain(v0.files, v.files, v'.files, c); }
        WholeIsPartial(v0.files, c);
        WholeIsPartial(out, whole);
      } else if emptied && v.stored.Absent? {
        PartialThenFull(out, v.files, whole);
        if Partial(v.files, v'.files, whole) { PartialChain(out, v.files, v'.files, whole); }
        WholeIsPartial(out, whole);
      }
    }
  }

  lemma {:induction false} EmptiedSnoc(run: seq<Volume>)
    requires |run| > 1
    ensures Emptied(run) <==> Emptied(run[..|run| - 1]) || (!run[0].stored.Absent? && run[|run| - 1].stored.Absent?)
  {
    var front := run[..|run| - 1];
    assert forall i :: 0 <= i < |front| ==> front[i] == run[i];
    if i :| 0 <= i < |run| && run[i].stored.Absent? {
      if i < |front| { assert front[i].stored.Absent?; }
    }
  }

  lemma {:induction false} MidwayRun(run: seq<Volume>, src: Files, local: Index, planned: bool, c: Change)
    requires FailedRun(run, src, local, planned) && Reads(run[0], planned) && c == ChangeOf(src, local, RemoteOf(run[0].stored))
    requires !TouchesIndex(c) && (Emptied(run) ==> ChangeOf(src, local, EmptyIndex) == Change(src, {}) && Clear(src.Keys))
    ensures Midway(run[0], run[|run| - 1], src, local, c, Emptied(run))
  {
    hide Synced, ChangeOf, FailedAttempt, Emptied, Partial;
    if |run| == 1 {
      assert !Emptied(run) by { NotEmptied(run); }
      WholeIsPartial(run[0].files, c);
    } else {
      RunFront(run, src, local, planned);
      EmptiedSnoc(run);
      MidwayRun(run[..|run| - 1], src, local, planned, c);
      hide Midway;
      MidwayStep(run[0], run[|run| - 2], run[|run| - 1], src, local, planned, c, Emptied(run[..|run| - 1]), Emptied(run));
    }
  }

  lemma {:induction false} NotEmptied(run: seq<Volume>)
    requires |run| == 1
    ensures !Emptied(run)
  {
  }

  lemma {:induction false} UnchangedRun(run: seq<Volume>, src: Files, local: Index, planned: bool)
    requires FailedRun(run, src, local, planned)
    requires Seen(run[0], planned).Torn? || local.treeHash == RemoteOf(Seen(run[0], planned)).treeHash
    ensures run[|run| - 1] == run[0]
  {
    hide Synced, ChangeOf;
    if |run| > 1 {
      RunFront(run, src, local, planned);
      UnchangedRun(run[..|run| - 1], src, local, planned);
    }
  }

  /** A run of planned attempts on a volume without the label: always the same change, whatever the index file holds. */
  lemma {:induction false} BlindRun(run: seq<Volume>, src: Files, local: Index, planned: bool, c: Change)
    requires FailedRun(run, src, local, planned) && !Reads(run[0], planned) && c == ChangeOf(src, local, EmptyIndex)
    ensures var v := run[|run| - 1]; v.labelled == run[0].labelled && Partial(run[0].files, v.files, c)
  {
    hide Synced, ChangeOf;
    WholeIsPartial(run[0].files, c);
    if |run| > 1 {
      RunFront(run, src, local, planned);
      BlindRun(run[..|run| - 1], src, local, planned, c);
      var v, v' := run[|run| - 2], run[|run| - 1];
      WholeIsPartial(v.files, c);
      PartialChain(run[0].files, v.files, v'.files, c);
    }
  }

  /** On such a volume every retry ends like one uninterrupted attempt. */
  lemma {:induction false} BlindRetry(run: seq<Volume>, src: Files, local: Index, planned: bool)
    requires FailedRun(run, src, local, planned) && !Reads(run[0], planned)
    ensures !Reads(run[|run| - 1], planned) && Tried(run[|run| - 1], src, local, planned) == Tried(run[0], src, local, planned)
  {
    hide Synced, ChangeOf;
    var c := ChangeOf(src, local, EmptyIndex);
    BlindRun(run, src, local, planned, c);
    if local.treeHash == "" {
      UnchangedRun(run, src, local, planned);
    } else {
      PartialThenFull(run[0].files, run[|run| - 1].files, c);
    }
  }

  /**
   As long as the change does not touch the index file and no failed index write has emptied or
   torn it, it is still the old one or already the new one, and a later attempt comes to the
   same as one uninterrupted attempt. Nothing else is assumed of volume, index or source.
   */
  lemma {:induction false} RetryWithOldIndex(run: seq<Volume>, src: Files, local: Index, planned: bool)
    requires FailedRun(run, src, local, planned) && Reads(run[0], planned) && !Emptied(run)
    requires !run[0].stored.Torn? && !run[|run| - 1].stored.Torn?
    requires !TouchesIndex(ChangeOf(src, local, RemoteOf(run[0].stored)))
    ensures run[|run| - 1].stored in {run[0].stored, Written(local)}
    ensures Tried(run[0], src, local, planned).Left? ==> Tried(run[|run| - 1], src, local, planned) == Tried(run[0], src, local, planned)
  {
    hide Synced, ChangeOf, Emptied, TouchesIndex, Blocked;
    var v0, v := run[0], run[|run| - 1];
    if local.treeHash == RemoteOf(v0.stored).treeHash {
      UnchangedRun(run, src, local, planned);
    } else {
      var c := ChangeOf(src, local, RemoteOf(v0.stored));
      MidwayRun(run, src, local, planned, c);
      if v.stored == v0.stored && Partial(v0.files, v.files, c) { PartialThenFull(v0.files, v.files, c); }
    }
  }

  /** After an emptied index the whole source is extracted over what the removal left. */
  lemma {:induction false} RetryAfterEmptied(h: string -> string, run: seq<Volume>, src: Files, local: Index, planned: bool)
    requires FailedRun(run, src, local, planned) && Reads(run[0], planned) && Emptied(run)
    requires !run[0].stored.Torn? && !run[|run| - 1].stored.Torn?
    requires Digests(h) && IsLocal(h, local, src) && PrefixFree(src.Keys) && Clear(src.Keys)
    requires !TouchesIndex(ChangeOf(src, local, RemoteOf(run[0].stored)))
    ensures local.treeHash != RemoteOf(run[0].stored).treeHash
    ensures var c := ChangeOf(src, local, RemoteOf(run[0].stored));
            var out := Synced(run[0].files, c.tar, c.del);
            && (Tried(run[0], src, local, planned).Left? ==>
                  Tried(run[0], src, local, planned) == Left(Volume(run[0].labelled, out, Written(local))))
            && (Tried(run[|run| - 1], src, local, planned).Left? ==>
                  Tried(run[|run| - 1], src, local, planned) == Left(Volume(run[0].labelled, Synced(out, src, {}), Written(local))))
            && (Tried(run[|run| - 1], src, local, planned).Unwritable? ==> Blocked(Synced(out, src, {})))
            && (Tried(run[0], src, local, planned).Left? ==> !Blocked(out))
  {
    hide Synced, ChangeOf, IsLocal, PrefixFree, Emptied, Digests, TouchesIndex, Blocked, Clear;
    var v0, v := run[0], run[|run| - 1];
    var c, whole := ChangeOf(src, local, RemoteOf(v0.stored)), Change(src, {});
    var out := Synced(v0.files, c.tar, c.del);
    EmptiedChange(h, src, local);
    if local.treeHash == RemoteOf(v0.stored).treeHash { EmptiedChanges(run, src, local, planned); }
    MidwayRun(run, src, local, planned, c);
    if v.stored.Absent? { PartialThenFull(out, v.files, whole); }
  }

  lemma {:induction false} EmptiedChanges(run: seq<Volume>, src: Files, local: Index, planned: bool)
    requires FailedRun(run, src, local, planned) && Reads(run[0], planned) && Emptied(run)
    ensures local.treeHash != RemoteOf(run[0].stored).treeHash
  {
    hide FailedAttempt;
    if local.treeHash == RemoteOf(run[0].stored).treeHash && |run| > 1 {
      RunFront(run, src, local, planned);
      EmptiedSnoc(run);
      if Emptied(run[..|run| - 1]) { EmptiedChanges(run[..|run| - 1], src, local, planned); }
      UnchangedRun(run, src, local, planned);
    }
  }

  /** Neither the source nor the old index names the index file or a path below it. */
  ghost predicate NoneReserved(remote: Index, src: Files) { Clear(src.Keys) && INDEX !in Paths(remote.files) }

  lemma {:induction false} ReservedOnly(h: string -> string, files: Files, remote: Index, src: Files, local: Index)
    requires Premises(h, files, remote, src, local) && NoneReserved(remote, src)
    ensures !TouchesIndex(ChangeOf(src, local, remote))
  {
    hide ChangeOf;
    ChangeExact(h, files, remote, src, local);
  }

  lemma {:induction false} ClearKeepsRoom(files: Files, src: Files)
    requires Clear(src.Keys) && !Blocked(files)
    ensures !Blocked(Synced(files, src, {}))
  {
    hide Synced;
    forall p | BelowIndex(p) ensures p !in Synced(files, src, {}) { SyncedAt(files, src, {}, p); }
  }

  /**
   Any number of failed attempts, each stopped anywhere, then one that succeeds, ends in the
   volume of one uninterrupted attempt if and only if the index is not read anyway, or no failed
   write has emptied it, or no file of the old index has become a directory of the source. It is
   assumed that no path has the index file's name: `IndexNameBreaksRetry` shows why.
   */
  lemma {:induction false} RetryExactly(h: string -> string, run: seq<Volume>, src: Files, local: Index, planned: bool)
    requires FailedRun(run, src, local, planned)
    requires Tried(run[0], src, local, planned).Left? && !Tried(run[|run| - 1], src, local, planned).Unparsed?
    requires Reads(run[0], planned) ==> Premises(h, run[0].files, RemoteOf(run[0].stored), src, local) && NoneReserved(RemoteOf(run[0].stored), src)
    ensures Tried(run[|run| - 1], src, local, planned) == Tried(run[0], src, local, planned) <==>
            !Reads(run[0], planned) || !Emptied(run) || NoFileBecameDir(RemoteOf(run[0].stored), src)
  {
    hide Synced, ChangeOf, Premises, NoFileBecameDir, Emptied, FailedAttempt, Partial, Blocked, Clear, TouchesIndex;
    if !Reads(run[0], planned) {
      BlindRetry(run, src, local, planned);
    } else {
      LabelKept(run, src, local, planned);
      var remote := RemoteOf(run[0].stored);
      ReservedOnly(h, run[0].files, remote, src, local);
      if !Emptied(run) {
        RetryWithOldIndex(run, src, local, planned);
      } else {
        var c := ChangeOf(src, local, remote);
        var out := Synced(run[0].files, c.tar, c.del);
        PremisesLocal(h, run[0].files, remote, src, local);
        RetryAfterEmptied(h, run, src, local, planned);
        ClearKeepsRoom(out, src);
        SyncFate(h, run[0].files, remote, src, local);
        FilesInPlace(h, run[0].files, remote, src, local);
        if NoFileBecameDir(remote, src) { ReExtract(run[0].files, remote, src, out); }
        AllExtracted(out, src);
      }
    }
  }

  lemma {:induction false} AllExtracted(files: Files, src: Files)
    requires Clear(src.Keys)
    ensures InPlace(src, Synced(files, src, {}))  && INDEX !in src
  {
    hide Synced;
    forall p | p in src ensures p in Synced(files, src, {}) && Synced(files, src, {})[p] == src[p] { SyncedAt(files, src, {}, p); }
  }

  lemma {:induction false} LabelKept(run: seq<Volume>, src: Files, local: Index, planned: bool)
    requires FailedRun(run, src, local, planned)
    ensures run[|run| - 1].labelled == run[0].labelled
  {
    hide Synced, ChangeOf, Partial;
    if |run| > 1 {
      RunFront(run, src, local, planned);
      LabelKept(run[..|run| - 1], src, local, planned);
    }
  }

  lemma {:induction false} PremisesLocal(h: string -> string, files: Files, remote: Index, src: Files, local: Index)
    requires Premises(h, files, remote, src, local)
    ensures Digests(h) && IsLocal(h, local, src) && PrefixFree(src.Keys)
  {
  }

  /**
   Once an index write has torn the index file, no attempt, however it ends, gets past it if and
   only if attempts read the file: the volume is labelled or no plan is used. Otherwise an attempt
   that succeeds writes the index anew.
   */
  lemma {:induction false} TornIsFinal(run: seq<Volume>, src: Files, local: Index, planned: bool)
    requires FailedRun(run, src, local, planned) && run[0].stored.Torn? && local.treeHash != ""
    ensures Tried(run[|run| - 1], src, local, planned).Unparsed? <==> Reads(run[0], planned)
    ensures Reads(run[0], planned) ==> run[|run| - 1] == run[0]
    ensures Tried(run[|run| - 1], src, local, planned).Left? ==> Tried(run[|run| - 1], src, local, planned).v.stored == Written(local)
  {
    hide Synced, ChangeOf, FailedAttempt;
    if Reads(run[0], planned) {
      UnchangedRun(run, src, local, planned);
    } else {
      LabelKept(run, src, local, planned);
    }
  }

  // -------------------------------------------------------------- one and many

  lemma {:induction false} RoomAfter(h: string -> string, files: Files, remote: Index, src: Files, local: Index)
    requires Premises(h, files, remote, src, local) && NoFileBecameDir(remote, src) && INDEX !in src
    ensures var c := ChangeOf(src, local, remote); Blocked(Synced(files, c.tar, c.del)) <==> Blocked(src) || Blocked(files)
  {
    hide Synced, ChangeOf;
    var c := ChangeOf(src, local, remote);
    var out := Synced(files, c.tar, c.del);
    SyncFate(h, files, remote, src, local);
    if p :| p in src && BelowIndex(p) { assert Fate(files, remote, src, out, p); }
    if Blocked(files) && !Blocked(src) {
      var p :| p in files && BelowIndex(p);
      assert Fate(files, remote, src, out, p);
      NothingClashes(src, p);
    }
    if p :| p in out && BelowIndex(p) { assert Fate(files, remote, src, out, p); }
  }

  lemma {:induction false} NothingClashes(src: Files, p: string)
    requires !Blocked(src) && INDEX !in src && BelowIndex(p)
    ensures p !in src && !ClashesWith(p, src.Keys)
  {
    forall q | q in src ensures !Clash(p, q) {
      if q + "/" <= p { NoSlashIn(q, p); }
    }
  }

  /** A proper ancestor of a path below the index file's name is that name or lies below it. */
  lemma {:induction false} NoSlashIn(q: string, p: string)
    requires BelowIndex(p) && q + "/" <= p
    ensures q == INDEX || BelowIndex(q)
  {
    assert INDEX == p[..|INDEX|] && p[|INDEX|] == '/' && q == p[..|q|] && p[|q|] == '/';
    assert forall i :: 0 <= i < |INDEX| ==> INDEX[i] == p[i] && INDEX[i] != '/';
    if |q| > |INDEX| {
      assert q[..|INDEX| + 1] == INDEX + "/";
    }
  }

  /**
   An attempt without a failing call succeeds and leaves every source file in place if and only
   if no file of the old index has become a directory, no source path is the index file's or lies
   below it, and the volume holds no directory of that name.
   */
  lemma {:induction false} SyncExactly(h: string -> string, v: Volume, src: Files, local: Index, planned: bool)
    requires !Seen(v, planned).Torn? && Premises(h, v.files, RemoteOf(Seen(v, planned)), src, local)
    ensures Tried(v, src, local, planned).Left? && InPlace(src, Tried(v, src, local, planned).v.files) <==>
            NoFileBecameDir(RemoteOf(Seen(v, planned)), src) && Clear(src.Keys) && !Blocked(v.files)
  {
    hide Synced, ChangeOf;
    var remote := RemoteOf(Seen(v, planned));
    ClearIs(src);
    if local.treeHash == remote.treeHash {
      SkipIsExact(h, v.files, remote, src, local);
      UnchangedSource(h, v.files, remote, src, local);
    } else {
      FilesInPlace(h, v.files, remote, src, local);
      if NoFileBecameDir(remote, src) && INDEX !in src { RoomAfter(h, v.files, remote, src, local); }
    }
  }

  lemma {:induction false} ClearIs(src: Files)
    ensures Clear(src.Keys) <==> INDEX !in src && !Blocked(src)
  {
  }

  /** Where the old index is the source's own, none of the three conditions can fail. */
  lemma {:induction false} UnchangedSource(h: string -> string, files: Files, remote: Index, src: Files, local: Index)
    requires Premises(h, files, remote, src, local) && remote == local && InPlace(src, files)
    ensures NoFileBecameDir(remote, src) && INDEX !in src && !Blocked(src) && !Blocked(files)
  {
    LocalPaths(h, local, src);
  }

  /** What a synchronisation that meets those conditions leaves is what the next one assumes. */
  ghost predicate Kept(h: string -> string, v: Volume, src: Files, local: Index) {
    && v.stored == Written(local) && InPlace(src, v.files)
    && PrefixFree(v.files.Keys) && Agrees(h, v.files, local) && Beside(v.files, local) && !Blocked(v.files)
  }

  lemma {:induction false} SyncReestablishes(h: string -> string, v: Volume, src: Files, local: Index, planned: bool)
    requires Reads(v, planned) && !v.stored.Torn? && Premises(h, v.files, RemoteOf(v.stored), src, local)
    requires NoFileBecameDir(RemoteOf(v.stored), src) && Clear(src.Keys) && !Blocked(v.files)
    ensures var t := Tried(v, src, local, planned);
            && t.Left? && t.v.labelled == v.labelled && Kept(h, t.v, src, local)
            && (forall p :: Fate(v.files, RemoteOf(v.stored), src, t.v.files, p))
  {
    hide Synced, ChangeOf, Clear, Blocked, Fate, NoFileBecameDir, PrefixFree, IsLocal, IsBuilt, Digests, Agrees;
    var remote, t := RemoteOf(v.stored), Tried(v, src, local, planned);
    SyncExactly(h, v, src, local, planned);
    PremisesLocal(h, v.files, remote, src, local);
    NothingStored(h, src, local);
    if local.treeHash == remote.treeHash {
      SkipIsExact(h, v.files, remote, src, local);
      SkipFate(h, v.files, remote, src, local);
    } else {
      SyncFate(h, v.files, remote, src, local);
    }
    AgreesAfter(h, v.files, remote, src, local, t.v.files);
  }

  lemma {:induction false} SkipFate(h: string -> string, files: Files, remote: Index, src: Files, local: Index)
    requires Premises(h, files, remote, src, local) && local.treeHash == remote.treeHash && remote == local && InPlace(src, files)
    requires NoFileBecameDir(remote, src) && Clear(src.Keys)
    ensures forall p :: Fate(files, remote, src, files, p)
  {
    LocalPaths(h, local, src);
  }

  lemma {:induction false} AgreesAfter(h: string -> string, files: Files, remote: Index, src: Files, local: Index, out: Files)
    requires Premises(h, files, remote, src, local) && (forall p :: Fate(files, remote, src, out, p)) && InPlace(src, out)
    ensures PrefixFree(out.Keys) && Agrees(h, out, local) && INDEX !in out
  {
    forall p, q | p in out && q in out ensures !(p + "/" <= q) {
      assert Fate(files, remote, src, out, p) && Fate(files, remote, src, out, q);
    }
    forall e | e in local.files ensures e.path in out && e == EntryOf(h, e.path, out[e.path]) { assert e.path in src; }
    assert Fate(files, remote, src, out, INDEX);
  }

  // ---------------------------------------------------------------- witnesses

  /** A source with a file of the index file's name: the index takes its place. */
  lemma {:induction false} IndexNameOverwritten(h: string -> string, v: Volume, src: Files, local: Index)
    requires Digests(h) && v == Volume(true, map["x" := "y"], Absent) && src == map[".dockform-index.json" := "mine"] && IsLocal(h, local, src)
    ensures Premises(h, v.files, RemoteOf(v.stored), src, local)
    ensures !(Tried(v, src, local, true).Left? && InPlace(src, Tried(v, src, local, true).v.files))
  {
    hide Tried, InPlace;
    assert INDEX != "x";
    SyncExactly(h, v, src, local, true);
  }

  /** The same with the extraction cut short: the source's file is what the next attempt reads as the index. */
  lemma {:induction false} IndexNameBreaksRetry(h: string -> string, v: Volume, src: Files, local: Index)
    requires Digests(h) && v == Volume(true, map["x" := "y"], Absent) && src == map[".dockform-index.json" := "mine"] && IsLocal(h, local, src)
    ensures var run := [v, v.(stored := Torn)];
            FailedRun(run, src, local, true) && Tried(run[0], src, local, true).Left? && Tried(run[1], src, local, true).Unparsed?
  {
    hide Synced, ChangeOf, IsLocal;
    assert src.Keys == {INDEX};
    OneFile(INDEX, "mine");
    EmptiedChange(h, src, local);
    WholeIsPartial(v.files, Change(src, {}));
    NoneBelow(v.files, src);
  }

  lemma {:induction false} OneFile(p: string, c: string)
    ensures PrefixFree(map[p := c].Keys)
  {
    assert |p + "/"| > |p|;
  }

  lemma {:induction false} NoneBelow(files: Files, src: Files)
    requires files == map["x" := "y"] && src == map[INDEX := "mine"]
    ensures !Blocked(Synced(files, src, {}))
  {
    hide Synced;
    forall p | BelowIndex(p) ensures p !in Synced(files, src, {}) {
      SyncedAt(files, src, {}, p);
      assert |p| > |INDEX| > |"x"|;
    }
  }

  /** A file that became a directory, and an index emptied by a failed write: the retry puts in place what an uninterrupted attempt loses. */
  lemma {:induction false} EmptiedRetryDiffers(h: string -> string, was: Files, prev: Index, src: Files, local: Index)
    requires Digests(h) && was == map["a" := "x"] && src == map["a/b" := "y"] && IsLocal(h, prev, was) && IsLocal(h, local, src)
    ensures var c := ChangeOf(src, local, prev);
            var v := Volume(true, was, Written(prev));
            var run := [v, Volume(true, Synced(was, c.tar, c.del), Absent)];
            && FailedRun(run, src, local, true) && Tried(v, src, local, true).Left?
            && Tried(run[1], src, local, true) != Tried(v, src, local, true)
  {
    var c, v := ChangeOf(src, local, prev), Volume(true, was, Written(prev));
    var out := Synced(was, c.tar, c.del);
    var run := [v, Volume(true, out, Absent)];
    hide Synced, ChangeOf, IsLocal, IsBuilt, Digests, Premises, Fate, NoFileBecameDir, Partial;
    FileBecomesDir(h, was, prev, src, local);
    DifferentTrees(h, was, prev, src, local);
    SyncFate(h, was, prev, src, local);
    SmallVolume(was, prev, src, out);
    assert FailedAttempt(run[0], run[1], src, local, true);
    LocalPaths(h, prev, was);
    assert Emptied(run) by { assert run[1].stored.Absent?; }
    assert "a" in Paths(prev.files) && "a" + "/" == "a/" <= "a/b" && !Blank("a") by { assert "a"[0] == 'a'; }
    assert !NoFileBecameDir(prev, src) by { BecameDir(prev, src); }
    ShortPaths(prev, src);
    RetryExactly(h, run, src, local, true);
  }

  lemma {:induction false} DifferentTrees(h: string -> string, was: Files, prev: Index, src: Files, local: Index)
    requires Digests(h) && was == map["a" := "x"] && src == map["a/b" := "y"] && IsLocal(h, prev, was) && IsLocal(h, local, src)
    ensures local.treeHash != prev.treeHash
  {
    TreeHashDecides(h, local, prev);
    LocalPaths(h, prev, was);
    LocalPaths(h, local, src);
    assert "a" in was && "a" !in src;
  }

  lemma {:induction false} SmallVolume(was: Files, prev: Index, src: Files, out: Files)
    requires was == map["a" := "x"] && src == map["a/b" := "y"] && forall p :: Fate(was, prev, src, out, p)
    ensures !Blocked(out)
  {
    forall p | BelowIndex(p) ensures p !in out {
      assert Fate(was, prev, src, out, p);
      assert |p| > |INDEX| > |"a/b"|;
    }
  }

  lemma {:induction false} BecameDir(prev: Index, src: Files)
    requires "a" in Paths(prev.files) && "a/b" in src && "a" + "/" <= "a/b" && !Blank("a")
    ensures !NoFileBecameDir(prev, src)
  {
  }

  lemma {:induction false} ShortPaths(prev: Index, src: Files)
    requires Paths(prev.files) == {"a"} && src == map["a/b" := "y"]
    ensures NoneReserved(prev, src)
  {
    assert |INDEX| > |"a/b"|;
  }
}
