/**
 The index of a fileset (internal/filesets/index.go): one entry per regular file, a
 tree hash over all entries, and the difference of two indexes.

 SHA-256 is a parameter `h`. Where a statement needs it, `h` is taken to be collision
 free and to yield non-empty text without a line break (it is hex).
 */
module FilesetIndex {
  import opened Text

  const NUL := '\0'

  datatype FileEntry = FileEntry(path: string, size: nat, sha: string)

  datatype Index = Index(files: seq<FileEntry>, treeHash: string)

  datatype Diff = Diff(toCreate: seq<FileEntry>, toUpdate: seq<FileEntry>, toDelete: seq<string>)

  const NoChange := Diff([], [], [])

  /** What an absent or empty index file parses to. */
  const EmptyIndex := Index([], "")

  function PathOf(e: FileEntry): string { e.path }

  function Paths(files: seq<FileEntry>): set<string> { set e | e in files :: e.path }

  ghost predicate CollisionFree(h: string -> string) {
    forall x, y :: h(x) == h(y) ==> x == y
  }

  ghost predicate Digests(h: string -> string) {
    && CollisionFree(h)
    && forall x :: h(x) != "" && '\n' !in h(x)
  }

  // ---------------------------------------------------------------- tree hash

  function Record(e: FileEntry): string {
    e.path + [NUL] + Decimal(e.size) + [NUL] + e.sha + ['\n']
  }

  /** The text that is hashed into the tree hash. */
  function Preimage(files: seq<FileEntry>): string {
    if files == [] then "" else Record(files[0]) + Preimage(files[1..])
  }

  /** What the file system and the hash guarantee of an entry. A path may hold a line break. */
  predicate Storable(e: FileEntry) { e.path != "" && NUL !in e.path && '\n' !in e.sha }

  ghost predicate AllStorable(files: seq<FileEntry>) { forall e :: e in files ==> Storable(e) }

  ghost predicate PathSorted(files: seq<FileEntry>) {
    forall i, j :: 0 <= i < j < |files| ==> Less(files[i].path, files[j].path)
  }

  lemma {:induction false} RecordCut(a: FileEntry, u: string, b: FileEntry, v: string)
    requires Storable(a) && Storable(b)
    requires Record(a) + u == Record(b) + v
    ensures a == b && u == v
  {
    var a1, b1 := Decimal(a.size) + [NUL] + a.sha + ['\n'] + u, Decimal(b.size) + [NUL] + b.sha + ['\n'] + v;
    assert Record(a) + u == a.path + [NUL] + a1 && Record(b) + v == b.path + [NUL] + b1;
    CutUnique(NUL, a.path, a1, b.path, b1);
    var a2, b2 := a.sha + ['\n'] + u, b.sha + ['\n'] + v;
    assert a1 == Decimal(a.size) + [NUL] + a2 && b1 == Decimal(b.size) + [NUL] + b2;
    CutUnique(NUL, Decimal(a.size), a2, Decimal(b.size), b2);
    DecimalInjective(a.size, b.size);
    CutUnique('\n', a.sha, u, b.sha, v);
  }

  /** The hashed text of two entries, spelled out. */
  lemma {:induction false} PreimageText()
    ensures Preimage([FileEntry("a/b", 1207, "x"), FileEntry("c", 0, "y")]) ==
            "a/b" + [NUL] + "1207" + [NUL] + "x" + "\n" + "c" + [NUL] + "0" + [NUL] + "y" + "\n"
  {
    var a, b := FileEntry("a/b", 1207, "x"), FileEntry("c", 0, "y");
    assert [a, b][1..] == [b] && [b][1..] == [];
    assert Decimal(1) == "1" && Decimal(12) == "12" && Decimal(120) == "120" && Decimal(1207) == "1207" && Decimal(0) == "0";
    assert Preimage([b]) == Record(b);
  }

  /** The hashed text determines the entries: no two lists of entries share it. */
  lemma {:induction false} PreimageInjective(a: seq<FileEntry>, b: seq<FileEntry>)
    requires AllStorable(a) && AllStorable(b)
    requires Preimage(a) == Preimage(b)
    ensures a == b
  {
    if a != [] && b != [] {
      RecordCut(a[0], Preimage(a[1..]), b[0], Preimage(b[1..]));
      PreimageInjective(a[1..], b[1..]);
      assert a == [a[0]] + a[1..] && b == [b[0]] + b[1..];
    }
  }

  /** An index as `BuildLocalIndex` leaves it and `ToJSON`/`ParseIndexJSON` carry it. */
  ghost predicate IsBuilt(h: string -> string, i: Index) {
    && PathSorted(i.files)
    && AllStorable(i.files)
    && i.treeHash == h(Preimage(i.files))
  }

  /** Equal tree hashes mean equal entries, and never a missing index. */
  lemma {:induction false} TreeHashDecides(h: string -> string, a: Index, b: Index)
    requires Digests(h) && IsBuilt(h, a) && (IsBuilt(h, b) || b == EmptyIndex)
    ensures a.treeHash == b.treeHash <==> a == b
  {
    if a.treeHash == b.treeHash && IsBuilt(h, b) {
      PreimageInjective(a.files, b.files);
    }
  }

  // -------------------------------------------------------------- local index

  function EntryOf(h: string -> string, path: string, content: string): FileEntry {
    FileEntry(path, |content|, h(content))
  }

  function EntriesOf(h: string -> string, src: map<string, string>, keys: seq<string>): (r: seq<FileEntry>)
    requires forall k :: k in keys ==> k in src
    ensures |r| == |keys| && forall i :: 0 <= i < |keys| ==> r[i] == EntryOf(h, keys[i], src[keys[i]])
  {
    if keys == [] then [] else [EntryOf(h, keys[0], src[keys[0]])] + EntriesOf(h, src, keys[1..])
  }

  /** The index of a source whose visible files are `src`. */
  ghost function LocalIndex(h: string -> string, src: map<string, string>): Index {
    var keys := SortedKeys(src.Keys);
    assert forall k :: k in keys ==> k in Elements(keys);
    var files := EntriesOf(h, src, keys);
    Index(files, h(Preimage(files)))
  }

  /** No path lies below another one, as is true of the files of one directory tree. */
  ghost predicate PrefixFree(paths: set<string>) {
    forall p, q :: p in paths && q in paths ==> !(p + "/" <= q)
  }

  /** Paths as file systems have them. */
  ghost predicate RealPaths(src: map<string, string>) { forall p :: p in src ==> p != "" && NUL !in p }

  lemma {:induction false} LocalIndexHas(h: string -> string, src: map<string, string>, p: string)
    requires p in src
    ensures EntryOf(h, p, src[p]) in LocalIndex(h, src).files
  {
    var keys, files := SortedKeys(src.Keys), LocalIndex(h, src).files;
    assert p in Elements(keys);
    var i :| 0 <= i < |keys| && keys[i] == p;
    assert files[i] == EntryOf(h, p, src[p]);
  }

  lemma {:induction false} LocalIndexOnly(h: string -> string, src: map<string, string>, e: FileEntry)
    requires e in LocalIndex(h, src).files
    ensures e.path in src && e == EntryOf(h, e.path, src[e.path])
  {
    var keys, files := SortedKeys(src.Keys), LocalIndex(h, src).files;
    var i :| 0 <= i < |files| && files[i] == e;
    assert keys[i] in Elements(keys);
  }

  /** The local index lists every source file once, in path order. */
  lemma {:induction false} LocalIndexEntries(h: string -> string, src: map<string, string>)
    ensures forall e :: e in LocalIndex(h, src).files <==> e.path in src && e == EntryOf(h, e.path, src[e.path])
    ensures Paths(LocalIndex(h, src).files) == src.Keys
    ensures PathSorted(LocalIndex(h, src).files)
  {
    var files := LocalIndex(h, src).files;
    forall e ensures e in files <==> e.path in src && e == EntryOf(h, e.path, src[e.path]) {
      if e in files { LocalIndexOnly(h, src, e); }
      if e.path in src { LocalIndexHas(h, src, e.path); }
    }
    forall p | p in src ensures p in Paths(files) {
      LocalIndexHas(h, src, p);
      assert EntryOf(h, p, src[p]).path == p;
    }
  }

  /** `local` is the index of the files `src`: one entry per file, and built. */
  ghost predicate IsLocal(h: string -> string, local: Index, src: map<string, string>) {
    && IsBuilt(h, local)
    && (forall e :: e in local.files <==> e.path in src && e == EntryOf(h, e.path, src[e.path]))
  }

  lemma {:induction false} LocalIndexIsLocal(h: string -> string, src: map<string, string>)
    requires Digests(h) && RealPaths(src)
    ensures IsLocal(h, LocalIndex(h, src), src)
  {
    LocalIndexEntries(h, src);
  }

  /** What such an index holds: for every file, and for nothing else, its path, its size and the digest of its content, in path order. */
  lemma {:induction false} LocalIndexSays(h: string -> string, local: Index, src: map<string, string>)
    requires IsLocal(h, local, src)
    ensures forall e :: e in local.files <==> e.path in src && e.size == |src[e.path]| && e.sha == h(src[e.path])
    ensures forall i, j :: 0 <= i < j < |local.files| ==> Less(local.files[i].path, local.files[j].path)
    ensures local.treeHash == h(Preimage(local.files))
  {
  }

  lemma {:induction false} IsLocalHas(h: string -> string, local: Index, src: map<string, string>, p: string)
    requires IsLocal(h, local, src) && p in src
    ensures EntryOf(h, p, src[p]) in local.files
  {
    assert EntryOf(h, p, src[p]).path == p;
  }

  lemma {:induction false} LocalPaths(h: string -> string, local: Index, src: map<string, string>)
    requires IsLocal(h, local, src)
    ensures Paths(local.files) == src.Keys
  {
    forall p | p in src ensures p in Paths(local.files) { IsLocalHas(h, local, src, p); }
  }

  // --------------------------------------------------------------- difference

  /** Entries by path; the last entry of a path wins. */
  function ByPath(files: seq<FileEntry>): map<string, FileEntry> {
    if files == [] then map[]
    else ByPath(files[..|files| - 1])[files[|files| - 1].path := files[|files| - 1]]
  }

  function Created(local: seq<FileEntry>, remote: map<string, FileEntry>): seq<FileEntry> {
    if local == [] then [] else
      Created(local[..|local| - 1], remote) +
      var e := local[|local| - 1]; if e.path !in remote then [e] else []
  }

  function Changed(local: seq<FileEntry>, remote: map<string, FileEntry>): seq<FileEntry> {
    if local == [] then [] else
      Changed(local[..|local| - 1], remote) +
      var e := local[|local| - 1];
      if e.path in remote && (remote[e.path].sha != e.sha || remote[e.path].size != e.size) then [e] else []
  }

  function Gone(remote: seq<FileEntry>, local: map<string, FileEntry>): seq<string> {
    if remote == [] then [] else
      Gone(remote[..|remote| - 1], local) +
      var e := remote[|remote| - 1]; if e.path !in local then [e.path] else []
  }

  /** The entry-by-entry comparison. */
  function FullDiff(local: Index, remote: Index): Diff {
    var l, r := ByPath(local.files), ByPath(remote.files);
    Diff(Sort(PathOf, Created(local.files, r)), Sort(PathOf, Changed(local.files, r)), Sort(Id, Gone(remote.files, l)))
  }

  /** The comparison with its tree-hash shortcut. */
  function DiffOf(local: Index, remote: Index): Diff {
    if local.treeHash != "" && local.treeHash == remote.treeHash then NoChange else FullDiff(local, remote)
  }

  method DiffIndexes(local: Index, remote: Index) returns (d: Diff)
    ensures d == DiffOf(local, remote)
    ensures local.treeHash != "" && local.treeHash == remote.treeHash ==> d.toCreate == [] && d.toUpdate == [] && d.toDelete == []
  {
    if local.treeHash != "" && local.treeHash == remote.treeHash {
      return NoChange;
    }
    var rIndex: map<string, FileEntry> := map[];
    for i := 0 to |remote.files|
      invariant rIndex == ByPath(remote.files[..i])
    {
      rIndex := rIndex[remote.files[i].path := remote.files[i]];
      assert remote.files[..i + 1][..i] == remote.files[..i];
    }
    assert remote.files[..|remote.files|] == remote.files;
    var lIndex: map<string, FileEntry> := map[];
    for i := 0 to |local.files|
      invariant lIndex == ByPath(local.files[..i])
    {
      lIndex := lIndex[local.files[i].path := local.files[i]];
      assert local.files[..i + 1][..i] == local.files[..i];
    }
    assert local.files[..|local.files|] == local.files;
    var create, update, delete := [], [], [];
    for i := 0 to |local.files|
      invariant create == Created(local.files[..i], rIndex)
      invariant update == Changed(local.files[..i], rIndex)
    {
      var lf := local.files[i];
      assert local.files[..i + 1][..i] == local.files[..i];
      if lf.path !in rIndex {
        create := create + [lf];
      } else if rIndex[lf.path].sha != lf.sha || rIndex[lf.path].size != lf.size {
        update := update + [lf];
      }
    }
    for i := 0 to |remote.files|
      invariant delete == Gone(remote.files[..i], lIndex)
    {
      assert remote.files[..i + 1][..i] == remote.files[..i];
      if remote.files[i].path !in lIndex {
        delete := delete + [remote.files[i].path];
      }
    }
    d := Diff(Sort(PathOf, create), Sort(PathOf, update), Sort(Id, delete));
  }

  lemma {:induction false} ByPathKeys(files: seq<FileEntry>)
    ensures ByPath(files).Keys == Paths(files)
    ensures forall p :: p in ByPath(files) ==> ByPath(files)[p] in files && ByPath(files)[p].path == p
  {
    if files != [] {
      var front, last := files[..|files| - 1], files[|files| - 1];
      assert files == front + [last];
      ByPathKeys(front);
      assert Paths(files) == Paths(front) + {last.path};
    }
  }

  /** Of several entries for a path the last one counts. */
  lemma {:induction false} ByPathLast(files: seq<FileEntry>, i: nat)
    requires i < |files| && forall j :: i < j < |files| ==> files[j].path != files[i].path
    ensures files[i].path in ByPath(files) && ByPath(files)[files[i].path] == files[i]
  {
    if i < |files| - 1 { ByPathLast(files[..|files| - 1], i); }
  }

  lemma {:induction false} CreatedElements(local: seq<FileEntry>, remote: map<string, FileEntry>)
    requires PathSorted(local)
    ensures forall e :: e in Created(local, remote) <==> e in local && e.path !in remote
    ensures PathSorted(Created(local, remote))
  {
    if local != [] {
      var front, last := local[..|local| - 1], local[|local| - 1];
      assert local == front + [last];
      CreatedElements(front, remote);
      assert forall e :: e in front ==> Less(e.path, last.path);
    }
  }

  lemma {:induction false} ChangedElements(local: seq<FileEntry>, remote: map<string, FileEntry>)
    requires PathSorted(local)
    requires forall p :: p in remote ==> remote[p].path == p
    ensures forall e :: e in Changed(local, remote) <==> e in local && e.path in remote && remote[e.path] != e
    ensures PathSorted(Changed(local, remote))
  {
    if local != [] {
      var front, last := local[..|local| - 1], local[|local| - 1];
      assert local == front + [last];
      ChangedElements(front, remote);
      assert forall e :: e in front ==> Less(e.path, last.path);
    }
  }

  lemma {:induction false} GoneElements(remote: seq<FileEntry>, local: map<string, FileEntry>)
    ensures Elements(Gone(remote, local)) == Paths(remote) - local.Keys
  {
    if remote != [] {
      var front, last := remote[..|remote| - 1], remote[|remote| - 1];
      assert remote == front + [last];
      GoneElements(front, local);
      assert Paths(remote) == Paths(front) + {last.path};
      var g := Gone(front, local);
      assert Elements(g + [last.path]) == Elements(g) + {last.path} && Elements(g + []) == Elements(g);
    }
  }

  lemma {:induction false} GoneSorted(remote: seq<FileEntry>, local: map<string, FileEntry>)
    requires PathSorted(remote)
    ensures StrictlySorted(Gone(remote, local))
  {
    if remote != [] {
      var front, last := remote[..|remote| - 1], remote[|remote| - 1];
      assert remote == front + [last];
      GoneSorted(front, local);
      GoneElements(front, local);
      forall p | p in Gone(front, local) ensures Less(p, last.path) {
        assert p in Elements(Gone(front, local));
        var e :| e in front && e.path == p;
      }
    }
  }

  /** The entry an index holds for a path is unique in a sorted index. */
  lemma {:induction false} SortedEntryUnique(files: seq<FileEntry>, a: FileEntry, b: FileEntry)
    requires PathSorted(files) && a in files && b in files && a.path == b.path
    ensures a == b
  {
    LessIrreflexive(a.path);
  }

  /** What a difference holds, exactly; a path is in at most one of its three lists. */
  ghost predicate DiffExact(d: Diff, local: Index, remote: Index) {
    && (forall e :: e in d.toCreate <==> e in local.files && e.path !in Paths(remote.files))
    && (forall e :: e in d.toUpdate <==> e in local.files && e.path in Paths(remote.files) && e !in remote.files)
    && Elements(d.toDelete) == Paths(remote.files) - Paths(local.files)
    && PathSorted(d.toCreate) && PathSorted(d.toUpdate) && StrictlySorted(d.toDelete)
  }

  lemma {:induction false} FullDiffIsExact(local: Index, remote: Index)
    requires PathSorted(local.files) && PathSorted(remote.files)
    ensures DiffExact(FullDiff(local, remote), local, remote)
  {
    var l, r := ByPath(local.files), ByPath(remote.files);
    ByPathKeys(local.files);
    ByPathKeys(remote.files);
    CreatedElements(local.files, r);
    ChangedElements(local.files, r);
    GoneElements(remote.files, l);
    GoneSorted(remote.files, l);
    SortOfSorted(PathOf, Created(local.files, r));
    SortOfSorted(PathOf, Changed(local.files, r));
    SortOfSorted(Id, Gone(remote.files, l));
    forall e | e in local.files && e.path in r ensures r[e.path] != e <==> e !in remote.files {
      if e in remote.files { SortedEntryUnique(remote.files, e, r[e.path]); }
    }
  }

  /** The difference with any remote index whatever: of repeated paths the last entry counts. */
  ghost predicate DiffAny(d: Diff, local: Index, remote: Index) {
    var r := ByPath(remote.files);
    && (forall e :: e in d.toCreate <==> e in local.files && e.path !in r)
    && (forall e :: e in d.toUpdate <==> e in local.files && e.path in r && r[e.path] != e)
    && Elements(d.toDelete) == r.Keys - Paths(local.files)
  }

  lemma {:induction false} FullDiffIsAny(local: Index, remote: Index)
    requires PathSorted(local.files)
    ensures DiffAny(FullDiff(local, remote), local, remote)
  {
    var l, r := ByPath(local.files), ByPath(remote.files);
    ByPathKeys(local.files);
    ByPathKeys(remote.files);
    CreatedElements(local.files, r);
    ChangedElements(local.files, r);
    GoneElements(remote.files, l);
    SortOfSorted(PathOf, Created(local.files, r));
    SortOfSorted(PathOf, Changed(local.files, r));
    SortElements(Id, Gone(remote.files, l));
  }

  /** Sorted entry lists with the same entries are the same list. */
  lemma {:induction false} PathSortedUnique(a: seq<FileEntry>, b: seq<FileEntry>)
    requires PathSorted(a) && PathSorted(b)
    requires forall e :: e in a <==> e in b
    ensures a == b
  {
    if a != [] && b != [] {
      assert a[0] in b && b[0] in a;
      if a[0] != b[0] {
        assert Less(b[0].path, a[0].path) && Less(a[0].path, b[0].path);
        LessTransitive(a[0].path, b[0].path, a[0].path);
        LessIrreflexive(a[0].path);
      }
      LessIrreflexive(a[0].path);
      forall e ensures e in a[1..] <==> e in b[1..] {
        assert e in a <==> e in b;
        assert a == [a[0]] + a[1..] && b == [b[0]] + b[1..];
        assert a[0] !in a[1..] && b[0] !in b[1..];
      }
      PathSortedUnique(a[1..], b[1..]);
      assert a == [a[0]] + a[1..] && b == [b[0]] + b[1..];
    } else {
      assert forall x :: x in a ==> x in b;
      NoElements(a);
      NoElements(b);
      assert Elements(a) == Elements(b);
    }
  }

  /**
   For built indexes the tree-hash shortcut changes nothing: the shortcut and the full
   comparison agree, and the difference is empty exactly when the entries are equal.
   */
  lemma {:induction false} ShortcutIsSound(h: string -> string, local: Index, remote: Index)
    requires Digests(h) && IsBuilt(h, local) && (IsBuilt(h, remote) || remote == EmptyIndex)
    ensures DiffOf(local, remote) == FullDiff(local, remote)
    ensures DiffExact(DiffOf(local, remote), local, remote)
    ensures DiffOf(local, remote) == NoChange <==> local.files == remote.files
  {
    TreeHashDecides(h, local, remote);
    FullDiffIsExact(local, remote);
    var d := FullDiff(local, remote);
    if local.files == remote.files {
      NoElements(d.toCreate);
      NoElements(d.toUpdate);
      NoElements(d.toDelete);
      assert forall e :: e in local.files ==> e.path in Paths(remote.files);
      assert Elements(d.toCreate) == {} && Elements(d.toUpdate) == {};
    } else if d == NoChange {
      forall e ensures e in local.files <==> e in remote.files {
        if e in local.files {
          assert e !in d.toCreate && e !in d.toUpdate;
        } else if e in remote.files {
          assert e.path in Paths(remote.files);
          assert Elements(d.toDelete) == {};
          assert e.path !in Paths(remote.files) - Paths(local.files);
          var e' :| e' in local.files && e'.path == e.path;
          assert e' !in d.toCreate && e' !in d.toUpdate;
          SortedEntryUnique(remote.files, e, e');
        }
      }
      PathSortedUnique(local.files, remote.files);
    }
  }
}
