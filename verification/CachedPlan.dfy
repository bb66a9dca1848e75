/**
 Applying with the findings of a plan does what applying without them does
 (internal/planner/apply.go:100-128, 158-179; internal/planner/apply_filesets.go:63-91).
 */
module CachedPlan {
  import opened Text
  import opened FilesetIndex
  import opened VolumeTree
  import opened DockerHost
  import opened FilesetSync
  import opened ServiceDetect
  import opened ContextState
  import opened Planning
  import opened Applying
  import opened Convergence
  import opened Faithful

  // ----------------------------------------------------------------- filesets

  /** Everything a cold fileset would stop is running. */
  ghost predicate ColdRunning(w: World, h: Host, filesets: map<string, Fileset>) {
    forall n, c :: n in filesets && c in ColdNames(w, h, filesets[n]) ==> c in h.containers && h.containers[c].running
  }

  lemma {:induction false} ColdNamesSame(w: World, h: Host, h': Host, fs: Fileset)
    requires h.containers == h'.containers
    ensures ColdNames(w, h, fs) == ColdNames(w, h', fs)
  {
    hide StopList;
    assert Managed(w, h) == Managed(w, h');
    var names := SortedKeys(Managed(w, h));
    forall i | 0 <= i < |names| ensures Listed(w, h)[i] == Listed(w, h')[i] { assert names[i] in Elements(names); }
    assert Listed(w, h) == Listed(w, h');
    assert AttachedServices(w, h, fs.volume) == AttachedServices(w, h', fs.volume);
  }

  lemma {:induction false} AlreadyRunning(cs: map<string, Container>, names: set<string>)
    requires forall n :: n in names ==> n in cs && cs[n].running
    ensures SetRunning(cs, names, true) == cs
  {
  }

  /** Stopping and starting what was running changes no container; other volumes are not touched. */
  lemma {:induction false} SyncOneLocal(w: World, h0: Host, h: Host, name: string, filesets: map<string, Fileset>, existing: set<string>,
                     cached: Option<map<string, FilesetData>>)
    requires name in filesets && ColdRunning(w, h0, filesets) && h.containers == h0.containers
    ensures var after := SyncOne(w, h, name, filesets[name], existing, cached).host;
            && after.containers == h0.containers
            && after.volumes.Keys == h.volumes.Keys
            && forall v :: v in h.volumes && v != filesets[name].volume ==> after.volumes[v] == h.volumes[v]
  {
    hide ColdNames, ChangeOf, HotServices, SyncCalls, Synced, SetRunning, Inputs;
    ColdNamesSame(w, h0, h, filesets[name]);
    AlreadyRunning(h.containers, Elements(ColdNames(w, h, filesets[name])));
  }

  /** What a plan in `h` remembers is what would be read in `h`. */
  ghost predicate ReadsSame(h: Host, filesets: map<string, Fileset>, existing: set<string>, data: map<string, FilesetData>) {
    forall n :: n in filesets ==> Inputs(h, n, filesets[n], existing, Some(data)) == Inputs(h, n, filesets[n], existing, None)
  }

  /** Containers as at the start, and the volumes of the filesets still to come too. */
  ghost predicate Ahead(h0: Host, h: Host, names: seq<string>, filesets: map<string, Fileset>) {
    && h.containers == h0.containers && h.volumes.Keys == h0.volumes.Keys
    && forall n :: n in filesets && n !in names && filesets[n].volume in h0.volumes ==>
         h.volumes[filesets[n].volume] == h0.volumes[filesets[n].volume]
  }

  lemma {:induction false} SyncOneSame(w: World, h0: Host, h: Host, name: string, filesets: map<string, Fileset>, existing: set<string>,
                    names: seq<string>, data: map<string, FilesetData>)
    requires name in filesets && name !in names && Ahead(h0, h, names, filesets) && ReadsSame(h0, filesets, existing, data)
    ensures SyncOne(w, h, name, filesets[name], existing, Some(data)) == SyncOne(w, h, name, filesets[name], existing, None)
  {
    hide HotServices, SyncedHost, SyncCalls;
    assert Inputs(h0, name, filesets[name], existing, Some(data)) == Inputs(h0, name, filesets[name], existing, None);
  }

  lemma {:induction false} AheadStep(w: World, h0: Host, h: Host, name: string, filesets: map<string, Fileset>, existing: set<string>,
                  names: seq<string>, cached: Option<map<string, FilesetData>>)
    requires name in filesets && DistinctVolumes(filesets) && ColdRunning(w, h0, filesets) && Ahead(h0, h, names, filesets)
    ensures Ahead(h0, SyncOne(w, h, name, filesets[name], existing, cached).host, names + [name], filesets)
  {
    hide SyncOne, ColdNames;
    SyncOneLocal(w, h0, h, name, filesets, existing, cached);
  }

  lemma {:induction false} SyncAllSame(w: World, h: Host, names: seq<string>, filesets: map<string, Fileset>, existing: set<string>,
                                       data: map<string, FilesetData>)
    requires (forall n :: n in names ==> n in filesets) && NoDup(names)
    requires DistinctVolumes(filesets) && ColdRunning(w, h, filesets) && ReadsSame(h, filesets, existing, data)
    ensures SyncAll(w, h, names, filesets, existing, Some(data)) == SyncAll(w, h, names, filesets, existing, None)
    ensures Ahead(h, SyncAll(w, h, names, filesets, existing, None).host, names, filesets)
  {
    hide SyncOne, ColdRunning, ReadsSame, DistinctVolumes;
    if names != [] {
      var front, last := names[..|names| - 1], names[|names| - 1];
      SyncAllSame(w, h, front, filesets, existing, data);
      var mid := SyncAll(w, h, front, filesets, existing, None).host;
      SyncOneSame(w, h, mid, last, filesets, existing, front, data);
      AheadStep(w, h, mid, last, filesets, existing, front, None);
      assert front + [last] == names;
    }
  }

  // ------------------------------------------------------------------- stacks

  /** The plan was made in a state where these stacks were as they are now. */
  ghost predicate StackDataHolds(w: World, h: Host, names: seq<string>, stacks: map<string, Stack>, data: map<string, StackData>)
    requires forall n :: n in names ==> n in stacks
  {
    forall n :: n in names && n in data ==>
      data[n].services != [] && (data[n].needsApply <==> !StackCurrent(w, h, stacks[n]))
  }

  lemma {:induction false} StackOneSame(w: World, h: Host, mid: Host, name: string, s: Stack, data: map<string, StackData>)
    requires w.identifier != "" && SameProject(h, mid, s.project)
    requires name in data ==> data[name].services != [] && (data[name].needsApply <==> !StackCurrent(w, h, s))
    ensures StackOne(w, mid, name, s, Some(data)) == StackOne(w, mid, name, s, None)
  {
    hide Brought, StackCurrent, Detected, SameProject;
    NeedsApplyIs(w, mid, s);
    CurrentStable(w, h, mid, s);
  }

  lemma {:induction false} StacksAllSame(w: World, h: Host, names: seq<string>, stacks: map<string, Stack>, data: map<string, StackData>)
    requires Lawful(w) && (forall n :: n in names ==> n in stacks) && ProjectsDiffer(names, stacks)
    requires StackDataHolds(w, h, names, stacks, data)
    ensures StacksAll(w, h, names, stacks, Some(data)) == StacksAll(w, h, names, stacks, None)
  {
    hide StackOne, StackCurrent, LawfulUp, Digests, SameProject;
    if names != [] {
      var front, last := names[..|names| - 1], names[|names| - 1];
      StacksAllSame(w, h, front, stacks, data);
      StacksAllElsewhere(w, h, front, stacks, None, stacks[last].project);
      StackOneSame(w, h, StacksAll(w, h, front, stacks, None).host, last, stacks[last], data);
    }
  }

  lemma {:induction false} PlannedStackData(w: World, h: Host, h3: Host, cfg: Config, names: seq<string>)
    requires w.identifier != "" && h3.containers == h.containers && forall n :: n in names ==> n in cfg.stacks
    ensures StackDataHolds(w, h3, names, cfg.stacks, StacksExec(w, h, cfg))
  {
    hide StackCurrent, Detected;
    forall n | n in names && n in StacksExec(w, h, cfg)
      ensures var data := StacksExec(w, h, cfg)[n];
              data.services != [] && (data.needsApply <==> !StackCurrent(w, h3, cfg.stacks[n]))
    {
      NeedsApplyIs(w, h, cfg.stacks[n]);
      DetectedLength(w, h, cfg.stacks[n]);
      CurrentStable(w, h, h3, cfg.stacks[n]);
    }
  }

  lemma {:induction false} DistinctKeys(stacks: map<string, Stack>, cfg: Config)
    requires stacks == cfg.stacks && DistinctProjects(cfg)
    ensures (forall n :: n in SortedKeys(stacks.Keys) ==> n in stacks) && ProjectsDiffer(SortedKeys(stacks.Keys), stacks)
  {
    SortedStacks(stacks);
    SortedKeysStrict(stacks.Keys);
  }

  /** If the filesets end up alike and no container has changed, the rest of apply is alike too. */
  lemma {:induction false} SameFromThere(w: World, h: Host, cfg: Config)
    requires Lawful(w) && DistinctProjects(cfg)
    requires FilesetsSynced(w, h, cfg, Some(ExecOf(w, h, cfg))) == FilesetsSynced(w, h, cfg, None)
    requires FilesetsSynced(w, h, cfg, None).host.containers == h.containers
    ensures Apply(w, h, cfg, Some(ExecOf(w, h, cfg))) == Apply(w, h, cfg, None)
  {
    hide StacksAll, SortedKeys, LabelledVolumes, LabelledNetworks, FilesetsExec, StacksExec, DistinctProjects, FilesetsSynced,
         Digests, LawfulUp, DesiredVolumes, StackDataHolds, ProjectsDiffer, RestartNames, Listed, SetRunning;
    var keys, h3 := SortedKeys(cfg.stacks.Keys), FilesetsSynced(w, h, cfg, None).host;
    DistinctKeys(cfg.stacks, cfg);
    PlannedStackData(w, h, h3, cfg, keys);
    StacksAllSame(w, h3, keys, cfg.stacks, StacksExec(w, h, cfg));
  }

  /** The findings of a plan that looked at every volume, labelled or not. */
  ghost function FreshData(h: Host, filesets: map<string, Fileset>): map<string, FilesetData> {
    map n | n in filesets :: FilesetData(filesets[n].local, StoredIndex(h, filesets[n].volume), DiffOf(filesets[n].local, StoredIndex(h, filesets[n].volume)))
  }

  ghost function StoredIndex(h: Host, v: string): Index { if v in h.volumes then RemoteOf(h.volumes[v].stored) else EmptyIndex }

  lemma {:induction false} FreshReads(h: Host, filesets: map<string, Fileset>, existing: set<string>)
    requires forall n :: n in filesets ==> filesets[n].volume in existing
    ensures ReadsSame(h, filesets, existing, FreshData(h, filesets))
  {
    hide DiffOf;
  }

  // ------------------------------------------------------------ the same effect

  /** Two findings about a fileset that lead to the same calls and the same volume. */
  ghost predicate SameEffect(fs: Fileset, f: FilesetData, g: FilesetData) {
    && f.local == g.local
    && (f.local.treeHash == f.remote.treeHash <==> g.local.treeHash == g.remote.treeHash)
    && (f.local.treeHash != f.remote.treeHash ==>
          && ChangeOf(fs.source, f.local, f.remote) == ChangeOf(fs.source, g.local, g.remote)
          && WriteCalls(fs, f.local, DiffOf(f.local, f.remote)) == WriteCalls(fs, g.local, DiffOf(g.local, g.remote)))
  }

  lemma {:induction false} OneSameEffect(w: World, h: Host, n: string, fs: Fileset, existing: set<string>, a: map<string, FilesetData>, b: map<string, FilesetData>)
    requires n in a && n in b && SameEffect(fs, a[n], b[n])
    ensures SyncOne(w, h, n, fs, existing, Some(a)) == SyncOne(w, h, n, fs, existing, Some(b))
  {
    hide ColdNames, WriteCalls, ChangeOf, DiffOf, Synced, SetRunning, TargetServices;
  }

  lemma {:induction false} AllSameEffect(w: World, h: Host, names: seq<string>, filesets: map<string, Fileset>, existing: set<string>,
                                         a: map<string, FilesetData>, b: map<string, FilesetData>)
    requires forall n :: n in names ==> n in filesets && n in a && n in b && SameEffect(filesets[n], a[n], b[n])
    ensures SyncAll(w, h, names, filesets, existing, Some(a)) == SyncAll(w, h, names, filesets, existing, Some(b))
  {
    hide SyncOne, SameEffect;
    if names != [] {
      var front, last := names[..|names| - 1], names[|names| - 1];
      AllSameEffect(w, h, front, filesets, existing, a, b);
      OneSameEffect(w, SyncAll(w, h, front, filesets, existing, Some(a)).host, last, filesets[last], existing, a, b);
    }
  }

  /**
   Every path the stored index lists is a source path whose file has changed: a
   synchronisation replaces all of it, whether or not it looks at the index.
   */
  ghost predicate Overwritten(local: Index, remote: Index) {
    var r := ByPath(remote.files);
    remote.treeHash != local.treeHash && forall p :: p in r ==> p in Paths(local.files) && r[p] !in local.files
  }

  lemma {:induction false} WholeSource(w: World, fs: Fileset, remote: Index, diff: Diff)
    requires ValidFileset(w, fs) && DiffAny(diff, fs.local, remote)
    ensures (forall p :: p in ByPath(remote.files) ==> p in Paths(fs.local.files) && ByPath(remote.files)[p] !in fs.local.files) <==>
            TarOf(fs.source, diff) == fs.source && Elements(diff.toDelete) == {}
  {
    hide PrefixFree, IsBuilt, ByPath;
    var r := ByPath(remote.files);
    TarIsAll(w, fs, remote, diff);
    LocalPaths(w.h, fs.local, fs.source);
    if forall p :: p in r ==> p in Paths(fs.local.files) && r[p] !in fs.local.files {
      forall p | p in fs.source ensures p in Paths(diff.toCreate) + Paths(diff.toUpdate) {
        var e := EntryOf(w.h, p, fs.source[p]);
        IsLocalHas(w.h, fs.local, fs.source, p);
        assert e in diff.toCreate || e in diff.toUpdate;
      }
      assert TarOf(fs.source, diff).Keys == fs.source.Keys;
      assert Elements(diff.toDelete) == {};
    }
    if TarOf(fs.source, diff) == fs.source && Elements(diff.toDelete) == {} {
      forall p | p in r ensures p in Paths(fs.local.files) && r[p] !in fs.local.files {
        assert p !in r.Keys - Paths(fs.local.files);
        if r[p] in fs.local.files { NotInTar(w, fs, remote, diff, p); }
      }
    }
  }

  lemma {:induction false} NotInTar(w: World, fs: Fileset, remote: Index, diff: Diff, p: string)
    requires ValidFileset(w, fs) && DiffAny(diff, fs.local, remote) && p in ByPath(remote.files) && ByPath(remote.files)[p] in fs.local.files
    ensures p !in Paths(diff.toCreate) + Paths(diff.toUpdate)
  {
    ByPathKeys(remote.files);
    var e := ByPath(remote.files)[p];
    forall d | d in diff.toCreate || d in diff.toUpdate ensures d.path != p {
      assert d in fs.local.files;
      if d.path == p { SortedEntryUnique(fs.local.files, d, e); }
    }
  }

  lemma {:induction false} ExtractSame(fs: Fileset, a: Diff, b: Diff)
    requires TarOf(fs.source, a) == TarOf(fs.source, b) && a.toDelete == b.toDelete
    requires TarOf(fs.source, a).Keys == Paths(a.toCreate) + Paths(a.toUpdate) && TarOf(fs.source, b).Keys == Paths(b.toCreate) + Paths(b.toUpdate)
    ensures WriteCalls(fs, fs.local, a) == WriteCalls(fs, fs.local, b)
  {
    hide TarOf, Paths;
  }

  /** On a volume that the plan takes for missing, planned and fresh findings act alike if the stored index is overwritten. */
  lemma {:induction false} OverwrittenActsAlike(w: World, fs: Fileset, remote: Index, f: FilesetData, g: FilesetData)
    requires Digests(w.h) && ValidFileset(w, fs) && Overwritten(fs.local, remote)
    requires f.local == fs.local && f.remote == EmptyIndex && g.local == fs.local && g.remote == remote
    ensures SameEffect(fs, f, g)
  {
    hide DiffOf, TarOf, WriteCalls, ValidFileset, Digests, Paths, DiffAny;
    var a, b := DiffOf(fs.local, EmptyIndex), DiffOf(fs.local, remote);
    HashNotEmpty(w, fs);
    DiffOfChanged(w, fs, EmptyIndex);
    DiffOfChanged(w, fs, remote);
    WholeSource(w, fs, EmptyIndex, a);
    WholeSource(w, fs, remote, b);
    NoElements(a.toDelete);
    NoElements(b.toDelete);
    TarIsAll(w, fs, EmptyIndex, a);
    TarIsAll(w, fs, remote, b);
    ExtractSame(fs, a, b);
  }

  // ------------------------------------------------------------------ theorem

  /** The index file of an unlabelled volume, which a plan ignores and a fresh apply reads, makes no difference. */
  ghost predicate Negligible(local: Index, stored: Stored) { !stored.Torn? && Overwritten(local, RemoteOf(stored)) }

  ghost predicate Harmless(h: Host, filesets: map<string, Fileset>) {
    forall n :: n in filesets && filesets[n].volume in h.volumes && !h.volumes[filesets[n].volume].labelled ==>
      Negligible(filesets[n].local, h.volumes[filesets[n].volume].stored)
  }

  /** What is assumed: there is a plan, volumes are distinct, and everything to be stopped runs. */
  ghost predicate Comparable(w: World, h: Host, cfg: Config) {
    && Lawful(w) && ValidConfig(w, cfg) && DistinctVolumes(cfg.filesets) && ColdRunning(w, h, cfg.filesets) && Plannable(h, cfg)
  }

  /** An index was to be written where files lie in a directory of its name. */
  ghost predicate Unwritable(cfg: Config, a: Applied) {
    exists n :: && n in cfg.filesets && Indexed(a.calls, cfg.filesets[n].volume)
                && cfg.filesets[n].volume in a.host.volumes && Blocked(a.host.volumes[cfg.filesets[n].volume].files)
  }

  /**
   What an apply comes to if no call fails without a cause: `None` where it stops with an error, on a
   torn index that it reads or on an index that cannot be written.
   */
  ghost function Outcome(w: World, h: Host, cfg: Config, exec: Option<ExecutionContext>): Option<Applied> {
    var a := Apply(w, h, cfg, exec);
    if (exec.None? && !NoneTorn(h, cfg.filesets)) || Unwritable(cfg, a) then None else Some(a)
  }

  /** No source and no fileset volume has a file in a directory of the index file's name. */
  ghost predicate Roomy(h: Host, filesets: map<string, Fileset>) {
    forall n :: n in filesets ==>
      !Blocked(filesets[n].source) && (filesets[n].volume in h.volumes ==> !Blocked(h.volumes[filesets[n].volume].files))
  }

  lemma {:induction false} SyncedRoomy(files: Files, src: Files, local: Index, remote: Index)
    requires !Blocked(files) && !Blocked(src)
    ensures var c := ChangeOf(src, local, remote); !Blocked(Synced(files, c.tar, c.del))
  {
    hide DiffOf, BelowIndex, Synced;
    var c := ChangeOf(src, local, remote);
    forall p | p in Synced(files, c.tar, c.del) ensures !BelowIndex(p) { SyncedAt(files, c.tar, c.del, p); }
  }

  lemma {:induction false} SyncOneRoomy(w: World, h: Host, name: string, filesets: map<string, Fileset>, existing: set<string>,
                                        cached: Option<map<string, FilesetData>>)
    requires name in filesets && Roomy(h, filesets)
    ensures Roomy(SyncOne(w, h, name, filesets[name], existing, cached).host, filesets)
  {
    hide ColdNames, Inputs, ChangeOf, HotServices, SyncCalls, Synced, SetRunning, Blocked;
    var fs := filesets[name];
    if fs.volume in h.volumes {
      var (local, remote) := Inputs(h, name, fs, existing, cached);
      SyncedRoomy(h.volumes[fs.volume].files, fs.source, local, remote);
    }
  }

  lemma {:induction false} SyncAllRoomy(w: World, h: Host, names: seq<string>, filesets: map<string, Fileset>, existing: set<string>,
                                        cached: Option<map<string, FilesetData>>)
    requires (forall n :: n in names ==> n in filesets) && Roomy(h, filesets)
    ensures Roomy(SyncAll(w, h, names, filesets, existing, cached).host, filesets)
  {
    hide SyncOne, Roomy;
    if names != [] {
      var front, last := names[..|names| - 1], names[|names| - 1];
      SyncAllRoomy(w, h, front, filesets, existing, cached);
      SyncOneRoomy(w, SyncAll(w, h, front, filesets, existing, cached).host, last, filesets, existing, cached);
    }
  }

  /** In a roomy state every index can be written. */
  lemma {:induction false} RoomyWritable(w: World, h: Host, cfg: Config, exec: Option<ExecutionContext>)
    requires Lawful(w) && Roomy(h, cfg.filesets)
    ensures !Unwritable(cfg, Apply(w, h, cfg, exec))
  {
    hide SyncAll, StacksAll, SortedKeys, RestartNames, Listed, SetRunning, LabelledVolumes, Blocked, LawfulUp, Digests, Indexed;
    SortedStacks(cfg.stacks);
    SortedKeysIn(cfg.filesets);
    VolumesReady(h, cfg, exec);
    PreparedRoomy(h, cfg, exec);
    SyncAllRoomy(w, Prepared(h, cfg, exec), SortedKeys(cfg.filesets.Keys), cfg.filesets, LabelledVolumes(h) + DesiredVolumes(cfg), FilesetCache(exec));
    var mid := FilesetsSynced(w, h, cfg, exec).host;
    SyncAllFrame(w, Prepared(h, cfg, exec), SortedKeys(cfg.filesets.Keys), cfg.filesets, LabelledVolumes(h) + DesiredVolumes(cfg), FilesetCache(exec));
    StacksAllFrame(w, mid, SortedKeys(cfg.stacks.Keys), cfg.stacks, StackCache(exec));
  }

  lemma {:induction false} PreparedRoomy(h: Host, cfg: Config, exec: Option<ExecutionContext>)
    requires Roomy(h, cfg.filesets)
    ensures Roomy(Prepared(h, cfg, exec), cfg.filesets)
  {
  }

  lemma {:induction false} PlannedOrStored(h: Host, cfg: Config, n: string)
    requires n in cfg.filesets
    ensures var fs, h2 := cfg.filesets[n], Prepared(h, cfg, None);
            && StoredIndex(h2, fs.volume) == StoredIndex(h, fs.volume)
            && PlannedRemote(h, fs) == (if fs.volume in h.volumes && !h.volumes[fs.volume].labelled then EmptyIndex else StoredIndex(h2, fs.volume))
  {
    assert cfg.filesets[n].volume in DesiredVolumes(cfg);
  }

  /** The fresh synchronisation is one with findings about every volume; no container changes. */
  lemma {:induction false} FreshAsCached(w: World, h: Host, cfg: Config)
    requires Comparable(w, h, cfg)
    ensures KeysIn(SortedKeys(cfg.filesets.Keys), cfg.filesets)
    ensures var h2 := Prepared(h, cfg, None);
            && FilesetsSynced(w, h, cfg, None) ==
               SyncAll(w, h2, SortedKeys(cfg.filesets.Keys), cfg.filesets, LabelledVolumes(h) + DesiredVolumes(cfg), Some(FreshData(h2, cfg.filesets)))
            && FilesetsSynced(w, h, cfg, None).host.containers == h.containers
  {
    hide SyncAll, SortedKeys, LabelledVolumes, FreshData, DistinctVolumes, ColdNames, ReadsSame, Prepared, ValidConfig, Lawful, Plannable;
    var h2, existing := Prepared(h, cfg, None), LabelledVolumes(h) + DesiredVolumes(cfg);
    PreparedSame(w, h, cfg);
    forall n, c | n in cfg.filesets && c in ColdNames(w, h2, cfg.filesets[n]) ensures c in h2.containers && h2.containers[c].running {
      ColdNamesSame(w, h, h2, cfg.filesets[n]);
    }
    SortedKeysIn(cfg.filesets);
    SortedKeysStrict(cfg.filesets.Keys);
    VolumesReady(h, cfg, None);
    FreshReads(h2, cfg.filesets, existing);
    SyncAllSame(w, h2, SortedKeys(cfg.filesets.Keys), cfg.filesets, existing, FreshData(h2, cfg.filesets));
  }

  lemma {:induction false} ActsAlike(w: World, h: Host, cfg: Config, n: string)
    requires Comparable(w, h, cfg) && Harmless(h, cfg.filesets) && n in cfg.filesets
    ensures SameEffect(cfg.filesets[n], FilesetsExec(h, cfg)[n], FreshData(Prepared(h, cfg, None), cfg.filesets)[n])
  {
    hide DiffOf, Prepared, PlannedRemote, ChangeOf, WriteCalls, Overwritten, StoredIndex, LawfulUp, Digests, DistinctVolumes, ColdRunning, ValidStack,
         DistinctProjects, ValidFileset, Plannable;
    var fs, h2 := cfg.filesets[n], Prepared(h, cfg, None);
    PlannedOrStored(h, cfg, n);
    if fs.volume in h.volumes && !h.volumes[fs.volume].labelled {
      var r := RemoteOf(h.volumes[fs.volume].stored);
      assert StoredIndex(h, fs.volume) == r by { StoredIs(h, fs.volume); }
      OverwrittenActsAlike(w, fs, r, FilesetsExec(h, cfg)[n], FreshData(h2, cfg.filesets)[n]);
    }
  }

  lemma {:induction false} StoredIs(h: Host, v: string)
    requires v in h.volumes
    ensures StoredIndex(h, v) == RemoteOf(h.volumes[v].stored)
  {
  }

  lemma {:induction false} HarmlessIsEnough(w: World, h: Host, cfg: Config)
    requires Comparable(w, h, cfg) && Harmless(h, cfg.filesets)
    ensures Apply(w, h, cfg, Some(ExecOf(w, h, cfg))) == Apply(w, h, cfg, None)
  {
    hide SyncAll, SortedKeys, LabelledVolumes, LabelledNetworks, DesiredVolumes, FreshData, FilesetsExec, Prepared, SameEffect, Apply, StacksExec, Harmless,
         Plannable, ColdRunning, DistinctVolumes, Lawful;
    var h2, names := Prepared(h, cfg, None), SortedKeys(cfg.filesets.Keys);
    FreshAsCached(w, h, cfg);
    PreparedSame(w, h, cfg);
    forall n | n in names
      ensures n in cfg.filesets && n in FilesetsExec(h, cfg) && n in FreshData(h2, cfg.filesets)
              && SameEffect(cfg.filesets[n], FilesetsExec(h, cfg)[n], FreshData(h2, cfg.filesets)[n])
    {
      DataKeys(h, h2, cfg);
      ActsAlike(w, h, cfg, n);
    }
    AllSameEffect(w, h2, names, cfg.filesets, LabelledVolumes(h) + DesiredVolumes(cfg), FilesetsExec(h, cfg), FreshData(h2, cfg.filesets));
    SameFromThere(w, h, cfg);
  }

  lemma {:induction false} DataKeys(h: Host, h2: Host, cfg: Config)
    ensures FilesetsExec(h, cfg).Keys == cfg.filesets.Keys && FreshData(h2, cfg.filesets).Keys == cfg.filesets.Keys
  {
  }

  /** Whether an index is written to a volume. */
  ghost predicate Indexed(calls: seq<Event>, v: string) { exists e :: e in calls && e.call.WriteIndex? && e.call.volume == v }

  lemma {:induction false} IndexedConcat(a: seq<Event>, b: seq<Event>, v: string)
    ensures Indexed(a + b, v) <==> Indexed(a, v) || Indexed(b, v)
  {
    if e :| e in a && e.call.WriteIndex? && e.call.volume == v { assert e in a + b; }
    if e :| e in b && e.call.WriteIndex? && e.call.volume == v { assert e in a + b; }
  }

  lemma {:induction false} SyncIndexed(w: World, h: Host, fs: Fileset, local: Index, remote: Index, v: string)
    ensures Indexed(SyncCalls(w, h, fs, local, remote), v) <==> v == fs.volume && local.treeHash != remote.treeHash
  {
    hide ColdNames, DiffOf, TarOf;
    if local.treeHash != remote.treeHash {
      var diff := DiffOf(local, remote);
      var writes := WriteCalls(fs, local, diff);
      var i := |ExtractCalls(fs, diff) + RemoveCalls(fs, diff)|;
      assert writes[i] == Event(WriteIndex(fs.volume, local), true);
      assert writes[i] in AroundWith(ColdNames(w, h, fs), writes, true);
    }
  }

  lemma {:induction false} SyncAllIndexes(w: World, h: Host, names: seq<string>, filesets: map<string, Fileset>, existing: set<string>,
                                          data: map<string, FilesetData>, n: string)
    requires (forall k :: k in names ==> k in filesets && filesets[k].volume in h.volumes) && DistinctVolumes(filesets)
    requires filesets.Keys <= data.Keys && n in filesets
    ensures Indexed(SyncAll(w, h, names, filesets, existing, Some(data)).calls, filesets[n].volume) <==>
            n in names && data[n].local.treeHash != data[n].remote.treeHash
  {
    hide Indexed, SyncCalls, SyncedHost, HotServices;
    if names == [] {
      assert !Indexed([], filesets[n].volume) by { NoneIndexed(filesets[n].volume); }
    } else {
      var front, last := names[..|names| - 1], names[|names| - 1];
      SyncAllIndexes(w, h, front, filesets, existing, data, n);
      SyncAllFrame(w, h, front, filesets, existing, Some(data));
      var mid := SyncAll(w, h, front, filesets, existing, Some(data));
      assert names == front + [last];
      SyncIndexed(w, mid.host, filesets[last], data[last].local, data[last].remote, filesets[n].volume);
      IndexedConcat(mid.calls, SyncCalls(w, mid.host, filesets[last], data[last].local, data[last].remote), filesets[n].volume);
    }
  }

  lemma {:induction false} NoneIndexed(v: string)
    ensures !Indexed([], v)
  {
  }

  /** What a run of apply writes to the volume of a fileset, from the findings it works with. */
  ghost predicate Writes(calls: seq<Event>, fs: Fileset, f: FilesetData) {
    var changed := f.local.treeHash != f.remote.treeHash;
    && (Indexed(calls, fs.volume) <==> changed)
    && Archived(calls, fs.volume) == (if changed then TarOf(fs.source, DiffOf(f.local, f.remote)).Keys else {})
    && Deleted(calls, fs.volume) == (if changed then Elements(DiffOf(f.local, f.remote).toDelete) else {})
  }

  lemma {:induction false} TarsOne(filesets: map<string, Fileset>, data: map<string, FilesetData>, n: string)
    requires n in filesets && filesets.Keys <= data.Keys && DistinctVolumes(filesets)
    ensures var fs, f := filesets[n], data[n];
            && Tars(filesets.Keys, filesets, data, fs.volume) == (if Differs(f) then TarOf(fs.source, DiffOf(f.local, f.remote)).Keys else {})
            && Dels(filesets.Keys, filesets, data, fs.volume) == (if Differs(f) then Elements(DiffOf(f.local, f.remote).toDelete) else {})
  {
    hide DiffOf, TarOf, Elements;
  }

  lemma {:induction false} ApplyWrites(w: World, h: Host, cfg: Config, exec: Option<ExecutionContext>, data: map<string, FilesetData>, n: string)
    requires n in cfg.filesets && cfg.filesets.Keys <= data.Keys && DistinctVolumes(cfg.filesets)
    requires KeysIn(SortedKeys(cfg.filesets.Keys), cfg.filesets)
    requires FilesetsSynced(w, h, cfg, exec) ==
             SyncAll(w, Prepared(h, cfg, exec), SortedKeys(cfg.filesets.Keys), cfg.filesets, LabelledVolumes(h) + DesiredVolumes(cfg), Some(data))
    ensures Writes(Apply(w, h, cfg, exec).calls, cfg.filesets[n], data[n])
  {
    hide SyncAll, StacksAll, Prepared, SortedKeys, RestartNames, Listed, SetRunning, Archived, Deleted, Indexed, DiffOf, TarOf, Elements, LabelledVolumes,
         DesiredVolumes, DistinctVolumes, FilesetsSynced, Tars, Dels;
    var h2, names, existing, v := Prepared(h, cfg, exec), SortedKeys(cfg.filesets.Keys), LabelledVolumes(h) + DesiredVolumes(cfg), cfg.filesets[n].volume;
    var synced, applied := FilesetsSynced(w, h, cfg, exec), StacksApplied(w, h, cfg, exec);
    SortedStacks(cfg.stacks);
    VolumesReady(h, cfg, exec);
    assert n in names by { KeyListed(cfg.filesets, n); }
    ApplyTouches(w, h, cfg, exec, data, v);
    TarsOne(cfg.filesets, data, n);
    SyncAllIndexes(w, h2, names, cfg.filesets, existing, data, n);
    StacksTouchNothing(w, synced.host, SortedKeys(cfg.stacks.Keys), cfg.stacks, StackCache(exec));
    assert !Indexed(applied.calls, v) by { UpsIndexNothing(applied.calls, v); }
    IndexedConcat(synced.calls, applied.calls, v);
  }

  lemma {:induction false} UpsIndexNothing(calls: seq<Event>, v: string)
    requires forall e :: e in calls ==> e.call.Up? || e.call.Relabel?
    ensures !Indexed(calls, v)
  {
  }

  lemma {:induction false} WritesAlike(w: World, fs: Fileset, calls: seq<Event>, f: FilesetData, g: FilesetData)
    requires Digests(w.h) && ValidFileset(w, fs) && Writes(calls, fs, f) && Writes(calls, fs, g)
    requires f.local == fs.local && f.remote == EmptyIndex && g.local == fs.local
    ensures Overwritten(fs.local, g.remote)
  {
    hide DiffOf, TarOf, ValidFileset, Digests, Paths, Writes, Elements, DiffAny;
    var a, b := DiffOf(fs.local, EmptyIndex), DiffOf(fs.local, g.remote);
    HashNotEmpty(w, fs);
    SameWrites(fs, calls, f, g);
    DiffOfChanged(w, fs, EmptyIndex);
    DiffOfChanged(w, fs, g.remote);
    WholeSource(w, fs, EmptyIndex, a);
    WholeTar(fs, b);
    WholeSource(w, fs, g.remote, b);
  }

  lemma {:induction false} SameWrites(fs: Fileset, calls: seq<Event>, f: FilesetData, g: FilesetData)
    requires Writes(calls, fs, f) && Writes(calls, fs, g) && f.local.treeHash != f.remote.treeHash
    ensures g.local.treeHash != g.remote.treeHash
    ensures TarOf(fs.source, DiffOf(f.local, f.remote)).Keys == TarOf(fs.source, DiffOf(g.local, g.remote)).Keys
    ensures Elements(DiffOf(f.local, f.remote).toDelete) == Elements(DiffOf(g.local, g.remote).toDelete)
  {
    hide DiffOf, TarOf, Archived, Deleted, Indexed, Elements;
  }

  lemma {:induction false} WholeTar(fs: Fileset, d: Diff)
    requires TarOf(fs.source, d).Keys == fs.source.Keys
    ensures TarOf(fs.source, d) == fs.source
  {
  }

  lemma {:induction false} AlikeIsHarmless(w: World, h: Host, cfg: Config)
    requires Comparable(w, h, cfg) && NoneTorn(h, cfg.filesets)
    requires Apply(w, h, cfg, Some(ExecOf(w, h, cfg))).calls == Apply(w, h, cfg, None).calls
    ensures Harmless(h, cfg.filesets)
  {
    hide SyncAll, SortedKeys, LabelledVolumes, FreshData, FilesetsExec, Prepared, Apply, ExecOf, Writes, Overwritten, LawfulUp, Digests, ValidStack,
         DistinctProjects, ValidFileset, DistinctVolumes, ColdRunning, FilesetsSynced, DesiredVolumes, Plannable;
    var exec, h2 := Some(ExecOf(w, h, cfg)), Prepared(h, cfg, None);
    FreshAsCached(w, h, cfg);
    PreparedSame(w, h, cfg);
    FilesetPart(w, h, cfg);
    DataKeys(h, h2, cfg);
    CachedAsCached(w, h, cfg);
    forall n | n in cfg.filesets && cfg.filesets[n].volume in h.volumes && !h.volumes[cfg.filesets[n].volume].labelled
      ensures Negligible(cfg.filesets[n].local, h.volumes[cfg.filesets[n].volume].stored)
    {
      ApplyWrites(w, h, cfg, exec, FilesetsExec(h, cfg), n);
      ApplyWrites(w, h, cfg, None, FreshData(h2, cfg.filesets), n);
      FindingsOf(h, h2, cfg, n);
      WritesAlike(w, cfg.filesets[n], Apply(w, h, cfg, None).calls, FilesetsExec(h, cfg)[n], FreshData(h2, cfg.filesets)[n]);
    }
  }

  lemma {:induction false} CachedAsCached(w: World, h: Host, cfg: Config)
    ensures KeysIn(SortedKeys(cfg.filesets.Keys), cfg.filesets)
    ensures FilesetsSynced(w, h, cfg, Some(ExecOf(w, h, cfg))) ==
            SyncAll(w, Prepared(h, cfg, Some(ExecOf(w, h, cfg))), SortedKeys(cfg.filesets.Keys), cfg.filesets,
                    LabelledVolumes(h) + DesiredVolumes(cfg), Some(FilesetsExec(h, cfg)))
  {
    hide SyncAll, Prepared, FilesetsExec, StacksExec;
    SortedKeysIn(cfg.filesets);
  }

  lemma {:induction false} FindingsOf(h: Host, h2: Host, cfg: Config, n: string)
    requires n in cfg.filesets && h2 == Prepared(h, cfg, None) && cfg.filesets[n].volume in h.volumes && !h.volumes[cfg.filesets[n].volume].labelled
    ensures n in FilesetsExec(h, cfg) && n in FreshData(h2, cfg.filesets)
    ensures FilesetsExec(h, cfg)[n].local == cfg.filesets[n].local && FilesetsExec(h, cfg)[n].remote == EmptyIndex
    ensures FreshData(h2, cfg.filesets)[n].local == cfg.filesets[n].local
    ensures FreshData(h2, cfg.filesets)[n].remote == RemoteOf(h.volumes[cfg.filesets[n].volume].stored)
  {
    hide DiffOf, Prepared;
    PlannedOrStored(h, cfg, n);
  }

  lemma {:induction false} HarmlessReads(h: Host, cfg: Config)
    requires Plannable(h, cfg) && Harmless(h, cfg.filesets)
    ensures NoneTorn(h, cfg.filesets)
  {
    hide Overwritten;
  }

  /**
   With a plan of the current state, distinct fileset volumes and all cold targets running,
   apply with the plan makes the calls of apply without it, which does not stop on a torn index, if and
   only if no unlabelled volume of a fileset holds a torn index or one that lists an unchanged or a
   vanished file. Then they come to the same, in calls, state and success; otherwise they do not,
   except that both may fail where an index cannot be written, which a roomy state rules out.
   */
  lemma {:induction false} CachedRefinesFresh(w: World, h: Host, cfg: Config)
    requires Comparable(w, h, cfg)
    ensures NoneTorn(h, cfg.filesets) && Apply(w, h, cfg, Some(ExecOf(w, h, cfg))).calls == Apply(w, h, cfg, None).calls <==>
            Harmless(h, cfg.filesets)
    ensures Harmless(h, cfg.filesets) ==> Outcome(w, h, cfg, Some(ExecOf(w, h, cfg))) == Outcome(w, h, cfg, None)
    ensures Roomy(h, cfg.filesets) || Outcome(w, h, cfg, Some(ExecOf(w, h, cfg))).Some? || Outcome(w, h, cfg, None).Some? ==>
            (Outcome(w, h, cfg, Some(ExecOf(w, h, cfg))) == Outcome(w, h, cfg, None) <==> Harmless(h, cfg.filesets))
    ensures Roomy(h, cfg.filesets) ==> Outcome(w, h, cfg, Some(ExecOf(w, h, cfg))).Some?
  {
    hide Apply, ExecOf, Harmless, LawfulUp, Digests, ValidConfig, DistinctVolumes, ColdRunning, Plannable, NoneTorn, Unwritable, Roomy;
    if Harmless(h, cfg.filesets) {
      HarmlessReads(h, cfg);
      HarmlessIsEnough(w, h, cfg);
    }
    if NoneTorn(h, cfg.filesets) && Apply(w, h, cfg, Some(ExecOf(w, h, cfg))).calls == Apply(w, h, cfg, None).calls { AlikeIsHarmless(w, h, cfg); }
    if Roomy(h, cfg.filesets) { RoomyWritable(w, h, cfg, Some(ExecOf(w, h, cfg))); }
  }

  /** In particular, if every desired volume that exists is labelled. */
  lemma {:induction false} AdoptedIsHarmless(h: Host, cfg: Config)
    requires Adopted(h, cfg)
    ensures Harmless(h, cfg.filesets)
  {
    forall n | n in cfg.filesets ensures cfg.filesets[n].volume in DesiredVolumes(cfg) {}
  }

  lemma {:induction false} PreparedSame(w: World, h: Host, cfg: Config)
    ensures Prepared(h, cfg, Some(ExecOf(w, h, cfg))) == Prepared(h, cfg, None)
    ensures Prepared(h, cfg, None).containers == h.containers
  {
  }

  /**
   The label matters: where an unlabelled volume already holds exactly the fileset's index,
   a fresh apply leaves it alone and an apply with a plan writes it again.
   */
  lemma {:induction false} UnlabelledVolumeDiffers(w: World, h: Host, cfg: Config, n: string)
    requires Digests(w.h) && n in cfg.filesets && ValidFileset(w, cfg.filesets[n]) && cfg.filesets.Keys == {n}
    requires cfg.filesets[n].volume in h.volumes
    requires var vol := h.volumes[cfg.filesets[n].volume]; !vol.labelled && vol.stored == Written(cfg.filesets[n].local)
    ensures FilesetsSynced(w, h, cfg, None).calls == []
    ensures Event(WriteIndex(cfg.filesets[n].volume, cfg.filesets[n].local), true) in FilesetsSynced(w, h, cfg, Some(ExecOf(w, h, cfg))).calls
  {
    hide ColdNames, HotServices, IsLocal, PrefixFree, SyncAll, SyncOne, SyncedHost, ExecOf, Prepared;
    var fs, existing := cfg.filesets[n], LabelledVolumes(h) + DesiredVolumes(cfg);
    var exec := Some(ExecOf(w, h, cfg));
    HashNotEmpty(w, fs);
    SortedKeysStrict({n});
    SortedUnique(SortedKeys({n}), [n]);
    OnlyOne(w, Prepared(h, cfg, None), n, cfg.filesets, existing, None);
    OnlyOne(w, Prepared(h, cfg, exec), n, cfg.filesets, existing, Some(exec.value.filesets));
    assert fs.volume in DesiredVolumes(cfg) && Prepared(h, cfg, None).volumes[fs.volume] == h.volumes[fs.volume] by { KeepsExisting(h, cfg, None, fs.volume); }
    SkippedFresh(w, Prepared(h, cfg, None), n, fs, existing);
    assert fs.volume in Prepared(h, cfg, exec).volumes by { KeepsExisting(h, cfg, exec, fs.volume); }
    WrittenCached(w, Prepared(h, cfg, exec), n, fs, existing, FilesetsExec(h, cfg));
    assert exec.value.filesets == FilesetsExec(h, cfg) by { FilesetPart(w, h, cfg); }
  }

  lemma {:induction false} FilesetPart(w: World, h: Host, cfg: Config)
    ensures ExecOf(w, h, cfg).filesets == FilesetsExec(h, cfg)
  {
  }

  lemma {:induction false} KeepsExisting(h: Host, cfg: Config, exec: Option<ExecutionContext>, v: string)
    requires v in h.volumes
    ensures v in Prepared(h, cfg, exec).volumes && Prepared(h, cfg, exec).volumes[v] == h.volumes[v]
  {
  }

  lemma {:induction false} OnlyOne(w: World, h: Host, n: string, filesets: map<string, Fileset>, existing: set<string>, cached: Option<map<string, FilesetData>>)
    requires n in filesets
    ensures SyncAll(w, h, [n], filesets, existing, cached).calls == SyncOne(w, h, n, filesets[n], existing, cached).calls
  {
    hide SyncOne;
    assert [n][..0] == [];
    assert SyncAll(w, h, [], filesets, existing, cached) == SyncState(h, {}, []);
  }

  lemma {:induction false} SkippedFresh(w: World, h: Host, n: string, fs: Fileset, existing: set<string>)
    requires fs.volume in h.volumes && fs.volume in existing && h.volumes[fs.volume].stored == Written(fs.local)
    ensures SyncOne(w, h, n, fs, existing, None).calls == []
  {
  }

  lemma {:induction false} WrittenCached(w: World, h: Host, n: string, fs: Fileset, existing: set<string>, data: map<string, FilesetData>)
    requires fs.volume in h.volumes && n in data && data[n].local == fs.local && data[n].remote.treeHash != fs.local.treeHash
    ensures Event(WriteIndex(fs.volume, fs.local), true) in SyncOne(w, h, n, fs, existing, Some(data)).calls
  {
    hide ExtractCalls, RemoveCalls, ColdNames, HotServices, SyncedHost;
    var writes := WriteCalls(fs, fs.local, DiffOf(fs.local, data[n].remote));
    var i := |ExtractCalls(fs, DiffOf(fs.local, data[n].remote)) + RemoveCalls(fs, DiffOf(fs.local, data[n].remote))|;
    assert writes[i] == Event(WriteIndex(fs.volume, fs.local), true);
    assert writes[i] in AroundWith(ColdNames(w, h, fs), writes, true);
  }

  lemma {:induction false} HashNotEmpty(w: World, fs: Fileset)
    requires Digests(w.h) && ValidFileset(w, fs)
    ensures fs.local.treeHash != ""
  {
  }

  /**
   A torn index on an unlabelled volume: the plan does not read it and apply with the plan
   writes the index anew; a fresh apply stops on it.
   */
  lemma {:induction false} TornUnlabelledDiffers(w: World, h: Host, cfg: Config, n: string)
    requires Comparable(w, h, cfg) && n in cfg.filesets && cfg.filesets[n].volume in h.volumes
    requires var vol := h.volumes[cfg.filesets[n].volume]; !vol.labelled && vol.stored.Torn?
    ensures Outcome(w, h, cfg, None) == None
    ensures Indexed(Apply(w, h, cfg, Some(ExecOf(w, h, cfg))).calls, cfg.filesets[n].volume)
    ensures Roomy(h, cfg.filesets) ==> Outcome(w, h, cfg, Some(ExecOf(w, h, cfg))) == Some(Apply(w, h, cfg, Some(ExecOf(w, h, cfg))))
  {
    hide Apply, ExecOf, LawfulUp, Digests, ValidStack, DistinctProjects, ValidFileset, ColdRunning, Plannable, FilesetsExec, Indexed, Archived, Deleted,
         DistinctVolumes, FilesetsSynced, SyncAll, Prepared, SortedKeys, DiffOf, TarOf, Elements, LabelledVolumes, DesiredVolumes, Unwritable, Roomy;
    var exec, fs := Some(ExecOf(w, h, cfg)), cfg.filesets[n];
    ExecKeys(h, cfg);
    CachedAsCached(w, h, cfg);
    ApplyWrites(w, h, cfg, exec, FilesetsExec(h, cfg), n);
    FindingsOf(h, Prepared(h, cfg, None), cfg, n);
    HashNotEmpty(w, fs);
    assert !NoneTorn(h, cfg.filesets);
    if Roomy(h, cfg.filesets) { RoomyWritable(w, h, cfg, exec); }
  }

  // ---------------------------------------------------------- concrete hosts

  /** A volume `data` made by hand, with the file `f` and some index file. */
  function ByHand(stored: Stored): Host {
    Host(map["data" := Volume(false, map["f" := "x"], stored)], map["net" := Network(true, false)],
         map["c" := Container("other", "job", true, "", "", {})])
  }

  /** One fileset with the file `f` for the volume `data`. */
  function OneFileset(local: Index): Config {
    Config(false, {}, {"net"}, map["site" := Fileset("data", map["f" := "x"], local, false, Attached, false)],
           map["app" := Stack("app", map["web" := "1"])])
  }

  lemma {:induction false} OneFilesetValid(w: World, local: Index)
    requires IsLocal(w.h, local, map["f" := "x"])
    ensures ValidConfig(w, OneFileset(local)) && OneFileset(local).filesets.Keys == {"site"}
  {
    hide IsLocal;
    var paths: set<string> := {"f"};
    forall p, q | p in paths && q in paths ensures !(p + "/" <= q) { assert |p + "/"| == 2 && |q| == 1; }
    assert map["f" := "x"].Keys == paths;
  }

  lemma {:induction false} ByHandComparable(w: World, local: Index, stored: Stored)
    requires Lawful(w) && IsLocal(w.h, local, map["f" := "x"])
    ensures Comparable(w, ByHand(stored), OneFileset(local)) && Roomy(ByHand(stored), OneFileset(local).filesets)
  {
    hide IsLocal, Lawful, ValidConfig;
    OneFilesetValid(w, local);
    assert !BelowIndex("f") by { assert |INDEX + "/"| > |"f"|; }
  }

  /** The files are as the source has them and the index says so: only the apply with a plan writes. */
  lemma {:induction false} CurrentByHand(w: World, local: Index)
    requires Lawful(w) && IsLocal(w.h, local, map["f" := "x"])
    ensures var h, cfg := ByHand(Written(local)), OneFileset(local);
            && FilesetsSynced(w, h, cfg, None).calls == []
            && Event(WriteIndex("data", local), true) in FilesetsSynced(w, h, cfg, Some(ExecOf(w, h, cfg))).calls
            && Outcome(w, h, cfg, Some(ExecOf(w, h, cfg))) != Outcome(w, h, cfg, None)
  {
    hide IsLocal, LawfulUp, Digests, ValidConfig, FilesetsSynced, ExecOf, Outcome, Comparable, Roomy, Overwritten;
    var h, cfg := ByHand(Written(local)), OneFileset(local);
    OneFilesetValid(w, local);
    ByHandComparable(w, local, Written(local));
    assert !Overwritten(local, local) by { SameNotOverwritten(local); }
    assert ValidFileset(w, cfg.filesets["site"]) by { ValidOf(w, cfg, "site"); }
    UnlabelledVolumeDiffers(w, h, cfg, "site");
    CachedRefinesFresh(w, h, cfg);
  }

  lemma {:induction false} SameNotOverwritten(local: Index)
    ensures !Overwritten(local, local)
  {
  }

  lemma {:induction false} ValidOf(w: World, cfg: Config, n: string)
    requires ValidConfig(w, cfg) && n in cfg.filesets
    ensures ValidFileset(w, cfg.filesets[n])
  {
  }

  /** An index cut short: the apply without a plan stops, the apply with one succeeds. */
  lemma {:induction false} TornByHand(w: World, local: Index)
    requires Lawful(w) && IsLocal(w.h, local, map["f" := "x"])
    ensures var h, cfg := ByHand(Torn), OneFileset(local);
            Outcome(w, h, cfg, None).None? && Outcome(w, h, cfg, Some(ExecOf(w, h, cfg))).Some?
  {
    hide IsLocal, Lawful, ValidConfig, ExecOf, Outcome, Comparable, Roomy;
    ByHandComparable(w, local, Torn);
    TornUnlabelledDiffers(w, ByHand(Torn), OneFileset(local), "site");
  }
}
