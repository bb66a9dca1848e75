/**
 Which containers an apply restarts (internal/planner/apply_filesets.go:195-204 and
 internal/planner/apply_restarts.go:29-78), from the configuration and the state it starts in.
 */
module Restarts {
  import opened Text
  import opened FilesetIndex
  import opened VolumeTree
  import opened DockerHost
  import opened FilesetSync
  import opened ContextState
  import opened Planning
  import opened Applying
  import opened Convergence
  import opened Faithful

  /** Synchronising other filesets does not change whom a fileset targets. */
  lemma {:induction false} TargetStays(w: World, h: Host, h': Host, fs: Fileset, s: string)
    requires SyncFrame(h, h')
    ensures IsTarget(w, h', fs, s) <==> IsTarget(w, h, fs, s)
  {
    forall n | n in h.containers
      ensures h'.containers[n].ident == h.containers[n].ident && h'.containers[n].project == h.containers[n].project
              && h'.containers[n].service == h.containers[n].service && h'.containers[n].mounts == h.containers[n].mounts
    {
      assert h'.containers[n].(running := true) == h.containers[n].(running := true);
    }
    forall n ensures Ours(w, h', n) <==> Ours(w, h, n) {}
  }

  /** When its turn came, the fileset's tree hash was not the stored one. */
  ghost predicate ChangedAt(w: World, h: Host, names: seq<string>, i: nat, filesets: map<string, Fileset>, existing: set<string>,
                            cached: Option<map<string, FilesetData>>)
    requires i < |names| && forall n :: n in names ==> n in filesets
  {
    var before := SyncAll(w, h, names[..i], filesets, existing, cached).host;
    var (local, remote) := Inputs(before, names[i], filesets[names[i]], existing, cached);
    filesets[names[i]].volume in before.volumes && local.treeHash != remote.treeHash
  }

  /** After a pass over filesets exactly the targets of the changed hot ones are to be restarted. */
  lemma {:induction false} PendingSays(w: World, h: Host, names: seq<string>, filesets: map<string, Fileset>, existing: set<string>,
                                       cached: Option<map<string, FilesetData>>, s: string)
    requires forall n :: n in names ==> n in filesets
    ensures s in SyncAll(w, h, names, filesets, existing, cached).pending <==>
            exists i :: && 0 <= i < |names| && !filesets[names[i]].cold && IsTarget(w, h, filesets[names[i]], s)
                        && ChangedAt(w, h, names, i, filesets, existing, cached)
  {
    hide SyncOne, IsTarget, SyncFrame, Inputs;
    if names != [] {
      var n := |names| - 1;
      var front, last := names[..n], names[n];
      PendingSays(w, h, front, filesets, existing, cached, s);
      var mid := SyncAll(w, h, front, filesets, existing, cached);
      SyncAllFrame(w, h, front, filesets, existing, cached);
      OnePending(w, mid.host, last, filesets[last], existing, cached, s);
      TargetStays(w, h, mid.host, filesets[last], s);
      forall i | 0 <= i < n ensures ChangedAt(w, h, names, i, filesets, existing, cached) == ChangedAt(w, h, front, i, filesets, existing, cached) {
        assert names[..i] == front[..i] && names[i] == front[i];
      }
      if s in mid.pending {
        var i :| && 0 <= i < n && !filesets[front[i]].cold && IsTarget(w, h, filesets[front[i]], s)
                 && ChangedAt(w, h, front, i, filesets, existing, cached);
        assert names[i] == front[i];
      }
    }
  }

  lemma {:induction false} OnePending(w: World, h: Host, name: string, fs: Fileset, existing: set<string>, cached: Option<map<string, FilesetData>>, s: string)
    ensures s in SyncOne(w, h, name, fs, existing, cached).pending <==>
            && !fs.cold && IsTarget(w, h, fs, s) && fs.volume in h.volumes
            && var (local, remote) := Inputs(h, name, fs, existing, cached); local.treeHash != remote.treeHash
  {
    hide IsTarget, Inputs, SyncedHost, SyncCalls, HotServices;
    var (local, remote) := Inputs(h, name, fs, existing, cached);
    HotSays(w, h, fs, local, remote, s);
  }

  /** The fileset differs from what its labelled volume's index says; a missing or unlabelled volume has none. */
  ghost predicate Changed(h: Host, fs: Fileset) {
    var stored := if fs.volume in h.volumes && h.volumes[fs.volume].labelled then h.volumes[fs.volume].stored else Absent;
    fs.local.treeHash != (if stored.Written? then stored.index.treeHash else "")
  }

  /**
   An undisturbed apply with the plan of the state restarts, once each, exactly the first
   container, after stacks have been brought up, of every service that a changed hot fileset targets.
   */
  lemma {:induction false} RestartsExactly(w: World, h: Host, cfg: Config, c: string)
    ensures c in Apply(w, h, cfg, Some(ExecOf(w, h, cfg))).restarts <==>
            exists n, s :: && n in cfg.filesets && !cfg.filesets[n].cold && Changed(h, cfg.filesets[n]) && IsTarget(w, h, cfg.filesets[n], s)
                           && FirstContainer(w, StacksApplied(w, h, cfg, Some(ExecOf(w, h, cfg))).host, s, c)
  {
    hide IsTarget, FirstContainer, Listed, FirstOf, StacksApplied, Changed, FilesetsSynced;
    var exec := Some(ExecOf(w, h, cfg));
    var pending, h4 := FilesetsSynced(w, h, cfg, exec).pending, StacksApplied(w, h, cfg, exec).host;
    assert Apply(w, h, cfg, exec).restarts == RestartNames(Listed(w, h4), pending);
    forall s ensures FirstOf(Listed(w, h4), s) == Some(c) <==> FirstContainer(w, h4, s, c) { FirstSays(w, h4, s, c); }
    forall s ensures s in pending <==> exists n :: n in cfg.filesets && !cfg.filesets[n].cold && Changed(h, cfg.filesets[n]) && IsTarget(w, h, cfg.filesets[n], s) {
      PlannedPending(w, h, cfg, s);
    }
  }

  lemma {:induction false} PlannedPending(w: World, h: Host, cfg: Config, s: string)
    ensures s in FilesetsSynced(w, h, cfg, Some(ExecOf(w, h, cfg))).pending <==>
            exists n :: n in cfg.filesets && !cfg.filesets[n].cold && Changed(h, cfg.filesets[n]) && IsTarget(w, h, cfg.filesets[n], s)
  {
    hide IsTarget, SyncAll, Prepared, Changed, ChangedAt, SortedKeys, FilesetsExec;
    var exec := Some(ExecOf(w, h, cfg));
    var names, h2, existing := SortedKeys(cfg.filesets.Keys), Prepared(h, cfg, exec), LabelledVolumes(h) + DesiredVolumes(cfg);
    SortedKeysIn(cfg.filesets);
    PendingSays(w, h2, names, cfg.filesets, existing, FilesetCache(exec), s);
    forall i | 0 <= i < |names|
      ensures names[i] in cfg.filesets
      ensures ChangedAt(w, h2, names, i, cfg.filesets, existing, FilesetCache(exec)) <==> Changed(h, cfg.filesets[names[i]])
      ensures IsTarget(w, h2, cfg.filesets[names[i]], s) <==> IsTarget(w, h, cfg.filesets[names[i]], s)
    {
      PlannedChange(w, h, cfg, names, i);
      PreparedTargets(w, h, cfg, exec, cfg.filesets[names[i]], s);
    }
    forall n | n in cfg.filesets ensures exists i :: 0 <= i < |names| && names[i] == n { assert n in Elements(names); }
  }

  lemma {:induction false} PreparedTargets(w: World, h: Host, cfg: Config, exec: Option<ExecutionContext>, fs: Fileset, s: string)
    ensures IsTarget(w, Prepared(h, cfg, exec), fs, s) <==> IsTarget(w, h, fs, s)
  {
    var h2 := Prepared(h, cfg, exec);
    assert h2.containers == h.containers;
    forall n ensures Ours(w, h2, n) <==> Ours(w, h, n) {}
  }

  lemma {:induction false} PlannedChange(w: World, h: Host, cfg: Config, names: seq<string>, i: nat)
    requires KeysIn(names, cfg.filesets) && i < |names|
    ensures var exec := Some(ExecOf(w, h, cfg));
            ChangedAt(w, Prepared(h, cfg, exec), names, i, cfg.filesets, LabelledVolumes(h) + DesiredVolumes(cfg), FilesetCache(exec)) <==>
            Changed(h, cfg.filesets[names[i]])
  {
    hide SyncOne, SyncAll, Prepared, StacksExec, DiffOf;
    var exec, n := Some(ExecOf(w, h, cfg)), names[i];
    var h2, existing := Prepared(h, cfg, exec), LabelledVolumes(h) + DesiredVolumes(cfg);
    VolumesReady(h, cfg, exec);
    SyncAllFrame(w, h2, names[..i], cfg.filesets, existing, FilesetCache(exec));
    assert exec.value.filesets[n] == FilesetDataOf(h, cfg.filesets[n]);
  }

  lemma {:induction false} SyncNeverRestarts(w: World, h: Host, names: seq<string>, filesets: map<string, Fileset>, existing: set<string>,
                                             cached: Option<map<string, FilesetData>>)
    requires forall n :: n in names ==> n in filesets
    ensures forall e :: e in SyncAll(w, h, names, filesets, existing, cached).calls ==> !e.call.Restart?
  {
    hide ColdNames, Inputs, SyncedHost, HotServices, WriteCalls, DiffOf;
    if names != [] {
      var front, last := names[..|names| - 1], names[|names| - 1];
      SyncNeverRestarts(w, h, front, filesets, existing, cached);
      var mid := SyncAll(w, h, front, filesets, existing, cached).host;
      var (local, remote) := Inputs(mid, last, filesets[last], existing, cached);
      WritesSay(filesets[last], local, DiffOf(local, remote));
    }
  }

  /** In the log of such an apply there is one successful restart for each of these containers and no other restart. */
  lemma {:induction false} RestartedOnce(w: World, h: Host, cfg: Config, exec: Option<ExecutionContext>, ev: seq<Event>)
    requires Performed(ev, Apply(w, h, cfg, exec))
    ensures forall e :: e in ev && e.call.Restart? ==> e.ok && e.call.name in Apply(w, h, cfg, exec).restarts
    ensures forall c :: c in Apply(w, h, cfg, exec).restarts ==> Event(Restart(c), true) in ev
    ensures forall i, j :: 0 <= i < j < |ev| && ev[i].call.Restart? ==> ev[i] != ev[j]
  {
    hide SyncAll, StacksAll, RestartNames, Listed, SetRunning, Prepared, DesiredVolumes, LabelledVolumes, KnownNetworks, SortedKeys;
    var a := Apply(w, h, cfg, exec);
    SortedKeysIn(cfg.filesets);
    SortedStacks(cfg.stacks);
    SyncNeverRestarts(w, Prepared(h, cfg, exec), SortedKeys(cfg.filesets.Keys), cfg.filesets, LabelledVolumes(h) + DesiredVolumes(cfg), FilesetCache(exec));
    StacksTouchNothing(w, FilesetsSynced(w, h, cfg, exec).host, SortedKeys(cfg.stacks.Keys), cfg.stacks, StackCache(exec));
    forall e | e in a.calls ensures !e.call.Restart? {}
    RestartsLast(ev, a);
  }

  lemma {:induction false} RestartsLast(ev: seq<Event>, a: Applied)
    requires Performed(ev, a) && forall e :: e in a.calls ==> !e.call.Restart?
    ensures forall e :: e in ev && e.call.Restart? ==> e.ok && e.call.name in a.restarts
    ensures forall c :: c in a.restarts ==> Event(Restart(c), true) in ev
    ensures forall i, j :: 0 <= i < j < |ev| && ev[i].call.Restart? ==> ev[i] != ev[j]
  {
    var vs, ns, rs :| && ev == vs + ns + a.calls + rs
                      && Elements(vs) == VolumeEvents(a.volumes) && Elements(ns) == NetworkEvents(a.networks) && Elements(rs) == RestartEvents(a.restarts)
                      && NoDup(vs) && NoDup(ns) && NoDup(rs);
    var head := vs + ns + a.calls;
    forall e | e in head ensures !e.call.Restart? { if e in vs { assert e in Elements(vs); } if e in ns { assert e in Elements(ns); } }
    forall e | e in rs ensures e.call.Restart? && e.ok && e.call.name in a.restarts { assert e in Elements(rs); }
    forall c | c in a.restarts ensures Event(Restart(c), true) in ev { assert Event(Restart(c), true) in Elements(rs); }
    forall i, j | 0 <= i < j < |ev| && ev[i].call.Restart? ensures ev[i] != ev[j] {
      if i >= |head| { assert ev[i] == rs[i - |head|] && ev[j] == rs[j - |head|]; }
    }
  }
}
