/**
 A plan and the run that uses it are silent together: an undisturbed apply and prune make no call
 if and only if the plan counts nothing and carries no message of a change.
 */
module IdleRun {
  import opened Text
  import opened FilesetIndex
  import opened VolumeTree
  import opened DockerHost
  import opened FilesetSync
  import opened ServiceDetect
  import opened ContextState
  import opened Planning
  import opened PlanCounts
  import opened Applying
  import opened Pruning
  import opened Convergence
  import opened Fixpoint
  import opened Faithful

  /** Neither the apply nor the prune after it asks for a change. */
  ghost predicate Idle(w: World, h: Host, cfg: Config, exec: Option<ExecutionContext>) {
    var a := Apply(w, h, cfg, exec);
    && a.volumes == {} && a.networks == {} && a.calls == [] && a.restarts == {}
    && UnwantedContainers(w, a.host, cfg) == {} && UnwantedVolumes(a.host, cfg) == {} && UnwantedNetworks(a.host, cfg) == {}
  }

  /** No fileset entry without a name, which is not counted, announces a change. */
  ghost predicate NoMessages(p: ResourcePlan) {
    forall k, r :: k in p.filesets && r in p.filesets[k] && r.name == "" ==> r.action == Noop
  }

  ghost predicate AllNoop(rs: seq<Resource>) { forall r :: r in rs ==> r.action == Noop }

  /** No entry of the plan asks for anything. */
  ghost predicate NothingToDo(p: ResourcePlan) {
    && AllNoop(p.volumes) && AllNoop(p.networks)
    && (forall k :: k in p.stacks ==> AllNoop(p.stacks[k])) && (forall k :: k in p.filesets ==> AllNoop(p.filesets[k]))
  }

  lemma {:induction false} CountedOrMessage(p: ResourcePlan)
    ensures CountsNothing(p) && NoMessages(p) <==> NothingToDo(p)
  {
    hide CountsNothing;
    CountZero(p);
    if NothingToDo(p) {
      forall k, r | k in p.stacks && r in p.stacks[k] ensures r.action == Noop { assert AllNoop(p.stacks[k]); }
      forall k, r | k in p.filesets && r in p.filesets[k] ensures r.action == Noop { assert AllNoop(p.filesets[k]); }
    }
  }

  // ---------------------------------------------------------------- sections

  lemma {:induction false} TopNoop(rs: seq<Resource>, desired: set<string>, existing: set<string>, orphans: set<string>)
    requires Elements(rs) == TopEntries(desired, existing, orphans)
    ensures AllNoop(rs) <==> Named(rs, Create) == {} && Named(rs, Delete) == {}
  {
    assert forall r :: r in rs <==> r in Elements(rs);
    if Named(rs, Create) == {} && Named(rs, Delete) == {} {
      forall r | r in rs ensures r.action == Noop {
        assert r.action == Create ==> r.name in Named(rs, Create);
        assert r.action == Delete ==> r.name in Named(rs, Delete);
      }
    }
  }

  lemma {:induction false} TopSections(w: World, h: Host, cfg: Config, p: ResourcePlan)
    requires !cfg.targeted && PlanIs(w, h, cfg, p)
    ensures AllNoop(p.volumes) <==> Named(p.volumes, Create) == {} && Named(p.volumes, Delete) == {}
    ensures AllNoop(p.networks) <==> Named(p.networks, Create) == {} && Named(p.networks, Delete) == {}
  {
    hide DesiredVolumes, LabelledVolumes, LabelledNetworks, ComposeNetworks, StackEntries, FilesetResources, FilesetDataOf, TopEntries, Named, AllNoop,
         OrphanProjects;
    TopNoop(p.volumes, DesiredVolumes(cfg), LabelledVolumes(h), LabelledVolumes(h) - DesiredVolumes(cfg));
    TopNoop(p.networks, cfg.networks, LabelledNetworks(h), LabelledNetworks(h) - cfg.networks - ComposeNetworks(h));
  }

  /** A stack section is silent exactly when the stack is not pending and none of its services is to be deleted. */
  lemma {:induction false} StackNoop(rs: seq<Resource>)
    ensures AllNoop(rs) <==> !Pending(rs) && Named(rs, Delete) == {}
  {
    if !Pending(rs) && Named(rs, Delete) == {} {
      forall r | r in rs ensures r.action == Noop { assert r.action == Delete ==> r.name in Named(rs, Delete); }
    }
  }

  /** Entries under a key that is no stack of the configuration are deletions. */
  lemma {:induction false} NoStackNotPending(w: World, h: Host, cfg: Config, p: ResourcePlan, k: string)
    requires PlanIs(w, h, cfg, p) && k in p.stacks && k !in cfg.stacks
    ensures !Pending(p.stacks[k])
  {
    hide TopEntries, FilesetResources, FilesetDataOf, LabelledVolumes, LabelledNetworks, ComposeNetworks, OrphanServices, OrphanProjects, DesiredVolumes;
    forall r | r in p.stacks[k] ensures r.action == Delete {
      assert r in Elements(p.stacks[k]);
      assert r in StackEntries(w, h, cfg, k);
    }
  }

  /** All stack sections are silent exactly when every stack is current and no container is unwanted. */
  lemma {:induction false} StackSections(w: World, h: Host, cfg: Config, p: ResourcePlan)
    requires w.identifier != "" && !cfg.targeted && PlanIs(w, h, cfg, p)
    ensures (forall k :: k in p.stacks ==> AllNoop(p.stacks[k])) <==>
            (forall n :: n in cfg.stacks ==> StackCurrent(w, h, cfg.stacks[n])) && UnwantedContainers(w, h, cfg) == {}
  {
    hide PlanIs, StackCurrent, AllNoop, Pending, Named, UnwantedContainers;
    DeletesPlanned(w, h, cfg, p);
    NoPairs(w, h, cfg);
    forall k | k in p.stacks ensures AllNoop(p.stacks[k]) <==> !Pending(p.stacks[k]) && Named(p.stacks[k], Delete) == {} { StackNoop(p.stacks[k]); }
    forall n | n in cfg.stacks ensures n in p.stacks && (Pending(p.stacks[n]) <==> !StackCurrent(w, h, cfg.stacks[n])) { PendingIs(w, h, cfg, p, n); }
    forall k | k in p.stacks && k !in cfg.stacks ensures !Pending(p.stacks[k]) { NoStackNotPending(w, h, cfg, p, k); }
    DeletesByKey(p);
  }

  lemma {:induction false} DeletesByKey(p: ResourcePlan)
    ensures PlannedDeletes(p) == {} <==> forall k :: k in p.stacks ==> Named(p.stacks[k], Delete) == {}
  {
    if PlannedDeletes(p) == {} {
      forall k | k in p.stacks ensures Named(p.stacks[k], Delete) == {} {
        forall r | r in p.stacks[k] ensures r.action != Delete { assert r.action == Delete ==> (k, r.name) in PlannedDeletes(p); }
      }
    } else {
      var pair :| pair in PlannedDeletes(p);
      var k, r :| k in p.stacks && r in p.stacks[k] && r.action == Delete && pair == (k, r.name);
      assert r.name in Named(p.stacks[k], Delete);
    }
  }

  lemma {:induction false} NoPairs(w: World, h: Host, cfg: Config)
    ensures Pairs(h, UnwantedContainers(w, h, cfg)) == {} <==> UnwantedContainers(w, h, cfg) == {}
  {
    hide DesiredServices;
    if UnwantedContainers(w, h, cfg) != {} {
      var n :| n in UnwantedContainers(w, h, cfg);
      assert (h.containers[n].project, h.containers[n].service) in Pairs(h, UnwantedContainers(w, h, cfg));
    }
  }

  /** A fileset section is silent exactly when the tree hashes agree. */
  lemma {:induction false} FilesetNoop(f: FilesetData)
    ensures AllNoop(FilesetResources(f)) <==> !Differs(f)
  {
    var rs := FilesetResources(f);
    if Differs(f) {
      FileEntriesFiles(f.diff.toCreate, Create);
      FileEntriesFiles(f.diff.toUpdate, Update);
      PathEntriesFiles(f.diff.toDelete, Delete);
      if f.diff == NoChange {
        assert Resource("", Update) in rs;
      } else if f.diff.toCreate != [] {
        assert Resource(f.diff.toCreate[0].path, Create) in rs;
      } else if f.diff.toUpdate != [] {
        assert Resource(f.diff.toUpdate[0].path, Update) in rs;
      } else {
        assert Resource(f.diff.toDelete[0], Delete) in rs;
      }
    }
  }

  // ------------------------------------------------------------------- calls

  lemma {:induction false} ChangedCalls(w: World, h: Host, fs: Fileset, local: Index, remote: Index)
    ensures SyncCalls(w, h, fs, local, remote) == [] <==> local.treeHash == remote.treeHash
  {
    hide ColdNames, DiffOf, ExtractCalls, RemoveCalls;
  }

  /** Filesets are synchronised without a call exactly when no finding says that one has changed. */
  lemma {:induction false} SyncAllSilent(w: World, h: Host, names: seq<string>, filesets: map<string, Fileset>, existing: set<string>,
                                         data: map<string, FilesetData>)
    requires forall k :: k in names ==> k in filesets && k in data && filesets[k].volume in h.volumes
    ensures SyncAll(w, h, names, filesets, existing, Some(data)).calls == [] <==> forall k :: k in names ==> !Differs(data[k])
  {
    hide SyncCalls, SyncedHost, HotServices;
    if names != [] {
      var front, last := names[..|names| - 1], names[|names| - 1];
      SyncAllSilent(w, h, front, filesets, existing, data);
      SyncAllFrame(w, h, front, filesets, existing, Some(data));
      assert names == front + [last];
      ChangedCalls(w, SyncAll(w, h, front, filesets, existing, Some(data)).host, filesets[last], data[last].local, data[last].remote);
    }
  }

  /** The apply that uses a plan makes no ordered call exactly when no fileset has changed and every stack is current. */
  lemma {:induction false} CallsNone(w: World, h: Host, cfg: Config)
    requires w.identifier != ""
    ensures var a := Apply(w, h, cfg, Some(ExecOf(w, h, cfg)));
            && (a.calls == [] <==> (forall n :: n in cfg.filesets ==> !Differs(FilesetDataOf(h, cfg.filesets[n]))) &&
                                   (forall n :: n in cfg.stacks ==> StackCurrent(w, h, cfg.stacks[n])))
            && (a.calls == [] ==> a.restarts == {})
  {
    hide SyncAll, StacksAll, Prepared, SortedKeys, Listed, SetRunning, StackCurrent, LabelledVolumes, DesiredVolumes, FilesetDataOf, StacksExec, NeedsUp;
    var exec := Some(ExecOf(w, h, cfg));
    var h2, names, keys := Prepared(h, cfg, exec), SortedKeys(cfg.filesets.Keys), SortedKeys(cfg.stacks.Keys);
    var data, existing := FilesetsExec(h, cfg), LabelledVolumes(h) + DesiredVolumes(cfg);
    SortedKeysIn(cfg.filesets);
    SortedStacks(cfg.stacks);
    VolumesReady(h, cfg, exec);
    forall n | n in cfg.filesets ensures n in names { KeyListed(cfg.filesets, n); }
    SyncAllSilent(w, h2, names, cfg.filesets, existing, data);
    var h3 := FilesetsSynced(w, h, cfg, exec).host;
    forall n | n in cfg.stacks ensures n in keys { assert n in Elements(keys); }
    StacksAllSilent(w, h, h3, cfg, keys);
    if Apply(w, h, cfg, exec).calls == [] {
      SyncAllIdle(w, h2, names, cfg.filesets, existing, Some(data));
      assert RestartNames(Listed(w, StacksApplied(w, h, cfg, exec).host), {}) == {};
    }
  }

  lemma {:induction false} StacksAllSilent(w: World, h: Host, h0: Host, cfg: Config, names: seq<string>)
    requires w.identifier != "" && forall n :: n in names ==> n in cfg.stacks
    ensures StacksAll(w, h0, names, cfg.stacks, Some(StacksExec(w, h, cfg))).calls == [] <==>
            forall n :: n in names ==> StackCurrent(w, h, cfg.stacks[n])
  {
    hide StacksExec, NeedsUp, StackCurrent, RelabelCalls, ListedRunning, Relabelled;
    if names != [] {
      var front, last := names[..|names| - 1], names[|names| - 1];
      StacksAllSilent(w, h, h0, cfg, front);
      NeedsUpPlanned(w, h, StacksAll(w, h0, front, cfg.stacks, Some(StacksExec(w, h, cfg))).host, cfg, last);
      assert names == front + [last];
    }
  }

  lemma {:induction false} NoStrays(w: World, h: Host, cfg: Config)
    requires forall n :: n in cfg.stacks ==> StackCurrent(w, h, cfg.stacks[n])
    ensures Strays(w, h, cfg) == {}
  {
    hide StackCurrent, DesiredServices;
    assert BroughtProjects(w, h, cfg, cfg.stacks.Keys) == {};
  }

  lemma {:induction false} FilesetSections(h: Host, cfg: Config, p: ResourcePlan)
    requires p.filesets.Keys == cfg.filesets.Keys
    requires forall n :: n in p.filesets ==> p.filesets[n] == FilesetResources(FilesetDataOf(h, cfg.filesets[n]))
    ensures (forall k :: k in p.filesets ==> AllNoop(p.filesets[k])) <==> forall n :: n in cfg.filesets ==> !Differs(FilesetDataOf(h, cfg.filesets[n]))
  {
    hide AllNoop, FilesetResources, FilesetDataOf, Differs;
    forall n | n in cfg.filesets ensures AllNoop(p.filesets[n]) <==> !Differs(FilesetDataOf(h, cfg.filesets[n])) {
      FilesetNoop(FilesetDataOf(h, cfg.filesets[n]));
    }
  }

  /** An undisturbed run that uses its plan makes no call if and only if the plan counts nothing and has no message of a change. */
  lemma {:induction false} IdleExactly(w: World, h: Host, cfg: Config, p: ResourcePlan)
    requires Lawful(w) && ValidConfig(w, cfg) && !cfg.targeted && PlanIs(w, h, cfg, p)
    requires (cfg.networks - LabelledNetworks(h)) !! h.networks.Keys
    ensures Idle(w, h, cfg, Some(ExecOf(w, h, cfg))) <==> CountsNothing(p) && NoMessages(p)
  {
    hide Apply, CountsNothing, NoMessages, AllNoop, Named, UnwantedContainers, UnwantedVolumes, UnwantedNetworks, ValidConfig, LawfulUp, Digests,
         StackCurrent, FilesetDataOf, FilesetResources, Differs, Strays, StackEntries, TopEntries, OrphanProjects, LabelledVolumes, ComposeNetworks,
         DesiredVolumes, FilesetsExec, StacksExec;
    var exec := Some(ExecOf(w, h, cfg));
    CountedOrMessage(p);
    FilesetSections(h, cfg, p);
    hide PlanIs;
    TopSections(w, h, cfg, p);
    StackSections(w, h, cfg, p);
    TopLevelFaithful(w, h, cfg, exec, p);
    CallsNone(w, h, cfg);
    RemovedContainers(w, h, cfg);
    if forall n :: n in cfg.stacks ==> StackCurrent(w, h, cfg.stacks[n]) { NoStrays(w, h, cfg); }
  }
}
