/**
 What holds of a whole run on one context: after an undisturbed apply and prune, a new plan
 has nothing to do, exactly when two conditions on the start hold.
 */
module Convergence {
  import opened Text
  import opened FilesetIndex
  import opened VolumeTree
  import opened DockerHost
  import opened FilesetSync
  import opened ServiceDetect
  import opened ContextState
  import opened Planning
  import opened PlanCounts
  import opened Applying
  import opened Pruning

  // -------------------------------------------------- what each stage preserves

  /** A synchronisation changes volume contents and running flags, nothing else. */
  ghost predicate SyncFrame(h: Host, h': Host) {
    && h'.networks == h.networks
    && h'.volumes.Keys == h.volumes.Keys
    && (forall v :: v in h.volumes ==> h'.volumes[v].labelled == h.volumes[v].labelled)
    && h'.containers.Keys == h.containers.Keys
    && (forall n :: n in h.containers ==> h'.containers[n].(running := true) == h.containers[n].(running := true))
  }

  /** Bringing stacks up keeps volumes and networks and adds only unlabelled volumes and owned networks. */
  ghost predicate UpFrame(h: Host, h': Host) {
    && (forall v :: v in h.volumes ==> v in h'.volumes && h'.volumes[v] == h.volumes[v])
    && (forall v :: v in h'.volumes && v !in h.volumes ==> !h'.volumes[v].labelled)
    && (forall n :: n in h.networks ==> n in h'.networks && h'.networks[n] == h.networks[n])
    && (forall n :: n in h'.networks && n !in h.networks ==> h'.networks[n].owned)
  }

  lemma {:induction false} SyncOneFrame(w: World, h: Host, name: string, fs: Fileset, existing: set<string>, cached: Option<map<string, FilesetData>>)
    ensures SyncFrame(h, SyncOne(w, h, name, fs, existing, cached).host)
  {
    hide ColdNames, Inputs, ChangeOf, HotServices, SyncCalls;
  }

  lemma {:induction false} SyncFrameTrans(a: Host, b: Host, c: Host)
    requires SyncFrame(a, b) && SyncFrame(b, c)
    ensures SyncFrame(a, c)
  {
    forall n | n in a.containers ensures c.containers[n].(running := true) == a.containers[n].(running := true) {
      assert n in b.containers;
    }
  }

  lemma {:induction false} SyncAllFrame(w: World, h: Host, names: seq<string>, filesets: map<string, Fileset>, existing: set<string>,
                                        cached: Option<map<string, FilesetData>>)
    requires forall n :: n in names ==> n in filesets
    ensures SyncFrame(h, SyncAll(w, h, names, filesets, existing, cached).host)
  {
    hide SyncOne;
    if names != [] {
      var front, last := names[..|names| - 1], names[|names| - 1];
      SyncAllFrame(w, h, front, filesets, existing, cached);
      var mid := SyncAll(w, h, front, filesets, existing, cached).host;
      SyncOneFrame(w, mid, last, filesets[last], existing, cached);
      SyncFrameTrans(h, mid, SyncOne(w, mid, last, filesets[last], existing, cached).host);
    }
  }

  lemma {:induction false} BroughtFrame(w: World, h: Host, s: Stack)
    requires LawfulUp(w.up)
    ensures UpFrame(h, Brought(w, h, s).host)
  {
    assert UpPost(h, s, w.up(h, s));
  }

  lemma {:induction false} UpFrameTrans(a: Host, b: Host, c: Host)
    requires UpFrame(a, b) && UpFrame(b, c)
    ensures UpFrame(a, c)
  {
    forall v | v in c.volumes && v !in a.volumes ensures !c.volumes[v].labelled {
      assert v in b.volumes ==> c.volumes[v] == b.volumes[v];
    }
    forall n | n in c.networks && n !in a.networks ensures c.networks[n].owned {
      assert n in b.networks ==> c.networks[n] == b.networks[n];
    }
  }

  lemma {:induction false} StacksAllFrame(w: World, h: Host, names: seq<string>, stacks: map<string, Stack>,
                                          cached: Option<map<string, StackData>>)
    requires LawfulUp(w.up) && forall n :: n in names ==> n in stacks
    ensures UpFrame(h, StacksAll(w, h, names, stacks, cached).host)
  {
    hide Brought, NeedsUp, LawfulUp;
    if names != [] {
      var front, last := names[..|names| - 1], names[|names| - 1];
      StacksAllFrame(w, h, front, stacks, cached);
      var mid := StacksAll(w, h, front, stacks, cached).host;
      BroughtFrame(w, mid, stacks[last]);
      if NeedsUp(w, mid, last, stacks[last], cached) {
        UpFrameTrans(h, mid, Brought(w, mid, stacks[last]).host);
      }
    }
  }

  // ------------------------------------------------------- volumes and networks

  /** The states an apply passes through: what is missing is created, filesets are synchronised, stacks brought up. */
  ghost predicate Stages(h: Host, cfg: Config, exec: Option<ExecutionContext>, h2: Host, h3: Host, a: Host) {
    && h2 == Prepared(h, cfg, exec)
    && SyncFrame(h2, h3)
    && UpFrame(h3, a)
  }

  /** Volumes and networks in `a` come from the synchronised state by bringing up some stacks. */
  ghost predicate Reached(w: World, h: Host, cfg: Config, exec: Option<ExecutionContext>, a: Host) {
    UpFrame(FilesetsSynced(w, h, cfg, exec).host, a)
  }

  lemma {:induction false} ReachedStages(w: World, h: Host, cfg: Config, exec: Option<ExecutionContext>, a: Host)
    requires Reached(w, h, cfg, exec, a)
    ensures Stages(h, cfg, exec, Prepared(h, cfg, exec), FilesetsSynced(w, h, cfg, exec).host, a)
  {
    hide SyncAll, SortedKeys, SyncFrame, UpFrame, Prepared;
    SortedKeysIn(cfg.filesets);
    SyncAllFrame(w, Prepared(h, cfg, exec), SortedKeys(cfg.filesets.Keys), cfg.filesets,
                 LabelledVolumes(h) + DesiredVolumes(cfg), FilesetCache(exec));
  }

  lemma {:induction false} ApplyReaches(w: World, h: Host, cfg: Config, exec: Option<ExecutionContext>)
    requires LawfulUp(w.up)
    ensures Reached(w, h, cfg, exec, Apply(w, h, cfg, exec).host)
  {
    hide SyncAll, StacksAll, SortedKeys, FilesetsSynced, RestartNames, LawfulUp;
    SortedStacks(cfg.stacks);
    StacksAllFrame(w, FilesetsSynced(w, h, cfg, exec).host, SortedKeys(cfg.stacks.Keys), cfg.stacks, StackCache(exec));
  }

  /** After an apply the labelled volumes are the old ones and the created ones. */
  lemma {:induction false} AppliedVolumes(h: Host, cfg: Config, exec: Option<ExecutionContext>, h2: Host, h3: Host, a: Host)
    requires Stages(h, cfg, exec, h2, h3, a)
    ensures LabelledVolumes(a) == LabelledVolumes(h) + (DesiredVolumes(cfg) - h.volumes.Keys)
    ensures DesiredVolumes(cfg) <= a.volumes.Keys
  {
    hide DesiredVolumes;
    forall v ensures v in LabelledVolumes(a) <==> v in LabelledVolumes(h) + (DesiredVolumes(cfg) - h.volumes.Keys) {
      assert v in h2.volumes <==> v in h.volumes || v in DesiredVolumes(cfg);
      assert v in h2.volumes ==> (v in LabelledVolumes(h2) <==> v in LabelledVolumes(h) || v !in h.volumes);
    }
    forall v | v in DesiredVolumes(cfg) ensures v in a.volumes { assert v in h2.volumes && v in h3.volumes; }
  }

  /** Every declared network exists with the label. */
  lemma {:induction false} AppliedNetworks(h: Host, cfg: Config, exec: Option<ExecutionContext>, h2: Host, h3: Host, a: Host)
    requires Stages(h, cfg, exec, h2, h3, a)
    requires exec.Some? ==> exec.value.networks == LabelledNetworks(h)
    requires (cfg.networks - KnownNetworks(h, exec)) !! h.networks.Keys
    ensures cfg.networks <= LabelledNetworks(a)
    ensures LabelledNetworks(a) - ComposeNetworks(a) == LabelledNetworks(h) - ComposeNetworks(h) + (cfg.networks - LabelledNetworks(h))
  {
    hide SyncFrame;
    assert KnownNetworks(h, exec) == LabelledNetworks(h);
    assert h3.networks == h2.networks by { SyncKeepsNetworks(h2, h3); }
    forall n | n in cfg.networks ensures n in LabelledNetworks(a) { assert n in h2.networks && h2.networks[n].labelled; }
    forall n ensures n in LabelledNetworks(a) - ComposeNetworks(a) <==>
                     n in LabelledNetworks(h) - ComposeNetworks(h) + (cfg.networks - LabelledNetworks(h))
    {
      assert n in h2.networks <==> n in h.networks || n in cfg.networks - LabelledNetworks(h);
    }
  }

  lemma {:induction false} SyncKeepsNetworks(h: Host, h': Host)
    requires SyncFrame(h, h')
    ensures h'.networks == h.networks
  {
  }

  lemma {:induction false} PrunedLists(w: World, a: Host, cfg: Config)
    requires !cfg.targeted
    ensures LabelledVolumes(Pruned(w, a, cfg)) == LabelledVolumes(a) * DesiredVolumes(cfg)
    ensures LabelledNetworks(Pruned(w, a, cfg)) - cfg.networks - ComposeNetworks(Pruned(w, a, cfg)) == {}
    ensures LabelledNetworks(a) * cfg.networks <= LabelledNetworks(Pruned(w, a, cfg))
  {
    hide DesiredVolumes, UnwantedContainers;
  }

  /** Volumes and networks after apply and prune: nothing is missing, nothing is left over. */
  lemma {:induction false} TopLevelState(w: World, h: Host, cfg: Config, exec: Option<ExecutionContext>, a: Host)
    requires Reached(w, h, cfg, exec, a) && !cfg.targeted && (exec.Some? ==> exec.value.networks == LabelledNetworks(h))
    requires (cfg.networks - KnownNetworks(h, exec)) !! h.networks.Keys
    ensures var after := Pruned(w, a, cfg);
            && (Adopted(h, cfg) <==> DesiredVolumes(cfg) <= LabelledVolumes(after))
            && LabelledVolumes(after) <= DesiredVolumes(cfg)
            && cfg.networks <= LabelledNetworks(after)
            && LabelledNetworks(after) - cfg.networks - ComposeNetworks(after) == {}
  {
    hide Pruned, DesiredVolumes, LabelledVolumes, LabelledNetworks, ComposeNetworks, StackEntries, FilesetResources, FilesetDataOf,
         SyncFrame, UpFrame, Prepared, FilesetsSynced;
    ReachedStages(w, h, cfg, exec, a);
    AppliedVolumes(h, cfg, exec, Prepared(h, cfg, exec), FilesetsSynced(w, h, cfg, exec).host, a);
    AppliedNetworks(h, cfg, exec, Prepared(h, cfg, exec), FilesetsSynced(w, h, cfg, exec).host, a);
    PrunedLists(w, a, cfg);
    AdoptedIs(h, cfg);
  }

  /** The volume and network sections of a plan after apply and prune. */
  lemma {:induction false} TopLevelSettled(w: World, h: Host, cfg: Config, exec: Option<ExecutionContext>, a: Host, p: ResourcePlan)
    requires Reached(w, h, cfg, exec, a) && !cfg.targeted && (exec.Some? ==> exec.value.networks == LabelledNetworks(h))
    requires (cfg.networks - KnownNetworks(h, exec)) !! h.networks.Keys
    requires PlanIs(w, Pruned(w, a, cfg), cfg, p)
    ensures (forall r :: r in p.volumes ==> r.action == Noop) <==> Adopted(h, cfg)
    ensures forall r :: r in p.networks ==> r.action == Noop
  {
    hide Reached, Pruned, DesiredVolumes, LabelledVolumes, LabelledNetworks, ComposeNetworks, StackEntries, FilesetResources, FilesetDataOf;
    var after := Pruned(w, a, cfg);
    TopLevelState(w, h, cfg, exec, a);
    assert LabelledVolumes(after) - DesiredVolumes(cfg) == {};
    QuietTop(p.volumes, DesiredVolumes(cfg), LabelledVolumes(after));
    QuietTop(p.networks, cfg.networks, LabelledNetworks(after));
  }

  lemma {:induction false} AdoptedIs(h: Host, cfg: Config)
    ensures Adopted(h, cfg) <==> DesiredVolumes(cfg) * h.volumes.Keys <= LabelledVolumes(h)
  {
    hide DesiredVolumes;
    if DesiredVolumes(cfg) * h.volumes.Keys <= LabelledVolumes(h) {
      forall v | v in DesiredVolumes(cfg) && v in h.volumes ensures h.volumes[v].labelled {
        assert v in DesiredVolumes(cfg) * h.volumes.Keys;
      }
    }
  }

  lemma {:induction false} QuietTop(rs: seq<Resource>, desired: set<string>, existing: set<string>)
    requires Elements(rs) == TopEntries(desired, existing, {})
    ensures (forall r :: r in rs ==> r.action == Noop) <==> desired <= existing
  {
    assert forall r :: r in rs <==> r in Elements(rs);
    forall n | n in desired ensures Resource(n, if n in existing then Noop else Create) in rs {}
  }

  // ------------------------------------------------------------------- stacks

  lemma {:induction false} RelabelledRunning(w: World, h: Host, names: set<string>, project: string)
    ensures RunningIn(Relabelled(w, h, names), project) == RunningIn(h, project)
  {
  }

  lemma {:induction false} NamesOfRunning(h: Host, project: string)
    ensures NamesOf(ListedRunning(h, project)) == RunningIn(h, project)
  {
    hide RunningIn;
    forall n | n in RunningIn(h, project) ensures n in NamesOf(ListedRunning(h, project)) {
      RunningExist(h, project, n);
      RunningMembers(h, project, Brief(h, n));
    }
    forall n | n in NamesOf(ListedRunning(h, project)) ensures n in RunningIn(h, project) {
      var b :| b in ListedRunning(h, project) && b.name == n;
      RunningMembers(h, project, b);
    }
  }

  lemma {:induction false} RunningExist(h: Host, project: string, n: string)
    requires n in RunningIn(h, project)
    ensures n in h.containers
  {
  }

  /** After labelling, exactly the running containers of the project carry the identifier anew. */
  lemma {:induction false} BroughtHost(w: World, h: Host, s: Stack)
    ensures Brought(w, h, s).host == Relabelled(w, w.up(h, s), RunningIn(w.up(h, s), s.project))
  {
    hide RunningIn, ListedRunning, RelabelCalls, Relabelled;
    NamesOfRunning(w.up(h, s), s.project);
  }

  lemma {:induction false} UpRuns(h: Host, s: Stack, h': Host, svc: string) returns (n: string)
    requires UpPost(h, s, h') && svc in s.services
    ensures n in RunningIn(h', s.project) && h'.containers[n].service == svc
  {
    n :| n in RunningIn(h', s.project) && h'.containers[n].service == svc;
  }

  lemma {:induction false} UpHashes(h: Host, s: Stack, h': Host, n: string)
    requires UpPost(h, s, h') && n in RunningIn(h', s.project) && h'.containers[n].service in s.services
    ensures h'.containers[n].hash == s.services[h'.containers[n].service]
  {
  }

  /** `compose up` and labelling make every planned service current. */
  lemma {:induction false} BroughtCurrent(w: World, h: Host, s: Stack)
    requires LawfulUp(w.up)
    ensures StackCurrent(w, Brought(w, h, s).host, s)
  {
    hide RunningMap, Brought, UpPost, RunningIn;
    var up, after := w.up(h, s), Brought(w, h, s).host;
    assert UpPost(h, s, up);
    BroughtHost(w, h, s);
    RelabelledRunning(w, up, RunningIn(up, s.project), s.project);
    forall svc | svc in s.services ensures ServiceCurrent(w, after, s, svc) {
      var n := UpRuns(h, s, up, svc);
      RunningExist(up, s.project, n);
      RunningMapIs(after, s.project, svc);
      var m := RunningMap(after, s.project)[svc];
      RunningExist(up, s.project, m);
      UpHashes(h, s, up, m);
    }
  }

  /** Other projects do not notice. */
  lemma {:induction false} BroughtElsewhere(w: World, h: Host, s: Stack, project: string)
    requires LawfulUp(w.up) && project != s.project
    ensures SameProject(h, Brought(w, h, s).host, project)
  {
    hide Brought;
    assert UpPost(h, s, w.up(h, s));
    BroughtHost(w, h, s);
  }

  lemma {:induction false} SameProjectTrans(a: Host, b: Host, c: Host, project: string)
    requires SameProject(a, b, project) && SameProject(b, c, project)
    ensures SameProject(a, c, project)
  {
  }

  /** Where a plan found nothing to do for a stack, there is nothing to do. */
  ghost predicate CacheHonest(w: World, h: Host, names: seq<string>, stacks: map<string, Stack>, cached: Option<map<string, StackData>>)
    requires forall n :: n in names ==> n in stacks
  {
    cached.Some? ==> forall n :: n in names && n in cached.value && (cached.value[n].services == [] || !cached.value[n].needsApply) ==>
                       StackCurrent(w, h, stacks[n])
  }

  ghost predicate ProjectsDiffer(names: seq<string>, stacks: map<string, Stack>)
    requires forall n :: n in names ==> n in stacks
  {
    forall i, j :: 0 <= i < j < |names| ==> stacks[names[i]].project != stacks[names[j]].project
  }

  lemma {:induction false} StacksAllElsewhere(w: World, h: Host, names: seq<string>, stacks: map<string, Stack>,
                                              cached: Option<map<string, StackData>>, project: string)
    requires LawfulUp(w.up) && forall n :: n in names ==> n in stacks
    requires forall n :: n in names ==> stacks[n].project != project
    ensures SameProject(h, StacksAll(w, h, names, stacks, cached).host, project)
  {
    hide Brought, NeedsUp, LawfulUp;
    if names != [] {
      var front, last := names[..|names| - 1], names[|names| - 1];
      StacksAllElsewhere(w, h, front, stacks, cached, project);
      var mid := StacksAll(w, h, front, stacks, cached).host;
      if NeedsUp(w, mid, last, stacks[last], cached) {
        BroughtElsewhere(w, mid, stacks[last], project);
        SameProjectTrans(h, mid, Brought(w, mid, stacks[last]).host, project);
      }
    }
  }

  /** One stack of the sequence: current afterwards, whether or not it was brought up. */
  lemma {:induction false} LastCurrent(w: World, h: Host, mid: Host, name: string, s: Stack, cached: Option<map<string, StackData>>)
    requires Lawful(w) && SameProject(h, mid, s.project)
    requires cached.Some? && name in cached.value && (cached.value[name].services == [] || !cached.value[name].needsApply) ==> StackCurrent(w, h, s)
    ensures StackCurrent(w, StackOne(w, mid, name, s, cached).host, s)
  {
    hide Brought, StackCurrent, Detected, LawfulUp, Digests, SameProject;
    BroughtCurrent(w, mid, s);
    if !NeedsUp(w, mid, name, s, cached) {
      NeedsApplyIs(w, mid, s);
      CurrentStable(w, h, mid, s);
    }
  }

  lemma {:induction false} StacksAllCurrent(w: World, h: Host, names: seq<string>, stacks: map<string, Stack>,
                                            cached: Option<map<string, StackData>>)
    requires Lawful(w) && (forall n :: n in names ==> n in stacks) && ProjectsDiffer(names, stacks)
    requires CacheHonest(w, h, names, stacks, cached)
    ensures forall n :: n in names ==> StackCurrent(w, StacksAll(w, h, names, stacks, cached).host, stacks[n])
  {
    hide StackCurrent, StackOne, LawfulUp, Digests, SameProject;
    if names != [] {
      var front, last := names[..|names| - 1], names[|names| - 1];
      StacksAllCurrent(w, h, front, stacks, cached);
      var mid := StacksAll(w, h, front, stacks, cached).host;
      var s := stacks[last];
      StacksAllElsewhere(w, h, front, stacks, cached, s.project);
      LastCurrent(w, h, mid, last, s, cached);
      forall n | n in front ensures StackCurrent(w, StackOne(w, mid, last, s, cached).host, stacks[n]) {
        OneElsewhere(w, mid, last, s, cached, stacks[n].project);
        CurrentStable(w, mid, StackOne(w, mid, last, s, cached).host, stacks[n]);
      }
    }
  }

  lemma {:induction false} OneElsewhere(w: World, h: Host, name: string, s: Stack, cached: Option<map<string, StackData>>, project: string)
    requires LawfulUp(w.up) && project != s.project
    ensures SameProject(h, StackOne(w, h, name, s, cached).host, project)
  {
    hide Brought, NeedsUp, LawfulUp;
    BroughtElsewhere(w, h, s, project);
  }

  // -------------------------------------------- starting and stopping containers

  lemma {:induction false} StopListFirsts(items: seq<PsBrief>, services: seq<string>, n: string)
    requires n in StopList(items, services)
    ensures exists svc :: FirstOf(items, svc) == Some(n)
  {
    hide FirstOf;
    if services != [] {
      var front := StopList(items, services[..|services| - 1]);
      if n in front { StopListFirsts(items, services[..|services| - 1], n); }
    }
  }

  lemma {:induction false} ColdAreFirst(w: World, h: Host, fs: Fileset, n: string)
    requires n in ColdNames(w, h, fs)
    ensures IsFirst(w, h, n)
  {
    hide TargetServices, Listed, IsFirst;
    StopListFirsts(Listed(w, h), TargetServices(w, h, fs), n);
    var svc :| FirstOf(Listed(w, h), svc) == Some(n);
    FirstOfListed(w, h, svc);
  }

  lemma {:induction false} SyncOneKeepsCurrent(w: World, h: Host, name: string, fs: Fileset, existing: set<string>,
                            cached: Option<map<string, FilesetData>>, s: Stack)
    requires ValidStack(s) && StackCurrent(w, h, s)
    ensures StackCurrent(w, SyncOne(w, h, name, fs, existing, cached).host, s)
  {
    hide StackCurrent, ColdNames, IsFirst, Inputs, SyncedVolume, HotServices, SyncCalls;
    var names := Elements(ColdNames(w, h, fs));
    forall n | n in names ensures IsFirst(w, h, n) { ColdAreFirst(w, h, fs, n); }
    StartFirsts(w, h, s, names);
    var started := h.(containers := SetRunning(h.containers, names, true));
    var after := SyncOne(w, h, name, fs, existing, cached).host;
    if after.containers == started.containers {
      CurrentStable(w, started, after, s);
    } else {
      CurrentStable(w, h, after, s);
    }
  }

  lemma {:induction false} SyncAllKeepsCurrent(w: World, h: Host, names: seq<string>, filesets: map<string, Fileset>, existing: set<string>,
                                               cached: Option<map<string, FilesetData>>, s: Stack)
    requires (forall n :: n in names ==> n in filesets) && ValidStack(s) && StackCurrent(w, h, s)
    ensures StackCurrent(w, SyncAll(w, h, names, filesets, existing, cached).host, s)
  {
    hide SyncOne, StackCurrent, ValidStack;
    if names != [] {
      var front, last := names[..|names| - 1], names[|names| - 1];
      SyncAllKeepsCurrent(w, h, front, filesets, existing, cached, s);
      SyncOneKeepsCurrent(w, SyncAll(w, h, front, filesets, existing, cached).host, last, filesets[last], existing, cached, s);
    }
  }

  lemma {:induction false} RestartKeepsCurrent(w: World, h: Host, pending: set<string>, s: Stack)
    requires ValidStack(s) && StackCurrent(w, h, s)
    ensures StackCurrent(w, h.(containers := SetRunning(h.containers, RestartNames(Listed(w, h), pending), true)), s)
  {
    hide StackCurrent, Listed, IsFirst, SetRunning;
    var names := RestartNames(Listed(w, h), pending);
    forall n | n in names ensures IsFirst(w, h, n) {
      var svc :| svc in pending && FirstOf(Listed(w, h), svc).Some? && FirstOf(Listed(w, h), svc).value == n;
      FirstOfListed(w, h, svc);
    }
    StartFirsts(w, h, s, names);
  }

  lemma {:induction false} PruneKeepsCurrent(w: World, a: Host, cfg: Config, name: string)
    requires name in cfg.stacks
    ensures StackCurrent(w, Pruned(w, a, cfg), cfg.stacks[name]) <==> StackCurrent(w, a, cfg.stacks[name])
  {
    hide StackCurrent, UnwantedVolumes, UnwantedNetworks;
    var s, p := cfg.stacks[name], Pruned(w, a, cfg);
    forall svc | svc in s.services ensures Replicas(a, s.project, svc) == Replicas(p, s.project, svc) {
      assert svc in DesiredServices(cfg);
    }
    if StackCurrent(w, a, s) { CurrentByReplicas(w, a, p, s); }
    if StackCurrent(w, p, s) { CurrentByReplicas(w, p, a, s); }
  }

  lemma {:induction false} StackCacheHonest(w: World, h: Host, h3: Host, cfg: Config, exec: Option<ExecutionContext>, n: string)
    requires w.identifier != "" && PlannedHere(w, h, cfg, exec) && n in cfg.stacks
    requires StackCurrent(w, h, cfg.stacks[n]) ==> StackCurrent(w, h3, cfg.stacks[n])
    requires exec.Some? && n in exec.value.stacks && (exec.value.stacks[n].services == [] || !exec.value.stacks[n].needsApply)
    ensures StackCurrent(w, h3, cfg.stacks[n])
  {
    hide StackCurrent, Detected;
    var s := cfg.stacks[n];
    NeedsApplyIs(w, h, s);
    DetectedLength(w, h, s);
  }

  lemma {:induction false} DetectedLength(w: World, h: Host, s: Stack)
    ensures Detected(w, h, s) == [] <==> s.services == map[]
  {
    NoElements(SortedKeys(s.services.Keys));
  }

  /** After an apply, and after the prune that follows, every stack is current. */
  lemma {:induction false} StacksSettled(w: World, h: Host, cfg: Config, exec: Option<ExecutionContext>, name: string)
    requires Lawful(w) && ValidConfig(w, cfg) && PlannedHere(w, h, cfg, exec) && name in cfg.stacks
    ensures StackCurrent(w, Pruned(w, Apply(w, h, cfg, exec).host, cfg), cfg.stacks[name])
  {
    hide StackCurrent, Listed, SortedKeys, RestartNames, SetRunning, Digests, LawfulUp, ExecOf, Pruned, SyncAll, StacksAll, Prepared;
    var names := SortedKeys(cfg.stacks.Keys);
    SortedStacks(cfg.stacks);
    SortedKeysStrict(cfg.stacks.Keys);
    hide StrictlySorted;
    var h3 := FilesetsSynced(w, h, cfg, exec).host;
    forall n | n in names && exec.Some? && n in exec.value.stacks && (exec.value.stacks[n].services == [] || !exec.value.stacks[n].needsApply)
      ensures StackCurrent(w, h3, cfg.stacks[n])
    {
      if StackCurrent(w, h, cfg.stacks[n]) { SyncKeepsCurrent(w, h, cfg, exec, n); }
      StackCacheHonest(w, h, h3, cfg, exec, n);
    }
    StacksAllCurrent(w, h3, names, cfg.stacks, StackCache(exec));
    assert name in names by { assert name in Elements(names); }
    var h4 := StacksApplied(w, h, cfg, exec).host;
    RestartKeepsCurrent(w, h4, FilesetsSynced(w, h, cfg, exec).pending, cfg.stacks[name]);
    PruneKeepsCurrent(w, Apply(w, h, cfg, exec).host, cfg, name);
  }

  lemma {:induction false} SyncKeepsCurrent(w: World, h: Host, cfg: Config, exec: Option<ExecutionContext>, n: string)
    requires n in cfg.stacks && ValidStack(cfg.stacks[n]) && StackCurrent(w, h, cfg.stacks[n])
    ensures StackCurrent(w, FilesetsSynced(w, h, cfg, exec).host, cfg.stacks[n])
  {
    hide StackCurrent, SyncAll, SortedKeys, ValidStack;
    var h2 := Prepared(h, cfg, exec);
    assert h2.containers == h.containers;
    CurrentStable(w, h, h2, cfg.stacks[n]);
    SortedKeysIn(cfg.filesets);
    SyncAllKeepsCurrent(w, h2, SortedKeys(cfg.filesets.Keys), cfg.filesets, LabelledVolumes(h) + DesiredVolumes(cfg), FilesetCache(exec), cfg.stacks[n]);
  }

  lemma {:induction false} NoOrphansLeft(w: World, a: Host, cfg: Config, project: string)
    requires !cfg.targeted
    ensures OrphanServices(w, Pruned(w, a, cfg), cfg, project) == {} && OrphanProjects(w, Pruned(w, a, cfg), cfg) == {}
  {
    hide DesiredServices, UnwantedVolumes, UnwantedNetworks;
    var p := Pruned(w, a, cfg);
    forall n | n in Managed(w, p) ensures p.containers[n].service in DesiredServices(cfg) {
      assert n in Managed(w, a);
    }
  }

  lemma {:induction false} CurrentIsQuiet(w: World, h: Host, s: Stack, r: Resource)
    requires w.identifier != "" && StackCurrent(w, h, s) && r in StackResources(w, h, s)
    ensures r.action == Noop
  {
    if s.services != map[] {
      NeedsApplyIs(w, h, s);
      var infos := Detected(w, h, s);
      var i :| 0 <= i < |infos| && r == Resource(infos[i].name, ActionOf(infos[i].state));
      assert infos[i].state.Running?;
    }
  }

  /** A stack that is not current has an entry with something to do. */
  lemma {:induction false} StaleIsNoisy(w: World, h: Host, s: Stack) returns (r: Resource)
    requires w.identifier != "" && !StackCurrent(w, h, s)
    ensures r in StackResources(w, h, s) && r.action != Noop
  {
    hide StackCurrent;
    var infos := Detected(w, h, s);
    NeedsApplyIs(w, h, s);
    DetectedLength(w, h, s);
    var i :| 0 <= i < |infos| && !infos[i].state.Running?;
    r := ServiceResources(infos)[i];
  }

  /** Every planned service of every stack is current. */
  ghost predicate AllCurrent(w: World, h: Host, stacks: map<string, Stack>) { forall n :: n in stacks ==> StackCurrent(w, h, stacks[n]) }

  /** The stack section of a plan after a prune: quiet exactly if every stack is current. */
  lemma {:induction false} StackSectionSettled(w: World, a: Host, cfg: Config, p: ResourcePlan)
    requires w.identifier != "" && !cfg.targeted && PlanIs(w, Pruned(w, a, cfg), cfg, p)
    ensures (forall k, r :: k in p.stacks && r in p.stacks[k] ==> r.action == Noop) <==> AllCurrent(w, a, cfg.stacks)
  {
    hide StackCurrent, Pruned, StackResources, LabelledVolumes, LabelledNetworks, ComposeNetworks, OrphanServices, OrphanProjects,
         FilesetResources, FilesetDataOf, TopEntries;
    var after := Pruned(w, a, cfg);
    if AllCurrent(w, a, cfg.stacks) {
      forall k, r | k in p.stacks && r in p.stacks[k] ensures r.action == Noop {
        assert r in Elements(p.stacks[k]);
        NoOrphansLeft(w, a, cfg, k);
        assert r in StackEntries(w, after, cfg, k);
        assert k in cfg.stacks && r in StackResources(w, after, cfg.stacks[k]);
        PruneKeepsCurrent(w, a, cfg, k);
        CurrentIsQuiet(w, after, cfg.stacks[k], r);
      }
    } else {
      var k :| k in cfg.stacks && !StackCurrent(w, a, cfg.stacks[k]);
      PruneKeepsCurrent(w, a, cfg, k);
      var r := StaleIsNoisy(w, after, cfg.stacks[k]);
      NoOrphansLeft(w, a, cfg, k);
      assert r in Elements(p.stacks[k]);
    }
  }

  // ----------------------------------------------------------------- filesets

  /** Filesets that share a volume have the same files. */
  ghost predicate Consistent(filesets: map<string, Fileset>) {
    forall a, b :: a in filesets && b in filesets && filesets[a].volume == filesets[b].volume ==>
      filesets[a].local.treeHash == filesets[b].local.treeHash
  }

  /** The tree hash in a volume's index file. */
  ghost function StoredHash(h: Host, v: string): string {
    if v in h.volumes then RemoteOf(h.volumes[v].stored).treeHash else ""
  }

  /** The findings of a plan about filesets are those of the state `h`. */
  ghost predicate CacheOf(h: Host, filesets: map<string, Fileset>, cached: Option<map<string, FilesetData>>) {
    cached.Some? ==> forall n :: n in cached.value && n in filesets ==>
      cached.value[n].local == filesets[n].local && cached.value[n].remote.treeHash == StoredHash(h, filesets[n].volume)
  }

  lemma {:induction false} SyncOneHashes(w: World, h: Host, name: string, fs: Fileset, existing: set<string>, cached: Option<map<string, FilesetData>>, v: string)
    requires fs.volume in h.volumes && fs.volume in existing && Inputs(h, name, fs, existing, cached).0 == fs.local
    ensures var after := SyncOne(w, h, name, fs, existing, cached).host;
            StoredHash(after, v) == (if v == fs.volume && fs.local.treeHash != Inputs(h, name, fs, existing, cached).1.treeHash
                                     then fs.local.treeHash else StoredHash(h, v))
  {
    hide ColdNames, ChangeOf, HotServices, SyncCalls, Synced, SetRunning;
  }

  /**
   While filesets are synchronised one after the other: those done agree with their volume,
   the others' volumes hold what they held or what they should.
   */
  ghost predicate Settling(h0: Host, h: Host, names: seq<string>, filesets: map<string, Fileset>) {
    && (forall n :: n in filesets ==> StoredHash(h, filesets[n].volume) in {StoredHash(h0, filesets[n].volume), filesets[n].local.treeHash})
    && (forall n :: n in names && n in filesets ==> StoredHash(h, filesets[n].volume) == filesets[n].local.treeHash)
  }

  lemma {:induction false} SettlingStep(w: World, h0: Host, h: Host, names: seq<string>, last: string, filesets: map<string, Fileset>, existing: set<string>,
                     cached: Option<map<string, FilesetData>>)
    requires last in filesets && Consistent(filesets) && CacheOf(h0, filesets, cached) && Settling(h0, h, names, filesets)
    requires filesets[last].volume in h.volumes && filesets[last].volume in existing
    ensures Settling(h0, SyncOne(w, h, last, filesets[last], existing, cached).host, names + [last], filesets)
  {
    hide SyncOne, StoredHash;
    var fs, after := filesets[last], SyncOne(w, h, last, filesets[last], existing, cached).host;
    FreshHash(h, fs, existing);
    forall n | n in filesets ensures StoredHash(after, filesets[n].volume) in {StoredHash(h0, filesets[n].volume), filesets[n].local.treeHash} {
      SyncOneHashes(w, h, last, fs, existing, cached, filesets[n].volume);
    }
    forall n | n in names + [last] && n in filesets ensures StoredHash(after, filesets[n].volume) == filesets[n].local.treeHash {
      SyncOneHashes(w, h, last, fs, existing, cached, filesets[n].volume);
    }
  }

  lemma {:induction false} FreshHash(h: Host, fs: Fileset, existing: set<string>)
    requires fs.volume in h.volumes && fs.volume in existing
    ensures RemoteOf(h.volumes[fs.volume].stored).treeHash == StoredHash(h, fs.volume)
  {
  }

  lemma {:induction false} SyncAllSettles(w: World, h: Host, names: seq<string>, filesets: map<string, Fileset>, existing: set<string>,
                                          cached: Option<map<string, FilesetData>>)
    requires Consistent(filesets) && CacheOf(h, filesets, cached)
    requires forall n :: n in names ==> n in filesets && filesets[n].volume in h.volumes && filesets[n].volume in existing
    ensures Settling(h, SyncAll(w, h, names, filesets, existing, cached).host, names, filesets)
  {
    hide SyncOne, Consistent, CacheOf, Settling;
    if names == [] {
      SettlingStart(h, filesets);
    } else {
      var front, last := names[..|names| - 1], names[|names| - 1];
      SyncAllSettles(w, h, front, filesets, existing, cached);
      SyncAllFrame(w, h, front, filesets, existing, cached);
      SettlingStep(w, h, SyncAll(w, h, front, filesets, existing, cached).host, front, last, filesets, existing, cached);
      assert front + [last] == names;
    }
  }

  lemma {:induction false} SettlingStart(h: Host, filesets: map<string, Fileset>)
    ensures Settling(h, h, [], filesets)
  {
  }

  lemma {:induction false} SyncOneStored(w: World, h: Host, name: string, fs: Fileset, existing: set<string>, cached: Option<map<string, FilesetData>>, v: string)
    requires fs.volume in h.volumes && v in h.volumes && Inputs(h, name, fs, existing, cached).0 == fs.local
    ensures var after := SyncOne(w, h, name, fs, existing, cached).host;
            v in after.volumes && after.volumes[v].stored ==
            (if v == fs.volume && fs.local.treeHash != Inputs(h, name, fs, existing, cached).1.treeHash then Written(fs.local) else h.volumes[v].stored)
  {
    hide ColdNames, ChangeOf, HotServices, SyncCalls, Synced, SetRunning;
  }

  /** The volume's tree hash has not changed, and the filesets done so far have it. */
  ghost predicate Agreed(h0: Host, h: Host, done: seq<string>, filesets: map<string, Fileset>, v: string) {
    && StoredHash(h, v) == StoredHash(h0, v)
    && forall m :: m in done && m in filesets && filesets[m].volume == v ==> filesets[m].local.treeHash == StoredHash(h0, v)
  }

  /** The volume holds the index of one of its filesets. */
  ghost predicate Owned(h: Host, filesets: map<string, Fileset>, v: string) {
    v in h.volumes && exists k :: k in filesets && filesets[k].volume == v && h.volumes[v].stored == Written(filesets[k].local)
  }

  /** While filesets are synchronised one after the other, each volume is in one of these two states. */
  ghost predicate Traced(h0: Host, h: Host, done: seq<string>, filesets: map<string, Fileset>) {
    forall n :: n in filesets ==> Agreed(h0, h, done, filesets, filesets[n].volume) || Owned(h, filesets, filesets[n].volume)
  }

  lemma {:induction false} TracedStep(w: World, h0: Host, h: Host, done: seq<string>, last: string, filesets: map<string, Fileset>, existing: set<string>,
                   cached: Option<map<string, FilesetData>>)
    requires last in filesets && CacheOf(h0, filesets, cached) && Traced(h0, h, done, filesets)
    requires filesets[last].volume in existing && forall n :: n in filesets ==> filesets[n].volume in h.volumes
    ensures Traced(h0, SyncOne(w, h, last, filesets[last], existing, cached).host, done + [last], filesets)
  {
    hide SyncOne, StoredHash;
    var fs, after := filesets[last], SyncOne(w, h, last, filesets[last], existing, cached).host;
    FreshHash(h, fs, existing);
    forall n | n in filesets ensures Agreed(h0, after, done + [last], filesets, filesets[n].volume) || Owned(after, filesets, filesets[n].volume) {
      var v := filesets[n].volume;
      SyncOneHashes(w, h, last, fs, existing, cached, v);
      SyncOneStored(w, h, last, fs, existing, cached, v);
      if Owned(h, filesets, v) && after.volumes[v].stored == h.volumes[v].stored {
        var k :| k in filesets && filesets[k].volume == v && h.volumes[v].stored == Written(filesets[k].local);
        assert after.volumes[v].stored == Written(filesets[k].local);
      }
    }
  }

  lemma {:induction false} SyncAllTraced(w: World, h: Host, names: seq<string>, filesets: map<string, Fileset>, existing: set<string>,
                                         cached: Option<map<string, FilesetData>>)
    requires CacheOf(h, filesets, cached) && (forall n :: n in filesets ==> filesets[n].volume in h.volumes && filesets[n].volume in existing)
    requires forall n :: n in names ==> n in filesets
    ensures Traced(h, SyncAll(w, h, names, filesets, existing, cached).host, names, filesets)
  {
    hide SyncOne, CacheOf, Traced;
    if names == [] {
      TracedStart(h, filesets);
    } else {
      var front, last := names[..|names| - 1], names[|names| - 1];
      SyncAllTraced(w, h, front, filesets, existing, cached);
      SyncAllFrame(w, h, front, filesets, existing, cached);
      TracedStep(w, h, SyncAll(w, h, front, filesets, existing, cached).host, front, last, filesets, existing, cached);
      assert front + [last] == names;
    }
  }

  lemma {:induction false} TracedStart(h: Host, filesets: map<string, Fileset>)
    ensures Traced(h, h, [], filesets)
  {
  }

  /** No entry of these asks for a counted change. */
  ghost predicate Silent(rs: seq<Resource>) { forall r :: r in rs ==> r.action == Noop || r.name == "" }

  /** A plan is silent about a fileset whose labelled volume has its tree hash. */
  lemma {:induction false} EqualHashSilent(h: Host, fs: Fileset)
    requires fs.volume in LabelledVolumes(h) && StoredHash(h, fs.volume) == fs.local.treeHash
    ensures Silent(FilesetResources(FilesetDataOf(h, fs)))
  {
    hide DiffOf;
  }

  /** If the labelled volume holds a built index and the plan is silent, the index lists the fileset's files. */
  lemma {:induction false} SilentMeansEqual(w: World, h: Host, fs: Fileset, stored: Index)
    requires Digests(w.h) && ValidFileset(w, fs) && IsBuilt(w.h, stored)
    requires fs.volume in LabelledVolumes(h) && h.volumes[fs.volume].stored == Written(stored)
    requires Silent(FilesetResources(FilesetDataOf(h, fs)))
    ensures stored.files == fs.local.files
  {
    var diff := DiffOf(fs.local, stored);
    hide DiffOf, IsLocal, PrefixFree, IsBuilt, Digests;
    assert PlannedRemote(h, fs) == stored;
    BuiltOf(w, fs);
    TreeHashDecides(w.h, fs.local, stored);
    ShortcutIsSound(w.h, fs.local, stored);
    if fs.local.treeHash != stored.treeHash && diff != NoChange {
      NamedEntries(w, fs.local, stored, diff);
      ChangedNoisy(diff);
    }
  }

  lemma {:induction false} BuiltOf(w: World, fs: Fileset)
    requires ValidFileset(w, fs)
    ensures IsBuilt(w.h, fs.local)
  {
  }

  lemma {:induction false} ChangedNoisy(diff: Diff)
    requires diff != NoChange && AllNamed(diff)
    ensures exists r :: r in FileEntries(diff.toCreate, Create) + FileEntries(diff.toUpdate, Update) + PathEntries(diff.toDelete, Delete) &&
              r.action != Noop && r.name != ""
  {
    var rs := FileEntries(diff.toCreate, Create) + FileEntries(diff.toUpdate, Update) + PathEntries(diff.toDelete, Delete);
    if diff.toCreate != [] {
      assert FileEntries(diff.toCreate, Create)[0] == Resource(diff.toCreate[0].path, Create);
      assert Resource(diff.toCreate[0].path, Create) in rs;
    } else if diff.toUpdate != [] {
      assert FileEntries(diff.toUpdate, Update)[0] == Resource(diff.toUpdate[0].path, Update);
      assert Resource(diff.toUpdate[0].path, Update) in rs;
    } else {
      assert diff.toDelete[0] in diff.toDelete;
      assert PathEntries(diff.toDelete, Delete)[0] == Resource(diff.toDelete[0], Delete);
      assert Resource(diff.toDelete[0], Delete) in rs;
    }
  }

  ghost predicate AllNamed(diff: Diff) {
    && (forall e :: e in diff.toCreate || e in diff.toUpdate ==> e.path != "")
    && (forall p :: p in diff.toDelete ==> p != "")
  }

  lemma {:induction false} NamedEntries(w: World, local: Index, remote: Index, diff: Diff)
    requires IsBuilt(w.h, local) && (IsBuilt(w.h, remote) || remote == EmptyIndex) && DiffExact(diff, local, remote)
    ensures AllNamed(diff)
  {
    forall p | p in diff.toDelete ensures p != "" {
      assert p in Elements(diff.toDelete);
      var e :| e in remote.files && e.path == p;
    }
  }

  /** The findings about filesets and networks, if any, are those of a plan made in this state. */
  ghost predicate KnownHere(h: Host, cfg: Config, exec: Option<ExecutionContext>) {
    exec.Some? ==> exec.value.filesets == FilesetsExec(h, cfg) && exec.value.networks == LabelledNetworks(h)
  }

  /** What a plan knows of filesets, if no desired volume lacks the label. */
  lemma {:induction false} PlannedCache(w: World, h: Host, cfg: Config, exec: Option<ExecutionContext>)
    requires KnownHere(h, cfg, exec) && Adopted(h, cfg)
    ensures CacheOf(Prepared(h, cfg, exec), cfg.filesets, FilesetCache(exec))
  {
    hide StacksExec;
    var h2 := Prepared(h, cfg, exec);
    forall n | n in cfg.filesets
      ensures var v := cfg.filesets[n].volume;
              && v in h2.volumes && PlannedRemote(h, cfg.filesets[n]).treeHash == StoredHash(h2, v)
              && (v in h.volumes ==> h2.volumes[v] == h.volumes[v]) && (v !in h.volumes ==> h2.volumes[v].stored.Absent?)
    {
      assert cfg.filesets[n].volume in DesiredVolumes(cfg);
    }
  }

  /** From the end of the synchronisation to the end of the prune, a desired volume keeps what it holds. */
  lemma {:induction false} DesiredVolumeKept(w: World, h: Host, cfg: Config, exec: Option<ExecutionContext>, a: Host, v: string)
    requires Reached(w, h, cfg, exec, a) && v in DesiredVolumes(cfg)
    ensures var h3, after := FilesetsSynced(w, h, cfg, exec).host, Pruned(w, a, cfg);
            v in h3.volumes && v in after.volumes && after.volumes[v] == h3.volumes[v]
  {
    hide Prepared, FilesetsSynced;
    ReachedStages(w, h, cfg, exec, a);
    var h3 := FilesetsSynced(w, h, cfg, exec).host;
    assert v in Prepared(h, cfg, exec).volumes by { PreparedHas(h, cfg, exec, v); }
    hide DesiredVolumes;
    assert v in h3.volumes && a.volumes[v] == h3.volumes[v];
  }

  lemma {:induction false} PreparedHas(h: Host, cfg: Config, exec: Option<ExecutionContext>, v: string)
    requires v in DesiredVolumes(cfg)
    ensures v in Prepared(h, cfg, exec).volumes
  {
  }

  /** After the synchronisation every fileset's volume is traced, and up to date if filesets are consistent. */
  lemma {:induction false} AppliedFilesets(w: World, h: Host, cfg: Config, exec: Option<ExecutionContext>)
    requires KnownHere(h, cfg, exec) && Adopted(h, cfg)
    ensures Traced(Prepared(h, cfg, exec), FilesetsSynced(w, h, cfg, exec).host, SortedKeys(cfg.filesets.Keys), cfg.filesets)
    ensures Consistent(cfg.filesets) ==>
              forall n :: n in cfg.filesets ==> StoredHash(FilesetsSynced(w, h, cfg, exec).host, cfg.filesets[n].volume) == cfg.filesets[n].local.treeHash
  {
    hide SyncAll, SortedKeys, Prepared, ExecOf, StoredHash, Adopted, Consistent, CacheOf, FilesetCache, Traced;
    var names, h2 := SortedKeys(cfg.filesets.Keys), Prepared(h, cfg, exec);
    var existing := LabelledVolumes(h) + DesiredVolumes(cfg);
    SortedKeysIn(cfg.filesets);
    PlannedCache(w, h, cfg, exec);
    VolumesReady(h, cfg, exec);
    SyncAllTraced(w, h2, names, cfg.filesets, existing, FilesetCache(exec));
    if Consistent(cfg.filesets) {
      SyncAllSettles(w, h2, names, cfg.filesets, existing, FilesetCache(exec));
      forall n | n in cfg.filesets ensures n in names { assert n in Elements(names); }
    }
  }

  /** What is assumed of a run: a lawful world, a valid untargeted configuration, and that networks could be created. */
  ghost predicate Runs(w: World, h: Host, cfg: Config, exec: Option<ExecutionContext>) {
    && Lawful(w) && ValidConfig(w, cfg) && !cfg.targeted
    && PlannedHere(w, h, cfg, exec)
    && (cfg.networks - KnownNetworks(h, exec)) !! h.networks.Keys
  }

  /** What is assumed of a run that reports success: `a` is the state after its apply, whatever its queries found about stacks. */
  ghost predicate Ran(w: World, h: Host, cfg: Config, exec: Option<ExecutionContext>, a: Host) {
    && Lawful(w) && ValidConfig(w, cfg) && !cfg.targeted
    && KnownHere(h, cfg, exec) && Reached(w, h, cfg, exec, a)
    && (cfg.networks - KnownNetworks(h, exec)) !! h.networks.Keys
  }

  lemma {:induction false} UndisturbedRan(w: World, h: Host, cfg: Config, exec: Option<ExecutionContext>)
    requires Runs(w, h, cfg, exec)
    ensures Ran(w, h, cfg, exec, Apply(w, h, cfg, exec).host)
  {
    hide Apply, Reached, ValidConfig, LawfulUp, Digests, FilesetsExec, StacksExec;
    ApplyReaches(w, h, cfg, exec);
  }

  lemma {:induction false} SameFilesSameHash(w: World, a: Fileset, b: Fileset)
    requires ValidFileset(w, a) && ValidFileset(w, b) && a.local.files == b.local.files
    ensures a.local.treeHash == b.local.treeHash
  {
  }

  /** Filesets after apply and prune: on labelled volumes, and up to date if they are consistent. */
  lemma {:induction false} FilesetState(w: World, h: Host, cfg: Config, exec: Option<ExecutionContext>, a: Host, n: string)
    requires Ran(w, h, cfg, exec, a) && Adopted(h, cfg) && n in cfg.filesets
    ensures var after, v := Pruned(w, a, cfg), cfg.filesets[n].volume;
            && v in LabelledVolumes(after) && v in after.volumes
            && (Consistent(cfg.filesets) ==> StoredHash(after, v) == cfg.filesets[n].local.treeHash)
  {
    hide Reached, Pruned, LabelledVolumes, LabelledNetworks, ComposeNetworks, StacksExec, FilesetsExec, Consistent,
         LawfulUp, Digests, FilesetsSynced, Adopted, ValidConfig, Traced;
    AppliedFilesets(w, h, cfg, exec);
    TopLevelState(w, h, cfg, exec, a);
    LabelledExist(Pruned(w, a, cfg));
    DesiredVolumeKept(w, h, cfg, exec, a, cfg.filesets[n].volume);
  }

  /** If a plan after apply and prune is silent about two filesets of one volume, they have the same files. */
  lemma {:induction false} BothSilent(w: World, h: Host, cfg: Config, exec: Option<ExecutionContext>, h4: Host, a: string, b: string)
    requires Ran(w, h, cfg, exec, h4) && Adopted(h, cfg) && a in cfg.filesets && b in cfg.filesets && cfg.filesets[a].volume == cfg.filesets[b].volume
    requires var after := Pruned(w, h4, cfg);
             Silent(FilesetResources(FilesetDataOf(after, cfg.filesets[a]))) && Silent(FilesetResources(FilesetDataOf(after, cfg.filesets[b])))
    ensures cfg.filesets[a].local.treeHash == cfg.filesets[b].local.treeHash
  {
    hide Reached, Pruned, LabelledVolumes, LabelledNetworks, ComposeNetworks, StacksExec, FilesetsExec, Consistent, Silent, FilesetResources,
         FilesetDataOf, LawfulUp, Digests, FilesetsSynced, Adopted, ValidFileset, ValidStack, DistinctProjects, Prepared, SortedKeys, Agreed, Owned, StoredHash;
    var after, v := Pruned(w, h4, cfg), cfg.filesets[a].volume;
    var h2, h3, names := Prepared(h, cfg, exec), FilesetsSynced(w, h, cfg, exec).host, SortedKeys(cfg.filesets.Keys);
    AppliedFilesets(w, h, cfg, exec);
    FilesetState(w, h, cfg, exec, h4, a);
    DesiredVolumeKept(w, h, cfg, exec, h4, v);
    if Agreed(h2, h3, names, cfg.filesets, v) {
      AgreedSame(h2, h3, names, cfg.filesets, a, b);
    } else {
      var k := OwnerOf(h3, cfg.filesets, v);
      BuiltOf(w, cfg.filesets[k]);
      SilentMeansEqual(w, after, cfg.filesets[a], cfg.filesets[k].local);
      SilentMeansEqual(w, after, cfg.filesets[b], cfg.filesets[k].local);
      SameFilesSameHash(w, cfg.filesets[a], cfg.filesets[b]);
    }
  }

  lemma {:induction false} AgreedSame(h0: Host, h: Host, names: seq<string>, filesets: map<string, Fileset>, a: string, b: string)
    requires a in filesets && b in filesets && names == SortedKeys(filesets.Keys) && filesets[a].volume == filesets[b].volume
    requires Agreed(h0, h, names, filesets, filesets[a].volume)
    ensures filesets[a].local.treeHash == filesets[b].local.treeHash
  {
    assert a in Elements(names) && b in Elements(names);
  }

  lemma {:induction false} OwnerOf(h: Host, filesets: map<string, Fileset>, v: string) returns (k: string)
    requires Owned(h, filesets, v)
    ensures k in filesets && filesets[k].volume == v && v in h.volumes && h.volumes[v].stored == Written(filesets[k].local)
  {
    k :| k in filesets && filesets[k].volume == v && h.volumes[v].stored == Written(filesets[k].local);
  }

  /** The fileset section of a plan after apply and prune. */
  lemma {:induction false} FilesetSectionSettled(w: World, h: Host, cfg: Config, exec: Option<ExecutionContext>, h4: Host, p: ResourcePlan)
    requires Ran(w, h, cfg, exec, h4) && Adopted(h, cfg)
    requires PlanIs(w, Pruned(w, h4, cfg), cfg, p)
    ensures (forall k, r :: k in p.filesets && r in p.filesets[k] ==> r.action == Noop || r.name == "") <==> Consistent(cfg.filesets)
  {
    hide Ran, Pruned, StackEntries, LabelledVolumes, LabelledNetworks, ComposeNetworks, OrphanProjects, FilesetResources, FilesetDataOf,
         ExecOf, TopEntries, LawfulUp, Digests, Adopted, ValidConfig, DesiredVolumes, StoredHash;
    var after := Pruned(w, h4, cfg);
    if Consistent(cfg.filesets) {
      forall n | n in cfg.filesets ensures Silent(p.filesets[n]) {
        FilesetState(w, h, cfg, exec, h4, n);
        EqualHashSilent(after, cfg.filesets[n]);
      }
    }
    if forall k, r :: k in p.filesets && r in p.filesets[k] ==> r.action == Noop || r.name == "" {
      forall n | n in cfg.filesets ensures Silent(p.filesets[n]) {}
      forall a, b | a in cfg.filesets && b in cfg.filesets && cfg.filesets[a].volume == cfg.filesets[b].volume
        ensures cfg.filesets[a].local.treeHash == cfg.filesets[b].local.treeHash
      {
        BothSilent(w, h, cfg, exec, h4, a, b);
      }
    }
  }

  lemma {:induction false} LabelledExist(h: Host)
    ensures LabelledVolumes(h) <= h.volumes.Keys
  {
  }

  // ------------------------------------------------------------------- theorem

  /**
   After any apply and prune that report success, whichever queries about stacks failed, a new
   plan counts nothing exactly when no desired volume existed unlabelled, filesets that share a
   volume have the same files, and every stack was current when apply ended.
   */
  lemma {:induction false} SettlesExactly(w: World, h: Host, cfg: Config, exec: Option<ExecutionContext>, a: Host, p: ResourcePlan)
    requires Ran(w, h, cfg, exec, a) && PlanIs(w, Pruned(w, a, cfg), cfg, p)
    ensures CountsNothing(p) <==> Adopted(h, cfg) && Consistent(cfg.filesets) && AllCurrent(w, a, cfg.stacks)
  {
    hide Reached, Pruned, PlanIs, CountsNothing, Adopted, Consistent, AllCurrent, LawfulUp, Digests, ValidConfig, LabelledVolumes, DesiredVolumes,
         StacksExec, FilesetsExec, LabelledNetworks;
    CountZero(p);
    TopLevelSettled(w, h, cfg, exec, a, p);
    StackSectionSettled(w, a, cfg, p);
    if Adopted(h, cfg) { FilesetSectionSettled(w, h, cfg, exec, a, p); }
  }

  // ------------------------------------------------------- disturbed detection

  lemma {:induction false} DecidedFrame(w: World, h: Host, stacks: map<string, Stack>, made: map<string, StackData>)
    requires LawfulUp(w.up)
    ensures UpFrame(h, Decided(w, h, stacks, made).host)
  {
    hide StacksAll, SortedKeys, LawfulUp, UpFrame;
    SortedStacks(stacks);
    StacksAllFrame(w, h, SortedKeys(stacks.Keys), stacks, Some(made));
  }

  /** An apply that reports success has reached such a state. */
  lemma {:induction false} SucceededReaches(w: World, h: Host, cfg: Config, exec: Option<ExecutionContext>, made: map<string, StackData>, a: Host)
    requires LawfulUp(w.up) && Succeeded(w, h, cfg, exec, made, a)
    ensures Reached(w, h, cfg, exec, a)
  {
    hide FilesetsSynced, Decided, LawfulUp, Listed, SetRunning, RestartNames;
    DecidedFrame(w, FilesetsSynced(w, h, cfg, exec).host, cfg.stacks, made);
  }

  /** A decision that was grounded when it was taken is honest about the state before all stacks. */
  lemma {:induction false} GroundedIsHonest(w: World, h: Host, stacks: map<string, Stack>, cached: Option<map<string, StackData>>,
                                            made: map<string, StackData>, n: string)
    requires LawfulUp(w.up) && WellDecided(w, h, stacks, cached, made) && n in stacks && Idle(made[n])
    requires forall a, b :: a in stacks && b in stacks && a != b ==> stacks[a].project != stacks[b].project
    requires cached.Some? && n in cached.value && Idle(cached.value[n]) ==> StackCurrent(w, h, stacks[n])
    ensures StackCurrent(w, h, stacks[n])
  {
    hide StackCurrent, LawfulUp, StacksAll, SameProject;
    var names := SortedKeys(stacks.Keys);
    SortedStacks(stacks);
    SortedKeysStrict(stacks.Keys);
    assert n in Elements(names);
    var i :| 0 <= i < |names| && names[i] == n;
    assert Grounded(w, StacksAll(w, h, names[..i], stacks, Some(made)).host, names[i], stacks[names[i]], cached, made[names[i]]);
    forall m | m in names[..i] ensures m in stacks && stacks[m].project != stacks[n].project { assert m != n; }
    StacksAllElsewhere(w, h, names[..i], stacks, Some(made), stacks[n].project);
    CurrentStable(w, h, StacksAll(w, h, names[..i], stacks, Some(made)).host, stacks[n]);
  }

  /** What a plan found about stacks is honest after the synchronisation, too. */
  lemma {:induction false} HonestLater(w: World, h: Host, cfg: Config, exec: Option<ExecutionContext>, n: string)
    requires exec.Some? && DataNames(cfg, exec.value.stacks) && DataHonest(w, h, cfg, exec.value.stacks)
    requires ValidConfig(w, cfg) && n in cfg.stacks && n in exec.value.stacks && Idle(exec.value.stacks[n])
    ensures StackCurrent(w, FilesetsSynced(w, h, cfg, exec).host, cfg.stacks[n])
  {
    hide StackCurrent, FilesetsSynced, DistinctProjects, ValidFileset;
    assert NamesPlanned(cfg.stacks[n], exec.value.stacks[n]);
    SyncKeepsCurrent(w, h, cfg, exec, n);
  }

  /** If no hash query for a running service went unanswered, an apply that reports success leaves every stack current. */
  lemma {:induction false} SucceededCurrent(w: World, h: Host, cfg: Config, exec: Option<ExecutionContext>, made: map<string, StackData>, a: Host)
    requires Lawful(w) && ValidConfig(w, cfg) && Succeeded(w, h, cfg, exec, made, a)
    requires WellDecided(w, FilesetsSynced(w, h, cfg, exec).host, cfg.stacks, StackCache(exec), made)
    requires exec.Some? ==> DataNames(cfg, exec.value.stacks) && DataHonest(w, h, cfg, exec.value.stacks)
    ensures AllCurrent(w, a, cfg.stacks)
  {
    hide StackCurrent, FilesetsSynced, StacksAll, SortedKeys, LawfulUp, Digests, ValidFileset, ValidStack, AllGrounded, DataHonest, DataNames, Listed, SetRunning,
         RestartNames;
    var h3, names := FilesetsSynced(w, h, cfg, exec).host, SortedKeys(cfg.stacks.Keys);
    SortedStacks(cfg.stacks);
    SortedKeysStrict(cfg.stacks.Keys);
    hide StrictlySorted;
    forall n | n in cfg.stacks && Idle(made[n]) ensures StackCurrent(w, h3, cfg.stacks[n]) {
      if exec.Some? && n in exec.value.stacks && Idle(exec.value.stacks[n]) { HonestLater(w, h, cfg, exec, n); }
      GroundedIsHonest(w, h3, cfg.stacks, StackCache(exec), made, n);
    }
    StacksAllCurrent(w, h3, names, cfg.stacks, Some(made));
    var h4 := Decided(w, h3, cfg.stacks, made).host;
    forall n | n in cfg.stacks ensures StackCurrent(w, a, cfg.stacks[n]) {
      assert n in names by { assert n in Elements(names); }
      RestartKeepsCurrent(w, h4, FilesetsSynced(w, h, cfg, exec).pending, cfg.stacks[n]);
    }
  }

  // ------------------------------------------------------------ undisturbed runs

  /** An undisturbed apply leaves every stack current. */
  lemma {:induction false} AppliedCurrent(w: World, h: Host, cfg: Config, exec: Option<ExecutionContext>)
    requires Lawful(w) && ValidConfig(w, cfg) && PlannedHere(w, h, cfg, exec)
    ensures AllCurrent(w, Apply(w, h, cfg, exec).host, cfg.stacks)
  {
    hide StackCurrent, Apply, Pruned, ExecOf, LawfulUp, Digests, ValidConfig;
    forall n | n in cfg.stacks ensures StackCurrent(w, Apply(w, h, cfg, exec).host, cfg.stacks[n]) {
      StacksSettled(w, h, cfg, exec, n);
      PruneKeepsCurrent(w, Apply(w, h, cfg, exec).host, cfg, n);
    }
  }

  /**
   After an undisturbed apply and prune, from any state and with or without a plan of that
   state, a new plan counts nothing exactly when no desired volume existed unlabelled and
   filesets that share a volume have the same files.
   */
  lemma {:induction false} Converges(w: World, h: Host, cfg: Config, exec: Option<ExecutionContext>, p: ResourcePlan)
    requires Runs(w, h, cfg, exec)
    requires PlanIs(w, Pruned(w, Apply(w, h, cfg, exec).host, cfg), cfg, p)
    ensures CountsNothing(p) <==> Adopted(h, cfg) && Consistent(cfg.filesets)
  {
    hide Apply, Pruned, PlanIs, CountsNothing, Adopted, Consistent, AllCurrent, LawfulUp, Digests, ValidConfig, ExecOf, Ran;
    UndisturbedRan(w, h, cfg, exec);
    AppliedCurrent(w, h, cfg, exec);
    SettlesExactly(w, h, cfg, exec, Apply(w, h, cfg, exec).host, p);
  }
}
