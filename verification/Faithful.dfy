/**
 The plan shown is what happens: in an undisturbed run that uses the plan, apply and prune
 make exactly the changes the plan lists, with one exception that is characterised exactly
 (internal/planner/build_plan.go:126-228, apply_resources.go:29-116, apply.go:151-202,
 prune.go:88-154).
 */
module Faithful {
  import opened Text
  import opened FilesetIndex
  import opened VolumeTree
  import opened DockerHost
  import opened FilesetSync
  import opened ServiceDetect
  import opened ContextState
  import opened Planning
  import opened Applying
  import opened Pruning
  import opened Convergence

  /** The names of the entries of a list that ask for an action. */
  function Named(rs: seq<Resource>, a: Action): set<string> { set r | r in rs && r.action == a :: r.name }

  // ------------------------------------------------------ volumes and networks

  lemma {:induction false} NamedTop(rs: seq<Resource>, desired: set<string>, existing: set<string>, orphans: set<string>)
    requires Elements(rs) == TopEntries(desired, existing, orphans)
    ensures Named(rs, Create) == desired - existing && Named(rs, Delete) == orphans
  {
    assert forall r :: r in rs <==> r in Elements(rs);
    forall n | n in desired - existing ensures n in Named(rs, Create) { assert Resource(n, Create) in rs; }
    forall n | n in orphans ensures n in Named(rs, Delete) { assert Resource(n, Delete) in rs; }
  }

  /** Apply creates and prune removes exactly the volumes and networks that the plan says. */
  lemma {:induction false} TopLevelFaithful(w: World, h: Host, cfg: Config, exec: Option<ExecutionContext>, p: ResourcePlan)
    requires LawfulUp(w.up) && !cfg.targeted && PlannedHere(w, h, cfg, exec) && PlanIs(w, h, cfg, p)
    requires (cfg.networks - KnownNetworks(h, exec)) !! h.networks.Keys
    ensures Apply(w, h, cfg, exec).volumes == Named(p.volumes, Create)
    ensures Apply(w, h, cfg, exec).networks == Named(p.networks, Create)
    ensures UnwantedVolumes(Apply(w, h, cfg, exec).host, cfg) == Named(p.volumes, Delete)
    ensures UnwantedNetworks(Apply(w, h, cfg, exec).host, cfg) == Named(p.networks, Delete)
  {
    hide DesiredVolumes, LabelledVolumes, LabelledNetworks, ComposeNetworks, StackEntries, FilesetResources, FilesetDataOf, TopEntries, Named,
         StacksExec, FilesetsExec, LawfulUp;
    NamedTop(p.volumes, DesiredVolumes(cfg), LabelledVolumes(h), LabelledVolumes(h) - DesiredVolumes(cfg));
    NamedTop(p.networks, cfg.networks, LabelledNetworks(h), LabelledNetworks(h) - cfg.networks - ComposeNetworks(h));
    var a := Apply(w, h, cfg, exec).host;
    ApplyReaches(w, h, cfg, exec);
    ReachedStages(w, h, cfg, exec, a);
    hide SyncFrame, UpFrame, Prepared, FilesetsSynced, StacksApplied, Reached;
    AppliedVolumes(h, cfg, exec, Prepared(h, cfg, exec), FilesetsSynced(w, h, cfg, exec).host, a);
    AppliedNetworks(h, cfg, exec, Prepared(h, cfg, exec), FilesetsSynced(w, h, cfg, exec).host, a);
    assert UnwantedNetworks(a, cfg) == (LabelledNetworks(a) - ComposeNetworks(a)) - cfg.networks;
  }

  // ------------------------------------------------------------------- stacks

  /** The plan lists something to do for a planned service of the stack. */
  predicate Pending(rs: seq<Resource>) { exists r :: r in rs && r.action in {Create, Update, Reconcile} }

  lemma {:induction false} PendingDetected(infos: seq<ServiceInfo>)
    ensures Pending(ServiceResources(infos)) <==> NeedsApply(infos)
    ensures Named(ServiceResources(infos), Delete) == {}
  {
    hide ServiceResources;
    var rs := ServiceResources(infos);
    forall r | r in rs ensures exists i :: 0 <= i < |infos| && r == Resource(infos[i].name, ActionOf(infos[i].state)) {
      var i :| 0 <= i < |rs| && rs[i] == r;
      assert r == Resource(infos[i].name, ActionOf(infos[i].state));
    }
    if NeedsApply(infos) {
      var i :| 0 <= i < |infos| && !infos[i].state.Running?;
      assert rs[i] in rs;
    }
  }

  lemma {:induction false} PendingStack(w: World, h: Host, s: Stack)
    requires w.identifier != ""
    ensures Pending(StackResources(w, h, s)) <==> !StackCurrent(w, h, s)
    ensures Named(StackResources(w, h, s), Delete) == {}
  {
    hide StackCurrent, Detected;
    NeedsApplyIs(w, h, s);
    DetectedLength(w, h, s);
    PendingDetected(Detected(w, h, s));
  }

  lemma {:induction false} PendingOf(rs: seq<Resource>, known: seq<Resource>, doomed: set<string>)
    requires Elements(rs) == Elements(known) + Deletes(doomed)
    ensures Pending(rs) <==> Pending(known)
    ensures Named(rs, Delete) == Named(known, Delete) + doomed
  {
    assert forall r :: (r in rs <==> r in Elements(rs)) && (r in known <==> r in Elements(known));
    forall n | n in doomed ensures n in Named(rs, Delete) { assert Resource(n, Delete) in rs; }
  }

  lemma {:induction false} PendingIs(w: World, h: Host, cfg: Config, p: ResourcePlan, n: string)
    requires w.identifier != "" && n in cfg.stacks && PlanIs(w, h, cfg, p)
    ensures n in p.stacks && (Pending(p.stacks[n]) <==> !StackCurrent(w, h, cfg.stacks[n]))
  {
    hide StackCurrent, TopEntries, FilesetResources, FilesetDataOf, LabelledVolumes, LabelledNetworks, ComposeNetworks, OrphanServices,
         OrphanProjects, StackResources, DesiredVolumes, Elements, Pending;
    PendingStack(w, h, cfg.stacks[n]);
    PendingOf(p.stacks[n], StackResources(w, h, cfg.stacks[n]), if cfg.targeted then {} else OrphanServices(w, h, cfg, n));
  }

  /** The stacks brought up by some calls, in order. */
  function Ups(calls: seq<Event>): seq<Stack> {
    if calls == [] then []
    else Ups(calls[..|calls| - 1]) + match calls[|calls| - 1].call case Up(s) => [s] case _ => []
  }

  function PendingStacks(names: seq<string>, stacks: map<string, Stack>, p: ResourcePlan): seq<Stack>
    requires forall n :: n in names ==> n in stacks && n in p.stacks
  {
    if names == [] then [] else
      var last := names[|names| - 1];
      PendingStacks(names[..|names| - 1], stacks, p) + if Pending(p.stacks[last]) then [stacks[last]] else []
  }

  lemma {:induction false} UpsConcat(a: seq<Event>, b: seq<Event>)
    ensures Ups(a + b) == Ups(a) + Ups(b)
  {
    if b == [] {
      assert a + b == a;
    } else {
      UpsConcat(a, b[..|b| - 1]);
      assert (a + b)[..|a + b| - 1] == a + b[..|b| - 1];
    }
  }

  lemma {:induction false} NoUps(calls: seq<Event>)
    requires forall e :: e in calls ==> !e.call.Up?
    ensures Ups(calls) == []
  {
    if calls != [] {
      assert calls[|calls| - 1] in calls;
      NoUps(calls[..|calls| - 1]);
    }
  }

  lemma {:induction false} RelabelsOnly(w: World, h: Host, items: seq<PsBrief>)
    ensures forall e :: e in RelabelCalls(w, h, items) ==> e.call.Relabel?
  {
    if items != [] { RelabelsOnly(w, h, items[..|items| - 1]); }
  }

  lemma {:induction false} BroughtUps(w: World, h: Host, s: Stack)
    ensures Ups(Brought(w, h, s).calls) == [s]
  {
    hide RelabelCalls, ListedRunning, Relabelled;
    var items := ListedRunning(w.up(h, s), s.project);
    var rest := RelabelCalls(w, w.up(h, s), items);
    RelabelsOnly(w, w.up(h, s), items);
    NoUps(rest);
    UpsConcat([Event(Up(s), true)], rest);
    assert Ups([Event(Up(s), true)]) == [s];
  }

  /** With the findings of a plan, whether a stack is brought up does not depend on when it is asked. */
  lemma {:induction false} NeedsUpPlanned(w: World, h: Host, mid: Host, cfg: Config, n: string)
    requires w.identifier != "" && n in cfg.stacks
    ensures NeedsUp(w, mid, n, cfg.stacks[n], Some(StacksExec(w, h, cfg))) <==> !StackCurrent(w, h, cfg.stacks[n])
  {
    hide StackCurrent, Detected;
    var s := cfg.stacks[n];
    NeedsApplyIs(w, h, s);
    DetectedLength(w, h, s);
    DetectedLength(w, mid, s);
    NeedsApplyIs(w, mid, s);
  }

  lemma {:induction false} StacksAllUps(w: World, h: Host, h0: Host, cfg: Config, names: seq<string>, p: ResourcePlan)
    requires w.identifier != "" && PlanIs(w, h, cfg, p) && forall n :: n in names ==> n in cfg.stacks && n in p.stacks
    ensures Ups(StacksAll(w, h0, names, cfg.stacks, Some(StacksExec(w, h, cfg))).calls) == PendingStacks(names, cfg.stacks, p)
  {
    hide PlanIs, Pending, StacksExec, NeedsUp, Brought, StackCurrent;
    if names != [] {
      var front, last := names[..|names| - 1], names[|names| - 1];
      StacksAllUps(w, h, h0, cfg, front, p);
      var mid := StacksAll(w, h0, front, cfg.stacks, Some(StacksExec(w, h, cfg)));
      NeedsUpPlanned(w, h, mid.host, cfg, last);
      PendingIs(w, h, cfg, p, last);
      var next := StackOne(w, mid.host, last, cfg.stacks[last], Some(StacksExec(w, h, cfg)));
      BroughtUps(w, mid.host, cfg.stacks[last]);
      UpsConcat(mid.calls, next.calls);
    }
  }

  lemma {:induction false} SyncNoUps(w: World, h: Host, fs: Fileset, local: Index, remote: Index)
    ensures forall e :: e in SyncCalls(w, h, fs, local, remote) ==> !e.call.Up?
  {
    hide ColdNames, DiffOf, TarOf;
  }

  lemma {:induction false} SyncAllNoUps(w: World, h: Host, names: seq<string>, filesets: map<string, Fileset>, existing: set<string>,
                                        cached: Option<map<string, FilesetData>>)
    requires forall n :: n in names ==> n in filesets
    ensures forall e :: e in SyncAll(w, h, names, filesets, existing, cached).calls ==> !e.call.Up?
  {
    hide SyncCalls, SyncedHost, HotServices, Inputs;
    if names != [] {
      var front, last := names[..|names| - 1], names[|names| - 1];
      SyncAllNoUps(w, h, front, filesets, existing, cached);
      var mid := SyncAll(w, h, front, filesets, existing, cached);
      var (local, remote) := Inputs(mid.host, last, filesets[last], existing, cached);
      SyncNoUps(w, mid.host, filesets[last], local, remote);
    }
  }

  lemma {:induction false} StacksInPlan(w: World, h: Host, cfg: Config, p: ResourcePlan)
    requires PlanIs(w, h, cfg, p)
    ensures forall n :: n in SortedKeys(cfg.stacks.Keys) ==> n in cfg.stacks && n in p.stacks
  {
    SortedStacks(cfg.stacks);
  }

  /** Apply brings up exactly the stacks with a create, update or reconcile entry, once each, in name order. */
  lemma {:induction false} StacksFaithful(w: World, h: Host, cfg: Config, p: ResourcePlan)
    requires w.identifier != "" && PlanIs(w, h, cfg, p)
    ensures forall n :: n in SortedKeys(cfg.stacks.Keys) ==> n in cfg.stacks && n in p.stacks
    ensures Ups(Apply(w, h, cfg, Some(ExecOf(w, h, cfg))).calls) == PendingStacks(SortedKeys(cfg.stacks.Keys), cfg.stacks, p)
  {
    hide PlanIs, SyncAll, StacksAll, Prepared, SortedKeys, RestartNames, Listed, SetRunning, PendingStacks, Ups, StacksExec, FilesetsExec;
    var exec := Some(ExecOf(w, h, cfg));
    StacksInPlan(w, h, cfg, p);
    SortedKeysIn(cfg.filesets);
    var synced, applied := FilesetsSynced(w, h, cfg, exec), StacksApplied(w, h, cfg, exec);
    SyncAllNoUps(w, Prepared(h, cfg, exec), SortedKeys(cfg.filesets.Keys), cfg.filesets, LabelledVolumes(h) + DesiredVolumes(cfg), FilesetCache(exec));
    NoUps(synced.calls);
    StacksAllUps(w, h, synced.host, cfg, SortedKeys(cfg.stacks.Keys), p);
    UpsConcat(synced.calls, applied.calls);
  }

  // --------------------------------------------------------------- containers

  /** The projects among `names` that apply brings up. */
  ghost function BroughtProjects(w: World, h: Host, cfg: Config, names: set<string>): set<string> {
    set k | k in names && k in cfg.stacks && !StackCurrent(w, h, cfg.stacks[k]) :: cfg.stacks[k].project
  }

  /**
   Containers that no stack plans and that lack the identifier, running in a project that
   apply brings up: labelling adopts them, and prune then removes them.
   */
  ghost function Strays(w: World, h: Host, cfg: Config): set<string> {
    set n | n in h.containers && h.containers[n].ident != w.identifier && h.containers[n].running && h.containers[n].service != "" &&
            h.containers[n].service !in DesiredServices(cfg) && h.containers[n].project in BroughtProjects(w, h, cfg, cfg.stacks.Keys)
  }

  /** What bringing stacks up does to a container no stack plans. */
  ghost predicate Adopts(w: World, h: Host, h': Host, desired: set<string>, projects: set<string>) {
    && (forall n :: n in h.containers && h.containers[n].service !in desired ==>
          n in h'.containers && h'.containers[n] ==
          if h.containers[n].running && h.containers[n].project in projects then h.containers[n].(ident := w.identifier) else h.containers[n])
    && (forall n :: n in h'.containers && h'.containers[n].service !in desired ==> n in h.containers && h.containers[n].service !in desired)
  }

  lemma {:induction false} UpUnplanned(h: Host, s: Stack, h': Host, desired: set<string>)
    requires UpPost(h, s, h') && s.services.Keys <= desired
    ensures forall n :: n in h.containers && h.containers[n].service !in desired ==> n in h'.containers && h'.containers[n] == h.containers[n]
    ensures forall n :: n in h'.containers && h'.containers[n].service !in desired ==> n in h.containers && h.containers[n] == h'.containers[n]
  {
    forall n | n in h.containers && h.containers[n].service !in desired ensures n in h'.containers && h'.containers[n] == h.containers[n] {
      assert !PlannedBy(s, h.containers[n]);
    }
    forall n | n in h'.containers && h'.containers[n].service !in desired ensures n in h.containers && h.containers[n] == h'.containers[n] {
      assert !PlannedBy(s, h'.containers[n]);
    }
  }

  lemma {:induction false} BroughtAdopts(w: World, h: Host, s: Stack, desired: set<string>)
    requires LawfulUp(w.up) && s.services.Keys <= desired
    ensures Adopts(w, h, Brought(w, h, s).host, desired, {s.project})
  {
    hide Brought, UpPost;
    assert UpPost(h, s, w.up(h, s));
    BroughtHost(w, h, s);
    UpUnplanned(h, s, w.up(h, s), desired);
  }

  lemma {:induction false} AdoptsTrans(w: World, a: Host, b: Host, c: Host, desired: set<string>, ps: set<string>, qs: set<string>)
    requires Adopts(w, a, b, desired, ps) && Adopts(w, b, c, desired, qs)
    ensures Adopts(w, a, c, desired, ps + qs)
  {
    forall n | n in a.containers && a.containers[n].service !in desired
      ensures n in c.containers && c.containers[n] ==
              if a.containers[n].running && a.containers[n].project in ps + qs then a.containers[n].(ident := w.identifier) else a.containers[n]
    {
      assert n in b.containers && b.containers[n].service !in desired;
    }
  }

  lemma {:induction false} StacksAllAdopts(w: World, h: Host, h0: Host, cfg: Config, names: seq<string>)
    requires Lawful(w) && forall n :: n in names ==> n in cfg.stacks
    ensures Adopts(w, h0, StacksAll(w, h0, names, cfg.stacks, Some(StacksExec(w, h, cfg))).host, DesiredServices(cfg),
                   BroughtProjects(w, h, cfg, Elements(names)))
  {
    hide StacksExec, NeedsUp, Brought, StackCurrent, LawfulUp, Digests;
    if names == [] {
      AdoptsNothing(w, h0, DesiredServices(cfg));
      assert BroughtProjects(w, h, cfg, Elements(names)) == {};
    } else {
      var front, last := names[..|names| - 1], names[|names| - 1];
      StacksAllAdopts(w, h, h0, cfg, front);
      var mid := StacksAll(w, h0, front, cfg.stacks, Some(StacksExec(w, h, cfg))).host;
      var s := cfg.stacks[last];
      NeedsUpPlanned(w, h, mid, cfg, last);
      assert Elements(names) == Elements(front) + {last} by { assert names == front + [last]; }
      var ps := BroughtProjects(w, h, cfg, Elements(front));
      assert BroughtProjects(w, h, cfg, Elements(names)) == ps + (if StackCurrent(w, h, s) then {} else {s.project});
      if !StackCurrent(w, h, s) {
        BroughtAdopts(w, mid, s, DesiredServices(cfg));
        hide Adopts;
        AdoptsTrans(w, h0, mid, Brought(w, mid, s).host, DesiredServices(cfg), ps, {s.project});
      }
    }
  }

  lemma {:induction false} AdoptsNothing(w: World, h: Host, desired: set<string>)
    ensures Adopts(w, h, h, desired, {})
  {
  }

  /** Synchronising changes only running flags of managed containers. */
  ghost predicate ForeignKept(w: World, h: Host, h': Host) {
    && h'.containers.Keys == h.containers.Keys
    && forall n :: n in h.containers ==>
         h'.containers[n].(running := true) == h.containers[n].(running := true) &&
         (h.containers[n].ident != w.identifier ==> h'.containers[n] == h.containers[n])
  }

  lemma {:induction false} ColdAreManaged(w: World, h: Host, fs: Fileset)
    ensures forall n :: n in ColdNames(w, h, fs) ==> n in h.containers && h.containers[n].ident == w.identifier
  {
    hide ColdNames;
    forall n | n in ColdNames(w, h, fs) ensures n in h.containers && h.containers[n].ident == w.identifier { ColdAreFirst(w, h, fs, n); }
  }

  lemma {:induction false} SyncOneForeign(w: World, h: Host, name: string, fs: Fileset, existing: set<string>, cached: Option<map<string, FilesetData>>)
    ensures ForeignKept(w, h, SyncOne(w, h, name, fs, existing, cached).host)
  {
    hide ColdNames, Inputs, ChangeOf, HotServices, SyncCalls;
    ColdAreManaged(w, h, fs);
  }

  lemma {:induction false} ForeignTrans(w: World, a: Host, b: Host, c: Host)
    requires ForeignKept(w, a, b) && ForeignKept(w, b, c)
    ensures ForeignKept(w, a, c)
  {
    forall n | n in a.containers
      ensures c.containers[n].(running := true) == a.containers[n].(running := true) &&
              (a.containers[n].ident != w.identifier ==> c.containers[n] == a.containers[n])
    {
      assert n in b.containers;
    }
  }

  lemma {:induction false} SyncAllForeign(w: World, h: Host, names: seq<string>, filesets: map<string, Fileset>, existing: set<string>,
                                          cached: Option<map<string, FilesetData>>)
    requires forall n :: n in names ==> n in filesets
    ensures ForeignKept(w, h, SyncAll(w, h, names, filesets, existing, cached).host)
  {
    hide SyncOne;
    if names != [] {
      var front, last := names[..|names| - 1], names[|names| - 1];
      SyncAllForeign(w, h, front, filesets, existing, cached);
      var mid := SyncAll(w, h, front, filesets, existing, cached).host;
      SyncOneForeign(w, mid, last, filesets[last], existing, cached);
      ForeignTrans(w, h, mid, SyncOne(w, mid, last, filesets[last], existing, cached).host);
    }
  }

  lemma {:induction false} UnwantedAfter(w: World, h: Host, h3: Host, h4: Host, a: Host, cfg: Config, projects: set<string>)
    requires ForeignKept(w, h, h3) && Adopts(w, h3, h4, DesiredServices(cfg), projects) && "" !in projects
    requires a.containers.Keys == h4.containers.Keys
    requires forall n :: n in h4.containers ==> a.containers[n].(running := true) == h4.containers[n].(running := true)
    ensures UnwantedContainers(w, a, cfg) == UnwantedContainers(w, h, cfg) +
              set n | n in h.containers && h.containers[n].ident != w.identifier && h.containers[n].running && h.containers[n].service != "" &&
                      h.containers[n].service !in DesiredServices(cfg) && h.containers[n].project in projects
  {
    hide DesiredServices;
    var desired := DesiredServices(cfg);
    forall n ensures n in UnwantedContainers(w, a, cfg) <==>
                     n in UnwantedContainers(w, h, cfg) + set n | n in h.containers && h.containers[n].ident != w.identifier && h.containers[n].running &&
                       h.containers[n].service != "" && h.containers[n].service !in desired && h.containers[n].project in projects
    {
      if n in a.containers && a.containers[n].service !in desired {
        assert n in h4.containers && h4.containers[n].service !in desired;
        assert n in h3.containers && n in h.containers;
      }
      if n in h.containers && h.containers[n].service !in desired {
        assert n in h3.containers && h3.containers[n].service !in desired;
        assert n in h4.containers && n in a.containers;
      }
    }
  }

  /** What prune removes after apply: what was unwanted before, and the strays. */
  lemma {:induction false} RemovedContainers(w: World, h: Host, cfg: Config)
    requires Lawful(w) && ValidConfig(w, cfg)
    ensures UnwantedContainers(w, Apply(w, h, cfg, Some(ExecOf(w, h, cfg))).host, cfg) == UnwantedContainers(w, h, cfg) + Strays(w, h, cfg)
  {
    hide SyncAll, StacksAll, Prepared, SortedKeys, RestartNames, Listed, StacksExec, FilesetsExec, UnwantedContainers, ForeignKept, Adopts,
         LawfulUp, Digests, DistinctProjects, ValidFileset, StackCurrent, DesiredServices;
    var exec := Some(ExecOf(w, h, cfg));
    var h2, h3, h4 := Prepared(h, cfg, exec), FilesetsSynced(w, h, cfg, exec).host, StacksApplied(w, h, cfg, exec).host;
    SortedKeysIn(cfg.filesets);
    SyncAllForeign(w, h2, SortedKeys(cfg.filesets.Keys), cfg.filesets, LabelledVolumes(h) + DesiredVolumes(cfg), FilesetCache(exec));
    PreparedForeign(w, h, cfg, exec, h3);
    SortedStacks(cfg.stacks);
    StacksAllAdopts(w, h, h3, cfg, SortedKeys(cfg.stacks.Keys));
    UnwantedAfter(w, h, h3, h4, Apply(w, h, cfg, exec).host, cfg, BroughtProjects(w, h, cfg, cfg.stacks.Keys));
  }

  lemma {:induction false} PreparedForeign(w: World, h: Host, cfg: Config, exec: Option<ExecutionContext>, h3: Host)
    requires ForeignKept(w, Prepared(h, cfg, exec), h3)
    ensures ForeignKept(w, h, h3)
  {
  }

  /** The project and service of some containers. */
  function Pairs(h: Host, names: set<string>): set<(string, string)> {
    set n | n in names && n in h.containers :: (h.containers[n].project, h.containers[n].service)
  }

  /** The deletions in a plan's stack section, as project and service. */
  ghost function PlannedDeletes(p: ResourcePlan): set<(string, string)> {
    set k, r | k in p.stacks && r in p.stacks[k] && r.action == Delete :: (k, r.name)
  }

  lemma {:induction false} DeletesOf(w: World, h: Host, cfg: Config, p: ResourcePlan, k: string)
    requires w.identifier != "" && !cfg.targeted && PlanIs(w, h, cfg, p) && k in p.stacks
    ensures Named(p.stacks[k], Delete) == OrphanServices(w, h, cfg, k)
  {
    hide TopEntries, FilesetResources, FilesetDataOf, LabelledVolumes, LabelledNetworks, ComposeNetworks, OrphanServices,
         OrphanProjects, StackResources, DesiredVolumes, Elements, Pending;
    var known := if k in cfg.stacks then StackResources(w, h, cfg.stacks[k]) else [];
    assert k !in cfg.stacks ==> Elements(known) == {} by { NoElements(known); }
    if k in cfg.stacks { PendingStack(w, h, cfg.stacks[k]); }
    PendingOf(p.stacks[k], known, OrphanServices(w, h, cfg, k));
  }

  /** The plan's deletions are the unwanted containers at planning time. */
  lemma {:induction false} DeletesPlanned(w: World, h: Host, cfg: Config, p: ResourcePlan)
    requires w.identifier != "" && !cfg.targeted && PlanIs(w, h, cfg, p)
    ensures PlannedDeletes(p) == Pairs(h, UnwantedContainers(w, h, cfg))
  {
    hide PlanIs, DesiredServices;
    forall k, s | (k, s) in PlannedDeletes(p) ensures (k, s) in Pairs(h, UnwantedContainers(w, h, cfg)) {
      var r :| k in p.stacks && r in p.stacks[k] && r.action == Delete && r.name == s;
      DeletesOf(w, h, cfg, p, k);
      assert s in OrphanServices(w, h, cfg, k);
      var n :| n in Managed(w, h) && h.containers[n].project == k && h.containers[n].service !in DesiredServices(cfg) && h.containers[n].service == s;
      assert n in UnwantedContainers(w, h, cfg);
    }
    forall n | n in UnwantedContainers(w, h, cfg)
      ensures (h.containers[n].project, h.containers[n].service) in PlannedDeletes(p)
    {
      var k, s := h.containers[n].project, h.containers[n].service;
      assert s in OrphanServices(w, h, cfg, k) && k in OrphanProjects(w, h, cfg);
      OrphansShown(w, h, cfg, p, k);
      DeletesOf(w, h, cfg, p, k);
      assert s in Named(p.stacks[k], Delete);
      var r :| r in p.stacks[k] && r.action == Delete && r.name == s;
    }
  }

  lemma {:induction false} OrphansShown(w: World, h: Host, cfg: Config, p: ResourcePlan, k: string)
    requires !cfg.targeted && PlanIs(w, h, cfg, p) && k in OrphanProjects(w, h, cfg)
    ensures k in p.stacks
  {
    hide OrphanProjects;
  }

  /**
   Prune removes the containers of exactly the listed services, unless a stray belongs to a
   project and service that the plan does not list.
   */
  lemma {:induction false} ContainersFaithful(w: World, h: Host, cfg: Config, p: ResourcePlan)
    requires Lawful(w) && ValidConfig(w, cfg) && !cfg.targeted && PlanIs(w, h, cfg, p)
    ensures var removed := UnwantedContainers(w, Apply(w, h, cfg, Some(ExecOf(w, h, cfg))).host, cfg);
            && removed == UnwantedContainers(w, h, cfg) + Strays(w, h, cfg)
            && (Pairs(h, removed) == PlannedDeletes(p) <==> Pairs(h, Strays(w, h, cfg)) <= PlannedDeletes(p))
  {
    hide Apply, ExecOf, Strays, UnwantedContainers, PlanIs, PlannedDeletes, LawfulUp, Digests, ValidConfig;
    RemovedContainers(w, h, cfg);
    DeletesPlanned(w, h, cfg, p);
    var was, strays := UnwantedContainers(w, h, cfg), Strays(w, h, cfg);
    assert Pairs(h, was + strays) == Pairs(h, was) + Pairs(h, strays);
  }

  /** A stray that the plan does not list: the listing is complete only up to strays. */
  lemma {:induction false} StrayWitness(w: World, h: Host, cfg: Config, p: ResourcePlan)
    requires Lawful(w) && ValidConfig(w, cfg) && PlanIs(w, h, cfg, p)
    requires h == Host(map["data" := Volume(true, map["f" := "x"], Absent)], map["net" := Network(true, false)],
                       map["x" := Container("app", "old", true, "", "", {})])
    requires cfg == Config(false, {"data"}, {"net"}, map[], map["app" := Stack("app", map["web" := "1"])])
    ensures "x" in UnwantedContainers(w, Apply(w, h, cfg, Some(ExecOf(w, h, cfg))).host, cfg) && PlannedDeletes(p) == {}
  {
    hide Apply, ExecOf, PlanIs, PlannedDeletes, LawfulUp, Digests, ValidConfig, RunningMap;
    var s := cfg.stacks["app"];
    assert "old" !in DesiredServices(cfg) by { assert "old" != "web" && cfg.stacks.Keys == {"app"} && s.services.Keys == {"web"}; }
    RunningMapIs(h, "app", "web");
    assert h.containers["x"].service != "web";
    assert !ServiceCurrent(w, h, s, "web");
    assert !StackCurrent(w, h, s);
    assert "app" in BroughtProjects(w, h, cfg, cfg.stacks.Keys);
    RemovedContainers(w, h, cfg);
    assert "x" in Strays(w, h, cfg);
    assert Managed(w, h) == {};
    DeletesPlanned(w, h, cfg, p);
  }

  // -------------------------------------------------------------------- files

  /** The paths some calls extract into a volume. */
  ghost function Archived(calls: seq<Event>, v: string): set<string> {
    set e, q | e in calls && e.call.Extract? && e.call.volume == v && q in e.call.tar.Keys :: q
  }

  /** The paths some calls remove from a volume. */
  ghost function Deleted(calls: seq<Event>, v: string): set<string> {
    set e, q | e in calls && e.call.RemovePaths? && e.call.volume == v && q in e.call.paths :: q
  }

  lemma {:induction false} TouchedConcat(a: seq<Event>, b: seq<Event>, v: string)
    ensures Archived(a + b, v) == Archived(a, v) + Archived(b, v) && Deleted(a + b, v) == Deleted(a, v) + Deleted(b, v)
  {
  }

  lemma {:induction false} TouchedNone(calls: seq<Event>, v: string)
    requires forall e :: e in calls ==> !(e.call.Extract? && e.call.volume == v) && !(e.call.RemovePaths? && e.call.volume == v)
    ensures Archived(calls, v) == {} && Deleted(calls, v) == {}
  {
  }

  lemma {:induction false} TouchedWrites(fs: Fileset, local: Index, diff: Diff)
    ensures Archived(WriteCalls(fs, local, diff), fs.volume) == TarOf(fs.source, diff).Keys
    ensures Deleted(WriteCalls(fs, local, diff), fs.volume) == Elements(diff.toDelete)
  {
    hide TarOf;
    var v, ex, rm := fs.volume, ExtractCalls(fs, diff), RemoveCalls(fs, diff);
    var rest := [Event(WriteIndex(v, local), true)] + if fs.owned then [Event(SetOwnership(v), true)] else [];
    assert WriteCalls(fs, local, diff) == ex + rm + rest;
    TouchedConcat(ex + rm, rest, v);
    TouchedConcat(ex, rm, v);
    TouchedNone(rest, v);
    TouchedOne(Event(Extract(v, TarOf(fs.source, diff)), true), v);
    TouchedOne(Event(RemovePaths(v, diff.toDelete), true), v);
    NothingToExtract(fs, diff);
    TouchedNone([], v);
    assert Elements(diff.toDelete) == set q | q in diff.toDelete;
  }

  lemma {:induction false} NothingToExtract(fs: Fileset, diff: Diff)
    ensures Paths(diff.toCreate) + Paths(diff.toUpdate) == {} ==> TarOf(fs.source, diff).Keys == {}
  {
  }

  lemma {:induction false} TouchedOne(e: Event, v: string)
    ensures Archived([e], v) == if e.call.Extract? && e.call.volume == v then e.call.tar.Keys else {}
    ensures Deleted([e], v) == if e.call.RemovePaths? && e.call.volume == v then (set q | q in e.call.paths) else {}
  {
    assert e in [e];
  }

  lemma {:induction false} TouchedSync(w: World, h: Host, fs: Fileset, local: Index, remote: Index, v: string)
    ensures var diff := DiffOf(local, remote);
            var mine := v == fs.volume && local.treeHash != remote.treeHash;
            && Archived(SyncCalls(w, h, fs, local, remote), v) == (if mine then TarOf(fs.source, diff).Keys else {})
            && Deleted(SyncCalls(w, h, fs, local, remote), v) == (if mine then Elements(diff.toDelete) else {})
  {
    hide TarOf, DiffOf, ColdNames, Archived, Deleted, Elements;
    var diff, names := DiffOf(local, remote), ColdNames(w, h, fs);
    if local.treeHash == remote.treeHash || v != fs.volume {
      TouchedNone(SyncCalls(w, h, fs, local, remote), v);
    } else {
      TouchedWrites(fs, local, diff);
      hide WriteCalls;
      var writes := WriteCalls(fs, local, diff);
      TouchedConcat([Event(Stop(names), true)] + writes, [Event(Start(names), true)], v);
      TouchedConcat([Event(Stop(names), true)], writes, v);
      TouchedNone([Event(Stop(names), true)], v);
      TouchedNone([Event(Start(names), true)], v);
    }
  }

  /** The findings say that a fileset has changed. */
  predicate Differs(f: FilesetData) { f.local.treeHash != f.remote.treeHash }

  /** The paths that findings about some filesets extract into a volume. */
  ghost function Tars(names: set<string>, filesets: map<string, Fileset>, data: map<string, FilesetData>, v: string): set<string> {
    set n, q | n in names && n in filesets && n in data && filesets[n].volume == v && Differs(data[n]) &&
               q in TarOf(filesets[n].source, DiffOf(data[n].local, data[n].remote)).Keys :: q
  }

  /** The paths that findings about some filesets remove from a volume. */
  ghost function Dels(names: set<string>, filesets: map<string, Fileset>, data: map<string, FilesetData>, v: string): set<string> {
    set n, q | n in names && n in filesets && n in data && filesets[n].volume == v && Differs(data[n]) &&
               q in Elements(DiffOf(data[n].local, data[n].remote).toDelete) :: q
  }

  lemma {:induction false} TarsStep(names: set<string>, last: string, filesets: map<string, Fileset>, data: map<string, FilesetData>, v: string)
    requires last in filesets && last in data
    ensures var fs, f := filesets[last], data[last];
            var mine := v == fs.volume && Differs(f);
            && Tars(names + {last}, filesets, data, v) ==
               Tars(names, filesets, data, v) + (if mine then TarOf(fs.source, DiffOf(f.local, f.remote)).Keys else {})
            && Dels(names + {last}, filesets, data, v) ==
               Dels(names, filesets, data, v) + (if mine then Elements(DiffOf(f.local, f.remote).toDelete) else {})
  {
    hide TarOf, DiffOf;
  }

  lemma {:induction false} NoTars(filesets: map<string, Fileset>, data: map<string, FilesetData>, v: string)
    ensures Tars({}, filesets, data, v) == {} && Dels({}, filesets, data, v) == {}
  {
  }

  /** What the plan remembers decides what is written to a volume. */
  lemma {:induction false} SyncAllTouches(w: World, h: Host, names: seq<string>, filesets: map<string, Fileset>, existing: set<string>,
                                          data: map<string, FilesetData>, v: string)
    requires forall k :: k in names ==> k in filesets && k in data && filesets[k].volume in h.volumes
    ensures var calls := SyncAll(w, h, names, filesets, existing, Some(data)).calls;
            Archived(calls, v) == Tars(Elements(names), filesets, data, v) && Deleted(calls, v) == Dels(Elements(names), filesets, data, v)
  {
    hide TarOf, DiffOf, Archived, Deleted, Elements, SyncCalls, SyncedHost, HotServices, Tars, Dels;
    if names == [] {
      TouchedNone([], v);
      NoElements(names);
      NoTars(filesets, data, v);
    } else {
      var front, last := names[..|names| - 1], names[|names| - 1];
      SyncAllTouches(w, h, front, filesets, existing, data, v);
      SyncAllFrame(w, h, front, filesets, existing, Some(data));
      var mid := SyncAll(w, h, front, filesets, existing, Some(data));
      LastElement(names);
      TarsStep(Elements(front), last, filesets, data, v);
      TouchedSync(w, mid.host, filesets[last], data[last].local, data[last].remote, v);
      TouchedConcat(mid.calls, SyncCalls(w, mid.host, filesets[last], data[last].local, data[last].remote), v);
    }
  }

  lemma {:induction false} LastElement(names: seq<string>)
    requires names != []
    ensures Elements(names) == Elements(names[..|names| - 1]) + {names[|names| - 1]}
  {
    assert names == names[..|names| - 1] + [names[|names| - 1]];
  }

  lemma {:induction false} StacksTouchNothing(w: World, h: Host, names: seq<string>, stacks: map<string, Stack>, cached: Option<map<string, StackData>>)
    requires forall n :: n in names ==> n in stacks
    ensures forall e :: e in StacksAll(w, h, names, stacks, cached).calls ==> e.call.Up? || e.call.Relabel?
  {
    hide NeedsUp, RelabelCalls, ListedRunning, Relabelled;
    if names != [] {
      var front, last := names[..|names| - 1], names[|names| - 1];
      StacksTouchNothing(w, h, front, stacks, cached);
      var mid, s := StacksAll(w, h, front, stacks, cached).host, stacks[last];
      RelabelsOnly(w, w.up(mid, s), ListedRunning(w.up(mid, s), s.project));
    }
  }

  /** The files a plan's entries name; entries without a name are messages. */
  function FileNames(rs: seq<Resource>, a: Action): set<string> { set r | r in rs && r.action == a && r.name != "" :: r.name }

  lemma {:induction false} FileEntriesFiles(files: seq<FileEntry>, a: Action)
    ensures forall r :: r in FileEntries(files, a) <==> r.action == a && r.name in Paths(files)
  {
    if files != [] {
      FileEntriesFiles(files[1..], a);
      assert files == [files[0]] + files[1..];
      assert Paths(files) == {files[0].path} + Paths(files[1..]);
    }
  }

  lemma {:induction false} PathEntriesFiles(paths: seq<string>, a: Action)
    ensures forall r :: r in PathEntries(paths, a) <==> r.action == a && r.name in paths
  {
    if paths != [] {
      PathEntriesFiles(paths[1..], a);
      assert paths == [paths[0]] + paths[1..];
    }
  }

  lemma {:induction false} EntriesOfFileset(f: FilesetData)
    requires Differs(f) && forall e :: e in f.diff.toCreate || e in f.diff.toUpdate ==> e.path != ""
    ensures FileNames(FilesetResources(f), Create) == Paths(f.diff.toCreate)
    ensures FileNames(FilesetResources(f), Update) == Paths(f.diff.toUpdate)
    ensures FileNames(FilesetResources(f), Delete) == Elements(f.diff.toDelete) - {""}
  {
    PathsNamed(f.diff);
    hide FileEntries, PathEntries, Paths;
    FileEntriesFiles(f.diff.toCreate, Create);
    FileEntriesFiles(f.diff.toUpdate, Update);
    PathEntriesFiles(f.diff.toDelete, Delete);
    var rs := FilesetResources(f);
    forall x | x in Paths(f.diff.toCreate) ensures x in FileNames(rs, Create) { assert Resource(x, Create) in rs; }
    forall x | x in Paths(f.diff.toUpdate) ensures x in FileNames(rs, Update) { assert Resource(x, Update) in rs; }
    forall x | x in f.diff.toDelete && x != "" ensures x in FileNames(rs, Delete) { assert Resource(x, Delete) in rs; }
  }

  lemma {:induction false} PathsNamed(diff: Diff)
    requires forall e :: e in diff.toCreate || e in diff.toUpdate ==> e.path != ""
    ensures "" !in Paths(diff.toCreate) && "" !in Paths(diff.toUpdate)
  {
  }

  lemma {:induction false} TarIsAll(w: World, fs: Fileset, remote: Index, diff: Diff)
    requires ValidFileset(w, fs) && DiffAny(diff, fs.local, remote)
    ensures TarOf(fs.source, diff).Keys == Paths(diff.toCreate) + Paths(diff.toUpdate)
    ensures forall e :: e in diff.toCreate || e in diff.toUpdate ==> e.path != ""
  {
    forall p | p in Paths(diff.toCreate) + Paths(diff.toUpdate) ensures p in fs.source {
      var e :| (e in diff.toCreate || e in diff.toUpdate) && e.path == p;
      assert e in fs.local.files;
    }
  }

  lemma {:induction false} DiffOfChanged(w: World, fs: Fileset, remote: Index)
    requires ValidFileset(w, fs) && fs.local.treeHash != remote.treeHash
    ensures DiffAny(DiffOf(fs.local, remote), fs.local, remote)
  {
    hide FullDiff, DiffAny;
    FullDiffIsAny(fs.local, remote);
  }

  /** Whatever index the volume holds: the archive and the removals of a fileset are its named entries. */
  lemma {:induction false} OneFilesetFaithful(w: World, h: Host, fs: Fileset)
    requires ValidFileset(w, fs)
    ensures var f := FilesetDataOf(h, fs);
            var rs := FilesetResources(f);
            if Differs(f) then TarOf(fs.source, f.diff).Keys == FileNames(rs, Create) + FileNames(rs, Update) &&
                               Elements(f.diff.toDelete) - {""} == FileNames(rs, Delete)
            else FileNames(rs, Create) == {} && FileNames(rs, Update) == {} && FileNames(rs, Delete) == {}
  {
    var f := FilesetDataOf(h, fs);
    hide DiffOf, TarOf, Elements, DiffAny, ValidFileset, PlannedRemote;
    if !Differs(f) {
      assert forall r :: r in FilesetResources(f) ==> r.name == "";
    } else {
      hide FilesetResources, FileNames;
      DiffOfChanged(w, fs, f.remote);
      TarIsAll(w, fs, f.remote, f.diff);
      EntriesOfFileset(f);
    }
  }

  /** The files that a plan's entries name for the filesets of a volume. */
  ghost function VolumeFiles(cfg: Config, p: ResourcePlan, v: string, a: Action): set<string> {
    set n, x | n in cfg.filesets && n in p.filesets && cfg.filesets[n].volume == v && x in FileNames(p.filesets[n], a) :: x
  }

  /** The calls that apply makes on a volume, against the findings it works with. */
  lemma {:induction false} ApplyTouches(w: World, h: Host, cfg: Config, exec: Option<ExecutionContext>, data: map<string, FilesetData>, v: string)
    requires cfg.filesets.Keys <= data.Keys && KeysIn(SortedKeys(cfg.filesets.Keys), cfg.filesets)
    requires FilesetsSynced(w, h, cfg, exec) ==
             SyncAll(w, Prepared(h, cfg, exec), SortedKeys(cfg.filesets.Keys), cfg.filesets, LabelledVolumes(h) + DesiredVolumes(cfg), Some(data))
    ensures var calls := Apply(w, h, cfg, exec).calls;
            Archived(calls, v) == Tars(cfg.filesets.Keys, cfg.filesets, data, v) && Deleted(calls, v) == Dels(cfg.filesets.Keys, cfg.filesets, data, v)
  {
    hide SyncAll, StacksAll, Prepared, SortedKeys, RestartNames, Listed, SetRunning, Archived, Deleted, DiffOf, TarOf, LabelledVolumes,
         DesiredVolumes, FilesetsSynced, Tars, Dels;
    var synced, applied := FilesetsSynced(w, h, cfg, exec), StacksApplied(w, h, cfg, exec);
    SortedStacks(cfg.stacks);
    VolumesReady(h, cfg, exec);
    SyncAllTouches(w, Prepared(h, cfg, exec), SortedKeys(cfg.filesets.Keys), cfg.filesets, LabelledVolumes(h) + DesiredVolumes(cfg), data, v);
    StacksTouchNothing(w, synced.host, SortedKeys(cfg.stacks.Keys), cfg.stacks, StackCache(exec));
    TouchedNone(applied.calls, v);
    TouchedConcat(synced.calls, applied.calls, v);
  }

  lemma {:induction false} TarsPlanned(w: World, h: Host, cfg: Config, p: ResourcePlan, v: string)
    requires (forall n :: n in cfg.filesets ==> ValidFileset(w, cfg.filesets[n])) && p.filesets.Keys == cfg.filesets.Keys
    requires forall n :: n in p.filesets ==> p.filesets[n] == FilesetResources(FilesetDataOf(h, cfg.filesets[n]))
    ensures var data := FilesetsExec(h, cfg);
            && Tars(cfg.filesets.Keys, cfg.filesets, data, v) == VolumeFiles(cfg, p, v, Create) + VolumeFiles(cfg, p, v, Update)
            && Dels(cfg.filesets.Keys, cfg.filesets, data, v) - {""} == VolumeFiles(cfg, p, v, Delete)
  {
    hide FilesetResources, FilesetDataOf, FileNames, TarOf, ValidFileset, DiffOf, Elements;
    var data := FilesetsExec(h, cfg);
    forall n | n in cfg.filesets
      ensures if Differs(data[n]) then TarOf(cfg.filesets[n].source, DiffOf(data[n].local, data[n].remote)).Keys ==
                                       FileNames(p.filesets[n], Create) + FileNames(p.filesets[n], Update) &&
                                       Elements(DiffOf(data[n].local, data[n].remote).toDelete) - {""} == FileNames(p.filesets[n], Delete)
              else FileNames(p.filesets[n], Create) == {} && FileNames(p.filesets[n], Update) == {} && FileNames(p.filesets[n], Delete) == {}
    {
      OneFilesetFaithful(w, h, cfg.filesets[n]);
      DataOf(h, cfg.filesets[n]);
    }
    forall q | q in Dels(cfg.filesets.Keys, cfg.filesets, data, v) - {""} ensures q in VolumeFiles(cfg, p, v, Delete) {
      var n :| n in cfg.filesets && n in data && cfg.filesets[n].volume == v && Differs(data[n]) &&
               q in Elements(DiffOf(data[n].local, data[n].remote).toDelete);
      assert q in Elements(DiffOf(data[n].local, data[n].remote).toDelete) - {""};
    }
    forall q | q in VolumeFiles(cfg, p, v, Delete) ensures q in Dels(cfg.filesets.Keys, cfg.filesets, data, v) - {""} {
      var n :| n in cfg.filesets && n in p.filesets && cfg.filesets[n].volume == v && q in FileNames(p.filesets[n], Delete);
      assert q in Elements(DiffOf(data[n].local, data[n].remote).toDelete) - {""};
    }
  }

  lemma {:induction false} DataOf(h: Host, fs: Fileset)
    ensures FilesetDataOf(h, fs).diff == DiffOf(FilesetDataOf(h, fs).local, FilesetDataOf(h, fs).remote)
  {
  }

  /**
   Apply extracts into a volume exactly the files with a create or update entry of its filesets
   and removes exactly those with a delete entry; a path without a name is not a file.
   */
  lemma {:induction false} FilesFaithful(w: World, h: Host, cfg: Config, p: ResourcePlan, v: string)
    requires ValidConfig(w, cfg) && PlanIs(w, h, cfg, p)
    ensures FilesAsPlanned(cfg, p, Apply(w, h, cfg, Some(ExecOf(w, h, cfg))).calls, v)
  {
    hide SyncAll, Prepared, SortedKeys, StacksExec, ValidStack, DistinctProjects, ValidFileset, TopEntries, StackEntries, FilesetResources, FilesetDataOf,
         Archived, Deleted, LabelledVolumes, LabelledNetworks, ComposeNetworks, OrphanProjects, FilesetsExec, DesiredVolumes, Tars, Dels, VolumeFiles, Apply;
    var exec := Some(ExecOf(w, h, cfg));
    SortedKeysIn(cfg.filesets);
    assert FilesetsExec(h, cfg).Keys == cfg.filesets.Keys by { ExecKeys(h, cfg); }
    ApplyTouches(w, h, cfg, exec, FilesetsExec(h, cfg), v);
    TarsPlanned(w, h, cfg, p, v);
  }

  lemma {:induction false} ExecKeys(h: Host, cfg: Config)
    ensures FilesetsExec(h, cfg).Keys == cfg.filesets.Keys
  {
  }

  lemma {:induction false} KeyListed(filesets: map<string, Fileset>, n: string)
    requires n in filesets
    ensures n in SortedKeys(filesets.Keys)
  {
    assert n in Elements(SortedKeys(filesets.Keys));
  }

  // ------------------------------------------------------------------ theorem

  /** What an apply did and a prune then removed, against the plan made before. */
  ghost predicate FollowsPlan(w: World, h: Host, cfg: Config, p: ResourcePlan, a: Applied, cs: set<string>, vs: set<string>, ns: set<string>) {
    && a.volumes == Named(p.volumes, Create) && vs == Named(p.volumes, Delete)
    && a.networks == Named(p.networks, Create) && ns == Named(p.networks, Delete)
    && (forall n :: n in SortedKeys(cfg.stacks.Keys) ==> n in cfg.stacks && n in p.stacks)
    && Ups(a.calls) == PendingStacks(SortedKeys(cfg.stacks.Keys), cfg.stacks, p)
    && (Pairs(h, cs) == PlannedDeletes(p) <==> Pairs(h, Strays(w, h, cfg)) <= PlannedDeletes(p))
    && p.filesets.Keys == cfg.filesets.Keys
    && (forall v: string :: FilesAsPlanned(cfg, p, a.calls, v))
  }

  ghost predicate FilesAsPlanned(cfg: Config, p: ResourcePlan, calls: seq<Event>, v: string) {
    && Archived(calls, v) == VolumeFiles(cfg, p, v, Create) + VolumeFiles(cfg, p, v, Update)
    && Deleted(calls, v) - {""} == VolumeFiles(cfg, p, v, Delete)
  }

  /** The plan is faithful: an undisturbed apply and prune that use it do what it lists. */
  lemma {:induction false} PlanIsFaithful(w: World, h: Host, cfg: Config, p: ResourcePlan)
    requires Lawful(w) && ValidConfig(w, cfg) && !cfg.targeted && PlanIs(w, h, cfg, p)
    requires (cfg.networks - LabelledNetworks(h)) !! h.networks.Keys
    ensures var a := Apply(w, h, cfg, Some(ExecOf(w, h, cfg)));
            FollowsPlan(w, h, cfg, p, a, UnwantedContainers(w, a.host, cfg), UnwantedVolumes(a.host, cfg), UnwantedNetworks(a.host, cfg))
  {
    hide Apply, Ups, PendingStacks, Pairs, PlannedDeletes, Strays, Named, UnwantedContainers, UnwantedVolumes, UnwantedNetworks,
         FilesAsPlanned, ValidConfig, LawfulUp, Digests, SortedKeys;
    var exec := Some(ExecOf(w, h, cfg));
    assert KnownNetworks(h, exec) == LabelledNetworks(h) && p.filesets.Keys == cfg.filesets.Keys;
    hide PlanIs, ExecOf, KnownNetworks;
    TopLevelFaithful(w, h, cfg, exec, p);
    StacksFaithful(w, h, cfg, p);
    ContainersFaithful(w, h, cfg, p);
    forall v: string ensures FilesAsPlanned(cfg, p, Apply(w, h, cfg, exec).calls, v) { FilesFaithful(w, h, cfg, p, v); }
  }
}
