/**
 A second run changes nothing: once a run has settled a context, applying and pruning again
 makes no call at all.
 */
module Fixpoint {
  import opened Text
  import opened FilesetIndex
  import opened VolumeTree
  import opened DockerHost
  import opened FilesetSync
  import opened ServiceDetect
  import opened ContextState
  import opened Planning
  import opened PlanCounts
  import opened Applying
  import opened Pruning
  import opened Convergence

  lemma {:induction false} PreparedAlready(h: Host, cfg: Config, exec: Option<ExecutionContext>)
    requires DesiredVolumes(cfg) <= h.volumes.Keys && cfg.networks <= KnownNetworks(h, exec)
    ensures Prepared(h, cfg, exec) == h
  {
    hide DesiredVolumes, KnownNetworks;
    assert cfg.networks - KnownNetworks(h, exec) == {};
    assert EnsuredVolumes(h, DesiredVolumes(cfg)).volumes == h.volumes;
    assert EnsuredNetworks(h, {}).networks == h.networks;
  }

  lemma {:induction false} SyncAllIdle(w: World, h: Host, names: seq<string>, filesets: map<string, Fileset>, existing: set<string>,
                                       cached: Option<map<string, FilesetData>>)
    requires forall n :: n in names ==> n in filesets
    requires forall n :: n in names ==> var (l, r) := Inputs(h, n, filesets[n], existing, cached); l.treeHash == r.treeHash
    ensures SyncAll(w, h, names, filesets, existing, cached) == SyncState(h, {}, [])
  {
    hide Inputs, ColdNames;
    if names != [] { SyncAllIdle(w, h, names[..|names| - 1], filesets, existing, cached); }
  }

  lemma {:induction false} StacksAllIdle(w: World, h: Host, names: seq<string>, stacks: map<string, Stack>, cached: Option<map<string, StackData>>)
    requires forall n :: n in names ==> n in stacks && !NeedsUp(w, h, n, stacks[n], cached)
    ensures StacksAll(w, h, names, stacks, cached) == StackState(h, [])
  {
    hide NeedsUp, Brought;
    if names != [] { StacksAllIdle(w, h, names[..|names| - 1], stacks, cached); }
  }

  lemma {:induction false} CurrentNeedsNoUp(w: World, h: Host, cfg: Config, exec: Option<ExecutionContext>, n: string)
    requires w.identifier != "" && PlannedHere(w, h, cfg, exec) && n in cfg.stacks && StackCurrent(w, h, cfg.stacks[n])
    ensures !NeedsUp(w, h, n, cfg.stacks[n], StackCache(exec))
  {
    hide StackCurrent, Detected;
    NeedsApplyIs(w, h, cfg.stacks[n]);
  }

  lemma {:induction false} NoInputDiffers(w: World, h: Host, cfg: Config, exec: Option<ExecutionContext>, n: string)
    requires PlannedHere(w, h, cfg, exec) && n in cfg.filesets && cfg.filesets[n].volume in LabelledVolumes(h)
    requires StoredHash(h, cfg.filesets[n].volume) == cfg.filesets[n].local.treeHash
    ensures var (l, r) := Inputs(h, n, cfg.filesets[n], LabelledVolumes(h) + DesiredVolumes(cfg), FilesetCache(exec)); l.treeHash == r.treeHash
  {
    hide StacksExec, DesiredVolumes;
  }

  /** A state in which nothing is left to do. */
  ghost predicate Settled(w: World, h: Host, cfg: Config) {
    && LabelledVolumes(h) == DesiredVolumes(cfg)
    && cfg.networks <= LabelledNetworks(h) && LabelledNetworks(h) - cfg.networks - ComposeNetworks(h) == {}
    && UnwantedContainers(w, h, cfg) == {}
    && (forall n :: n in cfg.stacks ==> StackCurrent(w, h, cfg.stacks[n]))
    && (forall n :: n in cfg.filesets ==> StoredHash(h, cfg.filesets[n].volume) == cfg.filesets[n].local.treeHash)
  }

  lemma {:induction false} SettledIsFixed(w: World, h: Host, cfg: Config, exec: Option<ExecutionContext>)
    requires w.identifier != "" && Settled(w, h, cfg) && PlannedHere(w, h, cfg, exec)
    ensures Apply(w, h, cfg, exec) == Applied(h, {}, {}, [], {}) && Pruned(w, h, cfg) == h
  {
    hide LabelledVolumes, LabelledNetworks, ComposeNetworks, UnwantedContainers, StackCurrent, StoredHash, Listed, SortedKeys,
         SyncAll, StacksAll, Inputs, FilesetsExec, StacksExec, NeedsUp, Prepared, DesiredVolumes;
    LabelledExist(h);
    PreparedAlready(h, cfg, exec);
    SortedKeysIn(cfg.filesets);
    SortedStacks(cfg.stacks);
    forall n | n in cfg.filesets
      ensures var (l, r) := Inputs(h, n, cfg.filesets[n], LabelledVolumes(h) + DesiredVolumes(cfg), FilesetCache(exec)); l.treeHash == r.treeHash
    {
      VolumesReady(h, cfg, exec);
      NoInputDiffers(w, h, cfg, exec, n);
    }
    SyncAllIdle(w, h, SortedKeys(cfg.filesets.Keys), cfg.filesets, LabelledVolumes(h) + DesiredVolumes(cfg), FilesetCache(exec));
    forall n | n in cfg.stacks ensures !NeedsUp(w, h, n, cfg.stacks[n], StackCache(exec)) { CurrentNeedsNoUp(w, h, cfg, exec, n); }
    StacksAllIdle(w, h, SortedKeys(cfg.stacks.Keys), cfg.stacks, StackCache(exec));
    assert RestartNames(Listed(w, h), {}) == {};
    SetRunningNobody(h.containers, true);
    WithoutNothing(h);
  }

  lemma {:induction false} RunSettles(w: World, h: Host, cfg: Config, exec: Option<ExecutionContext>)
    requires Runs(w, h, cfg, exec) && Adopted(h, cfg) && Consistent(cfg.filesets)
    ensures Settled(w, Pruned(w, Apply(w, h, cfg, exec).host, cfg), cfg)
  {
    hide Apply, Pruned, LabelledVolumes, LabelledNetworks, ComposeNetworks, UnwantedContainers, StackCurrent, StoredHash, Adopted, Consistent,
         FilesetsExec, StacksExec, DesiredVolumes, LawfulUp, Digests, ValidConfig;
    var a := Apply(w, h, cfg, exec).host;
    UndisturbedRan(w, h, cfg, exec);
    TopLevelState(w, h, cfg, exec, a);
    NobodyUnwanted(w, a, cfg);
    forall n | n in cfg.stacks ensures StackCurrent(w, Pruned(w, a, cfg), cfg.stacks[n]) { StacksSettled(w, h, cfg, exec, n); }
    forall n | n in cfg.filesets ensures StoredHash(Pruned(w, a, cfg), cfg.filesets[n].volume) == cfg.filesets[n].local.treeHash {
      FilesetState(w, h, cfg, exec, a, n);
    }
  }

  lemma {:induction false} NobodyUnwanted(w: World, a: Host, cfg: Config)
    requires !cfg.targeted
    ensures UnwantedContainers(w, Pruned(w, a, cfg), cfg) == {}
  {
    hide DesiredServices, UnwantedVolumes, UnwantedNetworks;
  }

  /** After a run that converges, a second run, with or without a plan, does nothing. */
  lemma {:induction false} SecondRunDoesNothing(w: World, h: Host, cfg: Config, exec: Option<ExecutionContext>, next: Option<ExecutionContext>)
    requires Runs(w, h, cfg, exec) && Adopted(h, cfg) && Consistent(cfg.filesets)
    requires PlannedHere(w, Pruned(w, Apply(w, h, cfg, exec).host, cfg), cfg, next)
    ensures var after := Pruned(w, Apply(w, h, cfg, exec).host, cfg);
            Apply(w, after, cfg, next) == Applied(after, {}, {}, [], {}) && Pruned(w, after, cfg) == after
  {
    hide Apply, Pruned, Settled, Adopted, Consistent, ExecOf, ValidConfig, LawfulUp, Digests;
    RunSettles(w, h, cfg, exec);
    SettledIsFixed(w, Pruned(w, Apply(w, h, cfg, exec).host, cfg), cfg, next);
  }

  /** A desired volume that exists without the label still does after a run: no number of runs converges. */
  lemma {:induction false} UnlabelledForever(w: World, h: Host, cfg: Config, exec: Option<ExecutionContext>)
    requires Runs(w, h, cfg, exec)
    ensures Adopted(Pruned(w, Apply(w, h, cfg, exec).host, cfg), cfg) <==> Adopted(h, cfg)
  {
    hide Apply, Pruned, LabelledNetworks, ComposeNetworks, FilesetsExec, StacksExec, DesiredVolumes, LawfulUp, Digests, ValidConfig;
    var after := Pruned(w, Apply(w, h, cfg, exec).host, cfg);
    ApplyReaches(w, h, cfg, exec);
    TopLevelState(w, h, cfg, exec, Apply(w, h, cfg, exec).host);
    forall v | v in DesiredVolumes(cfg) ensures v in after.volumes { DesiredVolumeKept(w, h, cfg, exec, Apply(w, h, cfg, exec).host, v); }
    AdoptedIs(h, cfg);
    AdoptedIs(after, cfg);
    assert DesiredVolumes(cfg) * after.volumes.Keys == DesiredVolumes(cfg);
  }

  /** The smallest such case: one declared volume, made by hand beforehand. */
  lemma {:induction false} UnlabelledWitness(w: World, h: Host, cfg: Config, p: ResourcePlan)
    requires Lawful(w)
    requires h == Host(map["data" := Volume(false, map["f" := "x"], Absent)], map["net" := Network(true, false)],
                       map["c" := Container("other", "job", true, "", "", {})])
    requires cfg == Config(false, {"data"}, {"net"}, map[], map["app" := Stack("app", map["web" := "1"])])
    requires PlanIs(w, Pruned(w, Apply(w, h, cfg, None).host, cfg), cfg, p)
    ensures !CountsNothing(p)
  {
    hide Apply, Pruned, PlanIs, CountsNothing, LawfulUp, Digests;
    assert "data" in DesiredVolumes(cfg) && "data" in h.volumes;
    Converges(w, h, cfg, None, p);
  }
}
