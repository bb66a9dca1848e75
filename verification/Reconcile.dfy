/**
 A whole run on one context, as `dockform apply` makes it: plan, apply, prune, with any call
 failing (internal/planner/build_plan.go, apply.go, prune.go). A second plan shows what is left.
 */
module Reconcile {
  import opened Text
  import opened FilesetIndex
  import opened VolumeTree
  import opened DockerHost
  import opened FilesetSync
  import opened ContextState
  import opened Planning
  import opened PlanCounts
  import opened Applying
  import opened Pruning
  import opened Convergence
  import opened Faithful


  /** The calls of an undisturbed prune. */
  ghost function Removals(w: World, h: Host, cfg: Config): set<Event> {
    if cfg.targeted then {}
    else ContainerRemovals(UnwantedContainers(w, h, cfg)) + VolumeRemovals(UnwantedVolumes(h, cfg)) + NetworkRemovals(UnwantedNetworks(h, cfg))
  }

  lemma {:induction false} KeptAdoption(h: Host, h': Host, cfg: Config)
    requires LabelsKept(h, h', DesiredVolumes(cfg))
    ensures Adopted(h', cfg) <==> Adopted(h, cfg)
  {
    hide DesiredVolumes;
  }

  lemma {:induction false} PrunedAdoption(w: World, h: Host, cfg: Config, cs: set<string>, vs: set<string>, ns: set<string>, owned: bool)
    requires Spared(w, h, cfg, cs, vs, ns, owned)
    ensures Adopted(Without(h, cs, vs, ns), cfg) <==> Adopted(h, cfg)
  {
    hide DesiredVolumes, UnwantedContainers, UnwantedNetworks, LabelledNetworks;
    forall v | v in DesiredVolumes(cfg) && v in h.volumes ensures v in Without(h, cs, vs, ns).volumes { assert v !in UnwantedVolumes(h, cfg); }
  }

  /** The first two steps of a run: plan, then apply with or without the findings. */
  method PlanAndApply(d: Docker, cfg: Config, reuse: bool, parallel: bool)
    returns (ok: bool, plan: ResourcePlan, exec: Option<ExecutionContext>, ghost applied: seq<Event>)
    modifies d`host, d`log, d`clean, d`hashed
    ensures d.log == old(d.log) + applied
    ensures (d.hashed ==> old(d.hashed)) && (ok && d.clean ==> d.hashed == old(d.hashed))
    ensures d.clean ==> old(d.clean) && (Plannable(old(d.host), cfg) && (reuse || NoneTorn(old(d.host), cfg.filesets)) ==> ok)
    ensures ok && exec.Some? ==> ExecSound(cfg, exec.value)
    ensures ok && Lawful(d.w) && ValidConfig(d.w, cfg) && !cfg.targeted ==> Ran(d.w, old(d.host), cfg, exec, d.host)
    ensures ok && Lawful(d.w) && ValidConfig(d.w, cfg) && d.hashed ==> AllCurrent(d.w, d.host, cfg.stacks)
    ensures ok && d.clean ==> && PlanIs(d.w, old(d.host), cfg, plan)
                              && PlannedHere(d.w, old(d.host), cfg, exec) && exec.Some? == reuse
                              && (cfg.networks - KnownNetworks(old(d.host), exec)) !! old(d.host.networks.Keys)
                              && d.host == Apply(d.w, old(d.host), cfg, exec).host
                              && Performed(applied, Apply(d.w, old(d.host), cfg, exec))
    ensures LawfulUp(d.w.up) ==> (Adopted(d.host, cfg) <==> Adopted(old(d.host), cfg))
    ensures LawfulUp(d.w.up) && DistinctVolumes(cfg.filesets) ==> Attempted(old(d.host), d.host, cfg.filesets, reuse)
  {
    hide PlanIs, ExecOf, ExecSound, Apply, Performed, KnownNetworks, Adopted, LabelsKept, Attempted, LawfulUp, DesiredVolumes, NoneTorn, Plannable,
         FilesetsExec, DistinctVolumes, Digests, ValidConfig, DataHonest, Succeeded, WellDecided, FilesetsSynced, AllCurrent, LabelledNetworks, Ran,
         TopEntries, Complete, FilesetResources, FilesetDataOf, Elements, LabelledVolumes, ComposeNetworks;
    ghost var h0 := d.host;
    NothingAttempted(h0, cfg, reuse);
    exec, applied := None, [];
    var found;
    ok, plan, found := BuildContextPlan(d, cfg, parallel);
    if !ok { return; }
    if reuse { exec := Some(found); }
    AllFound(h0, cfg);
    ghost var made;
    ok, applied, made := ApplyContext(d, cfg, exec);
    if LawfulUp(d.w.up) { KeptAdoption(h0, d.host, cfg); }
    if !ok { return; }
    SuccessfulApply(d.w, h0, cfg, exec, made, d.host);
    if d.hashed && Lawful(d.w) && ValidConfig(d.w, cfg) {
      SoundNames(cfg, exec);
      SucceededCurrent(d.w, h0, cfg, exec, made, d.host);
    }
  }

  /**
   Plans, applies and prunes; `reuse`: whether apply and prune get the findings of the plan; `parallel`: how stacks
   are examined; `mid`: the state between apply and prune. However it ends, it makes no difference to which desired
   volumes exist unlabelled. If it reports success, volumes, networks and filesets are as specified whichever queries
   failed, and every stack is current unless a hash query for a running service went unanswered.
   */
  method Run(d: Docker, cfg: Config, reuse: bool, parallel: bool)
    returns (ok: bool, plan: ResourcePlan, ghost exec: Option<ExecutionContext>, ghost applied: seq<Event>, ghost pruned: seq<Event>, ghost mid: Host)
    modifies d`host, d`log, d`clean, d`hashed
    ensures (d.hashed ==> old(d.hashed)) && (ok && d.clean ==> d.hashed == old(d.hashed))
    ensures d.clean ==> old(d.clean) && (Plannable(old(d.host), cfg) && (reuse || NoneTorn(old(d.host), cfg.filesets)) ==> ok)
    ensures ok ==> d.host == Pruned(d.w, mid, cfg)
    ensures ok && Lawful(d.w) && ValidConfig(d.w, cfg) && !cfg.targeted ==> Ran(d.w, old(d.host), cfg, exec, mid)
    ensures ok && Lawful(d.w) && ValidConfig(d.w, cfg) && d.hashed ==> AllCurrent(d.w, mid, cfg.stacks)
    ensures d.log == old(d.log) + applied + pruned
    ensures ok && d.clean ==> && PlanIs(d.w, old(d.host), cfg, plan)
                              && PlannedHere(d.w, old(d.host), cfg, exec) && exec.Some? == reuse
                              && (cfg.networks - KnownNetworks(old(d.host), exec)) !! old(d.host.networks.Keys)
                              && d.host == Pruned(d.w, Apply(d.w, old(d.host), cfg, exec).host, cfg)
    ensures ok && d.clean ==> && Performed(applied, Apply(d.w, old(d.host), cfg, exec))
                              && (!cfg.targeted ==> Elements(pruned) == Removals(d.w, Apply(d.w, old(d.host), cfg, exec).host, cfg))
    ensures LawfulUp(d.w.up) ==> (Adopted(d.host, cfg) <==> Adopted(old(d.host), cfg))
    ensures LawfulUp(d.w.up) && DistinctVolumes(cfg.filesets) ==> Attempted(old(d.host), d.host, cfg.filesets, reuse)
  {
    hide PlanIs, PlannedHere, ExecSound, Apply, Pruned, Performed, Spared, UnwantedContainers, UnwantedVolumes, UnwantedNetworks, Without,
         ContainerRemovals, VolumeRemovals, NetworkRemovals, KnownNetworks, Elements, Adopted, Attempted, LawfulUp, Digests, DistinctVolumes, ValidConfig,
         AllCurrent, Ran, Plannable, NoneTorn;
    ghost var h0 := d.host;
    pruned := [];
    var given;
    ok, plan, given, applied := PlanAndApply(d, cfg, reuse, parallel);
    exec, mid := given, d.host;
    if !ok { return; }
    ghost var cs, vs, ns, owned, fell;
    ok, cs, vs, ns, owned, fell, pruned := PruneContext(d, cfg, given);
    PrunedAdoption(d.w, mid, cfg, cs, vs, ns, owned);
    if Attempted(h0, mid, cfg.filesets, reuse) { PrunedAttempt(d.w, h0, mid, cfg, reuse, cs, vs, ns, owned); }
  }

  lemma {:induction false} AllFound(h: Host, cfg: Config)
    ensures FilesetsExec(h, cfg).Keys == cfg.filesets.Keys
  {
  }

  lemma {:induction false} SoundNames(cfg: Config, exec: Option<ExecutionContext>)
    requires exec.Some? ==> ExecSound(cfg, exec.value)
    ensures exec.Some? ==> DataNames(cfg, exec.value.stacks)
  {
  }

  lemma {:induction false} SuccessfulApply(w: World, h: Host, cfg: Config, exec: Option<ExecutionContext>, made: map<string, StackData>, a: Host)
    requires Succeeded(w, h, cfg, exec, made, a) && KnownHere(h, cfg, exec)
    ensures Lawful(w) && ValidConfig(w, cfg) && !cfg.targeted ==> Ran(w, h, cfg, exec, a)
  {
    hide FilesetsSynced, ValidConfig, LawfulUp, Digests, KnownHere, Restarted, Decided, Reached;
    if LawfulUp(w.up) { SucceededReaches(w, h, cfg, exec, made, a); }
  }

  lemma {:induction false} NothingAttempted(h: Host, cfg: Config, planned: bool)
    ensures Attempted(h, h, cfg.filesets, planned)
  {
  }

  lemma {:induction false} PrunedAttempt(w: World, h: Host, h1: Host, cfg: Config, planned: bool, cs: set<string>, vs: set<string>, ns: set<string>, owned: bool)
    requires Spared(w, h1, cfg, cs, vs, ns, owned) && Attempted(h, h1, cfg.filesets, planned)
    ensures Attempted(h, Without(h1, cs, vs, ns), cfg.filesets, planned)
  {
    hide FailedAttempt, UnwantedContainers, UnwantedNetworks, LabelledNetworks;
    forall n | n in cfg.filesets ensures cfg.filesets[n].volume !in vs { assert cfg.filesets[n].volume in DesiredVolumes(cfg); }
  }

  /** The states of one volume along some states of its host. */
  function VolumeStates(trace: seq<Host>, v: string): (r: seq<Volume>)
    requires forall i :: 0 <= i < |trace| ==> v in trace[i].volumes
    ensures |r| == |trace| && forall i :: 0 <= i < |r| ==> r[i] == trace[i].volumes[v]
  {
    if trace == [] then [] else [trace[0].volumes[v]] + VolumeStates(trace[1..], v)
  }

  /** Each state was made from the one before by a run. */
  ghost predicate RunTrace(trace: seq<Host>, filesets: map<string, Fileset>, planned: bool) {
    trace != [] && forall i :: 0 <= i < |trace| - 1 ==> Attempted(trace[i], trace[i + 1], filesets, planned)
  }

  lemma {:induction false} VolumeStays(trace: seq<Host>, filesets: map<string, Fileset>, planned: bool, n: string, i: nat)
    requires RunTrace(trace, filesets, planned) && n in filesets && filesets[n].volume in trace[0].volumes && i < |trace|
    ensures filesets[n].volume in trace[i].volumes
  {
    hide FailedAttempt;
    if i > 0 {
      VolumeStays(trace, filesets, planned, n, i - 1);
      assert Attempted(trace[i - 1], trace[i - 1 + 1], filesets, planned);
    }
  }

  /** Along any number of runs, failing anywhere, a fileset's volume goes through a run of attempts as the retry theorem has them. */
  lemma {:induction false} RunsAreAttempts(trace: seq<Host>, filesets: map<string, Fileset>, planned: bool, n: string)
    requires RunTrace(trace, filesets, planned) && n in filesets && filesets[n].volume in trace[0].volumes
    ensures forall i :: 0 <= i < |trace| ==> filesets[n].volume in trace[i].volumes
    ensures FailedRun(VolumeStates(trace, filesets[n].volume), filesets[n].source, filesets[n].local, planned)
  {
    hide FailedAttempt, VolumeStates;
    forall i | 0 <= i < |trace| ensures filesets[n].volume in trace[i].volumes { VolumeStays(trace, filesets, planned, n, i); }
    var states := VolumeStates(trace, filesets[n].volume);
    forall i | 0 <= i < |states| - 1 ensures FailedAttempt(states[i], states[i + 1], filesets[n].source, filesets[n].local, planned) {
      assert Attempted(trace[i], trace[i + 1], filesets, planned);
    }
  }

  /** A volume that one of the runs creates: from its creation on, too, it goes through such a run, beginning with a new volume. */
  lemma {:induction false} CreatedThenAttempted(trace: seq<Host>, filesets: map<string, Fileset>, planned: bool, n: string, k: nat)
    requires RunTrace(trace, filesets, planned) && n in filesets && 0 < k < |trace|
    requires filesets[n].volume !in trace[k - 1].volumes && filesets[n].volume in trace[k].volumes
    ensures forall i :: 0 <= i < |trace[k..]| ==> filesets[n].volume in trace[k..][i].volumes
    ensures FailedRun([NewVolume] + VolumeStates(trace[k..], filesets[n].volume), filesets[n].source, filesets[n].local, planned)
  {
    hide FailedAttempt, VolumeStates;
    var rest, v := trace[k..], filesets[n].volume;
    forall i | 0 <= i < |rest| - 1 ensures Attempted(rest[i], rest[i + 1], filesets, planned) {
      assert Attempted(trace[k + i], trace[k + i + 1], filesets, planned);
    }
    RunsAreAttempts(rest, filesets, planned, n);
    assert Attempted(trace[k - 1], trace[k - 1 + 1], filesets, planned);
    var states := VolumeStates(rest, v);
    var run := [NewVolume] + states;
    forall i | 0 <= i < |run| - 1 ensures FailedAttempt(run[i], run[i + 1], filesets[n].source, filesets[n].local, planned) {
      if i == 0 { assert run[1] == trace[k].volumes[v]; } else { assert run[i] == states[i - 1] && run[i + 1] == states[i - 1 + 1]; }
    }
  }

  /** Runs one after the other, with plan findings or without, whatever fails. */
  method RunRepeatedly(d: Docker, cfg: Config, reuse: bool, parallel: bool, times: nat) returns (ghost trace: seq<Host>)
    requires LawfulUp(d.w.up) && DistinctVolumes(cfg.filesets)
    modifies d`host, d`log, d`clean, d`hashed
    ensures RunTrace(trace, cfg.filesets, reuse) && |trace| == times + 1 && trace[0] == old(d.host) && trace[times] == d.host
    ensures Adopted(d.host, cfg) <==> Adopted(old(d.host), cfg)
  {
    hide PlanIs, ExecOf, Apply, Pruned, KnownNetworks, Adopted, Performed, Removals, LawfulUp, Attempted, DistinctVolumes;
    trace := [d.host];
    for i := 0 to times
      invariant RunTrace(trace, cfg.filesets, reuse) && |trace| == i + 1 && trace[0] == old(d.host) && trace[i] == d.host
      invariant Adopted(d.host, cfg) <==> Adopted(old(d.host), cfg)
    {
      ghost var exec, applied, pruned, mid;
      var done, plan;
      done, plan, exec, applied, pruned, mid := Run(d, cfg, reuse, parallel);
      trace := trace + [d.host];
    }
  }

  /** A run that uses its plan: what the calls of apply and prune have to do with the plan. */
  method RunPlan(d: Docker, cfg: Config, parallel: bool) returns (ok: bool, plan: ResourcePlan, ghost a: Applied, ghost applied: seq<Event>, ghost pruned: seq<Event>)
    requires Lawful(d.w) && ValidConfig(d.w, cfg) && !cfg.targeted
    modifies d`host, d`log, d`clean, d`hashed
    ensures d.log == old(d.log) + applied + pruned
    ensures ok && d.clean ==> && Performed(applied, a) && Elements(pruned) == Removals(d.w, a.host, cfg)
                              && FollowsPlan(d.w, old(d.host), cfg, plan, a, UnwantedContainers(d.w, a.host, cfg),
                                             UnwantedVolumes(a.host, cfg), UnwantedNetworks(a.host, cfg))
  {
    hide PlanIs, ExecOf, Apply, Pruned, Performed, UnwantedContainers, UnwantedVolumes, UnwantedNetworks, Elements, Lawful, ValidConfig,
         FollowsPlan, LabelledNetworks, Removals;
    ghost var h0, exec, mid := d.host, None, d.host;
    ok, plan, exec, applied, pruned, mid := Run(d, cfg, true, parallel);
    a := Apply(d.w, h0, cfg, exec);
    if ok && d.clean {
      assert KnownNetworks(h0, exec) == LabelledNetworks(h0) by { NetworkPart(d.w, h0, cfg); }
      PlanIsFaithful(d.w, h0, cfg, plan);
    }
  }

  lemma {:induction false} NetworkPart(w: World, h: Host, cfg: Config)
    ensures ExecOf(w, h, cfg).networks == LabelledNetworks(h)
  {
  }

  /**
   A run and a second plan. `shown`: no call of the second plan failed. If the run reports success
   and no hash query for a running service went unanswered, two conditions on the start decide
   what the second plan counts, whatever else failed on the way.
   */
  method RunTwice(d: Docker, cfg: Config, reuse: bool, parallel: bool)
    returns (ok: bool, create: nat, update: nat, delete: nat, ghost mid: Host, ghost shown: bool)
    requires Lawful(d.w) && ValidConfig(d.w, cfg) && !cfg.targeted
    modifies d`host, d`log, d`clean, d`hashed
    ensures ok && shown ==>
              (create == 0 && update == 0 && delete == 0 <==>
                 Adopted(old(d.host), cfg) && Consistent(cfg.filesets) && AllCurrent(d.w, mid, cfg.stacks))
    ensures ok && d.hashed ==> AllCurrent(d.w, mid, cfg.stacks)
    ensures d.clean && ok ==> shown && (old(d.hashed) ==> d.hashed)
  {
    hide PlanIs, ExecOf, ExecSound, Apply, Pruned, KnownNetworks, LawfulUp, Digests, ValidConfig, Adopted, Consistent, CountPlan, Ran, AllCurrent, Performed,
         Removals, Attempted, DataHonest, TopEntries, Complete, FilesetResources, FilesetDataOf, Elements, LabelledVolumes, LabelledNetworks,
         ComposeNetworks, FilesetsExec, Plannable, NoneTorn, Entries;
    create, update, delete, shown := 0, 0, 0, false;
    ghost var h0 := d.host;
    var plan, found;
    ghost var exec, applied, pruned;
    ok, plan, exec, applied, pruned, mid := Run(d, cfg, reuse, parallel);
    if !ok { return; }
    ghost var before := d.clean;
    d.clean := true;
    ok, plan, found := BuildContextPlan(d, cfg, parallel);
    shown := d.clean;
    d.clean := d.clean && before;
    if !ok { return; }
    create, update, delete := CountActions(plan);
    if shown {
      SettlesExactly(d.w, h0, cfg, exec, mid, plan);
      CountsAre(plan, create, update, delete);
    }
  }

  lemma {:induction false} CountsAre(p: ResourcePlan, create: nat, update: nat, delete: nat)
    requires create == CountPlan(p, Creates) && update == CountPlan(p, Updates) && delete == CountPlan(p, Deletions)
    ensures CountsNothing(p) <==> create == 0 && update == 0 && delete == 0
  {
    hide CountPlan;
    if create == 0 && update == 0 && delete == 0 {
      forall kind: Kind ensures CountPlan(p, kind) == 0 {
        match kind case Creates => case Updates => case Deletions =>
      }
    }
  }

  /**
   Any number of runs, each failing anywhere or not, then one with a second plan: what the plan
   counts is decided by the state before all of them.
   */
  method RunAfterFailures(d: Docker, cfg: Config, reuse: bool, parallel: bool, earlier: nat)
    returns (ok: bool, create: nat, update: nat, delete: nat, ghost mid: Host, ghost shown: bool)
    requires Lawful(d.w) && ValidConfig(d.w, cfg) && !cfg.targeted
    modifies d`host, d`log, d`clean, d`hashed
    ensures ok && shown && d.hashed ==>
              (create == 0 && update == 0 && delete == 0 <==> Adopted(old(d.host), cfg) && Consistent(cfg.filesets))
  {
    hide PlanIs, ExecOf, Apply, Pruned, KnownNetworks, ValidConfig, Adopted, Consistent, Performed, Removals, LawfulUp, Ran, AllCurrent, Attempted;
    for i := 0 to earlier
      invariant Adopted(d.host, cfg) <==> Adopted(old(d.host), cfg)
    {
      ghost var exec, applied, pruned, between;
      var done, plan;
      done, plan, exec, applied, pruned, between := Run(d, cfg, reuse, parallel);
    }
    d.hashed := true; // only the last run matters
    ok, create, update, delete, mid, shown := RunTwice(d, cfg, reuse, parallel);
  }
}
