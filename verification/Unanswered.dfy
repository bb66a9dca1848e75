/**
 The one failed query that a successful apply can be misled by: a configuration hash that cannot be
 asked for counts as "no opinion" (internal/planner/service_state.go:180-230).
 */
module Unanswered {
  import opened Text
  import opened FilesetIndex
  import opened VolumeTree
  import opened DockerHost
  import opened FilesetSync
  import opened ServiceDetect
  import opened ContextState
  import opened Planning
  import opened PlanCounts
  import opened Applying
  import opened Pruning
  import opened Convergence

  /** What Docker answers when hash queries fail. */
  ghost function Hashless(h: Host, s: Stack): Answers { Answers(svc => None, Truth(h, s).labels) }

  /** The state found for a service without its hash. */
  ghost function Guessed(w: World, h: Host, s: Stack, svc: string): ServiceInfo {
    Detect(svc, RunningMap(h, s.project), NoBatch, Hashless(h, s), w.identifier)
  }

  /** The service runs, for this project, with a configuration hash other than the planned one. */
  ghost predicate Outdated(w: World, h: Host, s: Stack, svc: string)
    requires svc in s.services
  {
    var r := RunningMap(h, s.project);
    && svc in r && r[svc] in h.containers && h.containers[r[svc]].ident == w.identifier
    && s.services[svc] != "" && h.containers[r[svc]].hash != s.services[svc]
  }

  /** Without its hash a service is taken for current exactly if it is, or is outdated only. */
  lemma {:induction false} GuessedExactly(w: World, h: Host, s: Stack, svc: string)
    requires w.identifier != "" && svc in s.services
    ensures Guessed(w, h, s, svc).state.Running? <==> ServiceCurrent(w, h, s, svc) || Outdated(w, h, s, svc)
    ensures !(ServiceCurrent(w, h, s, svc) && Outdated(w, h, s, svc))
  {
    RunningMapIs(h, s.project, svc);
  }

  // ------------------------------------------------------------ a concrete run

  function OldWeb(w: World): Host {
    Host(map["data" := Volume(true, map["f" := "x"], Absent)], map["net" := Network(true, false)],
         map["c" := Container("app", "web", true, "0", w.identifier, {})])
  }

  const App := Stack("app", map["web" := "1"])
  const AppConfig := Config(false, {"data"}, {"net"}, map[], map["app" := App])

  lemma {:induction false} WebOutdated(w: World, h: Host)
    requires h.containers == OldWeb(w).containers
    ensures Outdated(w, h, App, "web")
  {
    RunningMapIs(h, "app", "web");
    assert "c" in RunningIn(h, "app") && h.containers["c"].service == "web";
    assert h.containers.Keys == {"c"};
  }

  lemma {:induction false} OnlyApp()
    ensures SortedKeys({"app"}) == ["app"] && SortedKeys(AppConfig.filesets.Keys) == []
  {
    SortedKeysStrict({"app"});
    SortedUnique(SortedKeys({"app"}), ["app"]);
    NoElements(SortedKeys(AppConfig.filesets.Keys));
  }

  /** No fileset: the synchronised state has the same containers. */
  lemma {:induction false} NothingToSync(w: World, h: Host)
    ensures FilesetsSynced(w, h, AppConfig, None).host == Prepared(h, AppConfig, None)
    ensures Prepared(h, AppConfig, None).containers == h.containers
  {
    hide Prepared;
    OnlyApp();
    assert Prepared(h, AppConfig, None).containers == h.containers by { PreparedContainers(h, AppConfig); }
  }

  lemma {:induction false} PreparedContainers(h: Host, cfg: Config)
    ensures Prepared(h, cfg, None).containers == h.containers
  {
  }

  /** A decision against bringing the only stack up. */
  lemma {:induction false} NotBroughtUp(w: World, h: Host, made: map<string, StackData>)
    requires made.Keys == {"app"} && Idle(made["app"])
    ensures Decided(w, h, AppConfig.stacks, made).host == h
  {
    hide Brought, Detected, SortedKeys;
    OnlyApp();
    assert AppConfig.stacks.Keys == {"app"};
    assert ["app"][..0] == [];
    assert StacksAll(w, h, [], AppConfig.stacks, Some(made)) == StackState(h, []);
  }

  lemma {:induction false} AppValid(w: World)
    ensures ValidConfig(w, AppConfig) && Consistent(AppConfig.filesets) && Adopted(OldWeb(w), AppConfig)
    ensures AppConfig.networks - LabelledNetworks(OldWeb(w)) == {}
  {
  }

  /**
   One stack whose service runs with the old configuration, and a hash query that fails: the stack is found to
   need nothing, an apply that leaves it alone reports success, and the next plan shows the drift.
   */
  lemma {:induction false} HashFailureHidesDrift(w: World, p: ResourcePlan)
    requires Lawful(w)
    requires PlanIs(w, Pruned(w, FilesetsSynced(w, OldWeb(w), AppConfig, None).host, AppConfig), AppConfig, p)
    ensures var h := OldWeb(w);
            var infos := [Guessed(w, h, App, "web")];
            var a := FilesetsSynced(w, h, AppConfig, None).host;
            && !NeedsApply(infos)
            && Succeeded(w, h, AppConfig, None, map["app" := StackData(infos, false)], a)
            && Adopted(h, AppConfig) && Consistent(AppConfig.filesets) && !CountsNothing(p)
  {
    hide FilesetsSynced, Prepared, Pruned, PlanIs, CountsNothing, Adopted, Consistent, LawfulUp, Digests, ValidConfig, Guessed, Outdated, Decided, ServiceCurrent,
         Listed, RestartNames, SetRunning, LabelledNetworks, UpFrame;
    var h := OldWeb(w);
    var infos := [Guessed(w, h, App, "web")];
    var a := FilesetsSynced(w, h, AppConfig, None).host;
    NothingToSync(w, h);
    AppValid(w);
    WebOutdated(w, h);
    WebOutdated(w, a);
    GuessedExactly(w, h, App, "web");
    GuessedExactly(w, a, App, "web");
    NotBroughtUp(w, a, map["app" := StackData(infos, false)]);
    assert UpFrame(a, a) by { FrameSame(a); }
    assert !StackCurrent(w, a, AppConfig.stacks["app"]);
    SettlesExactly(w, h, AppConfig, None, a, p);
  }

  lemma {:induction false} FrameSame(h: Host)
    ensures UpFrame(h, h)
  {
  }
}
