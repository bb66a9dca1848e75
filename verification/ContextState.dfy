/**
 The desired state of one context and how it compares with the context's actual state:
 which services are current, and the queries that find out (the Docker side of
 internal/planner/service_state.go).
 */
module ContextState {
  import opened Text
  import opened FilesetIndex
  import opened VolumeTree
  import opened DockerHost
  import opened FilesetSync
  import opened ServiceDetect

  /** One context's share of the configuration. `targeted`: narrowed by command-line flags. */
  datatype Config = Config(targeted: bool, volumes: set<string>, networks: set<string>,
                           filesets: map<string, Fileset>, stacks: map<string, Stack>)

  function DesiredVolumes(cfg: Config): set<string> {
    cfg.volumes + set n | n in cfg.filesets :: cfg.filesets[n].volume
  }

  /** A volume that is declared, or that a fileset is synchronised into. */
  ghost predicate WantedVolume(cfg: Config, v: string) { v in cfg.volumes || exists n :: n in cfg.filesets && cfg.filesets[n].volume == v }

  /** A service that some stack plans. */
  ghost predicate PlannedService(cfg: Config, s: string) { exists n :: n in cfg.stacks && s in cfg.stacks[n].services }

  lemma {:induction false} DesiredSay(cfg: Config)
    ensures forall v :: v in DesiredVolumes(cfg) <==> WantedVolume(cfg, v)
    ensures forall s :: s in DesiredServices(cfg) <==> PlannedService(cfg, s)
  {
  }

  /** No desired volume exists without the identifier label. */
  ghost predicate Adopted(h: Host, cfg: Config) {
    forall v :: v in DesiredVolumes(cfg) && v in h.volumes ==> h.volumes[v].labelled
  }

  function DesiredServices(cfg: Config): set<string> {
    set n, s | n in cfg.stacks && s in cfg.stacks[n].services.Keys :: s
  }

  ghost predicate DistinctProjects(cfg: Config) {
    forall a, b :: a in cfg.stacks && b in cfg.stacks && a != b ==> cfg.stacks[a].project != cfg.stacks[b].project
  }

  ghost predicate ValidStack(s: Stack) { s.project != "" && "" !in s.services }

  ghost predicate ValidConfig(w: World, cfg: Config) {
    && (forall n :: n in cfg.filesets ==> ValidFileset(w, cfg.filesets[n]))
    && (forall n :: n in cfg.stacks ==> ValidStack(cfg.stacks[n]))
    && DistinctProjects(cfg)
  }

  // ----------------------------------------------------------- service states

  function LabelsOf(c: Container): Labels {
    (if c.hash == "" then map[] else map[HASH_LABEL := c.hash]) + (if c.ident == "" then map[] else map[ID_LABEL := c.ident])
  }

  /** What Docker answers when every query succeeds. */
  function Truth(h: Host, s: Stack): Answers {
    Answers(svc => if svc in s.services then Some(s.services[svc]) else None,
            n => if n in h.containers then Some(LabelsOf(h.containers[n])) else None)
  }

  /** Service to container; the last listed container of a service wins. */
  function LastByService(items: seq<PsBrief>): map<string, string> {
    if items == [] then map[]
    else LastByService(items[..|items| - 1])[items[|items| - 1].service := items[|items| - 1].name]
  }

  ghost function RunningMap(h: Host, project: string): map<string, string> {
    LastByService(ListedRunning(h, project))
  }

  ghost function Detected(w: World, h: Host, s: Stack): seq<ServiceInfo> {
    DetectAll(SortedKeys(s.services.Keys), RunningMap(h, s.project), NoBatch, Truth(h, s), w.identifier)
  }

  lemma {:induction false} LastByServiceIn(items: seq<PsBrief>)
    ensures forall i :: 0 <= i < |items| ==> items[i].service in LastByService(items)
    ensures forall s :: s in LastByService(items) ==>
              exists b :: b in items && b.service == s && b.name == LastByService(items)[s]
  {
    if items != [] {
      var front, last := items[..|items| - 1], items[|items| - 1];
      LastByServiceIn(front);
      assert items == front + [last];
      forall i | 0 <= i < |items| ensures items[i].service in LastByService(items) {
        if i < |front| { assert items[i] == front[i] && front[i].service in LastByService(front); }
      }
      forall s | s in LastByService(items) ensures exists b :: b in items && b.service == s && b.name == LastByService(items)[s] {
        if s == last.service {
          assert last in items;
        } else {
          var b :| b in front && b.service == s && b.name == LastByService(front)[s];
          assert b in items;
        }
      }
    }
  }

  /** A service's entry is a running container of it; it has an entry if there is one. */
  lemma {:induction false} RunningMapIs(h: Host, project: string, svc: string)
    ensures svc in RunningMap(h, project) <==> exists n :: n in RunningIn(h, project) && h.containers[n].service == svc
    ensures svc in RunningMap(h, project) ==>
              RunningMap(h, project)[svc] in RunningIn(h, project) && h.containers[RunningMap(h, project)[svc]].service == svc
  {
    var items := ListedRunning(h, project);
    LastByServiceIn(items);
    if svc in RunningMap(h, project) {
      var b :| b in items && b.service == svc && b.name == LastByService(items)[svc];
      RunningMembers(h, project, b);
    }
    if n :| n in RunningIn(h, project) && h.containers[n].service == svc {
      RunningMembers(h, project, Brief(h, n));
      var i :| 0 <= i < |items| && items[i] == Brief(h, n);
    }
  }

  /** The container runs for this project with the current configuration. */
  predicate Current(w: World, desired: string, c: Container) {
    c.ident == w.identifier && (desired != "" ==> c.hash == desired)
  }

  /** The service's listed container is current. */
  ghost predicate ServiceCurrent(w: World, h: Host, s: Stack, svc: string)
    requires svc in s.services
  {
    var r := RunningMap(h, s.project);
    svc in r && r[svc] in h.containers && Current(w, s.services[svc], h.containers[r[svc]])
  }

  ghost predicate StackCurrent(w: World, h: Host, s: Stack) {
    forall svc :: svc in s.services ==> ServiceCurrent(w, h, s, svc)
  }

  lemma {:induction false} DetectedState(w: World, h: Host, s: Stack, svc: string)
    requires w.identifier != "" && svc in s.services
    ensures Detect(svc, RunningMap(h, s.project), NoBatch, Truth(h, s), w.identifier).state.Running? <==> ServiceCurrent(w, h, s, svc)
  {
    RunningMapIs(h, s.project, svc);
  }

  /** A stack needs `compose up` exactly when some planned service is not current. */
  lemma {:induction false} NeedsApplyIs(w: World, h: Host, s: Stack)
    requires w.identifier != ""
    ensures NeedsApply(Detected(w, h, s)) <==> !StackCurrent(w, h, s)
  {
    var names, infos := SortedKeys(s.services.Keys), Detected(w, h, s);
    forall i | 0 <= i < |infos| ensures names[i] in s.services && (infos[i].state.Running? <==> ServiceCurrent(w, h, s, names[i])) {
      assert names[i] in Elements(names);
      DetectedState(w, h, s, names[i]);
    }
    if !StackCurrent(w, h, s) {
      var svc :| svc in s.services && !ServiceCurrent(w, h, s, svc);
      assert svc in Elements(names);
      var i :| 0 <= i < |names| && names[i] == svc;
      assert !infos[i].state.Running?;
    }
  }

  // ------------------------------------------------------------------ queries

  /** The planned services: the cheap listing first, the full configuration if it yields nothing. */
  method GetPlannedServices(d: Docker, s: Stack) returns (ok: bool, names: seq<string>, ghost fellBack: bool)
    modifies d`clean
    ensures d.clean ==> old(d.clean) && ok
    ensures ok ==> names == SortedKeys(s.services.Keys) && (d.clean == old(d.clean) || fellBack)
    ensures fellBack ==> ok && !d.clean
  {
    fellBack := false;
    ok := d.Read();
    names := SortKeys(s.services.Keys);
    if ok && |names| > 0 { return; }
    ghost var first := ok;
    ok := d.Read();
    fellBack := !first && ok;
  }

  /** A failing `compose ps` counts as nothing running. */
  method GetRunningServices(d: Docker, s: Stack) returns (running: map<string, string>)
    modifies d`clean
    ensures d.clean ==> old(d.clean) && running == RunningMap(d.host, s.project)
    ensures running == map[] || running == RunningMap(d.host, s.project)
  {
    running := map[];
    var ok, items := d.ComposePs(s.project);
    if !ok { return; }
    for i := 0 to |items|
      invariant running == LastByService(items[..i])
    {
      assert items[..i + 1][..i] == items[..i];
      running := running[items[i].service := items[i].name];
    }
    assert items[..|items|] == items;
  }

  /** Batched hashes and labels; a failed batch is an empty one. */
  method FetchBatch(d: Docker, s: Stack, running: map<string, string>) returns (batch: Batch)
    modifies d`clean
    ensures d.clean ==> old(d.clean)
    ensures Agree(batch, Truth(d.host, s))
  {
    var hashes: map<string, string> := map[];
    var labels: map<string, Labels> := map[];
    var ok := d.Read();
    if ok { hashes := s.services; }
    if running != map[] {
      ok := d.Read();
      if ok {
        labels := map svc | svc in running && running[svc] in d.host.containers :: running[svc] := LabelsOf(d.host.containers[running[svc]]);
      }
    }
    batch := Batch(hashes, labels);
  }

  /** One service, asking Docker for whatever the batch lacks; a failed query has no answer. */
  method DetectService(d: Docker, s: Stack, svc: string, running: map<string, string>, batch: Batch) returns (info: ServiceInfo)
    requires Agree(batch, Truth(d.host, s))
    modifies d`clean, d`hashed
    ensures d.clean ==> old(d.clean) && info == Detect(svc, running, NoBatch, Truth(d.host, s), d.w.identifier)
    ensures (d.hashed ==> old(d.hashed)) && (d.clean ==> d.hashed == old(d.hashed))
    ensures d.hashed && info.state.Running? ==> && svc in running
                                                && Detect(svc, running, NoBatch, Truth(d.host, s), d.w.identifier).state.Running?
    ensures info.name == svc
  {
    var desired := if svc in batch.hashes then batch.hashes[svc] else "";
    if desired == "" {
      var ok := d.Read();
      if !ok && svc in running { d.hashed := false; }
      if ok && svc in s.services { desired := s.services[svc]; }
    }
    if svc !in running { return ServiceInfo(svc, Missing, desired, "", None); }
    var c := running[svc];
    info := ServiceInfo(svc, ServiceDetect.State.Running, desired, "", Some(c));
    var labels := if c in batch.labels then Some(batch.labels[c]) else None;
    if labels.None? {
      var ok := d.Read();
      if ok && c in d.host.containers { labels := Some(LabelsOf(d.host.containers[c])); }
    }
    info := Compare(info, labels, d.w.identifier);
  }

  /**
   Whatever fails, a stack found to need nothing needs nothing, unless the configuration hash of a running
   service could not be asked for; then the service counts as running with the right configuration.
   */
  method DetectAllServicesState(d: Docker, s: Stack) returns (ok: bool, infos: seq<ServiceInfo>)
    modifies d`clean, d`hashed
    ensures d.clean ==> old(d.clean) && ok && infos == Detected(d.w, d.host, s)
    ensures (d.hashed ==> old(d.hashed)) && (d.clean ==> d.hashed == old(d.hashed))
    ensures ok && d.hashed && d.w.identifier != "" && !NeedsApply(infos) ==> StackCurrent(d.w, d.host, s)
    ensures ok ==> |infos| == |SortedKeys(s.services.Keys)| &&
                   forall i :: 0 <= i < |infos| ==> infos[i].name == SortedKeys(s.services.Keys)[i]
  {
    hide Truth, Agree, RunningMap, StackCurrent, SortedKeys, Detect, NeedsApply;
    NobodyNeedsApply(d.w, d.host, s);
    infos := [];
    ok := d.Read(); // inline environment, with decrypted secrets
    if !ok { return; }
    var names;
    ghost var fellBack;
    ok, names, fellBack := GetPlannedServices(d, s);
    NoElements(names);
    if !ok || names == [] { return; }
    var running := GetRunningServices(d, s);
    var batch := FetchBatch(d, s, running);
    for i := 0 to |names|
      invariant d.clean ==> old(d.clean) && running == RunningMap(d.host, s.project)
      invariant |infos| == i && forall k :: 0 <= k < i ==> infos[k].name == names[k]
      invariant (d.hashed ==> old(d.hashed)) && (d.clean ==> d.hashed == old(d.hashed))
      invariant d.hashed ==> forall k :: 0 <= k < i && infos[k].state.Running? ==>
                  names[k] in running && Detect(names[k], running, NoBatch, Truth(d.host, s), d.w.identifier).state.Running?
      invariant d.clean ==> forall k :: 0 <= k < i ==>
                  infos[k] == Detect(names[k], running, NoBatch, Truth(d.host, s), d.w.identifier)
    {
      var info := DetectService(d, s, names[i], running, batch);
      infos := infos + [info];
    }
    if d.hashed && d.w.identifier != "" && !NeedsApply(infos) { AllRunning(d.w, d.host, s, infos, running); }
  }

  lemma {:induction false} NobodyNeedsApply(w: World, h: Host, s: Stack)
    ensures s.services.Keys == {} ==> StackCurrent(w, h, s)
  {
  }

  lemma {:induction false} AllRunning(w: World, h: Host, s: Stack, infos: seq<ServiceInfo>, running: map<string, string>)
    requires w.identifier != "" && |infos| == |SortedKeys(s.services.Keys)| && !NeedsApply(infos)
    requires running == map[] || running == RunningMap(h, s.project)
    requires forall k :: 0 <= k < |infos| && infos[k].state.Running? ==>
               var svc := SortedKeys(s.services.Keys)[k];
               svc in running && Detect(svc, running, NoBatch, Truth(h, s), w.identifier).state.Running?
    ensures StackCurrent(w, h, s)
  {
    hide RunningMap, Detect, ServiceCurrent;
    var names := SortedKeys(s.services.Keys);
    forall svc | svc in s.services ensures ServiceCurrent(w, h, s, svc) {
      assert svc in Elements(names);
      var k :| 0 <= k < |names| && names[k] == svc;
      assert infos[k].state.Running?;
      DetectedState(w, h, s, svc);
    }
  }

  // ---------------------------------------------------------------- stability

  /** The containers of a project are the same in both states. */
  ghost predicate SameProject(h: Host, h': Host, project: string) {
    && (forall n :: n in h.containers && h.containers[n].project == project ==> n in h'.containers && h'.containers[n] == h.containers[n])
    && (forall n :: n in h'.containers && h'.containers[n].project == project ==> n in h.containers && h.containers[n] == h'.containers[n])
  }

  lemma {:induction false} SameRunning(h: Host, h': Host, project: string)
    requires SameProject(h, h', project)
    ensures RunningMap(h, project) == RunningMap(h', project)
  {
    assert RunningIn(h, project) == RunningIn(h', project);
    var names := SortedKeys(RunningIn(h, project));
    forall i | 0 <= i < |names| ensures ListedRunning(h, project)[i] == ListedRunning(h', project)[i] {
      assert names[i] in Elements(names);
    }
    assert ListedRunning(h, project) == ListedRunning(h', project);
  }

  /** What happens to other projects does not change whether a stack is current. */
  lemma {:induction false} CurrentStable(w: World, h: Host, h': Host, s: Stack)
    requires SameProject(h, h', s.project)
    ensures StackCurrent(w, h, s) <==> StackCurrent(w, h', s)
  {
    SameRunning(h, h', s.project);
    forall svc | svc in s.services ensures ServiceCurrent(w, h, s, svc) <==> ServiceCurrent(w, h', s, svc) {
      RunningMapIs(h, s.project, svc);
      RunningMapIs(h', s.project, svc);
    }
  }

  // ----------------------------------------------------------------- replicas

  /** The running containers of a service. */
  function Replicas(h: Host, project: string, svc: string): set<string> {
    set n | n in RunningIn(h, project) && h.containers[n].service == svc
  }

  lemma {:induction false} LastIsGreatest(items: seq<PsBrief>, b: PsBrief)
    requires forall i, j :: 0 <= i < j < |items| ==> Less(items[i].name, items[j].name)
    requires b in items
    ensures b.service in LastByService(items) && !Less(LastByService(items)[b.service], b.name)
  {
    LastByServiceIn(items);
    var front, last := items[..|items| - 1], items[|items| - 1];
    assert items == front + [last];
    if b.service == last.service {
      if Less(last.name, b.name) { LessTransitive(last.name, b.name, last.name); }
      LessIrreflexive(last.name);
    } else {
      LastIsGreatest(front, b);
    }
  }

  /** The container detection looks at is the one with the greatest name. */
  lemma {:induction false} GreatestReplica(h: Host, project: string, svc: string)
    ensures svc in RunningMap(h, project) <==> Replicas(h, project, svc) != {}
    ensures svc in RunningMap(h, project) ==> RunningMap(h, project)[svc] in Replicas(h, project, svc)
    ensures svc in RunningMap(h, project) ==>
              forall n :: n in Replicas(h, project, svc) ==> !Less(RunningMap(h, project)[svc], n)
  {
    RunningMapIs(h, project, svc);
    if svc in RunningMap(h, project) {
      assert RunningMap(h, project)[svc] in Replicas(h, project, svc);
      var items, names := ListedRunning(h, project), SortedKeys(RunningIn(h, project));
      SortedKeysStrict(RunningIn(h, project));
      forall n | n in Replicas(h, project, svc) ensures !Less(RunningMap(h, project)[svc], n) {
        RunningMembers(h, project, Brief(h, n));
        LastIsGreatest(items, Brief(h, n));
      }
    }
    if Replicas(h, project, svc) != {} {
      var n :| n in Replicas(h, project, svc);
      assert n in RunningIn(h, project) && h.containers[n].service == svc;
    }
  }

  /** Adding replicas with smaller names does not change which one detection looks at. */
  lemma {:induction false} SameGreatest(h: Host, h': Host, project: string, svc: string)
    requires svc in RunningMap(h, project)
    requires Replicas(h, project, svc) <= Replicas(h', project, svc)
    requires forall n :: n in Replicas(h', project, svc) ==> !Less(RunningMap(h, project)[svc], n)
    ensures svc in RunningMap(h', project) && RunningMap(h', project)[svc] == RunningMap(h, project)[svc]
  {
    hide RunningMap, Replicas, Less;
    GreatestReplica(h, project, svc);
    GreatestReplica(h', project, svc);
    var a, b := RunningMap(h, project)[svc], RunningMap(h', project)[svc];
    LessTotal(a, b);
  }

  lemma {:induction false} FirstIsLeast(items: seq<PsBrief>, b: PsBrief)
    requires forall i, j :: 0 <= i < j < |items| ==> Less(items[i].name, items[j].name)
    requires b in items
    ensures FirstOf(items, b.service).Some? && !Less(b.name, FirstOf(items, b.service).value)
  {
    if items[0].service == b.service {
      if Less(b.name, items[0].name) { LessTransitive(b.name, items[0].name, b.name); }
      LessIrreflexive(b.name);
    } else {
      FirstIsLeast(items[1..], b);
    }
  }

  /** The first listed container of its service. */
  ghost predicate IsFirst(w: World, h: Host, n: string) {
    n in Managed(w, h) && FirstOf(Listed(w, h), h.containers[n].service) == Some(n)
  }

  lemma {:induction false} FirstOfListed(w: World, h: Host, svc: string)
    ensures FirstOf(Listed(w, h), svc).Some? ==>
              IsFirst(w, h, FirstOf(Listed(w, h), svc).value) && h.containers[FirstOf(Listed(w, h), svc).value].service == svc
  {
    var items := Listed(w, h);
    FirstOfIn(items, svc);
    if FirstOf(items, svc).Some? {
      var k :| 0 <= k < |items| && items[k].service == svc && items[k].name == FirstOf(items, svc).value;
      ListedMembers(w, h, items[k]);
      assert items[k] in items;
    }
  }

  /** Starting containers that are first of their service keeps a current stack current. */
  lemma {:induction false} StartFirsts(w: World, h: Host, s: Stack, names: set<string>)
    requires ValidStack(s) && StackCurrent(w, h, s)
    requires forall n :: n in names ==> IsFirst(w, h, n)
    ensures StackCurrent(w, h.(containers := SetRunning(h.containers, names, true)), s)
  {
    hide RunningMap, IsFirst, ValidStack;
    var h' := h.(containers := SetRunning(h.containers, names, true));
    forall svc | svc in s.services ensures ServiceCurrent(w, h', s, svc) {
      assert ServiceCurrent(w, h, s, svc);
      GreatestReplica(h, s.project, svc);
      var last := RunningMap(h, s.project)[svc];
      forall n | n in Replicas(h', s.project, svc) ensures !Less(last, n) {
        if n in names && n !in Replicas(h, s.project, svc) { FirstBelow(w, h, s, svc, last, n); }
      }
      SameGreatest(h, h', s.project, svc);
    }
  }

  lemma {:induction false} FirstBelow(w: World, h: Host, s: Stack, svc: string, last: string, n: string)
    requires ValidStack(s) && svc in s.services && last in Replicas(h, s.project, svc) && h.containers[last].ident == w.identifier
    requires IsFirst(w, h, n) && n in h.containers && h.containers[n].service == svc
    ensures !Less(last, n)
  {
    SortedKeysStrict(Managed(w, h));
    ListedMembers(w, h, Brief(h, last));
    FirstIsLeast(Listed(w, h), Brief(h, last));
  }

  /** A stack stays current as long as its planned services keep their running containers. */
  lemma {:induction false} CurrentByReplicas(w: World, h: Host, h': Host, s: Stack)
    requires forall svc :: svc in s.services ==> Replicas(h, s.project, svc) == Replicas(h', s.project, svc)
    requires forall n :: n in h.containers && n in h'.containers && PlannedBy(s, h.containers[n]) ==> h'.containers[n] == h.containers[n]
    requires StackCurrent(w, h, s)
    ensures StackCurrent(w, h', s)
  {
    hide RunningMap;
    forall svc | svc in s.services ensures ServiceCurrent(w, h', s, svc) {
      assert ServiceCurrent(w, h, s, svc);
      GreatestReplica(h, s.project, svc);
      SameGreatest(h, h', s.project, svc);
      GreatestReplica(h', s.project, svc);
    }
  }
}
