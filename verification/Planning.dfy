/**
 The plan of one context (internal/planner/build_plan.go, build_plan_filesets.go,
 build_plan_stacks.go) and its counts (internal/planner/resource.go:443-479).
 */
module Planning {
  import opened Text
  import opened FilesetIndex
  import opened VolumeTree
  import opened DockerHost
  import opened FilesetSync
  import opened ServiceDetect
  import opened ContextState

  datatype Action = Create | Update | Reconcile | Delete | Noop

  datatype Resource = Resource(name: string, action: Action)

  datatype ResourcePlan = ResourcePlan(volumes: seq<Resource>, networks: seq<Resource>,
                                       stacks: map<string, seq<Resource>>, filesets: map<string, seq<Resource>>)

  /** What a plan has found out about a stack, kept for apply and prune. */
  datatype StackData = StackData(services: seq<ServiceInfo>, needsApply: bool)

  datatype ExecutionContext = ExecutionContext(filesets: map<string, FilesetData>, stacks: map<string, StackData>,
                                               networks: set<string>)

  // ------------------------------------------------------ volumes and networks

  /** The entries for top-level resources, as a set. */
  function TopEntries(desired: set<string>, existing: set<string>, orphans: set<string>): set<Resource> {
    (set n | n in desired :: Resource(n, if n in existing then Noop else Create)) + (set n | n in orphans :: Resource(n, Delete))
  }

  method TopResources(desired: set<string>, existing: set<string>, orphans: set<string>) returns (r: seq<Resource>)
    ensures Elements(r) == TopEntries(desired, existing, orphans) && NoDup(r)
    ensures |r| >= |SortedKeys(desired)| && forall i :: 0 <= i < |SortedKeys(desired)| ==> r[i].name == SortedKeys(desired)[i] && r[i].action != Delete
  {
    var names := SortKeys(desired);
    SortedKeysStrict(desired);
    r := [];
    for i := 0 to |names|
      invariant Elements(r) == TopEntries(Elements(names[..i]), existing, {})
      invariant |r| == i && forall k :: 0 <= k < i ==> r[k].name == names[k] && r[k].action != Delete
    {
      var x := Resource(names[i], if names[i] in existing then Noop else Create);
      assert Elements(names[..i + 1]) == Elements(names[..i]) + {names[i]};
      assert Elements(r + [x]) == Elements(r) + {x};
      assert TopEntries(Elements(names[..i]) + {names[i]}, existing, {}) == TopEntries(Elements(names[..i]), existing, {}) + {x};
      r := r + [x];
    }
    assert names[..|names|] == names;
    var left := orphans;
    while left != {}
      invariant left <= orphans && Elements(r) == TopEntries(desired, existing, orphans - left) && NoDup(r)
      invariant |r| >= |names| && forall k :: 0 <= k < |names| ==> r[k].name == names[k] && r[k].action != Delete
      decreases left
    {
      var n :| n in left;
      assert Resource(n, Delete) !in Elements(r);
      assert Elements(r + [Resource(n, Delete)]) == Elements(r) + {Resource(n, Delete)};
      assert orphans - (left - {n}) == (orphans - left) + {n};
      assert TopEntries(desired, existing, (orphans - left) + {n}) == TopEntries(desired, existing, orphans - left) + {Resource(n, Delete)};
      r := r + [Resource(n, Delete)];
      left := left - {n};
    }
    assert orphans - left == orphans;
  }

  /** Labelled networks that are neither declared nor owned by a compose stack. */
  method OrphanNetworks(existing: set<string>, desired: set<string>, owned: set<string>) returns (orphans: set<string>)
    ensures orphans == existing - desired - owned
  {
    orphans := {};
    var left := existing;
    while left != {}
      invariant left <= existing && orphans == existing - left - desired - owned
      decreases left
    {
      var n :| n in left;
      if n !in desired && n !in owned { orphans := orphans + {n}; }
      left := left - {n};
    }
  }

  // ------------------------------------------------------------------- stacks

  function ActionOf(s: ServiceDetect.State): Action {
    match s
    case Missing => Create
    case IdentifierMismatch => Reconcile
    case Drifted => Update
    case Running => Noop
  }

  function ServiceResources(infos: seq<ServiceInfo>): (r: seq<Resource>)
    ensures |r| == |infos| && forall i :: 0 <= i < |r| ==> r[i] == Resource(infos[i].name, ActionOf(infos[i].state))
  {
    if infos == [] then [] else [Resource(infos[0].name, ActionOf(infos[0].state))] + ServiceResources(infos[1..])
  }

  const Fallback := [Resource("services", Noop)]

  ghost function StackResources(w: World, h: Host, s: Stack): seq<Resource> {
    if s.services == map[] then Fallback else ServiceResources(Detected(w, h, s))
  }

  /** Services of managed containers that no stack plans, per project. */
  function OrphanServices(w: World, h: Host, cfg: Config, project: string): set<string> {
    set n | n in Managed(w, h) && h.containers[n].project == project && h.containers[n].service !in DesiredServices(cfg) :: h.containers[n].service
  }

  function OrphanProjects(w: World, h: Host, cfg: Config): set<string> {
    set n | n in Managed(w, h) && h.containers[n].service !in DesiredServices(cfg) :: h.containers[n].project
  }

  // ----------------------------------------------------------------- filesets

  /** The remote index a plan compares with: volumes without the label count as missing. */
  ghost function PlannedRemote(h: Host, fs: Fileset): Index {
    if fs.volume in LabelledVolumes(h) then RemoteOf(h.volumes[fs.volume].stored) else EmptyIndex
  }

  function FileEntries(files: seq<FileEntry>, a: Action): seq<Resource> {
    if files == [] then [] else [Resource(files[0].path, a)] + FileEntries(files[1..], a)
  }

  function PathEntries(paths: seq<string>, a: Action): seq<Resource> {
    if paths == [] then [] else [Resource(paths[0], a)] + PathEntries(paths[1..], a)
  }

  /** The entries of a fileset; entries without a name are messages, not files. */
  function FilesetResources(f: FilesetData): seq<Resource> {
    if f.local.treeHash == f.remote.treeHash then [Resource("", Noop)]
    else
      FileEntries(f.diff.toCreate, Create) + FileEntries(f.diff.toUpdate, Update) + PathEntries(f.diff.toDelete, Delete) +
      (if f.diff == NoChange then [Resource("", Update)] else [])
  }

  // ------------------------------------------------------------- specification

  ghost function StackDataOf(w: World, h: Host, s: Stack): StackData {
    StackData(Detected(w, h, s), NeedsApply(Detected(w, h, s)))
  }

  ghost function StacksExec(w: World, h: Host, cfg: Config): map<string, StackData> {
    map n | n in cfg.stacks && cfg.stacks[n].services != map[] :: StackDataOf(w, h, cfg.stacks[n])
  }

  ghost function FilesetsExec(h: Host, cfg: Config): map<string, FilesetData> {
    map n | n in cfg.filesets :: FilesetDataOf(h, cfg.filesets[n])
  }

  ghost function FilesetDataOf(h: Host, fs: Fileset): FilesetData {
    FilesetData(fs.local, PlannedRemote(h, fs), DiffOf(fs.local, PlannedRemote(h, fs)))
  }

  ghost function ExecOf(w: World, h: Host, cfg: Config): ExecutionContext {
    ExecutionContext(FilesetsExec(h, cfg), StacksExec(w, h, cfg), LabelledNetworks(h))
  }

  ghost function StackEntries(w: World, h: Host, cfg: Config, key: string): set<Resource> {
    (if key in cfg.stacks then Elements(StackResources(w, h, cfg.stacks[key])) else {}) +
    (if cfg.targeted then {} else Deletes(OrphanServices(w, h, cfg, key)))
  }

  /** The plan lists, up to the order of deletions, exactly these entries. */
  ghost predicate PlanIs(w: World, h: Host, cfg: Config, p: ResourcePlan) {
    && Elements(p.volumes) == TopEntries(DesiredVolumes(cfg), LabelledVolumes(h),
                                         if cfg.targeted then {} else LabelledVolumes(h) - DesiredVolumes(cfg))
    && Elements(p.networks) == TopEntries(cfg.networks, LabelledNetworks(h),
                                          if cfg.targeted then {} else LabelledNetworks(h) - cfg.networks - ComposeNetworks(h))
    && p.stacks.Keys == cfg.stacks.Keys + (if cfg.targeted then {} else OrphanProjects(w, h, cfg))
    && (forall key :: key in p.stacks ==> Elements(p.stacks[key]) == StackEntries(w, h, cfg, key))
    && p.filesets.Keys == cfg.filesets.Keys
    && (forall n :: n in p.filesets ==> p.filesets[n] == FilesetResources(FilesetDataOf(h, cfg.filesets[n])))
  }

  // ---------------------------------------------------------------- algorithm

  /** Stored service names are the planned ones. */
  ghost predicate NamesPlanned(s: Stack, data: StackData) {
    && data.services != []
    && (set i | 0 <= i < |data.services| :: data.services[i].name) == s.services.Keys
  }

  ghost predicate DataNames(cfg: Config, data: map<string, StackData>) {
    forall n :: n in data ==> n in cfg.stacks && NamesPlanned(cfg.stacks[n], data[n])
  }

  /** Where the findings say that a stack needs nothing, it needs nothing. */
  ghost predicate DataHonest(w: World, h: Host, cfg: Config, data: map<string, StackData>) {
    forall n :: n in data && n in cfg.stacks && !data[n].needsApply ==> StackCurrent(w, h, cfg.stacks[n])
  }

  /** There are findings about exactly those of these stacks that have services. */
  ghost predicate Complete(cfg: Config, done: set<string>, data: map<string, StackData>) {
    forall n :: n in data <==> n in done && n in cfg.stacks && cfg.stacks[n].services != map[]
  }

  lemma {:induction false} CompleteStep(cfg: Config, done: set<string>, data: map<string, StackData>, n: string, found: Option<StackData>)
    requires Complete(cfg, done, data) && n in cfg.stacks && n !in done && (found.Some? <==> cfg.stacks[n].services != map[])
    ensures Complete(cfg, done + {n}, if found.Some? then data[n := found.value] else data)
  {
  }

  lemma {:induction false} NothingComplete(cfg: Config)
    ensures Complete(cfg, {}, map[])
  {
  }

  /** Detects one stack and keeps the findings for apply. */
  method PlanStack(d: Docker, s: Stack) returns (ok: bool, resources: seq<Resource>, data: Option<StackData>)
    modifies d`clean, d`hashed
    ensures d.clean ==> old(d.clean) && ok
    ensures (d.hashed ==> old(d.hashed)) && (d.clean ==> d.hashed == old(d.hashed))
    ensures ok && d.hashed && d.w.identifier != "" && data.Some? && !data.value.needsApply ==> StackCurrent(d.w, d.host, s)
    ensures ok && data.Some? ==> NamesPlanned(s, data.value)
    ensures ok ==> (data.Some? <==> s.services != map[])
    ensures d.clean ==> resources == StackResources(d.w, d.host, s)
    ensures d.clean ==> data == if s.services == map[] then None else Some(StackDataOf(d.w, d.host, s))
  {
    resources, data := [], None;
    ok := d.Read(); // inline environment
    if !ok { return; }
    var infos;
    ok, infos := DetectAllServicesState(d, s);
    if !ok { return; }
    ghost var names := SortedKeys(s.services.Keys);
    NoElements(names);
    if infos == [] { return true, Fallback, None; }
    NamesAre(s, infos);
    var needs := AnyNeedsApply(infos);
    resources, data := ServiceResources(infos), Some(StackData(infos, needs));
  }

  lemma {:induction false} NamesAre(s: Stack, infos: seq<ServiceInfo>)
    requires |infos| == |SortedKeys(s.services.Keys)|
    requires forall i :: 0 <= i < |infos| ==> infos[i].name == SortedKeys(s.services.Keys)[i]
    ensures (set i | 0 <= i < |infos| :: infos[i].name) == s.services.Keys
  {
    var names := SortedKeys(s.services.Keys);
    forall x | x in s.services ensures x in set i | 0 <= i < |infos| :: infos[i].name {
      assert x in Elements(names);
      var i :| 0 <= i < |names| && names[i] == x;
      assert infos[i].name == x;
    }
    forall i | 0 <= i < |infos| ensures infos[i].name in s.services {
      assert names[i] in Elements(names);
    }
  }

  ghost predicate StacksPlanned(w: World, h: Host, cfg: Config, done: set<string>,
                                stacks: map<string, seq<Resource>>, data: map<string, StackData>) {
    && (forall n :: n in stacks ==> n in cfg.stacks && stacks[n] == StackResources(w, h, cfg.stacks[n]))
    && (forall n :: n in data <==> n in done && n in cfg.stacks && cfg.stacks[n].services != map[])
    && (forall n :: n in data ==> data[n] == StackDataOf(w, h, cfg.stacks[n]))
  }

  method BuildStacks(d: Docker, cfg: Config) returns (ok: bool, stacks: map<string, seq<Resource>>, data: map<string, StackData>)
    modifies d`clean, d`hashed
    ensures d.clean ==> old(d.clean) && ok
    ensures (d.hashed ==> old(d.hashed)) && (d.clean ==> d.hashed == old(d.hashed))
    ensures ok && d.hashed && d.w.identifier != "" ==> DataHonest(d.w, d.host, cfg, data)
    ensures ok ==> stacks.Keys == cfg.stacks.Keys && DataNames(cfg, data)
    ensures ok ==> Complete(cfg, cfg.stacks.Keys, data)
    ensures d.clean ==> StacksPlanned(d.w, d.host, cfg, cfg.stacks.Keys, stacks, data)
  {
    hide StackResources, StackDataOf, NamesPlanned, StacksPlanned, DataNames, SortedKeys, StackCurrent, Complete, NoDup;
    NothingComplete(cfg);
    ok, stacks, data := true, map[], map[];
    StacksPlannedNone(d.w, d.host, cfg);
    SortedKeysStrict(cfg.stacks.Keys);
    var names := SortKeys(cfg.stacks.Keys);
    assert Elements(names[..0]) == {};
    for i := 0 to |names|
      invariant ok && (d.clean ==> old(d.clean))
      invariant (d.hashed ==> old(d.hashed)) && (d.clean ==> d.hashed == old(d.hashed))
      invariant d.hashed && d.w.identifier != "" ==> DataHonest(d.w, d.host, cfg, data)
      invariant stacks.Keys == Elements(names[..i]) && DataNames(cfg, data)
      invariant Complete(cfg, Elements(names[..i]), data)
      invariant d.clean ==> StacksPlanned(d.w, d.host, cfg, Elements(names[..i]), stacks, data)
    {
      var n := names[i];
      assert n in Elements(names);
      assert Elements(names[..i + 1]) == Elements(names[..i]) + {n};
      var resources, found;
      ok, resources, found := PlanStack(d, cfg.stacks[n]);
      if !ok { return; }
      DataNamesStep(cfg, data, n, found);
      if d.clean { StacksPlannedStep(d.w, d.host, cfg, Elements(names[..i]), stacks, data, n, resources, found); }
      assert n !in Elements(names[..i]) by { NotYet(names, i); }
      CompleteStep(cfg, Elements(names[..i]), data, n, found);
      stacks := stacks[n := resources];
      if found.Some? { data := data[n := found.value]; }
    }
    assert names[..|names|] == names;
  }

  lemma {:induction false} NotYet(names: seq<string>, i: nat)
    requires NoDup(names) && i < |names|
    ensures names[i] !in Elements(names[..i])
  {
  }

  /**
   The concurrent form: workers report in any order, every result is stored, and errors are
   collected instead of ending the loop. A failed stack shows the fallback entry.
   */
  method BuildStacksParallel(d: Docker, cfg: Config) returns (ok: bool, stacks: map<string, seq<Resource>>, data: map<string, StackData>)
    modifies d`clean, d`hashed
    ensures d.clean ==> old(d.clean) && ok
    ensures (d.hashed ==> old(d.hashed)) && (d.clean ==> d.hashed == old(d.hashed))
    ensures d.hashed && d.w.identifier != "" ==> DataHonest(d.w, d.host, cfg, data)
    ensures stacks.Keys == cfg.stacks.Keys && DataNames(cfg, data)
    ensures ok ==> Complete(cfg, cfg.stacks.Keys, data)
    ensures d.clean ==> StacksPlanned(d.w, d.host, cfg, cfg.stacks.Keys, stacks, data)
  {
    hide StackResources, StackDataOf, NamesPlanned, StacksPlanned, DataNames, StackCurrent, Complete;
    NothingComplete(cfg);
    ok, stacks, data := true, map[], map[];
    StacksPlannedNone(d.w, d.host, cfg);
    var left := cfg.stacks.Keys;
    assert cfg.stacks.Keys - left == {};
    while left != {}
      invariant left <= cfg.stacks.Keys && (d.clean ==> old(d.clean) && ok)
      invariant (d.hashed ==> old(d.hashed)) && (d.clean ==> d.hashed == old(d.hashed))
      invariant d.hashed && d.w.identifier != "" ==> DataHonest(d.w, d.host, cfg, data)
      invariant stacks.Keys == cfg.stacks.Keys - left && DataNames(cfg, data)
      invariant ok ==> Complete(cfg, cfg.stacks.Keys - left, data)
      invariant d.clean ==> StacksPlanned(d.w, d.host, cfg, cfg.stacks.Keys - left, stacks, data)
      decreases left
    {
      var n :| n in left;
      var fine, resources, found := PlanStack(d, cfg.stacks[n]);
      if !fine { ok, resources, found := false, Fallback, None; }
      DataNamesStep(cfg, data, n, found);
      if d.clean { StacksPlannedStep(d.w, d.host, cfg, cfg.stacks.Keys - left, stacks, data, n, resources, found); }
      if ok { CompleteStep(cfg, cfg.stacks.Keys - left, data, n, found); }
      assert cfg.stacks.Keys - (left - {n}) == cfg.stacks.Keys - left + {n};
      stacks := stacks[n := resources];
      if found.Some? { data := data[n := found.value]; }
      left := left - {n};
    }
    assert cfg.stacks.Keys - left == cfg.stacks.Keys;
  }

  lemma {:induction false} StacksPlannedNone(w: World, h: Host, cfg: Config)
    ensures StacksPlanned(w, h, cfg, {}, map[], map[]) && DataNames(cfg, map[])
  {
  }

  lemma {:induction false} DataNamesStep(cfg: Config, data: map<string, StackData>, n: string, found: Option<StackData>)
    requires DataNames(cfg, data) && n in cfg.stacks && (found.Some? ==> NamesPlanned(cfg.stacks[n], found.value))
    ensures found.Some? ==> DataNames(cfg, data[n := found.value])
  {
    hide NamesPlanned;
  }

  lemma {:induction false} StacksPlannedStep(w: World, h: Host, cfg: Config, done: set<string>, stacks: map<string, seq<Resource>>,
                          data: map<string, StackData>, n: string, resources: seq<Resource>, found: Option<StackData>)
    requires StacksPlanned(w, h, cfg, done, stacks, data) && n in cfg.stacks && n !in done
    requires resources == StackResources(w, h, cfg.stacks[n])
    requires found == if cfg.stacks[n].services == map[] then None else Some(StackDataOf(w, h, cfg.stacks[n]))
    ensures StacksPlanned(w, h, cfg, done + {n}, stacks[n := resources], if found.Some? then data[n := found.value] else data)
  {
    hide StackResources, StackDataOf;
  }

  /** The services every stack plans, with a query per stack. */
  method CollectDesiredServices(d: Docker, cfg: Config) returns (ok: bool, desired: set<string>)
    modifies d`clean
    ensures d.clean ==> old(d.clean) && ok
    ensures ok ==> desired == DesiredServices(cfg)
  {
    ok, desired := true, {};
    var left := cfg.stacks.Keys;
    while left != {}
      invariant left <= cfg.stacks.Keys && ok && (d.clean ==> old(d.clean))
      invariant desired == set n, s | n in cfg.stacks.Keys - left && s in cfg.stacks[n].services.Keys :: s
      decreases left
    {
      var n :| n in left;
      ok := d.Read(); // inline environment
      if !ok { return; }
      var names;
      ghost var fellBack;
      ok, names, fellBack := GetPlannedServices(d, cfg.stacks[n]);
      if !ok { return; }
      assert Elements(names) == cfg.stacks[n].services.Keys;
      desired := desired + Elements(names);
      left := left - {n};
    }
  }

  ghost function OrphansIn(items: seq<PsBrief>, desired: set<string>, project: string): set<string> {
    set k | 0 <= k < |items| && items[k].project == project && items[k].service !in desired :: items[k].service
  }

  /** The orphaned services of a listing, by project. */
  method GroupOrphans(items: seq<PsBrief>, desired: set<string>) returns (doomed: map<string, set<string>>)
    ensures forall p :: p in doomed <==> OrphansIn(items, desired, p) != {}
    ensures forall p :: p in doomed ==> doomed[p] == OrphansIn(items, desired, p)
  {
    doomed := map[];
    for i := 0 to |items|
      invariant forall p :: p in doomed <==> OrphansIn(items[..i], desired, p) != {}
      invariant forall p :: p in doomed ==> doomed[p] == OrphansIn(items[..i], desired, p)
    {
      var it := items[i];
      forall p ensures OrphansIn(items[..i + 1], desired, p) ==
                       OrphansIn(items[..i], desired, p) + (if it.project == p && it.service !in desired then {it.service} else {})
      {
        OrphansSnoc(items, i, desired, p);
      }
      if it.service !in desired {
        var was := if it.project in doomed then doomed[it.project] else {};
        doomed := doomed[it.project := was + {it.service}];
      }
    }
    assert items[..|items|] == items;
  }

  lemma {:induction false} OrphansSnoc(items: seq<PsBrief>, i: nat, desired: set<string>, p: string)
    requires i < |items|
    ensures OrphansIn(items[..i + 1], desired, p) ==
            OrphansIn(items[..i], desired, p) + (if items[i].project == p && items[i].service !in desired then {items[i].service} else {})
  {
    var a, b := items[..i], items[..i + 1];
    assert forall k :: 0 <= k < i ==> a[k] == items[k] && b[k] == items[k];
    assert b[i] == items[i];
    forall x | x in OrphansIn(a, desired, p) ensures x in OrphansIn(b, desired, p) {
      var k :| 0 <= k < |a| && a[k].project == p && a[k].service !in desired && a[k].service == x;
      assert b[k].service == x;
    }
  }

  ghost function Deletes(services: set<string>): set<Resource> { set s | s in services :: Resource(s, Delete) }

  method AppendDeletes(rs: seq<Resource>, services: set<string>) returns (r: seq<Resource>)
    ensures Elements(r) == Elements(rs) + Deletes(services)
  {
    r := rs;
    var left := services;
    while left != {}
      invariant left <= services && Elements(r) == Elements(rs) + Deletes(services - left)
      decreases left
    {
      var s :| s in left;
      assert Elements(r + [Resource(s, Delete)]) == Elements(r) + {Resource(s, Delete)};
      assert services - (left - {s}) == (services - left) + {s};
      assert Deletes((services - left) + {s}) == Deletes(services - left) + {Resource(s, Delete)};
      r := r + [Resource(s, Delete)];
      left := left - {s};
    }
    assert services - left == services;
  }

  ghost predicate WithDeletes(stacks: map<string, seq<Resource>>, doomed: map<string, set<string>>, done: set<string>,
                              r: map<string, seq<Resource>>) {
    && r.Keys == stacks.Keys + (done * doomed.Keys)
    && forall k :: k in r ==>
        Elements(r[k]) == (if k in stacks then Elements(stacks[k]) else {}) + (if k in done && k in doomed then Deletes(doomed[k]) else {})
  }

  method AddDeletes(stacks: map<string, seq<Resource>>, doomed: map<string, set<string>>) returns (r: map<string, seq<Resource>>)
    ensures WithDeletes(stacks, doomed, doomed.Keys, r)
  {
    r := stacks;
    var left := doomed.Keys;
    while left != {}
      invariant left <= doomed.Keys && WithDeletes(stacks, doomed, doomed.Keys - left, r)
      decreases left
    {
      var p :| p in left;
      var rs := AppendDeletes(if p in r then r[p] else [], doomed[p]);
      WithDeletesStep(stacks, doomed, doomed.Keys - left, r, p, rs);
      assert doomed.Keys - (left - {p}) == doomed.Keys - left + {p};
      r := r[p := rs];
      left := left - {p};
    }
    assert doomed.Keys - left == doomed.Keys;
  }

  lemma {:induction false} WithDeletesStep(stacks: map<string, seq<Resource>>, doomed: map<string, set<string>>, done: set<string>,
                        r: map<string, seq<Resource>>, p: string, rs: seq<Resource>)
    requires WithDeletes(stacks, doomed, done, r) && p in doomed && p !in done
    requires Elements(rs) == Elements(if p in r then r[p] else []) + Deletes(doomed[p])
    ensures WithDeletes(stacks, doomed, done + {p}, r[p := rs])
  {
    hide Deletes;
    var none: seq<Resource> := [];
    assert Elements(none) == {};
    assert p in r ==> Elements(r[p]) == (if p in stacks then Elements(stacks[p]) else {}) + {};
  }

  lemma {:induction false} OrphansListed(w: World, h: Host, cfg: Config, p: string)
    ensures OrphansIn(Listed(w, h), DesiredServices(cfg), p) == OrphanServices(w, h, cfg, p)
    ensures OrphanServices(w, h, cfg, p) != {} <==> p in OrphanProjects(w, h, cfg)
  {
    var items, desired := Listed(w, h), DesiredServices(cfg);
    forall x | x in OrphansIn(items, desired, p) ensures x in OrphanServices(w, h, cfg, p) {
      var k :| 0 <= k < |items| && items[k].project == p && items[k].service !in desired && items[k].service == x;
      ListedMembers(w, h, items[k]);
      assert items[k] in items;
    }
    forall x | x in OrphanServices(w, h, cfg, p) ensures x in OrphansIn(items, desired, p) && p in OrphanProjects(w, h, cfg) {
      var n :| n in Managed(w, h) && h.containers[n].project == p && h.containers[n].service !in desired && h.containers[n].service == x;
      ListedMembers(w, h, Brief(h, n));
      var k :| 0 <= k < |items| && items[k] == Brief(h, n);
      assert items[k].service == x;
    }
    if p in OrphanProjects(w, h, cfg) {
      var n :| n in Managed(w, h) && h.containers[n].service !in desired && h.containers[n].project == p;
      assert h.containers[n].service in OrphanServices(w, h, cfg, p);
    }
  }

  /** Appends the deletions of orphaned services; a failed listing means none are shown. */
  method PlanOrphans(d: Docker, cfg: Config, stacks: map<string, seq<Resource>>) returns (ok: bool, r: map<string, seq<Resource>>)
    requires !cfg.targeted
    modifies d`clean
    ensures d.clean ==> old(d.clean) && ok
    ensures d.clean ==> r.Keys == stacks.Keys + OrphanProjects(d.w, d.host, cfg)
    ensures d.clean ==> forall k :: k in r ==>
              Elements(r[k]) == (if k in stacks then Elements(stacks[k]) else {}) + Deletes(OrphanServices(d.w, d.host, cfg, k))
  {
    hide OrphansIn, OrphanServices, OrphanProjects, DesiredServices, Listed;
    r := stacks;
    var desired;
    ok, desired := CollectDesiredServices(d, cfg);
    if !ok { return; }
    var listed, items := d.ListComposeContainersAll();
    if !listed { return; }
    var doomed := GroupOrphans(items, desired);
    r := AddDeletes(stacks, doomed);
    forall p ensures OrphansIn(items, desired, p) == OrphanServices(d.w, d.host, cfg, p)
                     && (p in doomed <==> p in OrphanProjects(d.w, d.host, cfg))
    {
      OrphansListed(d.w, d.host, cfg, p);
    }
  }

  /**
   Local indexes of all filesets, one batched read of the remote ones, then the differences.
   Every failure is collected; any failure fails the plan.
   */
  method BuildFilesets(d: Docker, cfg: Config, existing: set<string>)
    returns (ok: bool, filesets: map<string, seq<Resource>>, data: map<string, FilesetData>)
    requires existing == LabelledVolumes(d.host)
    modifies d`clean
    ensures d.clean ==> old(d.clean) && (Plannable(d.host, cfg) ==> ok)
    ensures ok ==> data == FilesetsExec(d.host, cfg) && filesets.Keys == cfg.filesets.Keys && Plannable(d.host, cfg)
    ensures ok ==> forall n :: n in filesets ==> filesets[n] == FilesetResources(FilesetDataOf(d.host, cfg.filesets[n]))
  {
    hide FilesetDataOf, FilesetResources;
    filesets, data := map[], map[];
    ok := true;
    if exists n :: n in cfg.filesets && cfg.filesets[n].volume in existing {
      ok := d.Read();
      if !ok { return; }
    }
    var left := cfg.filesets.Keys;
    while left != {}
      invariant left <= cfg.filesets.Keys && (d.clean ==> old(d.clean) && (Plannable(d.host, cfg) ==> ok))
      invariant ok ==> FilesetsPlanned(d.host, cfg, cfg.filesets.Keys - left, filesets, data)
      invariant ok ==> forall n :: n in cfg.filesets && n !in left && cfg.filesets[n].volume in LabelledVolumes(d.host) ==>
                         !d.host.volumes[cfg.filesets[n].volume].stored.Torn?
      decreases left
    {
      var n :| n in left;
      var indexed := d.Read(); // the source directory
      var one := PlanFileset(d, cfg.filesets[n], existing);
      if !indexed || one.None? {
        ok := false;
      } else if ok {
        FilesetsPlannedStep(d.host, cfg, cfg.filesets.Keys - left, filesets, data, n, one.value);
        assert cfg.filesets.Keys - (left - {n}) == cfg.filesets.Keys - left + {n};
        data := data[n := one.value];
        filesets := filesets[n := FilesetResources(one.value)];
      }
      left := left - {n};
    }
    assert cfg.filesets.Keys - left == cfg.filesets.Keys;
  }

  /** No index file that a plan reads is torn; otherwise there is no plan. */
  ghost predicate Plannable(h: Host, cfg: Config) {
    forall n :: n in cfg.filesets && cfg.filesets[n].volume in LabelledVolumes(h) ==> !h.volumes[cfg.filesets[n].volume].stored.Torn?
  }

  /** The indexes and difference of one fileset, if its stored index can be parsed. */
  method PlanFileset(d: Docker, fs: Fileset, existing: set<string>) returns (r: Option<FilesetData>)
    requires existing == LabelledVolumes(d.host)
    ensures r.Some? <==> !(fs.volume in LabelledVolumes(d.host) && d.host.volumes[fs.volume].stored.Torn?)
    ensures r.Some? ==> r.value == FilesetDataOf(d.host, fs)
  {
    var raw := if fs.volume in existing then d.host.volumes[fs.volume].stored else Absent;
    if raw.Torn? { return None; }
    var diff := DiffIndexes(fs.local, RemoteOf(raw));
    r := Some(FilesetData(fs.local, RemoteOf(raw), diff));
  }

  ghost predicate FilesetsPlanned(h: Host, cfg: Config, done: set<string>, filesets: map<string, seq<Resource>>,
                                  data: map<string, FilesetData>) {
    && filesets.Keys == done && data.Keys == done && done <= cfg.filesets.Keys
    && (forall n :: n in data ==> data[n] == FilesetDataOf(h, cfg.filesets[n]))
    && (forall n :: n in filesets ==> filesets[n] == FilesetResources(FilesetDataOf(h, cfg.filesets[n])))
  }

  lemma {:induction false} FilesetsPlannedStep(h: Host, cfg: Config, done: set<string>, filesets: map<string, seq<Resource>>,
                            data: map<string, FilesetData>, n: string, one: FilesetData)
    requires FilesetsPlanned(h, cfg, done, filesets, data) && n in cfg.filesets && one == FilesetDataOf(h, cfg.filesets[n])
    ensures FilesetsPlanned(h, cfg, done + {n}, filesets[n := FilesetResources(one)], data[n := one])
  {
    hide FilesetDataOf, FilesetResources;
  }

  /** What apply and prune may rely on in any execution context a plan hands them. */
  ghost predicate ExecSound(cfg: Config, exec: ExecutionContext) {
    && DataNames(cfg, exec.stacks)
    && ValidCache(Some(exec.filesets))
  }

  /** The stack section: the stacks, one after the other or concurrently, and then the orphans. */
  method PlanStackSection(d: Docker, cfg: Config, parallel: bool)
    returns (ok: bool, stacks: map<string, seq<Resource>>, data: map<string, StackData>)
    modifies d`clean, d`hashed
    ensures d.clean ==> old(d.clean) && ok
    ensures (d.hashed ==> old(d.hashed)) && (d.clean ==> d.hashed == old(d.hashed))
    ensures ok ==> DataNames(cfg, data) && Complete(cfg, cfg.stacks.Keys, data)
    ensures ok && d.hashed && d.w.identifier != "" ==> DataHonest(d.w, d.host, cfg, data)
    ensures d.clean ==> data == StacksExec(d.w, d.host, cfg)
    ensures d.clean ==> stacks.Keys == cfg.stacks.Keys + (if cfg.targeted then {} else OrphanProjects(d.w, d.host, cfg))
    ensures d.clean ==> forall k :: k in stacks ==> Elements(stacks[k]) == StackEntries(d.w, d.host, cfg, k)
  {
    hide StackEntries, StackResources, StacksExec, OrphanServices, OrphanProjects, SortedKeys, NoDup, DataNames, StacksPlanned, DataHonest, Complete,
         Elements, Deletes;
    if parallel {
      ok, stacks, data := BuildStacksParallel(d, cfg);
    } else {
      ok, stacks, data := BuildStacks(d, cfg);
    }
    if !ok { return; }
    ghost var planned := stacks;
    if !cfg.targeted { ok, stacks := PlanOrphans(d, cfg, stacks); }
    if d.clean { PlannedStacks(d.w, d.host, cfg, planned, data, stacks); }
  }

  /** The volume and network sections. */
  method PlanTop(d: Docker, cfg: Config)
    returns (ok: bool, existing: set<string>, networks: set<string>, volumes: seq<Resource>, netResources: seq<Resource>)
    modifies d`clean
    ensures d.clean ==> old(d.clean) && ok
    ensures ok ==> && existing == LabelledVolumes(d.host) && networks == LabelledNetworks(d.host)
                   && Elements(volumes) == TopEntries(DesiredVolumes(cfg), LabelledVolumes(d.host),
                                                      if cfg.targeted then {} else LabelledVolumes(d.host) - DesiredVolumes(cfg))
                   && Elements(netResources) == TopEntries(cfg.networks, LabelledNetworks(d.host),
                                                           if cfg.targeted then {} else LabelledNetworks(d.host) - cfg.networks - ComposeNetworks(d.host))
  {
    hide TopEntries, SortedKeys, NoDup, DesiredVolumes, LabelledVolumes, LabelledNetworks, ComposeNetworks;
    existing, networks, volumes, netResources := {}, {}, [], [];
    var vols, nets;
    ok, vols := d.ListVolumes();
    if !ok { return; }
    ok, nets := d.ListNetworks();
    if !ok { return; }
    existing, networks := Elements(vols), Elements(nets);
    volumes := TopResources(DesiredVolumes(cfg), existing, if cfg.targeted then {} else existing - DesiredVolumes(cfg));
    var orphans: set<string> := {};
    if !cfg.targeted {
      var owned;
      ok, owned := d.ListComposeNetworks();
      if !ok { return; }
      orphans := OrphanNetworks(networks, cfg.networks, Elements(owned));
    }
    netResources := TopResources(cfg.networks, networks, orphans);
  }

  method BuildContextPlan(d: Docker, cfg: Config, parallel: bool) returns (ok: bool, plan: ResourcePlan, exec: ExecutionContext)
    modifies d`clean, d`hashed
    ensures d.clean ==> old(d.clean) && (Plannable(d.host, cfg) ==> ok)
    ensures (d.hashed ==> old(d.hashed)) && (d.clean ==> d.hashed == old(d.hashed))
    ensures ok ==> && ExecSound(cfg, exec) && Plannable(d.host, cfg)
                   && exec.filesets == FilesetsExec(d.host, cfg) && exec.networks == LabelledNetworks(d.host)
                   && Complete(cfg, cfg.stacks.Keys, exec.stacks)
    ensures ok ==> && Elements(plan.volumes) == TopEntries(DesiredVolumes(cfg), LabelledVolumes(d.host),
                                                           if cfg.targeted then {} else LabelledVolumes(d.host) - DesiredVolumes(cfg))
                   && Elements(plan.networks) == TopEntries(cfg.networks, LabelledNetworks(d.host),
                                                            if cfg.targeted then {} else LabelledNetworks(d.host) - cfg.networks - ComposeNetworks(d.host))
                   && plan.filesets.Keys == cfg.filesets.Keys
                   && (forall n :: n in plan.filesets ==> plan.filesets[n] == FilesetResources(FilesetDataOf(d.host, cfg.filesets[n])))
    ensures ok && d.hashed && d.w.identifier != "" ==> DataHonest(d.w, d.host, cfg, exec.stacks)
    ensures ok && d.clean ==> PlanIs(d.w, d.host, cfg, plan) && exec == ExecOf(d.w, d.host, cfg)
  {
    hide FilesetDataOf, FilesetResources, StackEntries, StackResources, StacksExec, OrphanServices, OrphanProjects, TopEntries, SortedKeys, NoDup,
         Plannable, FilesetsExec, DataNames, DesiredVolumes, StacksPlanned, DataHonest, Complete, LabelledVolumes,
         LabelledNetworks, ComposeNetworks, PlanIs, Elements, Deletes, ValidCache;
    plan, exec := ResourcePlan([], [], map[], map[]), ExecutionContext(map[], map[], {});
    var existing, networks, volumes, netResources;
    ok, existing, networks, volumes, netResources := PlanTop(d, cfg);
    if !ok { return; }
    var stacks, stackData;
    ok, stacks, stackData := PlanStackSection(d, cfg, parallel);
    if !ok { return; }
    var filesets, filesetData;
    ok, filesets, filesetData := BuildFilesets(d, cfg, existing);
    if !ok { return; }
    plan := ResourcePlan(volumes, netResources, stacks, filesets);
    exec := ExecutionContext(filesetData, stackData, networks);
    ValidFilesetData(d.host, cfg);
    if d.clean { PlanIsMade(d.w, d.host, cfg, plan); }
  }

  lemma {:induction false} PlanIsMade(w: World, h: Host, cfg: Config, p: ResourcePlan)
    requires Elements(p.volumes) == TopEntries(DesiredVolumes(cfg), LabelledVolumes(h),
                                               if cfg.targeted then {} else LabelledVolumes(h) - DesiredVolumes(cfg))
    requires Elements(p.networks) == TopEntries(cfg.networks, LabelledNetworks(h),
                                                if cfg.targeted then {} else LabelledNetworks(h) - cfg.networks - ComposeNetworks(h))
    requires p.stacks.Keys == cfg.stacks.Keys + (if cfg.targeted then {} else OrphanProjects(w, h, cfg))
    requires forall key :: key in p.stacks ==> Elements(p.stacks[key]) == StackEntries(w, h, cfg, key)
    requires p.filesets.Keys == cfg.filesets.Keys
    requires forall n :: n in p.filesets ==> p.filesets[n] == FilesetResources(FilesetDataOf(h, cfg.filesets[n]))
    ensures PlanIs(w, h, cfg, p)
  {
    hide TopEntries, DesiredVolumes, LabelledVolumes, LabelledNetworks, ComposeNetworks, OrphanProjects, StackEntries, FilesetResources, FilesetDataOf;
  }

  lemma {:induction false} PlannedStacks(w: World, h: Host, cfg: Config, planned: map<string, seq<Resource>>, data: map<string, StackData>,
                      stacks: map<string, seq<Resource>>)
    requires planned.Keys == cfg.stacks.Keys && StacksPlanned(w, h, cfg, cfg.stacks.Keys, planned, data)
    requires cfg.targeted ==> stacks == planned
    requires !cfg.targeted ==> stacks.Keys == planned.Keys + OrphanProjects(w, h, cfg)
    requires !cfg.targeted ==> forall k :: k in stacks ==>
               Elements(stacks[k]) == (if k in planned then Elements(planned[k]) else {}) + Deletes(OrphanServices(w, h, cfg, k))
    ensures data == StacksExec(w, h, cfg)
    ensures forall k :: k in stacks ==> Elements(stacks[k]) == StackEntries(w, h, cfg, k)
  {
    SameData(w, h, cfg, data);
    forall k | k in stacks ensures Elements(stacks[k]) == StackEntries(w, h, cfg, k) {
      if k in planned {
        EntriesOfStack(w, h, cfg, k, planned[k]);
      }
    }
  }

  lemma {:induction false} ValidFilesetData(h: Host, cfg: Config)
    ensures ValidCache(Some(FilesetsExec(h, cfg)))
  {
  }

  lemma {:induction false} EntriesOfStack(w: World, h: Host, cfg: Config, k: string, rs: seq<Resource>)
    requires k in cfg.stacks && rs == StackResources(w, h, cfg.stacks[k])
    ensures StackEntries(w, h, cfg, k) ==
            Elements(rs) + (if cfg.targeted then {} else Deletes(OrphanServices(w, h, cfg, k)))
  {
  }

  lemma {:induction false} SameData(w: World, h: Host, cfg: Config, data: map<string, StackData>)
    requires forall n :: n in data <==> n in cfg.stacks && cfg.stacks[n].services != map[]
    requires forall n :: n in data ==> data[n] == StackDataOf(w, h, cfg.stacks[n])
    ensures data == StacksExec(w, h, cfg)
  {
    hide StackDataOf;
    assert data.Keys == StacksExec(w, h, cfg).Keys;
    forall n | n in data ensures data[n] == StacksExec(w, h, cfg)[n] {
    }
  }
}
