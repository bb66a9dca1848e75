/**
 What a plan says, entry by entry, in terms of the configuration and the context it was made in
 (internal/planner/build_plan.go:126-242, build_plan_stacks.go:24-69, build_plan_filesets.go:91-139).
 */
module PlanMeaning {
  import opened Text
  import opened FilesetIndex
  import opened VolumeTree
  import opened DockerHost
  import opened FilesetSync
  import opened ServiceDetect
  import opened ContextState
  import opened Planning
  import opened Faithful

  // ------------------------------------------------------- volumes and networks

  lemma {:induction false} TopSays(rs: seq<Resource>, desired: set<string>, existing: set<string>, orphans: set<string>, n: string, a: Action)
    requires Elements(rs) == TopEntries(desired, existing, orphans)
    ensures Resource(n, a) in rs <==> match a
                                      case Create => n in desired && n !in existing
                                      case Noop => n in desired && n in existing
                                      case Delete => n in orphans
                                      case _ => false
  {
    assert Resource(n, a) in rs <==> Resource(n, a) in Elements(rs);
  }

  /** Volumes: created if wanted and not there with the label, deleted if there with the label and not wanted, unless targets are given. */
  lemma {:induction false} VolumesSay(w: World, h: Host, cfg: Config, p: ResourcePlan, v: string, a: Action)
    requires PlanIs(w, h, cfg, p)
    ensures var there := v in h.volumes && h.volumes[v].labelled;
            Resource(v, a) in p.volumes <==> match a
                                             case Create => WantedVolume(cfg, v) && !there
                                             case Noop => WantedVolume(cfg, v) && there
                                             case Delete => !WantedVolume(cfg, v) && there && !cfg.targeted
                                             case _ => false
  {
    hide DesiredVolumes, WantedVolume, TopEntries, StackEntries, FilesetResources, FilesetDataOf, OrphanProjects, LabelledNetworks, ComposeNetworks;
    DesiredSay(cfg);
    TopSays(p.volumes, DesiredVolumes(cfg), LabelledVolumes(h), if cfg.targeted then {} else LabelledVolumes(h) - DesiredVolumes(cfg), v, a);
  }

  /** Networks likewise; those of compose are never deleted. */
  lemma {:induction false} NetworksSay(w: World, h: Host, cfg: Config, p: ResourcePlan, n: string, a: Action)
    requires PlanIs(w, h, cfg, p)
    ensures var there := n in h.networks && h.networks[n].labelled;
            Resource(n, a) in p.networks <==> match a
                                              case Create => n in cfg.networks && !there
                                              case Noop => n in cfg.networks && there
                                              case Delete => n !in cfg.networks && there && !h.networks[n].owned && !cfg.targeted
                                              case _ => false
  {
    hide DesiredVolumes, TopEntries, StackEntries, FilesetResources, FilesetDataOf, OrphanProjects, LabelledVolumes;
    TopSays(p.networks, cfg.networks, LabelledNetworks(h), if cfg.targeted then {} else LabelledNetworks(h) - cfg.networks - ComposeNetworks(h), n, a);
  }

  // -------------------------------------------------------------------- stacks

  /** A running container of the service. */
  predicate Instance(h: Host, project: string, svc: string, n: string) {
    n in h.containers && h.containers[n].project == project && h.containers[n].service == svc && h.containers[n].running
  }

  /** The one with the greatest name. */
  ghost predicate LastInstance(h: Host, project: string, svc: string, n: string) {
    Instance(h, project, svc, n) && forall m :: Instance(h, project, svc, m) && m != n ==> Less(m, n)
  }

  /** What is to be done about a planned service: create it if it does not run; otherwise its last instance decides. */
  ghost predicate Due(w: World, h: Host, s: Stack, svc: string, a: Action)
    requires svc in s.services
  {
    match a
    case Create => forall n :: !Instance(h, s.project, svc, n)
    case Reconcile => exists n :: LastInstance(h, s.project, svc, n) && h.containers[n].ident != w.identifier
    case Update => exists n :: && LastInstance(h, s.project, svc, n) && h.containers[n].ident == w.identifier
                               && s.services[svc] != "" && h.containers[n].hash != s.services[svc]
    case Noop => exists n :: && LastInstance(h, s.project, svc, n) && h.containers[n].ident == w.identifier
                             && (s.services[svc] == "" || h.containers[n].hash == s.services[svc])
    case Delete => false
  }

  lemma {:induction false} OneDue(w: World, h: Host, s: Stack, svc: string, a: Action, b: Action)
    requires svc in s.services && Due(w, h, s, svc, a) && Due(w, h, s, svc, b)
    ensures a == b
  {
    forall m, n | LastInstance(h, s.project, svc, m) && LastInstance(h, s.project, svc, n) ensures m == n {
      if m != n {
        LessTransitive(m, n, m);
        LessIrreflexive(m);
      }
    }
  }

  lemma {:induction false} DetectedDue(w: World, h: Host, s: Stack, svc: string)
    requires w.identifier != "" && svc in s.services
    ensures Due(w, h, s, svc, ActionOf(Detect(svc, RunningMap(h, s.project), NoBatch, Truth(h, s), w.identifier).state))
  {
    hide RunningMap, Less;
    var r := RunningMap(h, s.project);
    GreatestReplica(h, s.project, svc);
    forall n ensures n in Replicas(h, s.project, svc) <==> Instance(h, s.project, svc, n) {}
    if svc in r {
      var last := r[svc];
      forall m | Instance(h, s.project, svc, m) && m != last ensures Less(m, last) { LessTotal(m, last); }
      assert LastInstance(h, s.project, svc, last);
    }
  }

  /** A planned service has exactly one entry, for what is due. */
  lemma {:induction false} ServicesSay(w: World, h: Host, cfg: Config, p: ResourcePlan, k: string, svc: string, a: Action)
    requires PlanIs(w, h, cfg, p) && w.identifier != "" && k in cfg.stacks && svc in cfg.stacks[k].services
    ensures k in p.stacks && (Resource(svc, a) in p.stacks[k] <==> Due(w, h, cfg.stacks[k], svc, a))
  {
    hide Due, Detect, RunningMap, TopEntries, FilesetResources, FilesetDataOf, OrphanProjects, LabelledVolumes, LabelledNetworks, ComposeNetworks, DesiredVolumes,
         DesiredServices, PlannedService, Managed;
    var s := cfg.stacks[k];
    var infos, names := Detected(w, h, s), SortedKeys(s.services.Keys);
    SortedKeysStrict(s.services.Keys);
    assert Resource(svc, a) in p.stacks[k] <==> Resource(svc, a) in Elements(p.stacks[k]);
    assert svc in DesiredServices(cfg) by { ServicePlanned(cfg, k, svc); }
    assert svc in Elements(names);
    var i :| 0 <= i < |names| && names[i] == svc;
    var due := ActionOf(infos[i].state);
    DetectedDue(w, h, s, svc);
    forall j | 0 <= j < |infos| ensures infos[j].name == names[j] { NamedAlike(names[j], RunningMap(h, s.project), Truth(h, s), w.identifier); }
    assert Resource(svc, a) in StackResources(w, h, s) <==> a == due by { OnlyEntry(infos, names, i, a); }
    assert Resource(svc, a) in StackEntries(w, h, cfg, k) <==> a == due || (a == Delete && svc in OrphanServices(w, h, cfg, k));
    if Due(w, h, s, svc, a) { OneDue(w, h, s, svc, a, due); }
  }

  lemma {:induction false} ServicePlanned(cfg: Config, k: string, svc: string)
    requires k in cfg.stacks && svc in cfg.stacks[k].services
    ensures svc in DesiredServices(cfg)
  {
  }

  lemma {:induction false} NamedAlike(name: string, running: map<string, string>, ask: Answers, identifier: string)
    ensures Detect(name, running, NoBatch, ask, identifier).name == name
  {
  }

  lemma {:induction false} OnlyEntry(infos: seq<ServiceInfo>, names: seq<string>, i: nat, a: Action)
    requires |infos| == |names| && i < |names| && NoDup(names) && forall j :: 0 <= j < |infos| ==> infos[j].name == names[j]
    ensures Resource(names[i], a) in ServiceResources(infos) <==> a == ActionOf(infos[i].state)
  {
    var rs := ServiceResources(infos);
    assert rs[i] == Resource(names[i], ActionOf(infos[i].state));
    forall j | 0 <= j < |rs| && rs[j].name == names[i] ensures j == i { assert names[j] == names[i]; }
  }

  /** A managed container of the project whose service no stack plans. */
  ghost predicate Orphan(w: World, h: Host, cfg: Config, project: string, svc: string) {
    !cfg.targeted && !PlannedService(cfg, svc) && exists n :: Ours(w, h, n) && h.containers[n].project == project && h.containers[n].service == svc
  }

  lemma {:induction false} OrphansSay(w: World, h: Host, cfg: Config, project: string, svc: string)
    requires !cfg.targeted
    ensures svc in OrphanServices(w, h, cfg, project) <==> Orphan(w, h, cfg, project, svc)
    ensures project in OrphanProjects(w, h, cfg) <==> exists s :: Orphan(w, h, cfg, project, s)
  {
    hide DesiredServices, PlannedService, Managed;
    DesiredSay(cfg);
    forall n ensures n in Managed(w, h) <==> Ours(w, h, n) { ManagedAreOurs(w, h, n); }
    if project in OrphanProjects(w, h, cfg) {
      var n :| n in Managed(w, h) && h.containers[n].service !in DesiredServices(cfg) && h.containers[n].project == project;
      assert Orphan(w, h, cfg, project, h.containers[n].service);
    }
    if s :| Orphan(w, h, cfg, project, s) {
      var n :| Ours(w, h, n) && h.containers[n].project == project && h.containers[n].service == s;
      assert n in Managed(w, h);
    }
  }

  /** Everything else in the stack section: deletions of orphans, under their project, and one quiet entry for a stack without services. */
  lemma {:induction false} OthersSay(w: World, h: Host, cfg: Config, p: ResourcePlan, k: string, r: Resource)
    requires PlanIs(w, h, cfg, p)
    ensures k in p.stacks <==> k in cfg.stacks || exists s :: Orphan(w, h, cfg, k, s)
    ensures k in p.stacks && (k !in cfg.stacks || r.name !in cfg.stacks[k].services) ==>
              (r in p.stacks[k] <==> || (r.action == Delete && Orphan(w, h, cfg, k, r.name))
                                     || (k in cfg.stacks && cfg.stacks[k].services == map[] && r == Resource("services", Noop)))
  {
    hide Detect, RunningMap, TopEntries, FilesetResources, FilesetDataOf, LabelledVolumes, LabelledNetworks, ComposeNetworks, DesiredVolumes, Orphan,
         OrphanServices, OrphanProjects, StackEntries, StackResources;
    if !cfg.targeted { OrphansSay(w, h, cfg, k, r.name); }
    assert cfg.targeted ==> !Orphan(w, h, cfg, k, r.name) && forall s :: !Orphan(w, h, cfg, k, s) by { NoOrphans(w, h, cfg); }
    if k in p.stacks {
      assert r in p.stacks[k] <==> r in Elements(p.stacks[k]);
      EntriesAre(w, h, cfg, k, r);
      if k in cfg.stacks { PlannedNames(w, h, cfg.stacks[k], r); }
    }
  }

  lemma {:induction false} EntriesAre(w: World, h: Host, cfg: Config, k: string, r: Resource)
    ensures r in StackEntries(w, h, cfg, k) <==>
            || (k in cfg.stacks && r in StackResources(w, h, cfg.stacks[k]))
            || (!cfg.targeted && r.action == Delete && r.name in OrphanServices(w, h, cfg, k))
  {
    hide StackResources, OrphanServices;
    if k in cfg.stacks { assert r in StackResources(w, h, cfg.stacks[k]) <==> r in Elements(StackResources(w, h, cfg.stacks[k])); }
  }

  lemma {:induction false} NoOrphans(w: World, h: Host, cfg: Config)
    ensures cfg.targeted ==> forall k, s :: !Orphan(w, h, cfg, k, s)
  {
  }

  lemma {:induction false} PlannedNames(w: World, h: Host, s: Stack, r: Resource)
    ensures s.services != map[] && r in StackResources(w, h, s) ==> r.name in s.services
    ensures s.services == map[] ==> (r in StackResources(w, h, s) <==> r == Resource("services", Noop))
  {
    hide Detect, RunningMap;
    if s.services != map[] && r in StackResources(w, h, s) {
      var infos, names := Detected(w, h, s), SortedKeys(s.services.Keys);
      var i :| 0 <= i < |infos| && r == Resource(infos[i].name, ActionOf(infos[i].state));
      NamedAlike(names[i], RunningMap(h, s.project), Truth(h, s), w.identifier);
      assert names[i] in Elements(names);
    }
  }

  // ------------------------------------------------------------------ filesets

  /** The index a plan compares with: that of a labelled volume, if there is one and it can be read. */
  ghost function Known(h: Host, fs: Fileset): Index {
    if fs.volume in h.volumes && h.volumes[fs.volume].labelled && h.volumes[fs.volume].stored.Written? then h.volumes[fs.volume].stored.index
    else Index([], "")
  }

  /** The last entry that an index has for a path. */
  ghost predicate Has(i: Index, path: string, size: nat, sha: string) {
    exists k :: && 0 <= k < |i.files| && i.files[k] == FileEntry(path, size, sha)
                && forall j :: k < j < |i.files| ==> i.files[j].path != path
  }

  lemma {:induction false} HasSays(i: Index, path: string, size: nat, sha: string)
    ensures Has(i, path, size, sha) <==> path in ByPath(i.files) && ByPath(i.files)[path] == FileEntry(path, size, sha)
  {
    if Has(i, path, size, sha) {
      var k :| && 0 <= k < |i.files| && i.files[k] == FileEntry(path, size, sha) && forall j :: k < j < |i.files| ==> i.files[j].path != path;
      ByPathLast(i.files, k);
    }
    if path in ByPath(i.files) {
      var k := LastAt(i.files, path);
      ByPathLast(i.files, k);
    }
  }

  lemma {:induction false} LastAt(files: seq<FileEntry>, path: string) returns (k: nat)
    requires path in ByPath(files)
    ensures k < |files| && files[k].path == path && forall j :: k < j < |files| ==> files[j].path != path
  {
    var n := |files| - 1;
    if files[n].path == path { k := n; } else { k := LastAt(files[..n], path); }
  }

  /** What is to be done about a path. */
  ghost predicate FileDue(w: World, h: Host, fs: Fileset, q: string, a: Action) {
    var listed := exists size, sha :: Has(Known(h, fs), q, size, sha);
    match a
    case Create => q in fs.source && !listed
    case Update => q in fs.source && listed && !Has(Known(h, fs), q, |fs.source[q]|, w.h(fs.source[q]))
    case Delete => q !in fs.source && listed
    case _ => false
  }

  /**
   A fileset whose tree hash is the known one has one quiet entry; otherwise a named entry stands for
   a path to create, to update or to delete.
   */
  lemma {:induction false} FilesSay(w: World, h: Host, cfg: Config, p: ResourcePlan, n: string, q: string, a: Action)
    requires PlanIs(w, h, cfg, p) && n in cfg.filesets && ValidFileset(w, cfg.filesets[n]) && q != ""
    ensures var fs := cfg.filesets[n];
            && n in p.filesets
            && (fs.local.treeHash == Known(h, fs).treeHash ==> p.filesets[n] == [Resource("", Noop)])
            && (fs.local.treeHash != Known(h, fs).treeHash ==> (Resource(q, a) in p.filesets[n] <==> FileDue(w, h, fs, q, a)))
  {
    hide TopEntries, StackEntries, OrphanProjects, LabelledNetworks, ComposeNetworks, DesiredVolumes, DiffOf, FileDue, PrefixFree;
    var fs := cfg.filesets[n];
    var remote := Known(h, fs);
    assert PlannedRemote(h, fs) == remote by { KnownIs(h, fs); }
    if fs.local.treeHash != remote.treeHash {
      var d := DiffOf(fs.local, remote);
      assert DiffAny(d, fs.local, remote) by { DiffOfChanged(w, fs, remote); }
      EntriesFor(d, q, a);
      FileDueIs(w, h, fs, d, q, a);
    }
  }

  lemma {:induction false} KnownIs(h: Host, fs: Fileset)
    ensures PlannedRemote(h, fs) == Known(h, fs)
  {
  }

  lemma {:induction false} EntriesFor(d: Diff, q: string, a: Action)
    requires q != ""
    ensures var rs := FileEntries(d.toCreate, Create) + FileEntries(d.toUpdate, Update) + PathEntries(d.toDelete, Delete) +
                      (if d == NoChange then [Resource("", Update)] else []);
            Resource(q, a) in rs <==> match a
                                      case Create => q in Paths(d.toCreate)
                                      case Update => q in Paths(d.toUpdate)
                                      case Delete => q in d.toDelete
                                      case _ => false
  {
    FileEntriesFiles(d.toCreate, Create);
    FileEntriesFiles(d.toUpdate, Update);
    PathEntriesFiles(d.toDelete, Delete);
    hide FileEntries, PathEntries;
  }

  lemma {:induction false} FileDueIs(w: World, h: Host, fs: Fileset, d: Diff, q: string, a: Action)
    requires ValidFileset(w, fs) && DiffAny(d, fs.local, Known(h, fs))
    ensures FileDue(w, h, fs, q, a) <==> match a
                                         case Create => q in Paths(d.toCreate)
                                         case Update => q in Paths(d.toUpdate)
                                         case Delete => q in d.toDelete
                                         case _ => false
  {
    hide Known, ByPath, Has, PrefixFree, IsBuilt;
    var i := Known(h, fs);
    var listed := exists size, sha :: Has(i, q, size, sha);
    LocalPaths(w.h, fs.local, fs.source);
    assert listed <==> q in ByPath(i.files) by { ListedIs(i, q); }
    assert q in Elements(d.toDelete) <==> q in d.toDelete;
    if q in fs.source {
      var e := EntryOf(w.h, q, fs.source[q]);
      IsLocalHas(w.h, fs.local, fs.source, q);
      HasSays(i, q, e.size, e.sha);
      assert forall x :: x in fs.local.files && x.path == q ==> x == e;
      assert q in Paths(d.toCreate) <==> e in d.toCreate by { if q in Paths(d.toCreate) { var x :| x in d.toCreate && x.path == q; } }
      assert q in Paths(d.toUpdate) <==> e in d.toUpdate by { if q in Paths(d.toUpdate) { var x :| x in d.toUpdate && x.path == q; } }
    }
  }

  lemma {:induction false} ListedIs(i: Index, q: string)
    ensures (exists size, sha :: Has(i, q, size, sha)) <==> q in ByPath(i.files)
  {
    hide ByPath, Has;
    if q in ByPath(i.files) {
      var e := ByPath(i.files)[q];
      ByPathKeys(i.files);
      HasSays(i, q, e.size, e.sha);
    }
    if size, sha :| Has(i, q, size, sha) { HasSays(i, q, size, sha); }
  }
}
