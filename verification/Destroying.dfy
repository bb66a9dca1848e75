/**
 Destroying what an identifier owns on one context (internal/planner/destroy.go): the scope of
 a targeted destroy, the plan that is shown, and the removals.
 */
module Destroying {
  import opened Text
  import opened VolumeTree
  import opened DockerHost
  import opened Pruning
  import M = Manifest

  // -------------------------------------------------------------------- scope

  /** `projects`: context/project keys of the stacks in scope. */
  datatype Scope = Scope(targeted: bool, projects: set<string>)

  function ProjectName(stack: string, spec: M.StackSpec): string {
    if spec.project.Some? && spec.project.value != "" then spec.project.value else stack
  }

  predicate AllowsStack(s: Scope, context: string, project: string) {
    !s.targeted || (project != "" && M.MakeKey(context, project) in s.projects)
  }

  /** The stack with this key runs as this project on this context: under its configured name, or its own without one. */
  predicate RunsAs(cfg: M.Config, key: string, context: string, project: string)
    requires key in M.AllStacks(cfg)
  {
    var named := M.AllStacks(cfg)[key].project;
    && M.KeyOf(key, context)
    && if named.None? || named == Some("") then key == context + "/" + project else named == Some(project)
  }

  lemma {:induction false} RunsAsIs(cfg: M.Config, key: string, context: string, project: string)
    requires key in M.AllStacks(cfg)
    ensures RunsAs(cfg, key, context, project) <==>
            M.ParseKey(key).Some? && M.ParseKey(key).value.0 == context && ProjectName(M.ParseKey(key).value.1, M.AllStacks(cfg)[key]) == project
  {
    hide M.ParseKey, M.AllStacks, M.KeyOf;
    M.ParsedIs(key, context);
    M.ParsedKeyIsMade(key);
    if M.ParseKey(key).Some? && M.ParseKey(key).value.0 == context {
      var rest := M.ParseKey(key).value.1;
      assert key == context + "/" + rest;
      assert key == context + "/" + project <==> rest == project by {
        if key == context + "/" + project { assert key[|context| + 1..] == project && key[|context| + 1..] == rest; }
      }
    }
  }

  function ScopeOf(cfg: M.Config): Scope {
    if !cfg.targeted then Scope(false, {}) else
      var all := M.AllStacks(cfg);
      Scope(true, set k | k in all && M.ParseKey(k).Some? ::
                    M.MakeKey(M.ParseKey(k).value.0, ProjectName(M.ParseKey(k).value.1, all[k])))
  }

  method NewDestroyScope(cfg: M.Config) returns (s: Scope)
    ensures s == ScopeOf(cfg)
  {
    if !cfg.targeted { return Scope(false, {}); }
    var projects := {};
    var all := M.GetAllStacks(cfg);
    var left := all.Keys;
    while left != {}
      invariant left <= all.Keys
      invariant projects == set k | k in all.Keys - left && M.ParseKey(k).Some? ::
                              M.MakeKey(M.ParseKey(k).value.0, ProjectName(M.ParseKey(k).value.1, all[k]))
      decreases left
    {
      var k :| k in left;
      var parts := M.ParseKey(k);
      if parts.Some? { projects := projects + {M.MakeKey(parts.value.0, ProjectName(parts.value.1, all[k]))}; }
      left := left - {k};
    }
    s := Scope(true, projects);
  }

  /** A targeted destroy covers exactly the projects of the stacks in its configuration. */
  lemma {:induction false} ScopeExact(cfg: M.Config, context: string, project: string)
    requires cfg.targeted && '/' !in context && project != ""
    ensures AllowsStack(ScopeOf(cfg), context, project) <==> exists k :: k in M.AllStacks(cfg) && RunsAs(cfg, k, context, project)
  {
    var all := M.AllStacks(cfg);
    if AllowsStack(ScopeOf(cfg), context, project) {
      var k :| k in all && M.ParseKey(k).Some? &&
               M.MakeKey(M.ParseKey(k).value.0, ProjectName(M.ParseKey(k).value.1, all[k])) == M.MakeKey(context, project);
      M.ParsedKeyIsMade(k);
      CutUnique('/', M.ParseKey(k).value.0, ProjectName(M.ParseKey(k).value.1, all[k]), context, project);
      RunsAsIs(cfg, k, context, project);
      assert RunsAs(cfg, k, context, project);
    }
    if k :| k in all && RunsAs(cfg, k, context, project) {
      RunsAsIs(cfg, k, context, project);
      assert M.MakeKey(context, project) in ScopeOf(cfg).projects;
    }
  }

  /** With target flags, these are the stacks of the whole configuration that the flags allow. */
  lemma {:induction false} TargetedScopeExact(cfg: M.Config, t: M.Targets, context: string, project: string)
    requires '/' !in context && project != ""
    ensures AllowsStack(ScopeOf(M.Narrow(cfg, t)), context, project) <==>
            exists k :: k in M.AllStacks(cfg) && M.AllowedKey(t, k) && RunsAs(cfg, k, context, project)
  {
    hide AllowsStack, ScopeOf;
    var narrowed := M.Narrow(cfg, t);
    ScopeExact(narrowed, context, project);
    M.FilteringCommutes(cfg, t);
    hide M.AllStacks, M.Narrow, M.AllowedKey;
    if k :| k in M.AllStacks(narrowed) && RunsAs(narrowed, k, context, project) {
      assert k in M.AllStacks(cfg) && RunsAs(cfg, k, context, project);
    }
    if k :| k in M.AllStacks(cfg) && M.AllowedKey(t, k) && RunsAs(cfg, k, context, project) {
      assert k in M.AllStacks(narrowed) && RunsAs(narrowed, k, context, project);
    }
  }

  /** The target volumes of all filesets of the configuration, whatever their context. */
  function FilesetVolumes(cfg: M.Config): set<string> { set k | k in cfg.filesets :: cfg.filesets[k].volume }

  // --------------------------------------------------------------------- plan

  /** `filesets` holds the volumes shown as filesets, `stacks` the services by project. */
  datatype DestroyPlan = DestroyPlan(stacks: map<string, set<string>>, containers: seq<string>, networks: seq<string>,
                                     volumes: seq<string>, filesets: seq<string>)

  ghost function Services(items: seq<PsBrief>, s: Scope, context: string, project: string): set<string> {
    set b | b in items && b.project == project && AllowsStack(s, context, project) :: b.service
  }

  ghost function Loose(items: seq<PsBrief>, s: Scope, context: string): set<string> {
    set b | b in items && b.project == "" && AllowsStack(s, context, "") :: b.name
  }

  lemma {:induction false} ServicesSnoc(items: seq<PsBrief>, it: PsBrief, s: Scope, context: string, p: string)
    ensures Services(items + [it], s, context, p) ==
            Services(items, s, context, p) + (if it.project == p && AllowsStack(s, context, p) then {it.service} else {})
    ensures Loose(items + [it], s, context) == Loose(items, s, context) + (if it.project == "" && AllowsStack(s, context, "") then {it.name} else {})
  {
    hide AllowsStack;
  }

  lemma {:induction false} NoServices(s: Scope, context: string, p: string)
    ensures Services([], s, context, p) == {} && Loose([], s, context) == {}
  {
  }

  method GroupServices(items: seq<PsBrief>, s: Scope, context: string) returns (stacks: map<string, set<string>>, loose: seq<string>)
    ensures forall p :: p in stacks <==> p != "" && Services(items, s, context, p) != {}
    ensures forall p :: p in stacks ==> stacks[p] == Services(items, s, context, p)
    ensures Elements(loose) == Loose(items, s, context)
  {
    hide AllowsStack, Services, Loose;
    stacks, loose := map[], [];
    assert items[..0] == [];
    forall p ensures Services([], s, context, p) == {} { NoServices(s, context, p); }
    NoServices(s, context, "");
    for i := 0 to |items|
      invariant forall p :: p in stacks <==> p != "" && Services(items[..i], s, context, p) != {}
      invariant forall p :: p in stacks ==> stacks[p] == Services(items[..i], s, context, p)
      invariant Elements(loose) == Loose(items[..i], s, context)
    {
      var it := items[i];
      assert items[..i + 1] == items[..i] + [it];
      forall p ensures Services(items[..i + 1], s, context, p) ==
                       Services(items[..i], s, context, p) + (if it.project == p && AllowsStack(s, context, p) then {it.service} else {})
      {
        ServicesSnoc(items[..i], it, s, context, p);
      }
      ServicesSnoc(items[..i], it, s, context, "");
      if AllowsStack(s, context, it.project) {
        if it.project != "" {
          stacks := stacks[it.project := (if it.project in stacks then stacks[it.project] else {}) + {it.service}];
        } else {
          assert Elements(loose + [it.name]) == Elements(loose) + {it.name};
          loose := loose + [it.name];
        }
      }
    }
    assert items[..|items|] == items;
  }

  /** What a destroy plan lists for a state. */
  ghost predicate DestroyPlanIs(w: World, h: Host, s: Scope, context: string, owned: set<string>, p: DestroyPlan) {
    && (forall project :: project in p.stacks <==> project != "" && Services(Listed(w, h), s, context, project) != {})
    && (forall project :: project in p.stacks ==> p.stacks[project] == Services(Listed(w, h), s, context, project))
    && Elements(p.containers) == Loose(Listed(w, h), s, context)
    && Elements(p.networks) == (if s.targeted then {} else LabelledNetworks(h))
    && Elements(p.volumes) == (if s.targeted then {} else LabelledVolumes(h) - owned)
    && Elements(p.filesets) == LabelledVolumes(h) * owned
  }

  method SplitVolumes(names: seq<string>, owned: set<string>, targeted: bool) returns (volumes: seq<string>, filesets: seq<string>)
    ensures Elements(volumes) == if targeted then {} else Elements(names) - owned
    ensures Elements(filesets) == Elements(names) * owned
  {
    volumes, filesets := [], [];
    for i := 0 to |names|
      invariant Elements(volumes) == if targeted then {} else Elements(names[..i]) - owned
      invariant Elements(filesets) == Elements(names[..i]) * owned
    {
      assert Elements(names[..i + 1]) == Elements(names[..i]) + {names[i]};
      if names[i] in owned {
        assert Elements(filesets + [names[i]]) == Elements(filesets) + {names[i]};
        filesets := filesets + [names[i]];
      } else if !targeted {
        assert Elements(volumes + [names[i]]) == Elements(volumes) + {names[i]};
        volumes := volumes + [names[i]];
      }
    }
    assert names[..|names|] == names;
  }

  method BuildDestroyPlan(d: Docker, context: string, s: Scope, owned: set<string>) returns (ok: bool, p: DestroyPlan)
    modifies d`clean
    ensures d.clean ==> old(d.clean) && ok
    ensures ok ==> DestroyPlanIs(d.w, d.host, s, context, owned, p)
  {
    hide Services, Loose, Listed, SortedKeys, AllowsStack, LabelledVolumes, LabelledNetworks;
    p := DestroyPlan(map[], [], [], [], []);
    var items, networks, names := [], [], [];
    ok, items := d.ListComposeContainersAll();
    if !ok { return; }
    var stacks, loose := GroupServices(items, s, context);
    if !s.targeted {
      ok, networks := d.ListNetworks();
      if !ok { return; }
    }
    ok, names := d.ListVolumes();
    if !ok { return; }
    var volumes, filesets := SplitVolumes(names, owned, s.targeted);
    p := DestroyPlan(stacks, loose, networks, volumes, filesets);
  }

  // ----------------------------------------------------------------- removals

  function DoomedContainers(w: World, h: Host, s: Scope, context: string): set<string> {
    set n | n in Managed(w, h) && AllowsStack(s, context, h.containers[n].project)
  }

  function DoomedNetworks(h: Host, s: Scope): set<string> { if s.targeted then {} else LabelledNetworks(h) }

  function DoomedVolumes(h: Host, s: Scope, owned: set<string>): set<string> {
    if s.targeted then LabelledVolumes(h) * owned else LabelledVolumes(h)
  }

  method RemoveAllContainers(d: Docker, items: seq<PsBrief>, s: Scope, context: string)
    returns (ok: bool, ghost gone: set<string>, ghost ev: seq<Event>)
    modifies d`host, d`log, d`clean
    ensures d.clean ==> old(d.clean) && ok
    ensures d.host == old(d.host).(containers := old(d.host.containers) - gone)
    ensures gone <= set b | b in items && AllowsStack(s, context, b.project) :: b.name
    ensures ok ==> gone == (set b | b in items && AllowsStack(s, context, b.project) :: b.name) && Elements(ev) == ContainerRemovals(gone)
    ensures d.log == old(d.log) + ev && forall e :: e in ev ==> e.call.RemoveContainer?
  {
    hide AllowsStack;
    ok, gone, ev := true, {}, [];
    assert d.host.containers - {} == d.host.containers;
    for i := 0 to |items|
      invariant d.clean ==> old(d.clean) && ok
      invariant d.host == old(d.host).(containers := old(d.host.containers) - gone)
      invariant gone <= set b | b in items[..i] && AllowsStack(s, context, b.project) :: b.name
      invariant ok ==> gone == (set b | b in items[..i] && AllowsStack(s, context, b.project) :: b.name) && Elements(ev) == ContainerRemovals(gone)
      invariant d.log == old(d.log) + ev && forall e :: e in ev ==> e.call.RemoveContainer?
    {
      var it := items[i];
      assert items[..i + 1] == items[..i] + [it];
      if AllowsStack(s, context, it.project) {
        ghost var was := d.host.containers;
        var done := d.DoRemoveContainer(it.name);
        assert was - {it.name} == old(d.host.containers) - (gone + {it.name});
        if !done { ok := false; }
        assert Elements(ev + [Event(RemoveContainer(it.name), done)]) == Elements(ev) + {Event(RemoveContainer(it.name), done)};
        assert ContainerRemovals(gone + {it.name}) == ContainerRemovals(gone) + {Event(RemoveContainer(it.name), true)};
        ev := ev + [Event(RemoveContainer(it.name), done)];
        if d.host.containers == was - {it.name} { gone := gone + {it.name}; }
      }
    }
    assert items[..|items|] == items;
  }

  lemma {:induction false} InScope(w: World, h: Host, s: Scope, context: string)
    ensures (set b | b in Listed(w, h) && AllowsStack(s, context, b.project) :: b.name) == DoomedContainers(w, h, s, context)
  {
    hide Managed, AllowsStack, Listed;
    forall n | n in DoomedContainers(w, h, s, context) ensures exists b :: b in Listed(w, h) && AllowsStack(s, context, b.project) && b.name == n {
      ManagedExist(w, h, n);
      ListedMembers(w, h, Brief(h, n));
    }
    forall b | b in Listed(w, h) && AllowsStack(s, context, b.project) ensures b.name in DoomedContainers(w, h, s, context) {
      ListedMembers(w, h, b);
      ManagedExist(w, h, b.name);
    }
  }

  /**
   Containers, then networks, then volumes. Failures are remembered and never stop the rest.
   Whatever fails, nothing out of scope is removed.
   */
  method DestroyContext(d: Docker, context: string, s: Scope, owned: set<string>)
    returns (ok: bool, ghost cs: set<string>, ghost ns: set<string>, ghost vs: set<string>,
             ghost ec: seq<Event>, ghost en: seq<Event>, ghost ev: seq<Event>)
    modifies d`host, d`log, d`clean
    ensures d.clean ==> old(d.clean) && ok
    ensures d.host == Without(old(d.host), cs, vs, ns)
    ensures cs <= DoomedContainers(d.w, old(d.host), s, context) && ns <= DoomedNetworks(old(d.host), s) && vs <= DoomedVolumes(old(d.host), s, owned)
    ensures ok ==> cs == DoomedContainers(d.w, old(d.host), s, context) && ns == DoomedNetworks(old(d.host), s) && vs == DoomedVolumes(old(d.host), s, owned)
    ensures d.log == old(d.log) + ec + en + ev
    ensures (forall e :: e in ec ==> e.call.RemoveContainer?) && (forall e :: e in en ==> e.call.RemoveNetwork?) && (forall e :: e in ev ==> e.call.RemoveVolume?)
    ensures ok ==> Elements(ec) == ContainerRemovals(cs) && Elements(en) == NetworkRemovals(ns) && Elements(ev) == VolumeRemovals(vs)
  {
    hide DoomedContainers, ContainerRemovals, VolumeRemovals, NetworkRemovals, LabelledVolumes, LabelledNetworks, Listed, SortedKeys, AllowsStack;
    ghost var h0 := d.host;
    cs, ns, vs, ec, en, ev := {}, {}, {}, [], [], [];
    WithoutNothing(h0);
    var items, networks, names := [], [], [];
    var okC, okN, okV := false, true, false;
    var listed;
    listed, items := d.ListComposeContainersAll();
    if listed {
      InScope(d.w, h0, s, context);
      okC, cs, ec := RemoveAllContainers(d, items, s, context);
    }
    SameLists(h0, cs, {});
    NoRemovals();
    if !s.targeted {
      okN, networks := d.ListNetworks();
      if okN { okN, ns, en := RemoveNetworks(d, Elements(networks)); }
    }
    VolumesStay(h0, cs, ns);
    listed, names := d.ListVolumes();
    if listed { okV, vs, ev := RemoveVolumes(d, names, if s.targeted then Elements(names) - owned else {}); }
    KeepOwned(Elements(names), owned);
    ok := okC && okN && okV;
  }

  lemma {:induction false} NoRemovals()
    ensures NetworkRemovals({}) == {}
  {
  }

  lemma {:induction false} KeepOwned(names: set<string>, owned: set<string>)
    ensures names - (names - owned) == names * owned && names - {} == names
  {
  }

  lemma {:induction false} VolumesStay(h: Host, cs: set<string>, ns: set<string>)
    ensures var h' := Host(h.volumes, h.networks - ns, h.containers - cs);
            LabelledVolumes(h') == LabelledVolumes(h) && Without(h, cs, {}, ns) == h'
  {
  }

  // ------------------------------------------------------------------ theorems

  /** A successful destroy removes exactly what a plan of the same state lists. */
  lemma {:induction false} DestroyExecutesPlan(w: World, h: Host, s: Scope, context: string, owned: set<string>, p: DestroyPlan)
    requires DestroyPlanIs(w, h, s, context, owned, p)
    ensures forall n :: n in Managed(w, h) ==>
              (n in DoomedContainers(w, h, s, context) <==>
               h.containers[n].project in p.stacks && h.containers[n].service in p.stacks[h.containers[n].project])
    ensures forall project, svc :: project in p.stacks && svc in p.stacks[project] ==>
              exists n :: n in DoomedContainers(w, h, s, context) && h.containers[n].project == project && h.containers[n].service == svc
    ensures DoomedNetworks(h, s) == Elements(p.networks)
    ensures DoomedVolumes(h, s, owned) == Elements(p.volumes) + Elements(p.filesets)
  {
    hide Listed, AllowsStack, LabelledVolumes, LabelledNetworks;
    forall n | n in Managed(w, h)
      ensures n in DoomedContainers(w, h, s, context) <==>
              h.containers[n].project in p.stacks && h.containers[n].service in p.stacks[h.containers[n].project]
    {
      var b := Brief(h, n);
      ListedMembers(w, h, b);
      assert AllowsStack(s, context, b.project) ==> b.service in Services(Listed(w, h), s, context, b.project);
    }
    forall project, svc | project in p.stacks && svc in p.stacks[project]
      ensures exists n :: n in DoomedContainers(w, h, s, context) && h.containers[n].project == project && h.containers[n].service == svc
    {
      var b :| b in Listed(w, h) && b.project == project && AllowsStack(s, context, project) && b.service == svc;
      ListedMembers(w, h, b);
      assert b.name in DoomedContainers(w, h, s, context);
    }
  }

  /** After an untargeted destroy nothing with the identifier is left. */
  lemma {:induction false} NothingLeft(w: World, h: Host, s: Scope, context: string, owned: set<string>)
    requires !s.targeted
    ensures var after := Without(h, DoomedContainers(w, h, s, context), DoomedVolumes(h, s, owned), DoomedNetworks(h, s));
            Managed(w, after) == {} && LabelledVolumes(after) == {} && LabelledNetworks(after) == {}
  {
    hide M.MakeKey;
    var after := Without(h, DoomedContainers(w, h, s, context), DoomedVolumes(h, s, owned), DoomedNetworks(h, s));
    assert Managed(w, after) == Managed(w, h) - DoomedContainers(w, h, s, context);
  }

  /**
   What a destroy removes, from the configuration: containers with the identifier, a project and a
   service; networks and volumes with the label. A targeted one removes only containers of the
   projects of its stacks, no network, and only volumes that one of its filesets targets.
   */
  lemma {:induction false} DestroysExactly(w: World, h: Host, cfg: M.Config, context: string)
    requires '/' !in context
    ensures forall n :: n in DoomedContainers(w, h, ScopeOf(cfg), context) <==>
              && n in h.containers && h.containers[n].ident == w.identifier && h.containers[n].project != "" && h.containers[n].service != ""
              && (cfg.targeted ==> exists k :: k in M.AllStacks(cfg) && RunsAs(cfg, k, context, h.containers[n].project))
    ensures forall n :: n in DoomedNetworks(h, ScopeOf(cfg)) <==> n in h.networks && h.networks[n].labelled && !cfg.targeted
    ensures forall v :: v in DoomedVolumes(h, ScopeOf(cfg), FilesetVolumes(cfg)) <==>
              && v in h.volumes && h.volumes[v].labelled
              && (cfg.targeted ==> exists k :: k in cfg.filesets && cfg.filesets[k].volume == v)
  {
    hide M.AllStacks, M.KeyOf, RunsAs, AllowsStack;
    forall n | n in Managed(w, h)
      ensures AllowsStack(ScopeOf(cfg), context, h.containers[n].project) <==>
              (cfg.targeted ==> exists k :: k in M.AllStacks(cfg) && RunsAs(cfg, k, context, h.containers[n].project))
    {
      if cfg.targeted { ScopeExact(cfg, context, h.containers[n].project); } else { UntargetedAllows(cfg, context, h.containers[n].project); }
    }
  }

  lemma {:induction false} UntargetedAllows(cfg: M.Config, context: string, project: string)
    requires !cfg.targeted
    ensures AllowsStack(ScopeOf(cfg), context, project)
  {
  }

  /** With stacks listed, a volume that a destroy removes is the target of a fileset of a listed stack; with none listed, of a listed context. */
  lemma {:induction false} ListedVolumesOnly(h: Host, cfg: M.Config, t: M.Targets, v: string)
    requires forall k :: k in cfg.filesets ==> M.ProperFileset(cfg.filesets[k])
    ensures v in DoomedVolumes(h, ScopeOf(M.Narrow(cfg, t)), FilesetVolumes(M.Narrow(cfg, t))) <==>
            && v in h.volumes && h.volumes[v].labelled
            && exists k :: k in cfg.filesets && cfg.filesets[k].volume == v &&
                 if t.stacks != [] then cfg.filesets[k].context + "/" + cfg.filesets[k].stack in t.stacks else cfg.filesets[k].context in t.contexts
  {
    hide M.Narrow, M.AllStacks, M.ProperFileset, M.ListedKey;
    var narrowed := M.Narrow(cfg, t);
    M.NarrowSays(cfg, t);
    DoomedTargets(h, narrowed, v);
    if v in DoomedVolumes(h, ScopeOf(narrowed), FilesetVolumes(narrowed)) {
      var k :| k in narrowed.filesets && narrowed.filesets[k].volume == v;
      assert k in cfg.filesets && cfg.filesets[k].volume == v;
    }
  }

  lemma {:induction false} DoomedTargets(h: Host, cfg: M.Config, v: string)
    requires cfg.targeted
    ensures v in DoomedVolumes(h, ScopeOf(cfg), FilesetVolumes(cfg)) <==>
            v in h.volumes && h.volumes[v].labelled && exists k :: k in cfg.filesets && cfg.filesets[k].volume == v
  {
    hide M.AllStacks;
  }

  /** The target volumes of the filesets of one context. */
  function ContextVolumes(cfg: M.Config, context: string): set<string> {
    set k | k in cfg.filesets && cfg.filesets[k].context == context :: cfg.filesets[k].volume
  }

  /**
   A targeted destroy removes no network, and on a context only volumes of that context's own
   filesets if and only if no labelled volume there bears the name of a volume of another
   context's fileset in scope without also being one of its own: volumes are matched by name.
   */
  lemma {:induction false} OwnVolumesOnly(h: Host, cfg: M.Config, context: string)
    requires cfg.targeted
    ensures DoomedNetworks(h, ScopeOf(cfg)) == {}
    ensures DoomedVolumes(h, ScopeOf(cfg), FilesetVolumes(cfg)) <= ContextVolumes(cfg, context) <==>
            forall k :: k in cfg.filesets && cfg.filesets[k].context != context && cfg.filesets[k].volume in LabelledVolumes(h) ==>
              cfg.filesets[k].volume in ContextVolumes(cfg, context)
  {
    hide LabelledVolumes;
    if DoomedVolumes(h, ScopeOf(cfg), FilesetVolumes(cfg)) <= ContextVolumes(cfg, context) {
      forall k | k in cfg.filesets && cfg.filesets[k].context != context && cfg.filesets[k].volume in LabelledVolumes(h)
        ensures cfg.filesets[k].volume in ContextVolumes(cfg, context)
      {
        assert cfg.filesets[k].volume in DoomedVolumes(h, ScopeOf(cfg), FilesetVolumes(cfg));
      }
    }
  }

  /** Stacks `a/s` and `b/t` are targeted; the shared volume `data` of context `b` has the name of a fileset volume of `a` and is removed. */
  lemma {:induction false} ForeignVolumeRemoved(h: Host, cfg: M.Config, spec: M.StackSpec)
    requires h == Host(map["data" := Volume(true, map["f" := "x"], Absent)], map["net" := Network(true, false)],
                       map["c" := Container("t", "web", true, "", "", {})])
    requires cfg == M.Config({"a", "b"}, map["d" := M.Deployment(["a"], [])], map["a/s" := spec], map["a/s" := spec, "b/t" := spec],
                             map["a/s/f" := M.FilesetSpec("data", "a", "s")], true)
    ensures "data" in DoomedVolumes(h, ScopeOf(cfg), FilesetVolumes(cfg)) && ContextVolumes(cfg, "b") == {}
  {
    assert cfg.filesets["a/s/f"].volume == "data" && "data" in LabelledVolumes(h);
    assert "a" != "b";
  }
}
