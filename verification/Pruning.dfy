/**
 Removing what a context's configuration does not want (internal/planner/prune.go). Every
 failure is remembered and reported at the end; none stops the rest.
 */
module Pruning {
  import opened Text
  import opened VolumeTree
  import opened DockerHost
  import opened FilesetSync
  import opened ServiceDetect
  import opened ContextState
  import opened Planning

  /** Managed containers of services that no stack plans. */
  function UnwantedContainers(w: World, h: Host, cfg: Config): set<string> {
    set n | n in Managed(w, h) && h.containers[n].service !in DesiredServices(cfg)
  }

  function UnwantedVolumes(h: Host, cfg: Config): set<string> { LabelledVolumes(h) - DesiredVolumes(cfg) }

  function UnwantedNetworks(h: Host, cfg: Config): set<string> { LabelledNetworks(h) - cfg.networks - ComposeNetworks(h) }

  function Without(h: Host, containers: set<string>, volumes: set<string>, networks: set<string>): Host {
    Host(h.volumes - volumes, h.networks - networks, h.containers - containers)
  }

  /** The context after an undisturbed prune. */
  function Pruned(w: World, h: Host, cfg: Config): Host {
    if cfg.targeted then h
    else Without(h, UnwantedContainers(w, h, cfg), UnwantedVolumes(h, cfg), UnwantedNetworks(h, cfg))
  }

  /** What is unwanted, by its own labels and the configuration. */
  lemma {:induction false} UnwantedSay(w: World, h: Host, cfg: Config)
    ensures forall n :: n in UnwantedContainers(w, h, cfg) <==> Ours(w, h, n) && !PlannedService(cfg, h.containers[n].service)
    ensures forall v :: v in UnwantedVolumes(h, cfg) <==> v in h.volumes && h.volumes[v].labelled && !WantedVolume(cfg, v)
    ensures forall n :: n in UnwantedNetworks(h, cfg) <==> n in h.networks && h.networks[n].labelled && !h.networks[n].owned && n !in cfg.networks
  {
    hide WantedVolume, PlannedService, DesiredVolumes, DesiredServices, Managed;
    DesiredSay(cfg);
    forall n ensures n in Managed(w, h) <==> Ours(w, h, n) { ManagedAreOurs(w, h, n); }
  }

  // ---------------------------------------------------------- desired services

  /** The services of one stack: from the plan where it has them, otherwise asked for. */
  method StackServices(d: Docker, name: string, s: Stack, cached: Option<map<string, StackData>>)
    returns (ok: bool, names: set<string>, ghost fellBack: bool)
    requires cached.Some? && name in cached.value ==> NamesPlanned(s, cached.value[name])
    modifies d`clean
    ensures d.clean ==> old(d.clean) && ok
    ensures ok ==> names == s.services.Keys && (d.clean == old(d.clean) || fellBack)
    ensures cached.Some? && name in cached.value ==> !fellBack
  {
    names, fellBack := {}, false;
    if cached.Some? && name in cached.value {
      return true, set i | 0 <= i < |cached.value[name].services| :: cached.value[name].services[i].name, false;
    }
    ok := d.Read(); // inline environment
    if !ok { return; }
    var planned;
    ok, planned, fellBack := GetPlannedServices(d, s);
    if ok { names := Elements(planned); }
  }

  method CollectServices(d: Docker, cfg: Config, cached: Option<map<string, StackData>>) returns (ok: bool, desired: set<string>, ghost fellBack: bool)
    requires cached.Some? ==> DataNames(cfg, cached.value)
    modifies d`clean
    ensures d.clean ==> old(d.clean) && ok
    ensures ok ==> desired == DesiredServices(cfg) && (d.clean == old(d.clean) || fellBack)
    ensures cached.Some? && cfg.stacks.Keys <= cached.value.Keys ==> !fellBack
  {
    hide NamesPlanned;
    ok, desired, fellBack := true, {}, false;
    var left := cfg.stacks.Keys;
    while left != {}
      invariant left <= cfg.stacks.Keys && (d.clean ==> old(d.clean) && ok)
      invariant ok ==> desired == set n, s | n in cfg.stacks.Keys - left && s in cfg.stacks[n].services.Keys :: s
      invariant ok ==> d.clean == old(d.clean) || fellBack
      invariant cached.Some? && cfg.stacks.Keys <= cached.value.Keys ==> !fellBack
      decreases left
    {
      var n :| n in left;
      ghost var fell;
      var found, names;
      found, names, fell := StackServices(d, n, cfg.stacks[n], cached);
      fellBack := fellBack || fell;
      if !found { ok := false; }
      desired := desired + names;
      left := left - {n};
    }
  }

  // ----------------------------------------------------------------- removals

  function Doomed(items: seq<PsBrief>, desired: set<string>): set<string> {
    set b | b in items && b.service !in desired :: b.name
  }

  function ContainerRemovals(names: set<string>): set<Event> { set n | n in names :: Event(RemoveContainer(n), true) }

  function VolumeRemovals(names: set<string>): set<Event> { set n | n in names :: Event(RemoveVolume(n), true) }

  function NetworkRemovals(names: set<string>): set<Event> { set n | n in names :: Event(RemoveNetwork(n), true) }

  /** Only containers, and only doomed ones, are removed. */
  method RemoveContainers(d: Docker, items: seq<PsBrief>, desired: set<string>)
    returns (ok: bool, ghost gone: set<string>, ghost ev: seq<Event>)
    modifies d`host, d`log, d`clean
    ensures d.clean ==> old(d.clean) && ok
    ensures d.host == old(d.host).(containers := old(d.host.containers) - gone) && gone <= Doomed(items, desired)
    ensures ok ==> gone == Doomed(items, desired) && d.clean == old(d.clean)
    ensures d.log == old(d.log) + ev && forall e :: e in ev ==> e.call.RemoveContainer?
    ensures ok ==> Elements(ev) == ContainerRemovals(Doomed(items, desired))
  {
    ok, gone, ev := true, {}, [];
    assert Doomed(items[..0], desired) == {};
    assert d.host.containers - {} == d.host.containers;
    for i := 0 to |items|
      invariant d.clean ==> old(d.clean) && ok
      invariant d.host == old(d.host).(containers := old(d.host.containers) - gone) && gone <= Doomed(items[..i], desired)
      invariant ok ==> gone == Doomed(items[..i], desired) && d.clean == old(d.clean)
      invariant d.log == old(d.log) + ev && forall e :: e in ev ==> e.call.RemoveContainer?
      invariant ok ==> Elements(ev) == ContainerRemovals(gone)
    {
      var it := items[i];
      assert items[..i + 1] == items[..i] + [it];
      assert Doomed(items[..i + 1], desired) == Doomed(items[..i], desired) + if it.service !in desired then {it.name} else {};
      if it.service !in desired {
        ghost var was := d.host.containers;
        var done := d.DoRemoveContainer(it.name);
        assert was - {it.name} == old(d.host.containers) - (gone + {it.name});
        if !done { ok := false; }
        assert Elements(ev + [Event(RemoveContainer(it.name), done)]) == Elements(ev) + {Event(RemoveContainer(it.name), done)};
        assert ContainerRemovals(gone + {it.name}) == ContainerRemovals(gone) + {Event(RemoveContainer(it.name), true)};
        ev := ev + [Event(RemoveContainer(it.name), done)];
        if d.host.containers == was - {it.name} { gone := gone + {it.name}; }
      }
    }
    assert items[..|items|] == items;
  }

  method RemoveVolumes(d: Docker, names: seq<string>, desired: set<string>)
    returns (ok: bool, ghost gone: set<string>, ghost ev: seq<Event>)
    modifies d`host, d`log, d`clean
    ensures d.clean ==> old(d.clean) && ok
    ensures d.host == old(d.host).(volumes := old(d.host.volumes) - gone) && gone <= Elements(names) - desired
    ensures ok ==> gone == Elements(names) - desired && d.clean == old(d.clean)
    ensures d.log == old(d.log) + ev && forall e :: e in ev ==> e.call.RemoveVolume?
    ensures ok ==> Elements(ev) == VolumeRemovals(Elements(names) - desired)
  {
    ok, gone, ev := true, {}, [];
    assert d.host.volumes - {} == d.host.volumes;
    for i := 0 to |names|
      invariant d.clean ==> old(d.clean) && ok
      invariant d.host == old(d.host).(volumes := old(d.host.volumes) - gone) && gone <= Elements(names[..i]) - desired
      invariant ok ==> gone == Elements(names[..i]) - desired && d.clean == old(d.clean)
      invariant d.log == old(d.log) + ev && forall e :: e in ev ==> e.call.RemoveVolume?
      invariant ok ==> Elements(ev) == VolumeRemovals(gone)
    {
      assert Elements(names[..i + 1]) == Elements(names[..i]) + {names[i]};
      if names[i] !in desired {
        ghost var was := d.host.volumes;
        var done := d.DoRemoveVolume(names[i]);
        assert was - {names[i]} == old(d.host.volumes) - (gone + {names[i]});
        if !done { ok := false; }
        assert Elements(ev + [Event(RemoveVolume(names[i]), done)]) == Elements(ev) + {Event(RemoveVolume(names[i]), done)};
        assert VolumeRemovals(gone + {names[i]}) == VolumeRemovals(gone) + {Event(RemoveVolume(names[i]), true)};
        ev := ev + [Event(RemoveVolume(names[i]), done)];
        if d.host.volumes == was - {names[i]} { gone := gone + {names[i]}; }
      }
    }
    assert names[..|names|] == names;
  }

  method RemoveNetworks(d: Docker, orphans: set<string>) returns (ok: bool, ghost gone: set<string>, ghost ev: seq<Event>)
    modifies d`host, d`log, d`clean
    ensures d.clean ==> old(d.clean) && ok
    ensures d.host == old(d.host).(networks := old(d.host.networks) - gone) && gone <= orphans
    ensures ok ==> gone == orphans && d.clean == old(d.clean)
    ensures d.log == old(d.log) + ev && forall e :: e in ev ==> e.call.RemoveNetwork?
    ensures ok ==> Elements(ev) == NetworkRemovals(orphans)
  {
    ok, gone, ev := true, {}, [];
    var left := orphans;
    assert d.host.networks - {} == d.host.networks;
    while left != {}
      invariant left <= orphans && (d.clean ==> old(d.clean) && ok)
      invariant d.host == old(d.host).(networks := old(d.host.networks) - gone) && gone <= orphans - left
      invariant ok ==> gone == orphans - left && d.clean == old(d.clean)
      invariant d.log == old(d.log) + ev && forall e :: e in ev ==> e.call.RemoveNetwork?
      invariant ok ==> Elements(ev) == NetworkRemovals(gone)
      decreases left
    {
      var n :| n in left;
      ghost var was := d.host.networks;
      var done := d.DoRemoveNetwork(n);
      assert was - {n} == old(d.host.networks) - (gone + {n});
      if !done { ok := false; }
      assert Elements(ev + [Event(RemoveNetwork(n), done)]) == Elements(ev) + {Event(RemoveNetwork(n), done)};
      assert NetworkRemovals(gone + {n}) == NetworkRemovals(gone) + {Event(RemoveNetwork(n), true)};
      ev := ev + [Event(RemoveNetwork(n), done)];
      if d.host.networks == was - {n} { gone := gone + {n}; }
      left := left - {n};
    }
    assert orphans - left == orphans;
  }

  // ------------------------------------------------------------------ context

  /**
   What prune may have removed, whatever failed: no container of a planned service, no
   desired volume, no declared network; and if the compose-owned networks could be listed,
   none of those.
   */
  ghost predicate Spared(w: World, h: Host, cfg: Config, containers: set<string>, volumes: set<string>, networks: set<string>,
                         ownedListed: bool) {
    && containers <= UnwantedContainers(w, h, cfg)
    && volumes <= UnwantedVolumes(h, cfg)
    && networks <= LabelledNetworks(h) - cfg.networks
    && (ownedListed ==> networks <= UnwantedNetworks(h, cfg))
  }

  lemma {:induction false} DoomedListed(w: World, h: Host, cfg: Config)
    ensures Doomed(Listed(w, h), DesiredServices(cfg)) == UnwantedContainers(w, h, cfg)
  {
    hide Managed, DesiredServices;
    forall n | n in UnwantedContainers(w, h, cfg) ensures n in Doomed(Listed(w, h), DesiredServices(cfg)) {
      ManagedExist(w, h, n);
      ListedMembers(w, h, Brief(h, n));
    }
    forall n | n in Doomed(Listed(w, h), DesiredServices(cfg)) ensures n in UnwantedContainers(w, h, cfg) {
      var b :| b in Listed(w, h) && b.service !in DesiredServices(cfg) && b.name == n;
      ListedMembers(w, h, b);
      ManagedExist(w, h, n);
    }
  }

  lemma {:induction false} ManagedExist(w: World, h: Host, n: string)
    requires n in Managed(w, h)
    ensures n in h.containers
  {
  }

  /** The container phase: skipped unless every stack's services are known. */
  method PruneContainers(d: Docker, cfg: Config, cached: Option<map<string, StackData>>)
    returns (ok: bool, ghost gone: set<string>, ghost ev: seq<Event>, ghost fellBack: bool)
    requires cached.Some? ==> DataNames(cfg, cached.value)
    modifies d`host, d`log, d`clean
    ensures d.clean ==> old(d.clean) && ok
    ensures ok ==> d.clean == old(d.clean) || fellBack
    ensures cached.Some? && cfg.stacks.Keys <= cached.value.Keys ==> !fellBack
    ensures d.host == old(d.host).(containers := old(d.host.containers) - gone) && gone <= UnwantedContainers(d.w, old(d.host), cfg)
    ensures ok ==> gone == UnwantedContainers(d.w, old(d.host), cfg) && Elements(ev) == ContainerRemovals(gone)
    ensures d.log == old(d.log) + ev && forall e :: e in ev ==> e.call.RemoveContainer?
  {
    hide UnwantedContainers, Doomed, Listed, DataNames, DesiredServices;
    ok, gone, ev, fellBack := false, {}, [], false;
    assert d.host.containers - {} == d.host.containers;
    var known, desired;
    known, desired, fellBack := CollectServices(d, cfg, cached);
    if !known { return; }
    var listed, items := d.ListComposeContainersAll();
    if !listed { return; }
    DoomedListed(d.w, d.host, cfg);
    ok, gone, ev := RemoveContainers(d, items, desired);
  }

  method PruneVolumes(d: Docker, cfg: Config) returns (ok: bool, ghost gone: set<string>, ghost ev: seq<Event>)
    modifies d`host, d`log, d`clean
    ensures d.clean ==> old(d.clean) && ok
    ensures d.host == old(d.host).(volumes := old(d.host.volumes) - gone) && gone <= UnwantedVolumes(old(d.host), cfg)
    ensures ok ==> gone == UnwantedVolumes(old(d.host), cfg) && Elements(ev) == VolumeRemovals(gone) && d.clean == old(d.clean)
    ensures d.log == old(d.log) + ev && forall e :: e in ev ==> e.call.RemoveVolume?
  {
    ok, gone, ev := false, {}, [];
    assert d.host.volumes - {} == d.host.volumes;
    var listed, names := d.ListVolumes();
    if listed { ok, gone, ev := RemoveVolumes(d, names, DesiredVolumes(cfg)); }
  }

  /** A failed listing of compose-owned networks is reported, and treated as if there were none. */
  method PruneNetworks(d: Docker, cfg: Config) returns (ok: bool, ghost gone: set<string>, ghost ev: seq<Event>, ghost ownedListed: bool)
    modifies d`host, d`log, d`clean
    ensures d.clean ==> old(d.clean) && ok
    ensures d.host == old(d.host).(networks := old(d.host.networks) - gone) && gone <= LabelledNetworks(old(d.host)) - cfg.networks
    ensures ownedListed ==> gone <= UnwantedNetworks(old(d.host), cfg)
    ensures ok ==> ownedListed && gone == UnwantedNetworks(old(d.host), cfg) && Elements(ev) == NetworkRemovals(gone) && d.clean == old(d.clean)
    ensures d.log == old(d.log) + ev && forall e :: e in ev ==> e.call.RemoveNetwork?
  {
    ok, gone, ev, ownedListed := false, {}, [], true;
    assert d.host.networks - {} == d.host.networks;
    var listed, names := d.ListNetworks();
    if !listed { return; }
    var owned, ownedNames := d.ListComposeNetworks();
    ownedListed := owned;
    var orphans := OrphanNetworks(Elements(names), cfg.networks, if owned then Elements(ownedNames) else {});
    ok, gone, ev := RemoveNetworks(d, orphans);
    ok := ok && owned;
  }

  /**
   Every failure but one kind makes the result an error: a removal, a listing, or the services of
   a stack. The exception is `fellBack`: the short listing of a stack's services failed and the
   full configuration answered instead. It cannot happen for stacks whose services the plan has.
   */
  method PruneContext(d: Docker, cfg: Config, exec: Option<ExecutionContext>)
    returns (ok: bool, ghost cs: set<string>, ghost vs: set<string>, ghost ns: set<string>, ghost ownedListed: bool, ghost fellBack: bool,
             ghost ev: seq<Event>)
    requires exec.Some? ==> ExecSound(cfg, exec.value)
    modifies d`host, d`log, d`clean
    ensures d.clean ==> old(d.clean) && ok
    ensures ok ==> ownedListed && (d.clean == old(d.clean) || fellBack) && forall e :: e in ev ==> e.ok
    ensures exec.Some? && cfg.stacks.Keys <= exec.value.stacks.Keys ==> !fellBack
    ensures d.host == Without(old(d.host), cs, vs, ns) && Spared(d.w, old(d.host), cfg, cs, vs, ns, ownedListed)
    ensures cfg.targeted ==> d.host == old(d.host) && ok
    ensures forall n :: n in cs ==> Ours(d.w, old(d.host), n) && !PlannedService(cfg, old(d.host).containers[n].service)
    ensures forall v :: v in vs ==> v in old(d.host).volumes && old(d.host).volumes[v].labelled && !WantedVolume(cfg, v)
    ensures forall n :: n in ns ==> n in old(d.host).networks && old(d.host).networks[n].labelled && n !in cfg.networks &&
                                    (ownedListed ==> !old(d.host).networks[n].owned)
    ensures ok && !cfg.targeted ==>
              && (forall n :: Ours(d.w, old(d.host), n) && !PlannedService(cfg, old(d.host).containers[n].service) ==> n in cs)
              && (forall v :: v in old(d.host).volumes && old(d.host).volumes[v].labelled && !WantedVolume(cfg, v) ==> v in vs)
              && (forall n :: n in old(d.host).networks && old(d.host).networks[n].labelled && !old(d.host).networks[n].owned && n !in cfg.networks ==> n in ns)
    ensures ok ==> d.host == Pruned(d.w, old(d.host), cfg)
    ensures d.log == old(d.log) + ev
    ensures ok && !cfg.targeted ==>
              && cs == UnwantedContainers(d.w, old(d.host), cfg) && vs == UnwantedVolumes(old(d.host), cfg) && ns == UnwantedNetworks(old(d.host), cfg)
              && Elements(ev) == ContainerRemovals(cs) + VolumeRemovals(vs) + NetworkRemovals(ns)
  {
    hide UnwantedContainers, DataNames, ValidCache, ContainerRemovals, VolumeRemovals, NetworkRemovals, LabelledVolumes, LabelledNetworks, ComposeNetworks,
         WantedVolume, PlannedService, Ours;
    UnwantedSay(d.w, d.host, cfg);
    LabelledSay(d.host);
    ok, cs, vs, ns, ownedListed, fellBack, ev := true, {}, {}, {}, true, false, [];
    WithoutNothing(d.host);
    if cfg.targeted { return; }
    ghost var h0 := d.host;
    var okC, okV, okN;
    ghost var ec, evs, en;
    okC, cs, ec, fellBack := PruneContainers(d, cfg, if exec.Some? then Some(exec.value.stacks) else None);
    SameLists(h0, cs, {});
    okV, vs, evs := PruneVolumes(d, cfg);
    SameLists(h0, cs, vs);
    okN, ns, en, ownedListed := PruneNetworks(d, cfg);
    ok := okC && okV && okN;
    ev := ec + evs + en;
    assert Elements(ev) == Elements(ec) + Elements(evs) + Elements(en);
    if ok { AllSucceeded(ev, cs, vs, ns); }
  }

  lemma {:induction false} LabelledSay(h: Host)
    ensures forall n :: n in LabelledNetworks(h) <==> n in h.networks && h.networks[n].labelled
  {
  }

  lemma {:induction false} AllSucceeded(ev: seq<Event>, cs: set<string>, vs: set<string>, ns: set<string>)
    requires Elements(ev) == ContainerRemovals(cs) + VolumeRemovals(vs) + NetworkRemovals(ns)
    ensures forall e :: e in ev ==> e.ok
  {
    forall e | e in ev ensures e.ok { assert e in Elements(ev); }
  }

  lemma {:induction false} WithoutNothing(h: Host)
    ensures Without(h, {}, {}, {}) == h
  {
  }

  lemma {:induction false} SameLists(h: Host, cs: set<string>, vs: set<string>)
    ensures var h' := h.(containers := h.containers - cs, volumes := h.volumes - vs);
            && (vs == {} ==> LabelledVolumes(h') == LabelledVolumes(h))
            && LabelledNetworks(h') == LabelledNetworks(h) && ComposeNetworks(h') == ComposeNetworks(h)
            && (vs == {} ==> h'.volumes == h.volumes)
  {
  }
}
