/**
 Applying the desired state to one context (internal/planner/apply.go, apply_resources.go,
 apply_restarts.go), with or without the findings of a plan.
 */
module Applying {
  import opened Text
  import opened FilesetIndex
  import opened VolumeTree
  import opened DockerHost
  import opened FilesetSync
  import opened ServiceDetect
  import opened ContextState
  import opened Planning

  // ------------------------------------------------------ volumes and networks

  const NewVolume := Volume(true, map[], Absent)

  function EnsuredVolumes(h: Host, desired: set<string>): Host {
    h.(volumes := map v | v in h.volumes.Keys + desired :: if v in h.volumes then h.volumes[v] else NewVolume)
  }

  function EnsuredNetworks(h: Host, missing: set<string>): Host {
    h.(networks := map n | n in h.networks.Keys + missing :: if n in missing then Network(true, false) else h.networks[n])
  }

  function VolumeEvents(names: set<string>): set<Event> { set v | v in names :: Event(CreateVolume(v), true) }

  function NetworkEvents(names: set<string>): set<Event> { set n | n in names :: Event(CreateNetwork(n), true) }

  lemma {:induction false} EnsuredStep(h: Host, done: set<string>, v: string)
    ensures EnsuredVolumes(h, done + {v}) ==
            if v in EnsuredVolumes(h, done).volumes then EnsuredVolumes(h, done)
            else WithVolume(EnsuredVolumes(h, done), v, NewVolume)
    ensures v in h.volumes ==> v in EnsuredVolumes(h, done).volumes
  {
    var a, b := EnsuredVolumes(h, done), EnsuredVolumes(h, done + {v});
    assert v in a.volumes ==> a.volumes == b.volumes;
    assert v !in a.volumes ==> a.volumes[v := NewVolume] == b.volumes;
  }

  lemma {:induction false} EnsuredNone(h: Host)
    ensures EnsuredVolumes(h, {}) == h
  {
    assert EnsuredVolumes(h, {}).volumes == h.volumes;
  }

  lemma {:induction false} NetworksStep(h: Host, done: set<string>, n: string)
    ensures EnsuredNetworks(h, done + {n}) ==
            EnsuredNetworks(h, done).(networks := EnsuredNetworks(h, done).networks[n := Network(true, false)])
  {
    assert EnsuredNetworks(h, done + {n}).networks == EnsuredNetworks(h, done).networks[n := Network(true, false)];
  }

  /** Every volume is there as before, and those that are new are desired and freshly made. */
  ghost predicate Grown(h: Host, h': Host, desired: set<string>) {
    && (forall v :: v in h.volumes ==> v in h'.volumes && h'.volumes[v] == h.volumes[v])
    && (forall v :: v in h'.volumes && v !in h.volumes ==> v in desired && h'.volumes[v] == NewVolume)
  }

  lemma {:induction false} EnsuredGrown(h: Host, some: set<string>, desired: set<string>)
    requires some <= desired
    ensures Grown(h, EnsuredVolumes(h, some), desired)
  {
  }

  ghost predicate GrownBy(h: Host, h': Host, cfg: Config) {
    && (forall v :: v in h.volumes ==> v in h'.volumes && h'.volumes[v] == h.volumes[v])
    && (forall v :: v in h'.volumes && v !in h.volumes ==> WantedVolume(cfg, v) && h'.volumes[v] == Volume(true, map[], Absent))
  }

  lemma {:induction false} GrownSays(h: Host, h': Host, cfg: Config)
    requires Grown(h, h', DesiredVolumes(cfg))
    ensures GrownBy(h, h', cfg)
  {
    hide DesiredVolumes, WantedVolume;
    DesiredSay(cfg);
  }

  lemma {:induction false} EnsuredSay(h: Host, cfg: Config)
    ensures forall v :: v in EnsuredVolumes(h, DesiredVolumes(cfg)).volumes <==> v in h.volumes || WantedVolume(cfg, v)
    ensures forall ev: seq<Event>, v :: Elements(ev) == VolumeEvents(DesiredVolumes(cfg) - LabelledVolumes(h)) ==>
              (Event(CreateVolume(v), true) in ev <==> WantedVolume(cfg, v) && !(v in h.volumes && h.volumes[v].labelled))
  {
    hide DesiredVolumes, WantedVolume;
    DesiredSay(cfg);
    forall ev: seq<Event>, v | Elements(ev) == VolumeEvents(DesiredVolumes(cfg) - LabelledVolumes(h))
      ensures Event(CreateVolume(v), true) in ev <==> WantedVolume(cfg, v) && !(v in h.volumes && h.volumes[v].labelled)
    {
      assert Event(CreateVolume(v), true) in ev <==> Event(CreateVolume(v), true) in Elements(ev);
    }
  }

  /** Creates what is not listed; the result also names the volumes just created. */
  method EnsureVolumes(d: Docker, cfg: Config) returns (ok: bool, existing: set<string>, ghost ev: seq<Event>)
    modifies d`host, d`log, d`clean
    ensures d.clean ==> old(d.clean) && ok
    ensures d.log == old(d.log) + ev
    ensures ok ==> && d.clean == old(d.clean)
                   && d.host == EnsuredVolumes(old(d.host), DesiredVolumes(cfg))
                   && existing == LabelledVolumes(old(d.host)) + DesiredVolumes(cfg)
                   && Elements(ev) == VolumeEvents(DesiredVolumes(cfg) - LabelledVolumes(old(d.host))) && NoDup(ev)
    ensures Grown(old(d.host), d.host, DesiredVolumes(cfg))
    ensures ok ==> forall v :: v in d.host.volumes <==> v in old(d.host).volumes || WantedVolume(cfg, v)
    ensures ok ==> forall v :: Event(CreateVolume(v), true) in ev <==> WantedVolume(cfg, v) && !(v in old(d.host).volumes && old(d.host).volumes[v].labelled)
    ensures forall v :: v in old(d.host).volumes ==> v in d.host.volumes && d.host.volumes[v] == old(d.host).volumes[v]
    ensures forall v :: v in d.host.volumes && v !in old(d.host).volumes ==> WantedVolume(cfg, v) && d.host.volumes[v] == Volume(true, map[], Absent)
  {
    hide DesiredVolumes, EnsuredVolumes, Grown, WantedVolume, LabelledVolumes, VolumeEvents, Elements, NoDup;
    EnsuredSay(d.host, cfg);
    ok, existing, ev := CreateMissing(d, cfg);
    GrownSays(old(d.host), d.host, cfg);
  }

  method CreateMissing(d: Docker, cfg: Config) returns (ok: bool, existing: set<string>, ghost ev: seq<Event>)
    modifies d`host, d`log, d`clean
    ensures d.clean ==> old(d.clean) && ok
    ensures d.log == old(d.log) + ev
    ensures ok ==> && d.clean == old(d.clean)
                   && d.host == EnsuredVolumes(old(d.host), DesiredVolumes(cfg))
                   && existing == LabelledVolumes(old(d.host)) + DesiredVolumes(cfg)
                   && Elements(ev) == VolumeEvents(DesiredVolumes(cfg) - LabelledVolumes(old(d.host))) && NoDup(ev)
    ensures Grown(old(d.host), d.host, DesiredVolumes(cfg))
  {
    hide SortedKeys, DesiredVolumes, EnsuredVolumes, Grown;
    var listed;
    ev, existing := [], {};
    EnsuredNone(d.host);
    EnsuredGrown(d.host, {}, DesiredVolumes(cfg));
    ok, listed := d.ListVolumes();
    if !ok { return; }
    existing := Elements(listed);
    ghost var h0, labelled := d.host, existing;
    var desired := DesiredVolumes(cfg);
    var left := desired;
    EnsuredNone(h0);
    assert desired - left == {};
    while left != {}
      invariant left <= desired && ok && d.clean == old(d.clean)
      invariant d.host == EnsuredVolumes(h0, desired - left) && existing == labelled + (desired - left)
      invariant d.log == old(d.log) + ev && NoDup(ev)
      invariant Elements(ev) == VolumeEvents(desired - left - labelled)
      decreases left
    {
      var v :| v in left;
      EnsuredStep(h0, desired - left, v);
      EnsuredGrown(h0, desired - left, desired);
      EnsuredGrown(h0, desired - left + {v}, desired);
      assert desired - (left - {v}) == desired - left + {v};
      if v !in existing {
        assert Event(CreateVolume(v), true) !in Elements(ev);
        ok := d.DoCreateVolume(v);
        ev := ev + [Event(CreateVolume(v), ok)];
        if !ok { return; }
        assert Elements(ev) == VolumeEvents(desired - left - labelled) + {Event(CreateVolume(v), true)};
        assert VolumeEvents(desired - left - labelled) + {Event(CreateVolume(v), true)} == VolumeEvents(desired - (left - {v}) - labelled);
        existing := existing + {v};
      } else {
        assert desired - (left - {v}) - labelled == desired - left - labelled;
      }
      left := left - {v};
    }
    assert desired - left == desired;
    EnsuredGrown(h0, desired, desired);
  }

  method EnsureNetworks(d: Docker, declared: set<string>, existing: set<string>) returns (ok: bool, ghost ev: seq<Event>)
    modifies d`host, d`log, d`clean
    ensures d.clean ==> old(d.clean) && ok
    ensures d.log == old(d.log) + ev
    ensures ok ==> && d.clean == old(d.clean)
                   && d.host == EnsuredNetworks(old(d.host), declared - existing)
                   && (declared - existing) !! old(d.host.networks.Keys)
                   && Elements(ev) == NetworkEvents(declared - existing) && NoDup(ev)
    ensures d.host.volumes == old(d.host.volumes)
    ensures ok ==> && (forall n :: n in d.host.networks <==> n in old(d.host).networks || (n in declared && n !in existing))
                   && (forall n :: n in old(d.host).networks ==> d.host.networks[n] == old(d.host).networks[n])
                   && (forall n :: n in d.host.networks && n !in old(d.host).networks ==> d.host.networks[n].labelled && !d.host.networks[n].owned)
  {
    ok, ev := true, [];
    ghost var h0, missing := d.host, declared - existing;
    var left := declared;
    assert d.host.networks == EnsuredNetworks(d.host, {}).networks;
    assert declared - left - existing == {};
    while left != {}
      invariant left <= declared && ok && d.clean == old(d.clean)
      invariant d.host == EnsuredNetworks(h0, declared - left - existing)
      invariant (declared - left - existing) !! h0.networks.Keys
      invariant d.log == old(d.log) + ev && NoDup(ev)
      invariant Elements(ev) == NetworkEvents(declared - left - existing)
      decreases left
    {
      var n :| n in left;
      if n !in existing {
        NetworksStep(h0, declared - left - existing, n);
        assert declared - (left - {n}) - existing == declared - left - existing + {n};
        assert Event(CreateNetwork(n), true) !in Elements(ev);
        ok := d.DoCreateNetwork(n);
        ev := ev + [Event(CreateNetwork(n), ok)];
        if !ok { return; }
        assert Elements(ev) == NetworkEvents(declared - left - existing) + {Event(CreateNetwork(n), true)};
        assert NetworkEvents(declared - left - existing + {n}) == NetworkEvents(declared - left - existing) + {Event(CreateNetwork(n), true)};
      } else {
        assert declared - (left - {n}) - existing == declared - left - existing;
      }
      left := left - {n};
    }
    assert declared - left - existing == missing;
  }

  // ------------------------------------------------------------------- stacks

  /** The identifier label put on some containers. */
  function Relabelled(w: World, h: Host, names: set<string>): Host {
    h.(containers := map n | n in h.containers :: if n in names then h.containers[n].(ident := w.identifier) else h.containers[n])
  }

  /** The containers of a list that lack the label, one call each. */
  function RelabelCalls(w: World, h: Host, items: seq<PsBrief>): seq<Event> {
    if items == [] then [] else
      var n := items[|items| - 1].name;
      RelabelCalls(w, h, items[..|items| - 1]) +
      if n in h.containers && h.containers[n].ident != w.identifier then [Event(Relabel(n), true)] else []
  }

  lemma {:induction false} RelabelStep(w: World, h: Host, hit: set<string>, n: string)
    requires n in h.containers
    ensures n in Relabelled(w, h, hit).containers
    ensures Relabelled(w, h, hit + {n}) ==
            Relabelled(w, h, hit).(containers := Relabelled(w, h, hit).containers[n := Relabelled(w, h, hit).containers[n].(ident := w.identifier)])
    ensures Relabelled(w, h, hit).containers[n].ident == w.identifier ==> Relabelled(w, h, hit + {n}) == Relabelled(w, h, hit)
    ensures n !in hit ==> Relabelled(w, h, hit).containers[n] == h.containers[n]
  {
    var a := Relabelled(w, h, hit).containers;
    assert Relabelled(w, h, hit + {n}).containers == a[n := a[n].(ident := w.identifier)];
    assert a[n].ident == w.identifier ==> a[n := a[n].(ident := w.identifier)] == a;
  }

  lemma {:induction false} RelabelNone(w: World, h: Host)
    ensures Relabelled(w, h, {}) == h
  {
    assert Relabelled(w, h, {}).containers == h.containers;
  }

  function NamesOf(items: seq<PsBrief>): set<string> { set b | b in items :: b.name }

  predicate RunsFor(h: Host, project: string, n: string) { n in h.containers && h.containers[n].project == project && h.containers[n].running }

  /** The running containers of a project carry the identifier, and nothing else has changed. */
  ghost predicate Labelled(w: World, h: Host, h': Host, project: string) {
    && h'.volumes == h.volumes && h'.networks == h.networks && h'.containers.Keys == h.containers.Keys
    && (forall n :: n in h.containers && RunsFor(h, project, n) ==> h'.containers[n] == h.containers[n].(ident := w.identifier))
    && (forall n :: n in h.containers && !RunsFor(h, project, n) ==> h'.containers[n] == h.containers[n])
  }

  lemma {:induction false} ListedRunningNames(h: Host, project: string)
    ensures forall n :: n in NamesOf(ListedRunning(h, project)) <==> RunsFor(h, project, n)
  {
    hide ListedRunning;
    forall n ensures n in NamesOf(ListedRunning(h, project)) <==> RunsFor(h, project, n) {
      if RunsFor(h, project, n) { RunningMembers(h, project, Brief(h, n)); }
      if n in NamesOf(ListedRunning(h, project)) {
        var b :| b in ListedRunning(h, project) && b.name == n;
        RunningMembers(h, project, b);
      }
    }
  }

  lemma {:induction false} LabelledSays(w: World, h: Host, project: string)
    ensures Labelled(w, h, Relabelled(w, h, NamesOf(ListedRunning(h, project))), project)
  {
    hide ListedRunning, RunsFor, NamesOf;
    ListedRunningNames(h, project);
  }

  lemma {:induction false} RelabelCallsAre(w: World, h: Host, items: seq<PsBrief>, n: string)
    ensures Event(Relabel(n), true) in RelabelCalls(w, h, items) <==> n in NamesOf(items) && n in h.containers && h.containers[n].ident != w.identifier
  {
    if items != [] {
      var front, last := items[..|items| - 1], items[|items| - 1];
      RelabelCallsAre(w, h, front, n);
      assert items == front + [last] && NamesOf(items) == NamesOf(front) + {last.name};
    }
  }

  lemma {:induction false} RelabelCallsSay(w: World, h: Host, project: string)
    ensures forall n :: Event(Relabel(n), true) in RelabelCalls(w, h, ListedRunning(h, project)) <==>
              RunsFor(h, project, n) && h.containers[n].ident != w.identifier
  {
    hide ListedRunning, RelabelCalls, NamesOf;
    ListedRunningNames(h, project);
    forall n ensures Event(Relabel(n), true) in RelabelCalls(w, h, ListedRunning(h, project)) <==> RunsFor(h, project, n) && h.containers[n].ident != w.identifier {
      RelabelCallsAre(w, h, ListedRunning(h, project), n);
    }
  }

  /** Labels the running containers of a project; failures are collected, not fatal one by one. */
  method LabelContainers(d: Docker, project: string) returns (ok: bool, ghost ev: seq<Event>)
    modifies d`host, d`log, d`clean
    ensures d.clean ==> old(d.clean) && ok
    ensures d.log == old(d.log) + ev
    ensures ok ==> && d.clean == old(d.clean)
                   && d.host == Relabelled(d.w, old(d.host), NamesOf(ListedRunning(old(d.host), project)))
                   && ev == RelabelCalls(d.w, old(d.host), ListedRunning(old(d.host), project))
    ensures exists hit :: hit <= NamesOf(ListedRunning(old(d.host), project)) && d.host == Relabelled(d.w, old(d.host), hit)
    ensures d.host.volumes == old(d.host.volumes)
    ensures ok ==> Labelled(d.w, old(d.host), d.host, project)
    ensures ok ==> forall n :: Event(Relabel(n), true) in ev <==> RunsFor(old(d.host), project, n) && old(d.host).containers[n].ident != d.w.identifier
  {
    hide Relabelled, ListedRunning, RunningIn, Labelled, RunsFor;
    LabelledSays(d.w, d.host, project);
    RelabelCallsSay(d.w, d.host, project);
    ev := [];
    ghost var h0, hit := d.host, {};
    RelabelNone(d.w, h0);
    assert {} <= NamesOf(ListedRunning(h0, project)) && d.host == Relabelled(d.w, h0, {});
    var items;
    ok, items := d.ComposePs(project);
    if !ok { return; }
    ItemsExist(h0, project);
    assert NamesOf(items[..0]) == {};
    for i := 0 to |items|
      invariant d.log == old(d.log) + ev && d.host == Relabelled(d.w, h0, hit) && hit <= NamesOf(items[..i])
      invariant d.host.volumes == h0.volumes
      invariant d.clean ==> old(d.clean) && ok
      invariant ok ==> d.clean == old(d.clean) && hit == NamesOf(items[..i]) && ev == RelabelCalls(d.w, h0, items[..i])
    {
      var n := items[i].name;
      assert items[..i + 1][..i] == items[..i] && items[i] in items;
      assert NamesOf(items[..i + 1]) == NamesOf(items[..i]) + {n};
      assert n !in NamesOf(items[..i]);
      RelabelStep(d.w, h0, hit, n);
      var seen := d.Read();
      if !seen {
        ok := false;
      } else if d.host.containers[n].ident != d.w.identifier {
        ghost var before := d.host;
        var done := d.UpdateContainerLabels(n);
        ev := ev + [Event(Relabel(n), done)];
        if !done { ok := false; }
        if d.host != before || done { hit := hit + {n}; }
      } else {
        hit := hit + {n};
      }
    }
    assert items[..|items|] == items;
  }

  lemma {:induction false} ItemsExist(h: Host, project: string)
    ensures forall b :: b in ListedRunning(h, project) ==> b.name in h.containers
    ensures forall i, j :: 0 <= i < j < |ListedRunning(h, project)| ==> ListedRunning(h, project)[i].name != ListedRunning(h, project)[j].name
  {
    SortedKeysStrict(RunningIn(h, project));
    forall b | b in ListedRunning(h, project) ensures b.name in h.containers { RunningMembers(h, project, b); }
  }

  /** Whether a stack is brought up: as the plan found, or as detected now. */
  ghost predicate NeedsUp(w: World, h: Host, name: string, s: Stack, cached: Option<map<string, StackData>>) {
    if cached.Some? && name in cached.value then cached.value[name].services != [] && cached.value[name].needsApply
    else NeedsApply(Detected(w, h, s))
  }

  datatype StackState = StackState(host: Host, calls: seq<Event>)

  /** `compose up` followed by labelling. */
  ghost function Brought(w: World, h: Host, s: Stack): StackState {
    var up := w.up(h, s);
    var items := ListedRunning(up, s.project);
    StackState(Relabelled(w, up, NamesOf(items)), [Event(Up(s), true)] + RelabelCalls(w, up, items))
  }

  ghost function StackOne(w: World, h: Host, name: string, s: Stack, cached: Option<map<string, StackData>>): StackState {
    if NeedsUp(w, h, name, s, cached) then Brought(w, h, s) else StackState(h, [])
  }

  ghost function StacksAll(w: World, h: Host, names: seq<string>, stacks: map<string, Stack>,
                           cached: Option<map<string, StackData>>): StackState
    requires forall n :: n in names ==> n in stacks
  {
    if names == [] then StackState(h, []) else
      var last := names[|names| - 1];
      var s := StacksAll(w, h, names[..|names| - 1], stacks, cached);
      var next := StackOne(w, s.host, last, stacks[last], cached);
      StackState(next.host, s.calls + next.calls)
  }

  lemma {:induction false} StacksAllNil(w: World, h: Host, names: seq<string>, stacks: map<string, Stack>, cached: Option<map<string, StackData>>)
    ensures StacksAll(w, h, names[..0], stacks, cached) == StackState(h, [])
  {
  }

  lemma {:induction false} StacksAllSnoc(w: World, h: Host, names: seq<string>, i: nat, stacks: map<string, Stack>, cached: Option<map<string, StackData>>)
    requires i < |names| && (forall n :: n in names ==> n in stacks)
    ensures var s := StacksAll(w, h, names[..i], stacks, cached);
            var next := StackOne(w, s.host, names[i], stacks[names[i]], cached);
            StacksAll(w, h, names[..i + 1], stacks, cached) == StackState(next.host, s.calls + next.calls)
  {
    hide StackOne;
    assert names[..i + 1][..i] == names[..i];
  }

  /** Every volume is there as before. */
  ghost predicate VolumesKept(h: Host, h': Host) { forall v :: v in h.volumes ==> v in h'.volumes && h'.volumes[v] == h.volumes[v] }

  lemma {:induction false} KeptSame(h: Host)
    ensures VolumesKept(h, h)
  {
  }

  /** It depends on the volumes only. */
  lemma {:induction false} KeptVolumes(h: Host, h': Host)
    ensures forall g: Host :: g.volumes == h'.volumes ==> (VolumesKept(h, g) <==> VolumesKept(h, h'))
  {
  }

  lemma {:induction false} KeptTrans(a: Host, b: Host, c: Host)
    requires VolumesKept(a, b) && VolumesKept(b, c)
    ensures VolumesKept(a, c)
  {
  }

  lemma {:induction false} UpKeepsVolumes(w: World, h: Host, s: Stack)
    ensures LawfulUp(w.up) ==> VolumesKept(h, w.up(h, s))
  {
    if LawfulUp(w.up) { assert UpPost(h, s, w.up(h, s)); }
  }

  method BringUp(d: Docker, s: Stack) returns (ok: bool, ghost ev: seq<Event>)
    modifies d`host, d`log, d`clean
    ensures d.clean ==> old(d.clean) && ok
    ensures d.log == old(d.log) + ev
    ensures ok ==> d.clean == old(d.clean) && StackState(d.host, ev) == Brought(d.w, old(d.host), s)
    ensures LawfulUp(d.w.up) ==> VolumesKept(old(d.host), d.host)
  {
    hide Relabelled, ListedRunning, RelabelCalls, UpPost, VolumesKept;
    UpKeepsVolumes(d.w, d.host, s);
    KeptSame(d.host);
    ok := d.ComposeUp(s);
    KeptVolumes(old(d.host), d.host);
    ev := [Event(Up(s), ok)];
    if !ok { return; }
    ghost var more;
    ok, more := LabelContainers(d, s.project);
    ev := ev + more;
  }

  /** With this finding a stack is not brought up. */
  predicate Idle(data: StackData) { data.services == [] || !data.needsApply }

  /** The decision taken for one stack: that of the plan, or one that is right unless a hash query went unanswered. */
  ghost predicate Grounded(w: World, h: Host, name: string, s: Stack, cached: Option<map<string, StackData>>, made: StackData) {
    Idle(made) ==> if cached.Some? && name in cached.value then Idle(cached.value[name]) else StackCurrent(w, h, s)
  }

  method ApplyStack(d: Docker, name: string, s: Stack, cached: Option<map<string, StackData>>)
    returns (ok: bool, ghost ev: seq<Event>, ghost made: StackData)
    modifies d`host, d`log, d`clean, d`hashed
    ensures d.clean ==> old(d.clean) && ok
    ensures (d.hashed ==> old(d.hashed)) && (d.clean ==> d.hashed == old(d.hashed))
    ensures d.log == old(d.log) + ev
    ensures ok ==> StackState(d.host, ev) == StackOne(d.w, old(d.host), name, s, Some(map[name := made]))
    ensures ok && d.hashed && d.w.identifier != "" ==> Grounded(d.w, old(d.host), name, s, cached, made)
    ensures d.clean ==> StackState(d.host, ev) == StackOne(d.w, old(d.host), name, s, cached)
    ensures LawfulUp(d.w.up) ==> VolumesKept(old(d.host), d.host)
  {
    hide Brought, Detected, VolumesKept, LawfulUp, StackCurrent;
    KeptSame(d.host);
    ok, ev, made := true, [], StackData([], false);
    var services, needs;
    if cached.Some? && name in cached.value {
      services, needs := cached.value[name].services, cached.value[name].needsApply;
    } else {
      ok, services := DetectAllServicesState(d, s);
      if !ok { return; }
      ok := d.Read(); // inline environment
      if !ok { return; }
      needs := AnyNeedsApply(services);
    }
    made := StackData(services, needs);
    if services == [] || !needs { return; }
    ok, ev := BringUp(d, s);
  }

  /** Every decision was grounded when it was taken. */
  ghost predicate AllGrounded(w: World, h: Host, names: seq<string>, stacks: map<string, Stack>, cached: Option<map<string, StackData>>,
                              made: map<string, StackData>)
    requires forall n :: n in names ==> n in stacks
  {
    forall i :: 0 <= i < |names| ==>
      && names[i] in made
      && Grounded(w, StacksAll(w, h, names[..i], stacks, Some(made)).host, names[i], stacks[names[i]], cached, made[names[i]])
  }

  /** What was decided about these stacks, and where it led. */
  ghost predicate DecidedTo(w: World, h: Host, names: seq<string>, stacks: map<string, Stack>, made: map<string, StackData>, s: StackState)
    requires forall n :: n in names ==> n in stacks
  {
    made.Keys == Elements(names) && s == StacksAll(w, h, names, stacks, Some(made))
  }

  lemma {:induction false} DecidedAlike(w: World, h: Host, names: seq<string>, stacks: map<string, Stack>, m: map<string, StackData>, m': map<string, StackData>)
    requires forall n :: n in names ==> n in stacks && n in m && n in m' && m[n] == m'[n]
    ensures StacksAll(w, h, names, stacks, Some(m)) == StacksAll(w, h, names, stacks, Some(m'))
  {
    hide Brought, Detected;
    if names != [] { DecidedAlike(w, h, names[..|names| - 1], stacks, m, m'); }
  }

  lemma {:induction false} MoreKeys(names: seq<string>, i: nat, made: map<string, StackData>, next: StackData)
    requires i < |names| && NoDup(names) && made.Keys == Elements(names[..i])
    ensures made[names[i] := next].Keys == Elements(names[..i + 1])
    ensures forall n :: n in names[..i] ==> n in made && n != names[i]
  {
    assert Elements(names[..i + 1]) == Elements(names[..i]) + {names[i]};
    forall n | n in names[..i] ensures n in made && n != names[i] { assert n in Elements(names[..i]); }
  }

  /** One more decision. */
  lemma {:induction false} DecidedStep(w: World, h: Host, names: seq<string>, i: nat, stacks: map<string, Stack>, made: map<string, StackData>, s: StackState,
                                       next: StackData, after: StackState)
    requires i < |names| && NoDup(names) && (forall n :: n in names ==> n in stacks) && DecidedTo(w, h, names[..i], stacks, made, s)
    requires after == StackOne(w, s.host, names[i], stacks[names[i]], Some(map[names[i] := next]))
    ensures DecidedTo(w, h, names[..i + 1], stacks, made[names[i] := next], StackState(after.host, s.calls + after.calls))
  {
    hide StacksAll, Brought, Detected, Elements, NoDup;
    MoreKeys(names, i, made, next);
    DecidedAlike(w, h, names[..i], stacks, made, made[names[i] := next]);
    StacksAllSnoc(w, h, names, i, stacks, Some(made[names[i] := next]));
  }

  lemma {:induction false} GroundedStep(w: World, h: Host, names: seq<string>, i: nat, stacks: map<string, Stack>, cached: Option<map<string, StackData>>,
                                        made: map<string, StackData>, s: StackState, next: StackData)
    requires i < |names| && NoDup(names) && (forall n :: n in names ==> n in stacks) && DecidedTo(w, h, names[..i], stacks, made, s)
    requires AllGrounded(w, h, names[..i], stacks, cached, made)
    requires Grounded(w, s.host, names[i], stacks[names[i]], cached, next)
    ensures AllGrounded(w, h, names[..i + 1], stacks, cached, made[names[i] := next])
  {
    hide StacksAll, Grounded, Elements, NoDup;
    var m, front, more := made[names[i] := next], names[..i], names[..i + 1];
    MoreKeys(names, i, made, next);
    forall j | 0 <= j < |more|
      ensures more[j] in m && Grounded(w, StacksAll(w, h, more[..j], stacks, Some(m)).host, more[j], stacks[more[j]], cached, m[more[j]])
    {
      assert more[..j] == front[..j];
      forall n | n in front[..j] ensures n in front {}
      DecidedAlike(w, h, front[..j], stacks, made, m);
      if j < i { assert more[j] == front[j] && front[j] in front; } else { assert front[..j] == front; }
    }
  }

  lemma {:induction false} NothingDecided(w: World, h: Host, names: seq<string>, stacks: map<string, Stack>, cached: Option<map<string, StackData>>)
    ensures DecidedTo(w, h, names[..0], stacks, map[], StackState(h, []))
    ensures AllGrounded(w, h, names[..0], stacks, cached, map[])
  {
  }

  method ApplyStacks(d: Docker, stacks: map<string, Stack>, cached: Option<map<string, StackData>>)
    returns (ok: bool, ghost ev: seq<Event>, ghost made: map<string, StackData>)
    modifies d`host, d`log, d`clean, d`hashed
    ensures d.clean ==> old(d.clean) && ok
    ensures (d.hashed ==> old(d.hashed)) && (d.clean ==> d.hashed == old(d.hashed))
    ensures d.log == old(d.log) + ev
    ensures forall n :: n in SortedKeys(stacks.Keys) ==> n in stacks
    ensures ok ==> DecidedTo(d.w, old(d.host), SortedKeys(stacks.Keys), stacks, made, StackState(d.host, ev))
    ensures ok && d.hashed && d.w.identifier != "" ==> AllGrounded(d.w, old(d.host), SortedKeys(stacks.Keys), stacks, cached, made)
    ensures d.clean ==> StackState(d.host, ev) == StacksAll(d.w, old(d.host), SortedKeys(stacks.Keys), stacks, cached)
    ensures LawfulUp(d.w.up) ==> VolumesKept(old(d.host), d.host)
  {
    hide StackOne, StacksAll, SortedKeys, VolumesKept, LawfulUp, Grounded, AllGrounded, NoDup, DecidedTo, StrictlySorted;
    KeptSame(d.host);
    ok, ev, made := true, [], map[];
    var names := SortKeys(stacks.Keys);
    SortedKeysStrict(stacks.Keys);
    assert forall n :: n in names ==> n in Elements(names);
    ghost var h0 := d.host;
    StacksAllNil(d.w, h0, names, stacks, cached);
    NothingDecided(d.w, h0, names, stacks, cached);
    var i := 0;
    while i < |names| && ok
      invariant 0 <= i <= |names| && d.log == old(d.log) + ev && (d.clean ==> old(d.clean) && ok)
      invariant (d.hashed ==> old(d.hashed)) && (d.clean ==> d.hashed == old(d.hashed))
      invariant d.clean ==> StackState(d.host, ev) == StacksAll(d.w, h0, names[..i], stacks, cached)
      invariant ok ==> DecidedTo(d.w, h0, names[..i], stacks, made, StackState(d.host, ev))
      invariant ok && d.hashed && d.w.identifier != "" ==> AllGrounded(d.w, h0, names[..i], stacks, cached, made)
      invariant LawfulUp(d.w.up) ==> VolumesKept(h0, d.host)
    {
      ghost var more, before, next := [], d.host, StackData([], false);
      StacksAllSnoc(d.w, h0, names, i, stacks, cached);
      ok, more, next := ApplyStack(d, names[i], stacks[names[i]], cached);
      if ok {
        if d.hashed && d.w.identifier != "" { GroundedStep(d.w, h0, names, i, stacks, cached, made, StackState(before, ev), next); }
        DecidedStep(d.w, h0, names, i, stacks, made, StackState(before, ev), next, StackState(d.host, more));
        made := made[names[i] := next];
      }
      if LawfulUp(d.w.up) { KeptTrans(h0, before, d.host); }
      ev := ev + more;
      i := i + 1;
    }
    assert names[..|names|] == names;
  }

  // ----------------------------------------------------------------- restarts

  /** One container per pending service, where one is listed. */
  function RestartNames(items: seq<PsBrief>, pending: set<string>): set<string> {
    set s | s in pending && FirstOf(items, s).Some? :: FirstOf(items, s).value
  }

  function RestartEvents(names: set<string>): set<Event> { set n | n in names :: Event(Restart(n), true) }

  lemma {:induction false} RestartStep(cs: map<string, Container>, a: set<string>, n: string)
    ensures SetRunning(SetRunning(cs, a, true), {n}, true) == SetRunning(cs, a + {n}, true)
  {
  }

  /** The containers found for the pending services were restarted, or, after a failed listing, none. */
  ghost predicate Restarted(w: World, h: Host, h': Host, pending: set<string>) {
    h' == h || h' == h.(containers := SetRunning(h.containers, RestartNames(Listed(w, h), pending), true))
  }

  lemma {:induction false} OtherFirsts(w: World, h: Host, services: set<string>, s: string, n: string)
    requires s !in services && FirstOf(Listed(w, h), s) == Some(n)
    ensures n !in RestartNames(Listed(w, h), services)
  {
    hide Listed, FirstOf;
    FirstSays(w, h, s, n);
    forall t | t in services && FirstOf(Listed(w, h), t) == Some(n) ensures false { FirstSays(w, h, t, n); }
  }

  /** A listing that fails is an empty one: nothing is found, nothing restarted. */
  method RestartPending(d: Docker, pending: set<string>) returns (ok: bool, ghost ev: seq<Event>)
    modifies d`host, d`log, d`clean
    ensures d.clean ==> old(d.clean) && ok
    ensures d.log == old(d.log) + ev
    ensures ok ==> Restarted(d.w, old(d.host), d.host, pending)
    ensures d.clean ==> var names := RestartNames(Listed(d.w, old(d.host)), pending);
                        && d.host == old(d.host).(containers := SetRunning(old(d.host.containers), names, true))
                        && Elements(ev) == RestartEvents(names) && NoDup(ev)
    ensures d.host.volumes == old(d.host.volumes)
  {
    hide Listed, SetRunning;
    ok, ev := true, [];
    ghost var h0 := d.host;
    SetRunningNobody(d.host.containers, true);
    var items := [];
    if pending == {} {
      assert RestartNames(Listed(d.w, h0), pending) == {};
      return;
    }
    var listed;
    listed, items := d.ListComposeContainersAll();
    if !listed { items := []; }
    var left := pending;
    assert pending - left == {} && RestartNames(items, {}) == {};
    while left != {} && ok
      invariant left <= pending && d.log == old(d.log) + ev && (d.clean ==> old(d.clean) && ok && items == Listed(d.w, h0))
      invariant items == Listed(d.w, h0) || items == []
      invariant ok ==> d.host == h0.(containers := SetRunning(h0.containers, RestartNames(items, pending - left), true))
      invariant ok ==> Elements(ev) == RestartEvents(RestartNames(items, pending - left)) && NoDup(ev)
      invariant d.host.volumes == h0.volumes
      decreases left
    {
      var s :| s in left;
      var c := FindFirst(items, s);
      ghost var before := RestartNames(items, pending - left);
      assert pending - (left - {s}) == pending - left + {s};
      assert RestartNames(items, pending - left + {s}) == before + if c.Some? then {c.value} else {};
      if c.Some? {
        RestartStep(h0.containers, before, c.value);
        if items != [] { OtherFirsts(d.w, h0, pending - left, s, c.value); }
        assert c.value !in before && Event(Restart(c.value), true) !in Elements(ev);
        ok := d.RestartContainer(c.value);
        ev := ev + [Event(Restart(c.value), ok)];
        assert ok ==> Elements(ev) == RestartEvents(before) + {Event(Restart(c.value), true)};
        assert RestartEvents(before + {c.value}) == RestartEvents(before) + {Event(Restart(c.value), true)};
      } else {
        assert before + {} == before;
      }
      left := left - {s};
    }
    assert ok ==> pending - left == pending;
    assert RestartNames([], pending) == {};
  }

  // -------------------------------------------------------------- the context

  /** The outcome of an undisturbed apply: the state, what was created, the ordered calls, the restarts. */
  datatype Applied = Applied(host: Host, volumes: set<string>, networks: set<string>, calls: seq<Event>, restarts: set<string>)

  ghost function FilesetCache(exec: Option<ExecutionContext>): Option<map<string, FilesetData>> {
    if exec.Some? then Some(exec.value.filesets) else None
  }

  ghost function StackCache(exec: Option<ExecutionContext>): Option<map<string, StackData>> {
    if exec.Some? then Some(exec.value.stacks) else None
  }

  ghost function KnownNetworks(h: Host, exec: Option<ExecutionContext>): set<string> {
    if exec.Some? then exec.value.networks else LabelledNetworks(h)
  }

  /** The context once volumes and networks exist. */
  ghost function Prepared(h: Host, cfg: Config, exec: Option<ExecutionContext>): Host {
    EnsuredNetworks(EnsuredVolumes(h, DesiredVolumes(cfg)), cfg.networks - KnownNetworks(h, exec))
  }

  ghost function FilesetsSynced(w: World, h: Host, cfg: Config, exec: Option<ExecutionContext>): SyncState {
    SortedKeysIn(cfg.filesets);
    SyncAll(w, Prepared(h, cfg, exec), SortedKeys(cfg.filesets.Keys), cfg.filesets,
            LabelledVolumes(h) + DesiredVolumes(cfg), FilesetCache(exec))
  }

  lemma {:induction false} SortedStacks(stacks: map<string, Stack>)
    ensures forall n :: n in SortedKeys(stacks.Keys) ==> n in stacks
  {
    assert forall n :: n in SortedKeys(stacks.Keys) ==> n in Elements(SortedKeys(stacks.Keys));
  }

  ghost function StacksApplied(w: World, h: Host, cfg: Config, exec: Option<ExecutionContext>): StackState {
    SortedStacks(cfg.stacks);
    StacksAll(w, FilesetsSynced(w, h, cfg, exec).host, SortedKeys(cfg.stacks.Keys), cfg.stacks, StackCache(exec))
  }

  ghost function Apply(w: World, h: Host, cfg: Config, exec: Option<ExecutionContext>): Applied {
    var synced := FilesetsSynced(w, h, cfg, exec);
    var applied := StacksApplied(w, h, cfg, exec);
    var names := RestartNames(Listed(w, applied.host), synced.pending);
    Applied(applied.host.(containers := SetRunning(applied.host.containers, names, true)),
            DesiredVolumes(cfg) - LabelledVolumes(h), cfg.networks - KnownNetworks(h, exec),
            synced.calls + applied.calls, names)
  }

  /** The log of an undisturbed apply; volumes, networks and restarts in any order. */
  ghost predicate Performed(ev: seq<Event>, a: Applied) {
    exists vs, ns, rs ::
      && ev == vs + ns + a.calls + rs
      && Elements(vs) == VolumeEvents(a.volumes) && Elements(ns) == NetworkEvents(a.networks) && Elements(rs) == RestartEvents(a.restarts)
      && NoDup(vs) && NoDup(ns) && NoDup(rs)
  }

  lemma {:induction false} LabelledAfterEnsure(h: Host, desired: set<string>)
    ensures LabelledNetworks(EnsuredVolumes(h, desired)) == LabelledNetworks(h) && EnsuredVolumes(h, desired).networks == h.networks
  {
  }

  /** Creates missing volumes and networks. */
  method Prepare(d: Docker, cfg: Config, exec: Option<ExecutionContext>)
    returns (ok: bool, existing: set<string>, ghost vs: seq<Event>, ghost ns: seq<Event>)
    modifies d`host, d`log, d`clean
    ensures d.clean ==> old(d.clean) && ok
    ensures d.log == old(d.log) + vs + ns
    ensures ok ==> && d.clean == old(d.clean)
                   && d.host == Prepared(old(d.host), cfg, exec)
                   && existing == LabelledVolumes(old(d.host)) + DesiredVolumes(cfg)
                   && Elements(vs) == VolumeEvents(DesiredVolumes(cfg) - LabelledVolumes(old(d.host)))
                   && Elements(ns) == NetworkEvents(cfg.networks - KnownNetworks(old(d.host), exec))
                   && NoDup(vs) && NoDup(ns)
                   && (cfg.networks - KnownNetworks(old(d.host), exec)) !! old(d.host.networks.Keys)
    ensures Grown(old(d.host), d.host, DesiredVolumes(cfg))
  {
    hide DesiredVolumes, VolumeEvents, NetworkEvents, NoDup, EnsuredVolumes, EnsuredNetworks, Elements;
    ghost var h0 := d.host;
    ns := [];
    ok, existing, vs := EnsureVolumes(d, cfg);
    if !ok { return; }
    LabelledAfterEnsure(h0, DesiredVolumes(cfg));
    var networks;
    ok, networks := ExistingNetworks(d, exec);
    if !ok { return; }
    ok, ns := EnsureNetworks(d, cfg.networks, networks);
  }

  /** No label of an existing volume changes, and a desired volume that is new has the label. */
  ghost predicate LabelsKept(h: Host, h': Host, desired: set<string>) {
    && (forall v :: v in h.volumes ==> v in h'.volumes && h'.volumes[v].labelled == h.volumes[v].labelled)
    && (forall v :: v in desired && v in h'.volumes && v !in h.volumes ==> h'.volumes[v].labelled)
  }

  /** The volume as an apply finds it, or makes it. */
  ghost function Found(h: Host, v: string): Volume { if v in h.volumes then h.volumes[v] else NewVolume }

  /** Each fileset's volume, found or made, is as one attempt may leave it, and none that was there is gone. */
  ghost predicate Attempted(h: Host, h': Host, filesets: map<string, Fileset>, planned: bool) {
    forall n :: n in filesets ==>
      && (filesets[n].volume in h.volumes ==> filesets[n].volume in h'.volumes)
      && (filesets[n].volume in h'.volumes ==>
            FailedAttempt(Found(h, filesets[n].volume), h'.volumes[filesets[n].volume], filesets[n].source, filesets[n].local, planned))
  }

  /** The findings, if any, are those of a plan made in this state. */
  ghost predicate PlannedHere(w: World, h: Host, cfg: Config, exec: Option<ExecutionContext>) {
    exec.Some? ==> exec.value == ExecOf(w, h, cfg)
  }

  /** Distinct volumes, and what a plan made in this state found out about filesets, or nothing. */
  ghost predicate Retryable(h: Host, cfg: Config, exec: Option<ExecutionContext>) {
    DistinctVolumes(cfg.filesets) && (exec.Some? ==> exec.value.filesets == FilesetsExec(h, cfg) && Plannable(h, cfg))
  }

  /** What holds after an apply however it ended. */
  ghost predicate Survives(w: World, h: Host, h': Host, cfg: Config, exec: Option<ExecutionContext>) {
    LawfulUp(w.up) ==>
      && LabelsKept(h, h', DesiredVolumes(cfg))
      && (Retryable(h, cfg, exec) ==> Attempted(h, h', cfg.filesets, exec.Some?))
  }

  lemma {:induction false} GrownSurvives(w: World, h: Host, h2: Host, cfg: Config, exec: Option<ExecutionContext>)
    requires Grown(h, h2, DesiredVolumes(cfg))
    ensures Survives(w, h, h2, cfg, exec)
  {
    hide DesiredVolumes, LawfulUp, Retryable;
  }

  /** A plan's findings still fit once missing volumes exist. */
  lemma {:induction false} PlanFits(h: Host, cfg: Config, exec: Option<ExecutionContext>)
    requires exec.Some? ==> exec.value.filesets == FilesetsExec(h, cfg) && Plannable(h, cfg)
    ensures AllFit(Prepared(h, cfg, exec), cfg.filesets, FilesetCache(exec))
  {
    if exec.Some? {
      forall n | n in cfg.filesets ensures Fits(Prepared(h, cfg, exec), n, cfg.filesets[n], FilesetCache(exec)) {
        assert cfg.filesets[n].volume in DesiredVolumes(cfg);
      }
    }
  }

  lemma {:induction false} SyncSurvives(w: World, h: Host, h2: Host, h3: Host, cfg: Config, exec: Option<ExecutionContext>)
    requires Grown(h, h2, DesiredVolumes(cfg)) && OnlyFilesets(h2, h3, cfg.filesets) && DesiredVolumes(cfg) <= h2.volumes.Keys
    requires KeysIn(SortedKeys(cfg.filesets.Keys), cfg.filesets)
    requires Retryable(h, cfg, exec) ==> EachAttempted(h2, h3, SortedKeys(cfg.filesets.Keys), cfg.filesets, exec.Some?)
    ensures Survives(w, h, h3, cfg, exec) && DesiredVolumes(cfg) <= h3.volumes.Keys
  {
    hide DesiredVolumes, FailedAttempt, SortedKeys, LawfulUp, Retryable;
    if Retryable(h, cfg, exec) {
      forall n | n in cfg.filesets
        ensures var v := cfg.filesets[n].volume;
                v in h3.volumes && FailedAttempt(Found(h, v), h3.volumes[v], cfg.filesets[n].source, cfg.filesets[n].local, exec.Some?)
      {
        assert n in Elements(SortedKeys(cfg.filesets.Keys));
        FilesetDesired(cfg, n);
      }
    }
  }

  lemma {:induction false} FilesetDesired(cfg: Config, n: string)
    requires n in cfg.filesets
    ensures cfg.filesets[n].volume in DesiredVolumes(cfg)
  {
  }

  lemma {:induction false} UpSurvives(w: World, h: Host, h3: Host, h4: Host, cfg: Config, exec: Option<ExecutionContext>)
    requires Survives(w, h, h3, cfg, exec) && (LawfulUp(w.up) ==> VolumesKept(h3, h4)) && DesiredVolumes(cfg) <= h3.volumes.Keys
    ensures forall a: Host :: a.volumes == h4.volumes ==> Survives(w, h, a, cfg, exec)
  {
    hide DesiredVolumes, FailedAttempt, LawfulUp, Retryable;
    forall n | n in cfg.filesets ensures cfg.filesets[n].volume in DesiredVolumes(cfg) { FilesetDesired(cfg, n); }
  }

  lemma {:induction false} TornBefore(h: Host, cfg: Config, exec: Option<ExecutionContext>)
    requires NoneTorn(Prepared(h, cfg, exec), cfg.filesets)
    ensures NoneTorn(h, cfg.filesets)
  {
    forall n | n in cfg.filesets ensures cfg.filesets[n].volume in DesiredVolumes(cfg) {}
  }

  /** Where the stacks of a context are after an apply that decided for each whether to bring it up. */
  ghost function Decided(w: World, h: Host, stacks: map<string, Stack>, made: map<string, StackData>): StackState {
    SortedStacks(stacks);
    StacksAll(w, h, SortedKeys(stacks.Keys), stacks, Some(made))
  }

  /** The decisions were grounded in the states they were taken in. */
  ghost predicate WellDecided(w: World, h: Host, stacks: map<string, Stack>, cached: Option<map<string, StackData>>, made: map<string, StackData>) {
    SortedStacks(stacks);
    made.Keys == stacks.Keys && AllGrounded(w, h, SortedKeys(stacks.Keys), stacks, cached, made)
  }

  /**
   What an apply that reports success has done, whichever queries failed: volumes, networks and
   filesets are as specified, stacks were brought up by decision, and restarts made or skipped.
   */
  ghost predicate Succeeded(w: World, h: Host, cfg: Config, exec: Option<ExecutionContext>, made: map<string, StackData>, a: Host) {
    var synced := FilesetsSynced(w, h, cfg, exec);
    && (cfg.networks - KnownNetworks(h, exec)) !! h.networks.Keys
    && Restarted(w, Decided(w, synced.host, cfg.stacks, made).host, a, synced.pending)
  }

  lemma {:induction false} SucceededIs(w: World, h: Host, cfg: Config, exec: Option<ExecutionContext>, synced: SyncState, h4: Host, made: map<string, StackData>, a: Host)
    requires KeysIn(SortedKeys(cfg.filesets.Keys), cfg.filesets) && (cfg.networks - KnownNetworks(h, exec)) !! h.networks.Keys
    requires synced == SyncAll(w, Prepared(h, cfg, exec), SortedKeys(cfg.filesets.Keys), cfg.filesets,
                               LabelledVolumes(h) + DesiredVolumes(cfg), FilesetCache(exec))
    requires h4 == Decided(w, synced.host, cfg.stacks, made).host && Restarted(w, h4, a, synced.pending)
    ensures Succeeded(w, h, cfg, exec, made, a) && FilesetsSynced(w, h, cfg, exec) == synced
  {
    hide SyncAll, SortedKeys, DesiredVolumes, Prepared, Restarted, Decided;
  }

  /**
   However it ends, an apply changes no label, and leaves every fileset's volume as one attempt
   may; undisturbed, it reaches the specified state by the specified calls.
   */
  method ApplyContext(d: Docker, cfg: Config, exec: Option<ExecutionContext>) returns (ok: bool, ghost ev: seq<Event>, ghost made: map<string, StackData>)
    requires exec.Some? ==> ExecSound(cfg, exec.value)
    modifies d`host, d`log, d`clean, d`hashed
    ensures d.log == old(d.log) + ev
    ensures (d.hashed ==> old(d.hashed)) && (d.clean ==> d.hashed == old(d.hashed))
    ensures ok ==> Succeeded(d.w, old(d.host), cfg, exec, made, d.host)
    ensures ok && d.hashed && d.w.identifier != "" ==>
              WellDecided(d.w, FilesetsSynced(d.w, old(d.host), cfg, exec).host, cfg.stacks, StackCache(exec), made)
    ensures ok && d.clean ==> && old(d.clean)
                              && d.host == Apply(d.w, old(d.host), cfg, exec).host
                              && Performed(ev, Apply(d.w, old(d.host), cfg, exec))
                              && (cfg.networks - KnownNetworks(old(d.host), exec)) !! old(d.host.networks.Keys)
    ensures ok && exec.None? ==> NoneTorn(old(d.host), cfg.filesets)
    ensures d.clean ==> old(d.clean) && (NoneTorn(old(d.host), cfg.filesets) || (exec.Some? && cfg.filesets.Keys <= exec.value.filesets.Keys) ==> ok)
    ensures Survives(d.w, old(d.host), d.host, cfg, exec)
  {
    hide DesiredVolumes, DataNames, OnlyFilesets, EachAttempted, KnownNetworks, Apply, Performed, VolumeEvents, NetworkEvents, RestartEvents, Prepared,
         LabelledVolumes, Elements, Grown, Survives, Retryable, AllFit, NoneTorn, FilesetCache, KeysIn, SortedKeys, SyncAll, DistinctVolumes,
         StacksAll, Listed, RestartNames, SetRunning, LawfulUp, VolumesKept, StackCache, ValidCache, Succeeded, WellDecided, Decided, Restarted,
         FilesetsSynced, Brackets, ExecSound, NoDup, AllReadable;
    ghost var h0 := d.host;
    made := map[];
    var existing;
    ghost var vs, ns, fs, ss, rs, h4;
    ok, existing, vs, ns := Prepare(d, cfg, exec);
    ev := vs + ns;
    assert d.log == old(d.log) + ev;
    GrownSurvives(d.w, h0, d.host, cfg, exec);
    if !ok { return; }
    VolumesReady(h0, cfg, exec);
    SoundCache(cfg, exec);
    ghost var h2 := d.host;
    var r, pending;
    ghost var parts;
    r, pending, fs, parts := SyncFilesets(d, cfg.filesets, existing, if exec.Some? then Some(exec.value.filesets) else None);
    ev := ev + fs;
    assert d.log == old(d.log) + ev;
    PreparedReadable(h0, cfg, exec);
    if Retryable(h0, cfg, exec) { RetryableFits(h0, cfg, exec); }
    DesiredReady(h0, cfg, exec);
    SyncSurvives(d.w, h0, h2, d.host, cfg, exec);
    if r.Failed? { return false, ev, map[]; }
    if exec.None? { TornBefore(h0, cfg, exec); }
    ghost var h3 := d.host;
    ok, ss, rs, h4, made := BringUpAll(d, cfg, exec, pending);
    ghost var ev1 := ev;
    ev := ev + ss + rs;
    assert d.log == old(d.log) + ev1 + ss + rs == old(d.log) + ev;
    UpSurvives(d.w, h0, h3, d.host, cfg, exec);
    CacheIs(exec);
    if ok { SucceededIs(d.w, h0, cfg, exec, SyncState(h3, pending, fs), h4, made, d.host); }
    if ok && d.clean {
      ApplyIs(d.w, h0, cfg, exec, SyncState(h3, pending, fs), StackState(h4, ss), d.host);
      PerformedIs(ev, Apply(d.w, h0, cfg, exec), vs, ns, rs);
    }
  }

  lemma {:induction false} PreparedReadable(h: Host, cfg: Config, exec: Option<ExecutionContext>)
    ensures NoneTorn(h, cfg.filesets) || (exec.Some? && cfg.filesets.Keys <= exec.value.filesets.Keys) ==>
              AllReadable(Prepared(h, cfg, exec), cfg.filesets, if exec.Some? then Some(exec.value.filesets) else None)
  {
    hide DesiredVolumes;
  }

  /** Stacks, then restarts; volumes that are there stay as they are. */
  method BringUpAll(d: Docker, cfg: Config, exec: Option<ExecutionContext>, pending: set<string>)
    returns (ok: bool, ghost ss: seq<Event>, ghost rs: seq<Event>, ghost h4: Host, ghost made: map<string, StackData>)
    modifies d`host, d`log, d`clean, d`hashed
    ensures d.log == old(d.log) + ss + rs
    ensures (d.hashed ==> old(d.hashed)) && (d.clean ==> d.hashed == old(d.hashed))
    ensures d.clean ==> old(d.clean) && ok
    ensures ok ==> h4 == Decided(d.w, old(d.host), cfg.stacks, made).host && Restarted(d.w, h4, d.host, pending)
    ensures ok && d.hashed && d.w.identifier != "" ==> WellDecided(d.w, old(d.host), cfg.stacks, StackCache(exec), made)
    ensures forall n :: n in SortedKeys(cfg.stacks.Keys) ==> n in cfg.stacks
    ensures ok && d.clean ==> && old(d.clean)
                              && StackState(h4, ss) == StacksAll(d.w, old(d.host), SortedKeys(cfg.stacks.Keys), cfg.stacks, StackCache(exec))
                              && var names := RestartNames(Listed(d.w, h4), pending);
                                 d.host == h4.(containers := SetRunning(h4.containers, names, true)) && Elements(rs) == RestartEvents(names) && NoDup(rs)
    ensures LawfulUp(d.w.up) ==> VolumesKept(old(d.host), d.host)
  {
    hide StacksAll, SortedKeys, Listed, SetRunning, RestartNames, RestartEvents, Elements, LawfulUp, VolumesKept, AllGrounded, Restarted, NoDup;
    rs := [];
    ok, ss, made := ApplyStacks(d, cfg.stacks, if exec.Some? then Some(exec.value.stacks) else None);
    h4 := d.host;
    if !ok { return; }
    ok, rs := RestartPending(d, pending);
    KeptVolumes(old(d.host), h4);
  }

  lemma {:induction false} RetryableFits(h: Host, cfg: Config, exec: Option<ExecutionContext>)
    requires Retryable(h, cfg, exec)
    ensures DistinctVolumes(cfg.filesets)
    ensures AllFit(Prepared(h, cfg, exec), cfg.filesets, if exec.Some? then Some(exec.value.filesets) else None)
  {
    hide Prepared, AllFit, FilesetsExec, Plannable;
    PlanFits(h, cfg, exec);
  }

  lemma {:induction false} SoundCache(cfg: Config, exec: Option<ExecutionContext>)
    requires exec.Some? ==> ExecSound(cfg, exec.value)
    ensures ValidCache(if exec.Some? then Some(exec.value.filesets) else None)
  {
  }

  lemma {:induction false} CacheIs(exec: Option<ExecutionContext>)
    ensures FilesetCache(exec) == if exec.Some? then Some(exec.value.filesets) else None
  {
  }

  lemma {:induction false} DesiredReady(h: Host, cfg: Config, exec: Option<ExecutionContext>)
    ensures DesiredVolumes(cfg) <= Prepared(h, cfg, exec).volumes.Keys
  {
    hide DesiredVolumes;
  }

  /** The networks known before any is created. */
  method ExistingNetworks(d: Docker, exec: Option<ExecutionContext>) returns (ok: bool, networks: set<string>)
    modifies d`clean
    ensures d.clean ==> old(d.clean) && ok
    ensures ok ==> d.clean == old(d.clean) && networks == KnownNetworks(d.host, exec)
  {
    if exec.Some? { return true, exec.value.networks; }
    var nets;
    ok, nets := d.ListNetworks();
    networks := Elements(nets);
  }

  lemma {:induction false} ApplyIs(w: World, h: Host, cfg: Config, exec: Option<ExecutionContext>, synced: SyncState, applied: StackState, h': Host)
    requires KeysIn(SortedKeys(cfg.filesets.Keys), cfg.filesets) && (forall n :: n in SortedKeys(cfg.stacks.Keys) ==> n in cfg.stacks)
    requires synced == SyncAll(w, Prepared(h, cfg, exec), SortedKeys(cfg.filesets.Keys), cfg.filesets,
                               LabelledVolumes(h) + DesiredVolumes(cfg), FilesetCache(exec))
    requires applied == StacksAll(w, synced.host, SortedKeys(cfg.stacks.Keys), cfg.stacks, StackCache(exec))
    requires h' == applied.host.(containers := SetRunning(applied.host.containers, RestartNames(Listed(w, applied.host), synced.pending), true))
    ensures Apply(w, h, cfg, exec) ==
            Applied(h', DesiredVolumes(cfg) - LabelledVolumes(h), cfg.networks - KnownNetworks(h, exec), synced.calls + applied.calls,
                    RestartNames(Listed(w, applied.host), synced.pending))
  {
    hide SyncAll, StacksAll, SortedKeys, Listed, SetRunning, DesiredVolumes, RestartNames, Prepared;
  }

  lemma {:induction false} PerformedIs(ev: seq<Event>, a: Applied, vs: seq<Event>, ns: seq<Event>, rs: seq<Event>)
    requires ev == vs + ns + a.calls + rs
    requires Elements(vs) == VolumeEvents(a.volumes) && Elements(ns) == NetworkEvents(a.networks) && Elements(rs) == RestartEvents(a.restarts)
    requires NoDup(vs) && NoDup(ns) && NoDup(rs)
    ensures Performed(ev, a)
  {
  }

  lemma {:induction false} VolumesReady(h: Host, cfg: Config, exec: Option<ExecutionContext>)
    ensures forall n :: n in cfg.filesets ==> cfg.filesets[n].volume in Prepared(h, cfg, exec).volumes
    ensures forall n :: n in cfg.filesets ==> cfg.filesets[n].volume in DesiredVolumes(cfg)
  {
  }
}
