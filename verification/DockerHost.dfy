/**
 One Docker context: the state that Dockform reads and changes, and the client calls on it
 (internal/planner/interfaces.go). Every call may fail. A failed change may have happened
 in part; what that means is said call by call.
 */
module DockerHost {
  import opened Text
  import opened FilesetIndex
  import opened VolumeTree

  /** `owned`: carries a compose project label. */
  datatype Network = Network(labelled: bool, owned: bool)

  datatype Container = Container(project: string, service: string, running: bool, hash: string, ident: string,
                                 mounts: set<string>)

  /** `labelled` and `ident` refer to the label `io.dockform.identifier`. */
  datatype Host = Host(volumes: map<string, Volume>, networks: map<string, Network>, containers: map<string, Container>)

  /** A compose stack: its project and the configuration hash of each planned service. */
  datatype Stack = Stack(project: string, services: map<string, string>)

  /** What lies outside Dockform: the project identifier, SHA-256 and `docker compose up`. */
  datatype World = World(identifier: string, h: string -> string, up: (Host, Stack) -> Host)

  datatype PsBrief = PsBrief(project: string, service: string, name: string)

  datatype Call =
    | CreateVolume(name: string) | RemoveVolume(name: string)
    | CreateNetwork(name: string) | RemoveNetwork(name: string)
    | RemoveContainer(name: string)
    | Extract(volume: string, tar: Files) | RemovePaths(volume: string, paths: seq<string>)
    | WriteIndex(volume: string, index: Index) | SetOwnership(volume: string)
    | Stop(names: seq<string>) | Start(names: seq<string>) | Restart(name: string)
    | Up(stack: Stack) | Relabel(name: string)

  datatype Event = Event(call: Call, ok: bool)

  // ------------------------------------------------------------ what is listed

  function LabelledVolumes(h: Host): set<string> { set v | v in h.volumes && h.volumes[v].labelled }

  function LabelledNetworks(h: Host): set<string> { set n | n in h.networks && h.networks[n].labelled }

  function ComposeNetworks(h: Host): set<string> {
    set n | n in h.networks && h.networks[n].labelled && h.networks[n].owned
  }

  /** The containers `ListComposeContainersAll` reports. */
  function Managed(w: World, h: Host): set<string> {
    set n | n in h.containers && h.containers[n].ident == w.identifier &&
            h.containers[n].project != "" && h.containers[n].service != ""
  }

  /** A container with the identifier, a project and a service. */
  predicate Ours(w: World, h: Host, n: string) {
    n in h.containers && h.containers[n].ident == w.identifier && h.containers[n].project != "" && h.containers[n].service != ""
  }

  lemma {:induction false} ManagedAreOurs(w: World, h: Host, n: string)
    ensures n in Managed(w, h) <==> Ours(w, h, n)
  {
  }

  /** The containers `docker compose ps` reports for a project. */
  function RunningIn(h: Host, project: string): set<string> {
    set n | n in h.containers && h.containers[n].project == project && h.containers[n].running
  }

  function Brief(h: Host, n: string): PsBrief
    requires n in h.containers
  {
    PsBrief(h.containers[n].project, h.containers[n].service, n)
  }

  /** Listings come in name order. */
  function Briefs(h: Host, names: seq<string>): (r: seq<PsBrief>)
    requires forall n :: n in names ==> n in h.containers
    ensures |r| == |names| && forall i :: 0 <= i < |r| ==> r[i] == Brief(h, names[i])
  {
    if names == [] then [] else [Brief(h, names[0])] + Briefs(h, names[1..])
  }

  ghost function Listed(w: World, h: Host): seq<PsBrief> {
    var names := SortedKeys(Managed(w, h));
    assert forall n :: n in names ==> n in Elements(names);
    Briefs(h, names)
  }

  ghost function ListedRunning(h: Host, project: string): seq<PsBrief> {
    var names := SortedKeys(RunningIn(h, project));
    assert forall n :: n in names ==> n in Elements(names);
    Briefs(h, names)
  }

  lemma {:induction false} ListedMembers(w: World, h: Host, b: PsBrief)
    ensures b in Listed(w, h) <==> b.name in Managed(w, h) && b == Brief(h, b.name)
  {
    var names := SortedKeys(Managed(w, h));
    if b.name in Managed(w, h) && b == Brief(h, b.name) {
      assert b.name in Elements(names);
      var i :| 0 <= i < |names| && names[i] == b.name;
      assert Listed(w, h)[i] == b;
    }
    if b in Listed(w, h) {
      var i :| 0 <= i < |names| && Listed(w, h)[i] == b;
      assert names[i] in Elements(names);
    }
  }

  lemma {:induction false} RunningMembers(h: Host, project: string, b: PsBrief)
    ensures b in ListedRunning(h, project) <==> b.name in RunningIn(h, project) && b == Brief(h, b.name)
  {
    var names := SortedKeys(RunningIn(h, project));
    if b.name in RunningIn(h, project) && b == Brief(h, b.name) {
      assert b.name in Elements(names);
      var i :| 0 <= i < |names| && names[i] == b.name;
      assert ListedRunning(h, project)[i] == b;
    }
    if b in ListedRunning(h, project) {
      var i :| 0 <= i < |names| && ListedRunning(h, project)[i] == b;
      assert names[i] in Elements(names);
    }
  }

  function SetRunning(cs: map<string, Container>, names: set<string>, on: bool): map<string, Container> {
    map n | n in cs :: if n in names then cs[n].(running := on) else cs[n]
  }

  /** Exactly the named containers are switched, and nothing else about any container changes. */
  lemma {:induction false} SetRunningSays(cs: map<string, Container>, names: set<string>, on: bool)
    ensures SetRunning(cs, names, on).Keys == cs.Keys
    ensures forall n :: n in cs ==> SetRunning(cs, names, on)[n].running == (if n in names then on else cs[n].running)
    ensures forall n :: n in cs ==> SetRunning(cs, names, on)[n].(running := cs[n].running) == cs[n]
  {
  }

  function WithVolume(h: Host, v: string, vol: Volume): Host { h.(volumes := h.volumes[v := vol]) }

  lemma {:induction false} WithVolumeTwice(h: Host, v: string, a: Volume, b: Volume)
    ensures WithVolume(WithVolume(h, v, a), v, b) == WithVolume(h, v, b)
  {
    assert h.volumes[v := a][v := b] == h.volumes[v := b];
  }

  lemma {:induction false} WithVolumeSame(h: Host, v: string)
    requires v in h.volumes
    ensures WithVolume(h, v, h.volumes[v]) == h
  {
    assert h.volumes[v := h.volumes[v]] == h.volumes;
  }

  // -------------------------------------------------------------- compose up

  /**
   What `docker compose up -d` is assumed to do with a stack. Existing volumes and networks
   stay; new networks are compose-owned and new volumes carry no identifier. Containers of
   other projects, and containers of services the stack does not plan, stay as they are.
   Every planned service runs, and only with its current configuration. The identifier
   label may or may not be on the new containers.
   */
  ghost predicate UpPost(h: Host, s: Stack, h': Host) {
    && (forall v :: v in h.volumes ==> v in h'.volumes && h'.volumes[v] == h.volumes[v])
    && (forall v :: v in h'.volumes && v !in h.volumes ==> !h'.volumes[v].labelled)
    && (forall n :: n in h.networks ==> n in h'.networks && h'.networks[n] == h.networks[n])
    && (forall n :: n in h'.networks && n !in h.networks ==> h'.networks[n].owned)
    && (forall n :: n in h.containers && !PlannedBy(s, h.containers[n]) ==>
          n in h'.containers && h'.containers[n] == h.containers[n])
    && (forall n :: n in h'.containers && !PlannedBy(s, h'.containers[n]) ==>
          n in h.containers && h.containers[n] == h'.containers[n])
    && (forall svc :: svc in s.services ==> exists n :: n in RunningIn(h', s.project) && h'.containers[n].service == svc)
    && (forall n :: n in RunningIn(h', s.project) && PlannedBy(s, h'.containers[n]) ==>
          h'.containers[n].hash == s.services[h'.containers[n].service])
  }

  predicate PlannedBy(s: Stack, c: Container) { c.project == s.project && c.service in s.services }

  ghost predicate LawfulUp(up: (Host, Stack) -> Host) { forall h, s :: UpPost(h, s, up(h, s)) }

  ghost predicate Lawful(w: World) {
    w.identifier != "" && Digests(w.h) && LawfulUp(w.up)
  }

  // ------------------------------------------------------------------- client

  class Docker {
    const w: World
    var host: Host
    /** The changes asked for, in order, and whether each succeeded. */
    ghost var log: seq<Event>
    /** No call has failed so far. */
    ghost var clean: bool
    /** No query for the configuration hash of a running service has gone unanswered so far. */
    ghost var hashed: bool

    constructor (w: World, host: Host)
      ensures this.w == w && this.host == host && log == [] && clean && hashed
    {
      this.w, this.host, log, clean, hashed := w, host, [], true, true;
    }

    method Read() returns (ok: bool)
      modifies this`clean
      ensures clean == (old(clean) && ok)
    {
      ok := *;
      clean := clean && ok;
    }

    ghost method Record(call: Call, ok: bool)
      modifies this`log, this`clean
      ensures log == old(log) + [Event(call, ok)] && clean == (old(clean) && ok)
    {
      log, clean := log + [Event(call, ok)], clean && ok;
    }

    method ListVolumes() returns (ok: bool, names: seq<string>)
      modifies this`clean
      ensures clean == (old(clean) && ok)
      ensures ok ==> names == SortedKeys(LabelledVolumes(host))
    {
      ok := Read();
      names := SortKeys(LabelledVolumes(host));
    }

    method ListNetworks() returns (ok: bool, names: seq<string>)
      modifies this`clean
      ensures clean == (old(clean) && ok)
      ensures ok ==> names == SortedKeys(LabelledNetworks(host))
    {
      ok := Read();
      names := SortKeys(LabelledNetworks(host));
    }

    method ListComposeNetworks() returns (ok: bool, names: seq<string>)
      modifies this`clean
      ensures clean == (old(clean) && ok)
      ensures ok ==> names == SortedKeys(ComposeNetworks(host))
    {
      ok := Read();
      names := SortKeys(ComposeNetworks(host));
    }

    method ListComposeContainersAll() returns (ok: bool, items: seq<PsBrief>)
      modifies this`clean
      ensures clean == (old(clean) && ok)
      ensures ok ==> items == Listed(w, host)
    {
      ok := Read();
      var names := SortKeys(Managed(w, host));
      assert forall n :: n in names ==> n in Elements(names);
      items := Briefs(host, names);
    }

    method ComposePs(project: string) returns (ok: bool, items: seq<PsBrief>)
      modifies this`clean
      ensures clean == (old(clean) && ok)
      ensures ok ==> items == ListedRunning(host, project)
    {
      ok := Read();
      var names := SortKeys(RunningIn(host, project));
      assert forall n :: n in names ==> n in Elements(names);
      items := Briefs(host, names);
    }

    method ListContainersUsingVolume(v: string) returns (ok: bool, names: set<string>)
      modifies this`clean
      ensures clean == (old(clean) && ok)
      ensures ok ==> names == set n | n in host.containers && v in host.containers[n].mounts
    {
      ok := Read();
      names := set n | n in host.containers && v in host.containers[n].mounts;
    }

    /** The stored index of a volume, absent where the volume does not exist. */
    method ReadIndex(v: string) returns (ok: bool, s: Stored)
      modifies this`clean
      ensures clean == (old(clean) && ok)
      ensures ok ==> s == if v in host.volumes then host.volumes[v].stored else Absent
    {
      ok := Read();
      s := if v in host.volumes then host.volumes[v].stored else Absent;
    }

    /** Creating a volume that exists succeeds and changes nothing, not even its labels. A failed call may have created it. */
    method DoCreateVolume(v: string) returns (ok: bool)
      modifies this`host, this`log, this`clean
      ensures log == old(log) + [Event(CreateVolume(v), ok)] && clean == (old(clean) && ok)
      ensures (!ok && host == old(host)) ||
              host == if v in old(host.volumes) then old(host)
                      else old(host).(volumes := old(host.volumes)[v := Volume(true, map[], Absent)])
    {
      var made: bool := *;
      ok := *;
      Record(CreateVolume(v), ok);
      if (ok || made) && v !in host.volumes { host := host.(volumes := host.volumes[v := Volume(true, map[], Absent)]); }
    }

    method DoRemoveVolume(v: string) returns (ok: bool)
      modifies this`host, this`log, this`clean
      ensures log == old(log) + [Event(RemoveVolume(v), ok)] && clean == (old(clean) && ok)
      ensures host == old(host).(volumes := old(host.volumes) - {v}) || (!ok && host == old(host))
    {
      var gone: bool := *;
      ok := *;
      Record(RemoveVolume(v), ok);
      if ok || gone { host := host.(volumes := host.volumes - {v}); }
    }

    /** Creating a network that exists fails; otherwise a failed call may have created it. */
    method DoCreateNetwork(n: string) returns (ok: bool)
      modifies this`host, this`log, this`clean
      ensures log == old(log) + [Event(CreateNetwork(n), ok)] && clean == (old(clean) && ok)
      ensures (!ok && host == old(host)) ||
              (n !in old(host.networks) && host == old(host).(networks := old(host.networks)[n := Network(true, false)]))
    {
      var made: bool := *;
      ok := *;
      ok := ok && n !in host.networks;
      Record(CreateNetwork(n), ok);
      if n !in host.networks && (ok || made) { host := host.(networks := host.networks[n := Network(true, false)]); }
    }

    method DoRemoveNetwork(n: string) returns (ok: bool)
      modifies this`host, this`log, this`clean
      ensures log == old(log) + [Event(RemoveNetwork(n), ok)] && clean == (old(clean) && ok)
      ensures host == old(host).(networks := old(host.networks) - {n}) || (!ok && host == old(host))
    {
      var gone: bool := *;
      ok := *;
      Record(RemoveNetwork(n), ok);
      if ok || gone { host := host.(networks := host.networks - {n}); }
    }

    method DoRemoveContainer(n: string) returns (ok: bool)
      modifies this`host, this`log, this`clean
      ensures log == old(log) + [Event(RemoveContainer(n), ok)] && clean == (old(clean) && ok)
      ensures host == old(host).(containers := old(host.containers) - {n}) || (!ok && host == old(host))
    {
      var gone: bool := *;
      ok := *;
      Record(RemoveContainer(n), ok);
      if ok || gone { host := host.(containers := host.containers - {n}); }
    }

    /**
     A failed extraction may have written, mangled or removed any path it touches. An archive with a
     file of the index file's name, or below it, changes the index file; what it then holds is not said.
     */
    method DoExtract(v: string, tar: Files) returns (ok: bool)
      requires v in host.volumes
      modifies this`host, this`log, this`clean
      ensures log == old(log) + [Event(Extract(v, tar), ok)] && clean == (old(clean) && ok)
      ensures v in host.volumes && host == WithVolume(old(host), v, host.volumes[v]) && host.volumes[v].labelled == old(host.volumes[v]).labelled
      ensures ok ==> host.volumes[v].files == Extracted(old(host.volumes[v].files), tar)
      ensures !ok ==> Partial(old(host.volumes[v].files), host.volumes[v].files, Change(tar, {}))
      ensures !TouchesIndex(Change(tar, {})) ==> host.volumes[v].stored == old(host.volumes[v]).stored
    {
      var junk: Files := *;
      var other: Stored := *;
      ok := *;
      Record(Extract(v, tar), ok);
      var vol := host.volumes[v];
      host := WithVolume(host, v, Volume(vol.labelled, if ok then Extracted(vol.files, tar) else Cut(vol.files, junk, Change(tar, {})),
                                         if TouchesIndex(Change(tar, {})) then other else vol.stored));
    }

    method DoRemovePaths(v: string, paths: seq<string>) returns (ok: bool)
      requires v in host.volumes
      modifies this`host, this`log, this`clean
      ensures log == old(log) + [Event(RemovePaths(v, paths), ok)] && clean == (old(clean) && ok)
      ensures v in host.volumes && host == WithVolume(old(host), v, host.volumes[v]) && host.volumes[v].labelled == old(host.volumes[v]).labelled
      ensures ok ==> host.volumes[v].files == Removed(old(host.volumes[v].files), Elements(paths))
      ensures !ok ==> Partial(old(host.volumes[v].files), host.volumes[v].files, Change(map[], Elements(paths)))
      ensures host.volumes[v].stored == (if INDEX in paths then Absent else old(host.volumes[v]).stored) ||
              (!ok && host.volumes[v].stored == old(host.volumes[v]).stored)
    {
      var junk: Files := *;
      var gone: bool := *;
      ok := *;
      Record(RemovePaths(v, paths), ok);
      var vol := host.volumes[v];
      host := WithVolume(host, v, Volume(vol.labelled,
                                         if ok then Removed(vol.files, Elements(paths)) else Cut(vol.files, junk, Change(map[], Elements(paths))),
                                         if INDEX in paths && (ok || gone) then Absent else vol.stored));
    }

    /**
     `cat > file` empties the file first: a failed write leaves it old, empty, cut short or complete.
     Nothing can be written where a directory of that name is.
     */
    method DoWriteIndex(v: string, index: Index) returns (ok: bool)
      requires v in host.volumes
      modifies this`host, this`log, this`clean
      ensures log == old(log) + [Event(WriteIndex(v, index), ok)] && clean == (old(clean) && ok)
      ensures v in host.volumes && host == WithVolume(old(host), v, old(host.volumes[v]).(stored := host.volumes[v].stored))
      ensures ok ==> host.volumes[v].stored == Written(index) && !Blocked(old(host.volumes[v]).files)
      ensures !ok ==> host.volumes[v].stored in {old(host.volumes[v].stored), Absent, Torn, Written(index)}
    {
      var left: nat := *;
      ok := *;
      ok := ok && !Blocked(host.volumes[v].files);
      Record(WriteIndex(v, index), ok);
      host := WithVolume(host, v, host.volumes[v].(stored := if ok || left == 1 then Written(index) else if left == 2 then Torn
                                                             else if left == 3 then Absent else host.volumes[v].stored));
    }

    method DoSetOwnership(v: string) returns (ok: bool)
      modifies this`log, this`clean
      ensures log == old(log) + [Event(SetOwnership(v), ok)] && clean == (old(clean) && ok)
    {
      ok := *;
      Record(SetOwnership(v), ok);
    }

    /** Stops one container after the other; a failure leaves some of them stopped. */
    method StopContainers(names: seq<string>) returns (ok: bool)
      modifies this`host, this`log, this`clean
      ensures log == old(log) + [Event(Stop(names), ok)] && clean == (old(clean) && ok)
      ensures exists hit :: hit <= Elements(names) && (ok ==> hit == Elements(names)) &&
                            host == old(host).(containers := SetRunning(old(host.containers), hit, false))
    {
      var some: set<string> := *;
      ok := *;
      Record(Stop(names), ok);
      var hit := if ok then Elements(names) else some * Elements(names);
      host := host.(containers := SetRunning(host.containers, hit, false));
    }

    method StartContainers(names: seq<string>) returns (ok: bool)
      modifies this`host, this`log, this`clean
      ensures log == old(log) + [Event(Start(names), ok)] && clean == (old(clean) && ok)
      ensures exists hit :: hit <= Elements(names) && (ok ==> hit == Elements(names)) &&
                            host == old(host).(containers := SetRunning(old(host.containers), hit, true))
    {
      var some: set<string> := *;
      ok := *;
      Record(Start(names), ok);
      var hit := if ok then Elements(names) else some * Elements(names);
      host := host.(containers := SetRunning(host.containers, hit, true));
    }

    method RestartContainer(n: string) returns (ok: bool)
      modifies this`host, this`log, this`clean
      ensures log == old(log) + [Event(Restart(n), ok)] && clean == (old(clean) && ok)
      ensures ok ==> host == old(host).(containers := SetRunning(old(host.containers), {n}, true))
      ensures !ok ==> exists on :: host == old(host).(containers := SetRunning(old(host.containers), {n}, on))
    {
      var on: bool := *;
      ok := *;
      Record(Restart(n), ok);
      host := host.(containers := SetRunning(host.containers, {n}, ok || on));
    }

    /** A failed `compose up` may leave anything that a finished one could, or nothing. */
    method ComposeUp(s: Stack) returns (ok: bool)
      modifies this`host, this`log, this`clean
      ensures log == old(log) + [Event(Up(s), ok)] && clean == (old(clean) && ok)
      ensures host == w.up(old(host), s) || (!ok && host == old(host))
    {
      var done: bool := *;
      ok := *;
      Record(Up(s), ok);
      if ok || done { host := w.up(host, s); }
    }

    method UpdateContainerLabels(n: string) returns (ok: bool)
      requires n in host.containers
      modifies this`host, this`log, this`clean
      ensures log == old(log) + [Event(Relabel(n), ok)] && clean == (old(clean) && ok)
      ensures host == old(host).(containers := old(host.containers)[n := old(host.containers[n]).(ident := w.identifier)]) ||
              (!ok && host == old(host))
    {
      var done: bool := *;
      ok := *;
      Record(Relabel(n), ok);
      if ok || done { host := host.(containers := host.containers[n := host.containers[n].(ident := w.identifier)]); }
    }
  }
}
