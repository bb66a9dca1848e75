/**
 Synchronising filesets into their volumes (internal/planner/apply_filesets.go and
 internal/planner/targets.go): reuse or recompute the difference, stop the attached services
 of a cold fileset, write the volume, start them again.
 */
module FilesetSync {
  import opened Text
  import opened FilesetIndex
  import opened VolumeTree
  import opened DockerHost

  datatype Targets = Attached | Services(names: seq<string>)

  /** `source` are the visible files of the source directory, `local` is their index. */
  datatype Fileset = Fileset(volume: string, source: Files, local: Index, cold: bool, targets: Targets, owned: bool)

  ghost predicate ValidFileset(w: World, fs: Fileset) {
    IsLocal(w.h, fs.local, fs.source) && PrefixFree(fs.source.Keys)
  }

  /** The indexes and difference that a plan has computed for a fileset. */
  datatype FilesetData = FilesetData(local: Index, remote: Index, diff: Diff)

  datatype Step = Local | ReadRemote | ParseRemote | Resolve | List | StopStep | TarStep | ExtractStep | DeleteStep
                | IndexStep | OwnershipStep | StartStep

  /** `Both`: the synchronisation failed and so did restarting what had been stopped. */
  datatype Error = Cause(step: Step) | Both(base: Error, restart: Error)

  datatype Outcome = Done | Failed(error: Error)

  // ---------------------------------------------------------- target services

  /** The explicit services, without blanks and repetitions. */
  function Dedup(names: seq<string>): seq<string> {
    if names == [] then [] else
      var front, last := Dedup(names[..|names| - 1]), names[|names| - 1];
      if last == "" || last in front then front else front + [last]
  }

  /** Services of managed containers that mount the volume. */
  function AttachedServices(w: World, h: Host, v: string): set<string> {
    set n | n in Managed(w, h) && v in h.containers[n].mounts :: h.containers[n].service
  }

  ghost function TargetServices(w: World, h: Host, fs: Fileset): seq<string> {
    match fs.targets
    case Services(names) => Dedup(names)
    case Attached => SortedKeys(AttachedServices(w, h, fs.volume))
  }

  /** The service is listed explicitly, or one of its containers mounts the volume. */
  ghost predicate IsTarget(w: World, h: Host, fs: Fileset, s: string) {
    s != "" && match fs.targets
               case Services(names) => s in names
               case Attached => exists n :: Ours(w, h, n) && h.containers[n].service == s && fs.volume in h.containers[n].mounts
  }

  /** The first name occurs before the other does. */
  ghost predicate Before(names: seq<string>, a: string, b: string) { exists k :: 0 <= k < |names| && names[k] == a && b !in names[..k + 1] }

  lemma {:induction false} BeforeMore(names: seq<string>, more: string, a: string, b: string)
    requires Before(names, a, b) || (a in names && b !in names)
    ensures Before(names + [more], a, b)
  {
    var k;
    if Before(names, a, b) {
      k :| 0 <= k < |names| && names[k] == a && b !in names[..k + 1];
    } else {
      k :| 0 <= k < |names| && names[k] == a;
    }
    assert (names + [more])[..k + 1] == names[..k + 1] && (names + [more])[k] == a;
  }

  lemma {:induction false} DedupMembers(names: seq<string>)
    ensures forall s :: s in Dedup(names) <==> s in names && s != ""
    ensures NoDup(Dedup(names))
  {
    if names != [] {
      var front, last := names[..|names| - 1], names[|names| - 1];
      DedupMembers(front);
      assert names == front + [last];
      assert forall s :: s in names <==> s in front || s == last;
    }
  }

  /** Without blanks and repetitions, in the order of first occurrence. */
  lemma {:induction false} DedupSays(names: seq<string>)
    ensures forall s :: s in Dedup(names) <==> s in names && s != ""
    ensures NoDup(Dedup(names))
    ensures forall i, j :: 0 <= i < j < |Dedup(names)| ==> Before(names, Dedup(names)[i], Dedup(names)[j])
  {
    DedupMembers(names);
    if names != [] {
      var n := |names| - 1;
      var front, d, d' := names[..n], Dedup(names[..n]), Dedup(names);
      DedupSays(front);
      assert names == front + [names[n]];
      hide Before;
      forall i, j | 0 <= i < j < |d'| ensures Before(names, d'[i], d'[j]) {
        assert d'[i] == d[i] && d[i] in d;
        if j < |d| { assert d'[j] == d[j]; } else { assert d'[j] !in front; }
        BeforeMore(front, names[n], d'[i], d'[j]);
      }
    }
  }

  lemma {:induction false} TargetsSay(w: World, h: Host, fs: Fileset)
    ensures forall s :: s in TargetServices(w, h, fs) <==> IsTarget(w, h, fs, s)
    ensures NoDup(TargetServices(w, h, fs)) && (fs.targets.Attached? ==> StrictlySorted(TargetServices(w, h, fs)))
  {
    hide SortedKeys, Dedup;
    match fs.targets
    case Services(names) => DedupSays(names);
    case Attached =>
      var found := AttachedServices(w, h, fs.volume);
      SortedKeysStrict(found);
      forall s ensures s in found <==> IsTarget(w, h, fs, s) {
        if s in found {
          var n :| n in Managed(w, h) && fs.volume in h.containers[n].mounts && h.containers[n].service == s;
          ManagedAreOurs(w, h, n);
        }
        if n :| Ours(w, h, n) && h.containers[n].service == s && fs.volume in h.containers[n].mounts { ManagedAreOurs(w, h, n); }
      }
      assert forall s :: s in SortedKeys(found) <==> s in Elements(SortedKeys(found));
  }

  method ResolveTargetServices(d: Docker, fs: Fileset) returns (ok: bool, services: seq<string>)
    modifies d`clean
    ensures ok ==> d.clean == old(d.clean) && services == TargetServices(d.w, d.host, fs)
    ensures d.clean ==> old(d.clean)
    ensures ok ==> NoDup(services) && forall s :: s in services <==> IsTarget(d.w, d.host, fs, s)
    ensures d.clean ==> ok
  {
    hide IsTarget, NoDup;
    TargetsSay(d.w, d.host, fs);
    match fs.targets
    case Services(names) =>
      services := ExplicitServices(names);
      ok := true;
    case Attached =>
      ok, services := DiscoverServices(d, fs.volume);
  }

  method ExplicitServices(names: seq<string>) returns (services: seq<string>)
    ensures services == Dedup(names)
  {
    services := [];
    for i := 0 to |names|
      invariant services == Dedup(names[..i])
    {
      assert names[..i + 1][..i] == names[..i];
      if names[i] != "" && names[i] !in services { services := services + [names[i]]; }
    }
    assert names[..|names|] == names;
  }

  method DiscoverServices(d: Docker, v: string) returns (ok: bool, services: seq<string>)
    modifies d`clean
    ensures ok ==> d.clean == old(d.clean) && services == SortedKeys(AttachedServices(d.w, d.host, v))
    ensures d.clean ==> old(d.clean)
    ensures d.clean ==> ok
  {
    services := [];
    var users, items;
    ok, users := d.ListContainersUsingVolume(v);
    if !ok { return; }
    if users == {} {
      NobodyAttached(d.w, d.host, v, users);
      return;
    }
    ok, items := d.ListComposeContainersAll();
    if !ok { return; }
    var found := ServicesNamed(items, users);
    FoundServices(d.w, d.host, v, items, users, found);
    services := SortKeys(found);
  }

  method ServicesNamed(items: seq<PsBrief>, users: set<string>) returns (found: set<string>)
    ensures found == set k | 0 <= k < |items| && items[k].name in users && items[k].service != "" :: items[k].service
  {
    found := {};
    for i := 0 to |items|
      invariant found == set k | 0 <= k < i && items[k].name in users && items[k].service != "" :: items[k].service
    {
      if items[i].name in users && items[i].service != "" { found := found + {items[i].service}; }
    }
  }

  lemma {:induction false} NobodyAttached(w: World, h: Host, v: string, users: set<string>)
    requires users == {} && users == set n | n in h.containers && v in h.containers[n].mounts
    ensures SortedKeys(AttachedServices(w, h, v)) == []
  {
    forall n | n in h.containers ensures v !in h.containers[n].mounts {
      assert n !in users;
    }
    assert AttachedServices(w, h, v) == {};
    NoElements(SortedKeys(AttachedServices(w, h, v)));
  }

  lemma {:induction false} FoundServices(w: World, h: Host, v: string, items: seq<PsBrief>, users: set<string>, found: set<string>)
    requires items == Listed(w, h)
    requires users == set n | n in h.containers && v in h.containers[n].mounts
    requires found == set k | 0 <= k < |items| && items[k].name in users && items[k].service != "" :: items[k].service
    ensures found == AttachedServices(w, h, v)
  {
    forall s | s in found ensures s in AttachedServices(w, h, v) {
      var k :| 0 <= k < |items| && items[k].name in users && items[k].service != "" && items[k].service == s;
      ListedMembers(w, h, items[k]);
      assert items[k] in items;
    }
    forall s | s in AttachedServices(w, h, v) ensures s in found {
      var n :| n in Managed(w, h) && v in h.containers[n].mounts && h.containers[n].service == s;
      ListedMembers(w, h, Brief(h, n));
      var k :| 0 <= k < |items| && items[k] == Brief(h, n);
    }
  }

  /** The first listed container of a service. */
  function FirstOf(items: seq<PsBrief>, svc: string): Option<string> {
    if items == [] then None
    else if items[0].service == svc then Some(items[0].name)
    else FirstOf(items[1..], svc)
  }

  lemma {:induction false} FirstOfIn(items: seq<PsBrief>, svc: string)
    ensures FirstOf(items, svc).Some? ==>
              exists k :: 0 <= k < |items| && items[k].service == svc && items[k].name == FirstOf(items, svc).value
  {
    if items != [] && items[0].service != svc {
      FirstOfIn(items[1..], svc);
      if FirstOf(items, svc).Some? {
        var k :| 0 <= k < |items[1..]| && items[1..][k].service == svc && items[1..][k].name == FirstOf(items, svc).value;
        assert items[k + 1] == items[1..][k];
      }
    }
  }

  /** One container per target service, where there is one. */
  function StopList(items: seq<PsBrief>, services: seq<string>): seq<string> {
    if services == [] then [] else
      var front, svc := StopList(items, services[..|services| - 1]), services[|services| - 1];
      var c := FirstOf(items, svc);
      if svc != "" && c.Some? then front + [c.value] else front
  }

  method FindFirst(items: seq<PsBrief>, svc: string) returns (c: Option<string>)
    ensures c == FirstOf(items, svc)
  {
    c := None;
    for i := 0 to |items|
      invariant c == None && FirstOf(items, svc) == FirstOf(items[i..], svc)
    {
      if items[i].service == svc { return Some(items[i].name); }
      assert items[i..][1..] == items[i + 1..];
    }
  }

  method ContainersToStop(items: seq<PsBrief>, services: seq<string>) returns (names: seq<string>)
    ensures names == StopList(items, services)
  {
    names := [];
    for i := 0 to |services|
      invariant names == StopList(items, services[..i])
    {
      assert services[..i + 1][..i] == services[..i];
      if services[i] != "" {
        var c := FindFirst(items, services[i]);
        if c.Some? { names := names + [c.value]; }
      }
    }
    assert services[..|services|] == services;
  }

  // ------------------------------------------------------- writing the volume

  ghost predicate WritesOnly(ev: seq<Event>, v: string) {
    forall e :: e in ev ==> match e.call
      case Extract(x, _) => x == v
      case RemovePaths(x, _) => x == v
      case WriteIndex(x, _) => x == v
      case SetOwnership(x) => x == v
      case _ => false
  }

  /** The calls a successful synchronisation makes on the volume. */
  function ExtractCalls(fs: Fileset, diff: Diff): seq<Event> {
    if Paths(diff.toCreate) + Paths(diff.toUpdate) == {} then [] else [Event(Extract(fs.volume, TarOf(fs.source, diff)), true)]
  }

  function RemoveCalls(fs: Fileset, diff: Diff): seq<Event> {
    if diff.toDelete == [] then [] else [Event(RemovePaths(fs.volume, diff.toDelete), true)]
  }

  function WriteCalls(fs: Fileset, local: Index, diff: Diff): seq<Event> {
    ExtractCalls(fs, diff) + RemoveCalls(fs, diff) + [Event(WriteIndex(fs.volume, local), true)] +
    (if fs.owned then [Event(SetOwnership(fs.volume), true)] else [])
  }

  function Rank(c: Call): nat {
    match c case Extract(_, _) => 0 case RemovePaths(_, _) => 1 case WriteIndex(_, _) => 2 case SetOwnership(_) => 3 case _ => 4
  }

  /**
   The writes of one synchronisation: at most one archive, of the created and updated source files; at most one removal, of the
   vanished paths; the new index; ownership if the fileset asks for it; in this order.
   */
  lemma {:induction false} WritesSay(fs: Fileset, local: Index, diff: Diff)
    ensures var calls := WriteCalls(fs, local, diff);
            && (forall i, j :: 0 <= i < j < |calls| ==> Rank(calls[i].call) < Rank(calls[j].call) <= 3)
            && (forall e :: e in calls <==>
                  e.ok && match e.call
                          case Extract(v, tar) => v == fs.volume && (diff.toCreate != [] || diff.toUpdate != []) && tar == TarOf(fs.source, diff)
                          case RemovePaths(v, paths) => v == fs.volume && diff.toDelete != [] && paths == diff.toDelete
                          case WriteIndex(v, index) => v == fs.volume && index == local
                          case SetOwnership(v) => v == fs.volume && fs.owned
                          case _ => false)
  {
    hide TarOf;
    assert Paths(diff.toCreate) + Paths(diff.toUpdate) == {} <==> diff.toCreate == [] && diff.toUpdate == [] by {
      if diff.toCreate != [] { assert diff.toCreate[0].path in Paths(diff.toCreate); }
      if diff.toUpdate != [] { assert diff.toUpdate[0].path in Paths(diff.toUpdate); }
    }
  }

  ghost function ChangeIn(fs: Fileset, diff: Diff): Change { Change(TarOf(fs.source, diff), Elements(diff.toDelete)) }

  /** Creates and updates: one archive of the new and changed files. */
  method SyncFiles(d: Docker, fs: Fileset, diff: Diff) returns (r: Outcome, ghost ev: seq<Event>)
    requires fs.volume in d.host.volumes
    modifies d`host, d`log, d`clean
    ensures OneVolume(old(d.host), d.host, fs.volume)
    ensures TouchesIndex(ChangeIn(fs, diff)) || d.host.volumes[fs.volume].stored == old(d.host.volumes[fs.volume]).stored
    ensures r.Done? ==> d.clean == old(d.clean) &&
                        d.host.volumes[fs.volume].files == Extracted(old(d.host.volumes[fs.volume].files), TarOf(fs.source, diff)) &&
                        ev == ExtractCalls(fs, diff)
    ensures d.clean ==> old(d.clean) && r.Done?
    ensures r.Failed? ==> r in {Failed(Cause(TarStep)), Failed(Cause(ExtractStep))} &&
                          Partial(old(d.host.volumes[fs.volume].files), d.host.volumes[fs.volume].files, ChangeIn(fs, diff))
    ensures d.log == old(d.log) + ev && WritesOnly(ev, fs.volume)
  {
    WithVolumeSame(d.host, fs.volume);
    r, ev := Done, [];
    if Paths(diff.toCreate) + Paths(diff.toUpdate) == {} {
      assert TarOf(fs.source, diff) == map[];
      NothingExtracted(d.host.volumes[fs.volume].files);
      return;
    }
    var ok := d.Read(); // reading the source directory into the archive
    if !ok { return Failed(Cause(TarStep)), []; }
    ok := d.DoExtract(fs.volume, TarOf(fs.source, diff));
    ev := [Event(Extract(fs.volume, TarOf(fs.source, diff)), ok)];
    if !ok {
      PartialWeaken(old(d.host.volumes[fs.volume].files), d.host.volumes[fs.volume].files, TarOf(fs.source, diff), {}, ChangeIn(fs, diff));
      r := Failed(Cause(ExtractStep));
    }
  }

  /** Deletes: one removal of the vanished paths. */
  method DeleteFiles(d: Docker, fs: Fileset, diff: Diff) returns (r: Outcome, ghost ev: seq<Event>)
    requires fs.volume in d.host.volumes
    modifies d`host, d`log, d`clean
    ensures OneVolume(old(d.host), d.host, fs.volume)
    ensures TouchesIndex(ChangeIn(fs, diff)) || d.host.volumes[fs.volume].stored == old(d.host.volumes[fs.volume]).stored
    ensures r.Done? ==> d.clean == old(d.clean) &&
                        d.host.volumes[fs.volume].files == Removed(old(d.host.volumes[fs.volume].files), Elements(diff.toDelete)) &&
                        ev == RemoveCalls(fs, diff)
    ensures d.clean ==> old(d.clean) && r.Done?
    ensures r.Failed? ==> r == Failed(Cause(DeleteStep)) &&
                          Partial(old(d.host.volumes[fs.volume].files), d.host.volumes[fs.volume].files, ChangeIn(fs, diff))
    ensures d.log == old(d.log) + ev && WritesOnly(ev, fs.volume)
  {
    WithVolumeSame(d.host, fs.volume);
    r, ev := Done, [];
    if diff.toDelete == [] {
      NothingRemoved(d.host.volumes[fs.volume].files);
      return;
    }
    var ok := d.DoRemovePaths(fs.volume, diff.toDelete);
    ev := [Event(RemovePaths(fs.volume, diff.toDelete), ok)];
    assert INDEX in diff.toDelete ==> TouchesIndex(ChangeIn(fs, diff));
    if !ok {
      PartialWeaken(old(d.host.volumes[fs.volume].files), d.host.volumes[fs.volume].files, map[], Elements(diff.toDelete), ChangeIn(fs, diff));
      r := Failed(Cause(DeleteStep));
    }
  }

  lemma {:induction false} WritesMore(a: seq<Event>, b: seq<Event>, v: string)
    ensures WritesOnly(a, v) && WritesOnly(b, v) ==> WritesOnly(a + b, v)
    ensures |b| == 1 && b[0].call in {SetOwnership(v)} ==> WritesOnly(b, v)
    ensures |b| == 1 && b[0].call.WriteIndex? && b[0].call.volume == v ==> WritesOnly(b, v)
  {
  }

  /** Only this volume differs, and its label does not. */
  ghost predicate OneVolume(h: Host, h': Host, v: string) {
    v in h.volumes && v in h'.volumes && h' == WithVolume(h, v, h'.volumes[v]) && h'.volumes[v].labelled == h.volumes[v].labelled
  }

  lemma {:induction false} OneVolumeTrans(a: Host, b: Host, c: Host, v: string)
    requires OneVolume(a, b, v) && OneVolume(b, c, v)
    ensures OneVolume(a, c, v)
  {
    WithVolumeTwice(a, v, b.volumes[v], c.volumes[v]);
  }

  /** Extraction, removal, index, ownership, in this order; stops at the first failure. */
  method WriteVolume(d: Docker, fs: Fileset, local: Index, diff: Diff) returns (r: Outcome, ghost ev: seq<Event>)
    requires fs.volume in d.host.volumes
    modifies d`host, d`log, d`clean
    ensures OneVolume(old(d.host), d.host, fs.volume)
    ensures r.Done? ==> && d.clean == old(d.clean)
                        && d.host.volumes[fs.volume] ==
                           Volume(old(d.host.volumes[fs.volume].labelled),
                                  Synced(old(d.host.volumes[fs.volume].files), TarOf(fs.source, diff), Elements(diff.toDelete)),
                                  Written(local))
                        && !Blocked(d.host.volumes[fs.volume].files)
    ensures d.clean ==> old(d.clean) && r.Done?
    ensures r.Done? ==> ev == WriteCalls(fs, local, diff)
    ensures r.Failed? ==> && r.error.Cause? && r.error.step in {TarStep, ExtractStep, DeleteStep, IndexStep, OwnershipStep}
                          && Interrupted(old(d.host.volumes[fs.volume]), d.host.volumes[fs.volume], ChangeIn(fs, diff), local)
    ensures d.log == old(d.log) + ev && WritesOnly(ev, fs.volume)
  {
    hide Partial, TarOf, ExtractCalls, RemoveCalls, Elements, TouchesIndex, Blocked, WritesOnly;
    ghost var h0, was := d.host, d.host.volumes[fs.volume];
    ghost var c := ChangeIn(fs, diff);
    r, ev := SyncFiles(d, fs, diff);
    if r.Failed? { return; }
    ExtractedIsPartial(was.files, c);
    ghost var h1, more := d.host, [];
    r, more := DeleteFiles(d, fs, diff);
    WritesMore(ev, more, fs.volume);
    ev := ev + more;
    OneVolumeTrans(h0, h1, d.host, fs.volume);
    if r.Failed? {
      PartialChain(was.files, h1.volumes[fs.volume].files, d.host.volumes[fs.volume].files, c);
      return;
    }
    SyncedIsPartial(was.files, c);
    ghost var h2 := d.host;
    var ok := d.DoWriteIndex(fs.volume, local);
    WritesMore(ev, [Event(WriteIndex(fs.volume, local), ok)], fs.volume);
    ev := ev + [Event(WriteIndex(fs.volume, local), ok)];
    OneVolumeTrans(h0, h2, d.host, fs.volume);
    if !ok { return Failed(Cause(IndexStep)), ev; }
    if fs.owned {
      ok := d.DoSetOwnership(fs.volume);
      WritesMore(ev, [Event(SetOwnership(fs.volume), ok)], fs.volume);
      ev := ev + [Event(SetOwnership(fs.volume), ok)];
      if !ok { r := Failed(Cause(OwnershipStep)); }
    }
  }

  lemma {:induction false} PartialWeaken(files: Files, after: Files, tar: Files, del: set<string>, c: Change)
    requires Partial(files, after, Change(tar, del))
    requires (tar == c.tar || tar == map[]) && (del == c.del || del == {})
    ensures Partial(files, after, c)
  {
    forall p | !Touched(p, c) ensures SameAt(files, after, p) {
      assert !Touched(p, Change(tar, del));
    }
  }

  lemma {:induction false} NothingExtracted(files: Files)
    ensures Extracted(files, map[]) == files
  {
    var none: Files := map[];
    assert forall p :: !ClashesWith(p, none.Keys);
  }

  lemma {:induction false} NothingRemoved(files: Files)
    ensures Removed(files, {}) == files
  {
  }

  lemma {:induction false} ExtractedIsPartial(files: Files, c: Change)
    ensures Partial(files, files, c) && Partial(files, Extracted(files, c.tar), c)
  {
  }

  lemma {:induction false} SyncedIsPartial(files: Files, c: Change)
    ensures Partial(files, Synced(files, c.tar, c.del), c)
  {
  }

  // -------------------------------------------------------------- one fileset

  /** The containers a cold fileset stops and starts again. */
  ghost function ColdNames(w: World, h: Host, fs: Fileset): seq<string> {
    if fs.cold then StopList(Listed(w, h), TargetServices(w, h, fs)) else []
  }

  /** The context after a fileset has been synchronised without a failure. */
  ghost function SyncedHost(w: World, h: Host, fs: Fileset, local: Index, remote: Index): Host
    requires fs.volume in h.volumes
  {
    if local.treeHash == remote.treeHash then h
    else
      WithVolume(h, fs.volume, SyncedVolume(h.volumes[fs.volume], fs.source, local, remote))
      .(containers := SetRunning(h.containers, Elements(ColdNames(w, h, fs)), true))
  }

  /** The calls of a fileset synchronised without a failure. */
  ghost function SyncCalls(w: World, h: Host, fs: Fileset, local: Index, remote: Index): seq<Event> {
    if local.treeHash == remote.treeHash then [] else
      AroundWith(ColdNames(w, h, fs), WriteCalls(fs, local, DiffOf(local, remote)), true)
  }

  /** The services to restart after a hot synchronisation. */
  ghost function HotServices(w: World, h: Host, fs: Fileset, local: Index, remote: Index): set<string> {
    if local.treeHash == remote.treeHash || fs.cold then {}
    else set s | s in TargetServices(w, h, fs) && s != ""
  }

  /** A changed hot fileset has exactly its target services restarted, any other none. */
  lemma {:induction false} HotSays(w: World, h: Host, fs: Fileset, local: Index, remote: Index, s: string)
    ensures s in HotServices(w, h, fs, local, remote) <==> local.treeHash != remote.treeHash && !fs.cold && IsTarget(w, h, fs, s)
  {
    TargetsSay(w, h, fs);
    hide TargetServices;
  }

  /** The service's container with the least name. */
  ghost predicate FirstContainer(w: World, h: Host, s: string, n: string) {
    && Ours(w, h, n) && h.containers[n].service == s
    && forall m :: Ours(w, h, m) && h.containers[m].service == s && m != n ==> Less(n, m)
  }

  lemma {:induction false} FirstOfIndex(items: seq<PsBrief>, s: string, k: nat)
    requires k < |items| && items[k].service == s && forall j :: 0 <= j < k ==> items[j].service != s
    ensures FirstOf(items, s) == Some(items[k].name)
  {
    if k > 0 { FirstOfIndex(items[1..], s, k - 1); }
  }

  lemma {:induction false} LeastIndex(items: seq<PsBrief>, s: string, k: nat) returns (j: nat)
    requires k < |items| && items[k].service == s
    ensures j <= k && items[j].service == s && forall i :: 0 <= i < j ==> items[i].service != s
  {
    if i :| 0 <= i < k && items[i].service == s { j := LeastIndex(items, s, i); } else { j := k; }
  }

  /** Of the listed containers the first of a service is the one with the least name. */
  lemma {:induction false} FirstSays(w: World, h: Host, s: string, n: string)
    ensures FirstOf(Listed(w, h), s) == Some(n) <==> FirstContainer(w, h, s, n)
  {
    hide Managed, FirstOf;
    var items, names := Listed(w, h), SortedKeys(Managed(w, h));
    SortedKeysStrict(Managed(w, h));
    forall m ensures m in Managed(w, h) <==> Ours(w, h, m) { ManagedAreOurs(w, h, m); }
    if FirstOf(items, s).Some? {
      FirstOfIn(items, s);
      var k :| 0 <= k < |items| && items[k].service == s && items[k].name == FirstOf(items, s).value;
      FirstAt(w, h, s, k);
    }
    if FirstContainer(w, h, s, n) {
      ListedMembers(w, h, Brief(h, n));
      var k :| 0 <= k < |items| && items[k] == Brief(h, n);
      FirstAt(w, h, s, k);
      LessIrreflexive(n);
      forall m | FirstContainer(w, h, s, m) && m != n ensures false { LessTransitive(n, m, n); }
    }
  }

  lemma {:induction false} FirstAt(w: World, h: Host, s: string, k: nat)
    requires k < |Listed(w, h)| && Listed(w, h)[k].service == s
    ensures FirstOf(Listed(w, h), s).Some? && FirstContainer(w, h, s, FirstOf(Listed(w, h), s).value)
  {
    hide Managed, FirstOf;
    var items, names := Listed(w, h), SortedKeys(Managed(w, h));
    SortedKeysStrict(Managed(w, h));
    forall m ensures m in Managed(w, h) <==> Ours(w, h, m) { ManagedAreOurs(w, h, m); }
    var j := LeastIndex(items, s, k);
    FirstOfIndex(items, s, j);
    ListedMembers(w, h, items[j]);
    var n := items[j].name;
    forall m | Ours(w, h, m) && h.containers[m].service == s && m != n ensures Less(n, m) {
      ListedMembers(w, h, Brief(h, m));
      var i :| 0 <= i < |items| && items[i] == Brief(h, m);
      assert items[i].name == names[i] && items[j].name == names[j];
    }
  }

  lemma {:induction false} StopListSays(items: seq<PsBrief>, services: seq<string>)
    ensures forall n :: n in StopList(items, services) <==> exists s :: s in services && s != "" && FirstOf(items, s) == Some(n)
  {
    hide FirstOf;
    if services != [] {
      var front, svc := services[..|services| - 1], services[|services| - 1];
      StopListSays(items, front);
      assert services == front + [svc];
      forall n ensures n in StopList(items, services) <==> exists s :: s in services && s != "" && FirstOf(items, s) == Some(n) {
        if n in StopList(items, front) {
          var s :| s in front && s != "" && FirstOf(items, s) == Some(n);
          assert s in services;
        } else if n in StopList(items, services) {
          assert svc in services && svc != "" && FirstOf(items, svc) == Some(n);
        }
        if s :| s in services && s != "" && FirstOf(items, s) == Some(n) { assert s in front || s == svc; }
      }
    }
  }

  /** A cold fileset has the first container of each target service stopped and started again, and no other; a hot one none. */
  lemma {:induction false} ColdSays(w: World, h: Host, fs: Fileset, n: string)
    ensures n in ColdNames(w, h, fs) <==> fs.cold && exists s :: IsTarget(w, h, fs, s) && FirstContainer(w, h, s, n)
  {
    hide IsTarget, FirstContainer, TargetServices, StopList, Listed, FirstOf;
    TargetsSay(w, h, fs);
    StopListSays(Listed(w, h), TargetServices(w, h, fs));
    forall s ensures FirstOf(Listed(w, h), s) == Some(n) <==> FirstContainer(w, h, s, n) { FirstSays(w, h, s, n); }
    forall s ensures IsTarget(w, h, fs, s) ==> s != "" { TargetNamed(w, h, fs, s); }
  }

  lemma {:induction false} TargetNamed(w: World, h: Host, fs: Fileset, s: string)
    ensures IsTarget(w, h, fs, s) ==> s != ""
  {
  }

  /**
   The changes asked for while one fileset is synchronised. Unless containers are stopped,
   only its volume is written. A failed stop is the last call. After a successful stop of
   `names` come writes to the volume and then exactly one start of exactly `names`.
   */
  ghost predicate Bracketed(ev: seq<Event>, v: string, names: seq<string>) {
    || (WritesOnly(ev, v) && (ev == [] || names == []))
    || (names != [] && ev == [Event(Stop(names), false)])
    || (&& names != [] && |ev| >= 2
        && ev[0] == Event(Stop(names), true)
        && ev[|ev| - 1].call == Start(names)
        && WritesOnly(ev[1..|ev| - 1], v))
  }

  /** The error after a stop succeeded: the first failure is kept even if the start fails too. */
  ghost predicate KeepsCause(r: Outcome, started: bool) {
    match r
    case Done => started
    case Failed(Cause(s)) => (s == StartStep && !started) || (s in {TarStep, ExtractStep, DeleteStep, IndexStep, OwnershipStep} && started)
    case Failed(Both(Cause(s), Cause(t))) =>
      !started && t == StartStep && s in {TarStep, ExtractStep, DeleteStep, IndexStep, OwnershipStep}
    case _ => false
  }

  /** Containers and networks other than by a running flag are never touched. */
  ghost predicate OnlyVolumeAndRunning(h: Host, h': Host, v: string) {
    && h'.networks == h.networks
    && h'.volumes.Keys == h.volumes.Keys
    && (forall x :: x in h.volumes && x != v ==> h'.volumes[x] == h.volumes[x])
    && (v in h.volumes && v in h'.volumes ==> h'.volumes[v].labelled == h.volumes[v].labelled)
    && h'.containers.Keys == h.containers.Keys
    && (forall n :: n in h.containers ==> h'.containers[n].(running := true) == h.containers[n].(running := true))
  }

  lemma {:induction false} RunningOnly(h: Host, h': Host, hit: set<string>, on: bool, v: string)
    requires h' == h.(containers := SetRunning(h.containers, hit, on))
    ensures OnlyVolumeAndRunning(h, h', v)
  {
  }

  lemma {:induction false} RunningOnlyTrans(h0: Host, h1: Host, h2: Host, v: string)
    requires OnlyVolumeAndRunning(h0, h1, v) && OnlyVolumeAndRunning(h1, h2, v)
    ensures OnlyVolumeAndRunning(h0, h2, v)
  {
    assert h1.volumes.Keys == h0.volumes.Keys;
    forall n | n in h0.containers ensures h2.containers[n].(running := true) == h0.containers[n].(running := true) {
      assert n in h1.containers;
    }
  }

  /** Every exit path of one fileset: the bracket of stop and start, and the error it reports. */
  ghost predicate SyncLog(ev: seq<Event>, v: string, names: seq<string>, r: Outcome) {
    && Bracketed(ev, v, names)
    && (|ev| >= 2 && ev[0].call.Stop? ==> KeepsCause(r, ev[|ev| - 1].ok))
  }

  /** Stopping what a cold fileset needs stopped. */
  method StopTargets(d: Docker, fs: Fileset, services: seq<string>)
    returns (r: Outcome, names: seq<string>, ghost ev: seq<Event>)
    requires services == TargetServices(d.w, d.host, fs)
    modifies d`host, d`log, d`clean
    ensures r.Done? ==> && d.clean == old(d.clean) && names == ColdNames(d.w, old(d.host), fs)
                        && d.host == old(d.host).(containers := SetRunning(old(d.host.containers), Elements(names), false))
                        && ev == if names == [] then [] else [Event(Stop(names), true)]
    ensures d.clean ==> old(d.clean) && r.Done?
    ensures r.Failed? ==> && r.error in {Cause(List), Cause(StopStep)}
                          && SyncLog(ev, fs.volume, ColdNames(d.w, old(d.host), fs), r)
    ensures d.log == old(d.log) + ev
    ensures d.host.volumes == old(d.host.volumes) && OnlyVolumeAndRunning(old(d.host), d.host, fs.volume)
  {
    r, names, ev := Done, [], [];
    SetRunningNobody(d.host.containers, false);
    if !fs.cold || services == [] { return; }
    var ok, items := d.ListComposeContainersAll();
    if !ok { return Failed(Cause(List)), [], []; }
    names := ContainersToStop(items, services);
    if names != [] {
      ghost var h0 := d.host;
      ok := d.StopContainers(names);
      ghost var hit :| d.host == h0.(containers := SetRunning(h0.containers, hit, false));
      RunningOnly(h0, d.host, hit, false, fs.volume);
      ev := [Event(Stop(names), ok)];
      if !ok { return Failed(Cause(StopStep)), [], ev; }
    }
  }

  lemma {:induction false} SetRunningNobody(cs: map<string, Container>, on: bool)
    ensures SetRunning(cs, {}, on) == cs
    ensures forall names :: SetRunning(cs, names, on).Keys == cs.Keys
  {
  }

  lemma {:induction false} StopThenStart(cs: map<string, Container>, names: set<string>)
    ensures SetRunning(SetRunning(cs, names, false), names, true) == SetRunning(cs, names, true)
  {
  }

  /** Writes the volume and, if containers were stopped, starts them again whatever happened. */
  method WriteAndStart(d: Docker, fs: Fileset, local: Index, diff: Diff, names: seq<string>)
    returns (r: Outcome, ghost writes: seq<Event>, up: bool)
    requires fs.volume in d.host.volumes
    modifies d`host, d`log, d`clean
    ensures fs.volume in d.host.volumes
    ensures r.Done? ==> && d.clean == old(d.clean)
                        && d.host == WithVolume(old(d.host), fs.volume, d.host.volumes[fs.volume])
                                     .(containers := SetRunning(old(d.host.containers), Elements(names), true))
                        && d.host.volumes[fs.volume] ==
                           Volume(old(d.host.volumes[fs.volume].labelled),
                                  Synced(old(d.host.volumes[fs.volume].files), TarOf(fs.source, diff), Elements(diff.toDelete)),
                                  Written(local))
    ensures d.clean ==> old(d.clean) && r.Done?
    ensures r.Done? ==> writes == WriteCalls(fs, local, diff) && up && !Blocked(d.host.volumes[fs.volume].files)
    ensures r.Failed? ==> Interrupted(old(d.host.volumes[fs.volume]), d.host.volumes[fs.volume], ChangeIn(fs, diff), local)
    ensures OnlyVolumeAndRunning(old(d.host), d.host, fs.volume)
    ensures d.log == old(d.log) + writes + (if names == [] then [] else [Event(Start(names), up)])
    ensures WritesOnly(writes, fs.volume) && (names != [] ==> KeepsCause(r, up))
  {
    up := true;
    r, writes := WriteVolume(d, fs, local, diff);
    SetRunningNobody(d.host.containers, true);
    if names != [] {
      up := d.StartContainers(names);
      if !up { r := Failed(if r.Failed? then Both(r.error, Cause(StartStep)) else Cause(StartStep)); }
    }
  }

  /** All the calls of one fileset whose stop, if any, succeeded. */
  ghost function AroundWith(names: seq<string>, writes: seq<Event>, up: bool): seq<Event> {
    if names == [] then writes else [Event(Stop(names), true)] + writes + [Event(Start(names), up)]
  }

  lemma {:induction false} AroundIsSyncLog(v: string, names: seq<string>, writes: seq<Event>, up: bool, r: Outcome)
    requires WritesOnly(writes, v) && (names != [] ==> KeepsCause(r, up))
    ensures SyncLog(AroundWith(names, writes, up), v, names, r)
  {
    var ev := AroundWith(names, writes, up);
    if names != [] { assert ev[1..|ev| - 1] == writes; }
  }

  /** A fileset whose tree hash differs. */
  method SyncChanged(d: Docker, fs: Fileset, local: Index, diff: Diff, services: seq<string>)
    returns (r: Outcome, ghost ev: seq<Event>)
    requires fs.volume in d.host.volumes && services == TargetServices(d.w, d.host, fs)
    modifies d`host, d`log, d`clean
    ensures fs.volume in d.host.volumes
    ensures r.Done? ==> && d.clean == old(d.clean)
                        && d.host == WithVolume(old(d.host), fs.volume, d.host.volumes[fs.volume])
                                     .(containers := SetRunning(old(d.host.containers), Elements(ColdNames(d.w, old(d.host), fs)), true))
                        && d.host.volumes[fs.volume] ==
                           Volume(old(d.host.volumes[fs.volume].labelled),
                                  Synced(old(d.host.volumes[fs.volume].files), TarOf(fs.source, diff), Elements(diff.toDelete)),
                                  Written(local))
    ensures d.clean ==> old(d.clean) && r.Done?
    ensures r.Done? ==> ev == AroundWith(ColdNames(d.w, old(d.host), fs), WriteCalls(fs, local, diff), true) &&
                        !Blocked(d.host.volumes[fs.volume].files)
    ensures r.Failed? ==> d.host.volumes[fs.volume] == old(d.host.volumes[fs.volume]) ||
                          Interrupted(old(d.host.volumes[fs.volume]), d.host.volumes[fs.volume], ChangeIn(fs, diff), local)
    ensures OnlyVolumeAndRunning(old(d.host), d.host, fs.volume)
    ensures d.log == old(d.log) + ev && SyncLog(ev, fs.volume, ColdNames(d.w, old(d.host), fs), r)
  {
    hide ColdNames, TargetServices, SyncLog, KeepsCause, WritesOnly, Interrupted, WriteCalls, Synced, TarOf, SetRunning, OnlyVolumeAndRunning, Blocked;
    ghost var h0 := d.host;
    var names;
    r, names, ev := StopTargets(d, fs, services);
    if r.Failed? { return; }
    ghost var h1 := d.host;
    ghost var writes;
    var up;
    r, writes, up := WriteAndStart(d, fs, local, diff, names);
    RunningOnlyTrans(h0, h1, d.host, fs.volume);
    StopThenStart(h0.containers, Elements(names));
    AroundIsSyncLog(fs.volume, names, writes, up, r);
    ev := AroundWith(names, writes, up);
  }

  /** One fileset, given its indexes and difference. */
  method SyncFileset(d: Docker, fs: Fileset, local: Index, remote: Index, diff: Diff)
    returns (r: Outcome, restart: set<string>, ghost ev: seq<Event>)
    requires fs.volume in d.host.volumes && diff == DiffOf(local, remote)
    modifies d`host, d`log, d`clean
    ensures r.Done? ==> && d.clean == old(d.clean)
                        && d.host == SyncedHost(d.w, old(d.host), fs, local, remote)
                        && restart == HotServices(d.w, old(d.host), fs, local, remote)
                        && ev == SyncCalls(d.w, old(d.host), fs, local, remote)
    ensures OnlyVolumeAndRunning(old(d.host), d.host, fs.volume)
    ensures r.Failed? ==> local.treeHash != remote.treeHash &&
                          (d.host.volumes[fs.volume] == old(d.host.volumes[fs.volume]) ||
                           Interrupted(old(d.host.volumes[fs.volume]), d.host.volumes[fs.volume], ChangeOf(fs.source, local, remote), local))
    ensures d.log == old(d.log) + ev && SyncLog(ev, fs.volume, ColdNames(d.w, old(d.host), fs), r)
    ensures d.clean ==> old(d.clean) && r.Done?
    ensures fs.cold ==> restart == {}
    ensures r.Done? ==> forall s :: s in restart <==> local.treeHash != remote.treeHash && !fs.cold && IsTarget(d.w, old(d.host), fs, s)
    ensures r.Done? && local.treeHash != remote.treeHash ==> !Blocked(d.host.volumes[fs.volume].files)
  {
    hide ColdNames, TargetServices, KeepsCause, Interrupted, WriteCalls, Synced, TarOf, DiffOf, SetRunning, Blocked, NoDup;
    r, restart, ev := Done, {}, [];
    if local.treeHash == remote.treeHash { return; }
    var ok, services := ResolveTargetServices(d, fs);
    if !ok { return Failed(Cause(Resolve)), {}, []; }
    r, ev := SyncChanged(d, fs, local, diff, services);
    if r.Done? && !fs.cold { restart := set s | s in services && s != ""; }
  }

  // ------------------------------------------------- all filesets of a context

  /** The indexes a synchronisation works with: those of the plan, or read now. */
  ghost function Inputs(h: Host, name: string, fs: Fileset, existing: set<string>,
                        cached: Option<map<string, FilesetData>>): (Index, Index) {
    if cached.Some? && name in cached.value then (cached.value[name].local, cached.value[name].remote)
    else (fs.local, if fs.volume in existing && fs.volume in h.volumes then RemoteOf(h.volumes[fs.volume].stored) else EmptyIndex)
  }

  datatype SyncState = SyncState(host: Host, pending: set<string>, calls: seq<Event>)

  /** One fileset: the new state, its restarts and its calls. */
  ghost function SyncOne(w: World, h: Host, name: string, fs: Fileset, existing: set<string>,
                         cached: Option<map<string, FilesetData>>): SyncState {
    if fs.volume !in h.volumes then SyncState(h, {}, []) else
      var (local, remote) := Inputs(h, name, fs, existing, cached);
      SyncState(SyncedHost(w, h, fs, local, remote), HotServices(w, h, fs, local, remote), SyncCalls(w, h, fs, local, remote))
  }

  function Then(s: SyncState, next: SyncState): SyncState {
    SyncState(next.host, s.pending + next.pending, s.calls + next.calls)
  }

  /** All filesets in the given order, without a failure. */
  ghost function SyncAll(w: World, h: Host, names: seq<string>, filesets: map<string, Fileset>, existing: set<string>,
                         cached: Option<map<string, FilesetData>>): SyncState
    requires forall n :: n in names ==> n in filesets
  {
    if names == [] then SyncState(h, {}, []) else
      var last := names[|names| - 1];
      var s := SyncAll(w, h, names[..|names| - 1], filesets, existing, cached);
      Then(s, SyncOne(w, s.host, last, filesets[last], existing, cached))
  }

  ghost predicate DistinctVolumes(filesets: map<string, Fileset>) {
    forall a, b :: a in filesets && b in filesets && a != b ==> filesets[a].volume != filesets[b].volume
  }

  ghost predicate ValidCache(cached: Option<map<string, FilesetData>>) {
    cached.Some? ==> forall n :: n in cached.value ==> cached.value[n].diff == DiffOf(cached.value[n].local, cached.value[n].remote)
  }

  /** Nothing but the filesets' volumes and running flags differs. */
  ghost predicate OnlyFilesets(h: Host, h': Host, filesets: map<string, Fileset>) {
    && h'.networks == h.networks
    && h'.volumes.Keys == h.volumes.Keys
    && (forall v :: v in h.volumes && (forall n :: n in filesets ==> filesets[n].volume != v) ==> h'.volumes[v] == h.volumes[v])
    && (forall v :: v in h.volumes ==> h'.volumes[v].labelled == h.volumes[v].labelled)
    && h'.containers.Keys == h.containers.Keys
    && (forall n :: n in h.containers ==> h'.containers[n].(running := true) == h.containers[n].(running := true))
  }

  /** Each fileset's volume is as an attempt of the retry theorem may leave it. */
  ghost predicate EachAttempted(h: Host, h': Host, names: seq<string>, filesets: map<string, Fileset>, planned: bool)
    requires forall n :: n in names ==> n in filesets
  {
    forall n :: n in names && filesets[n].volume in h.volumes && filesets[n].volume in h'.volumes ==>
      FailedAttempt(h.volumes[filesets[n].volume], h'.volumes[filesets[n].volume], filesets[n].source, filesets[n].local, planned)
  }

  /** What the synchronisation works with, if it is given a plan's findings, was found in this state. */
  ghost predicate Fits(h: Host, name: string, fs: Fileset, cached: Option<map<string, FilesetData>>) {
    cached.Some? ==> && name in cached.value && fs.volume in h.volumes && !Seen(h.volumes[fs.volume], true).Torn?
                     && cached.value[name].local == fs.local && cached.value[name].remote == RemoteOf(Seen(h.volumes[fs.volume], true))
  }

  ghost predicate AllFit(h: Host, filesets: map<string, Fileset>, cached: Option<map<string, FilesetData>>) {
    forall n :: n in filesets ==> Fits(h, n, filesets[n], cached)
  }

  /** No fileset's index file is torn. */
  ghost predicate NoneTorn(h: Host, filesets: map<string, Fileset>) {
    forall n :: n in filesets && filesets[n].volume in h.volumes ==> !h.volumes[filesets[n].volume].stored.Torn?
  }

  /** Reads the indexes of one fileset, from the plan or afresh. */
  /** The stored index can be parsed, or need not be read. */
  ghost predicate Readable(h: Host, name: string, fs: Fileset, cached: Option<map<string, FilesetData>>) {
    (cached.Some? && name in cached.value) || (fs.volume in h.volumes ==> !h.volumes[fs.volume].stored.Torn?)
  }

  ghost predicate AllReadable(h: Host, filesets: map<string, Fileset>, cached: Option<map<string, FilesetData>>) {
    forall n :: n in filesets ==> Readable(h, n, filesets[n], cached)
  }

  /** A synchronisation tears no index. */
  lemma {:induction false} StaysReadable(w: World, h: Host, name: string, filesets: map<string, Fileset>, existing: set<string>,
                                         cached: Option<map<string, FilesetData>>)
    requires name in filesets && AllReadable(h, filesets, cached)
    ensures AllReadable(SyncOne(w, h, name, filesets[name], existing, cached).host, filesets, cached)
  {
    hide ColdNames, Inputs, ChangeOf, HotServices, SyncCalls, Synced, SetRunning;
  }

  method LoadInputs(d: Docker, name: string, fs: Fileset, existing: set<string>, cached: Option<map<string, FilesetData>>)
    returns (r: Outcome, local: Index, remote: Index, diff: Diff)
    requires ValidCache(cached)
    modifies d`clean
    ensures r.Done? ==> && d.clean == old(d.clean)
                        && (local, remote) == Inputs(d.host, name, fs, existing, cached)
                        && diff == DiffOf(local, remote)
                        && (cached.None? && fs.volume in existing && fs.volume in d.host.volumes ==> !d.host.volumes[fs.volume].stored.Torn?)
    ensures d.clean ==> old(d.clean) && (r.Done? || (r == Failed(Cause(ParseRemote)) && !Readable(d.host, name, fs, cached)))
  {
    r, local, remote, diff := Done, EmptyIndex, EmptyIndex, NoChange;
    if cached.Some? && name in cached.value {
      return Done, cached.value[name].local, cached.value[name].remote, cached.value[name].diff;
    }
    var ok := d.Read(); // the source directory
    if !ok { return Failed(Cause(Local)), EmptyIndex, EmptyIndex, NoChange; }
    local := fs.local;
    var raw := Absent;
    if fs.volume in existing {
      ok, raw := d.ReadIndex(fs.volume);
      if !ok { return Failed(Cause(ReadRemote)), EmptyIndex, EmptyIndex, NoChange; }
    }
    if raw.Torn? { return Failed(Cause(ParseRemote)), EmptyIndex, EmptyIndex, NoChange; }
    remote := RemoteOf(raw);
    diff := DiffIndexes(local, remote);
  }

  /** One named fileset, from loading its indexes to the restarts it asks for. */
  method SyncNamed(d: Docker, name: string, fs: Fileset, existing: set<string>, cached: Option<map<string, FilesetData>>)
    returns (r: Outcome, more: set<string>, ghost ev: seq<Event>)
    requires fs.volume in d.host.volumes && fs.volume in existing && ValidCache(cached)
    modifies d`host, d`log, d`clean
    ensures r.Done? ==> && d.clean == old(d.clean)
                        && SyncState(d.host, more, ev) == SyncOne(d.w, old(d.host), name, fs, existing, cached)
    ensures d.log == old(d.log) + ev && d.host.volumes.Keys == old(d.host.volumes.Keys)
    ensures OnlyVolumeAndRunning(old(d.host), d.host, fs.volume)
    ensures Fits(old(d.host), name, fs, cached) ==>
              FailedAttempt(old(d.host.volumes[fs.volume]), d.host.volumes[fs.volume], fs.source, fs.local, cached.Some?)
    ensures r.Done? && cached.None? ==> !old(d.host.volumes[fs.volume]).stored.Torn?
    ensures d.clean ==> old(d.clean) && (r.Done? || !Readable(old(d.host), name, fs, cached))
    ensures SyncLog(ev, fs.volume, ColdNames(d.w, old(d.host), fs), r)
  {
    more, ev := {}, [];
    var local, remote, diff;
    r, local, remote, diff := LoadInputs(d, name, fs, existing, cached);
    if r.Done? { r, more, ev := SyncFileset(d, fs, local, remote, diff); }
  }

  ghost predicate Untouched(h: Host, h': Host, names: seq<string>, filesets: map<string, Fileset>)
    requires forall n :: n in names ==> n in filesets
  {
    forall n :: n in names && filesets[n].volume in h.volumes && filesets[n].volume in h'.volumes ==>
      h'.volumes[filesets[n].volume] == h.volumes[filesets[n].volume]
  }

  /** How far a pass over `names` has come: what it may have done up to entry `i`. */
  ghost predicate Progress(h0: Host, h: Host, names: seq<string>, i: nat, filesets: map<string, Fileset>, cached: Option<map<string, FilesetData>>)
    requires i <= |names| && forall n :: n in names ==> n in filesets
  {
    && OnlyFilesets(h0, h, filesets)
    && (DistinctVolumes(filesets) && AllFit(h0, filesets, cached) ==>
          EachAttempted(h0, h, names, filesets, cached.Some?) && Untouched(h0, h, names[i..], filesets))
  }

  lemma {:induction false} ProgressStart(h: Host, names: seq<string>, filesets: map<string, Fileset>, cached: Option<map<string, FilesetData>>)
    requires forall n :: n in names ==> n in filesets
    ensures Progress(h, h, names, 0, filesets, cached)
  {
  }

  /** The volume of the next fileset is as it was, so the findings still fit. */
  lemma {:induction false} NextFits(h0: Host, h: Host, names: seq<string>, i: nat, filesets: map<string, Fileset>, cached: Option<map<string, FilesetData>>)
    requires i < |names| && (forall n :: n in names ==> n in filesets) && Progress(h0, h, names, i, filesets, cached)
    requires DistinctVolumes(filesets) && AllFit(h0, filesets, cached)
    requires filesets[names[i]].volume in h0.volumes && filesets[names[i]].volume in h.volumes
    ensures Fits(h, names[i], filesets[names[i]], cached)
  {
    assert names[i] in names[i..];
    assert Fits(h0, names[i], filesets[names[i]], cached);
  }

  lemma {:induction false} ProgressStep(h0: Host, h1: Host, h2: Host, names: seq<string>, i: nat, filesets: map<string, Fileset>,
                     cached: Option<map<string, FilesetData>>)
    requires i < |names| && NoDup(names) && (forall n :: n in names ==> n in filesets)
    requires Progress(h0, h1, names, i, filesets, cached)
    requires var fs := filesets[names[i]];
             && fs.volume in h1.volumes && fs.volume in h2.volumes && OnlyVolumeAndRunning(h1, h2, fs.volume)
             && (DistinctVolumes(filesets) && AllFit(h0, filesets, cached) ==>
                   FailedAttempt(h1.volumes[fs.volume], h2.volumes[fs.volume], fs.source, fs.local, cached.Some?))
    ensures Progress(h0, h2, names, i + 1, filesets, cached)
  {
    hide AllFit, FailedAttempt;
    var fs := filesets[names[i]];
    assert names[i] in names[i..];
    forall c | c in h0.containers ensures h2.containers[c].(running := true) == h0.containers[c].(running := true) {
      assert c in h1.containers;
    }
    if DistinctVolumes(filesets) && AllFit(h0, filesets, cached) {
      forall n | n in names && filesets[n].volume in h0.volumes && filesets[n].volume in h2.volumes
        ensures FailedAttempt(h0.volumes[filesets[n].volume], h2.volumes[filesets[n].volume], filesets[n].source, filesets[n].local, cached.Some?)
      {
        if n != names[i] { assert h2.volumes[filesets[n].volume] == h1.volumes[filesets[n].volume]; }
      }
      forall n | n in names[i + 1..] && filesets[n].volume in h0.volumes && filesets[n].volume in h2.volumes
        ensures h2.volumes[filesets[n].volume] == h0.volumes[filesets[n].volume]
      {
        assert n != names[i] && n in names[i..];
      }
    }
  }

  /** What has been read so far was whole; what has not been reached is as it was. */
  ghost predicate ReadSoFar(h0: Host, h: Host, done: set<string>, filesets: map<string, Fileset>) {
    && (forall n :: n in done && n in filesets && filesets[n].volume in h0.volumes ==> !h0.volumes[filesets[n].volume].stored.Torn?)
    && (forall v :: v in h0.volumes && v in h.volumes && (forall n :: n in done && n in filesets ==> filesets[n].volume != v) ==> h.volumes[v] == h0.volumes[v])
  }

  lemma {:induction false} ReadStep(h0: Host, h1: Host, h2: Host, done: set<string>, n: string, filesets: map<string, Fileset>)
    requires n in filesets && ReadSoFar(h0, h1, done, filesets) && h1.volumes.Keys == h0.volumes.Keys
    requires filesets[n].volume in h1.volumes && !h1.volumes[filesets[n].volume].stored.Torn? && OnlyVolumeAndRunning(h1, h2, filesets[n].volume)
    ensures ReadSoFar(h0, h2, done + {n}, filesets)
  {
    forall x | x in h0.volumes && x in h2.volumes && (forall m :: m in done + {n} && m in filesets ==> filesets[m].volume != x)
      ensures h2.volumes[x] == h0.volumes[x]
    {
      assert n in done + {n};
      forall m | m in done && m in filesets ensures filesets[m].volume != x { assert m in done + {n}; }
    }
  }

  lemma {:induction false} AllRead(h0: Host, h: Host, filesets: map<string, Fileset>)
    requires ReadSoFar(h0, h, filesets.Keys, filesets)
    ensures NoneTorn(h0, filesets)
  {
  }

  lemma {:induction false} NoneRead(h: Host, filesets: map<string, Fileset>)
    ensures ReadSoFar(h, h, {}, filesets)
  {
  }

  lemma {:induction false} SyncAllNil(w: World, h: Host, names: seq<string>, filesets: map<string, Fileset>, existing: set<string>,
                   cached: Option<map<string, FilesetData>>)
    ensures SyncAll(w, h, names[..0], filesets, existing, cached) == SyncState(h, {}, [])
  {
  }

  lemma {:induction false} SyncAllSnoc(w: World, h: Host, names: seq<string>, i: nat, filesets: map<string, Fileset>, existing: set<string>,
                    cached: Option<map<string, FilesetData>>)
    requires i < |names| && (forall n :: n in names ==> n in filesets)
    ensures var s := SyncAll(w, h, names[..i], filesets, existing, cached);
            SyncAll(w, h, names[..i + 1], filesets, existing, cached) ==
            Then(s, SyncOne(w, s.host, names[i], filesets[names[i]], existing, cached))
  {
    hide SyncOne;
    assert names[..i + 1][..i] == names[..i];
  }

  /** One fileset's share of a pass: its calls, what it stops if it is cold, and how it ended. */
  datatype Part = Part(events: seq<Event>, cold: seq<string>, result: Outcome)

  ghost function Flat(parts: seq<Part>): seq<Event> {
    if parts == [] then [] else Flat(parts[..|parts| - 1]) + parts[|parts| - 1].events
  }

  /** The calls of a pass over `names`: one bracket per fileset, in order, up to and including the first that fails. */
  ghost predicate Brackets(parts: seq<Part>, ev: seq<Event>, names: seq<string>, filesets: map<string, Fileset>, r: Outcome)
    requires forall n :: n in names ==> n in filesets
  {
    && |parts| <= |names| && ev == Flat(parts)
    && (forall i :: 0 <= i < |parts| ==> SyncLog(parts[i].events, filesets[names[i]].volume, parts[i].cold, parts[i].result))
    && (forall i :: 0 <= i < |parts| - 1 ==> parts[i].result.Done?)
    && r == if parts == [] then Done else parts[|parts| - 1].result
  }

  lemma {:induction false} BracketsStart(names: seq<string>, filesets: map<string, Fileset>)
    requires forall n :: n in names ==> n in filesets
    ensures Brackets([], [], names, filesets, Done)
  {
  }

  lemma {:induction false} BracketsStep(parts: seq<Part>, ev: seq<Event>, names: seq<string>, filesets: map<string, Fileset>, part: Part)
    requires (forall n :: n in names ==> n in filesets) && Brackets(parts, ev, names, filesets, Done) && |parts| < |names|
    requires SyncLog(part.events, filesets[names[|parts|]].volume, part.cold, part.result)
    ensures Brackets(parts + [part], ev + part.events, names, filesets, part.result)
  {
    hide SyncLog;
    assert (parts + [part])[..|parts|] == parts;
  }

  method SyncFilesets(d: Docker, filesets: map<string, Fileset>, existing: set<string>, cached: Option<map<string, FilesetData>>)
    returns (r: Outcome, pending: set<string>, ghost ev: seq<Event>, ghost parts: seq<Part>)
    requires forall n :: n in filesets ==> filesets[n].volume in d.host.volumes && filesets[n].volume in existing
    requires ValidCache(cached)
    modifies d`host, d`log, d`clean
    ensures KeysIn(SortedKeys(filesets.Keys), filesets)
    ensures r.Done? ==> && d.clean == old(d.clean)
                        && SyncState(d.host, pending, ev) ==
                           SyncAll(d.w, old(d.host), SortedKeys(filesets.Keys), filesets, existing, cached)
    ensures d.log == old(d.log) + ev
    ensures OnlyFilesets(old(d.host), d.host, filesets)
    ensures DistinctVolumes(filesets) && AllFit(old(d.host), filesets, cached) ==>
              EachAttempted(old(d.host), d.host, SortedKeys(filesets.Keys), filesets, cached.Some?)
    ensures r.Done? && cached.None? ==> NoneTorn(old(d.host), filesets)
    ensures d.clean ==> old(d.clean) && (AllReadable(old(d.host), filesets, cached) ==> r.Done?)
    ensures Brackets(parts, ev, SortedKeys(filesets.Keys), filesets, r) && (r.Done? ==> |parts| == |SortedKeys(filesets.Keys)|)
  {
    hide SyncLog, SyncOne, SyncAll, OnlyVolumeAndRunning, FailedAttempt, Progress, StrictlySorted, SortedKeys, NoDup, Elements,
         DistinctVolumes, EachAttempted, OnlyFilesets, ValidCache, AllFit, Fits, ReadSoFar, NoneTorn, Brackets, ColdNames, AllReadable, Readable;
    r, pending, ev, parts := Done, {}, [], [];
    var names := SortKeys(filesets.Keys);
    SortedKeysIn(filesets);
    SortedKeysStrict(filesets.Keys);
    ghost var h0, st := d.host, SyncState(d.host, {}, []);
    ghost var done: set<string> := {};
    ProgressStart(h0, names, filesets, cached);
    NoneRead(h0, filesets);
    SyncAllNil(d.w, h0, names, filesets, existing, cached);
    FirstElements(names, 0);
    BracketsStart(names, filesets);
    var i := 0;
    while i < |names| && r.Done?
      invariant 0 <= i <= |names| && done == Elements(names[..i])
      invariant d.log == old(d.log) + ev && d.host.volumes.Keys == h0.volumes.Keys
      invariant r.Done? ==> d.clean == old(d.clean) && st == SyncState(d.host, pending, ev)
      invariant r.Done? ==> st == SyncAll(d.w, h0, names[..i], filesets, existing, cached)
      invariant Progress(h0, d.host, names, i, filesets, cached)
      invariant r.Done? && cached.None? ==> ReadSoFar(h0, d.host, done, filesets)
      invariant Brackets(parts, ev, names, filesets, r) && |parts| == i
      invariant d.clean ==> old(d.clean) && (AllReadable(h0, filesets, cached) ==> r.Done? && AllReadable(d.host, filesets, cached))
    {
      ghost var h1, calls := d.host, [];
      var more;
      if DistinctVolumes(filesets) && AllFit(h0, filesets, cached) { NextFits(h0, h1, names, i, filesets, cached); }
      if AllReadable(h1, filesets, cached) {
        OneReadable(h1, names[i], filesets, cached);
        StaysReadable(d.w, h1, names[i], filesets, existing, cached);
      }
      r, more, calls := SyncNamed(d, names[i], filesets[names[i]], existing, cached);
      ghost var part := Part(calls, ColdNames(d.w, h1, filesets[names[i]]), r);
      BracketsStep(parts, ev, names, filesets, part);
      parts := parts + [part];
      ev := ev + calls;
      ProgressStep(h0, h1, d.host, names, i, filesets, cached);
      SyncAllSnoc(d.w, h0, names, i, filesets, existing, cached);
      if r.Done? && cached.None? { ReadStep(h0, h1, d.host, done, names[i], filesets); }
      FirstElements(names, i + 1);
      done := done + {names[i]};
      pending := pending + more;
      st := SyncState(d.host, pending, ev);
      i := i + 1;
    }
    assert names[..|names|] == names;
    ProgressEnd(h0, d.host, names, i, filesets, cached);
    if r.Done? && cached.None? { AllRead(h0, d.host, filesets); }
  }

  lemma {:induction false} OneReadable(h: Host, name: string, filesets: map<string, Fileset>, cached: Option<map<string, FilesetData>>)
    requires name in filesets && AllReadable(h, filesets, cached)
    ensures Readable(h, name, filesets[name], cached)
  {
  }

  lemma {:induction false} FirstElements(names: seq<string>, i: nat)
    requires i <= |names|
    ensures Elements(names[..i]) == if i == 0 then {} else Elements(names[..i - 1]) + {names[i - 1]}
  {
    if i > 0 { assert names[..i] == names[..i - 1] + [names[i - 1]]; }
  }

  lemma {:induction false} ProgressEnd(h0: Host, h: Host, names: seq<string>, i: nat, filesets: map<string, Fileset>, cached: Option<map<string, FilesetData>>)
    requires i <= |names| && (forall n :: n in names ==> n in filesets) && Progress(h0, h, names, i, filesets, cached)
    ensures OnlyFilesets(h0, h, filesets)
    ensures DistinctVolumes(filesets) && AllFit(h0, filesets, cached) ==> EachAttempted(h0, h, names, filesets, cached.Some?)
  {
  }

  ghost predicate KeysIn(names: seq<string>, filesets: map<string, Fileset>) { forall n :: n in names ==> n in filesets }

  lemma {:induction false} SortedKeysIn(filesets: map<string, Fileset>)
    ensures KeysIn(SortedKeys(filesets.Keys), filesets)
  {
    assert forall n :: n in SortedKeys(filesets.Keys) ==> n in Elements(SortedKeys(filesets.Keys));
  }
}
