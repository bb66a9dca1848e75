/**
 How many creates, updates and deletes a plan counts (internal/planner/resource.go:443-479).
 */
module PlanCounts {
  import opened Text
  import opened Planning

  datatype Kind = Creates | Updates | Deletions

  predicate Counted(r: Resource, kind: Kind) {
    match kind
    case Creates => r.action == Create
    case Updates => r.action == Update || r.action == Reconcile
    case Deletions => r.action == Delete
  }

  /** `messages`: whether entries without a name count; in filesets they do not. */
  function CountSeq(rs: seq<Resource>, kind: Kind, messages: bool): nat {
    if rs == [] then 0 else
      var last := rs[|rs| - 1];
      CountSeq(rs[..|rs| - 1], kind, messages) + if (messages || last.name != "") && Counted(last, kind) then 1 else 0
  }

  ghost function CountKeys(keys: set<string>, m: map<string, seq<Resource>>, kind: Kind, messages: bool): nat
    requires keys <= m.Keys
  {
    if keys == {} then 0 else
      var k :| k in keys;
      CountSeq(m[k], kind, messages) + CountKeys(keys - {k}, m, kind, messages)
  }

  lemma {:induction false} FirstCounted(keys: set<string>, m: map<string, seq<Resource>>, kind: Kind, messages: bool) returns (j: string)
    requires keys <= m.Keys && keys != {}
    ensures j in keys
    ensures CountKeys(keys, m, kind, messages) == CountSeq(m[j], kind, messages) + CountKeys(keys - {j}, m, kind, messages)
  {
    j :| j in keys && CountKeys(keys, m, kind, messages) == CountSeq(m[j], kind, messages) + CountKeys(keys - {j}, m, kind, messages);
  }

  /** Map order does not matter: any key can be counted first. */
  lemma {:induction false} CountKeysPick(keys: set<string>, m: map<string, seq<Resource>>, kind: Kind, messages: bool, k: string)
    requires keys <= m.Keys && k in keys
    ensures CountKeys(keys, m, kind, messages) == CountSeq(m[k], kind, messages) + CountKeys(keys - {k}, m, kind, messages)
    decreases keys
  {
    hide CountSeq;
    var j := FirstCounted(keys, m, kind, messages);
    if j != k {
      CountKeysPick(keys - {j}, m, kind, messages, k);
      CountKeysPick(keys - {k}, m, kind, messages, j);
      assert keys - {j} - {k} == keys - {k} - {j};
    }
  }

  ghost function CountPlan(p: ResourcePlan, kind: Kind): nat {
    CountSeq(p.volumes, kind, true) + CountSeq(p.networks, kind, true) +
    CountKeys(p.stacks.Keys, p.stacks, kind, true) + CountKeys(p.filesets.Keys, p.filesets, kind, false)
  }

  // ------------------------------------------------------- counts as numbers of entries

  datatype Section = Volumes | Networks | Stacks | Filesets

  /** Where an entry stands in a plan; `key` is empty where there is only one list. */
  datatype Place = Place(section: Section, key: string, i: nat)

  ghost predicate Relevant(r: Resource, actions: set<Action>, messages: bool) { (messages || r.name != "") && r.action in actions }

  ghost function ListPlaces(section: Section, key: string, rs: seq<Resource>, actions: set<Action>, messages: bool): set<Place> {
    set i | 0 <= i < |rs| && Relevant(rs[i], actions, messages) :: Place(section, key, i)
  }

  ghost function MapPlaces(section: Section, keys: set<string>, m: map<string, seq<Resource>>, actions: set<Action>, messages: bool): set<Place>
    requires keys <= m.Keys
  {
    set k, i | k in keys && 0 <= i < |m[k]| && Relevant(m[k][i], actions, messages) :: Place(section, k, i)
  }

  /** The places of the entries with one of these actions; a nameless fileset entry is only a message. */
  ghost function Entries(p: ResourcePlan, actions: set<Action>): set<Place> {
    ListPlaces(Volumes, "", p.volumes, actions, true) + ListPlaces(Networks, "", p.networks, actions, true) +
    MapPlaces(Stacks, p.stacks.Keys, p.stacks, actions, true) + MapPlaces(Filesets, p.filesets.Keys, p.filesets, actions, false)
  }

  ghost predicate Means(kind: Kind, actions: set<Action>) { forall r :: Counted(r, kind) <==> r.action in actions }

  lemma {:induction false} ListCount(section: Section, key: string, rs: seq<Resource>, kind: Kind, actions: set<Action>, messages: bool)
    requires Means(kind, actions)
    ensures CountSeq(rs, kind, messages) == |ListPlaces(section, key, rs, actions, messages)|
  {
    hide Counted;
    if rs == [] {
      assert ListPlaces(section, key, rs, actions, messages) == {};
    } else {
      var n := |rs| - 1;
      ListCount(section, key, rs[..n], kind, actions, messages);
      ListSnoc(section, key, rs, actions, messages);
    }
  }

  lemma {:induction false} ListSnoc(section: Section, key: string, rs: seq<Resource>, actions: set<Action>, messages: bool)
    requires rs != []
    ensures var n := |rs| - 1;
            |ListPlaces(section, key, rs, actions, messages)| ==
            |ListPlaces(section, key, rs[..n], actions, messages)| + if Relevant(rs[n], actions, messages) then 1 else 0
  {
    hide Relevant;
    var n := |rs| - 1;
    var a, b := ListPlaces(section, key, rs[..n], actions, messages), ListPlaces(section, key, rs, actions, messages);
    var last := if Relevant(rs[n], actions, messages) then {Place(section, key, n)} else {};
    forall x ensures x in b <==> x in a + last {
      if x in b { assert x.i < n ==> rs[..n][x.i] == rs[x.i]; }
      if x in a { assert rs[..n][x.i] == rs[x.i]; }
    }
    assert b == a + last && a !! last;
  }

  lemma {:induction false} MapCount(section: Section, keys: set<string>, m: map<string, seq<Resource>>, kind: Kind, actions: set<Action>, messages: bool)
    requires keys <= m.Keys && Means(kind, actions)
    ensures CountKeys(keys, m, kind, messages) == |MapPlaces(section, keys, m, actions, messages)|
    decreases keys
  {
    hide CountSeq, Means, ListPlaces, MapPlaces;
    if keys == {} {
      NoPlaces(section, m, actions, messages);
    } else {
      var k := FirstCounted(keys, m, kind, messages);
      MapCount(section, keys - {k}, m, kind, actions, messages);
      ListCount(section, k, m[k], kind, actions, messages);
      MapSplit(section, keys, m, actions, messages, k);
    }
  }

  lemma {:induction false} NoPlaces(section: Section, m: map<string, seq<Resource>>, actions: set<Action>, messages: bool)
    ensures MapPlaces(section, {}, m, actions, messages) == {}
  {
  }

  lemma {:induction false} MapSplit(section: Section, keys: set<string>, m: map<string, seq<Resource>>, actions: set<Action>, messages: bool, k: string)
    requires keys <= m.Keys && k in keys
    ensures |MapPlaces(section, keys, m, actions, messages)| ==
            |ListPlaces(section, k, m[k], actions, messages)| + |MapPlaces(section, keys - {k}, m, actions, messages)|
  {
    hide Relevant;
    var a, b := ListPlaces(section, k, m[k], actions, messages), MapPlaces(section, keys - {k}, m, actions, messages);
    assert MapPlaces(section, keys, m, actions, messages) == a + b;
    assert a !! b;
  }

  /** Each count is the number of entries of its kind: creates; updates and reconciles; deletes. */
  lemma {:induction false} CountsSay(p: ResourcePlan)
    ensures CountPlan(p, Creates) == |Entries(p, {Create})|
    ensures CountPlan(p, Updates) == |Entries(p, {Update, Reconcile})|
    ensures CountPlan(p, Deletions) == |Entries(p, {Delete})|
  {
    hide CountSeq, CountKeys, Entries;
    assert Means(Creates, {Create}) && Means(Updates, {Update, Reconcile}) && Means(Deletions, {Delete});
    CountIs(p, Creates, {Create});
    CountIs(p, Updates, {Update, Reconcile});
    CountIs(p, Deletions, {Delete});
  }

  lemma {:induction false} CountIs(p: ResourcePlan, kind: Kind, actions: set<Action>)
    requires Means(kind, actions)
    ensures CountPlan(p, kind) == |Entries(p, actions)|
  {
    hide CountSeq, CountKeys, Means, Entries, ListPlaces, MapPlaces;
    ListCount(Volumes, "", p.volumes, kind, actions, true);
    ListCount(Networks, "", p.networks, kind, actions, true);
    MapCount(Stacks, p.stacks.Keys, p.stacks, kind, actions, true);
    MapCount(Filesets, p.filesets.Keys, p.filesets, kind, actions, false);
    EntriesSplit(p, actions);
  }

  lemma {:induction false} EntriesSplit(p: ResourcePlan, actions: set<Action>)
    ensures |Entries(p, actions)| ==
            |ListPlaces(Volumes, "", p.volumes, actions, true)| + |ListPlaces(Networks, "", p.networks, actions, true)| +
            |MapPlaces(Stacks, p.stacks.Keys, p.stacks, actions, true)| + |MapPlaces(Filesets, p.filesets.Keys, p.filesets, actions, false)|
  {
    hide ListPlaces, MapPlaces;
    var v, n := ListPlaces(Volumes, "", p.volumes, actions, true), ListPlaces(Networks, "", p.networks, actions, true);
    var s, f := MapPlaces(Stacks, p.stacks.Keys, p.stacks, actions, true), MapPlaces(Filesets, p.filesets.Keys, p.filesets, actions, false);
    InSection(Volumes, "", p.volumes, actions, true);
    InSection(Networks, "", p.networks, actions, true);
    InSections(Stacks, p.stacks.Keys, p.stacks, actions, true);
    InSections(Filesets, p.filesets.Keys, p.filesets, actions, false);
    FourSections(v, n, s, f);
  }

  lemma {:induction false} FourSections(v: set<Place>, n: set<Place>, s: set<Place>, f: set<Place>)
    requires (forall x :: x in v ==> x.section == Volumes) && (forall x :: x in n ==> x.section == Networks)
    requires (forall x :: x in s ==> x.section == Stacks) && (forall x :: x in f ==> x.section == Filesets)
    ensures |v + n + s + f| == |v| + |n| + |s| + |f|
  {
    assert v !! n && (v + n) !! s && (v + n + s) !! f;
  }

  lemma {:induction false} InSection(section: Section, key: string, rs: seq<Resource>, actions: set<Action>, messages: bool)
    ensures forall x :: x in ListPlaces(section, key, rs, actions, messages) ==> x.section == section
  {
  }

  lemma {:induction false} InSections(section: Section, keys: set<string>, m: map<string, seq<Resource>>, actions: set<Action>, messages: bool)
    requires keys <= m.Keys
    ensures forall x :: x in MapPlaces(section, keys, m, actions, messages) ==> x.section == section
  {
  }

  method CountResources(rs: seq<Resource>, kind: Kind, messages: bool) returns (c: nat)
    ensures c == CountSeq(rs, kind, messages)
  {
    c := 0;
    for i := 0 to |rs|
      invariant c == CountSeq(rs[..i], kind, messages)
    {
      assert rs[..i + 1][..i] == rs[..i];
      if (messages || rs[i].name != "") && Counted(rs[i], kind) { c := c + 1; }
    }
    assert rs[..|rs|] == rs;
  }

  method CountMap(m: map<string, seq<Resource>>, kind: Kind, messages: bool) returns (c: nat)
    ensures c == CountKeys(m.Keys, m, kind, messages)
  {
    hide CountSeq;
    c := 0;
    var left := m.Keys;
    while left != {}
      invariant left <= m.Keys && c + CountKeys(left, m, kind, messages) == CountKeys(m.Keys, m, kind, messages)
      decreases left
    {
      var k :| k in left;
      CountKeysPick(left, m, kind, messages, k);
      var one := CountResources(m[k], kind, messages);
      c := c + one;
      left := left - {k};
    }
  }

  method CountKind(p: ResourcePlan, kind: Kind) returns (c: nat)
    ensures c == CountPlan(p, kind)
  {
    var v := CountResources(p.volumes, kind, true);
    var n := CountResources(p.networks, kind, true);
    var s := CountMap(p.stacks, kind, true);
    var f := CountMap(p.filesets, kind, false);
    c := v + n + s + f;
  }

  method CountActions(p: ResourcePlan) returns (create: nat, update: nat, delete: nat)
    ensures create == CountPlan(p, Creates) && update == CountPlan(p, Updates) && delete == CountPlan(p, Deletions)
    ensures create == |Entries(p, {Create})| && update == |Entries(p, {Update, Reconcile})| && delete == |Entries(p, {Delete})|
  {
    hide CountPlan, Entries;
    CountsSay(p);
    create := CountKind(p, Creates);
    update := CountKind(p, Updates);
    delete := CountKind(p, Deletions);
  }

  // -------------------------------------------------------------- empty plans

  ghost predicate QuietSeq(rs: seq<Resource>, kind: Kind, messages: bool) {
    forall r :: r in rs ==> !Counted(r, kind) || (!messages && r.name == "")
  }

  /** No entry asks for a change; a nameless fileset entry is a message. */
  ghost predicate Quiet(p: ResourcePlan) {
    && (forall r :: r in p.volumes ==> r.action == Noop)
    && (forall r :: r in p.networks ==> r.action == Noop)
    && (forall k, r :: k in p.stacks && r in p.stacks[k] ==> r.action == Noop)
    && (forall k, r :: k in p.filesets && r in p.filesets[k] ==> r.action == Noop || r.name == "")
  }

  ghost predicate CountsNothing(p: ResourcePlan) { forall kind: Kind :: CountPlan(p, kind) == 0 }

  lemma {:induction false} ZeroSeq(rs: seq<Resource>, kind: Kind, messages: bool)
    ensures CountSeq(rs, kind, messages) == 0 <==> QuietSeq(rs, kind, messages)
  {
    if rs != [] {
      var front, last := rs[..|rs| - 1], rs[|rs| - 1];
      ZeroSeq(front, kind, messages);
      assert rs == front + [last];
      assert last in rs;
    }
  }

  lemma {:induction false} ZeroKeys(keys: set<string>, m: map<string, seq<Resource>>, kind: Kind, messages: bool)
    requires keys <= m.Keys
    ensures CountKeys(keys, m, kind, messages) == 0 <==> forall k :: k in keys ==> QuietSeq(m[k], kind, messages)
    decreases keys
  {
    hide CountSeq, QuietSeq;
    if keys != {} {
      var j := FirstCounted(keys, m, kind, messages);
      ZeroSeq(m[j], kind, messages);
      ZeroKeys(keys - {j}, m, kind, messages);
      assert forall k :: k in keys <==> k == j || k in keys - {j};
    }
  }

  lemma {:induction false} ZeroKind(p: ResourcePlan, kind: Kind)
    ensures CountPlan(p, kind) == 0 <==>
            && QuietSeq(p.volumes, kind, true) && QuietSeq(p.networks, kind, true)
            && (forall k :: k in p.stacks ==> QuietSeq(p.stacks[k], kind, true))
            && (forall k :: k in p.filesets ==> QuietSeq(p.filesets[k], kind, false))
  {
    hide CountSeq, CountKeys, QuietSeq;
    ZeroSeq(p.volumes, kind, true);
    ZeroSeq(p.networks, kind, true);
    ZeroKeys(p.stacks.Keys, p.stacks, kind, true);
    ZeroKeys(p.filesets.Keys, p.filesets, kind, false);
  }

  /** A plan counts nothing exactly when no entry asks for a change. */
  lemma {:induction false} CountZero(p: ResourcePlan)
    ensures CountsNothing(p) <==> Quiet(p)
  {
    forall kind: Kind { ZeroKind(p, kind); }
    hide CountPlan;
    if CountsNothing(p) {
      assert CountPlan(p, Creates) == 0 && CountPlan(p, Updates) == 0 && CountPlan(p, Deletions) == 0;
      forall r: Resource ensures r.action == Noop || Counted(r, Creates) || Counted(r, Updates) || Counted(r, Deletions) {}
    }
  }
}
