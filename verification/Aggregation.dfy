/**
 The plan over all contexts: per-context plans merged under prefixed keys
 (internal/planner/build_plan.go:29-91, build_plan_filesets.go:233-260), and what its counts
 say about the single contexts.
 */
module Aggregation {
  import opened Text
  import opened Planning
  import opened PlanCounts
  import opened DockerHost
  import opened FilesetSync
  import opened ContextState
  import opened Applying
  import opened Pruning
  import opened Convergence
  import M = Manifest

  datatype ContextPlan = ContextPlan(context: string, plan: ResourcePlan)

  const Nothing := ResourcePlan([], [], map[], map[])

  /** The stacks of a context under keys of the whole plan. */
  function Prefixed(context: string, stacks: map<string, seq<Resource>>): map<string, seq<Resource>> {
    map k | k in PrefixedKeys(context, stacks.Keys) :: stacks[Unprefixed(context, k, stacks.Keys)]
  }

  function PrefixedKeys(context: string, keys: set<string>): set<string> { set k | k in keys :: M.MakeKey(context, k) }

  /** The key behind a prefixed key. */
  function Unprefixed(context: string, key: string, keys: set<string>): (k: string)
    requires key in PrefixedKeys(context, keys)
    ensures k in keys && M.MakeKey(context, k) == key
  {
    var k := key[|context| + 1..];
    assert forall j :: j in keys && M.MakeKey(context, j) == key ==> j == k;
    k
  }

  function Merged(agg: ResourcePlan, cp: ContextPlan): ResourcePlan {
    ResourcePlan(agg.volumes + cp.plan.volumes, agg.networks + cp.plan.networks,
                 agg.stacks + Prefixed(cp.context, cp.plan.stacks), agg.filesets + cp.plan.filesets)
  }

  function Aggregate(ps: seq<ContextPlan>): ResourcePlan {
    if ps == [] then Nothing else Merged(Aggregate(ps[..|ps| - 1]), ps[|ps| - 1])
  }

  method AggregateContextPlan(agg: ResourcePlan, cp: ContextPlan) returns (r: ResourcePlan)
    ensures r == Merged(agg, cp)
  {
    hide Prefixed;
    var stacks := MergeStacks(agg.stacks, cp.context, cp.plan.stacks);
    var filesets := MergeFilesets(agg.filesets, cp.plan.filesets);
    r := ResourcePlan(agg.volumes + cp.plan.volumes, agg.networks + cp.plan.networks, stacks, filesets);
  }

  method MergeStacks(all: map<string, seq<Resource>>, context: string, stacks: map<string, seq<Resource>>) returns (r: map<string, seq<Resource>>)
    ensures r == all + Prefixed(context, stacks)
  {
    hide Prefixed;
    r := all;
    var left := stacks.Keys;
    NothingPrefixed(context);
    assert stacks - left == map[];
    while left != {}
      invariant left <= stacks.Keys && r == all + Prefixed(context, stacks - left)
      decreases left
    {
      var k :| k in left;
      PrefixedStep(context, stacks, left, k);
      r := r[M.MakeKey(context, k) := stacks[k]];
      left := left - {k};
    }
    assert stacks - left == stacks;
  }

  lemma {:induction false} NothingPrefixed(context: string)
    ensures Prefixed(context, map[]) == map[]
  {
  }

  method MergeFilesets(all: map<string, seq<Resource>>, filesets: map<string, seq<Resource>>) returns (r: map<string, seq<Resource>>)
    ensures r == all + filesets
  {
    r := all;
    var left := filesets.Keys;
    while left != {}
      invariant left <= filesets.Keys && r == all + (filesets - left)
      decreases left
    {
      var k :| k in left;
      assert filesets - (left - {k}) == (filesets - left)[k := filesets[k]];
      r := r[k := filesets[k]];
      left := left - {k};
    }
    assert filesets - left == filesets;
  }

  lemma {:induction false} PrefixedStep(context: string, stacks: map<string, seq<Resource>>, left: set<string>, k: string)
    requires k in left && left <= stacks.Keys
    ensures Prefixed(context, stacks - (left - {k})) == Prefixed(context, stacks - left)[M.MakeKey(context, k) := stacks[k]]
  {
    var a, b := stacks - left, stacks - (left - {k});
    assert b.Keys == a.Keys + {k};
    assert PrefixedKeys(context, b.Keys) == PrefixedKeys(context, a.Keys) + {M.MakeKey(context, k)};
    forall key | key in PrefixedKeys(context, b.Keys)
      ensures Prefixed(context, b)[key] == Prefixed(context, a)[M.MakeKey(context, k) := stacks[k]][key]
    {
      var j := Unprefixed(context, key, b.Keys);
      KeyInjective(context, j, k);
      if j in a.Keys { KeyInjective(context, j, Unprefixed(context, key, a.Keys)); }
    }
  }

  lemma {:induction false} KeyInjective(context: string, a: string, b: string)
    ensures M.MakeKey(context, a) == M.MakeKey(context, b) ==> a == b
  {
    assert M.MakeKey(context, a)[|context| + 1..] == a && M.MakeKey(context, b)[|context| + 1..] == b;
  }

  // ------------------------------------------------------------------ contents

  ghost predicate HoldsLists(ps: seq<ContextPlan>, a: ResourcePlan) {
    && (forall r :: r in a.volumes <==> exists i :: 0 <= i < |ps| && r in ps[i].plan.volumes)
    && (forall r :: r in a.networks <==> exists i :: 0 <= i < |ps| && r in ps[i].plan.networks)
  }

  ghost predicate HoldsStacks(ps: seq<ContextPlan>, stacks: map<string, seq<Resource>>) {
    && (forall i, k :: 0 <= i < |ps| && k in ps[i].plan.stacks ==>
          (ps[i].context + "/" + k) in stacks && stacks[ps[i].context + "/" + k] == ps[i].plan.stacks[k])
    && (forall key :: key in stacks ==> exists i, k :: 0 <= i < |ps| && k in ps[i].plan.stacks && key == ps[i].context + "/" + k)
  }

  ghost predicate HoldsFilesets(ps: seq<ContextPlan>, filesets: map<string, seq<Resource>>) {
    && (forall i, k :: 0 <= i < |ps| && k in ps[i].plan.filesets ==> k in filesets && filesets[k] == ps[i].plan.filesets[k])
    && (forall k :: k in filesets ==> exists i :: 0 <= i < |ps| && k in ps[i].plan.filesets)
  }

  /** What the overall plan holds: the contexts' volumes, networks and filesets, and their stacks under `context/stack`. */
  ghost predicate Holds(ps: seq<ContextPlan>, a: ResourcePlan) { HoldsLists(ps, a) && HoldsStacks(ps, a.stacks) && HoldsFilesets(ps, a.filesets) }

  lemma {:induction false} PrefixedSays(context: string, stacks: map<string, seq<Resource>>)
    ensures forall k :: k in stacks ==> (context + "/" + k) in Prefixed(context, stacks) && Prefixed(context, stacks)[context + "/" + k] == stacks[k]
    ensures forall key :: key in Prefixed(context, stacks) ==> exists k :: k in stacks && key == context + "/" + k
  {
    forall k | k in stacks ensures (context + "/" + k) in Prefixed(context, stacks) && Prefixed(context, stacks)[context + "/" + k] == stacks[k] {
      assert M.MakeKey(context, k) in PrefixedKeys(context, stacks.Keys);
      KeyInjective(context, k, Unprefixed(context, M.MakeKey(context, k), stacks.Keys));
    }
  }

  lemma {:induction false} ListsStep(ps: seq<ContextPlan>, a: ResourcePlan, cp: ContextPlan)
    requires HoldsLists(ps, a)
    ensures HoldsLists(ps + [cp], Merged(a, cp))
  {
    hide Prefixed;
    var all, b, n := ps + [cp], Merged(a, cp), |ps|;
    assert all[n] == cp && forall i :: 0 <= i < n ==> all[i] == ps[i];
    forall r ensures r in b.volumes <==> exists i :: 0 <= i < |all| && r in all[i].plan.volumes {
      if r in cp.plan.volumes { assert r in all[n].plan.volumes; }
    }
    forall r ensures r in b.networks <==> exists i :: 0 <= i < |all| && r in all[i].plan.networks {
      if r in cp.plan.networks { assert r in all[n].plan.networks; }
    }
  }

  lemma {:induction false} StacksStep(ps: seq<ContextPlan>, stacks: map<string, seq<Resource>>, cp: ContextPlan)
    requires Separate(ps + [cp]) && HoldsStacks(ps, stacks)
    ensures HoldsStacks(ps + [cp], stacks + Prefixed(cp.context, cp.plan.stacks))
  {
    var all, b, n := ps + [cp], stacks + Prefixed(cp.context, cp.plan.stacks), |ps|;
    PrefixedSays(cp.context, cp.plan.stacks);
    hide Prefixed;
    assert all[n] == cp && forall i :: 0 <= i < n ==> all[i] == ps[i];
    forall i, k | 0 <= i < |all| && k in all[i].plan.stacks
      ensures (all[i].context + "/" + k) in b && b[all[i].context + "/" + k] == all[i].plan.stacks[k]
    {
      if i < n { OtherKey(all, i, k, cp); }
    }
    forall key | key in b ensures exists i, k :: 0 <= i < |all| && k in all[i].plan.stacks && key == all[i].context + "/" + k {
      if key in Prefixed(cp.context, cp.plan.stacks) {
        var k :| k in cp.plan.stacks && key == cp.context + "/" + k;
        assert k in all[n].plan.stacks && key == all[n].context + "/" + k;
      } else {
        var i, k :| 0 <= i < n && k in ps[i].plan.stacks && key == ps[i].context + "/" + k;
        assert k in all[i].plan.stacks && key == all[i].context + "/" + k;
      }
    }
  }

  lemma {:induction false} OtherKey(all: seq<ContextPlan>, i: nat, k: string, cp: ContextPlan)
    requires Separate(all) && i < |all| - 1 && all[|all| - 1] == cp
    ensures (all[i].context + "/" + k) !in Prefixed(cp.context, cp.plan.stacks)
  {
    PrefixedSays(cp.context, cp.plan.stacks);
    hide Prefixed;
    if (all[i].context + "/" + k) in Prefixed(cp.context, cp.plan.stacks) {
      var l :| l in cp.plan.stacks && all[i].context + "/" + k == cp.context + "/" + l;
      CutUnique('/', all[i].context, k, cp.context, l);
    }
  }

  lemma {:induction false} FilesetsStep(ps: seq<ContextPlan>, filesets: map<string, seq<Resource>>, cp: ContextPlan)
    requires Separate(ps + [cp]) && HoldsFilesets(ps, filesets)
    ensures HoldsFilesets(ps + [cp], filesets + cp.plan.filesets)
  {
    var all, n := ps + [cp], |ps|;
    assert all[n] == cp && forall i :: 0 <= i < n ==> all[i] == ps[i];
    forall i, k | 0 <= i < n && k in ps[i].plan.filesets ensures k !in cp.plan.filesets { assert all[i].plan.filesets.Keys !! all[n].plan.filesets.Keys; }
    forall k | k in filesets + cp.plan.filesets ensures exists i :: 0 <= i < |all| && k in all[i].plan.filesets {
      if k in cp.plan.filesets { assert k in all[n].plan.filesets; }
    }
  }

  /** Nothing of a context's plan is lost, changed or put under another context. */
  lemma {:induction false} AggregateSays(ps: seq<ContextPlan>)
    requires Separate(ps)
    ensures Holds(ps, Aggregate(ps))
  {
    hide HoldsLists, HoldsStacks, HoldsFilesets, Prefixed;
    if ps == [] {
      NothingHeld();
    } else {
      var front, last := ps[..|ps| - 1], ps[|ps| - 1];
      assert ps == front + [last];
      SeparateFront(ps);
      AggregateSays(front);
      var a := Aggregate(front);
      ListsStep(front, a, last);
      StacksStep(front, a.stacks, last);
      FilesetsStep(front, a.filesets, last);
    }
  }

  lemma {:induction false} SeparateFront(ps: seq<ContextPlan>)
    requires Separate(ps) && ps != []
    ensures Separate(ps[..|ps| - 1])
  {
  }

  lemma {:induction false} NothingHeld()
    ensures Holds([], Nothing)
  {
  }

  // ------------------------------------------------------------------- counts

  lemma {:induction false} CountConcat(a: seq<Resource>, b: seq<Resource>, kind: Kind, messages: bool)
    ensures CountSeq(a + b, kind, messages) == CountSeq(a, kind, messages) + CountSeq(b, kind, messages)
  {
    if b == [] {
      assert a + b == a;
    } else {
      CountConcat(a, b[..|b| - 1], kind, messages);
      assert (a + b)[..|a + b| - 1] == a + b[..|b| - 1];
    }
  }

  /** Counting over disjoint parts of a map adds up. */
  lemma {:induction false} CountDisjoint(a: map<string, seq<Resource>>, b: map<string, seq<Resource>>, keys: set<string>, kind: Kind, messages: bool)
    requires a.Keys !! b.Keys && keys <= b.Keys
    ensures CountKeys(a.Keys + keys, a + b, kind, messages) == CountKeys(a.Keys, a, kind, messages) + CountKeys(keys, b, kind, messages)
    decreases keys
  {
    hide CountSeq, CountKeys;
    if keys == {} {
      assert a.Keys + keys == a.Keys;
      CountSame(a.Keys, a, a + b, kind, messages);
      CountNothing(b, kind, messages);
    } else {
      var k :| k in keys;
      CountDisjoint(a, b, keys - {k}, kind, messages);
      CountKeysPick(a.Keys + keys, a + b, kind, messages, k);
      CountKeysPick(keys, b, kind, messages, k);
      assert (a.Keys + keys) - {k} == a.Keys + (keys - {k});
    }
  }

  lemma {:induction false} CountNothing(m: map<string, seq<Resource>>, kind: Kind, messages: bool)
    ensures CountKeys({}, m, kind, messages) == 0
  {
  }

  lemma {:induction false} CountSame(keys: set<string>, m: map<string, seq<Resource>>, m': map<string, seq<Resource>>, kind: Kind, messages: bool)
    requires keys <= m.Keys && keys <= m'.Keys && forall k :: k in keys ==> m[k] == m'[k]
    ensures CountKeys(keys, m, kind, messages) == CountKeys(keys, m', kind, messages)
    decreases keys
  {
    hide CountSeq, CountKeys;
    if keys == {} {
      CountNothing(m, kind, messages);
      CountNothing(m', kind, messages);
    } else {
      var k :| k in keys;
      CountSame(keys - {k}, m, m', kind, messages);
      CountKeysPick(keys, m, kind, messages, k);
      CountKeysPick(keys, m', kind, messages, k);
    }
  }

  /** Prefixing keys does not change counts. */
  lemma {:induction false} CountPrefixed(context: string, m: map<string, seq<Resource>>, keys: set<string>, kind: Kind, messages: bool)
    requires keys <= m.Keys
    ensures PrefixedKeys(context, keys) <= Prefixed(context, m).Keys
    ensures CountKeys(PrefixedKeys(context, keys), Prefixed(context, m), kind, messages) == CountKeys(keys, m, kind, messages)
    decreases keys
  {
    hide CountSeq, CountKeys;
    var p := Prefixed(context, m);
    if keys == {} {
      assert PrefixedKeys(context, keys) == {};
      CountNothing(m, kind, messages);
      CountNothing(p, kind, messages);
    } else {
      var k :| k in keys;
      var key := M.MakeKey(context, k);
      CountPrefixed(context, m, keys - {k}, kind, messages);
      assert key in PrefixedKeys(context, keys) && key in PrefixedKeys(context, m.Keys);
      KeyInjective(context, k, Unprefixed(context, key, m.Keys));
      forall j | j in keys - {k} ensures M.MakeKey(context, j) != key { KeyInjective(context, j, k); }
      assert PrefixedKeys(context, keys) - {key} == PrefixedKeys(context, keys - {k});
      CountKeysPick(keys, m, kind, messages, k);
      CountKeysPick(PrefixedKeys(context, keys), p, kind, messages, key);
    }
  }

  /** Context names are distinct and without slash; no fileset belongs to two contexts. */
  ghost predicate Separate(ps: seq<ContextPlan>) {
    && (forall i :: 0 <= i < |ps| ==> '/' !in ps[i].context)
    && (forall i, j :: 0 <= i < j < |ps| ==> ps[i].context != ps[j].context && ps[i].plan.filesets.Keys !! ps[j].plan.filesets.Keys)
  }

  lemma {:induction false} KeysOf(ps: seq<ContextPlan>)
    ensures forall k :: k in Aggregate(ps).stacks ==> exists i :: 0 <= i < |ps| && k in PrefixedKeys(ps[i].context, ps[i].plan.stacks.Keys)
    ensures forall k :: k in Aggregate(ps).filesets ==> exists i :: 0 <= i < |ps| && k in ps[i].plan.filesets
  {
    hide Prefixed, PrefixedKeys;
    if ps != [] {
      var front, last := ps[..|ps| - 1], ps[|ps| - 1];
      KeysOf(front);
      assert Prefixed(last.context, last.plan.stacks).Keys == PrefixedKeys(last.context, last.plan.stacks.Keys) by { PrefixedHasKeys(last); }
      forall k | k in Aggregate(ps).stacks ensures exists i :: 0 <= i < |ps| && k in PrefixedKeys(ps[i].context, ps[i].plan.stacks.Keys) {
        if k in Aggregate(front).stacks {
          var i :| 0 <= i < |front| && k in PrefixedKeys(front[i].context, front[i].plan.stacks.Keys);
          assert ps[i] == front[i];
        } else {
          assert k in PrefixedKeys(ps[|ps| - 1].context, ps[|ps| - 1].plan.stacks.Keys);
        }
      }
      forall k | k in Aggregate(ps).filesets ensures exists i :: 0 <= i < |ps| && k in ps[i].plan.filesets {
        if k in Aggregate(front).filesets {
          var i :| 0 <= i < |front| && k in front[i].plan.filesets;
          assert ps[i] == front[i];
        } else {
          assert k in ps[|ps| - 1].plan.filesets;
        }
      }
    }
  }

  lemma {:induction false} PrefixedHasKeys(cp: ContextPlan)
    ensures Prefixed(cp.context, cp.plan.stacks).Keys == PrefixedKeys(cp.context, cp.plan.stacks.Keys)
  {
  }

  lemma {:induction false} NoClash(ps: seq<ContextPlan>)
    requires Separate(ps) && ps != []
    ensures var front, last := ps[..|ps| - 1], ps[|ps| - 1];
            && Aggregate(front).stacks.Keys !! Prefixed(last.context, last.plan.stacks).Keys
            && Aggregate(front).filesets.Keys !! last.plan.filesets.Keys
            && Separate(front)
  {
    hide Aggregate;
    var front, last := ps[..|ps| - 1], ps[|ps| - 1];
    KeysOf(front);
    forall k | k in Aggregate(front).stacks ensures k !in PrefixedKeys(last.context, last.plan.stacks.Keys) {
      var i :| 0 <= i < |front| && k in PrefixedKeys(front[i].context, front[i].plan.stacks.Keys);
      DifferentContexts(front[i].context, last.context, k, front[i].plan.stacks.Keys, last.plan.stacks.Keys);
    }
    forall k | k in Aggregate(front).filesets ensures k !in last.plan.filesets {
      var i :| 0 <= i < |front| && k in front[i].plan.filesets;
      assert ps[i].plan.filesets.Keys !! ps[|ps| - 1].plan.filesets.Keys;
    }
  }

  lemma {:induction false} DifferentContexts(a: string, b: string, k: string, as': set<string>, bs: set<string>)
    requires '/' !in a && '/' !in b && a != b && k in PrefixedKeys(a, as')
    ensures k !in PrefixedKeys(b, bs)
  {
    var x := Unprefixed(a, k, as');
    forall y | y in bs ensures M.MakeKey(b, y) != k {
      if M.MakeKey(b, y) == k { CutUnique('/', a, x, b, y); }
    }
  }

  ghost function Total(ps: seq<ContextPlan>, kind: Kind): nat {
    if ps == [] then 0 else Total(ps[..|ps| - 1], kind) + CountPlan(ps[|ps| - 1].plan, kind)
  }

  lemma {:induction false} MergedCounts(agg: ResourcePlan, cp: ContextPlan, kind: Kind)
    requires agg.stacks.Keys !! Prefixed(cp.context, cp.plan.stacks).Keys && agg.filesets.Keys !! cp.plan.filesets.Keys
    ensures CountPlan(Merged(agg, cp), kind) == CountPlan(agg, kind) + CountPlan(cp.plan, kind)
  {
    hide CountSeq, CountKeys;
    CountConcat(agg.volumes, cp.plan.volumes, kind, true);
    CountConcat(agg.networks, cp.plan.networks, kind, true);
    var p := Prefixed(cp.context, cp.plan.stacks);
    CountDisjoint(agg.stacks, p, p.Keys, kind, true);
    CountPrefixed(cp.context, cp.plan.stacks, cp.plan.stacks.Keys, kind, true);
    CountDisjoint(agg.filesets, cp.plan.filesets, cp.plan.filesets.Keys, kind, false);
    assert (agg.stacks + p).Keys == agg.stacks.Keys + p.Keys && p.Keys == PrefixedKeys(cp.context, cp.plan.stacks.Keys);
    assert (agg.filesets + cp.plan.filesets).Keys == agg.filesets.Keys + cp.plan.filesets.Keys;
  }

  /** The whole plan counts what the contexts' plans count together: merging loses and repeats nothing. */
  lemma {:induction false} AggregateCounts(ps: seq<ContextPlan>, kind: Kind)
    requires Separate(ps)
    ensures CountPlan(Aggregate(ps), kind) == Total(ps, kind)
  {
    hide CountPlan, Separate;
    if ps == [] {
      NothingCounts(kind);
    } else {
      NoClash(ps);
      AggregateCounts(ps[..|ps| - 1], kind);
      MergedCounts(Aggregate(ps[..|ps| - 1]), ps[|ps| - 1], kind);
    }
  }

  lemma {:induction false} NothingCounts(kind: Kind)
    ensures CountPlan(Nothing, kind) == 0
  {
  }

  lemma {:induction false} TotalZero(ps: seq<ContextPlan>, kind: Kind)
    ensures Total(ps, kind) == 0 <==> forall i :: 0 <= i < |ps| ==> CountPlan(ps[i].plan, kind) == 0
  {
    hide CountPlan;
    if ps != [] {
      TotalZero(ps[..|ps| - 1], kind);
      assert forall i :: 0 <= i < |ps| - 1 ==> ps[..|ps| - 1][i] == ps[i];
    }
  }

  // ------------------------------------------------------ convergence everywhere

  /** One context of a run: the host it started from, its configuration and its second plan. */
  datatype Site = Site(h: Host, cfg: Config, exec: Option<ExecutionContext>, after: ContextPlan)

  ghost predicate RanOn(w: World, s: Site) {
    Runs(w, s.h, s.cfg, s.exec) && PlanIs(w, Pruned(w, Apply(w, s.h, s.cfg, s.exec).host, s.cfg), s.cfg, s.after.plan)
  }

  ghost function Plans(sites: seq<Site>): (ps: seq<ContextPlan>)
    ensures |ps| == |sites| && forall i :: 0 <= i < |ps| ==> ps[i] == sites[i].after
  {
    if sites == [] then [] else [sites[0].after] + Plans(sites[1..])
  }

  /** After an undisturbed run on every context, the new overall plan counts nothing exactly when every context converges. */
  lemma {:induction false} ConvergesEverywhere(w: World, sites: seq<Site>)
    requires (forall i :: 0 <= i < |sites| ==> RanOn(w, sites[i])) && Separate(Plans(sites))
    ensures CountsNothing(Aggregate(Plans(sites))) <==>
            forall i :: 0 <= i < |sites| ==> Adopted(sites[i].h, sites[i].cfg) && Consistent(sites[i].cfg.filesets)
  {
    hide CountPlan, Adopted, Consistent, Separate, Aggregate, RanOn, Plans;
    var ps := Plans(sites);
    forall i | 0 <= i < |sites|
      ensures CountsNothing(sites[i].after.plan) <==> Adopted(sites[i].h, sites[i].cfg) && Consistent(sites[i].cfg.filesets)
    {
      OneSite(w, sites[i]);
    }
    forall kind: Kind
      ensures CountPlan(Aggregate(ps), kind) == 0 <==> forall i :: 0 <= i < |sites| ==> CountPlan(sites[i].after.plan, kind) == 0
    {
      AggregateCounts(ps, kind);
      TotalZero(ps, kind);
      assert forall i :: 0 <= i < |sites| ==> ps[i] == sites[i].after;
    }
    if CountsNothing(Aggregate(ps)) {
      forall i | 0 <= i < |sites| ensures CountsNothing(sites[i].after.plan) {
        forall kind: Kind ensures CountPlan(sites[i].after.plan, kind) == 0 { assert CountPlan(Aggregate(ps), kind) == 0; }
      }
    }
    if forall i :: 0 <= i < |sites| ==> CountsNothing(sites[i].after.plan) {
      forall kind: Kind ensures CountPlan(Aggregate(ps), kind) == 0 {
        forall i | 0 <= i < |sites| ensures CountPlan(sites[i].after.plan, kind) == 0 { assert CountsNothing(sites[i].after.plan); }
      }
    }
  }

  lemma {:induction false} OneSite(w: World, s: Site)
    requires RanOn(w, s)
    ensures CountsNothing(s.after.plan) <==> Adopted(s.h, s.cfg) && Consistent(s.cfg.filesets)
  {
    hide Runs, PlanIs, CountsNothing, Adopted, Consistent, Pruned, Apply;
    Converges(w, s.h, s.cfg, s.exec, s.after.plan);
  }
}
