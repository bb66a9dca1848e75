/**
 Stack keys, merging discovered with explicit stacks (internal/manifest/types.go:257-347) and
 narrowing a configuration to targets (internal/cli/common/targets.go).
 */
module Manifest {
  import opened Text

  // --------------------------------------------------------------------- keys

  /** `MakeStackKey`. */
  function MakeKey(context: string, stack: string): string { context + "/" + stack }

  /** The text before and after the first slash. */
  function Cut(s: string): Option<(string, string)> {
    if s == "" then None
    else if s[0] == '/' then Some(("", s[1..]))
    else match Cut(s[1..])
      case None => None
      case Some(p) => Some(([s[0]] + p.0, p.1))
  }

  /** `ParseStackKey`; an error is `None`. */
  function ParseKey(key: string): Option<(string, string)> {
    match Cut(key)
    case None => None
    case Some(p) => if p.0 == "" || p.1 == "" then None else Some(p)
  }

  lemma {:induction false} CutIs(s: string)
    ensures Cut(s).None? <==> '/' !in s
    ensures Cut(s).Some? ==> s == Cut(s).value.0 + "/" + Cut(s).value.1 && '/' !in Cut(s).value.0
  {
    if s != "" && s[0] != '/' {
      CutIs(s[1..]);
      assert s == [s[0]] + s[1..];
    }
  }

  /** Parsing a made key gives the parts back exactly for proper parts; a parsed key is made of its parts. */
  lemma {:induction false} KeyRoundTrip(context: string, stack: string)
    ensures ParseKey(MakeKey(context, stack)) == Some((context, stack)) <==> context != "" && '/' !in context && stack != ""
  {
    var key := MakeKey(context, stack);
    CutIs(key);
    assert key[|context|] == '/';
    if '/' !in context { CutUnique('/', context, stack, Cut(key).value.0, Cut(key).value.1); }
  }

  lemma {:induction false} ParsedKeyIsMade(key: string)
    ensures ParseKey(key).Some? ==> var (c, s) := ParseKey(key).value; key == MakeKey(c, s) && c != "" && '/' !in c && s != ""
  {
    CutIs(key);
  }

  // ------------------------------------------------------------------- merging

  /** `base`: what discovery decides (root, compose files, env files). */
  datatype StackSpec = StackSpec(base: string, profiles: seq<string>, environment: Option<string>, secrets: Option<string>, project: Option<string>)

  datatype FilesetSpec = FilesetSpec(volume: string, context: string, stack: string)

  datatype Deployment = Deployment(contexts: seq<string>, stacks: seq<string>)

  datatype Config = Config(contexts: set<string>, deployments: map<string, Deployment>, stacks: map<string, StackSpec>,
                           discovered: map<string, StackSpec>, filesets: map<string, FilesetSpec>, targeted: bool)

  function Or<T>(a: Option<T>, b: Option<T>): Option<T> { if a.Some? then a else b }

  /** A discovered stack with the explicit fields that are set. */
  function Augmented(found: StackSpec, explicit: StackSpec): StackSpec {
    StackSpec(found.base, if |explicit.profiles| > 0 then explicit.profiles else found.profiles, Or(explicit.environment, found.environment),
              Or(explicit.secrets, found.secrets), Or(explicit.project, found.project))
  }

  function AllStacks(cfg: Config): map<string, StackSpec> {
    map k | k in cfg.discovered.Keys + cfg.stacks.Keys ::
      if k !in cfg.stacks then cfg.discovered[k]
      else if k !in cfg.discovered then cfg.stacks[k]
      else Augmented(cfg.discovered[k], cfg.stacks[k])
  }

  /** The first where it is set, the second elsewhere. */
  ghost predicate Prefers<T>(r: Option<T>, first: Option<T>, second: Option<T>) { (first.Some? ==> r == first) && (first.None? ==> r == second) }

  /** Field by field: discovery decides what it found, and an explicit entry wins where it says something. */
  ghost predicate Merges(r: StackSpec, found: StackSpec, explicit: StackSpec) {
    && r.base == found.base
    && (explicit.profiles != [] ==> r.profiles == explicit.profiles) && (explicit.profiles == [] ==> r.profiles == found.profiles)
    && Prefers(r.environment, explicit.environment, found.environment)
    && Prefers(r.secrets, explicit.secrets, found.secrets)
    && Prefers(r.project, explicit.project, found.project)
  }

  /** All stacks, each from where it is configured. */
  ghost predicate StacksOf(cfg: Config, result: map<string, StackSpec>) {
    && (forall k :: k in result <==> k in cfg.discovered || k in cfg.stacks)
    && (forall k :: k in cfg.discovered && k !in cfg.stacks && k in result ==> result[k] == cfg.discovered[k])
    && (forall k :: k in cfg.stacks && k !in cfg.discovered && k in result ==> result[k] == cfg.stacks[k])
    && (forall k :: k in cfg.stacks && k in cfg.discovered && k in result ==> Merges(result[k], cfg.discovered[k], cfg.stacks[k]))
  }

  lemma {:induction false} AllStacksSay(cfg: Config)
    ensures StacksOf(cfg, AllStacks(cfg))
  {
  }

  lemma {:induction false} AllStacksStep(cfg: Config, left: set<string>, k: string)
    requires k in left && left <= cfg.stacks.Keys
    ensures var was := AllStacks(cfg.(stacks := cfg.stacks - left));
            && (k in was <==> k in cfg.discovered)
            && AllStacks(cfg.(stacks := cfg.stacks - (left - {k}))) == was[k := if k in was then Augmented(was[k], cfg.stacks[k]) else cfg.stacks[k]]
  {
    hide Augmented;
  }

  lemma {:induction false} NoExplicit(cfg: Config)
    ensures AllStacks(cfg.(stacks := cfg.stacks - cfg.stacks.Keys)) == cfg.discovered
  {
  }

  method GetAllStacks(cfg: Config) returns (result: map<string, StackSpec>)
    ensures result == AllStacks(cfg) && StacksOf(cfg, result)
  {
    hide StacksOf, Augmented, AllStacks;
    AllStacksSay(cfg);
    NoExplicit(cfg);
    result := cfg.discovered;
    var left := cfg.stacks.Keys;
    while left != {}
      invariant left <= cfg.stacks.Keys && result == AllStacks(cfg.(stacks := cfg.stacks - left))
      decreases left
    {
      var k :| k in left;
      AllStacksStep(cfg, left, k);
      result := result[k := if k in result then Augmented(result[k], cfg.stacks[k]) else cfg.stacks[k]];
      left := left - {k};
    }
    assert cfg.stacks - left == cfg.stacks;
  }

  /** Per context: stack names are unique, so nothing is overwritten. */
  method GetStacksForContext(cfg: Config, context: string) returns (result: map<string, StackSpec>)
    ensures forall s :: s in result <==> MakeKey(context, s) in AllStacks(cfg) && ParseKey(MakeKey(context, s)) == Some((context, s))
    ensures forall s :: s in result ==> result[s] == AllStacks(cfg)[MakeKey(context, s)]
  {
    result := map[];
    var all := GetAllStacks(cfg);
    var left := all.Keys;
    while left != {}
      invariant left <= all.Keys
      invariant forall s :: s in result <==> MakeKey(context, s) in all.Keys - left && ParseKey(MakeKey(context, s)) == Some((context, s))
      invariant forall s :: s in result ==> result[s] == all[MakeKey(context, s)]
      decreases left
    {
      var k :| k in left;
      ParsedKeyIsMade(k);
      var parts := ParseKey(k);
      if parts.Some? && parts.value.0 == context { result := result[parts.value.1 := all[k]]; }
      forall s | MakeKey(context, s) == k && ParseKey(k) == Some((context, s)) ensures parts.Some? && parts.value == (context, s) {}
      left := left - {k};
    }
  }

  // ------------------------------------------------------------------- targets

  datatype Targets = Targets(contexts: seq<string>, stacks: seq<string>, deployment: string)

  datatype Error = UnknownDeployment(name: string) | UnknownContext(name: string) | BadStackKey(key: string)

  datatype Resolved = Narrowed(cfg: Config) | Rejected(error: Error)

  predicate IsEmpty(t: Targets) { t.contexts == [] && t.stacks == [] && t.deployment == "" }

  /** The flags with the deployment's lists appended. */
  function Expanded(cfg: Config, t: Targets): Targets
    requires t.deployment == "" || t.deployment in cfg.deployments
  {
    if t.deployment == "" then t else
      var d := cfg.deployments[t.deployment];
      Targets(t.contexts + d.contexts, t.stacks + d.stacks, "")
  }

  predicate KnownContexts(cfg: Config, t: Targets) { forall c :: c in t.contexts ==> c in cfg.contexts }

  predicate KnownStack(cfg: Config, s: string) { ParseKey(s).Some? && ParseKey(s).value.0 in cfg.contexts }

  predicate KnownStacks(cfg: Config, t: Targets) { forall s :: s in t.stacks ==> KnownStack(cfg, s) }

  /** The contexts that are kept. */
  function AllowedContexts(t: Targets): set<string> {
    (set c | c in t.contexts) + (set s | s in t.stacks && ParseKey(s).Some? :: ParseKey(s).value.0)
  }

  /** A stack key in scope: listed, or, if no stack is listed, in a listed context. */
  predicate AllowedKey(t: Targets, key: string) {
    key in t.stacks || (t.stacks == [] && ParseKey(key).Some? && ParseKey(key).value.0 in AllowedContexts(t))
  }

  predicate AllowedFileset(t: Targets, f: FilesetSpec) {
    f.context in AllowedContexts(t) && (t.stacks == [] || AllowedKey(t, MakeKey(f.context, f.stack)))
  }

  function Narrow(cfg: Config, t: Targets): Config {
    cfg.(contexts := cfg.contexts * AllowedContexts(t),
         stacks := map k | k in cfg.stacks && AllowedKey(t, k) :: cfg.stacks[k],
         discovered := map k | k in cfg.discovered && AllowedKey(t, k) :: cfg.discovered[k],
         filesets := map k | k in cfg.filesets && AllowedFileset(t, cfg.filesets[k]) :: cfg.filesets[k],
         targeted := true)
  }

  method AllowContexts(cfg: Config, t: Targets) returns (bad: Option<string>, allowed: set<string>)
    ensures bad.None? <==> KnownContexts(cfg, t)
    ensures bad.None? ==> allowed == set c | c in t.contexts
    ensures bad.Some? ==> bad.value in t.contexts && bad.value !in cfg.contexts
  {
    bad, allowed := None, {};
    for i := 0 to |t.contexts|
      invariant allowed == (set c | c in t.contexts[..i]) && forall c :: c in t.contexts[..i] ==> c in cfg.contexts
    {
      if t.contexts[i] !in cfg.contexts { return Some(t.contexts[i]), {}; }
      assert t.contexts[..i + 1] == t.contexts[..i] + [t.contexts[i]];
      allowed := allowed + {t.contexts[i]};
    }
    assert t.contexts[..|t.contexts|] == t.contexts;
  }

  method AllowStacks(cfg: Config, t: Targets, contexts: set<string>) returns (bad: Option<string>, allowed: set<string>)
    requires contexts == set c | c in t.contexts
    ensures bad.None? <==> KnownStacks(cfg, t)
    ensures bad.None? ==> allowed == AllowedContexts(t)
    ensures bad.Some? ==> bad.value in t.stacks && !KnownStack(cfg, bad.value)
  {
    bad, allowed := None, contexts;
    for i := 0 to |t.stacks|
      invariant allowed == AllowedContexts(t.(stacks := t.stacks[..i])) && forall s :: s in t.stacks[..i] ==> KnownStack(cfg, s)
    {
      var s := t.stacks[i];
      if !KnownStack(cfg, s) { return Some(s), {}; }
      assert t.stacks[..i + 1] == t.stacks[..i] + [s];
      allowed := allowed + {ParseKey(s).value.0};
    }
    assert t.stacks[..|t.stacks|] == t.stacks;
  }

  /** The key names a stack of this context. */
  predicate KeyOf(key: string, context: string) { context != "" && '/' !in context && context + "/" < key }

  /** What is left of a configuration when these contexts and stack keys are listed: with stacks listed only those, otherwise all of the contexts. */
  ghost predicate Scoped(cfg: Config, contexts: seq<string>, stacks: seq<string>, r: Config) {
    && r.targeted && r.deployments == cfg.deployments
    && (forall c :: c in r.contexts <==> c in cfg.contexts && (c in contexts || exists s :: s in stacks && KeyOf(s, c)))
    && (forall k :: k in r.stacks <==> k in cfg.stacks && ListedKey(contexts, stacks, k))
    && (forall k :: k in r.discovered <==> k in cfg.discovered && ListedKey(contexts, stacks, k))
    && (forall k :: k in r.stacks && k in cfg.stacks ==> r.stacks[k] == cfg.stacks[k])
    && (forall k :: k in r.discovered && k in cfg.discovered ==> r.discovered[k] == cfg.discovered[k])
    && (forall k :: k in r.filesets ==> k in cfg.filesets && r.filesets[k] == cfg.filesets[k])
    && (forall k :: k in cfg.filesets && ProperFileset(cfg.filesets[k]) ==>
          (k in r.filesets <==> if stacks != [] then cfg.filesets[k].context + "/" + cfg.filesets[k].stack in stacks
                                else cfg.filesets[k].context in contexts))
  }

  ghost predicate ListedKey(contexts: seq<string>, stacks: seq<string>, key: string) {
    if stacks != [] then key in stacks else exists c :: c in contexts && KeyOf(key, c)
  }

  /** Filesets belong to a stack of a context, as discovery makes them. */
  predicate ProperFileset(f: FilesetSpec) { f.context != "" && '/' !in f.context && f.stack != "" }

  lemma {:induction false} ParsedIs(key: string, c: string)
    ensures (ParseKey(key).Some? && ParseKey(key).value.0 == c) <==> KeyOf(key, c)
  {
    ParsedKeyIsMade(key);
    if KeyOf(key, c) {
      var s := key[|c| + 1..];
      assert key == MakeKey(c, s);
      KeyRoundTrip(c, s);
    }
    if ParseKey(key).Some? && ParseKey(key).value.0 == c { assert c + "/" < key; }
  }

  lemma {:induction false} AllowedContextIs(t: Targets, c: string)
    ensures c in AllowedContexts(t) <==> c in t.contexts || exists s :: s in t.stacks && KeyOf(s, c)
  {
    hide ParseKey, KeyOf;
    if c in AllowedContexts(t) && c !in t.contexts {
      var s :| s in t.stacks && ParseKey(s).Some? && ParseKey(s).value.0 == c;
      ParsedIs(s, c);
    }
    if s :| s in t.stacks && KeyOf(s, c) { ParsedIs(s, c); }
  }

  lemma {:induction false} AllowedKeyIs(t: Targets, key: string)
    ensures AllowedKey(t, key) <==> ListedKey(t.contexts, t.stacks, key)
  {
    hide ParseKey, KeyOf;
    if t.stacks == [] {
      if ParseKey(key).Some? {
        ParsedIs(key, ParseKey(key).value.0);
        AllowedContextIs(t, ParseKey(key).value.0);
      }
      if c :| c in t.contexts && KeyOf(key, c) {
        ParsedIs(key, c);
        AllowedContextIs(t, c);
      }
    }
  }

  lemma {:induction false} AllowedFilesetIs(t: Targets, f: FilesetSpec)
    requires ProperFileset(f)
    ensures AllowedFileset(t, f) <==> if t.stacks != [] then f.context + "/" + f.stack in t.stacks else f.context in t.contexts
  {
    hide ParseKey, AllowedContexts;
    AllowedContextIs(t, f.context);
    var key := f.context + "/" + f.stack;
    assert key == MakeKey(f.context, f.stack) && f.context + "/" == key[..|f.context| + 1];
    assert KeyOf(key, f.context);
  }

  /** A narrowed configuration is scoped to what was listed. */
  lemma {:induction false} NarrowSays(cfg: Config, t: Targets)
    ensures Scoped(cfg, t.contexts, t.stacks, Narrow(cfg, t))
  {
    hide AllowedContexts, AllowedKey, AllowedFileset, ListedKey, KeyOf, ProperFileset;
    forall c ensures c in AllowedContexts(t) <==> c in t.contexts || exists s :: s in t.stacks && KeyOf(s, c) { AllowedContextIs(t, c); }
    forall k ensures AllowedKey(t, k) <==> ListedKey(t.contexts, t.stacks, k) { AllowedKeyIs(t, k); }
    forall k | k in cfg.filesets && ProperFileset(cfg.filesets[k])
      ensures AllowedFileset(t, cfg.filesets[k]) <==>
              if t.stacks != [] then cfg.filesets[k].context + "/" + cfg.filesets[k].stack in t.stacks else cfg.filesets[k].context in t.contexts
    {
      AllowedFilesetIs(t, cfg.filesets[k]);
    }
  }

  /** The contexts and stack keys that flags and deployment list together. */
  function ListedBy(cfg: Config, t: Targets): (seq<string>, seq<string>) {
    if t.deployment in cfg.deployments && t.deployment != "" then
      (t.contexts + cfg.deployments[t.deployment].contexts, t.stacks + cfg.deployments[t.deployment].stacks)
    else (t.contexts, t.stacks)
  }

  method ResolveTargets(cfg: Config, t: Targets) returns (r: Resolved)
    ensures r.Narrowed? && (t.contexts != [] || t.stacks != [] || t.deployment != "") ==>
              var (contexts, stacks) := ListedBy(cfg, t);
              && Scoped(cfg, contexts, stacks, r.cfg)
              && (forall c :: c in contexts ==> c in cfg.contexts)
              && (forall s :: s in stacks ==> exists c :: c in cfg.contexts && KeyOf(s, c))
              && (t.deployment != "" ==> t.deployment in cfg.deployments)
    ensures r.Rejected? ==> match r.error
                            case UnknownDeployment(name) => name == t.deployment != "" && name !in cfg.deployments
                            case UnknownContext(name) => name in ListedBy(cfg, t).0 && name !in cfg.contexts
                            case BadStackKey(key) => key in ListedBy(cfg, t).1 && !exists c :: c in cfg.contexts && KeyOf(key, c)
    ensures IsEmpty(t) ==> r == Narrowed(cfg)
    ensures !IsEmpty(t) && t.deployment != "" && t.deployment !in cfg.deployments ==> r == Rejected(UnknownDeployment(t.deployment))
    ensures !IsEmpty(t) && (t.deployment == "" || t.deployment in cfg.deployments) ==>
              var e := Expanded(cfg, t);
              if !KnownContexts(cfg, e) then r.Rejected? && r.error.UnknownContext?
              else if !KnownStacks(cfg, e) then r.Rejected? && r.error.BadStackKey?
              else r == Narrowed(Narrow(cfg, e))
  {
    hide KnownStack, Scoped, KeyOf, AllowedContexts, Narrow;
    if IsEmpty(t) { return Narrowed(cfg); }
    var e := t;
    if t.deployment != "" {
      if t.deployment !in cfg.deployments { return Rejected(UnknownDeployment(t.deployment)); }
      var d := cfg.deployments[t.deployment];
      e := Targets(t.contexts + d.contexts, t.stacks + d.stacks, "");
    }
    var bad, allowed := AllowContexts(cfg, e);
    if bad.Some? { return Rejected(UnknownContext(bad.value)); }
    bad, allowed := AllowStacks(cfg, e, allowed);
    forall s ensures KnownStack(cfg, s) <==> exists c :: c in cfg.contexts && KeyOf(s, c) { KnownStackIs(cfg, s); }
    if bad.Some? { return Rejected(BadStackKey(bad.value)); }
    var narrowed := FilterConfig(cfg, e);
    NarrowSays(cfg, e);
    r := Narrowed(narrowed);
  }

  lemma {:induction false} KnownStackIs(cfg: Config, s: string)
    ensures KnownStack(cfg, s) <==> exists c :: c in cfg.contexts && KeyOf(s, c)
  {
    hide ParseKey, KeyOf;
    if KnownStack(cfg, s) { ParsedIs(s, ParseKey(s).value.0); }
    if c :| c in cfg.contexts && KeyOf(s, c) { ParsedIs(s, c); }
  }

  method FilterStacks(m: map<string, StackSpec>, t: Targets) returns (r: map<string, StackSpec>)
    ensures r == map k | k in m && AllowedKey(t, k) :: m[k]
  {
    r := map[];
    var left := m.Keys;
    while left != {}
      invariant left <= m.Keys && r == map k | k in m && k !in left && AllowedKey(t, k) :: m[k]
      decreases left
    {
      var k :| k in left;
      if AllowedKey(t, k) { r := r[k := m[k]]; }
      left := left - {k};
    }
  }

  method FilterFilesets(m: map<string, FilesetSpec>, t: Targets) returns (r: map<string, FilesetSpec>)
    ensures r == map k | k in m && AllowedFileset(t, m[k]) :: m[k]
  {
    r := map[];
    var left := m.Keys;
    while left != {}
      invariant left <= m.Keys && r == map k | k in m && k !in left && AllowedFileset(t, m[k]) :: m[k]
      decreases left
    {
      var k :| k in left;
      if AllowedFileset(t, m[k]) { r := r[k := m[k]]; }
      left := left - {k};
    }
  }

  method FilterConfig(cfg: Config, t: Targets) returns (r: Config)
    ensures r == Narrow(cfg, t)
  {
    var stacks := FilterStacks(cfg.stacks, t);
    var discovered := FilterStacks(cfg.discovered, t);
    var filesets := FilterFilesets(cfg.filesets, t);
    r := cfg.(contexts := cfg.contexts * AllowedContexts(t), stacks := stacks, discovered := discovered, filesets := filesets, targeted := true);
  }

  /** Filtering commutes with merging: the stacks in scope are the merged stacks with an allowed key. */
  lemma {:induction false} FilteringCommutes(cfg: Config, t: Targets)
    ensures AllStacks(Narrow(cfg, t)) == map k | k in AllStacks(cfg) && AllowedKey(t, k) :: AllStacks(cfg)[k]
  {
  }

  /** A stack of a context that is listed by name. */
  predicate OfListedContext(t: Targets, key: string) { ParseKey(key).Some? && ParseKey(key).value.0 in t.contexts }

  /**
   Listing a context brings all its stacks into scope, as a deployment's documentation promises,
   if and only if no stack is listed beside it or all of those stacks are listed themselves.
   */
  lemma {:induction false} ListedContextsCovered(cfg: Config, t: Targets)
    ensures (forall key :: key in AllStacks(cfg) && OfListedContext(t, key) ==> key in AllStacks(Narrow(cfg, t))) <==>
            t.stacks == [] || forall key :: key in AllStacks(cfg) && OfListedContext(t, key) ==> key in t.stacks
  {
    FilteringCommutes(cfg, t);
    hide AllStacks, Narrow, ParseKey;
    assert forall c :: c in t.contexts ==> c in AllowedContexts(t);
  }

  /** A deployment of context `a` and of its stack `x`: the context's other stack `y` is not in scope. */
  lemma {:induction false} DeploymentDropsStack(cfg: Config, t: Targets, spec: StackSpec)
    requires cfg == Config({"a"}, map["d" := Deployment(["a"], ["a/x"])], map["a/x" := spec], map["a/x" := spec, "a/y" := spec],
                           map["a/x/f" := FilesetSpec("v", "a", "x")], false)
    requires t == Targets([], [], "d")
    ensures var e := Expanded(cfg, t);
            && KnownContexts(cfg, e) && KnownStacks(cfg, e)
            && "a/y" in AllStacks(cfg) && OfListedContext(e, "a/y") && "a/y" !in AllStacks(Narrow(cfg, e))
  {
    var e := Expanded(cfg, t);
    assert e == Targets(["a"], ["a/x"], "");
    assert MakeKey("a", "x") == "a/x" && MakeKey("a", "y") == "a/y" && '/' !in "a";
    KeyRoundTrip("a", "x");
    KeyRoundTrip("a", "y");
    hide ParseKey, Narrow;
    FilteringCommutes(cfg, e);
    assert "a/y" != "a/x" by { assert "a/y"[2] == 'y' && "a/x"[2] == 'x'; }
    assert "a/y" in cfg.discovered;
  }
}
