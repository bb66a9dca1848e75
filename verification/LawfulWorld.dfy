/**
 The assumptions about the world outside Dockform can all hold at once: an injective text
 encoding stands in for SHA-256, and a simple `compose up` keeps its contract.
 */
module LawfulWorld {
  import opened Text
  import opened FilesetIndex
  import opened VolumeTree
  import opened DockerHost

  // --------------------------------------------------------------------- hash

  function Escaped(s: string): string {
    if s == "" then "" else
      (if s[0] == '\n' then "\\n" else if s[0] == '\\' then "\\\\" else [s[0]]) + Escaped(s[1..])
  }

  function Encoded(s: string): string { "#" + Escaped(s) }

  lemma {:induction false} EscapedNoBreak(s: string)
    ensures '\n' !in Escaped(s)
  {
    if s != "" { EscapedNoBreak(s[1..]); }
  }

  lemma {:induction false} EscapedInjective(a: string, b: string)
    requires Escaped(a) == Escaped(b)
    ensures a == b
  {
    if a != "" && b != "" {
      var x, y := Escaped(a), Escaped(b);
      assert (a[0] == '\n' ==> x[1] == 'n') && (a[0] == '\\' ==> x[1] == '\\');
      assert (b[0] == '\n' ==> y[1] == 'n') && (b[0] == '\\' ==> y[1] == '\\');
      assert x[0] == y[0];
      var k := if a[0] == '\n' || a[0] == '\\' then 2 else 1;
      assert x[k..] == Escaped(a[1..]) && y[k..] == Escaped(b[1..]);
      EscapedInjective(a[1..], b[1..]);
      assert a == [a[0]] + a[1..] && b == [b[0]] + b[1..];
    }
  }

  lemma {:induction false} EncodedDigests()
    ensures Digests(Encoded)
  {
    forall x, y | Encoded(x) == Encoded(y) ensures x == y {
      assert Encoded(x)[1..] == Escaped(x) && Encoded(y)[1..] == Escaped(y);
      EscapedInjective(x, y);
    }
    forall x ensures Encoded(x) != "" && '\n' !in Encoded(x) { EscapedNoBreak(x); }
  }

  // --------------------------------------------------------------- compose up

  /** A bound on the length of some names. */
  ghost function Longest(names: set<string>): (k: nat)
    ensures forall n :: n in names ==> |n| <= k
  {
    if names == {} then 0 else
      var n :| n in names;
      var k := Longest(names - {n});
      if |n| > k then |n| else k
  }

  function Padding(k: nat): (s: string)
    ensures |s| == k
  {
    if k == 0 then "" else "x" + Padding(k - 1)
  }

  ghost function NewName(h: Host, svc: string): string { Padding(Longest(h.containers.Keys) + 1) + svc }

  ghost function Kept(h: Host, s: Stack): set<string> { set n | n in h.containers && !PlannedBy(s, h.containers[n]) }

  ghost function NewNames(h: Host, s: Stack): set<string> { set svc | svc in s.services :: NewName(h, svc) }

  ghost function ContainerOf(s: Stack, svc: string): Container {
    Container(s.project, svc, true, if svc in s.services then s.services[svc] else "", "", {})
  }

  ghost function ServiceIn(h: Host, n: string): string {
    var k := Longest(h.containers.Keys) + 1;
    if |n| < k then "" else n[k..]
  }

  /** Removes the planned services' containers and starts new ones. */
  ghost function SimpleUp(h: Host, s: Stack): Host {
    h.(containers := map n | n in Kept(h, s) + NewNames(h, s) ::
                       if n in Kept(h, s) then h.containers[n] else ContainerOf(s, ServiceIn(h, n)))
  }

  lemma {:induction false} NewNameIs(h: Host, s: Stack, svc: string)
    ensures NewName(h, svc) !in h.containers && ServiceIn(h, NewName(h, svc)) == svc
  {
    var n := NewName(h, svc);
    assert n[Longest(h.containers.Keys) + 1..] == svc;
    assert forall m :: m in h.containers ==> m in h.containers.Keys && |m| < |n|;
  }

  lemma {:induction false} NewContainer(h: Host, s: Stack, n: string)
    requires n in NewNames(h, s)
    ensures var c := ContainerOf(s, ServiceIn(h, n));
            n !in h.containers && PlannedBy(s, c) && c.running && c.hash == s.services[c.service]
  {
    var svc :| svc in s.services && n == NewName(h, svc);
    NewNameIs(h, s, svc);
  }

  lemma {:induction false} SimpleUpContainers(h: Host, s: Stack, n: string)
    ensures var h' := SimpleUp(h, s);
            && (n in h.containers && !PlannedBy(s, h.containers[n]) ==> n in h'.containers && h'.containers[n] == h.containers[n])
            && (n in h'.containers && !PlannedBy(s, h'.containers[n]) ==> n in h.containers && h.containers[n] == h'.containers[n])
            && (n in h'.containers && PlannedBy(s, h'.containers[n]) ==> HasHash(s, h'.containers[n]))
  {
    hide NewNames, ContainerOf, ServiceIn;
    if n in NewNames(h, s) { NewContainer(h, s, n); }
  }

  lemma {:induction false} SimpleUpRuns(h: Host, s: Stack, svc: string)
    requires svc in s.services
    ensures var h' := SimpleUp(h, s); exists n :: n in RunningIn(h', s.project) && h'.containers[n].service == svc
  {
    hide ServiceIn, NewName;
    var n := NewName(h, svc);
    NewNameIs(h, s, svc);
    assert n in NewNames(h, s);
    assert n in RunningIn(SimpleUp(h, s), s.project);
  }

  lemma {:induction false} UpPostFrom(h: Host, s: Stack, h': Host)
    requires h'.volumes == h.volumes && h'.networks == h.networks
    requires forall n :: n in h.containers && !PlannedBy(s, h.containers[n]) ==> n in h'.containers && h'.containers[n] == h.containers[n]
    requires forall n :: n in h'.containers && !PlannedBy(s, h'.containers[n]) ==> n in h.containers && h.containers[n] == h'.containers[n]
    requires forall n :: n in RunningIn(h', s.project) && PlannedBy(s, h'.containers[n]) ==> HasHash(s, h'.containers[n])
    requires forall svc :: svc in s.services ==> exists n :: n in RunningIn(h', s.project) && h'.containers[n].service == svc
    ensures UpPost(h, s, h')
  {
    hide PlannedBy, RunningIn;
    forall n | n in RunningIn(h', s.project) && n in h'.containers && PlannedBy(s, h'.containers[n])
      ensures h'.containers[n].service in s.services && h'.containers[n].hash == s.services[h'.containers[n].service] {}
  }

  lemma {:induction false} SimpleUpLawful(h: Host, s: Stack)
    ensures UpPost(h, s, SimpleUp(h, s))
  {
    hide PlannedBy, UpPost, HasHash, Kept, NewNames, ContainerOf;
    var h' := SimpleUp(h, s);
    forall n | n in h.containers && !PlannedBy(s, h.containers[n]) ensures n in h'.containers && h'.containers[n] == h.containers[n] {
      SimpleUpContainers(h, s, n);
    }
    forall n | n in h'.containers && !PlannedBy(s, h'.containers[n]) ensures n in h.containers && h.containers[n] == h'.containers[n] {
      SimpleUpContainers(h, s, n);
    }
    forall n | n in RunningIn(h', s.project) && PlannedBy(s, h'.containers[n]) ensures HasHash(s, h'.containers[n]) { SimpleUpContainers(h, s, n); }
    forall svc | svc in s.services ensures exists n :: n in RunningIn(h', s.project) && h'.containers[n].service == svc { SimpleUpRuns(h, s, svc); }
    UpPostFrom(h, s, h');
  }

  predicate HasHash(s: Stack, c: Container) { c.service in s.services && c.hash == s.services[c.service] }

  /** The assumptions are consistent. */
  lemma {:induction false} LawfulExists()
    ensures exists w :: Lawful(w)
  {
    ghost var w := World("id", Encoded, (h, s) => SimpleUp(h, s));
    EncodedDigests();
    forall h, s ensures UpPost(h, s, w.up(h, s)) { SimpleUpLawful(h, s); }
    assert Lawful(w);
  }
}
