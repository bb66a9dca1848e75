/**
 Running docker commands against one host (internal/dockercli/exec.go:94-203): a semaphore
 limits concurrent commands, and connection errors are retried with growing delays.
 */
module DockerExec {
  import opened Text

  datatype Options = Options(probe: bool, stdin: bool, streaming: bool)

  /** `cap`: the semaphore's capacity, none for local hosts; `retries` and `base`: the retry settings. */
  datatype Limits = Limits(cap: Option<nat>, retries: nat, base: nat)

  predicate Limited(l: Limits, o: Options) { l.cap.Some? && !o.probe }

  function MaxAttempts(l: Limits, o: Options): (r: nat)
    ensures 1 <= r <= l.retries + 1
  {
    if l.cap.Some? && !o.stdin && !o.streaming && !o.probe then l.retries + 1 else 1
  }

  function Power2(n: nat): nat { if n == 0 then 1 else 2 * Power2(n - 1) }

  /** The wait before attempt `k`, counted from zero. */
  function Delay(l: Limits, k: nat): nat
    requires k > 0
  {
    l.base * Power2(k - 1)
  }

  /** All waits before attempt `k`. */
  function Waited(l: Limits, k: nat): nat { if k == 0 then 0 else Waited(l, k - 1) + Delay(l, k) }

  lemma {:induction false} WaitedIs(l: Limits, k: nat)
    ensures Waited(l, k) == l.base * (Power2(k) - 1)
  {
    if k > 0 {
      WaitedIs(l, k - 1);
      assert l.base * (Power2(k - 1) - 1) + l.base * Power2(k - 1) == l.base * (2 * Power2(k - 1) - 1);
    }
  }

  lemma {:induction false} WaitedGrows(l: Limits, j: nat, k: nat)
    requires j <= k
    ensures Waited(l, j) <= Waited(l, k)
  {
    if j < k { WaitedGrows(l, j, k - 1); }
  }

  // ------------------------------------------------------------- retry loop

  /** One attempt: success, a connection error, or any other error. */
  datatype Outcome = Fine | Connection | Broken

  datatype Ended = Ran(outcome: Outcome) | Interrupted

  /**
   The attempts of one command. `outcome(k)` is what attempt `k` yields, `cut(k)` whether the
   context ends during the wait before it.
   */
  method Attempts(l: Limits, o: Options, outcome: nat -> Outcome, cut: nat -> bool) returns (r: Ended, tried: nat, waited: nat)
    ensures 1 <= tried <= l.retries + 1
    ensures l.cap.None? || o.probe || o.stdin || o.streaming ==> tried == 1 && waited == 0
    ensures forall k :: 0 <= k < tried - 1 ==> outcome(k) == Connection && !cut(k + 1)
    ensures r.Ran? ==> r.outcome == outcome(tried - 1)
    ensures r == Ran(Connection) && l.cap.Some? && !o.probe && !o.stdin && !o.streaming ==> tried == l.retries + 1
    ensures r.Interrupted? ==> cut(tried) && outcome(tried - 1) == Connection && tried <= l.retries
    ensures waited == l.base * (Power2(tried - 1) - 1) <= l.base * (Power2(l.retries) - 1)
  {
    var max := MaxAttempts(l, o);
    r, tried, waited := Interrupted, 0, 0;
    WaitedGrows(l, 0, l.retries);
    WaitedIs(l, l.retries);
    WaitedIs(l, 0);
    for attempt := 0 to max
      invariant tried == attempt && waited == (if attempt == 0 then 0 else Waited(l, attempt - 1))
      invariant forall k :: 0 <= k < attempt ==> outcome(k) == Connection
      invariant forall k :: 0 < k < attempt ==> !cut(k)
      invariant attempt > 0 ==> r == Ran(Connection)
      invariant waited <= Waited(l, l.retries)
    {
      if attempt > 0 {
        if cut(attempt) {
          WaitedIs(l, attempt - 1);
          return Interrupted, tried, waited;
        }
        waited := waited + Delay(l, attempt);
        WaitedIs(l, attempt);
        WaitedGrows(l, attempt, l.retries);
      }
      r, tried := Ran(outcome(attempt)), attempt + 1;
      if r.outcome != Connection { break; }
    }
  }

  // -------------------------------------------------------- all interleavings

  type Id = nat

  /** `Waiting` for a token, running attempt `k`, backing off before it, or returned. */
  datatype Phase = Waiting | Running(k: nat, slept: nat) | Backoff(k: nat, slept: nat) | Returned(tried: nat, slept: nat)

  /** `tokens`: what lies in the semaphore's channel; `deferred`: who will take one out on return. */
  datatype State = State(phase: map<Id, Phase>, tokens: nat, deferred: set<Id>)

  datatype Step =
    | Enter(c: Id)            // takes a token if it needs one, and starts
    | Refuse(c: Id)           // the context ends while waiting for a token
    | Finish(c: Id)           // success, another kind of error, or the last attempt
    | Retry(c: Id)            // a connection error with attempts left
    | Wake(c: Id)
    | GiveUp(c: Id, part: nat) // the context ends during the wait

  function Init(ids: set<Id>): State { State(map c | c in ids :: Waiting, 0, {}) }

  predicate Enabled(l: Limits, opts: Id -> Options, s: State, step: Step) {
    step.c in s.phase &&
    var p, o := s.phase[step.c], opts(step.c);
    match step
    case Enter(_) => p.Waiting? && (Limited(l, o) ==> s.tokens < l.cap.value)
    case Refuse(_) => p.Waiting? && Limited(l, o)
    case Finish(_) => p.Running?
    case Retry(_) => p.Running? && p.k + 1 < MaxAttempts(l, o)
    case Wake(_) => p.Backoff? && p.k > 0
    case GiveUp(_, part) => p.Backoff? && p.k > 0 && part <= Delay(l, p.k)
  }

  /** The deferred receive; it blocks for ever on an empty channel, which `NeverBlocked` rules out. */
  function Leave(s: State, c: Id, p: Phase): State {
    State(s.phase[c := p], if c in s.deferred && s.tokens > 0 then s.tokens - 1 else s.tokens, s.deferred - {c})
  }

  function Do(l: Limits, opts: Id -> Options, s: State, step: Step): State
    requires Enabled(l, opts, s, step)
  {
    var c := step.c;
    var p := s.phase[c];
    match step
    case Enter(_) =>
      if Limited(l, opts(c)) then State(s.phase[c := Running(0, 0)], s.tokens + 1, s.deferred + {c})
      else s.(phase := s.phase[c := Running(0, 0)])
    case Refuse(_) => s.(phase := s.phase[c := Returned(0, 0)])
    case Finish(_) => Leave(s, c, Returned(p.k + 1, p.slept))
    case Retry(_) => s.(phase := s.phase[c := Backoff(p.k + 1, p.slept)])
    case Wake(_) => s.(phase := s.phase[c := Running(p.k, p.slept + Delay(l, p.k))])
    case GiveUp(_, part) => Leave(s, c, Returned(p.k, p.slept + part))
  }

  ghost predicate Legal(l: Limits, opts: Id -> Options, ids: set<Id>, steps: seq<Step>)
    decreases |steps|, 0
  {
    steps == [] ||
    (&& Legal(l, opts, ids, steps[..|steps| - 1])
     && Enabled(l, opts, After(l, opts, ids, steps[..|steps| - 1]), steps[|steps| - 1]))
  }

  ghost function After(l: Limits, opts: Id -> Options, ids: set<Id>, steps: seq<Step>): State
    requires Legal(l, opts, ids, steps)
    decreases |steps|, 1
  {
    if steps == [] then Init(ids)
    else Do(l, opts, After(l, opts, ids, steps[..|steps| - 1]), steps[|steps| - 1])
  }

  predicate InFlight(p: Phase) { p.Running? || p.Backoff? }

  /** The commands that hold a token. */
  ghost function Holders(l: Limits, opts: Id -> Options, s: State): set<Id> {
    set c | c in s.phase && InFlight(s.phase[c]) && Limited(l, opts(c))
  }

  ghost predicate Counted(l: Limits, opts: Id -> Options, s: State) {
    && s.deferred == Holders(l, opts, s)
    && s.tokens == |s.deferred|
    && (l.cap.Some? ==> s.tokens <= l.cap.value)
  }

  ghost predicate Timed(l: Limits, opts: Id -> Options, s: State) {
    forall c :: c in s.phase ==>
      var max := MaxAttempts(l, opts(c));
      match s.phase[c]
      case Waiting => true
      case Running(k, slept) => k < max && slept == Waited(l, k)
      case Backoff(k, slept) => 0 < k < max && slept == Waited(l, k - 1)
      case Returned(tried, slept) => tried <= max && slept <= Waited(l, max - 1)
  }

  lemma {:induction false} HoldersStep(l: Limits, opts: Id -> Options, s: State, step: Step)
    requires s.deferred == Holders(l, opts, s) && Enabled(l, opts, s, step)
    ensures var t := Do(l, opts, s, step); t.deferred == Holders(l, opts, t)
    ensures step.c in s.deferred ==> InFlight(s.phase[step.c])
  {
    hide Delay, MaxAttempts;
    var t := Do(l, opts, s, step);
    forall c ensures c in t.deferred <==> c in Holders(l, opts, t) {
      assert c in s.deferred <==> c in Holders(l, opts, s);
    }
  }

  lemma {:induction false} CountedStep(l: Limits, opts: Id -> Options, s: State, step: Step)
    requires Counted(l, opts, s) && Enabled(l, opts, s, step)
    ensures Counted(l, opts, Do(l, opts, s, step))
  {
    hide Delay, MaxAttempts, Holders;
    var c := step.c;
    HoldersStep(l, opts, s, step);
    if c in s.deferred {
      assert s.tokens > 0;
      assert |s.deferred - {c}| == |s.deferred| - 1;
    } else {
      assert s.deferred - {c} == s.deferred;
      assert |s.deferred + {c}| == |s.deferred| + 1;
    }
  }

  lemma {:induction false} TimedStep(l: Limits, opts: Id -> Options, s: State, step: Step)
    requires Timed(l, opts, s) && Enabled(l, opts, s, step)
    ensures Timed(l, opts, Do(l, opts, s, step))
  {
    hide Delay, Limited, MaxAttempts;
    var max, p := MaxAttempts(l, opts(step.c)), s.phase[step.c];
    if p.Running? { WaitedGrows(l, p.k, max - 1); }
    if p.Backoff? { WaitedGrows(l, p.k, max - 1); }
  }

  lemma {:induction false} InvHolds(l: Limits, opts: Id -> Options, ids: set<Id>, steps: seq<Step>)
    requires Legal(l, opts, ids, steps)
    ensures Counted(l, opts, After(l, opts, ids, steps)) && Timed(l, opts, After(l, opts, ids, steps))
  {
    hide Do, Enabled, Counted, Timed;
    if steps == [] {
      InitInv(l, opts, ids);
    } else {
      var front, last := steps[..|steps| - 1], steps[|steps| - 1];
      InvHolds(l, opts, ids, front);
      CountedStep(l, opts, After(l, opts, ids, front), last);
      TimedStep(l, opts, After(l, opts, ids, front), last);
    }
  }

  lemma {:induction false} InitInv(l: Limits, opts: Id -> Options, ids: set<Id>)
    ensures Counted(l, opts, Init(ids)) && Timed(l, opts, Init(ids))
  {
    assert Holders(l, opts, Init(ids)) == {};
  }

  /** The commands that are running or backing off, probes aside. */
  ghost function Busy(opts: Id -> Options, s: State): set<Id> {
    set c | c in s.phase && (s.phase[c].Running? || s.phase[c].Backoff?) && !opts(c).probe
  }

  /**
   In every interleaving on a limited host no more commands than the capacity are running, probes
   aside; exactly these have taken a token.
   */
  lemma {:induction false} AtMostCap(l: Limits, opts: Id -> Options, ids: set<Id>, steps: seq<Step>)
    requires Legal(l, opts, ids, steps)
    ensures var s := After(l, opts, ids, steps);
            && (l.cap.Some? ==> |Busy(opts, s)| == s.tokens <= l.cap.value && s.deferred == Busy(opts, s))
            && (l.cap.None? ==> s.tokens == 0 && s.deferred == {})
  {
    InvHolds(l, opts, ids, steps);
    var s := After(l, opts, ids, steps);
    if l.cap.Some? { assert Holders(l, opts, s) == Busy(opts, s); } else { assert Holders(l, opts, s) == {}; }
  }

  /** A waiting command may start at once, unless it is limited and as many limited ones as the host allows are running. */
  lemma {:induction false} StartsExactly(l: Limits, opts: Id -> Options, ids: set<Id>, steps: seq<Step>, c: Id)
    requires Legal(l, opts, ids, steps) && c in After(l, opts, ids, steps).phase && After(l, opts, ids, steps).phase[c].Waiting?
    ensures var s := After(l, opts, ids, steps);
            Enabled(l, opts, s, Enter(c)) <==> l.cap.None? || opts(c).probe || |Busy(opts, s)| < l.cap.value
  {
    AtMostCap(l, opts, ids, steps);
    hide Legal, After, Busy;
  }

  /** A command gives up before it has started only while it waits for a token. */
  lemma {:induction false} RefusesExactly(l: Limits, opts: Id -> Options, s: State, c: Id)
    requires c in s.phase
    ensures Enabled(l, opts, s, Refuse(c)) <==> s.phase[c].Waiting? && l.cap.Some? && !opts(c).probe
  {
  }

  /** A running command tries again after a connection error exactly if it is neither probe, stdin nor streaming, the host is remote, and it has retries left. */
  lemma {:induction false} RetriesExactly(l: Limits, opts: Id -> Options, s: State, c: Id)
    requires c in s.phase && s.phase[c].Running?
    ensures Enabled(l, opts, s, Retry(c)) <==>
            l.cap.Some? && !opts(c).probe && !opts(c).stdin && !opts(c).streaming && s.phase[c].k < l.retries
  {
  }

  /** Whoever has a receive deferred finds a token: returning never blocks, nothing is released twice. */
  lemma {:induction false} NeverBlocked(l: Limits, opts: Id -> Options, ids: set<Id>, steps: seq<Step>, c: Id)
    requires Legal(l, opts, ids, steps) && c in After(l, opts, ids, steps).deferred
    ensures var s := After(l, opts, ids, steps);
            s.tokens > 0 && c in s.phase && InFlight(s.phase[c]) && Limited(l, opts(c))
  {
    InvHolds(l, opts, ids, steps);
    assert |After(l, opts, ids, steps).deferred - {c}| == |After(l, opts, ids, steps).deferred| - 1;
  }

  /** When all commands have returned, the semaphore is empty again. */
  lemma {:induction false} AllReleased(l: Limits, opts: Id -> Options, ids: set<Id>, steps: seq<Step>)
    requires Legal(l, opts, ids, steps)
    requires forall c :: c in After(l, opts, ids, steps).phase ==> After(l, opts, ids, steps).phase[c].Returned?
    ensures After(l, opts, ids, steps).tokens == 0
  {
    InvHolds(l, opts, ids, steps);
    assert Holders(l, opts, After(l, opts, ids, steps)) == {};
  }

  /** Attempts and waits of a returned command; probes, stdin and streaming calls run at most once and never wait. */
  lemma {:induction false} AttemptsBounded(l: Limits, opts: Id -> Options, ids: set<Id>, steps: seq<Step>, c: Id)
    requires Legal(l, opts, ids, steps)
    requires c in After(l, opts, ids, steps).phase && After(l, opts, ids, steps).phase[c].Returned?
    ensures var p, o := After(l, opts, ids, steps).phase[c], opts(c);
            && p.tried <= l.retries + 1
            && p.slept <= l.base * (Power2(l.retries) - 1)
            && (o.probe || o.stdin || o.streaming || l.cap.None? ==> p.tried <= 1 && p.slept == 0)
  {
    hide Legal, After, Waited, Power2, MaxAttempts, Counted;
    InvHolds(l, opts, ids, steps);
    BoundedBy(l, opts(c), After(l, opts, ids, steps).phase[c]);
  }

  lemma {:induction false} BoundedBy(l: Limits, o: Options, p: Phase)
    requires p.Returned? && p.tried <= MaxAttempts(l, o) && p.slept <= Waited(l, MaxAttempts(l, o) - 1)
    ensures p.tried <= l.retries + 1 && p.slept <= l.base * (Power2(l.retries) - 1)
    ensures o.probe || o.stdin || o.streaming || l.cap.None? ==> p.tried <= 1 && p.slept == 0
  {
    WaitedIs(l, l.retries);
    WaitedGrows(l, 0, l.retries);
    assert Waited(l, 0) == 0;
    hide Waited, Power2;
  }
}
