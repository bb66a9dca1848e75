/**
 Running one function per context, sequentially or in parallel
 (internal/planner/orchestrate.go). The parallel form is a step relation: every goroutine
 starts, returns, records its error under the lock and then cancels the others, in any
 interleaving, and the caller's context may be cancelled at any time.
 */
module Orchestrate {
  import opened Text

  datatype Mode = FailFast | RunToCompletion

  /** An error; `Aborted` wraps the error of a context that is blamed on a sibling. */
  datatype Failure = Plain(text: string) | Aborted(context: string, cause: Failure)

  datatype Result = Result(context: string, err: Failure)

  datatype Phase = Waiting | Running | Returned(r: Option<Failure>) | Recorded(err: Failure) | Finished(r: Option<Failure>)

  /**
   `flagged` and `first` are the variables under the lock, `cancelled` tells whether the run's
   own context was cancelled, `parentDead` whether the caller's was. `calls` and `early` are
   history: the calls made, and who failed while nothing had been cancelled.
   */
  datatype State = State(phase: map<string, Phase>, errs: seq<Result>, flagged: bool, first: string, cancelled: bool,
                         parentDead: bool, calls: seq<string>, early: set<string>)

  datatype Step = Begin(c: string) | Return(c: string, r: Option<Failure>) | Record(c: string) | Cancel(c: string) | Skip(c: string) | KillParent

  function Init(names: set<string>): State {
    State(map c | c in names :: Waiting, [], false, "", false, false, [], {})
  }

  /** The context handed to the functions is cancelled. */
  predicate Dead(s: State) { s.parentDead || s.cancelled }

  /** `behave`: what each function returns as long as nothing is cancelled. */
  predicate Enabled(s: State, step: Step, behave: string -> Option<Failure>) {
    match step
    case Begin(c) => c in s.phase && s.phase[c].Waiting?
    case Return(c, r) => c in s.phase && s.phase[c].Running? && (r.Some? ==> r.value.Plain?) && (!Dead(s) ==> r == behave(c))
    case Record(c) => c in s.phase && s.phase[c].Returned? && s.phase[c].r.Some?
    case Cancel(c) => c in s.phase && s.phase[c].Recorded?
    case Skip(c) => c in s.phase && s.phase[c] == Returned(None)
    case KillParent => true
  }

  function Do(mode: Mode, s: State, step: Step, behave: string -> Option<Failure>): State
    requires Enabled(s, step, behave)
  {
    match step
    case Begin(c) => s.(phase := s.phase[c := Running], calls := s.calls + [c])
    case Return(c, r) => s.(phase := s.phase[c := Returned(r)], early := if r.Some? && !Dead(s) then s.early + {c} else s.early)
    case Record(c) =>
      var err := s.phase[c].r.value;
      var t := s.(phase := s.phase[c := Recorded(err)], errs := s.errs + [Result(c, err)]);
      if mode == FailFast && !s.flagged then t.(flagged := true, first := c) else t
    case Cancel(c) =>
      s.(phase := s.phase[c := Finished(Some(s.phase[c].err))], cancelled := s.cancelled || mode == FailFast)
    case Skip(c) => s.(phase := s.phase[c := Finished(None)])
    case KillParent => s.(parentDead := true)
  }

  /** An interleaving, as the steps it consists of, and the state it leads to. */
  ghost predicate Legal(mode: Mode, names: set<string>, behave: string -> Option<Failure>, steps: seq<Step>)
    decreases |steps|, 0
  {
    steps == [] ||
    (&& Legal(mode, names, behave, steps[..|steps| - 1])
     && Enabled(After(mode, names, behave, steps[..|steps| - 1]), steps[|steps| - 1], behave))
  }

  ghost function After(mode: Mode, names: set<string>, behave: string -> Option<Failure>, steps: seq<Step>): State
    requires Legal(mode, names, behave, steps)
    decreases |steps|, 1
  {
    if steps == [] then Init(names)
    else Do(mode, After(mode, names, behave, steps[..|steps| - 1]), steps[|steps| - 1], behave)
  }

  ghost predicate Joined(s: State) { forall c :: c in s.phase ==> s.phase[c].Finished? }

  // --------------------------------------------------------------- invariants

  /** The error a context has recorded, if it has. */
  function RecordedError(p: Phase): Option<Failure> {
    match p
    case Recorded(err) => Some(err)
    case Finished(r) => r
    case _ => None
  }

  ghost predicate Ledger(s: State, names: set<string>) {
    && s.phase.Keys == names
    && (forall r :: r in s.errs <==> r.context in s.phase && RecordedError(s.phase[r.context]) == Some(r.err))
    && (forall i, j :: 0 <= i < j < |s.errs| ==> s.errs[i].context != s.errs[j].context)
    && (forall r :: r in s.errs ==> r.err.Plain?)
    && (forall c :: c in s.phase && s.phase[c].Returned? && s.phase[c].r.Some? ==> s.phase[c].r.value.Plain?)
  }

  ghost predicate Blame(mode: Mode, s: State) {
    match mode
    case FailFast =>
      && (s.flagged <==> s.errs != [])
      && (s.errs != [] ==> s.first == s.errs[0].context)
      && (s.cancelled <==> exists c :: c in s.phase && s.phase[c].Finished? && s.phase[c].r.Some?)
    case RunToCompletion => !s.flagged && !s.cancelled
  }

  ghost predicate Called(s: State) {
    && NoDup(s.calls)
    && (forall c :: c in s.calls <==> c in s.phase && !s.phase[c].Waiting?)
  }

  ghost predicate Inv(mode: Mode, s: State, names: set<string>) { Ledger(s, names) && Blame(mode, s) && Called(s) }

  lemma {:induction false} LedgerStep(mode: Mode, s: State, step: Step, behave: string -> Option<Failure>, names: set<string>)
    requires Ledger(s, names) && Enabled(s, step, behave)
    ensures Ledger(Do(mode, s, step, behave), names)
  {
    var t := Do(mode, s, step, behave);
    if step.Record? {
      assert Result(step.c, s.phase[step.c].r.value) in t.errs;
    }
    forall r ensures r in t.errs <==> r.context in t.phase && RecordedError(t.phase[r.context]) == Some(r.err) {
      assert r in s.errs <==> r.context in s.phase && RecordedError(s.phase[r.context]) == Some(r.err);
    }
    forall i, j | 0 <= i < j < |t.errs| ensures t.errs[i].context != t.errs[j].context {
      if j == |s.errs| { assert t.errs[i] in s.errs; }
    }
  }

  lemma {:induction false} BlameStep(mode: Mode, s: State, step: Step, behave: string -> Option<Failure>, names: set<string>)
    requires Ledger(s, names) && Blame(mode, s) && Enabled(s, step, behave)
    ensures Blame(mode, Do(mode, s, step, behave))
  {
    var t := Do(mode, s, step, behave);
    if mode == FailFast {
      if c :| c in s.phase && s.phase[c].Finished? && s.phase[c].r.Some? {
        assert t.phase[c] == s.phase[c];
      }
      if step.Cancel? { assert t.phase[step.c].Finished? && t.phase[step.c].r.Some?; }
    }
  }

  lemma {:induction false} CalledStep(mode: Mode, s: State, step: Step, behave: string -> Option<Failure>)
    requires Called(s) && Enabled(s, step, behave)
    ensures Called(Do(mode, s, step, behave))
  {
  }

  lemma {:induction false} InvHolds(mode: Mode, names: set<string>, behave: string -> Option<Failure>, steps: seq<Step>)
    requires Legal(mode, names, behave, steps)
    ensures Inv(mode, After(mode, names, behave, steps), names)
  {
    hide Do, Enabled, Ledger, Blame, Called;
    if steps == [] {
      InitInv(mode, names);
    } else {
      var front, last := steps[..|steps| - 1], steps[|steps| - 1];
      InvHolds(mode, names, behave, front);
      var s := After(mode, names, behave, front);
      LedgerStep(mode, s, last, behave, names);
      BlameStep(mode, s, last, behave, names);
      CalledStep(mode, s, last, behave);
    }
  }

  lemma {:induction false} InitInv(mode: Mode, names: set<string>)
    ensures Inv(mode, Init(names), names)
  {
  }

  /** No deadlock: until all have finished, some goroutine can take a step. */
  lemma {:induction false} SomeoneCanMove(s: State, behave: string -> Option<Failure>)
    requires !Joined(s) && forall c :: c in s.phase && behave(c).Some? ==> behave(c).value.Plain?
    ensures exists step: Step :: !step.KillParent? && Enabled(s, step, behave)
  {
    var c :| c in s.phase && !s.phase[c].Finished?;
    var step := match s.phase[c]
      case Waiting => Begin(c)
      case Running => Return(c, behave(c))
      case Returned(r) => if r.Some? then Record(c) else Skip(c)
      case Recorded(_) => Cancel(c)
      case Finished(_) => KillParent;
    assert Enabled(s, step, behave);
  }

  // ------------------------------------------------------------------- report

  datatype Report = Success | One(err: Failure) | Many(children: seq<Result>, failed: nat, aborted: nat)

  function ContextOf(r: Result): string { r.context }

  function Blamed(r: Result, first: string): Result {
    if r.context == first then r else Result(r.context, Aborted(r.context, r.err))
  }

  function Classified(errs: seq<Result>, first: string): (out: seq<Result>)
    ensures |out| == |errs| && forall i :: 0 <= i < |errs| ==> out[i] == Blamed(errs[i], first)
  {
    if errs == [] then [] else Classified(errs[..|errs| - 1], first) + [Blamed(errs[|errs| - 1], first)]
  }

  function Failed(errs: seq<Result>): nat {
    if errs == [] then 0 else Failed(errs[..|errs| - 1]) + if errs[|errs| - 1].err.Aborted? then 0 else 1
  }

  method ClassifyAborted(errs: seq<Result>, first: string) returns (out: seq<Result>)
    ensures |out| == |errs|
    ensures forall i :: 0 <= i < |errs| ==> out[i] == Blamed(errs[i], first)
  {
    out := [];
    for i := 0 to |errs|
      invariant |out| == i && forall k :: 0 <= k < i ==> out[k] == Blamed(errs[k], first)
    {
      if errs[i].context == first {
        out := out + [errs[i]];
      } else {
        out := out + [Result(errs[i].context, Aborted(errs[i].context, errs[i].err))];
      }
    }
  }

  /** The errors as reported: sorted, and classified when the cancellation was our own. */
  function Reported(mode: Mode, s: State): seq<Result> {
    var sorted := Sort(ContextOf, s.errs);
    if mode == FailFast && !s.parentDead && Dead(s) then Classified(sorted, s.first) else sorted
  }

  function ReportOf(mode: Mode, s: State): Report {
    if s.errs == [] then Success else
      var errs := Reported(mode, s);
      if |errs| == 1 then One(errs[0].err) else Many(errs, Failed(errs), CountAborted(errs))
  }

  function CountAborted(errs: seq<Result>): nat {
    if errs == [] then 0 else CountAborted(errs[..|errs| - 1]) + if errs[|errs| - 1].err.Aborted? then 1 else 0
  }

  lemma {:induction false} CountsAddUp(errs: seq<Result>)
    ensures Failed(errs) + CountAborted(errs) == |errs|
  {
    if errs != [] { CountsAddUp(errs[..|errs| - 1]); }
  }

  /** The places of the errors that are wrapped, or that are not. */
  ghost function Where(errs: seq<Result>, aborted: bool): set<nat> { set i | 0 <= i < |errs| && errs[i].err.Aborted? == aborted }

  lemma {:induction false} WhereSnoc(errs: seq<Result>, aborted: bool)
    requires errs != []
    ensures var n := |errs| - 1;
            Where(errs, aborted) == Where(errs[..n], aborted) + (if errs[n].err.Aborted? == aborted then {n} else {}) && n !in Where(errs[..n], aborted)
  {
  }

  lemma {:induction false} CountsAre(errs: seq<Result>)
    ensures Failed(errs) == |Where(errs, false)| && CountAborted(errs) == |Where(errs, true)|
  {
    if errs == [] {
      assert Where(errs, false) == {} && Where(errs, true) == {};
    } else {
      CountsAre(errs[..|errs| - 1]);
      WhereSnoc(errs, false);
      WhereSnoc(errs, true);
      hide Where;
    }
  }

  /** An error as it is shown: wrapped, with its own context's name, exactly in fail-fast mode with a live caller and a cancelled run, unless it is the first one's. */
  ghost function Shown(mode: Mode, s: State, e: Result): Result {
    if mode == FailFast && !s.parentDead && s.cancelled && e.context != s.first then Result(e.context, Aborted(e.context, e.err)) else e
  }

  /** The report of what was recorded: nothing, the one error, or all errors in context order with the numbers of failed and aborted ones. */
  ghost predicate ReportSays(mode: Mode, s: State, r: Report) {
    match r
    case Success => s.errs == []
    case One(err) => |s.errs| == 1 && err == Shown(mode, s, s.errs[0]).err
    case Many(children, failed, aborted) =>
      && |children| > 1 && ShowsAll(mode, s, children)
      && failed == |Where(children, false)| && aborted == |Where(children, true)|
  }

  ghost predicate ShowsAll(mode: Mode, s: State, children: seq<Result>) {
    && |children| == |s.errs|
    && (forall i, j :: 0 <= i < j < |children| ==> !Less(children[j].context, children[i].context))
    && (forall e :: e in s.errs ==> Shown(mode, s, e) in children)
    && (forall c :: c in children ==> exists e :: e in s.errs && c == Shown(mode, s, e))
  }

  lemma {:induction false} ReportedAt(mode: Mode, s: State, i: nat)
    requires i < |Sort(ContextOf, s.errs)|
    ensures |Reported(mode, s)| == |Sort(ContextOf, s.errs)| && Reported(mode, s)[i] == Shown(mode, s, Sort(ContextOf, s.errs)[i])
  {
    hide Sort;
  }

  lemma {:induction false} ReportedSays(mode: Mode, s: State)
    ensures ShowsAll(mode, s, Reported(mode, s))
  {
    hide Less, Reported, Shown;
    var sorted, errs := Sort(ContextOf, s.errs), Reported(mode, s);
    SortElements(ContextOf, s.errs);
    SortSorts(ContextOf, s.errs);
    hide Sort;
    assert |errs| == |sorted| by { SameLength(mode, s); }
    forall r ensures r in sorted <==> r in s.errs { assert r in Elements(sorted) <==> r in Elements(s.errs); }
    forall i | 0 <= i < |errs| ensures errs[i] == Shown(mode, s, sorted[i]) && errs[i].context == sorted[i].context {
      ReportedAt(mode, s, i);
      SameContext(mode, s, sorted[i]);
    }
    forall i, j | 0 <= i < j < |errs| ensures !Less(errs[j].context, errs[i].context) { assert !Less(ContextOf(sorted[j]), ContextOf(sorted[i])); }
    forall e | e in s.errs ensures Shown(mode, s, e) in errs {
      var i :| 0 <= i < |sorted| && sorted[i] == e;
      assert errs[i] in errs;
    }
    forall c | c in errs ensures exists e :: e in s.errs && c == Shown(mode, s, e) {
      var i :| 0 <= i < |errs| && errs[i] == c;
      assert sorted[i] in sorted;
    }
  }

  lemma {:induction false} SameLength(mode: Mode, s: State)
    ensures |Reported(mode, s)| == |Sort(ContextOf, s.errs)|
  {
  }

  lemma {:induction false} SameContext(mode: Mode, s: State, e: Result)
    ensures Shown(mode, s, e).context == e.context
  {
  }

  lemma {:induction false} ReportOfSays(mode: Mode, s: State)
    ensures ReportSays(mode, s, ReportOf(mode, s))
  {
    hide Reported, Failed, CountAborted, Less, Shown;
    ReportedSays(mode, s);
    CountsAre(Reported(mode, s));
    if |s.errs| == 1 { assert s.errs[0] in s.errs && Reported(mode, s)[0] in Reported(mode, s); }
  }

  /** What the caller does after the join. */
  method Conclude(mode: Mode, s: State) returns (r: Report)
    ensures r == ReportOf(mode, s) && ReportSays(mode, s, r)
  {
    hide Sort, Failed, CountAborted, ReportSays;
    ReportOfSays(mode, s);
    if s.errs == [] { return Success; }
    var errs := Sort(ContextOf, s.errs);
    if mode == FailFast {
      if !s.parentDead && Dead(s) {
        var out := ClassifyAborted(errs, s.first);
        assert out == Classified(errs, s.first);
        errs := out;
      }
    }
    if |errs| == 1 { return One(errs[0].err); }
    var failed := CountFailures(errs);
    CountsAddUp(errs);
    r := Many(errs, failed, |errs| - failed);
  }

  method CountFailures(errs: seq<Result>) returns (failed: nat)
    ensures failed == Failed(errs)
  {
    failed := 0;
    for i := 0 to |errs|
      invariant failed == Failed(errs[..i])
    {
      assert errs[..i + 1][..i] == errs[..i];
      if !errs[i].err.Aborted? { failed := failed + 1; }
    }
    assert errs[..|errs|] == errs;
  }

  // ----------------------------------------------------------------- FailFast

  lemma {:induction false} SortedErrors(s: State, names: set<string>)
    requires Ledger(s, names)
    ensures var sorted := Sort(ContextOf, s.errs);
            && |sorted| == |s.errs|
            && (forall r :: r in sorted <==> r in s.errs)
            && (forall i, j :: 0 <= i < j < |sorted| ==> Less(sorted[i].context, sorted[j].context))
  {
    var sorted := Sort(ContextOf, s.errs);
    SortElements(ContextOf, s.errs);
    SortSorts(ContextOf, s.errs);
    forall r ensures r in sorted <==> r in s.errs { assert r in Elements(sorted) <==> r in Elements(s.errs); }
    forall i, j | 0 <= i < j < |sorted| ensures Less(sorted[i].context, sorted[j].context) {
      assert sorted[i] in s.errs && sorted[j] in s.errs && sorted[i] != sorted[j];
      assert !Less(ContextOf(sorted[j]), ContextOf(sorted[i]));
      LessTotal(sorted[i].context, sorted[j].context);
    }
  }

  lemma {:induction false} CountNone(errs: seq<Result>)
    requires forall r :: r in errs ==> r.err.Plain?
    ensures Failed(errs) == |errs|
  {
    if errs != [] {
      assert errs[|errs| - 1] in errs;
      CountNone(errs[..|errs| - 1]);
    }
  }

  lemma {:induction false} CountOne(errs: seq<Result>, k: nat)
    requires k < |errs| && forall i :: 0 <= i < |errs| ==> (errs[i].err.Aborted? <==> i != k)
    ensures Failed(errs) == 1
  {
    var front := errs[..|errs| - 1];
    if k == |errs| - 1 {
      AllAborted(front);
    } else {
      CountOne(front, k);
    }
  }

  lemma {:induction false} AllAborted(errs: seq<Result>)
    requires forall i :: 0 <= i < |errs| ==> errs[i].err.Aborted?
    ensures Failed(errs) == 0
  {
    if errs != [] { AllAborted(errs[..|errs| - 1]); }
  }

  /** By the join the run's own context has been cancelled if and only if somebody failed. */
  lemma {:induction false} CancelledByJoin(names: set<string>, behave: string -> Option<Failure>, steps: seq<Step>)
    requires Legal(FailFast, names, behave, steps) && Joined(After(FailFast, names, behave, steps))
    ensures var s := After(FailFast, names, behave, steps); s.cancelled <==> s.errs != []
  {
    var s := After(FailFast, names, behave, steps);
    InvHolds(FailFast, names, behave, steps);
    if s.errs != [] { assert s.errs[0] in s.errs; }
    if s.cancelled {
      var c :| c in s.phase && s.phase[c].Finished? && s.phase[c].r.Some?;
      assert Result(c, s.phase[c].r.value) in s.errs;
    }
  }

  /**
   In every interleaving in which the caller's context stays alive and someone fails: the
   first recorded error is reported as it is, all others are wrapped as aborted, and the
   counts say so.
   */
  lemma {:induction false} FirstIsGenuine(names: set<string>, behave: string -> Option<Failure>, steps: seq<Step>)
    requires Legal(FailFast, names, behave, steps) && Joined(After(FailFast, names, behave, steps))
    requires var s := After(FailFast, names, behave, steps); !s.parentDead && s.errs != []
    ensures var s := After(FailFast, names, behave, steps);
            if |s.errs| == 1 then ReportOf(FailFast, s) == One(s.errs[0].err)
            else exists children: seq<Result> :: && ReportOf(FailFast, s) == Many(children, 1, |s.errs| - 1)
                                    && |children| == |s.errs|
                                    && (forall i, j :: 0 <= i < j < |children| ==> Less(children[i].context, children[j].context))
                                    && s.errs[0] in children
                                    && (forall r :: r in s.errs && r != s.errs[0] ==> Result(r.context, Aborted(r.context, r.err)) in children)
  {
    hide Legal, After, Reported, Sort;
    var s := After(FailFast, names, behave, steps);
    InvHolds(FailFast, names, behave, steps);
    CancelledByJoin(names, behave, steps);
    SortedErrors(s, names);
    var sorted := Sort(ContextOf, s.errs);
    assert Reported(FailFast, s) == Classified(sorted, s.first) by { OursIsClassified(s); }
    ClassifiedOne(s.errs, sorted, s.first);
  }

  lemma {:induction false} OursIsClassified(s: State)
    requires !s.parentDead && s.cancelled
    ensures Reported(FailFast, s) == Classified(Sort(ContextOf, s.errs), s.first)
  {
  }

  /** Classifying sorted errors leaves the first failure alone and wraps the rest. */
  lemma {:induction false} ClassifiedOne(errs: seq<Result>, sorted: seq<Result>, first: string)
    requires errs != [] && errs[0].context == first && |sorted| == |errs| && (forall r :: r in sorted <==> r in errs)
    requires forall i, j :: 0 <= i < j < |sorted| ==> Less(sorted[i].context, sorted[j].context)
    requires forall r :: r in errs ==> r.err.Plain?
    ensures var out := Classified(sorted, first);
            && (|errs| == 1 ==> out == [errs[0]])
            && Failed(out) == 1 && CountAborted(out) == |errs| - 1
            && (forall i, j :: 0 <= i < j < |out| ==> Less(out[i].context, out[j].context))
            && errs[0] in out
            && (forall r :: r in errs && r != errs[0] ==> Result(r.context, Aborted(r.context, r.err)) in out)
  {
    hide Failed, CountAborted, Less, Classified;
    var out := Classified(sorted, first);
    assert errs[0] in sorted;
    var k :| 0 <= k < |sorted| && sorted[k] == errs[0];
    assert out[k] == errs[0] && out[k] in out;
    forall i | 0 <= i < |out| && i != k ensures sorted[i].context != first { LessIrreflexive(first); }
    assert forall i :: 0 <= i < |out| ==> sorted[i] in errs;
    assert forall i :: 0 <= i < |out| ==> (out[i].err.Aborted? <==> i != k);
    CountOne(out, k);
    CountsAddUp(out);
    forall r | r in errs && r != errs[0] ensures Result(r.context, Aborted(r.context, r.err)) in out {
      assert r in sorted;
      var i :| 0 <= i < |sorted| && sorted[i] == r;
      assert out[i] == Blamed(r, first) && i != k;
    }
  }

  /** If the caller's context was cancelled, no error is wrapped, whatever was cancelled besides. */
  lemma {:induction false} ParentDeadNothingWrapped(mode: Mode, names: set<string>, behave: string -> Option<Failure>, steps: seq<Step>)
    requires Legal(mode, names, behave, steps) && (After(mode, names, behave, steps).parentDead || mode == RunToCompletion)
    ensures var s := After(mode, names, behave, steps);
            && (forall r :: r in Reported(mode, s) <==> r in s.errs)
            && (|s.errs| > 1 ==> ReportOf(mode, s) == Many(Reported(mode, s), |s.errs|, 0))
  {
    hide Legal, After;
    var s := After(mode, names, behave, steps);
    InvHolds(mode, names, behave, steps);
    SortedErrors(s, names);
    CountNone(Reported(mode, s));
    CountsAddUp(Reported(mode, s));
  }

  // ------------------------------------------------------- who was really aborted

  ghost predicate Early(s: State) {
    && (forall c :: c in s.early ==> c in s.phase && FailureOf(s.phase[c]).Some?)
    && (!Dead(s) ==> forall c :: c in s.phase && FailureOf(s.phase[c]).Some? ==> c in s.early)
  }

  function FailureOf(p: Phase): Option<Failure> {
    match p
    case Returned(r) => r
    case Recorded(err) => Some(err)
    case Finished(r) => r
    case _ => None
  }

  /** The failure was returned before anything was cancelled. */
  ghost predicate ReturnedEarly(mode: Mode, names: set<string>, behave: string -> Option<Failure>, steps: seq<Step>, c: string, i: nat)
    requires Legal(mode, names, behave, steps) && i < |steps|
  {
    LegalPrefix(mode, names, behave, steps, i);
    var s := After(mode, names, behave, steps[..i]);
    steps[i].Return? && steps[i].c == c && steps[i].r.Some? && !s.parentDead && !s.cancelled
  }

  lemma {:induction false} LegalPrefix(mode: Mode, names: set<string>, behave: string -> Option<Failure>, steps: seq<Step>, i: nat)
    requires Legal(mode, names, behave, steps) && i <= |steps|
    ensures Legal(mode, names, behave, steps[..i])
  {
    if i == |steps| {
      assert steps[..i] == steps;
    } else {
      LegalPrefix(mode, names, behave, steps[..|steps| - 1], i);
      assert steps[..|steps| - 1][..i] == steps[..i];
    }
  }

  /** The early failures are exactly those. */
  lemma {:induction false} EarlySays(mode: Mode, names: set<string>, behave: string -> Option<Failure>, steps: seq<Step>, c: string)
    requires Legal(mode, names, behave, steps)
    ensures c in After(mode, names, behave, steps).early <==> exists i :: 0 <= i < |steps| && ReturnedEarly(mode, names, behave, steps, c, i)
  {
    if steps != [] {
      var n := |steps| - 1;
      var front := steps[..n];
      hide Do, Enabled;
      EarlySays(mode, names, behave, front, c);
      forall i | 0 <= i < n ensures ReturnedEarly(mode, names, behave, steps, c, i) == ReturnedEarly(mode, names, behave, front, c, i) {
        assert front[..i] == steps[..i] && front[i] == steps[i];
      }
      LastReturn(mode, After(mode, names, behave, front), steps[n], behave, c);
      assert steps[..n] == front;
      if c in After(mode, names, behave, front).early {
        var i :| 0 <= i < n && ReturnedEarly(mode, names, behave, front, c, i);
        assert ReturnedEarly(mode, names, behave, steps, c, i);
      }
      assert ReturnedEarly(mode, names, behave, steps, c, n) <==>
             steps[n].Return? && steps[n].c == c && steps[n].r.Some? && !Dead(After(mode, names, behave, front));
    }
  }

  lemma {:induction false} LastReturn(mode: Mode, s: State, step: Step, behave: string -> Option<Failure>, c: string)
    requires Enabled(s, step, behave)
    ensures c in Do(mode, s, step, behave).early <==> c in s.early || (step.Return? && step.c == c && step.r.Some? && !Dead(s))
  {
  }

  lemma {:induction false} EarlyHolds(mode: Mode, names: set<string>, behave: string -> Option<Failure>, steps: seq<Step>)
    requires Legal(mode, names, behave, steps)
    ensures Early(After(mode, names, behave, steps))
  {
    hide Early, Do, Enabled;
    if steps == [] {
      EarlyInit(names);
    } else {
      var front, last := steps[..|steps| - 1], steps[|steps| - 1];
      EarlyHolds(mode, names, behave, front);
      EarlyStep(mode, After(mode, names, behave, front), last, behave);
    }
  }

  lemma {:induction false} EarlyInit(names: set<string>)
    ensures Early(Init(names))
  {
  }

  lemma {:induction false} EarlyStep(mode: Mode, s: State, step: Step, behave: string -> Option<Failure>)
    requires Early(s) && Enabled(s, step, behave)
    ensures Early(Do(mode, s, step, behave))
  {
  }

  lemma {:induction false} FirstRecorded(t: State, step: Step, behave: string -> Option<Failure>)
    requires Early(t) && Enabled(t, step, behave) && !Dead(t) && t.errs == [] && !t.flagged
    ensures Do(FailFast, t, step, behave).errs != [] ==> Do(FailFast, t, step, behave).first in Do(FailFast, t, step, behave).early
  {
  }

  /** The first recorded error of an uncancelled caller came before any cancellation. */
  lemma {:induction false} FirstIsEarly(names: set<string>, behave: string -> Option<Failure>, steps: seq<Step>)
    requires Legal(FailFast, names, behave, steps)
    requires var s := After(FailFast, names, behave, steps); !s.parentDead && s.errs != []
    ensures After(FailFast, names, behave, steps).first in After(FailFast, names, behave, steps).early
  {
    hide Early, Ledger, Enabled, Do;
    var front, last := steps[..|steps| - 1], steps[|steps| - 1];
    var t := After(FailFast, names, behave, front);
    InvHolds(FailFast, names, behave, front);
    DoKeeps(t, last, behave);
    if t.errs != [] {
      FirstIsEarly(names, behave, front);
    } else {
      EarlyHolds(FailFast, names, behave, front);
      CancelledMeansFailed(t, names);
      FirstRecorded(t, last, behave);
    }
  }

  lemma {:induction false} DoKeeps(t: State, step: Step, behave: string -> Option<Failure>)
    requires Enabled(t, step, behave) && (t.flagged <==> t.errs != [])
    ensures var u := Do(FailFast, t, step, behave);
            t.early <= u.early && (t.parentDead ==> u.parentDead) && (t.errs != [] ==> u.first == t.first)
  {
  }

  lemma {:induction false} CancelledMeansFailed(t: State, names: set<string>)
    requires Ledger(t, names) && Blame(FailFast, t)
    ensures t.cancelled ==> t.errs != []
  {
    if t.cancelled {
      var c :| c in t.phase && t.phase[c].Finished? && t.phase[c].r.Some?;
      assert Result(c, t.phase[c].r.value) in t.errs;
    }
  }

  /** The contexts that are reported as aborted. */
  ghost function WrappedContexts(s: State): set<string> { set r | r in Reported(FailFast, s) && r.err.Aborted? :: r.context }

  lemma {:induction false} WrappedAre(names: set<string>, behave: string -> Option<Failure>, steps: seq<Step>)
    requires Legal(FailFast, names, behave, steps) && Joined(After(FailFast, names, behave, steps))
    requires !After(FailFast, names, behave, steps).parentDead
    ensures var s := After(FailFast, names, behave, steps);
            WrappedContexts(s) == set r | r in s.errs && r.context != s.first :: r.context
  {
    hide Legal, After, Sort, Less, Reported, WrappedContexts;
    var s := After(FailFast, names, behave, steps);
    InvHolds(FailFast, names, behave, steps);
    CancelledByJoin(names, behave, steps);
    SortedErrors(s, names);
    WrappedOf(s, Sort(ContextOf, s.errs));
  }

  lemma {:induction false} WrappedOf(s: State, sorted: seq<Result>)
    requires sorted == Sort(ContextOf, s.errs) && (forall r :: r in sorted <==> r in s.errs) && (forall r :: r in s.errs ==> r.err.Plain?)
    requires !s.parentDead && (s.cancelled <==> s.errs != [])
    ensures WrappedContexts(s) == set r | r in s.errs && r.context != s.first :: r.context
  {
    hide Sort, Classified;
    var out := Reported(FailFast, s);
    forall r | r in s.errs && r.context != s.first ensures r.context in WrappedContexts(s) {
      assert r in sorted;
      var i :| 0 <= i < |sorted| && sorted[i] == r;
      assert out[i] == Blamed(r, s.first) && out[i] in out;
    }
    forall c | c in WrappedContexts(s) ensures exists r :: r in s.errs && r.context != s.first && r.context == c {
      var r :| r in out && r.err.Aborted? && r.context == c;
      var i :| 0 <= i < |out| && out[i] == r;
      assert sorted[i] in s.errs;
    }
  }

  /**
   Wrapping every later error as caused by the cancellation is right exactly when nobody
   but the first failed before the cancellation: the wrongly blamed contexts are those
   that failed early, without the first.
   */
  lemma {:induction false} WronglyBlamed(names: set<string>, behave: string -> Option<Failure>, steps: seq<Step>)
    requires Legal(FailFast, names, behave, steps) && Joined(After(FailFast, names, behave, steps))
    requires !After(FailFast, names, behave, steps).parentDead
    ensures var s := After(FailFast, names, behave, steps);
            && WrappedContexts(s) * s.early == s.early - {s.first}
            && (s.errs != [] ==> s.first in s.early)
  {
    hide Legal, After;
    var s := After(FailFast, names, behave, steps);
    InvHolds(FailFast, names, behave, steps);
    EarlyHolds(FailFast, names, behave, steps);
    WrappedAre(names, behave, steps);
    if s.errs != [] { FirstIsEarly(names, behave, steps); }
    forall c | c in s.early ensures exists r :: r in s.errs && r.context == c {
      assert Result(c, s.phase[c].r.value) in s.errs;
    }
  }

  /** Two contexts fail on their own, each before any cancellation; the second is reported as aborted. */
  lemma {:induction false} IndependentFailureBlamed(behave: string -> Option<Failure>)
    requires behave("a") == Some(Plain("x")) && behave("b") == Some(Plain("y"))
    ensures exists steps :: && Legal(FailFast, {"a", "b"}, behave, steps) && Joined(After(FailFast, {"a", "b"}, behave, steps))
                            && !After(FailFast, {"a", "b"}, behave, steps).parentDead
                            && WrappedContexts(After(FailFast, {"a", "b"}, behave, steps)) == {"b"}
                            && "b" in After(FailFast, {"a", "b"}, behave, steps).early
  {
    hide Legal, After, WrappedContexts, Joined;
    var names := {"a", "b"};
    var returned, s4 := BothReturn(behave);
    var s5 := Extend(FailFast, names, behave, returned, Record("a"), s4);
    var s6 := Extend(FailFast, names, behave, returned + [Record("a")], Cancel("a"), s5);
    var s7 := Extend(FailFast, names, behave, returned + [Record("a")] + [Cancel("a")], Record("b"), s6);
    var steps := returned + [Record("a")] + [Cancel("a")] + [Record("b")] + [Cancel("b")];
    var s8 := Extend(FailFast, names, behave, returned + [Record("a")] + [Cancel("a")] + [Record("b")], Cancel("b"), s7);
    AllFinished(s8, names);
    WrappedAre(names, behave, steps);
    SecondIsWrapped(s8);
  }

  lemma {:induction false} SecondIsWrapped(s: State)
    requires s.errs == [Result("a", Plain("x")), Result("b", Plain("y"))] && s.first == "a"
    ensures (set r | r in s.errs && r.context != s.first :: r.context) == {"b"}
  {
    assert s.errs[1] in s.errs;
    assert "a" != "b";
  }

  /** Both functions are called and both fail while nothing is cancelled. */
  lemma {:induction false} BothReturn(behave: string -> Option<Failure>) returns (steps: seq<Step>, s: State)
    requires behave("a") == Some(Plain("x")) && behave("b") == Some(Plain("y"))
    ensures Legal(FailFast, {"a", "b"}, behave, steps) && After(FailFast, {"a", "b"}, behave, steps) == s
    ensures s == State(map["a" := Returned(behave("a")), "b" := Returned(behave("b"))], [], false, "", false, false, ["a", "b"], {"a", "b"})
  {
    hide Legal, After;
    var names := {"a", "b"};
    LegalNil(FailFast, names, behave);
    s := Extend(FailFast, names, behave, [], Begin("a"), Init(names));
    s := Extend(FailFast, names, behave, [] + [Begin("a")], Begin("b"), s);
    var begun := [] + [Begin("a")] + [Begin("b")];
    s := Extend(FailFast, names, behave, begun, Return("a", behave("a")), s);
    s := Extend(FailFast, names, behave, begun + [Return("a", behave("a"))], Return("b", behave("b")), s);
    steps := begun + [Return("a", behave("a"))] + [Return("b", behave("b"))];
  }

  lemma {:induction false} LegalNil(mode: Mode, names: set<string>, behave: string -> Option<Failure>)
    ensures Legal(mode, names, behave, []) && After(mode, names, behave, []) == Init(names)
  {
  }

  /** One more step at the end of an interleaving. */
  lemma {:induction false} Extend(mode: Mode, names: set<string>, behave: string -> Option<Failure>, steps: seq<Step>, step: Step, s: State) returns (t: State)
    requires Legal(mode, names, behave, steps) && After(mode, names, behave, steps) == s && Enabled(s, step, behave)
    ensures Legal(mode, names, behave, steps + [step]) && After(mode, names, behave, steps + [step]) == t
    ensures t == Do(mode, s, step, behave)
  {
    hide Do, Enabled;
    assert (steps + [step])[..|steps + [step]| - 1] == steps;
    t := Do(mode, s, step, behave);
  }

  lemma {:induction false} AllFinished(s: State, names: set<string>)
    requires s.phase.Keys == names && forall c :: c in names ==> s.phase[c].Finished?
    ensures Joined(s)
  {
  }

  // ---------------------------------------------------------- RunToCompletion

  /** Each function is called exactly once. */
  lemma {:induction false} CalledOnce(mode: Mode, names: set<string>, behave: string -> Option<Failure>, steps: seq<Step>)
    requires Legal(mode, names, behave, steps) && Joined(After(mode, names, behave, steps))
    ensures var s := After(mode, names, behave, steps); NoDup(s.calls) && Elements(s.calls) == names
  {
    hide Legal, After;
    InvHolds(mode, names, behave, steps);
  }

  /** In this mode the functions' context is cancelled only if the caller's is. */
  lemma {:induction false} NobodyCancels(names: set<string>, behave: string -> Option<Failure>, steps: seq<Step>)
    requires Legal(RunToCompletion, names, behave, steps)
    ensures var s := After(RunToCompletion, names, behave, steps); Dead(s) <==> s.parentDead
  {
    hide Legal, After;
    InvHolds(RunToCompletion, names, behave, steps);
  }

  /** As long as nothing is cancelled, functions return what they return on their own. */
  ghost predicate Truthful(s: State, behave: string -> Option<Failure>) {
    !Dead(s) ==> forall c :: c in s.phase ==> match s.phase[c]
      case Returned(r) => r == behave(c)
      case Recorded(err) => Some(err) == behave(c)
      case Finished(r) => r == behave(c)
      case _ => true
  }

  lemma {:induction false} TruthfulStep(mode: Mode, s: State, step: Step, behave: string -> Option<Failure>)
    requires Truthful(s, behave) && Enabled(s, step, behave)
    ensures Truthful(Do(mode, s, step, behave), behave)
  {
  }

  lemma {:induction false} TruthfulHolds(mode: Mode, names: set<string>, behave: string -> Option<Failure>, steps: seq<Step>)
    requires Legal(mode, names, behave, steps)
    ensures Truthful(After(mode, names, behave, steps), behave)
  {
    hide Do, Enabled;
    if steps != [] {
      hide Truthful;
      TruthfulHolds(mode, names, behave, steps[..|steps| - 1]);
      TruthfulStep(mode, After(mode, names, behave, steps[..|steps| - 1]), steps[|steps| - 1], behave);
    }
  }

  /** Sorted results are determined by what they contain. */
  lemma {:induction false} ResultsUnique(a: seq<Result>, b: seq<Result>)
    requires forall i, j :: 0 <= i < j < |a| ==> Less(a[i].context, a[j].context)
    requires forall i, j :: 0 <= i < j < |b| ==> Less(b[i].context, b[j].context)
    requires forall r :: r in a <==> r in b
    ensures a == b
  {
    if a == [] || b == [] {
      NoElements(a);
      NoElements(b);
      assert forall r :: r in Elements(a) <==> r in Elements(b);
      assert Elements(a) == Elements(b);
    } else {
      assert a[0] in b && b[0] in a;
      if a[0] != b[0] { LessTransitive(a[0].context, b[0].context, a[0].context); }
      LessIrreflexive(a[0].context);
      forall r ensures r in a[1..] <==> r in b[1..] {
        assert a == [a[0]] + a[1..] && b == [b[0]] + b[1..];
        assert r in a <==> r in b;
        assert a[0] !in a[1..] && b[0] !in b[1..];
      }
      ResultsUnique(a[1..], b[1..]);
      assert a == [a[0]] + a[1..] && b == [b[0]] + b[1..];
    }
  }

  lemma {:induction false} SameResults(s: State, t: State, names: set<string>)
    requires Ledger(s, names) && Ledger(t, names) && s.phase == t.phase
    ensures Sort(ContextOf, s.errs) == Sort(ContextOf, t.errs) && |s.errs| == |t.errs|
  {
    hide Sort, Less, RecordedError;
    SortedErrors(s, names);
    SortedErrors(t, names);
    ResultsUnique(Sort(ContextOf, s.errs), Sort(ContextOf, t.errs));
  }

  /** The report depends only on what each context returned, not on the interleaving. */
  lemma {:induction false} ReportDependsOnResults(names: set<string>, behave: string -> Option<Failure>, xs: seq<Step>, ys: seq<Step>)
    requires Legal(RunToCompletion, names, behave, xs) && Legal(RunToCompletion, names, behave, ys)
    requires After(RunToCompletion, names, behave, xs).phase == After(RunToCompletion, names, behave, ys).phase
    ensures ReportOf(RunToCompletion, After(RunToCompletion, names, behave, xs)) == ReportOf(RunToCompletion, After(RunToCompletion, names, behave, ys))
  {
    hide Legal, After, Sort, Failed, CountAborted;
    InvHolds(RunToCompletion, names, behave, xs);
    InvHolds(RunToCompletion, names, behave, ys);
    SameResults(After(RunToCompletion, names, behave, xs), After(RunToCompletion, names, behave, ys), names);
  }

  /** Any two finished interleavings whose caller stays alive end with the same results and report. */
  lemma {:induction false} Confluent(names: set<string>, behave: string -> Option<Failure>, xs: seq<Step>, ys: seq<Step>)
    requires Legal(RunToCompletion, names, behave, xs) && Legal(RunToCompletion, names, behave, ys)
    requires Joined(After(RunToCompletion, names, behave, xs)) && Joined(After(RunToCompletion, names, behave, ys))
    requires !After(RunToCompletion, names, behave, xs).parentDead && !After(RunToCompletion, names, behave, ys).parentDead
    ensures var s, t := After(RunToCompletion, names, behave, xs), After(RunToCompletion, names, behave, ys);
            && (forall c :: c in names ==> c in s.phase && s.phase[c] == Finished(behave(c)))
            && s.phase == t.phase
            && ReportOf(RunToCompletion, s) == ReportOf(RunToCompletion, t)
  {
    hide Legal, After, ReportOf;
    var s, t := After(RunToCompletion, names, behave, xs), After(RunToCompletion, names, behave, ys);
    InvHolds(RunToCompletion, names, behave, xs);
    InvHolds(RunToCompletion, names, behave, ys);
    TruthfulHolds(RunToCompletion, names, behave, xs);
    TruthfulHolds(RunToCompletion, names, behave, ys);
    assert s.phase == t.phase;
    ReportDependsOnResults(names, behave, xs, ys);
  }

  // --------------------------------------------------------------- sequential

  /**
   One context after the other. `returned` is what each call returned, whether or not it noticed
   a cancellation; `dies`: the number of contexts after which the caller's context is cancelled.
   */
  method ExecuteSequential(names: seq<string>, returned: string -> Option<Failure>, dies: nat)
    returns (err: Option<Failure>, calls: seq<string>)
    ensures calls <= names
    ensures forall i :: 0 <= i < |calls| - 1 ==> returned(calls[i]).None?
    ensures err.None? <==> dies >= |names| && forall c :: c in names ==> returned(c).None?
    ensures err.None? ==> calls == names
    ensures err.Some? ==> (calls != [] && err == returned(calls[|calls| - 1])) || (err == Some(Plain("context canceled")) && |calls| == dies)
  {
    calls := [];
    for i := 0 to |names|
      invariant calls == names[..i] && i <= dies && forall k :: 0 <= k < i ==> returned(names[k]).None?
    {
      if i >= dies { return Some(Plain("context canceled")), calls; }
      calls := calls + [names[i]];
      var r := returned(names[i]);
      if r.Some? { return r, calls; }
    }
    err := None;
  }
}
