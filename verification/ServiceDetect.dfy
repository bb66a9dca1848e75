/**
 Service state detection (internal/planner/service_state.go): the state of one service from
 batched answers with on-demand fallbacks, and the parallel form against the sequential one.
 */
module ServiceDetect {
  import opened Text

  const HASH_LABEL := "com.docker.compose.config-hash"
  const ID_LABEL := "io.dockform.identifier"

  type Labels = map<string, string>

  datatype State = Missing | Running | Drifted | IdentifierMismatch

  datatype ServiceInfo = ServiceInfo(name: string, state: State, desiredHash: string, runningHash: string,
                                     container: Option<string>)

  /** What single Docker queries would answer: a service's configuration hash, a container's labels. */
  datatype Answers = Answers(hash: string -> Option<string>, labels: string -> Option<Labels>)

  /** Answers fetched in one go; entries may be missing. */
  datatype Batch = Batch(hashes: map<string, string>, labels: map<string, Labels>)

  const NoBatch := Batch(map[], map[])

  function DesiredHash(name: string, batch: Batch, ask: Answers): string {
    if name in batch.hashes && batch.hashes[name] != "" then batch.hashes[name]
    else match ask.hash(name) { case Some(x) => x case None => "" }
  }

  function LabelsFor(container: string, batch: Batch, ask: Answers): Option<Labels> {
    if container in batch.labels then Some(batch.labels[container]) else ask.labels(container)
  }

  /** The state of a running service, by identifier first and configuration hash second. */
  function Compare(info: ServiceInfo, labels: Option<Labels>, identifier: string): ServiceInfo {
    if labels.None? then info.(state := Drifted)
    else
      var l := labels.value;
      if identifier != "" && (ID_LABEL !in l || l[ID_LABEL] != identifier) then info.(state := IdentifierMismatch)
      else if info.desiredHash != "" then
        var running := if HASH_LABEL in l then l[HASH_LABEL] else "";
        info.(runningHash := running,
              state := if running == "" || running != info.desiredHash then Drifted else State.Running)
      else info
  }

  /** `detectServiceStateFast`. */
  function Detect(name: string, running: map<string, string>, batch: Batch, ask: Answers, identifier: string): ServiceInfo {
    var desired := DesiredHash(name, batch, ask);
    if name !in running then ServiceInfo(name, Missing, desired, "", None)
    else
      Compare(ServiceInfo(name, State.Running, desired, "", Some(running[name])),
              LabelsFor(running[name], batch, ask), identifier)
  }

  function DetectAll(planned: seq<string>, running: map<string, string>, batch: Batch, ask: Answers, identifier: string): (r: seq<ServiceInfo>)
    ensures |r| == |planned|
    ensures forall i :: 0 <= i < |r| ==> r[i] == Detect(planned[i], running, batch, ask, identifier)
  {
    if planned == [] then [] else
      [Detect(planned[0], running, batch, ask, identifier)] + DetectAll(planned[1..], running, batch, ask, identifier)
  }

  /** No batch entry contradicts the answer to the single query. */
  ghost predicate Agree(batch: Batch, ask: Answers) {
    && (forall s :: s in batch.hashes ==> batch.hashes[s] == "" || ask.hash(s) == Some(batch.hashes[s]))
    && (forall c :: c in batch.labels ==> ask.labels(c) == Some(batch.labels[c]))
  }

  /** Batched detection, whatever entries the batch lacks, is on-demand detection. */
  lemma {:induction false} BatchedIsOnDemand(planned: seq<string>, running: map<string, string>, batch: Batch, ask: Answers, identifier: string)
    requires Agree(batch, ask)
    ensures DetectAll(planned, running, batch, ask, identifier) == DetectAll(planned, running, NoBatch, ask, identifier)
  {
    forall i | 0 <= i < |planned|
      ensures Detect(planned[i], running, batch, ask, identifier) == Detect(planned[i], running, NoBatch, ask, identifier)
    {
    }
  }

  /**
   The state of a service from single answers: missing without a container; drifted if its labels
   cannot be read; a mismatch if they lack the identifier; otherwise drifted exactly if there is a
   planned hash and the container has another one or none.
   */
  lemma {:induction false} DetectSays(name: string, running: map<string, string>, ask: Answers, identifier: string)
    ensures var info := Detect(name, running, NoBatch, ask, identifier);
            var hash := if ask.hash(name).Some? then ask.hash(name).value else "";
            && info.name == name && info.desiredHash == hash
            && (info.state.Missing? <==> name !in running)
            && (name in running ==>
                  var labels := ask.labels(running[name]);
                  var ours := labels.Some? && ("io.dockform.identifier" in labels.value && labels.value["io.dockform.identifier"] == identifier);
                  var same := labels.Some? && hash != "" && "com.docker.compose.config-hash" in labels.value
                              && labels.value["com.docker.compose.config-hash"] == hash;
                  && info.container == Some(running[name])
                  && (info.state.IdentifierMismatch? <==> labels.Some? && identifier != "" && !ours)
                  && (info.state.Drifted? <==> labels.None? || ((identifier == "" || ours) && hash != "" && !same)))
  {
  }

  // --------------------------------------------------- parallel and sequential

  datatype Result = Ok(info: ServiceInfo) | Err(message: string)

  datatype All = AllOk(infos: seq<ServiceInfo>) | FirstErr(index: nat, message: string)

  datatype Message = Message(order: nat, result: Result)

  /** The sequential scan: all results, or the first error and where it was. */
  function Gather(rs: seq<Result>, from: nat): All
    requires from <= |rs|
    decreases |rs| - from
  {
    if from == |rs| then AllOk([])
    else if rs[from].Err? then FirstErr(from, rs[from].message)
    else match Gather(rs, from + 1)
         case AllOk(xs) => AllOk([rs[from].info] + xs)
         case e => e
  }

  /** All are answers and in order, or the first error is reported with its place. */
  ghost predicate FirstErrorWins(rs: seq<Result>, r: All) {
    match r
    case AllOk(infos) => |infos| == |rs| && forall i :: 0 <= i < |rs| ==> rs[i] == Ok(infos[i])
    case FirstErr(k, m) => k < |rs| && rs[k] == Err(m) && forall i :: 0 <= i < k ==> rs[i].Ok?
  }

  lemma {:induction false} GatherSays(rs: seq<Result>, from: nat)
    requires from <= |rs| && forall i :: 0 <= i < from ==> rs[i].Ok?
    ensures match Gather(rs, from)
            case AllOk(infos) => |infos| == |rs| - from && forall i :: 0 <= i < |infos| ==> rs[from + i] == Ok(infos[i])
            case FirstErr(k, m) => from <= k < |rs| && rs[k] == Err(m) && forall i :: 0 <= i < k ==> rs[i].Ok?
    decreases |rs| - from
  {
    if from < |rs| && rs[from].Ok? { GatherSays(rs, from + 1); }
  }

  method Sequential(rs: seq<Result>) returns (r: All)
    ensures r == Gather(rs, 0) && FirstErrorWins(rs, r)
  {
    GatherSays(rs, 0);
    var infos := [];
    for i := 0 to |rs|
      invariant Gather(rs, 0) == Prepend(infos, Gather(rs, i))
    {
      if rs[i].Err? { return FirstErr(i, rs[i].message); }
      PrependSnoc(infos, rs[i].info, Gather(rs, i + 1));
      infos := infos + [rs[i].info];
    }
    r := AllOk(infos);
    assert infos + [] == infos;
  }

  function Prepend(infos: seq<ServiceInfo>, r: All): All {
    match r
    case AllOk(xs) => AllOk(infos + xs)
    case e => e
  }

  lemma {:induction false} PrependSnoc(infos: seq<ServiceInfo>, i: ServiceInfo, r: All)
    ensures Prepend(infos + [i], r) == match r { case AllOk(xs) => Prepend(infos, AllOk([i] + xs)) case e => e }
  {
    if r.AllOk? { assert infos + [i] + r.infos == infos + ([i] + r.infos); }
  }

  /** The messages the workers send, one per service, in service order. */
  function Messages(rs: seq<Result>, from: nat): (r: seq<Message>)
    requires from <= |rs|
    ensures |r| == |rs| - from
    ensures forall i :: 0 <= i < |r| ==> r[i] == Message(from + i, rs[from + i])
    decreases |rs| - from
  {
    if from == |rs| then [] else [Message(from, rs[from])] + Messages(rs, from + 1)
  }

  /**
   The collector: fills one slot per service as messages arrive, then scans the slots. For
   every arrival order the answer is that of the sequential scan, error included.
   */
  method Parallel(rs: seq<Result>, arrivals: seq<Message>) returns (r: All)
    requires multiset(arrivals) == multiset(Messages(rs, 0))
    ensures r == Gather(rs, 0) && FirstErrorWins(rs, r)
  {
    var slots := new Result[|rs|](_ => Err(""));
    ArrivalsFit(rs, arrivals);
    for i := 0 to |arrivals|
      invariant forall k :: 0 <= k < i ==> slots[arrivals[k].order] == rs[arrivals[k].order]
    {
      slots[arrivals[i].order] := arrivals[i].result;
    }
    forall j | 0 <= j < |rs| ensures slots[j] == rs[j] {
      assert Messages(rs, 0)[j] in multiset(arrivals);
      var k :| 0 <= k < |arrivals| && arrivals[k] == Messages(rs, 0)[j];
    }
    assert slots[..] == rs;
    r := Sequential(slots[..]);
  }

  lemma {:induction false} ArrivalsFit(rs: seq<Result>, arrivals: seq<Message>)
    requires multiset(arrivals) == multiset(Messages(rs, 0))
    ensures forall k :: 0 <= k < |arrivals| ==> arrivals[k].order < |rs| && arrivals[k].result == rs[arrivals[k].order]
  {
    forall k | 0 <= k < |arrivals| ensures arrivals[k].order < |rs| && arrivals[k].result == rs[arrivals[k].order] {
      assert arrivals[k] in multiset(Messages(rs, 0));
      var j :| 0 <= j < |rs| && Messages(rs, 0)[j] == arrivals[k];
    }
  }

  // ------------------------------------------------------- both together

  /** What the detection of each planned service yields; `fails` tells which end in an error. */
  function ResultsOf(planned: seq<string>, running: map<string, string>, batch: Batch, ask: Answers, identifier: string,
                     fails: string -> Option<string>): (r: seq<Result>)
    ensures |r| == |planned|
    ensures forall i :: 0 <= i < |r| ==> r[i] == match fails(planned[i])
                                                  case Some(m) => Err(m)
                                                  case None => Ok(Detect(planned[i], running, batch, ask, identifier))
  {
    if planned == [] then [] else
      [match fails(planned[0]) case Some(m) => Err(m) case None => Ok(Detect(planned[0], running, batch, ask, identifier))] +
      ResultsOf(planned[1..], running, batch, ask, identifier, fails)
  }

  lemma {:induction false} SameResults(planned: seq<string>, running: map<string, string>, batch: Batch, ask: Answers, identifier: string, fails: string -> Option<string>)
    requires Agree(batch, ask)
    ensures ResultsOf(planned, running, batch, ask, identifier, fails) == ResultsOf(planned, running, NoBatch, ask, identifier, fails)
  {
    hide Detect, Agree;
    BatchedIsOnDemand(planned, running, batch, ask, identifier);
    var a, b := DetectAll(planned, running, batch, ask, identifier), DetectAll(planned, running, NoBatch, ask, identifier);
    forall i | 0 <= i < |planned| ensures Detect(planned[i], running, batch, ask, identifier) == Detect(planned[i], running, NoBatch, ask, identifier) {
      assert a[i] == b[i];
    }
  }

  /**
   Parallel detection from a batch, for every arrival order and whatever the batch lacks, is
   sequential detection by single queries, in its results and in the error it reports.
   */
  method BatchedParallel(planned: seq<string>, running: map<string, string>, batch: Batch, ask: Answers, identifier: string,
                         fails: string -> Option<string>, arrivals: seq<Message>) returns (r: All)
    requires Agree(batch, ask)
    requires multiset(arrivals) == multiset(Messages(ResultsOf(planned, running, batch, ask, identifier, fails), 0))
    ensures r == Gather(ResultsOf(planned, running, NoBatch, ask, identifier, fails), 0)
  {
    SameResults(planned, running, batch, ask, identifier, fails);
    r := Parallel(ResultsOf(planned, running, batch, ask, identifier, fails), arrivals);
  }

  /** `NeedsApply`: some service is not up to date. */
  predicate NeedsApply(infos: seq<ServiceInfo>) { exists i :: 0 <= i < |infos| && !infos[i].state.Running? }

  method AnyNeedsApply(infos: seq<ServiceInfo>) returns (b: bool)
    ensures b == NeedsApply(infos)
  {
    for i := 0 to |infos|
      invariant forall k :: 0 <= k < i ==> infos[k].state.Running?
    {
      if !infos[i].state.Running? { return true; }
    }
    b := false;
  }
}
