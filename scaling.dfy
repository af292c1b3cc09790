/**
 * The scaling decision engine (agents/auto_scaler.py): a persisted map from
 * service name to {instances, max_instances}.  A batch of anomaly records is
 * walked in order; each may raise its service's instance count by one, up to
 * the ceiling, and every increment is reported as a `scale_up` action.  The
 * whole map is written back once, at the end of the batch.
 */
module Scaling {
  import opened Wrappers
  import opened Records
  import opened PyText
  import opened Features

  datatype ServiceState = ServiceState(instances: int, maxInstances: int)

  /** The `services` object of config/scaling_state.json. */
  type Services = map<string, ServiceState>

  const ScaleUp := "scale_up"
  const ScaleUpReason := "High resource usage or response time"

  datatype ScalingAction = ScalingAction(
    service: string, action: string, fromInstances: int, toInstances: int, reason: string)

  /** The entry `get_service_status` reports for one service. */
  datatype ServiceStatus = ServiceStatus(currentInstances: int, minInstances: int, maxInstances: int)

  /** config/scaling_state.json: absent, not parseable as JSON, or the `services` object it holds. */
  datatype StateFile = StateMissing | StateUnparseable | Stored(services: Services)

  datatype ScaleError =
    | StateFileMissing            // opening the state file raises FileNotFoundError
    | StateUnreadable             // `json.load` raises
    | NotComparable(key: string)  // `cell > 80` raises TypeError (a string or a Timestamp)
    | NoRstrip(key: string)       // `cell.rstrip(...)` raises AttributeError (a float or a Timestamp)

  /** The state written when no state file exists. */
  const Defaults: Services := map[
    "web-server" := ServiceState(1, 5),
    "database" := ServiceState(1, 3),
    "auth-service" := ServiceState(1, 3),
    "payment-service" := ServiceState(1, 3)]

  /** Every service has at least one instance and at most its ceiling. */
  predicate Bounded(s: Services) {
    forall k :: k in s ==> 1 <= s[k].instances <= s[k].maxInstances
  }

  /** `_initialize_state`: defaults are written only when the file is missing. */
  function InitializedState(file: StateFile): (r: StateFile)
    ensures file.StateMissing? ==> r == Stored(Defaults)
    ensures !file.StateMissing? ==> r == file
  {
    if file.StateMissing? then Stored(Defaults) else file
  }

  lemma DefaultsBounded()
    ensures Bounded(Defaults)
    ensures Defaults.Keys == {"web-server", "database", "auth-service", "payment-service"}
  {
  }

  /** A scaled-up state survives `reset_scaling`, which only re-runs `_initialize_state`. */
  lemma ResetKeepsScaledState()
    ensures var scaled := Defaults["web-server" := ServiceState(3, 5)];
      InitializedState(Stored(scaled)) == Stored(scaled) && scaled != Defaults
  {
    var scaled := Defaults["web-server" := ServiceState(3, 5)];
    assert scaled["web-server"] != Defaults["web-server"];
  }

  /** A reset that does what it says: every service at one instance under its default ceiling, whatever the file held. */
  function ResetIntended(file: StateFile): (r: StateFile)
    ensures r == Stored(Defaults)
    ensures Bounded(r.services) && r.services.Keys == Defaults.Keys
    ensures forall k :: k in r.services ==> r.services[k].instances == 1
  {
    DefaultsBounded();
    Stored(Defaults)
  }

  // ---------------------------------------------------------------------------
  // The threshold test (auto_scaler.py lines 43-47), one disjunct at a time.
  // ---------------------------------------------------------------------------

  /** `anomaly.get('cpu_usage', 0) > 80`: numeric; NaN compares false. */
  function CpuOver(a: Record): (r: Result<bool, ScaleError>)
    ensures r == Ok(true) <==> "cpu_usage" in a && a["cpu_usage"].Num? && a["cpu_usage"].x > 80.0
    ensures r.Err? <==> "cpu_usage" in a && (a["cpu_usage"].Str? || a["cpu_usage"].Time?)
  {
    match GetOr(a, "cpu_usage", Num(0.0))
    case Num(x) => Ok(x > 80.0)
    case NaN => Ok(false)
    case _ => Err(NotComparable("cpu_usage"))
  }

  /** `anomaly.get('memory_usage', '0%').rstrip('%') > '80'`: a STRING comparison. */
  function MemoryOver(a: Record): (r: Result<bool, ScaleError>)
    ensures "memory_usage" !in a ==> r == Ok(false)
    ensures r.Err? <==> "memory_usage" in a && !a["memory_usage"].Str?
    ensures r == Ok(true) <==>
      "memory_usage" in a && a["memory_usage"].Str? && LexLess("80", RStrip(a["memory_usage"].s, {'%'}))
  {
    assert RStrip("0%", {'%'}) == "0" by {
      RStripSuffix("0", "%", {'%'});
    }
    match GetOr(a, "memory_usage", Str("0%"))
    case Str(s) => Ok(LexLess("80", RStrip(s, {'%'})))
    case _ => Err(NoRstrip("memory_usage"))
  }

  /** `anomaly.get('response_time', '0').rstrip('ms') > '1000'`: a STRING comparison. */
  function ResponseOver(a: Record): (r: Result<bool, ScaleError>)
    ensures "response_time" !in a ==> r == Ok(false)
    ensures r.Err? <==> "response_time" in a && !a["response_time"].Str?
    ensures r == Ok(true) <==>
      "response_time" in a && a["response_time"].Str? && LexLess("1000", RStrip(a["response_time"].s, {'m', 's'}))
  {
    assert RStrip("0", {'m', 's'}) == "0" by {
      RStripSuffix("0", "", {'m', 's'});
      assert "0" + "" == "0";
    }
    match GetOr(a, "response_time", Str("0"))
    case Str(s) => Ok(LexLess("1000", RStrip(s, {'m', 's'})))
    case _ => Err(NoRstrip("response_time"))
  }

  /** The three tests joined by Python's short-circuit `or`. */
  function ShouldScale(a: Record): (r: Result<bool, ScaleError>)
    ensures r == Ok(true) <==>
      CpuOver(a) == Ok(true)
      || (CpuOver(a) == Ok(false) && MemoryOver(a) == Ok(true))
      || (CpuOver(a) == Ok(false) && MemoryOver(a) == Ok(false) && ResponseOver(a) == Ok(true))
    ensures r.Err? <==>
      CpuOver(a).Err?
      || (CpuOver(a) == Ok(false) && MemoryOver(a).Err?)
      || (CpuOver(a) == Ok(false) && MemoryOver(a) == Ok(false) && ResponseOver(a).Err?)
    ensures CpuOver(a).Err? ==> r == CpuOver(a)
    ensures CpuOver(a) == Ok(false) && MemoryOver(a).Err? ==> r == MemoryOver(a)
    ensures CpuOver(a) == Ok(false) && MemoryOver(a) == Ok(false) ==> r == ResponseOver(a)
  {
    match CpuOver(a)
    case Err(e) => Err(e)
    case Ok(true) => Ok(true)
    case Ok(false) =>
      match MemoryOver(a)
      case Err(e) => Err(e)
      case Ok(true) => Ok(true)
      case Ok(false) => ResponseOver(a)
  }

  /** The string thresholds misorder numbers: "9%" scales while "100%" does not, and "50ms" counts as over 1000. */
  lemma StringThresholdsMisorder()
    ensures MemoryOver(map["memory_usage" := Str("9%")]) == Ok(true)
    ensures MemoryOver(map["memory_usage" := Str("100%")]) == Ok(false)
    ensures ResponseOver(map["response_time" := Str("50ms")]) == Ok(true)
  {
    assert RStrip("9%", {'%'}) == "9" by {
      assert "9%"[..1] == "9";
    }
    assert RStrip("100%", {'%'}) == "100" by {
      assert "100%"[..3] == "100";
    }
    assert RStrip("50ms", {'m', 's'}) == "50" by {
      assert "50ms"[..3] == "50m";
      assert "50m"[..2] == "50";
    }
  }

  /** `memory_usage` compared as the number it holds, as the threshold 80 (percent) intends. */
  function MemoryOverNumeric(a: Record): Result<bool, ScaleError> {
    match GetOr(a, "memory_usage", Str("0%"))
    case Str(s) => Ok(StrippedNumber(Some(Str(s)), {'%'}) > 80.0)
    case _ => Err(NoRstrip("memory_usage"))
  }

  /** `response_time` compared as the number of milliseconds it holds. */
  function ResponseOverNumeric(a: Record): Result<bool, ScaleError> {
    match GetOr(a, "response_time", Str("0"))
    case Str(s) => Ok(StrippedNumber(Some(Str(s)), {'m', 's'}) > 1000.0)
    case _ => Err(NoRstrip("response_time"))
  }

  /** The threshold test with numeric comparisons, short-circuiting like the original. */
  function ShouldScaleNumeric(a: Record): (r: Result<bool, ScaleError>)
    ensures r == Ok(true) <==>
      CpuOver(a) == Ok(true)
      || (CpuOver(a) == Ok(false) && MemoryOverNumeric(a) == Ok(true))
      || (CpuOver(a) == Ok(false) && MemoryOverNumeric(a) == Ok(false) && ResponseOverNumeric(a) == Ok(true))
    ensures r.Err? <==>
      CpuOver(a).Err?
      || (CpuOver(a) == Ok(false) && MemoryOverNumeric(a).Err?)
      || (CpuOver(a) == Ok(false) && MemoryOverNumeric(a) == Ok(false) && ResponseOverNumeric(a).Err?)
    ensures CpuOver(a).Err? ==> r == CpuOver(a)
    ensures CpuOver(a) == Ok(false) && MemoryOverNumeric(a).Err? ==> r == MemoryOverNumeric(a)
    ensures CpuOver(a) == Ok(false) && MemoryOverNumeric(a) == Ok(false) ==> r == ResponseOverNumeric(a)
  {
    match CpuOver(a)
    case Err(e) => Err(e)
    case Ok(true) => Ok(true)
    case Ok(false) =>
      match MemoryOverNumeric(a)
      case Err(e) => Err(e)
      case Ok(true) => Ok(true)
      case Ok(false) => ResponseOverNumeric(a)
  }

  lemma MemoryComparesValue(n: nat)
    ensures MemoryOverNumeric(map["memory_usage" := Str(DecimalText(n) + "%")]) == Ok(n as real > 80.0)
  {
    StrippedWrittenNumber(n, "%", {'%'});
  }

  lemma ResponseComparesValue(n: nat)
    ensures ResponseOverNumeric(map["response_time" := Str(DecimalText(n) + "ms")]) == Ok(n as real > 1000.0)
  {
    StrippedWrittenNumber(n, "ms", {'m', 's'});
  }

  /**
   * With numeric comparisons a written percentage or duration scales exactly
   * when its number is over the threshold: "9%" does not, "100%" does, and
   * likewise for "...ms" against 1000.
   */
  lemma NumericThresholdsCompareValues(n: nat)
    ensures MemoryOverNumeric(map["memory_usage" := Str(DecimalText(n) + "%")]) == Ok(n as real > 80.0)
    ensures ResponseOverNumeric(map["response_time" := Str(DecimalText(n) + "ms")]) == Ok(n as real > 1000.0)
  {
    MemoryComparesValue(n);
    ResponseComparesValue(n);
  }

  /**
   * The service an anomaly is about, when it is to be considered at all:
   * `not service or service not in state['services']` skips a missing key, a
   * falsy value and any value that is not one of the state's keys.
   */
  function TargetService(services: Services, a: Record): (r: Option<string>)
    ensures r.Some? <==> "service" in a && a["service"].Str? && a["service"].s != "" && a["service"].s in services
    ensures r.Some? ==> r.value == a["service"].s
  {
    match Get(a, "service")
    case Some(Str(s)) => if s != "" && s in services then Some(s) else None
    case _ => None
  }

  // ---------------------------------------------------------------------------
  // The specification of `evaluate_scaling`: a left-to-right walk of the batch.
  // ---------------------------------------------------------------------------

  /** One iteration of the loop body (auto_scaler.py lines 33-57). */
  function Step(services: Services, a: Record): (r: Result<(Services, seq<ScalingAction>), ScaleError>)
    ensures r.Err? <==> TargetService(services, a).Some? && ShouldScale(a).Err?
    ensures r.Err? ==> r.error == ShouldScale(a).error
    ensures r.Ok? ==> r.value.0.Keys == services.Keys && |r.value.1| <= 1
    ensures r.Ok? ==> forall k :: k in services && Some(k) != TargetService(services, a) ==>
      r.value.0[k] == services[k]
    ensures r.Ok? && TargetService(services, a).Some? ==>
      var k := TargetService(services, a).value;
      && r.value.0[k].maxInstances == services[k].maxInstances
      && r.value.0[k].instances == services[k].instances + |r.value.1|
      && (|r.value.1| == 1 <==> ShouldScale(a) == Ok(true) && services[k].instances < services[k].maxInstances)
    ensures r.Ok? && TargetService(services, a).None? ==> r.value == (services, [])
    ensures r.Ok? ==> forall act :: act in r.value.1 ==>
      && act == ScalingAction(act.service, ScaleUp, act.fromInstances, act.fromInstances + 1, ScaleUpReason)
      && act.service in services
      && act.fromInstances == services[act.service].instances
      && act.toInstances <= services[act.service].maxInstances
  {
    match TargetService(services, a)
    case None => Ok((services, []))
    case Some(s) =>
      match ShouldScale(a)
      case Err(e) => Err(e)
      case Ok(should) =>
        var current := services[s].instances;
        if should && current < services[s].maxInstances then
          Ok((services[s := services[s].(instances := current + 1)],
              [ScalingAction(s, ScaleUp, current, current + 1, ScaleUpReason)]))
        else
          Ok((services, []))
  }

  /** The whole batch, each anomaly seeing the counts left by the ones before it. */
  function Evaluate(services: Services, anomalies: seq<Record>): (r: Result<(Services, seq<ScalingAction>), ScaleError>)
    decreases |anomalies|
    ensures r.Ok? ==> r.value.0.Keys == services.Keys && |r.value.1| <= |anomalies|
    ensures r.Err? ==>
      exists i :: 0 <= i < |anomalies| && TargetService(services, anomalies[i]).Some? && ShouldScale(anomalies[i]) == Err(r.error)
  {
    if anomalies == [] then Ok((services, []))
    else
      match Step(services, anomalies[0])
      case Err(e) => Err(e)
      case Ok((next, acts)) =>
        match Evaluate(next, anomalies[1..])
        case Err(e) =>
          assert exists i :: 0 <= i < |anomalies| && TargetService(services, anomalies[i]).Some? && ShouldScale(anomalies[i]) == Err(e) by {
            var j :| 0 <= j < |anomalies[1..]| && TargetService(next, anomalies[1..][j]).Some? && ShouldScale(anomalies[1..][j]) == Err(e);
            assert anomalies[1..][j] == anomalies[j + 1];
          }
          Err(e)
        case Ok((final, more)) => Ok((final, acts + more))
  }

  /**
   * A threshold test that raises for an anomaly about a known service aborts
   * the whole batch, wherever that anomaly stands in it: the services before
   * it keep their keys, so it still names a known service when reached.
   */
  lemma {:induction false} EvaluateFailsOnRaise(services: Services, anomalies: seq<Record>, i: nat)
    requires i < |anomalies| && TargetService(services, anomalies[i]).Some? && ShouldScale(anomalies[i]).Err?
    ensures Evaluate(services, anomalies).Err?
    decreases i
  {
    var step := Step(services, anomalies[0]);
    if i > 0 && step.Ok? {
      var next := step.value.0;
      assert anomalies[1..][i - 1] == anomalies[i];
      assert TargetService(next, anomalies[i]).Some?;
      EvaluateFailsOnRaise(next, anomalies[1..], i - 1);
    }
  }

  /** The number of actions about service `k`. */
  function CountFor(acts: seq<ScalingAction>, k: string): nat
  {
    if acts == [] then 0
    else (if acts[0].service == k then 1 else 0) + CountFor(acts[1..], k)
  }

  lemma {:induction false} CountForAppend(a: seq<ScalingAction>, b: seq<ScalingAction>, k: string)
    ensures CountFor(a + b, k) == CountFor(a, k) + CountFor(b, k)
  {
    if a != [] {
      assert (a + b)[1..] == a[1..] + b;
      CountForAppend(a[1..], b, k);
    } else {
      assert a + b == b;
    }
  }

  /** A single step's count bookkeeping: the stepped service rises by the number of its actions. */
  lemma StepCounts(services: Services, a: Record, k: string)
    requires Step(services, a).Ok? && k in services
    ensures var (next, acts) := Step(services, a).value;
      next[k].instances == services[k].instances + CountFor(acts, k)
  {
    var (next, acts) := Step(services, a).value;
    if |acts| == 1 {
      assert acts[0] in acts;
      assert acts[1..] == [];
    }
  }

  /** A batch not yet started: nothing done, everything to go. */
  lemma ResumeStart(services: Services, anomalies: seq<Record>)
    ensures Evaluate(services, anomalies) == Resume(services, [], anomalies)
  {
    match Evaluate(services, anomalies)
    case Err(_) =>
    case Ok((final, more)) => assert [] + more == more;
  }

  /** A batch with nothing left: the result is what was done. */
  lemma ResumeEnd(services: Services, done: seq<ScalingAction>)
    ensures Resume(services, done, []) == Ok((services, done))
  {
    assert done + [] == done;
  }

  /** `Resume` past an anomaly whose step succeeds. */
  lemma ResumeAfter(services: Services, done: seq<ScalingAction>, rest: seq<Record>,
                    next: Services, acts: seq<ScalingAction>)
    requires rest != [] && Step(services, rest[0]) == Ok((next, acts))
    ensures Resume(services, done, rest) == Resume(next, done + acts, rest[1..])
  {
    match Evaluate(next, rest[1..])
    case Err(e) =>
    case Ok((final, more)) =>
      assert done + (acts + more) == (done + acts) + more;
  }

  /** `Resume` past anomaly `i`: its step either raises, ending the batch, or moves on. */
  lemma ResumeAt(services: Services, done: seq<ScalingAction>, anomalies: seq<Record>, i: nat)
    requires i < |anomalies|
    ensures Step(services, anomalies[i]).Err? ==>
      Resume(services, done, anomalies[i..]) == Err(Step(services, anomalies[i]).error)
    ensures Step(services, anomalies[i]).Ok? ==>
      var (next, acts) := Step(services, anomalies[i]).value;
      Resume(services, done, anomalies[i..]) == Resume(next, done + acts, anomalies[i + 1..])
  {
    assert anomalies[i..][0] == anomalies[i] && anomalies[i..][1..] == anomalies[i + 1..];
    if Step(services, anomalies[i]).Ok? {
      var (next, acts) := Step(services, anomalies[i]).value;
      ResumeAfter(services, done, anomalies[i..], next, acts);
    }
  }

  /** The state after a batch keeps the same services and the same ceilings;
      each count has risen by exactly the number of actions reported for it. */
  lemma {:induction false} EvaluateAccounting(services: Services, anomalies: seq<Record>)
    requires Evaluate(services, anomalies).Ok?
    ensures var (final, acts) := Evaluate(services, anomalies).value;
      && final.Keys == services.Keys
      && forall k :: k in services ==>
           && final[k].maxInstances == services[k].maxInstances
           && final[k].instances == services[k].instances + CountFor(acts, k)
    decreases |anomalies|
  {
    if anomalies != [] {
      var (next, acts) := Step(services, anomalies[0]).value;
      EvaluateAccounting(next, anomalies[1..]);
      var more := Evaluate(next, anomalies[1..]).value.1;
      forall k | k in services {
        CountForAppend(acts, more, k);
      }
    }
  }

  /** `1 <= instances <= max_instances` is kept by every batch. */
  lemma {:induction false} EvaluatePreservesBounds(services: Services, anomalies: seq<Record>)
    requires Bounded(services)
    requires Evaluate(services, anomalies).Ok?
    ensures Bounded(Evaluate(services, anomalies).value.0)
    decreases |anomalies|
  {
    if anomalies != [] {
      var next := Step(services, anomalies[0]).value.0;
      assert Bounded(next);
      EvaluatePreservesBounds(next, anomalies[1..]);
    }
  }

  /**
   * The i-th action is a `scale_up` by one of a known service, starting from
   * that service's count in `services` plus the number of its earlier actions,
   * and ending within the ceiling.
   */
  predicate ChainedAt(services: Services, acts: seq<ScalingAction>, i: nat)
    requires i < |acts|
  {
    && acts[i].service in services
    && acts[i].action == ScaleUp
    && acts[i].reason == ScaleUpReason
    && acts[i].toInstances == acts[i].fromInstances + 1
    && acts[i].fromInstances == services[acts[i].service].instances + CountFor(acts[..i], acts[i].service)
    && acts[i].toInstances <= services[acts[i].service].maxInstances
  }

  /** The actions of the first step are chained from the counts before it. */
  lemma ChainHead(services: Services, a: Record, more: seq<ScalingAction>, i: nat)
    requires Step(services, a).Ok? && i < |Step(services, a).value.1|
    ensures ChainedAt(services, Step(services, a).value.1 + more, i)
  {
    var first := Step(services, a).value.1;
    var acts := first + more;
    assert acts[i] == first[i] && first[i] in first;
    assert acts[..i] == [];
  }

  /** An action chained from the counts after the first step is chained, one step later, from the counts before it. */
  lemma ChainTail(services: Services, a: Record, more: seq<ScalingAction>, j: nat)
    requires Step(services, a).Ok? && j < |more|
    requires ChainedAt(Step(services, a).value.0, more, j)
    ensures ChainedAt(services, Step(services, a).value.1 + more, |Step(services, a).value.1| + j)
  {
    var (next, first) := Step(services, a).value;
    var acts := first + more;
    var i := |first| + j;
    var k := more[j].service;
    assert acts[i] == more[j];
    assert acts[..i] == first + more[..j];
    CountForAppend(first, more[..j], k);
    StepCounts(services, a, k);
    if Some(k) != TargetService(services, a) {
      assert next[k] == services[k];
    }
  }

  /** Actions chained after the first step stay chained once that step's actions are put before them. */
  lemma ChainAppend(services: Services, a: Record, more: seq<ScalingAction>)
    requires Step(services, a).Ok?
    requires forall j :: 0 <= j < |more| ==> ChainedAt(Step(services, a).value.0, more, j)
    ensures var acts := Step(services, a).value.1 + more;
      forall i :: 0 <= i < |acts| ==> ChainedAt(services, acts, i)
  {
    var first := Step(services, a).value.1;
    forall i | 0 <= i < |first + more|
      ensures ChainedAt(services, first + more, i)
    {
      if i < |first| {
        ChainHead(services, a, more, i);
      } else {
        ChainTail(services, a, more, i - |first|);
      }
    }
  }

  /** Unfolds a successful batch into its first step and the rest. */
  lemma EvaluateUnfold(services: Services, anomalies: seq<Record>)
    requires anomalies != [] && Evaluate(services, anomalies).Ok?
    ensures Step(services, anomalies[0]).Ok?
    ensures Evaluate(Step(services, anomalies[0]).value.0, anomalies[1..]).Ok?
    ensures Evaluate(services, anomalies).value.1
      == Step(services, anomalies[0]).value.1 + Evaluate(Step(services, anomalies[0]).value.0, anomalies[1..]).value.1
  {
  }

  /**
   * Every action is a `scale_up` by one, and the i-th action of a service
   * starts from that service's count before the batch plus the number of its
   * earlier actions: anomalies for the same service apply one after another.
   */
  lemma {:induction false} EvaluateActionsChain(services: Services, anomalies: seq<Record>)
    requires Evaluate(services, anomalies).Ok?
    ensures var acts := Evaluate(services, anomalies).value.1;
      forall i :: 0 <= i < |acts| ==> ChainedAt(services, acts, i)
    decreases |anomalies|
  {
    if anomalies != [] {
      EvaluateUnfold(services, anomalies);
      var next := Step(services, anomalies[0]).value.0;
      EvaluateActionsChain(next, anomalies[1..]);
      ChainAppend(services, anomalies[0], Evaluate(next, anomalies[1..]).value.1);
    }
  }

  /** A batch whose anomalies all name no known service changes nothing and reports nothing. */
  lemma {:induction false} EvaluateIgnoresUnknownServices(services: Services, anomalies: seq<Record>)
    requires forall i :: 0 <= i < |anomalies| ==> TargetService(services, anomalies[i]).None?
    ensures Evaluate(services, anomalies) == Ok((services, []))
    decreases |anomalies|
  {
    if anomalies != [] {
      assert Step(services, anomalies[0]) == Ok((services, []));
      EvaluateIgnoresUnknownServices(services, anomalies[1..]);
      var none: seq<ScalingAction> := [];
      assert none + none == none;
    }
  }

  /** `Evaluate` from the middle of a batch, prefixed with the actions already taken. */
  function Resume(services: Services, done: seq<ScalingAction>, rest: seq<Record>)
    : Result<(Services, seq<ScalingAction>), ScaleError>
  {
    match Evaluate(services, rest)
    case Err(e) => Err(e)
    case Ok((final, more)) => Ok((final, done + more))
  }

  /** The loop of `evaluate_scaling` over the loaded `services`; it changes no file. */
  method ScaleBatch(start: Services, anomalies: seq<Record>)
    returns (r: Result<(Services, seq<ScalingAction>), ScaleError>)
    ensures r == Evaluate(start, anomalies)
  {
    var services := start;
    var actions: seq<ScalingAction> := [];
    assert anomalies[0..] == anomalies;
    ResumeStart(start, anomalies);
    for i := 0 to |anomalies|
      invariant Evaluate(start, anomalies) == Resume(services, actions, anomalies[i..])
    {
      ResumeAt(services, actions, anomalies, i);
      var step := Step(services, anomalies[i]);
      if step.Err? {
        return Err(step.error);
      }
      services, actions := step.value.0, actions + step.value.1;
    }
    assert anomalies[|anomalies|..] == [];
    ResumeEnd(services, actions);
    r := Ok((services, actions));
  }

  class AutoScaler {
    /** config/scaling_state.json. */
    var stateFile: StateFile

    constructor(existing: StateFile)
      ensures stateFile == InitializedState(existing)
    {
      stateFile := existing;
      new;
      InitializeState();
    }

    /** `_initialize_state`. */
    method InitializeState()
      modifies this
      ensures stateFile == InitializedState(old(stateFile))
    {
      if stateFile.StateMissing? {
        stateFile := Stored(Defaults);
      }
    }

    /**
     * `evaluate_scaling`.  On success the new file content and the actions are
     * those of `Evaluate`; an exception in the threshold test escapes before
     * the write-back, so nothing of the batch is persisted.
     */
    method EvaluateScaling(anomalies: seq<Record>) returns (r: Result<seq<ScalingAction>, ScaleError>)
      modifies this
      ensures old(stateFile).StateMissing? ==> r == Err(StateFileMissing) && stateFile == old(stateFile)
      ensures old(stateFile).StateUnparseable? ==> r == Err(StateUnreadable) && stateFile == old(stateFile)
      ensures old(stateFile).Stored? ==>
        match Evaluate(old(stateFile).services, anomalies)
        case Ok((final, acts)) => r == Ok(acts) && stateFile == Stored(final)
        case Err(e) => r == Err(e) && stateFile == old(stateFile)
    {
      if stateFile.StateMissing? {
        return Err(StateFileMissing);
      } else if stateFile.StateUnparseable? {
        return Err(StateUnreadable);
      }
      var outcome := ScaleBatch(stateFile.services, anomalies);
      match outcome {
        case Err(e) =>
          r := Err(e);
        case Ok((final, actions)) =>
          stateFile := Stored(final);
          r := Ok(actions);
      }
    }

    /** `get_service_status`: one entry per service, with the fixed minimum of 1. */
    method GetServiceStatus() returns (r: Result<map<string, ServiceStatus>, ScaleError>)
      ensures stateFile.StateMissing? ==> r == Err(StateFileMissing)
      ensures stateFile.StateUnparseable? ==> r == Err(StateUnreadable)
      ensures stateFile.Stored? ==> r.Ok? && r.value.Keys == stateFile.services.Keys
      ensures stateFile.Stored? ==> forall k :: k in r.value ==>
        r.value[k] == ServiceStatus(stateFile.services[k].instances, 1, stateFile.services[k].maxInstances)
    {
      if stateFile.StateMissing? {
        return Err(StateFileMissing);
      } else if stateFile.StateUnparseable? {
        return Err(StateUnreadable);
      }
      var services := stateFile.services;
      var formatted: map<string, ServiceStatus> := map[];
      var pending := services.Keys;
      while pending != {}
        invariant pending <= services.Keys
        invariant formatted.Keys == services.Keys - pending
        invariant forall k :: k in formatted ==>
          formatted[k] == ServiceStatus(services[k].instances, 1, services[k].maxInstances)
        decreases pending
      {
        var k :| k in pending;
        formatted := formatted[k := ServiceStatus(services[k].instances, 1, services[k].maxInstances)];
        pending := pending - {k};
      }
      r := Ok(formatted);
    }

    /** `reset_scaling`: re-runs `_initialize_state`, which does nothing when the file exists. */
    method ResetScaling()
      modifies this
      ensures stateFile == InitializedState(old(stateFile))
      ensures !old(stateFile).StateMissing? ==> stateFile == old(stateFile)
    {
      InitializeState();
    }
  }
}
