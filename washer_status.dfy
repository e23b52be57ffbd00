/** How the plugin interprets a washer/dryer status payload (index.js):
    which component it reads, which capability attributes feed each field,
    and how a job-state string becomes a HomeKit CurrentHeaterCoolerState. */
module WasherStatus {
  import opened JsValue

  /** The component keys `extractBestComponentStatus` tries, in priority order. */
  const ComponentKeys: seq<string> := ["main", "hca.main", "sub"]

  /** A capability/attribute pair; reading it from a component `c` is
      `c[capability]?.[attribute]?.value`. */
  datatype Source = Source(capability: string, attribute: string)

  function Read(c: Value, src: Source): Value {
    Get(Get(Get(c, src.capability), src.attribute), "value")
  }

  function ReadAll(c: Value, srcs: seq<Source>): (vs: seq<Value>)
    ensures |vs| == |srcs| && forall k :: 0 <= k < |srcs| ==> vs[k] == Read(c, srcs[k])
  {
    seq(|srcs|, i requires 0 <= i < |srcs| => Read(c, srcs[i]))
  }

  /** A field is the `||` chain over its sources, read in order. */
  function Field(c: Value, srcs: seq<Source>): Value
    requires |srcs| > 0
  {
    Coalesce(ReadAll(c, srcs))
  }

  const JobStateSources: seq<Source> := [
    Source("dryerOperatingState", "dryerJobState"),
    Source("washerOperatingState", "washerJobState"),
    Source("samsungce.dryerOperatingState", "dryerJobState"),
    Source("samsungce.washerOperatingState", "washerJobState")
  ]
  const OperatingStateSources: seq<Source> := [
    Source("samsungce.dryerOperatingState", "operatingState"),
    Source("samsungce.washerOperatingState", "operatingState")
  ]
  const RemainingTimeSources: seq<Source> := [
    Source("samsungce.dryerOperatingState", "remainingTime"),
    Source("samsungce.washerOperatingState", "remainingTime")
  ]
  const RemainingTimeStrSources: seq<Source> := [
    Source("samsungce.dryerOperatingState", "remainingTimeStr"),
    Source("samsungce.washerOperatingState", "remainingTimeStr")
  ]
  const CompletionTimeSources: seq<Source> := [
    Source("dryerOperatingState", "completionTime"),
    Source("washerOperatingState", "completionTime")
  ]

  /** Every source any field reads from. */
  const AllSources: seq<Source> :=
    JobStateSources + OperatingStateSources + RemainingTimeSources
    + RemainingTimeStrSources + CompletionTimeSources

  function JobState(c: Value): Value { Field(c, JobStateSources) }
  function OpState(c: Value): Value { Field(c, OperatingStateSources) }
  function Remaining(c: Value): Value { Field(c, RemainingTimeSources) }
  function TimeStr(c: Value): Value { Field(c, RemainingTimeStrSources) }
  function Completion(c: Value): Value { Field(c, CompletionTimeSources) }

  /** The record built for a candidate component. */
  datatype ComponentStatus = ComponentStatus(
    component: string,
    jobState: Value,
    opState: Value,
    remainingMinutes: Value,
    timeStr: Value,
    completion: Value)

  /** The result of `extractBestComponentStatus`: the selected record, or `{}`. */
  datatype BestStatus = Empty | Selected(status: ComponentStatus)

  /** Either the returned value or the TypeError thrown by
      `data.components[key]` when `data.components` is `undefined` or `null`. */
  datatype Extraction = Returned(best: BestStatus) | ThrewTypeError

  function Describe(key: string, c: Value): ComponentStatus {
    ComponentStatus(key, JobState(c), OpState(c), Remaining(c), TimeStr(c), Completion(c))
  }

  /** The condition of the `if` that selects a component. */
  predicate ShowsActivity(s: ComponentStatus) {
    Truthy(s.jobState) || Truthy(s.opState) || Truthy(s.remainingMinutes)
    || Truthy(s.timeStr) || Truthy(s.completion)
  }

  /** The component under `key` is present (truthy) and shows activity. */
  predicate IsActive(components: Value, key: string) {
    var c := Get(components, key);
    Truthy(c) && ShowsActivity(Describe(key, c))
  }

  /** Reference definition: the record of the first active component in `keys`. */
  function FirstActive(components: Value, keys: seq<string>): BestStatus
    decreases |keys|
  {
    if keys == [] then Empty
    else if IsActive(components, keys[0]) then Selected(Describe(keys[0], Get(components, keys[0])))
    else FirstActive(components, keys[1..])
  }

  /** `extractBestComponentStatus(data)`: scans the component keys in order,
      skips absent components and stops at the first one with a truthy field. */
  method ExtractBestComponentStatus(data: Value) returns (r: Extraction)
    ensures r.ThrewTypeError? <==> Nullish(Get(data, "components"))
    ensures r.Returned? ==> r.best == FirstActive(Get(data, "components"), ComponentKeys)
  {
    var components := Get(data, "components");
    if Nullish(components) {
      return ThrewTypeError;
    }
    var selected := Empty;
    var i := 0;
    while i < |ComponentKeys|
      invariant 0 <= i <= |ComponentKeys|
      invariant selected == Empty
      invariant FirstActive(components, ComponentKeys) == FirstActive(components, ComponentKeys[i..])
    {
      var key := ComponentKeys[i];
      var c := Get(components, key);
      if !Truthy(c) {
        i := i + 1;
        continue;
      }
      var jobState := JobState(c);
      var opState := OpState(c);
      var remaining := Remaining(c);
      var timeStr := TimeStr(c);
      var completion := Completion(c);
      if Truthy(jobState) || Truthy(opState) || Truthy(remaining) || Truthy(timeStr) || Truthy(completion) {
        selected := Selected(ComponentStatus(key, jobState, opState, remaining, timeStr, completion));
        assert ComponentKeys[i..][0] == key;
        break;
      }
      i := i + 1;
    }
    return Returned(selected);
  }

  /** The first active key wins, and the record names that key and carries
      its `remaining` value as `remainingMinutes`. */
  lemma {:induction false} FirstActiveSelectsFirst(components: Value, keys: seq<string>, i: nat)
    requires i < |keys| && IsActive(components, keys[i])
    requires forall j :: 0 <= j < i ==> !IsActive(components, keys[j])
    ensures FirstActive(components, keys).Selected?
    ensures FirstActive(components, keys).status == Describe(keys[i], Get(components, keys[i]))
    ensures FirstActive(components, keys).status.component == keys[i]
    ensures FirstActive(components, keys).status.remainingMinutes == Remaining(Get(components, keys[i]))
  {
    if i > 0 {
      assert !IsActive(components, keys[0]);
      FirstActiveSelectsFirst(components, keys[1..], i - 1);
    }
  }

  /** The result is `{}` exactly when no key names an active component
      (in particular when every component is absent). */
  lemma {:induction false} FirstActiveEmptyIff(components: Value, keys: seq<string>)
    ensures FirstActive(components, keys) == Empty <==> forall j :: 0 <= j < |keys| ==> !IsActive(components, keys[j])
  {
    if keys != [] {
      FirstActiveEmptyIff(components, keys[1..]);
      if !IsActive(components, keys[0]) {
        assert forall j :: 1 <= j < |keys| ==> keys[j] == keys[1..][j - 1];
      }
    }
  }

  /** A selected record always comes from the first active key. */
  lemma {:induction false} FirstActiveSelectedIndex(components: Value, keys: seq<string>) returns (i: nat)
    requires FirstActive(components, keys).Selected?
    ensures i < |keys| && IsActive(components, keys[i])
    ensures forall j :: 0 <= j < i ==> !IsActive(components, keys[j])
    ensures FirstActive(components, keys).status == Describe(keys[i], Get(components, keys[i]))
  {
    if IsActive(components, keys[0]) {
      i := 0;
    } else {
      var k := FirstActiveSelectedIndex(components, keys[1..]);
      i := k + 1;
      assert forall j :: 1 <= j <= i ==> keys[j] == keys[1..][j - 1];
    }
  }

  /** Some source in `srcs` reads as truthy from `c`. */
  predicate AnySourceTruthy(c: Value, srcs: seq<Source>) {
    exists k :: 0 <= k < |srcs| && Truthy(Read(c, srcs[k]))
  }

  /** A field is truthy exactly when one of its sources is. */
  lemma FieldTruthy(c: Value, srcs: seq<Source>)
    requires |srcs| > 0
    ensures Truthy(Field(c, srcs)) <==> AnySourceTruthy(c, srcs)
  {
    CoalesceTruthy(ReadAll(c, srcs));
  }

  lemma AnySourceTruthyConcat(c: Value, a: seq<Source>, b: seq<Source>)
    ensures AnySourceTruthy(c, a + b) <==> AnySourceTruthy(c, a) || AnySourceTruthy(c, b)
  {
    if AnySourceTruthy(c, a) {
      var k :| 0 <= k < |a| && Truthy(Read(c, a[k]));
      assert (a + b)[k] == a[k];
    }
    if AnySourceTruthy(c, b) {
      var k :| 0 <= k < |b| && Truthy(Read(c, b[k]));
      assert (a + b)[|a| + k] == b[k];
    }
    if AnySourceTruthy(c, a + b) {
      var k :| 0 <= k < |a + b| && Truthy(Read(c, (a + b)[k]));
      if k >= |a| {
        assert (a + b)[k] == b[k - |a|];
      } else {
        assert (a + b)[k] == a[k];
      }
    }
  }

  /** A present component is selected exactly when one of the capability
      attributes the fields read is truthy. */
  lemma ActiveIffSomeSourceTruthy(components: Value, key: string)
    ensures IsActive(components, key) <==>
      Truthy(Get(components, key)) && AnySourceTruthy(Get(components, key), AllSources)
  {
    var c := Get(components, key);
    FieldTruthy(c, JobStateSources);
    FieldTruthy(c, OperatingStateSources);
    FieldTruthy(c, RemainingTimeSources);
    FieldTruthy(c, RemainingTimeStrSources);
    FieldTruthy(c, CompletionTimeSources);
    var s1 := JobStateSources + OperatingStateSources;
    var s2 := s1 + RemainingTimeSources;
    var s3 := s2 + RemainingTimeStrSources;
    AnySourceTruthyConcat(c, JobStateSources, OperatingStateSources);
    AnySourceTruthyConcat(c, s1, RemainingTimeSources);
    AnySourceTruthyConcat(c, s2, RemainingTimeStrSources);
    AnySourceTruthyConcat(c, s3, CompletionTimeSources);
  }

  /** `jobState` is the first truthy value among, in order,
      dryerOperatingState.dryerJobState, washerOperatingState.washerJobState,
      samsungce.dryerOperatingState.dryerJobState and
      samsungce.washerOperatingState.washerJobState. */
  lemma JobStatePriority(c: Value, i: nat)
    requires i < |JobStateSources| && Truthy(Read(c, JobStateSources[i]))
    requires forall j :: 0 <= j < i ==> !Truthy(Read(c, JobStateSources[j]))
    ensures JobState(c) == Read(c, JobStateSources[i])
  {
    CoalescePicksFirstTruthy(ReadAll(c, JobStateSources), i);
  }

  /** The two-source fields prefer the dryer capability over the washer one. */
  lemma DryerBeforeWasher(c: Value, srcs: seq<Source>)
    requires srcs in {OperatingStateSources, RemainingTimeSources, RemainingTimeStrSources, CompletionTimeSources}
    ensures Truthy(Read(c, srcs[0])) ==> Field(c, srcs) == Read(c, srcs[0])
    ensures !Truthy(Read(c, srcs[0])) ==> Field(c, srcs) == Read(c, srcs[1])
    ensures srcs[0].capability in {"samsungce.dryerOperatingState", "dryerOperatingState"}
    ensures srcs[1].capability in {"samsungce.washerOperatingState", "washerOperatingState"}
  {
    var vs := ReadAll(c, srcs);
    assert |srcs| == 2;
    assert vs[1..] == [vs[1]];
    assert Coalesce(vs[1..]) == vs[1];
  }

  /** A dryer component reporting only `remainingTime: 0`. */
  const IdleDryer: Value :=
    Obj(map["samsungce.dryerOperatingState" := Obj(map["remainingTime" := Obj(map["value" := Num(0)])])])

  /** A washer component whose job state is "rinse". */
  const RinsingWasher: Value :=
    Obj(map["washerOperatingState" := Obj(map["washerJobState" := Obj(map["value" := Str("rinse")])])])

  /** Every field of a component that reports only a zero remaining time is falsy. */
  lemma IdleDryerShowsNoActivity(key: string)
    ensures !ShowsActivity(Describe(key, IdleDryer))
  {
    var dryer := Get(IdleDryer, "samsungce.dryerOperatingState");
    assert Get(IdleDryer, "dryerOperatingState") == Undefined;
    assert Get(IdleDryer, "washerOperatingState") == Undefined;
    assert Get(IdleDryer, "samsungce.washerOperatingState") == Undefined;
    assert Get(dryer, "dryerJobState") == Undefined;
    assert Get(dryer, "operatingState") == Undefined;
    assert Get(dryer, "remainingTimeStr") == Undefined;
    assert Get(Get(dryer, "remainingTime"), "value") == Num(0);
    FieldTruthy(IdleDryer, JobStateSources);
    FieldTruthy(IdleDryer, OperatingStateSources);
    FieldTruthy(IdleDryer, RemainingTimeSources);
    FieldTruthy(IdleDryer, RemainingTimeStrSources);
    FieldTruthy(IdleDryer, CompletionTimeSources);
  }

  lemma RinsingWasherStatus(key: string)
    ensures Describe(key, RinsingWasher) == ComponentStatus(key, Str("rinse"), Undefined, Undefined, Undefined, Undefined)
  {
    var washer := Get(RinsingWasher, "washerOperatingState");
    assert Get(RinsingWasher, "dryerOperatingState") == Undefined;
    assert Get(RinsingWasher, "samsungce.dryerOperatingState") == Undefined;
    assert Get(RinsingWasher, "samsungce.washerOperatingState") == Undefined;
    assert Get(washer, "completionTime") == Undefined;
    assert Get(Get(washer, "washerJobState"), "value") == Str("rinse");
    JobStatePriority(RinsingWasher, 1);
    CoalesceAllFalsy(ReadAll(RinsingWasher, OperatingStateSources));
    CoalesceAllFalsy(ReadAll(RinsingWasher, RemainingTimeSources));
    CoalesceAllFalsy(ReadAll(RinsingWasher, RemainingTimeStrSources));
    CoalesceAllFalsy(ReadAll(RinsingWasher, CompletionTimeSources));
  }

  /** With the three component keys: when only "sub" is active, "sub" is selected. */
  lemma SubSelectedWhenOnlyActive(components: Value)
    requires !IsActive(components, "main") && !IsActive(components, "hca.main")
    requires IsActive(components, "sub")
    ensures FirstActive(components, ComponentKeys) == Selected(Describe("sub", Get(components, "sub")))
  {
  }

  /** A component whose only field is `remainingTime: 0` is skipped in
      favour of a later active component. */
  lemma ZeroRemainingTimeSkipped(components: Value)
    requires Get(components, "main") == IdleDryer
    requires !IsActive(components, "hca.main") && IsActive(components, "sub")
    ensures !IsActive(components, "main")
    ensures FirstActive(components, ComponentKeys) == Selected(Describe("sub", Get(components, "sub")))
  {
    IdleDryerShowsNoActivity("main");
    SubSelectedWhenOnlyActive(components);
  }

  /** HomeKit CurrentHeaterCoolerState values the plugin reports. */
  const Inactive: int := 0
  const Idle: int := 1
  const Active: int := 2

  const RunningJobStates: set<string> := {"drying", "washing", "rinse", "spin", "run"}
  const StoppedJobStates: set<string> := {"none", "ready", "stop"}

  /** `mapJobStateToCurrentState(state)`: a `switch` with strict equality,
      so only string values can match a case. */
  function MapJobStateToCurrentState(state: Value): (r: int)
    ensures r == Active <==> state.Str? && state.s in RunningJobStates
    ensures r == Inactive <==> state.Str? && state.s in StoppedJobStates
    ensures r == Idle <==> !(state.Str? && (state.s in RunningJobStates || state.s in StoppedJobStates))
    ensures r in {Inactive, Idle, Active}
  {
    match state
    case Str(s) =>
      if s == "drying" || s == "washing" || s == "rinse" || s == "spin" || s == "run" then Active
      else if s == "none" || s == "ready" || s == "stop" then Inactive
      else Idle
    case _ => Idle
  }
}
