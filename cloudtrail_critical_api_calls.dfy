/** The detection rule `cloudtrail_critical_api_calls`: raise an alert on AWS CloudTrail
    events that stop, delete or change security logging or delete critical resources, that
    switch a GuardDuty detector off, or that leave an S3 bucket's public access block
    with a protection turned off. The rule is a pure predicate over one record; the
    exceptions its body can raise are part of its outcome. */
module CloudtrailCriticalApiCalls {
  import opened PyValues

  /** The rule's registered name and the log types it is attached to. */
  const RuleName: string := "cloudtrail_critical_api_calls"
  const LogTypes: seq<string> := ["cloudtrail:events"]

  /** API calls that alert whatever their parameters. */
  const CriticalEvents: set<string> := {
    // VPC Flow Logs
    "DeleteFlowLogs",
    // Critical, large resources
    "DeleteSubnet", "DeleteVpc", "DeleteDBCluster", "DeleteCluster",
    // CloudTrail
    "DeleteTrail", "UpdateTrail", "StopLogging",
    // AWS Config
    "DeleteDeliveryChannel", "StopConfigurationRecorder",
    // CloudWatch
    "DeleteRule", "DisableRule",
    // GuardDuty
    "DeleteDetector",
    // S3 Public Access Block
    "DeleteAccountPublicAccessBlock",
    // EBS default encryption
    "DisableEbsEncryptionByDefault"
  }

  const DetectorUpdate: string := "UpdateDetector"
  const BucketBlockWrite: string := "PutBucketPublicAccessBlock"

  /** Account-level public access block writes are not detected: the call alone does not
      tell whether the feature is being enabled or disabled. */
  const AccountBlockWrite: string := "PutAccountPublicAccessBlock"

  /** The four protections of a bucket's public access block configuration, in the order
      the rule tests them. */
  const BlockFlags: seq<string> := ["RestrictPublicBuckets", "BlockPublicPolicy", "BlockPublicAcls", "IgnorePublicAcls"]

  /** A CloudTrail event as the rule receives it: a dict of top-level fields. */
  type Record = map<string, Value>

  // ---------------------------------------------------------------------------
  // Specification: the rule's meaning stated over which keys are present.
  // ---------------------------------------------------------------------------

  /** `requestParameters` is absent or a dict, so `.get` can be called on it. */
  ghost predicate ParamsReadable(rec: Record)
  {
    "requestParameters" !in rec || rec["requestParameters"].Dict?
  }

  /** The request parameters, an absent field read as empty. */
  ghost function Params(rec: Record): map<string, Value>
    requires ParamsReadable(rec)
  {
    if "requestParameters" in rec then rec["requestParameters"].entries else map[]
  }

  /** `PublicAccessBlockConfiguration` is absent or a dict. */
  ghost predicate ConfigReadable(rec: Record)
    requires ParamsReadable(rec)
  {
    "PublicAccessBlockConfiguration" !in Params(rec) || Params(rec)["PublicAccessBlockConfiguration"].Dict?
  }

  /** The bucket's public access block configuration, an absent field read as empty. */
  ghost function Config(rec: Record): map<string, Value>
    requires ParamsReadable(rec) && ConfigReadable(rec)
  {
    if "PublicAccessBlockConfiguration" in Params(rec) then Params(rec)["PublicAccessBlockConfiguration"].entries
    else map[]
  }

  /** A protection counts as off when it is missing or is literally `False`. */
  ghost predicate FlagOff(config: map<string, Value>, flag: string)
  {
    flag !in config || config[flag] == Bool(false)
  }

  /** `enable` is present among the request parameters and falsy; an absent `enable`
      reads as True. */
  ghost predicate EnableOff(params: map<string, Value>)
  {
    "enable" in params && !Truthy(params["enable"])
  }

  /** At least one of the four protections is off in the configuration. */
  ghost predicate SomeFlagOff(config: map<string, Value>)
  {
    exists flag :: flag in BlockFlags && FlagOff(config, flag)
  }

  /** The inputs on which the rule's body raises an exception. */
  ghost predicate Faults(rec: Record)
  {
    || "eventName" !in rec
    || rec["eventName"].Dict? || rec["eventName"].List?
    || ((rec["eventName"] == Str(DetectorUpdate) || rec["eventName"] == Str(BucketBlockWrite)) && !ParamsReadable(rec))
    || (rec["eventName"] == Str(BucketBlockWrite) && ParamsReadable(rec) && !ConfigReadable(rec))
  }

  /** The event is a critical API call. */
  ghost predicate CriticalCall(rec: Record)
  {
    "eventName" in rec && rec["eventName"].Str? && rec["eventName"].s in CriticalEvents
  }

  /** A GuardDuty detector update whose `enable` parameter is present and falsy. */
  ghost predicate DetectorTurnedOff(rec: Record)
  {
    && "eventName" in rec && rec["eventName"] == Str(DetectorUpdate)
    && ParamsReadable(rec) && EnableOff(Params(rec))
  }

  /** A bucket public access block write that leaves one of the four protections off. */
  ghost predicate BucketLeftOpen(rec: Record)
  {
    && "eventName" in rec && rec["eventName"] == Str(BucketBlockWrite)
    && ParamsReadable(rec) && ConfigReadable(rec)
    && SomeFlagOff(Config(rec))
  }

  // ---------------------------------------------------------------------------
  // The rule, as written.
  // ---------------------------------------------------------------------------

  /** `config.get(flags[0], False) is False or config.get(flags[1], False) is False or ...`,
      evaluated left to right and stopping at the first protection found off. */
  function AnyFlagOff(config: Value, flags: seq<string>): (r: Result<bool>)
    ensures config.Dict? ==> r == Ok(exists flag :: flag in flags && FlagOff(config.entries, flag))
    ensures !config.Dict? && flags != [] ==> r == Err(AttributeError(config))
    decreases |flags|
  {
    if flags == [] then Ok(false)
    else
      var v :- Get(config, flags[0], Bool(false));
      if IsFalse(v) then
        assert flags[0] in flags;
        Ok(true)
      else
        assert forall flag :: flag in flags <==> flag == flags[0] || flag in flags[1..];
        AnyFlagOff(config, flags[1..])
  }

  /** `not rec.get('requestParameters', {}).get('enable', True)`. */
  function DetectorDisabled(rec: Record): (r: Result<bool>)
    ensures r.Err? <==> !ParamsReadable(rec)
    ensures r.Err? ==> r.error == AttributeError(rec["requestParameters"])
    ensures r.Ok? ==> (r.value <==> EnableOff(Params(rec)))
  {
    var enable :- GetPath(Dict(rec), ["requestParameters", "enable"], Bool(true));
    Ok(!Truthy(enable))
  }

  /** The public access block test: look up the configuration (an absent one reads as
      `{}`), then ask whether any of the four protections is off. */
  function PublicAccessUnblocked(rec: Record): (r: Result<bool>)
    ensures r.Err? <==> !ParamsReadable(rec) || !ConfigReadable(rec)
    ensures !ParamsReadable(rec) ==> r == Err(AttributeError(rec["requestParameters"]))
    ensures ParamsReadable(rec) && !ConfigReadable(rec) ==>
              r == Err(AttributeError(Params(rec)["PublicAccessBlockConfiguration"]))
    ensures r.Ok? ==> (r.value <==> SomeFlagOff(Config(rec)))
  {
    var config :- GetPath(Dict(rec), ["requestParameters", "PublicAccessBlockConfiguration"], EmptyDict);
    AnyFlagOff(config, BlockFlags)
  }

  /** `cloudtrail_critical_api_calls(rec)`: the three tests in the source's order, each
      returning True as soon as it fires. */
  function Evaluate(rec: Record): (r: Result<bool>)
    ensures r == Err(KeyError("eventName")) <==> "eventName" !in rec
    ensures r == Ok(true) ==> rec["eventName"].Str?
  {
    var name :- Subscript(rec, "eventName");
    var critical :- Contains(CriticalEvents, name);
    if critical then Ok(true)
    else
      var detectorOff :- if name == Str(DetectorUpdate) then DetectorDisabled(rec) else Ok(false);
      if detectorOff then Ok(true)
      else
        var bucketOpen :- if name == Str(BucketBlockWrite) then PublicAccessUnblocked(rec) else Ok(false);
        Ok(bucketOpen)
  }

  // ---------------------------------------------------------------------------
  // What the rule decides.
  // ---------------------------------------------------------------------------

  /** The rule raises exactly on `Faults`, and alerts exactly when one of its three
      conditions holds. */
  lemma EvaluateMeaning(rec: Record)
    ensures Evaluate(rec).Err? <==> Faults(rec)
    ensures Evaluate(rec) == Ok(true) <==> !Faults(rec) && (CriticalCall(rec) || DetectorTurnedOff(rec) || BucketLeftOpen(rec))
  {
  }

  /** A critical API call alerts whatever the rest of the record holds. */
  lemma CriticalCallAlerts(rec: Record)
    requires "eventName" in rec && rec["eventName"].Str? && rec["eventName"].s in CriticalEvents
    ensures Evaluate(rec) == Ok(true)
  {
  }

  /** A detector update whose `enable` is present and falsy (False, None, 0, "", an empty
      container) alerts. */
  lemma DetectorDisableAlerts(rec: Record)
    requires "eventName" in rec && rec["eventName"] == Str(DetectorUpdate)
    requires "requestParameters" in rec && rec["requestParameters"].Dict?
    requires "enable" in rec["requestParameters"].entries
    requires !Truthy(rec["requestParameters"].entries["enable"])
    ensures Evaluate(rec) == Ok(true)
  {
  }

  /** A detector update does not alert when `requestParameters` is absent, when `enable`
      is absent (it defaults to True), or when `enable` is truthy. */
  lemma DetectorEnableDoesNotAlert(rec: Record)
    requires "eventName" in rec && rec["eventName"] == Str(DetectorUpdate)
    requires || "requestParameters" !in rec
             || (rec["requestParameters"].Dict? && "enable" !in rec["requestParameters"].entries)
             || (rec["requestParameters"].Dict? && "enable" in rec["requestParameters"].entries
                 && Truthy(rec["requestParameters"].entries["enable"]))
    ensures Evaluate(rec) == Ok(false)
  {
  }

  /** A bucket block write that sets all four protections to anything but the literal
      False does not alert. */
  lemma BucketFullyBlockedDoesNotAlert(rec: Record, config: map<string, Value>)
    requires "eventName" in rec && rec["eventName"] == Str(BucketBlockWrite)
    requires "requestParameters" in rec && rec["requestParameters"].Dict?
    requires "PublicAccessBlockConfiguration" in rec["requestParameters"].entries
    requires rec["requestParameters"].entries["PublicAccessBlockConfiguration"] == Dict(config)
    requires forall flag :: flag in BlockFlags ==> flag in config && config[flag] != Bool(false)
    ensures Evaluate(rec) == Ok(false)
  {
  }

  /** A bucket block write alerts when the configuration is absent, or when any one of the
      four protections is absent or literally False (while the fields read are dicts). */
  lemma BucketOpenAlerts(rec: Record, flag: string)
    requires "eventName" in rec && rec["eventName"] == Str(BucketBlockWrite)
    requires ParamsReadable(rec) && ConfigReadable(rec)
    requires flag in BlockFlags
    requires || "PublicAccessBlockConfiguration" !in Params(rec)
             || flag !in Config(rec)
             || Config(rec)[flag] == Bool(false)
    ensures Evaluate(rec) == Ok(true)
  {
  }

  /** Any other event name, and any event name that is not a string but is hashable,
      never alerts. This covers PutAccountPublicAccessBlock. */
  lemma OtherEventsDoNotAlert(rec: Record)
    requires "eventName" in rec
    requires !(rec["eventName"].Dict? || rec["eventName"].List?)
    requires rec["eventName"].Str? ==> rec["eventName"].s !in CriticalEvents
    requires rec["eventName"] != Str(DetectorUpdate) && rec["eventName"] != Str(BucketBlockWrite)
    ensures Evaluate(rec) == Ok(false)
  {
  }

  /** PutAccountPublicAccessBlock is deliberately not detected, whatever its parameters. */
  lemma AccountBlockWriteNotDetected(rec: Record)
    requires "eventName" in rec && rec["eventName"] == Str(AccountBlockWrite)
    ensures Evaluate(rec) == Ok(false)
  {
    OtherEventsDoNotAlert(rec);
  }

  /** The exceptions the rule raises, and on which value. */
  lemma EvaluateErrors(rec: Record)
    ensures "eventName" !in rec ==> Evaluate(rec) == Err(KeyError("eventName"))
    ensures "eventName" in rec && (rec["eventName"].Dict? || rec["eventName"].List?) ==>
              Evaluate(rec) == Err(TypeError(rec["eventName"]))
    ensures && "eventName" in rec
            && (rec["eventName"] == Str(DetectorUpdate) || rec["eventName"] == Str(BucketBlockWrite))
            && "requestParameters" in rec && !rec["requestParameters"].Dict? ==>
              Evaluate(rec) == Err(AttributeError(rec["requestParameters"]))
    ensures && "eventName" in rec && rec["eventName"] == Str(BucketBlockWrite)
            && ParamsReadable(rec) && !ConfigReadable(rec) ==>
              Evaluate(rec) == Err(AttributeError(Params(rec)["PublicAccessBlockConfiguration"]))
  {
  }

  /** The rule reads only `eventName` and `requestParameters`: records that agree on those
      two fields get the same outcome. */
  lemma EvaluateReadsOnlyTwoFields(rec1: Record, rec2: Record)
    requires forall key :: key in {"eventName", "requestParameters"} ==>
               (key in rec1 <==> key in rec2) && (key in rec1 ==> rec1[key] == rec2[key])
    ensures Evaluate(rec1) == Evaluate(rec2)
  {
  }

  /** A null `enable` alerts (falsiness) while a null protection flag does not count as off
      (identity with False): the two tests read None differently. */
  lemma NullEnableAndNullFlagDiffer()
    ensures Evaluate(map["eventName" := Str(DetectorUpdate), "requestParameters" := Dict(map["enable" := Null])]) == Ok(true)
    ensures Evaluate(map["eventName" := Str(BucketBlockWrite),
                         "requestParameters" := Dict(map["PublicAccessBlockConfiguration" := Dict(map[
                           "RestrictPublicBuckets" := Null, "BlockPublicPolicy" := Null,
                           "BlockPublicAcls" := Null, "IgnorePublicAcls" := Null])])]) == Ok(false)
  {
  }

  /** Example event: deleting a trail alerts. */
  lemma ExampleDeleteTrail()
    ensures Evaluate(map["eventName" := Str("DeleteTrail")]) == Ok(true)
  {
    CriticalCallAlerts(map["eventName" := Str("DeleteTrail")]);
  }

  /** Example event: a detector update with `enable` False alerts. */
  lemma ExampleDetectorDisabled()
    ensures Evaluate(map["eventName" := Str(DetectorUpdate), "requestParameters" := Dict(map["enable" := Bool(false)])]) == Ok(true)
  {
    DetectorDisableAlerts(map["eventName" := Str(DetectorUpdate), "requestParameters" := Dict(map["enable" := Bool(false)])]);
  }

  /** Example event: a detector update with `enable` True does not alert. */
  lemma ExampleDetectorEnabled()
    ensures Evaluate(map["eventName" := Str(DetectorUpdate), "requestParameters" := Dict(map["enable" := Bool(true)])]) == Ok(false)
  {
    DetectorEnableDoesNotAlert(map["eventName" := Str(DetectorUpdate), "requestParameters" := Dict(map["enable" := Bool(true)])]);
  }

  /** Example event: a bucket block write with all four protections on does not alert. */
  lemma ExampleBucketFullyBlocked()
    ensures Evaluate(map["eventName" := Str(BucketBlockWrite),
                         "requestParameters" := Dict(map["PublicAccessBlockConfiguration" := Dict(AllBlocked)])]) == Ok(false)
  {
    var blocked := map["eventName" := Str(BucketBlockWrite), "requestParameters" := Dict(map["PublicAccessBlockConfiguration" := Dict(AllBlocked)])];
    BucketFullyBlockedDoesNotAlert(blocked, AllBlocked);
  }

  /** Example event: a bucket block write without a configuration alerts. */
  lemma ExampleBucketNoConfiguration()
    ensures Evaluate(map["eventName" := Str(BucketBlockWrite), "requestParameters" := EmptyDict]) == Ok(true)
  {
    BucketOpenAlerts(map["eventName" := Str(BucketBlockWrite), "requestParameters" := EmptyDict], BlockFlags[0]);
  }

  /** Example event: launching instances does not alert. */
  lemma ExampleRunInstances()
    ensures Evaluate(map["eventName" := Str("RunInstances")]) == Ok(false)
  {
    OtherEventsDoNotAlert(map["eventName" := Str("RunInstances")]);
  }

  /** A configuration with all four protections switched on. */
  const AllBlocked: map<string, Value> := map[
    "RestrictPublicBuckets" := Bool(true), "BlockPublicPolicy" := Bool(true),
    "BlockPublicAcls" := Bool(true), "IgnorePublicAcls" := Bool(true)]
}
