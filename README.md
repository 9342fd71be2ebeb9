# cloudtrail_critical_api_calls, modelled in Dafny

This project models the StreamAlert detection rule `cloudtrail_critical_api_calls`. The rule
is a pure predicate over one AWS CloudTrail event, a JSON-like dict. It raises an alert in three cases:

- The event name is one of fifteen critical API calls, grouped as the source groups them:
  - VPC flow logs: `DeleteFlowLogs`.
  - Critical, large resources: `DeleteSubnet`, `DeleteVpc`, `DeleteDBCluster`, `DeleteCluster`.
  - CloudTrail: `DeleteTrail`, `UpdateTrail`, `StopLogging`.
  - AWS Config: `DeleteDeliveryChannel`, `StopConfigurationRecorder`.
  - CloudWatch: `DeleteRule`, `DisableRule`.
  - GuardDuty: `DeleteDetector`.
  - S3 public access block: `DeleteAccountPublicAccessBlock`.
  - EBS default encryption: `DisableEbsEncryptionByDefault`.
- The event is `UpdateDetector` and `requestParameters.enable` is present and falsy. A missing
  `enable` defaults to True.
- The event is `PutBucketPublicAccessBlock` and one of the four protections in
  `requestParameters.PublicAccessBlockConfiguration` is missing or literally `False`. A missing
  configuration counts as every protection missing.

The model has two modules:

- `PyValues` (`py_values.dfy`) covers the part of Python the rule relies on. It has JSON values,
  truthiness (`not x`), identity with `False` (`x is False`), and chains of `.get` calls.
  `Subscript`, `Get` and `Contains` are plain definitions of `d[k]`, `d.get(k, default)` and
  `v in s` for a set of strings; their effect on the rule is stated by `EvaluateMeaning` and
  `EvaluateErrors`. Each Python exception the rule can raise is a value of `PyError`: a
  `KeyError`, an `AttributeError` for `.get` on a non-dict, or a `TypeError` for an unhashable
  value tested with `in`. `Result` carries either the value or the exception.
  `GetPathAppend` and `GetPathFound` are general facts about `.get` chains of any length
  (splitting a chain, and reading a present leaf); the rule's own two-step chains are
  settled directly by the verifier.
- `CloudtrailCriticalApiCalls` (`cloudtrail_critical_api_calls.dfy`) holds the critical-event
  set and the rule itself (`Evaluate`, with its two sub-tests). It also holds a specification
  written over which keys are present (`Faults`, `CriticalCall`, `DetectorTurnedOff`,
  `BucketLeftOpen`), and lemmas tying the rule to that specification.

The two readings of "false" are kept apart. The `enable` test uses Python truthiness, so None,
0, `""` and empty containers alert just like `False`. The protection flags use identity with
`False`, so a None or 0 flag does not count as off. `NullEnableAndNullFlagDiffer` shows both
on concrete records.

Three details of the code that the model keeps:

- All four flags default to `False`, so one missing flag alerts.
- `enable` is tested for falsiness, so None, 0 and `""` alert too.
- A missing `eventName` raises `KeyError`. An `eventName` that is a dict or a list raises
  `TypeError`. For `UpdateDetector` and `PutBucketPublicAccessBlock`, a `requestParameters`
  that is present but not a dict (for example `null`) raises `AttributeError`. For
  `PutBucketPublicAccessBlock`, so does a configuration that is present but not a dict. Other
  events never read either field. The model returns each of these errors as `Err`.

## Model

| member | source | states |
|---|---|---|
| `PyValues.GetPath` | rules/community/cloudtrail/cloudtrail_critical_api_calls.py:56-58 | a chain of `.get` calls with `{}` defaults fails only with AttributeError, fails on a non-dict receiver, and yields the final default when the first key is missing |
| `PyValues.GetPathAppend` | rules/community/cloudtrail/cloudtrail_critical_api_calls.py:56-58 | a `.get` chain over `p + q` equals the chain over `p` (with a `{}` default) continued along `q` |
| `PyValues.GetPathFound` | rules/community/cloudtrail/cloudtrail_critical_api_calls.py:49 | when every key of the path is present in nested dicts, the chain yields the stored leaf whatever the default |
| `PyValues.IdentityIsStricterThanFalsiness` | rules/community/cloudtrail/cloudtrail_critical_api_calls.py:49-62 | every value that `is False` is falsy; the falsy values that are not `False` are exactly None, 0, `""`, `{}` and `[]` |
| `CloudtrailCriticalApiCalls.AnyFlagOff` | rules/community/cloudtrail/cloudtrail_critical_api_calls.py:59-62 | on a dict configuration, the short-circuit `or` of `config.get(flag, False) is False` is true iff some flag is missing or literally False; on a non-dict it raises AttributeError |
| `CloudtrailCriticalApiCalls.DetectorDisabled` | rules/community/cloudtrail/cloudtrail_critical_api_calls.py:49 | raises AttributeError on the request parameters exactly when they are present and not a dict; otherwise true iff `enable` is present and falsy |
| `CloudtrailCriticalApiCalls.PublicAccessUnblocked` | rules/community/cloudtrail/cloudtrail_critical_api_calls.py:56-64 | raises AttributeError on the first of request parameters or configuration that is present and not a dict; otherwise true iff some protection is off in the configuration, where an absent configuration leaves every protection off |
| `CloudtrailCriticalApiCalls.Evaluate` | rules/community/cloudtrail/cloudtrail_critical_api_calls.py:44-72 | raises KeyError('eventName') exactly when the event name is missing; only a string event name can alert |
| `CloudtrailCriticalApiCalls.EvaluateMeaning` | rules/community/cloudtrail/cloudtrail_critical_api_calls.py:44-72 | the rule raises exactly on `Faults`, and returns True exactly when it does not raise and the event is a critical call, a detector turned off, or a bucket left open |
| `CloudtrailCriticalApiCalls.CriticalCallAlerts` | rules/community/cloudtrail/cloudtrail_critical_api_calls.py:4-45 | every name in the critical set alerts, whatever the other fields are |
| `CloudtrailCriticalApiCalls.DetectorDisableAlerts` | rules/community/cloudtrail/cloudtrail_critical_api_calls.py:47-50 | UpdateDetector with `enable` present and falsy alerts |
| `CloudtrailCriticalApiCalls.DetectorEnableDoesNotAlert` | rules/community/cloudtrail/cloudtrail_critical_api_calls.py:47-72 | UpdateDetector with no request parameters, no `enable`, or a truthy `enable` does not alert |
| `CloudtrailCriticalApiCalls.BucketFullyBlockedDoesNotAlert` | rules/community/cloudtrail/cloudtrail_critical_api_calls.py:52-72 | PutBucketPublicAccessBlock with all four protections present and not literally False does not alert |
| `CloudtrailCriticalApiCalls.BucketOpenAlerts` | rules/community/cloudtrail/cloudtrail_critical_api_calls.py:52-64 | PutBucketPublicAccessBlock with no configuration, or with any one protection missing or literally False, alerts |
| `CloudtrailCriticalApiCalls.OtherEventsDoNotAlert` | rules/community/cloudtrail/cloudtrail_critical_api_calls.py:44-72 | a hashable event name outside the critical set and other than the two special names never alerts |
| `CloudtrailCriticalApiCalls.AccountBlockWriteNotDetected` | rules/community/cloudtrail/cloudtrail_critical_api_calls.py:66-72 | PutAccountPublicAccessBlock never alerts, whatever its parameters |
| `CloudtrailCriticalApiCalls.EvaluateErrors` | rules/community/cloudtrail/cloudtrail_critical_api_calls.py:44-62 | which exception is raised, and on which value: a missing event name, an unhashable event name, non-dict request parameters, and a non-dict configuration |
| `CloudtrailCriticalApiCalls.EvaluateReadsOnlyTwoFields` | rules/community/cloudtrail/cloudtrail_critical_api_calls.py:44-64 | two records that agree on `eventName` and `requestParameters` get the same outcome |
| `CloudtrailCriticalApiCalls.NullEnableAndNullFlagDiffer` | rules/community/cloudtrail/cloudtrail_critical_api_calls.py:49-62 | a None `enable` alerts, while four None protections do not |
| `CloudtrailCriticalApiCalls.ExampleDeleteTrail` | rules/community/cloudtrail/cloudtrail_critical_api_calls.py:13-45 | a DeleteTrail event alerts |
| `CloudtrailCriticalApiCalls.ExampleDetectorDisabled` | rules/community/cloudtrail/cloudtrail_critical_api_calls.py:47-50 | UpdateDetector with `enable` False alerts |
| `CloudtrailCriticalApiCalls.ExampleDetectorEnabled` | rules/community/cloudtrail/cloudtrail_critical_api_calls.py:47-72 | UpdateDetector with `enable` True does not alert |
| `CloudtrailCriticalApiCalls.ExampleBucketFullyBlocked` | rules/community/cloudtrail/cloudtrail_critical_api_calls.py:52-72 | PutBucketPublicAccessBlock with all four protections True does not alert |
| `CloudtrailCriticalApiCalls.ExampleBucketNoConfiguration` | rules/community/cloudtrail/cloudtrail_critical_api_calls.py:52-64 | PutBucketPublicAccessBlock with empty request parameters alerts |
| `CloudtrailCriticalApiCalls.ExampleRunInstances` | rules/community/cloudtrail/cloudtrail_critical_api_calls.py:44-72 | a RunInstances event does not alert |

## Left out

- The `@rule(logs=['cloudtrail:events'])` decorator and the rule registry it feeds. `stream_alert.shared.rule` is not part of this model. The rule's name and log type are kept only as the constants `RuleName` and `LogTypes`.
- The docstring metadata (author, description, reference, playbook). It never affects matching.
- The rule engine: registration, dispatch by log type, per-rule fault isolation, timeouts, concurrency and alert delivery. None of it is in the rule's source. The model returns the rule's exceptions as `Err` values, which is what a dispatcher would catch.
- Python int and float are one numeric case (`Num`). They behave alike for truthiness and for `is False`, and the rule does nothing else with numbers.
- Dict keys are strings only, as in decoded JSON.
- The record itself is always a dict (`Record`). The rule is never called with anything else.
