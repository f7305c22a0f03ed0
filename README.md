# SCALE action handler — Dafny model

This project models the decision logic of a webhook-style action handler,
`actions/IA_scale.py`. An orchestration framework invokes the handler when it
raises a SCALE action against a virtual machine. The handler then:

1. checks the action payload and picks the first SCALE action item;
2. reads the managed service instance from the machine's `VCTAGS` tags;
3. takes the new instance type from `newSE.id`;
4. authenticates, looks up the tenant and submits an update of the
   service instance's instance-type parameter;
5. polls the instance status until it leaves "In Progress" or the
   configured timeout has passed;
6. returns exit status 0 or 1.

The network is replaced by the replies it would give (`Handler.Remote`). The
k-th GET of the service instance is answered by `details(k)`. Each run
records the HTTP requests it sends (`Api.Call`), so the model can state when
no request is made. Sleeping becomes the counter of seconds waited.
Uncaught Python exceptions become `Handler.Outcome.Raised`. The process exit
status for them is 1, the interpreter's status for an uncaught exception.

Modules, in the order the handler uses them:

- `Wrappers`: `Option`, for Python's value-or-`None`.
- `Payload`: the parsed action document and the choice of the SCALE item.
  `FindScaleItem` is the `for`/`break` loop.
- `Tags`: the tag scan. `ScanTags` is the loop with its early `break`. `Scan`
  is its specification, and lemmas characterise it.
- `Segments`: Python's `str.split('::')` and segment 2 of `newSE.id`.
- `Api`: the four request helpers, with their `None` propagation, and the
  update body.
- `Poll`: the wait loop (`PollUntilSettled`) and its specification
  (`PollCount`).
- `Handler`: `main` as `HandleAction`, proved equal to the specification
  function `Handle`. Its network half is the method `ExecutePlan`, proved
  equal to `Execute`. The lemmas about `Handle` give the exit-status rules.

On inputs of the modelled shape, three paths of `main` end in an uncaught
exception. The model keeps each
as `Raised(..)`, and the process exit status for it is 1:

- A status still "In Progress" after the timeout. There, `exit_status` is
  still 0 (`Handler.FinalExitStatus`). However, the log call at
  `actions/IA_scale.py:241-242` names `timeout`, which is never defined; the
  configured value is `update_service_timeout`. That branch therefore raises
  a NameError before `main` returns. This is `Raised(UndefinedTimeout)`.
- A SCALE item without an entity type. The error message at
  `actions/IA_scale.py:183` concatenates `None` and raises a TypeError. This
  is `Raised(EntityTypeMissing)`. No request has been sent.
- Fewer than three `::` segments in `newSE.id`. The index at
  `actions/IA_scale.py:214` raises an IndexError. This is
  `Raised(NoThirdSegment)`. It happens after the tag checks and before any
  request.

## Model

| member | source | states |
|---|---|---|
| `Payload.FindScaleItem` | actions/IA_scale.py:169-174 | the selection loop with `break` returns exactly the specified first SCALE item |
| `Payload.FirstScaleItemIsFirstMatch` | actions/IA_scale.py:169-178 | nothing is selected iff no item is SCALE; otherwise the selected item is SCALE and every earlier item is not |
| `Payload.FirstScaleItemChosen` | actions/IA_scale.py:171-174 | a SCALE item with no SCALE item before it is the one selected |
| `Tags.ScanTags` | actions/IA_scale.py:187-202 | the tag loop with its early `break` leaves the three variables equal to the specified scan |
| `Tags.ScanIgnoresOtherNamespaces` | actions/IA_scale.py:190-202 | removing every property outside the VCTAGS namespace does not change the identifier, name or parameter found |
| `Tags.ScanFromIgnoresOtherNamespaces` | actions/IA_scale.py:190-202 | the same, from any state in which the loop has not yet stopped |
| `Tags.ScanFindsTag` | actions/IA_scale.py:187-206 | a variable stays `None` iff no VCTAGS property carries its tag; otherwise it holds the value of such a property |
| `Tags.ScanFromFindsTag` | actions/IA_scale.py:190-202 | the same, from any state of the loop |
| `Tags.DefaultInstanceTypeParameter` | actions/IA_scale.py:208-211 | without a `turbonomic_instance_type` tag the parameter name is exactly "instance_type"; with one, it is that tag's value |
| `Tags.ScanIsLastWrite` | actions/IA_scale.py:190-202 | last write wins: each variable holds its tag's last value within the shortest prefix that contains all three tags, or within the whole list if no prefix does |
| `Tags.ScanFromIsLastWrite` | actions/IA_scale.py:190-202 | the same, from the state reached after any prefix |
| `Tags.Consumed` | actions/IA_scale.py:190-202 | the loop never reads more properties than there are |
| `Segments.Split` | actions/IA_scale.py:214 | `split('::')` yields at least one segment, and the first segment is a prefix of the input |
| `Segments.JoinSplit` | actions/IA_scale.py:214 | joining the segments with "::" gives the input back |
| `Segments.SplitSegmentsHaveNoSeparator` | actions/IA_scale.py:214 | no segment contains "::" |
| `Segments.SplitSegmentsAreFields` | actions/IA_scale.py:214 | every segment but the last is well formed (no "::", no trailing ':'), so with `SplitJoin` the split is the leftmost one |
| `Segments.SplitJoin` | actions/IA_scale.py:214 | splitting a "::"-join of well-formed segments gives the segments back |
| `Segments.NewInstanceTypeIsThirdSegment` | actions/IA_scale.py:214 | the new instance type is exactly the third segment, whatever follows it |
| `Segments.NewInstanceTypeNeedsSeparators` | actions/IA_scale.py:214 | an id with no separator has no segment 2, so the extraction fails |
| `Segments.NewInstanceTypeNeedsTwoSeparators` | actions/IA_scale.py:214 | an id with exactly one separator has no segment 2, so the extraction fails |
| `Segments.NewInstanceTypeExample` | actions/IA_scale.py:213-214 | "a::b::m1.large" gives "m1.large" |
| `Api.GetAccessToken` | actions/IA_scale.py:57-70 | one POST with the password-grant form; a token exactly when the reply is 200 |
| `Api.GetTenantId` | actions/IA_scale.py:73-91 | no request and `None` without a token; otherwise one GET, and a tenant exactly when the reply is 200 |
| `Api.UpdateBody` | actions/IA_scale.py:106 | the body has only the key `update_details`, which has only `instance_parameters`, which maps exactly the one parameter to the new type |
| `Api.UpdateBodySetsOneParameter` | actions/IA_scale.py:106 | `instance_parameters` has exactly one entry: the parameter, set to the new instance type |
| `Api.UpdateServiceInstance` | actions/IA_scale.py:93-113 | one POST to the instance, with bearer token, tenant and exactly `UpdateBody(parameter, newInstanceType)`; the reply's status code is returned |
| `Api.GetServiceInstanceDetails` | actions/IA_scale.py:115-137 | no request unless both token and tenant are present; details exactly on a 200 reply |
| `Api.GetServiceInstanceStatus` | actions/IA_scale.py:139-155 | the status is `None` exactly when the details are `None`; otherwise it is the reply's `Status` |
| `Poll.PollCountFrom` | actions/IA_scale.py:235-239 | the loop runs until the first iteration at which the status is not "In Progress" or `time_waited` exceeds the timeout, and the guard held at every earlier iteration |
| `Poll.PollUntilSettled` | actions/IA_scale.py:230-239 | the loop terminates; `time_waited` is 30 + 10·k after k iterations; it sends k + 1 status requests; on exit the status is not "In Progress" or `time_waited` > timeout |
| `Poll.PollCountBounded` | actions/IA_scale.py:233-239 | at most `MaxPolls(timeout)` iterations, whatever the service answers; the wait never exceeds max(30, timeout + 10) seconds |
| `Poll.SettledAtOnce` | actions/IA_scale.py:230-235 | a first status other than "In Progress" means no iteration, only the initial 30 seconds |
| `Poll.PendingUntilTimeout` | actions/IA_scale.py:235-239 | a status that stays "In Progress" is polled exactly `MaxPolls(timeout)` times and ends past the timeout |
| `Handler.HandleAction` | actions/IA_scale.py:157-251 | `main`, step by step, has exactly the outcome and the request sequence of the specification `Handle` |
| `Handler.ExecutePlan` | actions/IA_scale.py:218-251 | the requests after validation and the exit-status decision have exactly the outcome and request sequence of the specification `Execute` |
| `Handler.UnsupportedActionTypeFails` | actions/IA_scale.py:162-166 | a top-level action type other than SCALE gives 1 and sends nothing |
| `Handler.NoScaleItemFails` | actions/IA_scale.py:168-178 | with no SCALE item the result is 1 and nothing is sent |
| `Handler.NonVirtualMachineFails` | actions/IA_scale.py:180-184 | a first SCALE item not targeting a VIRTUAL_MACHINE fails with no request, by a TypeError exactly when the entity type is missing |
| `Handler.MissingServiceIdentifierFails` | actions/IA_scale.py:186-206 | without a VCTAGS `service_identifier` tag the result is 1 and nothing is sent |
| `Handler.ShortIdRaises` | actions/IA_scale.py:213-214 | with a VM target and a `service_identifier` tag, the run ends in the IndexError exactly when `newSE.id` has fewer than three "::" segments, and then before any request |
| `Handler.PlanComesFromTags` | actions/IA_scale.py:186-214 | a validated payload targets a VM; its instance id comes from a `service_identifier` tag; the parameter defaults to "instance_type"; the new type is segment 2 of `newSE.id` |
| `Handler.AuthenticationFailureStops` | actions/IA_scale.py:218-220 | a refused authentication gives 1 after the token request alone |
| `Handler.TenantFailureStops` | actions/IA_scale.py:222-224 | a failed tenant lookup gives 1 after the token and tenant requests only |
| `Handler.UpdateRejectedSkipsPolling` | actions/IA_scale.py:226-251 | an update status other than 200 gives 1, and no status request is ever sent |
| `Handler.UpdateRequestMatchesPlan` | actions/IA_scale.py:227-228 | every update request targets the planned instance and sets exactly the planned parameter to the new type |
| `Handler.UpdateRequestSent` | actions/IA_scale.py:218-227 | once token and tenant are granted, the third request is the update POST with that token, the planned instance, that tenant and exactly the planned body |
| `Handler.AcceptedUpdateIsPolled` | actions/IA_scale.py:229-247 | after a 200 update the outcome is decided by the status at the end of the wait, after PollCount + 1 status requests |
| `Handler.StillInProgressRaises` | actions/IA_scale.py:233-242 | a run whose status is still "In Progress" at the end of the wait has waited past the timeout and still has `exit_status` 0, yet it ends in the NameError and the process exits 1 |
| `Handler.ConcludeSettled` | actions/IA_scale.py:243-247 | a final "Active" gives 0; any other final status, `None` included, gives 1 |
| `Handler.SucceedsExactlyWhenActive` | actions/IA_scale.py:218-251 | the process exits 0 iff the payload is valid, token, tenant and update are all answered 200, and the status at the end of the wait is "Active" |
| `Handler.ActiveAtOnceSucceeds` | actions/IA_scale.py:229-244 | "Active" at the first fetch gives 0 after exactly one status request |
| `Handler.PendingForeverRaises` | actions/IA_scale.py:233-242 | a service that always answers "In Progress" is polled `MaxPolls(timeout)` more times, and the run ends in the NameError |

## Left out

- HTTP requests, URLs, headers other than the bearer token, `verify=False` and the urllib3 warning suppression (actions/IA_scale.py:64, 85, 108, 130, 216). These are foreign network calls. Each reply is an input (`Handler.Remote`).
- A remote call that hangs. No request has a timeout, but every reply is given, so the model cannot hang.
- A request that raises instead of replying: a connection error from `requests.post`/`requests.get` (actions/IA_scale.py:64, 85, 108, 130), or `response.json()` on a 200 reply whose body is not JSON (actions/IA_scale.py:66, 87, 132). Either ends `main` with an uncaught exception, so exit status 1, after the requests already sent. The model gives every request a well-formed reply.
- The logger and every log call (actions/IA_scale.py:32-39 and elsewhere). This is file output with no effect on the outcome. Two log calls raise while their arguments are built, and both are modelled: the TypeError at line 183 and the NameError at line 242.
- Reading `settings.ini` and the `sys.exit(1)` when it is missing (actions/IA_scale.py:44-55). This is file I/O. User, password and timeout are inputs (`Handler.Config`). A non-integer timeout setting, which `int(...)` rejects, is not modelled.
- `json.load(sys.stdin)` and the `__main__` entry point (actions/IA_scale.py:162, 253-254). The payload comes already parsed (`Payload.Action`).
- JSON values of another shape than the datatypes give them. Every field is a string, and only `targetSE` and `entityType`, which the code reads with `.get`, may be absent. The code does the following with the cases left out:
  - A missing mandatory key raises KeyError, and `main` exits 1. Examples are `actionItem`, `entityProperties`, `newSE.id`, and `access_token`, `id` or `Status` in a 200 reply.
  - A null `access_token` or tenant `id` is read as `None`, and `main` returns 1 at line 219 or 223 without an exception. This is the same run as a refused reply.
  - A null or numeric `Status` equals neither "In Progress" nor "Active", so lines 245-247 set `exit_status` to 1 without an exception. This is the same run as any other settled status.
  - A null tag `value` overwrites its variable with `None` (lines 193, 196, 199), and also keeps the loop of lines 190-202 from breaking. A null `service_identifier` after a string one makes line 204 return 1. A null `turbonomic_instance_type` after a string one brings back "instance_type" at lines 210-211, and that run can still exit 0. On such inputs the code does not keep what `Tags.ScanFindsTag` and `Tags.DefaultInstanceTypeParameter` state about string values.
  - A null `targetSE` or `newSE.id` raises AttributeError at line 181 or 214, and `main` exits 1 before any request.
- Real time and `time.sleep` (actions/IA_scale.py:233, 237). `time_waited` is the only clock.
- `service_instance_name` is only logged. The model carries it in `Handler.Plan` but no property depends on it.
