# Data collector autoscaling lifecycle hook, modelled in Dafny

The project models the AWS Lambda function that runs a StreamSets Data
Collector (SDC) node's lifecycle against the Control Hub control plane.
`lambda_handler` logs in and dispatches on the event's `action`:

- `pre-start` issues one component token for the new node;
- `post-start` sets the node's ACL and labels, then asks the control plane
  to rebalance the jobs carrying those labels;
- `pre-stop` clears the node's labels, syncs its jobs away, waits until no
  non-local job runs on it, then deactivates and deletes its token and
  deletes the node.

## How the model works

- **The control plane is an oracle.** `sch_request` and `get_session_token`
  are foreign HTTP calls. Each becomes a function from the history of
  requests and the new request to a reply: `Oracle` and `Authenticator` in
  `control_plane.dfy`. Because a reply may depend on the history, successive
  polls of the same endpoint may answer differently.
- **Every request is logged.** One log holds every request issued, the login
  included. The protocol properties (order, stop at the first error, the
  request bodies) are stated over that log.
- **Statuses.** A handler ends with a `Status`:
  - `Done(value)` for `(None, value)`;
  - `Failed(error)` for `(error, response)`;
  - `Raised` where the Python code would raise because a reply had an
    unexpected shape, for example `response[0]['fullAuthToken']`,
    `job['id']`, or iterating `None`;
  - `Pending` (see below).
- **Error texts are non-empty.** `ErrorText` is a non-empty string, so the
  code's `if error:` and `if error is not None:` agree.
- **The drain wait is bounded in the model.** The `while True` wait of
  `pre_stop` has no bound in the code. The model gives it a number of polls.
  When those run out it reports `Pending`, and `lambda_handler` reports
  `StillDraining`. `DrainFuelMonotone` and `PreStopFuelMonotone` prove that
  the bound never changes a run that ended on its own.
- **Two forms of each handler:**
  - `protocol.dfy` and `dispatch.dfy` define the handlers as functions of the
    oracle and the log, and prove their protocol;
  - `lambda.dfy` holds the handlers as the code runs them: module-level
    methods that take a `Client` (whose `Send` and `Login` grow its log with
    each call) and modify it, with the label loop of `post_start` and the
    poll loop of `pre_stop`. The inner append loops of `post_start` and
    `get_jobs_by_sdcId` are the methods `AppendLabelJobs` and
    `CollectNonLocal` in `jobs.dfy`, which those methods call.
    Each method is proved to give exactly the status and the log of its
    function, so the protocol lemmas hold of the methods.
- **Files:**

  | file | contents |
  |---|---|
  | `outcomes.dfy` | statuses and error texts |
  | `json.dfy` | decoded JSON and Python truthiness |
  | `labels.dfy` | `str.split(',')` |
  | `jobs.dfy` | extracting job ids from replies |
  | `control_plane.dfy` | requests, replies, the oracles, the request log and the `Client` class |
  | `protocol.dfy` | `pre_start`, `post_start`, `pre_stop` and `get_jobs_by_sdcId` as functions, and their protocol lemmas |
  | `dispatch.dfy` | `lambda_handler` as a function, and its dispatch lemmas |
  | `lambda.dfy` | the handlers as imperative methods, proved equal to those functions |

## Model

| member | source | states |
|---|---|---|
| ControlPlane.StatusOf | autoscale/lambda/lambda_function.py:204-217 | `sch_request` reports the decoded body exactly when the call succeeded, and otherwise the call's own error; it never raises or stays pending |
| ControlPlane.Client.Send | autoscale/lambda/lambda_function.py:208 | a control-plane call appends its request to the log and returns the control plane's reply to it |
| ControlPlane.Client.Login | autoscale/lambda/lambda_function.py:55 | the login appends its request to the log and returns the authenticator's reply |
| Lambda.SchRequest | autoscale/lambda/lambda_function.py:204-217 | one request with the session token is logged, and the status is that request's reply as `sch_request` reports it |
| Lambda.GetSessionToken | autoscale/lambda/lambda_function.py:46-61 | one login POST with the user name and password and no session token is logged; the session token or the error is the authenticator's reply |
| Labels.Split | autoscale/lambda/lambda_function.py:104 | the split of a label string always has at least one element |
| Labels.SplitLength | autoscale/lambda/lambda_function.py:104 | the split has exactly one more element than the string has commas |
| Labels.SplitPieces | autoscale/lambda/lambda_function.py:104 | no element of the split contains a comma |
| Labels.JoinSplit | autoscale/lambda/lambda_function.py:104 | joining the split with ',' gives back the input string |
| Labels.SplitJoin | autoscale/lambda/lambda_function.py:104 | splitting a join of comma-free labels gives back those labels |
| Labels.SplitKeepsDuplicates | autoscale/lambda/lambda_function.py:104 | `"a,a,,b"` splits into `a`, `a`, the empty label and `b`: duplicates and empty labels are kept |
| Jobs.LabelJobIds | autoscale/lambda/lambda_function.py:123-124 | the ids one label query's reply yields, or None where iterating it or reading an entry's `id` raises; its meaning is stated by `Jobs.GatherIsFlatten` and `Jobs.AppendLabelJobs` |
| Jobs.NonLocalIds | autoscale/lambda/lambda_function.py:196-201 | the non-local job ids of a pipeline list, none for a falsy reply, or None where the loop raises; its meaning is stated by `Jobs.NonLocalMembers`, `Jobs.NoNonLocalJobs` and `Protocol.GetJobsProtocol` |
| Jobs.GatherIsFlatten | autoscale/lambda/lambda_function.py:123-124 | the loop over a reply's entries succeeds exactly when every entry can be handled, and then yields the contributions of the entries in order |
| Jobs.NonLocalMembers | autoscale/lambda/lambda_function.py:196-199 | an id is collected exactly when some entry has `localPipeline` false and that `jobId` |
| Jobs.NoNonLocalJobs | autoscale/lambda/lambda_function.py:196-201 | a falsy reply (None, empty list) or a list of local pipelines only gives no job ids |
| Jobs.AppendLabelJobs | autoscale/lambda/lambda_function.py:123-124 | appending a label query's `id`s to the ids so far yields the ids so far followed by that reply's ids, or raises when an entry has no `id` or the reply cannot be iterated |
| Jobs.CollectNonLocal | autoscale/lambda/lambda_function.py:196-201 | the filter loop yields the non-local job ids of the reply, or raises on an entry without `localPipeline` or a non-local entry without `jobId` |
| Protocol.GetJobs | autoscale/lambda/lambda_function.py:188-201 | `get_jobs_by_sdcId` as a function of the oracle and the log; its properties are stated by `Protocol.GetJobsProtocol` |
| Protocol.GetJobsProtocol | autoscale/lambda/lambda_function.py:188-201 | `get_jobs_by_sdcId` issues one GET of the node's pipelines; an error of the GET is returned with no list; a falsy reply gives []; a list whose entries can all be read gives Done, with, in reply order, the `jobId`s of exactly the entries whose `localPipeline` is false; it raises exactly on a truthy reply that is not such a list |
| Protocol.PreStart | autoscale/lambda/lambda_function.py:64-77 | `pre_start` as a function of the oracle and the log; its properties are stated by `Protocol.PreStartProtocol` |
| Protocol.PreStartProtocol | autoscale/lambda/lambda_function.py:64-77 | `pre_start` issues exactly one PUT to the components endpoint, with `numberOfComponents` 1 and `componentType` 'dc'; its error is returned unchanged, and on success the result is `response[0]['fullAuthToken']` |
| Protocol.LabelQueries | autoscale/lambda/lambda_function.py:117-119 | one job query per label, the i-th for the i-th label |
| Protocol.QueryLabels | autoscale/lambda/lambda_function.py:116-124 | the label loop of `post_start` as a function; its properties are stated by `Protocol.QueryLabelsOrder`, `Protocol.QueryLabelsCollects`, `Protocol.QueryLabelsStops` and `Protocol.QueryLabelsRaises` |
| Protocol.QueryLabelsOrder | autoscale/lambda/lambda_function.py:116-124 | the label loop issues a prefix of the label queries in label order, and all of them when it succeeds |
| Protocol.QueryLabelsCollects | autoscale/lambda/lambda_function.py:116-124 | a successful label loop yields the concatenation, in label order, of the ids each label query returned |
| Protocol.QueryLabelsStops | autoscale/lambda/lambda_function.py:116-124 | the label loop stops at its first failing query and returns that query's error |
| Protocol.QueryLabelsRaises | autoscale/lambda/lambda_function.py:116-124 | the label loop raises only on a label query's answered reply whose entries it cannot read, and that query is the last request it issued |
| Protocol.RebalanceOrder | autoscale/lambda/lambda_function.py:116-132 | the label queries are followed by one balanceJobs POST whose body is the concatenation of the queried ids, and completion returns "Success" |
| Protocol.PostStart | autoscale/lambda/lambda_function.py:80-132 | `post_start` as a function of the oracle and the log; its properties are stated by `Protocol.PostStartOrder`, `Protocol.PostStartStops` and `Protocol.PostStartRaises` |
| Protocol.PostStartOrder | autoscale/lambda/lambda_function.py:80-132 | `post_start` issues a prefix of: ACL POST, updateLabels POST with the split labels, one GET per label in label order, one balanceJobs POST with the concatenated ids without deduplication; completion issues all of it and returns "Success" |
| Protocol.PostStartStops | autoscale/lambda/lambda_function.py:80-132 | every request of `post_start` before the last was answered; if it failed, the last request issued is the failing one and its error is returned; if it raised, the last request issued is a label query whose answered reply cannot be read |
| Protocol.PostStartRaises | autoscale/lambda/lambda_function.py:116-124 | `post_start` raises only on a label query's answered reply whose entries it cannot read, and that query is the last request issued; the ACL, updateLabels and balanceJobs calls never raise |
| Protocol.Drain | autoscale/lambda/lambda_function.py:159-165 | the drain wait as a function, with a bound on the number of polls; its properties are stated by `Protocol.DrainProtocol`, `Protocol.DrainFuelMonotone` and `Protocol.DrainExample` |
| Protocol.DrainProtocol | autoscale/lambda/lambda_function.py:159-165 | the drain wait issues only pipeline polls; every poll but the last found jobs still running; the last one decides: an empty list ends the wait, an error is returned at once; the bound matters only when every poll found jobs |
| Protocol.DrainFuelMonotone | autoscale/lambda/lambda_function.py:159-165 | a drain wait that ended on its own ends the same way under any larger poll bound |
| Protocol.DrainExample | autoscale/lambda/lambda_function.py:159-165 | polls that find 3, 2, 2 and 0 jobs complete the wait after exactly four polls |
| Protocol.Teardown | autoscale/lambda/lambda_function.py:167-185 | the teardown of `pre_stop` as a function; its properties are stated by `Protocol.TeardownProtocol` |
| Protocol.TeardownProtocol | autoscale/lambda/lambda_function.py:167-185 | deactivate, then delete token, both POSTed with body `[sdcId]`, then DELETE of the node; they stop at the first error, and completion returns "Success" |
| Protocol.RetireOrder | autoscale/lambda/lambda_function.py:158-185 | after the polls, nothing of the teardown is issued unless the last poll found no jobs, and every earlier poll found some |
| Protocol.PreStop | autoscale/lambda/lambda_function.py:135-185 | `pre_stop` as a function of the oracle and the log; its properties are stated by `Protocol.PreStopOrder`, `Protocol.PreStopStops`, `Protocol.PreStopRaises`, `Protocol.PreStopPending` and `Protocol.PreStopFuelMonotone` |
| Protocol.PreStopOrder | autoscale/lambda/lambda_function.py:135-185 | `pre_stop` issues a prefix of: the initial job query, the updateLabels POST with no labels, syncJobs with the initially collected ids, the polls, deactivate, delete, DELETE; no teardown request precedes a poll that found no jobs; completion issues all of it and returns "Success" |
| Protocol.PreStopStops | autoscale/lambda/lambda_function.py:137-185 | any failure, a poll's included, returns that request's error at once, and no later request is issued; if it raised, the last request issued is a pipelines GET whose answered reply cannot be read |
| Protocol.PreStopRaises | autoscale/lambda/lambda_function.py:135-201 | `pre_stop` raises only on an answered pipeline list it cannot read, the initial query's or a poll's, and that GET is the last request issued; the updateLabels, syncJobs and teardown calls never raise |
| Protocol.PreStopPending | autoscale/lambda/lambda_function.py:158-185 | `pre_stop` ends Pending only when its wait issued every allowed poll and each of them still found jobs; so a poll that finds none is followed by the teardown, and with the stop and raise lemmas, a run whose DELETE was answered returns "Success" |
| Protocol.PreStopFuelMonotone | autoscale/lambda/lambda_function.py:159-165 | a `pre_stop` that ended on its own ends the same way under any larger poll bound |
| Lambda.PreStart | autoscale/lambda/lambda_function.py:64-77 | the imperative `pre_start` produces exactly the status and the log of `Protocol.PreStart` |
| Lambda.PostStart | autoscale/lambda/lambda_function.py:80-132 | the imperative `post_start`, with its `jobIds.append` loop, produces exactly the status and the log of `Protocol.PostStart` |
| Lambda.GetJobsBySdcId | autoscale/lambda/lambda_function.py:188-201 | the imperative `get_jobs_by_sdcId` produces exactly the status and the log of `Protocol.GetJobs` |
| Lambda.PreStop | autoscale/lambda/lambda_function.py:135-185 | the imperative `pre_stop`, with its `while True` poll loop, produces exactly the status and the log of `Protocol.PreStop` |
| Lambda.LambdaHandler | autoscale/lambda/lambda_function.py:12-43 | the imperative `lambda_handler` produces exactly the result and the log of `Dispatch.LambdaHandler` |
| Dispatch.LambdaHandler | autoscale/lambda/lambda_function.py:12-43 | `lambda_handler` as a function of the two oracles and the log; its properties are stated by the `Dispatch` lemmas below |
| Dispatch.Shape | autoscale/lambda/lambda_function.py:40-43 | the shaping of a handler's outcome into the returned dictionary; its meaning is stated by `Dispatch.ShapeMeaning` |
| Dispatch.MissingActionSendsNothing | autoscale/lambda/lambda_function.py:16-38 | without an `action` the result is the error "Action missing in request." and nothing is sent, not even the login |
| Dispatch.UnknownActionSendsNothing | autoscale/lambda/lambda_function.py:17-36 | an action other than pre-start, post-start and pre-stop gives "Action not implemented." without logging in |
| Dispatch.LoginComesFirst | autoscale/lambda/lambda_function.py:16-18 | an invocation only appends to the log; it sends something exactly when the action is one of the three lifecycle actions, and then the login comes first |
| Dispatch.LoginFailureShortCircuits | autoscale/lambda/lambda_function.py:18-20 | a failed login returns its error with the rendering of its response, and no handler request is issued |
| Dispatch.MissingFieldsRefused | autoscale/lambda/lambda_function.py:25-34 | a post-start without sdcId, labels or groups, or a pre-stop without sdcId, gets its fixed error message and nothing is sent after the login |
| Dispatch.ShapeMeaning | autoscale/lambda/lambda_function.py:40-43 | the result carries the error exactly when the handler failed, and otherwise the handler's response |
| Dispatch.DelegatesToHandler | autoscale/lambda/lambda_function.py:22-32 | after a successful login with the required fields present, the result is the selected handler run on the session token |

## Left out

- HTTP transport and JSON encoding are not modelled: `requests.request`
  and `requests.post`, `raise_for_status`, the headers, `json.dumps` and
  `json.loads`, and reading the `SS-SSO-LOGIN` cookie. Their result-or-error
  contract is the oracle.
- `str(r)` of a response object is kept as an abstract string that the
  authenticator supplies.
- Errors raised before `r` is bound are not modelled. In the `except` blocks
  of `get_session_token` and `sch_request`, `r` can be unbound, and the
  handler then raises `UnboundLocalError`. This is Python runtime behaviour,
  and the model always has a reply.
- An exception whose `str` is empty is not modelled: `ErrorText` is
  non-empty.
- `time.sleep(5)` and real time are not modelled; they leave no trace in the
  request log.
- The unbounded `while True` wait is bounded by a number of polls, and
  running out is reported as `Pending` / `StillDraining`. The code itself
  never gives up, so it has no such outcome. The fuel lemmas show that the
  bound does not change a run that ends.
- The module constants `ControlHubUrl`, `ControlHubOrg`, `ControlHubUser`
  and `ControlHubPassword` are passed in as a `Config`.
- The Lambda `context` argument is not modelled; it is unused.
- Events are modelled as maps from string keys to string values. Values of
  other types are not modelled.
- JSON numbers are integers; floating point is not modelled.
- Concurrency is not modelled. There is none within one invocation.
- A drain timeout error, cancellation of the wait and deduplication of job
  ids are not modelled, because the code has none of them: the wait has no
  deadline apart from the model's poll bound, and the ids are passed on with
  their duplicates.
