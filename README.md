# Request chains of Android.WebService.Lib, in Dafny

This project models the request-chain engine of the Android.WebService.Lib
library:

- **The chain manager, `CommChainManager`.** It keeps an ordered list of requests, a list of chain-completion subscribers and one of three run modes:
  - `SEQUENCE` starts the requests one by one and stops at the first failure;
  - `SEQUENCE_CONTINUE` starts them one by one whatever the results;
  - `OVERALL` starts every request at once.

  Each run gets a fresh completion aggregator (`IRequestComplete`). The manager installs that aggregator in every request. The aggregator ANDs the success flags together and counts the completions. When the count reaches the list size, it notifies every subscriber; otherwise it hands the count and the flag to the mode.
- **The request, `CommBaseRequest`.** It has a list of local completion observers, one chain-notification slot and `runCompleteAction`. That method calls the observers in order and then the chain slot.
- **The connection settings record, `CommStatusBase`.** It holds a URL, a data string and the HTTP type (`POST` or `GET`).

Layout:

| file | module | models |
|---|---|---|
| `wrappers.dfy` | `Wrappers` | `Option`: a Java reference that may be `null` |
| `comm_status.dfy` | `CommStatus` | `CommStatusBase` as the class `StatusBase` |
| `comm_request.dfy` | `CommRequest` | `CommBaseRequest` as the class `BaseRequest` |
| `chain_run.dfy` | `ChainRun` | the semantics of one run: modes, start, the aggregator step, the run invariant and whole-run theorems |
| `chain_manager.dfy` | `CommChain` | the aggregator `IRequestComplete` and `CommChainManager` as classes, proved against `ChainRun` |

**Completions are events.** Completions reach the aggregator one at a time, on the UI thread. So a run is a sequential state machine. `ChainRun.Run` holds the aggregator's two fields, `allSuccess` and `runIndex`, plus the run's history:
- the requests started, in call order;
- the requests in flight;
- the flags reported;
- the flags passed to the chain-completion notification.

`ChainRun.Complete(mode, n, r, i, ok)` is request `i`, which is in flight, reporting `ok`. `ChainRun.Inv` holds for every state reachable from `ChainRun.Begin`.

`CommChain.ChainManager` keeps the run history in ghost fields. Its invariant `Valid()` includes `ChainRun.Inv`. `RunRequestChain` and `RequestCompleted` state their effect exactly as `Begin` and `Complete` of the old state. Every theorem about `ChainRun` therefore applies to the class.

**Callbacks are handles.** Subscribers and observers are opaque `nat` handles. Calls to subscribers are appended to the ghost log `chainLog`. `RunCompleteAction` returns the calls it makes, in order, as a sequence of `Delivery` values.

The code and its comments disagree on one point. The default run mode is `SEQUENCE` (`CommChainManager.java:17`), while the comment on the enum says OVERALL (`CommChainManager.java:20`). The model follows the code.

## Model

| member | source | states |
|---|---|---|
| CommStatus.StatusBase.constructor | CommStatusBase.java:9-11 | a new record has URL "", data string "" and type HttpPost |
| CommStatus.StatusBase.GetRequestURL | CommStatusBase.java:31-33 | defines the URL sent: in the base record, the original URL (stated through SetOriginalURL) |
| CommStatus.StatusBase.GetPostString | CommStatusBase.java:39-41 | the base post string is always empty |
| CommStatus.StatusBase.GetDataString | CommStatusBase.java:55-57 | defines the data string as the record holds it (stated through SetDataString) |
| CommStatus.StatusBase.SetDataString | CommStatusBase.java:47-57 | the data string read back is the one set; nothing else changes |
| CommStatus.StatusBase.SetHttpType | CommStatusBase.java:63-81 | after setting type t, isHttpPost holds exactly when t is HttpPost and isHttpGet exactly when t is HttpGet; nothing else changes |
| CommStatus.StatusBase.IsHttpPost | CommStatusBase.java:71-73 | defines the POST test on the stored type (stated through SetHttpType and IsHttpGet) |
| CommStatus.StatusBase.IsHttpGet | CommStatusBase.java:71-81 | isHttpGet is always the complement of isHttpPost |
| CommStatus.StatusBase.SetOriginalURL | CommStatusBase.java:87-97 | after setting u, both getOriginalURL and getRequestURL return u; nothing else changes |
| CommStatus.StatusBase.GetOriginalURL | CommStatusBase.java:95-97 | defines the original URL as the record holds it (stated through SetOriginalURL) |
| CommRequest.BaseRequest.constructor | CommBaseRequest.java:21-25 | a new request has no local observers and an empty chain slot |
| CommRequest.BaseRequest.RunRequest | CommBaseRequest.java:40-43 | the start hook records one more start of this request and changes nothing else |
| CommRequest.BaseRequest.AddCompleteNotify | CommBaseRequest.java:50-55 | null leaves the observer list unchanged; otherwise the observer is appended at the end, earlier entries kept in order |
| CommRequest.BaseRequest.ResetCompleteNotify | CommBaseRequest.java:60-62 | the observer list becomes empty; the chain slot is untouched |
| CommRequest.BaseRequest.SetRequestChainFinalNotify | CommBaseRequest.java:69-71 | the chain slot is overwritten with the new listener; the observer list is untouched |
| CommRequest.BaseRequest.RunCompleteAction | CommBaseRequest.java:79-90 | every local observer is called in registration order, then the chain slot exactly once if it is set, all with the flag passed in; no state changes, so the observers persist |
| ChainRun.BeginStarts | CommChainManager.java:75-118 | defines onStartRunRequestChain: SEQUENCE and SEQUENCE_CONTINUE start request 0 only, OVERALL every request in list order |
| ChainRun.Begin | CommChainManager.java:213-220 | defines a fresh run: the mode's first starts in flight, a new aggregator with flag true and count 0, nothing reported or fired |
| ChainRun.OnSingle | CommChainManager.java:80-122 | defines onRunSingleRequestComplete of each mode as a decision: start a request, fire the chain notification, or wait |
| ChainRun.OnSingleCases | CommChainManager.java:80-122 | only the sequential modes start a request, only request next and only if next < size (SEQUENCE after a success only); only SEQUENCE fires early, after a failure and with false; OVERALL always waits |
| ChainRun.Record | CommChainManager.java:143-144 | defines the aggregator's bookkeeping: AND the flag in, count the completion, the request leaves flight |
| ChainRun.React | CommChainManager.java:146-151 | defines what follows the bookkeeping: fire with the AND at count >= size, else the mode's decision |
| ChainRun.ReactKeepsRecord | CommChainManager.java:146-151 | the reaction never changes the flag, the count or the reported flags |
| ChainRun.ReactStartsOrFires | CommChainManager.java:146-151 | a reaction starts at most one request or fires at most once, never both |
| ChainRun.Complete | CommChainManager.java:141-152 | defines onRequestComplete as bookkeeping followed by the reaction |
| ChainRun.CompleteSteps | CommChainManager.java:141-152 | one step appends the flag to the reported ones, keeps the count equal to their number and the flag equal to their AND, takes the request out of flight unless the mode restarts it, fires with the AND exactly when the count reaches the size, and otherwise fires only on a SEQUENCE failure |
| ChainRun.BeginEstablishes | CommChainManager.java:213-220 | a fresh run (count 0, flag true, the mode's first starts) satisfies the run invariant |
| ChainRun.SequenceCompletePreserves | CommChainManager.java:72-90 | in SEQUENCE mode a completion keeps the invariant: all flags but the last are true, at most request k is in flight, the notification fired once with the AND exactly when the run is over |
| ChainRun.ContinueCompletePreserves | CommChainManager.java:95-108 | in SEQUENCE_CONTINUE mode a completion keeps the invariant: requests 0..k started in order, only k in flight, the notification fired once with the AND after the last one |
| ChainRun.OverallCompletePreserves | CommChainManager.java:113-122 | in OVERALL mode a completion keeps the invariant: every request started in list order, one fewer in flight, the notification fired once with the AND after the last |
| ChainRun.CompletePreserves | CommChainManager.java:140-152 | every aggregator step on a request in flight keeps the run invariant, whatever the mode |
| ChainRun.FiresAtMostOnce | CommChainManager.java:140-152 | in every reachable run state the notification has fired at most once, and after it fired nothing is in flight |
| ChainRun.IdleRunFiredOnce | CommChainManager.java:113-152 | a run with nothing in flight has fired exactly once, with the AND of every reported flag, except an OVERALL run over an empty list, which never fires |
| ChainRun.SequenceStopsAtFailure | CommChainManager.java:80-84 | in SEQUENCE mode a failure is the last completion: the requests after it were never started, nothing is in flight, the notification fired once with false |
| ChainRun.DriveReachesIdle | CommChainManager.java:140-152 | driving a sequential run to completion keeps the invariant and ends with nothing in flight |
| ChainRun.SequenceRunStopsAtFirstFailure | CommChainManager.java:72-90 | a whole SEQUENCE run whose first failure is at k starts exactly requests 0..k, in order, and fires once with false |
| ChainRun.SequenceRunAllSucceed | CommChainManager.java:72-90 | a whole SEQUENCE run in which every request succeeds starts every request in order and fires once with true |
| ChainRun.ContinueRunStartsAll | CommChainManager.java:95-108 | a whole SEQUENCE_CONTINUE run starts every request exactly once, in order, sees every flag, and fires once with the AND of all flags |
| ChainRun.OverallDriveRecords | CommChainManager.java:113-152 | OVERALL completions in any order never start a request and append the flags in completion order |
| ChainRun.OverallDriveCompletes | CommChainManager.java:113-152 | OVERALL completions of distinct requests in flight keep the run invariant, and every request that leaves flight is one of them |
| ChainRun.OverallRunCovers | CommChainManager.java:113-152 | a completion order of as many distinct requests as the list names every request |
| ChainRun.ReportsAllSucceeded | CommChainManager.java:141-147 | flags reported in an order that covers every request AND to the same value as the outcomes |
| ChainRun.OverallRunFiresAnd | CommChainManager.java:113-152 | a whole OVERALL run, whatever the completion order, starts every request once in list order, leaves nothing in flight, reports each outcome once in completion order, and fires once with the AND of all outcomes (never over an empty list) |
| CommChain.Broadcast | CommChainManager.java:193-197 | the notification loop makes one call per subscriber, in registration order, each with the same flag |
| CommChain.BroadcastSnoc | CommChainManager.java:193-197 | a subscriber added last is called last |
| CommChain.StartsOf | CommBaseRequest.java:40-43 | counts the starts of one request object among a sequence of list positions; never more than the positions |
| CommChain.Aggregator.constructor | CommChainManager.java:128-138 | a new aggregator has flag true and count 0 |
| CommChain.Aggregator.OnRequestComplete | CommChainManager.java:140-152 | the flag becomes flag AND ok and the count grows by one; at count >= size the subscribers are to be notified with the flag, otherwise the mode gets (count, ok) |
| CommChain.ChainManager.constructor | CommChainManager.java:15-17 | a new manager has no requests, no subscribers, mode SEQUENCE and no run |
| CommChain.ChainManager.SetMode | CommChainManager.java:164-176 | the mode is replaced; the latest run's state is untouched, so the new mode affects only later runs |
| CommChain.ChainManager.AddRequestChainCompleteNotify | CommChainManager.java:182-187 | null is ignored; otherwise the subscriber is appended without deduplication |
| CommChain.ChainManager.RunRequestChainCompleteNotify | CommChainManager.java:193-197 | every subscriber is called once, in registration order, with the flag |
| CommChain.ChainManager.AddRequest | CommChainManager.java:203-208 | null is ignored; otherwise the request is appended at the end, earlier entries kept in order |
| CommChain.ChainManager.StartRequest | CommChainManager.java:86-88 | request k is started once more and recorded as started and in flight; each listed request's start count grows by the number of times it sits at position k |
| CommChain.ChainManager.StartChain | CommChainManager.java:75-118 | SEQUENCE and SEQUENCE_CONTINUE start only request 0; OVERALL starts every request in list order; every listed request's start count grows by the number of started positions that hold it |
| CommChain.ChainManager.OnRunSingleRequestComplete | CommChainManager.java:80-122 | SEQUENCE fires false after a failure and otherwise starts the next request if it exists; SEQUENCE_CONTINUE starts the next request if it exists; OVERALL does nothing; a request's start count grows only if it sits at the position started |
| CommChain.ChainManager.InstallAggregator | CommChainManager.java:215-218 | the same aggregator becomes the chain slot of every request in the list |
| CommChain.ChainManager.RunRequestChain | CommChainManager.java:213-220 | a fresh aggregator is installed in every request and the run state is exactly the mode's start, so the run invariant holds; every listed request's start count grows by the number of started positions that hold it |
| CommChain.ChainManager.Dispatch | CommChainManager.java:146-151 | the aggregator's decision is carried out: at count >= size every subscriber gets the AND once, otherwise the mode reacts to (count, ok); start counts grow only for the position the mode starts |
| CommChain.ChainManager.CompleteAction | CommBaseRequest.java:79-90 | a completing request calls its observers and then the installed aggregator; the run advances by exactly one aggregator step and subscribers are called only when it fires; start counts grow only for the position the step starts |
| CommChain.ChainManager.RequestCompleted | CommChainManager.java:140-152 | a completion of a request in flight advances the run by one aggregator step and keeps the run invariant; start counts grow only for a request the step starts |

## Left out

- The network and platform code is not part of this model:
  - the `AsyncTask` task classes under `task/`;
  - `CommRequestJsonMsg` and `CommRequestGetUrlBitmap`;
  - `CommProgressDialog`, with its UI and `Thread.sleep` timer;
  - the `Log` calls.

  A concrete request is only its start hook, `RunRequest`, plus a call of `RunCompleteAction` when its work is done.
- Real concurrency is not modelled. Completions arrive one at a time, as they do on the UI thread.
- Subscriber and observer callbacks have no effects of their own. A callback that calls back into the manager is outside the model.
- CommChain.ChainManager.SetMode: it requires that no request is in flight. The code allows switching modes mid-run, and a mode switched mid-run can start a request that is still running.
- CommChain.ChainManager.AddRequest: it requires that no request is in flight. In the code, a request appended mid-run changes the list size the aggregator compares against.
- CommChain.ChainManager.RunRequestChain: it requires that no request is in flight. It also requires a non-empty list in the sequential modes; there the code reads element 0 without a guard and would throw. Starting a second run over a run in flight is not modelled.
- CommChain.ChainManager.RequestCompleted: only a request in flight can complete, and a completion is identified by its position in the list. The following are not modelled:
  - a request completing twice;
  - a request completing without having been started;
  - the same request object listed twice.
- CommChain.Aggregator.OnRequestComplete: it returns its decision to the manager instead of calling `runRequestChainCompleteNotify` or the mode itself. The manager's `Dispatch` makes exactly those calls.
- CommStatus.StatusBase.SetHttpType: a `null` type is not modelled. With a `null` type, `isHttpPost` and `isHttpGet` would both be false.
- The `null` test inside the observer loop of `runCompleteAction` is not modelled. `addCompleteNotify` never stores `null`, so the test cannot fail.
- The aggregator's count is a Java `int`; here it is a `nat`. It never exceeds the list size, so 32-bit overflow cannot occur.
