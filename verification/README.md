# onpremless command-line client: wizards, screens, poller and lambda operations

This project models the core of the `onpremless` command-line client in Dafny. The client manages
lambdas, endpoints and runtimes on an on-premises serverless server. The model covers:

- **The three create wizards** (lambda, endpoint, runtime). Each is a terminal state machine.
  - Its update function is a pure `Step(model, msg) -> (model, commands)`.
  - `IncStep` is the wizard's "advance while the current step's precondition holds" ladder.
  - The transcript is the log of completed steps shown above the active widget.
  - Commands (remote calls, spinner ticks, quitting) are data. Their answers come back as later
    messages.
- **The five one-shot screens**: lambda start, lambda destroy, and the lambda, endpoint and runtime
  lists. Each issues one remote call and waits for its response or for Ctrl+C. They share the
  generic `OneShot` module.
- **The task poller**. A server-side task is queried until its status is anything but `PENDING`,
  with a one-second sleep after each pending answer. It is modelled over an oracle sequence of
  answers and counts its queries and sleeps.
- **The lambda operations**: create (upload, then register), start and destroy (start a task,
  poll it, interpret its status), and deploy (create, then start). Every remote answer comes from
  an oracle record, and each operation returns its call log.
- **The `lambda` and `endpoint` command glue**:
  - the capabilities that turn operation results into response messages;
  - seeding a create wizard from flags and arguments, including resolving a runtime or lambda id
    before the wizard starts;
  - deploy's sequencing of the create wizard and the start screen.

Widgets are opaque. A text input is represented by the text it holds when Enter is pressed, a
selection list by its cursor, and the spinner and input views by the strings passed in
`WidgetViews`. The JSON pretty-printer is an uninterpreted function parameter `pretty`.

Files:

| file | contents |
|---|---|
| `api.dfy` | `Option`, `Result`, the API records |
| `messages.dfy` | messages, commands, response records |
| `lambda_create.dfy` | the lambda-create wizard |
| `endpoint_create.dfy` | the endpoint-create wizard |
| `runtime_create.dfy` | the runtime-create wizard |
| `one_shot.dfy` | the shared one-shot screen |
| `lambda_start.dfy`, `lambda_destroy.dfy`, `lambda_list.dfy`, `endpoint_list.dfy`, `runtime_list.dfy` | the five screens |
| `poller.dfy` | the task poller |
| `lambda_ops.dfy` | the lambda operations |
| `lambda_cli.dfy`, `endpoint_cli.dfy` | the command glue |

Some texts are kept exactly as the code writes them:

- The list screens' error views read "Failed to create lambda/endpoint/runtime: ".
- The endpoint wizard's "Path:" transcript line shows the chosen lambda's name, not the path.
- The second lambda type's display name is "Intenal".

Exit codes follow the code. Only three things exit with status 1:

- a failed runtime or lambda lookup before a wizard starts;
- deploy when the create wizard ends on the create response and that response carries no lambda;
- an event-loop error, which is not modelled.

A create or start that fails inside its wizard or screen therefore exits 0, with the failure
printed. Deploy whose create wizard ends any other way (Ctrl+C, Esc, or a runtime list that failed
or came back empty) does not exit with 1: the conversion of the wizard's final model to the pointer
type panics, because only the ladder hands back a pointer. The model keeps this as the `Crash`
outcome; see "## Findings".

## Model

| member | source | states |
|---|---|---|
| LambdaCreate.IncStepLadder | tui/lambda/create.go:260-312 | the ladder climbs while the current rung's precondition holds and stops exactly at the first step whose precondition fails; every rung passed had its precondition met; only the step and transcript change; the transcript gains exactly the passed rungs' lines; the commands returned are the last rung's alone (earlier rungs' are dropped), or the caller's when no rung fired |
| LambdaCreate.Step | tui/lambda/create.go:121-149 | the step never goes back and the transcript only grows; Ctrl+C quits with the state unchanged; Esc on the name, runtime-selection or type step quits unchanged; before the start message nothing but Ctrl+C has an effect; an advance emits the commands of the rung it ended on; the name changes only by Enter on the name step |
| LambdaCreate.InitSatisfiesInv | tui/lambda/create.go:88-119 | a freshly seeded wizard satisfies the wizard invariant |
| LambdaCreate.IncStepEstablishesInv | tui/lambda/create.go:260-312 | running the ladder from a state whose passed rungs all had their preconditions met gives a state satisfying the invariant: all passed preconditions hold, the current one does not, a runtime is chosen past the selection step, and a loaded runtime list is non-empty |
| LambdaCreate.StepPreservesInv | tui/lambda/create.go:121-312 | every update keeps the invariant, so the step only ever stands where the source's precondition for leaving it fails |
| LambdaCreate.SuppliedFieldsGoStraightToCreate | tui/lambda/create.go:260-297 | with name, runtime and type supplied, the start message alone reaches the submit step, records the name, runtime and type lines, and emits exactly the create call (with the runtime's id and the path) and a tick, never the runtime-list request |
| LambdaCreate.ListRequestedOnlyOnEnteringLoad | tui/lambda/create.go:266-272 | the runtime list is requested if and only if a transition moves from below the loading step onto it |
| LambdaCreate.SuppliedRuntimeNeverListed | tui/lambda/create.go:266-290 | with a runtime given, no update removes it and none requests the runtime list |
| LambdaCreate.QuitsOutsideLadder | tui/lambda/create.go:121-258 | the update quits without going through the ladder exactly on Ctrl+C, on Esc at the name, runtime-selection or type step, and on a runtime list that failed or came back empty; no transition outside the ladder moves the step |
| LambdaCreate.EmptyNameStays | tui/lambda/create.go:214-229 | Enter with an empty name input stays on the name step with no commands |
| LambdaCreate.RuntimeListOutcome | tui/lambda/create.go:173-195 | a list error appends "Failed to load runtimes: ..." and quits; an empty list appends "No runtimes was found" and quits without advancing; otherwise the list is kept, marked loaded, and the wizard moves to the selection, filling the list widget |
| LambdaCreate.SelectionRecordsHighlightedEntry | tui/lambda/create.go:197-246 | Enter on the runtime list chooses the runtime under the cursor; on the type list it chooses "ENDPOINT" or "INTERNAL" by the cursor; both advance |
| LambdaCreate.CreateResponseEndsFlow | tui/lambda/create.go:299-320 | the create response moves to the done step, emits only Quit, and appends "Failed to create lambda: ..." or the printed lambda; `GetLambda` then reports the response's lambda |
| LambdaCreate.ViewShowsTranscript | tui/lambda/create.go:151-171 | every step but the two selection lists starts its view with the transcript; the runtime-selection step shows the runtime list alone and the type step the type list alone; the finished view is the transcript followed by a newline, or nothing when the transcript is empty |
| LambdaCreate.SuppliedNameSkipsNameInput | tui/lambda/create.go:261-272 | once started, a wizard with a supplied name never stands on the name input |
| LambdaCreate.RunMonotone | tui/lambda/create.go:121-312 | over any sequence of deliverable messages the step never goes back, the transcript only grows, and the invariant holds |
| EndpointCreate.Eligible | tui/endpoint/create.go:159-163 | the kept lambdas are exactly the ENDPOINT lambdas of the response |
| EndpointCreate.EligibleKeepsOrder | tui/endpoint/create.go:159-163 | filtering keeps list order: filtering two consecutive pieces yields the first piece's eligible lambdas followed by the second's |
| EndpointCreate.IncStepLadder | tui/endpoint/create.go:242-295 | the same ladder properties as the lambda wizard, over name, lambda loading, selection, path and submit rungs |
| EndpointCreate.Step | tui/endpoint/create.go:100-127 | the step never goes back and the transcript only grows; Ctrl+C quits unchanged; Esc on the name, selection or path step quits unchanged; before the start message nothing but Ctrl+C has an effect; an advance emits the commands of the rung it ended on |
| EndpointCreate.InitSatisfiesInv | tui/endpoint/create.go:76-98 | a freshly seeded wizard satisfies the wizard invariant |
| EndpointCreate.IncStepEstablishesInv | tui/endpoint/create.go:242-295 | running the ladder from a state whose passed rungs had their preconditions met gives a state satisfying the invariant |
| EndpointCreate.StepPreservesInv | tui/endpoint/create.go:100-295 | every update keeps the invariant |
| EndpointCreate.LambdaListOutcome | tui/endpoint/create.go:151-177 | a list error appends "Failed to load lambdas: ..." and quits; a list without ENDPOINT lambdas appends "No suitable lambdas was found" and quits without advancing; otherwise exactly the ENDPOINT lambdas, in order, are offered |
| EndpointCreate.SuppliedLambdaSkipsList | tui/endpoint/create.go:256-272 | with a lambda given, the wizard never stands on the loading or selection step and never requests the lambda list; reaching the path step emits only the path input's focus commands |
| EndpointCreate.SelectionRecordsHighlightedLambda | tui/endpoint/create.go:179-194 | Enter on the selection list chooses the lambda under the cursor and advances |
| EndpointCreate.PathSubmitsCreate | tui/endpoint/create.go:274-280 | an empty path stays with no commands; a non-empty one moves to the submit step, appends "Path: " with the lambda's name, and emits the create call with name, path and lambda id, plus a tick |
| EndpointCreate.CreateResponseEndsFlow | tui/endpoint/create.go:282-291 | the create response moves to the done step, emits only Quit, and appends "Failed to create endpoint: ..." or the printed endpoint |
| EndpointCreate.ViewShowsTranscript | tui/endpoint/create.go:129-149 | every step but the selection list starts its view with the transcript; the selection step shows the lambda list alone; the finished view is the transcript followed by a newline, or nothing when the transcript is empty |
| EndpointCreate.RunMonotone | tui/endpoint/create.go:100-295 | over any sequence of deliverable messages the step never goes back, the transcript only grows, and the invariant holds |
| RuntimeCreate.IncStep | tui/runtime/create.go:135-164 | the ladder stops exactly where a precondition fails; the init rung starts the transcript afresh with "Path: " and the path; later rungs only append; the commands are the last rung's: the name input's focus commands, the create call with name and path plus a tick, or Quit |
| RuntimeCreate.Step | tui/runtime/create.go:70-88 | the step never goes back; Ctrl+C quits unchanged; Esc on the name step quits unchanged; before the start message and after the done step nothing changes the state |
| RuntimeCreate.InitSatisfiesInv | tui/runtime/create.go:54-68 | a freshly seeded wizard satisfies the wizard invariant |
| RuntimeCreate.StepPreservesInv | tui/runtime/create.go:70-164 | every update keeps the invariant, the step never exceeds 3, and the transcript only grows |
| RuntimeCreate.StartWritesPathLine | tui/runtime/create.go:136-140 | the start message without a name sets the transcript to exactly "Path: " and the path and stops on the focused name input |
| RuntimeCreate.NameSubmitsCreate | tui/runtime/create.go:106-121 | Enter with an empty name stays with no commands; a non-empty name moves to the loading step, appends the name line, and emits the create call with name and path plus a tick |
| RuntimeCreate.CreateResponseEndsFlow | tui/runtime/create.go:150-160 | the create response moves to step 3, emits only Quit, and appends "Failed to create runtime: ..." or the printed runtime |
| RuntimeCreate.ViewJoinsTranscript | tui/runtime/create.go:90-104 | a non-empty transcript is followed by a blank line before the active area; the active area is empty once the flow is over |
| OneShot.Update | tui/lambda/start.go:46-61 | Quit is emitted exactly for a response or Ctrl+C; the recorded response changes only to a delivered response; everything else goes to the spinner |
| OneShot.RunRecordsFirstResponse | tui/lambda/start.go:46-61 | over any message stream, the first message not meant for the spinner decides the outcome: a response there is recorded, and Ctrl+C there (or no such message) leaves the starting value |
| OneShot.RunRecordsOnlyDelivered | tui/lambda/start.go:53-55 | a run only ever records a response that one of its messages carried |
| OneShot.Render | tui/lambda/start.go:63-74 | the view ends in a newline exactly when a response is recorded; otherwise it is the spinner and its caption |
| LambdaStart.Init | tui/lambda/start.go:42-44 | the screen starts with nothing recorded and emits the start call for its lambda id and a tick |
| LambdaStart.Update | tui/lambda/start.go:46-61 | a start response is recorded and quits; Ctrl+C quits with nothing recorded; everything else goes to the spinner |
| LambdaStart.View | tui/lambda/start.go:63-74 | "... Starting lambda..." while waiting; "Failed to start lambda: " and the error, or the printed lambda, each followed by a newline |
| LambdaStart.RunScreen | tui/lambda/start.go:46-61 | a run records only a delivered start response |
| LambdaStart.RunRecordsResponse | tui/lambda/start.go:48-55 | the first start response is recorded when no Ctrl+C precedes it |
| LambdaStart.InterruptRecordsNothing | tui/lambda/start.go:48-51 | a Ctrl+C before any start response leaves nothing recorded |
| LambdaDestroy.Init | tui/lambda/destroy.go:39-41 | the screen emits the destroy call for its lambda id and a tick |
| LambdaDestroy.Update | tui/lambda/destroy.go:43-58 | a destroy response is recorded and quits; Ctrl+C quits with nothing recorded |
| LambdaDestroy.View | tui/lambda/destroy.go:60-70 | "Failed to destroy lambda: " and the error, or "Lambda has been destroyed", each followed by a newline |
| LambdaDestroy.RunRecordsResponse | tui/lambda/destroy.go:46-52 | the first destroy response is recorded when no Ctrl+C precedes it |
| LambdaDestroy.InterruptRecordsNothing | tui/lambda/destroy.go:46-48 | a Ctrl+C before any destroy response leaves nothing recorded |
| LambdaList.Init | tui/lambda/list.go:41-43 | the screen emits the lambda-list call and a tick |
| LambdaList.Update | tui/lambda/list.go:45-60 | a list response is recorded and quits; Ctrl+C quits with nothing recorded |
| LambdaList.View | tui/lambda/list.go:62-73 | "... Query lambdas..." while waiting; "Failed to create lambda: " and the error, or the printed list, each followed by a newline |
| LambdaList.RunRecordsResponse | tui/lambda/list.go:48-54 | the first list response is recorded when no Ctrl+C precedes it |
| EndpointList.Init | tui/endpoint/list.go:41-43 | the screen emits the endpoint-list call and a tick |
| EndpointList.Update | tui/endpoint/list.go:45-60 | a list response is recorded and quits; Ctrl+C quits with nothing recorded |
| EndpointList.View | tui/endpoint/list.go:62-73 | "... Query endpoints..." while waiting; "Failed to create endpoint: " and the error, or the printed list, each followed by a newline |
| EndpointList.RunRecordsResponse | tui/endpoint/list.go:48-54 | the first list response is recorded when no Ctrl+C precedes it |
| RuntimeList.Init | tui/runtime/list.go:41-43 | the screen emits the runtime-list call and a tick |
| RuntimeList.Update | tui/runtime/list.go:45-60 | a list response is recorded and quits; Ctrl+C quits with nothing recorded |
| RuntimeList.View | tui/runtime/list.go:62-73 | "... Query runtimes..." while waiting; "Failed to create runtime: " and the error, or the printed list, each followed by a newline |
| RuntimeList.RunRecordsResponse | tui/runtime/list.go:48-54 | the first list response is recorded when no Ctrl+C precedes it |
| Poller.PollTask | ops/common.go:58-73 | the poll ends at the first answer that is an error or any status other than exactly "PENDING"; with k pending answers before it there are k+1 queries and k sleeps; an error is wrapped as "error when calling `TaskApi.GetTask``: ..."; all-pending answers leave the poll still running |
| Poller.PollLoop | ops/common.go:58-73 | the query-sleep loop computes exactly the poll `PollTask` describes |
| Poller.PollSkipsPending | ops/common.go:59-72 | pending answers at the front each add one query and one sleep and change nothing else |
| Poller.FirstSettledAnswerDecides | ops/common.go:63-69 | the first settled answer decides the outcome, and later answers are never asked for |
| Poller.FailedAfterTwoPending | ops/common.go:58-73 | PENDING, PENDING, FAILED gives three queries, two sleeps, and the FAILED status |
| LambdaOps.GetLambda | ops/lambda.go:41-50 | the lookup's lambda passes through; its error is wrapped as "error when calling `LambdaApi.GetLambda``: ..." |
| LambdaOps.ListLambdas | ops/lambda.go:52-61 | the list passes through; its error is wrapped |
| LambdaOps.CreateLambda | ops/lambda.go:17-39 | a failed upload returns its error and no create call is made; otherwise the create call carries name, runtime, type and the upload id as archive, and its error is wrapped with the server's error detail |
| LambdaOps.StartLambda | ops/lambda.go:63-81 | a failed start call returns at once without polling; a poll error passes unchanged; "FAILED" gives "error when starting lambda: " and the detail, with no lookup; any other settled status returns the lookup of the lambda, which happens exactly then |
| LambdaOps.DestroyLambda | ops/lambda.go:83-101 | the same shape as start; any settled status other than "FAILED" is success |
| LambdaOps.DeployLambda | ops/lambda.go:103-110 | the create's calls come first; a failed create ends deploy with its error; after a successful create, deploy answers exactly what the start of the created lambda answers; a start call is made if and only if the create succeeded, and it names the created lambda's id |
| LambdaOps.StartCallsOnlyFirst | ops/lambda.go:63-81 | a start's call log names its start call once, for its own id |
| Messages.Split | cmd/lambda.go:39-44 | a response record carries the operation's value or its error, exactly one of them |
| LambdaCli.CreateCapability | cmd/lambda.go:31-46 | the create response carries the create operation's lambda or error verbatim |
| LambdaCli.ListCapability | cmd/lambda.go:48-59 | the list response carries the list operation's lambdas or error verbatim |
| LambdaCli.StartCapability | cmd/lambda.go:61-72 | the start response carries the start operation's lambda or error verbatim; nothing arrives while the task is still polled |
| LambdaCli.DestroyCapability | cmd/lambda.go:74-84 | the destroy response carries the destroy operation's error verbatim |
| LambdaCli.CreateProgram | cmd/lambda.go:86-107 | exits with 1 and "Failed to get runtime: ..." exactly when a runtime flag is given and its lookup fails; otherwise seeds the wizard with the flags' name and type, the first argument as path, and the looked-up runtime only when the flag is set |
| LambdaCli.DeployStart | cmd/lambda.go:171-183 | the process crashes with a panic exactly when the create wizard's last transition did not go through the ladder; otherwise a start screen is launched exactly when the wizard ended with a lambda, for that lambda's id, and the process exits with 1 when it did not |
| LambdaCli.DeployStartIntended | cmd/lambda.go:172-176 | never crashes; a start screen for the created lambda's id exactly when the wizard ended with a lambda, and exit 1 otherwise, however the wizard ended |
| LambdaCli.DeployStartMatchesIntent | cmd/lambda.go:171-176 | when the last transition went through the ladder the code and its intent give the same outcome; otherwise the code crashes where the intent does not |
| LambdaCli.AbandonedDeployCrashes | cmd/lambda.go:171 | Ctrl+C, Esc on the name, runtime-selection or type step, and a failed or empty runtime list each quit the create wizard with the create response untouched, and deploy then crashes; without a create response the intent was exit 1 |
| LambdaCli.EscapedDeployCrashes | cmd/lambda.go:164-175 | `lambda deploy ./fn` with nothing supplied, abandoned with Esc on the name input, quits the wizard and crashes, where exit 1 was intended |
| LambdaCli.DeployStartsCreatedLambda | cmd/lambda.go:164-183 | the create response that ends the create wizard goes through the ladder, so the code and its intent agree, and it decides deploy: no lambda means exit 1, otherwise the start screen for the created lambda's id |
| LambdaCli.FailedCreateNeverStarts | cmd/lambda.go:164-183 | a failed create operation never leads to a start screen; a successful one leads to one for the id the server gave |
| LambdaCli.CreateScenario | cmd/lambda.go:86-119 | `lambda create ./fn --name foo --runtime py --type ENDPOINT` with a successful create ends the transcript with the printed lambda |
| LambdaCli.StartFailureScenario | cmd/lambda.go:141-157 | `lambda start l1`, with the task pending once and then FAILED with detail "boom", shows "Failed to start lambda: error when starting lambda: boom" |
| EndpointCli.CreateCapability | cmd/endpoint.go:30-45 | the request's name, path and lambda fields are the wizard's; the response carries the operation's endpoint or error verbatim |
| EndpointCli.ListCapability | cmd/endpoint.go:47-58 | the list response carries the list operation's endpoints or error verbatim |
| EndpointCli.CreateProgram | cmd/endpoint.go:60-85 | the path argument is optional, defaulting to ""; exits with 1 and "Failed to get lambda: ..." exactly when a lambda id is given and its lookup fails; otherwise seeds name, path and the looked-up lambda |
| EndpointCli.MissingPathIsAskedFor | cmd/endpoint.go:64-85 | with a name and lambda given but no path argument, the wizard goes straight to the focused path input |

## Left out

- Terminal widgets: text inputs, lists, the spinner, window-size messages and the `docStyle` margins are not modelled. A widget's own update becomes the `Forward` command, and its rendering is a given string.
- JSON printing: `json.MarshalIndent` is the uninterpreted function `pretty`, and its error is ignored, as in the source.
- Concurrency: commands are data, and the event loop is modelled only as in-order delivery up to the first Quit.
- Printing and `os.Exit` become `Exit` values.
- The event loop's own errors ("Error: ..." with exit 1) are not modelled.
- File upload and archiving (`upload`, `tarPath`) and the HTTP client setup are not modelled. The upload's result is an oracle answer.
- ops/runtime.go, ops/endpoint.go, cmd/runtime.go and cmd/root.go are not part of this model. Their calls appear only as oracle answers: the runtime lookup, the endpoint create and list, and the runtime list. The runtime commands' capabilities are also left out.
- Poller.PollTask: the source polls without any attempt cap. The model reads a finite answer sequence and ends in `StillPending` when the sequence runs out while the task is still pending.
- LambdaOps.StartLambda: a poll that is still pending is reported as `StillWaiting` rather than never returning. LambdaOps.DestroyLambda and LambdaOps.DeployLambda do the same.
- LambdaOps.CreateLambda: the server's error detail is an oracle string. The source decodes it from the response body; the case where the response itself is missing, where the source would crash, is not modelled.
- Api.TaskStatus: only the printed form of `details["error"]` is kept, as an oracle string, because the details map's value type belongs to the generated API client.
- LambdaCreate.Run: it is a ghost function over deliverable message sequences. A message whose list cursor is out of range would crash the source, and such messages are excluded. EndpointCreate.Run does the same.
- Response messages always carry a response. The source's response pointers could in principle be nil, but its capabilities never send a nil one.
- The commands that only seed a one-shot screen (`lambda start`, `destroy` and `list`, `endpoint list`) are represented by their screens' `Init`.

## Findings

| source | as written | input that shows it | evidently intended | confidence | as-written member | corrected member |
|---|---|---|---|---|---|---|
| cmd/lambda.go:171-175 | the create program's final model is converted to `*lambda.LambdaCreateModel`, but only the ladder (`incStep`, pointer receiver) returns a pointer; every other return of the value-receiver update hands back the value, so the conversion panics | `lambda deploy ./fn`, then Esc on the name input (likewise Ctrl+C at any step, or a failed or empty runtime list) | the nil check right after it, with its comment that the error is already on screen, shows that a create flow ending without a lambda was meant to exit with 1 | medium; not executed | LambdaCli.DeployStart, with LambdaCli.EscapedDeployCrashes and LambdaCli.AbandonedDeployCrashes | LambdaCli.DeployStartIntended, with LambdaCli.DeployStartMatchesIntent |
