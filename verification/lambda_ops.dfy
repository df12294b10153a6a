/**
 The remote lambda operations behind the command-line client: create
 (upload the code, then register the lambda), start and destroy (both
 asynchronous server tasks, polled until they settle), and deploy (create,
 then start). Every remote answer comes from an oracle record; each
 operation reports its result together with the log of remote calls it
 made, in order.
 */
module LambdaOps {
  import opened Api
  import opened Poller

  /** A remote call, as it appears in an operation's call log. */
  datatype Call =
    | Upload(path: string)
    | CreateCall(name: string, runtime: string, lambdaType: string, archive: string)
    | StartCall(id: string)
    | DestroyCall(id: string)
    | GetTaskCall(task: string)
    | GetCall(id: string)

  /** An operation's result, unless it is still polling a task when the
      oracle runs out. */
  datatype Completion<+T> = Completed(result: Result<T>) | StillWaiting

  datatype Outcome<+T> = Outcome(completion: Completion<T>, calls: seq<Call>)

  /** The fields of a create request that the caller chooses. */
  datatype CreateLambdaM = CreateLambdaM(name: string, runtime: string, lambdaType: string)

  /** The answers to one create: the upload (the archive id or the upload's
      own error text), the create call, and the server's error detail that
      accompanies a failed create. */
  datatype CreateOracle = CreateOracle(upload: Result<string>, create: Result<Lambda>, errorDetail: string)

  /** The answers to one start or destroy: the call itself (the task id),
      the task queries, and, for a start, the final lookup of the lambda. */
  datatype TaskOracle = TaskOracle(call: Result<string>, replies: seq<Result<TaskStatus>>, get: Result<Lambda>)

  const Failed := "FAILED"

  /** The calls a poll made: one task query per query counted. */
  function TaskQueries(task: string, n: nat): (calls: seq<Call>)
    ensures |calls| == n
    ensures forall c :: c in calls ==> c == GetTaskCall(task)
  {
    if n == 0 then [] else [GetTaskCall(task)] + TaskQueries(task, n - 1)
  }

  function GetLambda(id: string, get: Result<Lambda>): (r: Result<Lambda>)
    ensures r.Ok? <==> get.Ok?
    ensures r.Ok? ==> r.value == get.value
    ensures r.Err? ==> r.error == "error when calling `LambdaApi.GetLambda``: " + get.error
  {
    match get
    case Ok(l) => Ok(l)
    case Err(e) => Err("error when calling `LambdaApi.GetLambda``: " + e)
  }

  function ListLambdas(list: Result<seq<Lambda>>): (r: Result<seq<Lambda>>)
    ensures r.Ok? <==> list.Ok?
    ensures r.Ok? ==> r.value == list.value
    ensures r.Err? ==> r.error == "error when calling `LambdaApi.ListLambdas``: " + list.error
  {
    match list
    case Ok(ls) => Ok(ls)
    case Err(e) => Err("error when calling `LambdaApi.ListLambdas``: " + e)
  }

  /** Uploads the code, then registers the lambda with the upload id as its
      archive. */
  function CreateLambda(input: CreateLambdaM, path: string, o: CreateOracle): (r: (Result<Lambda>, seq<Call>))
    // the create call is made exactly when the upload succeeded, with its id as the archive
    ensures o.upload.Err? ==> r == (Err(o.upload.error), [Upload(path)])
    ensures o.upload.Ok? ==>
      r.1 == [Upload(path), CreateCall(input.name, input.runtime, input.lambdaType, o.upload.value)]
    ensures r.0.Ok? <==> o.upload.Ok? && o.create.Ok?
    ensures r.0.Ok? ==> r.0.value == o.create.value
    ensures o.upload.Ok? && o.create.Err? ==>
      r.0 == Err("error when calling `LambdaApi.CreateLambda``: " + o.create.error + "\n" + o.errorDetail)
  {
    match o.upload
    case Err(e) => (Err(e), [Upload(path)])
    case Ok(archive) =>
      var calls := [Upload(path), CreateCall(input.name, input.runtime, input.lambdaType, archive)];
      match o.create
      case Ok(l) => (Ok(l), calls)
      case Err(e) => (Err("error when calling `LambdaApi.CreateLambda``: " + e + "\n" + o.errorDetail), calls)
  }

  /** Starts the lambda: the start call yields a task, the task is polled,
      a "FAILED" status becomes an error and any other settled status leads
      to a fresh lookup of the lambda. */
  function StartLambda(id: string, o: TaskOracle): (r: Outcome<Lambda>)
    ensures |r.calls| >= 1 && r.calls[0] == StartCall(id)
    // a failed start call is reported at once and nothing is polled
    ensures o.call.Err? ==>
      r == Outcome(Completed(Err("error when calling `LambdaApi.StartLambda``: " + o.call.error)), [StartCall(id)])
    ensures o.call.Ok? ==> r.calls[1..] <= TaskQueries(o.call.value, PollTask(o.replies).queries) + [GetCall(id)]
    // a poll error travels unchanged
    ensures o.call.Ok? && PollTask(o.replies).outcome.QueryFailed? ==>
      r.completion == Completed(Err(PollTask(o.replies).outcome.error))
    ensures r.completion.StillWaiting? <==> o.call.Ok? && PollTask(o.replies).outcome.StillPending?
    // the lambda is looked up exactly when the task settled in a status other than "FAILED"
    ensures GetCall(id) in r.calls <==>
      o.call.Ok? && PollTask(o.replies).outcome.Terminal? && PollTask(o.replies).outcome.status.status != Failed
    ensures GetCall(id) in r.calls ==> r.completion == Completed(GetLambda(id, o.get))
    ensures o.call.Ok? && PollTask(o.replies).outcome.Terminal? && PollTask(o.replies).outcome.status.status == Failed ==>
      r.completion == Completed(Err("error when starting lambda: " + PollTask(o.replies).outcome.status.errorDetail))
  {
    match o.call
    case Err(e) => Outcome(Completed(Err("error when calling `LambdaApi.StartLambda``: " + e)), [StartCall(id)])
    case Ok(task) =>
      var p := PollTask(o.replies);
      var calls := [StartCall(id)] + TaskQueries(task, p.queries);
      assert calls[1..] == TaskQueries(task, p.queries);
      match p.outcome
      case StillPending => Outcome(StillWaiting, calls)
      case QueryFailed(e) => Outcome(Completed(Err(e)), calls)
      case Terminal(t) =>
        if t.status == Failed then Outcome(Completed(Err("error when starting lambda: " + t.errorDetail)), calls)
        else Outcome(Completed(GetLambda(id, o.get)), calls + [GetCall(id)])
  }

  /** Destroys the lambda: the same shape as a start, with no lookup at the
      end; any settled status other than "FAILED" is success. */
  function DestroyLambda(id: string, o: TaskOracle): (r: Outcome<()>)
    ensures |r.calls| >= 1 && r.calls[0] == DestroyCall(id)
    ensures o.call.Err? ==>
      r == Outcome(Completed(Err("error when calling `LambdaApi.DestroyLambda``: " + o.call.error)), [DestroyCall(id)])
    ensures o.call.Ok? ==> r.calls == [DestroyCall(id)] + TaskQueries(o.call.value, PollTask(o.replies).queries)
    ensures o.call.Ok? && PollTask(o.replies).outcome.QueryFailed? ==>
      r.completion == Completed(Err(PollTask(o.replies).outcome.error))
    ensures r.completion.StillWaiting? <==> o.call.Ok? && PollTask(o.replies).outcome.StillPending?
    ensures r.completion == Completed(Ok(())) <==>
      o.call.Ok? && PollTask(o.replies).outcome.Terminal? && PollTask(o.replies).outcome.status.status != Failed
    ensures o.call.Ok? && PollTask(o.replies).outcome.Terminal? && PollTask(o.replies).outcome.status.status == Failed ==>
      r.completion == Completed(Err("error when destroying lambda: " + PollTask(o.replies).outcome.status.errorDetail))
  {
    match o.call
    case Err(e) => Outcome(Completed(Err("error when calling `LambdaApi.DestroyLambda``: " + e)), [DestroyCall(id)])
    case Ok(task) =>
      var p := PollTask(o.replies);
      var calls := [DestroyCall(id)] + TaskQueries(task, p.queries);
      match p.outcome
      case StillPending => Outcome(StillWaiting, calls)
      case QueryFailed(e) => Outcome(Completed(Err(e)), calls)
      case Terminal(t) =>
        if t.status == Failed then Outcome(Completed(Err("error when destroying lambda: " + t.errorDetail)), calls)
        else Outcome(Completed(Ok(())), calls)
  }

  /** Creates the lambda and, only if that worked, starts it by the id the
      server gave it. */
  function DeployLambda(input: CreateLambdaM, path: string, co: CreateOracle, so: TaskOracle): (r: Outcome<Lambda>)
    ensures var created := CreateLambda(input, path, co);
      && created.1 <= r.calls
      && (created.0.Err? ==> r == Outcome(Completed(created.0), created.1))
      && (created.0.Ok? ==> r.calls[|created.1|..] == StartLambda(created.0.value.id, so).calls)
      // after a successful create, deploy answers exactly what the start of the created lambda answers
      && (created.0.Ok? ==> r.completion == StartLambda(created.0.value.id, so).completion)
    // a start is requested at most once, exactly when the create succeeded, and for the created lambda
    ensures forall x :: StartCall(x) in r.calls <==> co.upload.Ok? && co.create.Ok? && x == co.create.value.id
  {
    var created := CreateLambda(input, path, co);
    match created.0
    case Err(_) => Outcome(Completed(created.0), created.1)
    case Ok(l) =>
      var started := StartLambda(l.id, so);
      StartCallsOnlyFirst(l.id, so);
      Outcome(started.completion, created.1 + started.calls)
  }

  /** A start's call log names the start call once, at its head. */
  lemma StartCallsOnlyFirst(id: string, o: TaskOracle)
    ensures forall x :: StartCall(x) in StartLambda(id, o).calls <==> x == id
  {
    var r := StartLambda(id, o);
    if o.call.Ok? {
      var qs := TaskQueries(o.call.value, PollTask(o.replies).queries);
      assert r.calls == [StartCall(id)] + r.calls[1..];
      forall x | StartCall(x) in r.calls ensures x == id {
        assert StartCall(x) !in qs + [GetCall(id)];
        assert StartCall(x) !in r.calls[1..];
      }
    }
  }
}
