/**
 The `lambda` commands: the capabilities that turn the wizards' commands
 into remote operations and their answers into response messages, the
 seeding of the create wizard from the command line, and deploy, which runs
 the create wizard and then a start screen for the lambda it created.
 */
module LambdaCli {
  import opened Api
  import opened Messages
  import LambdaOps
  import Poller
  import LambdaCreate
  import LambdaStart

  /** The create and deploy commands' flags. */
  datatype Flags = Flags(name: string, runtime: string, lambdaType: string)

  /** How the process ends when it does not reach a wizard or the next one:
      its exit code and what it printed. */
  datatype Exit = Exit(code: nat, output: string)

  /** Either the program to run, seeded, or the exit that happens instead:
      an orderly one, or a runtime panic (Go then exits with status 2 after
      printing the panic and its stack). */
  datatype Launch<M> = Launch(model: M) | Abort(exit: Exit) | Crash

  /** The create capability: the response carries the operation's lambda
      or its error, as they are. */
  function CreateCapability(name: string, runtime: string, lambdaType: string, path: string,
                            o: LambdaOps.CreateOracle): (msg: Msg)
    ensures var res := LambdaOps.CreateLambda(LambdaOps.CreateLambdaM(name, runtime, lambdaType), path, o).0;
      && msg.LambdaCreateResponseMsg?
      && (res.Ok? ==> msg.lambdaCreate == LambdaCreateResponse(Some(res.value), None))
      && (res.Err? ==> msg.lambdaCreate == LambdaCreateResponse(None, Some(res.error)))
  {
    var p := Split(LambdaOps.CreateLambda(LambdaOps.CreateLambdaM(name, runtime, lambdaType), path, o).0);
    LambdaCreateResponseMsg(LambdaCreateResponse(p.0, p.1))
  }

  /** The list capability. */
  function ListCapability(list: Result<seq<Lambda>>): (msg: Msg)
    ensures var res := LambdaOps.ListLambdas(list);
      && msg.LambdaListResponseMsg?
      && (res.Ok? ==> msg.lambdaList == LambdaListResponse(res.value, None))
      && (res.Err? ==> msg.lambdaList == LambdaListResponse([], Some(res.error)))
  {
    match LambdaOps.ListLambdas(list)
    case Ok(ls) => LambdaListResponseMsg(LambdaListResponse(ls, None))
    case Err(e) => LambdaListResponseMsg(LambdaListResponse([], Some(e)))
  }

  /** The start capability; no message arrives while the task is still
      being polled. */
  function StartCapability(id: string, o: LambdaOps.TaskOracle): (msg: Option<Msg>)
    ensures var res := LambdaOps.StartLambda(id, o).completion;
      && (msg.None? <==> res.StillWaiting?)
      && (res.Completed? && res.result.Ok? ==>
            msg == Some(LambdaStartResponseMsg(LambdaStartResponse(Some(res.result.value), None))))
      && (res.Completed? && res.result.Err? ==>
            msg == Some(LambdaStartResponseMsg(LambdaStartResponse(None, Some(res.result.error)))))
  {
    match LambdaOps.StartLambda(id, o).completion
    case StillWaiting => None
    case Completed(res) =>
      var p := Split(res);
      Some(LambdaStartResponseMsg(LambdaStartResponse(p.0, p.1)))
  }

  /** The destroy capability; only the error travels. */
  function DestroyCapability(id: string, o: LambdaOps.TaskOracle): (msg: Option<Msg>)
    ensures var res := LambdaOps.DestroyLambda(id, o).completion;
      && (msg.None? <==> res.StillWaiting?)
      && (res.Completed? && res.result.Ok? ==> msg == Some(LambdaDestroyResponseMsg(LambdaDestroyResponse(None))))
      && (res.Completed? && res.result.Err? ==>
            msg == Some(LambdaDestroyResponseMsg(LambdaDestroyResponse(Some(res.result.error)))))
  {
    match LambdaOps.DestroyLambda(id, o).completion
    case StillWaiting => None
    case Completed(res) => Some(LambdaDestroyResponseMsg(LambdaDestroyResponse(Split(res).1)))
  }

  /** Seeds the create wizard. A non-empty runtime flag is looked up first
      (`getRuntime` is the lookup's answer) and a failed lookup exits with 1
      before any wizard runs; without the flag no runtime is chosen yet. */
  function CreateProgram(flags: Flags, args: seq<string>, getRuntime: Result<Runtime>): (r: Launch<LambdaCreate.Model>)
    requires |args| >= 1
    ensures r.Abort? <==> flags.runtime != "" && getRuntime.Err?
    ensures r.Abort? ==> r.exit == Exit(1, "Failed to get runtime: " + getRuntime.error)
    ensures r.Launch? ==>
      && r.model.step == LambdaCreate.InitStep
      && r.model.transcript == ""
      && r.model.name == flags.name && r.model.lambdaType == flags.lambdaType && r.model.path == args[0]
      && (r.model.runtime.Some? <==> flags.runtime != "")
      && (r.model.runtime.Some? ==> r.model.runtime == Some(getRuntime.value))
  {
    if flags.runtime != "" then
      match getRuntime
      case Err(e) => Abort(Exit(1, "Failed to get runtime: " + e))
      case Ok(rt) => Launch(LambdaCreate.Init(flags.name, Some(rt), flags.lambdaType, args[0]))
    else
      Launch(LambdaCreate.Init(flags.name, None, flags.lambdaType, args[0]))
  }

  /** Deploy's second half as the code writes it. The create program's final
      model is converted to the pointer type, which only succeeds when the
      wizard's last transition went through the ladder (`viaLadder`);
      otherwise the process crashes with a runtime panic. After that, a
      model without a created lambda exits with 1 (the failure is already on
      screen), and otherwise a start screen is launched for that lambda. */
  function DeployStart(created: LambdaCreate.Model, viaLadder: bool): (r: Launch<(LambdaStart.Model, seq<Cmd>)>)
    ensures r.Crash? <==> !viaLadder
    ensures r.Launch? <==> viaLadder && created.resp.Some? && created.resp.value.lambda.Some?
    ensures r.Abort? ==> r.exit == Exit(1, "")
    ensures r.Launch? ==>
      var id := created.resp.value.lambda.value.id;
      && r.model.0.lambdaId == id
      && r.model.0.resp.None?
      && r.model.1 == [StartLambda(id), Tick]
  {
    if !viaLadder then Crash
    else
      match LambdaCreate.GetLambda(created)
      case None => Abort(Exit(1, ""))
      case Some(l) => Launch(LambdaStart.Init(l.id))
  }

  /** Deploy's second half as the nil check after the conversion evidently
      intends it: every create flow that ends without a created lambda,
      however it ended, exits with 1. */
  function DeployStartIntended(created: LambdaCreate.Model): (r: Launch<(LambdaStart.Model, seq<Cmd>)>)
    ensures !r.Crash?
    ensures r.Launch? <==> created.resp.Some? && created.resp.value.lambda.Some?
    ensures r.Abort? ==> r.exit == Exit(1, "")
    ensures r.Launch? ==>
      var id := created.resp.value.lambda.value.id;
      && r.model.0.lambdaId == id
      && r.model.0.resp.None?
      && r.model.1 == [StartLambda(id), Tick]
  {
    match LambdaCreate.GetLambda(created)
    case None => Abort(Exit(1, ""))
    case Some(l) => Launch(LambdaStart.Init(l.id))
  }

  /** When the last transition went through the ladder the code and its
      intent agree; otherwise the code crashes where exit 1 was intended. */
  lemma DeployStartMatchesIntent(created: LambdaCreate.Model, viaLadder: bool)
    ensures viaLadder ==> DeployStart(created, viaLadder) == DeployStartIntended(created)
    ensures !viaLadder ==> DeployStart(created, viaLadder) == Crash && !DeployStartIntended(created).Crash?
  {
  }

  /** Deploy composition: the create response that ends the create wizard
      goes through the ladder, so the code and its intent agree, and that
      response decides the start screen. A response without a lambda (a
      failed create) means no start is ever requested, and otherwise the
      start is for exactly the created lambda's id. */
  lemma DeployStartsCreatedLambda(m: LambdaCreate.Model, resp: LambdaCreateResponse, pretty: Option<Lambda> -> string)
    requires LambdaCreate.Inv(m) && m.step == LambdaCreate.LoadingStep
    ensures var msg := LambdaCreateResponseMsg(resp);
      var final := LambdaCreate.Step(m, msg, pretty).0;
      && LambdaCreate.ViaLadder(m, msg)
      && DeployStart(final, true) == DeployStartIntended(final)
      && (resp.lambda.None? ==> DeployStart(final, true) == Abort(Exit(1, "")))
      && (resp.lambda.Some? ==> DeployStart(final, true) == Launch(LambdaStart.Init(resp.lambda.value.id)))
  {
    LambdaCreate.CreateResponseEndsFlow(m, resp, pretty);
  }

  /** A failed create operation never leads to a start call, whatever the
      start oracle would have said; a successful one leads to exactly one,
      for the id the server gave. */
  lemma FailedCreateNeverStarts(input: LambdaOps.CreateLambdaM, path: string,
                                co: LambdaOps.CreateOracle, m: LambdaCreate.Model, pretty: Option<Lambda> -> string)
    requires LambdaCreate.Inv(m) && m.step == LambdaCreate.LoadingStep
    ensures var msg := CreateCapability(input.name, input.runtime, input.lambdaType, path, co);
      var final := LambdaCreate.Step(m, msg, pretty).0;
      && LambdaCreate.ViaLadder(m, msg)
      && (DeployStart(final, true).Launch? <==> co.upload.Ok? && co.create.Ok?)
      && (DeployStart(final, true).Launch? ==> DeployStart(final, true).model.0.lambdaId == co.create.value.id)
  {
    var msg := CreateCapability(input.name, input.runtime, input.lambdaType, path, co);
    DeployStartsCreatedLambda(m, msg.lambdaCreate, pretty);
  }

  /** Every other way the create wizard can quit (Ctrl+C, Esc on a step that
      offers it, a runtime list that failed or came back empty) bypasses the
      ladder and leaves the create response as it was, so deploy crashes
      there; for a wizard that had no create response, exit 1 was intended. */
  lemma AbandonedDeployCrashes(m: LambdaCreate.Model, msg: Msg, pretty: Option<Lambda> -> string)
    requires LambdaCreate.Inv(m) && LambdaCreate.CursorInRange(m, msg)
    requires || msg.CtrlC?
             || (msg.Esc? && m.step in {LambdaCreate.NameStep, LambdaCreate.RuntimeSelectionStep, LambdaCreate.TypeStep})
             || (m.step == LambdaCreate.RuntimesLoadingStep && msg.RuntimeListResponseMsg?
                 && (msg.runtimeList.err.Some? || |msg.runtimeList.runtimes| == 0))
    ensures var r := LambdaCreate.Step(m, msg, pretty);
      && Quit in r.1
      && DeployStart(r.0, LambdaCreate.ViaLadder(m, msg)) == Crash
      && r.0.resp == m.resp
      && (m.resp.None? ==> DeployStartIntended(r.0) == Abort(Exit(1, "")))
  {
    LambdaCreate.QuitsOutsideLadder(m, msg, pretty);
  }

  /** `lambda deploy ./fn` with nothing supplied, abandoned with Esc on the
      name input: the wizard quits and deploy crashes, where exit 1 was
      intended. */
  lemma EscapedDeployCrashes(pretty: Option<Lambda> -> string)
    ensures var launch := CreateProgram(Flags("", "", ""), ["./fn"], Err("unused"));
      && launch.Launch?
      && var m1 := LambdaCreate.Step(launch.model, Begin, pretty).0;
      && var r := LambdaCreate.Step(m1, Esc, pretty);
      && r.1 == [Quit]
      && DeployStart(r.0, LambdaCreate.ViaLadder(m1, Esc)) == Crash
      && DeployStartIntended(r.0) == Abort(Exit(1, ""))
  {
    var m0 := LambdaCreate.Init("", None, "", "./fn");
    LambdaCreate.InitSatisfiesInv("", None, "", "./fn");
    LambdaCreate.StepPreservesInv(m0, Begin, pretty);
    LambdaCreate.IncStepLadder(m0, [], pretty);
    var m1 := LambdaCreate.Step(m0, Begin, pretty).0;
    assert LambdaCreate.Guard(m1, LambdaCreate.InitStep) && !LambdaCreate.Guard(m1, LambdaCreate.NameStep);
    assert m1.step == LambdaCreate.NameStep;
    AbandonedDeployCrashes(m1, Esc, pretty);
  }

  /** `lambda create ./fn --name foo --runtime py --type ENDPOINT`, with the
      runtime lookup finding `py` and the create returning lambda `l1`:
      the wizard goes straight to the create call and its transcript ends
      with the printed lambda. */
  lemma CreateScenario(pretty: Option<Lambda> -> string)
    ensures var py := Runtime("py", "py");
      var l1 := Lambda("l1", "foo", "ENDPOINT");
      var launch := CreateProgram(Flags("foo", "py", "ENDPOINT"), ["./fn"], Ok(py));
      && launch.Launch?
      && var started := LambdaCreate.Step(launch.model, Begin, pretty);
      && started.1 == [CreateLambda("foo", "py", "ENDPOINT", "./fn"), Tick]
      && var msg := CreateCapability("foo", "py", "ENDPOINT", "./fn",
                                     LambdaOps.CreateOracle(Ok("archive"), Ok(l1), ""));
      && var done := LambdaCreate.Step(started.0, msg, pretty);
      && done.1 == [Quit]
      && done.0.transcript == started.0.transcript + "\n\n" + pretty(Some(l1))
  {
    var py := Runtime("py", "py");
    var l1 := Lambda("l1", "foo", "ENDPOINT");
    var m0 := LambdaCreate.Init("foo", Some(py), "ENDPOINT", "./fn");
    LambdaCreate.SuppliedFieldsGoStraightToCreate("foo", py, "ENDPOINT", "./fn", pretty);
    LambdaCreate.InitSatisfiesInv("foo", Some(py), "ENDPOINT", "./fn");
    LambdaCreate.StepPreservesInv(m0, Begin, pretty);
    var started := LambdaCreate.Step(m0, Begin, pretty);
    var msg := CreateCapability("foo", "py", "ENDPOINT", "./fn", LambdaOps.CreateOracle(Ok("archive"), Ok(l1), ""));
    LambdaCreate.CreateResponseEndsFlow(started.0, msg.lambdaCreate, pretty);
  }

  /** `lambda start l1` where the task is pending once and then fails with
      the detail "boom": the screen ends with the failure line carrying the
      detail. */
  lemma StartFailureScenario(getLambda: Result<Lambda>, spinner: string, pretty: Option<Lambda> -> string)
    ensures var o := LambdaOps.TaskOracle(Ok("t1"),
                        [Ok(TaskStatus("PENDING", "")), Ok(TaskStatus("FAILED", "boom"))], getLambda);
      var msg := StartCapability("l1", o);
      && msg.Some?
      && var screen := LambdaStart.Update(LambdaStart.Init("l1").0, msg.value).0;
      && LambdaStart.View(screen, spinner, pretty) == "Failed to start lambda: " + "error when starting lambda: " + "boom" + "\n"
  {
    var replies := [Ok(TaskStatus("PENDING", "")), Ok(TaskStatus("FAILED", "boom"))];
    var o := LambdaOps.TaskOracle(Ok("t1"), replies, getLambda);
    Poller.FirstSettledAnswerDecides(replies, 1, []);
    assert Poller.PollTask(replies).outcome == Poller.Terminal(TaskStatus("FAILED", "boom"));
    var err := "error when starting lambda: " + "boom";
    assert LambdaOps.StartLambda("l1", o).completion == LambdaOps.Completed(Err(err));
    var resp := LambdaStartResponse(None, Some(err));
    assert StartCapability("l1", o) == Some(LambdaStartResponseMsg(resp));
    var screen := LambdaStart.Update(LambdaStart.Init("l1").0, LambdaStartResponseMsg(resp)).0;
    assert screen.resp == Some(resp);
  }
}
