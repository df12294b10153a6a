/**
 The `endpoint` commands: the create and list capabilities and the seeding
 of the endpoint-create wizard from the command line. The endpoint
 operations themselves are single remote calls; their answers, already in
 the form the operations return them, are oracles here.
 */
module EndpointCli {
  import opened Api
  import opened Messages
  import LambdaOps
  import EndpointCreate

  /** The create command's flags. */
  datatype Flags = Flags(name: string, lambdaId: string)

  datatype Exit = Exit(code: nat, output: string)

  /** Either the wizard to run, seeded, or the exit that happens instead. */
  datatype Launch = Launch(model: EndpointCreate.Model) | Abort(exit: Exit)

  /** The body of a create-endpoint request. */
  datatype CreateEndpointRequest = CreateEndpointRequest(name: string, path: string, lambda: string)

  /** The create capability: the wizard's name, path and lambda id go into
      the request's fields of the same meaning, and the operation's answer
      (`createEndpoint`, for the request it is given) comes back as it is. */
  function CreateCapability(name: string, path: string, lambda: string,
                            createEndpoint: CreateEndpointRequest -> Result<Endpoint>): (msg: Msg)
    ensures var res := createEndpoint(CreateEndpointRequest(name, path, lambda));
      && msg.EndpointCreateResponseMsg?
      && (res.Ok? ==> msg.endpointCreate == EndpointCreateResponse(Some(res.value), None))
      && (res.Err? ==> msg.endpointCreate == EndpointCreateResponse(None, Some(res.error)))
  {
    var p := Split(createEndpoint(CreateEndpointRequest(name, path, lambda)));
    EndpointCreateResponseMsg(EndpointCreateResponse(p.0, p.1))
  }

  /** The list capability. */
  function ListCapability(list: Result<seq<Endpoint>>): (msg: Msg)
    ensures msg.EndpointListResponseMsg?
    ensures list.Ok? ==> msg.endpointList == EndpointListResponse(list.value, None)
    ensures list.Err? ==> msg.endpointList == EndpointListResponse([], Some(list.error))
  {
    match list
    case Ok(es) => EndpointListResponseMsg(EndpointListResponse(es, None))
    case Err(e) => EndpointListResponseMsg(EndpointListResponse([], Some(e)))
  }

  /** Seeds the endpoint-create wizard. The path argument is optional; a
      non-empty lambda-id flag is looked up first (`getLambda` is the
      lookup's answer) and a failed lookup exits with 1 before any wizard
      runs; without the flag no lambda is chosen yet. */
  function CreateProgram(flags: Flags, args: seq<string>, getLambda: Result<Lambda>): (r: Launch)
    ensures r.Abort? <==> flags.lambdaId != "" && getLambda.Err?
    ensures r.Abort? ==>
      r.exit == Exit(1, "Failed to get lambda: " + "error when calling `LambdaApi.GetLambda``: " + getLambda.error)
    ensures r.Launch? ==>
      && r.model.step == EndpointCreate.InitStep
      && r.model.transcript == ""
      && r.model.name == flags.name
      && r.model.endpoint == (if |args| > 0 then args[0] else "")
      && (r.model.lambda.Some? <==> flags.lambdaId != "")
      && (r.model.lambda.Some? ==> r.model.lambda == Some(getLambda.value))
  {
    var endpoint := if |args| > 0 then args[0] else "";
    if flags.lambdaId != "" then
      match LambdaOps.GetLambda(flags.lambdaId, getLambda)
      case Err(e) => Abort(Exit(1, "Failed to get lambda: " + e))
      case Ok(l) => Launch(EndpointCreate.Init(flags.name, endpoint, Some(l)))
    else
      Launch(EndpointCreate.Init(flags.name, endpoint, None))
  }

  /** With the name and lambda given but no path argument, the start message
      takes the wizard straight to the path input, which it focuses. */
  lemma MissingPathIsAskedFor(flags: Flags, l: Lambda, pretty: Option<Endpoint> -> string)
    requires flags.name != "" && flags.lambdaId != ""
    ensures var launch := CreateProgram(flags, [], Ok(l));
      && launch.Launch?
      && launch.model.endpoint == ""
      && var r := EndpointCreate.Step(launch.model, Begin, pretty);
      && r.0.step == EndpointCreate.EndpointStep
      && r.1 == [Blink(PathInput), Focus(PathInput)]
  {
    var m := EndpointCreate.Init(flags.name, "", Some(l));
    EndpointCreate.IncStepLadder(m, [], pretty);
    EndpointCreate.InitSatisfiesInv(flags.name, "", Some(l));
    EndpointCreate.StepPreservesInv(m, Begin, pretty);
    EndpointCreate.SuppliedLambdaSkipsList(m, Begin, pretty);
    var r := EndpointCreate.Step(m, Begin, pretty);
    assert EndpointCreate.Guard(r.0, EndpointCreate.NameStep);
    assert !EndpointCreate.Guard(r.0, EndpointCreate.EndpointStep);
  }
}
