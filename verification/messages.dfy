/**
 The messages a wizard receives and the commands it hands back to the
 event loop. Commands are data: running one (a remote call, a spinner
 tick, quitting) is the event loop's business, and a command's effect comes
 back to the wizard, if at all, as a later message.
 */
module Messages {
  import opened Api

  /** The terminal widgets a wizard owns. Their internals are not modelled. */
  datatype Widget = NameInput | PathInput | ItemList | TypeList | Spinner

  datatype Cmd =
    | Quit
      /** the loading spinner's first tick */
    | Tick
      /** switch a text input's cursor to blinking mode */
    | Blink(input: Widget)
    | Focus(input: Widget)
      /** fill a selection list with freshly loaded items */
    | SetItems(list: Widget)
      /** whatever the widget's own update returns for the message it was handed */
    | Forward(widget: Widget)
    | ListRuntimes
    | ListLambdas
    | ListEndpoints
    | CreateLambda(name: string, runtime: string, lambdaType: string, path: string)
    | CreateEndpoint(name: string, path: string, lambda: string)
    | CreateRuntime(name: string, path: string)
    | StartLambda(id: string)
    | DestroyLambda(id: string)

  datatype LambdaCreateResponse = LambdaCreateResponse(lambda: Option<Lambda>, err: Option<string>)
  datatype EndpointCreateResponse = EndpointCreateResponse(endpoint: Option<Endpoint>, err: Option<string>)
  datatype RuntimeCreateResponse = RuntimeCreateResponse(runtime: Option<Runtime>, err: Option<string>)
  datatype LambdaStartResponse = LambdaStartResponse(lambda: Option<Lambda>, err: Option<string>)
  datatype LambdaDestroyResponse = LambdaDestroyResponse(err: Option<string>)
  datatype LambdaListResponse = LambdaListResponse(lambdas: seq<Lambda>, err: Option<string>)
  datatype EndpointListResponse = EndpointListResponse(endpoints: seq<Endpoint>, err: Option<string>)
  datatype RuntimeListResponse = RuntimeListResponse(runtimes: seq<Runtime>, err: Option<string>)

  /** A capability's `(value, error)` pair as a response record carries it:
      exactly one side is set, and it is the operation's own value or error. */
  function Split<T>(r: Result<T>): (p: (Option<T>, Option<string>))
    ensures p.0.Some? <==> p.1.None?
    ensures r.Ok? ==> p.0 == Some(r.value)
    ensures r.Err? ==> p.1 == Some(r.error)
  {
    match r
    case Ok(v) => (Some(v), None)
    case Err(e) => (None, Some(e))
  }

  /** A message delivered to a wizard's update function. A text input is
      represented by the text it holds and a selection list by its cursor,
      both read off the widget when Enter is pressed. */
  datatype Msg =
      /** the create wizards' private start message, sent by their Init */
    | Begin
    | CtrlC
    | Esc
    | Enter(text: string, cursor: nat)
    | RuntimeListResponseMsg(runtimeList: RuntimeListResponse)
    | LambdaListResponseMsg(lambdaList: LambdaListResponse)
    | EndpointListResponseMsg(endpointList: EndpointListResponse)
    | LambdaCreateResponseMsg(lambdaCreate: LambdaCreateResponse)
    | EndpointCreateResponseMsg(endpointCreate: EndpointCreateResponse)
    | RuntimeCreateResponseMsg(runtimeCreate: RuntimeCreateResponse)
    | LambdaStartResponseMsg(lambdaStart: LambdaStartResponse)
    | LambdaDestroyResponseMsg(lambdaDestroy: LambdaDestroyResponse)
      /** any other key, a window resize, a spinner or cursor tick */
    | Other

  /** The rendered text of each widget at the moment a view is drawn. */
  datatype WidgetViews = WidgetViews(
    nameInput: string, pathInput: string, itemList: string, typeList: string, spinner: string)
}
