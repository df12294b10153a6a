/**
 The lambda start screen: it asks for the lambda with the given id to be
 started and shows the started lambda or the failure.
 */
module LambdaStart {
  import opened Api
  import opened Messages
  import opened OneShot

  datatype Model = Model(lambdaId: string, resp: Option<LambdaStartResponse>)

  /** The screen's first commands: the start call and the spinner's first tick. */
  function Init(lambdaId: string): (r: (Model, seq<Cmd>))
    ensures r.0.resp.None?
    ensures r.0.lambdaId == lambdaId
    ensures r.1 == [StartLambda(lambdaId), Tick]
  {
    (Model(lambdaId, None), [StartLambda(lambdaId), Tick])
  }

  function Classify(msg: Msg): Event<LambdaStartResponse>
  {
    match msg
    case CtrlC => Interrupt
    case LambdaStartResponseMsg(x) => Response(x)
    case _ => Pass
  }

  /** The update function: only Ctrl+C and the start response are handled. */
  function Update(m: Model, msg: Msg): (r: (Model, seq<Cmd>))
    ensures msg.CtrlC? ==> r == (m, [Quit])
    ensures msg.LambdaStartResponseMsg? ==> r == (m.(resp := Some(msg.lambdaStart)), [Quit])
    ensures !msg.CtrlC? && !msg.LambdaStartResponseMsg? ==> r == (m, [Forward(Spinner)])
  {
    var u := OneShot.Update(m.resp, Classify(msg));
    (m.(resp := u.0), u.1)
  }

  /** The screen: the spinner while waiting, then the failure or the
      outcome, and a newline exactly once the response is in. */
  function View(m: Model, spinner: string, pretty: Option<Lambda> -> string): (v: string)
    ensures EndsWithNewline(v) <==> m.resp.Some?
    ensures m.resp.None? ==> v == spinner + " Starting lambda..."
    ensures m.resp.Some? && m.resp.value.err.Some? ==> v == "Failed to start lambda: " + m.resp.value.err.value + "\n"
    ensures m.resp.Some? && m.resp.value.err.None? ==> v == pretty(m.resp.value.lambda) + "\n"
  {
    Render(m.resp, spinner, "Starting lambda...", "Failed to start lambda: ", (x: LambdaStartResponse) => x.err, (x: LambdaStartResponse) => pretty(x.lambda))
  }

  /** The program's run over a stream of messages, up to the first Quit. */
  function RunScreen(m: Model, msgs: seq<Msg>): (r: Model)
    ensures r.resp != m.resp ==> r.resp.Some? && exists i :: 0 <= i < |msgs| && msgs[i] == LambdaStartResponseMsg(r.resp.value)
  {
    RunRecordsOnlyDelivered(Classify, m.resp, msgs);
    m.(resp := OneShot.Run(Classify, m.resp, msgs))
  }

  /** What a run records is the first start response, provided no Ctrl+C came before it. */
  lemma RunRecordsResponse(m: Model, msgs: seq<Msg>, i: nat)
    requires i < |msgs| && msgs[i].LambdaStartResponseMsg?
    requires forall j :: 0 <= j < i ==> !msgs[j].CtrlC? && !msgs[j].LambdaStartResponseMsg?
    ensures RunScreen(m, msgs).resp == Some(msgs[i].lambdaStart)
  {
    RunRecordsFirstResponse(Classify, m.resp, msgs);
    assert StopsAt(Classify, msgs, i);
  }

  /** A Ctrl+C before any start response ends the run with nothing recorded. */
  lemma InterruptRecordsNothing(m: Model, msgs: seq<Msg>, i: nat)
    requires i < |msgs| && msgs[i].CtrlC?
    requires forall j :: 0 <= j < i ==> !msgs[j].LambdaStartResponseMsg?
    ensures RunScreen(m, msgs) == m
  {
    RunRecordsFirstResponse(Classify, m.resp, msgs);
    assert Classify(msgs[i]).Interrupt?;
    forall k | StopsAt(Classify, msgs, k) ensures Classify(msgs[k]).Interrupt? {
    }
  }
}
