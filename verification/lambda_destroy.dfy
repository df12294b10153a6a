/**
 The lambda destroy screen: it asks for the lambda with the given id to be
 destroyed and reports the outcome.
 */
module LambdaDestroy {
  import opened Api
  import opened Messages
  import opened OneShot

  datatype Model = Model(lambdaId: string, resp: Option<LambdaDestroyResponse>)

  /** The screen's first commands: the destroy call and the spinner's first tick. */
  function Init(lambdaId: string): (r: (Model, seq<Cmd>))
    ensures r.0.resp.None?
    ensures r.0.lambdaId == lambdaId
    ensures r.1 == [DestroyLambda(lambdaId), Tick]
  {
    (Model(lambdaId, None), [DestroyLambda(lambdaId), Tick])
  }

  function Classify(msg: Msg): Event<LambdaDestroyResponse>
  {
    match msg
    case CtrlC => Interrupt
    case LambdaDestroyResponseMsg(x) => Response(x)
    case _ => Pass
  }

  /** The update function: only Ctrl+C and the destroy response are handled. */
  function Update(m: Model, msg: Msg): (r: (Model, seq<Cmd>))
    ensures msg.CtrlC? ==> r == (m, [Quit])
    ensures msg.LambdaDestroyResponseMsg? ==> r == (m.(resp := Some(msg.lambdaDestroy)), [Quit])
    ensures !msg.CtrlC? && !msg.LambdaDestroyResponseMsg? ==> r == (m, [Forward(Spinner)])
  {
    var u := OneShot.Update(m.resp, Classify(msg));
    (m.(resp := u.0), u.1)
  }

  /** The screen: the spinner while waiting, then the failure or the
      outcome, and a newline exactly once the response is in. */
  function View(m: Model, spinner: string): (v: string)
    ensures EndsWithNewline(v) <==> m.resp.Some?
    ensures m.resp.None? ==> v == spinner + " Destroying lambda..."
    ensures m.resp.Some? && m.resp.value.err.Some? ==> v == "Failed to destroy lambda: " + m.resp.value.err.value + "\n"
    ensures m.resp.Some? && m.resp.value.err.None? ==> v == "Lambda has been destroyed" + "\n"
  {
    Render(m.resp, spinner, "Destroying lambda...", "Failed to destroy lambda: ", (x: LambdaDestroyResponse) => x.err, (x: LambdaDestroyResponse) => "Lambda has been destroyed")
  }

  /** The program's run over a stream of messages, up to the first Quit. */
  function RunScreen(m: Model, msgs: seq<Msg>): (r: Model)
    ensures r.resp != m.resp ==> r.resp.Some? && exists i :: 0 <= i < |msgs| && msgs[i] == LambdaDestroyResponseMsg(r.resp.value)
  {
    RunRecordsOnlyDelivered(Classify, m.resp, msgs);
    m.(resp := OneShot.Run(Classify, m.resp, msgs))
  }

  /** What a run records is the first destroy response, provided no Ctrl+C came before it. */
  lemma RunRecordsResponse(m: Model, msgs: seq<Msg>, i: nat)
    requires i < |msgs| && msgs[i].LambdaDestroyResponseMsg?
    requires forall j :: 0 <= j < i ==> !msgs[j].CtrlC? && !msgs[j].LambdaDestroyResponseMsg?
    ensures RunScreen(m, msgs).resp == Some(msgs[i].lambdaDestroy)
  {
    RunRecordsFirstResponse(Classify, m.resp, msgs);
    assert StopsAt(Classify, msgs, i);
  }

  /** A Ctrl+C before any destroy response ends the run with nothing recorded. */
  lemma InterruptRecordsNothing(m: Model, msgs: seq<Msg>, i: nat)
    requires i < |msgs| && msgs[i].CtrlC?
    requires forall j :: 0 <= j < i ==> !msgs[j].LambdaDestroyResponseMsg?
    ensures RunScreen(m, msgs) == m
  {
    RunRecordsFirstResponse(Classify, m.resp, msgs);
    assert Classify(msgs[i]).Interrupt?;
    forall k | StopsAt(Classify, msgs, k) ensures Classify(msgs[k]).Interrupt? {
    }
  }
}
