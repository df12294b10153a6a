/**
 The endpoint list screen: it queries all endpoints and prints them.
 */
module EndpointList {
  import opened Api
  import opened Messages
  import opened OneShot

  datatype Model = Model(resp: Option<EndpointListResponse>)

  /** The screen's first commands: the list call and the spinner's first tick. */
  function Init(): (r: (Model, seq<Cmd>))
    ensures r.0.resp.None?
    ensures r.1 == [ListEndpoints, Tick]
  {
    (Model(None), [ListEndpoints, Tick])
  }

  function Classify(msg: Msg): Event<EndpointListResponse>
  {
    match msg
    case CtrlC => Interrupt
    case EndpointListResponseMsg(x) => Response(x)
    case _ => Pass
  }

  /** The update function: only Ctrl+C and the list response are handled. */
  function Update(m: Model, msg: Msg): (r: (Model, seq<Cmd>))
    ensures msg.CtrlC? ==> r == (m, [Quit])
    ensures msg.EndpointListResponseMsg? ==> r == (m.(resp := Some(msg.endpointList)), [Quit])
    ensures !msg.CtrlC? && !msg.EndpointListResponseMsg? ==> r == (m, [Forward(Spinner)])
  {
    var u := OneShot.Update(m.resp, Classify(msg));
    (m.(resp := u.0), u.1)
  }

  /** The screen: the spinner while waiting, then the failure or the
      outcome, and a newline exactly once the response is in. */
  function View(m: Model, spinner: string, pretty: seq<Endpoint> -> string): (v: string)
    ensures EndsWithNewline(v) <==> m.resp.Some?
    ensures m.resp.None? ==> v == spinner + " Query endpoints..."
    ensures m.resp.Some? && m.resp.value.err.Some? ==> v == "Failed to create endpoint: " + m.resp.value.err.value + "\n"
    ensures m.resp.Some? && m.resp.value.err.None? ==> v == pretty(m.resp.value.endpoints) + "\n"
  {
    Render(m.resp, spinner, "Query endpoints...", "Failed to create endpoint: ", (x: EndpointListResponse) => x.err, (x: EndpointListResponse) => pretty(x.endpoints))
  }

  /** The program's run over a stream of messages, up to the first Quit. */
  function RunScreen(m: Model, msgs: seq<Msg>): (r: Model)
    ensures r.resp != m.resp ==> r.resp.Some? && exists i :: 0 <= i < |msgs| && msgs[i] == EndpointListResponseMsg(r.resp.value)
  {
    RunRecordsOnlyDelivered(Classify, m.resp, msgs);
    m.(resp := OneShot.Run(Classify, m.resp, msgs))
  }

  /** What a run records is the first list response, provided no Ctrl+C came before it. */
  lemma RunRecordsResponse(m: Model, msgs: seq<Msg>, i: nat)
    requires i < |msgs| && msgs[i].EndpointListResponseMsg?
    requires forall j :: 0 <= j < i ==> !msgs[j].CtrlC? && !msgs[j].EndpointListResponseMsg?
    ensures RunScreen(m, msgs).resp == Some(msgs[i].endpointList)
  {
    RunRecordsFirstResponse(Classify, m.resp, msgs);
    assert StopsAt(Classify, msgs, i);
  }

  /** A Ctrl+C before any list response ends the run with nothing recorded. */
  lemma InterruptRecordsNothing(m: Model, msgs: seq<Msg>, i: nat)
    requires i < |msgs| && msgs[i].CtrlC?
    requires forall j :: 0 <= j < i ==> !msgs[j].EndpointListResponseMsg?
    ensures RunScreen(m, msgs) == m
  {
    RunRecordsFirstResponse(Classify, m.resp, msgs);
    assert Classify(msgs[i]).Interrupt?;
    forall k | StopsAt(Classify, msgs, k) ensures Classify(msgs[k]).Interrupt? {
    }
  }
}
