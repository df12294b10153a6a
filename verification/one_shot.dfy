/**
 The shape shared by the start, destroy and list screens: one remote call is
 issued together with the spinner's first tick, the screen waits for that
 call's response, and either the response or Ctrl+C ends the program. Every
 other message goes to the spinner. The five screens differ only in which
 response they wait for and in their texts, so each one classifies its
 messages into the `Event`s below and reuses `Update` and `Run`.
 */
module OneShot {
  import opened Api
  import opened Messages

  /** A message as a one-shot screen sees it. */
  datatype Event<R> =
    | Response(resp: R)
    | Interrupt
      /** anything else: handed to the spinner */
    | Pass

  /** One update: the response is recorded and ends the program, Ctrl+C ends
      it with nothing recorded, everything else goes to the spinner. */
  function Update<R>(resp: Option<R>, e: Event<R>): (r: (Option<R>, seq<Cmd>))
    ensures Quit in r.1 <==> !e.Pass?
    ensures e.Pass? ==> r.1 == [Forward(Spinner)]
    ensures r.0 != resp ==> e.Response? && r.0 == Some(e.resp)
  {
    match e
    case Response(x) => (Some(x), [Quit])
    case Interrupt => (resp, [Quit])
    case Pass => (resp, [Forward(Spinner)])
  }

  /** The program's event loop over a screen: updates are applied in order
      and nothing after the first Quit is delivered. */
  function Run<R>(classify: Msg -> Event<R>, resp: Option<R>, msgs: seq<Msg>): Option<R>
    decreases |msgs|
  {
    if msgs == [] then resp
    else
      var r := Update(resp, classify(msgs[0]));
      if Quit in r.1 then r.0 else Run(classify, r.0, msgs[1..])
  }

  /** `msgs[i]` is the first message the screen does not hand to the spinner. */
  predicate StopsAt<R>(classify: Msg -> Event<R>, msgs: seq<Msg>, i: int)
  {
    && 0 <= i < |msgs|
    && !classify(msgs[i]).Pass?
    && forall j :: 0 <= j < i ==> classify(msgs[j]).Pass?
  }

  /** What the program ends up having recorded is decided by the first
      message that is not for the spinner: a response there is recorded,
      and otherwise (Ctrl+C first, or no such message) the starting value
      is what remains. */
  lemma {:induction false} RunRecordsFirstResponse<R>(classify: Msg -> Event<R>, resp: Option<R>, msgs: seq<Msg>)
    ensures forall i :: StopsAt(classify, msgs, i) && classify(msgs[i]).Response? ==>
              Run(classify, resp, msgs) == Some(classify(msgs[i]).resp)
    ensures (forall i :: StopsAt(classify, msgs, i) ==> classify(msgs[i]).Interrupt?) ==>
              Run(classify, resp, msgs) == resp
    decreases |msgs|
  {
    if msgs != [] {
      var e := classify(msgs[0]);
      if e.Pass? {
        RunRecordsFirstResponse(classify, resp, msgs[1..]);
        forall i | StopsAt(classify, msgs, i)
          ensures i >= 1 && StopsAt(classify, msgs[1..], i - 1) && msgs[i] == msgs[1..][i - 1]
        {
          forall j | 0 <= j < i - 1 ensures classify(msgs[1..][j]).Pass? {
            assert msgs[1..][j] == msgs[j + 1];
          }
        }
        if forall i :: StopsAt(classify, msgs, i) ==> classify(msgs[i]).Interrupt? {
          forall i | StopsAt(classify, msgs[1..], i) ensures classify(msgs[1..][i]).Interrupt? {
            assert StopsAt(classify, msgs, i + 1) by {
              forall j | 0 <= j < i + 1 ensures classify(msgs[j]).Pass? {
                if j > 0 { assert msgs[j] == msgs[1..][j - 1]; }
              }
            }
          }
        }
      } else {
        assert StopsAt(classify, msgs, 0);
        forall i | StopsAt(classify, msgs, i) ensures i == 0 {
        }
      }
    }
  }

  /** A run only ever records a response one of its messages carried. */
  lemma {:induction false} RunRecordsOnlyDelivered<R>(classify: Msg -> Event<R>, resp: Option<R>, msgs: seq<Msg>)
    ensures var r := Run(classify, resp, msgs);
      r != resp ==> r.Some? && exists i :: 0 <= i < |msgs| && classify(msgs[i]) == Response(r.value)
    decreases |msgs|
  {
    if msgs != [] {
      var u := Update(resp, classify(msgs[0]));
      if Quit !in u.1 {
        RunRecordsOnlyDelivered(classify, u.0, msgs[1..]);
        var r := Run(classify, resp, msgs);
        if r != resp {
          var i :| 0 <= i < |msgs[1..]| && classify(msgs[1..][i]) == Response(r.value);
          assert msgs[1..][i] == msgs[i + 1];
        }
      } else if u.0 != resp {
        assert classify(msgs[0]) == Response(u.0.value);
      }
    }
  }

  /** The text's last character is a newline; of the one-shot screens, only a finished one's output has one. */
  predicate EndsWithNewline(s: string)
  {
    |s| > 0 && s[|s| - 1] == '\n'
  }

  /** The screen: the spinner and a caption while waiting; afterwards the
      failure line or the rendered success, each ending the output with a
      newline. */
  function Render<R>(resp: Option<R>, spinner: string, waiting: string, failure: string,
                     errOf: R -> Option<string>, success: R -> string): (v: string)
    requires waiting != "" && waiting[|waiting| - 1] != '\n'
    ensures EndsWithNewline(v) <==> resp.Some?
    ensures resp.None? ==> v == spinner + " " + waiting
    ensures resp.Some? && errOf(resp.value).Some? ==> v == failure + errOf(resp.value).value + "\n"
    ensures resp.Some? && errOf(resp.value).None? ==> v == success(resp.value) + "\n"
  {
    match resp
    case None => spinner + " " + waiting
    case Some(x) =>
      if errOf(x).Some? then failure + errOf(x).value + "\n" else success(x) + "\n"
  }
}
