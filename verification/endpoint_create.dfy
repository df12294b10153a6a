/**
 The endpoint-create wizard: name, then the lambda list is loaded and cut
 down to ENDPOINT lambdas, then one is picked, then the path is entered,
 then the create call is made and its outcome is written to the transcript.

 Same shape as the lambda-create wizard: `Step` is the update function and
 `IncStep` the advance-while-possible ladder, whose recursive calls drop the
 commands they are handed unless no further rung fires.
 */
module EndpointCreate {
  import opened Api
  import opened Messages
  import TranscriptText

  const InitStep := 0
  const NameStep := 1
  const LambdasLoadingStep := 2
  const LambdaSelectionStep := 3
  const EndpointStep := 4
  const LoadingStep := 5
  /** The unnamed step after the last rung: the flow is over. */
  const DoneStep := 6

  /** The only lambda type an endpoint can be attached to. */
  const EndpointType := "ENDPOINT"

  /** `transcript` is the source's `static`; `endpoint` is the endpoint's path. */
  datatype Model = Model(
    name: string,
    endpoint: string,
    lambda: Option<Lambda>,
    transcript: string,
    lambdas: seq<Lambda>,
    lambdasLoaded: bool,
    resp: Option<EndpointCreateResponse>,
    step: nat)

  /** A wizard as the command line builds it: the supplied fields, everything else empty. */
  function Init(name: string, endpoint: string, lambda: Option<Lambda>): Model
  {
    Model(name, endpoint, lambda, "", [], false, None, InitStep)
  }

  /** The lambdas of a list response an endpoint may be attached to, in list order. */
  function Eligible(ls: seq<Lambda>): (r: seq<Lambda>)
    ensures |r| <= |ls|
    ensures forall i :: 0 <= i < |r| ==> r[i].lambdaType == EndpointType
    ensures forall l :: l in r <==> l in ls && l.lambdaType == EndpointType
  {
    if |ls| == 0 then []
    else if ls[0].lambdaType == EndpointType then [ls[0]] + Eligible(ls[1..])
    else Eligible(ls[1..])
  }

  /** Filtering keeps the order of the list: the eligible lambdas of two
      consecutive pieces are those of the first piece followed by those of the second. */
  lemma {:induction false} EligibleKeepsOrder(a: seq<Lambda>, b: seq<Lambda>)
    ensures Eligible(a + b) == Eligible(a) + Eligible(b)
    decreases |a|
  {
    if |a| > 0 {
      assert (a + b)[1..] == a[1..] + b;
      EligibleKeepsOrder(a[1..], b);
    } else {
      assert a + b == b;
    }
  }

  /** The precondition of the rung that leaves step `k`, read off `m`'s fields. */
  predicate Guard(m: Model, k: nat)
  {
    if k == InitStep then true
    else if k == NameStep then m.name != ""
    else if k == LambdasLoadingStep then m.lambda.Some? || m.lambdasLoaded
    else if k == LambdaSelectionStep then m.lambda.Some?
    else if k == EndpointStep then m.endpoint != ""
    else if k == LoadingStep then m.resp.Some?
    else false
  }

  /** The transcript text the rung leaving step `k` appends. The path rung
      logs the lambda's name, not the path. */
  function RungLine(m: Model, k: nat, pretty: Option<Endpoint> -> string): string
  {
    if k == NameStep then "\nName: " + m.name
    else if k == LambdaSelectionStep && m.lambda.Some? then "\nLambda endpoint: " + m.lambda.value.name
    else if k == EndpointStep && m.lambda.Some? then "\nPath: " + m.lambda.value.name
    else if k == LoadingStep && m.resp.Some? then CreateOutcome(m.resp.value, pretty)
    else ""
  }

  /** The lines appended by the rungs leaving steps `from` up to `to - 1`, in order. */
  function Lines(m: Model, from: nat, to: nat, pretty: Option<Endpoint> -> string): string
    decreases to - from
  {
    if from >= to then "" else RungLine(m, from, pretty) + Lines(m, from + 1, to, pretty)
  }

  /** The commands the rung leaving step `k` passes on. */
  function RungCmds(m: Model, k: nat): seq<Cmd>
  {
    if k == InitStep then [Blink(NameInput), Focus(NameInput)]
    else if k == NameStep then [ListLambdas, Tick]
    else if k == LambdasLoadingStep then [SetItems(ItemList)]
    else if k == LambdaSelectionStep then [Blink(PathInput), Focus(PathInput)]
    else if k == EndpointStep && m.lambda.Some? then
      [CreateEndpoint(m.name, m.endpoint, m.lambda.value.id), Tick]
    else if k == LoadingStep then [Quit]
    else []
  }

  function CreateOutcome(resp: EndpointCreateResponse, pretty: Option<Endpoint> -> string): string
  {
    if resp.err.Some? then "\n\nFailed to create endpoint: " + resp.err.value
    else "\n\n" + pretty(resp.endpoint)
  }

  /** The source dereferences `Lambda` on the path rung; it cannot be nil past the selection step. */
  predicate LambdaChosen(m: Model)
  {
    m.step > LambdaSelectionStep ==> m.lambda.Some?
  }

  /** Moving to another step or growing the transcript changes no rung's
      precondition, line or commands. */
  lemma RungFrame(m: Model, n: Model, k: nat, pretty: Option<Endpoint> -> string)
    requires n == m.(step := n.step, transcript := n.transcript)
    ensures Guard(n, k) == Guard(m, k)
    ensures RungLine(n, k, pretty) == RungLine(m, k, pretty)
    ensures RungCmds(n, k) == RungCmds(m, k)
  {
  }

  /** A non-empty range of rungs starts with its first rung's line. */
  lemma LinesHead(m: Model, from: nat, to: nat, pretty: Option<Endpoint> -> string)
    requires from < to
    ensures Lines(m, from, to, pretty) == RungLine(m, from, pretty) + Lines(m, from + 1, to, pretty)
  {
  }

  /** The rung just taken had its precondition met, and so did every rung
      the rest of the ladder took after it. */
  lemma ClimbGuards(m: Model, n: Model, pretty: Option<Endpoint> -> string)
    requires Guard(m, m.step) && n.step > m.step
    requires n == m.(step := n.step, transcript := n.transcript)
    requires forall k: nat :: m.step + 1 <= k < n.step ==> Guard(n, k)
    ensures forall k: nat :: m.step <= k < n.step ==> Guard(n, k)
  {
    RungFrame(m, n, m.step, pretty);
  }

  /** The rung's line comes first, then the lines the rest of the ladder appended. */
  lemma ClimbLines(n: Model, from: nat, before: string, line: string, pretty: Option<Endpoint> -> string)
    requires line == RungLine(n, from, pretty) && from < n.step
    requires n.transcript == before + line + Lines(n, from + 1, n.step, pretty)
    ensures n.transcript == before + Lines(n, from, n.step, pretty)
  {
    var rest := Lines(n, from + 1, n.step, pretty);
    LinesHead(n, from, n.step, pretty);
    TranscriptText.AppendAssoc(before, line, rest);
  }

  /** The commands are the last taken rung's: this rung's when the ladder
      stopped right after it. */
  lemma ClimbCmds(m: Model, n: Model, cmds: seq<Cmd>, out: seq<Cmd>)
    requires cmds == RungCmds(m, m.step) && n.step > m.step
    requires n == m.(step := n.step, transcript := n.transcript)
    requires n.step == m.step + 1 ==> out == cmds
    requires n.step > m.step + 1 ==> out == RungCmds(n, n.step - 1)
    ensures out == RungCmds(n, n.step - 1)
  {
    if n.step == m.step + 1 {
      assert RungCmds(n, m.step) == RungCmds(m, m.step);
    }
  }

  /** What the ladder does, run from `m` with the commands `cmds` in hand
      and ending in `r`: it only moves forward, every rung it passed had its
      precondition met and it stopped at the first rung whose precondition
      fails; it changes nothing but the step and the transcript, to which it
      appended the passed rungs' lines in order; and it hands on the last
      passed rung's commands, or `cmds` when no rung fired. */
  predicate Ladder(m: Model, cmds: seq<Cmd>, r: (Model, seq<Cmd>), pretty: Option<Endpoint> -> string)
  {
    && r.0.step >= m.step
    && !Guard(r.0, r.0.step)
    && (forall k: nat :: m.step <= k < r.0.step ==> Guard(r.0, k))
    && r.0 == m.(step := r.0.step, transcript := r.0.transcript)
    && r.0.transcript == m.transcript + Lines(r.0, m.step, r.0.step, pretty)
    && (r.0.step == m.step ==> r.1 == cmds)
    && (r.0.step > m.step ==> r.1 == RungCmds(r.0, r.0.step - 1))
  }

  /** Taking the rung leaving `m.step`, then running the ladder on, is running the ladder from `m`. */
  lemma LadderRung(m: Model, cmds: seq<Cmd>, r: (Model, seq<Cmd>), pretty: Option<Endpoint> -> string)
    requires Guard(m, m.step)
    requires Ladder(m.(step := m.step + 1, transcript := m.transcript + RungLine(m, m.step, pretty)),
                    RungCmds(m, m.step), r, pretty)
    ensures Ladder(m, cmds, r, pretty)
  {
    ClimbGuards(m, r.0, pretty);
    RungFrame(m, r.0, m.step, pretty);
    ClimbLines(r.0, m.step, m.transcript, RungLine(m, m.step, pretty), pretty);
    ClimbCmds(m, r.0, RungCmds(m, m.step), r.1);
  }

  /** The advance-while-possible ladder: while the current step's rung has
      its precondition met, take it (append its line, keep its commands)
      and move to the next step. What it amounts to is `IncStepLadder`. */
  function IncStep(m: Model, cmds: seq<Cmd>, pretty: Option<Endpoint> -> string): (Model, seq<Cmd>)
    requires LambdaChosen(m)
    decreases DoneStep - m.step
  {
    if m.step < DoneStep && Guard(m, m.step) then
      IncStep(m.(step := m.step + 1, transcript := m.transcript + RungLine(m, m.step, pretty)),
              RungCmds(m, m.step), pretty)
    else
      (m, cmds)
  }

  /** The ladder does what `Ladder` says. */
  lemma {:induction false} IncStepLadder(m: Model, cmds: seq<Cmd>, pretty: Option<Endpoint> -> string)
    requires LambdaChosen(m)
    ensures Ladder(m, cmds, IncStep(m, cmds, pretty), pretty)
    decreases DoneStep - m.step
  {
    if m.step < DoneStep && Guard(m, m.step) {
      var n := m.(step := m.step + 1, transcript := m.transcript + RungLine(m, m.step, pretty));
      IncStepLadder(n, RungCmds(m, m.step), pretty);
      LadderRung(m, cmds, IncStep(n, RungCmds(m, m.step), pretty), pretty);
    }
  }

  /** The ladder is an update that never goes back, and it keeps the name. */
  lemma IncStepMovesOn(m: Model, cmds: seq<Cmd>, pretty: Option<Endpoint> -> string)
    requires LambdaChosen(m)
    ensures MovesOn(m, IncStep(m, cmds, pretty)) && IncStep(m, cmds, pretty).0.name == m.name
  {
    IncStepLadder(m, cmds, pretty);
    LadderMovesOn(m, cmds, IncStep(m, cmds, pretty), pretty);
  }

  /** The ladder is an update that never goes back, and it keeps the name. */
  lemma LadderMovesOn(m: Model, cmds: seq<Cmd>, r: (Model, seq<Cmd>), pretty: Option<Endpoint> -> string)
    requires Ladder(m, cmds, r, pretty)
    ensures MovesOn(m, r) && r.0.name == m.name
  {
  }

  /** An update that never goes back: the step does not decrease, the
      transcript only grows, and when rungs were taken the commands are the
      last taken rung's. */
  predicate MovesOn(m: Model, r: (Model, seq<Cmd>))
  {
    && r.0.step >= m.step
    && m.transcript <= r.0.transcript
    && (r.0.step > m.step ==> r.1 == RungCmds(r.0, r.0.step - 1))
  }

  function HandleNameStep(m: Model, msg: Msg, pretty: Option<Endpoint> -> string): (r: (Model, seq<Cmd>))
    requires LambdaChosen(m)
    ensures MovesOn(m, r)
    ensures msg.Esc? ==> r == (m, [Quit])
  {
    match msg
    case Enter(text, _) =>
      var n := m.(name := text);
      IncStepMovesOn(n, [], pretty);
      IncStep(n, [], pretty)
    case Esc => (m, [Quit])
    case _ => (m, [Forward(NameInput)])
  }

  function HandleLambdasLoadingStep(m: Model, msg: Msg, pretty: Option<Endpoint> -> string): (r: (Model, seq<Cmd>))
    requires LambdaChosen(m)
    ensures MovesOn(m, r)
  {
    match msg
    case LambdaListResponseMsg(resp) =>
      if resp.err.Some? then
        (m.(transcript := m.transcript + "\n\nFailed to load lambdas: " + resp.err.value), [Quit])
      else
        var lambdas := m.lambdas + Eligible(resp.lambdas);
        if |lambdas| == 0 then
          (m.(lambdas := lambdas, transcript := m.transcript + "\n\nNo suitable lambdas was found"), [Quit])
        else
          var n := m.(lambdas := lambdas, lambdasLoaded := true);
          IncStepMovesOn(n, [], pretty);
          IncStep(n, [], pretty)
    case _ => (m, [Forward(Spinner)])
  }

  function HandleLambdaSelectionStep(m: Model, msg: Msg, pretty: Option<Endpoint> -> string): (r: (Model, seq<Cmd>))
    requires LambdaChosen(m)
    requires m.step == LambdaSelectionStep
    requires msg.Enter? ==> msg.cursor < |m.lambdas|
    ensures MovesOn(m, r)
    ensures msg.Esc? ==> r == (m, [Quit])
  {
    match msg
    case Enter(_, cursor) =>
      var n := m.(lambda := Some(m.lambdas[cursor]));
      IncStepMovesOn(n, [], pretty);
      IncStep(n, [], pretty)
    case Esc => (m, [Quit])
    case _ => (m, [Forward(ItemList)])
  }

  function HandleEndpointStep(m: Model, msg: Msg, pretty: Option<Endpoint> -> string): (r: (Model, seq<Cmd>))
    requires LambdaChosen(m)
    ensures MovesOn(m, r)
    ensures msg.Esc? ==> r == (m, [Quit])
  {
    match msg
    case Enter(text, _) =>
      var n := m.(endpoint := text);
      IncStepMovesOn(n, [], pretty);
      IncStep(n, [], pretty)
    case Esc => (m, [Quit])
    case _ => (m, [Forward(PathInput)])
  }

  function HandleLoadingStep(m: Model, msg: Msg, pretty: Option<Endpoint> -> string): (r: (Model, seq<Cmd>))
    requires LambdaChosen(m)
    ensures MovesOn(m, r)
  {
    match msg
    case EndpointCreateResponseMsg(resp) =>
      var n := m.(resp := Some(resp));
      IncStepMovesOn(n, [], pretty);
      IncStep(n, [], pretty)
    case _ => (m, [Forward(Spinner)])
  }

  /** What the source demands of a message: the list's cursor is on one of its items. */
  predicate CursorInRange(m: Model, msg: Msg)
  {
    msg.Enter? && m.step == LambdaSelectionStep ==> msg.cursor < |m.lambdas|
  }

  /** The wizard's update function. */
  function Step(m: Model, msg: Msg, pretty: Option<Endpoint> -> string): (r: (Model, seq<Cmd>))
    requires LambdaChosen(m) && CursorInRange(m, msg)
    ensures MovesOn(m, r)
    ensures msg.CtrlC? ==> r == (m, [Quit])
    ensures msg.Esc? && m.step in {NameStep, LambdaSelectionStep, EndpointStep} ==> r == (m, [Quit])
    ensures m.step == InitStep && !msg.Begin? && !msg.CtrlC? ==> r == (m, [])
  {
    match msg
    case Begin =>
      IncStepMovesOn(m, [], pretty);
      IncStep(m, [], pretty)
    case CtrlC => (m, [Quit])
    case _ =>
      if m.step == NameStep then HandleNameStep(m, msg, pretty)
      else if m.step == LambdasLoadingStep then HandleLambdasLoadingStep(m, msg, pretty)
      else if m.step == LambdaSelectionStep then HandleLambdaSelectionStep(m, msg, pretty)
      else if m.step == EndpointStep then HandleEndpointStep(m, msg, pretty)
      else if m.step == LoadingStep then HandleLoadingStep(m, msg, pretty)
      else (m, [])
  }

  /** The screen: the transcript, a newline, then the active step's widget;
      the selection step shows its list alone. */
  function View(m: Model, w: WidgetViews): string
  {
    var transcript := if m.transcript != "" then m.transcript + "\n" else "";
    if m.step == LambdaSelectionStep then w.itemList
    else if m.step == NameStep then transcript + w.nameInput
    else if m.step == LambdasLoadingStep then transcript + w.spinner + " Loading lambdas..."
    else if m.step == EndpointStep then transcript + w.pathInput
    else if m.step == LoadingStep then transcript + w.spinner + " Creating endpoint..."
    else transcript
  }

  /** What holds of every state a wizard started by `Init` can be observed in:
      every rung below the current step had its precondition met, the ladder
      has stopped because the current rung's precondition does not hold, and
      the selection list is only filled once the step that loads it has passed. */
  ghost predicate Inv(m: Model)
  {
    && (forall k: nat :: k < m.step ==> Guard(m, k))
    && (m.step == InitStep || !Guard(m, m.step))
    && LambdaChosen(m)
    && (m.lambdasLoaded ==> |m.lambdas| > 0)
    && (m.step <= LambdasLoadingStep ==> m.lambdas == [] && !m.lambdasLoaded)
    && (m.step < LoadingStep ==> m.resp.None?)
  }

  lemma InitSatisfiesInv(name: string, endpoint: string, lambda: Option<Lambda>)
    ensures Inv(Init(name, endpoint, lambda))
  {
  }

  /** Running the ladder from a state whose passed rungs all had their
      preconditions met leaves a state satisfying Inv. */
  lemma IncStepEstablishesInv(m: Model, cmds: seq<Cmd>, pretty: Option<Endpoint> -> string)
    requires forall k: nat :: k < m.step ==> Guard(m, k)
    requires LambdaChosen(m) && (m.lambdasLoaded ==> |m.lambdas| > 0)
    requires m.step <= LambdasLoadingStep && !m.lambdasLoaded ==> m.lambdas == []
    requires m.step < LambdasLoadingStep ==> !m.lambdasLoaded
    requires m.step < LoadingStep ==> m.resp.None?
    ensures Inv(IncStep(m, cmds, pretty).0)
  {
    IncStepLadder(m, cmds, pretty);
    var n := IncStep(m, cmds, pretty).0;
    forall k: nat | k < n.step ensures Guard(n, k) {
      if k < m.step { RungFrame(m, n, k, pretty); }
    }
    if n.step > LambdaSelectionStep {
      assert Guard(n, LambdaSelectionStep);
    }
  }

  /** Inv is kept by a message that reaches the handler of step NameStep. */
  lemma NameStepKeepsInv(m: Model, msg: Msg, pretty: Option<Endpoint> -> string)
    requires Inv(m) && CursorInRange(m, msg) && m.step == NameStep && !msg.Begin? && !msg.CtrlC?
    ensures Inv(Step(m, msg, pretty).0)
  {
    if msg.Enter? {
      IncStepEstablishesInv(m.(name := msg.text), [], pretty);
    }
  }

  /** Inv is kept by a message that reaches the handler of step LambdasLoadingStep. */
  lemma LambdasLoadingStepKeepsInv(m: Model, msg: Msg, pretty: Option<Endpoint> -> string)
    requires Inv(m) && CursorInRange(m, msg) && m.step == LambdasLoadingStep && !msg.Begin? && !msg.CtrlC?
    ensures Inv(Step(m, msg, pretty).0)
  {
    if msg.LambdaListResponseMsg? && msg.lambdaList.err.None? {
      var lambdas := m.lambdas + Eligible(msg.lambdaList.lambdas);
      var m1 := m.(lambdas := lambdas, lambdasLoaded := true);
      if |lambdas| > 0 {
        assert forall k: nat :: k < m1.step ==> Guard(m1, k) by {
          forall k: nat | k < m1.step ensures Guard(m1, k) { assert Guard(m, k); }
        }
        IncStepEstablishesInv(m1, [], pretty);
      } else {
        var n := Step(m, msg, pretty).0;
        forall k: nat | k < n.step ensures Guard(n, k) { assert Guard(m, k); }
      }
    } else if msg.LambdaListResponseMsg? {
      var n := Step(m, msg, pretty).0;
      forall k: nat | k < n.step ensures Guard(n, k) { assert Guard(m, k); }
    }
  }

  /** Inv is kept by a message that reaches the handler of step LambdaSelectionStep. */
  lemma LambdaSelectionStepKeepsInv(m: Model, msg: Msg, pretty: Option<Endpoint> -> string)
    requires Inv(m) && CursorInRange(m, msg) && m.step == LambdaSelectionStep && !msg.Begin? && !msg.CtrlC?
    ensures Inv(Step(m, msg, pretty).0)
  {
    if msg.Enter? {
      var m1 := m.(lambda := Some(m.lambdas[msg.cursor]));
      assert forall k: nat :: k < m1.step ==> Guard(m1, k) by {
        forall k: nat | k < m1.step ensures Guard(m1, k) { assert Guard(m, k); }
      }
      IncStepEstablishesInv(m1, [], pretty);
    }
  }

  /** Inv is kept by a message that reaches the handler of step EndpointStep. */
  lemma EndpointStepKeepsInv(m: Model, msg: Msg, pretty: Option<Endpoint> -> string)
    requires Inv(m) && CursorInRange(m, msg) && m.step == EndpointStep && !msg.Begin? && !msg.CtrlC?
    ensures Inv(Step(m, msg, pretty).0)
  {
    if msg.Enter? {
      var m1 := m.(endpoint := msg.text);
      assert forall k: nat :: k < m1.step ==> Guard(m1, k) by {
        forall k: nat | k < m1.step ensures Guard(m1, k) { assert Guard(m, k); }
      }
      IncStepEstablishesInv(m1, [], pretty);
    }
  }

  /** Inv is kept by a message that reaches the handler of step LoadingStep. */
  lemma LoadingStepKeepsInv(m: Model, msg: Msg, pretty: Option<Endpoint> -> string)
    requires Inv(m) && CursorInRange(m, msg) && m.step == LoadingStep && !msg.Begin? && !msg.CtrlC?
    ensures Inv(Step(m, msg, pretty).0)
  {
    if msg.EndpointCreateResponseMsg? {
      var m1 := m.(resp := Some(msg.endpointCreate));
      assert forall k: nat :: k < m1.step ==> Guard(m1, k) by {
        forall k: nat | k < m1.step ensures Guard(m1, k) { assert Guard(m, k); }
      }
      IncStepEstablishesInv(m1, [], pretty);
    }
  }

  lemma StepPreservesInv(m: Model, msg: Msg, pretty: Option<Endpoint> -> string)
    requires Inv(m) && CursorInRange(m, msg)
    ensures Inv(Step(m, msg, pretty).0)
  {
    if msg.Begin? {
      IncStepEstablishesInv(m, [], pretty);
    } else if msg.CtrlC? || m.step == InitStep || m.step > LoadingStep {
    } else if m.step == NameStep {
      NameStepKeepsInv(m, msg, pretty);
    } else if m.step == LambdasLoadingStep {
      LambdasLoadingStepKeepsInv(m, msg, pretty);
    } else if m.step == LambdaSelectionStep {
      LambdaSelectionStepKeepsInv(m, msg, pretty);
    } else if m.step == EndpointStep {
      EndpointStepKeepsInv(m, msg, pretty);
    } else if m.step == LoadingStep {
      LoadingStepKeepsInv(m, msg, pretty);
    }
  }

  /** How the lambda-loading step reacts to the list response: a failure, or
      a list without ENDPOINT lambdas, is logged and quits without advancing;
      otherwise exactly the ENDPOINT lambdas, in list order, are offered for selection. */
  lemma LambdaListOutcome(m: Model, resp: LambdaListResponse, pretty: Option<Endpoint> -> string)
    requires Inv(m) && m.step == LambdasLoadingStep
    ensures var r := Step(m, LambdaListResponseMsg(resp), pretty);
      && (resp.err.Some? ==>
            r == (m.(transcript := m.transcript + "\n\nFailed to load lambdas: " + resp.err.value), [Quit]))
      && (resp.err.None? && Eligible(resp.lambdas) == [] ==>
            r.0.step == m.step && r.1 == [Quit]
            && r.0.transcript == m.transcript + "\n\nNo suitable lambdas was found")
      && (resp.err.None? && Eligible(resp.lambdas) != [] ==>
            r.0.step == LambdaSelectionStep && r.0.lambdas == Eligible(resp.lambdas)
            && r.1 == [SetItems(ItemList)])
  {
    var lambdas := m.lambdas + Eligible(resp.lambdas);
    assert lambdas == Eligible(resp.lambdas);
    if resp.err.None? && lambdas != [] {
      var m1 := m.(lambdas := lambdas, lambdasLoaded := true);
      var r := IncStep(m1, [], pretty);
      IncStepLadder(m1, [], pretty);
      assert !Guard(m, LambdasLoadingStep);
      assert Guard(r.0, LambdasLoadingStep) && !Guard(r.0, LambdaSelectionStep);
    }
  }

  /** A lambda given on the command line skips the loading and selection
      steps: once the name is known, the wizard lands on the path input (or
      further) and issues the path input's focus commands or the create call,
      never the lambda list request. */
  lemma SuppliedLambdaSkipsList(m: Model, msg: Msg, pretty: Option<Endpoint> -> string)
    requires Inv(m) && CursorInRange(m, msg) && m.lambda.Some?
    ensures var r := Step(m, msg, pretty);
      && r.0.lambda == m.lambda
      && ListLambdas !in r.1
      && (r.0.step > m.step && r.0.step == EndpointStep ==> r.1 == [Blink(PathInput), Focus(PathInput)])
      && r.0.step !in {LambdasLoadingStep, LambdaSelectionStep}
  {
    var r := Step(m, msg, pretty);
    StepPreservesInv(m, msg, pretty);
    if msg.Begin? {
      IncStepLadder(m, [], pretty);
    } else if msg.CtrlC? {
    } else if m.step == NameStep && msg.Enter? {
      IncStepLadder(m.(name := msg.text), [], pretty);
    } else if m.step == EndpointStep && msg.Enter? {
      IncStepLadder(m.(endpoint := msg.text), [], pretty);
    } else if m.step == LoadingStep && msg.EndpointCreateResponseMsg? {
      IncStepLadder(m.(resp := Some(msg.endpointCreate)), [], pretty);
    }
    if r.0.step > m.step {
      assert r.1 == RungCmds(r.0, r.0.step - 1);
    }
  }

  /** The path rung needs a non-empty path and issues the create call with
      the name, path and chosen lambda's id; its transcript line records the
      lambda's name. */
  lemma PathSubmitsCreate(m: Model, text: string, cursor: nat, pretty: Option<Endpoint> -> string)
    requires Inv(m) && m.step == EndpointStep
    ensures var r := Step(m, Enter(text, cursor), pretty);
      && (text == "" ==> r == (m.(endpoint := ""), []))
      && (text != "" ==>
            && r.0.step == LoadingStep
            && r.0.transcript == m.transcript + "\nPath: " + m.lambda.value.name
            && r.1 == [CreateEndpoint(m.name, text, m.lambda.value.id), Tick])
  {
    if text != "" {
      var m1 := m.(endpoint := text);
      var r := IncStep(m1, [], pretty);
      IncStepLadder(m1, [], pretty);
      assert Guard(r.0, EndpointStep) && !Guard(r.0, LoadingStep);
      assert Lines(r.0, EndpointStep, LoadingStep, pretty) == "\nPath: " + m.lambda.value.name;
    }
  }

  /** The create response ends the flow: the outcome is logged after the
      transcript so far and Quit is the only command. */
  lemma CreateResponseEndsFlow(m: Model, resp: EndpointCreateResponse, pretty: Option<Endpoint> -> string)
    requires Inv(m) && m.step == LoadingStep
    ensures var r := Step(m, EndpointCreateResponseMsg(resp), pretty);
      && r.0.step == DoneStep
      && r.1 == [Quit]
      && (resp.err.Some? ==> r.0.transcript == m.transcript + "\n\nFailed to create endpoint: " + resp.err.value)
      && (resp.err.None? ==> r.0.transcript == m.transcript + "\n\n" + pretty(resp.endpoint))
  {
    var m1 := m.(resp := Some(resp));
    var r := IncStep(m1, [], pretty);
    IncStepLadder(m1, [], pretty);
    assert Guard(r.0, LoadingStep) && !Guard(r.0, DoneStep);
    assert Lines(r.0, LoadingStep, DoneStep, pretty) == CreateOutcome(resp, pretty);
  }

  /** Enter on the selection step records the highlighted lambda, one of
      the ENDPOINT lambdas offered, and moves past that step. */
  lemma SelectionRecordsHighlightedLambda(m: Model, text: string, cursor: nat, pretty: Option<Endpoint> -> string)
    requires Inv(m) && m.step == LambdaSelectionStep && CursorInRange(m, Enter(text, cursor))
    ensures var r := Step(m, Enter(text, cursor), pretty);
      && r.0.step > m.step
      && r.0.lambda == Some(m.lambdas[cursor])
  {
    IncStepLadder(m.(lambda := Some(m.lambdas[cursor])), [], pretty);
  }

  /** Every step but the selection list shows the whole transcript first;
      once the flow is over nothing follows it. */
  lemma ViewShowsTranscript(m: Model, w: WidgetViews)
    ensures m.step != LambdaSelectionStep ==> m.transcript <= View(m, w)
    ensures m.step == LambdaSelectionStep ==> View(m, w) == w.itemList
    ensures m.step == DoneStep ==>
      View(m, w) == (if m.transcript == "" then "" else m.transcript + "\n")
  {
  }

  /** The messages of a run can be delivered: the list cursor is in range when Enter arrives. */
  ghost predicate Deliverable(m: Model, msgs: seq<Msg>, pretty: Option<Endpoint> -> string)
    decreases |msgs|
  {
    |msgs| == 0 ||
      (Inv(m) && CursorInRange(m, msgs[0]) &&
        var r := Step(m, msgs[0], pretty);
        Quit in r.1 || Deliverable(r.0, msgs[1..], pretty))
  }

  /** The event loop: messages are handled one at a time, in order, until a
      transition asks to quit. */
  ghost function Run(m: Model, msgs: seq<Msg>, pretty: Option<Endpoint> -> string): Model
    requires Deliverable(m, msgs, pretty)
    decreases |msgs|
  {
    if |msgs| == 0 then m
    else
      var r := Step(m, msgs[0], pretty);
      if Quit in r.1 then r.0 else Run(r.0, msgs[1..], pretty)
  }

  /** Over any sequence of messages the step never goes back, the transcript
      only grows, and Inv is kept. */
  lemma {:induction false} RunMonotone(m: Model, msgs: seq<Msg>, pretty: Option<Endpoint> -> string)
    requires Inv(m) && Deliverable(m, msgs, pretty)
    ensures Run(m, msgs, pretty).step >= m.step
    ensures m.transcript <= Run(m, msgs, pretty).transcript
    ensures Inv(Run(m, msgs, pretty))
    decreases |msgs|
  {
    if |msgs| > 0 {
      var r := Step(m, msgs[0], pretty);
      StepPreservesInv(m, msgs[0], pretty);
      if Quit !in r.1 {
        RunMonotone(r.0, msgs[1..], pretty);
      }
    }
  }
}
