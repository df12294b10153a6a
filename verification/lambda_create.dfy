/**
 The lambda-create wizard: name, then the runtime list is loaded, then a
 runtime is picked, then a lambda type, then the create call is made and its
 outcome is written to the transcript.

 The wizard state is an immutable record and `Step` is the update function:
 it takes the state and one message and gives back the next state and the
 commands for the event loop. The step ladder `IncStep` advances the step
 one rung at a time while the current rung's precondition holds; every rung
 hands its commands to the next recursive call, which drops them unless it
 is the last, so only the commands of the last rung taken are returned.
 */
module LambdaCreate {
  import opened Api
  import opened Messages
  import TranscriptText

  const InitStep := 0
  const NameStep := 1
  const RuntimesLoadingStep := 2
  const RuntimeSelectionStep := 3
  const TypeStep := 4
  const LoadingStep := 5
  /** The unnamed step after the last rung: the flow is over. */
  const DoneStep := 6

  datatype TypeItem = TypeItem(lambdaType: string, name: string, desc: string)

  /** The entries of the lambda-type selection list, in display order. */
  const LambdaTypes: seq<TypeItem> := [
    TypeItem("ENDPOINT", "Endpoint", "Could be called outside"),
    TypeItem("INTERNAL", "Intenal", "Being used for internal communication only")
  ]

  /** `transcript` (the source's `static`) is the log of completed steps shown above the active widget. */
  datatype Model = Model(
    name: string,
    lambdaType: string,
    path: string,
    runtime: Option<Runtime>,
    transcript: string,
    runtimes: seq<Runtime>,
    runtimesLoaded: bool,
    resp: Option<LambdaCreateResponse>,
    step: nat)

  /** A wizard as the command line builds it: the supplied fields, everything else empty. */
  function Init(name: string, runtime: Option<Runtime>, lambdaType: string, path: string): Model
  {
    Model(name, lambdaType, path, runtime, "", [], false, None, InitStep)
  }

  /** The precondition of the rung that leaves step `k`, read off `m`'s fields. */
  predicate Guard(m: Model, k: nat)
  {
    if k == InitStep then true
    else if k == NameStep then m.name != ""
    else if k == RuntimesLoadingStep then m.runtime.Some? || m.runtimesLoaded
    else if k == RuntimeSelectionStep then m.runtime.Some?
    else if k == TypeStep then m.lambdaType != ""
    else if k == LoadingStep then m.resp.Some?
    else false
  }

  /** The transcript text the rung leaving step `k` appends. */
  function RungLine(m: Model, k: nat, pretty: Option<Lambda> -> string): string
  {
    if k == NameStep then "\nName: " + m.name
    else if k == RuntimeSelectionStep && m.runtime.Some? then "\nRuntime: " + m.runtime.value.name
    else if k == TypeStep then "\nLambda type: " + m.lambdaType
    else if k == LoadingStep && m.resp.Some? then CreateOutcome(m.resp.value, pretty)
    else ""
  }

  /** The lines appended by the rungs leaving steps `from` up to `to - 1`, in order. */
  function Lines(m: Model, from: nat, to: nat, pretty: Option<Lambda> -> string): string
    decreases to - from
  {
    if from >= to then "" else RungLine(m, from, pretty) + Lines(m, from + 1, to, pretty)
  }

  /** The commands the rung leaving step `k` passes on. */
  function RungCmds(m: Model, k: nat): seq<Cmd>
  {
    if k == InitStep then [Blink(NameInput), Focus(NameInput)]
    else if k == NameStep then [ListRuntimes, Tick]
    else if k == RuntimesLoadingStep then [SetItems(ItemList)]
    else if k == TypeStep && m.runtime.Some? then
      [CreateLambda(m.name, m.runtime.value.id, m.lambdaType, m.path), Tick]
    else if k == LoadingStep then [Quit]
    else []
  }

  function CreateOutcome(resp: LambdaCreateResponse, pretty: Option<Lambda> -> string): string
  {
    if resp.err.Some? then "\n\nFailed to create lambda: " + resp.err.value
    else "\n\n" + pretty(resp.lambda)
  }

  /** The source dereferences `Runtime` on the type rung; it cannot be nil past the selection step. */
  predicate RuntimeChosen(m: Model)
  {
    m.step > RuntimeSelectionStep ==> m.runtime.Some?
  }

  /** Moving to another step or growing the transcript changes no rung's
      precondition, line or commands. */
  lemma RungFrame(m: Model, n: Model, k: nat, pretty: Option<Lambda> -> string)
    requires n == m.(step := n.step, transcript := n.transcript)
    ensures Guard(n, k) == Guard(m, k)
    ensures RungLine(n, k, pretty) == RungLine(m, k, pretty)
    ensures RungCmds(n, k) == RungCmds(m, k)
  {
  }

  /** A non-empty range of rungs starts with its first rung's line. */
  lemma LinesHead(m: Model, from: nat, to: nat, pretty: Option<Lambda> -> string)
    requires from < to
    ensures Lines(m, from, to, pretty) == RungLine(m, from, pretty) + Lines(m, from + 1, to, pretty)
  {
  }

  /** The rung just taken had its precondition met, and so did every rung
      the rest of the ladder took after it. */
  lemma ClimbGuards(m: Model, n: Model, pretty: Option<Lambda> -> string)
    requires Guard(m, m.step) && n.step > m.step
    requires n == m.(step := n.step, transcript := n.transcript)
    requires forall k: nat :: m.step + 1 <= k < n.step ==> Guard(n, k)
    ensures forall k: nat :: m.step <= k < n.step ==> Guard(n, k)
  {
    RungFrame(m, n, m.step, pretty);
  }

  /** The rung's line comes first, then the lines the rest of the ladder appended. */
  lemma ClimbLines(n: Model, from: nat, before: string, line: string, pretty: Option<Lambda> -> string)
    requires line == RungLine(n, from, pretty) && from < n.step
    requires n.transcript == before + line + Lines(n, from + 1, n.step, pretty)
    ensures n.transcript == before + Lines(n, from, n.step, pretty)
  {
    var rest := Lines(n, from + 1, n.step, pretty);
    LinesHead(n, from, n.step, pretty);
    TranscriptText.AppendAssoc(before, line, rest);
  }

  /** The commands are the last taken rung's: this rung's when the ladder
      stopped right after it. */
  lemma ClimbCmds(m: Model, n: Model, cmds: seq<Cmd>, out: seq<Cmd>)
    requires cmds == RungCmds(m, m.step) && n.step > m.step
    requires n == m.(step := n.step, transcript := n.transcript)
    requires n.step == m.step + 1 ==> out == cmds
    requires n.step > m.step + 1 ==> out == RungCmds(n, n.step - 1)
    ensures out == RungCmds(n, n.step - 1)
  {
    if n.step == m.step + 1 {
      assert RungCmds(n, m.step) == RungCmds(m, m.step);
    }
  }

  /** What the ladder does, run from `m` with the commands `cmds` in hand
      and ending in `r`: it only moves forward, every rung it passed had its
      precondition met and it stopped at the first rung whose precondition
      fails; it changes nothing but the step and the transcript, to which it
      appended the passed rungs' lines in order; and it hands on the last
      passed rung's commands, or `cmds` when no rung fired. */
  predicate Ladder(m: Model, cmds: seq<Cmd>, r: (Model, seq<Cmd>), pretty: Option<Lambda> -> string)
  {
    && r.0.step >= m.step
    && !Guard(r.0, r.0.step)
    && (forall k: nat :: m.step <= k < r.0.step ==> Guard(r.0, k))
    && r.0 == m.(step := r.0.step, transcript := r.0.transcript)
    && r.0.transcript == m.transcript + Lines(r.0, m.step, r.0.step, pretty)
    && (r.0.step == m.step ==> r.1 == cmds)
    && (r.0.step > m.step ==> r.1 == RungCmds(r.0, r.0.step - 1))
  }

  /** Taking the rung leaving `m.step`, then running the ladder on, is running the ladder from `m`. */
  lemma LadderRung(m: Model, cmds: seq<Cmd>, r: (Model, seq<Cmd>), pretty: Option<Lambda> -> string)
    requires Guard(m, m.step)
    requires Ladder(m.(step := m.step + 1, transcript := m.transcript + RungLine(m, m.step, pretty)),
                    RungCmds(m, m.step), r, pretty)
    ensures Ladder(m, cmds, r, pretty)
  {
    ClimbGuards(m, r.0, pretty);
    RungFrame(m, r.0, m.step, pretty);
    ClimbLines(r.0, m.step, m.transcript, RungLine(m, m.step, pretty), pretty);
    ClimbCmds(m, r.0, RungCmds(m, m.step), r.1);
  }

  /** The advance-while-possible ladder: while the current step's rung has
      its precondition met, take it (append its line, keep its commands)
      and move to the next step. What it amounts to is `IncStepLadder`. */
  function IncStep(m: Model, cmds: seq<Cmd>, pretty: Option<Lambda> -> string): (Model, seq<Cmd>)
    requires RuntimeChosen(m)
    decreases DoneStep - m.step
  {
    if m.step < DoneStep && Guard(m, m.step) then
      IncStep(m.(step := m.step + 1, transcript := m.transcript + RungLine(m, m.step, pretty)),
              RungCmds(m, m.step), pretty)
    else
      (m, cmds)
  }

  /** The ladder does what `Ladder` says. */
  lemma {:induction false} IncStepLadder(m: Model, cmds: seq<Cmd>, pretty: Option<Lambda> -> string)
    requires RuntimeChosen(m)
    ensures Ladder(m, cmds, IncStep(m, cmds, pretty), pretty)
    decreases DoneStep - m.step
  {
    if m.step < DoneStep && Guard(m, m.step) {
      var n := m.(step := m.step + 1, transcript := m.transcript + RungLine(m, m.step, pretty));
      IncStepLadder(n, RungCmds(m, m.step), pretty);
      LadderRung(m, cmds, IncStep(n, RungCmds(m, m.step), pretty), pretty);
    }
  }

  /** The ladder is an update that never goes back, and it keeps the name. */
  lemma IncStepMovesOn(m: Model, cmds: seq<Cmd>, pretty: Option<Lambda> -> string)
    requires RuntimeChosen(m)
    ensures MovesOn(m, IncStep(m, cmds, pretty)) && IncStep(m, cmds, pretty).0.name == m.name
  {
    IncStepLadder(m, cmds, pretty);
    LadderMovesOn(m, cmds, IncStep(m, cmds, pretty), pretty);
  }

  /** The ladder is an update that never goes back, and it keeps the name. */
  lemma LadderMovesOn(m: Model, cmds: seq<Cmd>, r: (Model, seq<Cmd>), pretty: Option<Lambda> -> string)
    requires Ladder(m, cmds, r, pretty)
    ensures MovesOn(m, r) && r.0.name == m.name
  {
  }

  /** An update that never goes back: the step does not decrease, the
      transcript only grows, and when rungs were taken the commands are the
      last taken rung's. */
  predicate MovesOn(m: Model, r: (Model, seq<Cmd>))
  {
    && r.0.step >= m.step
    && m.transcript <= r.0.transcript
    && (r.0.step > m.step ==> r.1 == RungCmds(r.0, r.0.step - 1))
  }

  function HandleNameStep(m: Model, msg: Msg, pretty: Option<Lambda> -> string): (r: (Model, seq<Cmd>))
    requires RuntimeChosen(m)
    ensures MovesOn(m, r)
    ensures msg.Esc? ==> r == (m, [Quit])
    ensures r.0.name == (if msg.Enter? then msg.text else m.name)
  {
    match msg
    case Enter(text, _) =>
      var n := m.(name := text);
      IncStepMovesOn(n, [], pretty);
      IncStep(n, [], pretty)
    case Esc => (m, [Quit])
    case _ => (m, [Forward(NameInput)])
  }

  function HandleRuntimesLoadingStep(m: Model, msg: Msg, pretty: Option<Lambda> -> string): (r: (Model, seq<Cmd>))
    requires RuntimeChosen(m)
    ensures MovesOn(m, r)
    ensures r.0.name == m.name
  {
    match msg
    case RuntimeListResponseMsg(resp) =>
      if resp.err.Some? then
        (m.(transcript := m.transcript + "\n\nFailed to load runtimes: " + resp.err.value), [Quit])
      else if |resp.runtimes| == 0 then
        (m.(runtimes := resp.runtimes, transcript := m.transcript + "\n\nNo runtimes was found"), [Quit])
      else
        var n := m.(runtimes := resp.runtimes, runtimesLoaded := true);
        IncStepMovesOn(n, [], pretty);
        IncStep(n, [], pretty)
    case _ => (m, [Forward(Spinner)])
  }

  function HandleRuntimeSelectionStep(m: Model, msg: Msg, pretty: Option<Lambda> -> string): (r: (Model, seq<Cmd>))
    requires RuntimeChosen(m)
    requires m.step == RuntimeSelectionStep
    requires msg.Enter? ==> msg.cursor < |m.runtimes|
    ensures MovesOn(m, r)
    ensures msg.Esc? ==> r == (m, [Quit])
    ensures r.0.name == m.name
  {
    match msg
    case Enter(_, cursor) =>
      var n := m.(runtime := Some(m.runtimes[cursor]));
      IncStepMovesOn(n, [], pretty);
      IncStep(n, [], pretty)
    case Esc => (m, [Quit])
    case _ => (m, [Forward(ItemList)])
  }

  function HandleTypeStep(m: Model, msg: Msg, pretty: Option<Lambda> -> string): (r: (Model, seq<Cmd>))
    requires RuntimeChosen(m)
    requires msg.Enter? ==> msg.cursor < |LambdaTypes|
    ensures MovesOn(m, r)
    ensures msg.Esc? ==> r == (m, [Quit])
    ensures r.0.name == m.name
  {
    match msg
    case Enter(_, cursor) =>
      var n := m.(lambdaType := LambdaTypes[cursor].lambdaType);
      IncStepMovesOn(n, [], pretty);
      IncStep(n, [], pretty)
    case Esc => (m, [Quit])
    case _ => (m, [Forward(TypeList)])
  }

  function HandleLoadingStep(m: Model, msg: Msg, pretty: Option<Lambda> -> string): (r: (Model, seq<Cmd>))
    requires RuntimeChosen(m)
    ensures MovesOn(m, r)
    ensures r.0.name == m.name
  {
    match msg
    case LambdaCreateResponseMsg(resp) =>
      var n := m.(resp := Some(resp));
      IncStepMovesOn(n, [], pretty);
      IncStep(n, [], pretty)
    case _ => (m, [Forward(Spinner)])
  }

  /** What the source demands of a message: a selection list's cursor is on one of its items. */
  predicate CursorInRange(m: Model, msg: Msg)
  {
    msg.Enter? ==>
      && (m.step == RuntimeSelectionStep ==> msg.cursor < |m.runtimes|)
      && (m.step == TypeStep ==> msg.cursor < |LambdaTypes|)
  }

  /** The wizard's update function. */
  function Step(m: Model, msg: Msg, pretty: Option<Lambda> -> string): (r: (Model, seq<Cmd>))
    requires RuntimeChosen(m) && CursorInRange(m, msg)
    ensures MovesOn(m, r)
    ensures msg.CtrlC? ==> r == (m, [Quit])
    ensures msg.Esc? && m.step in {NameStep, RuntimeSelectionStep, TypeStep} ==> r == (m, [Quit])
    ensures m.step == InitStep && !msg.Begin? && !msg.CtrlC? ==> r == (m, [])
    ensures r.0.name == m.name || (m.step == NameStep && msg.Enter? && r.0.name == msg.text)
  {
    match msg
    case Begin =>
      IncStepMovesOn(m, [], pretty);
      IncStep(m, [], pretty)
    case CtrlC => (m, [Quit])
    case _ =>
      if m.step == NameStep then HandleNameStep(m, msg, pretty)
      else if m.step == RuntimesLoadingStep then HandleRuntimesLoadingStep(m, msg, pretty)
      else if m.step == RuntimeSelectionStep then HandleRuntimeSelectionStep(m, msg, pretty)
      else if m.step == TypeStep then HandleTypeStep(m, msg, pretty)
      else if m.step == LoadingStep then HandleLoadingStep(m, msg, pretty)
      else (m, [])
  }

  /** Whether `Step` hands its result back through the ladder. In the source
      the ladder has a pointer receiver and every other return of the update
      function hands back the model by value, so this decides the dynamic
      type of the model the event loop finally returns. */
  predicate ViaLadder(m: Model, msg: Msg)
  {
    match msg
    case Begin => true
    case CtrlC => false
    case _ =>
      if m.step == NameStep || m.step == RuntimeSelectionStep || m.step == TypeStep then msg.Enter?
      else if m.step == RuntimesLoadingStep then
        msg.RuntimeListResponseMsg? && msg.runtimeList.err.None? && |msg.runtimeList.runtimes| > 0
      else if m.step == LoadingStep then msg.LambdaCreateResponseMsg?
      else false
  }

  /** The transitions that quit without going through the ladder are exactly
      Ctrl+C, Esc on the name, runtime-selection or type step, and a runtime
      list that failed or came back empty; a transition outside the ladder
      never moves the step. */
  lemma QuitsOutsideLadder(m: Model, msg: Msg, pretty: Option<Lambda> -> string)
    requires Inv(m) && CursorInRange(m, msg)
    ensures var r := Step(m, msg, pretty);
      (Quit in r.1 && !ViaLadder(m, msg)) <==>
        || msg.CtrlC?
        || (msg.Esc? && m.step in {NameStep, RuntimeSelectionStep, TypeStep})
        || (m.step == RuntimesLoadingStep && msg.RuntimeListResponseMsg?
            && (msg.runtimeList.err.Some? || |msg.runtimeList.runtimes| == 0))
    ensures !ViaLadder(m, msg) ==> Step(m, msg, pretty).0.step == m.step
  {
  }

  /** The created lambda, once the create response has arrived and carried one. */
  function GetLambda(m: Model): Option<Lambda>
  {
    if m.resp.None? then None else m.resp.value.lambda
  }

  /** The screen: the transcript, a newline, then the active step's widget; the
      two selection steps show their list alone. */
  function View(m: Model, w: WidgetViews): string
  {
    var transcript := if m.transcript != "" then m.transcript + "\n" else "";
    if m.step == RuntimeSelectionStep then w.itemList
    else if m.step == TypeStep then w.typeList
    else if m.step == NameStep then transcript + w.nameInput
    else if m.step == RuntimesLoadingStep then transcript + w.spinner + " Loading runtimes..."
    else if m.step == LoadingStep then transcript + w.spinner + " Creating lambda..."
    else transcript
  }

  /** What holds of every state a wizard started by `Init` can be observed in:
      every rung below the current step had its precondition met (and the
      fields it read have not changed since), and, once the wizard has
      started, the ladder has stopped because the current rung's
      precondition does not hold. */
  ghost predicate Inv(m: Model)
  {
    && (forall k: nat :: k < m.step ==> Guard(m, k))
    && (m.step == InitStep || !Guard(m, m.step))
    && RuntimeChosen(m)
    && (m.runtimesLoaded ==> |m.runtimes| > 0)
  }

  lemma InitSatisfiesInv(name: string, runtime: Option<Runtime>, lambdaType: string, path: string)
    ensures Inv(Init(name, runtime, lambdaType, path))
  {
  }

  /** Running the ladder from a state whose passed rungs all had their
      preconditions met leaves a state satisfying Inv. */
  lemma IncStepEstablishesInv(m: Model, cmds: seq<Cmd>, pretty: Option<Lambda> -> string)
    requires forall k: nat :: k < m.step ==> Guard(m, k)
    requires RuntimeChosen(m) && (m.runtimesLoaded ==> |m.runtimes| > 0)
    ensures Inv(IncStep(m, cmds, pretty).0)
  {
    IncStepLadder(m, cmds, pretty);
    var n := IncStep(m, cmds, pretty).0;
    forall k: nat | k < n.step ensures Guard(n, k) {
      if k < m.step { RungFrame(m, n, k, pretty); }
    }
    if n.step > RuntimeSelectionStep {
      assert Guard(n, RuntimeSelectionStep);
    }
  }

  /** Inv says the step never went past a rung whose precondition the ladder
      did not see hold, and that it never waits on a step whose value is already there. */
  /** Inv is kept by a message that reaches the handler of step NameStep. */
  lemma NameStepKeepsInv(m: Model, msg: Msg, pretty: Option<Lambda> -> string)
    requires Inv(m) && CursorInRange(m, msg) && m.step == NameStep && !msg.Begin? && !msg.CtrlC?
    ensures Inv(Step(m, msg, pretty).0)
  {
    if msg.Enter? {
      IncStepEstablishesInv(m.(name := msg.text), [], pretty);
    }
  }

  /** Inv is kept by a message that reaches the handler of step RuntimesLoadingStep. */
  lemma RuntimesLoadingStepKeepsInv(m: Model, msg: Msg, pretty: Option<Lambda> -> string)
    requires Inv(m) && CursorInRange(m, msg) && m.step == RuntimesLoadingStep && !msg.Begin? && !msg.CtrlC?
    ensures Inv(Step(m, msg, pretty).0)
  {
    if msg.RuntimeListResponseMsg? && msg.runtimeList.err.None? && |msg.runtimeList.runtimes| > 0 {
      var m1 := m.(runtimes := msg.runtimeList.runtimes, runtimesLoaded := true);
      assert forall k: nat :: k < m1.step ==> Guard(m1, k) by {
        forall k: nat | k < m1.step ensures Guard(m1, k) { assert Guard(m, k); }
      }
      IncStepEstablishesInv(m1, [], pretty);
    } else if msg.RuntimeListResponseMsg? {
      var n := Step(m, msg, pretty).0;
      forall k: nat | k < n.step ensures Guard(n, k) { assert Guard(m, k); }
    }
  }

  /** Inv is kept by a message that reaches the handler of step RuntimeSelectionStep. */
  lemma RuntimeSelectionStepKeepsInv(m: Model, msg: Msg, pretty: Option<Lambda> -> string)
    requires Inv(m) && CursorInRange(m, msg) && m.step == RuntimeSelectionStep && !msg.Begin? && !msg.CtrlC?
    ensures Inv(Step(m, msg, pretty).0)
  {
    if msg.Enter? {
      var m1 := m.(runtime := Some(m.runtimes[msg.cursor]));
      assert forall k: nat :: k < m1.step ==> Guard(m1, k) by {
        forall k: nat | k < m1.step ensures Guard(m1, k) { assert Guard(m, k); }
      }
      IncStepEstablishesInv(m1, [], pretty);
    }
  }

  /** Inv is kept by a message that reaches the handler of step TypeStep. */
  lemma TypeStepKeepsInv(m: Model, msg: Msg, pretty: Option<Lambda> -> string)
    requires Inv(m) && CursorInRange(m, msg) && m.step == TypeStep && !msg.Begin? && !msg.CtrlC?
    ensures Inv(Step(m, msg, pretty).0)
  {
    if msg.Enter? {
      var m1 := m.(lambdaType := LambdaTypes[msg.cursor].lambdaType);
      assert forall k: nat :: k < m1.step ==> Guard(m1, k) by {
        forall k: nat | k < m1.step ensures Guard(m1, k) { assert Guard(m, k); }
      }
      IncStepEstablishesInv(m1, [], pretty);
    }
  }

  /** Inv is kept by a message that reaches the handler of step LoadingStep. */
  lemma LoadingStepKeepsInv(m: Model, msg: Msg, pretty: Option<Lambda> -> string)
    requires Inv(m) && CursorInRange(m, msg) && m.step == LoadingStep && !msg.Begin? && !msg.CtrlC?
    ensures Inv(Step(m, msg, pretty).0)
  {
    if msg.LambdaCreateResponseMsg? {
      var m1 := m.(resp := Some(msg.lambdaCreate));
      assert forall k: nat :: k < m1.step ==> Guard(m1, k) by {
        forall k: nat | k < m1.step ensures Guard(m1, k) { assert Guard(m, k); }
      }
      IncStepEstablishesInv(m1, [], pretty);
    }
  }

  lemma StepPreservesInv(m: Model, msg: Msg, pretty: Option<Lambda> -> string)
    requires Inv(m) && CursorInRange(m, msg)
    ensures Inv(Step(m, msg, pretty).0)
  {
    if msg.Begin? {
      IncStepEstablishesInv(m, [], pretty);
    } else if msg.CtrlC? || m.step == InitStep || m.step > LoadingStep {
    } else if m.step == NameStep {
      NameStepKeepsInv(m, msg, pretty);
    } else if m.step == RuntimesLoadingStep {
      RuntimesLoadingStepKeepsInv(m, msg, pretty);
    } else if m.step == RuntimeSelectionStep {
      RuntimeSelectionStepKeepsInv(m, msg, pretty);
    } else if m.step == TypeStep {
      TypeStepKeepsInv(m, msg, pretty);
    } else if m.step == LoadingStep {
      LoadingStepKeepsInv(m, msg, pretty);
    }
  }

  /** With name, runtime and type all supplied, the start message alone
      climbs to the submit step, records the three lines and issues only the
      create call and a spinner tick: the list call of the skipped rung is dropped. */
  lemma SuppliedFieldsGoStraightToCreate(
    name: string, rt: Runtime, lambdaType: string, path: string, pretty: Option<Lambda> -> string)
    requires name != "" && lambdaType != ""
    ensures var r := Step(Init(name, Some(rt), lambdaType, path), Begin, pretty);
      && r.0.step == LoadingStep
      && r.0.transcript == "\nName: " + name + "\nRuntime: " + rt.name + "\nLambda type: " + lambdaType
      && r.1 == [CreateLambda(name, rt.id, lambdaType, path), Tick]
      && ListRuntimes !in r.1
  {
    SuppliedFieldsClimb(name, rt, lambdaType, path, pretty);
  }

  /** The climb behind the lemma above, rung by rung. */
  lemma SuppliedFieldsClimb(name: string, rt: Runtime, lambdaType: string, path: string,
                            pretty: Option<Lambda> -> string)
    requires name != "" && lambdaType != ""
    ensures var a, b, c := "\nName: " + name, "\nRuntime: " + rt.name, "\nLambda type: " + lambdaType;
      var m0 := Init(name, Some(rt), lambdaType, path);
      IncStep(m0, [], pretty)
        == (m0.(step := LoadingStep, transcript := a + b + c), [CreateLambda(name, rt.id, lambdaType, path), Tick])
  {
    var a := "\nName: " + name;
    assert "" + a == a && "" + "" == "";
    var m0 := Init(name, Some(rt), lambdaType, path);
    var m1 := m0.(step := NameStep);
    var m2 := m0.(step := RuntimesLoadingStep, transcript := a);
    SuppliedRuntimeAndTypeClimb(name, rt, lambdaType, path, pretty);
    assert IncStep(m1, [Blink(NameInput), Focus(NameInput)], pretty) == IncStep(m2, [ListRuntimes, Tick], pretty);
    assert IncStep(m0, [], pretty) == IncStep(m1, [Blink(NameInput), Focus(NameInput)], pretty);
  }

  /** The second half of the climb above: from the runtime-loading step, a
      supplied runtime and type take the ladder on to the submit step. */
  lemma SuppliedRuntimeAndTypeClimb(name: string, rt: Runtime, lambdaType: string, path: string,
                                    pretty: Option<Lambda> -> string)
    requires lambdaType != ""
    ensures var a, b, c := "\nName: " + name, "\nRuntime: " + rt.name, "\nLambda type: " + lambdaType;
      var m0 := Init(name, Some(rt), lambdaType, path);
      var create := [CreateLambda(name, rt.id, lambdaType, path), Tick];
      IncStep(m0.(step := RuntimesLoadingStep, transcript := a), [ListRuntimes, Tick], pretty)
        == (m0.(step := LoadingStep, transcript := a + b + c), create)
  {
    var a, b, c := "\nName: " + name, "\nRuntime: " + rt.name, "\nLambda type: " + lambdaType;
    assert a + "" == a;
    var m0 := Init(name, Some(rt), lambdaType, path);
    var create := [CreateLambda(name, rt.id, lambdaType, path), Tick];
    var m5 := m0.(step := LoadingStep, transcript := a + b + c);
    assert IncStep(m5, create, pretty) == (m5, create);
    var m4 := m0.(step := TypeStep, transcript := a + b);
    assert IncStep(m4, [], pretty) == IncStep(m5, create, pretty);
    var m3 := m0.(step := RuntimeSelectionStep, transcript := a);
    assert IncStep(m3, [SetItems(ItemList)], pretty) == IncStep(m4, [], pretty);
  }

  /** The runtime list is requested exactly when a transition enters the
      runtime-loading step, and only the name rung enters it. */
  lemma ListRequestedOnlyOnEnteringLoad(m: Model, msg: Msg, pretty: Option<Lambda> -> string)
    requires Inv(m) && CursorInRange(m, msg)
    ensures var r := Step(m, msg, pretty);
      ListRuntimes in r.1 <==> m.step < RuntimesLoadingStep && r.0.step == RuntimesLoadingStep
  {
    var r := Step(m, msg, pretty);
    if msg.Begin? {
      IncStepLadder(m, [], pretty);
    } else if msg.CtrlC? {
    } else if m.step == NameStep && msg.Enter? {
      IncStepLadder(m.(name := msg.text), [], pretty);
    } else if m.step == RuntimesLoadingStep && msg.RuntimeListResponseMsg? {
      IncStepLadder(m.(runtimes := msg.runtimeList.runtimes, runtimesLoaded := true), [], pretty);
    } else if m.step == RuntimeSelectionStep && msg.Enter? {
      IncStepLadder(m.(runtime := Some(m.runtimes[msg.cursor])), [], pretty);
    } else if m.step == TypeStep && msg.Enter? {
      IncStepLadder(m.(lambdaType := LambdaTypes[msg.cursor].lambdaType), [], pretty);
    } else if m.step == LoadingStep && msg.LambdaCreateResponseMsg? {
      IncStepLadder(m.(resp := Some(msg.lambdaCreate)), [], pretty);
    }
    if r.0.step > m.step {
      assert r.1 == RungCmds(r.0, r.0.step - 1);
    }
  }

  /** A runtime given on the command line is never replaced by nothing, and
      the runtime list is then never requested. */
  lemma SuppliedRuntimeNeverListed(m: Model, msg: Msg, pretty: Option<Lambda> -> string)
    requires Inv(m) && CursorInRange(m, msg) && m.runtime.Some?
    ensures Step(m, msg, pretty).0.runtime.Some?
    ensures ListRuntimes !in Step(m, msg, pretty).1
  {
    var r := Step(m, msg, pretty);
    StepPreservesInv(m, msg, pretty);
    ListRequestedOnlyOnEnteringLoad(m, msg, pretty);
    if msg.Begin? {
      IncStepLadder(m, [], pretty);
    } else if msg.CtrlC? {
    } else if m.step == NameStep && msg.Enter? {
      IncStepLadder(m.(name := msg.text), [], pretty);
    } else if m.step == TypeStep && msg.Enter? {
      IncStepLadder(m.(lambdaType := LambdaTypes[msg.cursor].lambdaType), [], pretty);
    } else if m.step == LoadingStep && msg.LambdaCreateResponseMsg? {
      IncStepLadder(m.(resp := Some(msg.lambdaCreate)), [], pretty);
    }
    if r.0.step == RuntimesLoadingStep {
      assert !Guard(r.0, RuntimesLoadingStep);
    }
  }

  /** Enter on the name step with an empty input stays on the name step and issues nothing. */
  lemma EmptyNameStays(m: Model, cursor: nat, pretty: Option<Lambda> -> string)
    requires RuntimeChosen(m) && m.step == NameStep
    ensures Step(m, Enter("", cursor), pretty) == (m.(name := ""), [])
  {
  }

  /** How the runtime-loading step reacts to the list response: a failure or
      an empty list is logged and quits without advancing; otherwise the list is
      kept, marked loaded and the ladder moves on to the selection. */
  lemma RuntimeListOutcome(m: Model, resp: RuntimeListResponse, pretty: Option<Lambda> -> string)
    requires Inv(m) && m.step == RuntimesLoadingStep
    ensures var r := Step(m, RuntimeListResponseMsg(resp), pretty);
      && (resp.err.Some? ==>
            r == (m.(transcript := m.transcript + "\n\nFailed to load runtimes: " + resp.err.value), [Quit]))
      && (resp.err.None? && resp.runtimes == [] ==>
            r.0.step == m.step && r.1 == [Quit]
            && r.0.transcript == m.transcript + "\n\nNo runtimes was found")
      && (resp.err.None? && resp.runtimes != [] ==>
            r.0.step == RuntimeSelectionStep && r.0.runtimes == resp.runtimes && r.0.runtimesLoaded
            && r.1 == [SetItems(ItemList)])
  {
    if resp.err.None? && resp.runtimes != [] {
      var m1 := m.(runtimes := resp.runtimes, runtimesLoaded := true);
      var r := IncStep(m1, [], pretty);
      IncStepLadder(m1, [], pretty);
      assert !Guard(m, RuntimesLoadingStep);
      assert Guard(r.0, RuntimesLoadingStep) && !Guard(r.0, RuntimeSelectionStep);
    }
  }

  /** Enter on a selection step records the highlighted entry and moves past that step. */
  lemma SelectionRecordsHighlightedEntry(m: Model, text: string, cursor: nat, pretty: Option<Lambda> -> string)
    requires Inv(m) && m.step in {RuntimeSelectionStep, TypeStep} && CursorInRange(m, Enter(text, cursor))
    ensures var r := Step(m, Enter(text, cursor), pretty);
      && r.0.step > m.step
      && (m.step == RuntimeSelectionStep ==> r.0.runtime == Some(m.runtimes[cursor]))
      && (m.step == TypeStep ==>
            r.0.lambdaType == LambdaTypes[cursor].lambdaType && r.0.lambdaType in {"ENDPOINT", "INTERNAL"})
  {
    if m.step == RuntimeSelectionStep {
      IncStepLadder(m.(runtime := Some(m.runtimes[cursor])), [], pretty);
    } else {
      IncStepLadder(m.(lambdaType := LambdaTypes[cursor].lambdaType), [], pretty);
    }
  }

  /** The create response ends the flow: the outcome is logged after the
      transcript so far, Quit is the only command, and GetLambda reports the
      response's lambda. */
  lemma CreateResponseEndsFlow(m: Model, resp: LambdaCreateResponse, pretty: Option<Lambda> -> string)
    requires Inv(m) && m.step == LoadingStep
    ensures var r := Step(m, LambdaCreateResponseMsg(resp), pretty);
      && r.0.step == DoneStep
      && r.1 == [Quit]
      && (resp.err.Some? ==> r.0.transcript == m.transcript + "\n\nFailed to create lambda: " + resp.err.value)
      && (resp.err.None? ==> r.0.transcript == m.transcript + "\n\n" + pretty(resp.lambda))
      && GetLambda(r.0) == resp.lambda
  {
    var m1 := m.(resp := Some(resp));
    var r := IncStep(m1, [], pretty);
    IncStepLadder(m1, [], pretty);
    assert Guard(r.0, LoadingStep) && !Guard(r.0, DoneStep);
    assert Lines(r.0, LoadingStep, DoneStep, pretty) == CreateOutcome(resp, pretty);
  }

  /** Every step but the two selection lists shows the whole transcript
      first; once the flow is over nothing follows it. */
  lemma ViewShowsTranscript(m: Model, w: WidgetViews)
    ensures m.step !in {RuntimeSelectionStep, TypeStep} ==> m.transcript <= View(m, w)
    ensures m.step == RuntimeSelectionStep ==> View(m, w) == w.itemList
    ensures m.step == TypeStep ==> View(m, w) == w.typeList
    ensures m.step == DoneStep ==>
      View(m, w) == (if m.transcript == "" then "" else m.transcript + "\n")
  {
  }

  /** A name given on the command line never brings up the name input once the flow has started. */
  lemma SuppliedNameSkipsNameInput(m: Model)
    requires Inv(m) && m.name != ""
    ensures m.step != NameStep
  {
  }

  /** The messages of a run can be delivered: each list cursor is in range when Enter arrives. */
  ghost predicate Deliverable(m: Model, msgs: seq<Msg>, pretty: Option<Lambda> -> string)
    decreases |msgs|
  {
    |msgs| == 0 ||
      (Inv(m) && CursorInRange(m, msgs[0]) &&
        var r := Step(m, msgs[0], pretty);
        Quit in r.1 || Deliverable(r.0, msgs[1..], pretty))
  }

  /** The event loop: messages are handled one at a time, in order, until a
      transition asks to quit. */
  ghost function Run(m: Model, msgs: seq<Msg>, pretty: Option<Lambda> -> string): Model
    requires Deliverable(m, msgs, pretty)
    decreases |msgs|
  {
    if |msgs| == 0 then m
    else
      var r := Step(m, msgs[0], pretty);
      if Quit in r.1 then r.0 else Run(r.0, msgs[1..], pretty)
  }

  /** Over any sequence of messages the step never goes back, the transcript
      only grows, and Inv is kept. */
  lemma {:induction false} RunMonotone(m: Model, msgs: seq<Msg>, pretty: Option<Lambda> -> string)
    requires Inv(m) && Deliverable(m, msgs, pretty)
    ensures Run(m, msgs, pretty).step >= m.step
    ensures m.transcript <= Run(m, msgs, pretty).transcript
    ensures Inv(Run(m, msgs, pretty))
    decreases |msgs|
  {
    if |msgs| > 0 {
      var r := Step(m, msgs[0], pretty);
      StepPreservesInv(m, msgs[0], pretty);
      if Quit !in r.1 {
        RunMonotone(r.0, msgs[1..], pretty);
      }
    }
  }
}
