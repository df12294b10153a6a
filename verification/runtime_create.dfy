/**
 The runtime-create wizard: the path comes from the command line, the name is
 entered (or supplied), then the create call is made and its outcome is
 written to the transcript. Its ladder has three rungs; the first one starts
 the transcript afresh with the path line.
 */
module RuntimeCreate {
  import opened Api
  import opened Messages

  const InitStep := 0
  const NameStep := 1
  const LoadingStep := 2
  /** The unnamed step after the last rung: the flow is over. */
  const DoneStep := 3

  /** `transcript` is the source's `static`. */
  datatype Model = Model(
    name: string,
    path: string,
    transcript: string,
    resp: Option<RuntimeCreateResponse>,
    step: nat)

  /** A wizard as the command line builds it: the supplied fields, everything else empty. */
  function Init(name: string, path: string): Model
  {
    Model(name, path, "", None, InitStep)
  }

  /** The precondition of the rung that leaves step `k`, read off `m`'s fields. */
  predicate Guard(m: Model, k: nat)
  {
    if k == InitStep then true
    else if k == NameStep then m.name != ""
    else if k == LoadingStep then m.resp.Some?
    else false
  }

  function CreateOutcome(resp: RuntimeCreateResponse, pretty: Option<Runtime> -> string): string
  {
    if resp.err.Some? then "\n\nFailed to create runtime: " + resp.err.value
    else "\n\n" + pretty(resp.runtime)
  }

  /** The advance-while-possible ladder. */
  function IncStep(m: Model, cmds: seq<Cmd>, pretty: Option<Runtime> -> string): (r: (Model, seq<Cmd>))
    ensures r.0.step >= m.step
    ensures !Guard(r.0, r.0.step)
    ensures forall k: nat :: m.step <= k < r.0.step ==> Guard(r.0, k)
    ensures r.0 == m.(step := r.0.step, transcript := r.0.transcript)
    ensures m.step == InitStep ==> "Path: " + m.path <= r.0.transcript
    ensures m.step != InitStep ==> m.transcript <= r.0.transcript
    ensures r.0.step == m.step ==> r.1 == cmds
    ensures r.0.step > m.step && r.0.step == NameStep ==> r.1 == [Blink(NameInput), Focus(NameInput)]
    ensures r.0.step > m.step && r.0.step == LoadingStep ==> r.1 == [CreateRuntime(m.name, m.path), Tick]
    ensures r.0.step > m.step && r.0.step == DoneStep ==> r.1 == [Quit]
    decreases DoneStep - m.step
  {
    if m.step == InitStep then
      IncStep(m.(step := m.step + 1, transcript := "Path: " + m.path),
              [Blink(NameInput), Focus(NameInput)], pretty)
    else if m.step == NameStep && m.name != "" then
      IncStep(m.(step := m.step + 1, transcript := m.transcript + "\nName: " + m.name),
              [CreateRuntime(m.name, m.path), Tick], pretty)
    else if m.step == LoadingStep && m.resp.Some? then
      IncStep(m.(step := m.step + 1, transcript := m.transcript + CreateOutcome(m.resp.value, pretty)),
              [Quit], pretty)
    else
      (m, cmds)
  }

  function HandleNameStep(m: Model, msg: Msg, pretty: Option<Runtime> -> string): (Model, seq<Cmd>)
  {
    match msg
    case Enter(text, _) => IncStep(m.(name := text), [], pretty)
    case Esc => (m, [Quit])
    case _ => (m, [Forward(NameInput)])
  }

  function HandleLoadingStep(m: Model, msg: Msg, pretty: Option<Runtime> -> string): (Model, seq<Cmd>)
  {
    match msg
    case RuntimeCreateResponseMsg(resp) => IncStep(m.(resp := Some(resp)), [], pretty)
    case _ => (m, [Forward(Spinner)])
  }

  /** The wizard's update function. */
  function Step(m: Model, msg: Msg, pretty: Option<Runtime> -> string): (r: (Model, seq<Cmd>))
    ensures r.0.step >= m.step
    ensures msg.CtrlC? ==> r == (m, [Quit])
    ensures msg.Esc? && m.step == NameStep ==> r == (m, [Quit])
    ensures m.step == InitStep && !msg.Begin? && !msg.CtrlC? ==> r == (m, [])
    ensures m.step >= DoneStep && !msg.Begin? ==> r.0 == m
  {
    match msg
    case Begin => IncStep(m, [], pretty)
    case CtrlC => (m, [Quit])
    case _ =>
      if m.step == NameStep then HandleNameStep(m, msg, pretty)
      else if m.step == LoadingStep then HandleLoadingStep(m, msg, pretty)
      else (m, [])
  }

  /** The screen: a non-empty transcript, a blank line, then the active area,
      which is empty once the flow is over. */
  function View(m: Model, w: WidgetViews): string
  {
    var transcript := if m.transcript != "" then m.transcript + "\n\n" else "";
    var active :=
      if m.step == NameStep then w.nameInput
      else if m.step == LoadingStep then w.spinner + " Creating runtime..."
      else "";
    transcript + active
  }

  /** What holds of every state a wizard started by `Init` can be observed in:
      the transcript is empty until the wizard starts, every rung below the
      current step had its precondition met, and the ladder has stopped. */
  ghost predicate Inv(m: Model)
  {
    && (forall k: nat :: k < m.step ==> Guard(m, k))
    && (m.step == InitStep ==> m.transcript == "")
    && (m.step < LoadingStep ==> m.resp.None?)
    && (m.step == InitStep || !Guard(m, m.step))
  }

  lemma InitSatisfiesInv(name: string, path: string)
    ensures Inv(Init(name, path))
  {
  }

  /** The step never passes the done step, Inv is kept, and the transcript only grows. */
  lemma StepPreservesInv(m: Model, msg: Msg, pretty: Option<Runtime> -> string)
    requires Inv(m)
    ensures Inv(Step(m, msg, pretty).0)
    ensures Step(m, msg, pretty).0.step <= DoneStep
    ensures m.transcript <= Step(m, msg, pretty).0.transcript
  {
    var r := Step(m, msg, pretty);
    assert !Guard(m, DoneStep) && !Guard(r.0, DoneStep);
    if msg.Begin? {
      forall k: nat | k < r.0.step ensures Guard(r.0, k) {
        if k < m.step { assert Guard(m, k); }
      }
    } else if !msg.CtrlC? && m.step == NameStep && msg.Enter? {
      var m1 := m.(name := msg.text);
      assert Guard(m1, InitStep);
    } else if !msg.CtrlC? && m.step == LoadingStep && msg.RuntimeCreateResponseMsg? {
      var m1 := m.(resp := Some(msg.runtimeCreate));
      assert Guard(m1, InitStep) && Guard(m1, NameStep) by { assert Guard(m, NameStep); }
      forall k: nat | k < r.0.step ensures Guard(r.0, k) {
        if k < m.step { assert Guard(m, k); }
      }
    }
  }

  /** The start message begins the transcript with exactly the path line and,
      without a supplied name, stops on the name input. */
  lemma StartWritesPathLine(path: string, pretty: Option<Runtime> -> string)
    ensures Step(Init("", path), Begin, pretty)
         == (Model("", path, "Path: " + path, None, NameStep), [Blink(NameInput), Focus(NameInput)])
  {
    var m1 := Model("", path, "Path: " + path, None, NameStep);
    assert IncStep(m1, [Blink(NameInput), Focus(NameInput)], pretty) == (m1, [Blink(NameInput), Focus(NameInput)]);
  }

  /** The name rung needs a non-empty name and issues the create call with
      the name and path; an empty name leaves the wizard on the name input. */
  lemma NameSubmitsCreate(m: Model, text: string, cursor: nat, pretty: Option<Runtime> -> string)
    requires Inv(m) && m.step == NameStep
    ensures var r := Step(m, Enter(text, cursor), pretty);
      && (text == "" ==> r == (m.(name := ""), []))
      && (text != "" ==>
            && r.0.step == LoadingStep
            && r.0.transcript == m.transcript + "\nName: " + text
            && r.1 == [CreateRuntime(text, m.path), Tick])
  {
    if text != "" {
      var m2 := m.(name := text, step := LoadingStep, transcript := m.transcript + "\nName: " + text);
      var c := [CreateRuntime(text, m.path), Tick];
      assert IncStep(m2, c, pretty) == (m2, c);
    }
  }

  /** The create response ends the flow: the outcome is logged after the
      transcript so far and Quit is the only command. */
  lemma CreateResponseEndsFlow(m: Model, resp: RuntimeCreateResponse, pretty: Option<Runtime> -> string)
    requires m.step == LoadingStep
    ensures var r := Step(m, RuntimeCreateResponseMsg(resp), pretty);
      && r.0.step == DoneStep
      && r.1 == [Quit]
      && (resp.err.Some? ==> r.0.transcript == m.transcript + "\n\nFailed to create runtime: " + resp.err.value)
      && (resp.err.None? ==> r.0.transcript == m.transcript + "\n\n" + pretty(resp.runtime))
  {
    var m2 := m.(resp := Some(resp), step := DoneStep, transcript := m.transcript + CreateOutcome(resp, pretty));
    assert IncStep(m2, [Quit], pretty) == (m2, [Quit]);
  }

  /** The transcript, when there is one, is separated from the active area by
      a blank line, and once the flow is over nothing follows it. */
  lemma ViewJoinsTranscript(m: Model, w: WidgetViews)
    ensures m.transcript != "" ==> m.transcript + "\n\n" <= View(m, w)
    ensures m.transcript == "" && m.step == NameStep ==> View(m, w) == w.nameInput
    ensures m.step >= DoneStep ==> View(m, w) == (if m.transcript == "" then "" else m.transcript + "\n\n")
  {
  }
}
