/** Nothing the user types into a prompt reaches anything that is kept. */
module Secrets {
  import opened Prelude
  import opened AttentionRouting
  import opened TransitionMachine
  import opened LogBuffer
  import opened WorkerModel
  import opened Invariants

  // --------------------------------------------- blanking out typed values

  function Blanked(responses: seq<InputResponse>): seq<InputResponse> {
    seq(|responses|, i requires 0 <= i < |responses| => responses[i].(value := ""))
  }

  function HideC(c: Command): Command {
    match c
    case ProvideInput(s, responses) => ProvideInput(s, Blanked(responses))
    case _ => c
  }

  function HideE(e: Event): Event {
    match e
    case PromptSubmitted(s, responses) => PromptSubmitted(s, Blanked(responses))
    case _ => e
  }

  function HideO(o: Obs): Obs {
    match o
    case Handled(e, m) => Handled(HideE(e), m)
    case Executed(c, alive) => Executed(HideC(c), alive)
    case Provided(s, kind, group, id, _) => Provided(s, kind, group, id, "")
  }

  function HideT(t: Trace): Trace {
    match t case Nil => Nil case Snoc(past, o) => Snoc(HideT(past), HideO(o))
  }

  /** A world with the typed values gone from its trace; nothing else is touched. */
  function Hide(w: World): World { w.(trace := HideT(w.trace)) }

  function HideSt(st: seq<Command>): seq<Command> {
    if st == [] then [] else [HideC(st[0])] + HideSt(st[1..])
  }

  function HidePhase(phase: Phase): Phase {
    match phase
    case OnUi(SubmitPrompt(responses)) => OnUi(SubmitPrompt(Blanked(responses)))
    case _ => phase
  }

  function HidePhases(phases: seq<Phase>): seq<Phase> {
    if phases == [] then [] else [HidePhase(phases[0])] + HidePhases(phases[1..])
  }

  function HideI(input: Input): Input {
    match input
    case Ui(SubmitPrompt(responses)) => Ui(SubmitPrompt(Blanked(responses)))
    case _ => input
  }

  function HideAll(inputs: seq<Input>): seq<Input> {
    if inputs == [] then [] else [HideI(inputs[0])] + HideAll(inputs[1..])
  }

  // --------------------------------------------- blanking and running commute

  lemma {:induction false} ProvideEachBlind(w: World, s: Path, responses: seq<InputResponse>)
    ensures var (x, refused) := ProvideEach(w, s, responses);
            ProvideEach(Hide(w), s, Blanked(responses)) == (Hide(x), refused)
    decreases |responses|
  {
    if responses != [] {
      assert Blanked(responses)[1..] == Blanked(responses[1..]);
      var y := Ask(w.Saw(Answer(s, responses[0]))).1;
      assert Hide(y) == Ask(Hide(w).Saw(Answer(s, Blanked(responses)[0]))).1;
      ProvideEachBlind(y, s, responses[1..]);
    }
  }

  lemma {:induction false} JotAllBlind(w: World, s: Path, texts: seq<Text>)
    ensures JotAll(Hide(w), s, texts) == Hide(JotAll(w, s, texts))
    decreases |texts|
  {
    if texts != [] {
      assert Hide(w.Log(Jot(s, texts[0]))) == Hide(w).Log(Jot(s, texts[0]));
      JotAllBlind(w.Log(Jot(s, texts[0])), s, texts[1..]);
    }
  }

  lemma {:induction false} NotePairsBlind(w: World, s: Path, pairs: seq<(u32, u32)>)
    ensures NotePairs(Hide(w), s, pairs) == Hide(NotePairs(w, s, pairs))
    decreases |pairs|
  {
    if pairs != [] { NotePairsBlind(NoteOne(w, s, pairs[0]), s, pairs[1..]); }
  }

  lemma AskReadyBlind(w: World, s: Path)
    ensures var (x, fed) := AskReady(w, s); AskReady(Hide(w), s) == (Hide(x), fed)
  {
    var (queue, x) := Ask(Ask(Ask(w).1).1);
    if queue.Pairs? { NotePairsBlind(x, s, queue.pairs); }
  }

  lemma ProvideBlind(w: World, s: Path, responses: seq<InputResponse>)
    ensures Provide(Hide(w), s, Blanked(responses)) == Hide(Provide(w, s, responses))
  {
    var y := Ask(w).1;
    ProvideEachBlind(y, s, responses);
    JotAllBlind(ProvideEach(y, s, responses).0, s, ProvideEach(y, s, responses).1);
  }

  lemma {:induction false} FetchAllBlind(w: World, r: Request, ids: seq<u32>)
    ensures FetchAll(Hide(w), r, ids) == (FetchAll(w, r, ids).0, Hide(FetchAll(w, r, ids).1))
    decreases |ids|
  {
    if ids != [] { FetchAllBlind(Ask(w).1, r, ids[1..]); }
  }

  lemma DrainBlind(w: World, r: Request)
    ensures Drain(Hide(w), r) == (Drain(w, r).0, Hide(Drain(w, r).1))
  {
    var (answer, x) := Ask(Ask(w).1);
    if answer.Ids? { FetchAllBlind(x, r, answer.ids); }
  }

  lemma {:induction false} DrainAllBlind(w: World, requests: seq<Request>)
    ensures DrainAll(Hide(w), requests) == (DrainAll(w, requests).0, Hide(DrainAll(w, requests).1))
    decreases |requests|
  {
    if requests != [] {
      DrainBlind(w, requests[0]);
      DrainAllBlind(Drain(w, requests[0]).1, requests[1..]);
    }
  }

  lemma CallsBlind(w: World, s: Path)
    ensures ForwardLog(Hide(w), s) == Hide(ForwardLog(w, s))
    ensures ConnectTo(Hide(w), s) == Hide(ConnectTo(w, s))
    ensures HangUp(Hide(w)) == Hide(HangUp(w))
    ensures var (x, fed) := StartTunnel(w, s); StartTunnel(Hide(w), s) == (Hide(x), fed)
  {
  }

  lemma PerformBlind(w: World, c: Command)
    ensures var (x, fed) := Performed(w, c); Performed(Hide(w), HideC(c)) == (Hide(x), fed)
  {
    var y := w.Saw(Executed(c, w.backend.alive));
    assert Hide(w).Saw(Executed(HideC(c), w.backend.alive)) == Hide(y);
    match c {
      case NewTunnel(config) => CallsBlind(y, config);
      case EnableLogForward(s) => CallsBlind(y, s);
      case Connect(s) => CallsBlind(y, s);
      case Disconnect(s) => CallsBlind(y, s);
      case ProvideInput(s, responses) => ProvideBlind(y, s, responses);
      case CheckReady(s) => AskReadyBlind(y, s);
      case OpenPrompt(_, _, requests, _) => DrainAllBlind(y, requests);
      case ClosePrompt =>
      case Note(_, _) =>
    }
  }

  lemma HideShort(st: seq<Command>)
    requires |st| <= 3
    ensures |HideSt(st)| == |st|
    ensures forall i :: 0 <= i < |st| ==> HideSt(st)[i] == HideC(st[i])
  {
    if st != [] { HideShort(st[1..]); }
  }

  lemma FireBlind(w: World, e: Event)
    ensures var (y, st) := Fired(w, e); Fired(Hide(w), HideE(e)) == (Hide(y), HideSt(st))
  {
    var (y, st) := Fired(w, e);
    HideShort(st);
    assert React(w.machine, HideE(e)).1 == HideSt(st);
  }

  lemma {:induction false} HideAdds(a: seq<Command>, b: seq<Command>)
    ensures HideSt(a + b) == HideSt(a) + HideSt(b)
  {
    if a == [] {
      assert a + b == b;
    } else {
      var tail := a[1..];
      HideAdds(tail, b);
      assert (a + b)[1..] == tail + b;
      assert HideSt(a + b) == [HideC(a[0])] + HideSt(tail + b);
      assert [HideC(a[0])] + (HideSt(tail) + HideSt(b)) == ([HideC(a[0])] + HideSt(tail)) + HideSt(b);
    }
  }

  lemma {:induction false} ExecBlind(w: World, st: seq<Command>)
    ensures Exec(Hide(w), HideSt(st)) == Hide(Exec(w, st))
    decreases Load(st)
  {
    if st != [] {
      PerformBlind(w, st[0]);
      assert HideSt(st)[1..] == HideSt(st[1..]);
      var (x, fed) := Performed(w, st[0]);
      match fed {
        case None => ExecBlind(x, st[1..]);
        case Some(e) =>
          PerformFrame(w, st[0]);
          assert HideE(e) == e;
          FireBlind(x, e);
          FeedbackIsLighter(w, st[0]);
          var (y, nested) := Fired(x, e);
          LoadAdds(nested, st[1..]);
          HideAdds(nested, st[1..]);
          ExecBlind(y, nested + st[1..]);
      }
    }
  }

  lemma ReadingsBlind(w: World)
    ensures ReadSessions(Hide(w)) == (Hide(ReadSessions(w).0), ReadSessions(w).1)
    ensures ReadStatus(Hide(w)) == (Hide(ReadStatus(w).0), ReadStatus(w).1)
  {
  }

  lemma PreparedBlind(w: World, phase: Phase)
    ensures var (x, event) := Prepared(w, phase);
            Prepared(Hide(w), HidePhase(phase))
            == (Hide(x), match event case Some(e) => Some(HideE(e)) case None => None)
  {
    match phase {
      case CheckTeardown => ReadingsBlind(w);
      case CheckStatus => ReadingsBlind(w);
      case OnUi(_) =>
      case OnSignal(_) =>
      case OnDeath(_) =>
    }
  }

  lemma PhaseBlind(w: World, phase: Phase)
    ensures DoPhase(Hide(w), HidePhase(phase)) == Hide(DoPhase(w, phase))
  {
    PreparedBlind(w, phase);
    var (x, event) := Prepared(w, phase);
    if event.Some? {
      FireBlind(x, event.value);
      ExecBlind(Fired(x, event.value).0, Fired(x, event.value).1);
    }
  }

  lemma {:induction false} PhasesBlind(w: World, phases: seq<Phase>)
    ensures DoPhases(Hide(w), HidePhases(phases)) == Hide(DoPhases(w, phases))
    decreases |phases|
  {
    if phases != [] {
      PhaseBlind(w, phases[0]);
      assert HidePhases(phases)[1..] == HidePhases(phases[1..]);
      PhasesBlind(DoPhase(w, phases[0]), phases[1..]);
    }
  }

  lemma PhasesOfHidden(w: World, input: Input)
    ensures Phases(Hide(w), HideI(input)) == HidePhases(Phases(w, input))
  {
    var phases := Phases(w, input);
    if |phases| >= 1 { assert HidePhases(phases) == [HidePhase(phases[0])] + HidePhases(phases[1..]); }
    if |phases| >= 2 { assert HidePhases(phases[1..]) == [HidePhase(phases[1])] + HidePhases(phases[2..]); }
    if |phases| >= 3 { assert HidePhases(phases[2..]) == [HidePhase(phases[2])] + HidePhases(phases[3..]); }
  }

  /** Blanking every value typed into a prompt and then running gives the same
      world as running and then blanking the answers that were sent. */
  lemma {:induction false} RunIsBlind(w: World, inputs: seq<Input>)
    ensures Run(Hide(w), HideAll(inputs)) == Hide(Run(w, inputs))
    decreases |inputs|
  {
    if inputs != [] {
      PhasesOfHidden(w, inputs[0]);
      PhasesBlind(w, Phases(w, inputs[0]));
      assert HideAll(inputs)[1..] == HideAll(inputs[1..]);
      RunIsBlind(Step(w, inputs[0]), inputs[1..]);
    }
  }

  /** Two runs that differ only in what was typed end with the same machine, the
      same prompt and the same logs: no credential is written down anywhere. */
  lemma NothingTypedIsKept(w: World, inputs: seq<Input>, others: seq<Input>)
    requires HideAll(inputs) == HideAll(others)
    ensures var (x, y) := (Run(w, inputs), Run(w, others));
            x.machine == y.machine && x.prompt == y.prompt && x.logs == y.logs && x.replies == y.replies
  {
    RunIsBlind(w, inputs);
    RunIsBlind(w, others);
  }
}
