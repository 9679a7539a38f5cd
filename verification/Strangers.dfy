/** Signals about sessions that are none of the applet's business. */
module Strangers {
  import opened Prelude
  import opened StatusMap
  import opened AttentionRouting
  import opened TransitionMachine
  import opened LogBuffer
  import opened WorkerModel
  import opened Invariants
  import opened Guarantees

  /** What was done, leaving out what was merely heard. */
  function Deeds(t: Trace): Trace {
    match t
    case Nil => Nil
    case Snoc(past, o) => if o.Handled? then Deeds(past) else Snoc(Deeds(past), o)
  }

  /** The two worlds differ at most in log text and in what was heard. */
  ghost predicate Alike(w: World, x: World) {
    && x.machine == w.machine && x.prompt == w.prompt && x.replies == w.replies
    && x.backend.known == w.backend.known && x.backend.alive == w.backend.alive
    && (w.backend.sound ==> x.backend.sound)
    && Deeds(x.trace) == Deeds(w.trace)
  }

  lemma AskAlike(w: World, x: World)
    requires Alike(w, x)
    ensures Ask(w).0 == Ask(x).0 && Alike(Ask(w).1, Ask(x).1)
  {
  }

  lemma TwoAnswersAlike(w: World, x: World)
    requires Alike(w, x)
    ensures Ask(w).0 == Ask(x).0 && Alike(Ask(w).1, Ask(x).1)
    ensures var (y, z) := (Ask(w).1, Ask(x).1); Ask(y).0 == Ask(z).0 && Alike(Ask(y).1, Ask(z).1)
  {
    AskAlike(w, x);
    AskAlike(Ask(w).1, Ask(x).1);
  }

  lemma {:induction false} DrainAllAlike(w: World, x: World, requests: seq<Request>)
    requires Alike(w, x)
    ensures DrainAll(w, requests).0 == DrainAll(x, requests).0
    ensures Alike(DrainAll(w, requests).1, DrainAll(x, requests).1)
    decreases |requests|
  {
    if requests != [] {
      DrainAlike(w, x, requests[0]);
      DrainAllAlike(Drain(w, requests[0]).1, Drain(x, requests[0]).1, requests[1..]);
    }
  }

  lemma DrainAlike(w: World, x: World, r: Request)
    requires Alike(w, x)
    ensures Drain(w, r).0 == Drain(x, r).0 && Alike(Drain(w, r).1, Drain(x, r).1)
  {
    var (y, z) := (Ask(w).1, Ask(x).1);
    var answer := Ask(y).0;
    if answer.Ids? { FetchAllAlike(Ask(y).1, Ask(z).1, r, answer.ids); }
  }

  lemma {:induction false} FetchAllAlike(w: World, x: World, r: Request, ids: seq<u32>)
    requires Alike(w, x)
    ensures FetchAll(w, r, ids).0 == FetchAll(x, r, ids).0
    ensures Alike(FetchAll(w, r, ids).1, FetchAll(x, r, ids).1)
    decreases |ids|
  {
    if ids != [] { FetchAllAlike(Ask(w).1, Ask(x).1, r, ids[1..]); }
  }

  lemma {:induction false} ProvideEachAlike(w: World, x: World, s: Path, responses: seq<InputResponse>)
    requires Alike(w, x)
    ensures Alike(ProvideEach(w, s, responses).0, ProvideEach(x, s, responses).0)
    decreases |responses|
  {
    if responses != [] {
      var o := Answer(s, responses[0]);
      AskAlike(w.Saw(o), x.Saw(o));
      ProvideEachAlike(Ask(w.Saw(o)).1, Ask(x.Saw(o)).1, s, responses[1..]);
    }
  }

  lemma LoggingIsAlike(w: World, x: World, y: World, z: World)
    requires Alike(w, x) && OnlyLogged(w, y) && OnlyLogged(x, z)
    ensures Alike(y, z)
  {
  }

  lemma ProvideAlike(w: World, x: World, s: Path, responses: seq<InputResponse>)
    requires Alike(w, x)
    ensures Alike(Provide(w, s, responses), Provide(x, s, responses))
  {
    AskAlike(w, x);
    var (y, refused) := ProvideEach(Ask(w).1, s, responses);
    var (z, refusedX) := ProvideEach(Ask(x).1, s, responses);
    ProvideEachAlike(Ask(w).1, Ask(x).1, s, responses);
    JotAllFrame(y, s, refused);
    JotAllFrame(z, s, refusedX);
    LoggingIsAlike(y, z, JotAll(y, s, refused), JotAll(z, s, refusedX));
  }

  lemma AskReadyAlike(w: World, x: World, s: Path)
    requires Alike(w, x)
    ensures AskReady(w, s).1 == AskReady(x, s).1 && Alike(AskReady(w, s).0, AskReady(x, s).0)
  {
    TwoAnswersAlike(w, x);
    AskAlike(Ask(Ask(w).1).1, Ask(Ask(x).1).1);
    var (queue, y) := Ask(Ask(Ask(w).1).1);
    var z := Ask(Ask(Ask(x).1).1).1;
    if queue.Pairs? {
      NotePairsFrame(y, s, queue.pairs);
      NotePairsFrame(z, s, queue.pairs);
      LoggingIsAlike(y, z, NotePairs(y, s, queue.pairs), NotePairs(z, s, queue.pairs));
    }
  }

  lemma StartTunnelAlike(w: World, x: World, config: Path)
    requires Alike(w, x)
    ensures StartTunnel(w, config).1 == StartTunnel(x, config).1
    ensures Alike(StartTunnel(w, config).0, StartTunnel(x, config).0)
  {
    TwoAnswersAlike(w, x);
    var (answer, y) := Ask(Ask(w).1);
    var z := Ask(Ask(x).1).1;
    if answer.Tunnel? { BirthAlike(y, z, answer.path); }
  }

  lemma BirthAlike(w: World, x: World, p: Path)
    requires Alike(w, x)
    ensures Alike(w.Vouch(p !in w.backend.known).Gained(p).Log(Begin(p)),
                  x.Vouch(p !in x.backend.known).Gained(p).Log(Begin(p)))
  {
  }

  lemma CallsAlike(w: World, x: World, s: Path)
    requires Alike(w, x)
    ensures Alike(ForwardLog(w, s), ForwardLog(x, s))
    ensures Alike(ConnectTo(w, s), ConnectTo(x, s))
    ensures Alike(HangUp(w), HangUp(x))
  {
    TwoAnswersAlike(w, x);
  }

  lemma PerformAlike(w: World, x: World, c: Command)
    requires Alike(w, x)
    ensures Performed(w, c).1 == Performed(x, c).1
    ensures Alike(Performed(w, c).0, Performed(x, c).0)
  {
    var o := Executed(c, w.backend.alive);
    var (y, z) := (w.Saw(o), x.Saw(o));
    assert Alike(y, z);
    match c {
      case NewTunnel(config) => StartTunnelAlike(y, z, config);
      case EnableLogForward(s) => CallsAlike(y, z, s);
      case Connect(s) => CallsAlike(y, z, s);
      case Disconnect(s) => CallsAlike(y, z, s);
      case ProvideInput(s, responses) => ProvideAlike(y, z, s, responses);
      case CheckReady(s) => AskReadyAlike(y, z, s);
      case OpenPrompt(_, _, requests, _) => DrainAllAlike(y, z, requests);
      case ClosePrompt =>
      case Note(_, _) =>
    }
  }

  lemma {:induction false} ExecAlike(w: World, x: World, st: seq<Command>)
    requires Alike(w, x)
    ensures Alike(Exec(w, st), Exec(x, st))
    decreases Load(st)
  {
    if st != [] {
      PerformAlike(w, x, st[0]);
      var (y, fed) := Performed(w, st[0]);
      var z := Performed(x, st[0]).0;
      match fed {
        case None => ExecAlike(y, z, st[1..]);
        case Some(e) =>
          FeedbackIsLighter(w, st[0]);
          var nested := Fired(y, e).1;
          LoadAdds(nested, st[1..]);
          ExecAlike(Fired(y, e).0, Fired(z, e).0, nested + st[1..]);
      }
    }
  }

  lemma ReadSessionsAlike(w: World, x: World)
    requires Alike(w, x)
    ensures ReadSessions(w).1 == ReadSessions(x).1 && Alike(ReadSessions(w).0, ReadSessions(x).0)
  {
    TwoAnswersAlike(w, x);
  }

  lemma ReadStatusAlike(w: World, x: World)
    requires Alike(w, x)
    ensures ReadStatus(w).1 == ReadStatus(x).1 && Alike(ReadStatus(w).0, ReadStatus(x).0)
  {
    TwoAnswersAlike(w, x);
  }

  lemma ReadSignalAlike(w: World, x: World, wire: Wire)
    requires Alike(w, x)
    ensures ReadSignal(w, wire).1 == ReadSignal(x, wire).1
    ensures Alike(ReadSignal(w, wire).0, ReadSignal(x, wire).0)
  {
  }

  lemma PreparedAlike(w: World, x: World, phase: Phase)
    requires Alike(w, x)
    ensures Prepared(w, phase).1 == Prepared(x, phase).1
    ensures Alike(Prepared(w, phase).0, Prepared(x, phase).0)
  {
    match phase {
      case CheckTeardown => ReadSessionsAlike(w, x);
      case CheckStatus => ReadStatusAlike(w, x);
      case OnSignal(wire) => ReadSignalAlike(w, x, wire);
      case OnUi(_) =>
      case OnDeath(_) =>
    }
  }

  lemma PhaseAlike(w: World, x: World, phase: Phase)
    requires Alike(w, x)
    ensures Alike(DoPhase(w, phase), DoPhase(x, phase))
  {
    PreparedAlike(w, x, phase);
    var (y, event) := Prepared(w, phase);
    var z := Prepared(x, phase).0;
    if event.Some? {
      ExecAlike(Fired(y, event.value).0, Fired(z, event.value).0, Fired(y, event.value).1);
    }
  }

  lemma {:induction false} PhasesAlike(w: World, x: World, phases: seq<Phase>)
    requires Alike(w, x)
    ensures Alike(DoPhases(w, phases), DoPhases(x, phases))
    decreases |phases|
  {
    if phases != [] {
      PhaseAlike(w, x, phases[0]);
      PhasesAlike(DoPhase(w, phases[0]), DoPhase(x, phases[0]), phases[1..]);
    }
  }

  /** Inputs about a session that is neither active nor being torn down; asking,
      submitting and cancelling also mean nothing to one being torn down. */
  predicate Stranger(w: World, input: Input) {
    match input
    case Signal(StatusSignal(s, _)) => !w.machine.Tracks(s)
    case Signal(ManagerSignal(s, removed)) => removed ==> !w.machine.Tracks(s)
    case Signal(AttentionSignal(s, _, _, _)) => !w.machine.IsActive(s)
    case Signal(LogSignal(_, _)) => true
    case Ui(SubmitPrompt(_)) => w.prompt.Some? ==> !w.machine.IsActive(w.prompt.value.session)
    case Ui(CancelPrompt) => w.prompt.Some? ==> !w.machine.IsActive(w.prompt.value.session)
    case _ => false
  }

  lemma StrangerDoesNothing(w: World, input: Input)
    requires Stranger(w, input)
    ensures Alike(Step(w, input), w)
  {
    var phase := Phases(w, input)[0];
    assert Phases(w, input) == [phase];
    OnePhase(w, phase);
    PreparedFrame(w, phase);
  }

  /** The run with every stranger's signal taken out. */
  function Heeded(w: World, inputs: seq<Input>): seq<Input>
    decreases |inputs|
  {
    if inputs == [] then []
    else (if Stranger(w, inputs[0]) then [] else [inputs[0]]) + Heeded(Step(w, inputs[0]), inputs[1..])
  }

  lemma {:induction false} HeededIsAlike(w: World, x: World, inputs: seq<Input>)
    requires Alike(w, x)
    ensures Alike(Run(w, inputs), Run(x, Heeded(w, inputs)))
    decreases |inputs|
  {
    if inputs != [] {
      var first, rest := inputs[0], Heeded(Step(w, inputs[0]), inputs[1..]);
      if Stranger(w, first) {
        StrangerDoesNothing(w, first);
        assert Heeded(w, inputs) == rest;
        HeededIsAlike(Step(w, first), x, inputs[1..]);
      } else {
        PhasesAlike(w, x, Phases(w, first));
        HeededIsAlike(Step(w, first), Step(x, first), inputs[1..]);
        assert ([first] + rest)[1..] == rest;
      }
    }
  }

  /** Any number of strangers' signals, inserted anywhere in a run, change neither
      where the machine ends up nor one command or answer along the way. */
  lemma StrangersChangeNothing(replies: seq<Beat>, inputs: seq<Input>)
    ensures var w := Startup(replies);
            Alike(Run(w, inputs), Run(w, Heeded(w, inputs)))
  {
    HeededIsAlike(Startup(replies), Startup(replies), inputs);
  }

  /** Once a session was let go, every further report of its end is a stranger's,
      so a teardown completes at most once however often it is reported. */
  lemma RepeatedEndingsAreStrangers(w: World, inputs: seq<Input>, s: Path, status: Status)
    requires s in w.backend.known && !w.machine.Tracks(s)
    ensures var x := Run(w, inputs);
            x.backend.sound ==>
              && Stranger(x, Signal(ManagerSignal(s, true)))
              && Stranger(x, Signal(StatusSignal(s, status)))
  {
    RunIsLater(w, inputs);
  }
}
