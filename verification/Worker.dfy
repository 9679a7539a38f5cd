/** The worker that drives the machine and the log store against the bus. */
module Worker {
  import opened Prelude
  import opened WireCodes
  import opened StatusMap
  import opened AttentionRouting
  import opened TransitionMachine
  import opened LogBuffer
  import opened WorkerModel

  class Worker {
    const machine: Machine
    const logs: LogStore
    var prompt: Option<PromptSpec>
    /** The answers the bus will give, in order. */
    var bus: seq<Beat>
    ghost var backend: Backend
    ghost var trace: Trace

    ghost predicate Valid()
      reads this, logs
    {
      logs.Valid() && logs.capacity == LOG_CAPACITY
    }

    ghost function View(): World
      reads this, machine, logs
    {
      World(machine.View(), logs.full, prompt, bus, backend, trace)
    }

    constructor (bus: seq<Beat>)
      ensures Valid() && View() == Blank(bus)
      ensures fresh(machine) && fresh(logs)
    {
      machine := new Machine();
      logs := new LogStore(LOG_CAPACITY);
      prompt := None;
      this.bus := bus;
      backend, trace := Backend({}, {}, true), Nil;
    }

    method Call() returns (answer: Reply)
      requires Valid()
      modifies this
      ensures Valid()
      ensures (answer, View()) == Ask(old(View()))
    {
      if bus == [] {
        return Unreachable;
      }
      answer := bus[0].reply;
      backend := backend.(alive := backend.alive - bus[0].dead);
      bus := bus[1..];
    }

    /** Write one line of the applet's own into a session's log. */
    method Jotted(s: Path, text: Text)
      requires Valid()
      modifies logs
      ensures Valid() && View() == old(View()).Log(Jot(s, text))
    {
      logs.Note(s, text);
    }

    /** Hand one event to the machine. */
    method Fire(e: Event) returns (commands: seq<Command>)
      requires Valid()
      modifies this, machine
      ensures Valid() && (View(), commands) == Fired(old(View()), e)
    {
      commands := machine.Handle(e);
      trace := Snoc(trace, Handled(e, machine.View()));
    }

    // ------------------------------------------------------------- commands

    method Execute(commands: seq<Command>)
      requires Valid()
      modifies this, machine, logs
      ensures Valid() && View() == Exec(old(View()), commands)
      decreases Load(commands), 1
    {
      for i := 0 to |commands|
        invariant Valid() && Exec(View(), commands[i..]) == Exec(old(View()), commands)
        invariant Load(commands[i..]) <= Load(commands)
      {
        assert commands[i..][1..] == commands[i + 1..];
        PerformOne(commands[i], commands[i + 1..]);
      }
    }

    /** One command, together with everything it feeds back. */
    method PerformOne(command: Command, ghost rest: seq<Command>)
      requires Valid()
      modifies this, machine, logs
      ensures Valid() && Exec(View(), rest) == Exec(old(View()), [command] + rest)
      decreases Weight(command), 0
    {
      ghost var w := View();
      assert ([command] + rest)[1..] == rest;
      trace := Snoc(trace, Executed(command, backend.alive));
      var fed: Option<Event> := None;
      match command {
        case NewTunnel(config) => fed := NewTunnelOn(config);
        case EnableLogForward(s) => EnableLogForwardOn(s);
        case Connect(s) => ConnectOn(s);
        case Disconnect(s) => DisconnectOn();
        case OpenPrompt(s, kind, requests, message) =>
          var fields := DrainInputQueue(requests);
          prompt := Some(PromptSpec(s, kind, message, fields));
        case ClosePrompt => prompt := None;
        case ProvideInput(s, responses) => ProvideInputTo(s, responses);
        case CheckReady(s) => fed := CheckReadyOn(s);
        case Note(s, text) => Jotted(s, text);
      }
      assert (View(), fed) == Performed(w, command);
      if fed.Some? {
        FeedbackIsLighter(w, command);
        var nested := Fire(fed.value);
        ExecAppends(View(), nested, rest);
        Execute(nested);
      }
    }

    method NewTunnelOn(config: Path) returns (fed: Option<Event>)
      requires Valid()
      modifies this, logs
      ensures Valid() && (View(), fed) == StartTunnel(old(View()), config)
    {
      var manager := Call();
      if manager.Unreachable? {
        return None;
      }
      var answer := Call();
      match answer {
        case Tunnel(p) =>
          logs.BeginSession(p);
          backend := Backend(backend.known + {p}, backend.alive + {p},
                             backend.sound && p !in backend.known);
          return Some(SessionCreated(p, config));
        case _ =>
          Jotted(config, StartFailed(ErrorText(answer)));
          return None;
      }
    }

    method EnableLogForwardOn(s: Path)
      requires Valid()
      modifies this, logs
      ensures Valid() && View() == ForwardLog(old(View()), s)
    {
      var proxy := Call();
      if !proxy.Unreachable? {
        var answer := Call();
        if !answer.Done? {
          Jotted(s, LogForwardUnavailable(ErrorText(answer)));
        }
      }
    }

    method ConnectOn(s: Path)
      requires Valid()
      modifies this, logs
      ensures Valid() && View() == ConnectTo(old(View()), s)
    {
      var proxy := Call();
      if !proxy.Unreachable? {
        var answer := Call();
        if !answer.Done? {
          Jotted(s, ConnectFailed(ErrorText(answer)));
        }
      }
    }

    method DisconnectOn()
      requires Valid()
      modifies this
      ensures Valid() && View() == HangUp(old(View()))
    {
      var proxy := Call();
      if !proxy.Unreachable? {
        var _ := Call();
      }
    }

    /** Ask every queue in turn what it wants. */
    method DrainInputQueue(requests: seq<Request>) returns (fields: seq<PromptField>)
      requires Valid()
      modifies this
      ensures Valid()
      ensures (fields, View()) == DrainAll(old(View()), requests)
    {
      fields := [];
      for i := 0 to |requests|
        invariant Valid()
        invariant fields + DrainAll(View(), requests[i..]).0 == DrainAll(old(View()), requests).0
        invariant DrainAll(View(), requests[i..]).1 == DrainAll(old(View()), requests).1
      {
        QueueAtATime(View(), requests, i);
        ghost var more := DrainAll(Drain(View(), requests[i]).1, requests[i + 1..]).0;
        var some := DrainOne(requests[i]);
        assert fields + (some + more) == (fields + some) + more;
        fields := fields + some;
      }
      assert fields + [] == fields;
    }

    method DrainOne(request: Request) returns (fields: seq<PromptField>)
      requires Valid()
      modifies this
      ensures Valid()
      ensures (fields, View()) == Drain(old(View()), request)
    {
      fields := [];
      var proxy := Call();
      if proxy.Unreachable? {
        return;
      }
      var answer := Call();
      if !answer.Ids? {
        return;
      }
      var ids := answer.ids;
      ghost var start := View();
      for i := 0 to |ids|
        invariant Valid()
        invariant fields + FetchAll(View(), request, ids[i..]).0 == FetchAll(start, request, ids).0
        invariant FetchAll(View(), request, ids[i..]).1 == FetchAll(start, request, ids).1
      {
        ItemAtATime(View(), request, ids, i);
        ghost var more := FetchAll(Ask(View()).1, request, ids[i + 1..]).0;
        var item := Call();
        if item.Item? {
          var field := ToField(InputRequest(request.0, request.1, item.id, item.name,
                                            item.description, item.hidden));
          assert fields + ([field] + more) == (fields + [field]) + more;
          fields := fields + [field];
        }
      }
      assert fields + [] == fields;
    }

    method ProvideInputTo(s: Path, responses: seq<InputResponse>)
      requires Valid()
      modifies this, logs
      ensures Valid() && View() == Provide(old(View()), s, responses)
    {
      var refused: seq<Text> := [];
      var proxy := Call();
      if proxy.Unreachable? {
        return;
      }
      ghost var start := View();
      for i := 0 to |responses|
        invariant Valid()
        invariant ProvideEach(View(), s, responses[i..]).0 == ProvideEach(start, s, responses).0
        invariant refused + ProvideEach(View(), s, responses[i..]).1 == ProvideEach(start, s, responses).1
      {
        assert responses[i..][1..] == responses[i + 1..];
        trace := Snoc(trace, Answer(s, responses[i]));
        var answer := Call();
        if !answer.Done? {
          refused := refused + [SubmitFailed(ErrorText(answer))];
        }
      }
      assert refused + [] == refused;
      NoteAll(s, refused);
    }

    method NoteAll(s: Path, texts: seq<Text>)
      requires Valid()
      modifies logs
      ensures Valid() && View() == JotAll(old(View()), s, texts)
    {
      for i := 0 to |texts|
        invariant Valid() && JotAll(View(), s, texts[i..]) == JotAll(old(View()), s, texts)
      {
        assert texts[i..][1..] == texts[i + 1..];
        Jotted(s, texts[i]);
      }
    }

    method CheckReadyOn(s: Path) returns (fed: Option<Event>)
      requires Valid()
      modifies this, logs
      ensures Valid() && (View(), fed) == AskReady(old(View()), s)
    {
      var proxy := Call();
      if proxy.Unreachable? {
        return None;
      }
      var ready := Call();
      if ready.Done? {
        return Some(SessionReady(s));
      }
      var queue := Call();
      if !queue.Pairs? || queue.pairs == [] {
        Jotted(s, BackendNotReady(ErrorText(ready)));
        return None;
      }
      var requests := ReadPairs(s, queue.pairs);
      if requests == [] {
        return None;
      }
      return Some(CredentialsRequired(s, requests, ""));
    }

    method ReadPairs(s: Path, pairs: seq<(u32, u32)>) returns (requests: seq<Request>)
      requires Valid()
      modifies logs
      ensures Valid() && requests == Recognised(pairs)
      ensures View() == NotePairs(old(View()), s, pairs)
    {
      requests := [];
      for i := 0 to |pairs|
        invariant Valid() && requests + Recognised(pairs[i..]) == Recognised(pairs)
        invariant NotePairs(View(), s, pairs[i..]) == NotePairs(old(View()), s, pairs)
      {
        PairAtATime(View(), s, pairs, i);
        ghost var rest := Recognised(pairs[i + 1..]);
        var heard := ReadPair(s, pairs[i]);
        assert requests + (heard + rest) == (requests + heard) + rest;
        requests := requests + heard;
      }
    }

    method ReadPair(s: Path, pair: (u32, u32)) returns (heard: seq<Request>)
      requires Valid()
      modifies logs
      ensures Valid() && heard == Heard(pair) && View() == NoteOne(old(View()), s, pair)
    {
      var decoded := DecodePair(pair.0, pair.1);
      match decoded {
        case Some(r) => heard := [r];
        case None =>
          Jotted(s, UnrecognisedRequest(pair.0, pair.1));
          heard := [];
      }
    }

    // ------------------------------------------------------------- inputs

    method Dispatch(e: Event)
      requires Valid()
      modifies this, machine, logs
      ensures Valid() && View() == Deliver(old(View()), e)
    {
      var commands := Fire(e);
      Execute(commands);
    }

    method TransitionInFlight() returns (yes: bool)
      ensures yes == InFlight(machine.View())
    {
      yes := machine.awaitingTeardown.Some? || machine.state == Connecting;
    }

    method ReconcileTeardown()
      requires Valid()
      modifies this, machine, logs
      ensures Valid() && View() == DoPhase(old(View()), CheckTeardown)
    {
      if machine.awaitingTeardown.None? {
        return;
      }
      var s := machine.awaitingTeardown.value;
      var manager := Call();
      if manager.Unreachable? {
        return;
      }
      var answer := Call();
      if !answer.Sessions? {
        return;
      }
      backend := backend.(sound := backend.sound && ListsAll(answer.paths, backend.alive));
      if s !in answer.paths {
        logs.RemoveSession(s);
        Dispatch(SessionRemoved(s));
      }
    }

    method ReconcileActiveStatus()
      requires Valid()
      modifies this, machine, logs
      ensures Valid() && View() == DoPhase(old(View()), CheckStatus)
    {
      if machine.active.None? {
        return;
      }
      var s := machine.active.value.session;
      var proxy := Call();
      if proxy.Unreachable? {
        return;
      }
      var answer := Call();
      var decoded := StatusFrom(answer);
      if decoded.None? {
        return;
      }
      var status := decoded.value;
      backend := backend.(sound := backend.sound && (status.ReportsDown() ==> s !in backend.alive));
      Dispatch(StatusChanged(s, status));
    }

    method OnUiCommand(command: UiCommand)
      requires Valid()
      modifies this, machine, logs
      ensures Valid() && View() == Step(old(View()), Ui(command))
    {
      ghost var w := View();
      if command.SelectProfile? || command.StopTunnel? || command.RefreshProfiles? {
        ReconcileTeardown();
        ReconcileActiveStatus();
        ThreePhases(w, CheckTeardown, CheckStatus, OnUi(command));
      }
      var event: Option<Event> := None;
      match command {
        case SelectProfile(config) => event := Some(ProfileSelected(config));
        case StopTunnel => event := Some(DisconnectRequested);
        case DismissFailure => event := Some(FailureDismissed);
        case CancelPrompt =>
          if prompt.Some? { event := Some(PromptCancelled(prompt.value.session)); }
        case SubmitPrompt(responses) =>
          if prompt.Some? { event := Some(PromptSubmitted(prompt.value.session, responses)); }
        case _ =>
      }
      assert event == UiEvent(View(), command);
      ghost var x := View();
      if event.Some? {
        Dispatch(event.value);
      }
      assert View() == DoPhase(x, OnUi(command));
      OnePhase(x, OnUi(command));
    }

    method OnWire(wire: Wire)
      requires Valid()
      modifies this, machine, logs
      ensures Valid() && View() == Step(old(View()), Signal(wire))
    {
      ghost var w := View();
      var event: Option<Event> := None;
      match wire {
        case StatusSignal(s, status) =>
          backend := backend.(sound := backend.sound && (status.ReportsDown() ==> s !in backend.alive));
          event := Some(StatusChanged(s, status));
        case AttentionSignal(s, kind, group, message) =>
          var decoded := DecodePair(kind, group);
          match decoded {
            case Some(request) => event := Some(AttentionRequired(s, request, message));
            case None => Jotted(s, UnrecognisedRequest(kind, group));
          }
        case LogSignal(s, entry) => logs.PushLine(s, entry);
        case ManagerSignal(p, removed) =>
          if removed {
            backend := backend.(sound := backend.sound && p !in backend.alive);
            logs.RemoveSession(p);
            event := Some(SessionRemoved(p));
          }
      }
      assert (View(), event) == ReadSignal(w, wire);
      if event.Some? {
        Dispatch(event.value);
      }
      assert View() == DoPhase(w, OnSignal(wire));
      OnePhase(w, OnSignal(wire));
    }

    /** The settle arm of the loop: it runs only while its guard holds. */
    method OnTick()
      requires Valid()
      modifies this, machine, logs
      ensures Valid() && View() == Step(old(View()), Tick)
    {
      ghost var w := View();
      var inFlight := TransitionInFlight();
      if inFlight {
        ReconcileTeardown();
        ReconcileActiveStatus();
        TwoPhases(w, CheckTeardown, CheckStatus);
      }
    }

    /** A session dies; the worker notices nothing. */
    ghost method Forget(p: Path)
      requires Valid()
      modifies this`backend
      ensures Valid() && View() == Step(old(View()), SessionDies(p))
    {
      OnePhase(View(), OnDeath(p));
      backend := backend.(alive := backend.alive - {p});
    }

    /** What the popup is sent after every input. */
    method Publish(profiles: seq<Profile>, unavailable: bool) returns (snapshot: Snapshot)
      requires Valid()
      ensures snapshot == Published(View(), profiles, unavailable)
    {
      var log := logs.MostRecent();
      var lines: Option<seq<LogEntry>> := None;
      match log {
        case Captured(_, entries) => lines := Some(entries);
        case _ =>
      }
      var config: Option<Path> := None;
      match machine.active {
        case Some(a) => config := Some(a.config);
        case None =>
      }
      snapshot := Snapshot(machine.state, profiles, config, prompt, lines, unavailable);
    }

    method AdoptExistingSessions()
      requires Valid() && View() == Blank(bus)
      modifies this, machine, logs
      ensures Valid() && View() == Startup(old(bus))
    {
      var manager := Call();
      if manager.Unreachable? {
        return;
      }
      var answer := Call();
      if !answer.Sessions? {
        return;
      }
      var paths := answer.paths;
      ghost var start := View();
      for i := 0 to |paths|
        invariant Valid() && AdoptFirst(View(), paths[i..]) == AdoptFirst(start, paths)
      {
        assert paths[i..][1..] == paths[i + 1..];
        var adopted := AdoptListed(paths[i]);
        if adopted {
          return;
        }
      }
    }

    method AdoptListed(p: Path) returns (adopted: bool)
      requires Valid()
      modifies this, machine, logs
      ensures Valid() && (View(), adopted) == AdoptOne(old(View()), p)
    {
      var proxy := Call();
      if proxy.Unreachable? {
        return false;
      }
      var answer := Call();
      var decoded := StatusFrom(answer);
      if decoded.None? {
        return false;
      }
      backend := Found(View(), p, decoded.value).backend;
      var config := Call();
      logs.AdoptExternalSession(p);
      Dispatch(ExternalSessionSeen(p, if config.ConfigIs? then config.config else "", decoded.value));
      return true;
    }
  }

  /** The worker's whole life: start, adopt, then take inputs as they come. */
  method Serve(bus: seq<Beat>, inputs: seq<Input>) returns (worker: Worker)
    ensures fresh(worker) && worker.Valid()
    ensures worker.View() == Run(Startup(bus), inputs)
  {
    worker := new Worker(bus);
    worker.AdoptExistingSessions();
    for i := 0 to |inputs|
      invariant fresh(worker) && fresh(worker.machine) && fresh(worker.logs) && worker.Valid()
      invariant Run(worker.View(), inputs[i..]) == Run(Startup(bus), inputs)
    {
      assert inputs[i..][1..] == inputs[i + 1..];
      match inputs[i] {
        case Ui(command) => worker.OnUiCommand(command);
        case Signal(wire) => worker.OnWire(wire);
        case Tick => worker.OnTick();
        case SessionDies(p) => worker.Forget(p);
      }
    }
  }

  lemma PairAtATime(w: World, s: Path, pairs: seq<(u32, u32)>, i: nat)
    requires i < |pairs|
    ensures Recognised(pairs[i..]) == Heard(pairs[i]) + Recognised(pairs[i + 1..])
    ensures NotePairs(w, s, pairs[i..]) == NotePairs(NoteOne(w, s, pairs[i]), s, pairs[i + 1..])
  {
    assert pairs[i..][1..] == pairs[i + 1..];
  }

  lemma QueueAtATime(w: World, requests: seq<Request>, i: nat)
    requires i < |requests|
    ensures var (fields, x) := Drain(w, requests[i]);
            var (more, y) := DrainAll(x, requests[i + 1..]);
            DrainAll(w, requests[i..]) == (fields + more, y)
  {
    assert requests[i..][1..] == requests[i + 1..];
  }

  lemma ItemAtATime(w: World, r: Request, ids: seq<u32>, i: nat)
    requires i < |ids|
    ensures var (answer, x) := Ask(w);
            var (fields, y) := FetchAll(x, r, ids[i + 1..]);
            FetchAll(w, r, ids[i..])
            == (if answer.Item?
                then [ToField(InputRequest(r.0, r.1, answer.id, answer.name, answer.description, answer.hidden))]
                     + fields
                else fields, y)
  {
    assert ids[i..][1..] == ids[i + 1..];
  }
}
