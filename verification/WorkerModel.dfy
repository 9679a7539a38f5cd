/** The worker around the machine, as a function of what the bus answers.

    A `World` holds the worker's own state, the answers the bus still has in
    store, what is true of the backend, and a trace of everything done so far.
    Every answer and every input is arbitrary, so a statement about all worlds
    reached from `Startup` is a statement about every run: signals lost, late,
    repeated or out of order are just other input sequences. */
module WorkerModel {
  import opened Prelude
  import opened WireCodes
  import opened StatusMap
  import opened AttentionRouting
  import opened TransitionMachine
  import opened LogBuffer

  /** One answer from the bus. A call that gets an answer of another kind than
      the one it asked for has failed. */
  datatype Reply =
    | Unreachable
    | Error(text: string)
    | Done
    | Tunnel(path: Path)
    | Pairs(pairs: seq<(u32, u32)>)
    | Ids(ids: seq<u32>)
    | Item(id: u32, name: string, description: string, hidden: bool)
    | Sessions(paths: seq<Path>)
    | StatusIs(major: u32, minor: u32, message: string)
    | ConfigIs(config: Path)

  function ErrorText(r: Reply): string { if r.Error? then r.text else "" }

  /** An answer, and the sessions that died of their own accord before it came. */
  datatype Beat = Beat(reply: Reply, dead: set<Path>)

  datatype PromptSpec = PromptSpec(
    session: Path, kind: PromptKind, message: string, fields: seq<PromptField>)

  /** One thing that happened. `alive` is the backend's view at that moment. */
  datatype Obs =
    | Handled(event: Event, after: MState)
    | Executed(command: Command, alive: set<Path>)
    | Provided(session: Path, kind: int, group: int, id: u32, value: string)

  datatype Trace = Nil | Snoc(past: Trace, last: Obs)

  /** What is true of openvpn3: the sessions the applet ever created or adopted,
      which of them still exist, and whether the backend has kept its side:
      new tunnels get unused paths, and only sessions that are over are reported
      over, whether by signal, by status or by being left off a list. */
  datatype Backend = Backend(known: set<Path>, alive: set<Path>, sound: bool)

  datatype World = World(
    machine: MState,
    logs: Histories,
    prompt: Option<PromptSpec>,
    replies: seq<Beat>,
    backend: Backend,
    trace: Trace)
  {
    function Saw(o: Obs): World { this.(trace := Snoc(trace, o)) }
    function Log(op: LogOp): World { this.(logs := Apply(logs, op)) }

    /** The backend vouches for `fact`, or has broken its word. */
    function Vouch(fact: bool): World {
      this.(backend := backend.(sound := backend.sound && fact))
    }

    /** Something new exists in the backend. */
    function Gained(p: Path): World {
      this.(backend := backend.(known := backend.known + {p}, alive := backend.alive + {p}))
    }

    /** These sessions are over, and stay over. */
    function Lost(dead: set<Path>): World {
      this.(backend := backend.(alive := backend.alive - dead))
    }
  }

  /** The next answer, and the world as it is by then; a bus that has gone quiet
      is unreachable. */
  function Ask(w: World): (Reply, World) {
    if w.replies == [] then (Unreachable, w)
    else (w.replies[0].reply, w.(replies := w.replies[1..]).Lost(w.replies[0].dead))
  }

  // --------------------------------------------------- carrying out commands

  function Performed(w: World, c: Command): (World, Option<Event>) {
    var x := w.Saw(Executed(c, w.backend.alive));
    match c
    case NewTunnel(config) => StartTunnel(x, config)
    case EnableLogForward(s) => (ForwardLog(x, s), None)
    case Connect(s) => (ConnectTo(x, s), None)
    case Disconnect(s) => (HangUp(x), None)
    case OpenPrompt(s, kind, requests, message) =>
      var (fields, y) := DrainAll(x, requests);
      (y.(prompt := Some(PromptSpec(s, kind, message, fields))), None)
    case ClosePrompt => (x.(prompt := None), None)
    case ProvideInput(s, responses) => (Provide(x, s, responses), None)
    case CheckReady(s) => AskReady(x, s)
    case Note(s, text) => (x.Log(Jot(s, text)), None)
  }

  function StartTunnel(w: World, config: Path): (World, Option<Event>) {
    var (manager, x) := Ask(w);
    if manager.Unreachable? then (x, None)
    else
      var (answer, y) := Ask(x);
      match answer
      case Tunnel(p) =>
        (y.Vouch(p !in y.backend.known).Gained(p).Log(Begin(p)), Some(SessionCreated(p, config)))
      case _ => (y.Log(Jot(config, StartFailed(ErrorText(answer)))), None)
  }

  function ForwardLog(w: World, s: Path): World {
    var (proxy, x) := Ask(w);
    if proxy.Unreachable? then x
    else
      var (answer, y) := Ask(x);
      if answer.Done? then y else y.Log(Jot(s, LogForwardUnavailable(ErrorText(answer))))
  }

  function ConnectTo(w: World, s: Path): World {
    var (proxy, x) := Ask(w);
    if proxy.Unreachable? then x
    else
      var (answer, y) := Ask(x);
      if answer.Done? then y else y.Log(Jot(s, ConnectFailed(ErrorText(answer))))
  }

  function HangUp(w: World): World {
    var (proxy, x) := Ask(w);
    if proxy.Unreachable? then x else Ask(x).1
  }

  function FetchAll(w: World, r: Request, ids: seq<u32>): (seq<PromptField>, World)
    decreases |ids|
  {
    if ids == [] then ([], w)
    else
      var (answer, x) := Ask(w);
      var (fields, y) := FetchAll(x, r, ids[1..]);
      match answer
      case Item(id, name, description, hidden) =>
        ([ToField(InputRequest(r.0, r.1, id, name, description, hidden))] + fields, y)
      case _ => (fields, y)
  }

  function Drain(w: World, r: Request): (seq<PromptField>, World) {
    var (proxy, x) := Ask(w);
    if proxy.Unreachable? then ([], x)
    else
      var (answer, y) := Ask(x);
      if answer.Ids? then FetchAll(y, r, answer.ids) else ([], y)
  }

  function DrainAll(w: World, requests: seq<Request>): (seq<PromptField>, World)
    decreases |requests|
  {
    if requests == [] then ([], w)
    else
      var (fields, x) := Drain(w, requests[0]);
      var (more, y) := DrainAll(x, requests[1..]);
      (fields + more, y)
  }

  function Answer(s: Path, r: InputResponse): Obs {
    Provided(s, EncodeType(r.kind), EncodeGroup(r.group), r.id, r.value)
  }

  /** One call per response, in order, collecting what was refused. */
  function ProvideEach(w: World, s: Path, responses: seq<InputResponse>): (World, seq<Text>)
    decreases |responses|
  {
    if responses == [] then (w, [])
    else
      var (answer, x) := Ask(w.Saw(Answer(s, responses[0])));
      var (y, refused) := ProvideEach(x, s, responses[1..]);
      (y, if answer.Done? then refused else [SubmitFailed(ErrorText(answer))] + refused)
  }

  function JotAll(w: World, s: Path, texts: seq<Text>): World
    decreases |texts|
  {
    if texts == [] then w else JotAll(w.Log(Jot(s, texts[0])), s, texts[1..])
  }

  function Provide(w: World, s: Path, responses: seq<InputResponse>): World {
    var (proxy, x) := Ask(w);
    if proxy.Unreachable? then x
    else
      var (y, refused) := ProvideEach(x, s, responses);
      JotAll(y, s, refused)
  }

  /** The request a queued pair stands for, if this build understands it. */
  function Heard(pair: (u32, u32)): seq<Request> {
    match DecodePair(pair.0, pair.1) case Some(r) => [r] case None => []
  }

  /** A pair it does not understand leaves a line in the log. */
  function NoteOne(w: World, s: Path, pair: (u32, u32)): World {
    if DecodePair(pair.0, pair.1).Some? then w else w.Log(Jot(s, UnrecognisedRequest(pair.0, pair.1)))
  }

  /** The queued pairs this build understands, in order. */
  function Recognised(pairs: seq<(u32, u32)>): seq<Request> {
    if pairs == [] then [] else Heard(pairs[0]) + Recognised(pairs[1..])
  }

  function NotePairs(w: World, s: Path, pairs: seq<(u32, u32)>): World
    decreases |pairs|
  {
    if pairs == [] then w else NotePairs(NoteOne(w, s, pairs[0]), s, pairs[1..])
  }

  function AskReady(w: World, s: Path): (World, Option<Event>) {
    var (proxy, x) := Ask(w);
    if proxy.Unreachable? then (x, None)
    else
      var (ready, y) := Ask(x);
      if ready.Done? then (y, Some(SessionReady(s)))
      else
        var (queue, z) := Ask(y);
        if !queue.Pairs? || queue.pairs == [] then
          (z.Log(Jot(s, BackendNotReady(ErrorText(ready)))), None)
        else
          var requests := Recognised(queue.pairs);
          (NotePairs(z, s, queue.pairs),
           if requests == [] then None else Some(CredentialsRequired(s, requests, "")))
  }

  function Fired(w: World, e: Event): (World, seq<Command>) {
    var (m, commands) := React(w.machine, e);
    (w.(machine := m).Saw(Handled(e, m)), commands)
  }

  // --------------------------------------------------- running a whole batch

  function Weight(c: Command): nat {
    match c
    case NewTunnel(_) => 5
    case CheckReady(_) => 3
    case _ => 1
  }

  function Load(commands: seq<Command>): nat {
    if commands == [] then 0 else Weight(commands[0]) + Load(commands[1..])
  }

  lemma {:induction false} LoadAdds(a: seq<Command>, b: seq<Command>)
    ensures Load(a + b) == Load(a) + Load(b)
  {
    if a == [] {
      assert a + b == b;
    } else {
      LoadAdds(a[1..], b);
      assert (a + b)[1..] == a[1..] + b;
    }
  }

  /** What a command feeds back into the machine always asks for less than the
      command itself cost; this is why `execute` comes to an end. */
  lemma FeedbackIsLighter(w: World, c: Command)
    requires Performed(w, c).1.Some?
    ensures var (x, fed) := Performed(w, c); Load(Fired(x, fed.value).1) < Weight(c)
  {
    var (x, fed) := Performed(w, c);
    BatchLoad(x.machine, fed.value);
  }

  /** No event, on any machine state, asks for more than five units of work. */
  lemma BatchLoad(m: MState, e: Event)
    ensures var load := Load(React(m, e).1);
            load <= 5
            && (e.SessionCreated? ==> load <= 4)
            && (e.SessionReady? || e.CredentialsRequired? ==> load <= 2)
  {
    var commands := React(m, e).1;
    assert |commands| <= 3;
    if |commands| >= 1 { assert Load(commands) == Weight(commands[0]) + Load(commands[1..]); }
    if |commands| >= 2 { assert Load(commands[1..]) == Weight(commands[1]) + Load(commands[2..]); }
    if |commands| >= 3 { assert Load(commands[2..]) == Weight(commands[2]) + Load(commands[3..]); }
  }

  /** Depth-first execution as one stack of commands: what a command feeds back
      goes on top of what was still to be done. */
  function Exec(w: World, commands: seq<Command>): World
    decreases Load(commands)
  {
    if commands == [] then w
    else
      var (x, fed) := Performed(w, commands[0]);
      match fed
      case None => Exec(x, commands[1..])
      case Some(e) =>
        var (y, nested) := Fired(x, e);
        FeedbackIsLighter(w, commands[0]);
        LoadAdds(nested, commands[1..]);
        Exec(y, nested + commands[1..])
  }

  /** Running a batch and then the rest is running them as one stack, so the
      recursion in `execute` and the stack agree. */
  lemma {:induction false} ExecAppends(w: World, a: seq<Command>, b: seq<Command>)
    ensures Exec(w, a + b) == Exec(Exec(w, a), b)
    decreases Load(a)
  {
    if a == [] {
      assert a + b == b;
    } else {
      assert (a + b)[1..] == a[1..] + b;
      var (x, fed) := Performed(w, a[0]);
      match fed {
        case None => ExecAppends(x, a[1..], b);
        case Some(e) =>
          var (y, nested) := Fired(x, e);
          FeedbackIsLighter(w, a[0]);
          LoadAdds(nested, a[1..]);
          assert nested + (a + b)[1..] == (nested + a[1..]) + b;
          ExecAppends(y, nested + a[1..], b);
      }
    }
  }

  lemma ExecPlain(w: World, c: Command, rest: seq<Command>)
    requires Performed(w, c).1.None?
    ensures Exec(w, [c] + rest) == Exec(Performed(w, c).0, rest)
  {
    assert ([c] + rest)[1..] == rest;
  }

  lemma ExecFed(w: World, c: Command)
    requires Performed(w, c).1.Some?
    ensures var (x, fed) := Performed(w, c);
            var (y, nested) := Fired(x, fed.value);
            Exec(w, [c]) == Exec(y, nested)
  {
    var (x, fed) := Performed(w, c);
    var (y, nested) := Fired(x, fed.value);
    assert [c][1..] == [] && nested + [] == nested;
  }

  function Deliver(w: World, e: Event): World {
    var (x, commands) := Fired(w, e);
    Exec(x, commands)
  }

  // --------------------------------------------------- inputs

  datatype UiCommand =
    | SelectProfile(config: Path)
    | StopTunnel
    | SubmitPrompt(responses: seq<InputResponse>)
    | CancelPrompt
    | DismissFailure
    | RefreshProfiles
    | Import(file: string)
    | RenameProfile(config: Path, name: string)
    | DeleteProfile(config: Path)

  datatype Wire =
    | StatusSignal(session: Path, status: Status)
    | AttentionSignal(session: Path, kind: u32, group: u32, message: string)
    | LogSignal(session: Path, entry: LogEntry)
    | ManagerSignal(path: Path, removed: bool)

  /** `SessionDies` is the backend's own move, between inputs; the worker does not see it. */
  datatype Input = Ui(command: UiCommand) | Signal(wire: Wire) | Tick | SessionDies(path: Path)

  /** An input is worked through in phases, each delivering at most one event. */
  datatype Phase =
    | CheckTeardown
    | CheckStatus
    | OnUi(command: UiCommand)
    | OnSignal(wire: Wire)
    | OnDeath(path: Path)

  predicate InFlight(m: MState) { m.awaiting.Some? || m.state == Connecting }

  function Phases(w: World, input: Input): seq<Phase> {
    match input
    case Ui(c) =>
      if c.SelectProfile? || c.StopTunnel? || c.RefreshProfiles?
      then [CheckTeardown, CheckStatus, OnUi(c)]
      else [OnUi(c)]
    case Signal(wire) => [OnSignal(wire)]
    case Tick => if InFlight(w.machine) then [CheckTeardown, CheckStatus] else []
    case SessionDies(p) => [OnDeath(p)]
  }

  /** What a phase reads and notes, and the event it comes to. */
  function Prepared(w: World, phase: Phase): (World, Option<Event>) {
    match phase
    case CheckTeardown => ReadSessions(w)
    case CheckStatus => ReadStatus(w)
    case OnUi(c) => (w, UiEvent(w, c))
    case OnSignal(wire) => ReadSignal(w, wire)
    case OnDeath(p) => (w.Lost({p}), None)
  }

  /** No session that is alive was left off the list. */
  predicate ListsAll(paths: seq<Path>, alive: set<Path>) { forall p :: p in alive ==> p in paths }

  function ReadSessions(w: World): (World, Option<Event>) {
    if w.machine.awaiting.None? then (w, None)
    else
      var s := w.machine.awaiting.value;
      var (manager, x) := Ask(w);
      if manager.Unreachable? then (x, None)
      else
        var (answer, y) := Ask(x);
        if !answer.Sessions? then (y, None)
        else
          var z := y.Vouch(ListsAll(answer.paths, y.backend.alive));
          if s in answer.paths then (z, None)
          else (z.Log(Remove(s)), Some(SessionRemoved(s)))
  }

  function ReadStatus(w: World): (World, Option<Event>) {
    if w.machine.active.None? then (w, None)
    else
      var s := w.machine.active.value.session;
      var (proxy, x) := Ask(w);
      if proxy.Unreachable? then (x, None)
      else
        var (answer, y) := Ask(x);
        match StatusFrom(answer)
        case None => (y, None)
        case Some(status) =>
          (y.Vouch(status.ReportsDown() ==> s !in y.backend.alive), Some(StatusChanged(s, status)))
  }

  /** What an answer says of a session's status, if it can be decoded. */
  function StatusFrom(answer: Reply): Option<Status> {
    if answer.StatusIs? then FromWire(AsU8(answer.major), AsU16(answer.minor), answer.message) else None
  }

  function UiEvent(w: World, c: UiCommand): Option<Event> {
    match c
    case SelectProfile(config) => Some(ProfileSelected(config))
    case StopTunnel => Some(DisconnectRequested)
    case DismissFailure => Some(FailureDismissed)
    case CancelPrompt =>
      (match w.prompt case Some(p) => Some(PromptCancelled(p.session)) case None => None)
    case SubmitPrompt(responses) =>
      (match w.prompt case Some(p) => Some(PromptSubmitted(p.session, responses)) case None => None)
    case RefreshProfiles => None
    case Import(_) => None
    case RenameProfile(_, _) => None
    case DeleteProfile(_) => None
  }

  function ReadSignal(w: World, wire: Wire): (World, Option<Event>) {
    match wire
    case StatusSignal(s, status) =>
      (w.Vouch(status.ReportsDown() ==> s !in w.backend.alive), Some(StatusChanged(s, status)))
    case AttentionSignal(s, kind, group, message) =>
      (match DecodePair(kind, group)
       case Some(request) => (w, Some(AttentionRequired(s, request, message)))
       case None => (w.Log(Jot(s, UnrecognisedRequest(kind, group))), None))
    case LogSignal(s, entry) => (w.Log(Push(s, entry)), None)
    case ManagerSignal(p, removed) =>
      if removed
      then (w.Vouch(p !in w.backend.alive).Log(Remove(p)), Some(SessionRemoved(p)))
      else (w, None)
  }

  function DoPhase(w: World, phase: Phase): World {
    var (x, event) := Prepared(w, phase);
    match event
    case None => x
    case Some(e) => Deliver(x, e)
  }

  function DoPhases(w: World, phases: seq<Phase>): World
    decreases |phases|
  {
    if phases == [] then w else DoPhases(DoPhase(w, phases[0]), phases[1..])
  }

  lemma OnePhase(w: World, a: Phase)
    ensures DoPhases(w, [a]) == DoPhase(w, a)
  {
    assert DoPhases(w, [a]) == DoPhases(DoPhase(w, a), []);
  }

  lemma TwoPhases(w: World, a: Phase, b: Phase)
    ensures DoPhases(w, [a, b]) == DoPhase(DoPhase(w, a), b)
  {
    assert [a, b][1..] == [b];
    OnePhase(DoPhase(w, a), b);
  }

  lemma ThreePhases(w: World, a: Phase, b: Phase, c: Phase)
    ensures DoPhases(w, [a, b, c]) == DoPhase(DoPhase(DoPhase(w, a), b), c)
  {
    assert [a, b, c][1..] == [b, c];
    TwoPhases(DoPhase(w, a), b, c);
  }

  function Step(w: World, input: Input): World { DoPhases(w, Phases(w, input)) }

  function Run(w: World, inputs: seq<Input>): World
    decreases |inputs|
  {
    if inputs == [] then w else Run(Step(w, inputs[0]), inputs[1..])
  }

  // --------------------------------------------------- what the popup is told

  const LOG_CAPACITY := 1000

  datatype Profile = Profile(config: Path, name: string)

  /** Everything the popup renders, replaced wholesale. `unavailable` says that
      openvpn3 itself cannot be reached. */
  datatype Snapshot = Snapshot(
    state: ConnectionState,
    profiles: seq<Profile>,
    activeConfig: Option<Path>,
    prompt: Option<PromptSpec>,
    log: Option<seq<LogEntry>>,
    unavailable: bool)

  const NO_SNAPSHOT := Snapshot(Disconnected, [], None, None, None, false)

  /** The log as published: nothing, unless some of it was captured. */
  function LinesOf(log: SessionLog): Option<seq<LogEntry>> {
    if log.Captured? then Some(log.entries) else None
  }

  function Published(w: World, profiles: seq<Profile>, unavailable: bool): Snapshot {
    Snapshot(w.machine.state, profiles,
             if w.machine.active.Some? then Some(w.machine.active.value.config) else None,
             w.prompt, LinesOf(Shown(w.logs, LOG_CAPACITY)), unavailable)
  }

  // --------------------------------------------------- startup

  function Blank(replies: seq<Beat>): World {
    World(FRESH, NO_HISTORY, None, replies, Backend({}, {}, true), Nil)
  }

  /** Adopt a session found at startup, if its status can be read. */
  function AdoptOne(w: World, p: Path): (World, bool) {
    var (proxy, x) := Ask(w);
    if proxy.Unreachable? then (x, false)
    else
      var (answer, y) := Ask(x);
      match StatusFrom(answer)
      case None => (y, false)
      case Some(status) =>
        var (answer, z) := Ask(Found(y, p, status));
        var config := if answer.ConfigIs? then answer.config else "";
        (Deliver(z.Log(Adopt(p)), ExternalSessionSeen(p, config, status)), true)
  }

  /** A session the applet did not start has shown up in the backend. */
  function Found(w: World, p: Path, status: Status): World {
    var x := w.Gained(p);
    if status.ReportsDown() then x.Lost({p}) else x
  }

  /** Only the first readable session is adopted. */
  function AdoptFirst(w: World, paths: seq<Path>): World
    decreases |paths|
  {
    if paths == [] then w
    else
      var (x, adopted) := AdoptOne(w, paths[0]);
      if adopted then x else AdoptFirst(x, paths[1..])
  }

  function Startup(replies: seq<Beat>): World {
    var (manager, x) := Ask(Blank(replies));
    if manager.Unreachable? then x
    else
      var (answer, y) := Ask(x);
      if answer.Sessions? then AdoptFirst(y, answer.paths) else y
  }
}
