/** The connection transition machine: events in, ordered commands out. */
module TransitionMachine {
  import opened Prelude
  import opened StatusMap
  import opened AttentionRouting

  datatype Event =
    | ProfileSelected(config: Path)
    | DisconnectRequested
    | SessionCreated(session: Path, config: Path)
    | SessionReady(session: Path)
    | CredentialsRequired(session: Path, requests: seq<Request>, message: string)
    | ExternalSessionSeen(session: Path, config: Path, status: Status)
    | StatusChanged(session: Path, status: Status)
    | SessionRemoved(session: Path)
    | AttentionRequired(session: Path, request: Request, message: string)
    | PromptSubmitted(session: Path, responses: seq<InputResponse>)
    | PromptCancelled(session: Path)
    | FailureDismissed

  datatype Command =
    | NewTunnel(config: Path)
    | EnableLogForward(session: Path)
    | Connect(session: Path)
    | Disconnect(session: Path)
    | OpenPrompt(session: Path, kind: PromptKind, requests: seq<Request>, message: string)
    | ClosePrompt
    | ProvideInput(session: Path, responses: seq<InputResponse>)
    | CheckReady(session: Path)
    | Note(session: Path, text: Text)
  {
    /** Does carrying out this command act on session `s`? */
    predicate Names(s: Path) { !NewTunnel? && !ClosePrompt? && session == s }
  }

  datatype ActiveSession = ActiveSession(session: Path, config: Path)

  /** The five coupled fields of the machine, as a value. */
  datatype MState = MState(
    state: ConnectionState,
    active: Option<ActiveSession>,
    pending: Option<Path>,
    awaiting: Option<Path>,
    promptOpen: bool)
  {
    predicate IsActive(s: Path) { active.Some? && active.value.session == s }
    predicate IsAwaiting(s: Path) { awaiting == Some(s) }
    predicate Tracks(s: Path) { IsActive(s) || IsAwaiting(s) }
    predicate TracksNothing() { active.None? && awaiting.None? }
  }

  const FRESH := MState(Disconnected, None, None, None, false)

  // ------------------------------------------------ what each handler does

  function Selected(m: MState, config: Path): (MState, seq<Command>) {
    if m.awaiting.Some? then (m.(pending := Some(config)), [])
    else match m.active
      case Some(a) =>
        (m.(active := None, pending := Some(config), awaiting := Some(a.session), state := Connecting),
         [Disconnect(a.session)])
      case None => (m.(state := Connecting), [NewTunnel(config)])
  }

  function StoppedByUser(m: MState): (MState, seq<Command>) {
    match m.active
    case Some(a) =>
      (m.(active := None, pending := None, awaiting := Some(a.session)), [Disconnect(a.session)])
    case None => (m.(pending := None), [])
  }

  function Created(m: MState, s: Path, config: Path): (MState, seq<Command>) {
    (m.(pending := None, active := Some(ActiveSession(s, config)), state := Connecting),
     [EnableLogForward(s), CheckReady(s)])
  }

  function Ready(m: MState, s: Path): (MState, seq<Command>) {
    if !m.IsActive(s) then (m, []) else (m.(state := Connecting), [Connect(s)])
  }

  function Seen(m: MState, s: Path, config: Path, status: Status): (MState, seq<Command>) {
    if !m.TracksNothing() then (m, [])
    else Applied(m.(active := Some(ActiveSession(s, config))), s, status)
  }

  function Applied(m: MState, s: Path, status: Status): (MState, seq<Command>) {
    match status.Transition()
    case Set(next) =>
      if m.promptOpen && next != AuthPending
      then (m.(state := next, promptOpen := false), [ClosePrompt])
      else (m.(state := next), [])
    case Hold => (m, [Note(s, UnmappedStatus(status.major, status.minor))])
  }

  function StatusOf(m: MState, s: Path, status: Status): (MState, seq<Command>) {
    if !m.Tracks(s) then (m, [])
    else if m.IsAwaiting(s) then (if status.ReportsDown() then Finished(m, s) else (m, []))
    else Applied(m, s, status)
  }

  function Removed(m: MState, s: Path): (MState, seq<Command>) {
    if m.IsAwaiting(s) then Finished(m, s)
    else if m.IsActive(s) then
      (m.(active := None, promptOpen := false,
          state := if m.state != Failed then Disconnected else Failed), [])
    else (m, [])
  }

  function Finished(m: MState, s: Path): (MState, seq<Command>) {
    if !m.IsAwaiting(s) then (m, [])
    else
      var cleared := m.(awaiting := None, promptOpen := false, pending := None);
      match m.pending
      case Some(config) => (cleared.(state := Connecting), [NewTunnel(config)])
      case None =>
        (cleared.(state := if m.state != Failed then Disconnected else Failed), [])
  }

  function Asked(m: MState, s: Path, requests: seq<Request>, message: string): (MState, seq<Command>) {
    if !m.IsActive(s) || m.promptOpen || requests == [] then (m, [])
    else match FirstUnsupported(requests)
      case Some(reason) =>
        (m.(state := Failed, active := None, awaiting := Some(s)), [Note(s, reason), Disconnect(s)])
      case None =>
        match Route(requests[0])
        case Prompt(kind) =>
          (m.(state := AuthPending, promptOpen := true), [OpenPrompt(s, kind, requests, message)])
        case Unsupported(_) => assert false; (m, [])
  }

  function Submitted(m: MState, s: Path, responses: seq<InputResponse>): (MState, seq<Command>) {
    if !m.IsActive(s) then (m, [])
    else (m.(promptOpen := false, state := Connecting),
          [ProvideInput(s, responses), ClosePrompt, CheckReady(s)])
  }

  function Cancelled(m: MState, s: Path): (MState, seq<Command>) {
    if !m.IsActive(s) then (m, [])
    else (m.(promptOpen := false, state := Failed, active := None, pending := None, awaiting := Some(s)),
          [ClosePrompt, Disconnect(s)])
  }

  function React(m: MState, e: Event): (MState, seq<Command>) {
    match e
    case ProfileSelected(config) => Selected(m, config)
    case DisconnectRequested => StoppedByUser(m)
    case SessionCreated(s, config) => Created(m, s, config)
    case SessionReady(s) => Ready(m, s)
    case CredentialsRequired(s, requests, message) => Asked(m, s, requests, message)
    case ExternalSessionSeen(s, config, status) => Seen(m, s, config, status)
    case StatusChanged(s, status) => StatusOf(m, s, status)
    case SessionRemoved(s) => Removed(m, s)
    case AttentionRequired(s, request, message) => Asked(m, s, [request], message)
    case PromptSubmitted(s, responses) => Submitted(m, s, responses)
    case PromptCancelled(s) => Cancelled(m, s)
    case FailureDismissed => (if m.state == Failed then m.(state := Disconnected) else m, [])
  }

  // ------------------------------------------------ the machine itself

  class Machine {
    var state: ConnectionState
    var active: Option<ActiveSession>
    var pendingTarget: Option<Path>
    var awaitingTeardown: Option<Path>
    var promptOpen: bool

    ghost function View(): MState
      reads this
    {
      MState(state, active, pendingTarget, awaitingTeardown, promptOpen)
    }

    constructor ()
      ensures View() == FRESH
    {
      state, active, pendingTarget, awaitingTeardown, promptOpen := Disconnected, None, None, None, false;
    }

    predicate IsActiveSession(s: Path)
      reads this
    {
      active.Some? && active.value.session == s
    }

    method Handle(e: Event) returns (commands: seq<Command>)
      modifies this
      ensures (View(), commands) == React(old(View()), e)
    {
      match e {
        case ProfileSelected(config) => commands := OnProfileSelected(config);
        case DisconnectRequested => commands := OnDisconnectRequested();
        case SessionCreated(s, config) => commands := OnSessionCreated(s, config);
        case SessionReady(s) => commands := OnSessionReady(s);
        case CredentialsRequired(s, requests, message) =>
          commands := OnCredentialsRequired(s, requests, message);
        case ExternalSessionSeen(s, config, status) => commands := OnExternalSession(s, config, status);
        case StatusChanged(s, status) => commands := OnStatus(s, status);
        case SessionRemoved(s) => commands := OnSessionRemoved(s);
        case AttentionRequired(s, request, message) =>
          commands := OnCredentialsRequired(s, [request], message);
        case PromptSubmitted(s, responses) => commands := OnPromptSubmitted(s, responses);
        case PromptCancelled(s) => commands := OnPromptCancelled(s);
        case FailureDismissed => commands := OnFailureDismissed();
      }
    }

    method OnProfileSelected(config: Path) returns (commands: seq<Command>)
      modifies this
      ensures (View(), commands) == Selected(old(View()), config)
    {
      if awaitingTeardown.Some? {
        pendingTarget := Some(config);
        return [];
      }
      var taken := active;
      active := None;
      match taken {
        case Some(a) =>
          pendingTarget := Some(config);
          awaitingTeardown := Some(a.session);
          state := Connecting;
          return [Disconnect(a.session)];
        case None =>
          state := Connecting;
          return [NewTunnel(config)];
      }
    }

    method OnDisconnectRequested() returns (commands: seq<Command>)
      modifies this
      ensures (View(), commands) == StoppedByUser(old(View()))
    {
      pendingTarget := None;
      var taken := active;
      active := None;
      match taken {
        case Some(a) =>
          awaitingTeardown := Some(a.session);
          return [Disconnect(a.session)];
        case None => return [];
      }
    }

    method OnSessionCreated(s: Path, config: Path) returns (commands: seq<Command>)
      modifies this
      ensures (View(), commands) == Created(old(View()), s, config)
    {
      pendingTarget := None;
      active := Some(ActiveSession(s, config));
      state := Connecting;
      return [EnableLogForward(s), CheckReady(s)];
    }

    method OnSessionReady(s: Path) returns (commands: seq<Command>)
      modifies this
      ensures (View(), commands) == Ready(old(View()), s)
    {
      if !IsActiveSession(s) {
        return [];
      }
      state := Connecting;
      return [Connect(s)];
    }

    method OnExternalSession(s: Path, config: Path, status: Status) returns (commands: seq<Command>)
      modifies this
      ensures (View(), commands) == Seen(old(View()), s, config, status)
    {
      if awaitingTeardown.Some? || active.Some? {
        return [];
      }
      active := Some(ActiveSession(s, config));
      commands := ApplyStatus(s, status);
    }

    method OnStatus(s: Path, status: Status) returns (commands: seq<Command>)
      modifies this
      ensures (View(), commands) == StatusOf(old(View()), s, status)
    {
      var isActive := IsActiveSession(s);
      var isTearingDown := awaitingTeardown == Some(s);
      if !isActive && !isTearingDown {
        return [];
      }
      if isTearingDown {
        if status.Transition() == Set(Disconnected) {
          commands := FinishTeardown(s);
        } else {
          commands := [];
        }
        return;
      }
      commands := ApplyStatus(s, status);
    }

    method ApplyStatus(s: Path, status: Status) returns (commands: seq<Command>)
      modifies this
      ensures (View(), commands) == Applied(old(View()), s, status)
    {
      match status.Transition() {
        case Set(next) =>
          state := next;
          if promptOpen && next != AuthPending {
            promptOpen := false;
            return [ClosePrompt];
          }
          return [];
        case Hold => return [Note(s, UnmappedStatus(status.major, status.minor))];
      }
    }

    method OnSessionRemoved(s: Path) returns (commands: seq<Command>)
      modifies this
      ensures (View(), commands) == Removed(old(View()), s)
    {
      if awaitingTeardown == Some(s) {
        commands := FinishTeardown(s);
        return;
      }
      if IsActiveSession(s) {
        active := None;
        promptOpen := false;
        if state != Failed {
          state := Disconnected;
        }
      }
      return [];
    }

    method FinishTeardown(s: Path) returns (commands: seq<Command>)
      modifies this
      ensures (View(), commands) == Finished(old(View()), s)
    {
      if awaitingTeardown != Some(s) {
        return [];
      }
      awaitingTeardown := None;
      promptOpen := false;
      var taken := pendingTarget;
      pendingTarget := None;
      match taken {
        case Some(config) =>
          state := Connecting;
          return [NewTunnel(config)];
        case None =>
          if state != Failed {
            state := Disconnected;
          }
          return [];
      }
    }

    method OnCredentialsRequired(s: Path, requests: seq<Request>, message: string)
      returns (commands: seq<Command>)
      modifies this
      ensures (View(), commands) == Asked(old(View()), s, requests, message)
    {
      if !IsActiveSession(s) {
        return [];
      }
      if promptOpen || requests == [] {
        return [];
      }
      for i := 0 to |requests|
        invariant View() == old(View())
        invariant FirstUnsupported(requests) == FirstUnsupported(requests[i..])
      {
        var routing := Route(requests[i]);
        if routing.Unsupported? {
          state := Failed;
          active := None;
          awaitingTeardown := Some(s);
          return [Note(s, routing.reason), Disconnect(s)];
        }
      }
      var kind := Route(requests[0]).kind;
      state := AuthPending;
      promptOpen := true;
      return [OpenPrompt(s, kind, requests, message)];
    }

    method OnPromptSubmitted(s: Path, responses: seq<InputResponse>) returns (commands: seq<Command>)
      modifies this
      ensures (View(), commands) == Submitted(old(View()), s, responses)
    {
      if !IsActiveSession(s) {
        return [];
      }
      promptOpen := false;
      state := Connecting;
      return [ProvideInput(s, responses), ClosePrompt, CheckReady(s)];
    }

    method OnPromptCancelled(s: Path) returns (commands: seq<Command>)
      modifies this
      ensures (View(), commands) == Cancelled(old(View()), s)
    {
      if !IsActiveSession(s) {
        return [];
      }
      promptOpen := false;
      state := Failed;
      active := None;
      pendingTarget := None;
      awaitingTeardown := Some(s);
      return [ClosePrompt, Disconnect(s)];
    }

    method OnFailureDismissed() returns (commands: seq<Command>)
      modifies this
      ensures (View(), commands) == React(old(View()), FailureDismissed)
    {
      if state == Failed {
        state := Disconnected;
      }
      return [];
    }
  }
}
