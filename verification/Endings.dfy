/** A cancelled or rejected attempt stays ended, and its reason stays readable. */
module Endings {
  import opened Prelude
  import opened WireCodes
  import opened StatusMap
  import opened AttentionRouting
  import opened TransitionMachine
  import opened LogBuffer
  import opened WorkerModel
  import opened Traces
  import opened Invariants
  import opened Guarantees
  import opened Attempts

  /** Nothing running and nothing wanted; a teardown may still be outstanding. */
  predicate Ended(m: MState) { m.active.None? && m.pending.None? }

  /** Once nothing is left to wait for, the display says so, or says why. */
  predicate Rested(m: MState) { m.awaiting.None? ==> m.state == Disconnected || m.state == Failed }

  /** Only the user picking a profile, or a new session, gets an ended machine
      to do anything. */
  lemma EndedStaysQuiet(m: MState, e: Event)
    requires Ended(m) && !e.ProfileSelected? && !e.SessionCreated? && !e.ExternalSessionSeen?
    ensures var (n, st) := React(m, e);
            && Ended(n) && st == []
            && (n.state == Failed <==> m.state == Failed && !e.FailureDismissed?)
            && (Rested(m) ==> Rested(n)) && (m.awaiting.None? ==> n.awaiting.None?)
  {
  }

  predicate Selects(input: Input) { input.Ui? && input.command.SelectProfile? }
  predicate Dismisses(input: Input) { input.Ui? && input.command.DismissFailure? }

  /** No command, a prompt that is up stays up, and no new teardown. */
  ghost predicate Quiet(w: World, x: World) {
    && Ended(x.machine) && Commands(x.trace) == Commands(w.trace) && x.prompt == w.prompt
    && (w.machine.awaiting.None? ==> x.machine.awaiting.None?)
  }

  lemma EndedPhase(w: World, phase: Phase)
    requires Ended(w.machine) && !(phase.OnUi? && phase.command.SelectProfile?)
    ensures var x := DoPhase(w, phase);
            && Quiet(w, x)
            && x.logs == Prepared(w, phase).0.logs
            && (x.machine.state == Failed
                <==> w.machine.state == Failed && !(phase.OnUi? && phase.command.DismissFailure?))
            && (Rested(w.machine) ==> Rested(x.machine))
  {
    PreparedFrame(w, phase);
    var (x, event) := Prepared(w, phase);
    if event.Some? { EndedStaysQuiet(w.machine, event.value); }
  }

  lemma {:induction false} EndedPhases(w: World, phases: seq<Phase>)
    requires Ended(w.machine)
    requires forall i :: 0 <= i < |phases| ==> !(phases[i].OnUi? && phases[i].command.SelectProfile?)
    ensures Quiet(w, DoPhases(w, phases))
    ensures DoPhases(w, phases).machine.state == Failed
            <==> w.machine.state == Failed
                 && (forall i :: 0 <= i < |phases| ==>
                       !(phases[i].OnUi? && phases[i].command.DismissFailure?))
    ensures Rested(w.machine) ==> Rested(DoPhases(w, phases).machine)
    decreases |phases|
  {
    if phases != [] {
      EndedPhase(w, phases[0]);
      EndedPhases(DoPhase(w, phases[0]), phases[1..]);
    }
  }

  /** Over any continuation in which the user picks no profile, an ended attempt
      emits no command at all, and the display stays Failed exactly until that is
      dismissed. A prompt that is still up stays up: cancelling it does nothing, and
      neither does answering it. */
  lemma {:induction false} EndedStaysEnded(w: World, inputs: seq<Input>)
    requires Ended(w.machine)
    requires forall i :: 0 <= i < |inputs| ==> !Selects(inputs[i])
    ensures Quiet(w, Run(w, inputs))
    ensures Run(w, inputs).machine.state == Failed
            <==> w.machine.state == Failed && (forall i :: 0 <= i < |inputs| ==> !Dismisses(inputs[i]))
    ensures Rested(w.machine) ==> Rested(Run(w, inputs).machine)
    decreases |inputs|
  {
    if inputs != [] {
      EndedPhases(w, Phases(w, inputs[0]));
      EndedStaysEnded(Step(w, inputs[0]), inputs[1..]);
    }
  }

  // --------------------------------------------- how an attempt ends

  /** The requests an event asks the active session's user for. */
  function Asking(e: Event): seq<Request> {
    match e
    case CredentialsRequired(_, requests, _) => requests
    case AttentionRequired(_, request, _) => [request]
    case _ => []
  }

  /** The attempt on `s` is refused because of `reason`. */
  predicate Rejects(m: MState, e: Event, s: Path, reason: Text) {
    && m.IsActive(s) && !m.promptOpen
    && (e.CredentialsRequired? || e.AttentionRequired?) && e.session == s
    && FirstUnsupported(Asking(e)) == Some(reason)
  }

  lemma ExecTwo(w: World, a: Command, b: Command)
    requires !a.NewTunnel? && !a.CheckReady? && !b.NewTunnel? && !b.CheckReady?
    ensures Exec(w, [a, b]) == Performed(Performed(w, a).0, b).0
  {
    PerformFrame(w, a);
    PerformFrame(Performed(w, a).0, b);
    assert [a, b][1..] == [b] && [b][1..] == [];
    assert Exec(Performed(w, a).0, [b]) == Performed(Performed(w, a).0, b).0;
  }

  lemma TwoDeeds(w: World, a: Command, b: Command)
    ensures var x := Performed(Performed(w, a).0, b).0;
            Commands(x.trace) == Commands(w.trace) + [a, b] && x.machine == w.machine
  {
    PerformFrame(w, a);
    PerformExtends(w, a);
    var x := Performed(w, a).0;
    PerformFrame(x, b);
    PerformExtends(x, b);
    assert (Commands(w.trace) + [a]) + [b] == Commands(w.trace) + [a, b];
  }

  lemma CancelDeed(w: World, s: Path)
    requires w.machine.IsActive(s)
    ensures var x := Deliver(w, PromptCancelled(s));
            && Commands(x.trace) == Commands(w.trace) + [ClosePrompt, Disconnect(s)]
            && Ended(x.machine) && x.machine.state == Failed && x.prompt == None
  {
    var (y, st) := Fired(w, PromptCancelled(s));
    assert st == [ClosePrompt, Disconnect(s)];
    ExecTwo(y, ClosePrompt, Disconnect(s));
    PerformFrame(Performed(y, ClosePrompt).0, Disconnect(s));
    TwoDeeds(y, ClosePrompt, Disconnect(s));
  }

  lemma RejectionDeed(w: World, e: Event, s: Path, reason: Text)
    requires Settled(w.machine) && Rejects(w.machine, e, s, reason)
    ensures var x := Deliver(w, e);
            && Commands(x.trace) == Commands(w.trace) + [Note(s, reason), Disconnect(s)]
            && Ended(x.machine) && x.machine.state == Failed
            && x.logs == Apply(w.logs, Jot(s, reason))
  {
    var (y, st) := Fired(w, e);
    assert st == [Note(s, reason), Disconnect(s)];
    ExecTwo(y, Note(s, reason), Disconnect(s));
    TwoDeeds(y, Note(s, reason), Disconnect(s));
  }

  /** Cancelling closes the prompt, ends the session and does nothing more, ever,
      until a profile is picked. */
  lemma CancelEndsAttempt(w: World, s: Path, inputs: seq<Input>)
    requires w.machine.IsActive(s)
    requires forall i :: 0 <= i < |inputs| ==> !Selects(inputs[i])
    ensures var x := Run(Deliver(w, PromptCancelled(s)), inputs);
            && Commands(x.trace) == Commands(w.trace) + [ClosePrompt, Disconnect(s)]
            && ((forall i :: 0 <= i < |inputs| ==> !Dismisses(inputs[i])) ==> x.machine.state == Failed)
  {
    CancelDeed(w, s);
    EndedStaysEnded(Deliver(w, PromptCancelled(s)), inputs);
  }

  /** An unsupported request notes its reason, ends the session and does nothing
      more, ever, until a profile is picked. */
  lemma RejectionEndsAttempt(w: World, e: Event, s: Path, reason: Text, inputs: seq<Input>)
    requires Settled(w.machine) && Rejects(w.machine, e, s, reason)
    requires forall i :: 0 <= i < |inputs| ==> !Selects(inputs[i])
    ensures var x := Run(Deliver(w, e), inputs);
            && Commands(x.trace) == Commands(w.trace) + [Note(s, reason), Disconnect(s)]
            && ((forall i :: 0 <= i < |inputs| ==> !Dismisses(inputs[i])) ==> x.machine.state == Failed)
  {
    RejectionDeed(w, e, s, reason);
    EndedStaysEnded(Deliver(w, e), inputs);
  }

  // --------------------------------------------- stopping by hand

  /** What reading a status may add: nothing, a closed prompt, or one line. */
  predicate Noticed(s: Path, told: seq<Command>) {
    || told == []
    || told == [ClosePrompt]
    || (|told| == 1 && told[0].Note? && told[0].session == s)
  }

  lemma StatusNotices(w: World, s: Path) returns (told: seq<Command>)
    requires Settled(w.machine) && w.machine.IsActive(s)
    ensures Noticed(s, told)
    ensures var x := DoPhase(w, CheckStatus);
            x.machine.IsActive(s) && Commands(x.trace) == Commands(w.trace) + told
  {
    PreparedFrame(w, CheckStatus);
    StatusKeepsActive(w, s);
    var (x, event) := Prepared(w, CheckStatus);
    told := [];
    if event.Some? {
      StatusBatch(x.machine, event.value.session, event.value.status);
      told := Fired(x, event.value).1;
      PlainCommands(Fired(x, event.value).0, told);
    }
  }

  /** Disconnecting by hand: after at most one thing noticed on the way, the session
      is told to disconnect, and nothing follows however long no profile is picked.
      Once the session is gone nothing is running, wanted or asked, and the display
      says Disconnected, unless it said Failed and nobody dismissed that. */
  lemma DisconnectSettles(replies: seq<Beat>, before: seq<Input>, s: Path, more: seq<Input>)
    requires After(replies, before).machine.IsActive(s)
    requires forall i :: 0 <= i < |more| ==> !Selects(more[i])
    ensures var w := After(replies, before);
            var x := Step(w, Ui(StopTunnel));
            var y := Run(x, more);
            && x.machine.IsAwaiting(s)
            && x.machine.state == DoPhase(w, CheckStatus).machine.state
            && x.prompt == DoPhase(w, CheckStatus).prompt
            && (exists told :: Noticed(s, told)
                  && Commands(x.trace) == Commands(w.trace) + told + [Disconnect(s)])
            && Commands(y.trace) == Commands(x.trace)
            && (y.machine.awaiting.None? ==>
                  && Idle(y.machine)
                  && y.machine.state
                     == if x.machine.state == Failed && forall i :: 0 <= i < |more| ==> !Dismisses(more[i])
                        then Failed else Disconnected)
  {
    EveryRunKeepsInv(replies, before);
    var w := After(replies, before);
    var (a, b, c) := (CheckTeardown, CheckStatus, OnUi(StopTunnel));
    ThreePhases(w, a, b, c);
    assert DoPhase(w, a) == w;
    var told := StatusNotices(w, s);
    var z := DoPhase(w, b);
    StopDeed(z, s);
    var x := Step(w, Ui(StopTunnel));
    assert Commands(x.trace) == Commands(w.trace) + told + [Disconnect(s)];
    EndedStaysEnded(x, more);
    PhasesKeepInv(w, Phases(w, Ui(StopTunnel)));
    RunKeepsInv(x, more);
  }

  /** Stopping leaves the display and the prompt as they are. */
  lemma StopDeed(w: World, s: Path)
    requires w.machine.IsActive(s)
    ensures var x := DoPhase(w, OnUi(StopTunnel));
            && x.machine.IsAwaiting(s) && Ended(x.machine)
            && x.machine.state == w.machine.state && x.prompt == w.prompt
            && Commands(x.trace) == Commands(w.trace) + [Disconnect(s)]
  {
    var (y, st) := Fired(w, DisconnectRequested);
    assert st == [Disconnect(s)] == [Disconnect(s)] + [];
    PlainCommands(y, st);
    PerformFrame(y, Disconnect(s));
    ExecPlain(y, Disconnect(s), []);
  }

  // --------------------------------------------- the reason stays readable

  /** A signal carrying a request code this build does not know. */
  predicate Garbled(input: Input, s: Path) {
    input.Signal? && input.wire.AttentionSignal? && input.wire.session == s
    && DecodePair(input.wire.kind, input.wire.group).None?
  }

  /** How many lines an input adds to the log of `s`. */
  function LinesFor(input: Input, s: Path): nat {
    if Garbled(input, s) || (input.Signal? && input.wire.LogSignal? && input.wire.session == s) then 1 else 0
  }

  function Chatter(inputs: seq<Input>, s: Path): nat {
    if inputs == [] then 0 else LinesFor(inputs[0], s) + Chatter(inputs[1..], s)
  }

  /** No garbled request arrives for `s` once its log was retired. */
  ghost predicate SilentOnceGone(w: World, inputs: seq<Input>, s: Path)
    decreases |inputs|
  {
    inputs != [] ==>
      && (Garbled(inputs[0], s) ==> s in w.logs.buffers)
      && SilentOnceGone(Step(w, inputs[0]), inputs[1..], s)
  }

  /** The log operation a phase amounts to in an ended machine, if any. */
  function PhaseOp(w: World, phase: Phase): Option<LogOp> {
    match phase
    case CheckTeardown =>
      if Prepared(w, phase).1.Some? then Some(Remove(w.machine.awaiting.value)) else None
    case OnSignal(StatusSignal(_, _)) => None
    case OnSignal(AttentionSignal(s, kind, group, _)) =>
      if DecodePair(kind, group).None? then Some(Jot(s, UnrecognisedRequest(kind, group))) else None
    case OnSignal(LogSignal(s, entry)) => Some(Push(s, entry))
    case OnSignal(ManagerSignal(p, removed)) => if removed then Some(Remove(p)) else None
    case _ => None
  }

  lemma PhaseLogs(w: World, phase: Phase)
    ensures Prepared(w, phase).0.logs
            == match PhaseOp(w, phase) case Some(op) => Apply(w.logs, op) case None => w.logs
  {
  }

  /** How many lines a phase adds to the log of `s`. */
  function PhaseLines(w: World, phase: Phase, s: Path): nat {
    match PhaseOp(w, phase) case Some(op) => Cost(op, s) case None => 0
  }

  lemma ReasonSurvivesPhase(w: World, phase: Phase, s: Path, line: LogEntry, k: nat)
    requires Ended(w.machine) && !(phase.OnUi? && phase.command.SelectProfile?)
    requires w.logs.WellFormed() && VisibleWithin(w.logs, s, line, k)
    requires forall op :: PhaseOp(w, phase) == Some(op) && op.Jot? && op.path == s ==> s in w.logs.buffers
    ensures var x := DoPhase(w, phase);
            && Ended(x.machine) && x.logs.WellFormed()
            && VisibleWithin(x.logs, s, line, k + PhaseLines(w, phase, s))
  {
    EndedPhase(w, phase);
    PhaseLogs(w, phase);
    match PhaseOp(w, phase) {
      case Some(op) => LineSlipsBack(w.logs, op, s, line, k);
      case None =>
    }
  }

  lemma ReasonSurvivesInput(w: World, input: Input, s: Path, line: LogEntry, k: nat)
    requires Ended(w.machine) && !Selects(input)
    requires w.logs.WellFormed() && VisibleWithin(w.logs, s, line, k)
    requires Garbled(input, s) ==> s in w.logs.buffers
    ensures var x := Step(w, input);
            && Ended(x.machine) && x.logs.WellFormed()
            && VisibleWithin(x.logs, s, line, k + LinesFor(input, s))
  {
    var phases := Phases(w, input);
    if |phases| == 1 {
      ReasonSurvivesPhase(w, phases[0], s, line, k);
      assert phases == [phases[0]];
      OnePhase(w, phases[0]);
    } else if phases != [] {
      ReasonSurvivesPhase(w, CheckTeardown, s, line, k);
      var x := DoPhase(w, CheckTeardown);
      ReasonSurvivesPhase(x, CheckStatus, s, line, k);
      var y := DoPhase(x, CheckStatus);
      if |phases| == 2 {
        TwoPhases(w, CheckTeardown, CheckStatus);
      } else {
        ReasonSurvivesPhase(y, phases[2], s, line, k);
        ThreePhases(w, CheckTeardown, CheckStatus, phases[2]);
      }
    }
  }

  lemma {:induction false} ReasonSurvives(w: World, inputs: seq<Input>, s: Path, line: LogEntry, k: nat)
    requires Ended(w.machine)
    requires forall i :: 0 <= i < |inputs| ==> !Selects(inputs[i])
    requires SilentOnceGone(w, inputs, s)
    requires w.logs.WellFormed() && VisibleWithin(w.logs, s, line, k)
    ensures VisibleWithin(Run(w, inputs).logs, s, line, k + Chatter(inputs, s))
    decreases |inputs|
  {
    if inputs != [] {
      ReasonSurvivesInput(w, inputs[0], s, line, k);
      ReasonSurvives(Step(w, inputs[0]), inputs[1..], s, line, k + LinesFor(inputs[0], s));
    }
  }

  /** Why an attempt was rejected is the last line of the log on show the moment
      it is rejected, and it stays on show, through the session's removal, while
      fewer than `capacity` lines follow and no profile is picked. */
  lemma RejectionStaysExplained(
      w: World, e: Event, s: Path, reason: Text, inputs: seq<Input>, capacity: nat)
    requires Inv(w, Some(e), []) && w.backend.sound
    requires Rejects(w.machine, e, s, reason)
    requires forall i :: 0 <= i < |inputs| ==> !Selects(inputs[i])
    requires SilentOnceGone(Deliver(w, e), inputs, s) && Chatter(inputs, s) < capacity
    ensures VisibleWithin(Deliver(w, e).logs, s, NoteEntry(reason), 1)
    ensures var log := Shown(Run(Deliver(w, e), inputs).logs, capacity);
            log.Captured? && log.path == s && NoteEntry(reason) in log.entries
  {
    RejectionDeed(w, e, s, reason);
    var x := Deliver(w, e);
    var lines := x.logs.Lines(s).value;
    assert lines[|lines| - 1] == NoteEntry(reason);
    ReasonSurvives(x, inputs, s, NoteEntry(reason), 1);
    VisibleIsShown(Run(x, inputs).logs, s, NoteEntry(reason), 1 + Chatter(inputs, s), capacity);
  }

  lemma SignalRefuses(w: World, s: Path, kind: u32, group: u32, message: string)
    requires Inv(w, None, []) && w.machine.IsActive(s) && !w.machine.promptOpen
    requires DecodePair(kind, group).Some? && Route(DecodePair(kind, group).value).Unsupported?
    ensures var request := DecodePair(kind, group).value;
            var e := AttentionRequired(s, request, message);
            && Step(w, Signal(AttentionSignal(s, kind, group, message))) == Deliver(w, e)
            && Rejects(w.machine, e, s, Route(request).reason)
            && Inv(w, Some(e), []) && Settled(w.machine)
  {
    var phase := OnSignal(AttentionSignal(s, kind, group, message));
    PreparedKeepsInv(w, phase);
    OnePhase(w, phase);
  }

  /** The same, said of whole runs: an attention signal that cannot be answered. */
  lemma RefusedSignalStaysExplained(
      replies: seq<Beat>, before: seq<Input>, s: Path, kind: u32, group: u32, message: string,
      more: seq<Input>, capacity: nat)
    requires var w := After(replies, before);
             && w.backend.sound && w.machine.IsActive(s) && !w.machine.promptOpen
             && DecodePair(kind, group).Some? && Route(DecodePair(kind, group).value).Unsupported?
             && var x := Step(w, Signal(AttentionSignal(s, kind, group, message)));
             SilentOnceGone(x, more, s)
    requires forall i :: 0 <= i < |more| ==> !Selects(more[i])
    requires Chatter(more, s) < capacity
    ensures var w := After(replies, before);
            var x := Step(w, Signal(AttentionSignal(s, kind, group, message)));
            var reason := Route(DecodePair(kind, group).value).reason;
            && Commands(x.trace) == Commands(w.trace) + [Note(s, reason), Disconnect(s)]
            && Commands(Run(x, more).trace) == Commands(x.trace)
            && var log := Shown(Run(x, more).logs, capacity);
            log.Captured? && log.path == s && NoteEntry(reason) in log.entries
  {
    var w := After(replies, before);
    EveryRunKeepsInv(replies, before);
    var request := DecodePair(kind, group).value;
    var e := AttentionRequired(s, request, message);
    SignalRefuses(w, s, kind, group, message);
    RejectionDeed(w, e, s, Route(request).reason);
    EndedStaysEnded(Deliver(w, e), more);
    RejectionStaysExplained(w, e, s, Route(request).reason, more, capacity);
  }

  // --------------------------------------------- however it came to be refused

  /** The last two things carried out refused `s` for `reason`. */
  predicate JustRefused(t: Trace, s: Path, reason: Text) {
    && t.Snoc? && t.last.Executed? && t.last.command == Disconnect(s)
    && t.past.Snoc? && t.past.last.Executed? && t.past.last.command == Note(s, reason)
  }

  /** `s` was refused for `reason` somewhere after `cut`. */
  predicate RefusedSince(cut: Trace, t: Trace, s: Path, reason: Text)
    decreases t
  {
    t != cut && t.Snoc? && (JustRefused(t, s, reason) || RefusedSince(cut, t.past, s, reason))
  }

  lemma {:induction false} RefusedLater(cut: Trace, t: Trace, u: Trace, s: Path, reason: Text)
    requires Extends(t, u) && RefusedSince(cut, u, s, reason) && !RefusedSince(cut, t, s, reason)
    ensures RefusedSince(t, u, s, reason)
    decreases u
  {
    if u != t && !JustRefused(u, s, reason) { RefusedLater(cut, t, u.past, s, reason); }
  }

  /** The session was refused and is now being torn down with its reason on show. */
  ghost predicate Explained(w: World, s: Path, reason: Text) {
    && w.machine.active.None? && w.machine.IsAwaiting(s) && w.machine.state == Failed
    && VisibleWithin(w.logs, s, NoteEntry(reason), 1)
  }

  /** If all that is left to do is to end the session a note has just been made
      about, then that note is on show, and so is the failure. */
  ghost predicate Telling(w: World, st: seq<Command>, s: Path, reason: Text) {
    st == [Disconnect(s)] && w.trace.Snoc? && w.trace.last.Executed?
    && w.trace.last.command == Note(s, reason)
    ==> w.machine.state == Failed && VisibleWithin(w.logs, s, NoteEntry(reason), 1)
  }

  lemma {:induction false} ProvidingRefusesNothing(t: Trace, u: Trace, to: Path, s: Path, reason: Text)
    requires OnlyProvided(t, u, to)
    ensures !RefusedSince(t, u, s, reason) && (u == t || (u.Snoc? && u.last.Provided?))
    decreases u
  {
    if u != t { ProvidingRefusesNothing(t, u.past, to, s, reason); }
  }

  lemma HangingUpExplains(w: World, p: Path, rest: seq<Command>, s: Path, reason: Text)
    requires Shape(w.machine, None, [Disconnect(p)] + rest) && Telling(w, [Disconnect(p)] + rest, s, reason)
    ensures var x := Performed(w, Disconnect(p)).0;
            rest == [] && (RefusedSince(w.trace, x.trace, s, reason) ==> Explained(x, s, reason))
  {
    TopOf(Disconnect(p), rest);
    PerformFrame(w, Disconnect(p));
    var x := Performed(w, Disconnect(p)).0;
    assert [Disconnect(p)] + rest == [Disconnect(p)];
    if RefusedSince(w.trace, x.trace, s, reason) {
      assert !RefusedSince(w.trace, w.trace, s, reason);
      assert JustRefused(x.trace, s, reason);
      assert x.logs == w.logs;
    }
  }

  lemma NotingTells(w: World, p: Path, text: Text, rest: seq<Command>, s: Path, reason: Text)
    requires Shape(w.machine, None, [Note(p, text)] + rest) && LogsOk(w, None)
    ensures var x := Performed(w, Note(p, text)).0;
            !RefusedSince(w.trace, x.trace, s, reason) && Telling(x, rest, s, reason)
  {
    TopOf(Note(p, text), rest);
    var x := Performed(w, Note(p, text)).0;
    if rest == [Disconnect(s)] && text == reason && p == s {
      assert ([Note(p, text)] + rest)[1] == rest[0];
      assert w.machine.Tracks(s);
      var lines := x.logs.Lines(s).value;
      assert lines[|lines| - 1] == NoteEntry(reason);
    }
  }

  lemma OthersRefuseNothing(w: World, c: Command, s: Path, reason: Text)
    requires !c.Disconnect? && !c.Note?
    ensures var x := Performed(w, c).0;
            && !RefusedSince(w.trace, x.trace, s, reason)
            && x.trace.Snoc? && (x.trace.last.Executed? ==> x.trace.last.command == c)
  {
    PerformFrame(w, c);
    var x := Performed(w, c).0;
    if c.ProvideInput? {
      var seen := Snoc(w.trace, Executed(c, w.backend.alive));
      ProvidingRefusesNothing(seen, x.trace, c.session, s, reason);
      ProvidingExtendsRefusal(w.trace, seen, x.trace, c.session, s, reason);
    }
  }

  /** What is known of the logs and the machine while the backend is trusted. */
  lemma TrustedInv(w: World, st: seq<Command>)
    requires Inv(w, None, st) && w.backend.sound
    ensures Shape(w.machine, None, st) && LogsOk(w, None)
  {
  }

  /** No other command refuses a session; a note that comes before the end of one is
      on show. */
  lemma RoundTells(w: World, c: Command, rest: seq<Command>, s: Path, reason: Text)
    requires Shape(w.machine, None, [c] + rest) && LogsOk(w, None) && !c.Disconnect?
    ensures var x := Performed(w, c).0;
            !RefusedSince(w.trace, x.trace, s, reason) && Telling(x, rest, s, reason)
  {
    if c.Note? {
      NotingTells(w, c.session, c.text, rest, s, reason);
    } else {
      OthersRefuseNothing(w, c, s, reason);
    }
  }

  /** What a command feeds back starts a batch of its own. */
  lemma FeedbackTells(w: World, c: Command, x: World, e: Event, s: Path, reason: Text)
    requires Inv(w, None, [c]) && Performed(w, c) == (x, Some(e)) && Inv(x, Some(e), [])
    ensures var (y, nested) := Fired(x, e);
            && Inv(y, None, nested) && Load(nested) < Weight(c) && Exec(w, [c]) == Exec(y, nested)
            && !RefusedSince(w.trace, y.trace, s, reason) && Telling(y, nested, s, reason)
  {
    PerformFrame(w, c);
    OthersRefuseNothing(w, c, s, reason);
    FireKeepsInv(x, e);
    FeedbackIsLighter(w, c);
    ExecFed(w, c);
  }

  lemma {:induction false} ProvidingExtendsRefusal(
      cut: Trace, t: Trace, u: Trace, to: Path, s: Path, reason: Text)
    requires OnlyProvided(t, u, to) && !RefusedSince(cut, t, s, reason)
    ensures !RefusedSince(cut, u, s, reason)
    decreases u
  {
    if u != t { ProvidingExtendsRefusal(cut, t, u.past, to, s, reason); }
  }

  /** A batch in which a session is refused ends with the reason on show. */
  lemma {:induction false} ExecExplains(w: World, st: seq<Command>, s: Path, reason: Text)
    requires Inv(w, None, st) && Exec(w, st).backend.sound && Telling(w, st, s, reason)
    requires RefusedSince(w.trace, Exec(w, st).trace, s, reason)
    ensures Explained(Exec(w, st), s, reason)
    decreases Load(st)
  {
    if st != [] {
      var (c, rest) := (st[0], st[1..]);
      assert st == [c] + rest;
      var (x, fed) := Performed(w, c);
      if c.Disconnect? {
        TrustedInv(w, st);
        HangingUpExplains(w, c.session, rest, s, reason);
        PerformFrame(w, c);
      } else if fed.None? {
        PlainRound(w, c, rest, s, reason);
        ExecExplains(x, rest, s, reason);
      } else {
        FeedbackRound(w, c, rest, s, reason);
        var (y, nested) := Fired(x, fed.value);
        ExecExplains(y, nested, s, reason);
      }
    }
  }

  /** After a command that feeds nothing back, what was to be shown of the stack is to
      be shown of the rest of it. */
  lemma PlainRound(w: World, c: Command, rest: seq<Command>, s: Path, reason: Text)
    requires Inv(w, None, [c] + rest) && Exec(w, [c] + rest).backend.sound
    requires Performed(w, c).1.None? && !c.Disconnect?
    requires RefusedSince(w.trace, Exec(w, [c] + rest).trace, s, reason)
    ensures var x := Performed(w, c).0;
            && Inv(x, None, rest) && Exec(w, [c] + rest) == Exec(x, rest) && Telling(x, rest, s, reason)
            && RefusedSince(x.trace, Exec(x, rest).trace, s, reason)
  {
    var x := Performed(w, c).0;
    PerformKeepsInv(w, c, rest);
    ExecPlain(w, c, rest);
    ExecIsLater(w, [c] + rest);
    ExecIsLater(x, rest);
    TrustedInv(w, [c] + rest);
    RoundTells(w, c, rest, s, reason);
    RefusedLater(w.trace, x.trace, Exec(x, rest).trace, s, reason);
  }

  /** And after one that does, of the batch it feeds back. */
  lemma FeedbackRound(w: World, c: Command, rest: seq<Command>, s: Path, reason: Text)
    requires Inv(w, None, [c] + rest) && Performed(w, c).1.Some?
    requires RefusedSince(w.trace, Exec(w, [c] + rest).trace, s, reason)
    ensures var (x, fed) := Performed(w, c);
            var (y, nested) := Fired(x, fed.value);
            && Inv(y, None, nested) && Exec(w, [c] + rest) == Exec(y, nested)
            && Load(nested) < Load([c] + rest) && Telling(y, nested, s, reason)
            && RefusedSince(y.trace, Exec(y, nested).trace, s, reason)
  {
    var (x, fed) := Performed(w, c);
    PerformKeepsInv(w, c, rest);
    assert rest == [] && [c] + rest == [c];
    FeedbackTells(w, c, x, fed.value, s, reason);
    var (y, nested) := Fired(x, fed.value);
    ExecIsLater(y, nested);
    RefusedLater(w.trace, y.trace, Exec(y, nested).trace, s, reason);
    LoadAdds([c], rest);
  }

  lemma PhaseExplains(w: World, phase: Phase, s: Path, reason: Text)
    requires Inv(w, None, []) && DoPhase(w, phase).backend.sound
    requires RefusedSince(w.trace, DoPhase(w, phase).trace, s, reason)
    ensures Explained(DoPhase(w, phase), s, reason)
  {
    PreparedFrame(w, phase);
    PreparedKeepsInv(w, phase);
    var (x, event) := Prepared(w, phase);
    if event.Some? {
      var (y, st) := Fired(x, event.value);
      FireKeepsInv(x, event.value);
      ExecIsLater(y, st);
      RefusedLater(w.trace, y.trace, Exec(y, st).trace, s, reason);
      ExecExplains(y, st, s, reason);
    }
  }

  /** The phases that can come after another of the same input. */
  predicate Follows(phase: Phase) {
    phase.CheckStatus? || (phase.OnUi? && !phase.command.DismissFailure?)
  }

  /** Later phases of the same input leave a refusal as it is. */
  lemma RefusalOutlastsPhase(w: World, phase: Phase, s: Path, reason: Text)
    requires Explained(w, s, reason) && Follows(phase)
    ensures Explained(DoPhase(w, phase), s, reason)
  {
  }

  lemma {:induction false} PhasesExplain(w: World, phases: seq<Phase>, done: bool, s: Path, reason: Text)
    requires Inv(w, None, []) && DoPhases(w, phases).backend.sound
    requires forall i :: 1 <= i < |phases| ==> Follows(phases[i])
    requires if done then Explained(w, s, reason) && (phases != [] ==> Follows(phases[0]))
             else RefusedSince(w.trace, DoPhases(w, phases).trace, s, reason)
    ensures Explained(DoPhases(w, phases), s, reason)
    decreases |phases|
  {
    if phases != [] {
      var (x, rest) := (DoPhase(w, phases[0]), phases[1..]);
      PhaseKeepsInv(w, phases[0]);
      PhasesAreLater(x, rest);
      if done {
        RefusalOutlastsPhase(w, phases[0], s, reason);
        PhasesExplain(x, rest, true, s, reason);
      } else if RefusedSince(w.trace, x.trace, s, reason) {
        PhaseExplains(w, phases[0], s, reason);
        PhasesExplain(x, rest, true, s, reason);
      } else {
        RefusedLater(w.trace, x.trace, DoPhases(x, rest).trace, s, reason);
        PhasesExplain(x, rest, false, s, reason);
      }
    }
  }

  /** However a session came to be refused while an input was worked through, by a
      signal, by the first readiness check or by a later one: the reason is the last
      line on show when that input is done, and from then on, as long as no profile
      is waiting and none is picked, there is no further command and the reason
      stays on show while fewer than `capacity` lines follow. */
  lemma RefusalStaysExplained(
      replies: seq<Beat>, before: seq<Input>, input: Input, s: Path, reason: Text,
      more: seq<Input>, capacity: nat)
    requires var w := After(replies, before);
             var x := Step(w, input);
             x.backend.sound && RefusedSince(w.trace, x.trace, s, reason)
    ensures var x := Step(After(replies, before), input);
            && x.machine.active.None? && x.machine.IsAwaiting(s) && x.machine.state == Failed
            && VisibleWithin(x.logs, s, NoteEntry(reason), 1)
            && ((x.machine.pending.None? && (forall i :: 0 <= i < |more| ==> !Selects(more[i])) ==>
                   && Commands(Run(x, more).trace) == Commands(x.trace)
                   && (SilentOnceGone(x, more, s) && Chatter(more, s) < capacity ==>
                         var log := Shown(Run(x, more).logs, capacity);
                         log.Captured? && log.path == s && NoteEntry(reason) in log.entries)))
  {
    EveryRunKeepsInv(replies, before);
    var w := After(replies, before);
    var x := Step(w, input);
    PhasesKeepInv(w, Phases(w, input));
    PhasesExplain(w, Phases(w, input), false, s, reason);
    if x.machine.pending.None? && forall i :: 0 <= i < |more| ==> !Selects(more[i]) {
      EndedStaysEnded(x, more);
      if SilentOnceGone(x, more, s) && Chatter(more, s) < capacity {
        ReasonSurvives(x, more, s, NoteEntry(reason), 1);
        VisibleIsShown(Run(x, more).logs, s, NoteEntry(reason), 1 + Chatter(more, s), capacity);
      }
    }
  }
}
