/** What a single signal comes to, from the active session's first question to the
    end of a session. */
module Signals {
  import opened Prelude
  import opened WireCodes
  import opened StatusMap
  import opened AttentionRouting
  import opened TransitionMachine
  import opened WorkerModel
  import opened Traces
  import opened Invariants
  import opened Attempts
  import opened Calls
  import opened Shortfalls
  import opened Endings
  import opened Strangers
  import opened CredentialPath

  // --------------------------------------------- questions

  /** A signal of the active session that asks for something with a prompt opens that
      prompt at once, carrying the signal's own message and asking exactly what the
      queue of that request delivers; nothing else is done. */
  lemma AnswerableSignalPrompts(
      w: World, s: Path, kind: u32, group: u32, message: string)
    requires w.machine.IsActive(s) && !w.machine.promptOpen
    requires DecodePair(kind, group).Some? && Route(DecodePair(kind, group).value).Prompt?
    ensures var request := DecodePair(kind, group).value;
            var prompt := Route(request).kind;
            var x := Step(w, Signal(AttentionSignal(s, kind, group, message)));
            && Commands(x.trace) == Commands(w.trace) + [OpenPrompt(s, prompt, [request], message)]
            && x.machine == w.machine.(state := AuthPending, promptOpen := true)
            && x.logs == w.logs && x.prompt.Some? && x.prompt.value.session == s
            && x.prompt.value.kind == prompt && x.prompt.value.message == message
            && Asks(x.prompt.value.fields, Questions(w.replies, [request]))
  {
    var request := DecodePair(kind, group).value;
    OnePhase(w, OnSignal(AttentionSignal(s, kind, group, message)));
    var (y, st) := Fired(w, AttentionRequired(s, request, message));
    var c := OpenPrompt(s, Route(request).kind, [request], message);
    assert [request][1..] == [];
    assert FirstUnsupported([request]) == None;
    assert st == [c] == [c] + [];
    PromptIsOpened(y, s, Route(request).kind, [request], message);
  }

  lemma PromptIsOpened(w: World, s: Path, kind: PromptKind, requests: seq<Request>, message: string)
    ensures var c := OpenPrompt(s, kind, requests, message);
            var x := Exec(w, [c]);
            && Commands(x.trace) == Commands(w.trace) + [c] && x.machine == w.machine
            && x.logs == w.logs && x.prompt.Some? && x.prompt.value.session == s
            && x.prompt.value.kind == kind && x.prompt.value.message == message
            && Asks(x.prompt.value.fields, Questions(w.replies, requests))
  {
    var c := OpenPrompt(s, kind, requests, message);
    assert [c] == [c] + [];
    ExecPlain(w, c, []);
    PlainCommands(w, [c]);
    FormAsksEverything(w, s, kind, requests, message);
    DrainAllWaits(w.Saw(Executed(c, w.backend.alive)), requests);
  }

  /** While a prompt is open, a further question of any known kind does nothing. */
  lemma OnePromptAtATime(w: World, s: Path, kind: u32, group: u32, message: string)
    requires w.machine.promptOpen && DecodePair(kind, group).Some?
    ensures var x := Step(w, Signal(AttentionSignal(s, kind, group, message)));
            x == w.(trace := x.trace) && Commands(x.trace) == Commands(w.trace)
  {
    OnePhase(w, OnSignal(AttentionSignal(s, kind, group, message)));
  }

  // --------------------------------------------- a status that is read

  /** Reading the active session's status shows what its two numbers on the bus, cut
      to a byte and to sixteen bits, stand for, and leaves the display alone for every
      other pair. */
  lemma StatusReadIsShown(w: World, major: u32, minor: u32, message: string)
    requires Settled(w.machine) && w.machine.active.Some?
    requires Told(w.replies) == Some(StatusIs(major, minor, message))
    ensures var code := (major % 0x100, minor % 0x1_0000);
            var x := DoPhase(w, CheckStatus);
            && x.machine.active == w.machine.active
            && x.machine.state
               == if code == (2, 7) then Connected
                  else if code in {(2, 9), (2, 16), (3, 19)} then Disconnected
                  else if code in {(1, 1), (1, 3), (2, 10), (2, 11), (5, 29)} then Failed
                  else if code in {(1, 4), (3, 20), (3, 21), (3, 22)} then AuthPending
                  else if code in {(1, 2), (2, 5), (2, 6), (2, 8), (2, 12), (2, 13), (2, 14), (2, 15)}
                  then Connecting else w.machine.state
  {
    CheckReadsStatus(w);
    ReadOffTheBus(major, minor, message);
    assert StatusInStore(w) == StatusFrom(StatusIs(major, minor, message));
  }

  lemma ReadOffTheBus(major: u32, minor: u32, message: string)
    ensures var code := (major % 0x100, minor % 0x1_0000);
            match StatusFrom(StatusIs(major, minor, message))
            case None => code.0 > 5 || code.1 > 29
            case Some(status) =>
              status.Transition()
              == if code == (2, 7) then Set(Connected)
                 else if code in {(2, 9), (2, 16), (3, 19)} then Set(Disconnected)
                 else if code in {(1, 1), (1, 3), (2, 10), (2, 11), (5, 29)} then Set(Failed)
                 else if code in {(1, 4), (3, 20), (3, 21), (3, 22)} then Set(AuthPending)
                 else if code in {(1, 2), (2, 5), (2, 6), (2, 8), (2, 12), (2, 13), (2, 14), (2, 15)}
                 then Set(Connecting) else Hold
  {
    StatusesOnTheWire(major, minor, message);
  }

  // --------------------------------------------- endings

  /** When the active session is gone, a failure stays on show and anything else gives
      way to Disconnected; and so it remains, without a command, until the user picks
      a profile or dismisses the failure. */
  lemma FailureOutlivesSession(w: World, s: Path, more: seq<Input>)
    requires w.machine.IsActive(s) && w.machine.awaiting.None?
    requires forall i :: 0 <= i < |more| ==> !Selects(more[i]) && !Dismisses(more[i])
    ensures var x := Step(w, Signal(ManagerSignal(s, true)));
            && x.machine.TracksNothing() && Commands(x.trace) == Commands(w.trace)
            && x.machine.state == (if w.machine.state == Failed then Failed else Disconnected)
            && (w.machine.pending.None? ==>
                  var y := Run(x, more);
                  && y.machine.TracksNothing() && y.machine.state == x.machine.state
                  && Commands(y.trace) == Commands(w.trace))
  {
    RemovalDeed(w, s);
    if w.machine.pending.None? { EndedStaysEnded(Step(w, Signal(ManagerSignal(s, true))), more); }
  }

  lemma RemovalDeed(w: World, s: Path)
    requires w.machine.IsActive(s) && w.machine.awaiting.None?
    ensures var x := Step(w, Signal(ManagerSignal(s, true)));
            && x.machine.TracksNothing() && x.machine.pending == w.machine.pending
            && Commands(x.trace) == Commands(w.trace)
            && x.machine.state == (if w.machine.state == Failed then Failed else Disconnected)
  {
    OnePhase(w, OnSignal(ManagerSignal(s, true)));
    assert React(w.machine, SessionRemoved(s)).1 == [];
  }

  /** The end of the session being torn down may be learned from its removal or from
      its status: both lead to the same machine, commands, prompt and answers used. */
  lemma ReportsOfEndAgree(w: World, s: Path, status: Status)
    requires w.machine.IsAwaiting(s) && status.ReportsDown()
    ensures Alike(Step(w, Signal(StatusSignal(s, status))), Step(w, Signal(ManagerSignal(s, true))))
  {
    var (a, b) := (OnSignal(StatusSignal(s, status)), OnSignal(ManagerSignal(s, true)));
    OnePhase(w, a);
    OnePhase(w, b);
    var (y, z) := (Prepared(w, a).0, Prepared(w, b).0);
    var st := Finished(w.machine, s).1;
    ExecAlike(Fired(y, StatusChanged(s, status)).0, Fired(z, SessionRemoved(s)).0, st);
  }

  /** Until then no other status of it means anything. */
  lemma DyingWordsAreIgnored(w: World, s: Path, status: Status)
    requires w.machine.IsAwaiting(s) && !status.ReportsDown()
    ensures var x := Step(w, Signal(StatusSignal(s, status)));
            x == w.(trace := x.trace) && Commands(x.trace) == Commands(w.trace)
  {
    OnePhase(w, OnSignal(StatusSignal(s, status)));
  }
}
