/** What the applet promises over every run: any answers from the bus, any
    sequence of clicks, signals and ticks. */
module Guarantees {
  import opened Prelude
  import opened StatusMap
  import opened AttentionRouting
  import opened TransitionMachine
  import opened WorkerModel
  import opened Traces
  import opened Invariants

  /** The world after a run. */
  function After(replies: seq<Beat>, inputs: seq<Input>): World { Run(Startup(replies), inputs) }

  // --------------------------------------------- how worlds follow each other

  /** `u` is `t` with more observed. */
  predicate Extends(t: Trace, u: Trace)
    decreases u
  {
    u == t || (u.Snoc? && Extends(t, u.past))
  }

  lemma {:induction false} ExtendsChains(t: Trace, u: Trace, v: Trace)
    requires Extends(t, u) && Extends(u, v)
    ensures Extends(t, v)
    decreases v
  {
    if v != u { ExtendsChains(t, u, v.past); }
  }

  lemma {:induction false} ProvidedExtends(t: Trace, u: Trace, s: Path)
    requires OnlyProvided(t, u, s)
    ensures Extends(t, u) && Commands(u) == Commands(t)
    decreases u
  {
    if u != t { ProvidedExtends(t, u.past, s); }
  }

  /** `x` comes after `w`: nothing observed is undone, a backend that has broken
      its word stays untrusted, and a session that was let go never comes back. */
  ghost predicate Later(w: World, x: World) {
    && Extends(w.trace, x.trace)
    && (x.backend.sound ==> w.backend.sound)
    && w.backend.known <= x.backend.known
    && (x.backend.sound ==>
          forall s :: s in w.backend.known && !w.machine.Tracks(s) ==> !x.machine.Tracks(s))
  }

  lemma LaterChains(w: World, x: World, y: World)
    requires Later(w, x) && Later(x, y)
    ensures Later(w, y)
  {
    ExtendsChains(w.trace, x.trace, y.trace);
  }

  lemma PerformExtends(w: World, c: Command)
    ensures var x := Performed(w, c).0;
            && Extends(w.trace, x.trace)
            && Commands(x.trace) == Commands(w.trace) + [c]
  {
    PerformFrame(w, c);
    var seen := Snoc(w.trace, Executed(c, w.backend.alive));
    assert Extends(w.trace, seen);
    if c.ProvideInput? {
      ProvidedExtends(seen, Performed(w, c).0.trace, c.session);
      ExtendsChains(w.trace, seen, Performed(w, c).0.trace);
    }
  }

  lemma FireIsLater(w: World, e: Event)
    requires !e.SessionCreated? && !e.ExternalSessionSeen?
    ensures Later(w, Fired(w, e).0)
  {
    var y := Fired(w, e).0;
    forall s | y.machine.Tracks(s)
      ensures w.machine.Tracks(s)
    {
    }
    assert Extends(w.trace, y.trace.past);
  }

  /** One command and the event it feeds back, together. */
  lemma RoundIsLater(w: World, c: Command)
    ensures var (x, fed) := Performed(w, c);
            Later(w, if fed.None? then x else Fired(x, fed.value).0)
  {
    PerformFrame(w, c);
    PerformExtends(w, c);
    var (x, fed) := Performed(w, c);
    if fed.Some? {
      var y := Fired(x, fed.value).0;
      assert Extends(w.trace, y.trace);
      if c.NewTunnel? {
        assert y.machine.active.value.session == fed.value.session;
      } else {
        FireIsLater(x, fed.value);
      }
    }
  }

  lemma {:induction false} ExecIsLater(w: World, st: seq<Command>)
    ensures Later(w, Exec(w, st))
    decreases Load(st)
  {
    if st != [] {
      RoundIsLater(w, st[0]);
      var (x, fed) := Performed(w, st[0]);
      match fed {
        case None =>
          ExecIsLater(x, st[1..]);
          LaterChains(w, x, Exec(x, st[1..]));
        case Some(e) =>
          FeedbackIsLighter(w, st[0]);
          var (y, nested) := Fired(x, e);
          LoadAdds(nested, st[1..]);
          ExecIsLater(y, nested + st[1..]);
          LaterChains(w, y, Exec(y, nested + st[1..]));
      }
    }
  }

  lemma PhaseIsLater(w: World, phase: Phase)
    ensures Later(w, DoPhase(w, phase))
  {
    PreparedFrame(w, phase);
    var (x, event) := Prepared(w, phase);
    if event.Some? {
      FireIsLater(x, event.value);
      var (y, st) := Fired(x, event.value);
      ExecIsLater(y, st);
      LaterChains(w, y, Exec(y, st));
    }
  }

  lemma {:induction false} PhasesAreLater(w: World, phases: seq<Phase>)
    ensures Later(w, DoPhases(w, phases))
    decreases |phases|
  {
    if phases != [] {
      PhaseIsLater(w, phases[0]);
      PhasesAreLater(DoPhase(w, phases[0]), phases[1..]);
      LaterChains(w, DoPhase(w, phases[0]), DoPhases(w, phases));
    }
  }

  lemma {:induction false} RunIsLater(w: World, inputs: seq<Input>)
    ensures Later(w, Run(w, inputs))
    decreases |inputs|
  {
    if inputs != [] {
      PhasesAreLater(w, Phases(w, inputs[0]));
      RunIsLater(Step(w, inputs[0]), inputs[1..]);
      LaterChains(w, Step(w, inputs[0]), Run(w, inputs));
    }
  }

  // --------------------------------------------- never two sessions

  /** However signals are lost, delayed, repeated or reordered, and whenever
      sessions die of their own accord: of the sessions the applet created or
      adopted, after every run at most one is alive, it is the one the machine
      tracks, and at no moment was a tunnel started while any was. */
  lemma NeverTwoSessions(replies: seq<Beat>, inputs: seq<Input>)
    ensures var w := After(replies, inputs);
            w.backend.sound ==>
              && Always(w.trace, AloneRule)
              && (forall p :: p in w.backend.alive ==> w.machine.Tracks(p))
              && |w.backend.alive| <= 1
  {
    EveryRunKeepsInv(replies, inputs);
    var w := After(replies, inputs);
    if w.backend.sound && w.backend.alive != {} {
      var p :| p in w.backend.alive;
      forall q | q in w.backend.alive
        ensures q == p
      {
        assert w.machine.Tracks(q) && w.machine.Tracks(p);
      }
      assert w.backend.alive == {p};
    }
  }

  /** A session that was let go is never tracked again. */
  lemma LetGoForGood(replies: seq<Beat>, before: seq<Input>, more: seq<Input>, s: Path)
    requires var w := After(replies, before);
             s in w.backend.known && !w.machine.Tracks(s)
    ensures var x := Run(After(replies, before), more);
            x.backend.sound ==> !x.machine.Tracks(s)
  {
    RunIsLater(After(replies, before), more);
  }

  /** Between inputs the machine's five fields always fit together. */
  lemma WorkerStaysSettled(replies: seq<Beat>, inputs: seq<Input>)
    ensures Settled(After(replies, inputs).machine)
  {
    EveryRunKeepsInv(replies, inputs);
  }

  /** The machine alone does not guarantee that. From a settled state, exactly
      three events break it: a session created while a teardown is outstanding,
      one created over an open prompt, and a session found ready while its prompt
      is open. The worker never delivers any of them. */
  lemma MachineAloneStaysSettled(m: MState, e: Event)
    requires Settled(m)
    ensures Settled(React(m, e).0)
            <==> && (e.SessionCreated? ==> m.awaiting.None? && !m.promptOpen)
                 && (e.SessionReady? && m.IsActive(e.session) ==> !m.promptOpen)
  {
  }

  // --------------------------------------------- disconnect is terminal

  /** No command comes after a `Disconnect` to the session it names. */
  ghost predicate NothingAfterDisconnect(cs: seq<Command>) {
    forall i, j :: 0 <= i < j < |cs| && cs[i].Disconnect? ==> !cs[j].Names(cs[i].session)
  }

  lemma {:induction false} TerminalInOrder(t: Trace)
    requires Always(t, TerminalRule)
    ensures NothingAfterDisconnect(Commands(t))
    ensures forall s :: Disconnect(s) in Commands(t) ==> Over(t, s)
  {
    if t.Snoc? {
      TerminalInOrder(t.past);
      var cs, front := Commands(t), Commands(t.past);
      forall i, j | 0 <= i < j < |cs| && cs[i].Disconnect?
        ensures !cs[j].Names(cs[i].session)
      {
        assert cs[i] == front[i] == Disconnect(front[i].session);
        if j == |front| {
          assert TerminalRule(t.past, t.last) && Over(t.past, cs[i].session);
          assert !Touches(t.last, cs[i].session);
        }
      }
    }
  }

  /** Each session is told to disconnect at most once, and no command of any run
      names it afterwards. */
  lemma DisconnectIsTerminal(replies: seq<Beat>, inputs: seq<Input>)
    ensures var w := After(replies, inputs);
            w.backend.sound ==>
              && Always(w.trace, TerminalRule)
              && NothingAfterDisconnect(Commands(w.trace))
  {
    EveryRunKeepsInv(replies, inputs);
    var w := After(replies, inputs);
    if w.backend.sound { TerminalInOrder(w.trace); }
  }

  // --------------------------------------------- the latest choice wins

  /** A queued target and the profile of any session the applet started are the
      profile picked last; so is the profile of every tunnel ever started. */
  lemma LatestChoiceWins(replies: seq<Beat>, inputs: seq<Input>)
    ensures var w := After(replies, inputs);
            var m := w.machine;
            w.backend.sound ==>
              && (m.pending.Some? ==> m.pending == LastSelected(w.trace))
              && (m.active.Some? && CreatedIn(w.trace, m.active.value.session) ==>
                    Some(m.active.value.config) == LastSelected(w.trace))
              && Always(w.trace, LatestRule)
  {
    EveryRunKeepsInv(replies, inputs);
  }

  /** When a teardown completes, by removal or by status, a tunnel is started if
      and only if the last thing the user asked for since it began was a profile,
      and then for that profile. */
  lemma TeardownHonoursLastWish(replies: seq<Beat>, inputs: seq<Input>, e: Event)
    requires var w := After(replies, inputs);
             w.backend.sound && w.machine.awaiting.Some? && SaysOver(Some(e), w.machine.awaiting.value)
    ensures var w := After(replies, inputs);
            React(w.machine, e).1 ==
            match Wish(w.trace) case Some(config) => [NewTunnel(config)] case None => []
  {
    EveryRunKeepsInv(replies, inputs);
  }

  // --------------------------------------------- a lost signal cannot wedge it

  /** The profiles tunnels were started for, in order. */
  function Tunnels(t: Trace): seq<Path> {
    match t
    case Nil => []
    case Snoc(past, o) =>
      if o.Executed? && o.command.NewTunnel? then Tunnels(past) + [o.command.config] else Tunnels(past)
  }

  lemma {:induction false} ProvidedStartsNothing(t: Trace, u: Trace, s: Path)
    requires OnlyProvided(t, u, s)
    ensures Tunnels(u) == Tunnels(t)
    decreases u
  {
    if u != t { ProvidedStartsNothing(t, u.past, s); }
  }

  /** A batch starts the tunnels it names and none besides. */
  lemma {:induction false} ExecTunnels(w: World, st: seq<Command>)
    requires forall i :: 0 <= i < |st| ==> !st[i].NewTunnel?
    ensures Tunnels(Exec(w, st).trace) == Tunnels(w.trace)
    decreases Load(st)
  {
    if st != [] {
      PerformFrame(w, st[0]);
      var (x, fed) := Performed(w, st[0]);
      if st[0].ProvideInput? {
        ProvidedStartsNothing(Snoc(w.trace, Executed(st[0], w.backend.alive)), x.trace, st[0].session);
      }
      match fed {
        case None => ExecTunnels(x, st[1..]);
        case Some(e) =>
          FeedbackIsLighter(w, st[0]);
          FeedbackBatch(w, st[0], st[1..]);
          var (y, nested) := Fired(x, e);
          LoadAdds(nested, st[1..]);
          ExecTunnels(y, nested + st[1..]);
      }
    }
  }

  lemma OneTunnel(w: World, config: Path)
    ensures Tunnels(Exec(w, [NewTunnel(config)]).trace) == Tunnels(w.trace) + [config]
  {
    var c := NewTunnel(config);
    PerformFrame(w, c);
    var (x, fed) := Performed(w, c);
    if fed.Some? {
      ExecFed(w, c);
      var (y, nested) := Fired(x, fed.value);
      ExecTunnels(y, nested);
    } else {
      ExecPlain(w, c, []);
      assert [c] + [] == [c];
    }
  }

  /** A status about the active session starts no tunnel. */
  lemma StatusBatch(m: MState, s: Path, status: Status)
    requires m.IsActive(s) && m.awaiting.None?
    ensures var st := React(m, StatusChanged(s, status)).1;
            st == [] || st == [ClosePrompt] || st == [Note(s, UnmappedStatus(status.major, status.minor))]
  {
  }

  /** Reading the active session's status never starts a tunnel. */
  lemma StatusStartsNothing(w: World)
    requires Settled(w.machine)
    ensures Tunnels(DoPhase(w, CheckStatus).trace) == Tunnels(w.trace)
  {
    PreparedFrame(w, CheckStatus);
    var (x, event) := Prepared(w, CheckStatus);
    if event.Some? {
      StatusBatch(x.machine, event.value.session, event.value.status);
      var (y, st) := Fired(x, event.value);
      ExecTunnels(y, st);
    }
  }

  /** The bus will list `paths`, and `s` is not among them. */
  predicate ListOmits(replies: seq<Beat>, s: Path, paths: seq<Path>) {
    |replies| >= 2 && !replies[0].reply.Unreachable? && replies[1].reply == Sessions(paths) && s !in paths
  }

  /** Finding the awaited session gone from the list finishes its teardown. */
  lemma CheckFinishesTeardown(w: World, s: Path, paths: seq<Path>)
    requires w.machine.awaiting == Some(s) && w.machine.active.None? && s in w.backend.known
    requires ListOmits(w.replies, s, paths)
    ensures var z := DoPhase(w, CheckTeardown);
            && Tunnels(z.trace) == Tunnels(w.trace)
                 + (match w.machine.pending case Some(config) => [config] case None => [])
            && s in z.backend.known && (z.backend.sound ==> !z.machine.Tracks(s))
  {
    var (r, event) := Prepared(w, CheckTeardown);
    assert event == Some(SessionRemoved(s));
    var (y, st) := Fired(r, event.value);
    match w.machine.pending {
      case Some(config) => OneTunnel(y, config);
      case None =>
    }
    ExecIsLater(y, st);
  }

  /** While a teardown is outstanding the settle timer is running, and a single
      tick on which the backend no longer lists the session finishes it, with no
      signal at all: the session is let go, and exactly the tunnel that was
      waiting, if any, is started. */
  lemma NoWedge(replies: seq<Beat>, inputs: seq<Input>, s: Path, paths: seq<Path>)
    requires var w := After(replies, inputs);
             w.machine.awaiting == Some(s) && w.backend.sound && ListOmits(w.replies, s, paths)
    ensures var w := After(replies, inputs);
            var x := Step(w, Tick);
            && InFlight(w.machine)
            && (x.backend.sound ==> !x.machine.Tracks(s))
            && Tunnels(x.trace) == Tunnels(w.trace)
                 + (match w.machine.pending case Some(config) => [config] case None => [])
  {
    EveryRunKeepsInv(replies, inputs);
    var w := After(replies, inputs);
    TwoPhases(w, CheckTeardown, CheckStatus);
    CheckFinishesTeardown(w, s, paths);
    PhaseKeepsInv(w, CheckTeardown);
    var z := DoPhase(w, CheckTeardown);
    StatusStartsNothing(z);
    PhaseIsLater(z, CheckStatus);
  }

  /** Checking on a teardown starts at most the tunnel that was waiting for it. */
  lemma CheckStartsAtMostPending(w: World)
    requires Settled(w.machine)
    ensures |Tunnels(DoPhase(w, CheckTeardown).trace)| >= |Tunnels(w.trace)|
  {
    PreparedFrame(w, CheckTeardown);
    var (r, event) := Prepared(w, CheckTeardown);
    if event.Some? {
      var (y, st) := Fired(r, event.value);
      match w.machine.pending {
        case Some(config) => OneTunnel(y, config);
        case None =>
      }
    }
  }

  lemma HandledSelectionHolds(w: World, config: Path)
    ensures var x := DoPhase(w, OnUi(SelectProfile(config)));
            || (x.machine.pending == Some(config) && x.machine.awaiting.Some?)
            || Tunnels(x.trace) == Tunnels(w.trace) + [config]
  {
    var (y, st) := Fired(w, ProfileSelected(config));
    if w.machine.TracksNothing() {
      OneTunnel(y, config);
    } else if w.machine.awaiting.None? {
      var old_ := w.machine.active.value.session;
      PerformFrame(y, Disconnect(old_));
      assert st == [Disconnect(old_)] + [];
      ExecPlain(y, Disconnect(old_), []);
    }
  }

  /** Between `w` and `x` the profile was put in line behind a teardown under way, or a
      tunnel was started, the last one for it. */
  predicate TakesHold(w: World, x: World, config: Path) {
    || (x.machine.pending == Some(config) && x.machine.awaiting.Some?)
    || (|Tunnels(x.trace)| > |Tunnels(w.trace)| && Tunnels(x.trace)[|Tunnels(x.trace)| - 1] == config)
  }

  lemma PickTakesHold(w: World, config: Path)
    requires Inv(w, None, [])
    ensures TakesHold(w, Step(w, Ui(SelectProfile(config))), config)
  {
    var (a, b, c) := (CheckTeardown, CheckStatus, OnUi(SelectProfile(config)));
    ThreePhases(w, a, b, c);
    CheckStartsAtMostPending(w);
    PhaseKeepsInv(w, a);
    StatusStartsNothing(DoPhase(w, a));
    HandledSelectionHolds(DoPhase(DoPhase(w, a), b), config);
  }

  /** A selection is never lost: once handled, either it waits for a teardown that
      is under way, or a tunnel has been started since, the last one for it. And
      if what it was waiting behind is already gone from the backend, picking a
      profile finds that out first. */
  lemma SelectionTakesHold(replies: seq<Beat>, inputs: seq<Input>, config: Path)
    ensures var w := After(replies, inputs);
            var x := Step(w, Ui(SelectProfile(config)));
            && TakesHold(w, x, config)
            && (x.backend.sound ==> forall s, paths ::
                  w.machine.IsAwaiting(s) && ListOmits(w.replies, s, paths) ==> !x.machine.Tracks(s))
  {
    EveryRunKeepsInv(replies, inputs);
    var w := After(replies, inputs);
    PickTakesHold(w, config);
    var (a, b, c) := (CheckTeardown, CheckStatus, OnUi(SelectProfile(config)));
    ThreePhases(w, a, b, c);
    var z := DoPhase(w, a);
    var x := Step(w, Ui(SelectProfile(config)));
    forall s, paths | w.machine.IsAwaiting(s) && x.backend.sound && ListOmits(w.replies, s, paths)
      ensures !x.machine.Tracks(s)
    {
      PhaseIsLater(w, a);
      PhaseIsLater(z, b);
      PhaseIsLater(DoPhase(z, b), c);
      CheckFinishesTeardown(w, s, paths);
      LaterChains(z, DoPhase(z, b), DoPhase(DoPhase(z, b), c));
    }
  }

  // --------------------------------------------- prompt and machine agree

  /** For the active session, the machine believes a prompt is open exactly when
      the worker is showing one for it. */
  lemma PromptAndMachineAgree(replies: seq<Beat>, inputs: seq<Input>, s: Path)
    requires After(replies, inputs).machine.IsActive(s) && After(replies, inputs).backend.sound
    ensures var w := After(replies, inputs);
            w.machine.promptOpen <==> w.prompt.Some? && w.prompt.value.session == s
  {
    EveryRunKeepsInv(replies, inputs);
  }

  // --------------------------------------------- connecting

  /** Every `Connect` directly follows a readiness check that succeeded, so input
      is never followed by a blind connect; and a session the applet created has
      had log forwarding asked for before its first check or connect. */
  lemma ConnectIsEarned(replies: seq<Beat>, inputs: seq<Input>)
    ensures var w := After(replies, inputs);
            w.backend.sound ==> Always(w.trace, ConnectRule) && Always(w.trace, ForwardRule)
  {
    EveryRunKeepsInv(replies, inputs);
  }

  /** The log window shows the session being tracked. */
  lemma LogFollowsMachine(replies: seq<Beat>, inputs: seq<Input>, s: Path)
    requires After(replies, inputs).machine.Tracks(s) && After(replies, inputs).backend.sound
    ensures After(replies, inputs).logs.mostRecent == Some(s)
  {
    EveryRunKeepsInv(replies, inputs);
  }

  // --------------------------------------------- the display

  /** Connected is only ever shown on the word of a session that is still
      tracked, and has been shown ever since it said so. No trust in the backend
      is needed for this. */
  lemma DisplayIsHonest(replies: seq<Beat>, inputs: seq<Input>)
    ensures var w := After(replies, inputs);
            w.machine.state == Connected ==>
              exists s :: w.machine.Tracks(s) && ConnectedSinceReport(w.trace, s)
    ensures Always(After(replies, inputs).trace, DisplayRule)
  {
    EveryRunKeepsInv(replies, inputs);
  }

  /** Session `s` reported itself connected, as the active session, after `cut`. */
  predicate ReportedSince(cut: Trace, t: Trace, s: Path)
    decreases t
  {
    t != cut && t.Snoc?
    && ((t.last.Handled? && IsConnectReport(t.last.event, s) && t.last.after.IsActive(s))
        || ReportedSince(cut, t.past, s))
  }

  lemma {:induction false} OverPersists(t: Trace, u: Trace, s: Path)
    requires Extends(t, u) && Over(t, s)
    ensures Over(u, s)
    decreases u
  {
    if u != t { OverPersists(t, u.past, s); }
  }

  lemma {:induction false} ReportIsNew(cut: Trace, t: Trace, old_: Path, s: Path)
    requires Extends(cut, t) && Over(cut, old_) && Always(t, TerminalRule)
    requires ConnectedSinceReport(t, s) && !ConnectedSinceReport(cut, s)
    ensures s != old_ && ReportedSince(cut, t, s)
    decreases t
  {
    if t != cut {
      OverPersists(cut, t.past, old_);
      if !(t.last.Handled? && IsConnectReport(t.last.event, s) && t.last.after.IsActive(s)) {
        ReportIsNew(cut, t.past, old_, s);
      }
    }
  }

  lemma SwitchDeed(w: World, config: Path, old_: Path)
    requires Inv(w, None, []) && w.machine.IsActive(old_)
    ensures var x := Deliver(w, ProfileSelected(config));
            && Inv(x, None, []) && Over(x.trace, old_)
            && forall s :: !ConnectedSinceReport(x.trace, s)
  {
    var (f, st) := Fired(w, ProfileSelected(config));
    assert st == [Disconnect(old_)] == [Disconnect(old_)] + [];
    PerformFrame(f, st[0]);
    ExecPlain(f, st[0], []);
    FireKeepsInv(w, ProfileSelected(config));
    ExecKeepsInv(f, st);
  }

  /** Reading the active session's status leaves it active. */
  lemma StatusKeepsActive(w: World, s: Path)
    requires Settled(w.machine) && w.machine.IsActive(s)
    ensures DoPhase(w, CheckStatus).machine.IsActive(s)
  {
    PreparedFrame(w, CheckStatus);
    var (x, event) := Prepared(w, CheckStatus);
    if event.Some? {
      StatusBatch(x.machine, event.value.session, event.value.status);
      var (y, st) := Fired(x, event.value);
      if st != [] {
        assert st == [st[0]] + [];
        PerformFrame(y, st[0]);
        ExecPlain(y, st[0], []);
      }
    }
  }

  /** After switching away from an active session, Connected cannot be shown again
      until a different session, created since, has itself reported connected. */
  lemma SwitchSilencesOldSession(
      replies: seq<Beat>, before: seq<Input>, config: Path, more: seq<Input>, old_: Path)
    requires After(replies, before).machine.IsActive(old_)
    ensures var x := Step(After(replies, before), Ui(SelectProfile(config)));
            var y := Run(x, more);
            y.backend.sound && y.machine.state == Connected ==>
              exists s :: s != old_ && y.machine.Tracks(s) && ReportedSince(x.trace, y.trace, s)
  {
    EveryRunKeepsInv(replies, before);
    var w := After(replies, before);
    var (a, b, c) := (CheckTeardown, CheckStatus, OnUi(SelectProfile(config)));
    ThreePhases(w, a, b, c);
    assert DoPhase(w, a) == w;
    PhaseKeepsInv(w, b);
    StatusKeepsActive(w, old_);
    var x := DoPhase(DoPhase(w, b), c);
    SwitchDeed(DoPhase(w, b), config, old_);
    var y := Run(x, more);
    RunKeepsInv(x, more);
    RunIsLater(x, more);
    if y.backend.sound && y.machine.state == Connected {
      var s :| y.machine.Tracks(s) && ConnectedSinceReport(y.trace, s);
      ReportIsNew(x.trace, y.trace, old_, s);
    }
  }

  // --------------------------------------------- work is bounded

  lemma {:induction false} ExecWork(w: World, st: seq<Command>)
    ensures |Commands(Exec(w, st).trace)| <= |Commands(w.trace)| + Load(st)
    decreases Load(st)
  {
    if st != [] {
      PerformExtends(w, st[0]);
      var (x, fed) := Performed(w, st[0]);
      match fed {
        case None => ExecWork(x, st[1..]);
        case Some(e) =>
          FeedbackIsLighter(w, st[0]);
          var (y, nested) := Fired(x, e);
          LoadAdds(nested, st[1..]);
          ExecWork(y, nested + st[1..]);
      }
    }
  }

  /** Whatever the machine's state and whatever the bus answers, one event makes
      the worker carry out at most five commands, feedback included. */
  lemma FiveCommandsPerEvent(w: World, e: Event)
    ensures |Commands(Deliver(w, e).trace)| <= |Commands(w.trace)| + 5
  {
    var (x, st) := Fired(w, e);
    BatchLoad(w.machine, e);
    ExecWork(x, st);
  }
}
