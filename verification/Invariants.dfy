/** What every configuration of a run keeps: the worker's state, an event waiting
    to be handled, and the stack of commands still to be carried out. */
module Invariants {
  import opened Prelude
  import opened StatusMap
  import opened AttentionRouting
  import opened TransitionMachine
  import opened LogBuffer
  import opened WorkerModel
  import opened Traces

  // --------------------------------------------- shape: machine and stack

  predicate Idle(m: MState) { m.TracksNothing() && m.pending.None? && !m.promptOpen }

  /** The machine between inputs. */
  predicate Settled(m: MState) {
    && !(m.active.Some? && m.awaiting.Some?)
    && (m.pending.Some? ==> m.awaiting.Some?)
    && (m.promptOpen ==> !m.TracksNothing())
    && (m.active.Some? && m.promptOpen ==> m.state == AuthPending)
    && (m.state == Connected || m.state == AuthPending ==> !m.TracksNothing())
  }

  /** Stacks that act on the active session `s`. */
  predicate ActiveStack(m: MState, s: Path, st: seq<Command>) {
    match |st|
    case 1 =>
      (match st[0]
       case Connect(p) => p == s && !m.promptOpen
       case CheckReady(p) => p == s && !m.promptOpen
       case OpenPrompt(p, _, _, _) => p == s && m.promptOpen
       case ClosePrompt => !m.promptOpen
       case Note(p, _) => p == s
       case _ => false)
    case 2 =>
      !m.promptOpen && (st[0] == EnableLogForward(s) || st[0] == ClosePrompt) && st[1] == CheckReady(s)
    case 3 =>
      !m.promptOpen && st[0].ProvideInput? && st[0].session == s
      && st[1] == ClosePrompt && st[2] == CheckReady(s)
    case _ => false
  }

  /** Stacks that end the session `s` now being torn down. */
  predicate TeardownStack(s: Path, st: seq<Command>) {
    && 1 <= |st| <= 2 && st[|st| - 1] == Disconnect(s)
    && (|st| == 2 ==> st[0] == ClosePrompt || (st[0].Note? && st[0].session == s))
  }

  predicate StackOk(m: MState, st: seq<Command>) {
    || st == []
    || (m.active.Some? && ActiveStack(m, m.active.value.session, st))
    || (m.awaiting.Some? && TeardownStack(m.awaiting.value, st) && (|st| == 2 ==> m.state == Failed))
    || (Idle(m) && |st| == 1 && st[0].NewTunnel?)
  }

  /** What is known when an event reaches the machine. */
  predicate Due(m: MState, e: Event) {
    match e
    case SessionCreated(_, _) => Idle(m)
    case ExternalSessionSeen(_, _, _) => Idle(m)
    case SessionReady(s) => m.IsActive(s) && !m.promptOpen
    case CredentialsRequired(s, _, _) => m.IsActive(s) && !m.promptOpen
    case _ => true
  }

  predicate Shape(m: MState, event: Option<Event>, st: seq<Command>) {
    Settled(m) && match event case None => StackOk(m, st) case Some(e) => st == [] && Due(m, e)
  }

  lemma FireKeepsShape(m: MState, e: Event)
    requires Shape(m, Some(e), [])
    ensures var (n, st) := React(m, e); Shape(n, None, st)
  {
  }

  lemma PerformKeepsShape(w: World, c: Command, rest: seq<Command>)
    requires Shape(w.machine, None, [c] + rest)
    ensures var (x, fed) := Performed(w, c); Shape(x.machine, fed, rest)
  {
    var (x, fed) := Performed(w, c);
    PerformFrame(w, c);
    var st := [c] + rest;
    assert st[0] == c && st[1..] == rest;
    if |st| >= 2 { assert rest[0] == st[1]; }
    if |st| >= 3 { assert rest[1] == st[2]; }
  }

  // --------------------------------------------- frames of the commands

  /** Answers were used up and sessions may have died; nothing else moved. */
  predicate Waited(w: World, x: World) {
    && x == w.(replies := x.replies, backend := x.backend)
    && x.backend == w.backend.(alive := x.backend.alive)
    && x.backend.alive <= w.backend.alive
  }

  lemma AskWaits(w: World)
    ensures Waited(w, Ask(w).1)
  {
  }

  lemma {:induction false} FetchAllWaits(w: World, r: Request, ids: seq<u32>)
    ensures Waited(w, FetchAll(w, r, ids).1)
    decreases |ids|
  {
    if ids != [] { FetchAllWaits(Ask(w).1, r, ids[1..]); }
  }

  lemma DrainWaits(w: World, r: Request)
    ensures Waited(w, Drain(w, r).1)
  {
    var x := Ask(w).1;
    var (answer, y) := Ask(x);
    if answer.Ids? { FetchAllWaits(y, r, answer.ids); }
  }

  lemma {:induction false} DrainAllWaits(w: World, requests: seq<Request>)
    ensures Waited(w, DrainAll(w, requests).1)
    decreases |requests|
  {
    if requests != [] {
      DrainWaits(w, requests[0]);
      DrainAllWaits(Drain(w, requests[0]).1, requests[1..]);
    }
  }

  /** Nothing moved but the log, and the log still shows the same session. */
  predicate OnlyLogged(w: World, x: World) {
    && x == w.(logs := x.logs)
    && (w.logs.mostRecent.Some? ==> x.logs.mostRecent == w.logs.mostRecent)
    && (w.logs.WellFormed() ==> x.logs.WellFormed())
  }

  lemma {:induction false} JotAllFrame(w: World, s: Path, texts: seq<Text>)
    ensures OnlyLogged(w, JotAll(w, s, texts))
    decreases |texts|
  {
    if texts != [] { JotAllFrame(w.Log(Jot(s, texts[0])), s, texts[1..]); }
  }

  lemma {:induction false} NotePairsFrame(w: World, s: Path, pairs: seq<(u32, u32)>)
    ensures OnlyLogged(w, NotePairs(w, s, pairs))
    decreases |pairs|
  {
    if pairs != [] { NotePairsFrame(NoteOne(w, s, pairs[0]), s, pairs[1..]); }
  }

  /** `u` is `t` with answers to `s` appended. */
  predicate OnlyProvided(t: Trace, u: Trace, s: Path)
    decreases u
  {
    u == t || (u.Snoc? && u.last.Provided? && u.last.session == s && OnlyProvided(t, u.past, s))
  }

  lemma {:induction false} ProvideEachFrame(w: World, s: Path, responses: seq<InputResponse>)
    ensures var x := ProvideEach(w, s, responses).0;
            Waited(w, x.(trace := w.trace)) && OnlyProvided(w.trace, x.trace, s)
    decreases |responses|
  {
    if responses != [] {
      var y := Ask(w.Saw(Answer(s, responses[0]))).1;
      ProvideEachFrame(y, s, responses[1..]);
      ProvidedChains(w.trace, y.trace, ProvideEach(y, s, responses[1..]).0.trace, s);
    }
  }

  lemma {:induction false} ProvidedChains(t: Trace, u: Trace, v: Trace, s: Path)
    requires OnlyProvided(t, u, s) && OnlyProvided(u, v, s)
    ensures OnlyProvided(t, v, s)
    decreases v
  {
    if v != u { ProvidedChains(t, u, v.past, s); }
  }

  /** Answers change none of the questions asked of a trace. */
  lemma {:induction false} ProvidedIsInert(t: Trace, u: Trace, s: Path)
    requires OnlyProvided(t, u, s)
    ensures LastSelected(u) == LastSelected(t) && JustSelected(u) == JustSelected(t) && Wish(u) == Wish(t)
    ensures forall p :: Over(u, p) == Over(t, p)
    ensures forall p :: CreatedIn(u, p) == CreatedIn(t, p)
    ensures forall p :: ForwardedIn(u, p) == ForwardedIn(t, p)
    ensures forall p :: ConnectedSinceReport(u, p) == ConnectedSinceReport(t, p)
    ensures Always(t, AloneRule) ==> Always(u, AloneRule)
    ensures Always(t, LatestRule) ==> Always(u, LatestRule)
    ensures Always(t, ConnectRule) ==> Always(u, ConnectRule)
    ensures Always(t, ForwardRule) ==> Always(u, ForwardRule)
    ensures Always(t, DisplayRule) ==> Always(u, DisplayRule)
    ensures Always(t, TerminalRule) && !Over(t, s) ==> Always(u, TerminalRule)
    decreases u
  {
    if u != t { ProvidedIsInert(t, u.past, s); }
  }

  /** Nothing moved but what answers, deaths and lines in the log move. */
  predicate Uneventful(w: World, x: World) {
    && Waited(w, x.(logs := w.logs))
    && (w.logs.mostRecent.Some? ==> x.logs.mostRecent == w.logs.mostRecent)
    && (w.logs.WellFormed() ==> x.logs.WellFormed())
  }

  lemma CallsFrame(w: World, s: Path)
    ensures Uneventful(w, ForwardLog(w, s))
    ensures Uneventful(w, ConnectTo(w, s))
    ensures Uneventful(w, HangUp(w))
  {
  }

  lemma AskReadyFrame(w: World, s: Path)
    ensures var (x, fed) := AskReady(w, s);
            && Uneventful(w, x)
            && (fed.Some? ==> (fed.value.SessionReady? || fed.value.CredentialsRequired?)
                              && fed.value.session == s)
  {
    var (queue, z) := Ask(Ask(Ask(w).1).1);
    if queue.Pairs? { NotePairsFrame(z, s, queue.pairs); }
  }

  lemma ProvideFrame(w: World, s: Path, responses: seq<InputResponse>)
    ensures var x := Provide(w, s, responses);
            Uneventful(w, x.(trace := w.trace)) && OnlyProvided(w.trace, x.trace, s)
  {
    var x := Ask(w).1;
    var (y, refused) := ProvideEach(x, s, responses);
    ProvideEachFrame(x, s, responses);
    JotAllFrame(y, s, refused);
  }

  /** What a command can touch. */
  lemma PerformFrame(w: World, c: Command)
    ensures var (x, fed) := Performed(w, c);
            var seen := Snoc(w.trace, Executed(c, w.backend.alive));
            && x.machine == w.machine
            && (!c.NewTunnel? ==> x.backend == w.backend.(alive := x.backend.alive)
                                  && x.backend.alive <= w.backend.alive)
            && (!c.ProvideInput? ==> x.trace == seen)
            && (c.ProvideInput? ==> OnlyProvided(seen, x.trace, c.session))
            && (!c.OpenPrompt? && !c.ClosePrompt? ==> x.prompt == w.prompt)
            && (c.OpenPrompt? ==> x.prompt.Some? && x.prompt.value.session == c.session)
            && (c.ClosePrompt? ==> x.prompt == None)
            && (w.logs.WellFormed() ==> x.logs.WellFormed())
            && (!fed.Some? || !c.NewTunnel? ==>
                  (w.logs.mostRecent.Some? ==> x.logs.mostRecent == w.logs.mostRecent))
            && (fed.Some? ==> c.NewTunnel? || c.CheckReady?)
            && (fed.Some? && c.CheckReady? ==>
                  (fed.value.SessionReady? || fed.value.CredentialsRequired?)
                  && fed.value.session == c.session)
  {
    var y := w.Saw(Executed(c, w.backend.alive));
    match c {
      case EnableLogForward(s) => CallsFrame(y, s);
      case Connect(s) => CallsFrame(y, s);
      case Disconnect(s) => CallsFrame(y, s);
      case ProvideInput(s, responses) => ProvideFrame(y, s, responses);
      case CheckReady(s) => AskReadyFrame(y, s);
      case OpenPrompt(_, _, requests, _) => DrainAllWaits(y, requests);
      case _ =>
    }
  }

  /** Events that only carrying out a command can cause. */
  predicate FromCommand(e: Event) { e.SessionCreated? || e.SessionReady? || e.CredentialsRequired? }

  /** What a command feeds back never starts a tunnel or provides input. */
  lemma FeedbackBatch(w: World, c: Command, rest: seq<Command>)
    requires Performed(w, c).1.Some?
    ensures var (x, fed) := Performed(w, c);
            var nested := Fired(x, fed.value).1;
            && FromCommand(fed.value)
            && forall i :: 0 <= i < |nested + rest| ==>
                 ((nested + rest)[i].NewTunnel? || (nested + rest)[i].ProvideInput?
                  ==> (nested + rest)[i] in rest)
  {
    PerformFrame(w, c);
    var (x, fed) := Performed(w, c);
    QuietReaction(x.machine, fed.value);
  }

  lemma QuietReaction(m: MState, e: Event)
    requires FromCommand(e)
    ensures var nested := React(m, e).1;
            forall i :: 0 <= i < |nested| ==> !nested[i].NewTunnel? && !nested[i].ProvideInput?
  {
  }

  // --------------------------------------------- the invariant, part by part

  /** A session that is about to become the tracked one. */
  predicate Arrives(event: Option<Event>, p: Path) {
    event.Some? && (event.value.SessionCreated? || event.value.ExternalSessionSeen?)
    && event.value.session == p
  }

  /** An event that says `p` is over. */
  predicate SaysOver(event: Option<Event>, p: Path) {
    event.Some? && (event.value.SessionRemoved?
                    || (event.value.StatusChanged? && event.value.status.ReportsDown()))
    && event.value.session == p
  }

  /** Whatever is alive is what the machine tracks, so at most one session is. */
  ghost predicate SessionsOk(w: World, event: Option<Event>) {
    && (forall p :: w.machine.Tracks(p) || Arrives(event, p) ==> p in w.backend.known)
    && (forall p :: p in w.backend.alive ==> p in w.backend.known)
    && (forall p :: p in w.backend.alive ==> w.machine.Tracks(p) || Arrives(event, p))
    && (forall p :: SaysOver(event, p) ==> p !in w.backend.alive)
    && Always(w.trace, AloneRule)
  }

  function ShownFor(prompt: Option<PromptSpec>): Option<Path> {
    match prompt case Some(p) => Some(p.session) case None => None
  }

  function ShownAfter(shown: Option<Path>, c: Command): Option<Path> {
    match c
    case OpenPrompt(s, _, _, _) => Some(s)
    case ClosePrompt => None
    case _ => shown
  }

  /** Whose prompt shows once the stack has been carried out. */
  function PromptAfter(shown: Option<Path>, st: seq<Command>): Option<Path>
    decreases |st|
  {
    if st == [] then shown else PromptAfter(ShownAfter(shown, st[0]), st[1..])
  }

  /** The machine believes a prompt is open for the active session exactly when
      the worker shows one for it, or is about to. */
  ghost predicate PromptOk(w: World, event: Option<Event>, st: seq<Command>) {
    var shown := ShownFor(w.prompt);
    && (shown.Some? ==> shown.value in w.backend.known)
    && (forall s :: w.machine.IsActive(s) ==>
          (w.machine.promptOpen <==> PromptAfter(shown, st) == Some(s)))
    && (forall p :: Arrives(event, p) ==> shown != Some(p))
  }

  /** A session that was told to disconnect is finished business. */
  ghost predicate TerminalOk(w: World, event: Option<Event>, st: seq<Command>) {
    && (forall s :: Over(w.trace, s) ==>
          && s in w.backend.known && !w.machine.IsActive(s) && !Arrives(event, s)
          && (forall i :: 0 <= i < |st| ==> !st[i].Names(s)))
    && Always(w.trace, TerminalRule)
  }

  /** Targets are the user's latest choice. */
  ghost predicate IntentOk(w: World, event: Option<Event>, st: seq<Command>) {
    var m := w.machine;
    && (m.pending.Some? ==> LastSelected(w.trace) == m.pending)
    && (m.active.Some? && CreatedIn(w.trace, m.active.value.session) ==>
          LastSelected(w.trace) == Some(m.active.value.config))
    && (st != [] && st[0].NewTunnel? ==> LastSelected(w.trace) == Some(st[0].config))
    && (event.Some? && event.value.SessionCreated? ==> LastSelected(w.trace) == Some(event.value.config))
    && (event.Some? && event.value.ExternalSessionSeen? ==> !CreatedIn(w.trace, event.value.session))
    && (m.awaiting.Some? ==>
          m.pending == if st == [] || JustSelected(w.trace) then Wish(w.trace) else None)
    && Always(w.trace, LatestRule)
  }

  /** Every connect is earned, and every handshake is logged from the start. */
  ghost predicate ConnectOk(w: World, event: Option<Event>, st: seq<Command>) {
    var (m, t) := (w.machine, w.trace);
    && (event.Some? && event.value.SessionReady? ==>
          t.Snoc? && t.last.Executed? && t.last.command == CheckReady(event.value.session))
    && (st != [] && st[0].Connect? ==> ConnectRule(t, Executed(st[0], w.backend.alive)))
    && (event.Some? && event.value.ExternalSessionSeen? ==> !CreatedIn(t, event.value.session))
    && (m.active.Some? && CreatedIn(t, m.active.value.session) ==>
          || ForwardedIn(t, m.active.value.session)
          || (st != [] && st[0] == EnableLogForward(m.active.value.session)))
    && Always(t, ConnectRule) && Always(t, ForwardRule)
  }

  /** The log window shows the tracked session. */
  ghost predicate LogsOk(w: World, event: Option<Event>) {
    && w.logs.WellFormed()
    && (forall s :: w.machine.Tracks(s) || Arrives(event, s) ==> w.logs.mostRecent == Some(s))
  }

  ghost predicate DisplayOk(w: World) {
    && (w.machine.state == Connected ==>
          exists s :: w.machine.Tracks(s) && ConnectedSinceReport(w.trace, s))
    && Always(w.trace, DisplayRule)
  }

  ghost predicate Safe(w: World, event: Option<Event>, st: seq<Command>) {
    && SessionsOk(w, event)
    && PromptOk(w, event, st)
    && TerminalOk(w, event, st)
    && IntentOk(w, event, st)
    && ConnectOk(w, event, st)
    && LogsOk(w, event)
  }

  /** Kept by every configuration of every run; the second half rests on the
      backend keeping its word. */
  ghost predicate Inv(w: World, event: Option<Event>, st: seq<Command>) {
    && Shape(w.machine, event, st)
    && DisplayOk(w)
    && w.logs.WellFormed()
    && (w.backend.sound ==> Safe(w, event, st))
  }

  // --------------------------------------------- handling an event keeps it

  lemma FireKeepsSessions(w: World, e: Event)
    requires Shape(w.machine, Some(e), []) && SessionsOk(w, Some(e))
    ensures SessionsOk(Fired(w, e).0, None)
  {
    var (y, st) := Fired(w, e);
    forall p | y.machine.Tracks(p)
      ensures p in w.backend.known
    {
      assert w.machine.Tracks(p) || Arrives(Some(e), p);
    }
  }

  lemma FireKeepsPrompt(w: World, e: Event)
    requires Shape(w.machine, Some(e), []) && PromptOk(w, Some(e), [])
    ensures var (y, st) := Fired(w, e); PromptOk(y, None, st)
  {
    FlagFollowsBatch(w.machine, e, ShownFor(w.prompt));
  }

  /** The flag an event leaves is the one its batch will make true. */
  lemma FlagFollowsBatch(m: MState, e: Event, shown: Option<Path>)
    requires Shape(m, Some(e), [])
    requires forall s :: m.IsActive(s) ==> (m.promptOpen <==> shown == Some(s))
    requires forall p :: Arrives(Some(e), p) ==> shown != Some(p)
    ensures var (n, st) := React(m, e);
            forall s :: n.IsActive(s) ==> (n.promptOpen <==> PromptAfter(shown, st) == Some(s))
  {
    PromptAfterShort(shown, React(m, e).1);
  }

  /** No batch is longer than three commands. */
  lemma PromptAfterShort(shown: Option<Path>, st: seq<Command>)
    requires |st| <= 3
    decreases |st|
    ensures |st| == 1 ==> PromptAfter(shown, st) == ShownAfter(shown, st[0])
    ensures |st| == 2 ==> PromptAfter(shown, st) == ShownAfter(ShownAfter(shown, st[0]), st[1])
    ensures |st| == 3 ==>
              PromptAfter(shown, st) == ShownAfter(ShownAfter(ShownAfter(shown, st[0]), st[1]), st[2])
  {
    if st != [] {
      PromptAfterShort(ShownAfter(shown, st[0]), st[1..]);
    }
  }

  lemma FireKeepsTerminal(w: World, e: Event)
    requires Shape(w.machine, Some(e), []) && TerminalOk(w, Some(e), [])
    ensures var (y, st) := Fired(w, e); TerminalOk(y, None, st)
  {
    var (y, st) := Fired(w, e);
    forall s | Over(w.trace, s)
      ensures !y.machine.IsActive(s) && forall i :: 0 <= i < |st| ==> !st[i].Names(s)
    {
    }
  }

  lemma FireKeepsIntent(w: World, e: Event)
    requires Shape(w.machine, Some(e), []) && IntentOk(w, Some(e), [])
    ensures var (y, st) := Fired(w, e); IntentOk(y, None, st)
  {
    FireKeepsWish(w, e);
  }

  /** What waits behind a teardown is what is wished for. */
  lemma FireKeepsWish(w: World, e: Event)
    requires Shape(w.machine, Some(e), []) && IntentOk(w, Some(e), [])
    ensures var (y, st) := Fired(w, e);
            y.machine.awaiting.Some? ==>
              y.machine.pending == if st == [] || JustSelected(y.trace) then Wish(y.trace) else None
  {
  }

  lemma FireKeepsConnect(w: World, e: Event)
    requires Shape(w.machine, Some(e), []) && ConnectOk(w, Some(e), [])
    ensures var (y, st) := Fired(w, e); ConnectOk(y, None, st)
  {
  }

  lemma FireKeepsLogs(w: World, e: Event)
    requires Shape(w.machine, Some(e), []) && LogsOk(w, Some(e))
    ensures LogsOk(Fired(w, e).0, None)
  {
    var (y, st) := Fired(w, e);
    forall s | y.machine.Tracks(s)
      ensures w.machine.Tracks(s) || Arrives(Some(e), s)
    {
    }
  }

  lemma FireKeepsDisplay(w: World, e: Event)
    requires Shape(w.machine, Some(e), []) && DisplayOk(w)
    ensures DisplayOk(Fired(w, e).0)
  {
    var (y, st) := Fired(w, e);
    if y.machine.state == Connected {
      if w.machine.state == Connected && w.machine.active.Some? && y.machine.active == None {
        var s :| w.machine.Tracks(s) && ConnectedSinceReport(w.trace, s);
        assert y.machine.Tracks(s) && ConnectedSinceReport(y.trace, s);
      } else if y.machine.active.Some? && (e.StatusChanged? || e.ExternalSessionSeen?)
                && IsConnectReport(e, y.machine.active.value.session) {
        var s := y.machine.active.value.session;
        assert y.machine.Tracks(s) && ConnectedSinceReport(y.trace, s);
      } else {
        var s :| w.machine.Tracks(s) && ConnectedSinceReport(w.trace, s);
        assert y.machine.Tracks(s) && ConnectedSinceReport(y.trace, s);
      }
    }
  }

  lemma FireKeepsInv(w: World, e: Event)
    requires Inv(w, Some(e), [])
    ensures var (y, st) := Fired(w, e); Inv(y, None, st)
  {
    FireKeepsShape(w.machine, e);
    FireKeepsDisplay(w, e);
    if w.backend.sound {
      FireKeepsSessions(w, e);
      FireKeepsPrompt(w, e);
      FireKeepsTerminal(w, e);
      FireKeepsIntent(w, e);
      FireKeepsConnect(w, e);
      FireKeepsLogs(w, e);
    }
  }

  // --------------------------------------------- carrying out a command keeps it

  lemma PerformKeepsSessions(w: World, c: Command, rest: seq<Command>)
    requires Shape(w.machine, None, [c] + rest) && SessionsOk(w, None)
    ensures var (x, fed) := Performed(w, c); x.backend.sound ==> SessionsOk(x, fed)
  {
    PerformFrame(w, c);
    TopOf(c, rest);
    PerformsAlone(w, c, rest);
  }

  /** No tunnel is started while a session is alive. */
  lemma PerformsAlone(w: World, c: Command, rest: seq<Command>)
    requires Shape(w.machine, None, [c] + rest) && SessionsOk(w, None)
    ensures Always(Performed(w, c).0.trace, AloneRule)
  {
    PerformFrame(w, c);
    TopOf(c, rest);
    var seen := Snoc(w.trace, Executed(c, w.backend.alive));
    if c.NewTunnel? {
      assert ([c] + rest)[0] == c && Idle(w.machine);
      assert w.backend.alive == {};
    }
    assert AloneRule(w.trace, seen.last);
    if c.ProvideInput? { ProvidedIsInert(seen, Performed(w, c).0.trace, c.session); }
  }

  lemma TopOf(c: Command, rest: seq<Command>)
    ensures ([c] + rest)[0] == c && ([c] + rest)[1..] == rest
    ensures |[c] + rest| == 1 + |rest|
  {
  }

  lemma PerformKeepsPrompt(w: World, c: Command, rest: seq<Command>)
    requires Shape(w.machine, None, [c] + rest) && SessionsOk(w, None) && PromptOk(w, None, [c] + rest)
    ensures var (x, fed) := Performed(w, c); x.backend.sound ==> PromptOk(x, fed, rest)
  {
    PerformFrame(w, c);
    TopOf(c, rest);
    var (x, fed) := Performed(w, c);
    assert PromptAfter(ShownFor(w.prompt), [c] + rest) == PromptAfter(ShownAfter(ShownFor(w.prompt), c), rest);
    assert c.NewTunnel? || ShownFor(x.prompt) == ShownAfter(ShownFor(w.prompt), c);
  }

  lemma PerformKeepsTerminal(w: World, c: Command, rest: seq<Command>)
    requires Shape(w.machine, None, [c] + rest) && SessionsOk(w, None) && TerminalOk(w, None, [c] + rest)
    ensures var (x, fed) := Performed(w, c); x.backend.sound ==> TerminalOk(x, fed, rest)
  {
    PerformFrame(w, c);
    TopOf(c, rest);
    PerformOvers(w, c, rest);
    assert forall i :: 0 <= i < |rest| ==> rest[i] == ([c] + rest)[i + 1];
  }

  /** Only a `Disconnect` finishes a session, and no command names a finished one. */
  lemma PerformOvers(w: World, c: Command, rest: seq<Command>)
    requires TerminalOk(w, None, [c] + rest)
    ensures var x := Performed(w, c).0;
            && (forall s :: Over(x.trace, s) <==> c == Disconnect(s) || Over(w.trace, s))
            && Always(x.trace, TerminalRule)
  {
    PerformFrame(w, c);
    TopOf(c, rest);
    var seen := Snoc(w.trace, Executed(c, w.backend.alive));
    assert forall s :: Over(w.trace, s) ==> !([c] + rest)[0].Names(s);
    assert Always(w.trace, TerminalRule) && TerminalRule(w.trace, seen.last);
    assert Always(seen, TerminalRule);
    if c.ProvideInput? {
      assert c.Names(c.session) && !Over(w.trace, c.session) && !Over(seen, c.session);
      ProvidedIsInert(seen, Performed(w, c).0.trace, c.session);
    }
  }

  lemma PerformKeepsIntent(w: World, c: Command, rest: seq<Command>)
    requires Shape(w.machine, None, [c] + rest) && IntentOk(w, None, [c] + rest)
    ensures var (x, fed) := Performed(w, c); IntentOk(x, fed, rest)
  {
    PerformFrame(w, c);
    TopOf(c, rest);
    var (x, fed) := Performed(w, c);
    if c.ProvideInput? { ProvidedIsInert(Snoc(w.trace, Executed(c, w.backend.alive)), x.trace, c.session); }
  }

  lemma PerformKeepsConnect(w: World, c: Command, rest: seq<Command>)
    requires Shape(w.machine, None, [c] + rest) && ConnectOk(w, None, [c] + rest)
    ensures var (x, fed) := Performed(w, c); ConnectOk(x, fed, rest)
  {
    PerformFrame(w, c);
    TopOf(c, rest);
    var (x, fed) := Performed(w, c);
    if c.ProvideInput? { ProvidedIsInert(Snoc(w.trace, Executed(c, w.backend.alive)), x.trace, c.session); }
  }

  lemma PerformKeepsLogs(w: World, c: Command, rest: seq<Command>)
    requires Shape(w.machine, None, [c] + rest) && LogsOk(w, None)
    ensures var (x, fed) := Performed(w, c); LogsOk(x, fed)
  {
    PerformFrame(w, c);
    TopOf(c, rest);
  }

  lemma PerformKeepsDisplay(w: World, c: Command)
    requires DisplayOk(w)
    ensures DisplayOk(Performed(w, c).0)
  {
    PerformFrame(w, c);
    var (x, fed) := Performed(w, c);
    if c.ProvideInput? { ProvidedIsInert(Snoc(w.trace, Executed(c, w.backend.alive)), x.trace, c.session); }
  }

  lemma PerformKeepsInv(w: World, c: Command, rest: seq<Command>)
    requires Inv(w, None, [c] + rest)
    ensures var (x, fed) := Performed(w, c); Inv(x, fed, rest)
  {
    PerformKeepsShape(w, c, rest);
    PerformKeepsDisplay(w, c);
    PerformFrame(w, c);
    if Performed(w, c).0.backend.sound {
      PerformKeepsSessions(w, c, rest);
      PerformKeepsPrompt(w, c, rest);
      PerformKeepsTerminal(w, c, rest);
      PerformKeepsIntent(w, c, rest);
      PerformKeepsConnect(w, c, rest);
      PerformKeepsLogs(w, c, rest);
    }
  }

  // --------------------------------------------- and so does everything else

  lemma {:induction false} ExecKeepsInv(w: World, st: seq<Command>)
    requires Inv(w, None, st)
    ensures Inv(Exec(w, st), None, [])
    decreases Load(st)
  {
    if st != [] {
      assert st == [st[0]] + st[1..];
      PerformKeepsInv(w, st[0], st[1..]);
      var (x, fed) := Performed(w, st[0]);
      match fed {
        case None => ExecKeepsInv(x, st[1..]);
        case Some(e) =>
          FireKeepsInv(x, e);
          FeedbackIsLighter(w, st[0]);
          var (y, nested) := Fired(x, e);
          LoadAdds(nested, st[1..]);
          assert nested + st[1..] == nested;
          ExecKeepsInv(y, nested);
      }
    }
  }

  /** What a phase can touch before its event is handled. */
  ghost predicate OnlyRead(w: World, x: World) {
    && x == w.(logs := x.logs, replies := x.replies, backend := x.backend)
    && x.backend.known == w.backend.known && x.backend.alive <= w.backend.alive
    && (x.backend.sound ==> w.backend.sound)
    && (w.logs.mostRecent.Some? ==> x.logs.mostRecent == w.logs.mostRecent)
    && (w.logs.WellFormed() ==> x.logs.WellFormed())
  }

  lemma PreparedFrame(w: World, phase: Phase)
    ensures var (x, event) := Prepared(w, phase);
            && OnlyRead(w, x)
            && (event.Some? ==> Due(w.machine, event.value) && forall p :: !Arrives(event, p))
            && (x.backend.sound ==> forall p :: SaysOver(event, p) ==> p !in x.backend.alive)
            && (event.Some? ==> !FromCommand(event.value) && !event.value.ExternalSessionSeen?)
  {
    match phase {
      case CheckTeardown => ReadSessionsFrame(w);
      case CheckStatus => ReadStatusFrame(w);
      case OnUi(_) =>
      case OnSignal(_) =>
      case OnDeath(_) =>
    }
  }

  lemma ReadSessionsFrame(w: World)
    ensures var (x, event) := ReadSessions(w);
            && OnlyRead(w, x)
            && (event.Some? ==> event.value.SessionRemoved?)
            && (x.backend.sound ==> forall p :: SaysOver(event, p) ==> p !in x.backend.alive)
  {
  }

  lemma ReadStatusFrame(w: World)
    ensures var (x, event) := ReadStatus(w);
            && OnlyRead(w, x)
            && (event.Some? ==> event.value.StatusChanged?)
            && (x.backend.sound ==> forall p :: SaysOver(event, p) ==> p !in x.backend.alive)
  {
  }

  lemma PreparedKeepsInv(w: World, phase: Phase)
    requires Inv(w, None, [])
    ensures var (x, event) := Prepared(w, phase); Inv(x, event, [])
  {
    PreparedFrame(w, phase);
  }

  lemma PhaseKeepsInv(w: World, phase: Phase)
    requires Inv(w, None, [])
    ensures Inv(DoPhase(w, phase), None, [])
  {
    PreparedKeepsInv(w, phase);
    var (x, event) := Prepared(w, phase);
    if event.Some? {
      FireKeepsInv(x, event.value);
      ExecKeepsInv(Fired(x, event.value).0, Fired(x, event.value).1);
    }
  }

  lemma {:induction false} PhasesKeepInv(w: World, phases: seq<Phase>)
    requires Inv(w, None, [])
    ensures Inv(DoPhases(w, phases), None, [])
    decreases |phases|
  {
    if phases != [] {
      PhaseKeepsInv(w, phases[0]);
      PhasesKeepInv(DoPhase(w, phases[0]), phases[1..]);
    }
  }

  lemma {:induction false} RunKeepsInv(w: World, inputs: seq<Input>)
    requires Inv(w, None, [])
    ensures Inv(Run(w, inputs), None, [])
    decreases |inputs|
  {
    if inputs != [] {
      PhasesKeepInv(w, Phases(w, inputs[0]));
      RunKeepsInv(Step(w, inputs[0]), inputs[1..]);
    }
  }

  /** Before anything is known to exist, waiting changes nothing. */
  lemma BlankWaits(w: World)
    requires w == Blank(w.replies)
    ensures var x := Ask(w).1; x == Blank(x.replies)
  {
    assert forall dead: set<Path> :: {} - dead == {};
  }

  /** A fresh worker that has just found an outside session. */
  lemma AdoptedInv(w: World, p: Path, config: Path, status: Status)
    requires w == Blank(w.replies)
    ensures var z := Ask(Found(w, p, status)).1.Log(Adopt(p));
            Inv(z, Some(ExternalSessionSeen(p, config, status)), []) && z.backend.sound
            && z.backend.known == {p} && z.machine == FRESH && z.trace == Nil
  {
  }

  lemma AdoptOneKeepsInv(w: World, p: Path)
    requires w == Blank(w.replies)
    ensures var (x, adopted) := AdoptOne(w, p);
            if adopted then Inv(x, None, []) else x == Blank(x.replies)
  {
    var x := Ask(w).1;
    var (answer, y) := Ask(x);
    BlankWaits(w);
    BlankWaits(x);
    if AdoptOne(w, p).1 {
      var status := StatusFrom(answer).value;
      var (third, z) := Ask(Found(y, p, status));
      var config := if third.ConfigIs? then third.config else "";
      var e := ExternalSessionSeen(p, config, status);
      AdoptedInv(y, p, config, status);
      FireKeepsInv(z.Log(Adopt(p)), e);
      ExecKeepsInv(Fired(z.Log(Adopt(p)), e).0, Fired(z.Log(Adopt(p)), e).1);
    }
  }

  lemma {:induction false} AdoptKeepsInv(w: World, paths: seq<Path>)
    requires w == Blank(w.replies)
    ensures Inv(AdoptFirst(w, paths), None, [])
    decreases |paths|
  {
    if paths != [] {
      AdoptOneKeepsInv(w, paths[0]);
      var (x, adopted) := AdoptOne(w, paths[0]);
      if !adopted { AdoptKeepsInv(x, paths[1..]); }
    }
  }

  lemma StartupInv(replies: seq<Beat>)
    ensures Inv(Startup(replies), None, [])
  {
    var w := Blank(replies);
    var (manager, x) := Ask(w);
    var (answer, y) := Ask(x);
    BlankWaits(w);
    BlankWaits(x);
    if answer.Sessions? { AdoptKeepsInv(y, answer.paths); }
  }

  /** Every world a run can reach from startup. */
  lemma EveryRunKeepsInv(replies: seq<Beat>, inputs: seq<Input>)
    ensures Inv(Run(Startup(replies), inputs), None, [])
  {
    StartupInv(replies);
    RunKeepsInv(Startup(replies), inputs);
  }
}
