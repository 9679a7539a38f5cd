/** The settle timer publishes only when it changed the connection state. Which ticks
    change something else and keep it to themselves is decided here from the worker
    and the answers in store, before the tick. */
module Timer {
  import opened Prelude
  import opened StatusMap
  import opened AttentionRouting
  import opened TransitionMachine
  import opened LogBuffer
  import opened WorkerModel
  import opened Invariants
  import opened Attempts
  import opened Shortfalls
  import opened Applet

  // --------------------------------------------- what the answers foretell

  /** A new session's empty log and the answers in store; nothing else. */
  function Newborn(replies: seq<Beat>, p: Path): World { Blank(replies).Log(Begin(p)) }

  /** These commands carried out one after the other, with no machine to hear of it. */
  function Carried(w: World, cs: seq<Command>): World
    decreases |cs|
  {
    if cs == [] then w else Carried(Performed(w, cs[0]).0, cs[1..])
  }

  /** What a new session's first readiness check will say. */
  function Foretold(replies: seq<Beat>, p: Path): Option<Event> {
    Performed(Performed(Newborn(replies, p), EnableLogForward(p)).0, CheckReady(p)).1
  }

  /** What starting it comes to, log and left-over answers included. */
  function Fate(replies: seq<Beat>, p: Path): World {
    Carried(Newborn(replies, p),
            [EnableLogForward(p), CheckReady(p)] + Consequence(p, Foretold(replies, p)))
  }

  /** Why it will be refused, if it will. */
  function RefusalIn(verdict: Option<Event>): Option<Text> {
    match verdict
    case Some(CredentialsRequired(_, requests, _)) => FirstUnsupported(requests)
    case _ => None
  }

  /** The state a verdict leads to by itself. */
  function StateAfter(verdict: Option<Event>): ConnectionState {
    match verdict
    case Some(CredentialsRequired(_, requests, _)) =>
      if requests == [] then Connecting
      else if FirstUnsupported(requests).Some? then Failed else AuthPending
    case _ => Connecting
  }

  /** The state a new session ends the tick in: the one its verdict leads to, unless
      the status read right after it, if it was not refused, says otherwise. */
  function Landing(replies: seq<Beat>, p: Path): ConnectionState {
    var verdict := Foretold(replies, p);
    if RefusalIn(verdict).Some? then Failed
    else match StatusNext(Fate(replies, p).replies)
      case Some(status) =>
        (match status.Transition() case Set(next) => next case Hold => StateAfter(verdict))
      case None => StateAfter(verdict)
  }

  /** The log window as published. */
  function Lines(h: Histories): Option<seq<LogEntry>> { LinesOf(Shown(h, LOG_CAPACITY)) }

  /** What will be noted if the tunnel asked for next does not come. */
  function StartNote(replies: seq<Beat>): Option<Text> {
    if replies == [] || replies[0].reply.Unreachable? then None
    else Some(StartFailed(ErrorText(if |replies| >= 2 then replies[1].reply else Unreachable)))
  }

  /** The bus will list the sessions, and `s` is not among them. */
  predicate Omitted(replies: seq<Beat>, s: Path) {
    && |replies| >= 2 && !replies[0].reply.Unreachable?
    && replies[1].reply.Sessions? && s !in replies[1].reply.paths
  }

  /** Starting `config` once `s` is gone will end in the state there is now, but not
      with everything on show as it is now. */
  predicate StartOverlooked(w: World, s: Path, config: Path, replies: seq<Beat>) {
    if TunnelComes(replies) then
      var (p, rest) := (replies[1].reply.path, replies[2..]);
      && Landing(rest, p) == w.machine.state
      && (RefusalIn(Foretold(rest, p)).Some? ==> Lines(Fate(rest, p).logs) != Lines(w.logs))
    else
      && w.machine.state == Connecting
      && match StartNote(replies)
         case Some(text) => Lines(Apply(Apply(w.logs, Remove(s)), Jot(config, text))) != Lines(w.logs)
         case None => false
  }

  /** A tick now will change what there is to show and say nothing of it: either a
      status nobody knows adds its line to the log while the display is Connecting,
      or a teardown that a profile is waiting for completes and the profile's own
      start leads back to the state there is. */
  predicate Overlooked(w: World) {
    var m := w.machine;
    match m.awaiting
    case None =>
      && InFlight(m)
      && (match StatusInStore(w)
          case Some(status) =>
            status.Transition().Hold?
            && Lines(Apply(w.logs, Jot(m.active.value.session, UnmappedStatus(status.major, status.minor))))
               != Lines(w.logs)
          case None => false)
    case Some(s) =>
      match m.pending
      case None => false
      case Some(config) => Omitted(w.replies, s) && StartOverlooked(w, s, config, w.replies[2..])
  }

  // --------------------------------------------- the bus does not look at the machine

  /** The same answers in store and the same log for `p`, which is the one on show. */
  ghost predicate Twins(w: World, x: World, p: Path) {
    && w.replies == x.replies
    && w.logs.mostRecent == x.logs.mostRecent == Some(p)
    && p in w.logs.buffers && p in x.logs.buffers && w.logs.buffers[p] == x.logs.buffers[p]
  }

  lemma AskTwins(w: World, x: World, p: Path)
    requires Twins(w, x, p)
    ensures Ask(w).0 == Ask(x).0 && Twins(Ask(w).1, Ask(x).1, p)
  {
  }

  lemma JotTwins(w: World, x: World, p: Path, text: Text)
    requires Twins(w, x, p)
    ensures Twins(w.Log(Jot(p, text)), x.Log(Jot(p, text)), p)
  {
  }

  lemma {:induction false} NotePairsTwins(w: World, x: World, p: Path, pairs: seq<(u32, u32)>)
    requires Twins(w, x, p)
    ensures Twins(NotePairs(w, p, pairs), NotePairs(x, p, pairs), p)
    decreases |pairs|
  {
    if pairs != [] {
      NotePairsTwins(NoteOne(w, p, pairs[0]), NoteOne(x, p, pairs[0]), p, pairs[1..]);
    }
  }

  lemma {:induction false} FetchAllTwins(w: World, x: World, p: Path, r: Request, ids: seq<u32>)
    requires Twins(w, x, p)
    ensures Twins(FetchAll(w, r, ids).1, FetchAll(x, r, ids).1, p)
    decreases |ids|
  {
    if ids != [] {
      AskTwins(w, x, p);
      FetchAllTwins(Ask(w).1, Ask(x).1, p, r, ids[1..]);
    }
  }

  lemma DrainTwins(w: World, x: World, p: Path, r: Request)
    requires Twins(w, x, p)
    ensures Twins(Drain(w, r).1, Drain(x, r).1, p)
  {
    AskTwins(w, x, p);
    var (y, z) := (Ask(w).1, Ask(x).1);
    AskTwins(y, z, p);
    var answer := Ask(y).0;
    if answer.Ids? { FetchAllTwins(Ask(y).1, Ask(z).1, p, r, answer.ids); }
  }

  lemma {:induction false} DrainAllTwins(w: World, x: World, p: Path, requests: seq<Request>)
    requires Twins(w, x, p)
    ensures Twins(DrainAll(w, requests).1, DrainAll(x, requests).1, p)
    decreases |requests|
  {
    if requests != [] {
      DrainTwins(w, x, p, requests[0]);
      DrainAllTwins(Drain(w, requests[0]).1, Drain(x, requests[0]).1, p, requests[1..]);
    }
  }

  lemma CallsTwins(w: World, x: World, p: Path)
    requires Twins(w, x, p)
    ensures Twins(ForwardLog(w, p), ForwardLog(x, p), p)
    ensures Twins(ConnectTo(w, p), ConnectTo(x, p), p)
    ensures Twins(HangUp(w), HangUp(x), p)
  {
    AskTwins(w, x, p);
    AskTwins(Ask(w).1, Ask(x).1, p);
  }

  lemma AskReadyTwins(w: World, x: World, p: Path)
    requires Twins(w, x, p)
    ensures AskReady(w, p).1 == AskReady(x, p).1 && Twins(AskReady(w, p).0, AskReady(x, p).0, p)
  {
    AskTwins(w, x, p);
    var (w1, x1) := (Ask(w).1, Ask(x).1);
    AskTwins(w1, x1, p);
    var (w2, x2) := (Ask(w1).1, Ask(x1).1);
    AskTwins(w2, x2, p);
    var (queue, w3) := Ask(w2);
    if queue.Pairs? { NotePairsTwins(w3, Ask(x2).1, p, queue.pairs); }
  }

  lemma PerformTwins(w: World, x: World, p: Path, c: Command)
    requires Twins(w, x, p) && c.Names(p) && !c.ProvideInput?
    ensures Performed(w, c).1 == Performed(x, c).1
    ensures Twins(Performed(w, c).0, Performed(x, c).0, p)
  {
    var (y, z) := (w.Saw(Executed(c, w.backend.alive)), x.Saw(Executed(c, x.backend.alive)));
    assert Twins(y, z, p);
    match c {
      case EnableLogForward(_) => CallsTwins(y, z, p);
      case Connect(_) => CallsTwins(y, z, p);
      case Disconnect(_) => CallsTwins(y, z, p);
      case CheckReady(_) => AskReadyTwins(y, z, p);
      case OpenPrompt(_, _, requests, _) => DrainAllTwins(y, z, p, requests);
      case Note(_, text) => JotTwins(y, z, p, text);
    }
  }

  predicate AllNaming(cs: seq<Command>, p: Path) {
    forall i :: 0 <= i < |cs| ==> cs[i].Names(p) && !cs[i].ProvideInput?
  }

  lemma {:induction false} CarriedTwins(w: World, x: World, p: Path, cs: seq<Command>)
    requires Twins(w, x, p) && AllNaming(cs, p)
    ensures Twins(Carried(w, cs), Carried(x, cs), p)
    decreases |cs|
  {
    if cs != [] {
      PerformTwins(w, x, p, cs[0]);
      CarriedTwins(Performed(w, cs[0]).0, Performed(x, cs[0]).0, p, cs[1..]);
    }
  }

  /** Commands that feed nothing back are carried out, and that is all. */
  lemma {:induction false} PlainIsCarried(w: World, st: seq<Command>)
    requires forall i :: 0 <= i < |st| ==> !st[i].NewTunnel? && !st[i].CheckReady?
    ensures Exec(w, st) == Carried(w, st)
    decreases |st|
  {
    if st != [] {
      PerformFrame(w, st[0]);
      PlainIsCarried(Performed(w, st[0]).0, st[1..]);
    }
  }

  lemma {:induction false} CarriedAppends(w: World, a: seq<Command>, b: seq<Command>)
    ensures Carried(w, a + b) == Carried(Carried(w, a), b)
    decreases |a|
  {
    if a == [] {
      assert a + b == b;
    } else {
      assert (a + b)[1..] == a[1..] + b;
      CarriedAppends(Performed(w, a[0]).0, a[1..], b);
    }
  }

  // --------------------------------------------- a start ends as foretold

  lemma ShownAlike(w: World, x: World, p: Path)
    requires Twins(w, x, p)
    ensures Lines(w.logs) == Lines(x.logs)
  {
  }

  lemma TunnelCreated(w: World, config: Path)
    requires TunnelComes(w.replies)
    ensures var (p, rest) := (w.replies[1].reply.path, w.replies[2..]);
            var (x, fed) := Performed(w, NewTunnel(config));
            && fed == Some(SessionCreated(p, config)) && x.machine == w.machine && x.prompt == w.prompt
            && Twins(x, Newborn(rest, p), p)
  {
    var y := w.Saw(Executed(NewTunnel(config), w.backend.alive));
    assert Ask(Ask(y).1).1.replies == w.replies[1..][1..] == w.replies[2..];
  }

  /** What the verdict of a readiness check does to the machine. */
  predicate Judged(before: MState, p: Path, verdict: Option<Event>, after: MState) {
    if RefusalIn(verdict).Some? then
      after == before.(state := Failed, active := None, awaiting := Some(p))
    else
      after == before.(state := StateAfter(verdict), promptOpen := StateAfter(verdict) == AuthPending)
  }

  lemma VerdictLands(y: World, b: World, p: Path, e: Event)
    requires y.machine.IsActive(p) && !y.machine.promptOpen && Twins(y, b, p)
    requires y.machine.state == Connecting
    requires (e.SessionReady? || (e.CredentialsRequired? && e.requests != [])) && e.session == p
    ensures var z := Deliver(y, e);
            && Judged(y.machine, p, Some(e), z.machine)
            && Twins(z, Carried(b, Consequence(p, Some(e))), p)
            && (RefusalIn(Some(e)).Some? ==> z.prompt == y.prompt)
  {
    var (f, st) := Fired(y, e);
    assert st == Consequence(p, Some(e));
    PlainIsCarried(f, st);
    PlainCommands(f, st);
    CarriedTwins(f, b, p, st);
    if RefusalIn(Some(e)).Some? { RefusingKeepsPrompt(f, p, RefusalIn(Some(e)).value); }
  }

  lemma RefusingKeepsPrompt(w: World, p: Path, reason: Text)
    ensures Carried(w, [Note(p, reason), Disconnect(p)]).prompt == w.prompt
  {
    var st := [Note(p, reason), Disconnect(p)];
    PerformFrame(w, st[0]);
    var x := Performed(w, st[0]).0;
    PerformFrame(x, st[1]);
    assert st[1..] == [Disconnect(p)] && st[1..][1..] == [];
    assert Carried(x, st[1..]) == Carried(Performed(x, st[1]).0, []);
  }

  lemma CheckLands(h: World, b: World, p: Path)
    requires h.machine.IsActive(p) && !h.machine.promptOpen && Twins(h, b, p)
    requires h.machine.state == Connecting
    ensures var (z, verdict) := (Exec(h, [CheckReady(p)]), Performed(b, CheckReady(p)).1);
            && Judged(h.machine, p, verdict, z.machine)
            && Twins(z, Carried(Performed(b, CheckReady(p)).0, Consequence(p, verdict)), p)
            && (RefusalIn(verdict).Some? ==> z.prompt == h.prompt)
  {
    PerformFrame(h, CheckReady(p));
    PerformTwins(h, b, p, CheckReady(p));
    CheckAsksForSomething(h, p);
    var (y, fed) := Performed(h, CheckReady(p));
    match fed {
      case None =>
        assert [CheckReady(p)] == [CheckReady(p)] + [];
        ExecPlain(h, CheckReady(p), []);
      case Some(e) =>
        ExecFed(h, CheckReady(p));
        VerdictLands(y, Performed(b, CheckReady(p)).0, p, e);
    }
  }

  lemma CheckAsksForSomething(w: World, p: Path)
    ensures var fed := Performed(w, CheckReady(p)).1;
            fed.Some? && fed.value.CredentialsRequired? ==> fed.value.requests != []
  {
  }

  /** The machine that a completed teardown starts a tunnel from. */
  const STARTING := MState(Connecting, None, None, None, false)

  lemma StartLands(w: World, config: Path)
    requires w.machine == STARTING && TunnelComes(w.replies)
    ensures var (p, rest) := (w.replies[1].reply.path, w.replies[2..]);
            var (z, verdict) := (Exec(w, [NewTunnel(config)]), Foretold(rest, p));
            && Judged(STARTING.(active := Some(ActiveSession(p, config))), p, verdict, z.machine)
            && Twins(z, Fate(rest, p), p)
            && (RefusalIn(verdict).Some? ==> z.prompt == w.prompt)
  {
    var (p, rest) := (w.replies[1].reply.path, w.replies[2..]);
    TunnelCreated(w, config);
    var x := Performed(w, NewTunnel(config)).0;
    AttemptFeedsBack(w, config, x, p);
    CreationLands(Fired(x, SessionCreated(p, config)).0, Newborn(rest, p), p);
    FateUnfolds(rest, p);
  }

  lemma FateUnfolds(replies: seq<Beat>, p: Path)
    ensures var b := Performed(Newborn(replies, p), EnableLogForward(p)).0;
            Fate(replies, p)
            == Carried(Performed(b, CheckReady(p)).0, Consequence(p, Foretold(replies, p)))
  {
    var (d, e) := (EnableLogForward(p), CheckReady(p));
    var tail := Consequence(p, Foretold(replies, p));
    assert ([d, e] + tail)[1..] == [e] + tail && ([e] + tail)[1..] == tail;
    assert Fate(replies, p) == Carried(Performed(Newborn(replies, p), d).0, [e] + tail);
  }

  lemma CreationLands(g: World, b: World, p: Path)
    requires g.machine.IsActive(p) && !g.machine.promptOpen && g.machine.state == Connecting
    requires Twins(g, b, p)
    ensures var (z, c) := (Exec(g, [EnableLogForward(p), CheckReady(p)]), Performed(b, EnableLogForward(p)).0);
            var verdict := Performed(c, CheckReady(p)).1;
            && Judged(g.machine, p, verdict, z.machine)
            && Twins(z, Carried(Performed(c, CheckReady(p)).0, Consequence(p, verdict)), p)
            && (RefusalIn(verdict).Some? ==> z.prompt == g.prompt)
  {
    var d := EnableLogForward(p);
    PerformFrame(g, d);
    PerformTwins(g, b, p, d);
    assert [d, CheckReady(p)] == [d] + [CheckReady(p)];
    ExecPlain(g, d, [CheckReady(p)]);
    CheckLands(Performed(g, d).0, Performed(b, d).0, p);
  }

  // --------------------------------------------- which ticks say nothing

  /** Between `w` and `x` something on show changed, but not the connection state. */
  predicate Hidden(w: World, x: World, profiles: seq<Profile>, unavailable: bool) {
    && x.machine.state == w.machine.state
    && Published(x, profiles, unavailable) != Published(w, profiles, unavailable)
  }

  /** With no teardown outstanding only a status that nobody knows can do that. */
  lemma StatusTickHides(w: World, profiles: seq<Profile>, unavailable: bool)
    requires Settled(w.machine) && w.machine.awaiting.None?
    ensures Hidden(w, Step(w, Tick), profiles, unavailable) <==> Overlooked(w)
  {
    if InFlight(w.machine) {
      TwoPhases(w, CheckTeardown, CheckStatus);
      assert DoPhase(w, CheckTeardown) == w;
      StatusShows(w);
    }
  }

  /** What reading a status while Connecting leaves to be seen. */
  lemma StatusShows(w: World)
    requires Settled(w.machine) && w.machine.state == Connecting
    ensures var x := DoPhase(w, CheckStatus);
            match StatusInStore(w)
            case None => x.machine == w.machine && x.prompt == w.prompt && x.logs == w.logs
            case Some(status) =>
              && x.machine.active == w.machine.active && x.prompt == w.prompt
              && x.machine.state
                 == (match status.Transition() case Set(next) => next case Hold => Connecting)
              && x.logs == if status.Transition().Hold?
                           then Apply(w.logs, Jot(w.machine.active.value.session,
                                                  UnmappedStatus(status.major, status.minor)))
                           else w.logs
  {
    PreparedFrame(w, CheckStatus);
    var (x, event) := Prepared(w, CheckStatus);
    if event.Some? {
      var status := event.value.status;
      var (y, st) := Fired(x, event.value);
      if status.Transition().Hold? {
        var c := Note(event.value.session, UnmappedStatus(status.major, status.minor));
        assert st == [c] == [c] + [];
        ExecPlain(y, c, []);
      } else {
        assert st == [];
      }
    }
  }

  /** A teardown with nothing waiting behind it never hides anything. */
  lemma BareTeardownHidesNothing(w: World, profiles: seq<Profile>, unavailable: bool)
    requires Settled(w.machine) && w.machine.awaiting.Some? && w.machine.pending.None?
    requires w.logs.WellFormed()
    ensures !Hidden(w, Step(w, Tick), profiles, unavailable)
  {
    TwoPhases(w, CheckTeardown, CheckStatus);
    var x := BareTeardown(w);
    RemoveKeepsShown(w.logs, w.machine.awaiting.value, LOG_CAPACITY);
  }

  lemma BareTeardown(w: World) returns (x: World)
    requires Settled(w.machine) && w.machine.awaiting.Some? && w.machine.pending.None?
    ensures x == DoPhase(w, CheckTeardown) && x.machine.active.None? && x.prompt == w.prompt
    ensures x.logs == w.logs || x.logs == Apply(w.logs, Remove(w.machine.awaiting.value))
    ensures x.machine.state == w.machine.state || x.machine.state == Disconnected
  {
    x := DoPhase(w, CheckTeardown);
  }

  /** Nor does one that is found to be going on. */
  lemma OngoingTeardownHidesNothing(w: World, s: Path, profiles: seq<Profile>, unavailable: bool)
    requires Settled(w.machine) && w.machine.awaiting == Some(s) && !Omitted(w.replies, s)
    ensures !Hidden(w, Step(w, Tick), profiles, unavailable)
  {
    TwoPhases(w, CheckTeardown, CheckStatus);
    assert ReadSessions(w).1 == None;
  }

  /** One that is over starts the profile waiting behind it. */
  lemma TeardownStarts(w: World, s: Path, config: Path) returns (f: World)
    requires Settled(w.machine) && w.machine.awaiting == Some(s) && w.machine.pending == Some(config)
    requires Omitted(w.replies, s)
    ensures DoPhase(w, CheckTeardown) == Exec(f, [NewTunnel(config)])
    ensures f.machine == STARTING && f.replies == w.replies[2..] && f.prompt == w.prompt
    ensures f.logs == Apply(w.logs, Remove(s))
  {
    var (r, event) := ReadSessions(w);
    assert r.replies == w.replies[1..][1..] == w.replies[2..];
    assert event == Some(SessionRemoved(s));
    f := Fired(r, SessionRemoved(s)).0;
    assert Fired(r, SessionRemoved(s)).1 == [NewTunnel(config)];
  }

  /** A tunnel that does not come leaves at most its own line. */
  lemma FailedStart(f: World, config: Path)
    requires f.machine == STARTING && !TunnelComes(f.replies)
    ensures var z := Exec(f, [NewTunnel(config)]);
            && z.machine == STARTING && z.prompt == f.prompt
            && z.logs == (match StartNote(f.replies)
                          case Some(text) => Apply(f.logs, Jot(config, text)) case None => f.logs)
  {
    var c := NewTunnel(config);
    TunnelReported(f, config);
    assert [c] == [c] + [];
    ExecPlain(f, c, []);
  }

  lemma FailedStartHides(w: World, s: Path, config: Path, profiles: seq<Profile>, unavailable: bool)
    requires Settled(w.machine) && w.machine.awaiting == Some(s) && w.machine.pending == Some(config)
    requires Omitted(w.replies, s) && !TunnelComes(w.replies[2..]) && w.logs.WellFormed()
    ensures Hidden(w, Step(w, Tick), profiles, unavailable) <==> Overlooked(w)
  {
    TwoPhases(w, CheckTeardown, CheckStatus);
    var f := TeardownStarts(w, s, config);
    FailedStart(f, config);
    RemoveKeepsShown(w.logs, s, LOG_CAPACITY);
    var z := DoPhase(w, CheckTeardown);
    assert DoPhase(z, CheckStatus) == z;
  }

  /** A tunnel that comes hides its profile whenever it leads back to the state there
      was; one that is refused, its log. */
  lemma StartHides(w: World, s: Path, config: Path, profiles: seq<Profile>, unavailable: bool)
    requires Settled(w.machine) && w.machine.awaiting == Some(s) && w.machine.pending == Some(config)
    requires Omitted(w.replies, s) && TunnelComes(w.replies[2..])
    ensures Hidden(w, Step(w, Tick), profiles, unavailable) <==> Overlooked(w)
  {
    TwoPhases(w, CheckTeardown, CheckStatus);
    var f := TeardownStarts(w, s, config);
    StartLands(f, config);
    var (p, rest) := (f.replies[1].reply.path, f.replies[2..]);
    var z := DoPhase(w, CheckTeardown);
    StartIsSeen(z, p, config, rest);
    ShownAlike(z, Fate(rest, p), p);
  }

  /** What the status read after a start leaves of it. */
  lemma StartIsSeen(z: World, p: Path, config: Path, replies: seq<Beat>)
    requires var verdict := Foretold(replies, p);
             && Judged(STARTING.(active := Some(ActiveSession(p, config))), p, verdict, z.machine)
             && z.replies == Fate(replies, p).replies
    ensures var y := DoPhase(z, CheckStatus);
            && y.machine.state == Landing(replies, p)
            && (if RefusalIn(Foretold(replies, p)).Some? then y == z && y.machine.active.None?
                else y.machine.active == Some(ActiveSession(p, config)))
  {
    if RefusalIn(Foretold(replies, p)).Some? {
      assert z.machine.active.None?;
    } else {
      StatusLands(z, p, config);
    }
  }

  lemma StatusLands(z: World, p: Path, config: Path)
    requires Settled(z.machine) && z.machine.active == Some(ActiveSession(p, config))
    ensures var y := DoPhase(z, CheckStatus);
            && y.machine.active == z.machine.active
            && y.machine.state
               == (match StatusNext(z.replies)
                   case Some(status) =>
                     (match status.Transition() case Set(next) => next case Hold => z.machine.state)
                   case None => z.machine.state)
  {
    CheckReadsStatus(z);
  }

  /** A tick changes something on show without changing the connection state if and
      only if it can be foretold to. */
  lemma TickHides(w: World, profiles: seq<Profile>, unavailable: bool)
    requires Settled(w.machine) && w.logs.WellFormed()
    ensures Hidden(w, Step(w, Tick), profiles, unavailable) <==> Overlooked(w)
  {
    var m := w.machine;
    if m.awaiting.None? {
      StatusTickHides(w, profiles, unavailable);
    } else if m.pending.None? {
      BareTeardownHidesNothing(w, profiles, unavailable);
    } else if !Omitted(w.replies, m.awaiting.value) {
      OngoingTeardownHidesNothing(w, m.awaiting.value, profiles, unavailable);
    } else if TunnelComes(w.replies[2..]) {
      StartHides(w, m.awaiting.value, m.pending.value, profiles, unavailable);
    } else {
      FailedStartHides(w, m.awaiting.value, m.pending.value, profiles, unavailable);
    }
  }

  /** A tick leaves the picture stale if and only if it is overlooked. */
  lemma TickLeavesPictureStale(sys: System)
    requires Settled(sys.world.machine) && sys.world.logs.WellFormed() && Current(sys)
    ensures !Current(Moved(sys, Hear(Tick))) <==> Overlooked(sys.world)
  {
    AfterTick(sys, Step(sys.world, Tick));
    TickHides(sys.world, sys.profiles, sys.unavailable);
  }

  /** Whatever world the tick leads to, it is published exactly if the state changed. */
  lemma AfterTick(sys: System, y: World)
    requires Current(sys)
    ensures var x := sys.(world := y);
            var told := if y.machine.state != sys.world.machine.state then x.Posting() else x;
            !Current(told) <==> Hidden(sys.world, y, sys.profiles, sys.unavailable)
  {
  }

  /** No tick along the way is overlooked. */
  ghost predicate NoneOverlooked(sys: System, moves: seq<Move>)
    requires AllPossible(sys, moves)
    decreases |moves|
  {
    moves != [] ==>
      && (moves[0] == Hear(Tick) ==> !Overlooked(sys.world))
      && NoneOverlooked(Moved(sys, moves[0]), moves[1..])
  }

  lemma {:induction false} PictureStaysCurrent(sys: System, moves: seq<Move>)
    requires AllPossible(sys, moves) && NoneOverlooked(sys, moves) && Sane(sys) && Current(sys)
    ensures Current(Played(sys, moves))
    decreases |moves|
  {
    if moves != [] {
      MoveKeepsSane(sys, moves[0]);
      OnlyTicksSpoilPicture(sys, moves[0]);
      if moves[0] == Hear(Tick) { TickLeavesPictureStale(sys); }
      PictureStaysCurrent(Moved(sys, moves[0]), moves[1..]);
    }
  }

  /** However the applet is used, as long as no tick is overlooked: whenever nothing is
      on its way to it, the popup shows exactly what is so. */
  lemma PopupShowsTheTruth(
      replies: seq<Beat>, profiles: seq<Profile>, unavailable: bool, moves: seq<Move>)
    requires AllPossible(Launched(replies, profiles, unavailable), moves)
    requires NoneOverlooked(Launched(replies, profiles, unavailable), moves)
    ensures var x := Played(Launched(replies, profiles, unavailable), moves);
            Current(x) && (x.posted == [] ==> x.app.snapshot == x.Picture())
  {
    StartupInv(replies);
    PictureStaysCurrent(Launched(replies, profiles, unavailable), moves);
  }
}
