/** One connection attempt from start to finish, and what startup does. */
module Attempts {
  import opened Prelude
  import opened StatusMap
  import opened AttentionRouting
  import opened TransitionMachine
  import opened LogBuffer
  import opened WorkerModel
  import opened Traces
  import opened Invariants
  import opened Guarantees

  /** A readiness check reports a session ready only if the backend said so. */
  lemma ReadyMeansReady(w: World, s: Path)
    ensures AskReady(w, s).1 == Some(SessionReady(s))
            <==> |w.replies| >= 2 && !w.replies[0].reply.Unreachable? && w.replies[1].reply.Done?
  {
  }

  /** What the verdict on a session's readiness leads to. */
  function Consequence(s: Path, verdict: Option<Event>): seq<Command> {
    match verdict
    case Some(SessionReady(_)) => [Connect(s)]
    case Some(CredentialsRequired(_, requests, message)) =>
      if requests == [] then []
      else (match FirstUnsupported(requests)
            case Some(reason) => [Note(s, reason), Disconnect(s)]
            case None =>
              match Route(requests[0])
              case Prompt(kind) => [OpenPrompt(s, kind, requests, message)]
              case Unsupported(_) => [])
    case _ => []
  }

  /** Commands that feed nothing back are simply carried out in order. */
  lemma {:induction false} PlainCommands(w: World, st: seq<Command>)
    requires forall i :: 0 <= i < |st| ==> !st[i].NewTunnel? && !st[i].CheckReady?
    ensures Commands(Exec(w, st).trace) == Commands(w.trace) + st
    ensures Exec(w, st).machine == w.machine
    decreases Load(st)
  {
    if st != [] {
      var (c, rest) := (st[0], st[1..]);
      assert st == [c] + rest;
      PerformFrame(w, c);
      PerformExtends(w, c);
      ExecPlain(w, c, rest);
      PlainCommands(Performed(w, c).0, rest);
      Regroup(Commands(w.trace), c, [], rest);
      assert Commands(w.trace) + [c] + [] == Commands(w.trace) + [c] && [c] + [] == [c];
    }
  }

  /** A readiness check on the active session does what its verdict calls for. */
  lemma CheckUnfolds(w: World, s: Path)
    requires w.machine.IsActive(s) && !w.machine.promptOpen
    ensures Commands(Exec(w, [CheckReady(s)]).trace)
            == Commands(w.trace) + [CheckReady(s)] + Consequence(s, Performed(w, CheckReady(s)).1)
  {
    var c := CheckReady(s);
    PerformFrame(w, c);
    PerformExtends(w, c);
    var (x, fed) := Performed(w, c);
    match fed {
      case None =>
        ExecPlain(w, c, []);
        assert [c] + [] == [c];
      case Some(e) =>
        ExecFed(w, c);
        VerdictUnfolds(x, s, e);
    }
  }

  lemma VerdictUnfolds(w: World, s: Path, e: Event)
    requires w.machine.IsActive(s) && !w.machine.promptOpen
    requires (e.SessionReady? || e.CredentialsRequired?) && e.session == s
    ensures Commands(Deliver(w, e).trace) == Commands(w.trace) + Consequence(s, Some(e))
  {
    var (y, nested) := Fired(w, e);
    assert nested == Consequence(s, Some(e));
    PlainCommands(y, nested);
  }

  lemma HearingIsNotDoing(w: World, e: Event)
    ensures Commands(Fired(w, e).0.trace) == Commands(w.trace)
  {
  }

  lemma AttemptStarts(w: World, config: Path, x: World, p: Path)
    requires Idle(w.machine)
    requires Performed(w, NewTunnel(config)) == (x, Some(SessionCreated(p, config)))
    ensures var f := Fired(x, SessionCreated(p, config)).0;
            f.machine.IsActive(p) && !f.machine.promptOpen
    ensures Commands(x.trace) == Commands(w.trace) + [NewTunnel(config)]
  {
    PerformFrame(w, NewTunnel(config));
    PerformExtends(w, NewTunnel(config));
  }

  lemma AttemptFeedsBack(w: World, config: Path, x: World, p: Path)
    requires Performed(w, NewTunnel(config)) == (x, Some(SessionCreated(p, config)))
    ensures Exec(w, [NewTunnel(config)])
            == Exec(Fired(x, SessionCreated(p, config)).0, [EnableLogForward(p), CheckReady(p)])
  {
    ExecFed(w, NewTunnel(config));
  }

  /** What a fresh session's readiness check has to say. */
  function Verdict(f: World, p: Path): Option<Event> {
    Performed(Performed(f, EnableLogForward(p)).0, CheckReady(p)).1
  }

  /** A tunnel that comes into being is logged, checked, and then, by the verdict,
      connected, asked for credentials, or refused; in that order, nothing else. */
  lemma AttemptUnfolds(w: World, config: Path, x: World, p: Path)
    requires Idle(w.machine)
    requires Performed(w, NewTunnel(config)) == (x, Some(SessionCreated(p, config)))
    ensures Commands(Exec(w, [NewTunnel(config)]).trace)
            == Commands(w.trace) + ([NewTunnel(config), EnableLogForward(p), CheckReady(p)]
               + Consequence(p, Verdict(Fired(x, SessionCreated(p, config)).0, p)))
  {
    var f := Fired(x, SessionCreated(p, config)).0;
    AttemptStarts(w, config, x, p);
    AttemptFeedsBack(w, config, x, p);
    HearingIsNotDoing(x, SessionCreated(p, config));
    AttemptCommands(f, Commands(w.trace), NewTunnel(config), p);
  }

  lemma AttemptCommands(f: World, before: seq<Command>, c: Command, p: Path)
    requires f.machine.IsActive(p) && !f.machine.promptOpen && Commands(f.trace) == before + [c]
    ensures Commands(Exec(f, [EnableLogForward(p), CheckReady(p)]).trace)
            == before + ([c, EnableLogForward(p), CheckReady(p)] + Consequence(p, Verdict(f, p)))
  {
    CreationUnfolds(f, p);
    Regroup(before, c, [EnableLogForward(p), CheckReady(p)], Consequence(p, Verdict(f, p)));
    assert [c] + [EnableLogForward(p), CheckReady(p)] == [c, EnableLogForward(p), CheckReady(p)];
  }

  lemma Regroup(before: seq<Command>, c: Command, mid: seq<Command>, tail: seq<Command>)
    ensures (before + [c]) + mid + tail == before + (([c] + mid) + tail)
  {
  }

  lemma CreationUnfolds(w: World, p: Path)
    requires w.machine.IsActive(p) && !w.machine.promptOpen
    ensures Commands(Exec(w, [EnableLogForward(p), CheckReady(p)]).trace)
            == Commands(w.trace) + [EnableLogForward(p), CheckReady(p)] + Consequence(p, Verdict(w, p))
  {
    var c := EnableLogForward(p);
    PerformFrame(w, c);
    PerformExtends(w, c);
    ExecPlain(w, c, [CheckReady(p)]);
    assert [c] + [CheckReady(p)] == [c, CheckReady(p)];
    CheckUnfolds(Performed(w, c).0, p);
    assert Commands(w.trace) + [c, CheckReady(p)] == (Commands(w.trace) + [c]) + [CheckReady(p)];
  }

  /** An answered prompt is provided, closed and checked again; only the verdict
      of that check decides what follows. */
  lemma SubmissionUnfolds(w: World, s: Path, responses: seq<InputResponse>)
    requires w.machine.IsActive(s)
    ensures var x := Fired(w, PromptSubmitted(s, responses)).0;
            var y := Performed(Performed(x, ProvideInput(s, responses)).0, ClosePrompt).0;
            Commands(Deliver(w, PromptSubmitted(s, responses)).trace)
            == Commands(w.trace) + ([ProvideInput(s, responses), ClosePrompt, CheckReady(s)]
               + Consequence(s, Performed(y, CheckReady(s)).1))
  {
    var x := Fired(w, PromptSubmitted(s, responses)).0;
    var (a, rest) := (ProvideInput(s, responses), [ClosePrompt, CheckReady(s)]);
    HearingIsNotDoing(w, PromptSubmitted(s, responses));
    assert Fired(w, PromptSubmitted(s, responses)).1 == [a] + rest;
    ProvidingUnfolds(x, s, responses);
    var y := Performed(Performed(x, a).0, ClosePrompt).0;
    Regroup(Commands(w.trace), a, rest, Consequence(s, Performed(y, CheckReady(s)).1));
    assert [a] + rest == [a, ClosePrompt, CheckReady(s)];
  }

  lemma ProvidingUnfolds(x: World, s: Path, responses: seq<InputResponse>)
    requires x.machine.IsActive(s) && !x.machine.promptOpen
    ensures var (a, rest) := (ProvideInput(s, responses), [ClosePrompt, CheckReady(s)]);
            var y := Performed(Performed(x, a).0, ClosePrompt).0;
            Commands(Exec(x, [a] + rest).trace)
            == (Commands(x.trace) + [a]) + rest + Consequence(s, Performed(y, CheckReady(s)).1)
  {
    var a := ProvideInput(s, responses);
    PerformFrame(x, a);
    PerformExtends(x, a);
    ExecPlain(x, a, [ClosePrompt, CheckReady(s)]);
    CloseAndCheckUnfolds(Performed(x, a).0, s);
  }

  lemma CloseAndCheckUnfolds(w: World, s: Path)
    requires w.machine.IsActive(s) && !w.machine.promptOpen
    ensures var y := Performed(w, ClosePrompt).0;
            Commands(Exec(w, [ClosePrompt, CheckReady(s)]).trace)
            == Commands(w.trace) + [ClosePrompt, CheckReady(s)]
               + Consequence(s, Performed(y, CheckReady(s)).1)
  {
    var c := ClosePrompt;
    PerformFrame(w, c);
    PerformExtends(w, c);
    ExecPlain(w, c, [CheckReady(s)]);
    assert [c] + [CheckReady(s)] == [c, CheckReady(s)];
    CheckUnfolds(Performed(w, c).0, s);
    assert Commands(w.trace) + [c, CheckReady(s)] == (Commands(w.trace) + [c]) + [CheckReady(s)];
  }

  // --------------------------------------------- what the user sees

  /** A status of the active session is on show as soon as it is heard, whoever
      caused it; one that nobody knows leaves the display alone and is logged. An
      open prompt is closed by exactly the statuses that show something else than
      waiting for input, and nothing else is done. */
  lemma StatusOfActiveIsShown(w: World, s: Path, status: Status)
    requires w.machine.IsActive(s) && w.machine.awaiting.None?
    ensures var x := Step(w, Signal(StatusSignal(s, status)));
            && x.machine.IsActive(s)
            && x.machine.state == (match status.Transition() case Set(next) => next case Hold => w.machine.state)
            && x.logs == (if status.Transition().Hold?
                          then Apply(w.logs, Jot(s, UnmappedStatus(status.major, status.minor))) else w.logs)
            && var closes := w.machine.promptOpen && status.Transition().Set?
                             && status.Transition().state != AuthPending;
            && x.prompt == (if closes then None else w.prompt)
            && Commands(x.trace)
               == Commands(w.trace)
                  + (if closes then [ClosePrompt]
                     else if status.Transition().Hold? then [Note(s, UnmappedStatus(status.major, status.minor))]
                     else [])
  {
    var phase := OnSignal(StatusSignal(s, status));
    OnePhase(w, phase);
    var (y, st) := Fired(Prepared(w, phase).0, StatusChanged(s, status));
    StatusBatch(w.machine, s, status);
    if st != [] {
      assert st == [st[0]] + [];
      PerformFrame(y, st[0]);
      PerformExtends(y, st[0]);
      ExecPlain(y, st[0], []);
    }
  }

  lemma {:induction false} NotesAddLines(w: World, s: Path, pairs: seq<(u32, u32)>)
    requires s in w.logs.buffers
    ensures var x := NotePairs(w, s, pairs);
            && s in x.logs.buffers
            && |x.logs.buffers[s]| == |w.logs.buffers[s]| + (|pairs| - |Recognised(pairs)|)
    decreases |pairs|
  {
    if pairs != [] { NotesAddLines(NoteOne(w, s, pairs[0]), s, pairs[1..]); }
  }

  /** A readiness check that leads nowhere says why: unless the session could not
      even be reached, its log has grown. */
  lemma StalledCheckIsExplained(w: World, s: Path)
    requires s in w.logs.buffers && AskReady(w, s).1.None?
    requires w.replies != [] && !w.replies[0].reply.Unreachable?
    ensures var x := AskReady(w, s).0;
            s in x.logs.buffers && |x.logs.buffers[s]| > |w.logs.buffers[s]|
  {
    var (queue, x) := Ask(Ask(Ask(w).1).1);
    if queue.Pairs? && queue.pairs != [] { NotesAddLines(x, s, queue.pairs); }
  }

  // --------------------------------------------- startup

  /** Adopting a session takes its status on trust and gives it no orders: at most
      a line in the log about a status nobody knows. */
  lemma AdoptionIsPassive(w: World, p: Path)
    requires w == Blank(w.replies) && AdoptOne(w, p).1
    ensures var x := AdoptOne(w, p).0;
            && x.machine.IsActive(p) && x.backend.known == {p}
            && |Commands(x.trace)| <= 1
            && forall c :: c in Commands(x.trace) ==> c.Note? && c.session == p
  {
    var x := Ask(w).1;
    var (answer, y) := Ask(x);
    var status := StatusFrom(answer).value;
    var (third, z) := Ask(Found(y, p, status));
    var config := if third.ConfigIs? then third.config else "";
    BlankWaits(w);
    BlankWaits(x);
    AdoptedInv(y, p, config, status);
    AdoptedWorld(z.Log(Adopt(p)), p, config, status);
  }

  lemma AdoptedWorld(w: World, p: Path, config: Path, status: Status)
    requires w.machine == FRESH && w.trace == Nil
    ensures var x := Deliver(w, ExternalSessionSeen(p, config, status));
            && x.machine.IsActive(p) && x.backend.known == w.backend.known
            && |Commands(x.trace)| <= 1
            && forall c :: c in Commands(x.trace) ==> c.Note? && c.session == p
  {
    var (y, st) := Fired(w, ExternalSessionSeen(p, config, status));
    if st != [] {
      PerformFrame(y, st[0]);
      PerformExtends(y, st[0]);
      assert st == [st[0]] + [];
      ExecPlain(y, st[0], []);
    }
  }

  lemma {:induction false} FirstAdoptionIsLast(w: World, paths: seq<Path>)
    requires w == Blank(w.replies)
    ensures var x := AdoptFirst(w, paths);
            if x.machine.active.None? then x == Blank(x.replies)
            else x.backend.known == {x.machine.active.value.session}
                 && x.machine.active.value.session in paths
    decreases |paths|
  {
    if paths != [] {
      var (x, adopted) := AdoptOne(w, paths[0]);
      if adopted {
        AdoptionIsPassive(w, paths[0]);
      } else {
        AdoptOneKeepsInv(w, paths[0]);
        FirstAdoptionIsLast(x, paths[1..]);
      }
    }
  }

  /** Startup takes on at most one session, and without one leaves no trace. */
  lemma StartupAdoptsAtMostOne(replies: seq<Beat>)
    ensures var w := Startup(replies);
            if w.machine.active.None? then w == Blank(w.replies)
            else w.backend.known == {w.machine.active.value.session}
  {
    var w := Blank(replies);
    var (manager, x) := Ask(w);
    var (answer, y) := Ask(x);
    BlankWaits(w);
    BlankWaits(x);
    if answer.Sessions? { FirstAdoptionIsLast(y, answer.paths); }
  }
}
