/** Where the code falls short of what one would expect, and exactly when. */
module Shortfalls {
  import opened Prelude
  import opened WireCodes
  import opened StatusMap
  import opened AttentionRouting
  import opened TransitionMachine
  import opened WorkerModel
  import opened Traces
  import opened Invariants
  import opened Guarantees
  import opened Attempts
  import opened Endings

  // --------------------------------------------- a tunnel that never starts

  /** The bus will hand out a tunnel on the next request for one. */
  predicate TunnelComes(replies: seq<Beat>) {
    |replies| >= 2 && !replies[0].reply.Unreachable? && replies[1].reply.Tunnel?
  }

  lemma {:induction false} ExecKeepsTracking(w: World, st: seq<Command>)
    requires !w.machine.TracksNothing()
    requires forall i :: 0 <= i < |st| ==> !st[i].NewTunnel?
    ensures !Exec(w, st).machine.TracksNothing()
    decreases Load(st)
  {
    if st != [] {
      PerformFrame(w, st[0]);
      var (x, fed) := Performed(w, st[0]);
      match fed {
        case None => ExecKeepsTracking(x, st[1..]);
        case Some(e) =>
          FeedbackIsLighter(w, st[0]);
          FeedbackBatch(w, st[0], st[1..]);
          var (y, nested) := Fired(x, e);
          LoadAdds(nested, st[1..]);
          ExecKeepsTracking(y, nested + st[1..]);
      }
    }
  }

  lemma TunnelReported(w: World, config: Path)
    ensures Performed(w, NewTunnel(config)).1.Some? <==> TunnelComes(w.replies)
  {
  }

  /** Starting a tunnel with nothing tracked leaves a session being tracked if and
      only if the backend hands out a tunnel; if it does not, nothing tells the
      machine. */
  lemma TunnelOrNothing(w: World, config: Path)
    requires w.machine.TracksNothing()
    ensures var x := Exec(w, [NewTunnel(config)]);
            && (!x.machine.TracksNothing() <==> TunnelComes(w.replies))
            && (!TunnelComes(w.replies) ==> x.machine == w.machine)
  {
    var c := NewTunnel(config);
    PerformFrame(w, c);
    TunnelReported(w, config);
    var (x, fed) := Performed(w, c);
    if fed.Some? {
      ExecFed(w, c);
      var (z, nested) := Fired(x, fed.value);
      QuietReaction(x.machine, fed.value);
      ExecKeepsTracking(z, nested);
    } else {
      assert [c] == [c] + [];
      ExecPlain(w, c, []);
    }
  }

  /** So picking a profile with nothing tracked, and likewise the end of a teardown
      that a profile was waiting for, leads to a session if and only if the backend
      hands out a tunnel. If it does not, the display is left at Connecting with no
      session behind it and nothing wanted. */
  lemma FailedTunnelStrandsDisplay(w: World, config: Path)
    ensures w.machine.TracksNothing() ==>
              var x := Deliver(w, ProfileSelected(config));
              && (!x.machine.TracksNothing() <==> TunnelComes(w.replies))
              && (!TunnelComes(w.replies) ==> x.machine == w.machine.(state := Connecting))
    ensures w.machine.awaiting.Some? && w.machine.active.None? && w.machine.pending == Some(config) ==>
              var x := Deliver(w, SessionRemoved(w.machine.awaiting.value));
              && (!x.machine.TracksNothing() <==> TunnelComes(w.replies))
              && (!TunnelComes(w.replies) ==> x.machine == FRESH.(state := Connecting))
  {
    if w.machine.TracksNothing() {
      TunnelOrNothing(Fired(w, ProfileSelected(config)).0, config);
    } else if w.machine.awaiting.Some? && w.machine.active.None? && w.machine.pending == Some(config) {
      var (y, st) := Fired(w, SessionRemoved(w.machine.awaiting.value));
      assert st == [NewTunnel(config)];
      TunnelOrNothing(y, config);
    }
  }

  function Ticks(n: nat): seq<Input> { if n == 0 then [] else [Tick] + Ticks(n - 1) }

  /** And there it stays: with nothing tracked, no number of ticks moves the machine
      and none of them lets the settle timer go idle. */
  lemma {:induction false} StrandedTimerNeverIdles(w: World, n: nat)
    requires w.machine.TracksNothing() && w.machine.state == Connecting
    ensures var x := Run(w, Ticks(n));
            x == w && InFlight(x.machine)
    decreases n
  {
    if n > 0 {
      TwoPhases(w, CheckTeardown, CheckStatus);
      assert Step(w, Tick) == w;
      assert Ticks(n)[1..] == Ticks(n - 1);
      StrandedTimerNeverIdles(w, n - 1);
    }
  }

  // --------------------------------------------- a removal that is missed

  /** What the bus would say if a session's status were read next. */
  function StatusNext(replies: seq<Beat>): Option<Status> {
    if |replies| >= 2 && !replies[0].reply.Unreachable? then StatusFrom(replies[1].reply) else None
  }

  /** And if it were read now, of the active session. */
  function StatusInStore(w: World): Option<Status> {
    if w.machine.active.Some? then StatusNext(w.replies) else None
  }

  /** Reading the active session's status moves the machine by what it says alone. */
  lemma CheckReadsStatus(w: World)
    requires Settled(w.machine)
    ensures DoPhase(w, CheckStatus).machine
            == match StatusInStore(w)
               case Some(status) =>
                 React(w.machine, StatusChanged(w.machine.active.value.session, status)).0
               case None => w.machine
  {
    PreparedFrame(w, CheckStatus);
    var (x, event) := Prepared(w, CheckStatus);
    if event.Some? {
      var (y, st) := Fired(x, event.value);
      StatusBatch(x.machine, event.value.session, event.value.status);
      PlainCommands(y, st);
    }
  }

  /** With no teardown outstanding a tick moves the machine only by the status it
      reads from the active session itself; the session list is not consulted. */
  lemma TickReadsOnlyStatus(w: World)
    requires Settled(w.machine) && w.machine.awaiting.None?
    ensures Step(w, Tick).machine
            == match StatusInStore(w)
               case Some(status) =>
                 if InFlight(w.machine)
                 then React(w.machine, StatusChanged(w.machine.active.value.session, status)).0
                 else w.machine
               case None => w.machine
  {
    TwoPhases(w, CheckTeardown, CheckStatus);
    assert DoPhase(w, CheckTeardown) == w;
    CheckReadsStatus(w);
  }

  lemma TickKeepsActive(w: World)
    requires Settled(w.machine) && w.machine.active.Some?
    ensures var x := Step(w, Tick);
            Settled(x.machine) && x.machine.active == w.machine.active
  {
    TickReadsOnlyStatus(w);
  }

  /** The removal of the active session is only ever learned from a signal: no
      number of ticks lets it go, whatever the bus answers to any of them, a
      session list without it or a status that says it is over included. */
  lemma {:induction false} TicksMissRemovalOfActive(w: World, n: nat)
    requires Settled(w.machine) && w.machine.active.Some?
    ensures Run(w, Ticks(n)).machine.active == w.machine.active
    decreases n
  {
    if n > 0 {
      TickKeepsActive(w);
      assert Ticks(n)[1..] == Ticks(n - 1);
      TicksMissRemovalOfActive(Step(w, Tick), n - 1);
    }
  }

  /** When a session is reported gone, whether it was the active one or the one
      being torn down, nothing closes a prompt that is up for it. With nothing
      waiting to be started the prompt then stays up, with no session left to
      answer to, over any inputs in which no profile is picked: neither cancelling
      nor submitting it ever takes it down. */
  lemma RemovalLeavesPromptUp(w: World, s: Path, more: seq<Input>)
    requires w.machine.Tracks(s) && Settled(w.machine)
    requires forall i :: 0 <= i < |more| ==> !Selects(more[i])
    ensures ClosePrompt !in React(w.machine, SessionRemoved(s)).1
    ensures w.machine.pending.None? ==>
              var x := Deliver(w, SessionRemoved(s));
              && x.machine.TracksNothing() && !x.machine.promptOpen
              && Run(x, more).prompt == w.prompt && Commands(Run(x, more).trace) == Commands(w.trace)
  {
    if w.machine.pending.None? { EndedStaysEnded(Deliver(w, SessionRemoved(s)), more); }
  }

  // --------------------------------------------- codes nobody knows

  /** A queued pair whose code this build knows but has no prompt for. */
  predicate Refused(pair: (u32, u32)) {
    DecodePair(pair.0, pair.1).Some? && Route(DecodePair(pair.0, pair.1).value).Unsupported?
  }

  /** A queued pair whose code this build does not know. */
  predicate Unknown(pair: (u32, u32)) { DecodePair(pair.0, pair.1).None? }

  lemma {:induction false} RecognisedRefusals(pairs: seq<(u32, u32)>)
    ensures FirstUnsupported(Recognised(pairs)).Some? <==> exists pair :: pair in pairs && Refused(pair)
  {
    if pairs != [] {
      RecognisedRefusals(pairs[1..]);
      assert forall pair :: pair in pairs <==> pair == pairs[0] || pair in pairs[1..];
      var rest := Recognised(pairs[1..]);
      if Unknown(pairs[0]) {
        assert Recognised(pairs) == rest;
      } else {
        var r := DecodePair(pairs[0].0, pairs[0].1).value;
        assert Recognised(pairs) == [r] + rest && Recognised(pairs)[1..] == rest;
        assert Refused(pairs[0]) <==> Route(r).Unsupported?;
        assert pairs[0] in pairs;
      }
    }
  }

  /** The next readiness check will fail with `pairs` queued. */
  predicate Queued(replies: seq<Beat>, pairs: seq<(u32, u32)>) {
    && |replies| >= 3 && !replies[0].reply.Unreachable? && !replies[1].reply.Done?
    && replies[2].reply == Pairs(pairs)
  }

  /** The commands that checking the active session's readiness comes to. */
  function CheckedBatch(w: World, s: Path): seq<Command> {
    var cs := Commands(Exec(w, [CheckReady(s)]).trace);
    if |cs| >= |Commands(w.trace)| then cs[|Commands(w.trace)|..] else []
  }

  /** A failed readiness check ends the attempt if and only if some queued request
      is known and has no prompt. So the promise that any request that cannot be
      answered ends it is kept exactly when every queued code is known, or some
      known one has no prompt all the same; a code nobody knows is passed over. */
  lemma UnanswerableEndsAttempt(w: World, s: Path, pairs: seq<(u32, u32)>)
    requires w.machine.IsActive(s) && !w.machine.promptOpen && Queued(w.replies, pairs)
    ensures var ended := Disconnect(s) in CheckedBatch(w, s);
            && (ended <==> exists pair :: pair in pairs && Refused(pair))
            && (((exists pair :: pair in pairs && (Unknown(pair) || Refused(pair))) ==> ended)
                <==> (forall pair :: pair in pairs ==> !Unknown(pair))
                     || (exists pair :: pair in pairs && Refused(pair)))
  {
    BatchOfQueue(w, s, pairs);
    RecognisedRefusals(pairs);
    RefusalEnds(s, Recognised(pairs));
  }

  /** What a failed check with these requests understood leads to. */
  function Understood(s: Path, requests: seq<Request>): Option<Event> {
    if requests == [] then None else Some(CredentialsRequired(s, requests, ""))
  }

  lemma BatchOfQueue(w: World, s: Path, pairs: seq<(u32, u32)>)
    requires w.machine.IsActive(s) && !w.machine.promptOpen && Queued(w.replies, pairs)
    ensures CheckedBatch(w, s) == [CheckReady(s)] + Consequence(s, Understood(s, Recognised(pairs)))
  {
    CheckUnfolds(w, s);
    QueueVerdict(w, s, pairs);
    TailOf(Commands(w.trace), CheckReady(s), Consequence(s, Understood(s, Recognised(pairs))));
  }

  lemma TailOf(before: seq<Command>, c: Command, tail: seq<Command>)
    ensures (before + [c] + tail)[|before|..] == [c] + tail
  {
  }

  lemma RefusalEnds(s: Path, requests: seq<Request>)
    ensures Disconnect(s) in [CheckReady(s)] + Consequence(s, Understood(s, requests))
            <==> FirstUnsupported(requests).Some?
  {
    var batch := Consequence(s, Understood(s, requests));
    match FirstUnsupported(requests) {
      case Some(reason) => assert batch[1] == Disconnect(s);
      case None => assert forall c :: c in batch ==> c.OpenPrompt?;
    }
  }

  lemma QueueVerdict(w: World, s: Path, pairs: seq<(u32, u32)>)
    requires Queued(w.replies, pairs)
    ensures Performed(w, CheckReady(s)).1 == Understood(s, Recognised(pairs))
  {
    var x := Ask(w.Saw(Executed(CheckReady(s), w.backend.alive))).1;
    var (ready, y) := Ask(x);
    assert ready == w.replies[1].reply;
    assert Ask(y).0 == w.replies[2].reply;
    PerformFrame(w, CheckReady(s));
  }
}
