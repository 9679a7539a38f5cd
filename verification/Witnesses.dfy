/** Particular runs: that the assumptions about openvpn3 can be met, and that what
    falls short does so in runs that can happen. */
module Witnesses {
  import opened Prelude
  import opened WireCodes
  import opened StatusMap
  import opened AttentionRouting
  import opened TransitionMachine
  import opened WorkerModel
  import opened Traces
  import opened Invariants
  import opened Guarantees

  // --------------------------------------------- following a script

  /** These answers, with nobody dying before any of them. */
  function Calmly(answers: seq<Reply>): seq<Beat> {
    seq(|answers|, i requires 0 <= i < |answers| => Beat(answers[i], {}))
  }

  /** The bus is about to give the answers from the `k`th on. */
  predicate Scripted(w: World, answers: seq<Reply>, k: nat) {
    k <= |answers| && w.replies == Calmly(answers[k..])
  }

  /** These come next in the script. */
  predicate Next(answers: seq<Reply>, k: nat, part: seq<Reply>) {
    k + |part| <= |answers| && forall j :: k <= j < k + |part| ==> answers[j] == part[j - k]
  }

  lemma CalmAsk(w: World, answers: seq<Reply>, k: nat)
    requires Scripted(w, answers, k) && k < |answers|
    ensures var x := w.(replies := Calmly(answers[k + 1..]));
            Ask(w) == (answers[k], x) && Scripted(x, answers, k + 1)
  {
    assert w.backend.alive - {} == w.backend.alive;
    assert w.replies[1..] == Calmly(answers[k + 1..]);
  }

  /** `x` is `w` some answers and log lines later, with another command seen. */
  predicate Called(w: World, x: World, c: Command, answers: seq<Reply>, k: nat) {
    && Scripted(x, answers, k)
    && x == w.(replies := x.replies, trace := Snoc(w.trace, Executed(c, w.backend.alive)))
  }

  lemma TunnelOpens(w: World, config: Path, s: Path, answers: seq<Reply>, k: nat) returns (x: World)
    requires Scripted(w, answers, k) && Next(answers, k, [Done, Tunnel(s)])
    ensures Performed(w, NewTunnel(config)) == (x, Some(SessionCreated(s, config)))
    ensures Scripted(x, answers, k + 2) && x.machine == w.machine && x.prompt == w.prompt
    ensures x.backend == Backend(w.backend.known + {s}, w.backend.alive + {s},
                                 w.backend.sound && s !in w.backend.known)
    ensures Commands(x.trace) == Commands(w.trace) + [NewTunnel(config)]
  {
    var y := w.Saw(Executed(NewTunnel(config), w.backend.alive));
    CalmAsk(y, answers, k);
    CalmAsk(Ask(y).1, answers, k + 1);
    assert answers[k] == Done && answers[k + 1] == Tunnel(s);
    x := Performed(w, NewTunnel(config)).0;
  }

  lemma ForwardingWorks(w: World, s: Path, answers: seq<Reply>, k: nat) returns (x: World)
    requires Scripted(w, answers, k) && Next(answers, k, [Done, Done])
    ensures Performed(w, EnableLogForward(s)) == (x, None)
    ensures Called(w, x, EnableLogForward(s), answers, k + 2)
    ensures Commands(x.trace) == Commands(w.trace) + [EnableLogForward(s)]
  {
    var y := w.Saw(Executed(EnableLogForward(s), w.backend.alive));
    CalmAsk(y, answers, k);
    CalmAsk(Ask(y).1, answers, k + 1);
    assert answers[k] == Done && answers[k + 1] == Done;
    x := Performed(w, EnableLogForward(s)).0;
  }

  lemma CreationChecks(w: World, config: Path, s: Path, x: World, y: World, f: World)
    requires Performed(w, NewTunnel(config)) == (x, Some(SessionCreated(s, config)))
    requires y == Fired(x, SessionCreated(s, config)).0 && Performed(y, EnableLogForward(s)) == (f, None)
    ensures Exec(w, [NewTunnel(config)]) == Exec(f, [CheckReady(s)])
  {
    ExecFed(w, NewTunnel(config));
    ExecPlain(y, EnableLogForward(s), [CheckReady(s)]);
    assert [EnableLogForward(s)] + [CheckReady(s)] == [EnableLogForward(s), CheckReady(s)];
  }

  /** A tunnel comes up and its log is forwarded; its readiness is asked next. */
  lemma TunnelRound(w: World, config: Path, s: Path, answers: seq<Reply>, k: nat) returns (f: World)
    requires Scripted(w, answers, k) && Next(answers, k, [Done, Tunnel(s), Done, Done])
    ensures Exec(w, [NewTunnel(config)]) == Exec(f, [CheckReady(s)])
    ensures Scripted(f, answers, k + 4) && f.prompt == w.prompt
    ensures f.machine
            == w.machine.(state := Connecting, active := Some(ActiveSession(s, config)), pending := None)
    ensures f.backend == Backend(w.backend.known + {s}, w.backend.alive + {s},
                                 w.backend.sound && s !in w.backend.known)
    ensures Commands(f.trace) == Commands(w.trace) + [NewTunnel(config), EnableLogForward(s)]
  {
    assert answers[k] == Done && answers[k + 1] == Tunnel(s)
           && answers[k + 2] == Done && answers[k + 3] == Done;
    var x := TunnelOpens(w, config, s, answers, k);
    var y := Fired(x, SessionCreated(s, config)).0;
    f := ForwardingWorks(y, s, answers, k + 2);
    CreationChecks(w, config, s, x, y, f);
    assert (Commands(w.trace) + [NewTunnel(config)]) + [EnableLogForward(s)]
           == Commands(w.trace) + [NewTunnel(config), EnableLogForward(s)];
  }

  lemma CheckSucceeds(w: World, s: Path, answers: seq<Reply>, k: nat) returns (x: World)
    requires Scripted(w, answers, k) && Next(answers, k, [Done, Done])
    ensures Performed(w, CheckReady(s)) == (x, Some(SessionReady(s)))
    ensures Called(w, x, CheckReady(s), answers, k + 2)
    ensures Commands(x.trace) == Commands(w.trace) + [CheckReady(s)]
  {
    assert answers[k] == Done && answers[k + 1] == Done;
    var y := w.Saw(Executed(CheckReady(s), w.backend.alive));
    CalmAsk(y, answers, k);
    CalmAsk(Ask(y).1, answers, k + 1);
    x := Performed(w, CheckReady(s)).0;
  }

  lemma ConnectWorks(w: World, s: Path, answers: seq<Reply>, k: nat) returns (x: World)
    requires Scripted(w, answers, k) && Next(answers, k, [Done, Done])
    ensures Performed(w, Connect(s)) == (x, None)
    ensures Called(w, x, Connect(s), answers, k + 2)
    ensures Commands(x.trace) == Commands(w.trace) + [Connect(s)]
  {
    assert answers[k] == Done && answers[k + 1] == Done;
    var y := w.Saw(Executed(Connect(s), w.backend.alive));
    CalmAsk(y, answers, k);
    CalmAsk(Ask(y).1, answers, k + 1);
    x := Performed(w, Connect(s)).0;
  }

  /** A session found ready is connected next. */
  lemma ReadinessConnects(w: World, s: Path, x: World)
    requires w.machine.IsActive(s) && x.machine == w.machine
    requires Performed(w, CheckReady(s)) == (x, Some(SessionReady(s)))
    ensures Exec(w, [CheckReady(s)]) == Exec(Fired(x, SessionReady(s)).0, [Connect(s)])
    ensures var f := Fired(x, SessionReady(s)).0;
            && f.machine == w.machine.(state := Connecting) && f.backend == x.backend
            && f.replies == x.replies && Commands(f.trace) == Commands(x.trace)
  {
    ExecFed(w, CheckReady(s));
  }

  lemma ExecOne(w: World, c: Command, x: World)
    requires Performed(w, c) == (x, None)
    ensures Exec(w, [c]) == x
  {
    assert [c] == [c] + [];
    ExecPlain(w, c, []);
  }

  /** A session that is ready at once is connected. */
  lemma ReadyRound(w: World, s: Path, answers: seq<Reply>, k: nat)
    requires w.machine.IsActive(s) && Scripted(w, answers, k) && Next(answers, k, [Done, Done, Done, Done])
    ensures var x := Exec(w, [CheckReady(s)]);
            && x.machine == w.machine.(state := Connecting) && x.backend == w.backend
            && Commands(x.trace) == Commands(w.trace) + [CheckReady(s), Connect(s)]
  {
    assert answers[k] == Done && answers[k + 1] == Done && answers[k + 2] == Done && answers[k + 3] == Done;
    var x := CheckSucceeds(w, s, answers, k);
    ReadinessConnects(w, s, x);
    var f := Fired(x, SessionReady(s)).0;
    var y := ConnectWorks(f, s, answers, k + 2);
    ExecOne(f, Connect(s), y);
    assert (Commands(w.trace) + [CheckReady(s)]) + [Connect(s)]
           == Commands(w.trace) + [CheckReady(s), Connect(s)];
  }

  // --------------------------------------------- the first click of a run

  /** Startup that finds nothing and the first click, answered from the script. */
  lemma FirstClick(config: Path, s: Path, answers: seq<Reply>) returns (f: World)
    requires Next(answers, 0, [Unreachable, Done, Tunnel(s), Done, Done])
    ensures After(Calmly(answers), [Ui(SelectProfile(config))]) == Exec(f, [CheckReady(s)])
    ensures Scripted(f, answers, 5) && f.prompt == None && f.backend == Backend({s}, {s}, true)
    ensures f.machine == MState(Connecting, Some(ActiveSession(s, config)), None, None, false)
    ensures Commands(f.trace) == [NewTunnel(config), EnableLogForward(s)]
  {
    FirstLines(answers, s);
    var w := FirstBreath(answers);
    OneStep(w, Ui(SelectProfile(config)));
    IdleClick(w, config);
    f := TunnelRound(Fired(w, ProfileSelected(config)).0, config, s, answers, 1);
  }

  lemma FirstLines(answers: seq<Reply>, s: Path)
    requires Next(answers, 0, [Unreachable, Done, Tunnel(s), Done, Done])
    ensures Next(answers, 0, [Unreachable]) && Next(answers, 1, [Done, Tunnel(s), Done, Done])
  {
    assert answers[0] == Unreachable && answers[1] == Done && answers[2] == Tunnel(s)
           && answers[3] == Done && answers[4] == Done;
  }

  lemma OneStep(w: World, input: Input)
    ensures Run(w, [input]) == Step(w, input)
  {
    assert Run(w, [input]) == Run(Step(w, input), []);
  }

  /** With nothing tracked, a click on a profile goes straight to its tunnel. */
  lemma IdleClick(w: World, config: Path)
    requires w.machine.TracksNothing()
    ensures Step(w, Ui(SelectProfile(config)))
            == Exec(Fired(w, ProfileSelected(config)).0, [NewTunnel(config)])
  {
    ThreePhases(w, CheckTeardown, CheckStatus, OnUi(SelectProfile(config)));
  }

  /** A worker that could not reach the session manager at startup. */
  lemma FirstBreath(answers: seq<Reply>) returns (w: World)
    requires Next(answers, 0, [Unreachable])
    ensures w == Startup(Calmly(answers)) && w == Blank(w.replies) && Scripted(w, answers, 1)
  {
    assert answers[0] == Unreachable && answers[0..] == answers;
    CalmAsk(Blank(Calmly(answers)), answers, 0);
    w := Startup(Calmly(answers));
  }

  /** A backend that keeps its word does bring a session up. */
  lemma SoundRunsExist(config: Path, s: Path)
    ensures var replies := Calmly([Unreachable, Done, Tunnel(s), Done, Done, Done, Done, Done, Done]);
            var w := After(replies, [Ui(SelectProfile(config))]);
            && w.backend.sound && w.backend.alive == {s} && w.machine.IsActive(s)
            && Commands(w.trace) == [NewTunnel(config), EnableLogForward(s), CheckReady(s), Connect(s)]
  {
    var answers := [Unreachable, Done, Tunnel(s), Done, Done, Done, Done, Done, Done];
    var f := FirstClick(config, s, answers);
    ReadyRound(f, s, answers, 5);
  }

  // --------------------------------------------- rounds of questions

  /** A session that is not ready, has `pairs` queued, and one item behind the one
      kind of request this build understands among them. */
  function Asking(pairs: seq<(u32, u32)>): seq<Reply> {
    [Done, Error(""), Pairs(pairs), Done, Ids([0]), Item(0, "", "", true)]
  }

  const PASSWORD: seq<(u32, u32)> := [(1, 1)]
  const WANTED: seq<Request> := [(Credentials, UserPassword)]
  const FIELD := PromptField(Credentials, UserPassword, 0, "", "", true)

  function PromptFor(s: Path): PromptSpec { PromptSpec(s, UserPasswordPrompt, "", [FIELD]) }

  function Opening(s: Path): Command { OpenPrompt(s, UserPasswordPrompt, WANTED, "") }

  /** A failed check with `pairs` queued, of which some are understood. */
  lemma CheckAsks(w: World, s: Path, pairs: seq<(u32, u32)>, answers: seq<Reply>, k: nat)
    returns (x: World)
    requires Scripted(w, answers, k) && Next(answers, k, [Done, Error(""), Pairs(pairs)])
    requires Recognised(pairs) != []
    ensures Performed(w, CheckReady(s)) == (x, Some(CredentialsRequired(s, Recognised(pairs), "")))
    ensures Scripted(x, answers, k + 3) && x.(logs := w.logs) == w.(replies := x.replies, trace := x.trace)
    ensures Commands(x.trace) == Commands(w.trace) + [CheckReady(s)]
  {
    assert answers[k] == Done && answers[k + 1] == Error("") && answers[k + 2] == Pairs(pairs);
    var y := w.Saw(Executed(CheckReady(s), w.backend.alive));
    CalmAsk(y, answers, k);
    CalmAsk(Ask(y).1, answers, k + 1);
    var z := Ask(Ask(y).1).1;
    CalmAsk(z, answers, k + 2);
    NotePairsFrame(Ask(z).1, s, pairs);
    x := Performed(w, CheckReady(s)).0;
  }

  /** One queue with one item makes a form with one field. */
  lemma PromptOpens(w: World, s: Path, answers: seq<Reply>, k: nat) returns (x: World)
    requires Scripted(w, answers, k) && Next(answers, k, [Done, Ids([0]), Item(0, "", "", true)])
    ensures Exec(w, [Opening(s)]) == x
    ensures Scripted(x, answers, k + 3)
    ensures x == w.(prompt := Some(PromptFor(s)), replies := x.replies, trace := x.trace)
    ensures Commands(x.trace) == Commands(w.trace) + [Opening(s)]
  {
    assert answers[k] == Done && answers[k + 1] == Ids([0]) && answers[k + 2] == Item(0, "", "", true);
    var y := w.Saw(Executed(Opening(s), w.backend.alive));
    OneField(y, answers, k);
    x := Performed(w, Opening(s)).0;
    assert [Opening(s)] == [Opening(s)] + [];
    ExecPlain(w, Opening(s), []);
  }

  lemma OneField(w: World, answers: seq<Reply>, k: nat)
    requires Scripted(w, answers, k) && Next(answers, k, [Done, Ids([0]), Item(0, "", "", true)])
    ensures var (fields, x) := DrainAll(w, WANTED);
            fields == [FIELD] && Scripted(x, answers, k + 3) && x == w.(replies := x.replies)
  {
    assert answers[k] == Done && answers[k + 1] == Ids([0]) && answers[k + 2] == Item(0, "", "", true);
    CalmAsk(w, answers, k);
    var x := Ask(w).1;
    CalmAsk(x, answers, k + 1);
    var y := Ask(x).1;
    CalmAsk(y, answers, k + 2);
    var r: Request := (Credentials, UserPassword);
    assert FetchAll(Ask(y).1, r, []) == ([], Ask(y).1);
    assert [0][1..] == [] && WANTED[1..] == [];
    assert FetchAll(y, r, [0]) == ([FIELD] + [], Ask(y).1);
    assert Drain(w, r).0 == [FIELD] && Drain(w, r).1 == Ask(y).1;
    assert DrainAll(Ask(y).1, []) == ([], Ask(y).1);
    assert DrainAll(w, WANTED) == ([FIELD] + [], Ask(y).1);
  }

  lemma PairMeans()
    ensures Recognised(PASSWORD) == WANTED && Recognised([(1, 1), (1, 42)]) == WANTED
  {
    var unknown: seq<(u32, u32)> := [(1, 42)];
    var pairs: seq<(u32, u32)> := [(1, 1), (1, 42)];
    var known: seq<(u32, u32)> := [(1, 1)];
    assert known[1..] == [] && unknown[1..] == [] && pairs[1..] == unknown;
    assert Recognised(unknown) == [];
    assert Recognised(known) == WANTED;
  }

  lemma AskingLines(answers: seq<Reply>, k: nat, pairs: seq<(u32, u32)>)
    requires Next(answers, k, Asking(pairs))
    ensures Next(answers, k, [Done, Error(""), Pairs(pairs)])
    ensures Next(answers, k + 3, [Done, Ids([0]), Item(0, "", "", true)])
  {
    assert answers[k] == Done && answers[k + 1] == Error("") && answers[k + 2] == Pairs(pairs)
           && answers[k + 3] == Done && answers[k + 4] == Ids([0])
           && answers[k + 5] == Item(0, "", "", true);
  }

  lemma WantingOpens(w: World, s: Path, y: World) returns (z: World)
    requires y.machine.IsActive(s) && !y.machine.promptOpen
    requires Performed(w, CheckReady(s)) == (y, Some(CredentialsRequired(s, WANTED, "")))
    ensures Exec(w, [CheckReady(s)]) == Exec(z, [Opening(s)])
    ensures z == y.(machine := y.machine.(state := AuthPending, promptOpen := true), trace := z.trace)
    ensures Commands(z.trace) == Commands(y.trace)
  {
    ExecFed(w, CheckReady(s));
    z := Fired(y, CredentialsRequired(s, WANTED, "")).0;
    assert Asked(y.machine, s, WANTED, "").1 == [Opening(s)];
  }

  /** The user is asked for what is understood of `pairs`. */
  lemma AskingRound(w: World, s: Path, pairs: seq<(u32, u32)>, answers: seq<Reply>, k: nat)
    returns (x: World)
    requires w.machine.IsActive(s) && !w.machine.promptOpen && Recognised(pairs) == WANTED
    requires Scripted(w, answers, k) && Next(answers, k, Asking(pairs))
    ensures Exec(w, [CheckReady(s)]) == x
    ensures x.machine == w.machine.(state := AuthPending, promptOpen := true)
    ensures x.prompt == Some(PromptFor(s)) && x.backend == w.backend && Scripted(x, answers, k + 6)
    ensures Commands(x.trace) == Commands(w.trace) + [CheckReady(s), Opening(s)]
  {
    AskingLines(answers, k, pairs);
    var y := CheckAsks(w, s, pairs, answers, k);
    var z := WantingOpens(w, s, y);
    x := PromptOpens(z, s, answers, k + 3);
    assert (Commands(w.trace) + [CheckReady(s)]) + [Opening(s)]
           == Commands(w.trace) + [CheckReady(s), Opening(s)];
  }

  /** A run that asks the user for a password although another queued request will
      never be answered: the session is not ended, it is left waiting. */
  lemma PromptBesideUnknownCode(config: Path, s: Path, answers: seq<Reply>)
    requires Next(answers, 0, [Unreachable, Done, Tunnel(s), Done, Done])
    requires Next(answers, 5, Asking([(1, 1), (1, 42)]))
    ensures var w := After(Calmly(answers), [Ui(SelectProfile(config))]);
            && w.backend.sound && w.machine.IsActive(s) && w.machine.state == AuthPending
            && Commands(w.trace) == [NewTunnel(config), EnableLogForward(s), CheckReady(s), Opening(s)]
  {
    PairMeans();
    var f := FirstClick(config, s, answers);
    var w := AskingRound(f, s, [(1, 1), (1, 42)], answers, 5);
  }

  /** Startup, the first click, and a prompt for the session it started. */
  lemma FirstPrompt(config: Path, s: Path, answers: seq<Reply>) returns (x: World)
    requires Next(answers, 0, [Unreachable, Done, Tunnel(s), Done, Done]) && Next(answers, 5, Asking(PASSWORD))
    ensures After(Calmly(answers), [Ui(SelectProfile(config))]) == x
    ensures x.machine == MState(AuthPending, Some(ActiveSession(s, config)), None, None, true)
    ensures x.prompt == Some(PromptFor(s)) && x.backend == Backend({s}, {s}, true)
    ensures Scripted(x, answers, 11)
  {
    var f := FirstClick(config, s, answers);
    PairMeans();
    x := AskingRound(f, s, PASSWORD, answers, 5);
  }

  /** The session dies on its own and the backend says so. */
  lemma DeathReported(w: World, s: Path)
    requires w.machine.Tracks(s) && Settled(w.machine) && w.machine.pending.None?
    ensures var x := Step(Step(w, SessionDies(s)), Signal(ManagerSignal(s, true)));
            && x.machine == Removed(w.machine, s).0 && x.prompt == w.prompt && x.replies == w.replies
            && x.backend == w.backend.(alive := w.backend.alive - {s})
  {
    OnePhase(w, OnDeath(s));
    OnePhase(w.Lost({s}), OnSignal(ManagerSignal(s, true)));
  }

  lemma TwoSteps(w: World, a: Input, b: Input)
    ensures Run(w, [a, b]) == Step(Step(w, a), b)
  {
    assert [a, b][1..] == [b];
    OneStep(Step(w, a), b);
  }

  lemma PromptAgain(w: World, config: Path, s: Path, answers: seq<Reply>, k: nat)
    requires Idle(w.machine) && Scripted(w, answers, k) && s !in w.backend.known
    requires Next(answers, k, [Done, Tunnel(s), Done, Done]) && Next(answers, k + 4, Asking(PASSWORD))
    ensures var x := Exec(w, [NewTunnel(config)]);
            && x.machine == MState(AuthPending, Some(ActiveSession(s, config)), None, None, true)
            && x.prompt == Some(PromptFor(s)) && Scripted(x, answers, k + 10)
            && x.backend == Backend(w.backend.known + {s}, w.backend.alive + {s}, w.backend.sound)
  {
    PairMeans();
    var f := TunnelRound(w, config, s, answers, k);
    var x := AskingRound(f, s, PASSWORD, answers, k + 4);
  }

  /** A run that leaves a prompt up with nothing behind it: the session dies while
      the user is being asked. Picking another profile then puts a second prompt
      where the first still is. */
  lemma StalePromptHappens(config: Path, s: Path, other: Path, n: Path, answers: seq<Reply>)
    requires n != s
    requires Next(answers, 0, [Unreachable, Done, Tunnel(s), Done, Done]) && Next(answers, 5, Asking(PASSWORD))
    requires Next(answers, 11, [Done, Tunnel(n), Done, Done]) && Next(answers, 15, Asking(PASSWORD))
    ensures var w := After(Calmly(answers), [Ui(SelectProfile(config))]);
            var x := Run(w, [SessionDies(s), Signal(ManagerSignal(s, true))]);
            var y := Step(x, Ui(SelectProfile(other)));
            && x.backend.sound && x.machine.TracksNothing() && x.prompt == Some(PromptFor(s))
            && y.backend.sound && y.machine.IsActive(n) && y.prompt == Some(PromptFor(n))
  {
    var w := FirstPrompt(config, s, answers);
    DeathReported(w, s);
    TwoSteps(w, SessionDies(s), Signal(ManagerSignal(s, true)));
    var x := Run(w, [SessionDies(s), Signal(ManagerSignal(s, true))]);
    IdleClick(x, other);
    PromptAgain(Fired(x, ProfileSelected(other)).0, other, n, answers, 11);
  }
}
