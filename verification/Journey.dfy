/** One evening with two profiles: every step is one the popup offers and the worker
    takes, and openvpn3 keeps its word throughout. It shows a prompt that never
    comes on screen, popups that close without ending anything, a form that opens
    filled in, and answers that reach a session that did not ask for them. */
module Journey {
  import opened Prelude
  import opened WireCodes
  import opened StatusMap
  import opened AttentionRouting
  import opened TransitionMachine
  import opened LogBuffer
  import opened WorkerModel
  import opened Invariants
  import opened Form
  import opened CredentialPath
  import opened Applet
  import opened Witnesses

  const HOME := Profile("/home", "Home")
  const WORK := Profile("/work", "Work")
  const PROFILES: seq<Profile> := [HOME, WORK]

  /** The session started for each profile. */
  const FIRST: Path := "/s1"
  const SECOND: Path := "/s2"

  /** Where the two of them have got to, with the script at its `k`th answer. */
  ghost predicate Stage(
      sys: System, m: MState, asking: Option<Path>, backend: Backend, answers: seq<Reply>, k: nat)
  {
    && sys.world.machine == m && sys.world.backend == backend
    && sys.world.prompt == (match asking case None => None case Some(s) => Some(PromptFor(s)))
    && Scripted(sys.world, answers, k)
    && sys.profiles == PROFILES && !sys.unavailable
    && sys.posted == [] && sys.app.snapshot == sys.Picture()
    && sys.app.connected && sys.taken == |sys.app.sent|
  }

  /** The popup shows this page, with this typed into it. */
  predicate Open(sys: System, page: Page, values: Values) {
    sys.app.popup.Some? && sys.app.page == page && sys.app.values == values
  }

  predicate Closed(sys: System) { sys.app.popup.None? && sys.app.page == MenuPage && sys.app.values == map[] }

  /** The worker takes the next command, and what it publishes arrives. */
  lemma WorkAndShow(start: System, sys: System) returns (x: System)
    requires Leads(start, sys) && sys.taken < |sys.app.sent| && sys.posted == []
    requires sys.profiles == PROFILES && !sys.unavailable
    ensures Leads(start, x)
    ensures x.world == Step(sys.world, Ui(sys.app.sent[sys.taken])) && x.taken == sys.taken + 1
    ensures x.posted == [] && x.app.snapshot == x.Picture() && x.profiles == PROFILES && !x.unavailable
    ensures x.app == Updated(sys.app, SnapshotArrived(x.Picture()))
  {
    var work := Work(PROFILES, false);
    LeadsOn(start, sys, work);
    var worked := Moved(sys, work);
    assert worked.posted == [worked.Picture()];
    LeadsOn(start, worked, Show);
    x := Moved(worked, Show);
    UpdateShows(sys.app, SnapshotArrived(x.Picture()));
  }

  /** Press something that sends one command, and let the worker take it. */
  lemma PressAndWork(start: System, sys: System, msg: Message, c: UiCommand) returns (x: System)
    requires Leads(start, sys) && Possible(sys, Press(msg)) && sys.taken == |sys.app.sent|
    requires sys.posted == [] && sys.profiles == PROFILES && !sys.unavailable
    requires Updated(sys.app, msg).sent == sys.app.sent + [c]
    ensures Leads(start, x)
    ensures x.world == Step(sys.world, Ui(c)) && x.taken == sys.taken + 1
    ensures x.posted == [] && x.app.snapshot == x.Picture() && x.profiles == PROFILES && !x.unavailable
    ensures x.app == Updated(Updated(sys.app, msg), SnapshotArrived(x.Picture()))
  {
    LeadsOn(start, sys, Press(msg));
    x := WorkAndShow(start, Moved(sys, Press(msg)));
  }

  /** Looking in before an input, with a bus that does not answer just then. */
  lemma QuietChecks(w: World, answers: seq<Reply>, k: nat) returns (x: World)
    requires Settled(w.machine) && Scripted(w, answers, k)
    requires !w.machine.TracksNothing() ==> Next(answers, k, [Unreachable])
    ensures x == DoPhase(DoPhase(w, CheckTeardown), CheckStatus)
    ensures x == w.(replies := x.replies)
    ensures Scripted(x, answers, if w.machine.TracksNothing() then k else k + 1)
  {
    x := DoPhase(DoPhase(w, CheckTeardown), CheckStatus);
    if !w.machine.TracksNothing() {
      assert answers[k] == Unreachable;
      CalmAsk(w, answers, k);
    }
  }

  // --------------------------------------------- the steps

  /** The panel button opens the popup on its menu; the worker looks in first. */
  lemma OpensMenu(
      start: System, sys: System, m: MState, asking: Option<Path>, backend: Backend,
      answers: seq<Reply>, k: nat)
    returns (x: System)
    requires Leads(start, sys) && Stage(sys, m, asking, backend, answers, k) && Closed(sys)
    requires Settled(m) && (!m.TracksNothing() ==> Next(answers, k, [Unreachable]))
    ensures Leads(start, x) && Open(x, MenuPage, map[])
    ensures Stage(x, m, asking, backend, answers, if m.TracksNothing() then k else k + 1)
  {
    x := PressAndWork(start, sys, TogglePopup, RefreshProfiles);
    ThreePhases(sys.world, CheckTeardown, CheckStatus, OnUi(RefreshProfiles));
    var w := QuietChecks(sys.world, answers, k);
  }

  /** A session asking for the password of `profile`. */
  function AskingFor(profile: Profile, s: Path): MState {
    MState(AuthPending, Some(ActiveSession(s, profile.config)), None, None, true)
  }

  lemma TakesRefresh(
      start: System, sys: System, m: MState, asking: Option<Path>, backend: Backend,
      answers: seq<Reply>, k: nat)
    returns (x: System)
    requires Leads(start, sys) && Stage(sys.(taken := |sys.app.sent|), m, asking, backend, answers, k)
    requires sys.taken + 1 == |sys.app.sent| && sys.app.sent[sys.taken] == RefreshProfiles
    requires Settled(m) && !m.TracksNothing() && Next(answers, k, [Unreachable])
    requires asking.Some?
    ensures Leads(start, x) && Stage(x, m, asking, backend, answers, k + 1)
    ensures x.app.page == sys.app.page && x.app.popup == sys.app.popup && x.app.values == sys.app.values
  {
    x := WorkAndShow(start, sys);
    ThreePhases(sys.world, CheckTeardown, CheckStatus, OnUi(RefreshProfiles));
    var w := QuietChecks(sys.world, answers, k);
  }

  /** The click that starts it all, up to the snapshot that shows the prompt. */
  lemma ClicksHome(start: System, sys: System, answers: seq<Reply>) returns (x: System)
    requires Leads(start, sys) && Stage(sys, FRESH, None, Backend({}, {}, true), answers, 1)
    requires Open(sys, MenuPage, map[])
    requires Next(answers, 1, [Done, Tunnel(FIRST), Done, Done]) && Next(answers, 5, Asking(PASSWORD))
    ensures Leads(start, x) && Open(x, AuthPage, map[])
    ensures x.taken + 1 == |x.app.sent| && x.app.sent[x.taken] == RefreshProfiles
    ensures Stage(x.(taken := |x.app.sent|), AskingFor(HOME, FIRST), Some(FIRST),
                  Backend({FIRST}, {FIRST}, true), answers, 11)
  {
    assert PROFILES[0] == HOME;
    x := PressAndWork(start, sys, PickProfile(HOME.config), SelectProfile(HOME.config));
    IdleClick(sys.world, HOME.config);
    PromptAgain(Fired(sys.world, ProfileSelected(HOME.config)).0, HOME.config, FIRST, answers, 1);
    assert {} + {FIRST} == {FIRST};
  }

  /** The first connection: its prompt brings the popup up on the form. */
  lemma PicksHome(start: System, sys: System, answers: seq<Reply>) returns (x: System)
    requires Leads(start, sys) && Stage(sys, FRESH, None, Backend({}, {}, true), answers, 1)
    requires Open(sys, MenuPage, map[])
    requires Next(answers, 1, [Done, Tunnel(FIRST), Done, Done]) && Next(answers, 5, Asking(PASSWORD))
    requires Next(answers, 11, [Unreachable])
    ensures Leads(start, x) && Open(x, AuthPage, map[])
    ensures Stage(x, AskingFor(HOME, FIRST), Some(FIRST), Backend({FIRST}, {FIRST}, true), answers, 12)
  {
    var y := ClicksHome(start, sys, answers);
    x := TakesRefresh(start, y, AskingFor(HOME, FIRST), Some(FIRST), Backend({FIRST}, {FIRST}, true),
                      answers, 11);
  }

  /** An answer is taken, and readiness is checked anew. */
  lemma SubmissionChecks(w: World, s: Path, r: InputResponse, answers: seq<Reply>, k: nat)
    returns (x: World)
    requires w.machine.IsActive(s) && Scripted(w, answers, k) && Next(answers, k, [Done, Done])
    ensures Deliver(w, PromptSubmitted(s, [r])) == Exec(x, [CheckReady(s)])
    ensures x.machine == w.machine.(state := Connecting, promptOpen := false)
    ensures x.backend == w.backend && Scripted(x, answers, k + 2)
  {
    var f := SubmissionStarts(w, s, r);
    var y := AnswerTaken(f, s, r, answers, k);
    SubmissionGoesOn(f, s, r, y);
    x := PromptCloses(y, s);
  }

  lemma SubmissionStarts(w: World, s: Path, r: InputResponse) returns (f: World)
    requires w.machine.IsActive(s)
    ensures Deliver(w, PromptSubmitted(s, [r]))
            == Exec(f, [ProvideInput(s, [r])] + [ClosePrompt, CheckReady(s)])
    ensures f == w.(machine := w.machine.(state := Connecting, promptOpen := false), trace := f.trace)
  {
    f := Fired(w, PromptSubmitted(s, [r])).0;
    assert Submitted(w.machine, s, [r]).1 == [ProvideInput(s, [r])] + [ClosePrompt, CheckReady(s)];
  }

  lemma SubmissionGoesOn(f: World, s: Path, r: InputResponse, y: World)
    requires Performed(f, ProvideInput(s, [r])) == (y, None)
    ensures Exec(f, [ProvideInput(s, [r])] + [ClosePrompt, CheckReady(s)]) == Exec(y, [ClosePrompt, CheckReady(s)])
  {
    ExecPlain(f, ProvideInput(s, [r]), [ClosePrompt, CheckReady(s)]);
  }

  /** An answer is taken and the session asks again. */
  lemma SubmissionAsksAgain(w: World, s: Path, r: InputResponse, answers: seq<Reply>, k: nat)
    returns (x: World)
    requires w.machine.IsActive(s) && Scripted(w, answers, k)
    requires Next(answers, k, [Done, Done]) && Next(answers, k + 2, Asking(PASSWORD))
    ensures Deliver(w, PromptSubmitted(s, [r])) == x
    ensures x.machine == w.machine.(state := AuthPending, promptOpen := true)
    ensures x.prompt == Some(PromptFor(s)) && x.backend == w.backend && Scripted(x, answers, k + 8)
  {
    PairMeans();
    var y := SubmissionChecks(w, s, r, answers, k);
    x := AskingRound(y, s, PASSWORD, answers, k + 2);
  }

  lemma PromptCloses(w: World, s: Path) returns (x: World)
    ensures Exec(w, [ClosePrompt, CheckReady(s)]) == Exec(x, [CheckReady(s)])
    ensures x == w.(prompt := None, trace := x.trace)
  {
    assert [ClosePrompt, CheckReady(s)] == [ClosePrompt] + [CheckReady(s)];
    ExecPlain(w, ClosePrompt, [CheckReady(s)]);
    x := Performed(w, ClosePrompt).0;
  }

  lemma AnswerTaken(w: World, s: Path, r: InputResponse, answers: seq<Reply>, k: nat) returns (x: World)
    requires Scripted(w, answers, k) && Next(answers, k, [Done, Done])
    ensures Performed(w, ProvideInput(s, [r])) == (x, None)
    ensures Scripted(x, answers, k + 2) && x == w.(replies := x.replies, trace := x.trace)
  {
    assert answers[k] == Done && answers[k + 1] == Done;
    var y := w.Saw(Executed(ProvideInput(s, [r]), w.backend.alive));
    CalmAsk(y, answers, k);
    var z := Ask(y).1.Saw(Answer(s, r));
    CalmAsk(z, answers, k + 1);
    assert [r][1..] == [];
    assert ProvideEach(Ask(z).1, s, []) == (Ask(z).1, []);
    x := Performed(w, ProvideInput(s, [r])).0;
  }

  /** The answer is not enough and a second round of questions follows at once: the
      popup has closed, and the new prompt does not bring it back. */
  lemma SubmitsInVain(start: System, sys: System, answers: seq<Reply>) returns (x: System)
    requires Leads(start, sys) && Open(sys, AuthPage, map[])
    requires Stage(sys, AskingFor(HOME, FIRST), Some(FIRST), Backend({FIRST}, {FIRST}, true), answers, 12)
    requires Next(answers, 12, [Done, Done]) && Next(answers, 14, Asking(PASSWORD))
    ensures Leads(start, x) && Closed(x)
    ensures Stage(x, AskingFor(HOME, FIRST), Some(FIRST), Backend({FIRST}, {FIRST}, true), answers, 20)
  {
    var r := InputResponse(Credentials, UserPassword, 0, "");
    assert Responses([FIELD], map[]) == [r];
    x := PressAndWork(start, sys, PressSubmit, SubmitPrompt([r]));
    OnePhase(sys.world, OnUi(SubmitPrompt([r])));
    var w := SubmissionAsksAgain(sys.world, FIRST, r, answers, 12);
  }

  /** From the menu the running session can be stopped; its prompt stays up. */
  lemma StopsHome(start: System, sys: System, answers: seq<Reply>) returns (x: System)
    requires Leads(start, sys) && Open(sys, MenuPage, map[])
    requires Stage(sys, AskingFor(HOME, FIRST), Some(FIRST), Backend({FIRST}, {FIRST}, true), answers, 21)
    requires Next(answers, 21, [Unreachable, Unreachable])
    ensures Leads(start, x) && Closed(x)
    ensures Stage(x, MState(AuthPending, None, None, Some(FIRST), true), Some(FIRST),
                  Backend({FIRST}, {FIRST}, true), answers, 23)
  {
    assert answers[21] == Unreachable && answers[22] == Unreachable;
    assert PROFILES[0] == HOME && Disconnectable(sys.app.snapshot, HOME);
    x := PressAndWork(start, sys, PickDisconnect, StopTunnel);
    var w := StopTaken(sys.world, answers, 21);
  }

  lemma StopTaken(w: World, answers: seq<Reply>, k: nat) returns (x: World)
    requires w.machine == AskingFor(HOME, FIRST) && Scripted(w, answers, k)
    requires Next(answers, k, [Unreachable, Unreachable])
    ensures x == Step(w, Ui(StopTunnel)) && Scripted(x, answers, k + 2)
    ensures x.machine == MState(AuthPending, None, None, Some(FIRST), true)
    ensures x.prompt == w.prompt && x.backend == w.backend
  {
    assert answers[k] == Unreachable && answers[k + 1] == Unreachable;
    ThreePhases(w, CheckTeardown, CheckStatus, OnUi(StopTunnel));
    var y := QuietChecks(w, answers, k);
    var (f, st) := Fired(y, DisconnectRequested);
    assert st == [Disconnect(FIRST)];
    x := HangUpGoesUnheard(f, FIRST, answers, k + 1);
  }

  lemma HangUpGoesUnheard(w: World, s: Path, answers: seq<Reply>, k: nat) returns (x: World)
    requires Scripted(w, answers, k) && Next(answers, k, [Unreachable])
    ensures Exec(w, [Disconnect(s)]) == x && Called(w, x, Disconnect(s), answers, k + 1)
  {
    assert answers[k] == Unreachable;
    CalmAsk(w.Saw(Executed(Disconnect(s), w.backend.alive)), answers, k);
    x := Performed(w, Disconnect(s)).0;
    ExecOne(w, Disconnect(s), x);
  }

  /** The other profile is picked, to start when the first session is gone. */
  lemma PicksWork(start: System, sys: System, answers: seq<Reply>) returns (x: System)
    requires Leads(start, sys) && Open(sys, MenuPage, map[])
    requires Stage(sys, MState(AuthPending, None, None, Some(FIRST), true), Some(FIRST),
                   Backend({FIRST}, {FIRST}, true), answers, 24)
    requires Next(answers, 24, [Unreachable])
    ensures Leads(start, x) && Closed(x)
    ensures Stage(x, MState(AuthPending, None, Some(WORK.config), Some(FIRST), true), Some(FIRST),
                  Backend({FIRST}, {FIRST}, true), answers, 25)
  {
    assert PROFILES[1] == WORK;
    var c := SelectProfile(WORK.config);
    x := PressAndWork(start, sys, PickProfile(WORK.config), c);
    ThreePhases(sys.world, CheckTeardown, CheckStatus, OnUi(c));
    var w := QuietChecks(sys.world, answers, 24);
  }

  // --------------------------------------------- the evening so far

  /** What the bus answers up to here. */
  predicate Opens(answers: seq<Reply>) {
    && Next(answers, 0, [Unreachable, Done, Tunnel(FIRST), Done, Done]) && Next(answers, 5, Asking(PASSWORD))
    && Next(answers, 11, [Unreachable, Done, Done]) && Next(answers, 14, Asking(PASSWORD))
    && Next(answers, 20, [Unreachable, Unreachable, Unreachable, Unreachable, Unreachable, Unreachable])
  }

  function Start(answers: seq<Reply>): System { Launched(Calmly(answers), PROFILES, false) }

  lemma Begins(answers: seq<Reply>) returns (x: System)
    requires Next(answers, 0, [Unreachable])
    ensures Leads(Start(answers), x) && Closed(x)
    ensures Stage(x, FRESH, None, Backend({}, {}, true), answers, 1)
  {
    var start := Start(answers);
    var w := FirstBreath(answers);
    LeadsNowhere(start);
    LeadsOn(start, start, Press(WorkerReady));
    var ready := Moved(start, Press(WorkerReady));
    LeadsOn(start, ready, Show);
    x := Moved(ready, Show);
  }

  /** The answers up to the second round of questions, one line at a time. */
  lemma OpeningLines(answers: seq<Reply>)
    requires Opens(answers)
    ensures Next(answers, 0, [Unreachable]) && Next(answers, 1, [Done, Tunnel(FIRST), Done, Done])
    ensures Next(answers, 11, [Unreachable]) && Next(answers, 12, [Done, Done])
    ensures Next(answers, 20, [Unreachable]) && Next(answers, 21, [Unreachable, Unreachable])
    ensures Next(answers, 23, [Unreachable]) && Next(answers, 24, [Unreachable])
    ensures Next(answers, 25, [Unreachable])
  {
    assert answers[0] == Unreachable && answers[1] == Done && answers[2] == Tunnel(FIRST)
           && answers[3] == Done && answers[4] == Done;
    assert answers[11] == Unreachable && answers[12] == Done && answers[13] == Done;
    assert answers[20] == answers[21] == answers[22] == answers[23] == answers[24] == answers[25] == Unreachable;
  }

  /** The second prompt is up and the popup shows its menu all the same. */
  lemma SecondRound(answers: seq<Reply>) returns (x: System)
    requires Opens(answers)
    ensures Leads(Start(answers), x) && Open(x, MenuPage, map[])
    ensures Stage(x, AskingFor(HOME, FIRST), Some(FIRST), Backend({FIRST}, {FIRST}, true), answers, 21)
  {
    OpeningLines(answers);
    var start := Start(answers);
    x := Begins(answers);
    x := OpensMenu(start, x, FRESH, None, Backend({}, {}, true), answers, 1);
    x := PicksHome(start, x, answers);
    x := SubmitsInVain(start, x, answers);
    x := OpensMenu(start, x, AskingFor(HOME, FIRST), Some(FIRST), Backend({FIRST}, {FIRST}, true), answers, 20);
  }

  /** A session can be left waiting behind a closed popup: after a first answer that
      was not enough, the popup is opened and closed again; nothing is sent, and the
      session and its prompt stay as they were. */
  lemma ClosingLeavesPromptWaiting(answers: seq<Reply>)
    requires Opens(answers)
    ensures exists x: System, y: System ::
              && Leads(Start(answers), x) && Leads(Start(answers), y)
              && Goes(x, Press(TogglePopup), y) && x.app.popup.Some? && y.app.popup.None?
              && y.app.sent == x.app.sent && y.taken == |y.app.sent| && y.posted == []
              && y.world.backend.sound
              && y.world.machine == AskingFor(HOME, FIRST) && y.world.prompt == Some(PromptFor(FIRST))
  {
    var x := SecondRound(answers);
    LeadsOn(Start(answers), x, Press(TogglePopup));
    var y := Moved(x, Press(TogglePopup));
    assert Leads(Start(answers), y) && Goes(x, Press(TogglePopup), y);
  }

  /** The form for the first session's prompt, filled in, with that session being
      torn down and the other profile waiting to start. */
  lemma TypesForTheWrongOne(answers: seq<Reply>, secret: string) returns (x: System)
    requires Opens(answers)
    ensures Leads(Start(answers), x) && Open(x, AuthPage, map[FIELD.Key() := secret])
    ensures Stage(x, MState(AuthPending, None, Some(WORK.config), Some(FIRST), true), Some(FIRST),
                  Backend({FIRST}, {FIRST}, true), answers, 26)
  {
    OpeningLines(answers);
    var start := Start(answers);
    var (backend, stopped) := (Backend({FIRST}, {FIRST}, true), MState(AuthPending, None, None, Some(FIRST), true));
    x := SecondRound(answers);
    x := StopsHome(start, x, answers);
    x := OpensMenu(start, x, stopped, Some(FIRST), backend, answers, 23);
    x := PicksWork(start, x, answers);
    x := OpensMenu(start, x, stopped.(pending := Some(WORK.config)), Some(FIRST), backend, answers, 25);
    x := FillsIn(start, x, secret);
  }

  lemma FillsIn(start: System, sys: System, secret: string) returns (x: System)
    requires Leads(start, sys) && Open(sys, MenuPage, map[])
    requires sys.app.snapshot == sys.Picture() && !sys.unavailable
    requires sys.world.machine.state == AuthPending && sys.world.prompt == Some(PromptFor(FIRST))
    ensures Leads(start, x) && Open(x, AuthPage, map[FIELD.Key() := secret])
    ensures x == sys.(app := x.app) && x.app.snapshot == sys.app.snapshot
    ensures x.app.sent == sys.app.sent && x.app.connected == sys.app.connected
  {
    LeadsOn(start, sys, Press(OpenAuth));
    var y := Moved(sys, Press(OpenAuth));
    assert [FIELD][0] == FIELD;
    LeadsOn(start, y, Press(FieldChanged(FIELD.Key(), secret)));
    x := Moved(y, Press(FieldChanged(FIELD.Key(), secret)));
  }

  // --------------------------------------------- how the evening can end

  const WAITING := MState(AuthPending, None, Some(WORK.config), Some(FIRST), true)

  /** The teardown completes in a world where the first session is dead. */
  lemma TeardownCompletes(w: World, answers: seq<Reply>, k: nat) returns (x: World)
    requires w.machine == WAITING && w.backend == Backend({FIRST}, {}, true) && Scripted(w, answers, k)
    requires Next(answers, k, [Done, Tunnel(SECOND), Done, Done])
    requires Next(answers, k + 4, Asking(PASSWORD))
    ensures Deliver(w, SessionRemoved(FIRST)) == x
    ensures x.machine == AskingFor(WORK, SECOND) && x.prompt == Some(PromptFor(SECOND))
    ensures x.backend == Backend({FIRST, SECOND}, {SECOND}, true) && Scripted(x, answers, k + 10)
  {
    var (f, st) := Fired(w, SessionRemoved(FIRST));
    assert st == [NewTunnel(WORK.config)];
    PromptAgain(f, WORK.config, SECOND, answers, k);
    x := Exec(f, st);
    assert {FIRST} + {SECOND} == {FIRST, SECOND} && {} + {SECOND} == {SECOND};
  }

  /** Its end, unseen as yet by anyone. */
  lemma FirstDies(start: System, sys: System, answers: seq<Reply>) returns (x: System)
    requires Leads(start, sys) && sys.world.backend == Backend({FIRST}, {FIRST}, true)
    ensures Leads(start, x) && Goes(sys, Hear(SessionDies(FIRST)), x)
    ensures x == sys.(world := sys.world.(backend := Backend({FIRST}, {}, true)))
  {
    LeadsOn(start, sys, Hear(SessionDies(FIRST)));
    OnePhase(sys.world, OnDeath(FIRST));
    x := Moved(sys, Hear(SessionDies(FIRST)));
  }

  /** The first session's form is on screen, with `secret` typed into it. */
  predicate TypedInto(y: System, secret: string) {
    && y.app.AtPrompt() && y.app.popup.Some? && y.app.snapshot.prompt == Some(PromptFor(FIRST))
    && y.app.values == map[FIELD.Key() := secret]
  }

  const REMOVAL := Signal(ManagerSignal(FIRST, true))

  /** The first session dies and its removal is heard of. */
  ghost predicate RemovalHeard(y: System, z: System) {
    exists dead :: Goes(y, Hear(SessionDies(FIRST)), dead) && Goes(dead, Hear(REMOVAL), z)
  }

  /** What removal starts, with the snapshot that tells of it on its way. */
  lemma SignalFindsOut(start: System, y: System, answers: seq<Reply>) returns (z: System)
    requires Leads(start, y) && Stage(y, WAITING, Some(FIRST), Backend({FIRST}, {FIRST}, true), answers, 26)
    requires Next(answers, 26, [Done, Tunnel(SECOND), Done, Done]) && Next(answers, 30, Asking(PASSWORD))
    ensures Leads(start, z) && RemovalHeard(y, z)
    ensures z == y.(world := z.world, posted := [z.Picture()]) && z.world.backend.sound
    ensures z.world.machine == AskingFor(WORK, SECOND) && z.world.prompt == Some(PromptFor(SECOND))
    ensures Scripted(z.world, answers, 36)
  {
    var dead := FirstDies(start, y, answers);
    var w := RemovalReported(dead.world, answers);
    LeadsOn(start, dead, Hear(REMOVAL));
    z := Moved(dead, Hear(REMOVAL));
    assert Goes(dead, Hear(REMOVAL), z);
  }

  /** A form can open filled in with what was typed into another session's: the
      removal of the first session starts the second, whose prompt takes the place
      of the first one's on the page that is open, and keeps its values. */
  lemma FormOpensFilledIn(answers: seq<Reply>, secret: string)
    requires Opens(answers) && Next(answers, 26, [Done, Tunnel(SECOND), Done, Done])
    requires Next(answers, 30, Asking(PASSWORD))
    ensures exists y: System, z: System, x: System ::
              && Leads(Start(answers), y) && Leads(Start(answers), x)
              && TypedInto(y, secret) && RemovalHeard(y, z) && Goes(z, Show, x)
              && x.world.backend.sound && x.world.machine == AskingFor(WORK, SECOND)
              && x.app.AtPrompt() && x.app.snapshot.prompt == Some(PromptFor(SECOND))
              && x.app.popup == y.app.popup && x.app.values == y.app.values
  {
    var start := Start(answers);
    var y := TypesForTheWrongOne(answers, secret);
    var z := SignalFindsOut(start, y, answers);
    var x := SnapshotArrives(start, z);
    assert Leads(start, y) && TypedInto(y, secret);
  }

  lemma SnapshotArrives(start: System, z: System) returns (x: System)
    requires Leads(start, z) && z.posted == [z.Picture()] && z.world.prompt.Some?
    requires z.app.AtPrompt()
    ensures Leads(start, x) && Goes(z, Show, x) && x.world == z.world
    ensures x.app.AtPrompt() && x.app.snapshot == z.Picture()
    ensures x.app.popup == z.app.popup && x.app.values == z.app.values
  {
    LeadsOn(start, z, Show);
    x := Moved(z, Show);
  }

  lemma RemovalReported(w: World, answers: seq<Reply>) returns (x: World)
    requires w.machine == WAITING && w.backend == Backend({FIRST}, {}, true) && Scripted(w, answers, 26)
    requires Next(answers, 26, [Done, Tunnel(SECOND), Done, Done])
    requires Next(answers, 30, Asking(PASSWORD))
    ensures x == Step(w, REMOVAL) && Scripted(x, answers, 36)
    ensures x.machine == AskingFor(WORK, SECOND) && x.prompt == Some(PromptFor(SECOND))
    ensures x.backend.sound
  {
    OnePhase(w, OnSignal(ManagerSignal(FIRST, true)));
    x := TeardownCompletes(w.Log(Remove(FIRST)), answers, 26);
  }

  /** The settle timer finds out first, and what it starts ends in the very same
      connection state. */
  lemma RemovalFoundOut(w: World, answers: seq<Reply>) returns (x: World)
    requires w.machine == WAITING && w.backend == Backend({FIRST}, {}, true) && Scripted(w, answers, 26)
    requires Next(answers, 26, [Done, Sessions([]), Done, Tunnel(SECOND), Done, Done])
    requires Next(answers, 32, Asking(PASSWORD)) && Next(answers, 38, [Unreachable, Done])
    ensures x == Step(w, Tick) && Scripted(x, answers, 39) && x.backend.sound
    ensures x.machine == AskingFor(WORK, SECOND) && x.prompt == Some(PromptFor(SECOND))
  {
    TimerLines(answers);
    x := TickStartsSecond(w, answers);
  }

  lemma TickStartsSecond(w: World, answers: seq<Reply>) returns (x: World)
    requires w.machine == WAITING && w.backend == Backend({FIRST}, {}, true) && Scripted(w, answers, 26)
    requires Next(answers, 26, [Done, Sessions([])]) && Next(answers, 28, [Done, Tunnel(SECOND), Done, Done])
    requires Next(answers, 32, Asking(PASSWORD)) && Next(answers, 38, [Unreachable])
    ensures x == Step(w, Tick) && Scripted(x, answers, 39) && x.backend.sound
    ensures x.machine == AskingFor(WORK, SECOND) && x.prompt == Some(PromptFor(SECOND))
  {
    WaitingTick(w);
    var z := ListStartsSecond(w, answers);
    x := StatusUnread(z, answers, 38);
  }

  lemma WaitingTick(w: World)
    requires w.machine == WAITING
    ensures Step(w, Tick) == DoPhase(DoPhase(w, CheckTeardown), CheckStatus)
  {
    TwoPhases(w, CheckTeardown, CheckStatus);
  }

  lemma ListStartsSecond(w: World, answers: seq<Reply>) returns (z: World)
    requires w.machine == WAITING && w.backend == Backend({FIRST}, {}, true) && Scripted(w, answers, 26)
    requires Next(answers, 26, [Done, Sessions([])]) && Next(answers, 28, [Done, Tunnel(SECOND), Done, Done])
    requires Next(answers, 32, Asking(PASSWORD))
    ensures z == DoPhase(w, CheckTeardown) && Scripted(z, answers, 38) && z.backend.sound
    ensures z.machine == AskingFor(WORK, SECOND) && z.prompt == Some(PromptFor(SECOND))
  {
    var y := ListOmitsFirst(w, answers, 26);
    z := TeardownCompletes(y, answers, 28);
  }

  lemma TimerLines(answers: seq<Reply>)
    requires Next(answers, 26, [Done, Sessions([]), Done, Tunnel(SECOND), Done, Done])
    requires Next(answers, 38, [Unreachable, Done])
    ensures Next(answers, 26, [Done, Sessions([])]) && Next(answers, 28, [Done, Tunnel(SECOND), Done, Done])
    ensures Next(answers, 38, [Unreachable])
  {
    assert answers[26] == Done && answers[27] == Sessions([]) && answers[28] == Done
           && answers[29] == Tunnel(SECOND) && answers[30] == Done && answers[31] == Done;
    assert answers[38] == Unreachable;
  }

  lemma StatusUnread(w: World, answers: seq<Reply>, k: nat) returns (x: World)
    requires w.machine.active.Some? && Scripted(w, answers, k) && Next(answers, k, [Unreachable])
    ensures x == DoPhase(w, CheckStatus) && x == w.(replies := x.replies) && Scripted(x, answers, k + 1)
  {
    assert answers[k] == Unreachable;
    CalmAsk(w, answers, k);
    x := DoPhase(w, CheckStatus);
  }

  lemma ListOmitsFirst(w: World, answers: seq<Reply>, k: nat) returns (x: World)
    requires w.machine == WAITING && w.backend == Backend({FIRST}, {}, true) && Scripted(w, answers, k)
    requires Next(answers, k, [Done, Sessions([])])
    ensures DoPhase(w, CheckTeardown) == Deliver(x, SessionRemoved(FIRST))
    ensures x == w.(logs := x.logs, replies := x.replies) && Scripted(x, answers, k + 2)
  {
    assert answers[k] == Done && answers[k + 1] == Sessions([]);
    CalmAsk(w, answers, k);
    CalmAsk(Ask(w).1, answers, k + 1);
    x := ReadSessions(w).0;
  }

  /** From `y`, where the first session's form is filled in, through `z` to `x`: what
      was typed is handed to the second session. */
  ghost predicate Astray(y: System, z: System, x: System, secret: string) {
    && TypedInto(y, secret) && z.app == y.app && z.world.backend.sound && SentOff(z, x)
    && AnswersIn(x.world.trace) == AnswersIn(z.world.trace) + [Provided(SECOND, 1, 1, 0, secret)]
  }

  /** The first session dies and a tick goes by. */
  ghost predicate TimerFoundOut(y: System, z: System) {
    exists dead :: Goes(y, Hear(SessionDies(FIRST)), dead) && Goes(dead, Hear(Tick), z)
  }

  /** Connect is pressed and the worker takes it. */
  ghost predicate SentOff(z: System, x: System) {
    exists pressed ::
      Goes(z, Press(PressSubmit), pressed) && Goes(pressed, Work(PROFILES, false), x)
  }

  /** An answer can reach a session that did not ask for it: when the settle timer is
      what completes the teardown, the connection state is AuthPending before and
      after, so no snapshot is published to tell of the second session. */
  lemma AnswerGoesAstray(answers: seq<Reply>, secret: string)
    requires Opens(answers) && Next(answers, 26, [Done, Sessions([]), Done, Tunnel(SECOND), Done, Done])
    requires Next(answers, 32, Asking(PASSWORD)) && Next(answers, 38, [Unreachable, Done])
    ensures exists y: System, z: System, x: System ::
              && Leads(Start(answers), y) && Leads(Start(answers), x)
              && TimerFoundOut(y, z) && Astray(y, z, x, secret) && z.posted == [] && !Current(z)
  {
    var start := Start(answers);
    var y := TypesForTheWrongOne(answers, secret);
    var z := TimerFindsOut(start, y, answers);
    assert Next(answers, 39, [Done]) by { assert answers[39] == Done; }
    var x := SubmitsToSecond(start, z, answers, 39, secret);
    assert Leads(start, y) && Leads(start, x) && Astray(y, z, x, secret);
    assert z.Newest().prompt != z.Picture().prompt;
  }

  /** So it can when Connect is pressed while the snapshot that would have told of the
      second session is still on its way. */
  lemma AnswerCrossesSnapshot(answers: seq<Reply>, secret: string)
    requires Opens(answers) && Next(answers, 26, [Done, Tunnel(SECOND), Done, Done])
    requires Next(answers, 30, Asking(PASSWORD)) && Next(answers, 36, [Done])
    ensures exists y: System, z: System, x: System ::
              && Leads(Start(answers), y) && Leads(Start(answers), x)
              && RemovalHeard(y, z) && Astray(y, z, x, secret) && z.posted == [z.Picture()]
  {
    var start := Start(answers);
    var y := TypesForTheWrongOne(answers, secret);
    var z := SignalFindsOut(start, y, answers);
    var x := SubmitsToSecond(start, z, answers, 36, secret);
    assert Leads(start, y) && Leads(start, x) && Astray(y, z, x, secret);
  }

  /** Closing the popup can leave everything as it was although the prompt's page is
      the one on screen: the prompt outlived its session, the cancel means nothing to
      the worker, and the profile that waits behind the teardown goes on waiting. */
  lemma ClosingGoesUnheard(answers: seq<Reply>, secret: string)
    requires Opens(answers)
    ensures exists y: System, x: System ::
              && Leads(Start(answers), y) && Leads(Start(answers), x)
              && TypedInto(y, secret) && ClosedAndTaken(y, x) && x.world.backend.sound
              && x.world.machine == y.world.machine == WAITING
              && x.world.prompt == y.world.prompt == Some(PromptFor(FIRST))
  {
    var y := TypesForTheWrongOne(answers, secret);
    var x := ClosesInVain(Start(answers), y);
    assert TypedInto(y, secret);
  }

  /** The popup is closed and the worker takes what it sent. */
  ghost predicate ClosedAndTaken(y: System, x: System) {
    exists pressed ::
      Goes(y, Press(TogglePopup), pressed) && Goes(pressed, Work(PROFILES, false), x)
  }

  lemma ClosesInVain(start: System, y: System) returns (x: System)
    requires Leads(start, y) && y.app.connected && y.app.popup.Some? && y.taken == |y.app.sent|
    requires Guarded(y.app) && y.app.AtPrompt() && !PromptIsLive(y.world)
    ensures Leads(start, x) && ClosedAndTaken(y, x) && x.world == y.world.(trace := x.world.trace)
  {
    ClosingEndsAttempt(y, TogglePopup, PROFILES, false);
    LeadsOn(start, y, Press(TogglePopup));
    var pressed := Moved(y, Press(TogglePopup));
    LeadsOn(start, pressed, Work(PROFILES, false));
    x := Moved(pressed, Work(PROFILES, false));
    assert Goes(y, Press(TogglePopup), pressed) && Goes(pressed, Work(PROFILES, false), x);
  }

  lemma TimerFindsOut(start: System, y: System, answers: seq<Reply>) returns (z: System)
    requires Leads(start, y) && Stage(y, WAITING, Some(FIRST), Backend({FIRST}, {FIRST}, true), answers, 26)
    requires Next(answers, 26, [Done, Sessions([]), Done, Tunnel(SECOND), Done, Done])
    requires Next(answers, 32, Asking(PASSWORD)) && Next(answers, 38, [Unreachable, Done])
    ensures Leads(start, z) && TimerFoundOut(y, z)
    ensures z == y.(world := z.world) && z.world.machine == AskingFor(WORK, SECOND)
    ensures z.world.prompt == Some(PromptFor(SECOND)) && z.world.backend.sound
    ensures Scripted(z.world, answers, 39)
  {
    var dead := FirstDies(start, y, answers);
    var w := RemovalFoundOut(dead.world, answers);
    LeadsOn(start, dead, Hear(Tick));
    z := Moved(dead, Hear(Tick));
    assert Goes(dead, Hear(Tick), z);
  }

  lemma SubmitsToSecond(start: System, z: System, answers: seq<Reply>, k: nat, secret: string)
    returns (x: System)
    requires Leads(start, z) && Open(z, AuthPage, map[FIELD.Key() := secret])
    requires z.app.snapshot.prompt == Some(PromptFor(FIRST)) && z.app.connected && z.taken == |z.app.sent|
    requires z.world.machine == AskingFor(WORK, SECOND) && z.world.prompt == Some(PromptFor(SECOND))
    requires Scripted(z.world, answers, k) && Next(answers, k, [Done])
    ensures Leads(start, x) && SentOff(z, x)
    ensures AnswersIn(x.world.trace) == AnswersIn(z.world.trace) + [Provided(SECOND, 1, 1, 0, secret)]
  {
    assert answers[k] == Done && z.world.replies[0] == Beat(answers[k], {});
    LeadsOn(start, z, Press(PressSubmit));
    var pressed := Moved(z, Press(PressSubmit));
    var work := Work(PROFILES, false);
    SubmissionFollowsWorker(pressed, Responses([FIELD], z.app.values), PROFILES, false);
    LeadsOn(start, pressed, work);
    x := Moved(pressed, work);
    assert Goes(z, Press(PressSubmit), pressed) && Goes(pressed, work, x);
    AnswerOf(secret);
  }

  lemma AnswerOf(secret: string)
    ensures Answers(SECOND, Responses([FIELD], map[FIELD.Key() := secret]))
            == [Provided(SECOND, 1, 1, 0, secret)]
  {
  }

  /** There are answers for either ending. */
  lemma ScriptsExist()
    ensures exists answers ::
              && Opens(answers) && Next(answers, 26, [Done, Tunnel(SECOND), Done, Done])
              && Next(answers, 30, Asking(PASSWORD)) && Next(answers, 36, [Done])
    ensures exists answers ::
              && Opens(answers) && Next(answers, 26, [Done, Sessions([]), Done, Tunnel(SECOND), Done, Done])
              && Next(answers, 32, Asking(PASSWORD)) && Next(answers, 38, [Unreachable, Done])
  {
    var opening := [Unreachable, Done, Tunnel(FIRST), Done, Done] + Asking(PASSWORD)
                   + [Unreachable, Done, Done] + Asking(PASSWORD)
                   + [Unreachable, Unreachable, Unreachable, Unreachable, Unreachable, Unreachable];
    var a := opening + [Done, Tunnel(SECOND), Done, Done] + Asking(PASSWORD) + [Done];
    var b := opening + [Done, Sessions([]), Done, Tunnel(SECOND), Done, Done] + Asking(PASSWORD)
             + [Unreachable, Done];
    assert |opening| == 26 && Opens(opening);
    OpensPersists(opening, a);
    OpensPersists(opening, b);
    assert Next(a, 26, [Done, Tunnel(SECOND), Done, Done]) && Next(a, 30, Asking(PASSWORD));
    assert Next(a, 36, [Done]);
    assert Next(b, 26, [Done, Sessions([]), Done, Tunnel(SECOND), Done, Done])
           && Next(b, 32, Asking(PASSWORD)) && Next(b, 38, [Unreachable, Done]);
  }

  lemma OpensPersists(opening: seq<Reply>, answers: seq<Reply>)
    requires Opens(opening) && |opening| == 26 && |answers| >= 26 && answers[..26] == opening
    ensures Opens(answers)
  {
    assert forall i :: 0 <= i < 26 ==> answers[i] == opening[i];
  }
}
