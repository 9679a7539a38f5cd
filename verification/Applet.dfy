/** Worker and popup together: what is pressed reaches the worker in the order it
    was sent, and what the worker publishes reaches the popup in the order it was
    published; in between, either side goes on with what it has. */
module Applet {
  import opened Prelude
  import opened StatusMap
  import opened AttentionRouting
  import opened TransitionMachine
  import opened WorkerModel
  import opened Traces
  import opened Invariants
  import opened Endings
  import opened Form
  import opened CredentialPath

  /** `taken` of the commands the popup has sent have reached the worker, and the
      snapshots in `posted` have yet to reach the popup. */
  datatype System = System(
    world: World, app: AppState, taken: nat, posted: seq<Snapshot>,
    profiles: seq<Profile>, unavailable: bool)
  {
    function Picture(): Snapshot { Published(world, profiles, unavailable) }

    function Posting(): System { this.(posted := posted + [Picture()]) }

    /** What the popup shows once everything published has reached it. */
    function Newest(): Snapshot { if posted == [] then app.snapshot else posted[|posted| - 1] }
  }

  /** One thing that happens: the user or the desktop does something, the worker
      takes the next command (and finds these profiles, if it lists them), it takes
      some other input, or the popup shows the next snapshot. */
  datatype Move =
    | Press(msg: Message)
    | Work(profiles: seq<Profile>, unavailable: bool)
    | Hear(input: Input)
    | Show

  /** Snapshots come from the worker alone and commands from the popup alone. */
  predicate Possible(sys: System, move: Move) {
    match move
    case Press(msg) => !msg.SnapshotArrived? && Offered(sys.app, msg)
    case Work(_, _) => sys.taken < |sys.app.sent|
    case Hear(input) => !input.Ui?
    case Show => sys.posted != []
  }

  /** Commands that may leave the worker with another list of profiles. */
  predicate Relists(c: UiCommand) {
    c.RefreshProfiles? || c.Import? || c.RenameProfile? || c.DeleteProfile?
  }

  /** The settle timer publishes only what has changed the connection state. */
  predicate Publishes(input: Input, before: World, after: World) {
    match input
    case Tick => after.machine.state != before.machine.state
    case SessionDies(_) => false
    case _ => true
  }

  function Moved(sys: System, move: Move): System
    requires Possible(sys, move)
  {
    match move
    case Press(msg) => sys.(app := Updated(sys.app, msg))
    case Work(profiles, unavailable) =>
      var c := sys.app.sent[sys.taken];
      var x := sys.(taken := sys.taken + 1, world := Step(sys.world, Ui(c)));
      (if Relists(c) then x.(profiles := profiles, unavailable := unavailable) else x).Posting()
    case Hear(input) =>
      var x := sys.(world := Step(sys.world, input));
      if Publishes(input, sys.world, x.world) then x.Posting() else x
    case Show => sys.(app := Updated(sys.app, SnapshotArrived(sys.posted[0])), posted := sys.posted[1..])
  }

  /** `move` can be made and takes `sys` to `x`. */
  predicate Goes(sys: System, move: Move, x: System) { Possible(sys, move) && x == Moved(sys, move) }

  /** The worker has started and published what it found. */
  function Launched(replies: seq<Beat>, profiles: seq<Profile>, unavailable: bool): System {
    System(Startup(replies), EMPTY_APP, 0, [], profiles, unavailable).Posting()
  }

  predicate AllPossible(sys: System, moves: seq<Move>)
    decreases |moves|
  {
    moves != [] ==> Possible(sys, moves[0]) && AllPossible(Moved(sys, moves[0]), moves[1..])
  }

  function Played(sys: System, moves: seq<Move>): System
    requires AllPossible(sys, moves)
    decreases |moves|
  {
    if moves == [] then sys else Played(Moved(sys, moves[0]), moves[1..])
  }

  /** `x` can come of `sys`. */
  ghost predicate Leads(sys: System, x: System) {
    exists moves :: AllPossible(sys, moves) && Played(sys, moves) == x
  }

  lemma LeadsNowhere(sys: System)
    ensures Leads(sys, sys)
  {
    assert AllPossible(sys, []) && Played(sys, []) == sys;
  }

  lemma LeadsOn(sys: System, x: System, move: Move)
    requires Leads(sys, x) && Possible(x, move)
    ensures Leads(sys, Moved(x, move))
  {
    var moves :| AllPossible(sys, moves) && Played(sys, moves) == x;
    PlayedAppends(sys, moves, move);
  }

  lemma {:induction false} PlayedAppends(sys: System, moves: seq<Move>, move: Move)
    requires AllPossible(sys, moves) && Possible(Played(sys, moves), move)
    ensures AllPossible(sys, moves + [move])
    ensures Played(sys, moves + [move]) == Moved(Played(sys, moves), move)
    decreases |moves|
  {
    var more := moves + [move];
    if moves == [] {
      assert more == [move] && more[1..] == [];
    } else {
      assert more[1..] == moves[1..] + [move];
      PlayedAppends(Moved(sys, moves[0]), moves[1..], move);
    }
  }

  // --------------------------------------------- over every use of the applet

  /** What holds of worker and popup together, however they are used. */
  ghost predicate Sane(sys: System) {
    && Inv(sys.world, None, [])
    && Guarded(sys.app)
    && sys.taken <= |sys.app.sent|
  }

  lemma UpdateOnlySends(a: AppState, msg: Message)
    ensures |Updated(a, msg).sent| >= |a.sent|
  {
  }

  lemma MessageKeepsGuarded(a: AppState, msg: Message)
    requires Guarded(a) && Offered(a, msg)
    ensures Guarded(Updated(a, msg)) && |Updated(a, msg).sent| >= |a.sent|
  {
    UpdateOnlySends(a, msg);
    OneKeepsGuarded(a, msg);
  }

  lemma StepKeepsInv(w: World, input: Input)
    requires Inv(w, None, [])
    ensures Inv(Step(w, input), None, [])
  {
    PhasesKeepInv(w, Phases(w, input));
  }

  lemma MoveKeepsSane(sys: System, move: Move)
    requires Sane(sys) && Possible(sys, move)
    ensures Sane(Moved(sys, move))
  {
    MoveOfWorker(sys, move);
    MoveOfPopup(sys, move);
    match move {
      case Work(_, _) => StepKeepsInv(sys.world, Ui(sys.app.sent[sys.taken]));
      case Hear(input) => StepKeepsInv(sys.world, input);
      case _ =>
    }
  }

  /** What a move does to the worker's side. */
  lemma MoveOfWorker(sys: System, move: Move)
    requires Possible(sys, move)
    ensures var x := Moved(sys, move);
            match move
            case Work(_, _) => x.world == Step(sys.world, Ui(sys.app.sent[sys.taken]))
            case Hear(input) => x.world == Step(sys.world, input)
            case _ => x.world == sys.world
  {
  }

  /** And to the popup's. */
  lemma MoveOfPopup(sys: System, move: Move)
    requires Possible(sys, move) && Guarded(sys.app) && sys.taken <= |sys.app.sent|
    ensures var x := Moved(sys, move);
            Guarded(x.app) && x.taken <= |x.app.sent|
  {
    match move {
      case Press(msg) => MessageKeepsGuarded(sys.app, msg);
      case Show => MessageKeepsGuarded(sys.app, SnapshotArrived(sys.posted[0]));
      case _ =>
    }
  }

  lemma {:induction false} MovesKeepSane(sys: System, moves: seq<Move>)
    requires Sane(sys) && AllPossible(sys, moves)
    ensures Sane(Played(sys, moves))
    decreases |moves|
  {
    if moves != [] {
      MoveKeepsSane(sys, moves[0]);
      MovesKeepSane(Moved(sys, moves[0]), moves[1..]);
    }
  }

  /** However worker and popup are used together, whenever signals and ticks come and
      however long commands and snapshots are under way: the worker keeps its whole
      invariant, and nothing typed is held unless the popup is open at a prompt. */
  lemma EveryUseIsSane(
      replies: seq<Beat>, profiles: seq<Profile>, unavailable: bool, moves: seq<Move>)
    requires AllPossible(Launched(replies, profiles, unavailable), moves)
    ensures Sane(Played(Launched(replies, profiles, unavailable), moves))
  {
    StartupInv(replies);
    MovesKeepSane(Launched(replies, profiles, unavailable), moves);
  }

  // --------------------------------------------- what the popup shows

  /** Once everything published has arrived, the popup shows what is so. */
  predicate Current(sys: System) { sys.Newest() == sys.Picture() }

  lemma UpdateShows(a: AppState, msg: Message)
    ensures Updated(a, msg).snapshot == if msg.SnapshotArrived? then msg.snapshot else a.snapshot
  {
  }

  /** Whatever was on its way before, the worker leaves the picture current after
      every command and every signal; and only the settle timer can spoil it. */
  lemma OnlyTicksSpoilPicture(sys: System, move: Move)
    requires Possible(sys, move)
    ensures move.Work? || (move.Hear? && move.input.Signal?) ==> Current(Moved(sys, move))
    ensures Current(sys) && !Current(Moved(sys, move)) ==> move == Hear(Tick)
  {
    match move {
      case Press(msg) => UpdateShows(sys.app, msg);
      case Work(_, _) =>
      case Hear(input) =>
        if input.SessionDies? { OnePhase(sys.world, OnDeath(input.path)); }
      case Show => UpdateShows(sys.app, SnapshotArrived(sys.posted[0]));
    }
  }

  // --------------------------------------------- leaving a prompt

  /** The attempt on `s` was ended between `w` and `x`. */
  predicate EndedBetween(w: World, x: World, s: Path) {
    && Commands(x.trace) == Commands(w.trace) + [ClosePrompt, Disconnect(s)]
    && Ended(x.machine) && x.machine.state == Failed && x.prompt == None
  }

  /** The worker shows a prompt for the session that is running. */
  predicate PromptIsLive(w: World) { w.prompt.Some? && w.machine.IsActive(w.prompt.value.session) }

  /** A cancel, whenever the worker takes it, ends the attempt if and only if the
      prompt the worker then shows is for the session that is running. */
  lemma CancelNeedsLivePrompt(w: World)
    ensures var x := Step(w, Ui(CancelPrompt));
            if PromptIsLive(w) then EndedBetween(w, x, w.prompt.value.session)
            else x == w.(trace := x.trace) && Commands(x.trace) == Commands(w.trace)
  {
    OnePhase(w, OnUi(CancelPrompt));
    if PromptIsLive(w) { CancelDeed(w, w.prompt.value.session); }
  }

  /** The three ways out of an open popup: its button, a click elsewhere, and, where
      there is one, the form's own Cancel. */
  predicate Leaves(a: AppState, msg: Message) {
    && a.popup.Some?
    && (msg == TogglePopup || msg == PopupClosed(a.popup.value) || (msg == PressCancel && Offered(a, msg)))
  }

  /** Each of them closes the popup, forgets what was typed, and, once the worker has
      taken what was sent, ends the attempt if and only if a prompt's page was on
      screen and the worker's prompt is for the session that is running; if not, the
      session, its prompt and whatever waits behind it are left as they were. */
  lemma ClosingEndsAttempt(
      sys: System, msg: Message, profiles: seq<Profile>, unavailable: bool)
    requires sys.app.connected && Guarded(sys.app) && sys.taken == |sys.app.sent|
    requires Leaves(sys.app, msg)
    ensures var pressed := Moved(sys, Press(msg));
            var work := Work(profiles, unavailable);
            var x := if Possible(pressed, work) then Moved(pressed, work) else pressed;
            && (Possible(pressed, work) <==> sys.app.AtPrompt())
            && pressed.app.popup.None? && pressed.app.page == MenuPage && pressed.app.values == map[]
            && ((exists s :: EndedBetween(sys.world, x.world, s))
                <==> sys.app.AtPrompt() && PromptIsLive(sys.world))
            && (sys.app.AtPrompt() && PromptIsLive(sys.world) ==>
                  EndedBetween(sys.world, x.world, sys.world.prompt.value.session))
            && (!(sys.app.AtPrompt() && PromptIsLive(sys.world)) ==>
                  x.world == sys.world.(trace := x.world.trace))
  {
    LeavingShuts(sys.app, msg);
    CancelNeedsLivePrompt(sys.world);
    if sys.app.AtPrompt() {
      assert Updated(sys.app, msg).sent[sys.taken] == CancelPrompt;
      LeftWorld(sys.world);
    }
  }

  lemma LeavingShuts(a: AppState, msg: Message)
    requires a.connected && Guarded(a) && Leaves(a, msg)
    ensures var b := Updated(a, msg);
            && b.popup.None? && b.page == MenuPage && b.values == map[]
            && b.sent == a.sent + if a.AtPrompt() then [CancelPrompt] else []
  {
    if msg != PressCancel { ClosingCancelsOnlyAtPrompt(a); }
  }

  /** An attempt ends, between a world and the one after a cancel, at most for the
      session whose prompt is live. */
  lemma LeftWorld(w: World)
    ensures var x := Step(w, Ui(CancelPrompt));
            (exists s :: EndedBetween(w, x, s)) <==> PromptIsLive(w)
  {
    CancelNeedsLivePrompt(w);
    if !PromptIsLive(w) {
      var x := Step(w, Ui(CancelPrompt));
      forall s
        ensures !EndedBetween(w, x, s)
      {
        assert |Commands(w.trace) + [ClosePrompt, Disconnect(s)]| > |Commands(w.trace)|;
      }
    }
  }

  // --------------------------------------------- where answers go

  lemma UnheardSubmission(w: World, responses: seq<InputResponse>)
    requires !PromptIsLive(w) || w.replies == [] || w.replies[0].reply.Unreachable?
    ensures AnswersIn(Step(w, Ui(SubmitPrompt(responses))).trace) == AnswersIn(w.trace)
  {
    OnePhase(w, OnUi(SubmitPrompt(responses)));
    if PromptIsLive(w) {
      var s := w.prompt.value.session;
      var (f, st) := Fired(w, PromptSubmitted(s, responses));
      var c, rest := ProvideInput(s, responses), [ClosePrompt, CheckReady(s)];
      assert st == [c] + rest;
      AnswersThenNoMore(f, c, rest);
    }
  }

  /** Where answers go: whatever form they were typed into and however long they were
      on their way, to the session that the worker shows a prompt for when it takes
      them, all of them in order, if that session is running and can be reached; and
      otherwise nowhere. */
  lemma SubmissionFollowsWorker(
      sys: System, responses: seq<InputResponse>, profiles: seq<Profile>, unavailable: bool)
    requires Possible(sys, Work(profiles, unavailable))
    requires sys.app.sent[sys.taken] == SubmitPrompt(responses)
    ensures var w := sys.world;
            AnswersIn(Moved(sys, Work(profiles, unavailable)).world.trace)
            == AnswersIn(w.trace)
               + if PromptIsLive(w) && w.replies != [] && !w.replies[0].reply.Unreachable?
                 then Answers(w.prompt.value.session, responses) else []
  {
    var w := sys.world;
    if PromptIsLive(w) && w.replies != [] && !w.replies[0].reply.Unreachable? {
      SubmitReachesBackend(w, w.prompt.value.session, responses);
    } else {
      UnheardSubmission(w, responses);
    }
  }
}
