/** From what is so to what can be seen and pressed, and back: the picture the worker
    publishes, the menu that is made of it, and what pressing it does. */
module Display {
  import opened Prelude
  import opened StatusMap
  import opened AttentionRouting
  import opened TransitionMachine
  import opened LogBuffer
  import opened WorkerModel
  import opened Traces
  import opened Invariants
  import opened Guarantees
  import opened Calls
  import opened Adoption
  import opened Endings
  import opened Form
  import opened Applet

  /** A session is up or on its way up for this profile. */
  predicate Running(w: World, config: Path) {
    && w.machine.active.Some? && w.machine.active.value.config == config
    && w.machine.state != Disconnected && w.machine.state != Failed
  }

  predicate IsListed(profiles: seq<Profile>, config: Path) {
    exists p :: p in profiles && p.config == config
  }

  /** What the menu offers, in terms of the worker: disconnecting what is running and
      connecting everything else that is listed, the credentials of a prompt that is
      waited on, and the log of a failure; and nothing while openvpn3 is away. */
  lemma MenuOffersWhatIsSo(w: World, profiles: seq<Profile>, config: Path)
    ensures var s := Published(w, profiles, false);
            && (OnMenu(s, PickProfile(config)) <==> IsListed(profiles, config) && !Running(w, config))
            && (OnMenu(s, PickDisconnect) <==> exists p :: p in profiles && Running(w, p.config))
            && (OnMenu(s, OpenAuth) <==> w.machine.state == AuthPending && w.prompt.Some?)
            && (OnMenu(s, OpenLog) <==> w.machine.state == Failed)
            && (OnMenu(s, PickDismiss) <==> w.machine.state == Failed)
            && (forall msg :: !OnMenu(Published(w, profiles, true), msg))
  {
    var s := Published(w, profiles, false);
    forall p | p in profiles
      ensures Disconnectable(s, p) <==> Running(w, p.config)
    {
    }
  }

  /** The published log is the last thousand lines of the session on show, and
      nothing at all where there are none. */
  lemma PublishedLogIsLatest(w: World, profiles: seq<Profile>, unavailable: bool, s: Path)
    requires w.logs.mostRecent == Some(s)
    ensures var log := Published(w, profiles, unavailable).log;
            if w.logs.Lines(s).Some? && w.logs.Lines(s).value != [] then
              var lines := w.logs.Lines(s).value;
              && log.Some? && log.value <= lines[|lines| - |log.value|..]
              && |log.value| == (if |lines| < 1000 then |lines| else 1000)
            else log == None
  {
  }

  /** After any input in which a session was refused, the menu shows the failure, and
      the log it offers to view ends with the reason. */
  lemma RefusalIsOffered(
      replies: seq<Beat>, before: seq<Input>, input: Input, s: Path, reason: Text,
      profiles: seq<Profile>)
    requires var w := After(replies, before);
             var x := Step(w, input);
             x.backend.sound && RefusedSince(w.trace, x.trace, s, reason)
    ensures var shown := Published(Step(After(replies, before), input), profiles, false);
            && OnMenu(shown, OpenLog) && OnMenu(shown, PickDismiss)
            && shown.log.Some? && shown.log.value != []
            && shown.log.value[|shown.log.value| - 1] == NoteEntry(reason)
  {
    RefusalStaysExplained(replies, before, input, s, reason, [], 1);
    var x := Step(After(replies, before), input);
    MenuOffersWhatIsSo(x, profiles, "");
    LastLineIsPublished(x, s, NoteEntry(reason), profiles);
  }

  lemma LastLineIsPublished(w: World, s: Path, line: LogEntry, profiles: seq<Profile>)
    requires VisibleWithin(w.logs, s, line, 1)
    ensures var log := Published(w, profiles, false).log;
            log.Some? && log.value != [] && log.value[|log.value| - 1] == line
  {
    var lines := w.logs.Lines(s).value;
    assert lines[|lines| - 1] == line;
  }

  /** A worker that has adopted nothing and whose first tunnel is not handed out shows
      why: openvpn3's reason is all there is in the log. */
  lemma FirstFailureIsShown(replies: seq<Beat>, config: Path, profiles: seq<Profile>)
    requires var w := Startup(replies);
             && FoundAtStart(replies).None?
             && Told(w.replies).Some? && !Told(w.replies).value.Tunnel?
    ensures var w := Startup(replies);
            var x := After(replies, [Ui(SelectProfile(config))]);
            && x.machine == FRESH.(state := Connecting)
            && Published(x, profiles, false).log
               == Some(Entries(Complaint(NewTunnel(config), Told(w.replies).value)))
  {
    StartupShowsWhatItFinds(replies);
    var w := Startup(replies);
    var input := Ui(SelectProfile(config));
    assert Run(w, [input]) == Run(Step(w, input), []);
    ThreePhases(w, CheckTeardown, CheckStatus, OnUi(SelectProfile(config)));
    var (y, st) := Fired(w, ProfileSelected(config));
    assert st == [NewTunnel(config)] == [NewTunnel(config)] + [];
    OneStart(y, config);
    PerformFrame(y, NewTunnel(config));
    ExecPlain(y, NewTunnel(config), []);
    var texts := Complaint(NewTunnel(config), Told(w.replies).value);
    assert LinesSoFar(NO_HISTORY, config) + Entries(texts) == Entries(texts);
  }

  // --------------------------------------------- pressing it

  /** The menu's buttons that act on the connection, and what they ask of the worker. */
  function Asked(msg: Message): Option<UiCommand> {
    match msg
    case PickProfile(config) => Some(SelectProfile(config))
    case PickDisconnect => Some(StopTunnel)
    case PickDismiss => Some(DismissFailure)
    case _ => None
  }

  /** Pressing one of them on the menu sends that one command, which the worker takes
      next; dismissing leaves the popup open, the others close it. */
  lemma PressingReachesWorker(sys: System, msg: Message, profiles: seq<Profile>, unavailable: bool)
    requires Asked(msg).Some? && Possible(sys, Press(msg)) && sys.app.connected
    requires sys.app.page == MenuPage && sys.taken == |sys.app.sent|
    ensures var pressed := Moved(sys, Press(msg));
            var work := Work(profiles, unavailable);
            && Possible(pressed, work)
            && Moved(pressed, work).world == Step(sys.world, Ui(Asked(msg).value))
            && pressed.app.popup == (if msg == PickDismiss then sys.app.popup else None)
            && pressed.app.sent == sys.app.sent + [Asked(msg).value]
  {
  }

  /** Dismissing a failure, from the popup to the picture that comes back: no command,
      no other change, and the failure is no longer on show. */
  lemma DismissingClearsFailure(sys: System, profiles: seq<Profile>, unavailable: bool)
    requires Possible(sys, Press(PickDismiss)) && sys.app.connected && sys.taken == |sys.app.sent|
    ensures var x := Moved(Moved(sys, Press(PickDismiss)), Work(profiles, unavailable));
            && x.world.machine
               == (if sys.world.machine.state == Failed then sys.world.machine.(state := Disconnected)
                   else sys.world.machine)
            && Commands(x.world.trace) == Commands(sys.world.trace)
            && x.world.prompt == sys.world.prompt && x.world.logs == sys.world.logs
            && x.Newest().state != Failed
            && !OnMenu(x.Newest(), PickDismiss) && x.Newest().log == sys.Picture().log
  {
    PressingReachesWorker(sys, PickDismiss, profiles, unavailable);
    OnePhase(sys.world, OnUi(DismissFailure));
  }

  /** Connect, pressed on the menu of any use of the applet: once the worker has taken
      it, the profile waits for a teardown under way or has had a tunnel started for it
      since, the last one started. */
  lemma ConnectingTakesHold(sys: System, config: Path, profiles: seq<Profile>, unavailable: bool)
    requires Sane(sys) && Possible(sys, Press(PickProfile(config)))
    requires sys.app.connected && sys.taken == |sys.app.sent|
    ensures var x := Moved(Moved(sys, Press(PickProfile(config))), Work(profiles, unavailable));
            TakesHold(sys.world, x.world, config)
  {
    PressingReachesWorker(sys, PickProfile(config), profiles, unavailable);
    PickTakesHold(sys.world, config);
  }
}
