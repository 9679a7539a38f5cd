/** Questions asked of a trace: what was last chosen, which sessions are over,
    and rules that every observation must obey given its past. */
module Traces {
  import opened Prelude
  import opened StatusMap
  import opened TransitionMachine
  import opened WorkerModel

  /** Every observation obeys `rule` given what came before it. */
  ghost predicate Always(t: Trace, rule: (Trace, Obs) -> bool) {
    match t
    case Nil => true
    case Snoc(past, o) => Always(past, rule) && rule(past, o)
  }

  /** The commands carried out, in order. */
  function Commands(t: Trace): seq<Command> {
    match t
    case Nil => []
    case Snoc(past, o) => if o.Executed? then Commands(past) + [o.command] else Commands(past)
  }

  /** The profile the user picked last. */
  function LastSelected(t: Trace): Option<Path> {
    match t
    case Nil => None
    case Snoc(past, o) =>
      if o.Handled? && o.event.ProfileSelected? then Some(o.event.config) else LastSelected(past)
  }

  /** Was the last event handled a selection? */
  predicate JustSelected(t: Trace) {
    match t
    case Nil => false
    case Snoc(past, o) => if o.Handled? then o.event.ProfileSelected? else JustSelected(past)
  }

  /** What the user wants once the present session is gone: the last selection,
      unless a disconnect, or a teardown begun by anything but a selection, came
      after it. */
  function Wish(t: Trace): Option<Path> {
    match t
    case Nil => None
    case Snoc(past, o) =>
      match o
      case Handled(ProfileSelected(config), _) => Some(config)
      case Handled(DisconnectRequested, _) => None
      case Executed(Disconnect(_), _) => if JustSelected(past) then Wish(past) else None
      case _ => Wish(past)
  }

  /** `Disconnect` has been issued to `s`. */
  predicate Over(t: Trace, s: Path) {
    match t
    case Nil => false
    case Snoc(past, o) => (o.Executed? && o.command == Disconnect(s)) || Over(past, s)
  }

  /** The applet itself created `s`. */
  predicate CreatedIn(t: Trace, s: Path) {
    match t
    case Nil => false
    case Snoc(past, o) =>
      (o.Handled? && o.event.SessionCreated? && o.event.session == s) || CreatedIn(past, s)
  }

  /** Log forwarding has been asked for on `s`. */
  predicate ForwardedIn(t: Trace, s: Path) {
    match t
    case Nil => false
    case Snoc(past, o) => (o.Executed? && o.command == EnableLogForward(s)) || ForwardedIn(past, s)
  }

  /** A CONN_CONNECTED report about `s`. */
  predicate IsConnectReport(e: Event, s: Path) {
    (e.StatusChanged? || e.ExternalSessionSeen?) && e.session == s && e.status.ReportsConnected()
  }

  /** Since a CONN_CONNECTED report about `s`, taken while `s` was the active
      session, every event has left the display Connected and `s` tracked. */
  predicate ConnectedSinceReport(t: Trace, s: Path) {
    match t
    case Nil => false
    case Snoc(past, o) =>
      if !o.Handled? then ConnectedSinceReport(past, s)
      else
        && o.after.state == Connected && o.after.Tracks(s)
        && ((IsConnectReport(o.event, s) && o.after.IsActive(s)) || ConnectedSinceReport(past, s))
  }

  // ------------------------------------------------------------- the rules

  /** A tunnel is started only when no session the applet has is alive. */
  predicate AloneRule(past: Trace, o: Obs) {
    o.Executed? && o.command.NewTunnel? ==> o.alive == {}
  }

  /** A tunnel is started only for the profile picked last. */
  predicate LatestRule(past: Trace, o: Obs) {
    o.Executed? && o.command.NewTunnel? ==> LastSelected(past) == Some(o.command.config)
  }

  /** The observation acts on session `s`, or leaves it active. */
  predicate Touches(o: Obs, s: Path) {
    match o
    case Executed(c, _) => c.Names(s)
    case Handled(_, m) => m.IsActive(s)
    case Provided(to, _, _, _, _) => to == s
  }

  /** Once `Disconnect` has been issued to a session, no command names it, no
      input is provided to it and it is never active again. */
  ghost predicate TerminalRule(past: Trace, o: Obs) {
    forall s :: Over(past, s) ==> !Touches(o, s)
  }

  /** `Connect` comes straight after a readiness check that succeeded. */
  predicate ConnectRule(past: Trace, o: Obs) {
    o.Executed? && o.command.Connect? ==>
      && past.Snoc? && past.last.Handled? && past.last.event == SessionReady(o.command.session)
      && past.past.Snoc? && past.past.last.Executed?
      && past.past.last.command == CheckReady(o.command.session)
  }

  /** Log forwarding comes before anything that starts the handshake of a session
      the applet created. */
  predicate ForwardRule(past: Trace, o: Obs) {
    o.Executed? && (o.command.CheckReady? || o.command.Connect?)
    && CreatedIn(past, o.command.session)
    ==> ForwardedIn(past, o.command.session)
  }

  /** The display says Connected only on the word of the tracked session. */
  ghost predicate DisplayRule(past: Trace, o: Obs) {
    o.Handled? && o.after.state == Connected ==>
      exists s :: o.after.Tracks(s) && ConnectedSinceReport(Snoc(past, o), s)
  }
}
