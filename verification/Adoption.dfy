/** What the applet shows of a session that was there before it, told from the
    answers at startup alone. */
module Adoption {
  import opened Prelude
  import opened StatusMap
  import opened AttentionRouting
  import opened TransitionMachine
  import opened LogBuffer
  import opened WorkerModel
  import opened Traces
  import opened Invariants
  import opened Calls
  import opened Attempts

  /** A session found at startup, with what was read of it. */
  datatype Find = Find(session: Path, config: Path, status: Status)

  /** The status the next call will read, if it can be read and decoded. */
  function StatusTold(replies: seq<Beat>): Option<Status> {
    match Told(replies) case Some(answer) => StatusFrom(answer) case None => None
  }

  /** The first of these sessions whose status can be read, and its profile, or no
      name for one if that cannot be read. */
  function FirstReadable(replies: seq<Beat>, paths: seq<Path>): Option<Find>
    decreases |paths|
  {
    if paths == [] then None
    else match StatusTold(replies)
      case None => FirstReadable(Rest(replies), paths[1..])
      case Some(status) =>
        var left := Rest(replies);
        Some(Find(paths[0], if left != [] && left[0].reply.ConfigIs? then left[0].reply.config else "",
                  status))
  }

  /** What startup will find. */
  function FoundAtStart(replies: seq<Beat>): Option<Find> {
    match Told(replies)
    case Some(Sessions(paths)) => FirstReadable(Rest(replies), paths)
    case _ => None
  }

  /** The worker as it is once it has taken a session on: active, with the state its
      status calls for, or none, and only a status nobody knows is worth a line. */
  predicate TakenOn(w: World, f: Find) {
    var known := f.status.Transition().Set?;
    var text := UnmappedStatus(f.status.major, f.status.minor);
    && w.machine == MState(if known then f.status.Transition().state else Disconnected,
                           Some(ActiveSession(f.session, f.config)), None, None, false)
    && w.prompt == None && w.backend.known == {f.session}
    && Commands(w.trace) == (if known then [] else [Note(f.session, text)])
    && w.logs == Histories(if known then map[] else map[f.session := [NoteEntry(text)]],
                           None, Some(f.session))
  }

  lemma AdoptedShown(w: World, p: Path, config: Path, status: Status)
    requires w.machine == FRESH && w.trace == Nil && w.prompt == None
    requires w.logs == Apply(NO_HISTORY, Adopt(p)) && w.backend.known == {p}
    ensures TakenOn(Deliver(w, ExternalSessionSeen(p, config, status)), Find(p, config, status))
  {
    var (y, st) := Fired(w, ExternalSessionSeen(p, config, status));
    if status.Transition().Hold? {
      var c := Note(p, UnmappedStatus(status.major, status.minor));
      assert st == [c] == [c] + [];
      ExecPlain(y, c, []);
      PlainCommands(y, st);
      assert [] + [c] == [c] && [] + [NoteEntry(c.text)] == [NoteEntry(c.text)];
      assert map[][p := [NoteEntry(c.text)]] == map[p := [NoteEntry(c.text)]];
    }
  }

  lemma AdoptOneTold(w: World, p: Path)
    requires w == Blank(w.replies)
    ensures var (x, adopted) := AdoptOne(w, p);
            match StatusTold(w.replies)
            case None => !adopted && x == Blank(x.replies) && x.replies == Rest(w.replies)
            case Some(_) => adopted && TakenOn(x, FirstReadable(w.replies, [p]).value)
  {
    CallTold(w);
    var x := Ask(w).1;
    var (answer, y) := Ask(x);
    BlankWaits(w);
    BlankWaits(x);
    match StatusTold(w.replies) {
      case None =>
      case Some(status) =>
        var (third, z) := Ask(Found(y, p, status));
        var config := if third.ConfigIs? then third.config else "";
        AdoptedInv(y, p, config, status);
        AdoptedShown(z.Log(Adopt(p)), p, config, status);
    }
  }

  lemma {:induction false} AdoptFirstTold(w: World, paths: seq<Path>)
    requires w == Blank(w.replies)
    ensures var x := AdoptFirst(w, paths);
            match FirstReadable(w.replies, paths)
            case None => x == Blank(x.replies)
            case Some(f) => TakenOn(x, f)
    decreases |paths|
  {
    if paths != [] {
      AdoptOneTold(w, paths[0]);
      var (x, adopted) := AdoptOne(w, paths[0]);
      if !adopted { AdoptFirstTold(x, paths[1..]); }
    }
  }

  /** Startup takes a session on if and only if some listed session's status can be
      read; then it is the first such one, under the profile read of it, with its
      status on show. Otherwise it leaves no trace. */
  lemma StartupShowsWhatItFinds(replies: seq<Beat>)
    ensures var w := Startup(replies);
            match FoundAtStart(replies)
            case None => w == Blank(w.replies)
            case Some(f) => TakenOn(w, f)
  {
    var w := Blank(replies);
    CallTold(w);
    var x := Ask(w).1;
    var (answer, y) := Ask(x);
    BlankWaits(w);
    BlankWaits(x);
    if Told(replies).Some? && answer.Sessions? { AdoptFirstTold(y, answer.paths); }
  }
}
