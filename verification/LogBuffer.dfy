/** Live capture of session logs: a bounded store, proved against the store a
    reader would wish for, which never drops a line. */
module LogBuffer {
  import opened Prelude
  import opened AttentionRouting

  datatype LogEntry = LogEntry(group: u32, level: u32, message: Text)

  /** A line the applet wrote itself. */
  function NoteEntry(text: Text): LogEntry { LogEntry(0, 0, text) }

  /** What the log window has to show. */
  datatype SessionLog =
    | Captured(path: Path, entries: seq<LogEntry>)
    | NotCaptured(path: Path)
    | NothingSeen

  // --------------------------------------------- the unbounded reference store

  /** Every line ever accepted, with no capacity. */
  datatype Histories = Histories(
    buffers: map<Path, seq<LogEntry>>,
    retained: Option<(Path, seq<LogEntry>)>,
    mostRecent: Option<Path>)
  {
    /** A retained log always belongs to the session being shown. */
    predicate WellFormed() { retained.Some? ==> mostRecent == Some(retained.value.0) }

    /** The lines a reader of session `p` is given. */
    function Lines(p: Path): Option<seq<LogEntry>> {
      if p in buffers then Some(buffers[p])
      else if retained.Some? && retained.value.0 == p then Some(retained.value.1)
      else None
    }
  }

  const NO_HISTORY := Histories(map[], None, None)

  datatype LogOp =
    | Begin(path: Path)
    | Adopt(path: Path)
    | Push(path: Path, entry: LogEntry)
    | Jot(path: Path, text: Text)
    | Remove(path: Path)

  function Apply(h: Histories, op: LogOp): (r: Histories)
    ensures h.WellFormed() ==> r.WellFormed()
  {
    match op
    case Begin(p) => Histories(h.buffers[p := []], None, Some(p))
    case Adopt(p) => h.(retained := None, mostRecent := Some(p))
    case Push(p, e) =>
      if p in h.buffers then h.(buffers := h.buffers[p := h.buffers[p] + [e]]) else h
    case Jot(p, text) =>
      var before := if p in h.buffers then h.buffers[p] else [];
      h.(buffers := h.buffers[p := before + [NoteEntry(text)]],
         mostRecent := if h.mostRecent.None? then Some(p) else h.mostRecent)
    case Remove(p) =>
      if p !in h.buffers then h
      else h.(buffers := h.buffers - {p},
              retained := if h.mostRecent == Some(p) then Some((p, h.buffers[p])) else h.retained)
  }

  /** The last `capacity` lines. */
  function Latest(lines: seq<LogEntry>, capacity: nat): seq<LogEntry> {
    if |lines| <= capacity then lines else lines[|lines| - capacity..]
  }

  function Shown(h: Histories, capacity: nat): SessionLog {
    match h.mostRecent
    case None => NothingSeen
    case Some(p) =>
      match h.Lines(p)
      case Some(lines) =>
        if Latest(lines, capacity) != [] then Captured(p, Latest(lines, capacity)) else NotCaptured(p)
      case None => NotCaptured(p)
  }

  // --------------------------------------------- the bounded store

  /** Dropping the oldest line of a full buffer keeps the latest ones. */
  lemma LatestAppends(lines: seq<LogEntry>, e: LogEntry, capacity: nat)
    requires capacity >= 1
    ensures var kept := Latest(lines, capacity);
            Latest(lines + [e], capacity)
            == (if |kept| == capacity then kept[1..] else kept) + [e]
  {
  }

  class LogStore {
    const capacity: nat
    var buffers: map<Path, seq<LogEntry>>
    var retained: Option<(Path, seq<LogEntry>)>
    var mostRecent: Option<Path>
    ghost var full: Histories

    ghost predicate Valid()
      reads this
    {
      && capacity >= 1
      && full.WellFormed()
      && buffers.Keys == full.buffers.Keys
      && (forall p :: p in buffers ==> buffers[p] == Latest(full.buffers[p], capacity))
      && retained.Some? == full.retained.Some?
      && (retained.Some? ==> retained.value.0 == full.retained.value.0)
      && (retained.Some? ==> retained.value.1 == Latest(full.retained.value.1, capacity))
      && mostRecent == full.mostRecent
    }

    constructor (capacity: nat)
      ensures Valid() && full == NO_HISTORY
      ensures this.capacity == if capacity >= 1 then capacity else 1
    {
      this.capacity := if capacity >= 1 then capacity else 1;
      buffers, retained, mostRecent := map[], None, None;
      full := NO_HISTORY;
    }

    method BeginSession(p: Path)
      requires Valid()
      modifies this
      ensures Valid() && full == Apply(old(full), Begin(p))
    {
      retained := None;
      buffers := buffers[p := []];
      mostRecent := Some(p);
      full := Apply(full, Begin(p));
    }

    method AdoptExternalSession(p: Path)
      requires Valid()
      modifies this
      ensures Valid() && full == Apply(old(full), Adopt(p))
    {
      retained := None;
      mostRecent := Some(p);
      full := Apply(full, Adopt(p));
    }

    method PushLine(p: Path, entry: LogEntry)
      requires Valid()
      modifies this
      ensures Valid() && full == Apply(old(full), Push(p, entry))
    {
      if p in buffers {
        LatestAppends(full.buffers[p], entry, capacity);
        var buffer := buffers[p];
        if |buffer| == capacity {
          buffer := buffer[1..];
        }
        buffer := buffer + [entry];
        buffers := buffers[p := buffer];
      }
      full := Apply(full, Push(p, entry));
    }

    method Note(p: Path, text: Text)
      requires Valid()
      modifies this
      ensures Valid() && full == Apply(old(full), Jot(p, text))
    {
      ghost var lines := if p in full.buffers then full.buffers[p] else [];
      var buffer := if p in buffers then buffers[p] else [];
      assert buffer == Latest(lines, capacity);
      LatestAppends(lines, NoteEntry(text), capacity);
      if |buffer| == capacity {
        buffer := buffer[1..];
      }
      buffer := buffer + [NoteEntry(text)];
      assert buffer == Latest(lines + [NoteEntry(text)], capacity);
      buffers := buffers[p := buffer];
      if mostRecent.None? {
        mostRecent := Some(p);
      }
      full := Apply(full, Jot(p, text));
    }

    method RemoveSession(p: Path)
      requires Valid()
      modifies this
      ensures Valid() && full == Apply(old(full), Remove(p))
    {
      if p in buffers {
        var buffer := buffers[p];
        buffers := buffers - {p};
        if mostRecent == Some(p) {
          retained := Some((p, buffer));
        }
      }
      full := Apply(full, Remove(p));
    }

    method HasBuffer(p: Path) returns (has: bool)
      requires Valid()
      ensures has == full.Lines(p).Some?
    {
      has := p in buffers || (retained.Some? && retained.value.0 == p);
    }

    method MostRecent() returns (log: SessionLog)
      requires Valid()
      ensures log == Shown(full, capacity)
    {
      if mostRecent.None? {
        return NothingSeen;
      }
      var p := mostRecent.value;
      var buffer := if p in buffers then Some(buffers[p])
                    else if retained.Some? && retained.value.0 == p then Some(retained.value.1)
                    else None;
      if buffer.Some? && buffer.value != [] {
        return Captured(p, buffer.value);
      }
      return NotCaptured(p);
    }
  }

  // --------------------------------------------- what the store promises

  /** Removing any session leaves what the log window shows untouched. */
  lemma RemoveKeepsShown(h: Histories, p: Path, capacity: nat)
    requires h.WellFormed()
    ensures Shown(Apply(h, Remove(p)), capacity) == Shown(h, capacity)
  {
    var after := Apply(h, Remove(p));
    if h.mostRecent.Some? {
      assert after.Lines(h.mostRecent.value) == h.Lines(h.mostRecent.value);
    }
  }

  function LinesOrNone(h: Histories, p: Path): seq<LogEntry> {
    match h.Lines(p) case Some(lines) => lines case None => []
  }

  /** A note about any session adds exactly its own line to the shown log, and
      nothing else changes there, if and only if it is not about the shown
      session after that session was removed with lines to show: then a fresh
      buffer takes the place of the retained one. */
  lemma NoteHidesRetained(h: Histories, p: Path, text: Text)
    requires h.WellFormed() && h.mostRecent.Some?
    ensures var s := h.mostRecent.value;
            LinesOrNone(Apply(h, Jot(p, text)), s)
            == LinesOrNone(h, s) + (if p == s then [NoteEntry(text)] else [])
            <==> !(p == s && s !in h.buffers && LinesOrNone(h, s) != [])
  {
    var s := h.mostRecent.value;
    var after := LinesOrNone(Apply(h, Jot(p, text)), s);
    if p == s && s !in h.buffers {
      assert after == [NoteEntry(text)];
      assert LinesOrNone(h, s) == [] ==> after == LinesOrNone(h, s) + [NoteEntry(text)];
    }
  }

  // --------------------------------------------- over whole histories

  function Replay(ops: seq<LogOp>): (h: Histories)
    ensures h.WellFormed()
  {
    if ops == [] then NO_HISTORY else Apply(Replay(ops[..|ops| - 1]), ops[|ops| - 1])
  }

  /** The lines that `ops` addressed to session `p`, in order. */
  function Addressed(ops: seq<LogOp>, p: Path): seq<LogEntry> {
    if ops == [] then []
    else
      var last := ops[|ops| - 1];
      Addressed(ops[..|ops| - 1], p)
      + (if last.path != p then []
         else match last
           case Push(_, e) => [e]
           case Jot(_, text) => [NoteEntry(text)]
           case _ => [])
  }

  /** Operation `k` gave `p` the buffer it still has after all of `ops`. */
  ghost predicate BornAt(ops: seq<LogOp>, p: Path, k: int) {
    && 0 <= k < |ops| && ops[k].path == p
    && (ops[k].Begin? || (ops[k].Jot? && p !in Replay(ops[..k]).buffers))
    && forall j :: k < j < |ops| && ops[j].path == p ==> !ops[j].Begin? && !ops[j].Remove?
  }

  lemma BirthSurvives(ops: seq<LogOp>, op: LogOp, p: Path, k: int)
    requires BornAt(ops, p, k) && !(op.path == p && (op.Begin? || op.Remove?))
    ensures BornAt(ops + [op], p, k)
    ensures Addressed((ops + [op])[k..], p) == Addressed(ops[k..], p) + Addressed([op], p)
  {
    var more := ops + [op];
    assert more[..k] == ops[..k];
    var tail := more[k..];
    assert tail[..|tail| - 1] == ops[k..];
    assert [op][..0] == [];
  }

  /** The buffer of a session born by operation `k`, one operation later. */
  lemma BirthHolds(front: seq<LogOp>, op: LogOp, p: Path, k: int)
    requires BornAt(front + [op], p, k)
    requires BornAt(front, p, k) ==>
               p in Replay(front).buffers && Replay(front).buffers[p] == Addressed(front[k..], p)
    ensures var (ops, h) := (front + [op], Replay(front + [op]));
            p in h.buffers && h.buffers[p] == Addressed(ops[k..], p)
  {
    var ops := front + [op];
    ReplayOne(front, op);
    AddressedOne(op, p);
    assert ops[..k] == front[..k];
    if k < |front| {
      assert forall j :: 0 <= j < |front| ==> ops[j] == front[j];
      assert BornAt(front, p, k);
      BirthSurvives(front, op, p, k);
    } else {
      assert ops[k..] == [op] && front[..k] == front;
    }
  }

  lemma ReplayOne(front: seq<LogOp>, op: LogOp)
    ensures Replay(front + [op]) == Apply(Replay(front), op)
  {
    assert (front + [op])[..|front|] == front;
  }

  lemma BirthRemembered(front: seq<LogOp>, op: LogOp, p: Path)
    requires p in Replay(front + [op]).buffers
    requires p in Replay(front).buffers ==> exists k :: BornAt(front, p, k)
    ensures exists k :: BornAt(front + [op], p, k)
  {
    ReplayOne(front, op);
    if p in Replay(front).buffers && !(op.path == p && (op.Begin? || op.Remove?)) {
      var k :| BornAt(front, p, k);
      BirthSurvives(front, op, p, k);
    } else {
      assert (front + [op])[..|front|] == front;
      assert BornAt(front + [op], p, |front|);
    }
  }

  /** After any sequence of operations, a session has a buffer exactly when one
      was begun or first noted for it and not removed since, and the buffer holds
      every line addressed to the session from that point on and no other. */
  lemma {:induction false} BufferIsEveryLineSinceBirth(ops: seq<LogOp>, p: Path)
    ensures p in Replay(ops).buffers <==> exists k :: BornAt(ops, p, k)
    ensures forall k :: BornAt(ops, p, k) ==>
              p in Replay(ops).buffers && Replay(ops).buffers[p] == Addressed(ops[k..], p)
  {
    if ops != [] {
      var front, op := ops[..|ops| - 1], ops[|ops| - 1];
      assert ops == front + [op];
      BufferIsEveryLineSinceBirth(front, p);
      forall k | BornAt(ops, p, k)
        ensures p in Replay(ops).buffers && Replay(ops).buffers[p] == Addressed(ops[k..], p)
      {
        BirthHolds(front, op, p, k);
      }
      if p in Replay(ops).buffers { BirthRemembered(front, op, p); }
    }
  }

  lemma AddressedOne(op: LogOp, p: Path)
    ensures Addressed([op], p) == if op.path != p then [] else match op
              case Push(_, e) => [e] case Jot(_, text) => [NoteEntry(text)] case _ => []
  {
    assert [op][..0] == [];
  }

  /** `line` is among the last `k` of `lines`. */
  ghost predicate Recent(lines: seq<LogEntry>, line: LogEntry, k: nat) {
    exists i :: 0 <= i < |lines| && |lines| - k <= i && lines[i] == line
  }

  /** `line` is among the last `k` lines a reader of the shown session `s` gets. */
  ghost predicate VisibleWithin(h: Histories, s: Path, line: LogEntry, k: nat) {
    h.mostRecent == Some(s) && h.Lines(s).Some? && Recent(h.Lines(s).value, line, k)
  }

  /** Being among the last `k` lines is being on screen once `k` lines fit. */
  lemma VisibleIsShown(h: Histories, s: Path, line: LogEntry, k: nat, capacity: nat)
    requires VisibleWithin(h, s, line, k) && k <= capacity
    ensures Shown(h, capacity).Captured? && Shown(h, capacity).path == s
    ensures line in Shown(h, capacity).entries
  {
    var lines := h.Lines(s).value;
    var i :| 0 <= i < |lines| && |lines| - k <= i && lines[i] == line;
    var shown := Latest(lines, capacity);
    assert shown[i - (|lines| - |shown|)] == line;
  }

  /** How many lines an operation can push the shown session's log along. */
  function Cost(op: LogOp, s: Path): nat {
    if op.path == s && (op.Push? || op.Jot?) then 1 else 0
  }

  /** A line stays visible through lines, notes and removals, slipping back one
      place for each line that follows; only a new attempt, or a note about the
      session after its removal, takes it away. */
  lemma LineSlipsBack(h: Histories, op: LogOp, s: Path, line: LogEntry, k: nat)
    requires h.WellFormed() && VisibleWithin(h, s, line, k)
    requires !op.Begin? && !op.Adopt?
    requires op.Jot? && op.path == s ==> s in h.buffers
    ensures VisibleWithin(Apply(h, op), s, line, k + Cost(op, s))
  {
    var before, after := h.Lines(s).value, Apply(h, op).Lines(s).value;
    var i :| 0 <= i < |before| && |before| - k <= i && before[i] == line;
    assert after[i] == line;
  }
}
