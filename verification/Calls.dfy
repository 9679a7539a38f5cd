/** What a call on the bus comes to, told from the answers in store alone. Every
    call is made on an object that may turn out to be unreachable; what openvpn3
    refuses is written into the log of the session concerned. */
module Calls {
  import opened Prelude
  import opened WireCodes
  import opened AttentionRouting
  import opened TransitionMachine
  import opened LogBuffer
  import opened WorkerModel
  import opened Invariants

  /** The answer to the next call, unless its object cannot be reached. */
  function Told(replies: seq<Beat>): Option<Reply> {
    if replies == [] || replies[0].reply.Unreachable? then None
    else Some(if |replies| >= 2 then replies[1].reply else Unreachable)
  }

  /** What is in store after that call. */
  function Rest(replies: seq<Beat>): seq<Beat> {
    if |replies| >= 2 && !replies[0].reply.Unreachable? then replies[2..]
    else if replies == [] then [] else replies[1..]
  }

  lemma CallTold(w: World)
    ensures var x := Ask(w).1;
            match Told(w.replies)
            case None => Ask(w).0.Unreachable? && x.replies == Rest(w.replies)
            case Some(answer) =>
              !Ask(w).0.Unreachable? && Ask(x).0 == answer && Ask(x).1.replies == Rest(w.replies)
  {
  }

  // --------------------------------------------- lines of the applet's own

  function Entries(texts: seq<Text>): seq<LogEntry> {
    seq(|texts|, i requires 0 <= i < |texts| => LogEntry(0, 0, texts[i]))
  }

  function LinesSoFar(h: Histories, s: Path): seq<LogEntry> {
    if s in h.buffers then h.buffers[s] else []
  }

  /** From `h` to `k` the log of `s` has gained these lines at its end, and is the one
      on show if none was; nothing else has changed. */
  predicate Gains(h: Histories, k: Histories, s: Path, texts: seq<Text>) {
    if texts == [] then k == h
    else
      && k.buffers == h.buffers[s := LinesSoFar(h, s) + Entries(texts)]
      && k.retained == h.retained
      && k.mostRecent == (if h.mostRecent.None? then Some(s) else h.mostRecent)
  }

  lemma GainsOne(h: Histories, s: Path, text: Text)
    ensures Gains(h, Apply(h, Jot(s, text)), s, [text])
  {
    assert Entries([text]) == [NoteEntry(text)];
  }

  lemma GainsChain(h: Histories, k: Histories, l: Histories, s: Path, a: seq<Text>, b: seq<Text>)
    requires Gains(h, k, s, a) && Gains(k, l, s, b)
    ensures Gains(h, l, s, a + b)
  {
    if a == [] {
      assert a + b == b;
    } else if b == [] {
      assert a + b == a;
    } else {
      assert Entries(a + b) == Entries(a) + Entries(b);
      assert LinesSoFar(h, s) + Entries(a) + Entries(b) == LinesSoFar(h, s) + (Entries(a) + Entries(b));
    }
  }

  lemma {:induction false} JotAllGains(w: World, s: Path, texts: seq<Text>)
    ensures Gains(w.logs, JotAll(w, s, texts).logs, s, texts)
    decreases |texts|
  {
    if texts != [] {
      var x := w.Log(Jot(s, texts[0]));
      GainsOne(w.logs, s, texts[0]);
      JotAllGains(x, s, texts[1..]);
      assert texts == [texts[0]] + texts[1..];
      GainsChain(w.logs, x.logs, JotAll(x, s, texts[1..]).logs, s, [texts[0]], texts[1..]);
    }
  }

  // --------------------------------------------- single calls

  /** What is noted about an answer that is not the one hoped for. */
  function Complaint(c: Command, answer: Reply): seq<Text> {
    var error := match answer case Error(text) => text case _ => "";
    match c
    case EnableLogForward(_) => if answer.Done? then [] else [LogForwardUnavailable(error)]
    case Connect(_) => if answer.Done? then [] else [ConnectFailed(error)]
    case NewTunnel(_) => if answer.Tunnel? then [] else [StartFailed(error)]
    case _ => []
  }

  function Complaints(c: Command, told: Option<Reply>): seq<Text> {
    match told case Some(answer) => Complaint(c, answer) case None => []
  }

  predicate SingleCall(c: Command) { c.EnableLogForward? || c.Connect? || c.Disconnect? }

  /** Forwarding, connecting and disconnecting each make one call on their session, if
      it can be reached; a refusal of the first two is noted with openvpn3's reason. */
  lemma OneCall(w: World, c: Command)
    requires SingleCall(c)
    ensures var x := Performed(w, c).0;
            && x.replies == Rest(w.replies)
            && Gains(w.logs, x.logs, c.session, Complaints(c, Told(w.replies)))
  {
    var y := w.Saw(Executed(c, w.backend.alive));
    CallTold(y);
    var texts := Complaints(c, Told(w.replies));
    if texts != [] { GainsOne(w.logs, c.session, texts[0]); }
  }

  /** A tunnel that is not handed out is noted under its profile's path. */
  lemma OneStart(w: World, config: Path)
    ensures var (x, fed) := Performed(w, NewTunnel(config));
            var told := Told(w.replies);
            && x.replies == Rest(w.replies)
            && (if told.Some? && told.value.Tunnel?
                then fed == Some(SessionCreated(told.value.path, config))
                     && x.logs == Apply(w.logs, Begin(told.value.path))
                else fed == None
                     && Gains(w.logs, x.logs, config, Complaints(NewTunnel(config), told)))
  {
    var y := w.Saw(Executed(NewTunnel(config), w.backend.alive));
    CallTold(y);
    var texts := Complaints(NewTunnel(config), Told(w.replies));
    if texts != [] { GainsOne(w.logs, config, texts[0]); }
  }

  // --------------------------------------------- answers to a prompt

  /** What is noted about the next `n` answers to responses. */
  function Rejections(replies: seq<Beat>, n: nat): seq<Text> {
    if n == 0 then []
    else if replies == [] then [SubmitFailed("")] + Rejections([], n - 1)
    else
      (match replies[0].reply
       case Done => []
       case Error(text) => [SubmitFailed(text)]
       case _ => [SubmitFailed("")]) + Rejections(replies[1..], n - 1)
  }

  lemma RejectionsUnfold(replies: seq<Beat>, n: nat)
    requires n > 0
    ensures var answer := if replies == [] then Unreachable else replies[0].reply;
            Rejections(replies, n)
            == (if answer.Done? then [] else [SubmitFailed(ErrorText(answer))])
               + Rejections(if replies == [] then [] else replies[1..], n - 1)
  {
  }

  lemma {:induction false} ProvideEachRejected(w: World, s: Path, responses: seq<InputResponse>)
    ensures var (x, refused) := ProvideEach(w, s, responses);
            refused == Rejections(w.replies, |responses|) && x.logs == w.logs
    decreases |responses|
  {
    if responses != [] {
      var (answer, x) := Ask(w.Saw(Answer(s, responses[0])));
      ProvideEachRejected(x, s, responses[1..]);
      RejectionsUnfold(w.replies, |responses|);
      assert x.logs == w.logs && x.replies == if w.replies == [] then [] else w.replies[1..];
    }
  }

  /** Every response that is refused leaves its reason in the session's log, in the
      order the responses were given. */
  lemma RefusedResponsesAreNoted(w: World, s: Path, responses: seq<InputResponse>)
    ensures var x := Performed(w, ProvideInput(s, responses)).0;
            Gains(w.logs, x.logs, s,
                  if Told(w.replies).Some? then Rejections(w.replies[1..], |responses|) else [])
  {
    var y := Ask(w.Saw(Executed(ProvideInput(s, responses), w.backend.alive))).1;
    if Told(w.replies).Some? {
      ProvideEachRejected(y, s, responses);
      var (z, refused) := ProvideEach(y, s, responses);
      JotAllGains(z, s, refused);
    }
  }

  // --------------------------------------------- readiness

  function UnknownIn(pairs: seq<(u32, u32)>): seq<Text> {
    if pairs == [] then []
    else (if DecodePair(pairs[0].0, pairs[0].1).None?
          then [UnrecognisedRequest(pairs[0].0, pairs[0].1)] else []) + UnknownIn(pairs[1..])
  }

  /** The pairs queued for a session whose readiness check fails. */
  function QueuedIn(replies: seq<Beat>): seq<(u32, u32)> {
    if |replies| >= 3 && replies[2].reply.Pairs? then replies[2].reply.pairs else []
  }

  /** What a check will note. */
  function CheckNotes(replies: seq<Beat>): seq<Text> {
    match Told(replies)
    case None => []
    case Some(Done) => []
    case Some(answer) =>
      if QueuedIn(replies) != [] then UnknownIn(QueuedIn(replies))
      else [BackendNotReady(match answer case Error(text) => text case _ => "")]
  }

  /** What a check will report. */
  function CheckVerdict(replies: seq<Beat>, s: Path): Option<Event> {
    match Told(replies)
    case None => None
    case Some(Done) => Some(SessionReady(s))
    case Some(_) =>
      var requests := Recognised(QueuedIn(replies));
      if requests == [] then None else Some(CredentialsRequired(s, requests, ""))
  }

  lemma {:induction false} NotePairsGains(w: World, s: Path, pairs: seq<(u32, u32)>)
    ensures Gains(w.logs, NotePairs(w, s, pairs).logs, s, UnknownIn(pairs))
    decreases |pairs|
  {
    if pairs != [] {
      var x := NoteOne(w, s, pairs[0]);
      NotePairsGains(x, s, pairs[1..]);
      var text := UnrecognisedRequest(pairs[0].0, pairs[0].1);
      if DecodePair(pairs[0].0, pairs[0].1).None? {
        GainsOne(w.logs, s, text);
        GainsChain(w.logs, x.logs, NotePairs(x, s, pairs[1..]).logs, s, [text], UnknownIn(pairs[1..]));
      } else {
        assert UnknownIn(pairs) == UnknownIn(pairs[1..]);
      }
    }
  }

  /** A readiness check reports and notes exactly what the answers give it: ready, the
      understood part of the queue with a line for each other pair, or, with nothing
      queued, openvpn3's reason. */
  lemma CheckTold(w: World, s: Path)
    ensures var (x, fed) := Performed(w, CheckReady(s));
            fed == CheckVerdict(w.replies, s) && Gains(w.logs, x.logs, s, CheckNotes(w.replies))
  {
    var y := w.Saw(Executed(CheckReady(s), w.backend.alive));
    CallTold(y);
    var (queue, z) := Ask(Ask(Ask(y).1).1);
    assert |w.replies| >= 3 && !w.replies[0].reply.Unreachable? ==> queue == w.replies[2].reply;
    if Told(w.replies).Some? && !Told(w.replies).value.Done? {
      if queue.Pairs? && queue.pairs != [] {
        NotePairsGains(z, s, queue.pairs);
      } else {
        assert QueuedIn(w.replies) == [] && Recognised([]) == [];
        GainsOne(w.logs, s, BackendNotReady(ErrorText(Told(w.replies).value)));
      }
    }
  }

  // --------------------------------------------- and seen

  /** What is noted last about the session on show is its last shown line. */
  lemma LastGainIsSeen(h: Histories, k: Histories, s: Path, texts: seq<Text>)
    requires Gains(h, k, s, texts) && texts != []
    requires h.mostRecent.None? || h.mostRecent == Some(s)
    ensures VisibleWithin(k, s, NoteEntry(texts[|texts| - 1]), 1)
  {
    var lines := k.Lines(s).value;
    assert lines[|lines| - 1] == NoteEntry(texts[|texts| - 1]);
  }

  /** So whatever openvpn3 refuses of the session being tracked, its reason is on show
      at once. */
  lemma RefusalIsSeen(w: World, c: Command)
    requires LogsOk(w, None)
    requires (c.EnableLogForward? || c.Connect?) && w.machine.Tracks(c.session)
    requires Told(w.replies).Some? && !Told(w.replies).value.Done?
    ensures var texts := Complaint(c, Told(w.replies).value);
            |texts| == 1 && VisibleWithin(Performed(w, c).0.logs, c.session, NoteEntry(texts[0]), 1)
  {
    OneCall(w, c);
    LastGainIsSeen(w.logs, Performed(w, c).0.logs, c.session, Complaint(c, Told(w.replies).value));
  }
}
