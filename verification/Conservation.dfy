/** Bookkeeping that the machine keeps over arbitrary event sequences, including
    ones no worker would ever deliver, and the routing of whole request lists. */
module Conservation {
  import opened Prelude
  import opened AttentionRouting
  import opened TransitionMachine

  /** Where the machine ends up, and everything it asked for on the way. */
  function Driven(m: MState, events: seq<Event>): (MState, seq<Command>) {
    if events == [] then (m, [])
    else
      var k := |events| - 1;
      var (n, before) := Driven(m, events[..k]);
      var (end, batch) := React(n, events[k]);
      (end, before + batch)
  }

  datatype Kind = Tunnels | Disconnects | Checks | Answers

  function Is(c: Command, kind: Kind): nat {
    match kind
    case Tunnels => if c.NewTunnel? then 1 else 0
    case Disconnects => if c.Disconnect? then 1 else 0
    case Checks => if c.CheckReady? then 1 else 0
    case Answers => if c.ProvideInput? then 1 else 0
  }

  function Count(cs: seq<Command>, kind: Kind): nat {
    if cs == [] then 0 else Is(cs[0], kind) + Count(cs[1..], kind)
  }

  lemma {:induction false} CountAdds(a: seq<Command>, b: seq<Command>, kind: Kind)
    ensures Count(a + b, kind) == Count(a, kind) + Count(b, kind)
  {
    if a == [] {
      assert a + b == b;
    } else {
      CountAdds(a[1..], b, kind);
      assert (a + b)[1..] == a[1..] + b;
    }
  }

  /** No batch is longer than three commands. */
  lemma CountBatch(cs: seq<Command>, kind: Kind)
    requires |cs| <= 3
    ensures Count(cs, kind) == (if |cs| >= 1 then Is(cs[0], kind) else 0)
                               + (if |cs| >= 2 then Is(cs[1], kind) else 0)
                               + (if |cs| >= 3 then Is(cs[2], kind) else 0)
  {
    if |cs| >= 1 { assert Count(cs, kind) == Is(cs[0], kind) + Count(cs[1..], kind); }
    if |cs| >= 2 { assert Count(cs[1..], kind) == Is(cs[1], kind) + Count(cs[2..], kind); }
    if |cs| >= 3 { assert Count(cs[2..], kind) == Is(cs[2], kind) + Count(cs[3..], kind); }
  }

  function Selections(events: seq<Event>): nat {
    if events == [] then 0
    else Selections(events[..|events| - 1]) + (if events[|events| - 1].ProfileSelected? then 1 else 0)
  }

  function Creations(events: seq<Event>): nat {
    if events == [] then 0
    else Creations(events[..|events| - 1]) + (if events[|events| - 1].SessionCreated? then 1 else 0)
  }

  /** Outside sessions reported while the machine was free to take them on. */
  function Adoptions(m: MState, events: seq<Event>): nat {
    if events == [] then 0
    else
      var k := |events| - 1;
      Adoptions(m, events[..k])
      + (if events[k].ExternalSessionSeen? && Driven(m, events[..k]).0.TracksNothing() then 1 else 0)
  }

  function Has<T>(o: Option<T>): nat { if o.Some? then 1 else 0 }

  lemma TunnelsBalance(m: MState, e: Event)
    ensures var (next, batch) := React(m, e);
            Count(batch, Tunnels) + Has(next.pending)
            <= Has(m.pending) + (if e.ProfileSelected? then 1 else 0)
  {
    CountBatch(React(m, e).1, Tunnels);
  }

  lemma DisconnectsBalance(m: MState, e: Event)
    ensures var (next, batch) := React(m, e);
            Count(batch, Disconnects) + Has(next.active)
            <= Has(m.active) + (if e.SessionCreated? then 1 else 0)
               + (if e.ExternalSessionSeen? && m.TracksNothing() then 1 else 0)
  {
    CountBatch(React(m, e).1, Disconnects);
  }

  lemma ChecksBalance(m: MState, e: Event)
    ensures var batch := React(m, e).1;
            Count(batch, Checks) == (if e.SessionCreated? then 1 else 0) + Count(batch, Answers)
  {
    CountBatch(React(m, e).1, Checks);
    CountBatch(React(m, e).1, Answers);
  }

  /** Nothing is started that was not asked for, nothing is disconnected twice or
      out of thin air, and readiness is checked exactly once for every session
      created and every answer given. */
  lemma {:induction false} BooksBalance(events: seq<Event>)
    ensures var (m, cs) := Driven(FRESH, events);
            && Count(cs, Tunnels) + Has(m.pending) <= Selections(events)
            && Count(cs, Disconnects) + Has(m.active) <= Creations(events) + Adoptions(FRESH, events)
            && Count(cs, Checks) == Creations(events) + Count(cs, Answers)
  {
    if events != [] {
      var k := |events| - 1;
      BooksBalance(events[..k]);
      var (m, before) := Driven(FRESH, events[..k]);
      var batch := React(m, events[k]).1;
      forall kind
        ensures Count(before + batch, kind) == Count(before, kind) + Count(batch, kind)
      {
        CountAdds(before, batch, kind);
      }
      TunnelsBalance(m, events[k]);
      DisconnectsBalance(m, events[k]);
      ChecksBalance(m, events[k]);
    }
  }

  /** For the active session with no prompt open: a prompt is opened exactly when
      something is asked and all of it can be answered, and it covers the whole
      list; otherwise the earliest request that cannot be answered is noted and
      the session ended; and asking for nothing does nothing. */
  lemma AllOrNothing(m: MState, s: Path, requests: seq<Request>, message: string)
    requires m.IsActive(s) && !m.promptOpen
    ensures var st := React(m, CredentialsRequired(s, requests, message)).1;
            && ((requests != [] && forall i :: 0 <= i < |requests| ==> Route(requests[i]).Prompt?)
                <==> |st| == 1 && st[0].OpenPrompt?)
            && (|st| == 1 ==> st == [OpenPrompt(s, Route(requests[0]).kind, requests, message)])
            && (forall reason :: StopsAt(requests, reason) <==> st == [Note(s, reason), Disconnect(s)])
            && (st == [] <==> requests == [])
  {
    FirstUnsupportedIsFirst(requests);
  }
}
