/** Which input requests the applet services, and the form fields they become. */
module AttentionRouting {
  import opened Prelude
  import opened WireCodes

  datatype PromptKind = UserPasswordPrompt | PrivateKeyPassphrase | Challenge

  type Request = (AttentionType, AttentionGroup)

  /** A line of log text. Wording is kept apart from what the line is about. */
  datatype Text =
    | Received(text: string)
    | UnmappedStatus(major: StatusMajor, minor: StatusMinor)
    | UnsupportedRequest(request: Request)
    | LogForwardUnavailable(error: string)
    | ConnectFailed(error: string)
    | SubmitFailed(error: string)
    | BackendNotReady(error: string)
    | StartFailed(error: string)
    | UnrecognisedRequest(kind: u32, code: u32)

  datatype Routing = Prompt(kind: PromptKind) | Unsupported(reason: Text)

  function Route(r: Request): Routing {
    match r
    case (Credentials, UserPassword) => Prompt(UserPasswordPrompt)
    case (Credentials, PkPassphrase) => Prompt(PrivateKeyPassphrase)
    case (Credentials, ChallengeStatic) => Prompt(Challenge)
    case (Credentials, ChallengeDynamic) => Prompt(Challenge)
    case _ => Unsupported(UnsupportedRequest(r))
  }

  /** Exactly the three kinds of credential request have a prompt; every other
      pair, known or not yet thought of, is refused. */
  lemma OnlyCredentialsArePrompted(r: Request)
    ensures Route(r).Prompt? <==>
              r.0 == Credentials
              && r.1 in {UserPassword, PkPassphrase, ChallengeStatic, ChallengeDynamic}
  {
  }

  /** The same from the numbers on the bus: which pairs decode at all, which prompt
      each of the four opens, and that any other is refused by its own name. */
  lemma RequestsOnTheWire(kind: u32, group: u32)
    ensures var code := (kind % 0x100, group % 0x100);
            match DecodePair(kind, group)
            case None => code.0 > 3 || code.1 > 9
            case Some(r) =>
              && code.0 <= 3 && code.1 <= 9
              && (Route(r) == Prompt(UserPasswordPrompt) <==> code == (1, 1))
              && (Route(r) == Prompt(PrivateKeyPassphrase) <==> code == (1, 3))
              && (Route(r) == Prompt(Challenge) <==> code == (1, 4) || code == (1, 5))
              && (Route(r).Unsupported? ==> Route(r).reason == UnsupportedRequest(r))
              && (EncodeType(r.0), EncodeGroup(r.1)) == code
  {
  }

  /** What the scan over a request list stops at, if anything. */
  function FirstUnsupported(requests: seq<Request>): Option<Text> {
    if requests == [] then None
    else match Route(requests[0])
      case Unsupported(reason) => Some(reason)
      case Prompt(_) => FirstUnsupported(requests[1..])
  }

  /** `reason` belongs to the earliest request that has no prompt. */
  ghost predicate StopsAt(requests: seq<Request>, reason: Text) {
    exists i :: 0 <= i < |requests| && Route(requests[i]) == Unsupported(reason)
                && (forall j :: 0 <= j < i ==> Route(requests[j]).Prompt?)
  }

  /** The scan passes exactly the lists in which every request has a prompt, and
      otherwise reports the earliest request that has none. */
  lemma {:induction false} FirstUnsupportedIsFirst(requests: seq<Request>)
    ensures FirstUnsupported(requests) == None
            <==> forall i :: 0 <= i < |requests| ==> Route(requests[i]).Prompt?
    ensures forall reason :: FirstUnsupported(requests) == Some(reason) <==> StopsAt(requests, reason)
  {
    if requests != [] && Route(requests[0]).Prompt? {
      var tail := requests[1..];
      FirstUnsupportedIsFirst(tail);
      assert forall i :: 1 <= i < |requests| ==> requests[i] == tail[i - 1];
      assert forall i :: 0 <= i < |tail| ==> tail[i] == requests[i + 1];
    }
  }

  datatype InputRequest = InputRequest(
    kind: AttentionType, group: AttentionGroup, id: u32,
    name: string, description: string, hiddenInput: bool)

  datatype PromptField = PromptField(
    kind: AttentionType, group: AttentionGroup, id: u32,
    name: string, caption: string, masked: bool) {

    /** Identifies one field across a whole form; the id alone does not. */
    function Key(): FieldKey { (EncodeType(kind), EncodeGroup(group), id) }
  }

  type FieldKey = (int, int, u32)

  /** Rust's `char::is_whitespace`, which `trim` strips. */
  predicate IsWhitespace(c: char) {
    var p := c as int;
    9 <= p <= 13 || p == 0x20 || p == 0x85 || p == 0xA0 || p == 0x1680
    || 0x2000 <= p <= 0x200A || p == 0x2028 || p == 0x2029 || p == 0x202F
    || p == 0x205F || p == 0x3000
  }

  predicate IsBlank(s: string) { forall c :: c in s ==> IsWhitespace(c) }

  function TrimStart(s: string): string {
    if s != [] && IsWhitespace(s[0]) then TrimStart(s[1..]) else s
  }

  function TrimEnd(s: string): string {
    if s != [] && IsWhitespace(s[|s| - 1]) then TrimEnd(s[..|s| - 1]) else s
  }

  function Trim(s: string): string { TrimEnd(TrimStart(s)) }

  /** Spaces, tabs and line ends are blank; anything with a printable character of
      ASCII in it is not. */
  lemma WhatIsBlank(s: string)
    ensures IsBlank(" \t\r\n")
    ensures (exists c :: c in s && '!' <= c <= '~') ==> !IsBlank(s)
  {
  }

  /** A text with no whitespace at either end. */
  predicate Tight(s: string) {
    s == "" || (!IsWhitespace(s[0]) && !IsWhitespace(s[|s| - 1]))
  }

  /** `t` is `s` without whitespace at its ends: what was taken off is blank. */
  ghost predicate Trims(s: string, t: string) {
    Tight(t) && exists a, b :: s == a + t + b && IsBlank(a) && IsBlank(b)
  }

  lemma {:induction false} TrimStartSplits(s: string) returns (a: string)
    ensures s == a + TrimStart(s) && IsBlank(a)
    ensures TrimStart(s) == "" || !IsWhitespace(TrimStart(s)[0])
  {
    if s != [] && IsWhitespace(s[0]) {
      var rest := TrimStartSplits(s[1..]);
      a := [s[0]] + rest;
      assert s == [s[0]] + s[1..] == [s[0]] + (rest + TrimStart(s)) == a + TrimStart(s);
    } else {
      a := "";
    }
  }

  lemma {:induction false} TrimEndSplits(s: string) returns (b: string)
    ensures s == TrimEnd(s) + b && IsBlank(b)
    ensures TrimEnd(s) == "" || !IsWhitespace(TrimEnd(s)[|TrimEnd(s)| - 1])
  {
    if s != [] && IsWhitespace(s[|s| - 1]) {
      var rest := TrimEndSplits(s[..|s| - 1]);
      b := rest + [s[|s| - 1]];
      assert s == s[..|s| - 1] + [s[|s| - 1]];
    } else {
      b := "";
    }
  }

  /** Trimming takes the blank ends off and nothing else; what is left is empty
      exactly when the text was blank. */
  lemma TrimTrims(s: string)
    ensures Trims(s, Trim(s)) && (Trim(s) == "" <==> IsBlank(s))
  {
    var a := TrimStartSplits(s);
    var b := TrimEndSplits(TrimStart(s));
    assert s == a + Trim(s) + b;
    assert Trim(s) != "" ==> Trim(s)[0] == TrimStart(s)[0];
    if Trim(s) != "" { assert Trim(s)[0] in s; }
  }

  function ToField(r: InputRequest): PromptField {
    PromptField(r.kind, r.group, r.id, r.name,
                if IsBlank(r.description) then r.name else r.description,
                r.hiddenInput)
  }

  datatype InputResponse = InputResponse(
    kind: AttentionType, group: AttentionGroup, id: u32, value: string)

  /** Two fields share a key only if they answer the very same queue item. */
  lemma KeyIdentifiesField(a: PromptField, b: PromptField)
    ensures a.Key() == b.Key() <==> a.kind == b.kind && a.group == b.group && a.id == b.id
  {
    CodesRoundTrip(a.kind, a.group);
    CodesRoundTrip(b.kind, b.group);
  }
}
