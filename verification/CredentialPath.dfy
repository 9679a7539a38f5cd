/** From a session's input queue to the answers it is given: the worker drains
    the queue into a form, the user fills the form in, and the worker sends every
    answer back to the queue that asked. */
module CredentialPath {
  import opened Prelude
  import opened WireCodes
  import opened AttentionRouting
  import opened TransitionMachine
  import opened WorkerModel
  import opened Invariants
  import opened Form
  import opened Calls

  /** The answers handed to the backend, in order. */
  function AnswersIn(t: Trace): seq<Obs> {
    match t
    case Nil => []
    case Snoc(past, o) => if o.Provided? then AnswersIn(past) + [o] else AnswersIn(past)
  }

  function Answers(s: Path, responses: seq<InputResponse>): seq<Obs> {
    seq(|responses|, i requires 0 <= i < |responses| => Answer(s, responses[i]))
  }

  lemma {:induction false} EachResponseIsSent(w: World, s: Path, responses: seq<InputResponse>)
    ensures AnswersIn(ProvideEach(w, s, responses).0.trace) == AnswersIn(w.trace) + Answers(s, responses)
    decreases |responses|
  {
    if responses != [] {
      var y := Ask(w.Saw(Answer(s, responses[0]))).1;
      EachResponseIsSent(y, s, responses[1..]);
      assert Answers(s, responses) == [Answer(s, responses[0])] + Answers(s, responses[1..]);
    }
  }

  /** Fields come from the queues that were asked, and answer to them. */
  lemma {:induction false} FetchedFieldsBelong(w: World, r: Request, ids: seq<u32>)
    ensures forall f :: f in FetchAll(w, r, ids).0 ==> (f.kind, f.group) == r
    decreases |ids|
  {
    if ids != [] { FetchedFieldsBelong(Ask(w).1, r, ids[1..]); }
  }

  /** The items a queue delivers among its first `n` answers, in order. */
  function Items(replies: seq<Beat>, n: nat): seq<Reply> {
    if n == 0 || replies == [] then []
    else (if replies[0].reply.Item? then [replies[0].reply] else []) + Items(replies[1..], n - 1)
  }

  /** The field is the item: its own id, masked if the queue hides it, labelled
      with its description, or with its name if that is blank. */
  predicate Renders(f: PromptField, item: Reply) {
    && item.Item? && f.id == item.id && f.name == item.name && f.masked == item.hidden
    && f.caption == if IsBlank(item.description) then item.name else item.description
  }

  /** Every item that could be fetched becomes one field, in order. */
  lemma {:induction false} EveryItemBecomesField(w: World, r: Request, ids: seq<u32>)
    ensures var (fields, items) := (FetchAll(w, r, ids).0, Items(w.replies, |ids|));
            |fields| == |items| && forall i :: 0 <= i < |fields| ==> Renders(fields[i], items[i])
    decreases |ids|
  {
    if ids != [] {
      EveryItemBecomesField(Ask(w).1, r, ids[1..]);
      FetchOne(w, r, ids);
    }
  }

  lemma FetchOne(w: World, r: Request, ids: seq<u32>)
    requires ids != []
    ensures var (answer, x) := Ask(w);
            var (fields, items) := (FetchAll(x, r, ids[1..]).0, Items(x.replies, |ids| - 1));
            if answer.Item? then
              && Items(w.replies, |ids|) == [answer] + items
              && (exists f :: FetchAll(w, r, ids).0 == [f] + fields && Renders(f, answer))
            else
              FetchAll(w, r, ids).0 == fields && Items(w.replies, |ids|) == items
  {
    var (answer, x) := Ask(w);
    if answer.Item? {
      var f := ToField(InputRequest(r.0, r.1, answer.id, answer.name, answer.description, answer.hidden));
      assert FetchAll(w, r, ids).0 == [f] + FetchAll(x, r, ids[1..]).0;
    }
  }

  // --------------------------------------------- every queue, every item

  /** An item together with the request whose queue delivered it. */
  type Question = (Request, Reply)

  /** How many items a queue lists, as its id list is answered. */
  function Listed(told: Option<Reply>): nat {
    match told
    case Some(Ids(ids)) => |ids|
    case _ => 0
  }

  /** The items one queue delivers: one answer for every id it lists, of which some
      may fail. */
  function QueueItems(replies: seq<Beat>): seq<Reply> {
    Items(Rest(replies), Listed(Told(replies)))
  }

  /** What is in store once it has been asked for all of them. */
  function QueueRest(replies: seq<Beat>): seq<Beat> {
    Skip(Rest(replies), Listed(Told(replies)))
  }

  function Skip(replies: seq<Beat>, n: nat): seq<Beat> {
    if n >= |replies| then [] else replies[n..]
  }

  /** Everything that is asked, queue after queue. */
  function Questions(replies: seq<Beat>, requests: seq<Request>): seq<Question>
    decreases |requests|
  {
    if requests == [] then []
    else Under(requests[0], QueueItems(replies)) + Questions(QueueRest(replies), requests[1..])
  }

  function Under(r: Request, items: seq<Reply>): seq<Question> {
    seq(|items|, i requires 0 <= i < |items| => (r, items[i]))
  }

  /** The form asks exactly these questions, in order. */
  predicate Asks(fields: seq<PromptField>, questions: seq<Question>) {
    && |fields| == |questions|
    && forall i :: 0 <= i < |fields| ==>
         (fields[i].kind, fields[i].group) == questions[i].0 && Renders(fields[i], questions[i].1)
  }

  lemma {:induction false} FetchAllRest(w: World, r: Request, ids: seq<u32>)
    ensures FetchAll(w, r, ids).1.replies == Skip(w.replies, |ids|)
    decreases |ids|
  {
    if ids != [] {
      FetchAllRest(Ask(w).1, r, ids[1..]);
      if |w.replies| > |ids| { assert w.replies[1..][|ids| - 1..] == w.replies[|ids|..]; }
    }
  }

  lemma QueueAsks(w: World, r: Request)
    ensures var (fields, x) := Drain(w, r);
            Asks(fields, Under(r, QueueItems(w.replies))) && x.replies == QueueRest(w.replies)
  {
    CallTold(w);
    var (answer, x) := Ask(Ask(w).1);
    if Told(w.replies).Some? && answer.Ids? {
      EveryItemBecomesField(x, r, answer.ids);
      FetchedFieldsBelong(x, r, answer.ids);
      FetchAllRest(x, r, answer.ids);
    } else {
      assert Items(Rest(w.replies), 0) == [];
    }
  }

  lemma {:induction false} QueuesAsk(w: World, requests: seq<Request>)
    ensures Asks(DrainAll(w, requests).0, Questions(w.replies, requests))
    decreases |requests|
  {
    if requests != [] {
      QueueAsks(w, requests[0]);
      QueuesAsk(Drain(w, requests[0]).1, requests[1..]);
    }
  }

  /** The form a prompt opens with asks exactly what the queues of its requests
      deliver: every queue in order, and of each queue every item it lists. */
  lemma FormAsksEverything(w: World, s: Path, kind: PromptKind, requests: seq<Request>, message: string)
    ensures var shown := Performed(w, OpenPrompt(s, kind, requests, message)).0.prompt;
            && shown.Some? && shown.value.session == s
            && shown.value.kind == kind && shown.value.message == message
            && Asks(shown.value.fields, Questions(w.replies, requests))
  {
    QueuesAsk(w.Saw(Executed(OpenPrompt(s, kind, requests, message), w.backend.alive)), requests);
  }

  lemma {:induction false} QuestionsBelong(replies: seq<Beat>, requests: seq<Request>)
    ensures forall q :: q in Questions(replies, requests) ==> q.0 in requests && q.1.Item?
    decreases |requests|
  {
    if requests != [] {
      ItemsAreItems(Rest(replies), Listed(Told(replies)));
      QuestionsBelong(QueueRest(replies), requests[1..]);
    }
  }

  /** So every field answers to one of the requests that were made. */
  lemma DrainedFieldsBelong(w: World, requests: seq<Request>)
    ensures forall f :: f in DrainAll(w, requests).0 ==> (f.kind, f.group) in requests
  {
    QueuesAsk(w, requests);
    QuestionsBelong(w.replies, requests);
  }

  lemma {:induction false} ItemsAreItems(replies: seq<Beat>, n: nat)
    ensures forall item :: item in Items(replies, n) ==> item.Item?
  {
    if n > 0 && replies != [] { ItemsAreItems(replies[1..], n - 1); }
  }

  /** Only `ProvideInput` hands anything to the backend. */
  lemma {:induction false} ExecAnswersNothing(w: World, st: seq<Command>)
    requires forall i :: 0 <= i < |st| ==> !st[i].ProvideInput?
    ensures AnswersIn(Exec(w, st).trace) == AnswersIn(w.trace)
    decreases Load(st)
  {
    if st != [] {
      PerformFrame(w, st[0]);
      var (x, fed) := Performed(w, st[0]);
      match fed {
        case None => ExecAnswersNothing(x, st[1..]);
        case Some(e) =>
          FeedbackIsLighter(w, st[0]);
          FeedbackBatch(w, st[0], st[1..]);
          var (y, nested) := Fired(x, e);
          LoadAdds(nested, st[1..]);
          ExecAnswersNothing(y, nested + st[1..]);
      }
    }
  }

  lemma ProvidingSendsAll(w: World, s: Path, responses: seq<InputResponse>)
    requires w.replies != [] && !w.replies[0].reply.Unreachable?
    ensures AnswersIn(Performed(w, ProvideInput(s, responses)).0.trace)
            == AnswersIn(w.trace) + Answers(s, responses)
  {
    var y := Ask(w.Saw(Executed(ProvideInput(s, responses), w.backend.alive))).1;
    assert AnswersIn(y.trace) == AnswersIn(w.trace);
    EachResponseIsSent(y, s, responses);
    var (z, refused) := ProvideEach(y, s, responses);
    JotAllFrame(z, s, refused);
  }

  /** Submitting the prompt of the active session hands the backend exactly the
      responses given, once, in order, whatever is asked next. */
  lemma SubmitReachesBackend(w: World, s: Path, responses: seq<InputResponse>)
    requires w.prompt.Some? && w.prompt.value.session == s && w.machine.IsActive(s)
    requires w.replies != [] && !w.replies[0].reply.Unreachable?
    ensures AnswersIn(Step(w, Ui(SubmitPrompt(responses))).trace)
            == AnswersIn(w.trace) + Answers(s, responses)
  {
    var phase := OnUi(SubmitPrompt(responses));
    OnePhase(w, phase);
    var (x, st) := Fired(w, PromptSubmitted(s, responses));
    var c, rest := ProvideInput(s, responses), [ClosePrompt, CheckReady(s)];
    assert st == [c] + rest;
    ProvidingSendsAll(x, s, responses);
    AnswersThenNoMore(x, c, rest);
    assert AnswersIn(x.trace) == AnswersIn(w.trace);
  }

  lemma AnswersThenNoMore(w: World, c: Command, rest: seq<Command>)
    requires c.ProvideInput? && forall i :: 0 <= i < |rest| ==> !rest[i].ProvideInput?
    ensures AnswersIn(Exec(w, [c] + rest).trace) == AnswersIn(Performed(w, c).0.trace)
  {
    PerformFrame(w, c);
    ExecPlain(w, c, rest);
    ExecAnswersNothing(Performed(w, c).0, rest);
  }

  /** The answer to one question: under the wire type and group of the request that
      raised it, with the item's own id and the value last typed under those three. */
  function AnswerTo(s: Path, q: Question, msgs: seq<Message>): Obs
    requires q.1.Item?
  {
    var (kind, group) := (EncodeType(q.0.0), EncodeGroup(q.0.1));
    Provided(s, kind, group, q.1.id,
             match LastTyped(msgs, (kind, group, q.1.id)) case Some(value) => value case None => "")
  }

  function AnswersTo(s: Path, questions: seq<Question>, msgs: seq<Message>): seq<Obs>
    requires forall q :: q in questions ==> q.1.Item?
  {
    seq(|questions|, i requires 0 <= i < |questions| => AnswerTo(s, questions[i], msgs))
  }

  /** A form opened over any list of requests, filled in with any amount of typing
      and submitted, gives the backend one answer for every item the queues of those
      requests delivered, in the order they were drained: each back under the request
      that raised it, with the item's own id and the value last typed for it. */
  lemma CredentialsRoundTrip(
      w: World, s: Path, kind: PromptKind, requests: seq<Request>, message: string,
      a: AppState, msgs: seq<Message>, x: World)
    requires var shown := Performed(w, OpenPrompt(s, kind, requests, message)).0.prompt;
             && a.values == map[] && NeverWiped(a, msgs)
             && RunApp(a, msgs).snapshot.prompt == shown && RunApp(a, msgs).connected
             && x.prompt == shown && x.machine.IsActive(s)
    requires x.replies != [] && !x.replies[0].reply.Unreachable?
    ensures var questions := Questions(w.replies, requests);
            var done := RunApp(a, msgs + [PressSubmit]);
            && done.sent != [] && done.sent[|done.sent| - 1].SubmitPrompt?
            && done.values == map[]
            && (forall q :: q in questions ==> q.0 in requests && q.1.Item?)
            && AnswersIn(Step(x, Ui(done.sent[|done.sent| - 1])).trace)
               == AnswersIn(x.trace) + AnswersTo(s, questions, msgs)
  {
    SubmitSendsWhatWasTyped(a, msgs);
    FormAsksEverything(w, s, kind, requests, message);
    QuestionsBelong(w.replies, requests);
    var done := RunApp(a, msgs + [PressSubmit]);
    var responses := done.sent[|done.sent| - 1].responses;
    SubmitReachesBackend(x, s, responses);
    EachQuestionIsAnswered(s, x.prompt.value.fields, Questions(w.replies, requests), msgs, responses);
  }

  lemma EachQuestionIsAnswered(
      s: Path, fields: seq<PromptField>, questions: seq<Question>, msgs: seq<Message>,
      responses: seq<InputResponse>)
    requires Asks(fields, questions) && |responses| == |fields|
    requires forall i :: 0 <= i < |fields| ==>
               responses[i] == InputResponse(fields[i].kind, fields[i].group, fields[i].id,
                                             Typed(msgs, fields[i]))
    ensures forall q :: q in questions ==> q.1.Item?
    ensures Answers(s, responses) == AnswersTo(s, questions, msgs)
  {
    forall i | 0 <= i < |fields|
      ensures Answer(s, responses[i]) == AnswerTo(s, questions[i], msgs)
    {
      assert fields[i].Key() == (EncodeType(questions[i].0.0), EncodeGroup(questions[i].0.1), questions[i].1.id);
    }
  }
}
