# openvpn-manager: the protocol, proved

openvpn-manager is a panel applet that drives openvpn3 over D-Bus. This project
models the part of it that must not go wrong and proves what it promises:

- **The transition machine** (`TransitionMachine.dfy`): one event in, an ordered
  batch of commands out, five coupled fields updated in place. The class
  `Machine` is proved against a function from state and event to state and batch.
- **The worker** (`WorkerModel.dfy`, `Worker.dfy`): runs each batch depth-first,
  feeds what `NewTunnel` and `CheckReady` learn back into the machine, reconciles
  against the backend, and keeps the prompt and the logs. The class `Worker` is
  proved against a function of the inputs and of the answers the bus gives.
- **The log store** (`LogBuffer.dfy`): the class `LogStore` with bounded buffers,
  proved against a store that never drops a line.
- **The popup** (`Form.dfy`, `CredentialPath.dfy`): its pages and what each of them
  has to press; from queued requests to a form, edits, responses and
  `UserInputProvide` calls. The class `App` is proved against a function of its
  state and the message.
- **The bus** (`Calls.dfy`, `Adoption.dfy`, `Signals.dfy`): what a call, a startup or
  a signal comes to, told from the answers in store and the worker before it, without
  running the model.
- **Both together** (`Applet.dfy`, `Timer.dfy`, `Display.dfy`): commands queue up on
  their way to the worker, snapshots on their way to the popup, and in between either
  side goes on with what it has.

What is promised over whole runs is in `Guarantees.dfy`, `Attempts.dfy`,
`Endings.dfy`, `Strangers.dfy`, `Secrets.dfy`, `Conservation.dfy`; where the code
falls short of its own documentation, and exactly when, is in `Shortfalls.dfy`, at
the end of `Form.dfy`, in `Applet.dfy` and in `Timer.dfy`, with runs in which it does in
`Witnesses.dfy` and `Journey.dfy`. `Traces.dfy` says what is asked of a run's
history and `Invariants.dfy` holds the induction.

## How a run is modelled

A `World` is the worker's state, the answers the bus still has in store
(`replies`, any sequence at all; when it is used up the bus is unreachable), what
is true of the backend, and a trace of everything handled, carried out and
provided. Each answer says which sessions died of their own accord before it came,
so a session can be lost between any two calls. `After(replies, inputs)` is the
world after startup and any sequence of inputs: clicks, signals, timer ticks, and
sessions dying between inputs. Lost, late, repeated and reordered signals are
simply other input sequences. An input is worked through in phases (check the
teardown, check the status, deliver the event), each delivering at most one event
and running its batch to the end, as the worker's loop does.

What reaches the popup is restricted by `Offered`: the worker, the panel button,
the compositor, the clock and the file picker at any time, and otherwise only what
the page on screen has to press or type into. In `Applet.dfy` a use of the applet is
any sequence of moves: something is pressed, the worker takes the oldest command it
was sent, it takes a signal or a tick, or the popup shows the oldest snapshot that
was published. Both queues can be any length at any time, so a form can be filled
in and sent off while the snapshot that would replace it is still on its way.

What is assumed of openvpn3 is recorded in `backend.sound`, which turns false,
for good, the moment openvpn3 breaks its word:

- `NewTunnel` returns a path no session of the applet's ever had.
- A session is reported over, by a removal signal, by a status that maps to
  Disconnected, or by being left off the session list, only when it is over.
- A session that is over stays over.

External adoption happens once, at startup, as in the code. `SoundRunsExist`
shows a run in which the assumptions hold and a session comes up, and every run in
`Journey.dfy` keeps them. Statements that do not mention `sound` need none of this.

## Model

What a row says of runs holds under the assumptions above, unless the row says
that none are needed; the table facts these rest on are listed under "Helpers". The
dead arm of `on_credentials_required` is proved unreachable where it stands, in the
body of the `Asked` function.

| member | source | states |
|---|---|---|
| Guarantees.NeverTwoSessions | crates/openvpn3-dbus/src/machine.rs:214-386 | Of the sessions the applet created or adopted: after every run, whenever signals come or sessions die, at most one is alive in the backend and it is the one the machine tracks; and at no moment of a run was NewTunnel carried out while any was alive. |
| Guarantees.LetGoForGood | crates/openvpn3-dbus/src/machine.rs:348-386 | A session the applet knew and no longer tracks is never tracked again, over any continuation. |
| Guarantees.WorkerStaysSettled | crates/applet/src/dbus.rs:135-157 | Between inputs of any run: never both active and awaiting; a pending target only during a teardown; an open prompt only with a session; active with an open prompt means auth-pending; Connected or auth-pending means a tracked session. No trust in the backend needed. |
| Guarantees.MachineAloneStaysSettled | crates/openvpn3-dbus/src/machine.rs:256-282 | From a settled state the bare machine stays settled if and only if the event is not a session created during a teardown or over an open prompt, nor a session ready while its prompt is open. |
| Invariants.EveryRunKeepsInv | crates/applet/src/dbus.rs:88-158 | The full invariant (sessions, prompt, finished sessions, intent, connect discipline, logs, display) holds after every run. |
| Invariants.ExecKeepsInv | crates/applet/src/dbus.rs:702-808 | The invariant survives a whole batch with all of its nested feedback, command by command. |
| Guarantees.DisconnectIsTerminal | crates/openvpn3-dbus/src/machine.rs:224-252 | In every run each session gets at most one Disconnect; no later command names it, no input is provided to it and it is never active again. |
| Guarantees.LatestChoiceWins | crates/openvpn3-dbus/src/machine.rs:216-262 | The pending target, the profile of an applet-created active session and the profile of every tunnel ever started are the profile picked last. |
| Guarantees.TeardownHonoursLastWish | crates/openvpn3-dbus/src/machine.rs:366-386 | A completing teardown starts a tunnel if and only if the last selection or disconnect since it began (counting what began it) is a selection, and for that profile. |
| Guarantees.NoWedge | crates/applet/src/dbus.rs:559-580 | With a teardown outstanding the settle guard is on, and one tick whose session list omits the session lets it go and starts exactly the pending tunnel, or none when none was pending. |
| Guarantees.SelectionTakesHold | crates/applet/src/dbus.rs:582-593 | In every run a profile, once picked, either waits for a teardown under way or has had a tunnel started for it since the click, the last one started; and picking it first finds out that an awaited session is already gone. |
| Guarantees.PromptAndMachineAgree | crates/openvpn3-dbus/src/machine.rs:328-337 | For the active session the machine's prompt flag holds exactly when the worker is showing a prompt for that session. |
| Guarantees.ConnectIsEarned | crates/openvpn3-dbus/src/machine.rs:264-282 | Every Connect directly follows a readiness check that succeeded, and a session the applet created had log forwarding asked for before its first check or connect. |
| Guarantees.LogFollowsMachine | crates/applet/src/dbus.rs:884-895 | The session being tracked is the log store's most recent one. |
| Guarantees.DisplayIsHonest | crates/openvpn3-dbus/src/machine.rs:306-346 | Connected is shown only since the tracked session's own CONN_CONNECTED, taken while it was active, and nothing since has moved the display or the session. |
| Guarantees.SwitchSilencesOldSession | crates/applet/src/dbus.rs:582-593 | After the click that switches away from an active session, status check included, Connected can only be shown again on a report, made since, by a different session. |
| Guarantees.FiveCommandsPerEvent | crates/applet/src/dbus.rs:702-808 | Any event, in any state, with any answers, makes the worker carry out at most five commands, nested ones included. |
| WorkerModel.FeedbackIsLighter | crates/applet/src/dbus.rs:794-800 | What a command feeds back weighs strictly less than the command did, which is why execution ends. |
| WorkerModel.ExecAppends | crates/applet/src/dbus.rs:702-808 | The recursive, depth-first execution is the same as one stack of commands. |
| Attempts.AttemptUnfolds | crates/applet/src/dbus.rs:876-896 | A tunnel that comes up is logged, checked, and then, by the verdict alone, connected, prompted for, refused or left; in that order and nothing else. |
| Attempts.SubmissionUnfolds | crates/openvpn3-dbus/src/machine.rs:439-466 | A submitted prompt is provided, closed and checked again, and only the new verdict decides what follows, so a second-round prompt survives. |
| Attempts.StatusOfActiveIsShown | crates/openvpn3-dbus/src/machine.rs:328-346 | A status of the active session is on show at once, whoever caused it, and closes an open prompt exactly when it shows something else than waiting for input; an unmapped one leaves the display alone and is logged; nothing else is done. |
| Attempts.StalledCheckIsExplained | crates/applet/src/dbus.rs:828-865 | A readiness check that leads nowhere leaves a line in the session's log unless the session could not be reached at all. |
| Attempts.AdoptionIsPassive | crates/applet/src/dbus.rs:334-362 | An adopted session becomes the active one and is given no orders. |
| Attempts.StartupAdoptsAtMostOne | crates/applet/src/dbus.rs:323-363 | Startup takes on at most one session, and without one changes nothing. |
| Adoption.StartupShowsWhatItFinds | crates/applet/src/dbus.rs:323-363 | From the answers alone: startup adopts if and only if some listed session's status can be read; then it is the first such one, under the profile read of it or none, its status on show (Disconnected if it maps to nothing, with one line saying so), and otherwise nothing is changed. |
| Signals.AnswerableSignalPrompts | crates/applet/src/dbus.rs:653-668 | An attention signal of the active session that has a prompt opens exactly that prompt, with the signal's message and one field for every item its queue delivers, and shows that input is awaited. |
| Signals.OnePromptAtATime | crates/openvpn3-dbus/src/machine.rs:400-404 | While a prompt is open a further known request does nothing. |
| Signals.StatusReadIsShown | crates/applet/src/dbus.rs:529-557 | Reading the active session's status shows exactly what its two numbers on the bus, cut to eight and sixteen bits, stand for, and leaves the display alone for every other pair. |
| Signals.FailureOutlivesSession | crates/openvpn3-dbus/src/machine.rs:353-361 | When the active session is gone nothing is tracked and no command is issued; Failed stays on show if it was, anything else becomes Disconnected, and so it remains over any inputs without a selection or dismissal. |
| Signals.ReportsOfEndAgree | crates/openvpn3-dbus/src/machine.rs:306-326 | A teardown completed by a status leads to the same machine, prompt, commands and answers used as one completed by a removal. |
| Signals.DyingWordsAreIgnored | crates/openvpn3-dbus/src/machine.rs:315-323 | Any other status of a session being torn down changes nothing. |
| Calls.OneCall | crates/applet/src/dbus.rs:707-733 | Forwarding, connecting and disconnecting make one call if the session can be reached; a refusal of the first two adds exactly one line with openvpn3's reason to that session's log. |
| Calls.OneStart | crates/applet/src/dbus.rs:876-902 | A tunnel request reports and begins the session handed out, or adds exactly the reason under the profile's path. |
| Calls.CheckTold | crates/applet/src/dbus.rs:818-874 | A readiness check reports and notes exactly what the answers give: ready; the understood pairs of the queue with a line for each other one; or openvpn3's reason. |
| Calls.RefusedResponsesAreNoted | crates/applet/src/dbus.rs:759-792 | Every refused response adds its reason to the session's log, in the order given, and nothing else is written. |
| Calls.RefusalIsSeen | crates/openvpn3-dbus/src/logbuf.rs:106-121 | Such a reason about the tracked session is the last line on show. |
| Witnesses.SoundRunsExist | crates/applet/src/dbus.rs:876-896 | The assumptions can be met: a run in which a session comes up and is connected. |
| Endings.EndedStaysEnded | crates/openvpn3-dbus/src/machine.rs:366-386 | From an ended attempt, over any inputs without a selection, no command at all is carried out, a prompt still up stays up, and Failed stays on show exactly until dismissed. |
| Endings.DisconnectSettles | crates/openvpn3-dbus/src/machine.rs:242-254 | Clicking disconnect in any run: after at most one thing the status check notices, one Disconnect with display and prompt left as they are, then no command over any inputs without a selection; once the session is gone nothing is running, wanted or asked, and Disconnected is shown, unless Failed was and nobody dismissed it. |
| Endings.CancelEndsAttempt | crates/openvpn3-dbus/src/machine.rs:470-485 | Cancelling closes the prompt, disconnects, and then nothing, for as long as no profile is picked. |
| Endings.RejectionEndsAttempt | crates/openvpn3-dbus/src/machine.rs:408-420 | An unsupported request notes its reason, disconnects, and then nothing, for as long as no profile is picked. |
| Endings.RefusalStaysExplained | crates/openvpn3-dbus/src/machine.rs:408-420 | Over whole runs, however a session comes to be refused while an input is worked through (a signal, the first readiness check or a later one): Failed is shown and the reason is the last shown line when that input is done, and while no profile is waiting or picked there is no further command and the reason stays shown, through the removal, until capacity lines follow or a note reaches the removed session. |
| Endings.RefusedSignalStaysExplained | crates/applet/src/dbus.rs:653-679 | For an attention signal that cannot be answered: the two commands it causes, none after, and its reason kept on show. |
| Strangers.StrangersChangeNothing | crates/openvpn3-dbus/src/machine.rs:306-325 | Taking every stranger's signal out of a run leaves the machine, the prompt, every command and every answer as they were. |
| Strangers.RepeatedEndingsAreStrangers | crates/openvpn3-dbus/src/machine.rs:348-369 | Once a session was let go every further report of its end is a stranger's, so a teardown completes once. |
| Secrets.RunIsBlind | crates/applet/src/dbus.rs:759-792 | Blanking every typed value commutes with running, for all inputs. |
| Secrets.NothingTypedIsKept | crates/applet/src/dbus.rs:785-791 | Two runs that differ only in what was typed end with the same machine, prompt and logs. |
| Conservation.BooksBalance | crates/openvpn3-dbus/src/machine.rs:175-212 | Over any event sequence, however ill-formed: tunnels plus a pending target never exceed selections, disconnects plus the active session never exceed creations plus adoptions, and checks equal creations plus answers. |
| Conservation.AllOrNothing | crates/openvpn3-dbus/src/machine.rs:390-437 | A prompt opens if and only if something is asked and all of it can be answered, and it carries the whole list; otherwise the earliest unanswerable request is noted and the session ended. |
| AttentionRouting.FirstUnsupportedIsFirst | crates/openvpn3-dbus/src/machine.rs:406-421 | The scan passes exactly the lists that can be answered in full, and otherwise reports the earliest request that cannot. |
| AttentionRouting.RequestsOnTheWire | crates/openvpn3-dbus/src/attention.rs:73-113 | By the numbers on the bus: which request pairs decode, which prompt each of the four opens, and that any other is refused by its own name. |
| StatusMap.StatusesOnTheWire | crates/openvpn3-dbus/src/status.rs:105-149 | By the numbers on the bus: which status pairs decode and which of them show Connected, Disconnected, Failed, waiting for input or Connecting; every other known one changes nothing. |
| AttentionRouting.KeyIdentifiesField | crates/openvpn3-dbus/src/attention.rs:144-156 | Two fields share a key if and only if they answer the same queue item. |
| WireCodes.NarrowingIsExact | crates/applet/src/dbus.rs:848-859 | A queued pair is answered under its own wire values if and only if neither lost bits to the narrowing cast. |
| WireCodes.NarrowingAliases | crates/applet/src/dbus.rs:659-662 | A wire pair openvpn3 never defined is taken for user name and password. |
| Form.SubmitSendsWhatWasTyped | crates/applet/src/app.rs:255-284 | Over any messages that do not wipe the form, submitting sends one response per field in order, each with the value last typed into that field, then holds nothing and closes the popup. |
| Form.FormHoldsLastTyped | crates/applet/src/app.rs:255-257 | Until wiped, the form holds under each key exactly the value last typed there. |
| Form.FieldsDoNotShare | crates/applet/src/app.rs:51-55 | Typing into one field changes another's answer only when both answer the same queue item. |
| Form.NothingTypedOutlivesPrompt | crates/applet/src/app.rs:136-297 | Over every sequence of messages the rendered pages can send and any snapshots, nothing typed is held unless the popup is open on the page of a prompt that is up; a withdrawn prompt always takes what was typed and its page along. |
| Form.DeleteTakesTwoSteps | crates/applet/src/app.rs:244-253 | Over every such sequence a profile is only deleted by confirming on its own page, after arming there with no renaming or disarming since, and not while the profile is in use. |
| Form.DeletingGoesThrough | crates/applet/src/app.rs:211-253 | A listed profile that is not in use can be opened, armed and confirmed, and then its deletion is sent. |
| Form.RenamingGoesThrough | crates/applet/src/app.rs:211-242 | A listed profile can be opened, renamed and confirmed; the new name without blanks at its ends is sent once, unless it is empty or the old one. |
| Form.ImportingGoesThrough | crates/applet/src/app.rs:194-206 | Importing closes the popup and sends the file if one is chosen. |
| Form.LookingChangesNothing | crates/applet/src/app.rs:176-223 | Looking at a failure's log or at a profile and going back leaves the menu as it was and sends nothing. |
| Form.NothingIsSentUnasked | crates/applet/src/app.rs:136-297 | Over every sequence of messages, every command ever sent has a message that means it; the clock, the pages and typing send nothing. |
| Form.LateCloseIsIgnored | crates/applet/src/app.rs:168-174 | Over every use of the popup, a close reported for one that was closed before changes nothing. |
| Form.PromptComesOnScreen | crates/applet/src/app.rs:140-151 | A prompt that comes up is on screen in an open popup if and only if no other was up before it or its page is on screen already. |
| Form.ReplacedPromptIsPrefilled | crates/applet/src/app.rs:140-151 | A prompt that comes up starts empty if and only if no other prompt was up (or nothing was typed into that one). |
| CredentialPath.CredentialsRoundTrip | crates/applet/src/dbus.rs:735-783 | From the answers of the queues through any typing to submission: one UserInputProvide for every item delivered for every request, in order, under the wire type and group of the request that raised it, with the item's id and the value last typed for it. |
| CredentialPath.FormAsksEverything | crates/applet/src/dbus.rs:735-755 | From the answers alone: the prompt opened for any requests is for that session, kind and message, and its fields render exactly the items delivered by every queue for every id it lists, in order. |
| CredentialPath.SubmitReachesBackend | crates/applet/src/dbus.rs:598-603 | Submitting the active session's prompt hands the backend exactly those responses, once, whatever is asked next. |
| CredentialPath.DrainedFieldsBelong | crates/applet/src/dbus.rs:910-950 | Every drained field answers to one of the queues that were asked. |
| CredentialPath.EveryItemBecomesField | crates/openvpn3-dbus/src/attention.rs:158-177 | Every item that could be fetched becomes one field, in order, masked if hidden and labelled with its description or, if that is blank, its name. |
| Applet.EveryUseIsSane | crates/applet/src/dbus.rs:107-157 | However popup and worker are used together, with signals and ticks at any time and commands and snapshots under way for any time, the worker keeps its full invariant and nothing typed is held but at an open prompt. |
| Timer.TickLeavesPictureStale | crates/applet/src/dbus.rs:145-154 | A tick changes what there is to show without publishing it if and only if, before it, either no teardown is outstanding, the display is Connecting and the status in store is one nobody knows whose note changes the shown log; or the list in store omits the awaited session and the start of the profile waiting behind it leads, by its verdict and the status in store after it, to the very state there is, with another profile or log on show. |
| Timer.StartLands | crates/applet/src/dbus.rs:876-902 | What the tunnel started by a completed teardown comes to (machine, log, answers used up) is foretold by the answers in store alone. |
| Timer.PopupShowsTheTruth | crates/applet/src/dbus.rs:107-157 | Over every use of the applet in which no tick is overlooked in that sense, the popup shows exactly what is so whenever no snapshot is on its way to it. |
| Applet.OnlyTicksSpoilPicture | crates/applet/src/dbus.rs:136-154 | After every command and signal the newest snapshot is what is so, whatever was on its way before; of all moves only a tick can make it otherwise. |
| Applet.ClosingEndsAttempt | crates/applet/src/app.rs:286-291 | Each way out of the popup (its button, a click elsewhere, the form's Cancel) closes it and forgets what was typed; once the worker has taken what was sent, the prompt is closed, the session disconnected and Failed shown if and only if a prompt's page was on screen and the worker's prompt is for the running session, and otherwise session, prompt and waiting profile stay as they were. |
| Display.DismissingClearsFailure | crates/applet/src/app.rs:192 | Dismissing a failure, once taken, issues no command, changes only a failed display, to Disconnected, and the next picture no longer shows or offers to dismiss a failure. |
| Display.PressingReachesWorker | crates/applet/src/app.rs:182-192 | Each menu button that acts on the connection sends its one command, which the worker takes next, and closes the popup unless it is Dismiss. |
| Display.ConnectingTakesHold | crates/applet/src/app.rs:182-185 | Connect pressed in any use of the applet: the profile then waits for a teardown under way or has had the last tunnel started for it. |
| Display.MenuOffersWhatIsSo | crates/applet/src/app.rs:431-515 | What the published picture makes the menu offer, in terms of the worker: Disconnect for what is running, Connect for everything else, the credentials of an awaited prompt, log and Dismiss for a failure. |
| Display.PublishedLogIsLatest | crates/applet/src/dbus.rs:181-187 | The published log is exactly the last thousand lines of the session on show, or nothing where there are none. |
| Display.RefusalIsOffered | crates/openvpn3-dbus/src/machine.rs:408-420 | Over whole runs, after any input in which a session was refused the menu shows the failure and the log it offers ends with the reason. |
| Display.FirstFailureIsShown | crates/applet/src/dbus.rs:897-900 | A first tunnel that is not handed out leaves openvpn3's reason as the whole published log. |
| Applet.CancelNeedsLivePrompt | crates/openvpn3-dbus/src/machine.rs:470-485 | Whenever the worker takes a cancel, it ends the attempt if and only if the prompt it then has is for the running session, and otherwise changes nothing. |
| Applet.SubmissionFollowsWorker | crates/applet/src/dbus.rs:598-603 | Submitted answers, however long on their way, go all and in order to the session of the worker's prompt when it takes them, if that is running and reachable, and otherwise nowhere, whichever session's form they were typed into. |
| Journey.ClosingLeavesPromptWaiting | crates/applet/src/app.rs:343-353 | A run in which the popup is closed while a session waits for input, and neither is a command sent nor the session ended. |
| Journey.ClosingGoesUnheard | crates/openvpn3-dbus/src/machine.rs:470-473 | A run in which the popup is closed at a prompt and session, prompt and waiting profile all stay: the prompt's session is only being torn down. |
| Journey.FormOpensFilledIn | crates/applet/src/app.rs:140-156 | A run in which the form for one session opens holding what was typed into another's. |
| Journey.AnswerGoesAstray | crates/applet/src/dbus.rs:145-154 | A run in which the timer starts a second session without a snapshot and what was typed into the first one's form is provided to the second. |
| Journey.AnswerCrossesSnapshot | crates/applet/src/app.rs:259-284 | A run in which the same happens because Connect is pressed while the snapshot of the second prompt is on its way. |
| Shortfalls.FailedTunnelStrandsDisplay | crates/applet/src/dbus.rs:897-900 | A selection with nothing tracked, and a completed teardown with a profile waiting, end with a tracked session if and only if the backend hands out a tunnel; otherwise Connecting is left on show with no session and nothing wanted. |
| Shortfalls.StrandedTimerNeverIdles | crates/applet/src/dbus.rs:176-179 | From there no number of ticks moves the machine or lets the timer's guard turn off. |
| Shortfalls.TickReadsOnlyStatus | crates/applet/src/dbus.rs:529-557 | With no teardown outstanding a tick moves the machine exactly by the status it reads, never by the session list. |
| Shortfalls.TicksMissRemovalOfActive | crates/applet/src/dbus.rs:533-542 | Whatever the bus answers, no number of ticks lets the active session go. |
| Shortfalls.RemovalLeavesPromptUp | crates/openvpn3-dbus/src/machine.rs:348-386 | When a session is reported gone, active or being torn down, no command closes its prompt; with no profile waiting the prompt then stays up, and there is no command at all, over any inputs without a selection, cancels and submissions included. |
| Witnesses.StalePromptHappens | crates/openvpn3-dbus/src/machine.rs:353-363 | A run that leaves a prompt up with nothing tracked, and in which the next session's prompt then takes its place. |
| Shortfalls.UnanswerableEndsAttempt | crates/applet/src/dbus.rs:848-871 | A failed readiness check with requests queued ends the attempt if and only if a known one has no prompt; so "one unanswerable request ends it" holds if and only if every queued code is known or some known one is refused. |
| Witnesses.PromptBesideUnknownCode | crates/applet/src/dbus.rs:848-871 | A run from startup that opens a prompt although one of the two queued requests will never be answered. |
| LogBuffer.BufferIsEveryLineSinceBirth | crates/openvpn3-dbus/src/logbuf.rs:74-133 | After any operations a session has a buffer exactly when one was begun or first noted and not removed since, and it holds every line addressed to it from then on. |
| LogBuffer.RemoveKeepsShown | crates/openvpn3-dbus/src/logbuf.rs:125-133 | Removing any session never changes what the log window shows. |
| LogBuffer.NoteHidesRetained | crates/openvpn3-dbus/src/logbuf.rs:106-121 | A note adds its own line and hides nothing if and only if it is not about the shown session after that session was removed with lines to show. |
| LogBuffer.LineSlipsBack | crates/openvpn3-dbus/src/logbuf.rs:94-133 | A shown line moves back one place per later line and survives removal; only a new attempt or a late note takes it away. |
| LogBuffer.VisibleIsShown | crates/openvpn3-dbus/src/logbuf.rs:144-166 | A line among the last k of the shown session is in the rendered log whenever k lines fit. |
| LogBuffer.LatestAppends | crates/openvpn3-dbus/src/logbuf.rs:94-101 | Dropping the oldest line of a full buffer and appending keeps exactly the latest lines. |
| LogBuffer.LogStore.constructor | crates/openvpn3-dbus/src/logbuf.rs:65-72 | An empty store whose capacity is at least one. |
| LogBuffer.LogStore.BeginSession | crates/openvpn3-dbus/src/logbuf.rs:76-81 | Refines starting an empty unbounded buffer, superseding the retained log. |
| LogBuffer.LogStore.AdoptExternalSession | crates/openvpn3-dbus/src/logbuf.rs:86-90 | Refines turning to a session with nothing captured. |
| LogBuffer.LogStore.PushLine | crates/openvpn3-dbus/src/logbuf.rs:94-101 | Refines appending to a tracked session's unbounded buffer and dropping what is for no one. |
| LogBuffer.LogStore.Note | crates/openvpn3-dbus/src/logbuf.rs:106-121 | Refines appending the applet's line, creating the buffer if there is none. |
| LogBuffer.LogStore.RemoveSession | crates/openvpn3-dbus/src/logbuf.rs:125-133 | Refines retiring the shown session's buffer and dropping any other. |
| LogBuffer.LogStore.HasBuffer | crates/openvpn3-dbus/src/logbuf.rs:135-141 | True exactly when the unbounded store has lines, live or retained, for the session. |
| LogBuffer.LogStore.MostRecent | crates/openvpn3-dbus/src/logbuf.rs:144-166 | Renders exactly the last capacity lines of the unbounded store's shown session, or says that nothing was captured or seen. |
| TransitionMachine.Machine.Handle | crates/openvpn3-dbus/src/machine.rs:175-212 | The new state and the batch are those of the specification every run theorem is about. |
| TransitionMachine.Machine.OnProfileSelected | crates/openvpn3-dbus/src/machine.rs:216-240 | Retargets during a teardown, tears an active session down first, starts a tunnel only with nothing tracked. |
| TransitionMachine.Machine.OnDisconnectRequested | crates/openvpn3-dbus/src/machine.rs:242-254 | Drops the pending target and tears the active session down. |
| TransitionMachine.Machine.OnSessionCreated | crates/openvpn3-dbus/src/machine.rs:256-274 | The session becomes active; forwarding is asked for before readiness. |
| TransitionMachine.Machine.OnSessionReady | crates/openvpn3-dbus/src/machine.rs:276-282 | Connects the active session and ignores any other. |
| TransitionMachine.Machine.OnExternalSession | crates/openvpn3-dbus/src/machine.rs:284-302 | Adopts only with nothing tracked, and shows the status (what that comes to: `StartupShowsWhatItFinds`). |
| TransitionMachine.Machine.OnStatus | crates/openvpn3-dbus/src/machine.rs:306-326 | Ignores untracked sessions; a session being torn down only ever completes its teardown. |
| TransitionMachine.Machine.ApplyStatus | crates/openvpn3-dbus/src/machine.rs:328-346 | Shows a mapped status, closing a prompt no longer wanted; notes an unmapped one. |
| TransitionMachine.Machine.OnSessionRemoved | crates/openvpn3-dbus/src/machine.rs:348-364 | Completes the teardown, or lets the active session go without hiding a failure (`FailureOutlivesSession`). |
| TransitionMachine.Machine.FinishTeardown | crates/openvpn3-dbus/src/machine.rs:366-386 | Starts the pending tunnel, or settles without hiding a failure. |
| TransitionMachine.Machine.OnCredentialsRequired | crates/openvpn3-dbus/src/machine.rs:390-437 | The early-return scan computes the first unsupported request of the whole list. |
| TransitionMachine.Machine.OnPromptSubmitted | crates/openvpn3-dbus/src/machine.rs:439-466 | Provide, close, check again, in that order. |
| TransitionMachine.Machine.OnPromptCancelled | crates/openvpn3-dbus/src/machine.rs:470-485 | Ends the attempt outright. |
| Worker.Worker.Execute | crates/applet/src/dbus.rs:702-808 | The loop with its recursion reaches the world that one stack of commands reaches, and terminates. |
| Worker.Worker.PerformOne | crates/applet/src/dbus.rs:703-807 | One command with everything it feeds back, before the rest of the batch. |
| Worker.Worker.NewTunnelOn | crates/applet/src/dbus.rs:876-902 | Begins the log and reports the session, or notes why there is none. |
| Worker.Worker.CheckReadyOn | crates/applet/src/dbus.rs:818-874 | Ready, or every recognised queued request, or a noted failure. |
| Worker.Worker.ReadPairs | crates/applet/src/dbus.rs:848-860 | Keeps the recognised pairs in order and notes each of the others. |
| Worker.Worker.DrainInputQueue | crates/applet/src/dbus.rs:741-746 | The fields of every requested queue, in request order. |
| Worker.Worker.DrainOne | crates/applet/src/dbus.rs:910-950 | One field per queued item that could be fetched (all of them: `FormAsksEverything`). |
| Worker.Worker.ProvideInputTo | crates/applet/src/dbus.rs:759-792 | One call per response in order; every refusal is noted afterwards. |
| Worker.Worker.TransitionInFlight | crates/applet/src/dbus.rs:176-179 | The settle guard. |
| Worker.Worker.ReconcileTeardown | crates/applet/src/dbus.rs:559-580 | Treats a session missing from the list as removed. |
| Worker.Worker.ReconcileActiveStatus | crates/applet/src/dbus.rs:529-557 | Delivers the active session's real status. |
| Worker.Worker.OnUiCommand | crates/applet/src/dbus.rs:582-629 | Reconciles first where the code does, then delivers the click; import, rename and delete deliver nothing. |
| Worker.Worker.OnWire | crates/applet/src/dbus.rs:631-698 | Logs or delivers one signal (`AnswerableSignalPrompts`, `RefusedSignalStaysExplained`, `StatusOfActiveIsShown`, `FailureOutlivesSession`). |
| Worker.Worker.OnTick | crates/applet/src/dbus.rs:145-154 | One firing of the settle timer. |
| Worker.Worker.Publish | crates/applet/src/dbus.rs:181-205 | The snapshot is the machine's state and active profile, the prompt, and the shown session's last thousand lines. |
| Worker.Worker.AdoptExistingSessions | crates/applet/src/dbus.rs:323-363 | Adopts the first listed session whose status can be read, and no other. |
| Worker.Serve | crates/applet/src/dbus.rs:107-157 | Starting, adopting and taking any inputs in turn reaches exactly the world every run theorem speaks of. |
| Form.App.Update | crates/applet/src/app.rs:136-297 | The popup's new state, and the commands sent, are those of the specification the form lemmas are about. |

## Helpers

Facts read off a finite table or one branch, which the rows above rest on:

- `StatusMap.StatusesThatMatter` (crates/openvpn3-dbus/src/status.rs:105-149): one
  status pair means connected and three mean over.
- `AttentionRouting.OnlyCredentialsArePrompted`
  (crates/openvpn3-dbus/src/attention.rs:73-113): the four request pairs that have
  a prompt.
- `WireCodes.CodesRoundTrip` and `WireCodes.StatusCodesRoundTrip`
  (crates/openvpn3-dbus/src/wire.rs:27-45): decoding inverts encoding.
- `Form.UpdateValues` and `Form.NothingHeldAfterPrompt`
  (crates/applet/src/app.rs:136-297): what one message does to the typed values.
- `Form.ClosingCancelsOnlyAtPrompt` (crates/applet/src/app.rs:343-353): when closing
  the popup sends a cancel.
- `AttentionRouting.TrimTrims` and `AttentionRouting.WhatIsBlank`
  (crates/openvpn3-dbus/src/attention.rs:158-177): what trimming takes off, and what
  counts as blank.
- `Attempts.ReadyMeansReady` (crates/applet/src/dbus.rs:818-828): when a check
  reports ready.

## Where the code and its documentation differ

The model follows the code.

- The plan (docs/plans/2026-08-11-001-feat-openvpn3-tray-manager-plan.md:660) and
  crates/applet/src/app.rs:343-344 say that dismissing the prompt's window is a
  cancel that leaves no session running. The code cancels only when a prompt's page
  is on screen, and the cancel ends something only if the prompt is for the running
  session (`ClosingEndsAttempt`). The page is not on screen after a second round of
  questions, which does not open the popup (`PromptComesOnScreen`,
  `ClosingLeavesPromptWaiting`); and a prompt can outlive its session, so that
  closing it leaves a waiting profile to start (`ClosingGoesUnheard`).
- The plan's AE3 (line 669) asks that no value carry from one connect to the next;
  a prompt that replaces another directly keeps what was typed into that one
  (`ReplacedPromptIsPrefilled`, `FormOpensFilledIn`). It can come about because a
  vanished session's prompt is never closed (`RemovalLeavesPromptUp`,
  `StalePromptHappens`). Values never outlive the prompt page as such
  (`NothingTypedOutlivesPrompt`).
- crates/applet/src/dbus.rs:48 says that the snapshot is replaced on every change;
  the settle timer publishes one only if the connection state changed. Exactly which
  ticks leave the popup wrong until something else happens is
  `TickLeavesPictureStale`; without one it is right once nothing is on its way to it
  (`PopupShowsTheTruth`).
- crates/applet/src/dbus.rs:43-45 says that an answer goes back to whichever group
  asked for it; a submission does not name its session, and goes to the one the
  worker is asking for when it arrives (`SubmissionFollowsWorker`). After an
  overlooked tick (`AnswerGoesAstray`) or just before a snapshot arrives
  (`AnswerCrossesSnapshot`) that can be one that did not ask.
- crates/openvpn3-dbus/src/machine.rs:406-407 says one unanswerable group fails
  the whole attempt; queued codes this build does not know are noted and skipped
  instead (`UnanswerableEndsAttempt`, `PromptBesideUnknownCode`).
- crates/applet/src/dbus.rs:122-126 says the settle timer goes idle once a
  transition settles; after a tunnel that could not be started it never does,
  because Connecting stays on show (`FailedTunnelStrandsDisplay`,
  `StrandedTimerNeverIdles`).

## Left out

- Bus connection, proxies, subscriptions, retries and sleeps: replaced by arbitrary answers and an arbitrary sequence of inputs; building a proxy and parsing a path are one answer that may be "unreachable".
- Decoding of raw status and lifecycle signals in the subscription tasks: the inputs are the decoded `Wire` values; the narrowing casts are modelled where the worker itself applies them.
- What refreshing the list, importing, renaming and deleting profiles do inside openvpn3: the popup's side is modelled, the worker's calls never reach the machine, and in `Applet.dfy` any list may come of them.
- `status_message`, `session_created`, `active_name` and the debug output: shown, but steering nothing; what `Timer.dfy` says of the picture leaves them out.
- Wording of log lines and of the reason openvpn3 is unavailable: a line is a value saying what it is about and carrying the backend's error text.
- Layout, icons, popup geometry and the file picker: of the views only what can be pressed or typed into is modelled.
- A message counts as sent by the page as it is when the message is handled; one that was pressed just before a snapshot replaced the page under it is not covered by `Offered`.
- Bounds of the channels between worker and popup: both queues are unbounded here.
- `main.rs` and the single-instance lock: the guarantee is the bus daemon's.
- Form.App.Update: commands are recorded in the order they are sent; the code hands each to a task of its own, so their arrival order at the worker is not captured.
- Overwriting of secrets in memory (app.rs:336-341): a value is either held or not.
- Nothing was executed: everything here is proved about the model.
