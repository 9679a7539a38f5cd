/** The popup: its pages, what is typed into the credential form, when that is
    sent and when it is wiped. */
module Form {
  import opened Prelude
  import opened StatusMap
  import opened AttentionRouting
  import opened WorkerModel

  datatype Page = MenuPage | ManagePage(profile: Profile) | AuthPage | LogPage

  datatype Message =
    | WorkerReady
    | SnapshotArrived(snapshot: Snapshot)
    | TogglePopup
    | PopupClosed(id: nat)
    | BackToMenu
    | PickProfile(config: Path)
    | PickDisconnect
    | PickDismiss
    | PickImport
    | ImportChosen(file: Option<string>)
    | OpenLog
    | OpenAuth
    | ManageProfile(config: Path)
    | RenameChanged(value: string)
    | ConfirmRename
    | ArmDelete
    | DisarmDelete
    | ConfirmDelete
    | FieldChanged(key: FieldKey, value: string)
    | PressSubmit
    | PressCancel
    | ClockTick

  type Values = map<FieldKey, string>

  datatype AppState = AppState(
    page: Page,
    popup: Option<nat>,
    nextId: nat,
    renameValue: string,
    deleteArmed: bool,
    values: Values,
    snapshot: Snapshot,
    connected: bool,
    sent: seq<UiCommand>)
  {
    function Sending(c: UiCommand): AppState { if connected then this.(sent := sent + [c]) else this }

    /** The prompt is on screen, so leaving it means giving it up. */
    predicate AtPrompt() { page == AuthPage && snapshot.prompt.Some? }

    function CancelledIfOpen(): AppState {
      if AtPrompt() then Sending(CancelPrompt).(values := map[]) else this
    }

    function Opened(): AppState {
      if popup.Some? then this
      else Sending(RefreshProfiles).(popup := Some(nextId), nextId := nextId + 1)
    }

    function Shut(): AppState { this.(page := MenuPage, popup := None) }
    function Closed(): AppState { CancelledIfOpen().Shut() }
  }

  const EMPTY_APP := AppState(MenuPage, None, 0, "", false, map[], NO_SNAPSHOT, false, [])

  /** What a field holds; one that was never typed into is empty. */
  function ValueOf(values: Values, key: FieldKey): string {
    if key in values then values[key] else ""
  }

  function ResponseTo(f: PromptField, values: Values): InputResponse {
    InputResponse(f.kind, f.group, f.id, ValueOf(values, f.Key()))
  }

  function Responses(fields: seq<PromptField>, values: Values): seq<InputResponse> {
    seq(|fields|, i requires 0 <= i < |fields| => ResponseTo(fields[i], values))
  }

  /** The first listed profile with this path. */
  function Find(profiles: seq<Profile>, config: Path): Option<Profile> {
    if profiles == [] then None
    else if profiles[0].config == config then Some(profiles[0])
    else Find(profiles[1..], config)
  }

  function Updated(a: AppState, msg: Message): AppState {
    match msg
    case WorkerReady => a.(connected := true)
    case SnapshotArrived(next) =>
      var b := a.(snapshot := next);
      if a.snapshot.prompt.None? && next.prompt.Some? then b.(values := map[], page := AuthPage).Opened()
      else if a.snapshot.prompt.Some? && next.prompt.None? && a.page == AuthPage
      then b.(page := MenuPage, values := map[])
      else b
    case TogglePopup => if a.popup.Some? then a.Closed() else a.(page := MenuPage).Opened()
    case PopupClosed(id) =>
      if a.popup == Some(id) then a.(popup := None).CancelledIfOpen().(page := MenuPage) else a
    case BackToMenu => a.CancelledIfOpen().(page := MenuPage, deleteArmed := false)
    case PickProfile(config) => a.Sending(SelectProfile(config)).Closed()
    case PickDisconnect => a.Sending(StopTunnel).Closed()
    case PickDismiss => a.Sending(DismissFailure)
    case PickImport => a.Closed()
    case ImportChosen(file) => (match file case Some(path) => a.Sending(Import(path)) case None => a)
    case OpenLog => a.(page := LogPage)
    case OpenAuth => a.(page := AuthPage)
    case ManageProfile(config) =>
      (match Find(a.snapshot.profiles, config)
       case Some(p) => a.(renameValue := p.name, deleteArmed := false, page := ManagePage(p))
       case None => a)
    case RenameChanged(value) => a.(renameValue := value, deleteArmed := false)
    case ConfirmRename =>
      var name := Trim(a.renameValue);
      (if a.page.ManagePage? && name != "" && name != a.page.profile.name
       then a.Sending(RenameProfile(a.page.profile.config, name)) else a).(page := MenuPage)
    case ArmDelete => a.(deleteArmed := true)
    case DisarmDelete => a.(deleteArmed := false)
    case ConfirmDelete =>
      (if a.page.ManagePage? then a.Sending(DeleteProfile(a.page.profile.config)) else a)
      .(deleteArmed := false, page := MenuPage)
    case FieldChanged(key, value) => a.(values := a.values[key := value])
    case PressSubmit =>
      if a.snapshot.prompt.None? then a
      else a.Sending(SubmitPrompt(Responses(a.snapshot.prompt.value.fields, a.values)))
           .(values := map[]).Shut()
    case PressCancel => a.Sending(CancelPrompt).(values := map[]).Shut()
    case ClockTick => a
  }

  class App {
    var page: Page
    var popup: Option<nat>
    var nextId: nat
    var renameValue: string
    var deleteArmed: bool
    var fieldValues: Values
    var snapshot: Snapshot
    var connected: bool
    var sent: seq<UiCommand>

    ghost function View(): AppState
      reads this
    {
      AppState(page, popup, nextId, renameValue, deleteArmed, fieldValues, snapshot, connected, sent)
    }

    constructor ()
      ensures View() == EMPTY_APP
    {
      page, popup, nextId := MenuPage, None, 0;
      renameValue, deleteArmed, fieldValues := "", false, map[];
      snapshot, connected, sent := NO_SNAPSHOT, false, [];
    }

    method Send(c: UiCommand)
      modifies this
      ensures View() == old(View()).Sending(c)
    {
      if connected {
        sent := sent + [c];
      }
    }

    /** Overwrite every value with the empty string, then forget the keys. */
    method ClearFields()
      modifies this
      ensures View() == old(View()).(values := map[])
    {
      fieldValues := map key | key in fieldValues :: "";
      fieldValues := map[];
    }

    method CancelPromptIfOpen()
      modifies this
      ensures View() == old(View()).CancelledIfOpen()
    {
      if page == AuthPage && snapshot.prompt.Some? {
        Send(CancelPrompt);
        ClearFields();
      }
    }

    method OpenPopup()
      modifies this
      ensures View() == old(View()).Opened()
    {
      if popup.Some? {
        return;
      }
      Send(RefreshProfiles);
      popup := Some(nextId);
      nextId := nextId + 1;
    }

    method ClosePopup()
      modifies this
      ensures View() == old(View()).Closed()
    {
      CancelPromptIfOpen();
      ClosePopupWithoutCancel();
    }

    method ClosePopupWithoutCancel()
      modifies this
      ensures View() == old(View()).Shut()
    {
      page := MenuPage;
      popup := None;
    }

    method FindProfile(config: Path) returns (found: Option<Profile>)
      ensures found == Find(snapshot.profiles, config)
    {
      var profiles := snapshot.profiles;
      for i := 0 to |profiles|
        invariant Find(profiles, config) == Find(profiles[i..], config)
      {
        assert profiles[i..][1..] == profiles[i + 1..];
        if profiles[i].config == config {
          return Some(profiles[i]);
        }
      }
      return None;
    }

    method Show(next: Snapshot)
      modifies this
      ensures View() == Updated(old(View()), SnapshotArrived(next))
    {
      var appeared := snapshot.prompt.None? && next.prompt.Some?;
      var gone := snapshot.prompt.Some? && next.prompt.None?;
      snapshot := next;
      if appeared {
        fieldValues := map[];
        page := AuthPage;
        OpenPopup();
        return;
      }
      if gone && page == AuthPage {
        page := MenuPage;
        ClearFields();
      }
    }

    method Toggle()
      modifies this
      ensures View() == Updated(old(View()), TogglePopup)
    {
      if popup.Some? {
        ClosePopup();
      } else {
        page := MenuPage;
        OpenPopup();
      }
    }

    method OnClosed(id: nat)
      modifies this
      ensures View() == Updated(old(View()), PopupClosed(id))
    {
      if popup == Some(id) {
        popup := None;
        CancelPromptIfOpen();
        page := MenuPage;
      }
    }

    method Manage(config: Path)
      modifies this
      ensures View() == Updated(old(View()), ManageProfile(config))
    {
      var found := FindProfile(config);
      match found {
        case Some(profile) =>
          renameValue := profile.name;
          deleteArmed := false;
          page := ManagePage(profile);
        case None =>
      }
    }

    method Rename()
      modifies this
      ensures View() == Updated(old(View()), ConfirmRename)
    {
      if page.ManagePage? {
        var name := Trim(renameValue);
        if name != "" && name != page.profile.name {
          Send(RenameProfile(page.profile.config, name));
        }
      }
      page := MenuPage;
    }

    method Delete()
      modifies this
      ensures View() == Updated(old(View()), ConfirmDelete)
    {
      if page.ManagePage? {
        Send(DeleteProfile(page.profile.config));
      }
      deleteArmed := false;
      page := MenuPage;
    }

    method Submit()
      modifies this
      ensures View() == Updated(old(View()), PressSubmit)
    {
      if snapshot.prompt.None? {
        return;
      }
      Send(SubmitPrompt(Responses(snapshot.prompt.value.fields, fieldValues)));
      ClearFields();
      ClosePopupWithoutCancel();
    }

    method Update(msg: Message)
      modifies this
      ensures View() == Updated(old(View()), msg)
    {
      match msg {
        case WorkerReady => connected := true;
        case SnapshotArrived(next) => Show(next);
        case TogglePopup => Toggle();
        case PopupClosed(id) => OnClosed(id);
        case BackToMenu =>
          CancelPromptIfOpen();
          deleteArmed := false;
          page := MenuPage;
        case PickProfile(config) =>
          Send(SelectProfile(config));
          ClosePopup();
        case PickDisconnect =>
          Send(StopTunnel);
          ClosePopup();
        case PickDismiss => Send(DismissFailure);
        case PickImport => ClosePopup();
        case ImportChosen(file) =>
          match file {
            case Some(path) => Send(Import(path));
            case None =>
          }
        case OpenLog => page := LogPage;
        case OpenAuth => page := AuthPage;
        case ManageProfile(config) => Manage(config);
        case RenameChanged(value) =>
          renameValue := value;
          deleteArmed := false;
        case ConfirmRename => Rename();
        case ArmDelete => deleteArmed := true;
        case DisarmDelete => deleteArmed := false;
        case ConfirmDelete => Delete();
        case FieldChanged(key, value) => fieldValues := fieldValues[key := value];
        case PressSubmit => Submit();
        case PressCancel =>
          Send(CancelPrompt);
          ClearFields();
          ClosePopupWithoutCancel();
        case ClockTick =>
      }
    }
  }

  // --------------------------------------------- what is typed is what is held

  function RunApp(a: AppState, msgs: seq<Message>): AppState
    decreases |msgs|
  {
    if msgs == [] then a else RunApp(Updated(a, msgs[0]), msgs[1..])
  }

  /** Does this message wipe the form? */
  predicate Wipes(a: AppState, msg: Message) {
    match msg
    case SnapshotArrived(next) =>
      || (a.snapshot.prompt.None? && next.prompt.Some?)
      || (a.snapshot.prompt.Some? && next.prompt.None? && a.page == AuthPage)
    case TogglePopup => a.popup.Some? && a.AtPrompt()
    case PopupClosed(id) => a.popup == Some(id) && a.AtPrompt()
    case BackToMenu => a.AtPrompt()
    case PickProfile(_) => a.AtPrompt()
    case PickDisconnect => a.AtPrompt()
    case PickImport => a.AtPrompt()
    case PressSubmit => a.snapshot.prompt.Some?
    case PressCancel => true
    case _ => false
  }

  ghost predicate NeverWiped(a: AppState, msgs: seq<Message>)
    decreases |msgs|
  {
    msgs != [] ==> !Wipes(a, msgs[0]) && NeverWiped(Updated(a, msgs[0]), msgs[1..])
  }

  /** The last thing typed under a key. */
  function LastTyped(msgs: seq<Message>, key: FieldKey): Option<string> {
    if msgs == [] then None
    else
      var k := |msgs| - 1;
      if msgs[k].FieldChanged? && msgs[k].key == key then Some(msgs[k].value)
      else LastTyped(msgs[..k], key)
  }

  /** A message changes the values in exactly two ways: it wipes them all, or it
      sets the one field being typed into. */
  lemma UpdateValues(a: AppState, msg: Message)
    ensures Updated(a, msg).values
            == if Wipes(a, msg) then map[]
               else if msg.FieldChanged? then a.values[msg.key := msg.value] else a.values
  {
  }

  lemma {:induction false} RunAppends(a: AppState, msgs: seq<Message>, msg: Message)
    ensures RunApp(a, msgs + [msg]) == Updated(RunApp(a, msgs), msg)
    ensures NeverWiped(a, msgs + [msg]) <==> NeverWiped(a, msgs) && !Wipes(RunApp(a, msgs), msg)
    decreases |msgs|
  {
    var more := msgs + [msg];
    if msgs == [] {
      assert more == [msg] && more[1..] == [];
      assert RunApp(a, more) == RunApp(Updated(a, msg), []);
    } else {
      assert more[1..] == msgs[1..] + [msg];
      RunAppends(Updated(a, msgs[0]), msgs[1..], msg);
    }
  }

  /** Until it is wiped, a form that started empty holds under each key the last
      value typed there, whatever else goes on. */
  lemma {:induction false} FormHoldsLastTyped(a: AppState, msgs: seq<Message>, key: FieldKey)
    requires a.values == map[] && NeverWiped(a, msgs)
    ensures var b := RunApp(a, msgs);
            match LastTyped(msgs, key)
            case Some(value) => key in b.values && b.values[key] == value
            case None => key !in b.values
    decreases |msgs|
  {
    if msgs != [] {
      var k := |msgs| - 1;
      assert msgs == msgs[..k] + [msgs[k]];
      RunAppends(a, msgs[..k], msgs[k]);
      FormHoldsLastTyped(a, msgs[..k], key);
      UpdateValues(RunApp(a, msgs[..k]), msgs[k]);
    }
  }

  /** What a field's answer should be: the last value typed under its own key. */
  function Typed(msgs: seq<Message>, f: PromptField): string {
    match LastTyped(msgs, f.Key()) case Some(value) => value case None => ""
  }

  /** Submitting sends one response per field, in order, each under the field's
      own type, group and id and carrying what was last typed into that field;
      then nothing typed is left and the popup is closed. */
  lemma SubmitSendsWhatWasTyped(a: AppState, msgs: seq<Message>)
    requires a.values == map[] && NeverWiped(a, msgs)
    requires RunApp(a, msgs).snapshot.prompt.Some? && RunApp(a, msgs).connected
    ensures var (b, c) := (RunApp(a, msgs), RunApp(a, msgs + [PressSubmit]));
            var fields := b.snapshot.prompt.value.fields;
            && |c.sent| == |b.sent| + 1 && c.sent[..|b.sent|] == b.sent
            && var last := c.sent[|b.sent|];
            && last.SubmitPrompt? && |last.responses| == |fields|
            && (forall i :: 0 <= i < |fields| ==>
                  last.responses[i] == InputResponse(fields[i].kind, fields[i].group, fields[i].id,
                                                     Typed(msgs, fields[i])))
            && c.values == map[] && c.popup.None? && c.page == MenuPage
  {
    RunAppends(a, msgs, PressSubmit);
    var fields := RunApp(a, msgs).snapshot.prompt.value.fields;
    forall i | 0 <= i < |fields|
      ensures ValueOf(RunApp(a, msgs).values, fields[i].Key()) == Typed(msgs, fields[i])
    {
      FormHoldsLastTyped(a, msgs, fields[i].Key());
    }
  }

  /** Typing into one field changes the answer of another only when both answer
      the same queue item, so a name and a code that are both item 0 of their own
      groups never share a value. */
  lemma FieldsDoNotShare(msgs: seq<Message>, f: PromptField, g: PromptField, value: string)
    ensures Typed(msgs + [FieldChanged(g.Key(), value)], f)
            == if f.kind == g.kind && f.group == g.group && f.id == g.id then value else Typed(msgs, f)
  {
    KeyIdentifiesField(f, g);
    var more := msgs + [FieldChanged(g.Key(), value)];
    assert more[..|more| - 1] == msgs;
  }

  /** Submitting or cancelling a prompt leaves nothing typed behind. */
  lemma NothingHeldAfterPrompt(a: AppState)
    ensures a.snapshot.prompt.Some? ==> Updated(a, PressSubmit).values == map[]
    ensures Updated(a, PressCancel).values == map[]
  {
  }

  // --------------------------------------------- what the user can press

  /** The row of a running profile offers to disconnect it, any other to connect. */
  predicate Disconnectable(s: Snapshot, p: Profile) {
    s.activeConfig == Some(p.config)
    && (s.state == Connected || s.state == Connecting || s.state == AuthPending)
  }

  predicate OnMenu(s: Snapshot, msg: Message) {
    && !s.unavailable
    && match msg
       case PickDisconnect => exists p :: p in s.profiles && Disconnectable(s, p)
       case PickProfile(config) =>
         exists p :: p in s.profiles && p.config == config && !Disconnectable(s, p)
       case ManageProfile(config) => exists p :: p in s.profiles && p.config == config
       case PickImport => true
       case OpenAuth => s.state == AuthPending && s.prompt.Some?
       case OpenLog => s.state == Failed
       case PickDismiss => s.state == Failed
       case _ => false
  }

  predicate OnManage(a: AppState, profile: Profile, msg: Message) {
    match msg
    case RenameChanged(_) => true
    case ConfirmRename => true
    case BackToMenu => true
    case ArmDelete => a.snapshot.activeConfig != Some(profile.config) && !a.deleteArmed
    case DisarmDelete => a.snapshot.activeConfig != Some(profile.config) && a.deleteArmed
    case ConfirmDelete => a.snapshot.activeConfig != Some(profile.config) && a.deleteArmed
    case _ => false
  }

  predicate OnAuth(s: Snapshot, msg: Message) {
    && s.prompt.Some?
    && match msg
       case FieldChanged(key, _) => exists f :: f in s.prompt.value.fields && f.Key() == key
       case PressSubmit => true
       case PressCancel => true
       case _ => false
  }

  /** What can reach the popup in a given state: the worker, the panel button, the
      compositor, the clock and the file picker at any time, and otherwise only
      what the page on screen has to press or type into. */
  predicate Offered(a: AppState, msg: Message) {
    match msg
    case WorkerReady => true
    case SnapshotArrived(_) => true
    case TogglePopup => true
    case PopupClosed(_) => true
    case ImportChosen(_) => true
    case ClockTick => true
    case _ =>
      && a.popup.Some?
      && match a.page
         case MenuPage => OnMenu(a.snapshot, msg)
         case ManagePage(profile) => OnManage(a, profile, msg)
         case AuthPage => OnAuth(a.snapshot, msg)
         case LogPage => msg.BackToMenu?
  }

  ghost predicate AllOffered(a: AppState, msgs: seq<Message>)
    decreases |msgs|
  {
    msgs != [] ==> Offered(a, msgs[0]) && AllOffered(Updated(a, msgs[0]), msgs[1..])
  }

  // --------------------------------------------- nothing typed outlives its page

  /** Values are held only while a prompt's page is on screen; that page is on screen
      only while there is a prompt; and a closed popup is back on its menu. */
  predicate Guarded(a: AppState) {
    && (a.values != map[] ==> a.page == AuthPage)
    && (a.page == AuthPage ==> a.AtPrompt() && a.popup.Some?)
    && (a.popup.None? ==> a.page == MenuPage)
  }

  lemma {:induction false} OfferedKeepsGuarded(a: AppState, msgs: seq<Message>)
    requires Guarded(a) && AllOffered(a, msgs)
    ensures Guarded(RunApp(a, msgs))
    decreases |msgs|
  {
    if msgs != [] {
      OneKeepsGuarded(a, msgs[0]);
      OfferedKeepsGuarded(Updated(a, msgs[0]), msgs[1..]);
    }
  }

  lemma OneKeepsGuarded(a: AppState, msg: Message)
    requires Guarded(a) && Offered(a, msg)
    ensures Guarded(Updated(a, msg))
  {
    UpdateValues(a, msg);
  }

  /** Over everything a user can do and whatever snapshots arrive, nothing typed is
      held unless a prompt is up and its page is the one on screen. In particular a
      prompt that is withdrawn always takes what was typed with it, and its page. */
  lemma NothingTypedOutlivesPrompt(msgs: seq<Message>, next: Snapshot)
    requires AllOffered(EMPTY_APP, msgs)
    ensures var a := RunApp(EMPTY_APP, msgs);
            && (a.values != map[] ==> a.popup.Some? && a.AtPrompt())
            && (next.prompt.None? ==>
                  var b := Updated(a, SnapshotArrived(next)); b.values == map[] && b.page != AuthPage)
  {
    OfferedKeepsGuarded(EMPTY_APP, msgs);
  }

  // --------------------------------------------- deleting takes two steps

  /** Since it was last opened, the manage page of `config` has been armed and
      neither disarmed nor renamed in. */
  predicate ArmedFor(msgs: seq<Message>, config: Path) {
    exists i, j :: 0 <= i < j < |msgs|
      && msgs[i] == ManageProfile(config) && msgs[j] == ArmDelete
      && (forall k :: i < k < |msgs| ==> !msgs[k].ManageProfile?)
      && (forall k :: j < k < |msgs| ==> !Rethinks(msgs[k]))
  }

  lemma {:induction false} OfferedAppends(a: AppState, msgs: seq<Message>, msg: Message)
    ensures AllOffered(a, msgs + [msg]) <==> AllOffered(a, msgs) && Offered(RunApp(a, msgs), msg)
    decreases |msgs|
  {
    var more := msgs + [msg];
    if msgs == [] {
      assert more == [msg] && more[1..] == [];
    } else {
      assert more[1..] == msgs[1..] + [msg];
      OfferedAppends(Updated(a, msgs[0]), msgs[1..], msg);
    }
  }

  /** Opening the manage page of `config` was the last time any was opened. */
  predicate Managing(msgs: seq<Message>, config: Path) {
    exists i :: 0 <= i < |msgs| && msgs[i] == ManageProfile(config)
                && (forall k :: i < k < |msgs| ==> !msgs[k].ManageProfile?)
  }

  lemma {:induction false} FoundHasPath(profiles: seq<Profile>, config: Path)
    ensures Find(profiles, config).Some? ==>
              Find(profiles, config).value.config == config && Find(profiles, config).value in profiles
    ensures (exists p :: p in profiles && p.config == config) ==> Find(profiles, config).Some?
  {
    if profiles != [] && profiles[0].config != config { FoundHasPath(profiles[1..], config); }
  }

  lemma {:induction false} ManagePageIsArmed(msgs: seq<Message>)
    requires AllOffered(EMPTY_APP, msgs)
    ensures Managed(RunApp(EMPTY_APP, msgs), msgs)
    decreases |msgs|
  {
    if msgs != [] {
      var k := |msgs| - 1;
      var (front, msg) := (msgs[..k], msgs[k]);
      assert msgs == front + [msg];
      OfferedAppends(EMPTY_APP, front, msg);
      RunAppends(EMPTY_APP, front, msg);
      ManagePageIsArmed(front);
      StillManaging(RunApp(EMPTY_APP, front), front, msg);
    }
  }

  /** What is known of a manage page, once `msgs` have come. */
  predicate Managed(a: AppState, msgs: seq<Message>) {
    a.page.ManagePage? ==>
      && Managing(msgs, a.page.profile.config)
      && (a.deleteArmed ==> ArmedFor(msgs, a.page.profile.config))
  }

  lemma StillManaging(a: AppState, front: seq<Message>, msg: Message)
    requires Offered(a, msg) && Managed(a, front)
    ensures Managed(Updated(a, msg), front + [msg])
  {
    var b := Updated(a, msg);
    if msg.ManageProfile? {
      FoundHasPath(a.snapshot.profiles, msg.config);
      assert (front + [msg])[|front|] == ManageProfile(msg.config);
    } else if b.page.ManagePage? {
      assert b.page == a.page && b.deleteArmed == (msg.ArmDelete? || (a.deleteArmed && !Rethinks(msg)));
      ManagingGoesOn(front, msg, a.page.profile.config);
      if a.deleteArmed && !Rethinks(msg) { ArmedGoesOn(front, msg, a.page.profile.config); }
    }
  }

  /** Second thoughts: renaming, or taking the arming back. */
  predicate Rethinks(msg: Message) { msg.RenameChanged? || msg.DisarmDelete? }

  lemma ManagingGoesOn(front: seq<Message>, msg: Message, config: Path)
    requires Managing(front, config) && !msg.ManageProfile?
    ensures Managing(front + [msg], config)
    ensures msg.ArmDelete? ==> ArmedFor(front + [msg], config)
  {
    var msgs := front + [msg];
    var i :| 0 <= i < |front| && front[i] == ManageProfile(config)
             && (forall k :: i < k < |front| ==> !front[k].ManageProfile?);
    assert msgs[i] == ManageProfile(config) && msgs[|front|] == msg;
  }

  lemma ArmedGoesOn(front: seq<Message>, msg: Message, config: Path)
    requires ArmedFor(front, config) && !msg.ManageProfile? && !Rethinks(msg)
    ensures ArmedFor(front + [msg], config)
  {
    var msgs := front + [msg];
    var i, j :| 0 <= i < j < |front|
      && front[i] == ManageProfile(config) && front[j] == ArmDelete
      && (forall k :: i < k < |front| ==> !front[k].ManageProfile?)
      && (forall k :: j < k < |front| ==> !Rethinks(front[k]));
    assert msgs[i] == ManageProfile(config) && msgs[j] == ArmDelete;
  }

  /** However the popup is used, a profile is only ever deleted by confirming it on
      that profile's own page, after arming it there, with nothing typed and no
      second thought in between, and not while the profile is in use. */
  lemma DeleteTakesTwoSteps(msgs: seq<Message>, msg: Message, config: Path)
    requires AllOffered(EMPTY_APP, msgs + [msg])
    requires var a := RunApp(EMPTY_APP, msgs);
             RunApp(EMPTY_APP, msgs + [msg]).sent == a.sent + [DeleteProfile(config)]
    ensures msg.ConfirmDelete? && ArmedFor(msgs, config)
    ensures RunApp(EMPTY_APP, msgs).snapshot.activeConfig != Some(config)
  {
    OfferedAppends(EMPTY_APP, msgs, msg);
    RunAppends(EMPTY_APP, msgs, msg);
    ManagePageIsArmed(msgs);
    OnlyConfirmingDeletes(RunApp(EMPTY_APP, msgs), msg, config);
  }

  lemma OnlyConfirmingDeletes(a: AppState, msg: Message, config: Path)
    requires Offered(a, msg) && Updated(a, msg).sent == a.sent + [DeleteProfile(config)]
    ensures msg.ConfirmDelete? && a.deleteArmed
    ensures a.page.ManagePage? && a.page.profile.config == config
    ensures a.snapshot.activeConfig != Some(config)
  {
    assert Updated(a, msg).sent[|a.sent|] == DeleteProfile(config);
  }

  // --------------------------------------------- what the pages are for

  lemma RunTwo(a: AppState, m: Message, n: Message)
    ensures RunApp(a, [m, n]) == Updated(Updated(a, m), n)
    ensures AllOffered(a, [m, n]) <==> Offered(a, m) && Offered(Updated(a, m), n)
  {
    assert [m, n][1..] == [n] && [n][1..] == [];
    assert RunApp(Updated(a, m), [n]) == RunApp(Updated(Updated(a, m), n), []);
    assert AllOffered(Updated(a, m), [n]) <==> Offered(Updated(a, m), n);
  }

  lemma RunThree(a: AppState, m: Message, n: Message, o: Message)
    ensures RunApp(a, [m, n, o]) == Updated(Updated(Updated(a, m), n), o)
    ensures AllOffered(a, [m, n, o])
            <==> Offered(a, m) && Offered(Updated(a, m), n) && Offered(Updated(Updated(a, m), n), o)
  {
    assert [m, n, o][1..] == [n, o];
    RunTwo(Updated(a, m), n, o);
  }

  /** On the menu, with this profile listed. */
  predicate MenuLists(a: AppState, config: Path) {
    a.popup.Some? && a.page == MenuPage && OnMenu(a.snapshot, ManageProfile(config))
  }

  /** Renaming a listed profile: the new name arrives without blanks at its ends, once,
      unless nothing is left of it or it is the old one; then the menu is back. */
  lemma RenamingGoesThrough(a: AppState, config: Path, value: string)
    requires a.connected && MenuLists(a, config)
    ensures var msgs := [ManageProfile(config), RenameChanged(value), ConfirmRename];
            var (found, name) := (Find(a.snapshot.profiles, config), Trim(value));
            && AllOffered(a, msgs) && Trims(value, name) && found.Some? && found.value.config == config
            && RunApp(a, msgs)
               == a.(renameValue := value, deleteArmed := false,
                     sent := a.sent + if IsBlank(value) || name == found.value.name then []
                                      else [RenameProfile(config, name)])
  {
    var b := ManagePageOpens(a, config);
    var c := b.(renameValue := value);
    TrimTrims(value);
    RunThree(a, ManageProfile(config), RenameChanged(value), ConfirmRename);
    assert Updated(b, RenameChanged(value)) == c;
    ConfirmingRenames(c, b.page.profile);
  }

  lemma ConfirmingRenames(c: AppState, p: Profile)
    requires c.page == ManagePage(p) && c.connected
    ensures Updated(c, ConfirmRename)
            == c.(page := MenuPage,
                  sent := c.sent + if Trim(c.renameValue) == "" || Trim(c.renameValue) == p.name then []
                                   else [RenameProfile(p.config, Trim(c.renameValue))])
  {
  }

  /** A listed profile opens on its own page, its name ready to be edited. */
  lemma ManagePageOpens(a: AppState, config: Path) returns (b: AppState)
    requires MenuLists(a, config)
    ensures Offered(a, ManageProfile(config)) && b == Updated(a, ManageProfile(config))
    ensures Find(a.snapshot.profiles, config).Some?
    ensures var p := Find(a.snapshot.profiles, config).value;
            && p.config == config
            && b == a.(renameValue := p.name, deleteArmed := false, page := ManagePage(p))
  {
    FoundHasPath(a.snapshot.profiles, config);
    b := Updated(a, ManageProfile(config));
  }

  /** Deleting one that is not in use: opened, armed, confirmed, and on its way. */
  lemma DeletingGoesThrough(a: AppState, config: Path)
    requires a.connected && MenuLists(a, config) && a.snapshot.activeConfig != Some(config)
    ensures var msgs := [ManageProfile(config), ArmDelete, ConfirmDelete];
            var b := RunApp(a, msgs);
            && AllOffered(a, msgs) && b.sent == a.sent + [DeleteProfile(config)]
            && b.page == MenuPage && !b.deleteArmed && b.popup == a.popup
  {
    FoundHasPath(a.snapshot.profiles, config);
    RunThree(a, ManageProfile(config), ArmDelete, ConfirmDelete);
  }

  /** Importing closes the popup, and sends the file if one is chosen. */
  lemma ImportingGoesThrough(a: AppState, file: Option<string>)
    requires a.connected && Offered(a, PickImport)
    ensures var b := RunApp(a, [PickImport, ImportChosen(file)]);
            && b.popup.None? && b.page == MenuPage
            && b.sent == a.sent + (match file case Some(path) => [Import(path)] case None => [])
  {
    RunTwo(a, PickImport, ImportChosen(file));
  }

  /** Looking at the log of a failed attempt, or at a profile, and going back leaves
      the menu as it was and sends nothing. */
  lemma LookingChangesNothing(a: AppState, look: Message)
    requires Offered(a, look) && a.page == MenuPage && (look.OpenLog? || look.ManageProfile?)
    ensures var b := Updated(a, look);
            && (look.OpenLog? ==> b.page == LogPage)
            && (look.ManageProfile? ==> b.page.ManagePage? && b.page.profile.config == look.config
                                        && b.page.profile in a.snapshot.profiles
                                        && b.renameValue == b.page.profile.name)
            && Offered(b, BackToMenu)
            && Updated(b, BackToMenu) == a.(renameValue := b.renameValue, deleteArmed := false)
  {
    if look.ManageProfile? { FoundHasPath(a.snapshot.profiles, look.config); }
  }

  // --------------------------------------------- nothing behind the user's back

  /** Only this message can have sent that command. */
  predicate Causes(msg: Message, c: UiCommand) {
    match c
    case SelectProfile(config) => msg == PickProfile(config)
    case StopTunnel => msg == PickDisconnect
    case SubmitPrompt(_) => msg == PressSubmit
    case DismissFailure => msg == PickDismiss
    case Import(file) => msg == ImportChosen(Some(file))
    case RenameProfile(_, _) => msg == ConfirmRename
    case DeleteProfile(_) => msg == ConfirmDelete
    case RefreshProfiles => msg == TogglePopup || msg.SnapshotArrived?
    case CancelPrompt =>
      || msg == PressCancel || msg == TogglePopup || msg.PopupClosed? || msg == BackToMenu
      || msg.PickProfile? || msg == PickDisconnect || msg == PickImport
  }

  lemma MessageCauses(a: AppState, msg: Message)
    ensures var b := Updated(a, msg);
            && |a.sent| <= |b.sent| && b.sent[..|a.sent|] == a.sent
            && forall k :: |a.sent| <= k < |b.sent| ==> Causes(msg, b.sent[k])
  {
    var extra := Extra(a, msg);
    ExtraIsSent(a, msg);
    assert forall k :: |a.sent| <= k < |a.sent + extra| ==> (a.sent + extra)[k] == extra[k - |a.sent|];
  }

  /** A command, if the worker is there to take it. */
  function IfConnected(a: AppState, c: UiCommand): seq<UiCommand> { if a.connected then [c] else [] }

  /** What a message adds to what was sent. */
  function Extra(a: AppState, msg: Message): seq<UiCommand> {
    var sent := Updated(a, msg).sent;
    if |sent| >= |a.sent| then sent[|a.sent|..] else []
  }

  lemma ExtraIsSent(a: AppState, msg: Message)
    ensures Updated(a, msg).sent == a.sent + Extra(a, msg)
    ensures forall c :: c in Extra(a, msg) ==> Causes(msg, c)
  {
    match msg {
      case PickProfile(config) => TwoAtMost(a, SelectProfile(config));
      case PickDisconnect => TwoAtMost(a, StopTunnel);
      case TogglePopup => PopupExtra(a, msg);
      case PopupClosed(_) => PopupExtra(a, msg);
      case BackToMenu => PopupExtra(a, msg);
      case PickImport => PopupExtra(a, msg);
      case SnapshotArrived(_) => PopupExtra(a, msg);
      case _ => OtherExtra(a, msg);
    }
  }

  /** What opening, closing and turning back to the menu send. */
  lemma PopupExtra(a: AppState, msg: Message)
    requires msg == TogglePopup || msg.PopupClosed? || msg == BackToMenu || msg == PickImport
             || msg.SnapshotArrived?
    ensures Updated(a, msg).sent == a.sent + Extra(a, msg)
    ensures forall c :: c in Extra(a, msg) ==> Causes(msg, c)
  {
  }

  lemma OtherExtra(a: AppState, msg: Message)
    requires !msg.PickProfile? && msg != PickDisconnect && msg != TogglePopup && !msg.PopupClosed?
    requires msg != BackToMenu && msg != PickImport && !msg.SnapshotArrived?
    ensures Updated(a, msg).sent == a.sent + Extra(a, msg)
    ensures forall c :: c in Extra(a, msg) ==> Causes(msg, c)
  {
  }

  lemma TwoAtMost(a: AppState, c: UiCommand)
    ensures a.Sending(c).Closed().sent
            == a.sent + (IfConnected(a, c) + if a.AtPrompt() then IfConnected(a, CancelPrompt) else [])
  {
  }

  /** Every command the popup ever sends was asked for: by pressing the thing that
      means it, or, for a look at the backend, by the popup opening; the clock and
      the pages themselves send nothing. */
  lemma {:induction false} NothingIsSentUnasked(msgs: seq<Message>, k: nat)
    requires k < |RunApp(EMPTY_APP, msgs).sent|
    ensures exists i :: 0 <= i < |msgs| && Causes(msgs[i], RunApp(EMPTY_APP, msgs).sent[k])
    decreases |msgs|
  {
    if msgs != [] {
      var n := |msgs| - 1;
      var front := msgs[..n];
      assert msgs == front + [msgs[n]];
      RunAppends(EMPTY_APP, front, msgs[n]);
      var a := RunApp(EMPTY_APP, front);
      MessageCauses(a, msgs[n]);
      if k < |a.sent| {
        NothingIsSentUnasked(front, k);
        var i :| 0 <= i < |front| && Causes(front[i], a.sent[k]);
        assert msgs[i] == front[i];
      }
    }
  }

  // --------------------------------------------- a popup that closed late

  /** Popups are numbered as they open. */
  predicate Numbered(a: AppState) { a.popup.Some? ==> a.popup.value < a.nextId }

  lemma {:induction false} ClosedStaysClosed(a: AppState, msgs: seq<Message>, id: nat)
    requires Numbered(a) && id < a.nextId && a.popup != Some(id)
    ensures var b := RunApp(a, msgs);
            Numbered(b) && id < b.nextId && b.popup != Some(id)
    decreases |msgs|
  {
    if msgs != [] {
      PopupNumbers(a, msgs[0]);
      ClosedStaysClosed(Updated(a, msgs[0]), msgs[1..], id);
    }
  }

  lemma PopupNumbers(a: AppState, msg: Message)
    ensures var b := Updated(a, msg);
            && a.nextId <= b.nextId && (b.popup.Some? ==> b.popup == a.popup || b.popup.value == a.nextId)
            && (b.popup.Some? && b.popup != a.popup ==> b.nextId == a.nextId + 1)
  {
  }

  /** The compositor may report a popup closed long after it was: however the applet
      has been used since, that closes nothing, cancels nothing and wipes nothing. */
  lemma LateCloseIsIgnored(before: seq<Message>, since: seq<Message>)
    requires var a := RunApp(EMPTY_APP, before);
             a.popup.Some? && RunApp(a, since).popup.None?
    ensures var a := RunApp(EMPTY_APP, before);
            var b := RunApp(a, since);
            forall more :: var c := RunApp(b, more); Updated(c, PopupClosed(a.popup.value)) == c
  {
    var a := RunApp(EMPTY_APP, before);
    NumberedAlways(EMPTY_APP, before);
    NumberedAlways(a, since);
    var b := RunApp(a, since);
    forall more: seq<Message>
      ensures Updated(RunApp(b, more), PopupClosed(a.popup.value)) == RunApp(b, more)
    {
      ClosedStaysClosed(b, more, a.popup.value);
    }
  }

  lemma {:induction false} NumberedAlways(a: AppState, msgs: seq<Message>)
    requires Numbered(a)
    ensures Numbered(RunApp(a, msgs)) && a.nextId <= RunApp(a, msgs).nextId
    decreases |msgs|
  {
    if msgs != [] {
      PopupNumbers(a, msgs[0]);
      NumberedAlways(Updated(a, msgs[0]), msgs[1..]);
    }
  }

  // --------------------------------------------- when a prompt comes up

  /** A prompt that comes up is brought on screen, in an open popup, if and only if
      no other was up before it, unless its page is on screen already: one that
      directly follows another, as a second round of questions does, waits behind
      the menu. */
  lemma PromptComesOnScreen(a: AppState, next: Snapshot)
    requires next.prompt.Some? && Guarded(a)
    ensures var b := Updated(a, SnapshotArrived(next));
            b.AtPrompt() && b.popup.Some? <==> a.snapshot.prompt.None? || a.page == AuthPage
  {
  }

  /** And it starts with nothing filled in if and only if no other prompt was up
      before it, or nothing was typed into that one. */
  lemma ReplacedPromptIsPrefilled(a: AppState, next: Snapshot)
    requires next.prompt.Some?
    ensures Updated(a, SnapshotArrived(next)).values == map[]
            <==> a.snapshot.prompt.None? || a.values == map[]
  {
  }

  /** Closing the popup sends a cancel if and only if a prompt's page is the one on
      screen; whether that ends anything is up to the worker. */
  lemma ClosingCancelsOnlyAtPrompt(a: AppState)
    requires a.popup.Some? && a.connected
    ensures Updated(a, TogglePopup).sent == a.sent + (if a.AtPrompt() then [CancelPrompt] else [])
    ensures Updated(a, PopupClosed(a.popup.value)).sent
            == a.sent + (if a.AtPrompt() then [CancelPrompt] else [])
  {
  }
}
