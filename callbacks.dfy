/** The button controller (handlers/callback_handler.py). It decodes a
    pressed button's payload, updates the shared per-user state and the
    store, and answers with a panel or an alert. What the user sees is
    reduced to a `Reply`; the messaging client's `get_chat` and
    `get_dialogs` are the oracle `getChat` and the sequence `dialogs`. */
module Callbacks {
  import opened Wrappers
  import opened Text
  import opened Chats
  import opened DataManager
  import opened States
  import opened Payloads
  import opened InfoService
  import opened Panels

  datatype Reply =
    | Silent                               // nothing beyond the closing answer()
    | Shown(panel: Panel)                  // the message is edited into a panel
    | TargetPrompt(target: TargetType)     // "send the message to broadcast"
    | NamePrompt                           // "type the new set's name"
    | NotFoundAlert                        // the set does not exist
    | NotOpenAlert(command: string)        // a main-menu feature not available yet
    | ExpiredAlert                         // the scan results are gone
    | TestReport(details: seq<ChannelDetail>)
    | SavedAlert(panel: Panel)             // management panel, then "saved"
    | DeletedAlert(panel: Panel)           // management panel, then "deleted"
    | ErrorAlert                           // an exception caught by handle_callback

  /** The ids `edit_all` selects (handlers/callback_handler.py:157): the
      integer ids, and the texts passing the digit check converted by
      int(), in channel order; other texts are skipped. None where int()
      raises. */
  function SelectableIds(details: seq<ChannelDetail>): (r: Option<seq<ChannelRef>>)
    ensures r.Some? ==> |r.value| <= |details|
  {
    if details == [] then Some([])
    else
      var rest := SelectableIds(details[..|details| - 1]);
      var last := CoerceNumeric(details[|details| - 1].id);
      if rest.None? || last.None? then None
      else if last.value.IntId? then Some(rest.value + [last.value])
      else rest
  }

  /** `edit_all` raises exactly when the editor would: on an id that int()
      rejects after the digit check. */
  lemma {:induction false} SelectableIdsDefined(details: seq<ChannelDetail>)
    ensures SelectableIds(details).Some? <==> Coercible(details)
  {
    if details != [] {
      var m := |details| - 1;
      SelectableIdsDefined(details[..m]);
      assert forall i :: 0 <= i < m ==> details[..m][i] == details[i];
    }
  }

  /** The selection `edit_all` makes: only integers, and exactly the
      converted ids that are integers. */
  lemma {:induction false} SelectableIdsMembers(details: seq<ChannelDetail>)
    requires SelectableIds(details).Some?
    ensures forall x :: x in SelectableIds(details).value ==> x.IntId?
    ensures forall x :: x in SelectableIds(details).value
              <==> exists i :: 0 <= i < |details| && CoerceNumeric(details[i].id) == Some(x) && x.IntId?
  {
    if details != [] {
      var m := |details| - 1;
      SelectableIdsMembers(details[..m]);
      assert forall i :: 0 <= i < m ==> details[..m][i] == details[i];
    }
  }

  /** A configured target "--5" blocks select-all and clear alike: its
      lookup fails, so its record keeps the text id, which passes the
      digit check and which int() then rejects. */
  lemma DoubleMinusTargetRaises(getChat: ChatOracle)
    ensures SelectableIds(DetailsOf(["--5"], getChat)).None?
  {
    var d := DetailsOf(["--5"], getChat);
    assert CoerceNegative(StrId("--5")).None? by {
      assert StartsWith("--5", "-");
      StripClean("--5");
      assert !IsDigit("-5"[0]);
    }
    assert d[0].id == StrId("--5");
    DoubleMinusRaises();
    SelectableIdsDefined(d);
  }

  class CallbackHandler {
    const sessions: Sessions
    const store: Store
    /** TARGET_CHANNELS, as configured. */
    const targets: seq<string>

    constructor (sessions: Sessions, store: Store, targets: seq<string>)
      ensures this.sessions == sessions && this.store == store && this.targets == targets
    {
      this.sessions := sessions;
      this.store := store;
      this.targets := targets;
    }

    /** The selection list a press may change: the one of the user's
        editing session, if any. */
    function Editing(userId: int): set<object>
      reads sessions
    {
      var s := sessions.Get(userId);
      if s.SelectingGroupsForSet? then {s.selected} else {}
    }

    /** What a `set:<command>:<set id>[:<channel>]` press does to the
        sessions, the table of sets and the reply, command by command; the
        log is never touched. */
    twostate predicate SetEffect(userId: int, messageId: int, command: string, setId: int, channel: Option<int>,
                                 getChat: ChatOracle, reply: Reply)
      reads *
    {
      var s := old(sessions.Get(userId));
      var found := old(store.FindSet(setId));
      && store.logs == old(store.logs)
      && (s.SelectingGroupsForSet? && command != "edit_toggle" ==> s.selected.items == old(s.selected.items))
      && (command == "add" ==>
            && store.sets == old(store.sets) && reply == NamePrompt
            && sessions.states.Keys == old(sessions.states).Keys + {userId}
            && (forall u :: u in old(sessions.states) && u != userId ==> sessions.states[u] == old(sessions.states)[u])
            && (var t := sessions.Get(userId);
                t.AwaitingSetName? && t.setId == 0 && t.messageId == messageId && fresh(t.selected) && t.selected.items == []))
      && (command == "view" ==>
            && store.sets == old(store.sets)
            && (found.None? ==> sessions.states == old(sessions.states) && reply == NotFoundAlert)
            && (found.Some? ==>
                  var b := found.value;
                  sessions.states == old(sessions.states)[userId := SelectingGroupsForSet(setId, b.name, messageId, b.channels)]
                  && reply == EditorReply(setId, b.name, DetailsOf(targets, getChat), old(b.channels.items))))
      && (command in {"edit_toggle", "edit_all", "edit_none"} ==>
            && store.sets == old(store.sets)
            && (!s.SelectingGroupsForSet? ==> sessions.states == old(sessions.states) && reply == Silent)
            && (command == "edit_toggle" && s.SelectingGroupsForSet? ==>
                  sessions.states == old(sessions.states)
                  && (channel.None? ==> s.selected.items == old(s.selected.items) && reply == ErrorAlert)
                  && (channel.Some? ==>
                        s.selected.items == Toggled(old(s.selected.items), IntId(channel.value))
                        && reply == EditorReply(setId, s.setName, DetailsOf(targets, getChat), s.selected.items)))
            && (command != "edit_toggle" && s.SelectingGroupsForSet? ==>
                  var all := SelectableIds(DetailsOf(targets, getChat));
                  var ids := if all.Some? && command == "edit_none" then Some([]) else all;
                  && (ids.None? ==> sessions.states == old(sessions.states) && reply == ErrorAlert)
                  && (ids.Some? ==>
                        (var t := sessions.Get(userId);
                         t.SelectingGroupsForSet?
                         && t == SelectingGroupsForSet(s.setId, s.setName, s.messageId, t.selected)
                         && fresh(t.selected) && t.selected.items == ids.value
                         && sessions.states == old(sessions.states)[userId := t]
                         && reply == EditorReply(setId, s.setName, DetailsOf(targets, getChat), ids.value)))))
      && (command == "save" ==>
            && (!s.SelectingGroupsForSet? ==>
                  sessions.states == old(sessions.states) && store.sets == old(store.sets) && reply == Silent)
            && (s.SelectingGroupsForSet? ==>
                  var ss := old(store.sets);
                  sessions.states == old(sessions.states)[userId := Idle]
                  && (ss.None? ==> store.sets == ss)
                  && (ss.Some? && setId == 0 ==> store.sets == Some(Appended(ss.value, s.setName, s.selected)))
                  && (ss.Some? && setId != 0 ==> store.sets == Some(Updated(ss.value, setId, s.setName, s.selected)))
                  && reply == SavedAlert(ManagementPanel(store.GetSets()))))
      && (command == "delete_confirm" ==>
            sessions.states == old(sessions.states) && store.sets == old(store.sets)
            && reply == (if found.Some? then Shown(DeleteConfirmationPanel(setId, found.value.name)) else Silent))
      && (command == "delete_execute" ==>
            store.sets == Some(Without(old(store.GetSets()), setId))
            && sessions.states == old(sessions.states)[userId := Idle]
            && reply == DeletedAlert(ManagementPanel(store.GetSets())))
      && (command !in {"add", "view", "edit_toggle", "edit_all", "edit_none", "save", "delete_confirm", "delete_execute"} ==>
            sessions.states == old(sessions.states) && store.sets == old(store.sets) && reply == Silent)
    }

    /** `handle_callback`: dispatch on the payload's first piece. */
    method HandleCallback(userId: int, messageId: int, data: string, getChat: ChatOracle, dialogs: seq<Chat>, now: int)
      returns (reply: Reply)
      modifies sessions, store, Editing(userId)
      ensures Decode(data).Unknown? || Decode(data).Raises? ==>
                reply == (if Decode(data).Raises? then ErrorAlert else Silent)
                && sessions.states == old(sessions.states)
                && store.sets == old(store.sets) && store.logs == old(store.logs)
                && unchanged(Editing(userId))
      ensures Decode(data).ScanPage? ==> reply == ExpiredAlert && sessions.states == old(sessions.states)
      ensures Decode(data).Back? || Decode(data).MainMenu? || Decode(data).Groups? || Decode(data).ScanPage? || Decode(data).ScanOther? ==>
                sessions.states == old(sessions.states) && store.sets == old(store.sets)
                && store.logs == old(store.logs) && unchanged(Editing(userId))
      ensures Decode(data).Back? ==>
                var screen := Decode(data).screen;
                && (screen == "main" ==> reply == Shown(MainPanel(SystemStats(store, targets, now))))
                && (screen == "groups" ==> reply == Shown(GroupManagementPanel()))
                && (screen == "manage_sets" ==> reply == Shown(ManagementPanel(store.GetSets())))
                && (screen !in {"main", "groups", "manage_sets"} ==> reply == Silent)
      ensures Decode(data).MainMenu? ==>
                var c := Decode(data).command;
                && (c == "broadcast" ==> reply == Shown(TargetPanel(store.GetSets())))
                && (c == "groups" ==> reply == Shown(GroupManagementPanel()))
                && (c !in {"broadcast", "groups"} ==> reply == NotOpenAlert(c))
      ensures Decode(data).Groups? ==>
                var c := Decode(data).command;
                && (c == "manage_sets" ==> reply == Shown(ManagementPanel(store.GetSets())))
                && (c == "test_all" ==> reply == TestReport(DetailsOf(targets, getChat)))
                && (c == "scan_all" ==> reply == ErrorAlert)
                && (c !in {"manage_sets", "test_all", "scan_all"} ==> reply == Silent)
      ensures Decode(data).ScanOther? ==> reply == Silent
      ensures Decode(data).Broadcast? ==> store.sets == old(store.sets) && store.logs == old(store.logs)
                                          && unchanged(old(Editing(userId)))
      ensures Decode(data).Broadcast? && Decode(data).target.SetTarget? && old(store.FindSet(Decode(data).target.id)).None? ==>
                sessions.states == old(sessions.states) && reply == NotFoundAlert
      ensures Decode(data).Broadcast? && !(Decode(data).target.SetTarget? && old(store.FindSet(Decode(data).target.id)).None?) ==>
                sessions.states == old(sessions.states)[userId := AwaitingBroadcastMessage(Decode(data).target)]
                && reply == (if Decode(data).target.NoTarget? then Silent else TargetPrompt(Decode(data).target))
      ensures Decode(data).SetCmd? ==>
                SetEffect(userId, messageId, Decode(data).command, Decode(data).setId, Decode(data).channel, getChat, reply)
    {
      var command := Decode(data);
      match command
      case Raises =>
        reply := ErrorAlert;
      case Unknown(_) =>
        reply := Silent;
      case Back(screen) =>
        reply := BackNavigation(screen, now);
      case MainMenu(c) =>
        reply := MainMenuChoice(c);
      case Broadcast(target) =>
        reply := BroadcastFlow(userId, target);
      case Groups(c) =>
        reply := GroupManagement(c, getChat, dialogs);
      case SetCmd(c, setId, channel) =>
        reply := SetManagement(userId, messageId, c, setId, channel, getChat);
      case ScanPage(_) =>
        // No session ever holds scan results (see GroupManagement), so the
        // lookup always finds the empty default.
        reply := ExpiredAlert;
      case ScanOther(_) =>
        reply := Silent;
    }

    /** `handle_back_navigation`. */
    method BackNavigation(screen: string, now: int) returns (reply: Reply)
      ensures screen == "main" ==> reply == Shown(MainPanel(SystemStats(store, targets, now)))
      ensures screen == "groups" ==> reply == Shown(GroupManagementPanel())
      ensures screen == "manage_sets" ==> reply == Shown(ManagementPanel(store.GetSets()))
      ensures screen !in {"main", "groups", "manage_sets"} ==> reply == Silent
    {
      if screen == "main" {
        reply := Shown(MainPanel(SystemStats(store, targets, now)));
      } else if screen == "groups" {
        reply := Shown(GroupManagementPanel());
      } else if screen == "manage_sets" {
        reply := Shown(ManagementPanel(store.GetSets()));
      } else {
        reply := Silent;
      }
    }

    /** `handle_main_menu`: only broadcasting and group management are
        open. */
    method MainMenuChoice(command: string) returns (reply: Reply)
      ensures command == "broadcast" ==> reply == Shown(TargetPanel(store.GetSets()))
      ensures command == "groups" ==> reply == Shown(GroupManagementPanel())
      ensures command !in {"broadcast", "groups"} ==> reply == NotOpenAlert(command)
    {
      if command == "broadcast" {
        reply := Shown(TargetPanel(store.GetSets()));
      } else if command == "groups" {
        reply := Shown(GroupManagementPanel());
      } else {
        reply := NotOpenAlert(command);
      }
    }

    /** `handle_broadcast_flow`: the user now awaits the message to
        broadcast, unless the chosen set does not exist. */
    method BroadcastFlow(userId: int, target: TargetType) returns (reply: Reply)
      modifies sessions
      ensures target.SetTarget? && store.FindSet(target.id).None? ==>
                sessions.states == old(sessions.states) && reply == NotFoundAlert
      ensures !(target.SetTarget? && store.FindSet(target.id).None?) ==>
                sessions.states == old(sessions.states)[userId := AwaitingBroadcastMessage(target)]
                && reply == (if target.NoTarget? then Silent else TargetPrompt(target))
    {
      if target.SetTarget? && store.FindSet(target.id).None? {
        return NotFoundAlert;
      }
      reply := if target.NoTarget? then Silent else TargetPrompt(target);
      sessions.states := sessions.states[userId := AwaitingBroadcastMessage(target)];
    }

    /** `handle_group_management`. A scan calls `add_log` without its
        `status` argument, which raises TypeError before the results are
        stored or shown; so the scan changes nothing and ends in the error
        alert. */
    method GroupManagement(command: string, getChat: ChatOracle, dialogs: seq<Chat>) returns (reply: Reply)
      ensures command == "manage_sets" ==> reply == Shown(ManagementPanel(store.GetSets()))
      ensures command == "test_all" ==> reply == TestReport(DetailsOf(targets, getChat))
      ensures command == "scan_all" ==> reply == ErrorAlert
      ensures command !in {"manage_sets", "test_all", "scan_all"} ==> reply == Silent
    {
      if command == "manage_sets" {
        reply := Shown(ManagementPanel(store.GetSets()));
      } else if command == "test_all" {
        var details := GetAllChannelDetails(targets, getChat);
        assert details == DetailsOf(targets, getChat);
        reply := TestReport(details);
      } else if command == "scan_all" {
        var scanned := ScanAllDialogs(dialogs);
        reply := ErrorAlert;
      } else {
        reply := Silent;
      }
    }

    /** The editor for the user's session after an edit. */
    method ShowEditor(setId: int, name: string, selected: seq<ChannelRef>, getChat: ChatOracle) returns (reply: Reply)
      ensures reply == EditorReply(setId, name, DetailsOf(targets, getChat), selected)
    {
      var details := GetAllChannelDetails(targets, getChat);
      assert details == DetailsOf(targets, getChat);
      var panel := CreateEditorPanel(setId, name, details, selected);
      reply := if panel.Some? then Shown(panel.value) else ErrorAlert;
    }

    /** `handle_set_management`: dispatch on the command; the set id is the
        payload's third piece, 0 when there is none. Each command's effect
        is stated by the method it calls. */
    method SetManagement(userId: int, messageId: int, command: string, setId: int, channel: Option<int>, getChat: ChatOracle)
      returns (reply: Reply)
      modifies sessions, store, Editing(userId)
      ensures SetEffect(userId, messageId, command, setId, channel, getChat, reply)
    {
      if command == "add" {
        reply := AddSet(userId, messageId);
      } else if command == "view" {
        reply := ViewSet(userId, messageId, setId, getChat);
      } else if command in {"edit_toggle", "edit_all", "edit_none"} {
        reply := EditSelection(userId, command, setId, channel, getChat);
      } else if command == "save" {
        reply := SaveSelection(userId, setId);
      } else if command == "delete_confirm" {
        reply := ConfirmDelete(setId);
      } else if command == "delete_execute" {
        reply := ExecuteDelete(userId, setId);
      } else {
        reply := Silent;
      }
    }

    /** `add`: a new, empty selection awaiting its name. */
    method AddSet(userId: int, messageId: int) returns (reply: Reply)
      modifies sessions
      ensures sessions.states.Keys == old(sessions.states).Keys + {userId}
      ensures forall u :: u in old(sessions.states) && u != userId ==> sessions.states[u] == old(sessions.states)[u]
      ensures var s := sessions.Get(userId);
              s.AwaitingSetName? && s.setId == 0 && s.messageId == messageId
              && fresh(s.selected) && s.selected.items == []
      ensures reply == NamePrompt
    {
      var selected := new ChannelList([]);
      sessions.states := sessions.states[userId := AwaitingSetName(0, messageId, selected)];
      reply := NamePrompt;
    }

    /** `view`: the editor opens on the stored set's own channel list. */
    method ViewSet(userId: int, messageId: int, setId: int, getChat: ChatOracle) returns (reply: Reply)
      modifies sessions
      ensures old(store.FindSet(setId)).None? ==> sessions.states == old(sessions.states) && reply == NotFoundAlert
      ensures old(store.FindSet(setId)).Some? ==>
                var b := old(store.FindSet(setId)).value;
                sessions.states == old(sessions.states)[userId := SelectingGroupsForSet(setId, b.name, messageId, b.channels)]
                && reply == EditorReply(setId, b.name, DetailsOf(targets, getChat), old(b.channels.items))
    {
      var found := store.FindSet(setId);
      if found.None? {
        return NotFoundAlert;
      }
      var b := found.value;
      reply := ShowEditor(setId, b.name, b.channels.items, getChat);
      sessions.states := sessions.states[userId := SelectingGroupsForSet(setId, b.name, messageId, b.channels)];
    }

    /** `edit_toggle`, `edit_all`, `edit_none`: only in the editing state.
        A toggle changes the session's list in place; the other two give
        the session a new list. The editor is drawn for the payload's set
        id. */
    method EditSelection(userId: int, command: string, setId: int, channel: Option<int>, getChat: ChatOracle) returns (reply: Reply)
      requires command in {"edit_toggle", "edit_all", "edit_none"}
      modifies sessions, Editing(userId)
      ensures !old(sessions.Get(userId)).SelectingGroupsForSet? ==>
                sessions.states == old(sessions.states) && reply == Silent
      ensures command == "edit_toggle" && old(sessions.Get(userId)).SelectingGroupsForSet? ==>
                var s := old(sessions.Get(userId));
                sessions.states == old(sessions.states)
                && (channel.None? ==> s.selected.items == old(s.selected.items) && reply == ErrorAlert)
                && (channel.Some? ==>
                      s.selected.items == Toggled(old(s.selected.items), IntId(channel.value))
                      && reply == EditorReply(setId, s.setName, DetailsOf(targets, getChat), s.selected.items))
      ensures command != "edit_toggle" && old(sessions.Get(userId)).SelectingGroupsForSet? ==>
                var s := old(sessions.Get(userId));
                var all := SelectableIds(DetailsOf(targets, getChat));
                var ids := if all.Some? && command == "edit_none" then Some([]) else all;
                unchanged(s.selected)
                && (ids.None? ==> sessions.states == old(sessions.states) && reply == ErrorAlert)
                && (ids.Some? ==>
                      (var t := sessions.Get(userId);
                       t.SelectingGroupsForSet?
                       && t == SelectingGroupsForSet(s.setId, s.setName, s.messageId, t.selected)
                       && fresh(t.selected) && t.selected.items == ids.value
                       && sessions.states == old(sessions.states)[userId := t]
                       && reply == EditorReply(setId, s.setName, DetailsOf(targets, getChat), ids.value)))
    {
      var s := sessions.Get(userId);
      if !s.SelectingGroupsForSet? {
        return Silent;
      }
      if command == "edit_toggle" {
        if channel.None? {
          return ErrorAlert;
        }
        s.selected.Toggle(IntId(channel.value));
      } else {
        // Both commands first build the list of all numeric ids, which
        // raises where int() rejects an id that passed the digit check.
        var details := GetAllChannelDetails(targets, getChat);
        assert details == DetailsOf(targets, getChat);
        var ids := SelectableIds(details);
        if ids.None? {
          return ErrorAlert;
        }
        if command == "edit_none" {
          ids := Some([]);
        }
        var selected := new ChannelList(ids.value);
        s := SelectingGroupsForSet(s.setId, s.setName, s.messageId, selected);
        sessions.states := sessions.states[userId := s];
      }
      reply := ShowEditor(setId, s.setName, s.selected.items, getChat);
    }

    /** `save`: the session's list is stored under its name (a new set for
        id 0, else the set with that id) and the user goes back to idle. */
    method SaveSelection(userId: int, setId: int) returns (reply: Reply)
      modifies sessions, store
      ensures store.logs == old(store.logs)
      ensures !old(sessions.Get(userId)).SelectingGroupsForSet? ==>
                sessions.states == old(sessions.states) && store.sets == old(store.sets) && reply == Silent
      ensures old(sessions.Get(userId)).SelectingGroupsForSet? ==>
                var s := old(sessions.Get(userId));
                var ss := old(store.sets);
                sessions.states == old(sessions.states)[userId := Idle]
                && (ss.None? ==> store.sets == ss)
                && (ss.Some? && setId == 0 ==> store.sets == Some(Appended(ss.value, s.setName, s.selected)))
                && (ss.Some? && setId != 0 ==> store.sets == Some(Updated(ss.value, setId, s.setName, s.selected)))
                && reply == SavedAlert(ManagementPanel(store.GetSets()))
    {
      var s := sessions.Get(userId);
      if !s.SelectingGroupsForSet? {
        return Silent;
      }
      store.SaveSet(s.setName, s.selected, if setId != 0 then Some(setId) else None);
      sessions.states := sessions.states[userId := Idle];
      reply := SavedAlert(ManagementPanel(store.GetSets()));
    }

    /** `delete_confirm`: the confirmation panel when the set exists. */
    method ConfirmDelete(setId: int) returns (reply: Reply)
      ensures store.FindSet(setId).Some? ==> reply == Shown(DeleteConfirmationPanel(setId, store.FindSet(setId).value.name))
      ensures store.FindSet(setId).None? ==> reply == Silent
    {
      var found := store.FindSet(setId);
      reply := if found.Some? then Shown(DeleteConfirmationPanel(setId, found.value.name)) else Silent;
    }

    /** `delete_execute`: the table loses every set with that id and the
        user goes back to idle, whether or not the set existed. */
    method ExecuteDelete(userId: int, setId: int) returns (reply: Reply)
      modifies sessions, store
      ensures store.logs == old(store.logs)
      ensures store.sets == Some(Without(old(store.GetSets()), setId))
      ensures sessions.states == old(sessions.states)[userId := Idle]
      ensures reply == DeletedAlert(ManagementPanel(store.GetSets()))
    {
      store.DeleteSet(setId);
      sessions.states := sessions.states[userId := Idle];
      reply := DeletedAlert(ManagementPanel(store.GetSets()));
    }

    /** Opening a stored set in the editor and pressing a channel button
        changes the stored set itself, before any save: the session and the
        store share one list. */
    method ViewThenToggle(userId: int, messageId: int, setId: int, channel: int, getChat: ChatOracle)
      requires store.FindSet(setId).Some?
      modifies sessions, store.FindSet(setId).value.channels
      ensures store.sets == old(store.sets)
      ensures var b := old(store.FindSet(setId)).value;
              store.FindSet(setId) == Some(b) && b.channels.items == Toggled(old(b.channels.items), IntId(channel))
    {
      var b := store.FindSet(setId).value;
      var viewed := ViewSet(userId, messageId, setId, getChat);
      assert Editing(userId) == {b.channels};
      var toggled := EditSelection(userId, "edit_toggle", setId, Some(channel), getChat);
    }
  }

  /** The editor shown after a change to the selection, or the error alert
      where building it raises. */
  function EditorReply(setId: int, name: string, details: seq<ChannelDetail>, selected: seq<ChannelRef>): Reply {
    var panel := EditorPanel(setId, name, details, selected);
    if panel.Some? then Shown(panel.value) else ErrorAlert
  }
}
