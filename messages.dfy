/** The text-message controller (handlers/message_handler.py): dot
    commands, and the text a user sends while a flow awaits it. Replies
    are reduced to a `Response`; the messaging client's calls are oracles
    (`sendOk` for the main panel's delivery, `copy` for each broadcast
    copy, `getChat` for chat lookups), and `now` stands for the clock. */
module Messages {
  import opened Wrappers
  import opened Text
  import opened Chats
  import opened Config
  import opened DataManager
  import opened States
  import opened BroadcastService
  import opened InfoService
  import opened Panels

  /** An incoming text message from an administrator in the control group. */
  datatype Message = Message(
    userId: int,
    userName: string,            // first_name, recorded in the log
    chatId: int,
    text: string,
    media: string,               // str(message.media)
    replyTo: Option<Replied>)    // the message it answers, if any

  /** The message replied to. `sender` is `from_user.id`, None where the
      message has no sending user (a post made on behalf of a chat). */
  datatype Replied = Replied(sender: Option<int>, text: Option<string>, media: string)

  datatype Response =
    | NoResponse
    | Raised                                             // an exception ended the handler
    | MainPanelSent(panel: Panel)
    | MainPanelFailed                                    // send_message raised
    | CancelConfirmed
    | IdShown(userId: int, chatId: int, repliedUserId: Option<int>)
    | NoTargetError
    | BroadcastReport(targetName: string, success: nat, failed: nat)
    | EditorEdited(panel: Panel)
    | EditorFailed                                       // building the editor raised

  /** The command word of a message: its first space-separated word, in
      lower case, without the prefix. */
  function CommandOf(text: string): (r: string)
    ensures ' ' !in r && |r| <= |text|
  {
    RemovePrefix(Lower(Split(text, ' ')[0]), CommandPrefix)
  }

  /** ".Word rest" names the command "word". */
  lemma CommandWord(w: string, rest: string)
    requires ' ' !in w
    ensures CommandOf(CommandPrefix + w + " " + rest) == Lower(w)
  {
    var text := CommandPrefix + w + " " + rest;
    assert text == (CommandPrefix + w) + (" " + rest);
    SplitPrefix(CommandPrefix + w, " " + rest, ' ');
    assert Split(" " + rest, ' ')[0] == [];
    assert Split(text, ' ')[0] == CommandPrefix + w;
    assert Lower(CommandPrefix + w) == CommandPrefix + Lower(w);
  }

  /** A message that is one word is its own command word. */
  lemma CommandAlone(w: string)
    requires ' ' !in w
    ensures CommandOf(CommandPrefix + w) == Lower(w)
  {
    SplitPrefix(CommandPrefix + w, [], ' ');
    assert CommandPrefix + w + [] == CommandPrefix + w;
    assert Lower(CommandPrefix + w) == CommandPrefix + Lower(w);
  }

  /** The status recorded for a finished broadcast. */
  function BroadcastStatus(success: nat, failed: nat): LogStatus {
    if failed == 0 then LogStatus.Success
    else if success > 0 then PartialSuccess
    else LogStatus.Failure
  }

  /** For a non-empty target list the status says how many copies arrived:
      all of them, none of them, or some but not all. */
  lemma BroadcastStatusMeaning(targets: seq<ChannelRef>, copy: CopyOracle, success: nat)
    requires targets != [] && success == SuccessCount(targets, copy, |targets|)
    ensures BroadcastStatus(success, |targets| - success) == LogStatus.Success <==> AllArrived(targets, copy, |targets|)
    ensures BroadcastStatus(success, |targets| - success) == LogStatus.Failure <==> NoneArrived(targets, copy, |targets|)
    ensures BroadcastStatus(success, |targets| - success) == PartialSuccess
            <==> !AllArrived(targets, copy, |targets|) && !NoneArrived(targets, copy, |targets|)
  {
    AllDelivered(targets, copy, |targets|);
    NoneDelivered(targets, copy, |targets|);
    StatusOfCounts(success, |targets|);
  }

  /** The status as a function of the two counts alone. */
  lemma StatusOfCounts(success: nat, n: nat)
    requires 0 < n && success <= n
    ensures BroadcastStatus(success, n - success) == LogStatus.Success <==> success == n
    ensures BroadcastStatus(success, n - success) == LogStatus.Failure <==> success == 0
    ensures BroadcastStatus(success, n - success) == PartialSuccess <==> 0 < success < n
  {
  }

  /** What the log records of the broadcast message: its text cut to 50
      characters followed by "...", or a media description when it has no
      text. */
  function LogContent(text: Option<string>, media: string): (r: string)
    ensures text.Some? && text.value != [] && |text.value| <= 50 ==> r == text.value
    ensures text.Some? && |text.value| > 50 ==> |r| == 53 && r == text.value[..50] + "..."
    ensures text.None? || text.value == [] ==> r == "媒體訊息 (" + media + ")"
  {
    if text.Some? && |text.value| > 50 then text.value[..50] + "..."
    else if text.Some? && text.value != [] then text.value
    else "媒體訊息 (" + media + ")"
  }

  /** The message that is broadcast: the replied-to one if there is one. */
  function Broadcasted(msg: Message): (r: (Option<string>, string))
    ensures msg.replyTo.None? ==> r == (Some(msg.text), msg.media)
    ensures msg.replyTo.Some? ==> r == (msg.replyTo.value.text, msg.replyTo.value.media)
  {
    match msg.replyTo
    case Some(m) => (m.text, m.media)
    case None => (Some(msg.text), msg.media)
  }

  const AllTargetsName: string := "所有群組"

  function SetTargetName(name: string): string {
    "組合「" + name + "」"
  }

  function BroadcastLogMessage(targetName: string, success: nat, failed: nat, content: string): string {
    "推播到「" + targetName + "」。結果: 成功 " + IntToString(success) + ", 失敗 " + IntToString(failed)
      + "。內容: " + content
  }

  const NoTargetMessage: string := "錯誤：找不到推播目標。"

  function CommandLogMessage(command: string): string {
    "執行指令: " + CommandPrefix + command
  }

  function UnknownCommandMessage(command: string): string {
    "未知指令: " + CommandPrefix + command
  }

  /** The chats a broadcast goes to and the name it is reported under:
      every configured channel, or the chosen set's list when the set still
      exists; nothing otherwise. */
  function TargetsOf(target: TargetType, store: Store, configured: seq<string>): (r: (seq<ChannelRef>, string))
    reads store, set b | b in store.GetSets() :: b.channels
    ensures target.AllTargets? ==> |r.0| == |configured| && forall i :: 0 <= i < |configured| ==> r.0[i] == StrId(configured[i])
    ensures target.SetTarget? && store.FindSet(target.id).Some? ==> r.0 == store.FindSet(target.id).value.channels.items
    ensures target.NoTarget? || (target.SetTarget? && store.FindSet(target.id).None?) ==> r.0 == []
  {
    match target
    case AllTargets => (seq(|configured|, i requires 0 <= i < |configured| => StrId(configured[i])), AllTargetsName)
    case SetTarget(id) =>
      (match store.FindSet(id)
       case Some(b) => (b.channels.items, SetTargetName(b.name))
       case None => ([], ""))
    case NoTarget => ([], "")
  }

  class MessageHandler {
    const sessions: Sessions
    const store: Store
    /** TARGET_CHANNELS, as configured. */
    const targets: seq<string>

    constructor (sessions: Sessions, store: Store, targets: seq<string>)
      ensures this.sessions == sessions && this.store == store && this.targets == targets
    {
      this.sessions := sessions;
      this.store := store;
      this.targets := targets;
    }

    /** `handle_message`: a message starting with the prefix is tried as
        a command first; when it is not one it is, like any other text,
        the input a pending flow awaits. The flow is the one the user was in
        when the message arrived. */
    method HandleMessage(msg: Message, now: int, sendOk: bool, errorText: string, copy: CopyOracle, getChat: ChatOracle)
      returns (response: Response)
      modifies sessions, store
      ensures !FallsThrough(msg.text) ==> CommandEffect(CommandOf(msg.text), msg, now, sendOk, errorText, response)
      ensures FallsThrough(msg.text) && (old(sessions.Get(msg.userId)).Idle? || old(sessions.Get(msg.userId)).SelectingGroupsForSet?) ==>
                sessions.states == old(sessions.states) && store.sets == old(store.sets)
                && store.logs == FlowLogs(old(store.logs), msg, now) && response == NoResponse
      ensures FallsThrough(msg.text) && old(sessions.Get(msg.userId)).AwaitingBroadcastMessage? ==>
                AfterBroadcast(old(TargetsOf(AwaitedTarget(sessions.Get(msg.userId)), store, targets)), old(sessions.states),
                               old(store.sets), FlowLogs(old(store.logs), msg, now), msg, now, copy, response)
      ensures FallsThrough(msg.text) && old(sessions.Get(msg.userId)).AwaitingSetName? ==>
                AfterNaming(old(sessions.Get(msg.userId)), old(sessions.Get(msg.userId).selected.items), old(sessions.states),
                            old(store.sets), FlowLogs(old(store.logs), msg, now), msg, now, getChat, response)
    {
      var current := sessions.Get(msg.userId);
      if StartsWith(msg.text, CommandPrefix) {
        var command := CommandOf(msg.text);
        var handled;
        handled, response := HandleCommand(command, msg, now, sendOk, errorText);
        if handled {
          return;
        }
      }
      response := NoResponse;
      if current.AwaitingBroadcastMessage? {
        response := ProcessBroadcastMessage(msg, now, copy);
      } else if current.AwaitingSetName? {
        response := ProcessSetName(msg, now, getChat);
      }
    }

    /** The user has a record saying it is idle. */
    predicate IsIdle(userId: int)
      reads sessions
    {
      userId in sessions.states && sessions.states[userId].Idle?
    }

    /** What a command does to the sessions, the table, the log and the
        reply. The table never changes; an unrecognised command logs a
        FAILURE and is left to the user's flow. */
    twostate predicate CommandEffect(command: string, msg: Message, now: int, sendOk: bool, errorText: string,
                                     response: Response)
      reads *
    {
      && store.sets == old(store.sets)
      && (command == "start" ==>
            sessions.states == old(sessions.states)[msg.userId := Idle]
            && response == (if sendOk then MainPanelSent(MainPanel(old(SystemStats(store, targets, now)))) else MainPanelFailed)
            && store.logs == old(LoggedIn(store.logs,
                 if sendOk then LogEntry(now, "command", LogStatus.Success, CommandLogMessage(command), msg.userName)
                 else LogEntry(now, "command_start", LogStatus.Failure, "顯示主面板時發生錯誤: " + errorText, msg.userName))))
      && (command == "cancel" && old(IsIdle(msg.userId)) ==>
            sessions.states == old(sessions.states) && store.logs == old(store.logs) && response == NoResponse)
      && (command == "cancel" && !old(IsIdle(msg.userId)) ==>
            sessions.states == old(sessions.states)[msg.userId := Idle]
            && store.logs == LoggedIn(old(store.logs), LogEntry(now, "command", LogStatus.Success, CommandLogMessage(command), msg.userName))
            && response == CancelConfirmed)
      && (command == "id" ==> sessions.states == old(sessions.states))
      && (command == "id" && msg.replyTo.Some? && msg.replyTo.value.sender.None? ==>
            store.logs == old(store.logs) && response == Raised)
      && (command == "id" && !(msg.replyTo.Some? && msg.replyTo.value.sender.None?) ==>
            store.logs == LoggedIn(old(store.logs), LogEntry(now, "command", LogStatus.Success, CommandLogMessage(command), msg.userName))
            && response == IdShown(msg.userId, msg.chatId, if msg.replyTo.Some? then msg.replyTo.value.sender else None))
      && (command !in {"start", "cancel", "id"} ==>
            sessions.states == old(sessions.states)
            && store.logs == LoggedIn(old(store.logs), UnknownCommandEntry(command, msg, now))
            && response == NoResponse)
    }

    /** `handle_command`: true when the command was recognised. */
    method HandleCommand(command: string, msg: Message, now: int, sendOk: bool, errorText: string)
      returns (handled: bool, response: Response)
      modifies sessions, store
      ensures handled <==> command in {"start", "cancel", "id"}
      ensures CommandEffect(command, msg, now, sendOk, errorText, response)
    {
      handled := true;
      if command == "start" {
        sessions.states := sessions.states[msg.userId := Idle];
        var panel := MainPanel(SystemStats(store, targets, now));
        if sendOk {
          response := MainPanelSent(panel);
          store.AddLog(now, "command", LogStatus.Success, CommandLogMessage(command), msg.userName);
        } else {
          response := MainPanelFailed;
          store.AddLog(now, "command_start", LogStatus.Failure, "顯示主面板時發生錯誤: " + errorText, msg.userName);
        }
      } else if command == "cancel" {
        response := NoResponse;
        if !IsIdle(msg.userId) {
          sessions.states := sessions.states[msg.userId := Idle];
          response := CancelConfirmed;
          store.AddLog(now, "command", LogStatus.Success, CommandLogMessage(command), msg.userName);
        }
      } else if command == "id" {
        if msg.replyTo.Some? && msg.replyTo.value.sender.None? {
          // `replied_user.id` on None: AttributeError, before the reply and the log.
          response := Raised;
        } else {
          response := IdShown(msg.userId, msg.chatId, if msg.replyTo.Some? then msg.replyTo.value.sender else None);
          store.AddLog(now, "command", LogStatus.Success, CommandLogMessage(command), msg.userName);
        }
      } else {
        handled := false;
        response := NoResponse;
        store.AddLog(now, "command", LogStatus.Failure, UnknownCommandMessage(command), msg.userName);
      }
    }

    /** The state after a broadcast to `dest` (the chats and the name they
        are reported under) that started from the sessions `states`, the
        table `sets` and the log `logs`: the copies went out, one entry is
        logged and the user is idle again. */
    predicate AfterBroadcast(dest: (seq<ChannelRef>, string), states: map<int, Session>, sets: Option<seq<BroadcastSet>>,
                             logs: Option<seq<LogEntry>>, msg: Message, now: int, copy: CopyOracle, response: Response)
      reads sessions, store
    {
      var (chats, name) := dest;
      var success := SuccessCount(chats, copy, |chats|);
      var (text, media) := Broadcasted(msg);
      && sessions.states == states[msg.userId := Idle]
      && store.sets == sets
      && (chats == [] ==>
            response == NoTargetError
            && store.logs == LoggedIn(logs, LogEntry(now, "broadcast", LogStatus.Failure, NoTargetMessage, msg.userName)))
      && (chats != [] ==>
            response == BroadcastReport(name, success, |chats| - success)
            && store.logs == LoggedIn(logs, LogEntry(now, "broadcast", BroadcastStatus(success, |chats| - success),
                 BroadcastLogMessage(name, success, |chats| - success, LogContent(text, media)), msg.userName)))
    }

    /** `process_broadcast_message`: copy the message to every target and
        log the outcome, or log that there was nothing to send to; either
        way the user goes back to idle. */
    method ProcessBroadcastMessage(msg: Message, now: int, copy: CopyOracle) returns (response: Response)
      modifies sessions, store
      ensures AfterBroadcast(old(TargetsOf(AwaitedTarget(sessions.Get(msg.userId)), store, targets)), old(sessions.states),
                             old(store.sets), old(store.logs), msg, now, copy, response)
    {
      var (chats, name) := TargetsOf(AwaitedTarget(sessions.Get(msg.userId)), store, targets);
      if chats == [] {
        response := NoTargetError;
        store.AddLog(now, "broadcast", LogStatus.Failure, NoTargetMessage, msg.userName);
      } else {
        var success, failed, calls := BroadcastToTargets(chats, copy);
        response := BroadcastReport(name, success, failed);
        var (text, media) := Broadcasted(msg);
        store.AddLog(now, "broadcast", BroadcastStatus(success, failed),
                     BroadcastLogMessage(name, success, failed, LogContent(text, media)), msg.userName);
      }
      sessions.states := sessions.states[msg.userId := Idle];
    }

    /** The state after naming the set that session `s` awaits a name
        for, holding the channels `selected`, starting from the sessions
        `states`, the table `sets` and the log `logs`: the text became the
        name, the user moved on to the editor for the same set, panel
        message and list, one INFO entry is logged and the editor is shown. */
    predicate AfterNaming(s: Session, selected: seq<ChannelRef>, states: map<int, Session>, sets: Option<seq<BroadcastSet>>,
                          logs: Option<seq<LogEntry>>, msg: Message, now: int, getChat: ChatOracle, response: Response)
      reads sessions, store
    {
      && s.AwaitingSetName?
      && sessions.states == states[msg.userId := SelectingGroupsForSet(s.setId, msg.text, s.messageId, s.selected)]
      && store.sets == sets
      && store.logs == LoggedIn(logs, LogEntry(now, "manage_set", Info, "使用者開始為組合命名: " + msg.text, msg.userName))
      && var panel := EditorPanel(s.setId, msg.text, DetailsOf(targets, getChat), selected);
         response == if panel.Some? then EditorEdited(panel.value) else EditorFailed
    }

    /** `process_set_name`: the text becomes the set's name and the user
        moves on to choosing its channels, keeping the set id, the panel's
        message and the selection. */
    method ProcessSetName(msg: Message, now: int, getChat: ChatOracle) returns (response: Response)
      requires sessions.Get(msg.userId).AwaitingSetName?
      modifies sessions, store
      ensures AfterNaming(old(sessions.Get(msg.userId)), old(sessions.Get(msg.userId).selected.items), old(sessions.states),
                          old(store.sets), old(store.logs), msg, now, getChat, response)
    {
      var s := sessions.Get(msg.userId);
      sessions.states := sessions.states[msg.userId := SelectingGroupsForSet(s.setId, msg.text, s.messageId, s.selected)];
      store.AddLog(now, "manage_set", Info, "使用者開始為組合命名: " + msg.text, msg.userName);
      var details := GetAllChannelDetails(targets, getChat);
      assert details == DetailsOf(targets, getChat);
      var panel := CreateEditorPanel(s.setId, msg.text, details, s.selected.items);
      response := if panel.Some? then EditorEdited(panel.value) else EditorFailed;
    }
  }

  /** The target a session awaits a broadcast message for, if any. */
  function AwaitedTarget(s: Session): TargetType {
    if s.AwaitingBroadcastMessage? then s.target else NoTarget
  }

  /** A message that is not one of the three commands goes on to the
      user's flow. */
  predicate FallsThrough(text: string) {
    !StartsWith(text, CommandPrefix) || CommandOf(text) !in {"start", "cancel", "id"}
  }

  function UnknownCommandEntry(command: string, msg: Message, now: int): LogEntry {
    LogEntry(now, "command", LogStatus.Failure, UnknownCommandMessage(command), msg.userName)
  }

  /** The log a flow starts from: a prefixed message that was not a
      command has already logged its FAILURE entry. */
  function FlowLogs(logs: Option<seq<LogEntry>>, msg: Message, now: int): Option<seq<LogEntry>> {
    if StartsWith(msg.text, CommandPrefix) then LoggedIn(logs, UnknownCommandEntry(CommandOf(msg.text), msg, now))
    else logs
  }

  /** The log after `add_log`: one more entry, unless the key is missing. */
  function LoggedIn(logs: Option<seq<LogEntry>>, e: LogEntry): Option<seq<LogEntry>> {
    if logs.Some? then Some(logs.value + [e]) else logs
  }
}
