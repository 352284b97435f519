# Telegram broadcast userbot: a Dafny model of its core

The bot is a user account, driven from one control group by its
administrators, that copies a message to many Telegram chats at once. Its
core is modelled here:

- the data store (`DataManager`): an append-only log and a table of
  broadcast sets `{id, name, channels}`, with fresh-id assignment, insert or
  update, delete by id and lookup. The table and its channel lists are
  updated in place.
- the broadcast executor (`BroadcastService`): one copy per target, counted
  as a success or a failure, with one retry after a flood-wait.
- configuration parsing (`Config`): `get_env_var` and the checks on
  ADMIN_USERS and TARGET_CHANNELS.
- the panel renderer (`Panels`): the button grids and their `action:sub:id`
  payloads (`Payloads`).
- the two controllers (`Callbacks`, `Messages`): the per-user state machine
  (`States`) driven by button presses and text commands.
- the info service (`InfoService`): the 24-hour log count, the per-channel
  detail records, and the dialog scan.

`Text` gives the Python string operations the code relies on: `split`,
`strip`, `lstrip`, `isdigit`, `lower`, `removeprefix`, and `int()`/`str()`
between integers and decimal text. `strip`, `isdigit` and `lower` are
modelled on ASCII only (see "Left out"). `Chats` gives the chat identifiers. One
Python list can hold both integer ids and text ids, and the two are never
equal (`5 != "5"`).

The store and the user sessions are objects, as in the program:
`DataManager.Store`, `DataManager.ChannelList` and `States.Sessions`. When
the editor opens a stored set (`view`), the session's selection *is* the
stored set's channel list. A toggle therefore changes the stored set before
`save`. `Callbacks.CallbackHandler.ViewThenToggle` states this.

The Telegram client is replaced by parameters:

- `copy` is an oracle giving the outcome of each copy attempt;
- `getChat` is an oracle giving each lookup;
- the dialogs are a sequence;
- `sendOk`/`errorText` give the outcome of sending the main panel;
- the clock is an integer `now`, in seconds.

A Python exception that the controller catches becomes an explicit
outcome: `Raises` for a payload, `ErrorAlert` for a reply, `None` for a
panel that cannot be built.

Two behaviours of the code are reproduced as written:

- `groups:scan_all` calls `add_log` without its `status` argument
  (handlers/callback_handler.py:109-113). That raises a TypeError before
  the scan results are stored. So no session ever holds scan results, and
  `scan:page` always answers that the results have expired.
- When the `logs` or `broadcast_sets` key is missing from a loaded
  document, `add_log` and `save_broadcast_set` work on a throw-away list,
  so nothing is recorded. `delete_broadcast_set` creates the key.

## Model

| member | source | states |
|---|---|---|
| Chats.CoerceNegative | services/broadcast_service.py:25 | A chat id becomes an integer exactly when it already is one or its text starts with '-'. The conversion fails exactly for such text that int() rejects. Any other id is passed on unchanged. |
| Chats.CoerceNegativeOfText | services/info_service.py:33 | The text of a negative id converts to that integer. |
| Chats.CoerceNumeric | ui/panels.py:60 | Integers are kept. Text failing the `lstrip('-').isdigit()` check is kept as text. Text passing it becomes `int()` of it, or None where int() raises. |
| Chats.CoerceNumericFails | ui/panels.py:60 | The `lstrip('-').isdigit()` guard followed by int() raises exactly for text of two or more '-' followed by digits. |
| Chats.DoubleMinusRaises | ui/panels.py:60 | "--5" passes the guard, and then int() raises. |
| Chats.CoerceNumericOfText | handlers/callback_handler.py:157 | The decimal text of any integer converts to that integer. |
| Text.SplitJoin | handlers/callback_handler.py:31 | Splitting on ':' a join of ':'-free pieces gives back the pieces. |
| Text.Split | handlers/callback_handler.py:31 | No piece of a split contains the separator, none is longer than the text, and there is at least one piece. |
| Text.JoinSplit | handlers/callback_handler.py:31 | Joining the pieces of a split restores the string. |
| Text.IntRoundTrip | handlers/callback_handler.py:133 | int(str(n)) == n, so an id written into a payload reads back as itself. |
| Text.StripEmptyIffAllSpace | config/__init__.py:24 | `item.strip()` is empty exactly when the item is all whitespace. |
| Text.StripEnds | config/__init__.py:24 | Neither end of a stripped string is whitespace. |
| Config.GetEnvVar | config/__init__.py:11-29 | A missing or empty variable is a MissingVariable error, and only then. Any other error is a format error. The first flag set among int, list and int-list picks the conversion. With the int flag, a set variable gives its integer value, or a format error when the text is not an integer. With no flag, the raw text is returned. |
| Config.CleanItems | config/__init__.py:24 | Every item kept is non-empty with no surrounding whitespace, and there are no more items than pieces. |
| Config.ListItems | config/__init__.py:24 | The items of a list setting are non-empty and stripped, at most one per comma-separated piece. |
| Config.ParseAll | config/__init__.py:26 | The int-list conversion succeeds exactly when every item converts, and then gives each item's value in order. |
| Config.ListFlags | config/__init__.py:21-27 | The list flag yields exactly the clean items. The int-list flag yields them converted, or a format error. |
| Config.ListItemsRoundTrip | config/__init__.py:24 | Clean, comma-free items joined with ',' parse back to the same items in order. |
| Config.IntListRoundTrip | config/__init__.py:25-26 | A comma-separated list of integers parses back to those integers. The empty list is empty text, so it reads as a missing variable. |
| Config.CommasOnly | config/__init__.py:24 | The value ",," holds no items. |
| Config.LoadSettings | config/__init__.py:32-54 | Loaded settings have non-empty admin and target lists and clean target items. Every required variable is set. Each field is the conversion of its own variable: API_ID and CONTROL_GROUP as integers, API_HASH as text, ADMIN_USERS as the integer list, TARGET_CHANNELS as the clean items. The optional phone and password are passed through. |
| Config.EmptyAdminListRejected | config/__init__.py:51-52 | ADMIN_USERS=",," passes get_env_var and is then rejected as an empty list. |
| Config.EmptyListsRejected | config/__init__.py:34-54 | Once the five variables convert, an empty admin list is rejected first, then an empty target list. Loading succeeds exactly when both lists are non-empty. |
| DataManager.ChannelList.Toggle | handlers/callback_handler.py:153-154 | The list loses the first occurrence of the id when present; otherwise the id is appended. |
| DataManager.ToggleFlips | handlers/callback_handler.py:153-154 | On a duplicate-free list a toggle flips the id's membership and keeps every other id's membership. The list stays duplicate-free. |
| DataManager.RemoveKeepsOthers | handlers/callback_handler.py:153 | Removal takes out the id, keeps every other id, and keeps the list duplicate-free. |
| DataManager.AppendFresh | handlers/callback_handler.py:154 | Appending an absent id keeps the list duplicate-free. |
| DataManager.ToggleTwiceRestores | handlers/callback_handler.py:152-154 | Toggling an absent id twice restores the list exactly. |
| DataManager.MaxId | data/data_manager.py:36 | The largest id of a non-empty table, attained by some set. |
| DataManager.NextIdOf | data/data_manager.py:33-36 | The next id is greater than every existing id. It is 1 for an empty table, else the largest id plus 1. |
| DataManager.IndexOfId | data/data_manager.py:67-69 | The position of the first set with the id, or none when no set has it. |
| DataManager.Without | data/data_manager.py:86 | After deletion no set has the id, every remaining set was in the table, and every set with another id remains. |
| DataManager.AppendedProperties | data/data_manager.py:74-76 | Insertion adds exactly one set, at the end, with the given name and channels and an id no other set has. Earlier sets are unchanged, and unique ids stay unique. |
| DataManager.UpdatedProperties | data/data_manager.py:77-81 | An update keeps the length and every id. Only the first set with the id changes, and only in name and channels. With the id absent the table is unchanged. Unique ids stay unique. |
| DataManager.WithoutSplits | data/data_manager.py:86 | Deletion keeps the order of the remaining sets: it distributes over concatenation. |
| DataManager.WithoutAbsent | data/data_manager.py:84-86 | Deleting an absent id changes nothing. |
| DataManager.WithoutUnique | data/data_manager.py:84-86 | Deletion keeps ids unique. |
| DataManager.Store.constructor | data/data_manager.py:23 | The default document has empty logs and an empty set table. |
| DataManager.Store.Loaded | data/data_manager.py:17-20 | A loaded document, where either key may be missing. |
| DataManager.Store.NextId | data/data_manager.py:33-36 | The store's next id is greater than every stored id, and 1 when there is no set. |
| DataManager.Store.FindSet | data/data_manager.py:66-70 | Lookup gives the first set with the id, and nothing exactly when no set has it. |
| DataManager.Store.GetLogs | data/data_manager.py:58-60 | The stored log, or the empty list when the document has no `logs` key. |
| DataManager.Store.GetSets | data/data_manager.py:63-64 | The stored sets, or the empty list when the document has no `broadcast_sets` key. |
| States.Sessions.Get | handlers/message_handler.py:34 | A user with a record is in the state it records. A user without one is idle. |
| DataManager.Store.AddLog | data/data_manager.py:39-56 | The log grows by exactly one entry at the end, carrying the given fields. With the key missing nothing is recorded. The set table is unchanged. |
| DataManager.Store.SaveSet | data/data_manager.py:72-82 | With no id the table becomes the insertion; with an id, the update. With the key missing nothing changes. The log is unchanged. |
| DataManager.Store.DeleteSet | data/data_manager.py:84-87 | The table becomes the deletion of the current sets (none when the key was missing). |
| BroadcastService.Deliver | services/broadcast_service.py:23-49 | One target makes at most two copy attempts. A second attempt happens exactly when the converted id's first copy hit a flood-wait. When the target succeeds, its last attempt copied. |
| BroadcastService.SuccessCount | services/broadcast_service.py:22-49 | The number of successes never exceeds the number of targets tried. |
| BroadcastService.BroadcastToTargets | services/broadcast_service.py:10-55 | The loop's success count is that of the specification. Success plus failure equals the number of targets. The copy attempts are those of the specification. |
| BroadcastService.EmptyBroadcast | services/broadcast_service.py:20-22 | No targets: (0, 0) and no copy attempt. |
| BroadcastService.CallsInOrder | services/broadcast_service.py:22 | Copy attempts go to the targets in list order, never returning to an earlier target. |
| BroadcastService.RetryOnlyAfterFloodWait | services/broadcast_service.py:32-41 | At most two attempts. The first is a first copy. A second is a retry to the same chat, made only after the first copy hit a flood-wait. |
| BroadcastService.TargetOutcome | services/broadcast_service.py:25-49 | An id that fails conversion is a failure with no attempt. Otherwise a first copy counts as success, a blocked or invalid peer or other error as failure, and after a flood-wait the retry decides. |
| BroadcastService.AllDelivered | services/broadcast_service.py:22-49 | Everything succeeded exactly when every target was delivered. |
| BroadcastService.NoneDelivered | services/broadcast_service.py:22-49 | Nothing succeeded exactly when no target was delivered. |
| BroadcastService.OneBlockedOfThree | services/broadcast_service.py:43-45 | Three integer targets, one of which is blocked, give two successes. |
| InfoService.TitleOf | services/info_service.py:37 | A chat's title, or "無標題" when it has none; never empty. |
| InfoService.RecentCount | services/info_service.py:17-20 | The count of recent logs never exceeds the number of logs. |
| InfoService.RecentCountIsFilter | services/info_service.py:17-20 | The count is the number of logs, of any action, whose time is strictly after now minus 24 hours. |
| InfoService.RecentCountAppend | services/info_service.py:17-20 | One more log adds one exactly when it is recent. |
| InfoService.RecentCountBounds | services/info_service.py:17-20 | All logs old gives 0; all recent gives their number. |
| InfoService.SystemStats | services/info_service.py:11-26 | Set count = number of stored sets, target count = number of configured targets, broadcasts = the 24-hour count of the log. |
| InfoService.DetailOf | services/info_service.py:32-46 | A record is a placeholder exactly when the conversion fails or the lookup errs. The placeholder keeps the original text and an error title. Otherwise it carries the chat's id, title and member count. |
| InfoService.DetailsOf | services/info_service.py:28-47 | One record per id, in input order. |
| InfoService.GetAllChannelDetails | services/info_service.py:28-47 | The loop gives one record per id, in input order, each that id's record. A failure never stops the batch. |
| InfoService.Scanned | services/info_service.py:50-65 | The scan keeps no more entries than dialogs. |
| InfoService.ScanAllDialogs | services/info_service.py:50-65 | The loop gives exactly the scan of the dialogs. |
| InfoService.ScannedAppend | services/info_service.py:56 | The scan keeps enumeration order: scanning two runs is scanning each in turn. |
| InfoService.ScannedMembers | services/info_service.py:58-63 | Every supergroup and channel appears as its entry, with the label "超級群組" or "頻道" for its type, and nothing else appears. |
| InfoService.ScannedNone | services/info_service.py:58 | Private chats, bots and basic groups only: nothing found. |
| Payloads.DecodeParts | handlers/callback_handler.py:31-46 | A payload is ignored exactly when its first piece is not one of the six actions. A known action without a second piece raises. |
| Payloads.Decode | handlers/callback_handler.py:31-46 | A payload is ignored exactly when the text before its first ':' is not a known action. |
| Payloads.DecodeJoin | handlers/callback_handler.py:31 | A payload built from ':'-free pieces dispatches as those pieces. |
| Payloads.DecodeTargetSet | ui/panels.py:35 | `broadcast:target_set:{id}` asks to broadcast to set id. |
| Payloads.DecodeSet | handlers/callback_handler.py:131-133 | `set:{command}:{id}` asks for that command on set id. |
| Payloads.DecodeSetWithoutId | handlers/callback_handler.py:133 | A set command without an id works on set 0. |
| Payloads.DecodeToggle | handlers/callback_handler.py:152 | `set:edit_toggle:{set}:{n}` toggles the integer n in that set. |
| Payloads.DecodeToggleName | handlers/callback_handler.py:152 | A toggle naming a non-numeric channel carries no integer, so the toggle raises. |
| Panels.ButtonDecodes | ui/panels.py:10-85 | What the controller makes of a button is what its pieces say. |
| Panels.MainPanel | ui/panels.py:15-29 | The caption reports the statistics. Every button is a main-menu command, and the first is "broadcast". |
| Panels.BackButton | ui/panels.py:10-12 | A back button carries the back label and exactly the payload it is given. |
| Panels.GroupManagementPanel | ui/panels.py:40-46 | Three single-button rows: manage sets, test all, back to main. |
| Panels.TargetPanel | ui/panels.py:32-37 | "All groups" first, then one row per set in order, labelled with its name and channel count and carrying its target payload, then back to main. |
| Panels.TargetPanelPayloads | ui/panels.py:34-36 | Every button survives the round trip. Each set row asks to broadcast to that set. |
| Panels.ManagementPanel | ui/panels.py:48-53 | One row per set in order, then `set:add:0`, then back to groups. |
| Panels.ManagementPanelPayloads | ui/panels.py:50-52 | Every button survives the round trip. Each set row views that set. |
| Panels.DeleteConfirmationPanel | ui/panels.py:79-85 | `set:delete_execute:{id}`, then a back button to `set:view:{id}`. |
| Panels.Take | ui/panels.py:62 | `title[:20]`: a prefix of at most 20 characters, the whole title when shorter. |
| Panels.ChannelButtons | ui/panels.py:59-62 | One button per channel, in input order. |
| Panels.Pairs | ui/panels.py:63-67 | Grouping makes ceil(n/2) rows. |
| Panels.PairsShape | ui/panels.py:57-67 | The rows hold the buttons in order. Every row has two buttons except possibly the last, which may hold one. |
| Panels.ChannelRows | ui/panels.py:57-67 | The row-building loop succeeds exactly when every id converts, and then gives the buttons grouped in pairs. |
| Panels.CreateEditorPanel | ui/panels.py:55-77 | The imperative editor builder gives exactly the editor panel. |
| Panels.EditorChannels | ui/panels.py:60-62 | Each channel button is checked exactly when its converted id is selected, shows the first 20 characters of the title, and for an integer id toggles that id in the set being edited. |
| Panels.EditorLayout | ui/panels.py:55-77 | The caption counts the selected and all channels. The channel rows come first, then select-all/clear, then save. A delete row follows when the id is not 0. The back button to `manage_sets` is last. |
| Panels.EditorPanel | ui/panels.py:55-77 | The editor exists exactly when every channel id converts (otherwise int() raises), and its caption counts the selected and all channels. Its rows are stated by EditorLayout. |
| Panels.FooterPayloads | ui/panels.py:69-75 | The editor footer is select-all and clear in one row, then save, then delete only for a set id other than 0, then back. Each button's payload decodes to that command on the same set id, and back returns to `manage_sets`. |
| Panels.EditorDeleteRow | ui/panels.py:73-74 | The editor has a delete button exactly when the set id is not 0. |
| Panels.EditorFails | ui/panels.py:60 | The editor cannot be built exactly when some channel id is text of two or more '-' followed by digits. |
| Callbacks.SelectableIds | handlers/callback_handler.py:157 | "Select all" picks no more ids than there are channels. |
| Callbacks.SelectableIdsDefined | handlers/callback_handler.py:157 | "Select all" raises exactly when the editor would: on an id that passes the guard and fails int(). |
| Callbacks.SelectableIdsMembers | handlers/callback_handler.py:157 | "Select all" picks only integers. They are exactly the converted ids that are integers. |
| Callbacks.DoubleMinusTargetRaises | handlers/callback_handler.py:156-158 | With a configured target "--5", the list that select-all and clear build raises, so both end in the error alert and leave the selection as it was. |
| Callbacks.CallbackHandler.constructor | handlers/callback_handler.py:17-20 | The controller shares the given sessions and store. |
| Callbacks.CallbackHandler.HandleCallback | handlers/callback_handler.py:28-53 | An unknown action changes nothing and stays silent. A payload that raises changes nothing and gives the error alert. Navigation, menu, group and scan presses change no state, and each gets its handler's reply: back to main shows the main panel with current stats, to groups the group panel, to manage_sets the management panel, to anything else nothing. The broadcast menu shows the target panel, groups the group panel, anything else the not-open alert. Group commands show the management panel, report the channel details, end in the error alert (scan_all) or nothing. An old scan page gives the expired alert, and other scan presses give nothing. A broadcast press writes the awaiting state for its target and prompts for the message (silently for an unrecognised target), unless the set does not exist, which gives the not-found alert. It leaves any list being edited untouched. A `set` press has, command by command, the effect `SetEffect` states (see SetManagement). |
| Callbacks.CallbackHandler.BackNavigation | handlers/callback_handler.py:55-63 | Back to main (with the current statistics), to groups, or to set management; anything else is silent. |
| Callbacks.CallbackHandler.MainMenuChoice | handlers/callback_handler.py:65-72 | "broadcast" shows the target panel, "groups" the group panel. Anything else is not open yet. |
| Callbacks.CallbackHandler.BroadcastFlow | handlers/callback_handler.py:74-91 | Choosing a set that does not exist leaves the state and answers "not found". Otherwise the user awaits the message for that target. |
| Callbacks.CallbackHandler.GroupManagement | handlers/callback_handler.py:93-117 | Set management shows the panel. Testing reports every configured channel's record. Scanning ends in the error alert. |
| Callbacks.CallbackHandler.ShowEditor | handlers/callback_handler.py:144-145 | The editor for the configured channels, or the error alert where it cannot be built. |
| Callbacks.CallbackHandler.SetManagement | handlers/callback_handler.py:130-183 | Each command's new sessions, table and reply, stated in `SetEffect`. add: the user awaits a name for set 0 with a fresh empty list. view: not found, or the user edits the stored set's own list and the editor is shown. edit_*: as EditSelection. save: the selection is appended (id 0) or updated, or nothing happens when the key is missing; the user ends idle. delete_confirm: the confirmation panel or nothing, with no state change. delete_execute: every set with the id is removed and the user ends idle. Any other command changes nothing. No command writes the log. Only edit_toggle changes the items of the list being edited. |
| Callbacks.CallbackHandler.AddSet | handlers/callback_handler.py:136-139 | The user awaits a set name, with set id 0, the panel's message and a new empty selection. Other users are unchanged. |
| Callbacks.CallbackHandler.ViewSet | handlers/callback_handler.py:140-145 | A missing set answers "not found". Otherwise the user edits the set with the stored list itself as selection, and the editor is shown. |
| Callbacks.CallbackHandler.EditSelection | handlers/callback_handler.py:147-163 | Outside the editor nothing happens. A toggle flips the id in the session's list in place (the error alert when the id does not parse). "Select all" and "clear" both first build the list of selectable ids. Where that raises, nothing changes and the error alert is shown. Otherwise the session gets a new list: the selectable ids, or none. |
| Callbacks.CallbackHandler.SaveSelection | handlers/callback_handler.py:165-172 | In the editor: the selection is stored (id 0 as a new set, else as an update) and the user is idle again. Otherwise nothing happens. |
| Callbacks.CallbackHandler.ConfirmDelete | handlers/callback_handler.py:174-176 | The confirmation panel when the set exists; nothing otherwise. |
| Callbacks.CallbackHandler.ExecuteDelete | handlers/callback_handler.py:178-183 | The set is deleted and the user is idle again, whether or not it existed. |
| Callbacks.CallbackHandler.ViewThenToggle | handlers/callback_handler.py:143 | Opening a stored set and toggling a channel changes the stored set's own list before any save. |
| Messages.CommandWord | handlers/message_handler.py:38 | ".Word rest" names the command "word": the first space-separated token, lower-cased, without the prefix. |
| Messages.CommandAlone | handlers/message_handler.py:38 | A one-word message is its own command word. |
| Messages.CommandOf | handlers/message_handler.py:37 | The command taken from a message is one word: no space in it, and no longer than the message. |
| Messages.BroadcastStatus | handlers/message_handler.py:120 | The log status: SUCCESS when nothing failed, else PARTIAL_SUCCESS when something arrived, else FAILURE. |
| Messages.BroadcastStatusMeaning | handlers/message_handler.py:120 | For a non-empty target list and its success count, the status is SUCCESS exactly when every target received its copy. It is FAILURE exactly when none did, and PARTIAL_SUCCESS exactly when neither holds, that is when some did and some did not. |
| Messages.LogContent | handlers/message_handler.py:119 | Text of up to 50 characters is logged whole. Longer text is cut to 50 characters plus "...". A message without text is logged as media. |
| Messages.Broadcasted | handlers/message_handler.py:114 | The message broadcast is the replied-to one when there is one. |
| Messages.TargetsOf | handlers/message_handler.py:97-106 | "All" means every configured channel in order. A set means the set's list when it still exists. Anything else means nothing. |
| Messages.MessageHandler.constructor | handlers/message_handler.py:17-20 | The handler shares the given sessions and store. |
| Messages.MessageHandler.HandleMessage | handlers/message_handler.py:31-46 | start, cancel and id have exactly their command effect (`CommandEffect`: sessions, table, log and reply) and skip the state handler. Any other message goes to the flow the user was in, from the log as the command step left it: a prefixed non-command has already logged its FAILURE entry (`FlowLogs`). Idle users (including those with no entry) and users in the editor change nothing else and get no reply. A user awaiting a broadcast gets the whole broadcast effect (`AfterBroadcast`: copies, counts, report, log entry, idle). A user awaiting a name gets the whole naming effect (`AfterNaming`: editor state, INFO entry, editor reply). |
| Messages.MessageHandler.HandleCommand | handlers/message_handler.py:48-92 | Stated in `CommandEffect`, which also says the table never changes. start sets idle, shows the main panel and logs success, or logs the send error. cancel sets idle and logs, unless the user has an idle record. id shows the ids and logs. When the replied-to message has no sending user, `.id` raises before replying or logging. Any other command logs a failure and is reported unhandled. |
| Messages.MessageHandler.ProcessBroadcastMessage | handlers/message_handler.py:94-124 | Stated in `AfterBroadcast`, which also says the table never changes. With no target chats: the no-target error and a FAILURE log. Otherwise: the broadcast's counts, and a log with the status and detail message. Either way the user ends idle. |
| Messages.MessageHandler.ProcessSetName | handlers/message_handler.py:126-133 | Stated in `AfterNaming`, which also says the table never changes. The user moves to the editor with the text as set name, keeping set id, message and selection. An INFO log is recorded, and the editor is drawn. |

## Left out

- Reading and writing the JSON file, and the lock around writes, are left out: they are file I/O and concurrency. The store is the in-memory document. `Store.constructor` is the default document used when the file cannot be read.
- The `asyncio.sleep` pauses and the flood-wait duration are left out: they affect timing, not counts.
- Every call into the Telegram client is left out: copy, get_chat, get_dialogs, edit_text, answer, reply_text, send_message, edit_message_text, and handler and filter registration. Their outcomes are parameters, and the replies are reduced to `Reply` and `Response`. Only the main panel's send outcome (`sendOk`) is modelled. The other edits and answers are taken to succeed. The code ignores a `MessageNotModified` only after an edit in the editor (handlers/callback_handler.py:163). Anywhere else, a failing edit reaches the handler's `except` (handlers/callback_handler.py:47) and becomes the error alert, which the model does not capture.
- `datetime.now()` and ISO timestamps are left out: time is an integer number of seconds.
- Reply texts, emoji and Markdown are left out. Panels carry a caption naming the figures they report, and buttons a label naming their role.
- Python's `int()` is modelled on stripped text with an optional sign and ASCII digits. Underscores and non-ASCII digits are not accepted.
- Text.IsSpace: `str.strip()` is modelled with the six ASCII whitespace characters. Python also strips `\xa0`, `\x85`, `\x1c`-`\x1f` and other Unicode spaces, so such an item of a setting is kept by the model where Python drops or trims it.
- Text.Lower: `str.lower()` is modelled on ASCII letters only. Python also lower-cases other letters, so an unknown command's logged text can differ for non-ASCII input.
- Text.IsDigits: `str.isdigit()` is modelled on ASCII digits only. Python also accepts digits such as "²", so a channel id like "-²" passes the editor's check and then makes `int()` raise. Chats.CoerceNumericFails does not cover that case.
- DataManager.NextIdOf: every stored set has an integer `id`. The code writes only such sets, so `get('id', 0)` on a set without one is not modelled.
- InfoService.DetailOf: `getattr(chat, 'members_count', 'N/A')` is modelled as the chat's optional count. The 'N/A' default for an object lacking the attribute is not distinguished from a missing count.
- Callbacks.CallbackHandler.HandleCallback: the final `query.answer()` and the error alert's exception name are not modelled.
- Callbacks.CallbackHandler.GroupManagement: the dialog scan is performed, but its results are discarded, because the code raises before using them. `create_scan_results_panel` is not part of the source.
- Messages.MessageHandler.ProcessSetName: it is called only in the awaiting-name state, and requires it. On other states the code would update a throw-away record.
- Messages.MessageHandler.HandleCommand: the text of the `.id` reply and of the exception in the start failure log are parameters, not modelled text.
- main.py (startup wiring and the 4096-character truncation) and debug_env.py (a diagnostic script) are not part of this model.
- handlers/states.py is only an enumeration. It is the `States.Session` datatype, which carries the fields each state is written with.
