/** Statistics and chat information (services/info_service.py). The
    messaging client's `get_chat` becomes the oracle `getChat`, and the
    dialogs `get_dialogs` enumerates become a sequence in enumeration
    order. Time is an integer count of seconds. */
module InfoService {
  import opened Wrappers
  import opened Text
  import opened Chats
  import opened DataManager

  datatype ChatKind = Private | Bot | Group | Supergroup | Channel

  /** A chat as the client reports it; `title` is None where the chat has
      none, and `members` None where no member count is given. */
  datatype Chat = Chat(id: int, title: Option<string>, kind: ChatKind, members: Option<int>)

  datatype Lookup = Found(chat: Chat) | LookupError

  type ChatOracle = ChannelRef -> Lookup

  /** The `members_count` of a detail record: the chat's count (None where
      the chat gives none) or the "inaccessible" marker of a failed
      lookup. */
  datatype Members = Count(count: Option<int>) | Inaccessible

  datatype ChannelDetail = ChannelDetail(id: ChannelRef, title: string, members: Members)

  const DefaultTitle: string := "無標題"
  const DaySeconds: int := 24 * 60 * 60

  /** `chat.title or "無標題"`: an empty title counts as none. */
  function TitleOf(chat: Chat): (t: string)
    ensures t != []
    ensures chat.title.Some? && chat.title.value != [] ==> t == chat.title.value
  {
    match chat.title
    case Some(t) => if t != [] then t else DefaultTitle
    case None => DefaultTitle
  }

  /** The title of the placeholder for an id that could not be looked up. */
  function ErrorTitle(idText: string): string {
    "錯誤 (" + idText + ")"
  }

  // ---------------------------------------------------------------------
  // get_system_stats

  datatype Stats = Stats(setCount: nat, totalTargetCount: nat, todayBroadcasts: nat)

  /** Logs whose time is strictly after `now` minus 24 hours, of any
      action. */
  function RecentCount(logs: seq<LogEntry>, now: int): (n: nat)
    ensures n <= |logs|
  {
    if logs == [] then 0
    else RecentCount(logs[..|logs| - 1], now) + (if logs[|logs| - 1].time > now - DaySeconds then 1 else 0)
  }

  function SystemStats(store: Store, targets: seq<string>, now: int): (s: Stats)
    reads store
    ensures s.setCount == |store.GetSets()| && s.totalTargetCount == |targets|
    ensures s.todayBroadcasts == RecentCount(store.GetLogs(), now)
  {
    Stats(|store.GetSets()|, |targets|, RecentCount(store.GetLogs(), now))
  }

  /** A new log entry is counted exactly when it is less than a day old. */
  lemma RecentCountAppend(logs: seq<LogEntry>, e: LogEntry, now: int)
    ensures RecentCount(logs + [e], now) == RecentCount(logs, now) + (if e.time > now - DaySeconds then 1 else 0)
  {
    assert (logs + [e])[..|logs|] == logs;
  }

  /** The count is the number of positions holding a recent entry. */
  lemma {:induction false} RecentCountIsFilter(logs: seq<LogEntry>, now: int)
    ensures RecentCount(logs, now) == |set i | 0 <= i < |logs| && logs[i].time > now - DaySeconds|
  {
    if logs != [] {
      var m := |logs| - 1;
      var prefix := logs[..m];
      RecentCountIsFilter(prefix, now);
      var before := set i | 0 <= i < m && prefix[i].time > now - DaySeconds;
      var all := set i | 0 <= i < |logs| && logs[i].time > now - DaySeconds;
      assert before == set i | 0 <= i < m && logs[i].time > now - DaySeconds;
      if logs[m].time > now - DaySeconds {
        assert all == before + {m};
      } else {
        assert all == before;
      }
    }
  }

  /** Logs at or before the window's start never count; logs inside it
      all count. */
  lemma {:induction false} RecentCountBounds(logs: seq<LogEntry>, now: int)
    ensures (forall i :: 0 <= i < |logs| ==> logs[i].time <= now - DaySeconds) ==> RecentCount(logs, now) == 0
    ensures (forall i :: 0 <= i < |logs| ==> logs[i].time > now - DaySeconds) ==> RecentCount(logs, now) == |logs|
  {
    if logs != [] {
      RecentCountBounds(logs[..|logs| - 1], now);
    }
  }

  // ---------------------------------------------------------------------
  // get_all_channel_details

  /** The record for one configured id: the id is converted to an integer
      exactly when it starts with '-'; a conversion or lookup that fails
      gives the placeholder carrying the original text. */
  function DetailOf(idText: string, getChat: ChatOracle): (d: ChannelDetail)
    ensures d.members.Inaccessible?
            <==> CoerceNegative(StrId(idText)).None? || getChat(CoerceNegative(StrId(idText)).value).LookupError?
    ensures d.members.Inaccessible? ==> d == ChannelDetail(StrId(idText), ErrorTitle(idText), Inaccessible)
    ensures d.members.Count? ==>
              var chat := getChat(CoerceNegative(StrId(idText)).value).chat;
              d == ChannelDetail(IntId(chat.id), TitleOf(chat), Count(chat.members))
  {
    match CoerceNegative(StrId(idText))
    case None => ChannelDetail(StrId(idText), ErrorTitle(idText), Inaccessible)
    case Some(chatId) =>
      match getChat(chatId)
      case Found(chat) => ChannelDetail(IntId(chat.id), TitleOf(chat), Count(chat.members))
      case LookupError => ChannelDetail(StrId(idText), ErrorTitle(idText), Inaccessible)
  }

  /** The records `get_all_channel_details` returns for a list of ids. */
  function DetailsOf(ids: seq<string>, getChat: ChatOracle): (ds: seq<ChannelDetail>)
    ensures |ds| == |ids| && forall i :: 0 <= i < |ids| ==> ds[i] == DetailOf(ids[i], getChat)
  {
    seq(|ids|, i requires 0 <= i < |ids| => DetailOf(ids[i], getChat))
  }

  /** `get_all_channel_details`: one record per id, in order; a failure
      never stops the batch. */
  method GetAllChannelDetails(ids: seq<string>, getChat: ChatOracle) returns (details: seq<ChannelDetail>)
    ensures |details| == |ids|
    ensures forall i :: 0 <= i < |ids| ==> details[i] == DetailOf(ids[i], getChat)
  {
    details := [];
    for k := 0 to |ids|
      invariant |details| == k
      invariant forall i :: 0 <= i < k ==> details[i] == DetailOf(ids[i], getChat)
    {
      var idText := ids[k];
      var chatId := CoerceNegative(StrId(idText));
      var lookup := if chatId.Some? then getChat(chatId.value) else LookupError;
      if lookup.Found? {
        var chat := lookup.chat;
        details := details + [ChannelDetail(IntId(chat.id), TitleOf(chat), Count(chat.members))];
      } else {
        details := details + [ChannelDetail(StrId(idText), ErrorTitle(idText), Inaccessible)];
      }
    }
  }

  // ---------------------------------------------------------------------
  // scan_all_dialogs

  /** One scanned dialog; `kind` is the label shown for it: "超級群組" or "頻道". */
  datatype ScanEntry = ScanEntry(id: int, title: string, kind: string)

  predicate Kept(chat: Chat) {
    chat.kind == Supergroup || chat.kind == Channel
  }

  function EntryOf(chat: Chat): ScanEntry
    requires Kept(chat)
  {
    ScanEntry(chat.id, TitleOf(chat), if chat.kind == Supergroup then "超級群組" else "頻道")
  }

  /** The supergroups and channels among `dialogs`, in order. */
  function Scanned(dialogs: seq<Chat>): (r: seq<ScanEntry>)
    ensures |r| <= |dialogs|
  {
    if dialogs == [] then []
    else
      var last := dialogs[|dialogs| - 1];
      Scanned(dialogs[..|dialogs| - 1]) + (if Kept(last) then [EntryOf(last)] else [])
  }

  method ScanAllDialogs(dialogs: seq<Chat>) returns (scanned: seq<ScanEntry>)
    ensures scanned == Scanned(dialogs)
  {
    scanned := [];
    for k := 0 to |dialogs|
      invariant scanned == Scanned(dialogs[..k])
    {
      assert dialogs[..k + 1][..k] == dialogs[..k];
      var chat := dialogs[k];
      if chat.kind == Supergroup || chat.kind == Channel {
        scanned := scanned + [ScanEntry(chat.id, TitleOf(chat), if chat.kind == Supergroup then "超級群組" else "頻道")];
      }
    }
    assert dialogs[..|dialogs|] == dialogs;
  }

  /** Scanning two runs of dialogs is scanning each in turn: the order of
      enumeration is kept. */
  lemma {:induction false} ScannedAppend(xs: seq<Chat>, ys: seq<Chat>)
    ensures Scanned(xs + ys) == Scanned(xs) + Scanned(ys)
  {
    if ys != [] {
      var zs := ys[..|ys| - 1];
      assert (xs + ys)[..|xs + ys| - 1] == xs + zs;
      ScannedAppend(xs, zs);
    } else {
      assert xs + ys == xs;
    }
  }

  /** Exactly the supergroups and channels appear, each as its entry. */
  lemma {:induction false} ScannedMembers(dialogs: seq<Chat>)
    ensures forall i :: 0 <= i < |dialogs| && Kept(dialogs[i]) ==> EntryOf(dialogs[i]) in Scanned(dialogs)
    ensures forall e :: e in Scanned(dialogs) ==> exists i :: 0 <= i < |dialogs| && Kept(dialogs[i]) && e == EntryOf(dialogs[i])
  {
    if dialogs != [] {
      var m := |dialogs| - 1;
      ScannedMembers(dialogs[..m]);
      assert forall i :: 0 <= i < m ==> dialogs[..m][i] == dialogs[i];
    }
  }

  /** Nothing but private chats, bots and basic groups: nothing found. */
  lemma {:induction false} ScannedNone(dialogs: seq<Chat>)
    requires forall i :: 0 <= i < |dialogs| ==> !Kept(dialogs[i])
    ensures Scanned(dialogs) == []
  {
    if dialogs != [] {
      ScannedNone(dialogs[..|dialogs| - 1]);
    }
  }
}
