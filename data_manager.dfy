/** The in-memory part of the bot's data store (data/data_manager.py): an
    append-only log and a table of broadcast sets. The JSON document is
    the pair of fields `logs` and `sets`; either key may be missing from a
    loaded document, which `Option` records. */
module DataManager {
  import opened Wrappers
  import opened Chats

  datatype LogStatus = Success | Failure | Info | PartialSuccess

  datatype LogEntry = LogEntry(time: int, action: string, status: LogStatus, message: string, user: string)

  /** A Python list of chat identifiers. It is an object: the store and a
      user's editing session can hold the very same list. */
  class ChannelList {
    var items: seq<ChannelRef>

    constructor (items: seq<ChannelRef>)
      ensures this.items == items
    {
      this.items := items;
    }

    /** `l.remove(c)` when `c` is in the list, else `l.append(c)`
        (handlers/callback_handler.py:153-154). */
    method Toggle(c: ChannelRef)
      modifies this
      ensures items == Toggled(old(items), c)
    {
      if c in items {
        items := RemoveFirst(items, c);
      } else {
        items := items + [c];
      }
    }
  }

  /** Position of the first occurrence of `c`. */
  function FirstIndex(s: seq<ChannelRef>, c: ChannelRef): (k: nat)
    requires c in s
    ensures k < |s| && s[k] == c && c !in s[..k]
  {
    if s[0] == c then 0
    else
      var k := FirstIndex(s[1..], c);
      assert s[..k + 1] == [s[0]] + s[1..][..k];
      k + 1
  }

  /** `list.remove(c)`: drops the first occurrence only. */
  function RemoveFirst(s: seq<ChannelRef>, c: ChannelRef): seq<ChannelRef>
    requires c in s
  {
    var k := FirstIndex(s, c);
    s[..k] + s[k + 1..]
  }

  function Toggled(s: seq<ChannelRef>, c: ChannelRef): seq<ChannelRef> {
    if c in s then RemoveFirst(s, c) else s + [c]
  }

  predicate NoDuplicates(s: seq<ChannelRef>) {
    forall i, j :: 0 <= i < j < |s| ==> s[i] != s[j]
  }

  /** In a list without duplicates a toggle flips membership of `c` and of
      nothing else, and keeps the list free of duplicates. */
  lemma ToggleFlips(s: seq<ChannelRef>, c: ChannelRef)
    requires NoDuplicates(s)
    ensures c in Toggled(s, c) <==> c !in s
    ensures forall d :: d != c ==> (d in Toggled(s, c) <==> d in s)
    ensures NoDuplicates(Toggled(s, c))
  {
    if c in s {
      RemoveKeepsOthers(s, c);
    } else {
      AppendFresh(s, c);
    }
  }

  lemma RemoveKeepsOthers(s: seq<ChannelRef>, c: ChannelRef)
    requires NoDuplicates(s) && c in s
    ensures c !in RemoveFirst(s, c)
    ensures forall d :: d != c ==> (d in RemoveFirst(s, c) <==> d in s)
    ensures NoDuplicates(RemoveFirst(s, c))
  {
    var k := FirstIndex(s, c);
    var r := RemoveFirst(s, c);
    assert forall i :: 0 <= i < k ==> r[i] == s[i];
    assert forall i :: k <= i < |r| ==> r[i] == s[i + 1];
    forall d | d != c && d in s ensures d in r {
      var i :| 0 <= i < |s| && s[i] == d;
      if i < k { assert r[i] == d; } else { assert r[i - 1] == d; }
    }
  }

  lemma AppendFresh(s: seq<ChannelRef>, c: ChannelRef)
    requires NoDuplicates(s) && c !in s
    ensures NoDuplicates(s + [c])
  {
  }

  /** Toggling an absent id twice gives the list back exactly. */
  lemma ToggleTwiceRestores(s: seq<ChannelRef>, c: ChannelRef)
    requires c !in s
    ensures Toggled(Toggled(s, c), c) == s
  {
    var t := s + [c];
    assert forall i :: 0 <= i < |s| ==> t[i] == s[i] && t[i] != c;
    var k := FirstIndex(t, c);
    assert k == |s|;
    assert t[..k] == s;
  }

  /** A broadcast set: its id, its name and the channel list it holds. */
  datatype BroadcastSet = BroadcastSet(id: int, name: string, channels: ChannelList)

  // ---------------------------------------------------------------------
  // The set table as a value

  /** Ids of a non-empty table: the largest one. */
  function MaxId(ss: seq<BroadcastSet>): (r: int)
    requires ss != []
    ensures forall i :: 0 <= i < |ss| ==> ss[i].id <= r
    ensures exists i :: 0 <= i < |ss| && ss[i].id == r
  {
    if |ss| == 1 then ss[0].id
    else
      var m := MaxId(ss[1..]);
      assert forall i :: 1 <= i < |ss| ==> ss[i] == ss[1..][i - 1];
      if ss[0].id >= m then ss[0].id else m
  }

  /** `_get_next_id`: 1 for an empty table, else the largest id plus 1. */
  function NextIdOf(ss: seq<BroadcastSet>): (r: int)
    ensures forall i :: 0 <= i < |ss| ==> ss[i].id < r
    ensures ss == [] ==> r == 1
    ensures ss != [] ==> exists i :: 0 <= i < |ss| && ss[i].id == r - 1
  {
    if ss == [] then 1 else MaxId(ss) + 1
  }

  /** Position of the first set with the given id. */
  function IndexOfId(ss: seq<BroadcastSet>, id: int): (r: Option<nat>)
    ensures r.Some? ==> r.value < |ss| && ss[r.value].id == id
                        && forall j :: 0 <= j < r.value ==> ss[j].id != id
    ensures r.None? ==> forall j :: 0 <= j < |ss| ==> ss[j].id != id
  {
    if ss == [] then None
    else if ss[0].id == id then Some(0)
    else
      match IndexOfId(ss[1..], id)
      case None => None
      case Some(k) => Some(k + 1)
  }

  /** `get_broadcast_set_by_id` on a table. */
  function FindIn(ss: seq<BroadcastSet>, id: int): Option<BroadcastSet> {
    match IndexOfId(ss, id)
    case Some(k) => Some(ss[k])
    case None => None
  }

  /** Saving with no id: one new set at the end, with a fresh id. */
  function Appended(ss: seq<BroadcastSet>, name: string, channels: ChannelList): seq<BroadcastSet> {
    ss + [BroadcastSet(NextIdOf(ss), name, channels)]
  }

  /** Saving with an id: the first set with that id gets the new name and
      channels; with no such set nothing changes. */
  function Updated(ss: seq<BroadcastSet>, id: int, name: string, channels: ChannelList): seq<BroadcastSet> {
    match IndexOfId(ss, id)
    case Some(k) => ss[k := BroadcastSet(id, name, channels)]
    case None => ss
  }

  /** `[s for s in ss if s.id != id]`. */
  function Without(ss: seq<BroadcastSet>, id: int): (r: seq<BroadcastSet>)
    ensures |r| <= |ss|
    ensures forall i :: 0 <= i < |r| ==> r[i] in ss && r[i].id != id
    ensures forall i :: 0 <= i < |ss| && ss[i].id != id ==> ss[i] in r
  {
    if ss == [] then []
    else if ss[0].id == id then Without(ss[1..], id)
    else [ss[0]] + Without(ss[1..], id)
  }

  predicate UniqueIds(ss: seq<BroadcastSet>) {
    forall i, j :: 0 <= i < j < |ss| ==> ss[i].id != ss[j].id
  }

  /** The new set comes last with an id no other set has; earlier sets are
      untouched and the ids stay unique. */
  lemma AppendedProperties(ss: seq<BroadcastSet>, name: string, channels: ChannelList)
    ensures var r := Appended(ss, name, channels);
            |r| == |ss| + 1 && r[..|ss|] == ss
            && r[|ss|].name == name && r[|ss|].channels == channels
            && forall i :: 0 <= i < |ss| ==> ss[i].id != r[|ss|].id
    ensures UniqueIds(ss) ==> UniqueIds(Appended(ss, name, channels))
  {
    var r := Appended(ss, name, channels);
    assert r[..|ss|] == ss;
  }

  /** An update keeps the length, the order and every id; only the first
      set with the id changes, and only in name and channels. */
  lemma UpdatedProperties(ss: seq<BroadcastSet>, id: int, name: string, channels: ChannelList)
    ensures var r := Updated(ss, id, name, channels);
            |r| == |ss| && (forall i :: 0 <= i < |ss| ==> r[i].id == ss[i].id)
    ensures (forall i :: 0 <= i < |ss| ==> ss[i].id != id) ==> Updated(ss, id, name, channels) == ss
    ensures forall k :: 0 <= k < |ss| && ss[k].id == id && (forall j :: 0 <= j < k ==> ss[j].id != id)
              ==> Updated(ss, id, name, channels) == ss[k := BroadcastSet(id, name, channels)]
    ensures UniqueIds(ss) ==> UniqueIds(Updated(ss, id, name, channels))
  {
  }

  /** Deleting keeps the other sets in their order: it distributes over
      concatenation, and removes nothing when the id is absent. */
  lemma {:induction false} WithoutSplits(a: seq<BroadcastSet>, b: seq<BroadcastSet>, id: int)
    ensures Without(a + b, id) == Without(a, id) + Without(b, id)
  {
    if a != [] {
      assert (a + b)[1..] == a[1..] + b;
      WithoutSplits(a[1..], b, id);
    } else {
      assert a + b == b;
    }
  }

  lemma {:induction false} WithoutAbsent(ss: seq<BroadcastSet>, id: int)
    requires forall i :: 0 <= i < |ss| ==> ss[i].id != id
    ensures Without(ss, id) == ss
  {
    if ss != [] {
      WithoutAbsent(ss[1..], id);
      assert ss == [ss[0]] + ss[1..];
    }
  }

  lemma {:induction false} WithoutUnique(ss: seq<BroadcastSet>, id: int)
    requires UniqueIds(ss)
    ensures UniqueIds(Without(ss, id))
  {
    if ss != [] {
      WithoutUnique(ss[1..], id);
      var rest := Without(ss[1..], id);
      if ss[0].id != id {
        forall j | 0 <= j < |rest| ensures rest[j].id != ss[0].id {
          assert rest[j] in ss[1..];
        }
      }
    }
  }

  // ---------------------------------------------------------------------
  // The store object

  class Store {
    var logs: Option<seq<LogEntry>>
    var sets: Option<seq<BroadcastSet>>

    /** The default document used when the file cannot be read. */
    constructor ()
      ensures logs == Some([]) && sets == Some([])
    {
      logs := Some([]);
      sets := Some([]);
    }

    /** A document as loaded; either key may be missing. */
    constructor Loaded(logs: Option<seq<LogEntry>>, sets: Option<seq<BroadcastSet>>)
      ensures this.logs == logs && this.sets == sets
    {
      this.logs := logs;
      this.sets := sets;
    }

    /** `get_logs`. */
    function GetLogs(): (r: seq<LogEntry>)
      reads this
      ensures logs.Some? ==> r == logs.value
      ensures logs.None? ==> r == []
    {
      logs.GetOr([])
    }

    /** `get_broadcast_sets`. */
    function GetSets(): (r: seq<BroadcastSet>)
      reads this
      ensures sets.Some? ==> r == sets.value
      ensures sets.None? ==> r == []
    {
      sets.GetOr([])
    }

    /** `_get_next_id('broadcast_sets')`: larger than every stored id. */
    function NextId(): (r: int)
      reads this
      ensures forall i :: 0 <= i < |GetSets()| ==> GetSets()[i].id < r
      ensures GetSets() == [] ==> r == 1
    {
      NextIdOf(GetSets())
    }

    /** `get_broadcast_set_by_id`: the first set with that id. */
    function FindSet(id: int): (r: Option<BroadcastSet>)
      reads this
      ensures r.Some? ==> r.value.id == id && exists k :: 0 <= k < |GetSets()| && GetSets()[k] == r.value
                                               && forall j :: 0 <= j < k ==> GetSets()[j].id != id
      ensures r.None? <==> forall j :: 0 <= j < |GetSets()| ==> GetSets()[j].id != id
    {
      FindIn(GetSets(), id)
    }

    /** `add_log`: one entry at the end; with the key missing the entry
        goes to a throw-away list and the document is unchanged. */
    method AddLog(time: int, action: string, status: LogStatus, message: string, user: string)
      modifies this
      ensures sets == old(sets)
      ensures logs == if old(logs).Some?
                      then Some(old(logs).value + [LogEntry(time, action, status, message, user)])
                      else old(logs)
    {
      if logs.Some? {
        logs := Some(logs.value + [LogEntry(time, action, status, message, user)]);
      }
    }

    /** `save_broadcast_set`: with no id a new set is appended, with an id
        the first set carrying it is rewritten by a search loop. With the
        key missing both work on a throw-away list. */
    method SaveSet(name: string, channels: ChannelList, setId: Option<int>)
      modifies this
      ensures logs == old(logs)
      ensures old(sets).None? ==> sets == old(sets)
      ensures old(sets).Some? && setId.None? ==> sets == Some(Appended(old(sets).value, name, channels))
      ensures old(sets).Some? && setId.Some? ==> sets == Some(Updated(old(sets).value, setId.value, name, channels))
    {
      if sets.None? {
        return;
      }
      var ss := sets.value;
      if setId.None? {
        sets := Some(ss + [BroadcastSet(NextIdOf(ss), name, channels)]);
      } else {
        var id := setId.value;
        var i := 0;
        while i < |ss|
          invariant 0 <= i <= |ss|
          invariant forall j :: 0 <= j < i ==> ss[j].id != id
          invariant sets == old(sets)
        {
          if ss[i].id == id {
            sets := Some(ss[i := BroadcastSet(id, name, channels)]);
            return;
          }
          i := i + 1;
        }
      }
    }

    /** `delete_broadcast_set`: the table becomes the sets with other ids;
        with the key missing it becomes an empty table. */
    method DeleteSet(id: int)
      modifies this
      ensures logs == old(logs)
      ensures sets == Some(Without(old(GetSets()), id))
    {
      sets := Some(Without(GetSets(), id));
    }
  }
}
