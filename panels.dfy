/** The inline keyboards of ui/panels.py: which buttons appear, in which
    rows, and what payload each carries. Texts, emoji and Markdown are
    reduced to a caption naming the panel and the figures it reports. */
module Panels {
  import opened Wrappers
  import opened Text
  import opened Chats
  import opened DataManager
  import opened States
  import opened Payloads
  import opened InfoService

  datatype Label =
    | BroadcastNow | Schedule | Drafts | GroupsMenu | AllLogs       // main panel
    | ManageSets | TestAll                                          // group management
    | AllGroups | TargetEntry(name: string, count: nat)             // broadcast target
    | SetEntry(name: string, count: nat) | NewSet                   // set management
    | ChannelEntry(checked: bool, title: string)                    // editor
    | SelectAll | ClearAll | SaveSelection(count: nat) | DeleteSet
    | ConfirmDelete
    | BackLabel

  /** A button and the pieces of its payload; `Data()` is the
      `callback_data` string the client sends back. */
  datatype Button = Button(face: Label, parts: seq<string>) {
    function Data(): string {
      Payload(parts)
    }
  }

  datatype Caption =
    | MainCaption(stats: Stats)
    | TargetCaption
    | GroupsCaption
    | ManagementCaption
    | EditorCaption(name: string, selected: nat, total: nat)
    | DeleteCaption(name: string)

  datatype Panel = Panel(caption: Caption, rows: seq<seq<Button>>)

  /** `create_back_button`. */
  function BackButton(parts: seq<string>): (b: Button)
    ensures b.face == BackLabel && b.parts == parts
  {
    Button(BackLabel, parts)
  }

  function BackTo(screen: string): Button {
    BackButton(["back", screen])
  }

  /** Every button of the panel survives the round trip through ':'. */
  predicate AllSplittable(p: Panel) {
    forall i, j :: 0 <= i < |p.rows| && 0 <= j < |p.rows[i]| ==> Splittable(p.rows[i][j].parts)
  }

  /** What the controller makes of a button's data is what its pieces
      say. */
  lemma ButtonDecodes(b: Button)
    requires Splittable(b.parts)
    ensures Decode(b.Data()) == DecodeParts(b.parts)
  {
    DecodeJoin(b.parts);
  }

  /** The footprint of the sets' channel lists, read for their lengths. */
  function ListsOf(sets: seq<BroadcastSet>): set<ChannelList> {
    set i | 0 <= i < |sets| :: sets[i].channels
  }

  // ---------------------------------------------------------------------
  // Main and group management panels

  /** `create_main_panel`: every button is a main-menu command. */
  function MainPanel(stats: Stats): (p: Panel)
    ensures p.caption == MainCaption(stats) && AllSplittable(p)
    ensures p.rows != [] && p.rows[0] != [] && DecodeParts(p.rows[0][0].parts) == MainMenu("broadcast")
    ensures forall i, j :: 0 <= i < |p.rows| && 0 <= j < |p.rows[i]| ==> DecodeParts(p.rows[i][j].parts).MainMenu?
  {
    Panel(MainCaption(stats),
      [[Button(BroadcastNow, ["main", "broadcast"])],
       [Button(Schedule, ["main", "schedule"]), Button(Drafts, ["main", "drafts"])],
       [Button(GroupsMenu, ["main", "groups"]), Button(AllLogs, ["main", "logs_all"])]])
  }

  /** `create_group_management_panel`: manage sets, test all, back to main.
      No button asks for a dialog scan. */
  function GroupManagementPanel(): (p: Panel)
    ensures AllSplittable(p)
    ensures |p.rows| == 3 && forall i :: 0 <= i < 3 ==> |p.rows[i]| == 1
    ensures DecodeParts(p.rows[0][0].parts) == Groups("manage_sets")
    ensures DecodeParts(p.rows[1][0].parts) == Groups("test_all")
    ensures p.rows[2][0].face == BackLabel && DecodeParts(p.rows[2][0].parts) == Back("main")
  {
    Panel(GroupsCaption,
      [[Button(ManageSets, ["groups", "manage_sets"])],
       [Button(TestAll, ["groups", "test_all"])],
       [BackTo("main")]])
  }

  // ---------------------------------------------------------------------
  // Broadcast target and set management panels

  /** `create_broadcast_target_panel`: "all groups" first, then one row per
      set in order, then the back button. */
  function TargetPanel(sets: seq<BroadcastSet>): (p: Panel)
    reads ListsOf(sets)
    ensures p.caption == TargetCaption
    ensures |p.rows| == |sets| + 2 && forall i :: 0 <= i < |p.rows| ==> |p.rows[i]| == 1
    ensures forall i :: 0 <= i < |sets| ==>
              p.rows[i + 1][0] == Button(TargetEntry(sets[i].name, |sets[i].channels.items|), TargetSetParts(sets[i].id))
    ensures p.rows[0][0] == Button(AllGroups, ["broadcast", "target", "all"])
    ensures p.rows[|sets| + 1][0] == BackTo("main")
  {
    var setRows := seq(|sets|, i requires 0 <= i < |sets| reads ListsOf(sets) =>
      [Button(TargetEntry(sets[i].name, |sets[i].channels.items|), TargetSetParts(sets[i].id))]);
    var rows := [[Button(AllGroups, ["broadcast", "target", "all"])]] + setRows + [[BackTo("main")]];
    assert forall i :: 0 <= i < |sets| ==> rows[i + 1] == setRows[i];
    Panel(TargetCaption, rows)
  }

  /** The target panel's buttons ask for all groups, for each set by its
      id, and for the main panel. */
  lemma TargetPanelPayloads(sets: seq<BroadcastSet>)
    ensures var p := TargetPanel(sets);
            AllSplittable(p)
            && DecodeParts(p.rows[0][0].parts) == Broadcast(AllTargets)
            && (forall i :: 0 <= i < |sets| ==> DecodeParts(p.rows[i + 1][0].parts) == Broadcast(SetTarget(sets[i].id)))
            && DecodeParts(p.rows[|sets| + 1][0].parts) == Back("main")
  {
    var p := TargetPanel(sets);
    forall i | 0 <= i < |sets|
      ensures Splittable(p.rows[i + 1][0].parts)
      ensures DecodeParts(p.rows[i + 1][0].parts) == Broadcast(SetTarget(sets[i].id))
    {
      DecodeTargetSet(sets[i].id);
    }
  }

  /** `create_broadcast_set_management_panel`: one row per set in order,
      then "new set", then the back button. */
  function ManagementPanel(sets: seq<BroadcastSet>): (p: Panel)
    reads ListsOf(sets)
    ensures p.caption == ManagementCaption
    ensures |p.rows| == |sets| + 2 && forall i :: 0 <= i < |p.rows| ==> |p.rows[i]| == 1
    ensures forall i :: 0 <= i < |sets| ==>
              p.rows[i][0] == Button(SetEntry(sets[i].name, |sets[i].channels.items|), SetParts("view", sets[i].id))
    ensures p.rows[|sets|][0] == Button(NewSet, SetParts("add", 0))
    ensures p.rows[|sets| + 1][0] == BackTo("groups")
  {
    var setRows := seq(|sets|, i requires 0 <= i < |sets| reads ListsOf(sets) =>
      [Button(SetEntry(sets[i].name, |sets[i].channels.items|), SetParts("view", sets[i].id))]);
    Panel(ManagementCaption, setRows + [[Button(NewSet, SetParts("add", 0))], [BackTo("groups")]])
  }

  /** The management panel's buttons open each set by its id, start a new
      set with `set:add:0`, and go back to group management. */
  lemma ManagementPanelPayloads(sets: seq<BroadcastSet>)
    ensures var p := ManagementPanel(sets);
            AllSplittable(p)
            && (forall i :: 0 <= i < |sets| ==> DecodeParts(p.rows[i][0].parts) == SetCmd("view", sets[i].id, None))
            && DecodeParts(p.rows[|sets|][0].parts) == SetCmd("add", 0, None)
            && DecodeParts(p.rows[|sets| + 1][0].parts) == Back("groups")
  {
    var p := ManagementPanel(sets);
    forall i | 0 <= i < |sets|
      ensures Splittable(p.rows[i][0].parts)
      ensures DecodeParts(p.rows[i][0].parts) == SetCmd("view", sets[i].id, None)
    {
      DecodeSet("view", sets[i].id);
    }
    DecodeSet("add", 0);
  }

  /** `create_delete_confirmation_panel`: confirm, or go back to the set. */
  function DeleteConfirmationPanel(setId: int, name: string): (p: Panel)
    ensures p.caption == DeleteCaption(name) && AllSplittable(p)
    ensures |p.rows| == 2 && |p.rows[0]| == 1 && |p.rows[1]| == 1
    ensures DecodeParts(p.rows[0][0].parts) == SetCmd("delete_execute", setId, None)
    ensures p.rows[1][0].face == BackLabel && DecodeParts(p.rows[1][0].parts) == SetCmd("view", setId, None)
  {
    DecodeSet("delete_execute", setId);
    DecodeSet("view", setId);
    Panel(DeleteCaption(name),
      [[Button(ConfirmDelete, SetParts("delete_execute", setId))],
       [BackButton(SetParts("view", setId))]])
  }

  // ---------------------------------------------------------------------
  // The set editor

  /** `title[:20]`. */
  function Take(s: string, n: nat): (r: string)
    ensures |r| <= n && r <= s
    ensures |s| <= n ==> r == s
  {
    if |s| <= n then s else s[..n]
  }

  /** Every channel id survives the editor's int() conversion. */
  predicate Coercible(all: seq<ChannelDetail>) {
    forall i :: 0 <= i < |all| ==> CoerceNumeric(all[i].id).Some?
  }

  function ChannelButton(setId: int, d: ChannelDetail, selected: seq<ChannelRef>): Button
    requires CoerceNumeric(d.id).Some?
  {
    var ch := CoerceNumeric(d.id).value;
    Button(ChannelEntry(ch in selected, Take(d.title, 20)), ToggleParts(setId, ch))
  }

  /** One button per channel, in order. */
  function ChannelButtons(setId: int, all: seq<ChannelDetail>, selected: seq<ChannelRef>): (bs: seq<Button>)
    requires Coercible(all)
    ensures |bs| == |all|
    ensures forall i :: 0 <= i < |all| ==> bs[i] == ChannelButton(setId, all[i], selected)
  {
    if all == [] then []
    else ChannelButtons(setId, all[..|all| - 1], selected) + [ChannelButton(setId, all[|all| - 1], selected)]
  }

  /** Buttons grouped into rows of two, the last row possibly of one. */
  function Pairs(bs: seq<Button>): (rows: seq<seq<Button>>)
    ensures |rows| == (|bs| + 1) / 2
  {
    if |bs| <= 1 then (if bs == [] then [] else [bs])
    else [bs[..2]] + Pairs(bs[2..])
  }

  function Flatten(rows: seq<seq<Button>>): seq<Button> {
    if rows == [] then [] else rows[0] + Flatten(rows[1..])
  }

  function EditorFooter(setId: int, selectedCount: nat): seq<seq<Button>> {
    [[Button(SelectAll, SetParts("edit_all", setId)), Button(ClearAll, SetParts("edit_none", setId))],
     [Button(SaveSelection(selectedCount), SetParts("save", setId))]]
    + (if setId != 0 then [[Button(DeleteSet, SetParts("delete_confirm", setId))]] else [])
    + [[BackTo("manage_sets")]]
  }

  /** `create_broadcast_set_editor_panel`; None where a channel id passes
      the digit check and int() then raises. */
  function EditorPanel(setId: int, name: string, all: seq<ChannelDetail>, selected: seq<ChannelRef>): (r: Option<Panel>)
    ensures r.Some? <==> Coercible(all)
    ensures r.Some? ==> r.value.caption == EditorCaption(name, |selected|, |all|)
  {
    if Coercible(all) then
      Some(Panel(EditorCaption(name, |selected|, |all|),
                 Pairs(ChannelButtons(setId, all, selected)) + EditorFooter(setId, |selected|)))
    else None
  }

  lemma {:induction false} PairsAppendTwo(bs: seq<Button>, a: Button, b: Button)
    requires |bs| % 2 == 0
    ensures Pairs(bs + [a, b]) == Pairs(bs) + [[a, b]]
  {
    if bs == [] {
      assert bs + [a, b] == [a, b];
      assert [a, b][..2] == [a, b] && [a, b][2..] == [];
    } else {
      assert (bs + [a, b])[..2] == bs[..2];
      assert (bs + [a, b])[2..] == bs[2..] + [a, b];
      PairsAppendTwo(bs[2..], a, b);
    }
  }

  lemma {:induction false} PairsAppendOne(bs: seq<Button>, a: Button)
    requires |bs| % 2 == 0
    ensures Pairs(bs + [a]) == Pairs(bs) + [[a]]
  {
    if bs == [] {
      assert bs + [a] == [a];
    } else {
      assert (bs + [a])[..2] == bs[..2];
      assert (bs + [a])[2..] == bs[2..] + [a];
      PairsAppendOne(bs[2..], a);
    }
  }

  /** The state of the editor's loop after the buttons `made`: full rows
      of two in `buttons`, a pending button in `row` after an odd count. */
  predicate Grouped(made: seq<Button>, buttons: seq<seq<Button>>, row: seq<Button>) {
    if |made| % 2 == 0 then row == [] && buttons == Pairs(made)
    else row == [made[|made| - 1]] && buttons == Pairs(made[..|made| - 1])
  }

  lemma GroupedStep(made: seq<Button>, buttons: seq<seq<Button>>, row: seq<Button>, button: Button)
    requires Grouped(made, buttons, row)
    ensures row == [] ==> Grouped(made + [button], buttons, [button])
    ensures row != [] ==> Grouped(made + [button], buttons + [row + [button]], [])
  {
    var k := |made|;
    if k % 2 == 0 {
      assert (made + [button])[..k] == made;
    } else {
      PairsAppendTwo(made[..k - 1], made[k - 1], button);
      assert made[..k - 1] + [made[k - 1], button] == made + [button];
      assert row + [button] == [made[k - 1], button];
    }
  }

  lemma GroupedDone(made: seq<Button>, buttons: seq<seq<Button>>, row: seq<Button>)
    requires Grouped(made, buttons, row)
    ensures (if row == [] then buttons else buttons + [row]) == Pairs(made)
  {
    var k := |made|;
    if k % 2 == 1 {
      PairsAppendOne(made[..k - 1], made[k - 1]);
      assert made[..k - 1] + [made[k - 1]] == made;
    }
  }

  /** The loop of the editor: channel buttons are collected into `row`
      and a full row of two is moved to `buttons`; a last row of one
      follows. None where int() raises on a channel id. */
  method ChannelRows(setId: int, all: seq<ChannelDetail>, selected: seq<ChannelRef>)
    returns (r: Option<seq<seq<Button>>>)
    ensures r.Some? <==> Coercible(all)
    ensures r.Some? ==> r.value == Pairs(ChannelButtons(setId, all, selected))
  {
    var buttons: seq<seq<Button>> := [];
    var row: seq<Button> := [];
    ghost var made: seq<Button> := [];
    for k := 0 to |all|
      invariant Coercible(all[..k])
      invariant made == ChannelButtons(setId, all[..k], selected)
      invariant Grouped(made, buttons, row)
    {
      var chId := CoerceNumeric(all[k].id);
      if chId.None? {
        CoercibleAll(all, k);
        return None;
      }
      ButtonsSnoc(setId, all, selected, k);
      var button := ChannelButton(setId, all[k], selected);
      GroupedStep(made, buttons, row, button);
      made := made + [button];
      if row == [] {
        row := [button];
      } else {
        buttons := buttons + [row + [button]];
        row := [];
      }
    }
    GroupedDone(made, buttons, row);
    if row != [] {
      buttons := buttons + [row];
    }
    assert all[..|all|] == all;
    r := Some(buttons);
  }

  /** One more coercible channel extends the buttons by its own. */
  lemma ButtonsSnoc(setId: int, all: seq<ChannelDetail>, selected: seq<ChannelRef>, k: nat)
    requires k < |all| && Coercible(all[..k]) && CoerceNumeric(all[k].id).Some?
    ensures Coercible(all[..k + 1])
    ensures ChannelButtons(setId, all[..k + 1], selected)
            == ChannelButtons(setId, all[..k], selected) + [ChannelButton(setId, all[k], selected)]
  {
    assert forall i :: 0 <= i < k ==> all[..k + 1][i] == all[..k][i];
    assert all[..k + 1][..k] == all[..k];
  }

  lemma CoercibleAll(all: seq<ChannelDetail>, k: nat)
    requires k < |all| && CoerceNumeric(all[k].id).None?
    ensures !Coercible(all)
  {
  }

  /** `create_broadcast_set_editor_panel`: the channel rows, then the
      fixed footer. */
  method CreateEditorPanel(setId: int, name: string, all: seq<ChannelDetail>, selected: seq<ChannelRef>)
    returns (r: Option<Panel>)
    ensures r == EditorPanel(setId, name, all, selected)
  {
    var rows := ChannelRows(setId, all, selected);
    if rows.None? {
      return None;
    }
    r := Some(Panel(EditorCaption(name, |selected|, |all|), rows.value + EditorFooter(setId, |selected|)));
  }

  /** Rows of two: the buttons in order, every row of two except a last
      row of one. */
  lemma {:induction false} PairsShape(bs: seq<Button>)
    ensures Flatten(Pairs(bs)) == bs
    ensures forall i :: 0 <= i < |Pairs(bs)| ==>
              |Pairs(bs)[i]| == 2 || (i == |Pairs(bs)| - 1 && |Pairs(bs)[i]| == 1)
  {
    if |bs| > 1 {
      PairsShape(bs[2..]);
      var rest := Pairs(bs[2..]);
      assert Pairs(bs) == [bs[..2]] + rest;
      assert ([bs[..2]] + rest)[1..] == rest;
      assert bs == bs[..2] + bs[2..];
    } else if |bs| == 1 {
      assert Flatten([bs]) == bs + Flatten([]);
    }
  }

  /** The editor's channel buttons: one per channel, in order, ticked
      exactly when the converted id is selected, each toggling its own
      channel in the set being edited. */
  lemma EditorChannels(setId: int, all: seq<ChannelDetail>, selected: seq<ChannelRef>)
    requires Coercible(all)
    ensures var bs := ChannelButtons(setId, all, selected);
            |bs| == |all|
            && forall i :: 0 <= i < |all| ==>
                 var ch := CoerceNumeric(all[i].id).value;
                 bs[i].face == ChannelEntry(ch in selected, Take(all[i].title, 20))
                 && (ch.IntId? ==> Splittable(bs[i].parts) && DecodeParts(bs[i].parts) == SetCmd("edit_toggle", setId, Some(ch.id)))
  {
    var bs := ChannelButtons(setId, all, selected);
    forall i | 0 <= i < |all| && CoerceNumeric(all[i].id).value.IntId?
      ensures Splittable(bs[i].parts)
      ensures DecodeParts(bs[i].parts) == SetCmd("edit_toggle", setId, Some(CoerceNumeric(all[i].id).value.id))
    {
      DecodeToggle(setId, CoerceNumeric(all[i].id).value.id);
    }
  }

  /** The rows under the channels: select-all and clear, save, a delete
      row for an existing set (id not 0), and the back button last. */
  lemma FooterPayloads(setId: int, count: nat)
    ensures var f := EditorFooter(setId, count);
            |f| == 3 + (if setId != 0 then 1 else 0)
            && |f[0]| == 2 && |f[1]| == 1 && |f[|f| - 1]| == 1
            && DecodeParts(f[0][0].parts) == SetCmd("edit_all", setId, None)
            && DecodeParts(f[0][1].parts) == SetCmd("edit_none", setId, None)
            && DecodeParts(f[1][0].parts) == SetCmd("save", setId, None)
            && (setId != 0 ==> |f[2]| == 1 && DecodeParts(f[2][0].parts) == SetCmd("delete_confirm", setId, None))
            && f[|f| - 1][0].face == BackLabel
            && DecodeParts(f[|f| - 1][0].parts) == Back("manage_sets")
  {
    DecodeSet("edit_all", setId);
    DecodeSet("edit_none", setId);
    DecodeSet("save", setId);
    DecodeSet("delete_confirm", setId);
  }

  /** The editor's layout: its caption reports the selected and total
      counts; the channel rows come first; then select-all/clear, save, a
      delete row when the set already exists (id not 0), and the back
      button last. */
  lemma EditorLayout(setId: int, name: string, all: seq<ChannelDetail>, selected: seq<ChannelRef>)
    requires Coercible(all)
    ensures var p := EditorPanel(setId, name, all, selected).value;
            var n := (|all| + 1) / 2;
            p.caption == EditorCaption(name, |selected|, |all|)
            && |p.rows| == n + 3 + (if setId != 0 then 1 else 0)
            && Flatten(p.rows[..n]) == ChannelButtons(setId, all, selected)
            && DecodeParts(p.rows[n][0].parts) == SetCmd("edit_all", setId, None)
            && DecodeParts(p.rows[n][1].parts) == SetCmd("edit_none", setId, None)
            && DecodeParts(p.rows[n + 1][0].parts) == SetCmd("save", setId, None)
            && (setId != 0 ==> DecodeParts(p.rows[n + 2][0].parts) == SetCmd("delete_confirm", setId, None))
            && p.rows[|p.rows| - 1][0].face == BackLabel
            && DecodeParts(p.rows[|p.rows| - 1][0].parts) == Back("manage_sets")
  {
    var bs := ChannelButtons(setId, all, selected);
    var f := EditorFooter(setId, |selected|);
    var n := (|all| + 1) / 2;
    PairsShape(bs);
    FooterPayloads(setId, |selected|);
    var p := EditorPanel(setId, name, all, selected).value;
    assert p.rows == Pairs(bs) + f;
    assert p.rows[..n] == Pairs(bs);
    assert p.rows[n] == f[0] && p.rows[n + 1] == f[1] && p.rows[|p.rows| - 1] == f[|f| - 1];
    assert setId != 0 ==> p.rows[n + 2] == f[2];
  }

  /** Rows made from channel buttons hold only channel labels. */
  lemma {:induction false} PairsLabels(bs: seq<Button>)
    requires forall k :: 0 <= k < |bs| ==> bs[k].face.ChannelEntry?
    ensures forall i, j :: 0 <= i < |Pairs(bs)| && 0 <= j < |Pairs(bs)[i]| ==> Pairs(bs)[i][j].face.ChannelEntry?
  {
    if |bs| > 1 {
      PairsLabels(bs[2..]);
      assert Pairs(bs) == [bs[..2]] + Pairs(bs[2..]);
    }
  }

  /** Only an existing set (id not 0) gets a delete button. */
  lemma EditorDeleteRow(setId: int, name: string, all: seq<ChannelDetail>, selected: seq<ChannelRef>)
    requires Coercible(all)
    ensures var p := EditorPanel(setId, name, all, selected).value;
            (exists i, j :: 0 <= i < |p.rows| && 0 <= j < |p.rows[i]| && p.rows[i][j].face == DeleteSet) <==> setId != 0
  {
    var bs := ChannelButtons(setId, all, selected);
    var p := EditorPanel(setId, name, all, selected).value;
    var n := |Pairs(bs)|;
    PairsLabels(bs);
    if setId != 0 {
      assert p.rows[n + 2][0].face == DeleteSet;
    } else {
      forall i, j | 0 <= i < |p.rows| && 0 <= j < |p.rows[i]|
        ensures p.rows[i][j].face != DeleteSet
      {
        if i < n {
          assert p.rows[i] == Pairs(bs)[i];
        }
      }
    }
  }

  /** The editor fails exactly when some channel's id is text made of two
      or more '-' followed by digits, such as "--5". */
  lemma EditorFails(setId: int, name: string, all: seq<ChannelDetail>, selected: seq<ChannelRef>)
    ensures EditorPanel(setId, name, all, selected).None?
            <==> exists i :: 0 <= i < |all| && all[i].id.StrId?
                   && var s := all[i].id.name;
                      |s| >= 2 && s[0] == '-' && s[1] == '-' && IsDigits(LStripChar(s, '-'))
  {
    forall i | 0 <= i < |all| && all[i].id.StrId? {
      CoerceNumericFails(all[i].id.name);
    }
  }
}
