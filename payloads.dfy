/** Callback payloads: the `action:sub:id...` strings the panels put on
    buttons (ui/panels.py) and the way the callback controller takes them
    apart (handlers/callback_handler.py:31-46, 74-91, 119-133, 152). The
    controller splits on ':' and indexes the pieces; a missing piece is an
    IndexError and a bad number a ValueError, both caught by the
    controller's handler before anything has changed. */
module Payloads {
  import opened Wrappers
  import opened Text
  import opened Chats
  import opened States

  /** What a payload asks the controller to do. */
  datatype Command =
    | Raises                          // IndexError or ValueError while dispatching
    | Back(screen: string)
    | MainMenu(command: string)
    | Broadcast(target: TargetType)
    | Groups(command: string)
    | SetCmd(command: string, setId: int, channel: Option<int>)  // channel: int(parts[3]), None where it raises
    | ScanPage(page: int)
    | ScanOther(command: string)
    | Unknown(action: string)

  const Actions: set<string> := {"back", "main", "broadcast", "groups", "set", "scan"}

  function Payload(parts: seq<string>): string {
    Join(parts, ':')
  }

  /** The dispatch of handle_callback and of the flows it calls, up to the
      point where each flow first reads or writes state. */
  function DecodeParts(parts: seq<string>): (c: Command)
    requires |parts| >= 1
    ensures c.Unknown? <==> parts[0] !in Actions
    ensures c.Unknown? ==> c.action == parts[0]
    ensures |parts| < 2 && parts[0] in Actions ==> c.Raises?
  {
    var action := parts[0];
    if action !in Actions then Unknown(action)
    else if |parts| < 2 then Raises
    else if action == "back" then Back(parts[1])
    else if action == "main" then MainMenu(parts[1])
    else if action == "groups" then Groups(parts[1])
    else if action == "broadcast" then
      if parts[1] == "target" then
        if |parts| < 3 then Raises
        else if parts[2] == "all" then Broadcast(AllTargets)
        else Broadcast(NoTarget)
      else if parts[1] == "target_set" then
        if |parts| < 3 then Raises
        else match PyInt(parts[2])
             case None => Raises
             case Some(n) => Broadcast(SetTarget(n))
      else Broadcast(NoTarget)
    else if action == "set" then
      var setId := if |parts| > 2 then PyInt(parts[2]) else Some(0);
      match setId
      case None => Raises
      case Some(n) => SetCmd(parts[1], n, if |parts| > 3 then PyInt(parts[3]) else None)
    else
      if parts[1] != "page" then ScanOther(parts[1])
      else if |parts| < 3 then Raises
      else match PyInt(parts[2])
           case None => Raises
           case Some(n) => ScanPage(n)
  }

  /** An action outside the six the controller knows is ignored. */
  function Decode(data: string): (c: Command)
    ensures c.Unknown? <==> Split(data, ':')[0] !in Actions
  {
    DecodeParts(Split(data, ':'))
  }

  /** A payload built from ':'-free pieces decodes as those pieces. */
  lemma DecodeJoin(parts: seq<string>)
    requires |parts| >= 1
    requires forall i :: 0 <= i < |parts| ==> ':' !in parts[i]
    ensures Decode(Payload(parts)) == DecodeParts(parts)
  {
    SplitJoin(parts, ':');
  }

  // ---------------------------------------------------------------------
  // The payloads the panels build, as their pieces

  function TargetSetParts(id: int): seq<string> {
    ["broadcast", "target_set", IntToString(id)]
  }

  function SetParts(command: string, id: int): seq<string> {
    ["set", command, IntToString(id)]
  }

  function ToggleParts(setId: int, channel: ChannelRef): seq<string> {
    ["set", "edit_toggle", IntToString(setId), Str(channel)]
  }

  /** Pieces that survive the round trip through ':'. */
  predicate Splittable(parts: seq<string>) {
    |parts| >= 1 && forall i :: 0 <= i < |parts| ==> ':' !in parts[i]
  }

  lemma DecodeTargetSet(id: int)
    ensures Splittable(TargetSetParts(id))
    ensures DecodeParts(TargetSetParts(id)) == Broadcast(SetTarget(id))
  {
    IntToStringHasNo(id, ':');
    IntRoundTrip(id);
  }

  lemma DecodeSet(command: string, id: int)
    requires ':' !in command
    ensures Splittable(SetParts(command, id))
    ensures DecodeParts(SetParts(command, id)) == SetCmd(command, id, None)
  {
    IntToStringHasNo(id, ':');
    IntRoundTrip(id);
  }

  /** A set command without an id piece works on set id 0. */
  lemma DecodeSetWithoutId(command: string)
    requires ':' !in command
    ensures Decode(Payload(["set", command])) == SetCmd(command, 0, None)
  {
    DecodeJoin(["set", command]);
  }

  /** A toggle button for a numeric channel asks to toggle that number in
      the set the editor was opened for. */
  lemma DecodeToggle(setId: int, channel: int)
    ensures Splittable(ToggleParts(setId, IntId(channel)))
    ensures DecodeParts(ToggleParts(setId, IntId(channel))) == SetCmd("edit_toggle", setId, Some(channel))
  {
    ToggleSplittable(setId, channel);
    IntRoundTrip(setId);
    IntRoundTrip(channel);
  }

  lemma ToggleSplittable(setId: int, channel: int)
    ensures Splittable(ToggleParts(setId, IntId(channel)))
  {
    IntToStringHasNo(setId, ':');
    IntToStringHasNo(channel, ':');
  }

  /** A toggle button for a channel known only by a non-numeric name
      carries a fourth piece int() rejects. */
  lemma DecodeToggleName(setId: int, name: string)
    requires ':' !in name && PyInt(name).None?
    ensures Decode(Payload(ToggleParts(setId, StrId(name)))) == SetCmd("edit_toggle", setId, None)
  {
    IntToStringHasNo(setId, ':');
    DecodeJoin(ToggleParts(setId, StrId(name)));
    IntRoundTrip(setId);
  }
}
