/** Per-user conversation state (handlers/states.py and the dictionaries
    the two handlers keep in their shared `user_states`). Each record the
    handlers write has a fixed set of keys, so the record is a tagged
    union: one variant per UserState value, carrying the keys written with
    it. */
module States {
  import opened DataManager

  /** `target_type` (and `target_id`) of a broadcast about to be sent;
      NoTarget is the record written for a payload that names neither. */
  datatype TargetType = AllTargets | SetTarget(id: int) | NoTarget

  datatype Session =
    | Idle
    | AwaitingBroadcastMessage(target: TargetType)
    | AwaitingSetName(setId: int, messageId: int, selected: ChannelList)
    | SelectingGroupsForSet(setId: int, setName: string, messageId: int, selected: ChannelList)

  /** The `user_states` dictionary, shared by both handlers. */
  class Sessions {
    var states: map<int, Session>

    constructor ()
      ensures states == map[]
    {
      states := map[];
    }

    /** `user_states.get(user_id, {'state': UserState.IDLE})`. */
    function Get(userId: int): (s: Session)
      reads this
      ensures userId in states ==> s == states[userId]
      ensures userId !in states ==> s == Idle
    {
      if userId in states then states[userId] else Idle
    }
  }
}
