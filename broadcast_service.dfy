/** Sending one message to many chats, one after another
    (services/broadcast_service.py). Copying a message is done by the
    messaging client; here its outcome is an oracle `copy`, asked with the
    target's position, the chat id and whether this is the first attempt
    or the retry. */
module BroadcastService {
  import opened Wrappers
  import opened Chats

  datatype CopyOutcome =
    | Copied
    | FloodWait          // the client asks to wait before sending again
    | BlockedOrInvalid   // UserIsBlocked or PeerIdInvalid
    | OtherError

  datatype Attempt = First | Retry

  /** One call of `message.copy(chat_id)`. */
  datatype CopyCall = CopyCall(index: nat, chat: ChannelRef, attempt: Attempt)

  type CopyOracle = (nat, ChannelRef, Attempt) -> CopyOutcome

  /** What happened for one target: counted as a success or not, and the
      copy calls made. */
  datatype Delivery = Delivery(ok: bool, calls: seq<CopyCall>)

  /** The body of the loop for target `k`: coerce the id, copy, and after a
      flood wait copy once more. A failed coercion is an ordinary
      exception: a failure with no copy at all. */
  function Deliver(k: nat, target: ChannelRef, copy: CopyOracle): (d: Delivery)
    ensures |d.calls| <= 2
    ensures forall i :: 0 <= i < |d.calls| ==> d.calls[i].index == k
    ensures d.ok ==> |d.calls| >= 1 && copy(k, d.calls[|d.calls| - 1].chat, d.calls[|d.calls| - 1].attempt) == Copied
    ensures |d.calls| == 2 <==> CoerceNegative(target).Some? && copy(k, CoerceNegative(target).value, First) == FloodWait
  {
    match CoerceNegative(target)
    case None => Delivery(false, [])
    case Some(chat) =>
      var first := CopyCall(k, chat, First);
      match copy(k, chat, First)
      case Copied => Delivery(true, [first])
      case FloodWait => Delivery(copy(k, chat, Retry) == Copied, [first, CopyCall(k, chat, Retry)])
      case BlockedOrInvalid => Delivery(false, [first])
      case OtherError => Delivery(false, [first])
  }

  /** Successes among the first `n` targets. */
  function SuccessCount(targets: seq<ChannelRef>, copy: CopyOracle, n: nat): (r: nat)
    requires n <= |targets|
    ensures r <= n
  {
    if n == 0 then 0
    else SuccessCount(targets, copy, n - 1) + (if Deliver(n - 1, targets[n - 1], copy).ok then 1 else 0)
  }

  /** The copy calls made for the first `n` targets, in order. */
  function Calls(targets: seq<ChannelRef>, copy: CopyOracle, n: nat): seq<CopyCall>
    requires n <= |targets|
  {
    if n == 0 then []
    else Calls(targets, copy, n - 1) + Deliver(n - 1, targets[n - 1], copy).calls
  }

  /** `broadcast_to_targets`: returns the success and failure counts and,
      for the record, the copy calls made. */
  method BroadcastToTargets(targets: seq<ChannelRef>, copy: CopyOracle)
    returns (success: nat, failed: nat, calls: seq<CopyCall>)
    ensures success == SuccessCount(targets, copy, |targets|)
    ensures success + failed == |targets|
    ensures calls == Calls(targets, copy, |targets|)
  {
    success, failed, calls := 0, 0, [];
    for k := 0 to |targets|
      invariant success == SuccessCount(targets, copy, k)
      invariant success + failed == k
      invariant calls == Calls(targets, copy, k)
    {
      var target := targets[k];
      var coerced := CoerceNegative(target);
      if coerced.None? {
        failed := failed + 1;
      } else {
        var chat := coerced.value;
        calls := calls + [CopyCall(k, chat, First)];
        var outcome := copy(k, chat, First);
        if outcome == Copied {
          success := success + 1;
        } else if outcome == FloodWait {
          calls := calls + [CopyCall(k, chat, Retry)];
          if copy(k, chat, Retry) == Copied {
            success := success + 1;
          } else {
            failed := failed + 1;
          }
        } else {
          failed := failed + 1;
        }
      }
    }
  }

  /** No targets, no sends: (0, 0). */
  lemma EmptyBroadcast(copy: CopyOracle)
    ensures SuccessCount([], copy, 0) == 0 && Calls([], copy, 0) == []
  {
  }

  /** Targets are tried in list order: the indices of the calls never go
      down, and each lies below the number of targets handled. */
  lemma {:induction false} CallsInOrder(targets: seq<ChannelRef>, copy: CopyOracle, n: nat)
    requires n <= |targets|
    ensures forall i :: 0 <= i < |Calls(targets, copy, n)| ==> Calls(targets, copy, n)[i].index < n
    ensures forall i, j :: 0 <= i < j < |Calls(targets, copy, n)| ==>
              Calls(targets, copy, n)[i].index <= Calls(targets, copy, n)[j].index
  {
    if n > 0 {
      CallsInOrder(targets, copy, n - 1);
      var prev := Calls(targets, copy, n - 1);
      var d := Deliver(n - 1, targets[n - 1], copy);
      var cs := Calls(targets, copy, n);
      assert cs == prev + d.calls;
      forall i | 0 <= i < |cs|
        ensures cs[i].index < n
        ensures |prev| <= i ==> cs[i].index == n - 1
      {
        if i < |prev| {
          assert cs[i] == prev[i];
          assert prev[i].index < n - 1;
        } else {
          assert cs[i] == d.calls[i - |prev|];
        }
      }
    }
  }

  /** Each target is copied at most twice, and a second copy is the retry
      that follows a flood wait. There is never a third attempt. */
  lemma RetryOnlyAfterFloodWait(k: nat, target: ChannelRef, copy: CopyOracle)
    ensures var d := Deliver(k, target, copy);
            |d.calls| <= 2
            && (|d.calls| >= 1 ==> d.calls[0].attempt == First)
            && (|d.calls| == 2 ==> d.calls[1].attempt == Retry && d.calls[1].chat == d.calls[0].chat
                                   && copy(k, d.calls[0].chat, First) == FloodWait)
  {
  }

  /** The three outcomes of one target: a first copy that succeeds is a
      success; a flood wait is a success exactly when the retry succeeds;
      a blocked or invalid peer, any other error and an id that int()
      rejects are failures. */
  lemma TargetOutcome(k: nat, target: ChannelRef, copy: CopyOracle)
    ensures CoerceNegative(target).None? ==> !Deliver(k, target, copy).ok && Deliver(k, target, copy).calls == []
    ensures CoerceNegative(target).Some? ==>
              var chat := CoerceNegative(target).value;
              (Deliver(k, target, copy).ok
               <==> (copy(k, chat, First) == Copied
                     || (copy(k, chat, First) == FloodWait && copy(k, chat, Retry) == Copied)))
  {
  }

  /** Every one of the first `n` targets received its copy. */
  predicate AllArrived(targets: seq<ChannelRef>, copy: CopyOracle, n: nat)
    requires n <= |targets|
  {
    forall k :: 0 <= k < n ==> Deliver(k, targets[k], copy).ok
  }

  /** None of the first `n` targets received its copy. */
  predicate NoneArrived(targets: seq<ChannelRef>, copy: CopyOracle, n: nat)
    requires n <= |targets|
  {
    forall k :: 0 <= k < n ==> !Deliver(k, targets[k], copy).ok
  }

  /** Every target succeeded exactly when the failure count is 0. */
  lemma {:induction false} AllDelivered(targets: seq<ChannelRef>, copy: CopyOracle, n: nat)
    requires n <= |targets|
    ensures SuccessCount(targets, copy, n) == n <==> AllArrived(targets, copy, n)
  {
    if n > 0 {
      AllDelivered(targets, copy, n - 1);
    }
  }

  /** No target succeeded exactly when the success count is 0. */
  lemma {:induction false} NoneDelivered(targets: seq<ChannelRef>, copy: CopyOracle, n: nat)
    requires n <= |targets|
    ensures SuccessCount(targets, copy, n) == 0 <==> NoneArrived(targets, copy, n)
  {
    if n > 0 {
      NoneDelivered(targets, copy, n - 1);
    }
  }

  /** Three targets where one peer is blocked and the others accept the
      copy: (2, 1). */
  lemma OneBlockedOfThree(targets: seq<ChannelRef>, copy: CopyOracle, b: nat)
    requires |targets| == 3 && b < 3
    requires forall k :: 0 <= k < 3 ==> targets[k].IntId?
    requires forall k :: 0 <= k < 3 ==> copy(k, targets[k], First) == if k == b then BlockedOrInvalid else Copied
    ensures SuccessCount(targets, copy, 3) == 2
  {
    assert forall k :: 0 <= k < 3 ==> (Deliver(k, targets[k], copy).ok <==> k != b);
    assert SuccessCount(targets, copy, 1) == (if b == 0 then 0 else 1);
    assert SuccessCount(targets, copy, 2) == (if b == 2 then 2 else 1);
  }
}
