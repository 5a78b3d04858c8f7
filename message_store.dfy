/**
 * The global message queue (lib/message-store.ts): messages wait in a list,
 * the first one is shown, and each added message is scheduled for removal
 * after a delay that grows with the queue length. The timer itself is not
 * modelled; `AddMessage` returns the delay it would be scheduled with.
 */
module MessageStore {
  import opened Seqs

  /** `AUTOHIDE_INTERVAL`, in milliseconds. */
  const AutohideInterval: nat := 3000

  /** The `setTimeout` delay for a queue of the given length after the append. */
  function RemovalDelay(queueLength: nat): (ms: nat)
    ensures queueLength >= 1 ==> ms >= AutohideInterval
    ensures ms % AutohideInterval == 0 && ms / AutohideInterval == queueLength
  {
    AutohideInterval * queueLength
  }

  /** Appending and then removing a payload leaves no copy of it, and the other messages as before. */
  lemma {:induction false} AddThenRemove(messages: seq<string>, payload: string)
    ensures RemoveAll(messages + [payload], payload) == RemoveAll(messages, payload)
    ensures payload !in RemoveAll(messages + [payload], payload)
  {
    var added := messages + [payload];
    if messages != [] {
      AddThenRemove(messages[1..], payload);
      assert added[0] == messages[0];
      assert added[1..] == messages[1..] + [payload];
    } else {
      assert added == [payload] && added[1..] == [];
    }
  }

  /** Removal keeps the remaining messages in their order and removes nothing else. */
  lemma RemoveKeepsOthers(messages: seq<string>, payload: string)
    ensures IsSubsequence(RemoveAll(messages, payload), messages)
    ensures forall m :: m != payload ==> multiset(RemoveAll(messages, payload))[m] == multiset(messages)[m]
  {
    RemoveAllIsSubsequence(messages, payload);
  }

  class GlobalMessageStore {
    var messages: seq<string>

    /** The store starts with an empty queue. */
    constructor ()
      ensures messages == [] && CurrentMessage().None?
    {
      messages := [];
    }

    /** `currentMessage`: the first queued message, `undefined` when the queue is empty. */
    function CurrentMessage(): (m: Option<string>)
      reads this
      ensures m.None? <==> messages == []
      ensures m.Some? ==> m.value == messages[0]
    {
      if messages == [] then None else Some(messages[0])
    }

    /** `addedMessage`: the payload goes to the end of the queue. */
    method AddedMessage(payload: string)
      modifies this
      ensures messages == old(messages) + [payload]
    {
      messages := messages + [payload];
    }

    /** `removeMessage`: every message equal to the payload is dropped. */
    method RemoveMessage(payload: string)
      modifies this
      ensures messages == RemoveAll(old(messages), payload)
    {
      messages := RemoveAll(messages, payload);
    }

    /**
     * `addMessage`: appends the payload and returns the delay after which its
     * removal is scheduled, read from the queue after the append.
     */
    method AddMessage(payload: string) returns (delay: nat)
      modifies this
      ensures messages == old(messages) + [payload]
      ensures delay == RemovalDelay(|messages|)
    {
      AddedMessage(payload);
      delay := RemovalDelay(|messages|);
    }
  }

  /**
   * A message added to an empty queue is shown at once and is gone when its
   * scheduled removal runs, after one interval.
   */
  method AddToEmptyAndExpire(store: GlobalMessageStore, payload: string) returns (shown: Option<string>, delay: nat)
    requires store.messages == []
    modifies store
    ensures shown == Some(payload) && delay == AutohideInterval
    ensures store.messages == []
  {
    delay := store.AddMessage(payload);
    shown := store.CurrentMessage();
    store.RemoveMessage(payload);
  }
}
