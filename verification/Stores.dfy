/** The conversation and suppression stores, as the objects the endpoints share. */
module Stores {
  import opened Text
  import opened Brief
  import opened Conversations

  /** A lock, and the conversation it serializes. */
  class Lock {
    ghost const id: string

    constructor (id: string)
      ensures this.id == id
    {
      this.id := id;
    }
  }

  class ConversationStore {
    var conversations: map<string, Conversation>
    var turnLocks: map<string, Lock>

    /** Every id has its own conversation and its own lock. */
    ghost predicate Valid()
      reads this
    {
      && (forall id | id in conversations :: conversations[id].id == id)
      && (forall id | id in turnLocks :: turnLocks[id].id == id)
    }

    ghost function Values(): map<string, Conv>
      reads this, conversations.Values
    {
      map id | id in conversations :: conversations[id].Value()
    }

    constructor ()
      ensures Valid() && conversations == map[] && turnLocks == map[]
    {
      conversations := map[];
      turnLocks := map[];
    }

    /** Claims an id: the winner finds a fresh conversation there, everyone else is refused. */
    method TryReserve(id: string, merchantId: string, customerId: Option<string>, triggerId: string) returns (ok: bool)
      requires Valid()
      modifies this`conversations
      ensures Valid() && ok == (id !in old(conversations))
      ensures if ok then id in conversations && fresh(conversations[id]) && conversations == old(conversations)[id := conversations[id]]
              else conversations == old(conversations)
      ensures Values() == if ok then old(Values())[id := Conv(merchantId, customerId, triggerId)] else old(Values())
    {
      if id in conversations { return false; }
      var c := new Conversation(id, merchantId, customerId, triggerId);
      conversations := conversations[id := c];
      return true;
    }

    method Release(id: string)
      requires Valid()
      modifies this`conversations
      ensures Valid() && conversations == old(conversations) - {id}
      ensures Values() == old(Values()) - {id}
    {
      conversations := conversations - {id};
    }

    method AttachBrief(id: string, brief: Brief)
      requires Valid()
      modifies if id in conversations then {conversations[id]} else {}
      ensures Valid() && conversations == old(conversations)
      ensures Values() == if id in conversations then old(Values())[id := old(conversations[id].Value()).(brief := Some(brief))]
                          else old(Values())
    {
      if id in conversations { conversations[id].AttachBrief(brief); }
    }

    method Get(id: string) returns (c: Option<Conversation>)
      ensures c == if id in conversations then Some(conversations[id]) else None
    {
      return if id in conversations then Some(conversations[id]) else None;
    }

    /** The same lock every time for the same id, and a different one for every other id. */
    method TurnLock(id: string) returns (lock: Lock)
      requires Valid()
      modifies this`turnLocks
      ensures Valid() && turnLocks == old(turnLocks)[id := lock]
      ensures if id in old(turnLocks) then lock == old(turnLocks)[id] else fresh(lock)
    {
      if id in turnLocks { return turnLocks[id]; }
      lock := new Lock(id);
      turnLocks := turnLocks[id := lock];
    }
  }

  class SuppressionStore {
    var usedKeys: set<(string, string)>
    var suppressedMerchants: set<string>

    constructor ()
      ensures usedKeys == {} && suppressedMerchants == {}
    {
      usedKeys := {};
      suppressedMerchants := {};
    }

    method IsUsed(merchantId: string, key: string) returns (used: bool)
      ensures used == ((merchantId, key) in usedKeys)
    {
      return (merchantId, key) in usedKeys;
    }

    method MarkUsed(merchantId: string, key: string)
      modifies this
      ensures usedKeys == old(usedKeys) + (if key != "" then {(merchantId, key)} else {})
      ensures suppressedMerchants == old(suppressedMerchants)
    {
      if key != "" { usedKeys := usedKeys + {(merchantId, key)}; }
    }

    method SuppressMerchant(merchantId: string)
      modifies this
      ensures usedKeys == old(usedKeys) && suppressedMerchants == old(suppressedMerchants) + {merchantId}
    {
      suppressedMerchants := suppressedMerchants + {merchantId};
    }

    method IsMerchantSuppressed(merchantId: string) returns (suppressed: bool)
      ensures suppressed == (merchantId in suppressedMerchants)
    {
      return merchantId in suppressedMerchants;
    }
  }
}
