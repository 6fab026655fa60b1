/** The endpoints over the shared stores, on one thread: every handler does to the stores what
    its function does to their values. */
module Engine {
  import opened Text
  import opened Context
  import opened ContextStores
  import opened Generators
  import opened Conversations
  import opened Endpoints
  import opened Stores

  /** The whole tick, seen from its loop: what was emitted and what is still to come. */
  function TickFrom(w: World, items: seq<Item>, i: nat, actions: seq<Emission>, view: View): Ticked
    requires i <= |items| && |actions| <= MAX_ACTIONS_PER_TICK
  {
    var rest := Tick(w, items[i..], view, MAX_ACTIONS_PER_TICK - |actions|);
    Ticked(rest.world, actions + rest.emissions)
  }

  lemma {:induction false} TickFromStart(w: World, items: seq<Item>, view: View)
    ensures TickFrom(w, items, 0, [], view) == Tick(w, items, view, MAX_ACTIONS_PER_TICK)
  {
    hide Tick;
    assert items[0..] == items;
    var rest := Tick(w, items, view, MAX_ACTIONS_PER_TICK);
    assert [] + rest.emissions == rest.emissions;
  }

  lemma {:induction false} TickFromStep(w: World, items: seq<Item>, i: nat, actions: seq<Emission>, view: View)
    requires i < |items| && |actions| < MAX_ACTIONS_PER_TICK
    ensures var step := TickItem(w, items[i], view);
      var after := if step.emission.Some? then actions + [step.emission.value] else actions;
      TickFrom(w, items, i, actions, view) == TickFrom(step.world, items, i + 1, after, view)
  {
    hide TickItem;
    var step := TickItem(w, items[i], view);
    assert items[i..][1..] == items[i + 1..];
    var rest := Tick(step.world, items[i + 1..], view, MAX_ACTIONS_PER_TICK - |actions| - |Emitted(step.emission)|);
    assert actions + (Emitted(step.emission) + rest.emissions) == actions + Emitted(step.emission) + rest.emissions;
    assert actions + [] == actions;
  }

  lemma {:induction false} TickFromEnd(w: World, items: seq<Item>, i: nat, actions: seq<Emission>, view: View)
    requires i <= |items| && |actions| <= MAX_ACTIONS_PER_TICK && (i == |items| || |actions| == MAX_ACTIONS_PER_TICK)
    ensures TickFrom(w, items, i, actions, view) == Ticked(w, actions)
  {
    hide TickItem;
    assert actions + [] == actions;
  }

  lemma {:induction false} MapFacts(m: map<string, Conv>, id: string, c: Conv, d: Conv)
    ensures m[id := c][id := d] == m[id := d]
    ensures id !in m ==> m[id := c] - {id} == m
  {}

  class Engine {
    const contexts: ContextStore<Payload>
    const conversations: ConversationStore
    const suppression: SuppressionStore

    ghost predicate Valid()
      reads conversations
    {
      conversations.Valid()
    }

    /** The value of the whole state. */
    ghost function State(): World
      reads contexts, conversations, suppression, conversations.conversations.Values
    {
      World(contexts.items, conversations.Values(), suppression.usedKeys, suppression.suppressedMerchants)
    }

    constructor ()
      ensures Valid() && State() == World(map[], map[], {}, {})
      ensures fresh(contexts) && fresh(conversations) && fresh(suppression)
    {
      contexts := new ContextStore();
      conversations := new ConversationStore();
      suppression := new SuppressionStore();
    }

    method PushContext(scope: Scope, id: string, version: int, payload: Payload) returns (result: PushResult)
      requires Valid()
      modifies contexts
      ensures Valid()
      ensures var push := Delivery(Key(scope, id), Versioned(version, payload));
        && State() == old(State()).(contexts := Pushed(old(contexts.items), push))
        && result == PushResultOf(old(contexts.items), push)
    {
      result := contexts.Push(scope, id, version, payload);
    }

    method ReadSituation(triggerId: string) returns (s: Option<Situation>)
      ensures s == SituationOf(contexts.items, triggerId)
    {
      var t := contexts.Get(TriggerScope, triggerId);
      if t == None { return None; }
      var trigger := t.value.trigger;
      var m := contexts.Get(MerchantScope, trigger.merchantId);
      if m == None { return None; }
      var merchant := m.value.merchant;
      var c := contexts.Get(CategoryScope, merchant.categorySlug);
      if c == None { return None; }
      var customer: Option<Customer> := None;
      if Given(trigger.customerId) {
        var p := contexts.Get(CustomerScope, trigger.customerId.value);
        if p.Some? { customer := Some(p.value.customer); }
      }
      return Some(Situation(merchant, trigger, customer, Some(c.value.category)));
    }

    /** Everything up to the claim of the conversation id. */
    method MakePlan(triggerId: string, view: View) returns (plan: Option<Plan>)
      ensures plan == PlanOf(State(), triggerId, view)
    {
      hide PlanFor, SituationOf;
      var situation := ReadSituation(triggerId);
      if situation == None { return None; }
      var s := situation.value;
      var used := suppression.IsUsed(s.merchant.id, s.trigger.suppressionKey);
      var optedOut := suppression.IsMerchantSuppressed(s.merchant.id);
      return PlanFor(s, used || optedOut, view);
    }

    /** Claims the plan's conversation id, unless it is taken. */
    method Claim(p: Plan) returns (ok: bool)
      requires Valid()
      modifies conversations
      ensures Valid() && ok == (p.convId !in old(conversations.conversations))
      ensures State() == if ok then old(State()).(convs := old(State()).convs[p.convId := NewConv(p)]) else old(State())
      ensures ok ==> p.convId in conversations.conversations && fresh(conversations.conversations[p.convId])
    {
      hide Conversation.Value;
      ok := conversations.TryReserve(p.convId, p.merchantId, p.customerId, p.triggerId);
    }

    /** Gives the claim up. */
    method RollBack(p: Plan)
      requires Valid()
      modifies conversations
      ensures Valid() && State() == old(State()).(convs := old(State()).convs - {p.convId})
    {
      hide Conversation.Value;
      conversations.Release(p.convId);
    }

    /** The commit of a plan whose conversation was claimed. */
    method Commit(p: Plan)
      requires Valid() && p.convId in conversations.conversations
      modifies conversations.conversations[p.convId], suppression
      ensures Valid()
      ensures var w := old(State());
        p.convId in w.convs && State() == w.(
          convs := w.convs[p.convId := w.convs[p.convId].(brief := Some(p.brief))],
          used := w.used + Mark(p))
    {
      hide Conversation.Value;
      conversations.AttachBrief(p.convId, p.brief);
      suppression.MarkUsed(p.merchantId, p.rawKey);
    }

    /** Claim, compose, then roll back or commit. */
    method ExecutePlan(p: Plan, speak: Speaker) returns (emission: Option<Emission>)
      requires Valid()
      modifies conversations, suppression
      ensures Valid() && Step(State(), emission) == Execute(old(State()), p, speak)
    {
      hide Blank, Mark, NewConv, Conversation.Value;
      ghost var convs := State().convs;
      var claimed := Claim(p);
      if !claimed { return None; }
      MapFacts(convs, p.convId, NewConv(p), NewConv(p).(brief := Some(p.brief)));
      var body := speak(p.brief);
      if Blank(body) {
        RollBack(p);
        return None;
      }
      Commit(p);
      return Some(Emission(p, body));
    }

    method ProcessItem(item: Item, view: View) returns (emission: Option<Emission>)
      requires Valid()
      modifies conversations, suppression
      ensures Valid() && Step(State(), emission) == TickItem(old(State()), item, view)
    {
      hide PlanOf, Execute;
      var plan := MakePlan(item.triggerId, view);
      if plan == None { return None; }
      emission := ExecutePlan(plan.value, item.speak);
    }

    method HandleTick(items: seq<Item>, view: View) returns (actions: seq<Emission>)
      requires Valid()
      modifies conversations, suppression
      ensures Valid() && Ticked(State(), actions) == Tick(old(State()), items, view, MAX_ACTIONS_PER_TICK)
      ensures |actions| <= MAX_ACTIONS_PER_TICK
    {
      hide Tick, TickItem;
      actions := [];
      var i := 0;
      TickFromStart(State(), items, view);
      while i < |items| && |actions| < MAX_ACTIONS_PER_TICK
        invariant Valid() && i <= |items| && |actions| <= MAX_ACTIONS_PER_TICK
        invariant TickFrom(State(), items, i, actions, view) == Tick(old(State()), items, view, MAX_ACTIONS_PER_TICK)
      {
        TickFromStep(State(), items, i, actions, view);
        var emission := ProcessItem(items[i], view);
        if emission.Some? { actions := actions + [emission.value]; }
        i := i + 1;
      }
      TickFromEnd(State(), items, i, actions, view);
    }

    /** The critical section of a reply, on the conversation that was looked up. */
    method Converse(convId: string, conv: Conversation, turn: Turn, speak: Speaker) returns (response: Response, optOut: bool)
      requires Valid() && convId in conversations.conversations && conversations.conversations[convId] == conv
      modifies conv
      ensures Valid()
      ensures convId in old(State()).convs && old(State()).convs[convId].merchantId == conv.merchantId
      ensures var w := old(State()); var r := React(w.convs[convId], turn, speak);
        State() == w.(convs := w.convs[convId := r.conv]) && response == r.response && optOut == r.optOut
    {
      hide React, Conversation.Value;
      response, optOut := conv.Process(turn, speak);
      assert conversations.Values() == old(conversations.Values())[convId := conv.Value()];
    }

    method HandleReply(convId: string, turn: Turn, speak: Speaker) returns (response: Response)
      requires Valid()
      modifies conversations, suppression, conversations.conversations.Values
      ensures Valid() && Replied(State(), response) == Reply(old(State()), convId, turn, speak)
    {
      hide React, Conversation.Value;
      var found := conversations.Get(convId);
      if found == None { return EndConversation(UnknownConversation); }
      var lock := conversations.TurnLock(convId);
      assert State() == old(State());
      var optOut;
      response, optOut := Converse(convId, found.value, turn, speak);
      KeepsMerchant(old(State()).convs[convId], turn, speak);
      if optOut { suppression.SuppressMerchant(found.value.merchantId); }
    }
  }

  lemma {:induction false} KeepsMerchant(c: Conv, turn: Turn, speak: Speaker)
    ensures React(c, turn, speak).conv.merchantId == c.merchantId
  {
    hide React;
    ReactFrame(c, turn, speak);
  }
}
