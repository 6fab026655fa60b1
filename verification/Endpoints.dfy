/** What the three endpoints do to the engine's state, as functions on values. */
module Endpoints {
  import opened Text
  import opened Brief
  import opened Context
  import opened ContextStores
  import opened Generators
  import opened Compiler
  import opened Conversations

  /** A pushed payload, read through each of the four typed envelopes. */
  datatype Payload = Payload(trigger: Trigger, merchant: Merchant, category: Category, customer: Customer)

  type Contexts = Items<Payload>

  datatype World = World(
    contexts: Contexts,
    convs: map<string, Conv>,
    used: set<(string, string)>,
    optedOut: set<string>)

  const MAX_ACTIONS_PER_TICK := 20
  const MAX_TRIGGERS_PER_TICK := 200

  /** How a tick sees things: its evaluation time, and how facts are put into words. */
  datatype View = View(now: Option<Timestamp>, render: Situation -> seq<string>)

  /** A trigger id of the request, with the speaker of the moment it is processed. */
  datatype Item = Item(triggerId: string, speak: Speaker)

  /** A decision to send, and everything that follows from it before any text is composed. */
  datatype Plan = Plan(
    convId: string,
    merchantId: string,
    customerId: Option<string>,
    triggerId: string,
    rawKey: string,
    brief: Brief,
    decision: Decision)

  /** An emitted action; what the response reports of it is read off the plan. */
  datatype Emission = Emission(plan: Plan, body: string)

  function ConvId(merchantId: string, triggerId: string): string { "conv_" + merchantId + "_" + triggerId }

  /** The trigger with the contexts it refers to; nothing if it, its merchant or the merchant's
      category was never pushed. */
  function SituationOf(contexts: Contexts, triggerId: string): Option<Situation> {
    var t := Lookup(contexts, Key(TriggerScope, triggerId));
    if t == None then None
    else
      var trigger := t.value.trigger;
      var m := Lookup(contexts, Key(MerchantScope, trigger.merchantId));
      if m == None then None
      else
        var merchant := m.value.merchant;
        var c := Lookup(contexts, Key(CategoryScope, merchant.categorySlug));
        if c == None then None
        else
          var p := if Given(trigger.customerId) then Lookup(contexts, Key(CustomerScope, trigger.customerId.value)) else None;
          var customer := if p.Some? then Some(p.value.customer) else None;
          Some(Situation(merchant, trigger, customer, Some(c.value.category)))
  }

  function BuildBrief(decision: Decision, merchant: Merchant, category: Category, customer: Option<Customer>): Brief {
    Brief(category.slug, merchant.name, merchant.ownerFirstName, merchant.languages, decision.facts, decision.cta,
          decision.sendAs,
          if customer.Some? then customer.value.name else None,
          if customer.Some? then customer.value.languagePref else None,
          category.vocabTaboo)
  }

  /** The plan for a situation, if the decision is to send. */
  function PlanFor(s: Situation, suppressed: bool, view: View): Option<Plan> {
    var decision := Decide(s, suppressed, view.now, view.render(s));
    if !decision.send || s.category == None then None
    else
      Some(Plan(ConvId(s.merchant.id, s.trigger.id), s.merchant.id,
                if s.customer.Some? then Some(s.customer.value.id) else None,
                s.trigger.id, s.trigger.suppressionKey,
                BuildBrief(decision, s.merchant, s.category.value, s.customer), decision))
  }

  predicate Suppressed(s: Situation, used: set<(string, string)>, optedOut: set<string>) {
    (s.merchant.id, s.trigger.suppressionKey) in used || s.merchant.id in optedOut
  }

  function PlanOf(w: World, triggerId: string, view: View): Option<Plan> {
    var s := SituationOf(w.contexts, triggerId);
    if s == None then None else PlanFor(s.value, Suppressed(s.value, w.used, w.optedOut), view)
  }

  function NewConv(plan: Plan): Conv { Conv(plan.merchantId, plan.customerId, plan.triggerId) }

  /** An empty key is never recorded. */
  function Mark(plan: Plan): set<(string, string)> { if plan.rawKey != "" then {(plan.merchantId, plan.rawKey)} else {} }

  datatype Step = Step(world: World, emission: Option<Emission>)

  /** What becomes of a plan: nothing if its conversation exists or nothing can be said. */
  function Execute(w: World, p: Plan, speak: Speaker): Step {
    var body := speak(p.brief);
    if p.convId in w.convs || Blank(body) then Step(w, None)
    else
      Step(w.(convs := w.convs[p.convId := NewConv(p).(brief := Some(p.brief))], used := w.used + Mark(p)),
           Some(Emission(p, body)))
  }

  function TickItem(w: World, item: Item, view: View): Step {
    var plan := PlanOf(w, item.triggerId, view);
    if plan == None then Step(w, None) else Execute(w, plan.value, item.speak)
  }

  datatype Ticked = Ticked(world: World, emissions: seq<Emission>)

  function Emitted(e: Option<Emission>): seq<Emission> { if e.Some? then [e.value] else [] }

  /** A tick with room for so many actions. */
  function Tick(w: World, items: seq<Item>, view: View, room: nat): Ticked
    decreases |items|
  {
    if items == [] || room == 0 then Ticked(w, [])
    else
      var step := TickItem(w, items[0], view);
      var rest := Tick(step.world, items[1..], view, room - |Emitted(step.emission)|);
      Ticked(rest.world, Emitted(step.emission) + rest.emissions)
  }

  datatype Replied = Replied(world: World, response: Response)

  function Reply(w: World, convId: string, turn: Turn, speak: Speaker): Replied {
    if convId !in w.convs then Replied(w, EndConversation(UnknownConversation))
    else
      var r := React(w.convs[convId], turn, speak);
      Replied(w.(convs := w.convs[convId := r.conv],
                 optedOut := if r.optOut then w.optedOut + {r.conv.merchantId} else w.optedOut),
              r.response)
  }

  /** A reply changes its own conversation only, and nothing but opt-outs besides. */
  lemma {:induction false} ReplyIsLocal(w: World, convId: string, turn: Turn, speak: Speaker, other: string)
    requires other in w.convs && other != convId
    ensures var v := Reply(w, convId, turn, speak).world;
      && v.contexts == w.contexts && v.used == w.used && w.optedOut <= v.optedOut
      && v.convs.Keys == w.convs.Keys && v.convs[other] == w.convs[other]
  {
    hide React;
  }
}
