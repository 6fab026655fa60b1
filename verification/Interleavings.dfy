/** Any number of ticks and replies on threads of their own, one shared access at a time.

    What a thread does to its own variables is part of the step in which it next touches the
    shared stores. A move that does not fit the state changes nothing, so every sequence of
    moves is a run. */
module Interleavings {
  import opened Text
  import opened Brief
  import opened Generators
  import opened Conversations
  import opened Endpoints

  /** Where a tick thread stands with its current item. */
  datatype Phase =
    | Idle
    | KeyRead(situation: Situation, keyUsed: bool, readAt: nat)
    | Decided(plan: Plan, readAt: nat, checkedAt: nat)
    | Reserved(plan: Plan, readAt: nat, checkedAt: nat, obj: nat)
    | Attached(plan: Plan, readAt: nat, checkedAt: nat, obj: nat, body: string)

  /** A tick thread and how many actions its list holds. */
  datatype Ticker = Ticker(phase: Phase, emitted: nat)

  /** An emitted action: which tick emitted it, when its suppression key and its merchant's
      opt-out were read, and when its key was marked. */
  datatype Entry = Entry(tick: nat, plan: Plan, body: string, readAt: nat, checkedAt: nat, markedAt: nat)

  /** Conversations live on the heap; the store's index maps ids to them. A conversation whose
      reservation was released stays on the heap for a reply that already holds it. */
  datatype State = State(
    heap: seq<Conv>,
    index: map<string, nat>,
    log: seq<Entry>,
    optOuts: map<string, nat>,
    tickers: seq<Ticker>,
    repliers: seq<Option<nat>>,
    clock: nat)

  datatype Move =
    | Start
    | ReadKey(t: nat, situation: Situation)    // whatever the context reads of the item returned
    | Check(t: nat, view: View)
    | Reserve(t: nat)
    | Settle(t: nat, speak: Speaker)           // compose, then release or attach
    | Commit(t: nat)                           // mark the key and append the action
    | LookUp(convId: string)
    | Answer(r: nat, turn: Turn, speak: Speaker)

  const INITIAL := State([], map[], [], map[], [], [], 0)

  predicate KeyUsed(s: State, merchantId: string, key: string) {
    key != "" && exists e | e in s.log :: e.plan.merchantId == merchantId && e.plan.rawKey == key
  }

  function At(s: State, t: nat, phase: Phase): State
    requires t < |s.tickers|
  {
    s.(tickers := s.tickers[t := s.tickers[t].(phase := phase)])
  }

  function DoReadKey(s: State, t: nat, situation: Situation): State
    requires t < |s.tickers|
  {
    if s.tickers[t].phase.Idle? && s.tickers[t].emitted < MAX_ACTIONS_PER_TICK then
      At(s, t, KeyRead(situation, KeyUsed(s, situation.merchant.id, situation.trigger.suppressionKey), s.clock))
    else s
  }

  function DoCheck(s: State, t: nat, view: View): State
    requires t < |s.tickers|
  {
    match s.tickers[t].phase
    case KeyRead(situation, keyUsed, readAt) =>
      var plan := PlanFor(situation, keyUsed || situation.merchant.id in s.optOuts, view);
      At(s, t, if plan == None then Idle else Decided(plan.value, readAt, s.clock))
    case _ => s
  }

  function DoReserve(s: State, t: nat): State
    requires t < |s.tickers|
  {
    match s.tickers[t].phase
    case Decided(plan, readAt, checkedAt) =>
      if plan.convId in s.index then At(s, t, Idle)
      else
        At(s, t, Reserved(plan, readAt, checkedAt, |s.heap|)).(
          heap := s.heap + [NewConv(plan)],
          index := s.index[plan.convId := |s.heap|])
    case _ => s
  }

  function WithBrief(s: State, convId: string, brief: Brief): seq<Conv> {
    if convId in s.index && s.index[convId] < |s.heap| then
      s.heap[s.index[convId] := s.heap[s.index[convId]].(brief := Some(brief))]
    else s.heap
  }

  function DoSettle(s: State, t: nat, speak: Speaker): State
    requires t < |s.tickers|
  {
    match s.tickers[t].phase
    case Reserved(plan, readAt, checkedAt, obj) =>
      var body := speak(plan.brief);
      if Blank(body) then At(s, t, Idle).(index := s.index - {plan.convId})
      else At(s, t, Attached(plan, readAt, checkedAt, obj, body)).(heap := WithBrief(s, plan.convId, plan.brief))
    case _ => s
  }

  function DoCommit(s: State, t: nat): State
    requires t < |s.tickers|
  {
    match s.tickers[t].phase
    case Attached(plan, readAt, checkedAt, _, body) =>
      s.(log := s.log + [Entry(t, plan, body, readAt, checkedAt, s.clock)],
         tickers := s.tickers[t := Ticker(Idle, s.tickers[t].emitted + 1)])
    case _ => s
  }

  function DoAnswer(s: State, r: nat, turn: Turn, speak: Speaker): State
    requires r < |s.repliers|
  {
    var held := s.repliers[r];
    if held == None || held.value >= |s.heap| then s
    else
      var c := s.heap[held.value];
      var reaction := React(c, turn, speak);
      s.(heap := s.heap[held.value := reaction.conv],
         optOuts := if reaction.optOut && c.merchantId !in s.optOuts then s.optOuts[c.merchantId := s.clock] else s.optOuts,
         repliers := s.repliers[r := None])
  }

  function Effect(s: State, move: Move): State {
    match move
    case Start => s.(tickers := s.tickers + [Ticker(Idle, 0)])
    case ReadKey(t, situation) => if t < |s.tickers| then DoReadKey(s, t, situation) else s
    case Check(t, view) => if t < |s.tickers| then DoCheck(s, t, view) else s
    case Reserve(t) => if t < |s.tickers| then DoReserve(s, t) else s
    case Settle(t, speak) => if t < |s.tickers| then DoSettle(s, t, speak) else s
    case Commit(t) => if t < |s.tickers| then DoCommit(s, t) else s
    case LookUp(convId) => if convId in s.index then s.(repliers := s.repliers + [Some(s.index[convId])]) else s
    case Answer(r, turn, speak) => if r < |s.repliers| then DoAnswer(s, r, turn, speak) else s
  }

  function Tock(s: State): State { s.(clock := s.clock + 1) }

  function Next(s: State, move: Move): State { Tock(Effect(s, move)) }

  function Play(s: State, moves: seq<Move>): State
    decreases |moves|
  {
    if moves == [] then s else Play(Next(s, moves[0]), moves[1..])
  }
}
