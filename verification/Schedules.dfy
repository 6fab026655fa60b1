/** Particular schedules of the threads: one item after the other is what the serial functions
    say, and two ticks at once can emit two actions for one suppression key. */
module Schedules {
  import opened Text
  import opened Generators
  import opened Conversations
  import opened Endpoints
  import opened Interleavings
  import opened Ownership

  /** The stores' values, as the serial functions see them. */
  function Convs(s: State): map<string, Conv> {
    map id | id in s.index && s.index[id] < |s.heap| :: s.heap[s.index[id]]
  }

  function UsedKeys(log: seq<Entry>): set<(string, string)> { set e, k | e in log && k in Mark(e.plan) :: k }

  function Value(s: State, contexts: Contexts): World { World(contexts, Convs(s), UsedKeys(s.log), s.optOuts.Keys) }

  lemma {:induction false} KeyUsedIff(s: State, merchantId: string, key: string)
    ensures KeyUsed(s, merchantId, key) <==> (merchantId, key) in UsedKeys(s.log)
  {
    if KeyUsed(s, merchantId, key) {
      var e :| e in s.log && e.plan.merchantId == merchantId && e.plan.rawKey == key;
      assert (merchantId, key) in Mark(e.plan);
    }
  }

  lemma {:induction false} PlayOne(s: State, a: Move)
    ensures Play(s, [a]) == Next(s, a)
  {
    hide Next;
    assert [a][1..] == [];
  }

  lemma {:induction false} PlayTwo(s: State, a: Move, b: Move)
    ensures Play(s, [a, b]) == Next(Next(s, a), b)
  {
    hide Next;
    assert [a, b][1..] == [b];
    PlayOne(Next(s, a), b);
  }

  lemma {:induction false} PlayThen(s: State, a: seq<Move>, b: seq<Move>)
    ensures Play(s, a + b) == Play(Play(s, a), b)
    decreases |a|
  {
    hide Next;
    if a == [] {
      assert a + b == b;
    } else {
      assert (a + b)[1..] == a[1..] + b;
      PlayThen(Next(s, a[0]), a[1..], b);
    }
  }

  /** A thread that begins an item and is not interrupted. */
  function Uninterrupted(t: nat, situation: Situation, view: View, speak: Speaker): seq<Move> {
    [ReadKey(t, situation), Check(t, view)] + [Reserve(t)] + [Settle(t, speak), Commit(t)]
  }

  predicate Ready(s: State, t: nat) { t < |s.tickers| && s.tickers[t].phase.Idle? && s.tickers[t].emitted < MAX_ACTIONS_PER_TICK }

  /** The two reads and the decision. */
  lemma {:induction false} DecideAlone(s: State, t: nat, situation: Situation, view: View)
    requires Ready(s, t)
    ensures var plan := PlanFor(situation, Suppressed(situation, UsedKeys(s.log), s.optOuts.Keys), view);
      Play(s, [ReadKey(t, situation), Check(t, view)])
      == At(s, t, if plan == None then Idle else Decided(plan.value, s.clock, s.clock + 1)).(clock := s.clock + 2)
  {
    hide PlanFor, DoReserve, DoSettle, DoCommit, DoAnswer;
    KeyUsedIff(s, situation.merchant.id, situation.trigger.suppressionKey);
    PlayTwo(s, ReadKey(t, situation), Check(t, view));
    var a := Next(s, ReadKey(t, situation));
    assert a == At(s, t, KeyRead(situation, KeyUsed(s, situation.merchant.id, situation.trigger.suppressionKey), s.clock)).(clock := s.clock + 1);
    var b := Next(a, Check(t, view));
    assert b.tickers == At(s, t, b.tickers[t].phase).tickers;
  }

  predicate Deciding(s: State, t: nat) { t < |s.tickers| && s.tickers[t].phase.Decided? }

  /** The log has grown by these emissions of tick `t`, in this order. */
  predicate Appended(before: seq<Entry>, after: seq<Entry>, es: seq<Emission>, t: nat) {
    && |after| == |before| + |es| && before == after[..|before|]
    && forall i | |before| <= i < |after| ::
         after[i].tick == t && Emission(after[i].plan, after[i].body) == es[i - |before|]
  }

  lemma {:induction false} AppendedThen(a: seq<Entry>, b: seq<Entry>, c: seq<Entry>, d: seq<Emission>, e: seq<Emission>, t: nat)
    requires Appended(a, b, d, t) && Appended(b, c, e, t)
    ensures Appended(a, c, d + e, t)
  {
    assert c[..|a|] == c[..|b|][..|a|];
    forall i | |a| <= i < |c| ensures c[i].tick == t && Emission(c[i].plan, c[i].body) == (d + e)[i - |a|] {
      if i < |b| { assert c[..|b|][i] == b[i]; }
    }
  }

  /** The thread is done with its item, and did to the stores and the log what this step did. */
  predicate Took(s: State, v: State, contexts: Contexts, step: Step, t: nat) {
    && Value(v, contexts) == step.world
    && |v.tickers| == |s.tickers| && t < |v.tickers| && t < |s.tickers| && v.tickers[t].phase.Idle?
    && v.tickers[t].emitted == s.tickers[t].emitted + |Emitted(step.emission)|
    && Appended(s.log, v.log, Emitted(step.emission), t)
  }

  predicate Done(s: State, v: State, contexts: Contexts, p: Plan, speak: Speaker, t: nat) {
    Took(s, v, contexts, Execute(Value(s, contexts), p, speak), t)
  }

  lemma {:induction false} LastThree(s: State, t: nat, speak: Speaker)
    ensures Play(s, [Reserve(t)] + [Settle(t, speak), Commit(t)]) == Next(Next(Next(s, Reserve(t)), Settle(t, speak)), Commit(t))
  {
    hide Next;
    PlayThen(s, [Reserve(t)], [Settle(t, speak), Commit(t)]);
    PlayOne(s, Reserve(t));
    PlayTwo(Next(s, Reserve(t)), Settle(t, speak), Commit(t));
  }

  /** The id is taken: nothing happens. */
  lemma {:induction false} TakenAlone(s: State, t: nat, contexts: Contexts, speak: Speaker)
    requires Deciding(s, t) && Indexed(s) && s.tickers[t].phase.plan.convId in s.index
    ensures Done(s, Next(Next(Next(s, Reserve(t)), Settle(t, speak)), Commit(t)), contexts, s.tickers[t].phase.plan, speak, t)
  {
    hide Blank, DoReadKey, DoCheck, DoAnswer, Mark;
    var a := Next(s, Reserve(t));
    assert a.tickers[t].phase.Idle?;
    var b := Next(a, Settle(t, speak));
    assert b.tickers[t].phase.Idle?;
    assert s.tickers[t].phase.plan.convId in Convs(s);
  }

  lemma {:induction false} BlankShape(s: State, t: nat, speak: Speaker)
    requires Deciding(s, t) && s.tickers[t].phase.plan.convId !in s.index
    requires Blank(speak(s.tickers[t].phase.plan.brief))
    ensures var v := Next(Next(Next(s, Reserve(t)), Settle(t, speak)), Commit(t));
      && v.heap == s.heap + [NewConv(s.tickers[t].phase.plan)] && v.index == s.index && v.optOuts == s.optOuts && v.log == s.log
      && |v.tickers| == |s.tickers| && v.tickers[t] == Ticker(Idle, s.tickers[t].emitted)
  {
    hide Blank, DoReadKey, DoCheck, DoAnswer;
    var p := s.tickers[t].phase.plan;
    var a := Next(s, Reserve(t));
    assert a.tickers[t].phase.Reserved? && a.tickers[t].phase.plan == p;
    var b := Next(a, Settle(t, speak));
    assert b.tickers[t].phase.Idle? && b.index == s.index;
  }

  lemma {:induction false} OrphanedConvs(s: State, v: State, c: Conv)
    requires Indexed(s) && v.heap == s.heap + [c] && v.index == s.index
    ensures Convs(v) == Convs(s)
  {}

  /** Nothing can be said: the claim is rolled back, and only an orphan is left on the heap. */
  lemma {:induction false} BlankAlone(s: State, t: nat, contexts: Contexts, speak: Speaker)
    requires Deciding(s, t) && Indexed(s) && s.tickers[t].phase.plan.convId !in s.index
    requires Blank(speak(s.tickers[t].phase.plan.brief))
    ensures Done(s, Next(Next(Next(s, Reserve(t)), Settle(t, speak)), Commit(t)), contexts, s.tickers[t].phase.plan, speak, t)
  {
    hide Blank, Next, Mark, Convs, Indexed, UsedKeys, NewConv;
    var p := s.tickers[t].phase.plan;
    BlankShape(s, t, speak);
    OrphanedConvs(s, Next(Next(Next(s, Reserve(t)), Settle(t, speak)), Commit(t)), NewConv(p));
    ConvKnown(s, p.convId);
  }

  function Opened(p: Plan): Conv { NewConv(p).(brief := Some(p.brief)) }

  lemma {:induction false} SentShape(s: State, t: nat, speak: Speaker)
    requires Deciding(s, t) && s.tickers[t].phase.plan.convId !in s.index
    requires !Blank(speak(s.tickers[t].phase.plan.brief))
    ensures var p := s.tickers[t].phase; var v := Next(Next(Next(s, Reserve(t)), Settle(t, speak)), Commit(t));
      && v.heap == s.heap + [Opened(p.plan)] && v.index == s.index[p.plan.convId := |s.heap|] && v.optOuts == s.optOuts
      && |v.tickers| == |s.tickers| && v.tickers[t] == Ticker(Idle, s.tickers[t].emitted + 1)
      && v.log == s.log + [Entry(t, p.plan, speak(p.plan.brief), p.readAt, p.checkedAt, s.clock + 2)]
  {
    hide Blank, DoReadKey, DoCheck, DoAnswer;
    var p := s.tickers[t].phase.plan;
    var a := Next(s, Reserve(t));
    assert a.tickers[t].phase.Reserved? && a.tickers[t].phase.plan == p && a.index == s.index[p.convId := |s.heap|];
    var b := Next(a, Settle(t, speak));
    assert b.tickers[t].phase.Attached? && b.heap == s.heap + [Opened(p)];
  }

  lemma {:induction false} OpenedConvs(s: State, v: State, id: string, c: Conv)
    requires Indexed(s) && v.heap == s.heap + [c] && v.index == s.index[id := |s.heap|]
    ensures Convs(v) == Convs(s)[id := c]
  {}

  /** A body is said: claim, attach, commit. */
  lemma {:induction false} SentAlone(s: State, t: nat, contexts: Contexts, speak: Speaker)
    requires Deciding(s, t) && Indexed(s) && s.tickers[t].phase.plan.convId !in s.index
    requires !Blank(speak(s.tickers[t].phase.plan.brief))
    ensures Done(s, Next(Next(Next(s, Reserve(t)), Settle(t, speak)), Commit(t)), contexts, s.tickers[t].phase.plan, speak, t)
  {
    hide Blank, Next, Mark, Convs, Indexed, UsedKeys, NewConv;
    var p := s.tickers[t].phase.plan;
    SentShape(s, t, speak);
    var c := Next(Next(Next(s, Reserve(t)), Settle(t, speak)), Commit(t));
    OpenedConvs(s, c, p.convId, Opened(p));
    UsedAppended(s.log, c.log[|s.log|]);
    ConvKnown(s, p.convId);
  }

  lemma {:induction false} ConvKnown(s: State, id: string)
    requires Indexed(s)
    ensures id in Convs(s) <==> id in s.index
    ensures id in s.index ==> Convs(s)[id] == s.heap[s.index[id]]
  {}

  lemma {:induction false} UsedAppended(log: seq<Entry>, e: Entry)
    ensures UsedKeys(log + [e]) == UsedKeys(log) + Mark(e.plan)
  {
    hide Mark;
  }

  lemma {:induction false} ExecuteAlone(s: State, t: nat, contexts: Contexts, speak: Speaker)
    requires Deciding(s, t) && Indexed(s)
    ensures Done(s, Play(s, [Reserve(t)] + [Settle(t, speak), Commit(t)]), contexts, s.tickers[t].phase.plan, speak, t)
  {
    hide Blank, Next, Done, Play;
    LastThree(s, t, speak);
    if s.tickers[t].phase.plan.convId in s.index {
      TakenAlone(s, t, contexts, speak);
    } else if Blank(speak(s.tickers[t].phase.plan.brief)) {
      BlankAlone(s, t, contexts, speak);
    } else {
      SentAlone(s, t, contexts, speak);
    }
  }

  lemma {:induction false} IdleAlone(s: State, t: nat, speak: Speaker)
    requires t < |s.tickers| && s.tickers[t].phase.Idle?
    ensures Play(s, [Reserve(t)] + [Settle(t, speak), Commit(t)]) == s.(clock := s.clock + 3)
  {
    hide Blank, DoReadKey, DoCheck, DoAnswer;
    LastThree(s, t, speak);
  }

  /** An uninterrupted item does to the stores what the serial function says, and the action it
      appends is the one the serial function emits. */
  lemma {:induction false} UninterruptedIsSerial(s: State, t: nat, contexts: Contexts, item: Item, view: View)
    requires Ready(s, t) && Indexed(s) && SituationOf(contexts, item.triggerId).Some?
    ensures var v := Play(s, Uninterrupted(t, SituationOf(contexts, item.triggerId).value, view, item.speak));
      Took(s, v, contexts, TickItem(Value(s, contexts), item, view), t)
  {
    hide Next, PlanFor, SituationOf, Blank, Play, Mark, UsedKeys;
    var situation := SituationOf(contexts, item.triggerId).value;
    var first := [ReadKey(t, situation), Check(t, view)];
    var last := [Reserve(t)] + [Settle(t, item.speak), Commit(t)];
    assert Uninterrupted(t, situation, view, item.speak) == first + last;
    PlayThen(s, first, last);
    DecideAlone(s, t, situation, view);
    var a := Play(s, first);
    if a.tickers[t].phase.Idle? {
      IdleAlone(a, t, item.speak);
    } else {
      ExecuteAlone(a, t, contexts, item.speak);
    }
  }

  /** So does a reply that is not interrupted. */
  lemma {:induction false} ReplyIsSerial(s: State, contexts: Contexts, convId: string, turn: Turn, speak: Speaker)
    requires Indexed(s)
    ensures var v := Play(s, [LookUp(convId), Answer(|s.repliers|, turn, speak)]);
      Value(v, contexts) == Reply(Value(s, contexts), convId, turn, speak).world
  {
    hide React, DoReadKey, DoCheck, DoReserve, DoSettle, DoCommit, UsedKeys, Convs;
    PlayTwo(s, LookUp(convId), Answer(|s.repliers|, turn, speak));
    ConvKnown(s, convId);
    var v := Next(Next(s, LookUp(convId)), Answer(|s.repliers|, turn, speak));
    if convId in s.index {
      var c := React(s.heap[s.index[convId]], turn, speak);
      assert v.heap == s.heap[s.index[convId] := c.conv] && v.index == s.index;
      UpdatedConvs(s, v, convId, c.conv);
      ReactFrame(s.heap[s.index[convId]], turn, speak);
    } else {
      SameConvs(s, v);
    }
  }

  lemma {:induction false} SameConvs(s: State, v: State)
    requires v.heap == s.heap && v.index == s.index
    ensures Convs(v) == Convs(s)
  {}

  lemma {:induction false} UpdatedConvs(s: State, v: State, id: string, c: Conv)
    requires Indexed(s) && id in s.index && v.heap == s.heap[s.index[id] := c] && v.index == s.index
    ensures Convs(v) == Convs(s)[id := c]
  {}

  /** A tick thread that is not interrupted, from some item on. */
  function WholeTick(t: nat, items: seq<Item>, contexts: Contexts, view: View): seq<Move> {
    if items == [] then []
    else
      var situation := SituationOf(contexts, items[0].triggerId);
      (if situation == None then [] else Uninterrupted(t, situation.value, view, items[0].speak))
      + WholeTick(t, items[1..], contexts, view)
  }

  predicate Full(s: State, t: nat) { t < |s.tickers| && s.tickers[t] == Ticker(Idle, MAX_ACTIONS_PER_TICK) }

  /** At its cap a thread does nothing any more. */
  lemma {:induction false} FullStays(s: State, t: nat, moves: seq<Move>)
    requires Full(s, t)
    requires forall m | m in moves ::
      (m.ReadKey? || m.Check? || m.Reserve? || m.Settle? || m.Commit?) && m.t == t
    ensures Play(s, moves) == s.(clock := s.clock + |moves|)
    decreases |moves|
  {
    if moves != [] {
      assert moves[0] in moves;
      assert Next(s, moves[0]) == Tock(s) by { hide DoAnswer, PlanFor, Blank; }
      forall m | m in moves[1..] ensures m in moves {}
      FullStays(Tock(s), t, moves[1..]);
    }
  }

  lemma {:induction false} WholeTickMoves(t: nat, items: seq<Item>, contexts: Contexts, view: View)
    ensures forall m | m in WholeTick(t, items, contexts, view) ::
      (m.ReadKey? || m.Check? || m.Reserve? || m.Settle? || m.Commit?) && m.t == t
  {
    hide SituationOf;
    if items != [] { WholeTickMoves(t, items[1..], contexts, view); }
  }

  predicate TookAll(s: State, v: State, contexts: Contexts, ticked: Ticked, t: nat) {
    Value(v, contexts) == ticked.world && Appended(s.log, v.log, ticked.emissions, t)
  }

  lemma {:induction false} TookThen(s: State, a: State, v: State, contexts: Contexts, step: Step, rest: Ticked, t: nat)
    requires Took(s, a, contexts, step, t) && TookAll(a, v, contexts, rest, t)
    ensures TookAll(s, v, contexts, Ticked(rest.world, Emitted(step.emission) + rest.emissions), t)
  {
    hide Value, Appended;
    AppendedThen(s.log, a.log, v.log, Emitted(step.emission), rest.emissions, t);
  }

  lemma {:induction false} TookNothing(s: State, v: State, contexts: Contexts, t: nat)
    requires v == s.(clock := v.clock)
    ensures TookAll(s, v, contexts, Ticked(Value(s, contexts), []), t)
  {}

  /** A tick that runs on its own does what the serial tick does, cap included. */
  lemma {:induction false} TickIsSerial(s: State, t: nat, contexts: Contexts, items: seq<Item>, view: View)
    requires Ids(s) && t < |s.tickers| && s.tickers[t].phase.Idle? && s.tickers[t].emitted <= MAX_ACTIONS_PER_TICK
    ensures TookAll(s, Play(s, WholeTick(t, items, contexts, view)), contexts,
                    Tick(Value(s, contexts), items, view, MAX_ACTIONS_PER_TICK - s.tickers[t].emitted), t)
    decreases |items|
  {
    hide Ids, TookAll, Next, Uninterrupted, SituationOf, PlanFor, Blank, Execute, Value;
    var room := MAX_ACTIONS_PER_TICK - s.tickers[t].emitted;
    if items == [] {
      TookNothing(s, s, contexts, t);
    } else if room == 0 {
      WholeTickMoves(t, items, contexts, view);
      FullStays(s, t, WholeTick(t, items, contexts, view));
      TookNothing(s, Play(s, WholeTick(t, items, contexts, view)), contexts, t);
    } else {
      ItemThenTick(s, t, contexts, items, view);
    }
  }

  lemma {:induction false} ItemThenTick(s: State, t: nat, contexts: Contexts, items: seq<Item>, view: View)
    requires Ids(s) && Ready(s, t) && items != []
    ensures TookAll(s, Play(s, WholeTick(t, items, contexts, view)), contexts,
                    Tick(Value(s, contexts), items, view, MAX_ACTIONS_PER_TICK - s.tickers[t].emitted), t)
    decreases |items|, 1
  {
    hide TookAll, Next, Uninterrupted, SituationOf, PlanFor, Blank, Execute, Owners, EmittedOnce, Indexed;
    var situation := SituationOf(contexts, items[0].triggerId);
    var rest := WholeTick(t, items[1..], contexts, view);
    if situation == None {
      assert [] + rest == rest;
      TickIsSerial(s, t, contexts, items[1..], view);
      NothingFirst(Value(s, contexts), items, view, MAX_ACTIONS_PER_TICK - s.tickers[t].emitted);
    } else {
      var first := Uninterrupted(t, situation.value, view, items[0].speak);
      PlayThen(s, first, rest);
      UninterruptedIsSerial(s, t, contexts, items[0], view);
      var a := Play(s, first);
      RunKeepsIds(s, first);
      FirstOfTick(s, a, t, contexts, items, view);
    }
  }

  lemma {:induction false} NothingFirst(w: World, items: seq<Item>, view: View, room: nat)
    requires items != [] && room > 0 && SituationOf(w.contexts, items[0].triggerId) == None
    ensures Tick(w, items, view, room) == Tick(w, items[1..], view, room)
  {
    hide SituationOf, Execute;
    var t := Tick(w, items[1..], view, room);
    assert [] + t.emissions == t.emissions;
  }

  lemma {:induction false} FirstOfTick(s: State, a: State, t: nat, contexts: Contexts, items: seq<Item>, view: View)
    requires items != [] && Ready(s, t) && Ids(a) && Took(s, a, contexts, TickItem(Value(s, contexts), items[0], view), t)
    ensures TookAll(s, Play(a, WholeTick(t, items[1..], contexts, view)), contexts,
                    Tick(Value(s, contexts), items, view, MAX_ACTIONS_PER_TICK - s.tickers[t].emitted), t)
    decreases |items|, 0
  {
    hide TookAll, Next, TickItem, Ids, Value, Appended, Play, WholeTick;
    TickIsSerial(a, t, contexts, items[1..], view);
    var step := TickItem(Value(s, contexts), items[0], view);
    var left := MAX_ACTIONS_PER_TICK - a.tickers[t].emitted;
    TookThen(s, a, Play(a, WholeTick(t, items[1..], contexts, view)), contexts, step,
             Tick(Value(a, contexts), items[1..], view, left), t);
  }
}
