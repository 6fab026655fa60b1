/** Repeating a tick: the capped ticks emit the uncapped list in consecutive chunks. */
module Draining {
  import opened Text
  import opened Endpoints

  /** `v` is `w` after some more processing with the same contexts. */
  predicate Grown(w: World, v: World) {
    w.contexts == v.contexts && w.convs.Keys <= v.convs.Keys && w.used <= v.used && w.optedOut <= v.optedOut
  }

  /** A plan that survives a suppression is the plan that was there before it. */
  lemma {:induction false} LaterPlan(w: World, v: World, triggerId: string, view: View)
    requires Grown(w, v)
    ensures PlanOf(v, triggerId, view).Some? ==> PlanOf(v, triggerId, view) == PlanOf(w, triggerId, view)
  {
    hide Compiler.Best, Compiler.IsStale;
  }

  /** An item that leads to nothing leads to nothing later. */
  lemma {:induction false} SettledStays(w: World, v: World, item: Item, view: View)
    requires Grown(w, v) && TickItem(w, item, view).emission == None
    ensures TickItem(v, item, view) == Step(v, None)
  {
    hide PlanOf, Blank;
    LaterPlan(w, v, item.triggerId, view);
  }

  lemma {:induction false} StepGrows(w: World, item: Item, view: View)
    ensures Grown(w, TickItem(w, item, view).world)
  {
    hide PlanOf, Blank;
  }

  /** An item that has been processed leads to nothing later. */
  lemma {:induction false} ProcessedSettles(w: World, v: World, item: Item, view: View)
    requires Grown(TickItem(w, item, view).world, v)
    ensures TickItem(v, item, view) == Step(v, None)
  {
    hide PlanOf, Blank;
    StepGrows(w, item, view);
    if TickItem(w, item, view).emission == None {
      SettledStays(w, v, item, view);
    } else {
      LaterPlan(w, v, item.triggerId, view);
    }
  }

  lemma {:induction false} TickGrows(w: World, items: seq<Item>, view: View, room: nat)
    ensures Grown(w, Tick(w, items, view, room).world)
    ensures |Tick(w, items, view, room).emissions| <= room
    ensures |Tick(w, items, view, room).emissions| <= |items|
    decreases |items|
  {
    hide TickItem;
    if items != [] && room > 0 {
      StepGrows(w, items[0], view);
      var step := TickItem(w, items[0], view);
      TickGrows(step.world, items[1..], view, room - |Emitted(step.emission)|);
    }
  }

  function Then(first: Ticked, second: Ticked): Ticked { Ticked(second.world, first.emissions + second.emissions) }

  lemma {:induction false} ThenAssoc(e: seq<Emission>, a: Ticked, b: Ticked)
    ensures Then(Ticked(a.world, e + a.emissions), b) == Ticked(b.world, e + Then(a, b).emissions)
  {}

  /** Two ticks one after the other do what one tick with the room of both would have done. */
  lemma {:induction false} Resume(w: World, items: seq<Item>, view: View, room: nat, more: nat)
    ensures var first := Tick(w, items, view, room);
      Tick(w, items, view, room + more) == Then(first, Tick(first.world, items, view, more))
    decreases |items|
  {
    hide TickItem;
    if items != [] && room > 0 {
      var step := TickItem(w, items[0], view);
      var left := room - |Emitted(step.emission)|;
      var inner := Tick(step.world, items[1..], view, left);
      Resume(step.world, items[1..], view, left, more);
      TickGrows(step.world, items[1..], view, left);
      ProcessedSettles(w, inner.world, items[0], view);
      SettledHead(inner.world, items, view, more);
      ThenAssoc(Emitted(step.emission), inner, Tick(inner.world, items[1..], view, more));
    } else {
      TickNothing(w, items, view, room, more);
    }
  }

  lemma {:induction false} TickNothing(w: World, items: seq<Item>, view: View, room: nat, more: nat)
    requires items == [] || room == 0
    ensures var first := Tick(w, items, view, room);
      Tick(w, items, view, room + more) == Then(first, Tick(first.world, items, view, more))
  {
    hide TickItem;
    var t := Tick(w, items, view, more);
    assert [] + t.emissions == t.emissions;
  }

  lemma {:induction false} SettledHead(w: World, items: seq<Item>, view: View, room: nat)
    requires items != [] && TickItem(w, items[0], view) == Step(w, None)
    ensures Tick(w, items, view, room) == Tick(w, items[1..], view, room)
  {
    hide TickItem;
    var rest := Tick(w, items[1..], view, room);
    assert [] + rest.emissions == rest.emissions;
  }

  /** A tick that does not use up its room would do nothing with more. */
  lemma {:induction false} RoomLeft(w: World, items: seq<Item>, view: View, room: nat, more: nat)
    requires |Tick(w, items, view, room).emissions| < room <= more
    ensures Tick(w, items, view, more) == Tick(w, items, view, room)
    decreases |items|
  {
    hide TickItem;
    if items != [] {
      var step := TickItem(w, items[0], view);
      var n := |Emitted(step.emission)|;
      RoomLeft(step.world, items[1..], view, room - n, more - n);
    }
  }

  /** The tick without a cap. */
  function Uncapped(w: World, items: seq<Item>, view: View): Ticked { Tick(w, items, view, |items| + 1) }

  function Min(a: nat, b: nat): nat { if a <= b then a else b }

  /** A tick with less room emits a beginning of the uncapped list, as much as there is room for. */
  lemma {:induction false} CutOfAll(w: World, items: seq<Item>, view: View, room: nat)
    ensures var all := Uncapped(w, items, view).emissions;
      Tick(w, items, view, room).emissions == all[..Min(room, |all|)]
  {
    var all := Uncapped(w, items, view).emissions;
    var cut := Tick(w, items, view, room).emissions;
    TickGrows(w, items, view, room);
    TickGrows(w, items, view, |items| + 1);
    if |cut| < room {
      RoomLeftBoth(w, items, view, room);
    } else if room <= |items| {
      Resume(w, items, view, room, |items| + 1 - room);
    }
  }

  lemma {:induction false} RoomLeftBoth(w: World, items: seq<Item>, view: View, room: nat)
    requires |Tick(w, items, view, room).emissions| < room
    ensures Tick(w, items, view, room) == Uncapped(w, items, view)
  {
    TickGrows(w, items, view, |items| + 1);
    if room <= |items| + 1 {
      RoomLeft(w, items, view, room, |items| + 1);
    } else {
      RoomLeft(w, items, view, |items| + 1, room);
    }
  }

  /** The world after `k` capped ticks of the same request. */
  function After(w: World, items: seq<Item>, view: View, k: nat): World {
    if k == 0 then w else Tick(After(w, items, view, k - 1), items, view, MAX_ACTIONS_PER_TICK).world
  }

  /** What the request emits the next time, after `k` capped ticks. */
  function Chunk(w: World, items: seq<Item>, view: View, k: nat): seq<Emission> {
    Tick(After(w, items, view, k), items, view, MAX_ACTIONS_PER_TICK).emissions
  }

  lemma {:induction false} AfterIsTick(w: World, items: seq<Item>, view: View, k: nat)
    ensures After(w, items, view, k) == Tick(w, items, view, k * MAX_ACTIONS_PER_TICK).world
  {
    hide TickItem;
    if k > 0 {
      AfterIsTick(w, items, view, k - 1);
      Resume(w, items, view, (k - 1) * MAX_ACTIONS_PER_TICK, MAX_ACTIONS_PER_TICK);
    }
  }

  /** The same request, repeated with contexts, time and speakers that do not change, emits the
      uncapped list in consecutive chunks of twenty. */
  lemma {:induction false} ChunksOfTwenty(w: World, items: seq<Item>, view: View, k: nat)
    ensures var all := Uncapped(w, items, view).emissions;
      var from, to := Min(k * MAX_ACTIONS_PER_TICK, |all|), Min((k + 1) * MAX_ACTIONS_PER_TICK, |all|);
      from <= to && Chunk(w, items, view, k) == all[from..to]
  {
    hide TickItem, Tick;
    var n := k * MAX_ACTIONS_PER_TICK;
    AfterIsTick(w, items, view, k);
    Resume(w, items, view, n, MAX_ACTIONS_PER_TICK);
    CutOfAll(w, items, view, n);
    CutOfAll(w, items, view, n + MAX_ACTIONS_PER_TICK);
  }

  /** Ten ticks drain any list of 200 triggers: the eleventh emits nothing and changes nothing. */
  lemma {:induction false} TenTicksDrain(w: World, items: seq<Item>, view: View)
    requires |items| <= MAX_TRIGGERS_PER_TICK
    ensures var v := After(w, items, view, 10);
      v == Uncapped(w, items, view).world && Tick(v, items, view, MAX_ACTIONS_PER_TICK) == Ticked(v, [])
  {
    hide TickItem, Tick;
    AfterIsTick(w, items, view, 10);
    EnoughRoom(w, items, view, 200);
    EnoughRoom(w, items, view, 220);
    Resume(w, items, view, 200, MAX_ACTIONS_PER_TICK);
    NothingThen(Tick(w, items, view, 200), Tick(After(w, items, view, 10), items, view, MAX_ACTIONS_PER_TICK));
  }

  lemma {:induction false} NothingThen(a: Ticked, b: Ticked)
    requires Then(a, b) == a
    ensures b == Ticked(a.world, [])
  {
    assert |a.emissions + b.emissions| == |a.emissions|;
  }

  lemma {:induction false} EnoughRoom(w: World, items: seq<Item>, view: View, room: nat)
    requires |items| <= room
    ensures Tick(w, items, view, room) == Uncapped(w, items, view)
    decreases |items|
  {
    hide TickItem;
    if items != [] {
      var step := TickItem(w, items[0], view);
      EnoughFrom(step.world, items[1..], view, room - |Emitted(step.emission)|, |items| + 1 - |Emitted(step.emission)|);
    }
  }

  lemma {:induction false} EnoughFrom(w: World, items: seq<Item>, view: View, room: nat, other: nat)
    requires |items| <= room && |items| <= other
    ensures Tick(w, items, view, room) == Tick(w, items, view, other)
    decreases |items|
  {
    hide TickItem;
    if items != [] {
      var step := TickItem(w, items[0], view);
      EnoughFrom(step.world, items[1..], view, room - |Emitted(step.emission)|, other - |Emitted(step.emission)|);
    }
  }
}
