/** Any sequence of pushes, ticks and replies, one after the other. */
module SerialRuns {
  import opened Text
  import opened ContextStores
  import opened Generators
  import opened Compiler
  import opened Scores
  import opened Conversations
  import opened Endpoints

  datatype Op =
    | PushOp(delivery: Delivery<Payload>)
    | TickOp(items: seq<Item>, view: View)
    | ReplyOp(convId: string, turn: Turn, speak: Speaker)

  function Perform(w: World, op: Op): Ticked {
    match op
    case PushOp(delivery) => Ticked(w.(contexts := Pushed(w.contexts, delivery)), [])
    case TickOp(items, view) => Tick(w, items, view, MAX_ACTIONS_PER_TICK)
    case ReplyOp(convId, turn, speak) => Ticked(Reply(w, convId, turn, speak).world, [])
  }

  function PerformAll(w: World, ops: seq<Op>): Ticked
    decreases |ops|
  {
    if ops == [] then Ticked(w, [])
    else
      var first := Perform(w, ops[0]);
      var rest := PerformAll(first.world, ops[1..]);
      Ticked(rest.world, first.emissions + rest.emissions)
  }

  /** No key of `before` is used, none is used twice, and no merchant of `out` is written to. */
  predicate Restrained(es: seq<Emission>, before: set<(string, string)>, out: set<string>) {
    && (forall e | e in es :: e.plan.merchantId !in out && Mark(e.plan) !! before)
    && (forall i, j | 0 <= i < j < |es| :: Mark(es[i].plan) !! Mark(es[j].plan))
  }

  function Marks(es: seq<Emission>): set<(string, string)> { set e, k | e in es && k in Mark(e.plan) :: k }

  /** What a run may do to the suppression stores: record its marks, add opt-outs. */
  predicate Recorded(w: World, t: Ticked) {
    t.world.used == w.used + Marks(t.emissions) && w.optedOut <= t.world.optedOut && Restrained(t.emissions, w.used, w.optedOut)
  }

  lemma {:induction false} RecordedThen(w: World, a: Ticked, b: Ticked)
    requires Recorded(w, a) && Recorded(a.world, b)
    ensures Recorded(w, Ticked(b.world, a.emissions + b.emissions))
  {
    var es := a.emissions + b.emissions;
    assert Marks(es) == Marks(a.emissions) + Marks(b.emissions);
    forall i, j | 0 <= i < j < |es| ensures Mark(es[i].plan) !! Mark(es[j].plan) {
      if i < |a.emissions| <= j {
        assert es[i] in a.emissions && es[j] in b.emissions;
        assert Mark(es[i].plan) <= Marks(a.emissions);
      }
    }
  }

  /** Nothing is planned for a suppressed key or an opted-out merchant. */
  lemma {:induction false} PlannedIsUnsuppressed(w: World, triggerId: string, view: View)
    ensures var plan := PlanOf(w, triggerId, view);
      plan.Some? ==> (plan.value.merchantId, plan.value.rawKey) !in w.used && plan.value.merchantId !in w.optedOut
  {
    hide Compiler.Best, Compiler.IsStale;
  }

  lemma {:induction false} ItemRecorded(w: World, item: Item, view: View)
    ensures var step := TickItem(w, item, view); Recorded(w, Ticked(step.world, Emitted(step.emission)))
  {
    hide PlanOf, Blank;
    PlannedIsUnsuppressed(w, item.triggerId, view);
    var step := TickItem(w, item, view);
    if step.emission.Some? {
      assert Marks([step.emission.value]) == Mark(step.emission.value.plan);
    } else {
      assert Marks([]) == {};
    }
  }

  lemma {:induction false} TickRecorded(w: World, items: seq<Item>, view: View, room: nat)
    ensures Recorded(w, Tick(w, items, view, room))
    decreases |items|
  {
    hide TickItem, Recorded;
    if items != [] && room > 0 {
      var step := TickItem(w, items[0], view);
      ItemRecorded(w, items[0], view);
      var left := room - |Emitted(step.emission)|;
      TickRecorded(step.world, items[1..], view, left);
      RecordedThen(w, Ticked(step.world, Emitted(step.emission)), Tick(step.world, items[1..], view, left));
    } else {
      NothingRecorded(w, w);
    }
  }

  lemma {:induction false} NothingRecorded(w: World, v: World)
    requires v.used == w.used && w.optedOut <= v.optedOut
    ensures Recorded(w, Ticked(v, []))
  {
    assert Marks([]) == {};
  }

  lemma {:induction false} ReplyKeepsMarks(w: World, convId: string, turn: Turn, speak: Speaker)
    ensures var v := Reply(w, convId, turn, speak).world; v.used == w.used && w.optedOut <= v.optedOut
  {
    hide React;
  }

  /** Over any serial run at most one action is emitted per merchant and non-empty suppression
      key, and none for a merchant that had opted out before. */
  lemma {:induction false} OneActionPerKey(w: World, ops: seq<Op>)
    ensures Recorded(w, PerformAll(w, ops))
    decreases |ops|
  {
    hide Recorded, Tick, Reply;
    if ops == [] {
      NothingRecorded(w, w);
    } else {
      match ops[0] {
        case PushOp(delivery) => NothingRecorded(w, w.(contexts := Pushed(w.contexts, delivery)));
        case TickOp(items, view) => TickRecorded(w, items, view, MAX_ACTIONS_PER_TICK);
        case ReplyOp(convId, turn, speak) =>
          ReplyKeepsMarks(w, convId, turn, speak);
          NothingRecorded(w, Reply(w, convId, turn, speak).world);
      }
      var first := Perform(w, ops[0]);
      OneActionPerKey(first.world, ops[1..]);
      RecordedThen(w, first, PerformAll(first.world, ops[1..]));
    }
  }

  /** When an item leads to an action: its contexts are there, its trigger is neither stale nor
      suppressed, the gate of its kind is open and its score reaches the threshold (which in the
      documented range of urgencies only a far and bare festival can miss), its conversation id is
      free, and something can be said. */
  lemma {:induction false} ItemEmitsIff(w: World, item: Item, view: View, s: Situation)
    requires SituationOf(w.contexts, item.triggerId) == Some(s)
    ensures s.category.Some?
    ensures var d := Decide(s, false, view.now, view.render(s));
      TickItem(w, item, view).emission.Some? <==>
        && !IsStale(s.trigger, view.now)
        && (s.merchant.id, s.trigger.suppressionKey) !in w.used && s.merchant.id !in w.optedOut
        && Gate(s) && Reaches(s)
        && ConvId(s.merchant.id, s.trigger.id) !in w.convs
        && !Blank(item.speak(BuildBrief(d, s.merchant, s.category.value, s.customer)))
    ensures s.trigger.urgency >= 1 && Gate(s) ==> (Reaches(s) <==> (FarBareFestival(s) ==> Corroborated(s)))
  {
    hide Blank, IsStale, Gate, Reaches, FarBareFestival, Corroborated, Own, Best, Opportunities, BuildBrief, ConvId, Lookup;
    DecideIff(s, Suppressed(s, w.used, w.optedOut), view.now, view.render(s));
  }

  /** Another merchant's keys make no difference. */
  lemma {:induction false} KeysAreLocal(w: World, used: set<(string, string)>, item: Item, view: View)
    requires var s := SituationOf(w.contexts, item.triggerId);
      s.Some? ==> forall k :: (s.value.merchant.id, k) in w.used <==> (s.value.merchant.id, k) in used
    ensures TickItem(w.(used := used), item, view).emission == TickItem(w, item, view).emission
  {
    hide PlanFor, Blank;
  }

  /** An item for which nothing can be said leaves the whole state as it was. */
  lemma {:induction false} BlankChangesNothing(w: World, item: Item, view: View)
    requires var plan := PlanOf(w, item.triggerId, view); plan.Some? ==> Blank(item.speak(plan.value.brief))
    ensures TickItem(w, item, view) == Step(w, None)
  {
    hide PlanOf, Blank;
  }

  // ---- conversation ids ------------------------------------------------------------------------

  lemma {:induction false} Tails(a: string, x: string, y: string)
    requires a + "_" + x == a + "_" + y
    ensures x == y
  {
    assert (a + "_" + x)[|a| + 1..] == x;
    assert (a + "_" + y)[|a| + 1..] == y;
  }

  /** The longer merchant id swallows the beginning of the other's trigger id. */
  ghost predicate Swallows(m: string, t: string, n: string, u: string) {
    exists x :: n == m + "_" + x && t == x + "_" + u
  }

  lemma {:induction false} SwallowedBy(m: string, t: string, n: string, u: string)
    requires |m| < |n| && m + "_" + t == n + "_" + u
    ensures Swallows(m, t, n, u)
  {
    var s := m + "_" + t;
    var x := n[|m| + 1..];
    assert s[..|n|] == n && s[..|m|] == m && s[|m|] == '_';
    assert n == m + "_" + x;
    assert s == m + "_" + (x + "_" + u);
    Tails(m, t, x + "_" + u);
  }

  lemma {:induction false} Joined(m: string, t: string, n: string, u: string)
    ensures ConvId(m, t) == ConvId(n, u) <==> m + "_" + t == n + "_" + u
  {
    assert ConvId(m, t) == "conv_" + (m + "_" + t) && ConvId(n, u) == "conv_" + (n + "_" + u);
    assert ("conv_" + (m + "_" + t))[5..] == m + "_" + t;
    assert ("conv_" + (n + "_" + u))[5..] == n + "_" + u;
  }

  /** Two triggers of two merchants can share a conversation id. */
  lemma {:induction false} ConvIdsCollide(m: string, t: string, u: string)
    ensures ConvId(m + "_" + t, u) == ConvId(m, t + "_" + u)
  {
    assert "conv_" + (m + "_" + t) + "_" + u == "conv_" + m + "_" + (t + "_" + u);
  }

  /** They do exactly if they are the same pair or one merchant id swallows the beginning of the
      other merchant's trigger id. */
  lemma {:induction false} ConvIdsEqualIff(m: string, t: string, n: string, u: string)
    ensures ConvId(m, t) == ConvId(n, u) <==> (m == n && t == u) || Swallows(m, t, n, u) || Swallows(n, u, m, t)
  {
    Joined(m, t, n, u);
    if m + "_" + t == n + "_" + u {
      if |m| < |n| {
        SwallowedBy(m, t, n, u);
      } else if |n| < |m| {
        SwallowedBy(n, u, m, t);
      } else {
        assert (m + "_" + t)[..|m|] == m && (n + "_" + u)[..|n|] == n;
        Tails(m, t, u);
      }
    }
    if Swallows(m, t, n, u) {
      var x :| n == m + "_" + x && t == x + "_" + u;
      ConvIdsCollide(m, x, u);
    }
    if Swallows(n, u, m, t) {
      var x :| m == n + "_" + x && u == x + "_" + t;
      ConvIdsCollide(n, x, t);
    }
  }

  /** Two merchants never share a conversation id, whatever their triggers, exactly if neither
      id continues the other behind an underscore. */
  lemma {:induction false} MerchantsApartIff(m: string, n: string)
    ensures (forall t, u :: ConvId(m, t) == ConvId(n, u) ==> m == n && t == u) <==> !(m + "_" <= n) && !(n + "_" <= m)
  {
    hide ConvId;
    if m + "_" <= n {
      var x := n[|m| + 1..];
      assert n == m + "_" + x;
      ConvIdsCollide(m, x, "");
    } else if n + "_" <= m {
      var x := m[|n| + 1..];
      assert m == n + "_" + x;
      ConvIdsCollide(n, x, "");
    } else {
      forall t, u | ConvId(m, t) == ConvId(n, u) ensures m == n && t == u {
        ConvIdsEqualIff(m, t, n, u);
      }
    }
  }
}
