/** Why one action per suppression key is a property of serial runs only. */
module KeyRace {
  import opened Text
  import opened Context
  import opened Generators
  import opened Compiler
  import opened Scores
  import opened Conversations
  import opened Endpoints
  import opened Interleavings
  import opened Schedules

  /** Two ticks, each with one item, and each step of the second right behind the first's. */
  function Race(a: Situation, b: Situation, view: View, speak: Speaker): seq<Move> {
    [Start, Start]
    + ([ReadKey(0, a), ReadKey(1, b)]
       + ([Check(0, view), Check(1, view)]
          + ([Reserve(0), Reserve(1)]
             + ([Settle(0, speak), Settle(1, speak)]
                + [Commit(0), Commit(1)]))))
  }

  /** Two triggers of one merchant that share a non-empty key, are both to be sent, and open
      different conversations. */
  predicate Rivals(a: Situation, b: Situation, p: Plan, q: Plan, view: View, speak: Speaker) {
    && a.merchant.id == b.merchant.id && a.trigger.suppressionKey == b.trigger.suppressionKey != ""
    && PlanFor(a, false, view) == Some(p) && PlanFor(b, false, view) == Some(q) && p.convId != q.convId
    && !Blank(speak(p.brief)) && !Blank(speak(q.brief))
  }

  function Both(p: Phase, q: Phase): seq<Ticker> { [Ticker(p, 0), Ticker(q, 0)] }

  lemma {:induction false} Started()
    ensures Play(INITIAL, [Start, Start]) == State([], map[], [], map[], Both(Idle, Idle), [], 2)
  {
    hide DoReadKey, DoCheck, DoReserve, DoSettle, DoCommit, DoAnswer;
    PlayTwo(INITIAL, Start, Start);
    assert [] + [Ticker(Idle, 0)] + [Ticker(Idle, 0)] == Both(Idle, Idle);
  }

  lemma {:induction false} BothRead(a: Situation, b: Situation)
    ensures Play(State([], map[], [], map[], Both(Idle, Idle), [], 2), [ReadKey(0, a), ReadKey(1, b)])
      == State([], map[], [], map[], Both(KeyRead(a, false, 2), KeyRead(b, false, 3)), [], 4)
  {
    hide DoCheck, DoReserve, DoSettle, DoCommit, DoAnswer;
    var s := State([], map[], [], map[], Both(Idle, Idle), [], 2);
    PlayTwo(s, ReadKey(0, a), ReadKey(1, b));
    var t := Next(s, ReadKey(0, a));
    assert t.tickers == Both(KeyRead(a, false, 2), Idle);
  }

  lemma {:induction false} BothDecided(a: Situation, b: Situation, p: Plan, q: Plan, view: View)
    requires PlanFor(a, false, view) == Some(p) && PlanFor(b, false, view) == Some(q)
    ensures Play(State([], map[], [], map[], Both(KeyRead(a, false, 2), KeyRead(b, false, 3)), [], 4), [Check(0, view), Check(1, view)])
      == State([], map[], [], map[], Both(Decided(p, 2, 4), Decided(q, 3, 5)), [], 6)
  {
    hide PlanFor, DoReadKey, DoReserve, DoSettle, DoCommit, DoAnswer;
    var s := State([], map[], [], map[], Both(KeyRead(a, false, 2), KeyRead(b, false, 3)), [], 4);
    PlayTwo(s, Check(0, view), Check(1, view));
    var t := Next(s, Check(0, view));
    assert t.tickers == Both(Decided(p, 2, 4), KeyRead(b, false, 3));
  }

  lemma {:induction false} BothReserved(p: Plan, q: Plan)
    requires p.convId != q.convId
    ensures Play(State([], map[], [], map[], Both(Decided(p, 2, 4), Decided(q, 3, 5)), [], 6), [Reserve(0), Reserve(1)])
      == State([NewConv(p), NewConv(q)], map[p.convId := 0, q.convId := 1], [], map[],
               Both(Reserved(p, 2, 4, 0), Reserved(q, 3, 5, 1)), [], 8)
  {
    hide DoReadKey, DoCheck, DoSettle, DoCommit, DoAnswer;
    var s := State([], map[], [], map[], Both(Decided(p, 2, 4), Decided(q, 3, 5)), [], 6);
    PlayTwo(s, Reserve(0), Reserve(1));
    var t := Next(s, Reserve(0));
    assert t.tickers == Both(Reserved(p, 2, 4, 0), Decided(q, 3, 5)) && t.heap == [NewConv(p)];
  }

  lemma {:induction false} BothAttached(p: Plan, q: Plan, speak: Speaker)
    requires p.convId != q.convId && !Blank(speak(p.brief)) && !Blank(speak(q.brief))
    ensures Play(State([NewConv(p), NewConv(q)], map[p.convId := 0, q.convId := 1], [], map[],
                       Both(Reserved(p, 2, 4, 0), Reserved(q, 3, 5, 1)), [], 8), [Settle(0, speak), Settle(1, speak)])
      == State([Opened(p), Opened(q)], map[p.convId := 0, q.convId := 1], [], map[],
               Both(Attached(p, 2, 4, 0, speak(p.brief)), Attached(q, 3, 5, 1, speak(q.brief))), [], 10)
  {
    hide Blank, DoReadKey, DoCheck, DoReserve, DoCommit, DoAnswer;
    var s := State([NewConv(p), NewConv(q)], map[p.convId := 0, q.convId := 1], [], map[],
                   Both(Reserved(p, 2, 4, 0), Reserved(q, 3, 5, 1)), [], 8);
    PlayTwo(s, Settle(0, speak), Settle(1, speak));
    var t := Next(s, Settle(0, speak));
    assert t.tickers == Both(Attached(p, 2, 4, 0, speak(p.brief)), Reserved(q, 3, 5, 1)) && t.heap == [Opened(p), NewConv(q)];
  }

  lemma {:induction false} BothCommitted(s: State, p: Plan, q: Plan, x: string, y: string)
    requires s.tickers == Both(Attached(p, 2, 4, 0, x), Attached(q, 3, 5, 1, y)) && s.log == [] && s.clock == 10
    ensures Play(s, [Commit(0), Commit(1)]).log == [Entry(0, p, x, 2, 4, 10), Entry(1, q, y, 3, 5, 11)]
  {
    hide DoReadKey, DoCheck, DoReserve, DoSettle, DoAnswer;
    PlayTwo(s, Commit(0), Commit(1));
  }

  /** Any two such triggers can both be sent when two ticks race, although they share a key. */
  lemma {:induction false} KeyCanRepeat(a: Situation, b: Situation, p: Plan, q: Plan, view: View, speak: Speaker)
    requires Rivals(a, b, p, q, view, speak)
    ensures var log := Play(INITIAL, Race(a, b, view, speak)).log;
      log == [Entry(0, p, speak(p.brief), 2, 4, 10), Entry(1, q, speak(q.brief), 3, 5, 11)]
  {
    hide Next, PlanFor, Blank, Both, NewConv;
    var commits := [Commit(0), Commit(1)];
    var settles := [Settle(0, speak), Settle(1, speak)];
    var reserves := [Reserve(0), Reserve(1)];
    var checks := [Check(0, view), Check(1, view)];
    var keyReads := [ReadKey(0, a), ReadKey(1, b)];
    Started();
    PlayThen(INITIAL, [Start, Start], keyReads + (checks + (reserves + (settles + commits))));
    var s2 := Play(INITIAL, [Start, Start]);
    BothRead(a, b);
    PlayThen(s2, keyReads, checks + (reserves + (settles + commits)));
    var s4 := Play(s2, keyReads);
    BothDecided(a, b, p, q, view);
    PlayThen(s4, checks, reserves + (settles + commits));
    var s6 := Play(s4, checks);
    BothReserved(p, q);
    PlayThen(s6, reserves, settles + commits);
    var s8 := Play(s6, reserves);
    BothAttached(p, q, speak);
    PlayThen(s8, settles, commits);
    BothCommitted(Play(s8, settles), p, q, speak(p.brief), speak(q.brief));
  }

  /** A curiosity ask for a merchant. */
  function Ask(m: Merchant, c: Category, triggerId: string, key: string, text: string): Situation {
    Situation(m, Trigger(triggerId, m.id, None, CuriousAskDue(Some(text)), 1, key, None), None, Some(c))
  }

  lemma {:induction false} AskIsPlanned(m: Merchant, c: Category, triggerId: string, key: string, text: string, view: View)
    requires !Blank(text)
    ensures var plan := PlanFor(Ask(m, c, triggerId, key, text), false, view);
      plan.Some? && plan.value.convId == ConvId(m.id, triggerId)
  {
    hide Decide, Blank, Corroborated, Own;
    var s := Ask(m, c, triggerId, key, text);
    DecideIff(s, false, view.now, view.render(s));
  }

  lemma {:induction false} ConvIdsDiffer(m: string, t: string, u: string)
    requires t != u
    ensures ConvId(m, t) != ConvId(m, u)
  {
    var n := |"conv_" + m + "_"|;
    assert ConvId(m, t)[n..] == t && ConvId(m, u)[n..] == u;
  }

  /** There are such triggers: two asks for one merchant that were given the same key. */
  lemma {:induction false} AsksAreRivals(m: Merchant, c: Category, t: string, u: string, key: string, text: string, view: View, speak: Speaker)
    requires !Blank(text) && key != "" && t != u && forall b :: !Blank(speak(b))
    ensures var p, q := PlanFor(Ask(m, c, t, key, text), false, view), PlanFor(Ask(m, c, u, key, text), false, view);
      p.Some? && q.Some? && Rivals(Ask(m, c, t, key, text), Ask(m, c, u, key, text), p.value, q.value, view, speak)
  {
    hide PlanFor, Blank, ConvId;
    AskIsPlanned(m, c, t, key, text, view);
    AskIsPlanned(m, c, u, key, text, view);
    ConvIdsDiffer(m.id, t, u);
  }
}
