/** Every interleaving: no tick exceeds its cap, and opt-outs last. */
module Limits {
  import opened Text
  import opened Conversations
  import opened ConversationRuns
  import opened Endpoints
  import opened ReplyPolicy
  import opened Interleavings
  import opened Windows

  // ---- the cap ---------------------------------------------------------------------------------

  /** How many actions of the log a tick emitted. */
  function CountOf(log: seq<Entry>, t: nat): nat {
    if log == [] then 0
    else CountOf(log[..|log| - 1], t) + (if log[|log| - 1].tick == t then 1 else 0)
  }

  lemma {:induction false} CountOfAppended(log: seq<Entry>, e: Entry, t: nat)
    ensures CountOf(log + [e], t) == CountOf(log, t) + (if e.tick == t then 1 else 0)
  {
    assert (log + [e])[..|log|] == log;
  }

  lemma {:induction false} CountOfOther(log: seq<Entry>, t: nat)
    requires forall e | e in log :: e.tick != t
    ensures CountOf(log, t) == 0
  {
    if log != [] {
      var n := |log| - 1;
      assert log[n] in log;
      forall e | e in log[..n] ensures e in log {}
      CountOfOther(log[..n], t);
    }
  }

  predicate TickerCapped(s: State, t: nat)
    requires t < |s.tickers|
  {
    && s.tickers[t].emitted == CountOf(s.log, t) <= MAX_ACTIONS_PER_TICK
    && (!s.tickers[t].phase.Idle? ==> s.tickers[t].emitted < MAX_ACTIONS_PER_TICK)
  }

  predicate Capped(s: State) {
    && (forall t | 0 <= t < |s.tickers| :: TickerCapped(s, t))
    && (forall e | e in s.log :: e.tick < |s.tickers|)
  }

  /** All moves but a new tick and a commit: no entry, no count, and work begins below the cap. */
  predicate QuietMove(s: State, v: State) {
    && v.log == s.log && |v.tickers| == |s.tickers|
    && forall t | 0 <= t < |s.tickers| ::
         && v.tickers[t].emitted == s.tickers[t].emitted
         && (!v.tickers[t].phase.Idle? ==> !s.tickers[t].phase.Idle? || s.tickers[t].emitted < MAX_ACTIONS_PER_TICK)
  }

  lemma {:induction false} QuietKeepsCapped(s: State, v: State)
    requires Capped(s) && QuietMove(s, v)
    ensures Capped(v)
  {
    forall t | 0 <= t < |v.tickers| ensures TickerCapped(v, t) { assert TickerCapped(s, t); }
  }

  lemma {:induction false} QuietMoves(s: State, move: Move)
    requires move.ReadKey? || move.Reserve? || move.Settle? || move.LookUp?
    ensures QuietMove(s, Next(s, move))
  {
    hide Blank, React, PlanFor, DoCheck, DoAnswer, DoCommit;
  }

  lemma {:induction false} CheckIsQuiet(s: State, t: nat, view: View)
    ensures QuietMove(s, Next(s, Check(t, view)))
  {
    hide PlanFor;
  }

  lemma {:induction false} AnswerIsQuiet(s: State, r: nat, turn: Turn, speak: Speaker)
    ensures QuietMove(s, Next(s, Answer(r, turn, speak)))
  {
    hide React;
  }

  lemma {:induction false} StartKeepsCapped(s: State)
    requires Capped(s)
    ensures Capped(Next(s, Start))
  {
    hide DoReadKey, DoCheck, DoReserve, DoSettle, DoCommit, DoAnswer;
    var v := Next(s, Start);
    CountOfOther(s.log, |s.tickers|);
    forall t | 0 <= t < |v.tickers| ensures TickerCapped(v, t) {
      if t < |s.tickers| { assert TickerCapped(s, t); }
    }
  }

  lemma {:induction false} CommitKeepsCapped(s: State, t: nat)
    requires Capped(s)
    ensures Capped(Next(s, Commit(t)))
  {
    hide DoReadKey, DoCheck, DoReserve, DoSettle, DoAnswer;
    var v := Next(s, Commit(t));
    if t < |s.tickers| && s.tickers[t].phase.Attached? {
      assert TickerCapped(s, t);
      forall u | 0 <= u < |v.tickers| ensures TickerCapped(v, u) {
        CountOfAppended(s.log, v.log[|s.log|], u);
        assert TickerCapped(s, u);
      }
    } else {
      QuietKeepsCapped(s, v);
    }
  }

  lemma {:induction false} NextKeepsCapped(s: State, move: Move)
    requires Capped(s)
    ensures Capped(Next(s, move))
  {
    hide Capped, QuietMove, Next;
    match move {
      case Start => StartKeepsCapped(s);
      case Commit(t) => CommitKeepsCapped(s, t);
      case Check(t, view) =>
        CheckIsQuiet(s, t, view);
        QuietKeepsCapped(s, Next(s, move));
      case Answer(r, turn, speak) =>
        AnswerIsQuiet(s, r, turn, speak);
        QuietKeepsCapped(s, Next(s, move));
      case _ =>
        QuietMoves(s, move);
        QuietKeepsCapped(s, Next(s, move));
    }
  }

  /** No tick ever emits more than twenty actions. */
  lemma {:induction false} PlayKeepsCapped(s: State, moves: seq<Move>)
    requires Capped(s)
    ensures Capped(Play(s, moves))
    decreases |moves|
  {
    hide Capped, Next;
    if moves != [] {
      NextKeepsCapped(s, moves[0]);
      PlayKeepsCapped(Next(s, moves[0]), moves[1..]);
    }
  }

  lemma {:induction false} AtMostTwentyPerTick(moves: seq<Move>, t: nat)
    ensures CountOf(Play(INITIAL, moves).log, t) <= MAX_ACTIONS_PER_TICK
  {
    hide Play, CountOf;
    var s := Play(INITIAL, moves);
    assert Capped(INITIAL);
    PlayKeepsCapped(INITIAL, moves);
    if t < |s.tickers| {
      assert TickerCapped(s, t);
    } else {
      CountOfOther(s.log, t);
    }
  }

  // ---- opt-outs stay ---------------------------------------------------------------------------

  predicate OptOutsKept(s: State, v: State) { forall m | m in s.optOuts :: m in v.optOuts && v.optOuts[m] == s.optOuts[m] }

  lemma {:induction false} NextKeepsOptOuts(s: State, move: Move)
    ensures OptOutsKept(s, Next(s, move))
  {
    hide React, PlanFor, Blank;
  }

  /** Once a merchant has opted out, it stays opted out. */
  lemma {:induction false} OptOutsStay(s: State, moves: seq<Move>)
    ensures OptOutsKept(s, Play(s, moves))
    decreases |moves|
  {
    hide Next;
    if moves != [] {
      NextKeepsOptOuts(s, moves[0]);
      OptOutsStay(Next(s, moves[0]), moves[1..]);
    }
  }

  /** The move is a reply that opts out: it reaches a conversation that has not ended, with a
      message that is hostile and is neither a repeat nor an automatic one. */
  predicate HostileAnswer(s: State, move: Move) {
    && move.Answer? && move.r < |s.repliers| && s.repliers[move.r].Some? && s.repliers[move.r].value < |s.heap|
    && var c := s.heap[s.repliers[move.r].value];
       !c.status.Ended? && ClassifyKind(move.turn.message, c.lastIncoming) == HostileOptout
  }

  function OptingOut(s: State, move: Move): string
    requires HostileAnswer(s, move)
  {
    s.heap[s.repliers[move.r].value].merchantId
  }

  lemma {:induction false} HostileAnswerOptsOut(s: State, move: Move)
    requires HostileAnswer(s, move) && Timed(s)
    ensures var m := OptingOut(s, move); m in Next(s, move).optOuts && Next(s, move).optOuts[m] <= s.clock
  {
    hide React, Marked, Normal, Markers, Blank, BasesFit, EntryFits, Overlap, DoReadKey, DoCheck, DoReserve, DoSettle, DoCommit;
    ReactionIff(s.heap[s.repliers[move.r].value], move.turn, move.speak);
  }

  /** After a hostile reply, whatever is pushed and whoever ticks: an action for that merchant can
      only come from an item whose suppression was read before the reply was answered. */
  lemma {:induction false} NoActionAfterOptOut(before: seq<Move>, answer: Move, after: seq<Move>)
    requires HostileAnswer(Play(INITIAL, before), answer)
    ensures var s := Play(INITIAL, before);
      forall e | e in Play(Next(s, answer), after).log && e.plan.merchantId == OptingOut(s, answer) :: e.checkedAt < s.clock
  {
    hide HostileAnswer, OptingOut, Next, Play;
    var s := Play(INITIAL, before);
    InitialTimed();
    PlayKeepsTimed(INITIAL, before);
    HostileAnswerOptsOut(s, answer);
    var v := Next(s, answer);
    NextKeepsTimed(s, answer);
    PlayKeepsTimed(v, after);
    OptOutsStay(v, after);
    var w := Play(v, after);
    forall e | e in w.log && e.plan.merchantId == OptingOut(s, answer) ensures e.checkedAt < s.clock {
      assert EntryFits(w, e);
    }
  }

  lemma {:induction false} InitialTimed()
    ensures Timed(INITIAL)
  {}

  // ---- conversations on the heap ---------------------------------------------------------------

  /** What a conversation keeps whatever happens: whose it is and what was said; if it has ended,
      everything but a brief attached late. */
  predicate ConvKept(c: Conv, d: Conv) {
    && d.merchantId == c.merchantId && d.triggerId == c.triggerId && c.sentBodies <= d.sentBodies && c.turns <= d.turns
    && (c.status.Ended? ==> d == c.(brief := d.brief))
  }

  predicate HeapKept(s: State, v: State) {
    |s.heap| <= |v.heap| && forall i | 0 <= i < |s.heap| :: ConvKept(s.heap[i], v.heap[i])
  }

  lemma {:induction false} AnswerKeepsHeap(s: State, r: nat, turn: Turn, speak: Speaker)
    requires r < |s.repliers|
    ensures HeapKept(s, DoAnswer(s, r, turn, speak))
  {
    hide React;
    var held := s.repliers[r];
    if held.Some? && held.value < |s.heap| { ReactFrame(s.heap[held.value], turn, speak); }
  }

  lemma {:induction false} NextKeepsHeap(s: State, move: Move)
    ensures HeapKept(s, Next(s, move))
  {
    hide React, PlanFor, Blank, DoAnswer;
    if move.Answer? && move.r < |s.repliers| { AnswerKeepsHeap(s, move.r, move.turn, move.speak); }
  }

  lemma {:induction false} KeptThen(s: State, v: State, w: State)
    requires HeapKept(s, v) && HeapKept(v, w)
    ensures HeapKept(s, w)
  {
    forall i | 0 <= i < |s.heap| ensures ConvKept(s.heap[i], w.heap[i]) {
      assert ConvKept(s.heap[i], v.heap[i]) && ConvKept(v.heap[i], w.heap[i]);
    }
  }

  /** In every interleaving an ended conversation stays ended and takes no further turn, and no
      conversation forgets what it sent. */
  lemma {:induction false} EndedForGood(s: State, moves: seq<Move>)
    ensures HeapKept(s, Play(s, moves))
    decreases |moves|
  {
    hide Next, ConvKept;
    if moves != [] {
      NextKeepsHeap(s, moves[0]);
      EndedForGood(Next(s, moves[0]), moves[1..]);
      KeptThen(s, Next(s, moves[0]), Play(Next(s, moves[0]), moves[1..]));
    } else {
      KeptSame(s);
    }
  }

  lemma {:induction false} KeptSame(s: State)
    ensures HeapKept(s, s)
  {}
}
