/** Every interleaving: how long the conversations can go on when replies are deterministic. */
module Termination {
  import opened Text
  import opened Brief
  import opened Conversations
  import opened ConversationRuns
  import opened Endpoints
  import opened Interleavings
  import opened Ownership
  import opened SpokenBodies
  import opened Races

  /** Nothing is asked of a message. */
  function Anything(): Standard { (_, _) => true }

  /** Whatever was said in a conversation is what the speaker says from the conversation's brief. */
  predicate HeapSaysOnly(s: State, speak: Speaker) { forall h | 0 <= h < |s.heap| :: SaysOnly(s.heap[h], speak) }

  /** Replies are made by one deterministic speaker; what opens conversations may be anything. */
  ghost predicate RepliesBy(moves: seq<Move>, speak: Speaker) { forall m | m in moves :: m.Answer? ==> m.speak == speak }

  lemma {:induction false} AnythingSound(move: Move)
    ensures SoundMove(move, Anything())
  {}

  /** A brief is attached once. */
  lemma {:induction false} BriefOnce(s: State, move: Move, h: nat)
    requires Ids(s) && Accepted(s, Anything()) && h < |s.heap| && !Answers(s, move, h)
    ensures h < |Next(s, move).heap|
    ensures Next(s, move).heap[h].brief == s.heap[h].brief || s.heap[h].brief == None
  {
    hide React, PlanFor, Blank, DoAnswer, Ids, Accepted;
    OthersLeave(s, move, h);
    if move.Settle? && move.t < |s.tickers| { SettleOnce(s, move.t, move.speak, h); }
    if move.Answer? && move.r < |s.repliers| { OtherAnswer(s, move.r, move.turn, move.speak, h); }
  }

  lemma {:induction false} SettleOnce(s: State, t: nat, speak: Speaker, h: nat)
    requires Ids(s) && Accepted(s, Anything()) && t < |s.tickers| && h < |s.heap|
    ensures h < |DoSettle(s, t, speak).heap|
    ensures DoSettle(s, t, speak).heap[h].brief == s.heap[h].brief || s.heap[h].brief == None
  {
    hide Blank;
    assert OwnerAlone(s, t) && OwnerBriefed(s, s.tickers[t].phase, Anything());
  }

  lemma {:induction false} SilentSaysOnly(c: Conv, brief: Option<Brief>, speak: Speaker)
    requires RepliesAccepted(c, Anything()) && SaysOnly(c, speak) && (brief == c.brief || c.brief == None)
    ensures SaysOnly(c.(brief := brief), speak)
  {}

  lemma {:induction false} NewSaysNothing(s: State, move: Move, h: nat)
    requires |s.heap| <= h < |Next(s, move).heap|
    ensures var c := Next(s, move).heap[h]; c.sentBodies == {} && c.turns == [] && c.status.Active?
  {
    hide React, PlanFor, Blank;
  }

  lemma {:induction false} NextSaysOnly(s: State, move: Move, speak: Speaker)
    requires Ids(s) && Accepted(s, Anything()) && HeapSaysOnly(s, speak) && (move.Answer? ==> move.speak == speak)
    ensures HeapSaysOnly(Next(s, move), speak)
  {
    hide Next, React, Ids, SaysOnly, RepliesAccepted;
    var v := Next(s, move);
    forall h | 0 <= h < |v.heap| ensures SaysOnly(v.heap[h], speak) {
      if h >= |s.heap| {
        NewSaysNothing(s, move, h);
        NothingSaysOnly(v.heap[h], speak);
      } else if Answers(s, move, h) {
        AnsweredConv(s, move, h);
        ReactSaysOnly(s.heap[h], move.turn, speak);
      } else {
        OthersLeave(s, move, h);
        BriefOnce(s, move, h);
        SilentSaysOnly(s.heap[h], v.heap[h].brief, speak);
      }
    }
  }

  lemma {:induction false} NothingSaysOnly(c: Conv, speak: Speaker)
    requires c.sentBodies == {}
    ensures SaysOnly(c, speak)
  {}

  lemma {:induction false} PlaySaysOnly(s: State, moves: seq<Move>, speak: Speaker)
    requires Ids(s) && Accepted(s, Anything()) && HeapSaysOnly(s, speak) && RepliesBy(moves, speak)
    ensures HeapSaysOnly(Play(s, moves), speak)
    decreases |moves|
  {
    hide Ids, Accepted, Next, HeapSaysOnly, SoundMove;
    if moves != [] {
      assert moves[0] in moves;
      AnythingSound(moves[0]);
      NextSaysOnly(s, moves[0], speak);
      NextKeepsIds(s, moves[0]);
      NextKeepsAccepted(s, moves[0], Anything());
      forall m | m in moves[1..] ensures m in moves {}
      PlaySaysOnly(Next(s, moves[0]), moves[1..], speak);
    }
  }

  /** A conversation with nothing left to happen has ended. */
  predicate Bounded(c: Conv) { |c.sentBodies| <= 2 && |c.turns| <= 4 && (|c.turns| == 4 ==> c.status.Ended?) }

  /** However ticks and replies interleave and whenever the brief is attached: with a deterministic
      speaker no conversation takes more than four turns or sends more than two replies, and the
      fourth turn ends it. */
  lemma {:induction false} EveryConversationBounded(moves: seq<Move>, speak: Speaker)
    requires RepliesBy(moves, speak)
    ensures forall c | c in Play(INITIAL, moves).heap :: Bounded(c)
  {
    hide Play, Ids, Accepted, Conserved;
    InitialIds();
    PlayConserves(INITIAL, moves);
    PlaySaysOnly(INITIAL, moves, speak) by { InitialAccepted(); }
    var s := Play(INITIAL, moves);
    forall c | c in s.heap ensures Bounded(c) { BoundedHere(c, speak); }
  }

  lemma {:induction false} InitialAccepted()
    ensures Accepted(INITIAL, Anything())
  {}

  lemma {:induction false} BoundedHere(c: Conv, speak: Speaker)
    requires Conserved(c) && SaysOnly(c, speak)
    ensures Bounded(c)
  {
    AtMostTwoSent(c, speak);
  }

  function TurnsAt(s: State, h: nat): nat { if h < |s.heap| then |s.heap[h].turns| else 0 }

  /** Every reply that reaches the conversation takes a turn, until it has ended. */
  lemma {:induction false} AnswersCounted(s: State, moves: seq<Move>, h: nat)
    ensures h < |s.heap| || Given(s, moves, h) != [] ==> h < |Play(s, moves).heap|
    ensures h < |Play(s, moves).heap| ==>
      Play(s, moves).heap[h].status.Ended? || TurnsAt(Play(s, moves), h) == TurnsAt(s, h) + |Given(s, moves, h)|
    decreases |moves|
  {
    hide Next, React, Answers;
    if moves != [] {
      var v, rest := Next(s, moves[0]), moves[1..];
      AnswersCounted(v, rest, h);
      TurnsStep(s, moves[0], h);
      if h < |v.heap| && v.heap[h].status.Ended? { EndedGivesNothing(v, rest, h); }
      assert [] + Given(v, rest, h) == Given(v, rest, h);
    }
  }

  lemma {:induction false} TurnsStep(s: State, move: Move, h: nat)
    ensures h < |s.heap| || Answers(s, move, h) ==> h < |Next(s, move).heap|
    ensures h < |Next(s, move).heap| ==>
      Next(s, move).heap[h].status.Ended? || TurnsAt(Next(s, move), h) == TurnsAt(s, h) + (if Answers(s, move, h) then 1 else 0)
  {
    hide Next, React;
    if h >= |s.heap| {
      if h < |Next(s, move).heap| { NewSaysNothing(s, move, h); }
    } else if Answers(s, move, h) {
      AnsweredConv(s, move, h);
      ReactFrame(s.heap[h], move.turn, move.speak);
    } else {
      OthersLeave(s, move, h);
    }
  }

  /** So four replies to one conversation, from whatever threads, end it. */
  lemma {:induction false} FourAnswersEnd(moves: seq<Move>, speak: Speaker, h: nat)
    requires RepliesBy(moves, speak) && |Given(INITIAL, moves, h)| >= 4
    ensures h < |Play(INITIAL, moves).heap| && Play(INITIAL, moves).heap[h].status.Ended?
  {
    hide Play, Given;
    AnswersCounted(INITIAL, moves, h);
    EveryConversationBounded(moves, speak);
    assert Play(INITIAL, moves).heap[h] in Play(INITIAL, moves).heap;
  }
}
