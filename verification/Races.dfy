/** Every interleaving: replies that say the same thing and race for one conversation. */
module Races {
  import opened Text
  import opened ReplyPolicy
  import opened Conversations
  import opened ConversationRuns
  import opened Endpoints
  import opened Interleavings

  /** Does the move process a reply to the conversation at `h`? */
  predicate Answers(s: State, move: Move, h: nat) {
    move.Answer? && move.r < |s.repliers| && s.repliers[move.r] == Some(h) && h < |s.heap|
  }

  /** The responses to the conversation's replies along a run, in the order of its lock. */
  function Given(s: State, moves: seq<Move>, h: nat): seq<Response>
    decreases |moves|
  {
    if moves == [] then []
    else
      (if Answers(s, moves[0], h) then [React(s.heap[h], moves[0].turn, moves[0].speak).response] else [])
      + Given(Next(s, moves[0]), moves[1..], h)
  }

  /** All those replies say the same, up to case and surrounding white space. */
  predicate AllSayTo(s: State, moves: seq<Move>, h: nat, text: string)
    decreases |moves|
  {
    moves != [] ==>
      && (Answers(s, moves[0], h) ==> Normal(moves[0].turn.message) == text)
      && AllSayTo(Next(s, moves[0]), moves[1..], h, text)
  }

  lemma {:induction false} AnsweredConv(s: State, move: Move, h: nat)
    requires Answers(s, move, h)
    ensures h < |Next(s, move).heap| && Next(s, move).heap[h] == React(s.heap[h], move.turn, move.speak).conv
  {
    hide React, DoReadKey, DoCheck, DoReserve, DoSettle, DoCommit;
  }

  lemma {:induction false} OtherAnswer(s: State, r: nat, turn: Turn, speak: Speaker, h: nat)
    requires r < |s.repliers| && s.repliers[r] != Some(h) && h < |s.heap|
    ensures var v := DoAnswer(s, r, turn, speak); h < |v.heap| && v.heap[h] == s.heap[h]
  {
    hide React;
  }

  /** Any other move leaves the conversation alone, or attaches its brief. */
  lemma {:induction false} OthersLeave(s: State, move: Move, h: nat)
    requires h < |s.heap| && !Answers(s, move, h)
    ensures h < |Next(s, move).heap|
    ensures var c, d := s.heap[h], Next(s, move).heap[h]; d == c.(brief := d.brief)
  {
    hide React, PlanFor, Blank, DoAnswer;
    if move.Answer? && move.r < |s.repliers| { OtherAnswer(s, move.r, move.turn, move.speak, h); }
  }

  lemma {:induction false} GivenStep(response: Response, rest: seq<Response>)
    ensures Sent([response] + rest) == if response.SendBody? then [response.body] + Sent(rest) else Sent(rest)
    ensures Waits([response] + rest) == (if response.WaitSeconds? then 1 else 0) + Waits(rest)
  {
    assert ([response] + rest)[1..] == rest;
  }

  /** An ended conversation answers nothing but that it has ended. */
  lemma {:induction false} EndedGivesNothing(s: State, moves: seq<Move>, h: nat)
    requires h < |s.heap| && s.heap[h].status.Ended?
    ensures Sent(Given(s, moves, h)) == [] && Waits(Given(s, moves, h)) == 0
    ensures h < |Play(s, moves).heap| && Play(s, moves).heap[h].status.Ended?
    decreases |moves|
  {
    hide Next, Normal, ClassifyKind, Blank;
    if moves != [] {
      var v, rest := Next(s, moves[0]), moves[1..];
      if Answers(s, moves[0], h) {
        AnsweredConv(s, moves[0], h);
        GivenStep(React(s.heap[h], moves[0].turn, moves[0].speak).response, Given(v, rest, h));
      } else {
        OthersLeave(s, moves[0], h);
        assert [] + Given(v, rest, h) == Given(v, rest, h);
      }
      EndedGivesNothing(v, rest, h);
    }
  }

  /** What is left to happen once the text was heard: at most one wait, then the end. */
  predicate Settled(s: State, v: State, h: nat, given: seq<Response>)
    requires h < |s.heap|
  {
    && Sent(given) == [] && s.heap[h].autoReplyHits + Waits(given) <= 1
    && h < |v.heap| && (|given| >= 2 || (|given| == 1 && s.heap[h].autoReplyHits == 1) ==> v.heap[h].status.Ended?)
  }

  /** Repeats of what the conversation heard last are never answered, whatever happens in between;
      the second one at the latest ends it. */
  lemma {:induction false} RepeatsEndIt(s: State, moves: seq<Move>, h: nat, text: string)
    requires h < |s.heap| && Conserved(s.heap[h]) && JustHeard(s.heap[h], text) && AllSayTo(s, moves, h, text)
    ensures Settled(s, Play(s, moves), h, Given(s, moves, h))
    decreases |moves|
  {
    hide Next, React, Normal, Answers;
    if moves != [] {
      var v, rest := Next(s, moves[0]), moves[1..];
      if s.heap[h].status.Ended? {
        EndedGivesNothing(s, moves, h);
      } else if Answers(s, moves[0], h) {
        RepeatThenRest(s, moves, h, text);
      } else {
        OthersLeave(s, moves[0], h);
        RepeatsEndIt(v, rest, h, text);
        assert [] + Given(v, rest, h) == Given(v, rest, h);
      }
    }
  }

  lemma {:induction false} RepeatThenRest(s: State, moves: seq<Move>, h: nat, text: string)
    requires h < |s.heap| && Conserved(s.heap[h]) && JustHeard(s.heap[h], text) && AllSayTo(s, moves, h, text)
    requires moves != [] && !s.heap[h].status.Ended? && Answers(s, moves[0], h)
    ensures Settled(s, Play(s, moves), h, Given(s, moves, h))
    decreases |moves|, 0
  {
    hide Next, React, Normal;
    var v, rest := Next(s, moves[0]), moves[1..];
    var c, turn, speak := s.heap[h], moves[0].turn, moves[0].speak;
    RepeatReaction(c, turn, speak);
    ReactConserves(c, turn, speak);
    AnsweredConv(s, moves[0], h);
    RepeatsEndIt(v, rest, h, text);
    GivenStep(React(c, turn, speak).response, Given(v, rest, h));
    if v.heap[h].status.Ended? { EndedGivesNothing(v, rest, h); }
  }

  /** Replies that say the same thing and race for a conversation, among any other moves of any
      other threads, a late brief included: at most the first is answered, at most one is waited
      out, and three of them end the conversation. */
  lemma {:induction false} RacingAnswers(s: State, moves: seq<Move>, h: nat, text: string)
    requires h < |s.heap| && Conserved(s.heap[h]) && AllSayTo(s, moves, h, text)
    ensures var given := Given(s, moves, h);
      && |Sent(given)| <= 1 && Waits(given) <= 1 && (|Sent(given)| == 1 ==> given[0].SendBody?)
      && h < |Play(s, moves).heap| && (|given| >= 3 ==> Play(s, moves).heap[h].status.Ended?)
    decreases |moves|
  {
    hide Next, React, Normal, Answers;
    if moves != [] {
      var v, rest := Next(s, moves[0]), moves[1..];
      if s.heap[h].status.Ended? {
        EndedGivesNothing(s, moves, h);
      } else if Answers(s, moves[0], h) {
        FirstThenRest(s, moves, h, text);
      } else {
        OthersLeave(s, moves[0], h);
        RacingAnswers(v, rest, h, text);
        assert [] + Given(v, rest, h) == Given(v, rest, h);
      }
    }
  }

  lemma {:induction false} FirstThenRest(s: State, moves: seq<Move>, h: nat, text: string)
    requires h < |s.heap| && Conserved(s.heap[h]) && AllSayTo(s, moves, h, text)
    requires moves != [] && !s.heap[h].status.Ended? && Answers(s, moves[0], h)
    ensures var given := Given(s, moves, h);
      && |Sent(given)| <= 1 && Waits(given) <= 1 && (|Sent(given)| == 1 ==> given[0].SendBody?)
      && h < |Play(s, moves).heap| && (|given| >= 3 ==> Play(s, moves).heap[h].status.Ended?)
  {
    hide Next, React, Normal;
    var v, rest := Next(s, moves[0]), moves[1..];
    var c, turn, speak := s.heap[h], moves[0].turn, moves[0].speak;
    ReactConserves(c, turn, speak);
    ReactFrame(c, turn, speak);
    ReactWaits(c, turn, speak);
    AnsweredConv(s, moves[0], h);
    RepeatsEndIt(v, rest, h, text);
    GivenStep(React(c, turn, speak).response, Given(v, rest, h));
  }
}
