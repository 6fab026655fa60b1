/** Every interleaving: a conversation id has one owner at a time and is emitted at most once. */
module Ownership {
  import opened Text
  import opened Generators
  import opened Conversations
  import opened Endpoints
  import opened Interleavings

  predicate Owns(p: Phase) { p.Reserved? || p.Attached? }

  /** The index names each conversation once. */
  predicate Indexed(s: State) {
    && (forall id | id in s.index :: s.index[id] < |s.heap|)
    && (forall a, b | a in s.index && b in s.index && a != b :: s.index[a] != s.index[b])
  }

  /** What a thread that claimed an id relies on until it lets go of it: the conversation it
      created is the one the store knows, nobody else claimed it, and nobody emitted it. */
  predicate OwnerAlone(s: State, t: nat)
    requires t < |s.tickers|
  {
    var p := s.tickers[t].phase;
    Owns(p) ==>
      && p.plan.convId in s.index && s.index[p.plan.convId] == p.obj
      && (forall u | 0 <= u < |s.tickers| && u != t && Owns(s.tickers[u].phase) ::
             s.tickers[u].phase.plan.convId != p.plan.convId)
      && (forall e | e in s.log :: e.plan.convId != p.plan.convId)
  }

  predicate Owners(s: State) { forall t | 0 <= t < |s.tickers| :: OwnerAlone(s, t) }

  /** Emitted ids are pairwise distinct and stay in the store. */
  predicate EmittedOnce(s: State) {
    && (forall e | e in s.log :: e.plan.convId in s.index)
    && (forall i, j | 0 <= i < j < |s.log| :: s.log[i].plan.convId != s.log[j].plan.convId)
  }

  predicate Ids(s: State) { Indexed(s) && Owners(s) && EmittedOnce(s) }

  /** A thread that takes no claim and gives none up disturbs nobody. */
  lemma {:induction false} PhaseKeepsIds(s: State, t: nat, phase: Phase)
    requires Ids(s) && t < |s.tickers| && !Owns(phase) && !Owns(s.tickers[t].phase)
    ensures Ids(At(s, t, phase))
  {
    var r := At(s, t, phase);
    forall u | 0 <= u < |r.tickers| ensures OwnerAlone(r, u) { assert OwnerAlone(s, u); }
  }

  lemma {:induction false} ReadKeyKeepsIds(s: State, t: nat, situation: Situation)
    requires Ids(s) && t < |s.tickers|
    ensures Ids(DoReadKey(s, t, situation))
  {
    if s.tickers[t].phase.Idle? { PhaseKeepsIds(s, t, DoReadKey(s, t, situation).tickers[t].phase); }
  }

  lemma {:induction false} CheckKeepsIds(s: State, t: nat, view: View)
    requires Ids(s) && t < |s.tickers|
    ensures Ids(DoCheck(s, t, view))
  {
    hide PlanFor, Ids;
    if s.tickers[t].phase.KeyRead? { PhaseKeepsIds(s, t, DoCheck(s, t, view).tickers[t].phase); }
  }

  lemma {:induction false} ReserveKeepsIds(s: State, t: nat)
    requires Ids(s) && t < |s.tickers|
    ensures Ids(DoReserve(s, t))
  {
    var p := s.tickers[t].phase;
    if p.Decided? && p.plan.convId in s.index {
      PhaseKeepsIds(s, t, Idle);
    } else if p.Decided? {
      var r := DoReserve(s, t);
      forall u | 0 <= u < |s.tickers| && Owns(s.tickers[u].phase) ensures s.tickers[u].phase.plan.convId in s.index {
        assert OwnerAlone(s, u);
      }
      forall u | 0 <= u < |r.tickers| ensures OwnerAlone(r, u) { assert OwnerAlone(s, u); }
    }
  }

  lemma {:induction false} SettleKeepsIds(s: State, t: nat, speak: Speaker)
    requires Ids(s) && t < |s.tickers|
    ensures Ids(DoSettle(s, t, speak))
  {
    hide Blank;
    var r := DoSettle(s, t, speak);
    assert OwnerAlone(s, t);
    forall u | 0 <= u < |r.tickers| ensures OwnerAlone(r, u) { assert OwnerAlone(s, u); }
  }

  lemma {:induction false} CommitKeepsIds(s: State, t: nat)
    requires Ids(s) && t < |s.tickers|
    ensures Ids(DoCommit(s, t))
  {
    var r := DoCommit(s, t);
    assert OwnerAlone(s, t);
    forall u | 0 <= u < |r.tickers| ensures OwnerAlone(r, u) { assert OwnerAlone(s, u); }
  }

  lemma {:induction false} AnswerKeepsIds(s: State, r: nat, turn: Turn, speak: Speaker)
    requires Ids(s) && r < |s.repliers|
    ensures Ids(DoAnswer(s, r, turn, speak))
  {
    hide React;
    var v := DoAnswer(s, r, turn, speak);
    forall u | 0 <= u < |v.tickers| ensures OwnerAlone(v, u) { assert OwnerAlone(s, u); }
  }

  lemma {:induction false} StartKeepsIds(s: State)
    requires Ids(s)
    ensures Ids(Effect(s, Start))
  {
    hide DoReadKey, DoCheck, DoReserve, DoSettle, DoCommit, DoAnswer;
    var r := Effect(s, Start);
    forall u | 0 <= u < |r.tickers| ensures OwnerAlone(r, u) {
      if u < |s.tickers| { assert OwnerAlone(s, u); }
    }
  }

  lemma {:induction false} ClockKeepsIds(s: State, repliers: seq<Option<nat>>, clock: nat)
    requires Ids(s)
    ensures Ids(s.(repliers := repliers, clock := clock))
  {
    var r := s.(repliers := repliers, clock := clock);
    forall u | 0 <= u < |r.tickers| ensures OwnerAlone(r, u) { assert OwnerAlone(s, u); }
  }

  lemma {:induction false} NextKeepsIds(s: State, move: Move)
    requires Ids(s)
    ensures Ids(Next(s, move))
  {
    hide Ids, DoReadKey, DoCheck, DoReserve, DoSettle, DoCommit, DoAnswer;
    match move {
      case Start => StartKeepsIds(s);
      case ReadKey(t, situation) => if t < |s.tickers| { ReadKeyKeepsIds(s, t, situation); }
      case Check(t, view) => if t < |s.tickers| { CheckKeepsIds(s, t, view); }
      case Reserve(t) => if t < |s.tickers| { ReserveKeepsIds(s, t); }
      case Settle(t, speak) => if t < |s.tickers| { SettleKeepsIds(s, t, speak); }
      case Commit(t) => if t < |s.tickers| { CommitKeepsIds(s, t); }
      case LookUp(convId) => ClockKeepsIds(s, Effect(s, move).repliers, s.clock);
      case Answer(r, turn, speak) => if r < |s.repliers| { AnswerKeepsIds(s, r, turn, speak); }
    }
    var e := Effect(s, move);
    ClockKeepsIds(e, e.repliers, e.clock + 1);
  }

  /** In every interleaving of any number of ticks and replies, all emitted actions have different
      conversation ids; each id has at most one thread that claims it, and none that is emitted. */
  lemma {:induction false} RunKeepsIds(s: State, moves: seq<Move>)
    requires Ids(s)
    ensures Ids(Play(s, moves))
    decreases |moves|
  {
    hide Ids, Next;
    if moves != [] {
      NextKeepsIds(s, moves[0]);
      RunKeepsIds(Next(s, moves[0]), moves[1..]);
    }
  }

  lemma {:induction false} EveryIdOnce(moves: seq<Move>)
    ensures var s := Play(INITIAL, moves);
      && (forall i, j | 0 <= i < j < |s.log| :: s.log[i].plan.convId != s.log[j].plan.convId)
      && (forall t | 0 <= t < |s.tickers| :: OwnerAlone(s, t))
  {
    hide Play, OwnerAlone;
    InitialIds();
    RunKeepsIds(INITIAL, moves);
  }

  lemma {:induction false} InitialIds()
    ensures Ids(INITIAL)
  {}
}
