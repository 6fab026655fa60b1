/** Every interleaving: when keys and opt-outs were read, when they took effect, and how many
    actions a tick emits. */
module Windows {
  import opened Text
  import opened Generators
  import opened Conversations
  import opened Endpoints
  import opened Interleavings

  /** What an item under way is based on: when its key was read as unused, when its
      merchant was read as not opted out, and for which merchant and key. */
  datatype Basis = Basis(merchantId: string, rawKey: string, readAt: nat, checkedAt: Option<nat>)

  function BasisOf(p: Phase): Option<Basis> {
    match p
    case Idle => None
    case KeyRead(s, keyUsed, readAt) => if keyUsed then None else Some(Basis(s.merchant.id, s.trigger.suppressionKey, readAt, None))
    case Decided(plan, readAt, checkedAt) => Some(Basis(plan.merchantId, plan.rawKey, readAt, Some(checkedAt)))
    case Reserved(plan, readAt, checkedAt, _) => Some(Basis(plan.merchantId, plan.rawKey, readAt, Some(checkedAt)))
    case Attached(plan, readAt, checkedAt, _, _) => Some(Basis(plan.merchantId, plan.rawKey, readAt, Some(checkedAt)))
  }

  predicate SameKey(e: Entry, merchantId: string, rawKey: string) {
    rawKey != "" && e.plan.merchantId == merchantId && e.plan.rawKey == rawKey
  }

  /** No opt-out of the merchant was in effect at that time. */
  predicate BeforeOptOut(optOuts: map<string, nat>, merchantId: string, at: nat) {
    merchantId in optOuts ==> at < optOuts[merchantId]
  }

  predicate BasisFits(s: State, r: Basis) {
    && r.readAt < s.clock
    && (forall e | e in s.log && SameKey(e, r.merchantId, r.rawKey) :: r.readAt < e.markedAt)
    && (r.checkedAt.Some? ==>
          r.readAt < r.checkedAt.value < s.clock && BeforeOptOut(s.optOuts, r.merchantId, r.checkedAt.value))
  }

  predicate BasesFit(s: State) {
    forall t | 0 <= t < |s.tickers| :: BasisOf(s.tickers[t].phase).Some? ==> BasisFits(s, BasisOf(s.tickers[t].phase).value)
  }

  predicate EntryFits(s: State, e: Entry) {
    e.readAt < e.checkedAt < e.markedAt < s.clock && BeforeOptOut(s.optOuts, e.plan.merchantId, e.checkedAt)
  }

  /** Each of two actions for one key was decided on before the other's mark. */
  predicate Overlap(d: Entry, e: Entry) {
    SameKey(e, d.plan.merchantId, d.plan.rawKey) ==> d.readAt < e.markedAt && e.readAt < d.markedAt
  }

  predicate Timed(s: State) {
    && BasesFit(s)
    && (forall e | e in s.log :: EntryFits(s, e))
    && (forall i, j | 0 <= i < j < |s.log| :: Overlap(s.log[i], s.log[j]))
    && (forall m | m in s.optOuts :: s.optOuts[m] < s.clock)
  }

  lemma {:induction false} TockKeepsTimed(s: State)
    requires Timed(s)
    ensures Timed(Tock(s))
  {
    hide SameKey, BeforeOptOut;
    var r := Tock(s);
    forall e | e in r.log ensures EntryFits(r, e) { assert EntryFits(s, e); }
  }

  /** A thread may go on with the basis it has, or with a fitting one. */
  lemma {:induction false} PhaseKeepsTimed(s: State, t: nat, phase: Phase)
    requires Timed(s) && t < |s.tickers|
    requires var r := BasisOf(phase); r == None || r == BasisOf(s.tickers[t].phase) || BasisFits(Tock(s), r.value)
    ensures Timed(Tock(At(s, t, phase)))
  {
    hide SameKey, BeforeOptOut;
    TockKeepsTimed(s);
    var r := Tock(At(s, t, phase));
    forall e | e in r.log ensures EntryFits(r, e) { assert EntryFits(Tock(s), e); }
    forall u | 0 <= u < |r.tickers| && BasisOf(r.tickers[u].phase).Some?
      ensures BasisFits(r, BasisOf(r.tickers[u].phase).value)
    {
      if u != t { assert BasisOf(Tock(s).tickers[u].phase).Some?; }
      SameBasis(Tock(s), r, BasisOf(r.tickers[u].phase).value);
    }
  }

  lemma {:induction false} SameBasis(s: State, v: State, r: Basis)
    requires s.log == v.log && s.clock == v.clock && s.optOuts == v.optOuts
    ensures BasisFits(s, r) <==> BasisFits(v, r)
  {}

  lemma {:induction false} ReadKeyKeepsTimed(s: State, t: nat, situation: Situation)
    requires Timed(s) && t < |s.tickers|
    ensures Timed(Tock(DoReadKey(s, t, situation)))
  {
    TockKeepsTimed(s);
    if s.tickers[t].phase.Idle? {
      PhaseKeepsTimed(s, t, DoReadKey(s, t, situation).tickers[t].phase);
    }
  }

  /** A plan carries the merchant and the key that were read, and needs both to be unsuppressed. */
  lemma {:induction false} PlannedFor(s: Situation, suppressed: bool, view: View)
    ensures var plan := PlanFor(s, suppressed, view);
      plan.Some? ==> !suppressed && plan.value.merchantId == s.merchant.id && plan.value.rawKey == s.trigger.suppressionKey
  {
    hide Compiler.Best, Compiler.IsStale;
  }

  lemma {:induction false} CheckKeepsTimed(s: State, t: nat, view: View)
    requires Timed(s) && t < |s.tickers|
    ensures Timed(Tock(DoCheck(s, t, view)))
  {
    hide PlanFor;
    TockKeepsTimed(s);
    var p := s.tickers[t].phase;
    if p.KeyRead? {
      PlannedFor(p.situation, p.keyUsed || p.situation.merchant.id in s.optOuts, view);
      PhaseKeepsTimed(s, t, DoCheck(s, t, view).tickers[t].phase);
    }
  }

  /** Heap, index and repliers play no part. */
  lemma {:induction false} StoresKeepTimed(s: State, v: State)
    requires Timed(s) && v.log == s.log && v.optOuts == s.optOuts && v.tickers == s.tickers && v.clock == s.clock
    ensures Timed(v)
  {
    hide SameKey, BeforeOptOut;
    forall e | e in v.log ensures EntryFits(v, e) { assert EntryFits(s, e); }
    forall u | 0 <= u < |v.tickers| && BasisOf(v.tickers[u].phase).Some?
      ensures BasisFits(v, BasisOf(v.tickers[u].phase).value)
    {
      SameBasis(s, v, BasisOf(v.tickers[u].phase).value);
    }
  }

  lemma {:induction false} ReserveKeepsTimed(s: State, t: nat)
    requires Timed(s) && t < |s.tickers|
    ensures Timed(Tock(DoReserve(s, t)))
  {
    hide Timed;
    TockKeepsTimed(s);
    if s.tickers[t].phase.Decided? {
      var r := DoReserve(s, t);
      PhaseKeepsTimed(s, t, r.tickers[t].phase);
      StoresKeepTimed(Tock(At(s, t, r.tickers[t].phase)), Tock(r));
    }
  }

  lemma {:induction false} SettleKeepsTimed(s: State, t: nat, speak: Speaker)
    requires Timed(s) && t < |s.tickers|
    ensures Timed(Tock(DoSettle(s, t, speak)))
  {
    hide Timed, Blank;
    TockKeepsTimed(s);
    if s.tickers[t].phase.Reserved? {
      var r := DoSettle(s, t, speak);
      PhaseKeepsTimed(s, t, r.tickers[t].phase);
      StoresKeepTimed(Tock(At(s, t, r.tickers[t].phase)), Tock(r));
    }
  }

  /** The new entry's mark is later than every reading. */
  lemma {:induction false} CommitKeepsTimed(s: State, t: nat)
    requires Timed(s) && t < |s.tickers|
    ensures Timed(Tock(DoCommit(s, t)))
  {
    hide BeforeOptOut;
    TockKeepsTimed(s);
    if s.tickers[t].phase.Attached? {
      var r := Tock(DoCommit(s, t));
      var last := r.log[|s.log|];
      assert BasisFits(s, BasisOf(s.tickers[t].phase).value);
      forall e | e in r.log ensures EntryFits(r, e) {
        if e in s.log { assert EntryFits(s, e); }
      }
      forall i, j | 0 <= i < j < |r.log| ensures Overlap(r.log[i], r.log[j]) {
        if j == |s.log| { OverlapLast(s, t, s.log[i], last); } else { assert Overlap(s.log[i], s.log[j]); }
      }
      forall u | 0 <= u < |r.tickers| && BasisOf(r.tickers[u].phase).Some?
        ensures BasisFits(r, BasisOf(r.tickers[u].phase).value)
      {
        assert BasisFits(s, BasisOf(s.tickers[u].phase).value);
      }
    }
  }

  lemma {:induction false} OverlapLast(s: State, t: nat, e: Entry, last: Entry)
    requires t < |s.tickers| && s.tickers[t].phase.Attached? && e in s.log && EntryFits(s, e)
    requires BasisFits(s, BasisOf(s.tickers[t].phase).value)
    requires var p := s.tickers[t].phase; last.plan == p.plan && last.readAt == p.readAt && last.markedAt == s.clock
    ensures Overlap(e, last)
  {}

  lemma {:induction false} AnswerKeepsTimed(s: State, r: nat, turn: Turn, speak: Speaker)
    requires Timed(s) && r < |s.repliers|
    ensures Timed(Tock(DoAnswer(s, r, turn, speak)))
  {
    hide React, SameKey;
    TockKeepsTimed(s);
    var v := Tock(DoAnswer(s, r, turn, speak));
    forall e | e in v.log ensures EntryFits(v, e) { assert EntryFits(s, e); }
    forall u | 0 <= u < |v.tickers| && BasisOf(v.tickers[u].phase).Some?
      ensures BasisFits(v, BasisOf(v.tickers[u].phase).value)
    {
      assert BasisFits(s, BasisOf(s.tickers[u].phase).value);
    }
  }

  lemma {:induction false} StartKeepsTimed(s: State)
    requires Timed(s)
    ensures Timed(Tock(s.(tickers := s.tickers + [Ticker(Idle, 0)])))
  {
    hide BeforeOptOut, SameKey;
    TockKeepsTimed(s);
    var v := Tock(s.(tickers := s.tickers + [Ticker(Idle, 0)]));
    forall e | e in v.log ensures EntryFits(v, e) { assert EntryFits(Tock(s), e); }
    forall u | 0 <= u < |v.tickers| && BasisOf(v.tickers[u].phase).Some?
      ensures BasisFits(v, BasisOf(v.tickers[u].phase).value)
    {
      assert BasisFits(Tock(s), BasisOf(s.tickers[u].phase).value);
    }
  }

  lemma {:induction false} LookUpKeepsTimed(s: State, repliers: seq<Option<nat>>)
    requires Timed(s)
    ensures Timed(Tock(s.(repliers := repliers)))
  {
    hide Timed;
    TockKeepsTimed(s);
    StoresKeepTimed(Tock(s), Tock(s.(repliers := repliers)));
  }

  lemma {:induction false} NextKeepsTimed(s: State, move: Move)
    requires Timed(s)
    ensures Timed(Next(s, move))
  {
    hide Timed, DoReadKey, DoCheck, DoReserve, DoSettle, DoCommit, DoAnswer;
    TockKeepsTimed(s);
    match move {
      case Start => StartKeepsTimed(s);
      case ReadKey(t, situation) => if t < |s.tickers| { ReadKeyKeepsTimed(s, t, situation); }
      case Check(t, view) => if t < |s.tickers| { CheckKeepsTimed(s, t, view); }
      case Reserve(t) => if t < |s.tickers| { ReserveKeepsTimed(s, t); }
      case Settle(t, speak) => if t < |s.tickers| { SettleKeepsTimed(s, t, speak); }
      case Commit(t) => if t < |s.tickers| { CommitKeepsTimed(s, t); }
      case LookUp(convId) => LookUpKeepsTimed(s, Effect(s, move).repliers);
      case Answer(r, turn, speak) => if r < |s.repliers| { AnswerKeepsTimed(s, r, turn, speak); }
    }
  }

  lemma {:induction false} PlayKeepsTimed(s: State, moves: seq<Move>)
    requires Timed(s)
    ensures Timed(Play(s, moves))
    decreases |moves|
  {
    hide Timed, Next;
    if moves != [] {
      NextKeepsTimed(s, moves[0]);
      PlayKeepsTimed(Next(s, moves[0]), moves[1..]);
    }
  }

  /** In every interleaving two actions are emitted for one merchant and non-empty key only if
      each of them read the key before the other marked it; and no action is emitted by an item
      that read its merchant's opt-out after the merchant opted out. */
  lemma {:induction false} KeysAndOptOuts(moves: seq<Move>)
    ensures var s := Play(INITIAL, moves);
      && (forall i, j | 0 <= i < j < |s.log| :: Overlap(s.log[i], s.log[j]))
      && (forall e | e in s.log && e.plan.merchantId in s.optOuts :: e.checkedAt < s.optOuts[e.plan.merchantId])
  {
    hide Play, Overlap;
    assert Timed(INITIAL);
    PlayKeepsTimed(INITIAL, moves);
    var s := Play(INITIAL, moves);
    forall e | e in s.log && e.plan.merchantId in s.optOuts ensures e.checkedAt < s.optOuts[e.plan.merchantId] {
      assert EntryFits(s, e);
    }
  }
}
