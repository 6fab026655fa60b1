/** Every interleaving: conversations stay conserved, and every body that leaves the system was
    accepted for the brief it belongs to. */
module SpokenBodies {
  import opened Text
  import opened Brief
  import opened Generators
  import opened Conversations
  import opened Endpoints
  import opened Interleavings
  import opened Ownership

  predicate HeapConserved(s: State) { forall c | c in s.heap :: Conserved(c) }

  lemma {:induction false} HeapWith(heap: seq<Conv>, i: nat, c: Conv)
    requires i < |heap| && Conserved(c) && forall d | d in heap :: Conserved(d)
    ensures forall d | d in heap[i := c] :: Conserved(d)
  {
    hide Conserved;
  }

  /** Whatever the threads do, every conversation is conserved, those that lost their reservation
      included. */
  lemma {:induction false} NextConserves(s: State, move: Move)
    requires HeapConserved(s)
    ensures HeapConserved(Next(s, move))
  {
    hide React, PlanFor, Blank, Conserved, DoReadKey, DoCheck, DoCommit, DoAnswer, DoSettle, DoReserve;
    match move {
      case Start =>
      case ReadKey(t, situation) => if t < |s.tickers| { QuietHeap(s, t, situation); }
      case Check(t, view) => if t < |s.tickers| { CheckHeap(s, t, view); }
      case Reserve(t) => if t < |s.tickers| { ReserveConserves(s, t); }
      case Settle(t, speak) => if t < |s.tickers| { SettleConserves(s, t, speak); }
      case Commit(t) => if t < |s.tickers| { CommitHeap(s, t); }
      case LookUp(convId) =>
      case Answer(r, turn, speak) => if r < |s.repliers| { AnswerConserves(s, r, turn, speak); }
    }
  }

  lemma {:induction false} QuietHeap(s: State, t: nat, situation: Situation)
    requires t < |s.tickers|
    ensures DoReadKey(s, t, situation).heap == s.heap
  {}

  lemma {:induction false} CheckHeap(s: State, t: nat, view: View)
    requires t < |s.tickers|
    ensures DoCheck(s, t, view).heap == s.heap
  {
    hide PlanFor;
  }

  lemma {:induction false} CommitHeap(s: State, t: nat)
    requires t < |s.tickers|
    ensures DoCommit(s, t).heap == s.heap
  {}

  lemma {:induction false} ReserveConserves(s: State, t: nat)
    requires HeapConserved(s) && t < |s.tickers|
    ensures HeapConserved(DoReserve(s, t))
  {
    var p := s.tickers[t].phase;
    if p.Decided? { FreshConserved(p.plan.merchantId, p.plan.customerId, p.plan.triggerId); }
  }

  lemma {:induction false} SettleConserves(s: State, t: nat, speak: Speaker)
    requires HeapConserved(s) && t < |s.tickers|
    ensures HeapConserved(DoSettle(s, t, speak))
  {
    hide Blank;
    var p := s.tickers[t].phase;
    if p.Reserved? && p.plan.convId in s.index && s.index[p.plan.convId] < |s.heap| {
      var c := s.heap[s.index[p.plan.convId]];
      assert c in s.heap;
      HeapWith(s.heap, s.index[p.plan.convId], c.(brief := Some(p.plan.brief)));
    }
  }

  lemma {:induction false} AnswerConserves(s: State, r: nat, turn: Turn, speak: Speaker)
    requires HeapConserved(s) && r < |s.repliers|
    ensures HeapConserved(DoAnswer(s, r, turn, speak))
  {
    hide React, Conserved;
    var held := s.repliers[r];
    if held.Some? && held.value < |s.heap| {
      ReactConserves(s.heap[held.value], turn, speak);
      HeapWith(s.heap, held.value, React(s.heap[held.value], turn, speak).conv);
    }
  }

  lemma {:induction false} PlayConserves(s: State, moves: seq<Move>)
    requires HeapConserved(s)
    ensures HeapConserved(Play(s, moves))
    decreases |moves|
  {
    hide HeapConserved, Next;
    if moves != [] {
      NextConserves(s, moves[0]);
      PlayConserves(Next(s, moves[0]), moves[1..]);
    }
  }

  // ---- accepted bodies -------------------------------------------------------------------------

  /** What is accepted as a message for a brief. */
  type Standard = (string, Brief) -> bool

  /** A speaker that says nothing rather than something that is not accepted. */
  ghost predicate Sound(speak: Speaker, ok: Standard) { forall b :: Blank(speak(b)) || ok(speak(b), b) }

  ghost predicate SoundMove(move: Move, ok: Standard) {
    match move
    case Settle(_, speak) => Sound(speak, ok)
    case Answer(_, _, speak) => Sound(speak, ok)
    case _ => true
  }

  /** Every reply body of a conversation was accepted for a reply from the conversation's brief. */
  ghost predicate RepliesAccepted(c: Conv, ok: Standard) {
    if c.brief == None then c.sentBodies == {}
    else forall b | b in c.sentBodies :: exists intent :: ok(b, ForReply(c.brief.value, intent))
  }

  ghost predicate HeapAccepted(s: State, ok: Standard) { forall i | 0 <= i < |s.heap| :: RepliesAccepted(s.heap[i], ok) }

  predicate BriefAt(s: State, obj: nat, brief: Option<Brief>) { obj < |s.heap| && s.heap[obj].brief == brief }

  /** The claimed conversation has no brief until it is attached; then it has the plan's. */
  ghost predicate OwnerBriefed(s: State, p: Phase, ok: Standard) {
    match p
    case Reserved(_, _, _, obj) => BriefAt(s, obj, None)
    case Attached(plan, _, _, obj, body) => BriefAt(s, obj, Some(plan.brief)) && !Blank(body) && ok(body, plan.brief)
    case _ => true
  }

  /** An emitted body was accepted for its brief, and the conversation it opened has that brief. */
  ghost predicate EntryBriefed(s: State, e: Entry, ok: Standard) {
    && !Blank(e.body) && ok(e.body, e.plan.brief)
    && e.plan.convId in s.index && BriefAt(s, s.index[e.plan.convId], Some(e.plan.brief))
  }

  ghost predicate OwnersBriefed(s: State, ok: Standard) {
    forall t | 0 <= t < |s.tickers| :: OwnerBriefed(s, s.tickers[t].phase, ok)
  }

  ghost predicate LogBriefed(s: State, ok: Standard) { forall e | e in s.log :: EntryBriefed(s, e, ok) }

  ghost predicate Accepted(s: State, ok: Standard) { HeapAccepted(s, ok) && OwnersBriefed(s, ok) && LogBriefed(s, ok) }

  lemma {:induction false} PhaseKeepsAccepted(s: State, t: nat, phase: Phase, ok: Standard)
    requires Accepted(s, ok) && t < |s.tickers| && !Owns(phase)
    ensures Accepted(At(s, t, phase), ok)
  {
    var r := At(s, t, phase);
    forall e | e in r.log ensures EntryBriefed(r, e, ok) { assert EntryBriefed(s, e, ok); }
    forall u | 0 <= u < |r.tickers| ensures OwnerBriefed(r, r.tickers[u].phase, ok) {
      assert OwnerBriefed(s, s.tickers[u].phase, ok);
    }
  }

  lemma {:induction false} ReserveKeepsAccepted(s: State, t: nat, ok: Standard)
    requires Ids(s) && Accepted(s, ok) && t < |s.tickers|
    ensures Accepted(DoReserve(s, t), ok)
  {
    var p := s.tickers[t].phase;
    if p.Decided? && p.plan.convId in s.index {
      PhaseKeepsAccepted(s, t, Idle, ok);
    } else if p.Decided? {
      var r := DoReserve(s, t);
      forall e | e in r.log ensures EntryBriefed(r, e, ok) { assert EntryBriefed(s, e, ok); }
      forall u | 0 <= u < |r.tickers| ensures OwnerBriefed(r, r.tickers[u].phase, ok) {
        assert OwnerBriefed(s, s.tickers[u].phase, ok);
      }
    }
  }

  lemma {:induction false} ReleaseKeepsAccepted(s: State, t: nat, ok: Standard)
    requires Ids(s) && Accepted(s, ok) && t < |s.tickers| && s.tickers[t].phase.Reserved?
    ensures Accepted(At(s, t, Idle).(index := s.index - {s.tickers[t].phase.plan.convId}), ok)
  {
    var r := At(s, t, Idle).(index := s.index - {s.tickers[t].phase.plan.convId});
    assert OwnerAlone(s, t);
    forall e | e in r.log ensures EntryBriefed(r, e, ok) { assert EntryBriefed(s, e, ok); }
    forall u | 0 <= u < |r.tickers| ensures OwnerBriefed(r, r.tickers[u].phase, ok) {
      assert OwnerBriefed(s, s.tickers[u].phase, ok);
    }
  }

  /** The state after a claimed conversation got its brief. */
  function AttachedTo(s: State, t: nat, body: string): State
    requires t < |s.tickers| && s.tickers[t].phase.Reserved?
  {
    var p := s.tickers[t].phase;
    At(s, t, Attached(p.plan, p.readAt, p.checkedAt, p.obj, body)).(heap := WithBrief(s, p.plan.convId, p.plan.brief))
  }

  lemma {:induction false} AttachKeepsAccepted(s: State, t: nat, body: string, ok: Standard)
    requires Ids(s) && Accepted(s, ok) && t < |s.tickers| && s.tickers[t].phase.Reserved?
    requires !Blank(body) && ok(body, s.tickers[t].phase.plan.brief)
    ensures Accepted(AttachedTo(s, t, body), ok)
  {
    hide Blank;
    var r := AttachedTo(s, t, body);
    var p := s.tickers[t].phase;
    assert OwnerAlone(s, t) && OwnerBriefed(s, p, ok);
    assert RepliesAccepted(s.heap[p.obj], ok);
    forall i | 0 <= i < |r.heap| ensures RepliesAccepted(r.heap[i], ok) { assert RepliesAccepted(s.heap[i], ok); }
    forall e | e in r.log ensures EntryBriefed(r, e, ok) { assert EntryBriefed(s, e, ok); }
    forall u | 0 <= u < |r.tickers| ensures OwnerBriefed(r, r.tickers[u].phase, ok) {
      assert OwnerAlone(s, u) && OwnerBriefed(s, s.tickers[u].phase, ok);
    }
  }

  lemma {:induction false} SettleKeepsAccepted(s: State, t: nat, speak: Speaker, ok: Standard)
    requires Ids(s) && Accepted(s, ok) && t < |s.tickers| && Sound(speak, ok)
    ensures Accepted(DoSettle(s, t, speak), ok)
  {
    hide Blank, Ids, Accepted;
    var p := s.tickers[t].phase;
    if p.Reserved? {
      if Blank(speak(p.plan.brief)) {
        ReleaseKeepsAccepted(s, t, ok);
      } else {
        AttachKeepsAccepted(s, t, speak(p.plan.brief), ok);
      }
    }
  }

  lemma {:induction false} CommitKeepsAccepted(s: State, t: nat, ok: Standard)
    requires Ids(s) && Accepted(s, ok) && t < |s.tickers|
    ensures Accepted(DoCommit(s, t), ok)
  {
    hide Blank;
    var r := DoCommit(s, t);
    assert OwnerAlone(s, t) && OwnerBriefed(s, s.tickers[t].phase, ok);
    forall e | e in r.log ensures EntryBriefed(r, e, ok) {
      if e in s.log { assert EntryBriefed(s, e, ok); }
    }
    forall u | 0 <= u < |r.tickers| ensures OwnerBriefed(r, r.tickers[u].phase, ok) {
      assert OwnerBriefed(s, s.tickers[u].phase, ok);
    }
  }

  lemma {:induction false} ReactAccepted(c: Conv, turn: Turn, speak: Speaker, ok: Standard)
    requires RepliesAccepted(c, ok) && Sound(speak, ok)
    ensures RepliesAccepted(React(c, turn, speak).conv, ok) && React(c, turn, speak).conv.brief == c.brief
  {
    hide React, Blank;
    SentIsSpoken(c, turn, speak);
    ReactFrame(c, turn, speak);
  }

  lemma {:induction false} AnswerKeepsAccepted(s: State, r: nat, turn: Turn, speak: Speaker, ok: Standard)
    requires Accepted(s, ok) && r < |s.repliers| && Sound(speak, ok)
    ensures Accepted(DoAnswer(s, r, turn, speak), ok)
  {
    hide React, RepliesAccepted, Sound, Blank;
    var v := DoAnswer(s, r, turn, speak);
    var held := s.repliers[r];
    if held.Some? && held.value < |s.heap| {
      ReactAccepted(s.heap[held.value], turn, speak, ok);
      forall i | 0 <= i < |v.heap| ensures RepliesAccepted(v.heap[i], ok) { assert RepliesAccepted(s.heap[i], ok); }
      forall e | e in v.log ensures EntryBriefed(v, e, ok) { assert EntryBriefed(s, e, ok); }
      forall u | 0 <= u < |v.tickers| ensures OwnerBriefed(v, v.tickers[u].phase, ok) {
        assert OwnerBriefed(s, s.tickers[u].phase, ok);
      }
    }
  }

  lemma {:induction false} OthersKeepAccepted(s: State, tickers: seq<Ticker>, repliers: seq<Option<nat>>, clock: nat, ok: Standard)
    requires Accepted(s, ok) && (tickers == s.tickers || tickers == s.tickers + [Ticker(Idle, 0)])
    ensures Accepted(s.(tickers := tickers, repliers := repliers, clock := clock), ok)
  {
    var r := s.(tickers := tickers, repliers := repliers, clock := clock);
    forall e | e in r.log ensures EntryBriefed(r, e, ok) { assert EntryBriefed(s, e, ok); }
    forall u | 0 <= u < |r.tickers| ensures OwnerBriefed(r, r.tickers[u].phase, ok) {
      if u < |s.tickers| { assert OwnerBriefed(s, s.tickers[u].phase, ok); }
    }
  }

  lemma {:induction false} ReadKeyKeepsAccepted(s: State, t: nat, situation: Situation, ok: Standard)
    requires Accepted(s, ok) && t < |s.tickers|
    ensures Accepted(DoReadKey(s, t, situation), ok)
  {
    hide Accepted;
    if s.tickers[t].phase.Idle? { PhaseKeepsAccepted(s, t, DoReadKey(s, t, situation).tickers[t].phase, ok); }
  }

  lemma {:induction false} CheckKeepsAccepted(s: State, t: nat, view: View, ok: Standard)
    requires Accepted(s, ok) && t < |s.tickers|
    ensures Accepted(DoCheck(s, t, view), ok)
  {
    hide Accepted, PlanFor;
    if s.tickers[t].phase.KeyRead? { PhaseKeepsAccepted(s, t, DoCheck(s, t, view).tickers[t].phase, ok); }
  }

  lemma {:induction false} NextKeepsAccepted(s: State, move: Move, ok: Standard)
    requires Ids(s) && Accepted(s, ok) && SoundMove(move, ok)
    ensures Accepted(Next(s, move), ok)
  {
    hide Ids, Accepted, Sound, DoReadKey, DoCheck, DoReserve, DoSettle, DoCommit, DoAnswer;
    match move {
      case Start => OthersKeepAccepted(s, s.tickers + [Ticker(Idle, 0)], s.repliers, s.clock, ok);
      case ReadKey(t, situation) => if t < |s.tickers| { ReadKeyKeepsAccepted(s, t, situation, ok); }
      case Check(t, view) => if t < |s.tickers| { CheckKeepsAccepted(s, t, view, ok); }
      case Reserve(t) => if t < |s.tickers| { ReserveKeepsAccepted(s, t, ok); }
      case Settle(t, speak) => if t < |s.tickers| { SettleKeepsAccepted(s, t, speak, ok); }
      case Commit(t) => if t < |s.tickers| { CommitKeepsAccepted(s, t, ok); }
      case LookUp(convId) => OthersKeepAccepted(s, s.tickers, Effect(s, move).repliers, s.clock, ok);
      case Answer(r, turn, speak) => if r < |s.repliers| { AnswerKeepsAccepted(s, r, turn, speak, ok); }
    }
    var e := Effect(s, move);
    OthersKeepAccepted(e, e.tickers, e.repliers, e.clock + 1, ok);
  }

  lemma {:induction false} PlayKeepsAccepted(s: State, moves: seq<Move>, ok: Standard)
    requires Ids(s) && Accepted(s, ok) && forall m | m in moves :: SoundMove(m, ok)
    ensures Accepted(Play(s, moves), ok)
    decreases |moves|
  {
    hide Ids, Accepted, Next, SoundMove;
    if moves != [] {
      assert moves[0] in moves;
      NextKeepsAccepted(s, moves[0], ok);
      NextKeepsIds(s, moves[0]);
      forall m | m in moves[1..] ensures SoundMove(m, ok) { assert m in moves; }
      PlayKeepsAccepted(Next(s, moves[0]), moves[1..], ok);
    }
  }

  /** Whatever the composers do and however the threads interleave, every action and every reply
      that leaves the system was accepted for its own brief, and a conversation that was opened
      has the brief its opening was made from. */
  lemma {:induction false} EverythingAccepted(moves: seq<Move>, ok: Standard)
    requires forall m | m in moves :: SoundMove(m, ok)
    ensures var s := Play(INITIAL, moves);
      && HeapConserved(s)
      && (forall e | e in s.log :: EntryBriefed(s, e, ok))
      && (forall c | c in s.heap :: RepliesAccepted(c, ok))
  {
    hide Play, SoundMove, EntryBriefed, RepliesAccepted, Conserved;
    InitialIds();
    PlayConserves(INITIAL, moves);
    PlayKeepsAccepted(INITIAL, moves, ok);
  }
}
