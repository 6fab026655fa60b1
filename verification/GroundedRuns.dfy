/** The engine and the text pipeline together: what leaves the system over whole runs. */
module GroundedRuns {
  import opened Text
  import opened Brief
  import opened Firewall
  import opened Composer
  import opened Pipeline
  import opened CtaCuts
  import opened CleanFacts
  import opened Conversations
  import opened ConversationRuns
  import opened Interleavings
  import opened SpokenBodies

  /** What a composer call ends in, for every brief it might be given. */
  type ComposerCall = Brief -> Outcome

  /** The pipeline around that call. */
  function Voice(call: ComposerCall): Speaker { b => ComposeAndValidate(b, call(b)).message }

  /** The deterministic composer always ends in its template. */
  function TemplateCall(b: Brief): Outcome { Message(Compose(b)) }

  /** Passed the firewall for the brief, with every figure taken from the brief's facts. */
  function FirewallStandard(): Standard { (m, b) => Passes(m, b) && Grounded(m, b.facts) }

  lemma {:induction false} VoiceIsSound(call: ComposerCall)
    ensures Sound(Voice(call), FirewallStandard())
  {
    hide Passes, Grounded, Blank, ComposeAndValidate;
    forall b ensures Blank(Voice(call)(b)) || FirewallStandard()(Voice(call)(b), b) { Grounding(b, call(b)); }
  }

  /** A run in which everything that is said goes through the pipeline, with any composer call at
      any moment. */
  ghost predicate Piped(moves: seq<Move>) {
    forall m | m in moves ::
      && (m.Settle? ==> exists call :: m.speak == Voice(call))
      && (m.Answer? ==> exists call :: m.speak == Voice(call))
  }

  lemma {:induction false} PipedIsSound(moves: seq<Move>)
    requires Piped(moves)
    ensures forall m | m in moves :: SoundMove(m, FirewallStandard())
  {
    hide Sound, Voice;
    forall m | m in moves ensures SoundMove(m, FirewallStandard()) {
      if m.Settle? {
        var call :| m.speak == Voice(call);
        VoiceIsSound(call);
      } else if m.Answer? {
        var call :| m.speak == Voice(call);
        VoiceIsSound(call);
      }
    }
  }

  /** Whatever the composers return, raise or time out on, and however ticks and replies
      interleave: every action passed the firewall for its own brief, and so did every reply for
      a reply brief made from the conversation's; all their figures are figures of the facts. */
  lemma {:induction false} EverythingGrounded(moves: seq<Move>)
    requires Piped(moves)
    ensures var s := Play(INITIAL, moves);
      && (forall e | e in s.log :: Passes(e.body, e.plan.brief) && Grounded(e.body, e.plan.brief.facts))
      && (forall c, b | c in s.heap && b in c.sentBodies ::
            && c.brief.Some? && Grounded(b, c.brief.value.facts)
            && exists intent :: Passes(b, ForReply(c.brief.value, intent)))
  {
    hide Play, SoundMove, Passes, Grounded;
    PipedIsSound(moves);
    EverythingAccepted(moves, FirewallStandard());
    var s := Play(INITIAL, moves);
    forall e | e in s.log ensures Passes(e.body, e.plan.brief) && Grounded(e.body, e.plan.brief.facts) {
      assert EntryBriefed(s, e, FirewallStandard());
    }
    forall c, b | c in s.heap && b in c.sentBodies
      ensures c.brief.Some? && Grounded(b, c.brief.value.facts) && exists intent :: Passes(b, ForReply(c.brief.value, intent))
    {
      ReplyStandard(c, b);
    }
  }

  lemma {:induction false} ReplyStandard(c: Conv, b: string)
    requires RepliesAccepted(c, FirewallStandard()) && b in c.sentBodies
    ensures c.brief.Some? && Grounded(b, c.brief.value.facts) && exists intent :: Passes(b, ForReply(c.brief.value, intent))
  {
    hide Passes, Grounded;
    var intent :| FirewallStandard()(b, ForReply(c.brief.value, intent));
    assert Passes(b, ForReply(c.brief.value, intent));
  }

  /** A clean brief is never silent, whatever the composer does. */
  lemma {:induction false} CleanNeverSilent(brief: Brief, call: ComposerCall)
    requires AllClean(brief.facts) && CleanName(Subject(brief)) && CleanName(brief.merchantName)
    requires forall t | t in brief.forbiddenTopics :: !Contains(Lower(Compose(brief)), Lower(t))
    requires Roomy(brief)
    ensures !Blank(Voice(call)(brief)) && Passes(Voice(call)(brief), brief)
  {
    hide Passes, Grounded, ComposeAndValidate, AllClean, CleanName, Compose, Roomy;
    CleanBriefsPass(brief);
    SilentIff(brief, call(brief));
    Grounding(brief, call(brief));
  }

  /** With the deterministic composer a fresh conversation has ended by its fourth turn, after at
      most two replies. */
  lemma {:induction false} TemplateEndsByFourthTurn(c: Conv, events: seq<Event>)
    requires c.turns == [] && c.sentBodies == {} && Conserved(c)
    requires forall e | e in events :: e.speak == Voice(TemplateCall)
    requires |events| >= 4
    ensures Conversations.Run(c, events).status.Ended? && |Conversations.Run(c, events).sentBodies| <= 2
  {
    hide Voice, Conversations.Run, Conserved;
    EndedByFourthTurn(c, events, Voice(TemplateCall));
  }
}
