/** How long a conversation can go on, and what racing replies come to. */
module ConversationRuns {
  import opened Text
  import opened Brief
  import opened ReplyPolicy
  import opened Conversations

  predicate SeemsAutomatic(message: string, previous: Option<string>) {
    (previous.Some? && Normal(message) == Normal(previous.value)) || Marked(Normal(message), Markers(AutoReply))
  }

  /** What a conversation that has not ended makes of a message: an automatic one or a repeat is
      waited out the first time only; only a hostile one that is neither opts out; anything else
      is answered from the brief, as a commitment or as a detour, if there is something new to
      say. In all other cases the conversation ends. */
  lemma {:induction false} ReactionIff(c: Conv, turn: Turn, speak: Speaker)
    requires !c.status.Ended?
    ensures var r := React(c, turn, speak); var text := Normal(turn.message);
      var automatic := SeemsAutomatic(turn.message, c.lastIncoming);
      var hostile := !automatic && Marked(text, Markers(HostileOptout));
      var intent := if Marked(text, Markers(IntentCommit)) then AcceptAndAdvance else RedirectToOriginalAsk;
      && (r.response.WaitSeconds? <==> automatic && c.autoReplyHits == 0)
      && (r.optOut <==> hostile)
      && (r.response.SendBody? <==>
            && !automatic && !hostile && c.brief.Some?
            && var body := speak(ForReply(c.brief.value, intent)); !Blank(body) && body !in c.sentBodies)
      && (r.response.SendBody? ==> r.response == SendBody(speak(ForReply(c.brief.value, intent)), c.brief.value.cta))
      && (r.conv.status.Ended? <==> !r.response.WaitSeconds? && !r.response.SendBody?)
  {
    hide Blank, Marked, Normal, Markers;
  }

  // ---- termination -----------------------------------------------------------------------------

  /** All that a deterministic speaker can say in a conversation. */
  function Sayable(brief: Option<Brief>, speak: Speaker): set<string> {
    if brief == None then {}
    else {speak(ForReply(brief.value, AcceptAndAdvance)), speak(ForReply(brief.value, RedirectToOriginalAsk))}
  }

  /** What is left to happen: one wait, a reply for each intent, the end. */
  function Left(c: Conv): int { (1 - c.autoReplyHits) + (2 - |c.sentBodies|) + (if c.status.Ended? then 0 else 1) }

  predicate SaysOnly(c: Conv, speak: Speaker) { c.sentBodies <= Sayable(c.brief, speak) }

  lemma {:induction false} SmallSubset(a: set<string>, x: string, y: string)
    requires a <= {x, y}
    ensures |a| <= 2
  {
    var rest := a - {x};
    if rest != {} { assert rest == {y}; }
    assert a == rest || a == rest + {x};
  }

  lemma {:induction false} AtMostTwoSent(c: Conv, speak: Speaker)
    requires SaysOnly(c, speak)
    ensures |c.sentBodies| <= 2
  {
    if c.brief.Some? {
      SmallSubset(c.sentBodies, speak(ForReply(c.brief.value, AcceptAndAdvance)),
                  speak(ForReply(c.brief.value, RedirectToOriginalAsk)));
    }
  }

  lemma {:induction false} IntentSayable(brief: Brief, intent: Intent, speak: Speaker)
    ensures speak(ForReply(brief, intent)) in Sayable(Some(brief), speak)
  {
    match intent
    case AcceptAndAdvance =>
    case RedirectToOriginalAsk =>
  }

  lemma {:induction false} ReactSaysOnly(c: Conv, turn: Turn, speak: Speaker)
    requires SaysOnly(c, speak)
    ensures SaysOnly(React(c, turn, speak).conv, speak)
  {
    hide React;
    SentIsSpoken(c, turn, speak);
    ReactFrame(c, turn, speak);
    var r := React(c, turn, speak);
    if r.response.SendBody? {
      var intent :| r.response.body == speak(ForReply(c.brief.value, intent));
      IntentSayable(c.brief.value, intent, speak);
    }
  }

  /** Every turn that is processed uses up one of the things that are left to happen. */
  lemma {:induction false} LeftDrops(c: Conv, turn: Turn, speak: Speaker)
    requires Conserved(c) && !c.status.Ended? && SaysOnly(c, speak)
    ensures Left(React(c, turn, speak).conv) == Left(c) - 1 >= 0
  {
    hide React;
    var d := React(c, turn, speak).conv;
    ReactConserves(c, turn, speak);
    ReactFrame(c, turn, speak);
    ReactSaysOnly(c, turn, speak);
    AtMostTwoSent(d, speak);
  }

  /** With a fixed brief and a deterministic composer a conversation sends at most two replies and
      has ended by its fourth turn. */
  lemma {:induction false} EndedByFourthTurn(c: Conv, events: seq<Event>, speak: Speaker)
    requires Conserved(c) && SaysOnly(c, speak)
    requires forall e | e in events :: e.speak == speak
    requires |c.turns| + |events| >= 4
    ensures Run(c, events).status.Ended?
    ensures |Run(c, events).sentBodies| <= 2 && |Run(c, events).turns| <= 4
    decreases |events|
  {
    hide React;
    AtMostTwoSent(c, speak);
    if events != [] {
      ReactConserves(c, events[0].turn, speak);
      ReactSaysOnly(c, events[0].turn, speak);
      ReactFrame(c, events[0].turn, speak);
      var d := React(c, events[0].turn, speak).conv;
      if c.status.Ended? {
        EndedAbsorbs(c, events);
      } else {
        EndedByFourthTurn(d, events[1..], speak);
      }
    }
  }

  // ---- racing replies --------------------------------------------------------------------------

  /** The same text, up to case and surrounding white space. */
  ghost predicate AllSay(events: seq<Event>, text: string) { forall e | e in events :: Normal(e.turn.message) == text }

  predicate JustHeard(c: Conv, text: string) { c.lastIncoming.Some? && Normal(c.lastIncoming.value) == text }

  /** A repeat is waited out or ends the conversation. */
  lemma {:induction false} RepeatReaction(c: Conv, turn: Turn, speak: Speaker)
    requires !c.status.Ended? && c.lastIncoming.Some? && Normal(turn.message) == Normal(c.lastIncoming.value)
    ensures var r := React(c, turn, speak);
      && !r.optOut && r.conv.lastIncoming == Some(turn.message)
      && (if c.autoReplyHits == 0 then r.response == WaitSeconds(AUTO_REPLY_WAIT_SECONDS) && r.conv.autoReplyHits == 1
          else r.response == EndConversation(Policy) && r.conv.status.Ended?)
  {
    hide ClassifyKind, Normal;
    RepeatDecision(turn.message, c.lastIncoming.value, c.autoReplyHits);
  }

  lemma {:induction false} EndsSendNothing(responses: seq<Response>)
    requires forall r | r in responses :: r == EndConversation(AlreadyEnded)
    ensures Sent(responses) == []
  {
    if responses != [] {
      assert responses[0] in responses;
      forall r | r in responses[1..] ensures r in responses {}
      EndsSendNothing(responses[1..]);
    }
  }

  /** Repeats of what was heard last are never answered; the second one finds the conversation
      waiting or ended, and ends it. */
  lemma {:induction false} RepeatsEnd(c: Conv, events: seq<Event>, text: string)
    requires Conserved(c) && JustHeard(c, text) && AllSay(events, text)
    ensures Sent(Responses(c, events)) == []
    ensures |events| >= 2 ==> Run(c, events).status.Ended?
    ensures |events| >= 1 && c.autoReplyHits == 1 ==> Run(c, events).status.Ended?
    decreases |events|
  {
    hide React, Normal;
    if c.status.Ended? {
      EndedAbsorbs(c, events);
      EndsSendNothing(Responses(c, events));
    } else if events != [] {
      ReactConserves(c, events[0].turn, events[0].speak);
      RepeatReaction(c, events[0].turn, events[0].speak);
      RepeatsStep(c, events, text);
    }
  }

  lemma {:induction false} RepeatsStep(c: Conv, events: seq<Event>, text: string)
    requires events != [] && AllSay(events, text) && !c.status.Ended?
    requires Conserved(React(c, events[0].turn, events[0].speak).conv)
    requires var r := React(c, events[0].turn, events[0].speak);
      !r.response.SendBody? && r.conv.lastIncoming == Some(events[0].turn.message) && (r.conv.autoReplyHits == 1 || r.conv.status.Ended?)
    requires c.autoReplyHits == 1 ==> React(c, events[0].turn, events[0].speak).conv.status.Ended?
    ensures Sent(Responses(c, events)) == []
    ensures |events| >= 2 ==> Run(c, events).status.Ended?
    ensures |events| >= 1 && c.autoReplyHits == 1 ==> Run(c, events).status.Ended?
    decreases |events|, 0
  {
    hide React, Normal;
    var r := React(c, events[0].turn, events[0].speak);
    SentStep(r.response, Responses(r.conv, events[1..]));
    if r.conv.status.Ended? { EndedAbsorbs(r.conv, events[1..]); }
    RepeatsEnd(r.conv, events[1..], text);
  }

  /** Replies that say the same thing and race for the conversation's lock: whatever order they
      get it in and whatever the composer makes of them, at most the first is answered, at most
      one is waited out, all others end; three of them end the conversation. */
  lemma {:induction false} RacingReplies(c: Conv, events: seq<Event>, text: string)
    requires Conserved(c) && AllSay(events, text)
    ensures |Sent(Responses(c, events))| <= 1 && Waits(Responses(c, events)) <= 1
    ensures |Sent(Responses(c, events))| == 1 ==> Responses(c, events)[0].SendBody?
    ensures |events| >= 3 ==> Run(c, events).status.Ended?
  {
    hide React, Normal;
    RunConserves(c, events);
    if events != [] {
      var r := React(c, events[0].turn, events[0].speak);
      ReactConserves(c, events[0].turn, events[0].speak);
      ReactFrame(c, events[0].turn, events[0].speak);
      SentStep(r.response, Responses(r.conv, events[1..]));
      if c.status.Ended? {
        EndedAbsorbs(c, events);
        EndsSendNothing(Responses(c, events));
      } else {
        RepeatsEnd(r.conv, events[1..], text);
      }
    }
  }
}
