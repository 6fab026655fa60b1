/** One conversation: the state machine that `/v1/reply` drives under the conversation's lock. */
module Conversations {
  import opened Text
  import opened Brief
  import opened ReplyPolicy

  datatype Status = Active | Waiting | Ended

  datatype Turn = Turn(fromRole: string, message: string)

  /** The state of a conversation, as a value. */
  datatype Conv = Conv(
    merchantId: string,
    customerId: Option<string>,
    triggerId: string,
    status: Status := Active,
    turns: seq<Turn> := [],
    autoReplyHits: nat := 0,
    lastIncoming: Option<string> := None,
    sentBodies: set<string> := {},
    brief: Option<Brief> := None)

  /** What the text pipeline makes of a brief at one moment; blank if it makes nothing. */
  type Speaker = Brief -> string

  datatype EndReason = UnknownConversation | AlreadyEnded | Policy | NoBrief | NothingSendable | VerbatimRepeat

  datatype Response =
    | SendBody(body: string, cta: Cta)
    | WaitSeconds(seconds: nat)
    | EndConversation(reason: EndReason)

  datatype Reaction = Reaction(conv: Conv, response: Response, optOut: bool)

  /** What one incoming turn does to a conversation. */
  function React(conv: Conv, turn: Turn, speak: Speaker): Reaction {
    if conv.status.Ended? then Reaction(conv, EndConversation(AlreadyEnded), false)
    else
      var heard := conv.(turns := conv.turns + [turn], lastIncoming := Some(turn.message));
      match DecideReply(turn.message, conv.lastIncoming, conv.autoReplyHits)
      case Wait(seconds) =>
        Reaction(heard.(autoReplyHits := conv.autoReplyHits + 1, status := Waiting), WaitSeconds(seconds), false)
      case End(optOut) => Reaction(heard.(status := Ended), EndConversation(Policy), optOut)
      case Send(intent) =>
        if conv.brief == None then Reaction(heard.(status := Ended), EndConversation(NoBrief), false)
        else
          var body := speak(ForReply(conv.brief.value, intent));
          if Blank(body) then Reaction(heard.(status := Ended), EndConversation(NothingSendable), false)
          else if body in conv.sentBodies then Reaction(heard.(status := Ended), EndConversation(VerbatimRepeat), false)
          else Reaction(heard.(sentBodies := conv.sentBodies + {body}), SendBody(body, conv.brief.value.cta), false)
  }

  /** The conversation the store keeps: updated in place, turn by turn. */
  class Conversation {
    const id: string
    const merchantId: string
    const customerId: Option<string>
    const triggerId: string
    var status: Status
    var turns: seq<Turn>
    var autoReplyHits: nat
    var lastIncoming: Option<string>
    var sentBodies: set<string>
    var brief: Option<Brief>

    ghost function Value(): (c: Conv)
      reads this
      ensures c.merchantId == merchantId
    {
      Conv(merchantId, customerId, triggerId, status, turns, autoReplyHits, lastIncoming, sentBodies, brief)
    }

    constructor (id: string, merchantId: string, customerId: Option<string>, triggerId: string)
      ensures this.id == id && Value() == Conv(merchantId, customerId, triggerId)
    {
      this.id := id;
      this.merchantId := merchantId;
      this.customerId := customerId;
      this.triggerId := triggerId;
      status := Active;
      turns := [];
      autoReplyHits := 0;
      lastIncoming := None;
      sentBodies := {};
      brief := None;
    }

    method AttachBrief(b: Brief)
      modifies this
      ensures Value() == old(Value()).(brief := Some(b))
    {
      brief := Some(b);
    }

    /** The critical section of `/v1/reply`. */
    method Process(turn: Turn, speak: Speaker) returns (response: Response, optOut: bool)
      modifies this
      ensures Reaction(Value(), response, optOut) == React(old(Value()), turn, speak)
    {
      hide Blank, ClassifyKind;
      if status.Ended? { return EndConversation(AlreadyEnded), false; }
      turns := turns + [turn];
      var decision := DecideReply(turn.message, lastIncoming, autoReplyHits);
      lastIncoming := Some(turn.message);
      match decision
      case Wait(seconds) =>
        autoReplyHits := autoReplyHits + 1;
        status := Waiting;
        return WaitSeconds(seconds), false;
      case End(optedOut) =>
        status := Ended;
        return EndConversation(Policy), optedOut;
      case Send(intent) =>
        if brief == None {
          status := Ended;
          return EndConversation(NoBrief), false;
        }
        var body := speak(ForReply(brief.value, intent));
        if Blank(body) {
          status := Ended;
          return EndConversation(NothingSendable), false;
        }
        if body in sentBodies {
          status := Ended;
          return EndConversation(VerbatimRepeat), false;
        }
        sentBodies := sentBodies + {body};
        return SendBody(body, brief.value.cta), false;
    }
  }

  // ---- what every turn keeps -------------------------------------------------------------------

  /** Every turn that was processed is accounted for: waited out, answered, or the last one. */
  predicate Conserved(c: Conv) {
    && |c.turns| == c.autoReplyHits + |c.sentBodies| + (if c.status.Ended? then 1 else 0)
    && c.autoReplyHits <= 1
    && (!c.status.Ended? ==> (c.status.Waiting? <==> c.autoReplyHits == 1))
  }

  lemma {:induction false} FreshConserved(merchantId: string, customerId: Option<string>, triggerId: string)
    ensures Conserved(Conv(merchantId, customerId, triggerId))
  {}

  lemma {:induction false} ReactConserves(c: Conv, turn: Turn, speak: Speaker)
    requires Conserved(c)
    ensures Conserved(React(c, turn, speak).conv)
  {
    hide Blank, ClassifyKind;
  }

  /** What a turn leaves alone, and that an ended conversation stays as it is. */
  lemma {:induction false} ReactFrame(c: Conv, turn: Turn, speak: Speaker)
    ensures var d := React(c, turn, speak).conv;
      && d.merchantId == c.merchantId && d.customerId == c.customerId && d.triggerId == c.triggerId && d.brief == c.brief
      && c.sentBodies <= d.sentBodies && c.turns <= d.turns
      && (if c.status.Ended? then d == c else d.turns == c.turns + [turn] && d.lastIncoming == Some(turn.message))
  {
    hide Blank, ClassifyKind;
  }

  /** A body that is sent is new to the conversation, is not blank, and is what the pipeline made
      of the conversation's own brief. */
  lemma {:induction false} SentIsSpoken(c: Conv, turn: Turn, speak: Speaker)
    ensures var r := React(c, turn, speak);
      if r.response.SendBody? then
        && c.brief.Some? && r.response.body !in c.sentBodies && !Blank(r.response.body)
        && (exists intent :: r.response.body == speak(ForReply(c.brief.value, intent)))
        && r.conv.sentBodies == c.sentBodies + {r.response.body}
      else r.conv.sentBodies == c.sentBodies
  {
    hide Blank, ClassifyKind;
  }

  // ---- whole runs --------------------------------------------------------------------------------

  /** A turn and the speaker of that moment. */
  datatype Event = Event(turn: Turn, speak: Speaker)

  function Run(c: Conv, events: seq<Event>): Conv
    decreases |events|
  {
    if events == [] then c
    else Run(React(c, events[0].turn, events[0].speak).conv, events[1..])
  }

  function Responses(c: Conv, events: seq<Event>): seq<Response>
    decreases |events|
  {
    if events == [] then []
    else
      var r := React(c, events[0].turn, events[0].speak);
      [r.response] + Responses(r.conv, events[1..])
  }

  function Sent(responses: seq<Response>): seq<string> {
    if responses == [] then []
    else (if responses[0].SendBody? then [responses[0].body] else []) + Sent(responses[1..])
  }

  function Waits(responses: seq<Response>): nat {
    if responses == [] then 0 else (if responses[0].WaitSeconds? then 1 else 0) + Waits(responses[1..])
  }

  lemma {:induction false} ReactWaits(c: Conv, turn: Turn, speak: Speaker)
    ensures var r := React(c, turn, speak);
      r.conv.autoReplyHits == c.autoReplyHits + (if r.response.WaitSeconds? then 1 else 0)
  {
    hide Blank, ClassifyKind;
  }

  /** The conversation is conserved along every run, and at most one of its turns is waited out. */
  lemma {:induction false} RunConserves(c: Conv, events: seq<Event>)
    requires Conserved(c)
    ensures Conserved(Run(c, events))
    ensures c.autoReplyHits + Waits(Responses(c, events)) == Run(c, events).autoReplyHits <= 1
    decreases |events|
  {
    hide React;
    if events != [] {
      ReactConserves(c, events[0].turn, events[0].speak);
      ReactWaits(c, events[0].turn, events[0].speak);
      RunConserves(React(c, events[0].turn, events[0].speak).conv, events[1..]);
    }
  }

  /** All the bodies are different from each other and from those of `before`. */
  predicate AllNew(bodies: seq<string>, before: set<string>) {
    && (forall i, j | 0 <= i < j < |bodies| :: bodies[i] != bodies[j])
    && (forall b | b in bodies :: b !in before)
  }

  lemma {:induction false} AllNewStep(body: string, rest: seq<string>, before: set<string>)
    requires body !in before && AllNew(rest, before + {body})
    ensures AllNew([body] + rest, before)
    ensures (set b | b in [body] + rest) == {body} + (set b | b in rest)
  {}

  /** No body is ever sent twice, and the sent bodies are recorded. */
  lemma {:induction false} RunSends(c: Conv, events: seq<Event>)
    ensures var sent := Sent(Responses(c, events));
      AllNew(sent, c.sentBodies) && Run(c, events).sentBodies == c.sentBodies + (set b | b in sent)
    decreases |events|
  {
    hide React;
    if events != [] {
      var r := React(c, events[0].turn, events[0].speak);
      SentIsSpoken(c, events[0].turn, events[0].speak);
      RunSends(r.conv, events[1..]);
      SentStep(r.response, Responses(r.conv, events[1..]));
      if r.response.SendBody? { AllNewStep(r.response.body, Sent(Responses(r.conv, events[1..])), c.sentBodies); }
    }
  }

  lemma {:induction false} SentStep(response: Response, rest: seq<Response>)
    ensures Sent([response] + rest) == if response.SendBody? then [response.body] + Sent(rest) else Sent(rest)
  {}

  lemma {:induction false} EndedAbsorbs(c: Conv, events: seq<Event>)
    requires c.status.Ended?
    ensures Run(c, events) == c
    ensures forall r | r in Responses(c, events) :: r == EndConversation(AlreadyEnded)
    decreases |events|
  {
    if events != [] { EndedAbsorbs(c, events[1..]); }
  }
}
