/** The deterministic reply policy: what kind of message came in and what to do about it. */
module ReplyPolicy {
  import opened Text
  import opened Brief

  const AUTO_REPLY_WAIT_SECONDS := 14400

  datatype ReplyKind = AutoReply | HostileOptout | IntentCommit | OtherReply

  /** The phrases that give a kind of message away. */
  function Markers(kind: ReplyKind): seq<string> {
    match kind
    case AutoReply => [
      "thank you for contacting",
      "our team will respond",
      "will get back to you shortly",
      "automated assistant",
      "auto-reply",
      "currently unavailable"
    ]
    case HostileOptout => [
      "stop messaging",
      "not interested",
      "stop sending",
      "unsubscribe",
      "leave me alone",
      "this is useless",
      "this is spam",
      "don't contact",
      "do not contact"
    ]
    case IntentCommit => [
      "let's do it",
      "lets do it",
      "let's go",
      "lets go",
      "go ahead",
      "ok let's",
      "okay let's",
      "ok lets",
      "yes let's",
      "sounds good",
      "confirm",
      "i want to join",
      "sign me up",
      "proceed"
    ]
    case OtherReply => []
  }

  datatype ReplyDecision =
    | Send(intent: Intent)
    | Wait(seconds: nat)
    | End(optOut: bool)

  /** A message as the policy compares it. */
  function Normal(message: string): string { Lower(Strip(message)) }

  predicate Marked(text: string, markers: seq<string>) { exists m | m in markers :: Contains(text, m) }

  function ClassifyKind(message: string, previous: Option<string>): ReplyKind {
    var text := Normal(message);
    var isRepeat := previous.Some? && text == Normal(previous.value);
    if isRepeat || Marked(text, Markers(AutoReply)) then AutoReply
    else if Marked(text, Markers(HostileOptout)) then HostileOptout
    else if Marked(text, Markers(IntentCommit)) then IntentCommit
    else OtherReply
  }

  function DecideReply(message: string, previous: Option<string>, autoReplyHits: nat): ReplyDecision {
    match ClassifyKind(message, previous)
    case HostileOptout => End(true)
    case AutoReply => if autoReplyHits == 0 then Wait(AUTO_REPLY_WAIT_SECONDS) else End(false)
    case IntentCommit => Send(AcceptAndAdvance)
    case OtherReply => Send(RedirectToOriginalAsk)
  }

  /** A repeated message is never answered and never counts as an opt-out: it is waited out once,
      then it closes the conversation. */
  lemma {:induction false} RepeatDecision(message: string, previous: string, autoReplyHits: nat)
    requires Normal(message) == Normal(previous)
    ensures DecideReply(message, Some(previous), autoReplyHits)
      == if autoReplyHits == 0 then Wait(AUTO_REPLY_WAIT_SECONDS) else End(false)
  {}
}
