/** What a composer is told, and nothing more. The fields that only a provider's prompt
    reads (voice, vocabulary, dominant signal) are not modelled. */
module Brief {
  import opened Text

  datatype Cta = OpenEnded | BinaryYesNo | BinaryConfirmCancel | MultiChoiceSlot | NoCta

  datatype Intent = AcceptAndAdvance | RedirectToOriginalAsk

  datatype SendAs = Vera | MerchantOnBehalf

  datatype Brief = Brief(
    categorySlug: string,
    merchantName: string,
    ownerFirstName: Option<string>,
    languages: seq<string>,
    facts: seq<string>,
    cta: Cta,
    sendAs: SendAs,
    customerName: Option<string>,
    customerLanguagePref: Option<string>,
    forbiddenTopics: seq<string>,
    maxChars: nat := 400,
    replyIntent: Option<Intent> := None,
    isFirstMessage: bool := true)

  /** The same grounded facts with a new phrasing intent, never the first message. */
  function ForReply(original: Brief, intent: Intent): Brief {
    original.(replyIntent := Some(intent), isFirstMessage := false)
  }
}
