# A verified model of the Vera message engine

Vera decides from pushed contexts whether a merchant's trigger deserves a message, lets a composer
phrase the message, checks the result with an output firewall, and carries on the conversation that
follows. This project models that engine in Dafny and proves what it promises: what may leave the
system, for which triggers, how often, and in which order, for every input, every run and every
interleaving of its threads.

`dafny verify dfyconfig.toml` checks everything.

## How the project is laid out

Text pipeline:

- `Text`, `Scan`, `Cuts`, `Meaning`: characters, the source's regular expressions as scanners, how a
  scan of two glued texts splits, and what the scanners find, said without scanning.
- `ReplyClauses`, `Firewall`: the tokens a message asks for, and the firewall.
- `Brief`, `Composer`, `Pipeline`: what a composer is told, the deterministic template, and composer
  call, firewall, one correction, one fallback.
- `Readings`, `FallbackProofs`, `TemplateCuts`, `CtaWords`, `CtaCuts`: the template and its own
  firewall, cut or not, and what a cut leaves of the call to action.
- `Tidying`, `Sanitizing`, `SanitizingLeaves`, `CleanFacts`: what sanitizing leaves of a fact, and the
  facts with which the template is sure to pass or to fail.
- `Corrections`: what the correction of a missing CTA can hide.
- `ClaimStripping`, `FactFigures`, `Facts`, `Summary`: stripping claims from untrusted text, the figures
  every fact of the generators allows, and digest summaries that are never cut.

Decision layer:

- `Context`, `Generators`, `Compiler`, `Scores`: the contexts, the fifteen generators, `decide`, and
  the gates all the scores come to.

Protocol, one thread:

- `ReplyPolicy`, `Conversations`, `ConversationRuns`: the reply policy and the conversation state
  machine, with its runs.
- `ContextStores`, `Stores`: the stores as classes, and convergence of context pushes.
- `Endpoints`, `Engine`: what the endpoints do as functions on values, and the handlers over the
  shared objects, proved against those functions.
- `Draining`, `SerialRuns`: repeated ticks, and arbitrary serial runs.

Protocol, many threads:

- `Interleavings`: a step relation over any number of tick and reply threads. A thread's own work is
  part of its next shared step, and the contexts an item reads are arbitrary, so every order of
  context pushes is covered.
- `Ownership`, `SpokenBodies`, `Windows`, `Limits`, `Races`, `Termination`: what every interleaving keeps,
  and how long its conversations can go on.
- `Schedules`, `KeyRace`: uninterrupted threads do what the serial functions say; two racing ticks
  can send twice for one suppression key.
- `GroundedRuns`: the text pipeline put into the threads.

## Findings

- The fallback does not always pass its own firewall. `CtaCuts.CutFallbackPassesIff` gives the exact
  condition for every brief, cut or not, and `FallbackProofs.FallbackPassesIff` the simpler one for
  texts that are not cut. It fails for these reasons:
  - Names are never sanitized. A URL, a placeholder, a figure of no fact or more than two reply tokens
    in one of them is enough (`CleanFacts.IngredientFails`).
  - A name or fact that ends in a bare `www.`, `http://` or `https://` becomes a URL when the template's
    punctuation follows it (`CleanFacts.DanglingNameFails`, `CleanFacts.FallbackCanFail`).
  - Facts are not sanitized of placeholders and reply tokens (`CleanFacts.IngredientFails`), and of URLs in
    one pass only, whose cuts can bring a new URL together (`CleanFacts.UrlLeftFails`,
    `CleanFacts.OneSanitizingFails`).
  - A text cut by the length limit can lose its CTA, or all that is visible of it. `CtaCuts.CtaLeftIff` and
    `CtaCuts.VisibleLeftIff` say exactly when (`CtaCuts.FullBodyLosesCta`, `CtaCuts.LongNameLosesCta`
    are cases).
  - A taboo phrase can occur in names, facts or the fixed wording itself.
- Sanitizing a fact is described as making sure that it reads neither as a URL nor as a field assignment
  nor as the injection phrase (`src/vera/generation/composer/__init__.py:110-117`). One pass does not:
  `http:/a.com/!` becomes `http://!`, and a phrase that another one interrupts leaves the outer one
  (`SanitizingLeaves.OneSanitizingIsNotEnough`, `SanitizingLeaves.NestedPhraseIsLeft`).
  `Sanitizing.HarmlessIff` says exactly when one pass is enough; as many passes as the fact has
  characters always are (`Sanitizing.PassesEnd`).
- The CTA correction can hide another violation when it cuts leading white space: the length or a
  taboo phrase that begins with that white space (`Corrections.LengthIsHidden`,
  `Corrections.TabooIsHidden`); and it turns a blank message into the bare CTA
  (`Corrections.BlankIsCorrected`). `Pipeline.CorrectionMasksNothing` gives the exact condition.
- One pass of claim stripping can leave a claim behind (`ClaimStripping.OnePassIsNotEnough`);
  `ClaimStripping.OnePassIff` says exactly when it does not. As many passes as there are percent and
  rupee signs always suffice.
- Stripping is described as covering names, labels, categories, quotes and dates
  (`src/vera/decision/opportunity.py:37`). None of the seven date facts is stripped: a figure that a trigger
  writes into one becomes an allowed figure (`Facts.DatesAddFigures`, `Facts.DateWithFigure`).
  `Facts.FactAllows` says for every fact of every generator which figures it allows.
- One action per suppression key holds for serial runs only (`SerialRuns.OneActionPerKey`,
  `KeyRace.KeyCanRepeat`). Conversation ids are unique in every interleaving.
- Conversation ids of different merchants can coincide when one merchant id continues the other
  behind an underscore, so one merchant's conversation can block another's trigger
  (`SerialRuns.ConvIdsCollide`). `SerialRuns.ConvIdsEqualIff` and `SerialRuns.MerchantsApartIff` say
  exactly when.
- The corroboration bonus is described as a nudge for what already qualified
  (`src/vera/decision/opportunity.py:125-129`), and urgency as too small to decide alone
  (`src/vera/decision/opportunity.py:89-96`). Both can decide for one kind of trigger: a festival more
  than 12.6 days away for a merchant without an active offer is below the threshold at urgency 1, and
  either a corroborating signal or urgency 2 carries it over (`Scores.BonusDecidesIff`,
  `Scores.BareThreshold`). From urgency 1 on and for a trigger neither stale nor suppressed, the gate
  alone decides in every other case (`Scores.DecideIff`).

## Model

| member | source | states |
|---|---|---|
| Meaning.HasIff | src/vera/generation/firewall.py:22-48 | A pattern is found in a text exactly if it matches from some position |
| Meaning.PercentMeans | src/vera/decision/opportunity.py:18 | A text states a percentage exactly if some digit is followed by a percent sign with at most white space in between |
| Meaning.PriceMeans | src/vera/decision/opportunity.py:19 | A text states a price exactly if some rupee sign is followed by a digit with at most white space in between |
| Meaning.PlaceholderMeans | src/vera/generation/firewall.py:48 | A text holds a placeholder exactly if one of the four spellings occurs, in any case |
| Meaning.UrlMeans | src/vera/generation/firewall.py:22-27 | A text holds a URL exactly if somewhere a scheme or `www.` is followed by a visible character, or a word starts that is a host with a known ending |
| ReplyClauses.CollectReplyTokens | src/vera/generation/firewall.py:42-47 | The two nested loops collect exactly the upper-cased first words of all reply clauses and the words of their or-chains |
| ReplyClauses.ChainAgrees | src/vera/generation/firewall.py:38-46 | Searching the text of a captured or-chain finds exactly the words the chain was matched with |
| ReplyClauses.OfferRoundTrip | src/vera/generation/firewall.py:42-47 | The tokens of `Reply a1 or a2 … or ak` are exactly the upper-cased words, for any non-empty list of alphanumeric words |
| ReplyClauses.TokensGrow | src/vera/generation/firewall.py:42-47 | Appending a phrase that starts with a space never loses a reply token |
| Firewall.FactNumbers | src/vera/generation/firewall.py:78-82 | The loop collects exactly the figures of all facts |
| Firewall.Validate | src/vera/generation/firewall.py:106-154 | The reasons are exactly the violations, in the source's order; a blank message has only the one |
| Firewall.AppendTaboos | src/vera/generation/firewall.py:140-143 | The loop appends one violation per taboo phrase that occurs, in order |
| Firewall.AppendCta | src/vera/generation/firewall.py:145-152 | A reply token without a CTA, more than two tokens, and a missing explicit CTA are reported, the first two as alternatives |
| Firewall.AppendClaims | src/vera/generation/firewall.py:128-138 | Percentages and prices of the message that no fact states are reported |
| Firewall.PassesIff | src/vera/generation/firewall.py:106-154 | A message passes exactly if it is visible, short enough, free of URLs and placeholders, grounded in the facts, free of taboo phrases, asks for at most two tokens (none without a CTA) and has its explicit CTA |
| Firewall.TaboosIff | src/vera/generation/firewall.py:140-143 | No taboo violation is reported exactly if no forbidden topic occurs, ignoring case |
| Firewall.OffersOfThreeRejected | src/vera/generation/firewall.py:145-149 | An offer of more than two different answers never passes |
| Pipeline.Grounding | src/vera/pipeline.py:37-107 | Whatever the composer did, a result is empty, or it passed the firewall for its own brief with every figure taken from the facts |
| Pipeline.SilentIff | src/vera/pipeline.py:37-107 | Nothing is sent exactly if neither the composer's text, nor its correction, nor the template passes |
| Pipeline.CorrectionMasksNothing | src/vera/pipeline.py:76-91 | A corrected message had no other violation than the missing CTA exactly if it was not blank, within the limit before its leading white space was cut, and no taboo phrase used that white space |
| Pipeline.CorrectionIsNarrow | src/vera/pipeline.py:76-91 | For a message that starts with a visible character, a correction is made only when the missing CTA was the sole violation, and it only appends |
| Corrections.BlankIsCorrected | src/vera/pipeline.py:76-91 | Every blank message becomes the bare CTA, and its only violation, that it is empty, is hidden |
| Corrections.SpacedIsCorrected | src/vera/pipeline.py:84-91 | Plain wording behind white space that only lacks its CTA is corrected to the wording and the phrase |
| Corrections.LengthIsHidden | src/vera/pipeline.py:84-91 | If the white space made it too long, that violation is hidden |
| Corrections.TabooIsHidden | src/vera/pipeline.py:84-91 | If a taboo phrase takes in the white space, that violation is hidden |
| Corrections.SaleIsHidden | src/vera/pipeline.py:84-91 | A concrete instance: ` sale today` where ` sale` is taboo |
| Pipeline.PhraseKeeps | src/vera/pipeline.py:89-90 | URLs, placeholders, percentages, prices and reply tokens of a text survive appending a phrase |
| FallbackProofs.FactsRead | src/vera/generation/composer/__init__.py:77-84 | The naturally joined facts with their closing mark contain the claims, URLs, placeholders and tokens of the single facts and no others |
| FallbackProofs.CtaReads | src/vera/generation/composer/__init__.py:28-74 | Each fixed CTA phrase contains its own reply token, if it has one, and nothing else the firewall looks for |
| FallbackProofs.ExplicitCta | src/vera/generation/composer/__init__.py:28-74 | Behind any text, the phrase of each CTA satisfies the explicit-CTA check, in both languages |
| FallbackProofs.FullTextReads | src/vera/generation/composer/__init__.py:146-182 | The whole template contains what its ingredients contain plus the CTA's token: no prefix, opener, separator or mark adds or hides anything |
| FallbackProofs.FallbackPassesIff | src/vera/generation/composer/__init__.py:110-182 | A composed message that fits passes its own firewall exactly if its ingredients do and no taboo phrase occurs, for all CTAs, both languages and every reply intent |
| TemplateCuts.PartsWhole | src/vera/generation/composer/__init__.py:146-181 | The fixed wording, names, facts and phrase make up the whole template |
| TemplateCuts.CutReads | src/vera/generation/composer/__init__.py:182 | Wherever the template is cut, what is read is what the parts before the cut and the beginning of the part under it hold |
| CtaWords.ActionLeft | src/vera/generation/composer/__init__.py:28-54 | However a fixed phrase is cut, it asks for an answer exactly if its action phrase is whole: 5 characters, 25 for the Hindi yes/no and 33 for the Hindi slot phrase |
| CtaWords.OptionLeft | src/vera/generation/composer/__init__.py:28-54 | And it names an option exactly if that word is whole: 9 characters, 4 in Hindi, 13 for the confirmation |
| CtaCuts.CtaLeftIff | src/vera/generation/composer/__init__.py:181-182 | The composed text has its explicit CTA exactly if, for the action phrase and for the option word, the cut body holds one or leaves room for the one of the fixed phrase |
| CtaCuts.VisibleLeftIff | src/vera/generation/composer/__init__.py:146-182 | The composed text is not blank exactly if the limit is positive and leaves a prefix, the comma behind the addressee or something visible of the addressee |
| CtaCuts.CutFallbackPassesIff | src/vera/generation/composer/__init__.py:110-182 | For every brief, cut or not: the fallback passes exactly if something visible and the words of its CTA are left, in the sense of the two conditions above, the parts before the cut and the beginning of the one under it are acceptable, and no taboo phrase occurs |
| CtaCuts.ShortenedPassesIff | src/vera/generation/composer/__init__.py:110-182 | If at most the dispensable end of the CTA phrase is cut, the fallback passes exactly if its ingredients do together with what is left of the phrase and no taboo phrase occurs |
| CtaCuts.CtaSurvives | src/vera/generation/composer/__init__.py:28-182 | The explicit CTA survives every cut behind the words it needs |
| CtaCuts.CutTokensFew | src/vera/generation/composer/__init__.py:28-54 | However it is cut, a fixed phrase asks for at most one answer |
| CtaCuts.FullBodyLosesCta | src/vera/generation/composer/__init__.py:182 | A body that fills the limit without an action phrase makes the fallback fail, however acceptable its parts |
| CtaCuts.LongNameLosesCta | src/vera/generation/composer/__init__.py:146-182 | A long merchant name alone can do that |
| CleanFacts.CleanBriefsPass | src/vera/generation/composer/__init__.py:110-182 | If facts survive sanitizing unchanged without dangling scheme, reply clause or placeholder, names are clean, no taboo phrase occurs and there is room for all but the dispensable end of the CTA phrase, the fallback passes |
| CleanFacts.PlainNameIsClean | src/vera/generation/composer/__init__.py:151 | A name without digit, rupee sign, slash, bracket and full stop that lacks a letter of "reply" is clean |
| CleanFacts.UnchangedHasNoUrl | src/vera/generation/composer/__init__.py:110-121 | A fact that sanitizing leaves unchanged holds no URL |
| CleanFacts.DanglingNameFails | src/vera/generation/composer/__init__.py:146-182 | An addressee that ends in a bare scheme makes the fallback fail, whatever the facts and wherever the text is cut, once there is room for the comma |
| CleanFacts.FallbackCanFail | src/vera/pipeline.py:94-104 | A concrete instance: the addressee `www.` |
| CleanFacts.IngredientFails | src/vera/generation/composer/__init__.py:146-182 | One addressee, introduced name or shown fact with a URL, a placeholder, more than two reply tokens or a figure of no fact makes the fallback fail, whatever else it says |
| CleanFacts.UrlLeftFails | src/vera/generation/composer/__init__.py:110-182 | A fact whose characters come to make a URL once the substitutions are done makes a fallback that fits fail |
| CleanFacts.OneSanitizingFails | src/vera/generation/composer/__init__.py:110-182 | A concrete instance: the fact `http:/a.com/!` |
| Sanitizing.UnchangedIff | src/vera/generation/composer/__init__.py:110-121 | Sanitizing changes nothing exactly if the fact holds none of the three patterns and nothing to collapse or trim; otherwise it shortens the fact |
| Sanitizing.PassesEnd | src/vera/generation/composer/__init__.py:110-121 | As many passes as the fact has characters leave none of the three patterns, and no later pass changes anything |
| Sanitizing.LeftIff | src/vera/generation/composer/__init__.py:110-121 | A sanitized fact holds one of the patterns exactly if the characters that all three substitutions keep come to make one that trimming leaves |
| Sanitizing.HarmlessIff | src/vera/generation/composer/__init__.py:110-121 | One pass leaves no URL, no field assignment and no injection phrase exactly if those characters make none |
| SanitizingLeaves.OneSanitizingIsNotEnough | src/vera/generation/composer/__init__.py:110-121 | A concrete fact that becomes a URL by sanitizing |
| SanitizingLeaves.NestedPhraseIsLeft | src/vera/generation/composer/__init__.py:110-121 | A concrete fact in which the injection phrase is left |
| ClaimStripping.StripNumericClaims | src/vera/decision/opportunity.py:22-48 | Stripping never lengthens a text |
| ClaimStripping.PassRemovesSign | src/vera/decision/opportunity.py:22-48 | A pass over a text with a claim removes at least one percent or rupee sign, and never adds one |
| ClaimStripping.ClaimFreeStays | src/vera/decision/opportunity.py:22-48 | A claim-free text stays claim-free, although white space is collapsed and ends are trimmed |
| ClaimStripping.PassesSuffice | src/vera/decision/opportunity.py:22-48 | As many passes as there are signs leave no claim |
| ClaimStripping.HasSpanIff | src/vera/decision/opportunity.py:18-19 | Among the kept characters of a text, a claim is read off from left to right exactly if two of them open and close one with nothing but white space kept between |
| ClaimStripping.TidyKeeps | src/vera/decision/opportunity.py:48 | Collapsing white space and trimming neither make nor break a claim |
| ClaimStripping.SubSelects | src/vera/decision/opportunity.py:46-47 | Removing the matches of a pattern leaves exactly the characters that belong to no match |
| ClaimStripping.OnePassIff | src/vera/decision/opportunity.py:22-48 | One pass leaves no claim exactly if no two characters that both substitutions keep come to make one, a digit and a percent sign or a rupee sign and a digit, with nothing but white space kept between |
| ClaimStripping.OnePassSuffices | src/vera/decision/opportunity.py:22-48 | A text with at most one sign satisfies that condition |
| ClaimStripping.OnePassIsNotEnough | src/vera/decision/opportunity.py:22-48 | A concrete text in which one pass leaves a claim |
| FactFigures.FieldAddsNothing | src/vera/decision/opportunity.py:30-46 | A stripped field that is claim-free adds no figure to a fact, whatever wording stands before it and whatever follows behind a space |
| FactFigures.ChangeFact | src/vera/decision/opportunity.py:302 | A fact `<metric> down N% this week` allows exactly the figure N if the stripped metric is claim-free |
| FactFigures.OneSignChangeFact | src/vera/decision/opportunity.py:22-48 | In particular for every metric with at most one percent or rupee sign |
| Facts.SegmentsAllow | src/vera/decision/opportunity.py:22-48 | Wording, numbers and clean stripped fields add no figure and no join makes or hides one, so a fact spelled from them allows the figures of the parts it states as they are |
| Facts.FactSpelled | src/vera/decision/opportunity.py:226-1508 | Every fact of the fifteen generators is spelled so: wording without figures, fields at its ends or between wording that keeps them apart |
| Facts.FactAllows | src/vera/decision/opportunity.py:226-1508 | Every fact allows exactly the figures of its curated texts, its dates and its computed figure, if one pass cleans its stripped fields |
| Facts.FactsAllow | src/vera/generation/firewall.py:78-82 | So does a list of facts |
| Facts.FewSignsClean | src/vera/decision/opportunity.py:22-48 | Fields with at most one sign each are cleaned by one pass |
| Facts.DatesAddFigures | src/vera/decision/opportunity.py:36-38 | A date fact allows exactly the figures written into its date |
| Facts.DateWithFigure | src/vera/decision/opportunity.py:513 | A concrete due date that makes 99% an allowed figure |
| Summary.FactSheet.InsertSummaryIfItFits | src/vera/decision/opportunity.py:66-87 | The stripped summary without one closing full stop is inserted at the index with its evidence if the joined list keeps within 340, else nothing changes |
| Summary.InsertLength | src/vera/decision/opportunity.py:81-83 | Where the summary goes does not change the length of the joined list |
| Summary.SanitizedJoinFits | src/vera/generation/composer/__init__.py:77-84 | Sanitizing and joining naturally adds at most four characters to the plain join |
| Summary.SummaryNeverCut | src/vera/generation/composer/__init__.py:146-182 | An inserted summary is never cut: the join is at most 340, the natural one at most 344, and the message holds the whole fact text when the words in front leave room |
| Generators.SignalCorroborationBonus | src/vera/decision/opportunity.py:150-155 | The loop yields the bonus exactly if some signal shares at least two words with the trigger's kind |
| Generators.GenerateOpportunities | src/vera/decision/opportunity.py:1544-1562 | The loop yields the fallback and what each generator yields, in order, each nudged and clamped |
| Compiler.KindsApart | src/vera/decision/opportunity.py:1525-1541 | The fifteen kinds are spelled differently, so the constructor of a trigger's kind stands for its spelling |
| Compiler.OnlyOwnFires | src/vera/decision/opportunity.py:1525-1541 | At most one generator fires, the one for the trigger's kind |
| Compiler.OwnOnly | src/vera/decision/opportunity.py:1544-1562 | Besides the fallback the list holds the own generator's opportunity or nothing |
| Compiler.Best | src/vera/decision/compiler.py:117 | The chosen opportunity is one of the list and no other scores higher |
| Scores.OwnShaped | src/vera/decision/opportunity.py:183-1562 | For each of the fifteen kinds: an opportunity exactly if the gate of its generator is open, scored between one half (0.48 for a festival without offer) and one at urgency 1; other urgencies only scale it |
| Scores.ScoreBounds | src/vera/decision/opportunity.py:89-155 | Same gate at every urgency, score within [0, 1], not falling with urgency, at urgency 1 to 5 at most 1.2 times that at urgency 1 |
| Scores.FinalScoreBounds | src/vera/decision/opportunity.py:1550-1562 | The bonus keeps the bounds and the order |
| Scores.DecideIff | src/vera/decision/compiler.py:68-143 | For every urgency a trigger is sent exactly if it is neither stale nor suppressed, its gate is open and its score at urgency 1, scaled and nudged, reaches the threshold; from urgency 1 on it always does, except for a festival without offer beyond 12.6 days at urgency 1 that no signal corroborates; what is sent is the own generator's opportunity |
| Scores.BareThreshold | src/vera/decision/opportunity.py:207-224 | When a festival without offer reaches the threshold before the bonus, for every urgency; from urgency 1 on exactly if urgency is above 1 or it is at most 12.6 days away |
| Scores.BonusDecidesIff | src/vera/decision/opportunity.py:97-155 | The bonus changes the decision exactly if the gate is open and the scaled score falls short by no more than the bonus; from urgency 1 on exactly for that corroborated festival and no other trigger |
| ReplyPolicy.RepeatDecision | src/vera/decision/reply_policy.py:58-117 | A repeated message is waited out once and then closes the conversation, whatever it says |
| Conversations.Conversation.constructor | src/vera/state/store.py:94-104 | A new conversation is active and empty |
| Conversations.Conversation.AttachBrief | src/vera/state/store.py:145-148 | Attaching a brief changes nothing else |
| Conversations.Conversation.Process | src/vera/api/app.py:331-397 | The handler's locked section updates the fields exactly as the transition function says |
| Conversations.ReactConserves | src/vera/api/app.py:331-397 | Turns are conserved by every turn: as many as waits, replies and the end; at most one wait; waiting exactly if one was had |
| Conversations.SentIsSpoken | src/vera/api/app.py:364-397 | A reply is sent only from the conversation's brief, is visible, new to the conversation, and recorded |
| Conversations.RunConserves | src/vera/api/app.py:331-397 | Along every run turns are conserved and at most one is waited out |
| Conversations.RunSends | src/vera/api/app.py:385-397 | Along every run no body is sent twice and the recorded bodies are exactly those sent |
| Conversations.EndedAbsorbs | src/vera/api/app.py:331-334 | An ended conversation never changes and every further turn is answered as ended |
| ConversationRuns.ReactionIff | src/vera/decision/reply_policy.py:58-117 | Exactly when a message is waited out, opts out, is answered and with which intent, and ends the conversation |
| ConversationRuns.LeftDrops | src/vera/api/app.py:331-397 | With a fixed brief and a deterministic composer every processed turn lowers the measure (1 - hits) + (2 - sent) + 1 by one |
| ConversationRuns.EndedByFourthTurn | src/vera/generation/brief.py:60-65 | Such a conversation sends at most two replies and has ended by its fourth turn |
| ConversationRuns.RacingReplies | src/vera/api/app.py:319-397 | Replies with the same trimmed, case-folded text, in any lock order and with any composer: at most the first is answered, at most one waited out, three of them end the conversation |
| Races.RacingAnswers | src/vera/api/app.py:310-397 | The same among any other moves of any other threads, a late brief included: at most the first of the racing replies is answered, at most one is waited out, three of them end the conversation |
| Termination.EveryConversationBounded | src/vera/api/app.py:310-397 | In every interleaving whose replies are made by one deterministic composer, whenever briefs are attached: no conversation takes more than four turns or sends more than two replies, and a fourth turn ends it |
| Termination.FourAnswersEnd | src/vera/api/app.py:310-397 | Four replies that reach one conversation, from whatever threads, end it |
| ContextStores.ContextStore.Push | src/vera/state/store.py:47-69 | Stores exactly newer versions, accepts equal ones without storing, refuses older ones naming the current version |
| ContextStores.ContextStore.Get | src/vera/state/store.py:71-73 | Reads the stored payload |
| ContextStores.ContextStore.VersionOf | src/vera/state/store.py:75-77 | Reads the stored version |
| ContextStores.ContextStore.Counts | src/vera/state/store.py:79-83 | The accumulating loop counts the distinct ids of every scope |
| ContextStores.Converges | src/vera/state/store.py:47-69 | After any pushes a key is stored exactly if it was pushed, at its highest version with the first payload pushed for that version |
| ContextStores.OrderDoesNotMatter | src/vera/state/store.py:47-69 | If equal versions carry equal payloads, every permutation of the pushes gives the same store |
| Stores.ConversationStore.TryReserve | src/vera/state/store.py:120-135 | Claims the id with a fresh conversation exactly if it was free, else changes nothing |
| Stores.ConversationStore.Release | src/vera/state/store.py:137-143 | Removes the id and nothing else |
| Stores.ConversationStore.AttachBrief | src/vera/state/store.py:145-148 | Sets the brief of that conversation, if it is known, and of no other |
| Stores.ConversationStore.Get | src/vera/state/store.py:168-169 | Finds the stored conversation object |
| Stores.ConversationStore.TurnLock | src/vera/state/store.py:171-184 | The same lock for the same id every time, a different one for every other |
| Stores.SuppressionStore.IsUsed | src/vera/state/store.py:210-211 | Reads one merchant's key |
| Stores.SuppressionStore.MarkUsed | src/vera/state/store.py:213-215 | Adds one merchant's key unless it is empty |
| Stores.SuppressionStore.SuppressMerchant | src/vera/state/store.py:217-218 | Adds the merchant and leaves the keys alone |
| Stores.SuppressionStore.IsMerchantSuppressed | src/vera/state/store.py:220-221 | Reads the merchant's opt-out |
| Engine.Engine.PushContext | src/vera/api/app.py:142-168 | A push changes the contexts only, as the store says |
| Engine.Engine.ReadSituation | src/vera/api/app.py:187-206 | The chain of lookups finds the trigger with its contexts or nothing |
| Engine.Engine.MakePlan | src/vera/api/app.py:208-235 | The reads, the decision and the brief |
| Engine.Engine.ExecutePlan | src/vera/api/app.py:227-283 | Claim, compose, then roll back to exactly the old state or commit brief, key and action |
| Engine.Engine.HandleTick | src/vera/api/app.py:178-293 | The capped loop does to the stores and the action list what the tick function says, and emits at most twenty |
| Engine.Engine.HandleReply | src/vera/api/app.py:310-397 | The handler does to the stores what the reply function says, the opt-out included |
| Endpoints.ReplyIsLocal | src/vera/api/app.py:310-397 | A reply leaves contexts, keys and all other conversations as they were |
| Draining.SettledStays | src/vera/api/app.py:183-255 | An item that leads to nothing leads to nothing in any later state with the same contexts |
| Draining.Resume | src/vera/api/app.py:183-293 | Two ticks in a row do what one tick with the room of both would have done |
| Draining.ChunksOfTwenty | src/vera/api/app.py:183-293 | Repeating a tick emits the uncapped list in consecutive chunks of twenty |
| Draining.TenTicksDrain | src/vera/api/schemas.py:7-9 | Ten ticks drain any list of 200 triggers; the next emits nothing and changes nothing |
| SerialRuns.OneActionPerKey | src/vera/api/app.py:208-258 | Over any serial run: at most one action per merchant and non-empty key, none for an opted-out merchant, and exactly the emitted keys are recorded |
| SerialRuns.ItemEmitsIff | src/vera/api/app.py:183-283 | An item emits exactly if its trigger is fresh, unsuppressed, its gate open, its score enough, its id free and something can be said |
| SerialRuns.KeysAreLocal | src/vera/state/store.py:192-216 | Another merchant's keys make no difference |
| SerialRuns.BlankChangesNothing | src/vera/api/app.py:250-255 | An item whose composition is blank leaves all stores as before |
| SerialRuns.ConvIdsEqualIff | src/vera/api/app.py:227 | Two conversation ids are equal exactly if merchant and trigger are, or one merchant id swallows the beginning of the other's trigger id behind an underscore |
| SerialRuns.MerchantsApartIff | src/vera/api/app.py:227 | Two merchants never share a conversation id, whatever their triggers, exactly if neither id continues the other behind an underscore |
| SerialRuns.ConvIdsCollide | src/vera/api/app.py:227 | The family of colliding pairs |
| Ownership.NextKeepsIds | src/vera/state/store.py:120-148 | Every step keeps: one owner per claimed id, who finds its own conversation there; owned and emitted ids disjoint and in the store; emitted ids distinct |
| Ownership.EveryIdOnce | src/vera/api/app.py:227-283 | In every interleaving all emitted actions have different conversation ids and no claimed id is emitted |
| SpokenBodies.NextConserves | src/vera/api/app.py:331-397 | Every step of every thread keeps every conversation conserved, released ones included |
| SpokenBodies.EverythingAccepted | src/vera/api/app.py:239-283 | In every interleaving every action and reply met the standard for its own brief, and an opened conversation has the brief it was opened with |
| Windows.NextKeepsTimed | src/vera/api/app.py:208-258 | Every step keeps the order of reads, marks and opt-outs |
| Windows.KeysAndOptOuts | src/vera/api/app.py:208-258 | Two actions for one merchant and key only if each read the key before the other's mark; no action by an item that read the opt-out after it took effect |
| Limits.AtMostTwentyPerTick | src/vera/api/app.py:183-185 | In every interleaving no tick emits more than twenty actions |
| Limits.NoActionAfterOptOut | src/vera/api/app.py:357-361 | After a hostile reply an action for that merchant can only come from an item whose suppression was read before the reply |
| Limits.EndedForGood | src/vera/api/app.py:331-334 | In every interleaving an ended conversation takes no further turn, and no conversation forgets what it sent |
| Schedules.UninterruptedIsSerial | src/vera/api/app.py:183-283 | An item whose thread is not interrupted does what the serial function says and appends its action |
| Schedules.TickIsSerial | src/vera/api/app.py:178-293 | So does a whole uninterrupted tick, cap included |
| Schedules.ReplyIsSerial | src/vera/api/app.py:310-397 | So does an uninterrupted reply |
| KeyRace.KeyCanRepeat | src/vera/api/app.py:208-258 | Any two sendable triggers that share a key can both be sent when two ticks race |
| KeyRace.AsksAreRivals | src/vera/api/app.py:208-258 | There are such triggers |
| GroundedRuns.EverythingGrounded | src/vera/pipeline.py:37-107 | Whatever the composers do and however threads interleave, every action and reply passed the firewall for its brief and takes its figures from the facts |
| GroundedRuns.CleanNeverSilent | src/vera/pipeline.py:37-107 | A clean brief with room for its CTA always gets a message that passes, whatever the composer does |
| GroundedRuns.TemplateEndsByFourthTurn | src/vera/generation/brief.py:60-65 | With the deterministic composer a conversation ends by its fourth turn after at most two replies |

## Left out

- The Anthropic and Gemini providers, prompts and JSON parsing: a composer call is any outcome, a
  message, a failure or a time-out, chosen anew for every brief.
- FastAPI routing, request parsing, byte limits, status codes, logging, redaction, metadata and health
  checks; template names and parameters and the rationale texts, which are read off the brief and the
  decision.
- The thread pool, wall-clock time-outs and the tick's time budget, which only choose the outcome.
- Teardown: runs are those of one epoch. `ConversationStore.create` and `record_sent`, which no handler calls.
- Regular-expression matching is a scan from every position; ASCII letters and digits only, with
  lower-casing of ASCII letters. White space is everything Python counts as white space.
- Which facts a generator picks, the formatting of payload numbers and the evidence lists: the facts' text
  is a parameter of a tick. How each fact is spelled and the figures it allows, the summary insertion and
  claim stripping are modelled on their own.
- Raw payload dictionaries and date parsing: contexts have their optional fields resolved; a payload
  can be read through each of the four envelopes; a time is an instant that may lack a time zone.
- Floating point: scores are exact reals.
- Draining.ChunksOfTwenty: the tick's speakers are fixed, as with the deterministic composer; a provider
  may phrase an item differently, or not at all, the second time.
- Interleavings: the reads of one item's contexts are one step that may return anything at all; marking
  the key and appending the action are one step, since the action list is the thread's own.
- `docs/`, `scripts/` and the test evaluation code.
