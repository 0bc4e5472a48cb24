# AISlackBot conversation engine, modelled in Dafny

AISlackBot answers questions asked in a Slack channel. A top-level message containing
`?` is a question. The bot classifies it, posts the best-scoring stored answer in the
question's thread with three feedback buttons and a confidence footer, and records a
*thread context* for that thread. The buttons are "Good answer", "Wrong answer" and
"Answer has changed". Feedback then drives a small state machine:

- a good answer teaches the record the new phrasing of the question;
- a wrong answer moves down the list of remaining candidates, the *rejection cascade*;
- a changed answer asks the channel for an improved answer.

When nothing scores well enough, the bot starts an *acquisition*. It broadcasts the
question with an "Acquisition Code" footer, and the first reply in that broadcast's
thread becomes the stored answer. Improvements work the same way.

The model covers:

- the dialogue engine (`src/index.ts`);
- candidate handling and corpus enumeration (`ClassifierUtils`);
- acquisition-code parsing (`SlackUtils.tryGetAcquisitionId`);
- the three-namespace state cache (`StateCache`);
- the record store (`QAStorage`);
- the message attachments;
- the two Slack input guards.

Layout, one module per source file:

| file | module | models |
|---|---|---|
| `strings.dfy` | `Strings` | the JavaScript string operations used: `toLowerCase`, `indexOf`, `startsWith`, `replace`, number-to-text |
| `types.dfy` | `Types` | the enums and interfaces. A thread context is `Pending(threadId)` or `Guessed(threadId, question, guessedAnswer, classifications)`. Exceptions are an `Outcome` |
| `attachments.dfy` | `Attachments` | `AnswerFeedbackButtons`, `getFooter` |
| `classifier.dfy` | `Classifier` | `interpret`, `removeAnswerFromProbabilities`, the document enumeration of `trainFromDb` |
| `slack.dfy` | `Slack` | `tryGetAcquisitionId` |
| `state_cache.dfy` | `Cache` | key generators, namespace isolation, class `StateCache` |
| `storage.dfy` | `Storage` | class `QAStorage` over a map from label to record |
| `slack_events.dfy` | `SlackEvents` | the `message` filter |
| `slack_interactions.dfy` | `SlackInteractions` | the `answer_feedback` guard chain |
| `dialogue.dfy` | `Dialogue` | each handler of `index.ts` as a transition of the whole state. The state is the cache entries, the record store and the sent messages |
| `dialogue_properties.dfy` | `DialogueProperties` | what the engine guarantees, proved about those transitions |
| `engine.dfy` | `Engine` | class `ConversationEngine`: the handlers as imperative methods over the cache object, the store object and the outbox, each proved to perform its `Dialogue` transition |

### How the model treats errors and outside inputs

An exception the source can raise ends a handler with `Threw(TypeError)` or
`Threw(DataError)`. The state changes made before the throw stay. Three kinds of throw
occur:

- reading a property of `undefined`;
- `reduce` over an empty list;
- a lookup of a missing path in the JSON store.

The engine's defects are modelled as written, and lemmas exhibit each one:

- When a cascade runs out of candidates, `sendNextBestQuestionGuess` reads the score of
  the missing candidate before its `undefined` test (`src/index.ts:236`). The run
  therefore throws instead of starting an acquisition (`ExhaustedCascadeThrows`).
- "Good answer" and "Answer has changed" use the label of the first *remaining*
  candidate (`src/index.ts:190`, `src/index.ts:222`). After a cascade step, that is not
  the answer shown. The record is then filed under another label
  (`GoodAnswerAfterCascadeMisfiles`), and an empty list throws
  (`GoodAnswerWithNoCandidateLeftThrows`, `AnswerChangedWithNoCandidateLeftThrows`).
- The interaction handler passes a Pending context on as if it were Guessed, and
  lower-casing its missing question throws (`FeedbackOnPendingThrows`).
- `feedback in AnswerFeedbackResponses` also accepts the property names every object
  inherits, such as `toString`. Such a click passes the guard and changes nothing
  (`PrototypeNameClickChangesNothing`).

Some inputs come from outside the engine and are parameters:

- the classifier: text to candidate list;
- the md5 label digest: `hash`;
- the id `uniqid()` generates: `freshId`;
- the thread `getThread` returns: `thread`;
- the deployment's channel.

Sent messages are appended to an outbox.

Two details follow the code closely:

- the acquisition code is read from the thread's root message (`src/Utils/SlackUtils.ts:76-91`);
- training adds each record's answer as a document as well as its questions (`src/Utils/ClassifierUtils.ts:18-40`).

## Model

| member | source | states |
|---|---|---|
| Engine.ConversationEngine.constructor | src/index.ts:24-33 | start-up state: empty cache, the stored records, empty outbox, no classifier loaded |
| Engine.ConversationEngine.InstallClassifier | src/index.ts:57-62 | a loaded classifier replaces the current one and marks the classifier as trained; nothing else changes |
| Engine.ConversationEngine.SendMessage | src/Utils/SlackUtils.ts:38-56 | a message is appended to the outbox with its text, thread and attachments |
| Engine.ConversationEngine.InterpretQuestionAndGuessAnswer | src/index.ts:97-123 | the resolution handler ends in exactly the state and outcome of `Dialogue.InterpretQuestionAndGuessAnswer` |
| Engine.ConversationEngine.SendAnswerAndGatherFeedback | src/index.ts:135-161 | posts the answer with the feedback buttons and a "Conf. n%" footer, n = round(100·score), then stores the Guessed context, as `Dialogue.SendAnswerAndGatherFeedback` |
| Engine.ConversationEngine.ProcessFeedbackOnGuessedAnswer | src/index.ts:171-225 | the feedback handler ends in exactly the state and outcome of `Dialogue.ProcessFeedbackOnGuessedAnswer` |
| Engine.ConversationEngine.SendNextBestQuestionGuess | src/index.ts:233-265 | the cascade step ends in exactly the state and outcome of `Dialogue.SendNextBestQuestionGuess` |
| Engine.ConversationEngine.StartNewQuestionAnswerAcquisition | src/index.ts:273-297 | acquisition start ends as `Dialogue.StartNewQuestionAnswerAcquisition`: apology, thread cleared, acquisition recorded, code-tagged broadcast |
| Engine.ConversationEngine.AcquireNewQuestionAnswer | src/index.ts:306-317 | acquisition completion ends as `Dialogue.AcquireNewQuestionAnswer` |
| Engine.ConversationEngine.StartImproveExistingAnswerAcquisition | src/index.ts:327-353 | improvement start ends as `Dialogue.StartImproveExistingAnswerAcquisition` |
| Engine.ConversationEngine.AcquireImproveExistingAnswer | src/index.ts:362-374 | improvement completion ends in exactly the state and outcome of `Dialogue.AcquireImproveExistingAnswer`; a missing record throws DataError with nothing changed |
| Engine.ConversationEngine.HandleIncomingSlackMessage | src/index.ts:382-451 | the router ends in exactly the state and outcome of `Dialogue.HandleIncomingSlackMessage` |
| Engine.ConversationEngine.OnMessageEvent | src/index.ts:453-455 | event filter then router, as `Dialogue.OnMessageEvent` |
| Engine.ConversationEngine.OnFeedbackClick | src/index.ts:457-459 | interaction guards (reading the live cache) then feedback handler, as `Dialogue.OnFeedbackClick` |
| Dialogue.SendAnswerAndGatherFeedback | src/index.ts:135-161 | the store is untouched; exactly one message is posted, the guessed answer, in the question's thread |
| Dialogue.StartNewQuestionAnswerAcquisition | src/index.ts:273-297 | throws TypeError with nothing changed iff the fetched thread is empty; never writes the store; otherwise posts two messages, the last a top-level broadcast carrying the acquisition-code footer |
| Dialogue.AcquireNewQuestionAnswer | src/index.ts:306-317 | the reply is stored under its digest with the lower-cased question, every other record is kept, and one message is posted |
| Dialogue.StartImproveExistingAnswerAcquisition | src/index.ts:327-353 | the store is untouched; one top-level message carrying the acquisition-code footer is posted |
| Dialogue.AcquireImproveExistingAnswer | src/index.ts:362-374 | throws DataError with nothing changed iff the lower-cased label is missing; otherwise the label holds the new answer, no record is lost, and the thanks is posted |
| Dialogue.SendNextBestQuestionGuess | src/index.ts:233-265 | an empty candidate list throws TypeError with nothing changed; the store is never written; posted messages are kept |
| Dialogue.ProcessFeedbackOnGuessedAnswer | src/index.ts:171-225 | a Pending context throws TypeError with nothing changed; an unknown feedback value changes nothing; only GOOD writes the store; no record is ever removed and posted messages are kept |
| Dialogue.InterpretQuestionAndGuessAnswer | src/index.ts:97-123 | resolution never writes the store; an empty candidate list throws TypeError before anything is posted |
| Dialogue.HandleIncomingSlackMessage | src/index.ts:382-451 | another channel's message or DUMP changes nothing; no record is ever removed and posted messages are kept |
| Dialogue.OnMessageEvent | src/index.ts:453-455 | a bot message or a message without text changes nothing; no record is removed and posted messages are kept |
| Dialogue.OnFeedbackClick | src/index.ts:457-459 | a click on a thread with no stored context changes nothing; no record is removed and posted messages are kept |
| Dialogue.AcceptQuestion | src/index.ts:182-191 | the accepted phrasing is in the result; the label, the answer and the earlier phrasings are kept; at most one phrasing is added, and only when it was absent; a duplicate-free list stays duplicate-free |
| DialogueProperties.OtherChannelIgnored | src/index.ts:384-387 | a message from another channel changes nothing |
| DialogueProperties.TopLevelStatementIgnored | src/index.ts:397-418 | a top-level message without '?' changes nothing |
| DialogueProperties.QuestionGoesToClassifier | src/index.ts:397-413 | a top-level question, classifier loaded, no marker: resolution in the thread named by the question's timestamp |
| DialogueProperties.ForcedQuestionStartsAcquisition | src/index.ts:405-409 | no classifier, or the '***! ' marker: acquisition of the question with its first marker removed |
| DialogueProperties.ForcedQuestionSkipsClassifier | src/index.ts:405-409 | a forced question's run is the same whatever the classifier |
| DialogueProperties.ReplyWithoutCodeIgnored | src/index.ts:423-431 | a reply in a thread whose root has no acquisition code changes nothing |
| DialogueProperties.ReplyCompletesAcquisition | src/index.ts:433-440 | a code naming a new-answer acquisition completes that flow, and no improvement entry changes |
| DialogueProperties.ReplyCompletesImprovement | src/index.ts:442-449 | only when no new-answer acquisition has the code does an improvement with it get completed |
| DialogueProperties.ReplyWithStaleCodeIgnored | src/index.ts:433-451 | a code naming neither kind of acquisition changes nothing |
| DialogueProperties.BotMessagesIgnored | src/Middleware/SlackEvents.ts:22-24 | bot messages and text-less events change nothing |
| DialogueProperties.StartAcquisitionEffects | src/index.ts:273-297 | needs a thread root, else TypeError; clears the thread context, records {freshId, question}, keeps every other entry and the store, sends apology then code-tagged broadcast |
| DialogueProperties.CompleteAcquisitionEffects | src/index.ts:306-317 | stores {answer, [lower(question)]} under hash(answer) with that label; clears this thread's context and this acquisition; every other thread, every other acquisition and every improvement are untouched; thanks the thread |
| DialogueProperties.CompleteImprovementEffects | src/index.ts:362-374 | a missing label throws DataError with nothing changed. For a lower-case label: the answer is replaced and the label field set to the label, the questions are kept; this thread and this improvement are cleared; every other thread, every other improvement and every acquisition are untouched |
| DialogueProperties.ResolutionFailureLeavesPending | src/index.ts:97-123 | resolution first records Pending; a run that throws leaves the thread Pending |
| DialogueProperties.LowConfidenceStartsAcquisition | src/index.ts:104-111 | no score above 0.5: acquisition starts and the thread never holds a Guessed context |
| DialogueProperties.ConfidentGuessIsShown | src/index.ts:104-122 | a guess (score > 0.5) is posted with its score; the thread records question, fetched record and the full candidate list; no other thread, acquisition or improvement changes |
| DialogueProperties.FeedbackOnPendingThrows | src/index.ts:177 | feedback on a Pending context throws with nothing changed |
| DialogueProperties.GoodAnswerAcceptsQuestion | src/index.ts:177-196 | thanks and deletes the thread context. A known phrasing leaves the store unchanged. A new lower-cased phrasing is appended and the record stored under the top remaining label, with other labels unchanged. No other thread, acquisition or improvement changes |
| DialogueProperties.GoodAnswerTwiceStoresOnce | src/index.ts:182-193 | "good" on the record as just updated leaves the store unchanged (repeated acceptance is idempotent) |
| DialogueProperties.GoodAnswerWithNoCandidateLeftThrows | src/index.ts:182-191 | a new phrasing with no candidate left throws and stores nothing |
| DialogueProperties.GoodAnswerAfterCascadeMisfiles | src/index.ts:188-191 | after a cascade, the record is filed under a label other than the shown one and keeps the shown label inside; the shown label's own record is unchanged |
| DialogueProperties.OtherFeedbackIgnored | src/index.ts:198-224 | "wrong" on an unlabelled record, and any feedback outside the three responses, change nothing |
| DialogueProperties.PrototypeNameClickChangesNothing | src/Middleware/SlackInteractions.ts:39-43 | a click named after an inherited object property passes the guard and leaves the state unchanged |
| DialogueProperties.StaleClickIgnored | src/Middleware/SlackInteractions.ts:46-50 | a click on a thread without a stored context changes nothing |
| DialogueProperties.AnswerChangedStartsImprovement | src/index.ts:219-223 | records {freshId, top remaining label, guessed answer} as an improvement; every other improvement, all thread contexts, the store and acquisitions are untouched; broadcasts the request with the code |
| DialogueProperties.AnswerChangedWithNoCandidateLeftThrows | src/index.ts:222 | with no candidate left it throws with nothing changed |
| DialogueProperties.ExhaustedCascadeThrows | src/index.ts:233-242 | rejecting the last candidate throws: the emptied list is stored and no acquisition starts |
| DialogueProperties.CascadeBelowCutoffStartsAcquisition | src/index.ts:239-242 | best remaining score ≤ 0.15: acquisition of the lower-cased question under the fresh id, thread context cleared, apology and code-tagged broadcast posted; the store, every other thread, every other acquisition and every improvement are untouched |
| DialogueProperties.CascadeOffersNextCandidate | src/index.ts:245-263 | the next candidate is shown with its own score and stored as the guess; neither it nor the rejected label remains among the candidates; no other thread, acquisition or improvement changes |
| DialogueProperties.RejectionShrinksReserve | src/index.ts:198-254 | every completed rejection strictly lowers the thread's number of stored candidates, so repeated rejection ends |
| DialogueProperties.UnansweredQuestionIsBroadcast | src/index.ts:401-409 | without a classifier, a question is recorded as an acquisition under the fresh code and the last message carries that code |
| DialogueProperties.BroadcastReplyStoresAnswer | src/index.ts:423-440 | a reply under a broadcast tagged with a pending code stores the answer with the lower-cased question and closes the acquisition |
| DialogueProperties.UnansweredQuestionRoundTrip | src/index.ts:382-451 | question, then a reply in the thread rooted at the last message the first run posted: the answer ends up stored under its digest with the lower-cased question and the acquisition is closed |
| Classifier.BestIndex | src/Utils/ClassifierUtils.ts:69 | the reduce settles on a maximum score, the last of equal maxima |
| Classifier.LastMaximumUnique | src/Utils/ClassifierUtils.ts:69 | that index is unique |
| Classifier.Interpret | src/Utils/ClassifierUtils.ts:66-75 | classifies the lower-cased phrase and returns its list unchanged; probability is the maximum score (later wins ties); a guess, the best label, exactly when the score is > 0.5 |
| Classifier.RemoveAnswerFromProbabilities | src/Utils/ClassifierUtils.ts:83-99 | the loop builds exactly the order-preserving filter `Without` |
| Classifier.WithoutAppend | src/Utils/ClassifierUtils.ts:89-96 | filtering distributes over appending one candidate |
| Classifier.WithoutMembers | src/Utils/ClassifierUtils.ts:92 | a candidate is kept iff it was present and carries another label |
| Classifier.WithoutIsSubsequence | src/Utils/ClassifierUtils.ts:89-96 | the result is a subsequence of the input: relative order is kept |
| Classifier.WithoutIdempotent | src/Utils/ClassifierUtils.ts:83-99 | removing a label twice is removing it once |
| Classifier.WithoutAbsent | src/Utils/ClassifierUtils.ts:83-99 | removing an absent label is the identity |
| Classifier.WithoutShrinks | src/Utils/ClassifierUtils.ts:89-96 | never longer, and strictly shorter when the label occurs |
| Classifier.WithoutKeepsDescending | src/Utils/ClassifierUtils.ts:89-96 | a descending list stays descending |
| Classifier.CorpusDocumentsComplete | src/Utils/ClassifierUtils.ts:18-40 | exactly the stored phrases are documents: every document is a question or the answer of its own stored label, and each label contributes its answer and every question |
| Classifier.TrainFromDb | src/Utils/ClassifierUtils.ts:13-44 | no classifier exactly when the corpus is empty; otherwise the documents added are exactly the corpus documents |
| Slack.TryGetAcquisitionId | src/Utils/SlackUtils.ts:75-93 | throws iff there is no root message, or the root is a bot message with an empty attachment list. A code is returned only from a bot root whose first footer is the prefix followed by that code |
| Slack.NotBotMessageHasNoCode | src/Utils/SlackUtils.ts:76-78 | a root that is not a bot message yields no code |
| Slack.NoFooterCodeHasNoCode | src/Utils/SlackUtils.ts:80-89 | no attachments, no footer, or no prefix: no code |
| Slack.PrefixedFooterYieldsRest | src/Utils/SlackUtils.ts:91 | otherwise exactly the footer text after the prefix |
| Slack.AcquisitionCodeRoundTrip | src/Utils/SlackUtils.ts:87-91 | the footer built from any id parses back to that id |
| Slack.OnlyRootInspected | src/Utils/SlackUtils.ts:76-85 | replies never change the result |
| SlackEvents.OnMessage | src/Middleware/SlackEvents.ts:19-29 | dropped iff a bot message or text-less; otherwise one call with (text, event) |
| SlackEvents.OtherSubtypesPass | src/Middleware/SlackEvents.ts:22 | any other subtype with text passes |
| SlackInteractions.OnAnswerFeedback | src/Middleware/SlackInteractions.ts:21-54 | the callback runs iff there is an action with a name, a thread id, a name known to the enum (by `in`), and a stored context. It receives the first action's name, that context and the user |
| SlackInteractions.ButtonsReachHandler | src/Models/MessageAttachments.ts:13-33 | the buttons carry the handler's callback id and names it accepts |
| SlackInteractions.OnlyFirstActionRead | src/Middleware/SlackInteractions.ts:35 | actions after the first never change the call |
| Attachments.GetFooter | src/Models/MessageAttachments.ts:44-51 | exactly one attachment, whose footer and fallback are the text |
| Attachments.FeedbackButtonsShape | src/Models/MessageAttachments.ts:10-37 | one attachment: good, wrong, changed in that order; value equals name; callback id 'answer_feedback' |
| Cache.KeyInjective | src/Utils/StateCache.ts:64-74 | prefix + id is injective within a namespace |
| Cache.KeysDisjoint | src/Utils/StateCache.ts:64-74 | keys of different namespaces never collide |
| Cache.KeyDetermines | src/Utils/StateCache.ts:64-74 | a key determines its namespace and id |
| Cache.GetAfterPut | src/Utils/StateCache.ts:16-22 | a get after a set returns the value set |
| Cache.GetAfterPutOther | src/Utils/StateCache.ts:16-46 | a set leaves every other id in every namespace as it was |
| Cache.GetAfterDelete | src/Utils/StateCache.ts:52-62 | a get after a delete returns null |
| Cache.GetAfterDeleteOther | src/Utils/StateCache.ts:24-26 | a delete leaves every other entry as it was |
| Cache.DeleteIdempotent | src/Utils/StateCache.ts:52-54 | deleting twice is deleting once |
| Cache.PutOverwrites | src/Utils/StateCache.ts:16-18 | a later set overwrites an earlier one |
| Cache.EmptyHasNothing | src/Utils/StateCache.ts:56-62 | a fresh cache answers null, not an error |
| Cache.ThreadWritesIsolated | src/Utils/StateCache.ts:16-26 | thread writes leave both acquisition namespaces unchanged |
| Cache.AcquisitionWritesIsolated | src/Utils/StateCache.ts:28-38 | acquisition writes leave threads and improvements unchanged |
| Cache.ImproveWritesIsolated | src/Utils/StateCache.ts:40-50 | improvement writes leave threads and acquisitions unchanged |
| Cache.ThreadWriteKeepsOtherThreads | src/Utils/StateCache.ts:16-26 | setting or deleting one thread's context leaves every other thread's context as it was |
| Cache.AcquisitionWriteKeepsOtherAcquisitions | src/Utils/StateCache.ts:28-38 | setting or deleting one acquisition leaves every other acquisition as it was |
| Cache.ImproveWriteKeepsOtherImprovements | src/Utils/StateCache.ts:40-50 | setting or deleting one improvement leaves every other improvement as it was |
| Cache.StateCache.constructor | src/Utils/StateCache.ts:12-14 | starts empty |
| Cache.StateCache.SetThreadState | src/Utils/StateCache.ts:16-18 | the entries become the old ones with the thread key set |
| Cache.StateCache.GetThreadState | src/Utils/StateCache.ts:20-22 | the stored context, or None |
| Cache.StateCache.DeleteThreadState | src/Utils/StateCache.ts:24-26 | the entries lose the thread key |
| Cache.StateCache.SetAcquisitionState | src/Utils/StateCache.ts:28-30 | the entries become the old ones with the acquisition key set |
| Cache.StateCache.GetAcquisitionState | src/Utils/StateCache.ts:32-34 | the stored acquisition, or None |
| Cache.StateCache.DeleteAcquisitionState | src/Utils/StateCache.ts:36-38 | the entries lose the acquisition key |
| Cache.StateCache.SetImproveAnswerAcquisitionState | src/Utils/StateCache.ts:40-42 | the entries become the old ones with the improvement key set |
| Cache.StateCache.GetImproveAnswerAcquisitionState | src/Utils/StateCache.ts:44-46 | the stored improvement, or None |
| Cache.StateCache.DeleteImproveAnswerAcquisitionState | src/Utils/StateCache.ts:48-50 | the entries lose the improvement key |
| Storage.GetFromLabel | src/Utils/StorageUtils.ts:52-57 | found iff the lower-cased label is stored (else DataError); the record comes back with its label set to the argument as given |
| Storage.Store | src/Utils/StorageUtils.ts:34-45 | inserts or replaces under the given label or the answer's digest, leaving other labels unchanged |
| Storage.StoreWithoutLabel | src/Utils/StorageUtils.ts:39-42 | without a label, the record carries and sits under hash(answer) |
| Storage.StoreThenGet | src/Utils/StorageUtils.ts:39-56 | a record stored without a label is found again under its (lower-case) digest |
| Storage.ReplaceAnswer | src/Utils/StorageUtils.ts:19-26 | fails iff the lower-cased label is missing; the label as given then holds the record read from the lower-cased label, with its label field set to the label and its answer replaced; the entry that was read holds the same updated record; all other labels unchanged |
| Storage.ReplaceAnswerKeepsQuestions | src/Utils/StorageUtils.ts:19-26 | for a lower-case label the answer is replaced and the label field set to the label; the questions are kept and no label is added |
| Storage.QAStorage.constructor | src/Utils/StorageUtils.ts:9-11 | the store holds the given records |
| Storage.QAStorage.UpdateAnswer | src/Utils/StorageUtils.ts:19-26 | the db becomes `ReplaceAnswer` of the old db, or stays and DataError is raised |
| Storage.QAStorage.StoreOrUpdateLabelledQuestionWithAnswer | src/Utils/StorageUtils.ts:34-45 | the db becomes `Store` of the old db; the returned record carries its label |
| Storage.QAStorage.GetQuestionWithAnswerFromLabel | src/Utils/StorageUtils.ts:52-57 | the result is `GetFromLabel` of the current db |
| Strings.Lower | src/index.ts:177 | same length, each character case-folded |
| Strings.LowerIdempotent | src/index.ts:177 | folding twice is folding once |
| Strings.IndexOf | src/index.ts:397 | the first occurrence, or -1 when there is none |
| Strings.ContainsChar | src/index.ts:397 | `indexOf(c) > -1` iff c occurs |
| Strings.ReplacePrefix | src/Utils/SlackUtils.ts:87-91 | replacing a leading prefix with '' strips exactly that prefix |
| Strings.ReplaceAbsent | src/index.ts:406 | replacing an absent pattern changes nothing |

## Left out

- Strings.Lower: folds ASCII letters only; JavaScript's `toLowerCase` also folds non-ASCII letters.
- Scores are exact reals, not IEEE doubles. `Math.round` is modelled as floor(x + 0.5), which is exact only for reals.
- The classifier itself (the `natural` library's training, scoring, saving and loading) is a parameter. So are the md5 digest and `uniqid`. `Storage.StoreThenGet` requires only that digests are lower case.
- `loadClassifier` and `trainClassifierWork` are reduced to `InstallClassifier`. Their file checks, process exit and the background retrainer in `src/poller.ts` are left out.
- Slack network I/O is left out: posting (an outbox stands in), fetching a thread (a parameter), and the interaction handler's `respond` echo.
- A message posted without attachments is recorded with an empty list.
- The `DUMP` command is modelled as changing no state. It calls `slackUtils.sendTextSnippet` (`src/index.ts:392`), which `src/Utils/SlackUtils.ts` does not define, so what it would send is not modelled.
- `src/index.ts` calls three names that `src/Models/MessageAttachments.ts` does not export: `AnswerFeedbackButtonsAttachment` (line 149) and `getFooterAttachment` (lines 150, 284 and 345). The module exports `AnswerFeedbackButtons` and `getFooter`, each a one-element array. The model uses that one element, `AnswerFeedbackButtons[0]` and `GetFooter(text)[0]`, wherever the missing names are used.
- Handlers run to completion one at a time. The un-awaited async calls, and the interleavings they would allow, are not modelled. Neither are Express wiring, `app.listen` and `fs.watchFile`.
- node-cache TTLs are left out, and cache values are plain values, as node-cache's cloning makes them. node-json-db's nesting of `/`-separated label paths is left out: a label is a plain map key.
- Storage.GetFromLabel / Storage.ReplaceAnswer: node-json-db's `getData` hands out the stored object itself, not a copy. Two effects of that are modelled only in part:
  - `getQuestionWithAnswerFromLabel` (`src/Utils/StorageUtils.ts:54`) sets `label` on the stored record at the lower-cased label, so every lookup rewrites that record's `label` field. `GetFromLabel` leaves the store unchanged. The stored value of that field decides nothing the model covers: every lookup sets it on the record it returns, and training keys by the map key. Only the `DUMP` output would show it.
  - after `updateAnswer` with a label that is not lower case (`src/Utils/StorageUtils.ts:19-26`), the label and the lower-cased label hold one shared object. `ReplaceAnswer` gives both entries the same updated value, but they are two values, so a later in-place change to one is not seen in the other.
