/**
  What the conversation engine guarantees, proved about the transitions of module
  Dialogue: how a message is routed, what resolving a question records, what each kind
  of feedback does (including the two places where the engine reads a candidate list
  that may be empty), the shape of the acquisition flows, and the full loop from an
  unanswered question to a stored answer.
 */
module DialogueProperties {
  import opened Types
  import opened Strings
  import Cache
  import Storage
  import Classifier
  import Slack
  import SlackInteractions
  import opened Dialogue

  /** How many candidates a thread holds in reserve: 0 unless a guessed context is stored. */
  function Reserve(c: Cache.Entries, threadId: string): nat {
    match Cache.GetThread(c, threadId)
    case Some(Guessed(_, _, _, classifications)) => |classifications|
    case _ => 0
  }

  // ---------------------------------------------------------------------------------
  // Routing of incoming messages

  /** A message from any other channel changes nothing. */
  lemma OtherChannelIgnored(w: World, env: Env, message: string, event: MessageEvent,
                            thread: MessageThread, freshId: string)
    requires event.channel != env.channel
    ensures HandleIncomingSlackMessage(w, env, message, event, thread, freshId) == Step(w, Completed)
  {
  }

  /** A top-level message without a question mark is general chatter: nothing changes. */
  lemma TopLevelStatementIgnored(w: World, env: Env, message: string, event: MessageEvent,
                                 thread: MessageThread, freshId: string)
    requires '?' !in message && event.threadTs.None?
    ensures HandleIncomingSlackMessage(w, env, message, event, thread, freshId) == Step(w, Completed)
  {
    ContainsChar(message, '?');
  }

  /** A top-level question, with a classifier loaded and no force marker, is resolved by
      the classifier in a thread under the question's own timestamp. */
  lemma QuestionGoesToClassifier(w: World, env: Env, message: string, event: MessageEvent,
                                 thread: MessageThread, freshId: string)
    requires event.channel == env.channel && '?' in message && event.threadTs.None?
    requires env.classifierTrained && !Contains(message, FORCE_ACQUISITION_MARKER)
    ensures HandleIncomingSlackMessage(w, env, message, event, thread, freshId)
         == InterpretQuestionAndGuessAnswer(w, env, message, event.ts, thread, freshId)
  {
    ContainsChar(message, '?');
    assert message != DUMP_COMMAND by {
      assert '?' !in DUMP_COMMAND;
    }
  }

  /** Without a classifier, or with the force marker, a top-level question goes straight
      to acquisition, with the first marker removed. */
  lemma ForcedQuestionStartsAcquisition(w: World, env: Env, message: string, event: MessageEvent,
                                        thread: MessageThread, freshId: string)
    requires event.channel == env.channel && '?' in message && event.threadTs.None?
    requires !env.classifierTrained || Contains(message, FORCE_ACQUISITION_MARKER)
    ensures HandleIncomingSlackMessage(w, env, message, event, thread, freshId)
         == StartNewQuestionAnswerAcquisition(w, ReplaceFirst(message, FORCE_ACQUISITION_MARKER, ""), event.ts,
                                              thread, freshId)
  {
    ContainsChar(message, '?');
    assert message != DUMP_COMMAND by {
      assert '?' !in DUMP_COMMAND;
    }
  }

  /** A forced question never consults the classifier: any other classifier gives the
      same run. */
  lemma ForcedQuestionSkipsClassifier(w: World, env: Env, message: string, event: MessageEvent,
                                      thread: MessageThread, freshId: string,
                                      otherClassify: string -> seq<Candidate>)
    requires event.channel == env.channel && '?' in message && event.threadTs.None?
    requires !env.classifierTrained || Contains(message, FORCE_ACQUISITION_MARKER)
    ensures HandleIncomingSlackMessage(w, env, message, event, thread, freshId)
         == HandleIncomingSlackMessage(w, env.(classify := otherClassify), message, event, thread, freshId)
  {
    ForcedQuestionStartsAcquisition(w, env, message, event, thread, freshId);
    ForcedQuestionStartsAcquisition(w, env.(classify := otherClassify), message, event, thread, freshId);
  }

  /** A threaded reply in the bot's channel that is not the dump command. */
  predicate IsReply(env: Env, message: string, event: MessageEvent) {
    event.channel == env.channel && message != DUMP_COMMAND && event.threadTs.Some?
  }

  /** A reply in a thread whose root carries no acquisition code changes nothing. */
  lemma ReplyWithoutCodeIgnored(w: World, env: Env, message: string, event: MessageEvent,
                                thread: MessageThread, freshId: string)
    requires IsReply(env, message, event) && Slack.TryGetAcquisitionId(thread) == Ok(None)
    ensures HandleIncomingSlackMessage(w, env, message, event, thread, freshId) == Step(w, Completed)
  {
  }

  /** A reply under a broadcast whose code names a pending new-answer acquisition completes
      that acquisition, and never touches the improve-answer namespace, even when the same
      code also names an improvement. */
  lemma ReplyCompletesAcquisition(w: World, env: Env, message: string, event: MessageEvent,
                                  thread: MessageThread, freshId: string, code: string,
                                  acquisition: AnswerAcquisition)
    requires IsReply(env, message, event) && Slack.TryGetAcquisitionId(thread) == Ok(Some(code))
    requires Cache.GetAcquisition(w.cache, code) == Some(acquisition)
    ensures HandleIncomingSlackMessage(w, env, message, event, thread, freshId)
         == Step(AcquireNewQuestionAnswer(w, message, acquisition, event.threadTs.value, env.hash), Completed)
    ensures forall id :: Cache.GetImprove(HandleIncomingSlackMessage(w, env, message, event, thread, freshId).world.cache, id)
                      == Cache.GetImprove(w.cache, id)
  {
    CompleteAcquisitionEffects(w, message, acquisition, event.threadTs.value, env.hash);
  }

  /** A reply under a broadcast whose code names only an improvement completes it. */
  lemma ReplyCompletesImprovement(w: World, env: Env, message: string, event: MessageEvent,
                                  thread: MessageThread, freshId: string, code: string,
                                  improvement: ImproveAnswerAcquisition)
    requires IsReply(env, message, event) && Slack.TryGetAcquisitionId(thread) == Ok(Some(code))
    requires Cache.GetAcquisition(w.cache, code) == None && Cache.GetImprove(w.cache, code) == Some(improvement)
    ensures HandleIncomingSlackMessage(w, env, message, event, thread, freshId)
         == AcquireImproveExistingAnswer(w, message, improvement, event.threadTs.value)
  {
  }

  /** A reply under a broadcast whose code is no longer pending changes nothing. */
  lemma ReplyWithStaleCodeIgnored(w: World, env: Env, message: string, event: MessageEvent,
                                  thread: MessageThread, freshId: string, code: string)
    requires IsReply(env, message, event) && Slack.TryGetAcquisitionId(thread) == Ok(Some(code))
    requires Cache.GetAcquisition(w.cache, code) == None && Cache.GetImprove(w.cache, code) == None
    ensures HandleIncomingSlackMessage(w, env, message, event, thread, freshId) == Step(w, Completed)
  {
  }

  /** The bot's own messages, and events without text, never reach the router. */
  lemma BotMessagesIgnored(w: World, env: Env, event: MessageEvent, thread: MessageThread, freshId: string)
    requires event.subtype == Some(BOT_MESSAGE) || event.text.None?
    ensures OnMessageEvent(w, env, event, thread, freshId) == Step(w, Completed)
  {
  }

  // ---------------------------------------------------------------------------------
  // Acquisition flows

  /** Starting an acquisition needs the question's thread; then it clears the thread's
      context, records the question under the fresh id, apologises in the thread and
      broadcasts the question tagged with the fresh id. Nothing else changes. */
  lemma StartAcquisitionEffects(w: World, question: string, threadId: string, thread: MessageThread, freshId: string)
    ensures |thread.messages| == 0 ==>
              StartNewQuestionAnswerAcquisition(w, question, threadId, thread, freshId) == Step(w, Threw(TypeError))
    ensures |thread.messages| > 0 ==>
              var s := StartNewQuestionAnswerAcquisition(w, question, threadId, thread, freshId);
              && s.outcome == Completed
              && s.world.db == w.db
              && Cache.GetThread(s.world.cache, threadId) == None
              && (forall id :: id != threadId ==> Cache.GetThread(s.world.cache, id) == Cache.GetThread(w.cache, id))
              && Cache.GetAcquisition(s.world.cache, freshId) == Some(AnswerAcquisition(freshId, question))
              && (forall id :: id != freshId ==>
                    Cache.GetAcquisition(s.world.cache, id) == Cache.GetAcquisition(w.cache, id))
              && (forall id :: Cache.GetImprove(s.world.cache, id) == Cache.GetImprove(w.cache, id))
              && s.world.outbox == w.outbox + [Outgoing(APOLOGY, Some(threadId), []),
                                               Outgoing(AskText(thread.messages[0].user, question), None,
                                                        [CodeFooter(freshId)])]
  {
    if |thread.messages| > 0 {
      var c1 := Cache.DeleteThread(w.cache, threadId);
      var acquisition := AnswerAcquisition(freshId, question);
      var c2 := Cache.PutAcquisition(c1, freshId, acquisition);
      assert StartNewQuestionAnswerAcquisition(w, question, threadId, thread, freshId).world.cache == c2;
      forall id
        ensures Cache.GetThread(c2, id) == (if id == threadId then None else Cache.GetThread(w.cache, id))
        ensures Cache.GetImprove(c2, id) == Cache.GetImprove(w.cache, id)
        ensures id != freshId ==> Cache.GetAcquisition(c2, id) == Cache.GetAcquisition(w.cache, id)
      {
        Cache.AcquisitionWritesIsolated(c1, freshId, acquisition, id);
        Cache.ThreadWritesIsolated(w.cache, threadId, Pending(threadId), id);
        if id == threadId {
          Cache.GetAfterDelete(w.cache, Cache.Threads, threadId);
        } else {
          Cache.GetAfterDeleteOther(w.cache, Cache.Threads, threadId, Cache.Threads, id);
        }
        if id != freshId {
          Cache.GetAfterPutOther(c1, Cache.Acquisitions, freshId, Cache.AcquisitionEntry(acquisition),
                                 Cache.Acquisitions, id);
        }
      }
      Cache.GetAfterPut(c1, Cache.Acquisitions, freshId, Cache.AcquisitionEntry(acquisition));
    }
  }

  /** Completing an acquisition stores the answer with the lower-cased question, under
      the digest of the answer; it clears the reply thread's context and the acquisition,
      thanks the thread, and leaves every other record, every other thread's context, every
      other pending acquisition and every improvement as it was. */
  lemma CompleteAcquisitionEffects(w: World, answer: string, acquisition: AnswerAcquisition, threadId: string,
                                   hash: string -> string)
    ensures var w2 := AcquireNewQuestionAnswer(w, answer, acquisition, threadId, hash);
            && w2.db == w.db[hash(answer) := QuestionWithAnswer(Some(hash(answer)), answer,
                                                                [Lower(acquisition.question)])]
            && Cache.GetThread(w2.cache, threadId) == None
            && (forall id :: id != threadId ==> Cache.GetThread(w2.cache, id) == Cache.GetThread(w.cache, id))
            && Cache.GetAcquisition(w2.cache, acquisition.id) == None
            && (forall id :: id != acquisition.id ==>
                  Cache.GetAcquisition(w2.cache, id) == Cache.GetAcquisition(w.cache, id))
            && (forall id :: Cache.GetImprove(w2.cache, id) == Cache.GetImprove(w.cache, id))
            && w2.outbox == w.outbox + [Outgoing(THANKS_FOR_ANSWER, Some(threadId), [])]
  {
    var c1 := Cache.DeleteThread(w.cache, threadId);
    var c2 := Cache.DeleteAcquisition(c1, acquisition.id);
    assert AcquireNewQuestionAnswer(w, answer, acquisition, threadId, hash).cache == c2;
    forall id
      ensures Cache.GetImprove(c2, id) == Cache.GetImprove(w.cache, id)
      ensures id != threadId ==> Cache.GetThread(c2, id) == Cache.GetThread(w.cache, id)
      ensures id != acquisition.id ==> Cache.GetAcquisition(c2, id) == Cache.GetAcquisition(w.cache, id)
    {
      Cache.AcquisitionWritesIsolated(c1, acquisition.id, acquisition, id);
      Cache.ThreadWritesIsolated(w.cache, threadId, Pending(threadId), id);
      if id != threadId {
        Cache.ThreadWriteKeepsOtherThreads(w.cache, threadId, Pending(threadId), id);
      }
      if id != acquisition.id {
        Cache.AcquisitionWriteKeepsOtherAcquisitions(c1, acquisition.id, acquisition, id);
      }
    }
    Cache.AcquisitionWritesIsolated(c1, acquisition.id, acquisition, threadId);
    Cache.GetAfterDelete(w.cache, Cache.Threads, threadId);
    Cache.GetAfterDelete(c1, Cache.Acquisitions, acquisition.id);
  }

  /** Completing an improvement needs the record to exist (else DataError and nothing
      changes); for a lower-case label it replaces the answer and sets the record's label
      field to the label, keeps the known questions, clears the reply thread's context and
      the improvement, and leaves every other record, every other thread's context, every
      other improvement and every new-answer acquisition as it was. */
  lemma CompleteImprovementEffects(w: World, newAnswer: string, improvement: ImproveAnswerAcquisition,
                                   threadId: string)
    ensures Lower(improvement.answerLabel) !in w.db ==>
              AcquireImproveExistingAnswer(w, newAnswer, improvement, threadId) == Step(w, Threw(DataError))
    ensures Lower(improvement.answerLabel) == improvement.answerLabel && improvement.answerLabel in w.db ==>
              var s := AcquireImproveExistingAnswer(w, newAnswer, improvement, threadId);
              var l := improvement.answerLabel;
              && s.outcome == Completed
              && s.world.db.Keys == w.db.Keys
              && s.world.db[l].answer == newAnswer
              && s.world.db[l].questions == w.db[l].questions
              && (forall k :: k in w.db && k != l ==> s.world.db[k] == w.db[k])
              && s.world.db[l].answerLabel == Some(l)
              && Cache.GetThread(s.world.cache, threadId) == None
              && (forall id :: id != threadId ==> Cache.GetThread(s.world.cache, id) == Cache.GetThread(w.cache, id))
              && Cache.GetImprove(s.world.cache, improvement.id) == None
              && (forall id :: id != improvement.id ==>
                    Cache.GetImprove(s.world.cache, id) == Cache.GetImprove(w.cache, id))
              && (forall id :: Cache.GetAcquisition(s.world.cache, id) == Cache.GetAcquisition(w.cache, id))
              && s.world.outbox == w.outbox + [Outgoing(THANKS_FOR_ANSWER, Some(threadId), [])]
  {
    var l := improvement.answerLabel;
    if Lower(l) == l && l in w.db {
      Storage.ReplaceAnswerKeepsQuestions(w.db, l, newAnswer);
      var c1 := Cache.DeleteThread(w.cache, threadId);
      var c2 := Cache.DeleteImprove(c1, improvement.id);
      assert AcquireImproveExistingAnswer(w, newAnswer, improvement, threadId).world.cache == c2;
      forall id
        ensures Cache.GetAcquisition(c2, id) == Cache.GetAcquisition(w.cache, id)
        ensures id != threadId ==> Cache.GetThread(c2, id) == Cache.GetThread(w.cache, id)
        ensures id != improvement.id ==> Cache.GetImprove(c2, id) == Cache.GetImprove(w.cache, id)
      {
        Cache.ImproveWritesIsolated(c1, improvement.id, improvement, id);
        Cache.ThreadWritesIsolated(w.cache, threadId, Pending(threadId), id);
        if id != threadId {
          Cache.ThreadWriteKeepsOtherThreads(w.cache, threadId, Pending(threadId), id);
        }
        if id != improvement.id {
          Cache.ImproveWriteKeepsOtherImprovements(c1, improvement.id, improvement, id);
        }
      }
      Cache.ImproveWritesIsolated(c1, improvement.id, improvement, threadId);
      Cache.GetAfterDelete(w.cache, Cache.Threads, threadId);
      Cache.GetAfterDelete(c1, Cache.Improvements, improvement.id);
    }
  }

  // ---------------------------------------------------------------------------------
  // Resolving a question

  /** Whatever happens during resolution, the thread is first marked Pending; a run that
      throws leaves it Pending. */
  lemma ResolutionFailureLeavesPending(w: World, env: Env, question: string, threadId: string,
                                       thread: MessageThread, freshId: string)
    ensures var s := InterpretQuestionAndGuessAnswer(w, env, question, threadId, thread, freshId);
            s.outcome.Threw? ==> Cache.GetThread(s.world.cache, threadId) == Some(Pending(threadId))
  {
    Cache.GetAfterPut(w.cache, Cache.Threads, threadId, Cache.ThreadEntry(Pending(threadId)));
  }

  /** No candidate above the guess threshold: the question goes to acquisition and the
      thread never holds a guessed context. */
  lemma LowConfidenceStartsAcquisition(w: World, env: Env, question: string, threadId: string,
                                       thread: MessageThread, freshId: string)
    requires |env.classify(Lower(question))| > 0
    requires forall c :: c in env.classify(Lower(question)) ==> c.value <= Classifier.GUESS_THRESHOLD
    ensures var s := InterpretQuestionAndGuessAnswer(w, env, question, threadId, thread, freshId);
            && s == StartNewQuestionAnswerAcquisition(w.(cache := Cache.PutThread(w.cache, threadId, Pending(threadId))),
                                                      question, threadId, thread, freshId)
            && Cache.GetThread(s.world.cache, threadId)
               == (if |thread.messages| > 0 then None else Some(Pending(threadId)))
  {
    var interpretation := Classifier.Interpret(question, env.classify);
    var k :| Classifier.IsLastMaximum(interpretation.probabilities, k)
             && interpretation.probability == interpretation.probabilities[k].value;
    assert interpretation.probabilities[k] in env.classify(Lower(question));
    var w1 := w.(cache := Cache.PutThread(w.cache, threadId, Pending(threadId)));
    StartAcquisitionEffects(w1, question, threadId, thread, freshId);
    Cache.GetAfterPut(w.cache, Cache.Threads, threadId, Cache.ThreadEntry(Pending(threadId)));
  }

  /** A confident guess whose record exists is shown with its score, and the thread
      records the guess together with the full candidate list for later feedback; no
      other thread's context and no pending acquisition or improvement changes. */
  lemma ConfidentGuessIsShown(w: World, env: Env, question: string, threadId: string, thread: MessageThread,
                              freshId: string, guess: string)
    requires |env.classify(Lower(question))| > 0
    requires Classifier.Interpret(question, env.classify).guess == Some(guess)
    requires guess != "" && Lower(guess) in w.db
    ensures var s := InterpretQuestionAndGuessAnswer(w, env, question, threadId, thread, freshId);
            var interpretation := Classifier.Interpret(question, env.classify);
            var record := w.db[Lower(guess)].(answerLabel := Some(guess));
            && interpretation.probability > Classifier.GUESS_THRESHOLD
            && s.outcome == Completed
            && s.world.db == w.db
            && Cache.GetThread(s.world.cache, threadId)
               == Some(Guessed(threadId, question, record, env.classify(Lower(question))))
            && s.world.outbox == w.outbox + [AnswerMessage(record, interpretation.probability, threadId)]
            && (forall id :: id != threadId ==> Cache.GetThread(s.world.cache, id) == Cache.GetThread(w.cache, id))
            && (forall id :: Cache.GetAcquisition(s.world.cache, id) == Cache.GetAcquisition(w.cache, id))
            && (forall id :: Cache.GetImprove(s.world.cache, id) == Cache.GetImprove(w.cache, id))
  {
    var c1 := Cache.PutThread(w.cache, threadId, Pending(threadId));
    var w1 := w.(cache := c1);
    var record := w.db[Lower(guess)].(answerLabel := Some(guess));
    assert Storage.GetFromLabel(w1.db, guess) == Ok(record);
    var s := InterpretQuestionAndGuessAnswer(w, env, question, threadId, thread, freshId);
    var guessed := Guessed(threadId, question, record, env.classify(Lower(question)));
    assert s.world.cache == Cache.PutThread(c1, threadId, guessed);
    forall id
      ensures id != threadId ==> Cache.GetThread(s.world.cache, id) == Cache.GetThread(w.cache, id)
      ensures Cache.GetAcquisition(s.world.cache, id) == Cache.GetAcquisition(w.cache, id)
      ensures Cache.GetImprove(s.world.cache, id) == Cache.GetImprove(w.cache, id)
    {
      Cache.ThreadWritesIsolated(w.cache, threadId, Pending(threadId), id);
      Cache.ThreadWritesIsolated(c1, threadId, guessed, id);
      if id != threadId {
        Cache.ThreadWriteKeepsOtherThreads(w.cache, threadId, Pending(threadId), id);
        Cache.ThreadWriteKeepsOtherThreads(c1, threadId, guessed, id);
      }
    }
  }

  // ---------------------------------------------------------------------------------
  // Feedback on a guessed answer

  /** Feedback on a thread still Pending throws before anything changes. */
  lemma FeedbackOnPendingThrows(w: World, hash: string -> string, feedback: string, threadId: string,
                                userId: string, thread: MessageThread, freshId: string)
    ensures ProcessFeedbackOnGuessedAnswer(w, hash, feedback, Pending(threadId), userId, thread, freshId)
         == Step(w, Threw(TypeError))
  {
  }

  /** Good-answer feedback thanks the thread and clears its context. A question phrasing
      the record already knows leaves the store untouched; a new one is appended to the
      record's questions, which is written under the label of the top REMAINING candidate.
      No other thread's context and no pending acquisition or improvement changes. */
  lemma GoodAnswerAcceptsQuestion(w: World, hash: string -> string, context: ThreadContext, userId: string,
                                  thread: MessageThread, freshId: string)
    requires context.Guessed?
    requires Lower(context.question) in context.guessedAnswer.questions || context.classifications != []
    ensures var s := ProcessFeedbackOnGuessedAnswer(w, hash, GOOD_ANSWER, context, userId, thread, freshId);
            var q := Lower(context.question);
            var record := context.guessedAnswer;
            && s.outcome == Completed
            && Cache.GetThread(s.world.cache, context.threadId) == None
            && s.world.outbox == w.outbox + [Outgoing(THANKS_FOR_FEEDBACK, Some(context.threadId), [])]
            && (q in record.questions ==> s.world.db == w.db)
            && (q !in record.questions ==>
                  var l := context.classifications[0].answerLabel;
                  && s.world.db.Keys == w.db.Keys + {l}
                  && s.world.db[l].answer == record.answer
                  && s.world.db[l].questions == record.questions + [q]
                  && (forall k :: k in w.db && k != l ==> s.world.db[k] == w.db[k]))
            && (forall id :: id != context.threadId ==>
                  Cache.GetThread(s.world.cache, id) == Cache.GetThread(w.cache, id))
            && (forall id :: Cache.GetAcquisition(s.world.cache, id) == Cache.GetAcquisition(w.cache, id))
            && (forall id :: Cache.GetImprove(s.world.cache, id) == Cache.GetImprove(w.cache, id))
  {
    var s := ProcessFeedbackOnGuessedAnswer(w, hash, GOOD_ANSWER, context, userId, thread, freshId);
    assert s.world.cache == Cache.DeleteThread(w.cache, context.threadId);
    Cache.GetAfterDelete(w.cache, Cache.Threads, context.threadId);
    forall id
      ensures id != context.threadId ==> Cache.GetThread(s.world.cache, id) == Cache.GetThread(w.cache, id)
      ensures Cache.GetAcquisition(s.world.cache, id) == Cache.GetAcquisition(w.cache, id)
      ensures Cache.GetImprove(s.world.cache, id) == Cache.GetImprove(w.cache, id)
    {
      Cache.ThreadWritesIsolated(w.cache, context.threadId, context, id);
      if id != context.threadId {
        Cache.ThreadWriteKeepsOtherThreads(w.cache, context.threadId, context, id);
      }
    }
  }

  /** Acceptance is idempotent: feedback "good" on the record as it was just stored
      changes the store no further. */
  lemma GoodAnswerTwiceStoresOnce(w: World, hash: string -> string, context: ThreadContext, userId: string,
                                  thread: MessageThread, freshId: string)
    requires context.Guessed?
    ensures var again := context.(guessedAnswer := AcceptQuestion(context.guessedAnswer, Lower(context.question)));
            var s := ProcessFeedbackOnGuessedAnswer(w, hash, GOOD_ANSWER, again, userId, thread, freshId);
            s.outcome == Completed && s.world.db == w.db
  {
    LowerIdempotent(context.question);
  }

  /** As written, good-answer feedback on an unseen phrasing reads the label of the first
      remaining candidate; when none remain it throws and nothing is stored. */
  lemma GoodAnswerWithNoCandidateLeftThrows(w: World, hash: string -> string, context: ThreadContext,
                                            userId: string, thread: MessageThread, freshId: string)
    requires context.Guessed? && context.classifications == []
    requires Lower(context.question) !in context.guessedAnswer.questions
    ensures ProcessFeedbackOnGuessedAnswer(w, hash, GOOD_ANSWER, context, userId, thread, freshId)
         == Step(w, Threw(TypeError))
  {
  }

  /** As written, after a cascade the shown answer's label is no longer among the
      candidates, so good-answer feedback files the record under a different label, and
      the shown answer's own record stays as it was. */
  lemma GoodAnswerAfterCascadeMisfiles(w: World, hash: string -> string, context: ThreadContext, userId: string,
                                       thread: MessageThread, freshId: string, shown: string)
    requires context.Guessed? && context.guessedAnswer.answerLabel == Some(shown)
    requires context.classifications != []
    requires forall c :: c in context.classifications ==> c.answerLabel != shown
    requires Lower(context.question) !in context.guessedAnswer.questions
    ensures var s := ProcessFeedbackOnGuessedAnswer(w, hash, GOOD_ANSWER, context, userId, thread, freshId);
            var l := context.classifications[0].answerLabel;
            && l != shown
            && s.world.db[l].answerLabel == Some(shown)
            && (shown in w.db ==> shown in s.world.db && s.world.db[shown] == w.db[shown])
  {
    assert context.classifications[0] in context.classifications;
  }

  /** Wrong-answer feedback on a record without a label, and any feedback that is not
      one of the three responses, change nothing. */
  lemma OtherFeedbackIgnored(w: World, hash: string -> string, feedback: string, context: ThreadContext,
                             userId: string, thread: MessageThread, freshId: string)
    requires context.Guessed?
    requires || (feedback == WRONG_ANSWER && context.guessedAnswer.answerLabel.None?)
             || (feedback != GOOD_ANSWER && feedback != WRONG_ANSWER && feedback != ANSWER_HAS_CHANGED)
    ensures ProcessFeedbackOnGuessedAnswer(w, hash, feedback, context, userId, thread, freshId) == Step(w, Completed)
  {
  }

  /** A click whose name is one of the properties every object inherits passes the
      interaction guard but changes nothing (or throws on a Pending thread). */
  lemma PrototypeNameClickChangesNothing(w: World, env: Env, event: InteractionEvent, thread: MessageThread,
                                         freshId: string)
    requires event.actions.Some? && |event.actions.value| > 0 && event.actions.value[0].name.Some?
    requires event.actions.value[0].name.value in SlackInteractions.OBJECT_PROTOTYPE_KEYS
    ensures OnFeedbackClick(w, env, event, thread, freshId).world == w
  {
    var name := event.actions.value[0].name.value;
    assert name != GOOD_ANSWER && name != WRONG_ANSWER && name != ANSWER_HAS_CHANGED;
  }

  /** A click on a thread with no stored context changes nothing. */
  lemma StaleClickIgnored(w: World, env: Env, event: InteractionEvent, thread: MessageThread, freshId: string)
    requires event.originalThreadTs.Some? && Cache.GetThread(w.cache, event.originalThreadTs.value) == None
    ensures OnFeedbackClick(w, env, event, thread, freshId) == Step(w, Completed)
  {
  }

  /** Answer-has-changed feedback starts an improvement of the guessed answer under the
      fresh id, labelled with the top remaining candidate, and broadcasts it; the thread's
      context, the store, the new-answer acquisitions and every other improvement are left
      as they were. */
  lemma AnswerChangedStartsImprovement(w: World, hash: string -> string, context: ThreadContext, userId: string,
                                       thread: MessageThread, freshId: string)
    requires context.Guessed? && context.classifications != []
    ensures var s := ProcessFeedbackOnGuessedAnswer(w, hash, ANSWER_HAS_CHANGED, context, userId, thread, freshId);
            && s.outcome == Completed
            && s.world.db == w.db
            && Cache.GetImprove(s.world.cache, freshId)
               == Some(ImproveAnswerAcquisition(freshId, context.classifications[0].answerLabel, context.guessedAnswer))
            && (forall id :: id != freshId ==> Cache.GetImprove(s.world.cache, id) == Cache.GetImprove(w.cache, id))
            && (forall id :: Cache.GetThread(s.world.cache, id) == Cache.GetThread(w.cache, id))
            && (forall id :: Cache.GetAcquisition(s.world.cache, id) == Cache.GetAcquisition(w.cache, id))
            && s.world.outbox == w.outbox + [Outgoing(ImproveText(userId, context.guessedAnswer.answer), None,
                                                      [CodeFooter(freshId)])]
  {
    var improvement := ImproveAnswerAcquisition(freshId, context.classifications[0].answerLabel, context.guessedAnswer);
    forall id
      ensures Cache.GetThread(Cache.PutImprove(w.cache, freshId, improvement), id) == Cache.GetThread(w.cache, id)
      ensures Cache.GetAcquisition(Cache.PutImprove(w.cache, freshId, improvement), id)
           == Cache.GetAcquisition(w.cache, id)
      ensures id != freshId ==>
                Cache.GetImprove(Cache.PutImprove(w.cache, freshId, improvement), id) == Cache.GetImprove(w.cache, id)
    {
      Cache.ImproveWritesIsolated(w.cache, freshId, improvement, id);
      if id != freshId {
        Cache.ImproveWriteKeepsOtherImprovements(w.cache, freshId, improvement, id);
      }
    }
    Cache.GetAfterPut(w.cache, Cache.Improvements, freshId, Cache.ImproveEntry(improvement));
  }

  /** As written, answer-has-changed feedback with no candidate left throws. */
  lemma AnswerChangedWithNoCandidateLeftThrows(w: World, hash: string -> string, context: ThreadContext,
                                               userId: string, thread: MessageThread, freshId: string)
    requires context.Guessed? && context.classifications == []
    ensures ProcessFeedbackOnGuessedAnswer(w, hash, ANSWER_HAS_CHANGED, context, userId, thread, freshId)
         == Step(w, Threw(TypeError))
  {
  }

  // ---------------------------------------------------------------------------------
  // The rejection cascade

  /** The candidates left after rejecting the shown answer. */
  function Remaining(context: ThreadContext): seq<Candidate>
    requires context.Guessed? && context.guessedAnswer.answerLabel.Some?
  {
    Classifier.Without(context.classifications, context.guessedAnswer.answerLabel.value)
  }

  /** As written, rejecting the last candidate reads the score of a candidate that does
      not exist: the run throws with the emptied list stored and no acquisition started. */
  lemma ExhaustedCascadeThrows(w: World, hash: string -> string, context: ThreadContext, userId: string,
                               thread: MessageThread, freshId: string)
    requires context.Guessed? && context.guessedAnswer.answerLabel.Some? && Remaining(context) == []
    ensures var s := ProcessFeedbackOnGuessedAnswer(w, hash, WRONG_ANSWER, context, userId, thread, freshId);
            && s.outcome == Threw(TypeError)
            && Cache.GetThread(s.world.cache, context.threadId)
               == Some(context.(question := Lower(context.question), classifications := []))
            && (forall id :: Cache.GetAcquisition(s.world.cache, id) == Cache.GetAcquisition(w.cache, id))
            && s.world.db == w.db && s.world.outbox == w.outbox
  {
    var stored := context.(question := Lower(context.question), classifications := []);
    forall id
      ensures Cache.GetAcquisition(Cache.PutThread(w.cache, context.threadId, stored), id)
           == Cache.GetAcquisition(w.cache, id)
    {
      Cache.ThreadWritesIsolated(w.cache, context.threadId, stored, id);
    }
    Cache.GetAfterPut(w.cache, Cache.Threads, context.threadId, Cache.ThreadEntry(stored));
  }

  /** When the best remaining candidate scores at most the hard cut-off, the question
      (lower-cased) goes to acquisition: the thread's context is cleared, the apology and
      the code-tagged broadcast are posted, and no other thread's context, pending
      acquisition or improvement changes. */
  lemma CascadeBelowCutoffStartsAcquisition(w: World, hash: string -> string, context: ThreadContext,
                                            userId: string, thread: MessageThread, freshId: string)
    requires context.Guessed? && context.guessedAnswer.answerLabel.Some?
    requires Remaining(context) != [] && Remaining(context)[0].value <= PROBABILITY_HARD_CUTOFF
    requires |thread.messages| > 0
    ensures var s := ProcessFeedbackOnGuessedAnswer(w, hash, WRONG_ANSWER, context, userId, thread, freshId);
            && s.outcome == Completed
            && Cache.GetThread(s.world.cache, context.threadId) == None
            && (forall id :: id != context.threadId ==>
                  Cache.GetThread(s.world.cache, id) == Cache.GetThread(w.cache, id))
            && Cache.GetAcquisition(s.world.cache, freshId)
               == Some(AnswerAcquisition(freshId, Lower(context.question)))
            && (forall id :: id != freshId ==> Cache.GetAcquisition(s.world.cache, id) == Cache.GetAcquisition(w.cache, id))
            && (forall id :: Cache.GetImprove(s.world.cache, id) == Cache.GetImprove(w.cache, id))
            && s.world.db == w.db
            && s.world.outbox == w.outbox + [Outgoing(APOLOGY, Some(context.threadId), []),
                                             Outgoing(AskText(thread.messages[0].user, Lower(context.question)), None,
                                                      [CodeFooter(freshId)])]
  {
    var next := context.(question := Lower(context.question), classifications := Remaining(context));
    var w1 := w.(cache := Cache.PutThread(w.cache, context.threadId, next));
    StartAcquisitionEffects(w1, Lower(context.question), context.threadId, thread, freshId);
    var s := ProcessFeedbackOnGuessedAnswer(w, hash, WRONG_ANSWER, context, userId, thread, freshId);
    assert s == StartNewQuestionAnswerAcquisition(w1, Lower(context.question), context.threadId, thread, freshId);
    forall id
      ensures id != context.threadId ==> Cache.GetThread(w1.cache, id) == Cache.GetThread(w.cache, id)
      ensures Cache.GetAcquisition(w1.cache, id) == Cache.GetAcquisition(w.cache, id)
      ensures Cache.GetImprove(w1.cache, id) == Cache.GetImprove(w.cache, id)
    {
      Cache.ThreadWritesIsolated(w.cache, context.threadId, next, id);
      if id != context.threadId {
        Cache.ThreadWriteKeepsOtherThreads(w.cache, context.threadId, next, id);
      }
    }
  }

  /** Otherwise the best remaining candidate is shown with its own score, and it leaves
      the reserve: neither it nor the rejected answer is offered again. No other thread's
      context and no pending acquisition or improvement changes. */
  lemma CascadeOffersNextCandidate(w: World, hash: string -> string, context: ThreadContext, userId: string,
                                   thread: MessageThread, freshId: string)
    requires context.Guessed? && context.guessedAnswer.answerLabel.Some?
    requires Remaining(context) != [] && Remaining(context)[0].value > PROBABILITY_HARD_CUTOFF
    requires Lower(Remaining(context)[0].answerLabel) in w.db
    ensures var s := ProcessFeedbackOnGuessedAnswer(w, hash, WRONG_ANSWER, context, userId, thread, freshId);
            var best := Remaining(context)[0];
            var record := w.db[Lower(best.answerLabel)].(answerLabel := Some(best.answerLabel));
            var reserve := Classifier.Without(Remaining(context), best.answerLabel);
            && s.outcome == Completed
            && s.world.db == w.db
            && Cache.GetThread(s.world.cache, context.threadId)
               == Some(Guessed(context.threadId, Lower(context.question), record, reserve))
            && s.world.outbox == w.outbox + [AnswerMessage(record, best.value, context.threadId)]
            && (forall c :: c in reserve ==>
                  c.answerLabel != best.answerLabel && c.answerLabel != context.guessedAnswer.answerLabel.value)
            && (forall id :: id != context.threadId ==>
                  Cache.GetThread(s.world.cache, id) == Cache.GetThread(w.cache, id))
            && (forall id :: Cache.GetAcquisition(s.world.cache, id) == Cache.GetAcquisition(w.cache, id))
            && (forall id :: Cache.GetImprove(s.world.cache, id) == Cache.GetImprove(w.cache, id))
  {
    var rejected := context.guessedAnswer.answerLabel.value;
    var best := Remaining(context)[0];
    Classifier.WithoutMembers(context.classifications, rejected);
    Classifier.WithoutMembers(Remaining(context), best.answerLabel);
    var s := ProcessFeedbackOnGuessedAnswer(w, hash, WRONG_ANSWER, context, userId, thread, freshId);
    Cache.GetAfterPut(s.world.cache, Cache.Threads, context.threadId,
                      Cache.ThreadEntry(Cache.GetThread(s.world.cache, context.threadId).value));
    // the context is written three times, always under this thread's id
    var tid := context.threadId;
    var next := context.(question := Lower(context.question), classifications := Remaining(context));
    var reserve := Classifier.Without(Remaining(context), best.answerLabel);
    var record := w.db[Lower(best.answerLabel)].(answerLabel := Some(best.answerLabel));
    var c1 := Cache.PutThread(w.cache, tid, next);
    var c2 := Cache.PutThread(c1, tid, next.(classifications := reserve));
    var guessed := Guessed(tid, Lower(context.question), record, reserve);
    assert s.world.cache == Cache.PutThread(c2, tid, guessed);
    forall id
      ensures id != tid ==> Cache.GetThread(s.world.cache, id) == Cache.GetThread(w.cache, id)
      ensures Cache.GetAcquisition(s.world.cache, id) == Cache.GetAcquisition(w.cache, id)
      ensures Cache.GetImprove(s.world.cache, id) == Cache.GetImprove(w.cache, id)
    {
      Cache.ThreadWritesIsolated(w.cache, tid, next, id);
      Cache.ThreadWritesIsolated(c1, tid, next.(classifications := reserve), id);
      Cache.ThreadWritesIsolated(c2, tid, guessed, id);
      if id != tid {
        Cache.ThreadWriteKeepsOtherThreads(w.cache, tid, next, id);
        Cache.ThreadWriteKeepsOtherThreads(c1, tid, next.(classifications := reserve), id);
        Cache.ThreadWriteKeepsOtherThreads(c2, tid, guessed, id);
      }
    }
  }

  /** Every rejection that completes strictly lowers the thread's reserve of candidates,
      so a user who keeps rejecting reaches acquisition (or the exhausted-list failure)
      after finitely many answers. */
  lemma RejectionShrinksReserve(w: World, hash: string -> string, context: ThreadContext, userId: string,
                                thread: MessageThread, freshId: string)
    requires context.Guessed? && context.guessedAnswer.answerLabel.Some?
    ensures var s := ProcessFeedbackOnGuessedAnswer(w, hash, WRONG_ANSWER, context, userId, thread, freshId);
            s.outcome == Completed ==> Reserve(s.world.cache, context.threadId) < |context.classifications|
  {
    var rest := Remaining(context);
    Classifier.WithoutShrinks(context.classifications, context.guessedAnswer.answerLabel.value);
    if rest != [] {
      var best := rest[0];
      assert best in rest;
      Classifier.WithoutShrinks(rest, best.answerLabel);
      var next := context.(question := Lower(context.question), classifications := rest);
      var w1 := w.(cache := Cache.PutThread(w.cache, context.threadId, next));
      if best.value <= PROBABILITY_HARD_CUTOFF {
        StartAcquisitionEffects(w1, Lower(context.question), context.threadId, thread, freshId);
      } else if Lower(best.answerLabel) in w.db {
        CascadeOffersNextCandidate(w, hash, context, userId, thread, freshId);
      }
    }
  }

  // ---------------------------------------------------------------------------------
  // End to end

  /** An unanswered question is broadcast: without a classifier, a top-level question is
      recorded as an acquisition under the fresh code, and the broadcast carries that code. */
  lemma UnansweredQuestionIsBroadcast(w: World, env: Env, question: string, event: MessageEvent,
                                      thread: MessageThread, freshId: string)
    requires event.channel == env.channel && '?' in question && event.threadTs.None?
    requires !env.classifierTrained && !Contains(question, FORCE_ACQUISITION_MARKER)
    requires |thread.messages| > 0
    ensures var s1 := HandleIncomingSlackMessage(w, env, question, event, thread, freshId);
            && s1.outcome == Completed
            && |s1.world.outbox| > 0 && s1.world.outbox[|s1.world.outbox| - 1].attachments == [CodeFooter(freshId)]
            && Cache.GetAcquisition(s1.world.cache, freshId) == Some(AnswerAcquisition(freshId, question))
  {
    ForcedQuestionStartsAcquisition(w, env, question, event, thread, freshId);
    ReplaceAbsent(question, FORCE_ACQUISITION_MARKER, "");
    StartAcquisitionEffects(w, question, event.ts, thread, freshId);
  }

  /** A reply in the thread of a broadcast tagged with a pending acquisition's code stores
      the answer with that acquisition's lower-cased question, and closes the acquisition. */
  lemma BroadcastReplyStoresAnswer(w: World, env: Env, question: string, freshId: string,
                                   broadcast: MessageEvent, replies: seq<MessageEvent>,
                                   answer: string, reply: MessageEvent, laterId: string)
    requires Cache.GetAcquisition(w.cache, freshId) == Some(AnswerAcquisition(freshId, question))
    requires broadcast.subtype == Some(BOT_MESSAGE) && broadcast.attachments == Some([CodeFooter(freshId)])
    requires IsReply(env, answer, reply)
    ensures var s2 := HandleIncomingSlackMessage(w, env, answer, reply, MessageThread([broadcast] + replies), laterId);
            && s2.outcome == Completed
            && env.hash(answer) in s2.world.db
            && s2.world.db[env.hash(answer)]
               == QuestionWithAnswer(Some(env.hash(answer)), answer, [Lower(question)])
            && Cache.GetAcquisition(s2.world.cache, freshId) == None
  {
    var acquisition := AnswerAcquisition(freshId, question);
    Slack.AcquisitionCodeRoundTrip(freshId, broadcast, replies);
    ReplyCompletesAcquisition(w, env, answer, reply, MessageThread([broadcast] + replies), laterId, freshId, acquisition);
    CompleteAcquisitionEffects(w, answer, acquisition, reply.threadTs.value, env.hash);
  }

  /** The event Slack delivers for a message the bot posted: a bot message carrying the
      posted text, thread and attachments. */
  function AsDelivered(m: Outgoing, ts: string, channel: string, botUser: string): (e: MessageEvent)
    ensures e.subtype == Some(BOT_MESSAGE)
    ensures e.text == Some(m.text) && e.threadTs == m.threadId && e.attachments == Some(m.attachments)
  {
    MessageEvent(ts, channel, Some(m.text), m.threadId, Some(BOT_MESSAGE), botUser, Some(m.attachments))
  }

  /** An unanswered question, end to end: the last message the first run posts, fetched as
      the root of the thread a reply is posted in, leads the second run to store the answer
      under the answer's digest, with the question lower-cased, and to close the acquisition. */
  lemma UnansweredQuestionRoundTrip(w: World, env: Env, question: string, event: MessageEvent,
                                    thread: MessageThread, freshId: string,
                                    broadcastTs: string, botUser: string, replies: seq<MessageEvent>,
                                    answer: string, reply: MessageEvent, laterId: string)
    requires event.channel == env.channel && '?' in question && event.threadTs.None?
    requires !env.classifierTrained && !Contains(question, FORCE_ACQUISITION_MARKER)
    requires |thread.messages| > 0
    requires IsReply(env, answer, reply)
    ensures var s1 := HandleIncomingSlackMessage(w, env, question, event, thread, freshId);
            && s1.outcome == Completed
            && |s1.world.outbox| > 0
            && var broadcast := AsDelivered(s1.world.outbox[|s1.world.outbox| - 1], broadcastTs, env.channel, botUser);
               var s2 := HandleIncomingSlackMessage(s1.world, env, answer, reply, MessageThread([broadcast] + replies),
                                                    laterId);
               && s2.outcome == Completed
               && env.hash(answer) in s2.world.db
               && s2.world.db[env.hash(answer)]
                  == QuestionWithAnswer(Some(env.hash(answer)), answer, [Lower(question)])
               && Cache.GetAcquisition(s2.world.cache, freshId) == None
  {
    UnansweredQuestionIsBroadcast(w, env, question, event, thread, freshId);
    var s1 := HandleIncomingSlackMessage(w, env, question, event, thread, freshId);
    var w1 := s1.world;
    var broadcast := AsDelivered(w1.outbox[|w1.outbox| - 1], broadcastTs, env.channel, botUser);
    BroadcastReplyStoresAnswer(w1, env, question, freshId, broadcast, replies, answer, reply, laterId);
  }
}
