/**
  The conversation engine as the running bot holds it: one state cache, one record
  store, the messages sent so far, the deployment's channel and the currently loaded
  classifier. Every handler changes that state step by step, as the bot does, and is
  proved to end in exactly the state (and with exactly the outcome) that the matching
  transition of module Dialogue describes. `thread` is what the handler's fetch of the
  Slack thread returns; `freshId` is the id it generates for a new acquisition.
 */
module Engine {
  import opened Types
  import opened Strings
  import Cache
  import Storage
  import Classifier
  import Attachments
  import Slack
  import SlackEvents
  import SlackInteractions
  import Dialogue

  class ConversationEngine {
    const cache: Cache.StateCache
    const storage: Storage.QAStorage
    /** Every message posted to Slack, oldest first. */
    var outbox: seq<Dialogue.Outgoing>
    const channel: string
    var classifierTrained: bool
    var classify: string -> seq<Candidate>

    /** The state the handlers change. */
    function World(): Dialogue.World
      reads this, cache, storage
    {
      Dialogue.World(cache.entries, storage.db, outbox)
    }

    /** The configuration the handlers read. */
    function Env(): Dialogue.Env
      reads this, storage
    {
      Dialogue.Env(channel, classifierTrained, classify, storage.hash)
    }

    /** Start-up: an empty cache, the stored records, and no classifier yet. */
    constructor (channel: string, records: Storage.Db, hash: string -> string)
      ensures World() == Dialogue.World(map[], records, [])
      ensures Env().channel == channel && !Env().classifierTrained && Env().hash == hash
    {
      this.channel := channel;
      cache := new Cache.StateCache();
      storage := new Storage.QAStorage(records, hash);
      outbox := [];
      classifierTrained := false;
      classify := (text: string) => [];
    }

    /** A classifier was loaded or trained: from now on questions are resolved with it. */
    method InstallClassifier(trained: string -> seq<Candidate>)
      modifies this`classifierTrained, this`classify
      ensures Env() == old(Env()).(classifierTrained := true, classify := trained)
    {
      classify := trained;
      classifierTrained := true;
    }

    /** Post a message, in a thread or (with no thread id) in the channel. */
    method SendMessage(text: string, attachments: seq<Attachment>, threadId: Option<string>)
      modifies this`outbox
      ensures outbox == old(outbox) + [Dialogue.Outgoing(text, threadId, attachments)]
    {
      outbox := outbox + [Dialogue.Outgoing(text, threadId, attachments)];
    }

    method InterpretQuestionAndGuessAnswer(question: string, threadId: string, thread: MessageThread,
                                           freshId: string)
      returns (outcome: Outcome)
      modifies this`outbox, cache, storage
      ensures Dialogue.Step(World(), outcome)
           == Dialogue.InterpretQuestionAndGuessAnswer(old(World()), Env(), question, threadId, thread, freshId)
    {
      cache.SetThreadState(threadId, Pending(threadId));
      if |classify(Lower(question))| == 0 {
        return Threw(TypeError);
      }
      var interpretation := Classifier.Interpret(question, classify);
      if interpretation.guess.None? || interpretation.guess.value == "" {
        outcome := StartNewQuestionAnswerAcquisition(question, threadId, thread, freshId);
        return;
      }
      var labelled := storage.GetQuestionWithAnswerFromLabel(interpretation.guess.value);
      if labelled.Err? {
        return Threw(labelled.error);
      }
      SendAnswerAndGatherFeedback(question, labelled.value, interpretation.probability,
                                  interpretation.probabilities, threadId);
      outcome := Completed;
    }

    method SendAnswerAndGatherFeedback(usersQuestion: string, guessedAnswer: QuestionWithAnswer, probability: real,
                                       classifications: seq<Candidate>, threadId: string)
      modifies this`outbox, cache
      ensures World() == Dialogue.SendAnswerAndGatherFeedback(old(World()), usersQuestion, guessedAnswer, probability,
                                                              classifications, threadId)
    {
      var percent := (probability * 100.0 + 0.5).Floor;
      var attachments := [Attachments.AnswerFeedbackButtons[0],
                          Attachments.GetFooter("Conf. " + IntToDecimal(percent) + "%")[0]];
      SendMessage(guessedAnswer.answer, attachments, Some(threadId));
      cache.SetThreadState(threadId, Guessed(threadId, usersQuestion, guessedAnswer, classifications));
    }

    method ProcessFeedbackOnGuessedAnswer(feedback: string, threadContext: ThreadContext, userId: string,
                                          thread: MessageThread, freshId: string)
      returns (outcome: Outcome)
      modifies this`outbox, cache, storage
      ensures Dialogue.Step(World(), outcome)
           == Dialogue.ProcessFeedbackOnGuessedAnswer(old(World()), storage.hash, feedback, threadContext, userId,
                                                      thread, freshId)
    {
      if threadContext.Pending? {
        return Threw(TypeError);
      }
      var context := threadContext.(question := Lower(threadContext.question));
      if feedback == GOOD_ANSWER {
        if context.question !in context.guessedAnswer.questions {
          if context.classifications == [] {
            return Threw(TypeError);
          }
          var record := context.guessedAnswer.(questions := context.guessedAnswer.questions + [context.question]);
          var stored := storage.StoreOrUpdateLabelledQuestionWithAnswer(record,
                                                                       Some(context.classifications[0].answerLabel));
        }
        SendMessage(Dialogue.THANKS_FOR_FEEDBACK, [], Some(context.threadId));
        cache.DeleteThreadState(context.threadId);
        outcome := Completed;
      } else if feedback == WRONG_ANSWER && context.guessedAnswer.answerLabel.Some? {
        var newClassifications := Classifier.RemoveAnswerFromProbabilities(context.classifications,
                                                                           context.guessedAnswer.answerLabel.value);
        var newThreadState := context.(classifications := newClassifications);
        cache.SetThreadState(context.threadId, newThreadState);
        outcome := SendNextBestQuestionGuess(context.question, newThreadState, thread, freshId);
      } else if feedback == ANSWER_HAS_CHANGED {
        if context.classifications == [] {
          return Threw(TypeError);
        }
        StartImproveExistingAnswerAcquisition(context, context.classifications[0].answerLabel, userId, freshId);
        outcome := Completed;
      } else {
        outcome := Completed;
      }
    }

    method SendNextBestQuestionGuess(question: string, threadContext: ThreadContext, thread: MessageThread,
                                     freshId: string)
      returns (outcome: Outcome)
      requires threadContext.Guessed?
      modifies this`outbox, cache, storage
      ensures Dialogue.Step(World(), outcome)
           == Dialogue.SendNextBestQuestionGuess(old(World()), question, threadContext, thread, freshId)
    {
      if threadContext.classifications == [] {
        return Threw(TypeError);
      }
      var best := threadContext.classifications[0];
      var probability := best.value;
      if probability <= Dialogue.PROBABILITY_HARD_CUTOFF {
        outcome := StartNewQuestionAnswerAcquisition(question, threadContext.threadId, thread, freshId);
        return;
      }
      var labelled := storage.GetQuestionWithAnswerFromLabel(best.answerLabel);
      if labelled.Err? {
        return Threw(labelled.error);
      }
      var remaining := Classifier.RemoveAnswerFromProbabilities(threadContext.classifications, best.answerLabel);
      var context := threadContext.(classifications := remaining);
      cache.SetThreadState(context.threadId, context);
      SendAnswerAndGatherFeedback(question, labelled.value, probability, context.classifications, context.threadId);
      outcome := Completed;
    }

    method StartNewQuestionAnswerAcquisition(question: string, threadId: string, thread: MessageThread,
                                             freshId: string)
      returns (outcome: Outcome)
      modifies this`outbox, cache
      ensures Dialogue.Step(World(), outcome)
           == Dialogue.StartNewQuestionAnswerAcquisition(old(World()), question, threadId, thread, freshId)
    {
      if |thread.messages| == 0 {
        return Threw(TypeError);
      }
      var askingUser := thread.messages[0].user;
      SendMessage(Dialogue.APOLOGY, [], Some(threadId));
      var footer := Attachments.GetFooter(Slack.ACQUISITION_CODE_PREFIX + freshId);
      cache.DeleteThreadState(threadId);
      cache.SetAcquisitionState(freshId, AnswerAcquisition(freshId, question));
      SendMessage(Dialogue.AskText(askingUser, question), [footer[0]], None);
      outcome := Completed;
    }

    method AcquireNewQuestionAnswer(answer: string, acquisition: AnswerAcquisition, threadId: string)
      modifies this`outbox, cache, storage
      ensures World() == Dialogue.AcquireNewQuestionAnswer(old(World()), answer, acquisition, threadId, storage.hash)
    {
      var stored := storage.StoreOrUpdateLabelledQuestionWithAnswer(
        QuestionWithAnswer(None, answer, [Lower(acquisition.question)]), None);
      cache.DeleteThreadState(threadId);
      cache.DeleteAcquisitionState(acquisition.id);
      SendMessage(Dialogue.THANKS_FOR_ANSWER, [], Some(threadId));
    }

    method StartImproveExistingAnswerAcquisition(threadContext: ThreadContext, answerLabel: string, userId: string,
                                                 freshId: string)
      requires threadContext.Guessed?
      modifies this`outbox, cache
      ensures World() == Dialogue.StartImproveExistingAnswerAcquisition(old(World()), threadContext, answerLabel,
                                                                        userId, freshId)
    {
      var answerToImprove := threadContext.guessedAnswer;
      cache.SetImproveAnswerAcquisitionState(freshId, ImproveAnswerAcquisition(freshId, answerLabel, answerToImprove));
      var footer := Attachments.GetFooter(Slack.ACQUISITION_CODE_PREFIX + freshId);
      SendMessage(Dialogue.ImproveText(userId, answerToImprove.answer), [footer[0]], None);
    }

    method AcquireImproveExistingAnswer(newAnswer: string, acquisition: ImproveAnswerAcquisition, threadId: string)
      returns (outcome: Outcome)
      modifies this`outbox, cache, storage
      ensures Dialogue.Step(World(), outcome)
           == Dialogue.AcquireImproveExistingAnswer(old(World()), newAnswer, acquisition, threadId)
    {
      outcome := storage.UpdateAnswer(acquisition.answerLabel, newAnswer);
      if outcome.Threw? {
        return;
      }
      cache.DeleteThreadState(threadId);
      cache.DeleteImproveAnswerAcquisitionState(acquisition.id);
      SendMessage(Dialogue.THANKS_FOR_ANSWER, [], Some(threadId));
    }

    method HandleIncomingSlackMessage(message: string, event: MessageEvent, thread: MessageThread, freshId: string)
      returns (outcome: Outcome)
      modifies this`outbox, cache, storage
      ensures Dialogue.Step(World(), outcome)
           == Dialogue.HandleIncomingSlackMessage(old(World()), Env(), message, event, thread, freshId)
    {
      if channel != event.channel {
        return Completed;
      }
      if message == Dialogue.DUMP_COMMAND {
        return Completed;
      }
      var isQuestion := IndexOf(message, "?") > -1;
      var replyId := event.ts;
      var isThread := event.threadTs.Some?;
      if isQuestion && !isThread {
        if !classifierTrained || IndexOf(message, Dialogue.FORCE_ACQUISITION_MARKER) > -1 {
          var forced := ReplaceFirst(message, Dialogue.FORCE_ACQUISITION_MARKER, "");
          outcome := StartNewQuestionAnswerAcquisition(forced, replyId, thread, freshId);
          return;
        }
        outcome := InterpretQuestionAndGuessAnswer(message, replyId, thread, freshId);
        return;
      }
      if event.threadTs.None? {
        return Completed;
      }
      var acquisitionId := Slack.TryGetAcquisitionId(thread);
      if acquisitionId.Err? {
        return Threw(acquisitionId.error);
      }
      if acquisitionId.value.None? {
        return Completed;
      }
      var acquisition := cache.GetAcquisitionState(acquisitionId.value.value);
      if acquisition.Some? {
        AcquireNewQuestionAnswer(message, acquisition.value, event.threadTs.value);
        return Completed;
      }
      var improvement := cache.GetImproveAnswerAcquisitionState(acquisitionId.value.value);
      if improvement.Some? {
        outcome := AcquireImproveExistingAnswer(message, improvement.value, event.threadTs.value);
        return;
      }
      outcome := Completed;
    }

    /** A message event from Slack: the event filter, then the dialogue router. */
    method OnMessageEvent(event: MessageEvent, thread: MessageThread, freshId: string) returns (outcome: Outcome)
      modifies this`outbox, cache, storage
      ensures Dialogue.Step(World(), outcome) == Dialogue.OnMessageEvent(old(World()), Env(), event, thread, freshId)
    {
      var call := SlackEvents.OnMessage(event);
      if call.None? {
        return Completed;
      }
      outcome := HandleIncomingSlackMessage(call.value.message, call.value.event, thread, freshId);
    }

    /** A feedback click from Slack: the interaction guards, then the feedback processor. */
    method OnFeedbackClick(event: InteractionEvent, thread: MessageThread, freshId: string) returns (outcome: Outcome)
      modifies this`outbox, cache, storage
      ensures Dialogue.Step(World(), outcome) == Dialogue.OnFeedbackClick(old(World()), Env(), event, thread, freshId)
    {
      var call := SlackInteractions.OnAnswerFeedback(event, cache.entries);
      if call.None? {
        return Completed;
      }
      outcome := ProcessFeedbackOnGuessedAnswer(call.value.feedback, call.value.context, call.value.userId,
                                                thread, freshId);
    }
  }
}
