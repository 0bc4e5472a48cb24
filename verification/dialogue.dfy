/**
  The conversation engine's behaviour, as transitions of the bot's whole state (the
  state cache, the record store and the messages sent so far). Each function is one
  handler of the engine, run to completion; an exception ends the run with the state
  reached at that point. The imperative engine in module Engine is proved to perform
  exactly these transitions.

  Inputs the engine gets from outside are parameters: the deployment's channel, whether
  a classifier is loaded, the classifier (text to candidates), the label digest, the
  thread a run fetches from Slack, and the fresh acquisition id a run generates.
 */
module Dialogue {
  import opened Types
  import opened Strings
  import Cache
  import Storage
  import Classifier
  import Attachments
  import Slack
  import SlackEvents
  import SlackInteractions

  /** Below or at this score the cascade stops offering candidates. */
  const PROBABILITY_HARD_CUTOFF: real := 0.15
  /** A question containing this marker skips the classifier. */
  const FORCE_ACQUISITION_MARKER: string := "***! "
  const DUMP_COMMAND: string := "DUMP"
  const THANKS_FOR_FEEDBACK: string := "Thanks for letting me know!"
  const APOLOGY: string := "I'm sorry, my responses are limited, you must ask the right questions"
  const THANKS_FOR_ANSWER: string := "Thanks for making me smarter!"

  /** A chat message the bot posts: in a thread, or in the channel when `threadId` is None. */
  datatype Outgoing = Outgoing(text: string, threadId: Option<string>, attachments: seq<Attachment>)

  datatype World = World(cache: Cache.Entries, db: Storage.Db, outbox: seq<Outgoing>)

  /** The deployment: its channel, whether a classifier is loaded, the classifier, the label digest. */
  datatype Env = Env(channel: string, classifierTrained: bool, classify: string -> seq<Candidate>,
                     hash: string -> string)

  /** The state a run ends in, and how it ended. */
  datatype Step = Step(world: World, outcome: Outcome)

  function Send(w: World, m: Outgoing): World {
    w.(outbox := w.outbox + [m])
  }

  /** The confidence footer text: the score as a rounded percentage. */
  function ConfidenceText(probability: real): string {
    "Conf. " + IntToDecimal((probability * 100.0 + 0.5).Floor) + "%"
  }

  function AskText(askingUser: string, question: string): string {
    "<@" + askingUser + "> asked this question:\n" + ">>>```" + question + "```"
    + "\n*Please reply to this message as a thread with your answer if you know it!*"
  }

  function ImproveText(userId: string, answer: string): string {
    "<@" + userId + "> said this answer could be improved:\n" + ">>>```" + answer + "```"
    + "\n*Please reply to this message as a thread with the improved answer if you can!*"
  }

  /** A guessed answer with the feedback buttons and the confidence footer. */
  function AnswerMessage(guessedAnswer: QuestionWithAnswer, probability: real, threadId: string): Outgoing {
    Outgoing(guessedAnswer.answer, Some(threadId),
             [Attachments.AnswerFeedbackButtons[0], Attachments.GetFooter(ConfidenceText(probability))[0]])
  }

  /** The footer that tags a broadcast with its acquisition code. */
  function CodeFooter(acquisitionId: string): Attachment {
    Attachments.GetFooter(Slack.AcquisitionFooter(acquisitionId))[0]
  }

  /** No phrasing occurs twice. */
  predicate Distinct(questions: seq<string>) {
    forall i, j :: 0 <= i < j < |questions| ==> questions[i] != questions[j]
  }

  /** The accepted question joins the record's phrasings unless it is already one of them. */
  function AcceptQuestion(record: QuestionWithAnswer, question: string): (r: QuestionWithAnswer)
    ensures question in r.questions
    ensures r.answerLabel == record.answerLabel && r.answer == record.answer
    ensures |record.questions| <= |r.questions| <= |record.questions| + 1
    ensures r.questions[..|record.questions|] == record.questions
    ensures (question in record.questions) == (r == record)
    ensures Distinct(record.questions) ==> Distinct(r.questions)
  {
    if question in record.questions then record else record.(questions := record.questions + [question])
  }

  /** `sendAnswerAndGatherFeedback` */
  function SendAnswerAndGatherFeedback(w: World, usersQuestion: string, guessedAnswer: QuestionWithAnswer,
                                       probability: real, classifications: seq<Candidate>, threadId: string): (r: World)
    ensures r.db == w.db
    ensures |r.outbox| == |w.outbox| + 1 && r.outbox[..|w.outbox|] == w.outbox
    ensures r.outbox[|w.outbox|].text == guessedAnswer.answer && r.outbox[|w.outbox|].threadId == Some(threadId)
  {
    var w1 := Send(w, AnswerMessage(guessedAnswer, probability, threadId));
    w1.(cache := Cache.PutThread(w1.cache, threadId, Guessed(threadId, usersQuestion, guessedAnswer, classifications)))
  }

  /** `startNewQuestionAnswerAcquision` */
  function StartNewQuestionAnswerAcquisition(w: World, question: string, threadId: string, thread: MessageThread,
                                             freshId: string): (r: Step)
    ensures r.outcome.Threw? <==> |thread.messages| == 0
    ensures r.outcome.Threw? ==> r == Step(w, Threw(TypeError))
    ensures r.world.db == w.db
    ensures r.outcome.Completed? ==> && |r.world.outbox| == |w.outbox| + 2
                                     && r.world.outbox[..|w.outbox|] == w.outbox
                                     && r.world.outbox[|w.outbox| + 1].threadId == None
                                     && r.world.outbox[|w.outbox| + 1].attachments == [CodeFooter(freshId)]
  {
    if |thread.messages| == 0 then Step(w, Threw(TypeError))
    else
      var askingUser := thread.messages[0].user;
      var w1 := Send(w, Outgoing(APOLOGY, Some(threadId), []));
      var cache := Cache.PutAcquisition(Cache.DeleteThread(w1.cache, threadId), freshId,
                                        AnswerAcquisition(freshId, question));
      Step(Send(w1.(cache := cache), Outgoing(AskText(askingUser, question), None, [CodeFooter(freshId)])), Completed)
  }

  /** `acquireNewQuestionAnswer` */
  function AcquireNewQuestionAnswer(w: World, answer: string, acquisition: AnswerAcquisition, threadId: string,
                                    hash: string -> string): (r: World)
    ensures r.db.Keys == w.db.Keys + {hash(answer)}
    ensures r.db[hash(answer)] == QuestionWithAnswer(Some(hash(answer)), answer, [Lower(acquisition.question)])
    ensures forall k :: k in w.db && k != hash(answer) ==> r.db[k] == w.db[k]
    ensures |r.outbox| == |w.outbox| + 1 && r.outbox[..|w.outbox|] == w.outbox
  {
    var db := Storage.Store(w.db, QuestionWithAnswer(None, answer, [Lower(acquisition.question)]), None, hash);
    var cache := Cache.DeleteAcquisition(Cache.DeleteThread(w.cache, threadId), acquisition.id);
    Send(World(cache, db, w.outbox), Outgoing(THANKS_FOR_ANSWER, Some(threadId), []))
  }

  /** `startImproveExistingAnswerAcquisition` */
  function StartImproveExistingAnswerAcquisition(w: World, threadContext: ThreadContext, answerLabel: string,
                                                 userId: string, freshId: string): (r: World)
    requires threadContext.Guessed?
    ensures r.db == w.db
    ensures |r.outbox| == |w.outbox| + 1 && r.outbox[..|w.outbox|] == w.outbox
    ensures r.outbox[|w.outbox|].threadId == None && r.outbox[|w.outbox|].attachments == [CodeFooter(freshId)]
  {
    var answerToImprove := threadContext.guessedAnswer;
    var cache := Cache.PutImprove(w.cache, freshId, ImproveAnswerAcquisition(freshId, answerLabel, answerToImprove));
    Send(w.(cache := cache), Outgoing(ImproveText(userId, answerToImprove.answer), None, [CodeFooter(freshId)]))
  }

  /** `acquireImproveExistingAnswer` */
  function AcquireImproveExistingAnswer(w: World, newAnswer: string, acquisition: ImproveAnswerAcquisition,
                                        threadId: string): (r: Step)
    ensures r.outcome.Threw? <==> Lower(acquisition.answerLabel) !in w.db
    ensures r.outcome.Threw? ==> r == Step(w, Threw(DataError))
    ensures r.outcome.Completed? ==> && w.db.Keys <= r.world.db.Keys
                                     && acquisition.answerLabel in r.world.db
                                     && r.world.db[acquisition.answerLabel].answer == newAnswer
                                     && r.world.outbox == w.outbox + [Outgoing(THANKS_FOR_ANSWER, Some(threadId), [])]
  {
    match Storage.ReplaceAnswer(w.db, acquisition.answerLabel, newAnswer)
    case Err(e) => Step(w, Threw(e))
    case Ok(db) =>
      var cache := Cache.DeleteImprove(Cache.DeleteThread(w.cache, threadId), acquisition.id);
      Step(Send(World(cache, db, w.outbox), Outgoing(THANKS_FOR_ANSWER, Some(threadId), [])), Completed)
  }

  /** `sendNextBestQuestionGuess`: the top remaining candidate's score is read before the
      list is checked for emptiness, so an exhausted list throws. */
  function SendNextBestQuestionGuess(w: World, question: string, threadContext: ThreadContext,
                                     thread: MessageThread, freshId: string): (r: Step)
    requires threadContext.Guessed?
    ensures threadContext.classifications == [] ==> r == Step(w, Threw(TypeError))
    ensures r.world.db == w.db
    ensures w.outbox <= r.world.outbox
  {
    var classifications := threadContext.classifications;
    if classifications == [] then Step(w, Threw(TypeError))
    else
      var best := classifications[0];
      if best.value <= PROBABILITY_HARD_CUTOFF then
        StartNewQuestionAnswerAcquisition(w, question, threadContext.threadId, thread, freshId)
      else
        match Storage.GetFromLabel(w.db, best.answerLabel)
        case Err(e) => Step(w, Threw(e))
        case Ok(record) =>
          var remaining := Classifier.Without(classifications, best.answerLabel);
          var context := threadContext.(classifications := remaining);
          var w1 := w.(cache := Cache.PutThread(w.cache, context.threadId, context));
          Step(SendAnswerAndGatherFeedback(w1, question, record, best.value, remaining, context.threadId), Completed)
  }

  /** `processFeedbackOnGuessedAnswer`. A context that is still Pending has no question,
      so lower-casing it throws. */
  function ProcessFeedbackOnGuessedAnswer(w: World, hash: string -> string, feedback: string,
                                          threadContext: ThreadContext, userId: string,
                                          thread: MessageThread, freshId: string): (r: Step)
    ensures threadContext.Pending? ==> r == Step(w, Threw(TypeError))
    ensures feedback !in {GOOD_ANSWER, WRONG_ANSWER, ANSWER_HAS_CHANGED} ==> r.world == w
    ensures feedback != GOOD_ANSWER ==> r.world.db == w.db
    ensures w.db.Keys <= r.world.db.Keys
    ensures w.outbox <= r.world.outbox
  {
    if threadContext.Pending? then Step(w, Threw(TypeError))
    else
      var question := Lower(threadContext.question);
      var context := threadContext.(question := question);
      if feedback == GOOD_ANSWER then
        var record := context.guessedAnswer;
        if question !in record.questions && context.classifications == [] then Step(w, Threw(TypeError))
        else
          var w1 := if question in record.questions then w
                    else w.(db := Storage.Store(w.db, AcceptQuestion(record, question),
                                                Some(context.classifications[0].answerLabel), hash));
          var w2 := Send(w1, Outgoing(THANKS_FOR_FEEDBACK, Some(context.threadId), []));
          Step(w2.(cache := Cache.DeleteThread(w2.cache, context.threadId)), Completed)
      else if feedback == WRONG_ANSWER && context.guessedAnswer.answerLabel.Some? then
        var newClassifications := Classifier.Without(context.classifications, context.guessedAnswer.answerLabel.value);
        var newThreadState := context.(classifications := newClassifications);
        var w1 := w.(cache := Cache.PutThread(w.cache, context.threadId, newThreadState));
        SendNextBestQuestionGuess(w1, question, newThreadState, thread, freshId)
      else if feedback == ANSWER_HAS_CHANGED then
        if context.classifications == [] then Step(w, Threw(TypeError))
        else Step(StartImproveExistingAnswerAcquisition(w, context, context.classifications[0].answerLabel,
                                                        userId, freshId), Completed)
      else Step(w, Completed)
  }

  /** `interpretQuestionAndGuessAnswer` */
  function InterpretQuestionAndGuessAnswer(w: World, env: Env, question: string, threadId: string,
                                           thread: MessageThread, freshId: string): (r: Step)
    ensures r.world.db == w.db
    ensures w.outbox <= r.world.outbox
    ensures |env.classify(Lower(question))| == 0 ==> r.outcome == Threw(TypeError) && r.world.outbox == w.outbox
  {
    var w1 := w.(cache := Cache.PutThread(w.cache, threadId, Pending(threadId)));
    if |env.classify(Lower(question))| == 0 then Step(w1, Threw(TypeError))
    else
      var interpretation := Classifier.Interpret(question, env.classify);
      if interpretation.guess.None? || interpretation.guess.value == "" then
        StartNewQuestionAnswerAcquisition(w1, question, threadId, thread, freshId)
      else
        match Storage.GetFromLabel(w1.db, interpretation.guess.value)
        case Err(e) => Step(w1, Threw(e))
        case Ok(record) =>
          Step(SendAnswerAndGatherFeedback(w1, question, record, interpretation.probability,
                                           interpretation.probabilities, threadId), Completed)
  }

  /** `handleIncomingSlackMessage`: the dialogue router. */
  function HandleIncomingSlackMessage(w: World, env: Env, message: string, event: MessageEvent,
                                      thread: MessageThread, freshId: string): (r: Step)
    ensures env.channel != event.channel || message == DUMP_COMMAND ==> r == Step(w, Completed)
    ensures w.db.Keys <= r.world.db.Keys
    ensures w.outbox <= r.world.outbox
  {
    if env.channel != event.channel then Step(w, Completed)
    else if message == DUMP_COMMAND then Step(w, Completed)
    else
      var isQuestion := Contains(message, "?");
      var replyId := event.ts;
      var isThread := event.threadTs.Some?;
      if isQuestion && !isThread then
        if !env.classifierTrained || Contains(message, FORCE_ACQUISITION_MARKER) then
          StartNewQuestionAnswerAcquisition(w, ReplaceFirst(message, FORCE_ACQUISITION_MARKER, ""), replyId,
                                            thread, freshId)
        else
          InterpretQuestionAndGuessAnswer(w, env, message, replyId, thread, freshId)
      else if event.threadTs.None? then Step(w, Completed)
      else
        match Slack.TryGetAcquisitionId(thread)
        case Err(e) => Step(w, Threw(e))
        case Ok(None) => Step(w, Completed)
        case Ok(Some(acquisitionId)) =>
          match Cache.GetAcquisition(w.cache, acquisitionId)
          case Some(acquisition) =>
            Step(AcquireNewQuestionAnswer(w, message, acquisition, event.threadTs.value, env.hash), Completed)
          case None =>
            match Cache.GetImprove(w.cache, acquisitionId)
            case Some(improvement) => AcquireImproveExistingAnswer(w, message, improvement, event.threadTs.value)
            case None => Step(w, Completed)
  }

  /** A Slack message event: the event filter, then the router. */
  function OnMessageEvent(w: World, env: Env, event: MessageEvent, thread: MessageThread, freshId: string): (r: Step)
    ensures event.subtype == Some(BOT_MESSAGE) || event.text.None? ==> r == Step(w, Completed)
    ensures w.db.Keys <= r.world.db.Keys
    ensures w.outbox <= r.world.outbox
  {
    match SlackEvents.OnMessage(event)
    case None => Step(w, Completed)
    case Some(call) => HandleIncomingSlackMessage(w, env, call.message, call.event, thread, freshId)
  }

  /** A feedback button click: the interaction guards, then the feedback processor. */
  function OnFeedbackClick(w: World, env: Env, event: InteractionEvent, thread: MessageThread, freshId: string): (r: Step)
    ensures event.originalThreadTs.Some? && Cache.GetThread(w.cache, event.originalThreadTs.value) == None ==>
              r == Step(w, Completed)
    ensures w.db.Keys <= r.world.db.Keys
    ensures w.outbox <= r.world.outbox
  {
    match SlackInteractions.OnAnswerFeedback(event, w.cache)
    case None => Step(w, Completed)
    case Some(call) => ProcessFeedbackOnGuessedAnswer(w, env.hash, call.feedback, call.context, call.userId,
                                                      thread, freshId)
  }
}
