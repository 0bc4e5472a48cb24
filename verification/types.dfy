/**
  The bot's enumerations and record shapes: the internal feedback responses, the
  Slack constants it compares against, and the values held in the state cache and
  the question/answer store.
 */
module Types {

  datatype Option<T> = None | Some(value: T)

  /** The JavaScript exceptions the core can raise: a property read on `undefined`
      (or `reduce` of an empty array), and node-json-db's missing-path error. */
  datatype Error = TypeError | DataError

  datatype Result<T> = Ok(value: T) | Err(error: Error)

  /** How a handler run ended: normally, or by an exception that stopped it. */
  datatype Outcome = Completed | Threw(error: Error)

  // Feedback responses (the three buttons under a guessed answer).
  const GOOD_ANSWER: string := "GOOD_ANSWER"
  const WRONG_ANSWER: string := "WRONG_ANSWER"
  const ANSWER_HAS_CHANGED: string := "ANSWER_HAS_CHANGED"

  // Slack message subtype of messages posted by a bot.
  const BOT_MESSAGE: string := "bot_message"

  // Slack attachment action types and button styles.
  const BUTTON: string := "button"
  const SELECT: string := "select"
  const BUTTON_STYLE_DEFAULT: string := "default"
  const BUTTON_STYLE_PRIMARY: string := "primary"
  const BUTTON_STYLE_DANGER: string := "danger"

  /** One classifier output: a record label and its score. */
  datatype Candidate = Candidate(answerLabel: string, value: real)

  /** A stored answer with the question phrasings known to lead to it. */
  datatype QuestionWithAnswer = QuestionWithAnswer(answerLabel: Option<string>, answer: string, questions: seq<string>)

  /** Per-thread dialogue state: created Pending when a question arrives, Guessed once
      an answer is shown, with the candidates that remain to be tried. */
  datatype ThreadContext =
    | Pending(threadId: string)
    | Guessed(threadId: string, question: string, guessedAnswer: QuestionWithAnswer,
              classifications: seq<Candidate>)

  /** An open request to the channel for the answer to an unanswered question. */
  datatype AnswerAcquisition = AnswerAcquisition(id: string, question: string)

  /** An open request to the channel for a better version of an existing answer. */
  datatype ImproveAnswerAcquisition = ImproveAnswerAcquisition(id: string, answerLabel: string,
                                                               answerToImprove: QuestionWithAnswer)

  /** A button of a Slack message attachment. */
  datatype Action = Action(text: string, name: string, value: string, actionType: string, style: Option<string>)

  /** The attachment fields the bot sets or reads. */
  datatype Attachment = Attachment(fallback: string, callbackId: Option<string>, actions: seq<Action>,
                                   footer: Option<string>)

  /** An incoming Slack message event, or one message of a fetched thread. */
  datatype MessageEvent = MessageEvent(ts: string, channel: string, text: Option<string>, threadTs: Option<string>,
                                       subtype: Option<string>, user: string, attachments: Option<seq<Attachment>>)

  /** The answer of a thread fetch: the thread's messages, root first. */
  datatype MessageThread = MessageThread(messages: seq<MessageEvent>)

  /** One clicked action of an interaction payload; its name may be missing. */
  datatype ClickedAction = ClickedAction(name: Option<string>)

  /** A button-click (interaction) payload. */
  datatype InteractionEvent = InteractionEvent(originalText: string, originalThreadTs: Option<string>,
                                               actions: Option<seq<ClickedAction>>, userId: string)
}
