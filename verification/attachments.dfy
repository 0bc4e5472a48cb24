/**
  The message attachments the bot sends: the feedback buttons under a guessed answer,
  and a footer carrying a line of text (a confidence figure or an acquisition code).
 */
module Attachments {
  import opened Types

  /** The callback id under which button clicks come back to the interaction handler. */
  const FEEDBACK_CALLBACK_ID: string := "answer_feedback"

  const AnswerFeedbackButtons: seq<Attachment> := [
    Attachment(
      "Feedback isnt working currently, sorry",
      Some(FEEDBACK_CALLBACK_ID),
      [ Action("Good answer", GOOD_ANSWER, GOOD_ANSWER, BUTTON, Some(BUTTON_STYLE_PRIMARY)),
        Action("Wrong answer", WRONG_ANSWER, WRONG_ANSWER, BUTTON, Some(BUTTON_STYLE_DANGER)),
        Action("Answer has changed", ANSWER_HAS_CHANGED, ANSWER_HAS_CHANGED, BUTTON, None) ],
      None)
  ]

  /** The footer attachment list for `text`. */
  function GetFooter(text: string): (r: seq<Attachment>)
    ensures |r| == 1
    ensures r[0].footer == Some(text) && r[0].fallback == text
    ensures r[0].actions == [] && r[0].callbackId == None
  {
    [Attachment(text, None, [], Some(text))]
  }

  /** The feedback attachment offers exactly the three responses, in order, each button's
      value equal to its name, under the callback id the interaction handler listens on. */
  lemma FeedbackButtonsShape()
    ensures |AnswerFeedbackButtons| == 1
    ensures AnswerFeedbackButtons[0].callbackId == Some(FEEDBACK_CALLBACK_ID)
    ensures |AnswerFeedbackButtons[0].actions| == 3
    ensures AnswerFeedbackButtons[0].actions[0].name == GOOD_ANSWER
    ensures AnswerFeedbackButtons[0].actions[1].name == WRONG_ANSWER
    ensures AnswerFeedbackButtons[0].actions[2].name == ANSWER_HAS_CHANGED
    ensures forall a :: a in AnswerFeedbackButtons[0].actions ==> a.value == a.name && a.actionType == BUTTON
  {
  }
}
