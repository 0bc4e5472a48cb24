/**
  The button-feedback handler in front of the feedback processor: it passes the first
  clicked action's name, the thread's stored context and the clicking user to the
  callback, after a chain of guards that drop malformed or stale payloads.
 */
module SlackInteractions {
  import opened Types
  import Cache
  import Attachments

  /** The action id the handler is registered for; the feedback buttons carry it. */
  const FEEDBACK_ACTION_ID: string := "answer_feedback"

  /** Names that `name in AnswerFeedbackResponses` also accepts: the enum is a plain object,
      so `in` sees the properties it inherits from Object.prototype. */
  const OBJECT_PROTOTYPE_KEYS: set<string> := {
    "constructor", "hasOwnProperty", "isPrototypeOf", "propertyIsEnumerable", "toLocaleString",
    "toString", "valueOf", "__proto__", "__defineGetter__", "__defineSetter__",
    "__lookupGetter__", "__lookupSetter__"
  }

  /** `name in AnswerFeedbackResponses` */
  predicate IsEnumKey(name: string) {
    name == GOOD_ANSWER || name == WRONG_ANSWER || name == ANSWER_HAS_CHANGED || name in OBJECT_PROTOTYPE_KEYS
  }

  /** The arguments the feedback callback is invoked with. */
  datatype FeedbackCall = FeedbackCall(feedback: string, context: ThreadContext, userId: string)

  /** The `answer_feedback` handler over the cache's current entries. */
  function OnAnswerFeedback(event: InteractionEvent, cache: Cache.Entries): (r: Option<FeedbackCall>)
    ensures r.Some? <==>
              && event.actions.Some? && |event.actions.value| > 0
              && event.actions.value[0].name.Some?
              && event.originalThreadTs.Some?
              && IsEnumKey(event.actions.value[0].name.value)
              && Cache.GetThread(cache, event.originalThreadTs.value).Some?
    ensures r.Some? ==>
              && r.value.feedback == event.actions.value[0].name.value
              && Some(r.value.context) == Cache.GetThread(cache, event.originalThreadTs.value)
              && r.value.userId == event.userId
  {
    if event.actions.None? || |event.actions.value| == 0 then None
    else
      var feedback := event.actions.value[0].name;
      var threadId := event.originalThreadTs;
      if feedback.None? || threadId.None? || !IsEnumKey(feedback.value) then None
      else
        match Cache.GetThread(cache, threadId.value)
        case None => None
        case Some(threadContext) => Some(FeedbackCall(feedback.value, threadContext, event.userId))
  }

  /** Every button the bot sends passes the name check, and clicks come back under the
      callback id the buttons carry. */
  lemma ButtonsReachHandler()
    ensures Attachments.AnswerFeedbackButtons[0].callbackId == Some(FEEDBACK_ACTION_ID)
    ensures forall a :: a in Attachments.AnswerFeedbackButtons[0].actions ==> IsEnumKey(a.name)
  {
  }

  /** Only the first action is read: further actions never change the call. */
  lemma OnlyFirstActionRead(event: InteractionEvent, cache: Cache.Entries, first: ClickedAction,
                            rest1: seq<ClickedAction>, rest2: seq<ClickedAction>)
    ensures OnAnswerFeedback(event.(actions := Some([first] + rest1)), cache)
         == OnAnswerFeedback(event.(actions := Some([first] + rest2)), cache)
  {
  }
}
