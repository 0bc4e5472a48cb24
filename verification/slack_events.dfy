/**
  The message-event filter in front of the dialogue router: the bot's own messages and
  events without text never reach it.
 */
module SlackEvents {
  import opened Types

  /** The arguments the message callback is invoked with. */
  datatype MessageCall = MessageCall(message: string, event: MessageEvent)

  /** The `message` handler: None when the event is dropped, else the one callback call. */
  function OnMessage(event: MessageEvent): (r: Option<MessageCall>)
    ensures r.None? <==> event.subtype == Some(BOT_MESSAGE) || event.text.None?
    ensures r.Some? ==> r.value.event == event && Some(r.value.message) == event.text
  {
    if event.subtype == Some(BOT_MESSAGE) || event.text.None? then None
    else Some(MessageCall(event.text.value, event))
  }

  /** Only the bot subtype is filtered: any other subtype with text passes. */
  lemma OtherSubtypesPass(event: MessageEvent, subtype: string)
    requires event.subtype == Some(subtype) && subtype != BOT_MESSAGE && event.text.Some?
    ensures OnMessage(event) == Some(MessageCall(event.text.value, event))
  {
  }
}
