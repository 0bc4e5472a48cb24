/**
  Recovering an acquisition code from a fetched thread: the bot's broadcast asking the
  channel for an answer is the thread's root and carries the code in its footer.
 */
module Slack {
  import opened Types
  import opened Strings
  import Attachments

  const ACQUISITION_CODE_PREFIX: string := "Acquisition Code: "

  /** The footer text that tags a broadcast with acquisition code `id`. */
  function AcquisitionFooter(id: string): string {
    ACQUISITION_CODE_PREFIX + id
  }

  /** The code in the root message's first footer, if the root is a bot message whose
      footer starts with the prefix; no code otherwise. Reading the root of an empty
      thread, or the first attachment of an empty attachment list, throws. */
  function TryGetAcquisitionId(threadContents: MessageThread): (r: Result<Option<string>>)
    ensures r.Err? <==> |threadContents.messages| == 0
                        || (threadContents.messages[0].subtype == Some(BOT_MESSAGE)
                            && threadContents.messages[0].attachments == Some([]))
    ensures r.Err? ==> r.error == TypeError
    ensures forall id :: r == Ok(Some(id)) ==>
              && threadContents.messages[0].subtype == Some(BOT_MESSAGE)
              && threadContents.messages[0].attachments.Some?
              && threadContents.messages[0].attachments.value[0].footer == Some(AcquisitionFooter(id))
  {
    if |threadContents.messages| == 0 then Err(TypeError)
    else
      var root := threadContents.messages[0];
      if root.subtype != Some(BOT_MESSAGE) then Ok(None)
      else if root.attachments.None? then Ok(None)
      else if |root.attachments.value| == 0 then Err(TypeError)
      else if root.attachments.value[0].footer.None? then Ok(None)
      else
        var found := root.attachments.value[0].footer.value;
        if !StartsWith(found, ACQUISITION_CODE_PREFIX) then Ok(None)
        else
          ReplacePrefix(found, ACQUISITION_CODE_PREFIX);
          assert found == ACQUISITION_CODE_PREFIX + found[|ACQUISITION_CODE_PREFIX|..];
          Ok(Some(ReplaceFirst(found, ACQUISITION_CODE_PREFIX, "")))
  }

  /** A root that is not a bot message never yields a code. */
  lemma NotBotMessageHasNoCode(root: MessageEvent, replies: seq<MessageEvent>)
    requires root.subtype != Some(BOT_MESSAGE)
    ensures TryGetAcquisitionId(MessageThread([root] + replies)) == Ok(None)
  {
  }

  /** A bot root without attachments, or whose first attachment has no footer, or whose
      footer lacks the prefix, yields no code. */
  lemma NoFooterCodeHasNoCode(root: MessageEvent, replies: seq<MessageEvent>)
    requires root.subtype == Some(BOT_MESSAGE)
    requires || root.attachments.None?
             || (|root.attachments.value| > 0 && root.attachments.value[0].footer.None?)
             || (|root.attachments.value| > 0 && root.attachments.value[0].footer.Some?
                 && !StartsWith(root.attachments.value[0].footer.value, ACQUISITION_CODE_PREFIX))
    ensures TryGetAcquisitionId(MessageThread([root] + replies)) == Ok(None)
  {
  }

  /** A footer that carries the prefix yields exactly the text after it. */
  lemma PrefixedFooterYieldsRest(root: MessageEvent, replies: seq<MessageEvent>, footer: string)
    requires root.subtype == Some(BOT_MESSAGE)
    requires root.attachments.Some? && |root.attachments.value| > 0
    requires root.attachments.value[0].footer == Some(footer)
    requires StartsWith(footer, ACQUISITION_CODE_PREFIX)
    ensures TryGetAcquisitionId(MessageThread([root] + replies)) == Ok(Some(footer[|ACQUISITION_CODE_PREFIX|..]))
  {
    ReplacePrefix(footer, ACQUISITION_CODE_PREFIX);
  }

  /** Round trip: a bot message tagged with the footer built from `id` parses back to
      `id`, for every `id`, whatever the replies below it. */
  lemma AcquisitionCodeRoundTrip(id: string, root: MessageEvent, replies: seq<MessageEvent>)
    requires root.subtype == Some(BOT_MESSAGE)
    requires root.attachments.Some? && |root.attachments.value| > 0
    requires root.attachments.value[0] == Attachments.GetFooter(AcquisitionFooter(id))[0]
    ensures TryGetAcquisitionId(MessageThread([root] + replies)) == Ok(Some(id))
  {
    var footer := AcquisitionFooter(id);
    assert footer[..|ACQUISITION_CODE_PREFIX|] == ACQUISITION_CODE_PREFIX;
    assert footer[|ACQUISITION_CODE_PREFIX|..] == id;
    PrefixedFooterYieldsRest(root, replies, footer);
  }

  /** Only the root is inspected: the replies never change the result. */
  lemma OnlyRootInspected(root: MessageEvent, replies1: seq<MessageEvent>, replies2: seq<MessageEvent>)
    ensures TryGetAcquisitionId(MessageThread([root] + replies1))
         == TryGetAcquisitionId(MessageThread([root] + replies2))
  {
  }
}
