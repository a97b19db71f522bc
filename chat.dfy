/** The chat box of the Communication panel: the "Send" button adds the
    typed text, trimmed, as a message from the creator, unless the text is
    blank. */
module Chat {
  import opened Text

  datatype Sender = Creator | User

  datatype ChatMessage = ChatMessage(from: Sender, text: string, time: int)

  /** The panel's chat state: the transcript and the text being typed. */
  datatype ChatBox = ChatBox(messages: seq<ChatMessage>, text: string)

  /** The "Send" button, at time `now`. */
  function Send(box: ChatBox, now: int): (r: ChatBox)
    ensures AllWhitespace(box.text) ==> r == box
    ensures !AllWhitespace(box.text) ==>
      && |r.messages| == |box.messages| + 1
      && r.messages[..|box.messages|] == box.messages
      && r.messages[|box.messages|].from == Creator
      && r.messages[|box.messages|].time == now
      && r.messages[|box.messages|].text == Trim(box.text) != []
      && r.text == ""
  {
    TrimEmptyIffBlank(box.text);
    var t := Trim(box.text);
    if t == [] then box
    else ChatBox(box.messages + [ChatMessage(Creator, t, now)], "")
  }
}
