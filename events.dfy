/** The values the assistant passes around: the webhook's messaging event,
    the queued form of it, and conversation-history entries. */
module Events {
  import opened Wrappers

  /** One element of message.attachments: its "type" and payload URL. */
  datatype Attachment = Attachment(kind: string, url: string)

  /** messaging["message"]: an optional "text" and an optional
      "attachments" list (absent keys are None). */
  datatype Message = Message(text: Option<string>, attachments: Option<seq<Attachment>>)

  /** messaging["reaction"]: its optional "emoji". */
  datatype Reaction = Reaction(emoji: Option<string>)

  /** One messaging event of the webhook payload. */
  datatype Messaging = Messaging(
    sender: string,
    recipient: string,
    message: Option<Message>,
    reaction: Option<Reaction>)

  /** The JSON object queue_user_message pushes onto message_queue:. The
      timestamp is the clock reading at the push. */
  datatype QueuedMessage = QueuedMessage(timestamp: int, data: Messaging, hasImage: bool)

  /** One {"role", "content"} entry of the chat: context. */
  datatype ChatEntry = ChatEntry(role: string, content: string)

  predicate IsImage(a: Attachment)
  {
    a.kind == "image"
  }

  /** Number of attachments whose type is "image". */
  function ImageCount(atts: seq<Attachment>): (n: nat)
    ensures n <= |atts|
    ensures n == 0 <==> forall k :: 0 <= k < |atts| ==> !IsImage(atts[k])
  {
    if atts == [] then 0
    else ImageCount(atts[..|atts| - 1]) + (if IsImage(atts[|atts| - 1]) then 1 else 0)
  }
}
