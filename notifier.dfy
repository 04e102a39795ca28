/** `send_notification`: one POST of a fixed-shape message to the webhook. */
module Notifier {
  import opened Output

  const BOT_NAME := "Housing Bot"
  const FAILURE_PREFIX := "Failed to send Discord notification: "

  /** The JSON body `{"content": ..., "username": ...}` of the webhook POST. */
  datatype Message = Message(content: string, username: string)

  /** How the webhook answered: `Rejected` stands for the HTTPError the script catches. */
  datatype WebhookReply = Accepted | Rejected(reason: string)

  /** The message posted, and what the script printed about it. */
  datatype Sent = Sent(posted: Message, lines: seq<Line>)

  /**
   * The posted message carries the given text under the bot's name; a
   * rejection is reported on one printed line and is otherwise ignored.
   */
  function SendNotification(message: string, reply: WebhookReply): (sent: Sent)
    ensures sent.posted.content == message && sent.posted.username == BOT_NAME
    ensures |sent.lines| <= 1
    ensures sent.lines == [] <==> reply.Accepted?
  {
    var data := Message(message, BOT_NAME);
    match reply
    case Accepted => Sent(data, [])
    case Rejected(reason) => Sent(data, [Text(FAILURE_PREFIX + reason)])
  }
}
