/**
 * The Slack notifier of src/notifier.py: whether a message is posted, and the
 * payload it is posted with. The POST itself and its outcome are not modelled;
 * whatever it returns or raises is only logged.
 */
module Notifier {
  import opened Wrappers

  const Green := "#36a64f"
  const Red := "#ff0000"
  const Yellow := "#ffcc00"

  datatype Attachment = Attachment(color: string, text: string, mrkdwnIn: seq<string>)

  /** The JSON body: `{"attachments": [...]}`. */
  datatype Payload = Payload(attachments: seq<Attachment>)

  /** The POST the notifier would send. */
  datatype Request = Request(url: string, payload: Payload)

  /** The attachment colour: red for `error`, yellow for `warning`, green for every other status. */
  function Color(status: string): (c: string)
    ensures c == Red <==> status == "error"
    ensures c == Yellow <==> status == "warning"
    ensures c == Green <==> status != "error" && status != "warning"
  {
    if status == "error" then Red else if status == "warning" then Yellow else Green
  }

  datatype SlackNotifier = SlackNotifier(webhookUrl: Option<string>) {
    /**
     * `send_notification`: no request without a non-empty webhook URL;
     * otherwise one POST to that URL carrying a single attachment with the
     * status colour and the message as markdown text.
     */
    function SendNotification(message: string, status: string): (r: Option<Request>)
      ensures r.None? <==> !Truthy(webhookUrl)
      ensures r.Some? ==> r.value.url == webhookUrl.value
      ensures r.Some? ==> |r.value.payload.attachments| == 1
      ensures r.Some? ==> var a := r.value.payload.attachments[0];
        a.color == Color(status) && a.text == message && a.mrkdwnIn == ["text"]
    {
      if !Truthy(webhookUrl) then None
      else Some(Request(webhookUrl.value, Payload([Attachment(Color(status), message, ["text"])])))
    }
  }

  /** Statuses other than `error` and `warning` are all shown alike. */
  lemma OtherStatusesLookAlike(n: SlackNotifier, message: string, s1: string, s2: string)
    requires s1 != "error" && s1 != "warning" && s2 != "error" && s2 != "warning"
    ensures n.SendNotification(message, s1) == n.SendNotification(message, s2)
  {
  }
}
