/** `send_notification`: forward a message to the push relay, strictly best
    effort. The push token is the program's configuration; `config_is_ok` is
    simply "the token is not empty". */
module Notifier {
  import opened Faults
  import opened Messages

  /** The fixed title of every push ("夸克网盘自动签到"). */
  const Title: string := "夸克网盘自动签到"

  /** The reason logged when a rejecting reply carries no `msg` ("未知错误"). */
  const UnknownReason: string := "未知错误"

  /** How the push request went, as seen from inside the `try` block:
      `Failed` when the request, the HTTP status check or the JSON decoding
      raised; otherwise the reply's `code` and `msg` fields (None: absent). */
  datatype PushReply = Failed | Replied(code: Option<int>, msg: Option<string>)

  /** One call of `send_notification`: the single entry it logs and the
      request it issued, if it issued one. */
  datatype Notified = Notified(log: LogEntry, request: Option<PushRequest>)

  predicate ConfigIsOk(token: string) {
    token != ""
  }

  /** The push relay accepted the message: its application code is 200. */
  predicate Delivered(reply: PushReply) {
    reply.Replied? && reply.code == Some(200)
  }

  /** `send_notification(body)`: no request without a token; otherwise one
      request with the token, the fixed title and the body, whose outcome is
      logged and never raised. */
  function SendNotification(token: string, body: Text, reply: PushReply): (n: Notified)
    ensures n.request.Some? <==> ConfigIsOk(token)
    ensures n.request.Some? ==> n.request.value == PushRequest(token, Title, body)
    ensures n.log.level == Info <==> ConfigIsOk(token) && Delivered(reply)
    ensures n.log.level != Info ==> n.log.level == Error
    ensures n.log.text == TokenMissing <==> !ConfigIsOk(token)
  {
    if !ConfigIsOk(token) then
      Notified(LogEntry(Error, TokenMissing), None)
    else
      var request := PushRequest(token, Title, body);
      match reply
      case Failed => Notified(LogEntry(Error, PushFailed), Some(request))
      case Replied(code, msg) =>
        if code == Some(200) then
          Notified(LogEntry(Info, PushDelivered), Some(request))
        else
          var reason := if msg.Some? then msg.value else UnknownReason;
          Notified(LogEntry(Error, PushRejected(reason)), Some(request))
  }

  /** The tail shared by check-in and user info on success: log `text` at
      `level`, then, when `config_is_ok`, pass the same text to
      `send_notification`. */
  function Announce(level: Level, text: Text, token: string, reply: PushReply): (t: Trace)
    ensures t.fault == None
    ensures |t.log| >= 1 && t.log[0] == LogEntry(level, text)
    ensures |t.pushes| == if ConfigIsOk(token) then 1 else 0
    ensures forall p :: p in t.pushes ==> p == PushRequest(token, Title, text)
    ensures |t.log| == if ConfigIsOk(token) then 2 else 1
    ensures ConfigIsOk(token) ==> t.log[1] == SendNotification(token, text, reply).log
    ensures ConfigIsOk(token) ==> t.log[1].text != TokenMissing
  {
    var entry := LogEntry(level, text);
    if ConfigIsOk(token) then
      var n := SendNotification(token, text, reply);
      Trace([entry, n.log], [n.request.value], None)
    else
      Trace([entry], [], None)
  }

  /** Whatever the push relay answers, a notification changes only what is
      logged after the message: never the requests issued nor the outcome. */
  lemma ReplyOnlyAffectsLog(level: Level, text: Text, token: string, r1: PushReply, r2: PushReply)
    ensures Announce(level, text, token, r1).pushes == Announce(level, text, token, r2).pushes
    ensures Announce(level, text, token, r1).fault == Announce(level, text, token, r2).fault
    ensures |Announce(level, text, token, r1).log| == |Announce(level, text, token, r2).log|
  {
  }
}
