/** What the check-in program says: the texts it logs or pushes, the log
    entries it writes, the push requests it issues, and the trace of one
    operation. Texts are kept structured; their Chinese wording and decimal
    rendering are not modelled. */
module Messages {
  import opened Faults
  import opened Units

  /** The logger levels the program uses. */
  datatype Level = Info | Success | Warning | Error

  /** The membership expiry in the summary: the sentinel "未知" (unknown)
      when the response carries none, otherwise the timestamp, which the
      program renders as local date and time. */
  datatype Expiry = Unknown | ExpiresAt(epochMillis: int)

  /** The "signed today" line: today's reward and the sign progress. */
  datatype SignLine = SignLine(reward: Readable, progress: string)

  /** The account summary `user_info` composes. */
  datatype Summary = Summary(
    signLine: Option<SignLine>,
    memberType: string,
    expiry: Expiry,
    total: Readable,
    used: Readable,
    usedPercent: real)

  datatype Text =
    | AlreadySigned                   // the warning for a rejected check-in
    | ServerMessage(message: string)  // the server's own message on a non-zero code
    | SignReward(reward: Readable)    // the check-in success message
    | CapacitySummary(summary: Summary)
    | TokenMissing                    // send_notification without a token
    | PushDelivered
    | PushRejected(reason: string)
    | PushFailed                      // an exception caught in send_notification

  datatype LogEntry = LogEntry(level: Level, text: Text)

  /** A GET to the push endpoint with its three query parameters. */
  datatype PushRequest = PushRequest(token: string, title: string, content: Text)

  /** What one operation did: what it logged, in order, the push requests it
      issued, and the exception it let escape, if any. */
  datatype Trace = Trace(log: seq<LogEntry>, pushes: seq<PushRequest>, fault: Option<Fault>)

  /** A trace that only logs one warning. */
  function Warned(text: Text): Trace {
    Trace([LogEntry(Warning, text)], [], None)
  }

  /** A trace cut short by an exception before anything was logged. */
  function Halted(fault: Fault): Trace {
    Trace([], [], Some(fault))
  }
}
