/** `user_info`: the capacity-info GET and the summary the program composes
    from it. The request is not modelled; the decoded body is the input. */
module CapacityInfo {
  import opened Faults
  import opened Units
  import opened Messages
  import opened Notifier

  /** `data.cap_sign`: whether today's check-in is done, its reward in bytes
      and the opaque sign progress. */
  datatype CapSign = CapSign(signDaily: bool, signDailyReward: int, signProgress: string)

  /** `data`: the membership type, the expiry in epoch milliseconds (None when
      absent or null), the total and used capacity in bytes, and `cap_sign`. */
  datatype InfoData = InfoData(
    memberType: string,
    superVipExpAt: Option<int>,
    totalCapacity: int,
    useCapacity: int,
    capSign: CapSign)

  /** The decoded body of the info response. */
  datatype InfoResponse = InfoResponse(code: int, message: string, data: InfoData)

  /** The expiry shown: the sentinel unless a timestamp is present. */
  function ExpiryOf(superVipExpAt: Option<int>): (e: Expiry)
    ensures e == Unknown <==> superVipExpAt.None?
    ensures superVipExpAt.Some? ==> e.epochMillis == superVipExpAt.value
  {
    match superVipExpAt
    case None => Unknown
    case Some(ms) => ExpiresAt(ms)
  }

  /** The optional first line: present only when today's check-in is done,
      and then `human_unit` of the reward, which may raise. */
  function SignLineOf(cap: CapSign): (r: Result<Option<SignLine>>)
    ensures r.Ok? <==> !cap.signDaily || cap.signDailyReward < Pow1024(6)
    ensures r.Ok? ==> (r.value.Some? <==> cap.signDaily)
    ensures r.Ok? && r.value.Some? ==>
      Ok(r.value.value.reward) == ReadableOf(cap.signDailyReward) && r.value.value.progress == cap.signProgress
    ensures r.Raised? ==> r.fault == IndexError
  {
    ReadableDefined(cap.signDailyReward);
    if cap.signDaily then
      var reward :- ReadableOf(cap.signDailyReward);
      Ok(Some(SignLine(reward, cap.signProgress)))
    else
      Ok(None)
  }

  /** The summary, evaluated in the program's order: the sign line, the
      total, the used capacity, then used / total * 100. */
  function SummaryOf(data: InfoData): (r: Result<Summary>)
    ensures r.Ok? ==> data.totalCapacity != 0
    ensures r.Ok? ==> r.value.usedPercent * data.totalCapacity as real == data.useCapacity as real * 100.0
    ensures r.Ok? ==> r.value.memberType == data.memberType && r.value.expiry == ExpiryOf(data.superVipExpAt)
    ensures r == Raised(ZeroDivisionError) ==> data.totalCapacity == 0
  {
    var line :- SignLineOf(data.capSign);
    var total :- ReadableOf(data.totalCapacity);
    var used :- ReadableOf(data.useCapacity);
    if data.totalCapacity == 0 then
      Raised(ZeroDivisionError)
    else
      var percent := data.useCapacity as real / data.totalCapacity as real * 100.0;
      Ok(Summary(line, data.memberType, ExpiryOf(data.superVipExpAt), total, used, percent))
  }

  /** `user_info()`: a non-zero code logs the server's message; otherwise the
      summary is logged at info level and, when `config_is_ok`, pushed. */
  function UserInfo(token: string, resp: InfoResponse, reply: PushReply): (t: Trace)
    ensures |t.pushes| <= 1
    ensures t.pushes != [] ==> resp.code == 0 && ConfigIsOk(token)
  {
    if resp.code != 0 then
      Warned(ServerMessage(resp.message))
    else
      match SummaryOf(resp.data)
      case Raised(f) => Halted(f)
      case Ok(summary) => Announce(Info, CapacitySummary(summary), token, reply)
  }

  /** All byte counts the summary formats are within `human_unit`'s range. */
  predicate Formattable(data: InfoData) {
    && data.totalCapacity < Pow1024(6)
    && data.useCapacity < Pow1024(6)
    && (data.capSign.signDaily ==> data.capSign.signDailyReward < Pow1024(6))
  }

  /** The summary is composed exactly when every byte count is formattable
      and the total capacity is not zero; a zero total with formattable counts
      is the division by zero, anything else the IndexError. */
  lemma SummaryDefined(data: InfoData)
    ensures SummaryOf(data).Ok? <==> Formattable(data) && data.totalCapacity != 0
    ensures SummaryOf(data) == Raised(ZeroDivisionError) <==> Formattable(data) && data.totalCapacity == 0
    ensures !Formattable(data) ==> SummaryOf(data) == Raised(IndexError)
  {
    ReadableDefined(data.totalCapacity);
    ReadableDefined(data.useCapacity);
    ReadableDefined(data.capSign.signDailyReward);
  }

  /** What a composed summary holds: the sign line exactly when today's
      check-in is done, the sentinel expiry exactly when none is given and
      otherwise the given timestamp, both
      capacities as `human_unit` renders them, and the used share in percent. */
  lemma SummaryContents(data: InfoData)
    requires SummaryOf(data).Ok?
    ensures var s := SummaryOf(data).value;
      && (s.signLine.Some? <==> data.capSign.signDaily)
      && (s.signLine.Some? ==> Ok(s.signLine.value.reward) == ReadableOf(data.capSign.signDailyReward)
                               && s.signLine.value.progress == data.capSign.signProgress)
      && (s.expiry == Unknown <==> data.superVipExpAt.None?)
      && s.expiry == ExpiryOf(data.superVipExpAt)
      && (data.superVipExpAt.Some? ==> s.expiry == ExpiresAt(data.superVipExpAt.value))
      && s.memberType == data.memberType
      && Ok(s.total) == ReadableOf(data.totalCapacity)
      && Ok(s.used) == ReadableOf(data.useCapacity)
      && s.usedPercent * data.totalCapacity as real == data.useCapacity as real * 100.0
  {
  }

  /** A non-zero code only warns with the server's message; code 0 either
      raises the summary's own fault (see SummaryDefined) before logging or
      pushing anything, or logs the summary at info level and pushes it once
      exactly when the token is set. */
  lemma UserInfoOutcome(token: string, resp: InfoResponse, reply: PushReply)
    ensures var t := UserInfo(token, resp, reply);
      resp.code != 0 ==> t == Warned(ServerMessage(resp.message))
    ensures var t := UserInfo(token, resp, reply);
      resp.code == 0 && !SummaryOf(resp.data).Ok? ==>
        t == Halted(SummaryOf(resp.data).fault)
    ensures var t := UserInfo(token, resp, reply);
      resp.code == 0 && SummaryOf(resp.data).Ok? ==>
        && t.fault == None
        && t.log[0] == LogEntry(Info, CapacitySummary(SummaryOf(resp.data).value))
        && |t.pushes| == (if ConfigIsOk(token) then 1 else 0)
        && (forall p :: p in t.pushes ==> p.content == t.log[0].text)
  {
  }
}
