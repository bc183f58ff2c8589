/** The program's entry point: check in, then report the account state. An
    exception escaping the check-in ends the run before the report. */
module Daily {
  import opened Faults
  import opened Messages
  import opened Notifier
  import opened DailyCheckin
  import opened CapacityInfo

  /** One run: `checkin()` followed by `user_info()`, with the push relay's
      reply to each. */
  function DailyRun(token: string, sign: SignResponse, signReply: PushReply,
                    info: InfoResponse, infoReply: PushReply): (t: Trace)
    ensures Checkin(token, sign, signReply).log <= t.log
    ensures Checkin(token, sign, signReply).pushes <= t.pushes
    ensures Checkin(token, sign, signReply).fault.Some? ==> t == Checkin(token, sign, signReply)
    ensures Checkin(token, sign, signReply).fault.None? ==>
      && t.log == Checkin(token, sign, signReply).log + UserInfo(token, info, infoReply).log
      && t.pushes == Checkin(token, sign, signReply).pushes + UserInfo(token, info, infoReply).pushes
      && t.fault == UserInfo(token, info, infoReply).fault
  {
    var c := Checkin(token, sign, signReply);
    if c.fault.Some? then
      c
    else
      var u := UserInfo(token, info, infoReply);
      Trace(c.log + u.log, c.pushes + u.pushes, u.fault)
  }

  /** A run pushes at most twice, every push goes to the configured token
      under the fixed title, and the "token missing" error of
      `send_notification` is never logged: its own guard cannot fire when
      called behind `config_is_ok`. */
  lemma DailyRunPushes(token: string, sign: SignResponse, signReply: PushReply,
                       info: InfoResponse, infoReply: PushReply)
    ensures var t := DailyRun(token, sign, signReply, info, infoReply);
      |t.pushes| <= 2
    ensures var t := DailyRun(token, sign, signReply, info, infoReply);
      forall p :: p in t.pushes ==> ConfigIsOk(token) && p.token == token && p.title == Title
    ensures var t := DailyRun(token, sign, signReply, info, infoReply);
      forall e :: e in t.log ==> e.text != TokenMissing
  {
  }

  /** With a token set, a run whose check-in and report both succeed pushes
      twice: the reward first, then the summary, even though the summary may
      repeat the reward. */
  lemma DailyRunPushesBoth(token: string, sign: SignResponse, signReply: PushReply,
                           info: InfoResponse, infoReply: PushReply)
    requires ConfigIsOk(token)
    requires OutcomeOf(sign) == SignedIn && sign.reward < Units.Pow1024(6)
    requires info.code == 0 && SummaryOf(info.data).Ok?
    ensures var t := DailyRun(token, sign, signReply, info, infoReply);
      && |t.pushes| == 2
      && t.pushes[0].content == SignReward(Units.ReadableOf(sign.reward).value)
      && t.pushes[1].content == CapacitySummary(SummaryOf(info.data).value)
      && t.fault == None
  {
    CheckinSuccess(token, sign, signReply);
  }

  /** `send_notification` never raises: the push relay's replies change
      neither the pushes issued nor whether the run ends in an exception. */
  lemma RepliesNeverRaise(token: string, sign: SignResponse, info: InfoResponse,
                          r1: PushReply, r2: PushReply, r3: PushReply, r4: PushReply)
    ensures DailyRun(token, sign, r1, info, r2).pushes == DailyRun(token, sign, r3, info, r4).pushes
    ensures DailyRun(token, sign, r1, info, r2).fault == DailyRun(token, sign, r3, info, r4).fault
  {
  }
}
