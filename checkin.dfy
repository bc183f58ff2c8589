/** `checkin`: the daily sign-in POST and what the program does with its
    answer. The request itself is not modelled; its HTTP status and body
    fields are inputs. */
module DailyCheckin {
  import opened Faults
  import opened Units
  import opened Messages
  import opened Notifier

  /** The answer to the sign-in POST: the HTTP status and, from the JSON
      body, `code`, `message` and `data.sign_daily_reward` (in bytes). */
  datatype SignResponse = SignResponse(status: int, code: int, message: string, reward: int)

  /** The three terminal outcomes of a check-in. */
  datatype SignOutcome = AlreadySignedToday | SoftFailure | SignedIn

  function OutcomeOf(resp: SignResponse): (o: SignOutcome)
    ensures o == SignedIn <==> resp.status == 200 && resp.code == 0
    ensures o == AlreadySignedToday <==> resp.status != 200
  {
    if resp.status != 200 then AlreadySignedToday
    else if resp.code != 0 then SoftFailure
    else SignedIn
  }

  /** `checkin()`: a non-200 status is read as "already signed today", a
      non-zero code logs the server's message, and code 0 logs the reward
      (formatted by `human_unit`) as a success and pushes it when
      `config_is_ok`. */
  function Checkin(token: string, resp: SignResponse, reply: PushReply): (t: Trace)
    ensures |t.pushes| <= 1
    ensures t.pushes != [] ==> OutcomeOf(resp) == SignedIn && ConfigIsOk(token)
  {
    match OutcomeOf(resp)
    case AlreadySignedToday => Warned(AlreadySigned)
    case SoftFailure => Warned(ServerMessage(resp.message))
    case SignedIn =>
      match ReadableOf(resp.reward)
      case Raised(f) => Halted(f)
      case Ok(reward) => Announce(Success, SignReward(reward), token, reply)
  }

  /** A rejected or failed check-in only warns: nothing else is logged,
      nothing is pushed, nothing is raised. */
  lemma CheckinWarnsOnly(token: string, resp: SignResponse, reply: PushReply)
    requires OutcomeOf(resp) != SignedIn
    ensures var t := Checkin(token, resp, reply);
      t.fault == None && t.pushes == [] && |t.log| == 1 && t.log[0].level == Warning
    ensures resp.status != 200 ==> Checkin(token, resp, reply).log[0].text == AlreadySigned
    ensures resp.status == 200 ==> Checkin(token, resp, reply).log[0].text == ServerMessage(resp.message)
  {
  }

  /** A successful check-in logs `human_unit` of the reward at success
      level, in the unit band of the byte count and with a magnitude below
      1024, and pushes exactly that message once when the token is set and
      never otherwise. A reward of 1024^6 bytes or more raises IndexError
      while the message is built, before anything is logged or pushed. */
  lemma CheckinSuccess(token: string, resp: SignResponse, reply: PushReply)
    requires OutcomeOf(resp) == SignedIn
    ensures var t := Checkin(token, resp, reply);
      t.fault.Some? <==> resp.reward >= Pow1024(6)
    ensures resp.reward >= Pow1024(6) ==> Checkin(token, resp, reply) == Halted(IndexError)
    ensures var t := Checkin(token, resp, reply);
      resp.reward < Pow1024(6) ==>
        && t.log[0] == LogEntry(Success, SignReward(ReadableOf(resp.reward).value))
        && t.log[0].text.reward.amount < 1024.0
        && t.log[0].text.reward.unit == UnitNames[UnitIndex(resp.reward)]
        && |t.pushes| == (if ConfigIsOk(token) then 1 else 0)
        && (forall p :: p in t.pushes ==>
              p == PushRequest(token, Title, SignReward(ReadableOf(resp.reward).value)))
  {
    ReadableDefined(resp.reward);
    ReadableMagnitude(resp.reward);
  }

  /** A reward of 1048576 bytes with a token set gives exactly one push,
      carrying 1.00 MB. */
  lemma CheckinOneMegabyte(token: string, message: string, reply: PushReply)
    requires ConfigIsOk(token)
    ensures Checkin(token, SignResponse(200, 0, message, 1048576), reply).pushes
      == [PushRequest(token, Title, SignReward(Readable(1.0, "MB")))]
  {
  }
}
