# Quark cloud-drive daily check-in: a Dafny model of its decision logic

The program signs in to a cloud-storage provider's daily reward endpoint. It then fetches the account's capacity state and forwards both results to a push-notification relay (PushPlus). This project models the logic the program applies to those HTTP answers. HTTP itself is not modelled: the status codes, the response fields and the relay's reply are plain inputs.

- **`human_unit`** (`units.dfy`, module `Units`): turns a byte count into a magnitude and a unit among MB, GB, TB and PB.
  - The method `HumanUnit` keeps the source's loop: scale to MB, then divide by 1024 while the value is at least 1024.
  - It is proved equal to the reference function `ReadableOf`.
  - `ReadableOf` is defined through `UnitIndex`, a recursion on floor division by 1024.
  - Lemmas characterise the unit chosen: the least `i` with `bytes < 1024^(3+i)`.
  - They also bound the magnitude: below 1024, at least 1 above MB, exactly `bytes / 1024^(2+i)`.
  - `units[i]` is in range exactly when `bytes < 1024^6`. From there on the model raises IndexError, as the program does up to counts too large for a float (see "## Left out").
- **`send_notification`** (`notifier.dfy`, module `Notifier`):
  - It sends no request when the token is empty; otherwise it sends one request with the token, the fixed title and the body.
  - It logs exactly one entry: info only when the relay answers with code 200, an error otherwise.
  - It never raises. Everything that can go wrong inside its `try` block is folded into one input, `PushReply.Failed`.
- **`checkin`** (`checkin.dfy`, module `DailyCheckin`): three terminal outcomes.
  - A non-200 status means "already signed today".
  - Status 200 with a non-zero code logs the server's message as a warning.
  - Code 0 logs the reward at success level and, when `config_is_ok`, pushes it once.
- **`user_info`** (`user_info.dfy`, module `CapacityInfo`):
  - A non-zero code logs the server's message as a warning.
  - Otherwise it composes a summary: the optional "signed today" line, the membership type, the expiry (or the "未知" sentinel), both capacities and the used percentage.
  - It logs the summary and, when `config_is_ok`, pushes it.
  - The used percentage divides by `total_capacity`, so a zero total raises ZeroDivisionError, as the source does.
- **The entry point** (`daily.dfy`, module `Daily`): `checkin()` then `user_info()`.
  - A run pushes at most twice, and every push goes to the configured token.
  - `send_notification`'s own "token missing" branch can never be reached from the program's calls, because both callers test `config_is_ok` first.
  - The relay's replies never change what is pushed or whether the run raises.

Each operation returns a `Messages.Trace`. It holds the log entries in order, the push requests issued, and the Python exception that escaped, if any. Log texts are structured values (`Messages.Text`) rather than formatted strings.

The program's configuration is the push token: `config_is_ok` is "the token is non-empty".

On two edges the model keeps the program's behaviour, crash included:
- A byte count of 1024^6 or more raises IndexError. It is not clamped to PB.
- A total capacity of 0 raises ZeroDivisionError. It is not guarded.

## Model

| member | source | states |
|---|---|---|
| Units.HumanUnit | main.py:43-55 | the loop (scale to MB, divide by 1024 while at least 1024, index the unit tuple) terminates and yields exactly `ReadableOf(bytes)`, including the IndexError past PB |
| Units.UnitIndexExceeds | main.py:50-54 | the loop takes step `i` exactly when `bytes >= 1024^(3+i)` |
| Units.UnitIndexIsLeast | main.py:49-55 | the unit index chosen is the least `i` with `bytes < 1024^(3+i)`: every smaller index had reached its limit |
| Units.ReadableDefined | main.py:49-55 | `units[i]` is in range, so `human_unit` returns, exactly when `bytes < 1024^6`; otherwise it raises IndexError |
| Units.UnitBands | main.py:49-55 | the unit is MB exactly below 2^30, GB in [2^30, 2^40), TB in [2^40, 2^50), PB in [2^50, 2^60) |
| Units.ReadableMagnitude | main.py:50-55 | the magnitude shown is below 1024, is at least 1 for any unit above MB, and multiplied by 1024^(2+i) gives back the byte count |
| Units.SampleValues | main.py:43-55 | 0 bytes is 0 MB, 1024^2 is 1 MB, 1024^3 is 1 GB, 1024^4 is 1 TB |
| Notifier.SendNotification | main.py:58-84 | a request is made exactly when the token is non-empty, carrying the token, the fixed title and the body; one entry is logged, at info level exactly when the relay's code is 200 and at error level otherwise; the "token missing" error is logged exactly when the token is empty |
| Notifier.Announce | main.py:143-147 | the success message is logged first; it is pushed exactly once when `config_is_ok` and never otherwise; the push carries the same text; the second entry is exactly what `send_notification` logs (info on delivery, error on rejection or failure), never the "token missing" error; nothing is raised |
| Notifier.ReplyOnlyAffectsLog | main.py:67-84 | whatever the relay answers or raises, the requests issued and the outcome are the same; only the logged entry differs |
| DailyCheckin.OutcomeOf | main.py:139-149 | the check-in succeeds exactly when the status is 200 and the code is 0, and counts as already signed exactly when the status is not 200 |
| DailyCheckin.Checkin | main.py:125-149 | at most one push, and only on a successful check-in with a non-empty token |
| DailyCheckin.CheckinWarnsOnly | main.py:139-149 | a non-200 status logs only the "already signed" warning; status 200 with a non-zero code logs only the server's message as a warning; neither pushes nor raises |
| DailyCheckin.CheckinSuccess | main.py:140-147 | on code 0 the check-in raises exactly when the reward is at least 1024^6, and then it is IndexError with nothing logged or pushed; otherwise it logs `human_unit` of the reward (`ReadableOf(reward)`) at success level, in its unit band and below 1024, and pushes exactly that message, to the token under the fixed title, once exactly when `config_is_ok` |
| DailyCheckin.CheckinOneMegabyte | main.py:143-147 | a reward of 1048576 bytes with a token set yields exactly one push, carrying 1.00 MB |
| CapacityInfo.SignLineOf | main.py:112-116 | the "signed today" line is present exactly when `sign_daily` is true, carrying `human_unit` of the reward and the progress; it raises, always IndexError, exactly when the day is signed and the reward is at least 1024^6 |
| CapacityInfo.SummaryOf | main.py:106-119 | a composed summary implies a non-zero total, its used percent times the total equals used times 100, and it holds the member type and the expiry of `super_vip_exp_at`; ZeroDivisionError only for a zero total |
| CapacityInfo.ExpiryOf | main.py:107-111 | the expiry is the "未知" sentinel exactly when `super_vip_exp_at` is absent or null, otherwise that timestamp |
| CapacityInfo.UserInfo | main.py:87-122 | at most one push, and only when the code is 0 and the token is non-empty |
| CapacityInfo.SummaryDefined | main.py:113-119 | the summary is composed exactly when every byte count it formats is below 1024^6 and the total capacity is non-zero; a zero total raises ZeroDivisionError; an oversized count raises IndexError |
| CapacityInfo.SummaryContents | main.py:106-119 | the summary has the "signed today" line exactly when `sign_daily` is true, with `human_unit` of the reward and the progress; it has the sentinel expiry exactly when none is given and otherwise exactly the given timestamp; it holds the member type and `human_unit` of both capacities; used percent times total equals used times 100 |
| CapacityInfo.UserInfoOutcome | main.py:103-122 | a non-zero code only warns with the server's message; code 0 either raises `SummaryOf`'s own fault (ZeroDivisionError or IndexError, as `SummaryDefined` decides) with nothing logged or pushed, or logs the summary at info level and pushes that same text once exactly when `config_is_ok` |
| Daily.DailyRun | main.py:152-154 | the check-in's log and pushes come first; an exception in the check-in ends the run there, skipping the report; otherwise the report's log and pushes follow and its exception, if any, is the run's |
| Daily.DailyRunPushes | main.py:152-154 | a run pushes at most twice, each push goes to the configured token under the fixed title, and the "token missing" error is never logged |
| Daily.DailyRunPushesBoth | main.py:152-154 | with a token set, a successful check-in followed by a successful report pushes twice: first the reward, then the summary; the first push is exactly `human_unit` of the check-in reward, the second exactly the composed summary |
| Daily.RepliesNeverRaise | main.py:83-84 | the relay's replies to either notification change neither the pushes of the run nor whether it ends in an exception |

## Left out

- HTTP requests, `raise_for_status` and JSON decoding (main.py:38-40, 74-77, 100-102, 138). The sign-in status and body fields, the decoded info body and the relay's reply are inputs.
- Missing JSON keys are not modelled: the source would raise KeyError for them.
- A failing info GET is not modelled. The source lets the exception from `raise_for_status` escape `user_info`.
- A transport exception from the sign-in POST (main.py:138) is not modelled. The source lets it escape `checkin`, which skips `user_info`; the model always receives a status.
- `query_balance` (main.py:29-40): a network call whose answer is only printed.
- Reading the environment and the start-up check for the three session tokens (main.py:12-26). The push token is a parameter. The bundled default token is not modelled.
- Logging through loguru, and the unused mail imports (main.py:2-5).
- Text rendering is not modelled: the two-decimal formatting of magnitudes and of the percentage, the Chinese message wording, and the text of exceptions caught in `send_notification`.
- The date-time rendering of the expiry (main.py:109-111) depends on the local time zone. The model keeps the timestamp in milliseconds. Timestamps that `fromtimestamp` rejects are not modelled.
- Units.HumanUnit: uses exact real arithmetic where the source uses floating point. Below 2^53 bytes the float computation is exact, so the MB/GB, GB/TB and TB/PB boundaries are never shifted. From about 2^60 − 64 bytes the first division at main.py:50 rounds up to 2^50, so the source raises IndexError where the model still returns a PB value. From about 2^1034 bytes the first division at main.py:50 raises OverflowError, because the quotient does not fit in a float; the model reports IndexError there. The model does not capture either.
- CapacityInfo.SummaryContents: states the used percentage as an exact real, without float rounding.
