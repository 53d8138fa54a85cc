# utrecht-tracker notifier, modelled in Dafny

The tracker is a batch job. Each invocation fetches the list of available appointment dates from the
municipality's endpoint. It compares that list with the one stored by the previous invocation and
posts a Telegram message about dates that appeared or disappeared. It edits a status message with the
time of the check and stores the new state. This project models the decision and formatting logic of
one invocation (`main()` in `notify.py`) as pure functions and proves properties about them.

Modules, one per concern of `main()`:

- `Wrappers` (wrappers.dfy): `Option` and `Result`.
- `Config` (config.dfy): the configuration map, the required-key lookup, and the text of the
  missing-key error.
- `Clock` (clock.dfy): the run time as a minute-truncated `Moment`, the check-time string
  `'%H:%M on %b %d'`, its reader, and the `print_slots` / `same_check_time` decisions.
- `Lines` (lines.dfy): text as lines: joining and splitting on line breaks.
- `Diff` (diff.dfy): the diff result a run receives and the `added` / `removed` lists read from it.
- `Notification` (notification.dfy): the notification text, and a reader that takes a text apart
  again into the lists it was built from.
- `Run` (run.dfy): the stored state, one whole run as a function from inputs to effects, and lemmas
  about runs.

Everything the job does through I/O is an argument or a result. The inputs are the configuration
map, the stored state, the fetched snapshot, the diff result and two clock readings. The result is
the message to send, the status edit to make and the state to store.

## Model

| member | source | states |
|---|---|---|
| Config.RequireKey | notify.py:23-26 | Succeeds exactly when the key is present, with the configured value; otherwise fails with an error naming the key. |
| Config.LoadSettings | notify.py:36-41 | Succeeds exactly when all five required keys are present, and each setting is that key's value. Otherwise it fails on the first missing key, in lookup order. |
| Config.MissingKeyMessageAsWrittenLosesKey | notify.py:25 | The error text as written is the same for two different missing keys, and the key cannot be read back from it. |
| Config.MissingKeyMessageAsWritten | notify.py:25 | The text as raised: what stands where the key should be reads back as the literal `%s`, whatever the key. |
| Config.MissingKeyMessageNamesKey | notify.py:25 | With the placeholder filled in, the missing key can be read back from the error text. |
| Config.MissingKeyMessage | notify.py:25 | The corrected error text holds the key right after the opening quote. |
| Clock.TimestampRoundTrip | notify.py:54 | The check-time string can be read back into the minute it was written from. |
| Clock.TimestampInjective | notify.py:54-55 | Two runs write equal check-time strings exactly when they run in the same minute. |
| Clock.TodayAt | notify.py:28-31 | `todayAt` keeps the day of the clock reading and sets the requested hour and minute. |
| Clock.PrintSlots | notify.py:53-56 | `print_slots`: when both clock readings fall on the same day, the listing is due exactly when the run's minute is 09:00; on different days it is never due. |
| Clock.Timestamp | notify.py:53-54 | The check-time string has 15 characters, `HH:MM on Mon DD`; `Clock.TimestampRoundTrip` reads it back to the minute it was written from. |
| Clock.SameCheckTime | notify.py:55 | `same_check_time`: when it holds, the stored string reads back as this run's minute; `Clock.SameCheckTimeIffSameMinute` gives both directions against a previous run's string. |
| Clock.SameCheckTimeIffSameMinute | notify.py:54-55 | Against the previous run's stored string, `same_check_time` holds exactly when both runs fall in the same minute. |
| Clock.StatusText | notify.py:108 | The status text is `⚡ Last checked at `, then the check-time string, then ` (Moscow time)`. |
| Diff.Dates | notify.py:64-68 | Reading the `date` of every record succeeds exactly when every record has one. The result holds each record's date, in order. |
| Diff.Extract | notify.py:61-72 | `added` is the dates of the added items, then the new value of every changed entry. `removed` is the dates of the removed items, then every old value. Lengths are the sums of the group sizes. The extraction fails exactly when an added or removed item has no date. |
| Diff.ExtractEmpty | notify.py:60-72 | A diff with no groups gives empty `added` and `removed`. |
| Diff.ExtractMembership | notify.py:63-72 | A date is in `added` exactly when it is an added item's date or a changed entry's new value. The same holds for `removed` with removed items and old values. |
| Notification.DiffText | notify.py:76-88 | The diff part is empty exactly when both lists are empty. With added dates it starts with the new-days header and ends with two line breaks and the URL. With only removed dates it starts with the changed header. |
| Notification.ListingText | notify.py:91-94 | The listing starts with the greeting header. |
| Notification.NotificationText | notify.py:76-94 | The message is empty exactly when both lists are empty and the listing is not due. It starts with the header that matches which lists are non-empty. |
| Notification.ParseNotification | notify.py:76-94 | Reading a message back line by line gives the added dates and the removed dates, in order and added first. It gives the URL exactly when something was added, and the listed dates exactly when the listing was due. |
| Run.LogLine | notify.py:115-116 | The logged line starts with the fixed prefix. With the corrected error text, a missing configuration key can be read back from it. |
| Run.UpdateState | notify.py:57-73 | The update writes the new check time, this run's added and removed lists and the fetched snapshot, and keeps every other key of the state document. |
| Run.UpdateStateForgetsPrevious | notify.py:57-73 | Two stored states with the same extra keys give the same updated state. The old lists, check time and snapshot are all overwritten. |
| Run.Run | notify.py:33-113 | A run gets through exactly when the configuration is complete and every needed record has a date. The first error otherwise is reported. The stored state holds the new check time, the fetched snapshot, the extracted lists and the untouched extra keys. No message is sent exactly when nothing changed and the listing is not due. The status is edited exactly when the check-time string changed. The message goes to the configured chat. The edit targets the configured chat and status message, and its text is the status text of the new check time. |
| Run.RunIgnoresStaleLists | notify.py:61-62 | A run's outcome does not depend on the lists the previous run stored. |
| Run.EditIffNewMinute | notify.py:55-57 | A run whose stored check time was written at a given minute edits the status message exactly when its own minute is a different one. |
| Run.ConsecutiveRuns | notify.py:54-57 | Of two runs in a row, the second edits the status message exactly when it falls in a different minute from the first. |
| Run.RunMessageReadsBack | notify.py:76-104 | When a run sends a message, the message reads back as the run's lists, the URL when something was added, and the fetched dates when the listing was due. |

## Findings

| source | as written | input that shows it | evidently intended | confidence | as-written member | corrected member |
|---|---|---|---|---|---|---|
| notify.py:25 | `RuntimeError('"%s" config key expected')`: the `%s` placeholder is never filled in | a configuration without `telegram_chat_id` logs `"%s" config key expected`, the same text as for any other missing key | the error names the missing key, e.g. `"telegram_chat_id" config key expected` | high; not executed | Config.MissingKeyMessageAsWrittenLosesKey | Config.MissingKeyMessageNamesKey |

The model's errors carry the missing key (`MissingConfigKey(key)`). `Run.LogLine` renders them with
the corrected `Config.MissingKeyMessage`; the code logs the constant text of
`Config.MissingKeyMessageAsWritten`.

## Notes on the code

- `print_slots` compares `now` with `todayAt(9)`, and `todayAt` reads the clock a second time. The
  model takes that second reading as the argument `clock` of `Clock.PrintSlots`.
- Each `values_changed` entry contributes its `new_value` to `added` and its `old_value` to
  `removed` as they are, whatever field changed (`Diff.Change`).

## Left out

- Fetching the snapshot over HTTP (notify.py:48-49): network I/O. The parsed snapshot is an argument.
- The structural diff itself (notify.py:60): a library whose code is not part of this model. Its
  result is an argument (`Diff.DiffResult`). So the diff laws are not stated: diffing a snapshot
  with itself, and diffing two disjoint snapshots. Only the empty-result case is (`Diff.ExtractEmpty`).
- Reading the configuration and the state file, and writing the state file (notify.py:16-21, 44-45,
  112-113): file I/O and JSON. A missing or malformed state file and the store/load round trip are
  not modelled. The stored state arrives already typed (`Run.State`).
- The Telegram bot, `send_message` and `edit_message_text` (notify.py:96-109): remote calls. A run
  returns the message and the edit as values. A send or edit that fails at run time, and which in the
  code stops the state from being stored, is not modelled.
- The clock and the time zone (notify.py:29-30, 52-53): readings come in as `Clock.Moment` values
  already cut to the minute, in Moscow time.
- `Clock.ValidMoment` allows days 1 to 31 in every month. The readings come from a real clock, so
  only the range matters for the injectivity of the check-time string.
- Years: the check-time string has no year, and neither does `Clock.Moment`. Two runs exactly one
  year apart in the same minute therefore count as the same check time, in the code as in the model.
- Logging setup and the blanket exception handler (notify.py:115-124): an abandoned run is a
  `Run.RunError`. The stack trace and the log file are left out.
- Run.LogLine: renders a missing configuration key with the corrected error text, which names the
  key. The code logs `An error occurred: "%s" config key expected` whatever key is missing (see
  Findings); that text is `Config.MissingKeyMessageAsWritten`.
- Values: configuration values and record fields are modelled as strings. `'{}'.format` of a non-string
  JSON value (a numeric chat id, say) is not modelled.
- Notification.ParseNotification: reading back requires that no date and not the URL contains a line
  break. With a line break inside a date, the message no longer has one line per date.
- The state document's other keys (`Run.State.extra`) are meant to be disjoint from the four keys
  a run writes (`Run.StateDocument`). A run keeps that property but does not require it.
- Overlapping invocations racing on the state file: concurrency, outside this single-run model.
