/** One run of the tracker (main() of notify.py, lines 33-113) with its I/O taken out: the fetched
    snapshot, the diff result, the stored state and the clock readings come in as arguments, and the
    message to send, the status edit to make and the state to store go out as a value. */
module Run {
  import opened Wrappers
  import opened Config
  import opened Clock
  import opened Diff
  import opened Lines
  import opened Notification

  /** The state document kept between runs. `extra` holds whatever other keys the document has; a run
      writes them back as it read them. */
  datatype State = State(
    allDates: seq<Record>,
    checkTimestamp: string,
    added: seq<string>,
    removed: seq<string>,
    extra: map<string, string>)

  /** The keys of the state document that a run reads and writes itself. */
  const StateKeys: set<string> := {"all_dates", "check_timestamp", "added", "removed"}

  /** The state describes one JSON document: the extra keys are not the four named ones. */
  predicate StateDocument(s: State)
  {
    forall k :: k in s.extra ==> k !in StateKeys
  }

  /** A message to post in the chat. */
  datatype Message = Message(chatId: string, text: string)

  /** An edit of the status message already in the chat. */
  datatype StatusEdit = StatusEdit(chatId: string, messageId: string, text: string)

  /** What a run that got through asks the outside world to do, in this order: send, edit, store. */
  datatype Effects = Effects(message: Option<Message>, statusEdit: Option<StatusEdit>, saved: State)

  /** Why a run was abandoned; nothing is sent, edited or stored then. */
  datatype RunError = ConfigFailed(configError: ConfigError) | RecordFailed(recordError: RecordError)

  const LogPrefix := "An error occurred: "

  /** The line logged for an abandoned run: the prefix, then the text of the error. A missing record
      field prints as the quoted field name, as a key lookup error does. */
  function LogLine(e: RunError): (line: string)
    ensures LogPrefix <= line
    ensures e.ConfigFailed? ==> KeyOfMessage(line[|LogPrefix|..]) == Some(e.configError.key)
  {
    match e
    case ConfigFailed(MissingConfigKey(key)) =>
      MissingKeyMessageNamesKey(key);
      assert (LogPrefix + MissingKeyMessage(key))[|LogPrefix|..] == MissingKeyMessage(key);
      LogPrefix + MissingKeyMessage(key)
    case RecordFailed(MissingField(field)) => LogPrefix + "'" + field + "'"
  }

  /** The stored state after a run: the new check time, the lists of this run's diff, the fetched
      snapshot in place of the old one. */
  function UpdateState(stored: State, timestamp: string, changes: Changes, fetched: seq<Record>): (s: State)
    ensures s.checkTimestamp == timestamp
    ensures s.added == changes.added && s.removed == changes.removed
    ensures s.allDates == fetched
    ensures s.extra == stored.extra
    ensures StateDocument(stored) ==> StateDocument(s)
  {
    stored.(checkTimestamp := timestamp, added := changes.added, removed := changes.removed, allDates := fetched)
  }

  /** The updated state depends on the stored one only through its extra keys: the stored lists, check
      time and snapshot are all overwritten. */
  lemma UpdateStateForgetsPrevious(s1: State, s2: State, timestamp: string, changes: Changes,
                                   fetched: seq<Record>)
    requires s1.extra == s2.extra
    ensures UpdateState(s1, timestamp, changes, fetched) == UpdateState(s2, timestamp, changes, fetched)
  {
  }

  /** The run can get through: every configuration key is there, every diff item has a date, and, when
      the listing is due, so does every fetched record. */
  predicate RunCompletes(config: Config, fetched: seq<Record>, diff: DiffResult, now: Moment, clock: Moment)
  {
    && LoadSettings(config).Success?
    && WellFormed(diff)
    && (PrintSlots(now, clock) ==> AllDated(fetched))
  }

  /** One run. `now` is the run's time cut to the minute; `clock` is the second clock reading that the
      09:00 check makes. */
  function Run(config: Config, stored: State, fetched: seq<Record>, diff: DiffResult, now: Moment, clock: Moment)
    : (r: Result<Effects, RunError>)
    requires ValidMoment(now)
    ensures r.Success? <==> RunCompletes(config, fetched, diff, now, clock)
    ensures LoadSettings(config).Failure? ==> r == Failure(ConfigFailed(LoadSettings(config).error))
    ensures LoadSettings(config).Success? && !RunCompletes(config, fetched, diff, now, clock)
      ==> r == Failure(RecordFailed(MissingField(DateField)))
    ensures r.Success? ==>
      && r.value.saved.checkTimestamp == Timestamp(now)
      && r.value.saved.allDates == fetched
      && r.value.saved.extra == stored.extra
      && (StateDocument(stored) ==> StateDocument(r.value.saved))
      && DatesThenValues(r.value.saved.added, Entries(diff.itemsAdded), Entries(diff.valuesChanged), true)
      && DatesThenValues(r.value.saved.removed, Entries(diff.itemsRemoved), Entries(diff.valuesChanged), false)
    ensures r.Success? ==>
      (r.value.message.None? <==> r.value.saved.added == [] && r.value.saved.removed == [] && !PrintSlots(now, clock))
    ensures r.Success? ==> (r.value.statusEdit.Some? <==> Timestamp(now) != stored.checkTimestamp)
    ensures r.Success? && r.value.message.Some? ==> r.value.message.value.chatId == LoadSettings(config).value.chatId
    ensures r.Success? && r.value.statusEdit.Some? ==>
      r.value.statusEdit.value
        == StatusEdit(LoadSettings(config).value.chatId, LoadSettings(config).value.statusMessageId,
                      StatusText(Timestamp(now)))
  {
    match LoadSettings(config)
    case Failure(e) => Failure(ConfigFailed(e))
    case Success(settings) =>
      var printSlots := PrintSlots(now, clock);
      match Extract(diff)
      case Failure(e) => Failure(RecordFailed(e))
      case Success(changes) =>
        match (if printSlots then Dates(fetched) else Success([]))
        case Failure(e) => Failure(RecordFailed(e))
        case Success(dates) => Success(Outcome(settings, stored, fetched, changes, dates, now, clock))
  }

  /** The effects of a run that got past every lookup: the message to send if its text is not empty,
      the status edit if the check time changed, and the updated state. */
  function Outcome(settings: Settings, stored: State, fetched: seq<Record>, changes: Changes, dates: seq<string>,
                   now: Moment, clock: Moment): (e: Effects)
    requires ValidMoment(now)
    ensures e.saved == UpdateState(stored, Timestamp(now), changes, fetched)
    ensures e.message.None? <==> changes.added == [] && changes.removed == [] && !PrintSlots(now, clock)
    ensures e.message.Some? ==> e.message.value.chatId == settings.chatId
    ensures e.statusEdit.Some? <==> Timestamp(now) != stored.checkTimestamp
    ensures e.statusEdit.Some? ==>
      e.statusEdit.value == StatusEdit(settings.chatId, settings.statusMessageId, StatusText(Timestamp(now)))
  {
    var timestamp := Timestamp(now);
    var printSlots := PrintSlots(now, clock);
    var text := NotificationText(changes.added, changes.removed, settings.reservationUrl, printSlots, dates);
    var message := if text != "" then Some(Message(settings.chatId, text)) else None;
    var edit := if !SameCheckTime(now, stored.checkTimestamp)
      then Some(StatusEdit(settings.chatId, settings.statusMessageId, StatusText(timestamp)))
      else None;
    Effects(message, edit, UpdateState(stored, timestamp, changes, fetched))
  }

  /** The lists a run stores do not depend on the lists stored by the run before. */
  lemma RunIgnoresStaleLists(config: Config, stored: State, fetched: seq<Record>, diff: DiffResult,
                             now: Moment, clock: Moment, staleAdded: seq<string>, staleRemoved: seq<string>)
    requires ValidMoment(now)
    ensures Run(config, stored, fetched, diff, now, clock)
         == Run(config, stored.(added := staleAdded, removed := staleRemoved), fetched, diff, now, clock)
  {
  }

  /** A run whose stored check time was written by a run at `previous` edits the status message
      exactly when it falls in a different minute than that run. */
  lemma EditIffNewMinute(config: Config, stored: State, fetched: seq<Record>, diff: DiffResult,
                         now: Moment, clock: Moment, previous: Moment)
    requires ValidMoment(now) && ValidMoment(previous)
    requires stored.checkTimestamp == Timestamp(previous)
    requires RunCompletes(config, fetched, diff, now, clock)
    ensures Run(config, stored, fetched, diff, now, clock).value.statusEdit.Some? <==> now != previous
  {
    TimestampInjective(now, previous);
  }

  /** Two runs in a row: the second edits the status message exactly when it falls in a different
      minute than the first. In particular two runs within the same minute edit it at most once. */
  lemma ConsecutiveRuns(config: Config, stored: State,
                        fetched1: seq<Record>, diff1: DiffResult, now1: Moment, clock1: Moment,
                        fetched2: seq<Record>, diff2: DiffResult, now2: Moment, clock2: Moment)
    requires ValidMoment(now1) && ValidMoment(now2)
    requires RunCompletes(config, fetched1, diff1, now1, clock1)
    requires RunCompletes(config, fetched2, diff2, now2, clock2)
    ensures var saved := Run(config, stored, fetched1, diff1, now1, clock1).value.saved;
      (Run(config, saved, fetched2, diff2, now2, clock2).value.statusEdit.Some? <==> now2 != now1)
  {
    var saved := Run(config, stored, fetched1, diff1, now1, clock1).value.saved;
    EditIffNewMinute(config, saved, fetched2, diff2, now2, clock2, now1);
  }

  /** The message a run sends reads back as the run's added and removed dates, the reservation URL
      when something was added, and the dates of the fetched snapshot when the listing was due. */
  lemma RunMessageReadsBack(config: Config, stored: State, fetched: seq<Record>, diff: DiffResult,
                            now: Moment, clock: Moment)
    requires ValidMoment(now)
    requires RunCompletes(config, fetched, diff, now, clock)
    requires AllOneLine(Extract(diff).value.added) && AllOneLine(Extract(diff).value.removed)
    requires OneLine(LoadSettings(config).value.reservationUrl)
    requires PrintSlots(now, clock) ==> AllOneLine(Dates(fetched).value)
    ensures var changes, url := Extract(diff).value, LoadSettings(config).value.reservationUrl;
      var message := Run(config, stored, fetched, diff, now, clock).value.message;
      message.Some? ==>
        ParseMessage(message.value.text)
          == Some(Report(changes.added, changes.removed,
                         if changes.added != [] then Some(url) else None,
                         if PrintSlots(now, clock) then Some(Dates(fetched).value) else None))
  {
    var changes, url := Extract(diff).value, LoadSettings(config).value.reservationUrl;
    var printSlots := PrintSlots(now, clock);
    var dates := if printSlots then Dates(fetched).value else [];
    ParseNotification(changes.added, changes.removed, url, printSlots, dates);
  }
}
