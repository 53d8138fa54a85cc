/** The configuration document of the tracker and the lookup of its required keys (notify.py, lines 23-26 and 36-41). */
module Config {
  import opened Wrappers

  /** The configuration as read from its file: setting name to value. */
  type Config = map<string, string>

  /** Why a run stopped before doing anything. */
  datatype ConfigError = MissingConfigKey(key: string)

  const ChatIdKey := "telegram_chat_id"
  const BotTokenKey := "telegram_bot_api_token"
  const StatusMessageIdKey := "telegram_status_message_id"
  const RequestUrlKey := "gemeente_request_url"
  const ReservationUrlKey := "gemeente_reservation_url"

  /** The five keys a run looks up, in the order it looks them up. */
  const RequiredKeys: seq<string> := [ChatIdKey, BotTokenKey, StatusMessageIdKey, RequestUrlKey, ReservationUrlKey]

  /** The settings a run works with once every required key was found. */
  datatype Settings = Settings(
    chatId: string,
    botToken: string,
    statusMessageId: string,
    requestUrl: string,
    reservationUrl: string)

  /** Look up one required key; a missing key is an error that names it. */
  function RequireKey(config: Config, key: string): (r: Result<string, ConfigError>)
    ensures r.Success? <==> key in config
    ensures r.Success? ==> r.value == config[key]
    ensures r.Failure? ==> r.error == MissingConfigKey(key)
  {
    if key !in config then Failure(MissingConfigKey(key)) else Success(config[key])
  }

  /** Look up the five required keys in order, stopping at the first one that is missing. */
  function LoadSettings(config: Config): (r: Result<Settings, ConfigError>)
    ensures r.Success? <==> forall k :: k in RequiredKeys ==> k in config
    ensures r.Success? ==>
      && r.value.chatId == config[ChatIdKey]
      && r.value.botToken == config[BotTokenKey]
      && r.value.statusMessageId == config[StatusMessageIdKey]
      && r.value.requestUrl == config[RequestUrlKey]
      && r.value.reservationUrl == config[ReservationUrlKey]
    ensures r.Failure? ==> exists i :: FirstMissingAt(config, i) && r.error == MissingConfigKey(RequiredKeys[i])
  {
    if ChatIdKey !in config then
      assert FirstMissingAt(config, 0);
      Failure(MissingConfigKey(ChatIdKey))
    else if BotTokenKey !in config then
      assert FirstMissingAt(config, 1);
      Failure(MissingConfigKey(BotTokenKey))
    else if StatusMessageIdKey !in config then
      assert FirstMissingAt(config, 2);
      Failure(MissingConfigKey(StatusMessageIdKey))
    else if RequestUrlKey !in config then
      assert FirstMissingAt(config, 3);
      Failure(MissingConfigKey(RequestUrlKey))
    else if ReservationUrlKey !in config then
      assert FirstMissingAt(config, 4);
      Failure(MissingConfigKey(ReservationUrlKey))
    else
      Success(Settings(
        RequireKey(config, ChatIdKey).value,
        RequireKey(config, BotTokenKey).value,
        RequireKey(config, StatusMessageIdKey).value,
        RequireKey(config, RequestUrlKey).value,
        RequireKey(config, ReservationUrlKey).value))
  }

  /** The i-th required key is the first one the configuration lacks. */
  ghost predicate FirstMissingAt(config: Config, i: int)
  {
    && 0 <= i < |RequiredKeys|
    && RequiredKeys[i] !in config
    && forall j :: 0 <= j < i ==> RequiredKeys[j] in config
  }

  /** The text of the error raised for a missing key, as the source writes it: the "%s" placeholder is
      never filled in, so the text is the same whichever key is missing. */
  function MissingKeyMessageAsWritten(key: string): (m: string)
    ensures KeyOfMessage(m) == Some("%s")
  {
    var m := "\"%s\" config key expected";
    assert |m| == 24 && m[0] == '"';
    assert m[|m| - 21..] == "\" config key expected";
    assert m[1..|m| - 21] == [m[1], m[2]] == "%s";
    m
  }

  /** The text of the error raised for a missing key, with the key put where the placeholder stands. */
  function MissingKeyMessage(key: string): (m: string)
    ensures |m| == |key| + 22
    ensures m[1..|key| + 1] == key
  {
    "\"" + key + "\" config key expected"
  }

  /** Recovers the key from a corrected error text; the inverse of MissingKeyMessage. */
  function KeyOfMessage(m: string): (key: Option<string>)
  {
    if |m| >= 22 && m[0] == '"' && m[|m| - 21..] == "\" config key expected"
    then Some(m[1..|m| - 21])
    else None
  }

  /** The corrected text names the missing key: it can be read back out of the message. */
  lemma MissingKeyMessageNamesKey(key: string)
    ensures KeyOfMessage(MissingKeyMessage(key)) == Some(key)
  {
    var m := MissingKeyMessage(key);
    assert m[|m| - 21..] == "\" config key expected";
  }

  /** As written, two different missing keys produce the same text, so the text cannot name the key. */
  lemma MissingKeyMessageAsWrittenLosesKey()
    ensures MissingKeyMessageAsWritten(ChatIdKey) == MissingKeyMessageAsWritten(ReservationUrlKey)
    ensures ChatIdKey != ReservationUrlKey
    ensures KeyOfMessage(MissingKeyMessageAsWritten(ChatIdKey)) != Some(ChatIdKey)
  {
    var m := MissingKeyMessageAsWritten(ChatIdKey);
    assert |m| == 24;
    assert m[1..|m| - 21] == [m[1], m[2]] == "%s";
  }
}
