/**
  The lead-intake webhook: `POST /api/submit` validates a name and a phone,
  relays one HTML-formatted notification to the Telegram Bot API and answers the
  browser; `GET /health` reports whether the bot is configured.

  What the handler cannot see is an input: the JSON body Flask parsed (or failed
  to parse), the configuration read from the environment at start-up, the
  outcome of the one outbound HTTPS call, and the local date-time. The handler
  is then a total function from those to the HTTP response and the list of
  outbound calls it made.
*/
module LeadRelay {
  import opened Wrappers
  import opened Text
  import opened Timestamp

  // ---------------------------------------------------------------------------
  // Configuration

  /** The bot token and the target chat id, read from the environment once. */
  datatype Config = Config(botToken: string, chatId: string)

  const ApiPrefix := "https://api.telegram.org/bot"
  const SendMessagePath := "/sendMessage"

  /** The Bot API "sendMessage" endpoint for a token. */
  function SendMessageUrl(token: string): (url: string)
    ensures |url| == |ApiPrefix| + |token| + |SendMessagePath|
    ensures url[..|ApiPrefix|] == ApiPrefix
    ensures url[|ApiPrefix|..|ApiPrefix| + |token|] == token
    ensures url[|ApiPrefix| + |token|..] == SendMessagePath
  {
    ApiPrefix + token + SendMessagePath
  }

  // ---------------------------------------------------------------------------
  // The request as Flask hands it over

  /** The value stored under one key of the JSON object. */
  datatype Field =
    | Absent              // key missing: `data.get(key, '')` gives ''
    | Str(s: string)      // a JSON string
    | NotString             // null, a number, a boolean, a list or an object: `.strip()` raises

  datatype RequestBody =
    | Unparsable          // `request.get_json()` raises (not JSON, wrong content type)
    | NotAnObject         // JSON null, a list, a number or a string: `.get` raises
    | Object(name: Field, phone: Field)

  // ---------------------------------------------------------------------------
  // The outbound call

  /** The JSON payload of `sendMessage`. */
  datatype Payload = Payload(chatId: string, text: string, parseMode: string)

  /** One outbound POST: where it went and what it carried. */
  datatype Call = Call(url: string, payload: Payload)

  /** What the Bot API's answer decoded to. */
  datatype Reply =
    | ReplyObject(okTruthy: bool)  // a JSON object; `okTruthy` is Python's truth value of its "ok" (absent is falsy)
    | ReplyNotObject               // a JSON list, string, number or null: it has no `.get`

  /** What `requests.post(...)` followed by `response.json()` did. */
  datatype Transport =
    | Returned(reply: Reply)
    | Raised(error: string)        // connection error, timeout, or a body that is not JSON

  /** What `send_to_telegram` returns: the decoded reply, or the `{'ok': False, 'error': str(e)}` it builds. */
  datatype RelayResult =
    | Decoded(reply: Reply)
    | Caught(error: string)

  /**
    `relay_result.get('ok')` as seen by the handler: `None` when the result has no
    `.get` (the handler then raises), otherwise the truth value of "ok".
  */
  function OkOf(r: RelayResult): (ok: Option<bool>)
    ensures r.Caught? ==> ok == Some(false)
    ensures ok == None <==> r == Decoded(ReplyNotObject)
    ensures r.Decoded? && r.reply.ReplyObject? ==> ok == Some(r.reply.okTruthy)
  {
    match r
    case Caught(_) => Some(false)
    case Decoded(ReplyObject(okTruthy)) => Some(okTruthy)
    case Decoded(ReplyNotObject) => None
  }

  const HtmlParseMode := "HTML"

  /**
    `send_to_telegram`: one POST of `{chat_id, text, parse_mode: 'HTML'}` to the
    configured endpoint. Every exception becomes a failure value, so it returns
    on every outcome of the transport.
  */
  function SendToTelegram(config: Config, message: string, transport: Transport): (r: (Call, RelayResult))
    ensures r.0.url == SendMessageUrl(config.botToken)
    ensures r.0.payload.chatId == config.chatId && r.0.payload.text == message
    ensures r.0.payload.parseMode == HtmlParseMode
    ensures transport.Raised? ==> r.1 == Caught(transport.error) && OkOf(r.1) == Some(false)
    ensures transport.Returned? ==> r.1 == Decoded(transport.reply)
  {
    var call := Call(SendMessageUrl(config.botToken), Payload(config.chatId, message, HtmlParseMode));
    match transport
    case Returned(reply) => (call, Decoded(reply))
    case Raised(e) => (call, Caught(e))
  }

  // ---------------------------------------------------------------------------
  // The notification text

  const MessageHead := "🔔 <b>Новая заявка с сайта PyBot AI</b>\n\n👤 <b>Имя:</b> "
  const NameToPhone := "\n📞 <b>Телефон:</b> "
  const PhoneToTime := "\n🕐 <b>Время:</b> "
  const MessageTail := "\n\n---\nСайт: PyBot AI"

  /** Offset of the phone number in the notification for a given name. */
  function PhoneOffset(name: string): nat {
    |MessageHead| + |name| + |NameToPhone|
  }

  /** Offset of the time stamp in the notification for a given name and phone. */
  function StampOffset(name: string, phone: string): nat {
    PhoneOffset(name) + |phone| + |PhoneToTime|
  }

  /**
    The notification: the name, the phone and the stamp appear verbatim at fixed
    places (no HTML escaping), between the fixed labels.
  */
  function Notification(name: string, phone: string, now: DateTime): (m: string)
    requires ValidDateTime(now)
    ensures |m| == StampOffset(name, phone) + 19 + |MessageTail|
    ensures m[..|MessageHead|] == MessageHead
    ensures m[|MessageHead|..|MessageHead| + |name|] == name
    ensures m[|MessageHead| + |name|..PhoneOffset(name)] == NameToPhone
    ensures m[PhoneOffset(name)..PhoneOffset(name) + |phone|] == phone
    ensures m[PhoneOffset(name) + |phone|..StampOffset(name, phone)] == PhoneToTime
    ensures Parse(m[StampOffset(name, phone)..StampOffset(name, phone) + 19]) == Some(now)
    ensures m[StampOffset(name, phone) + 19..] == MessageTail
  {
    var stamp := Format(now);
    var m := MessageHead + name + NameToPhone + phone + PhoneToTime + stamp + MessageTail;
    assert m[StampOffset(name, phone)..StampOffset(name, phone) + 19] == stamp;
    ParseFormat(now);
    m
  }

  // ---------------------------------------------------------------------------
  // The response

  datatype ResponseBody =
    | Success(message: string)  // {"success": true, "message": ...}
    | Failure(error: string)    // {"success": false, "error": ...}

  datatype Response = Response(status: int, body: ResponseBody)

  /** The response together with the outbound calls made while producing it. */
  datatype Exchange = Exchange(response: Response, calls: seq<Call>)

  const StatusOk := 200
  const StatusBadRequest := 400           // section 15.5.1 of RFC 9110
  const StatusInternalServerError := 500  // section 15.6.1 of RFC 9110

  const MissingFieldsError := "Имя и телефон обязательны для заполнения"
  const DeliveredMessage := "Заявка успешно отправлена!"
  const ReceivedMessage := "Заявка получена!"
  const GenericError := "Произошла ошибка при обработке заявки"

  /** `data.get(key, '').strip()`: `None` where `.strip()` raises. */
  function StrippedField(f: Field): (r: Option<string>)
    ensures f.NotString? <==> r == None
    ensures f.Absent? ==> r == Some("")
    ensures f.Str? ==> r == Some(Trim(f.s))
  {
    match f
    case Absent => Some("")
    case Str(s) => Some(Trim(s))
    case NotString => None
  }

  /** The one response every exception inside the handler turns into. */
  function InternalError(calls: seq<Call>): (x: Exchange)
    ensures x.response.status == 500 && x.response.body == Failure(GenericError)
    ensures x.calls == calls
  {
    Exchange(Response(StatusInternalServerError, Failure(GenericError)), calls)
  }

  /** A well-formed lead: both fields strings whose stripped forms are non-empty. */
  predicate ValidLead(body: RequestBody) {
    body.Object? && body.name.Str? && body.phone.Str? &&
    Trim(body.name.s) != [] && Trim(body.phone.s) != []
  }

  /**
    The part of `submit_form` after validation: one relay of the notification,
    then 200 and success whatever the Bot API said (the message tells a truthy
    "ok" apart), except that a reply with no `.get` makes the handler raise.
  */
  function RelayLead(name: string, phone: string, config: Config, transport: Transport, now: DateTime): (x: Exchange)
    requires ValidDateTime(now)
    ensures x.calls == [Call(SendMessageUrl(config.botToken), Payload(config.chatId, Notification(name, phone, now), HtmlParseMode))]
    ensures transport == Returned(ReplyNotObject) ==> x.response == Response(500, Failure(GenericError))
    ensures transport != Returned(ReplyNotObject) ==>
      x.response == Response(200, Success(if transport == Returned(ReplyObject(true)) then DeliveredMessage else ReceivedMessage))
  {
    var message := Notification(name, phone, now);
    var (call, result) := SendToTelegram(config, message, transport);
    match OkOf(result)
    case None => InternalError([call])
    case Some(true) => Exchange(Response(StatusOk, Success(DeliveredMessage)), [call])
    case Some(false) => Exchange(Response(StatusOk, Success(ReceivedMessage)), [call])
  }

  /**
    `submit_form`. A name or phone that is empty after stripping gives 400 and no
    call; a valid lead is relayed; every exception gives 500 with the one generic
    text.
  */
  function SubmitForm(body: RequestBody, config: Config, transport: Transport, now: DateTime): (x: Exchange)
    requires ValidDateTime(now)
    ensures x.response.status in {200, 400, 500}
    ensures x.response.body.Success? <==> x.response.status == 200
    ensures x.response.status == 500 ==> x.response.body == Failure(GenericError)
    ensures x.response.status == 400 ==> x.response.body == Failure(MissingFieldsError) && x.calls == []
    ensures body.Unparsable? || body.NotAnObject? ==> x == InternalError([])
    ensures body.Object? && (body.name.NotString? || body.phone.NotString?) ==> x == InternalError([])
    ensures ValidLead(body) ==> x == RelayLead(Trim(body.name.s), Trim(body.phone.s), config, transport, now)
    ensures !ValidLead(body) ==> x.calls == []
  {
    match body
    case Unparsable => InternalError([])
    case NotAnObject => InternalError([])
    case Object(nameField, phoneField) =>
      var name := StrippedField(nameField);
      var phone := StrippedField(phoneField);
      if name.None? || phone.None? then InternalError([])
      else if name.value == [] || phone.value == [] then
        assert !ValidLead(body);
        Exchange(Response(StatusBadRequest, Failure(MissingFieldsError)), [])
      else
        assert ValidLead(body) && name.value == Trim(nameField.s) && phone.value == Trim(phoneField.s);
        RelayLead(name.value, phone.value, config, transport, now)
  }

  /** An empty or whitespace-only name or phone is a client error, and nothing is relayed. */
  lemma BlankFieldRejected(name: Field, phone: Field, config: Config, transport: Transport, now: DateTime)
    requires ValidDateTime(now)
    requires name != NotString && phone != NotString
    requires name == Absent || phone == Absent || (name.Str? && AllSpace(name.s)) || (phone.Str? && AllSpace(phone.s))
    ensures SubmitForm(Object(name, phone), config, transport, now) ==
      Exchange(Response(400, Failure(MissingFieldsError)), [])
  {
  }

  /** A valid lead is relayed exactly once, carrying the stripped name and phone verbatim. */
  lemma ValidLeadRelayedOnce(body: RequestBody, config: Config, transport: Transport, now: DateTime)
    requires ValidDateTime(now) && ValidLead(body)
    ensures var x := SubmitForm(body, config, transport, now);
      |x.calls| == 1 && x.calls[0].payload.chatId == config.chatId &&
      x.calls[0].payload.text == Notification(Trim(body.name.s), Trim(body.phone.s), now)
  {
  }

  /**
    The caller-facing answer to a valid lead does not depend on whether the relay
    delivered: both a truthy and a falsy "ok", and every transport exception,
    give 200 and success; only the message differs.
  */
  lemma ValidLeadAlwaysSucceeds(body: RequestBody, config: Config, transport: Transport, now: DateTime)
    requires ValidDateTime(now) && ValidLead(body)
    requires transport != Returned(ReplyNotObject)
    ensures var x := SubmitForm(body, config, transport, now);
      x.response.status == 200 &&
      x.response.body == Success(
        if transport == Returned(ReplyObject(true)) then DeliveredMessage else ReceivedMessage)
  {
  }

  /**
    The one way a valid lead ends in 500: the Bot API answers with JSON that is
    not an object, and the handler's `.get('ok')` raises after the call was made.
  */
  lemma ValidLeadNonObjectReply(body: RequestBody, config: Config, now: DateTime)
    requires ValidDateTime(now) && ValidLead(body)
    ensures var x := SubmitForm(body, config, Returned(ReplyNotObject), now);
      x.response == Response(500, Failure(GenericError)) && |x.calls| == 1
  {
  }

  // ---------------------------------------------------------------------------
  // Health check

  datatype Health = Health(status: string, botConfigured: bool)

  /** `health_check`: always 200 and "ok"; configured exactly when both values are non-empty. */
  function HealthCheck(config: Config): (r: (int, Health))
    ensures r.0 == 200 && r.1.status == "ok"
    ensures r.1.botConfigured <==> config.botToken != [] && config.chatId != []
  {
    (StatusOk, Health("ok", config.botToken != [] && config.chatId != []))
  }
}
