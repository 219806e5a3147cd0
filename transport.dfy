/** The side-effect-free part of client.go: the request URLs, the four sendMessage
    payload shapes, the inline-keyboard row builder and the outcome ladder of
    `makeRequest`. The network and the JSON encoder are parameters. */
module Transport {
  import opened Api
  import Decimal

  /** `http.StatusOK`. */
  const StatusOK: int := 200

  const ApiHost: string := "https://api.telegram.org/bot"
  const UpdatesPath: string := "/getUpdates?offset="
  const ChatPath: string := "/getChat?chat_id="
  const SendMessagePath: string := "/sendMessage"

  /** A JSON-encodable value of a request payload (Go's `interface{}` in the payload map). */
  datatype Value =
    | IntV(i: int64)
    | StrV(s: string)
    | BoolV(b: bool)
    | ObjectV(fields: map<string, Value>)
    | ReplyKeyboardV(reply: ReplyKeyboardMarkup)
    | InlineKeyboardV(inline: InlineKeyboardMarkup)

  type Payload = map<string, Value>

  /** The bot's endpoint, `https://api.telegram.org/bot<token>`. */
  function BotEndpoint(token: string): (url: string)
    ensures |url| == |ApiHost| + |token|
    ensures url[..|ApiHost|] == ApiHost && url[|ApiHost|..] == token
  {
    ApiHost + token
  }

  /** The getUpdates URL for the cursor `offset`. */
  function UpdatesUrl(token: string, offset: int64): (url: string)
  {
    BotEndpoint(token) + UpdatesPath + Decimal.FormatInt(offset as int)
  }

  /** The getChat URL for the chat `chatId`. */
  function ChatUrl(token: string, chatId: int64): (url: string)
  {
    BotEndpoint(token) + ChatPath + Decimal.FormatInt(chatId as int)
  }

  function SendMessageUrl(baseUrl: string): (url: string)
  {
    baseUrl + SendMessagePath
  }

  lemma QueryInjective(prefix: string, a: int, b: int)
    ensures prefix + Decimal.FormatInt(a) == prefix + Decimal.FormatInt(b) <==> a == b
  {
    var sa, sb := prefix + Decimal.FormatInt(a), prefix + Decimal.FormatInt(b);
    if sa == sb {
      assert sa[|prefix|..] == Decimal.FormatInt(a);
      assert sb[|prefix|..] == Decimal.FormatInt(b);
      Decimal.FormatIntInjective(a, b);
    }
  }

  /** Each cursor value is requested under its own URL: two polls with the same token
      ask for the same updates exactly when their offsets are equal. */
  lemma UpdatesUrlInjective(token: string, a: int64, b: int64)
    ensures UpdatesUrl(token, a) == UpdatesUrl(token, b) <==> a == b
  {
    QueryInjective(BotEndpoint(token) + UpdatesPath, a as int, b as int);
  }

  lemma ChatUrlInjective(token: string, a: int64, b: int64)
    ensures ChatUrl(token, a) == ChatUrl(token, b) <==> a == b
  {
    QueryInjective(BotEndpoint(token) + ChatPath, a as int, b as int);
  }

  /** The offset query parameter reads back as the cursor it was built from. */
  lemma UpdatesUrlCarriesOffset(token: string, offset: int64)
    ensures var prefix := BotEndpoint(token) + UpdatesPath;
            UpdatesUrl(token, offset)[..|prefix|] == prefix &&
            Decimal.ParseInt(UpdatesUrl(token, offset)[|prefix|..]) == Some(offset as int)
  {
    var prefix := BotEndpoint(token) + UpdatesPath;
    assert UpdatesUrl(token, offset)[|prefix|..] == Decimal.FormatInt(offset as int);
    Decimal.FormatParseRoundTrip(offset as int);
  }

  /** sendMessage to a chat: the text, with a directive that removes any reply keyboard. */
  function MessagePayload(chatId: int64, text: string): (p: Payload)
    ensures p.Keys == {"chat_id", "text", "reply_markup"}
    ensures p["chat_id"] == IntV(chatId) && p["text"] == StrV(text)
    ensures p["reply_markup"] == ObjectV(map["remove_keyboard" := BoolV(true)])
  {
    map["chat_id" := IntV(chatId), "text" := StrV(text),
        "reply_markup" := ObjectV(map["remove_keyboard" := BoolV(true)])]
  }

  /** sendMessage to a channel: the channel identifier is a string and no reply markup is sent. */
  function ChannelPayload(channelId: string, text: string): (p: Payload)
    ensures p.Keys == {"chat_id", "text"}
    ensures p["chat_id"] == StrV(channelId) && p["text"] == StrV(text)
  {
    map["chat_id" := StrV(channelId), "text" := StrV(text)]
  }

  /** sendMessage with a reply keyboard, carried as given. */
  function MarkupPayload(chatId: int64, text: string, markup: ReplyKeyboardMarkup): (p: Payload)
    ensures p.Keys == {"chat_id", "text", "reply_markup"}
    ensures p["chat_id"] == IntV(chatId) && p["text"] == StrV(text)
    ensures p["reply_markup"] == ReplyKeyboardV(markup)
  {
    map["chat_id" := IntV(chatId), "text" := StrV(text), "reply_markup" := ReplyKeyboardV(markup)]
  }

  /** sendMessage with an inline keyboard, carried as given. */
  function InlineKeyboardPayload(chatId: int64, text: string, markup: InlineKeyboardMarkup): (p: Payload)
    ensures p.Keys == {"chat_id", "text", "reply_markup"}
    ensures p["chat_id"] == IntV(chatId) && p["text"] == StrV(text)
    ensures p["reply_markup"] == InlineKeyboardV(markup)
  {
    map["chat_id" := IntV(chatId), "text" := StrV(text), "reply_markup" := InlineKeyboardV(markup)]
  }

  /** The three chat payloads differ only in their reply markup; the channel payload is
      the chat payload without a markup and with the chat given as a string. */
  lemma PayloadsDifferOnlyInMarkup(chatId: int64, channelId: string, text: string,
                                   reply: ReplyKeyboardMarkup, inline: InlineKeyboardMarkup)
    ensures MessagePayload(chatId, text) - {"reply_markup"} == MarkupPayload(chatId, text, reply) - {"reply_markup"}
    ensures MessagePayload(chatId, text) - {"reply_markup"} == InlineKeyboardPayload(chatId, text, inline) - {"reply_markup"}
    ensures ChannelPayload(channelId, text) == (MessagePayload(chatId, text) - {"reply_markup"})["chat_id" := StrV(channelId)]
  {
  }

  /** A row of inline buttons: a fresh slice holding the arguments in order
      (zero arguments give an empty row). */
  function NewInlineKeyboardRow(buttons: seq<InlineKeyboardButton>): (row: seq<InlineKeyboardButton>)
    ensures |row| == |buttons|
    ensures forall i | 0 <= i < |row| :: row[i] == buttons[i]
  {
    [] + buttons
  }

  /** The outcome of `makeRequest`: encode the payload, POST it, read the body, then
      demand status 200. The first step that fails decides the error, so a body that
      cannot be read is reported as such whatever the status. */
  function MakeRequest(url: string, payload: Payload,
                       marshal: Payload -> Option<Bytes>,
                       post: (string, Bytes) -> Exchange): (r: Outcome)
    ensures r == Pass <==>
              marshal(payload).Some? && post(url, marshal(payload).value).Response? &&
              !post(url, marshal(payload).value).readFailed &&
              post(url, marshal(payload).value).status == StatusOK
    ensures r == Fail(MarshalFailed) <==> marshal(payload).None?
    ensures r == Fail(RequestFailed) <==>
              marshal(payload).Some? && post(url, marshal(payload).value).SendError?
    ensures r == Fail(ReadFailed) <==>
              marshal(payload).Some? && post(url, marshal(payload).value).Response? &&
              post(url, marshal(payload).value).readFailed
    ensures r.Fail? && r.error.UnexpectedStatus? <==>
              marshal(payload).Some? && post(url, marshal(payload).value).Response? &&
              !post(url, marshal(payload).value).readFailed &&
              post(url, marshal(payload).value).status != StatusOK
    ensures r.Fail? && r.error.UnexpectedStatus? ==>
              r.error.code == post(url, marshal(payload).value).status
  {
    match marshal(payload)
    case None => Fail(MarshalFailed)
    case Some(body) =>
      match post(url, body)
      case SendError => Fail(RequestFailed)
      case Response(status, _, readFailed) =>
        if readFailed then Fail(ReadFailed)
        else if status != StatusOK then Fail(UnexpectedStatus(status))
        else Pass
  }
}
