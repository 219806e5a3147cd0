/** The `Gravel` client of gravel.go with its methods from client.go. Each network call
    is a parameter: `get` and `post` give the exchange for a request, `marshal` encodes
    a payload, `decode` parses a body as the response envelope. */
module Gravel {
  import opened Api
  import Transport
  import Cursor
  import Decimal

  /** How client.go classifies the reply to a GET: the request failing, the body not
      being readable, the body not decoding and `ok: false` are errors in that order;
      otherwise the envelope's result is returned. The status code is never looked at. */
  function Fetch<T>(ex: Exchange, decode: Bytes -> Decoded<T>): (r: Result<T>)
    ensures r.Ok? <==>
              ex.Response? && !ex.readFailed &&
              decode(ex.received).Envelope? && decode(ex.received).ok
    ensures r.Ok? ==> r.value == decode(ex.received).result
    ensures ex.SendError? ==> r == Err(RequestFailed)
    ensures ex.Response? && ex.readFailed ==> r == Err(ReadFailed)
    ensures ex.Response? && !ex.readFailed && decode(ex.received).Malformed? ==> r == Err(DecodeFailed)
    ensures ex.Response? && !ex.readFailed && decode(ex.received).Envelope? ==>
              (r == Err(ApiRejected) <==> !decode(ex.received).ok)
  {
    match ex
    case SendError => Err(RequestFailed)
    case Response(_, received, readFailed) =>
      if readFailed then Err(ReadFailed)
      else
        match decode(received)
        case Malformed => Err(DecodeFailed)
        case Envelope(ok, result) => if ok then Ok(result) else Err(ApiRejected)
  }

  /** A GET reply is accepted on the strength of its envelope alone: replacing the
      status code, say 200 by 500, changes nothing. */
  lemma FetchIgnoresStatus<T>(s1: int, s2: int, received: Bytes, readFailed: bool,
                              decode: Bytes -> Decoded<T>)
    ensures Fetch(Response(s1, received, readFailed), decode) ==
            Fetch(Response(s2, received, readFailed), decode)
  {
  }

  class Gravel {
    var Token: string
    var BaseURL: string
    var Offset: int64
    var IsLog: bool

    /** `NewGravel`: the cursor starts at Go's zero value. */
    constructor NewGravel(token: string, isLog: bool)
      ensures Token == token && BaseURL == Transport.BotEndpoint(token)
      ensures IsLog == isLog && Offset == 0
    {
      Token := token;
      BaseURL := Transport.ApiHost + token;
      IsLog := isLog;
      Offset := 0;
    }

    method SendMessageToChannel(channelId: string, text: string,
                                marshal: Transport.Payload -> Option<Bytes>,
                                post: (string, Bytes) -> Exchange) returns (r: Outcome)
      ensures r == Transport.MakeRequest(BaseURL + "/sendMessage",
                                         Transport.ChannelPayload(channelId, text), marshal, post)
    {
      var url := Transport.SendMessageUrl(BaseURL);
      var payload := Transport.ChannelPayload(channelId, text);
      r := Transport.MakeRequest(url, payload, marshal, post);
    }

    method SendMessage(chatId: int64, text: string,
                       marshal: Transport.Payload -> Option<Bytes>,
                       post: (string, Bytes) -> Exchange) returns (r: Outcome)
      ensures r == Transport.MakeRequest(BaseURL + "/sendMessage",
                                         Transport.MessagePayload(chatId, text), marshal, post)
    {
      var url := Transport.SendMessageUrl(BaseURL);
      var payload := Transport.MessagePayload(chatId, text);
      r := Transport.MakeRequest(url, payload, marshal, post);
    }

    method SendMarkup(chatId: int64, text: string, replyMarkup: ReplyKeyboardMarkup,
                      marshal: Transport.Payload -> Option<Bytes>,
                      post: (string, Bytes) -> Exchange) returns (r: Outcome)
      ensures r == Transport.MakeRequest(BaseURL + "/sendMessage",
                                         Transport.MarkupPayload(chatId, text, replyMarkup), marshal, post)
    {
      var url := Transport.SendMessageUrl(BaseURL);
      var payload := Transport.MarkupPayload(chatId, text, replyMarkup);
      r := Transport.MakeRequest(url, payload, marshal, post);
    }

    method SendInlineKeyboard(chatId: int64, text: string, replyMarkup: InlineKeyboardMarkup,
                              marshal: Transport.Payload -> Option<Bytes>,
                              post: (string, Bytes) -> Exchange) returns (r: Outcome)
      ensures r == Transport.MakeRequest(BaseURL + "/sendMessage",
                                         Transport.InlineKeyboardPayload(chatId, text, replyMarkup), marshal, post)
    {
      var url := Transport.SendMessageUrl(BaseURL);
      var payload := Transport.InlineKeyboardPayload(chatId, text, replyMarkup);
      r := Transport.MakeRequest(url, payload, marshal, post);
    }

    /** Polls for updates at the current cursor. The URL is built from `Token`, not from
        `BaseURL`. On success the batch is returned as decoded and the cursor moves past
        its last update; on any failure, or an empty batch, the cursor stays put. */
    method GetUpdates(get: string -> Exchange, decode: Bytes -> Decoded<seq<Update>>)
      returns (r: Result<seq<Update>>)
      modifies this`Offset
      ensures r == Fetch(get(Transport.UpdatesUrl(Token, old(Offset))), decode)
      ensures Offset == Cursor.Advance(old(Offset), r)
    {
      var url := Transport.UpdatesUrl(Token, Offset);
      var resp := get(url);
      if resp.SendError? {
        return Err(RequestFailed);
      }
      if resp.readFailed {
        return Err(ReadFailed);
      }
      var result := decode(resp.received);
      if result.Malformed? {
        return Err(DecodeFailed);
      }
      if !result.ok {
        return Err(ApiRejected);
      }
      if |result.result| > 0 {
        Offset := Cursor.Inc(result.result[|result.result| - 1].updateId);
      }
      return Ok(result.result);
    }

    /** Fetches a chat and reports it as a user: the four identifying fields are copied
        from the chat when the envelope says `ok`; every failure is passed on. */
    method GetUserInfo(chatId: int64, get: string -> Exchange, decode: Bytes -> Decoded<Chat>)
      returns (r: Result<User>)
      ensures var fetched := Fetch(get(Transport.ChatUrl(Token, chatId)), decode);
              (r.Ok? <==> fetched.Ok?) &&
              (r.Ok? ==> r.value == UserOf(fetched.value)) &&
              (r.Err? ==> r.error == fetched.error)
    {
      var url := Transport.ChatUrl(Token, chatId);
      var resp := get(url);
      if resp.SendError? {
        return Err(RequestFailed);
      }
      if resp.readFailed {
        return Err(ReadFailed);
      }
      var result := decode(resp.received);
      if result.Malformed? {
        return Err(DecodeFailed);
      }
      if !result.ok {
        return Err(ApiRejected);
      }
      var chat := result.result;
      r := Ok(User(chat.id, chat.firstName, chat.lastName, chat.userName));
    }
  }

  /** A poll from a fresh client: cursor 0, the server answers with updates 5, 6 and 9
      in that order; the cursor becomes 10 and the next poll asks for offset 10. */
  lemma PollScenario(token: string)
    ensures var batch := [Update(5), Update(6), Update(9)];
            var next := Cursor.Advance(0, Ok(batch));
            next == 10 &&
            Transport.UpdatesUrl(token, next) ==
              "https://api.telegram.org/bot" + token + "/getUpdates?offset=10"
  {
    assert Decimal.FormatInt(10) == "10" by {
      assert Decimal.Digits(10) == Decimal.Digits(1) + [Decimal.DigitChar(0)];
    }
  }
}
