/** The second copy of the client, `Client` in utils.go (package telegram). It differs
    from the Gravel copy in one respect: it decodes straight from the response stream
    and never reads past the first JSON value, so a read failure is seen only through
    the decoder. A stream that breaks before the envelope is complete fails to decode;
    one that breaks after it is accepted. */
module Telegram {
  import opened Api
  import Transport
  import Cursor
  import Gravel

  /** How utils.go classifies the reply to a GET: the request failing, the bytes
      received not decoding and `ok: false` are errors in that order; otherwise the
      envelope's result is returned. Neither the status nor a later read failure is
      looked at. */
  function Fetch<T>(ex: Exchange, decode: Bytes -> Decoded<T>): (r: Result<T>)
    ensures r.Ok? <==> ex.Response? && decode(ex.received).Envelope? && decode(ex.received).ok
    ensures r.Ok? ==> r.value == decode(ex.received).result
    ensures ex.SendError? ==> r == Err(RequestFailed)
    ensures ex.Response? && decode(ex.received).Malformed? ==> r == Err(DecodeFailed)
    ensures ex.Response? && decode(ex.received).Envelope? ==>
              (r == Err(ApiRejected) <==> !decode(ex.received).ok)
  {
    match ex
    case SendError => Err(RequestFailed)
    case Response(_, received, _) =>
      match decode(received)
      case Malformed => Err(DecodeFailed)
      case Envelope(ok, result) => if ok then Ok(result) else Err(ApiRejected)
  }

  /** Given the same decoder, the two copies agree on every reply whose body was read in
      full. When the read fails, the Gravel copy rejects the reply, while this copy
      answers as the Gravel copy would have for the same bytes read in full. */
  lemma FetchAgreesWithGravel<T>(ex: Exchange, decode: Bytes -> Decoded<T>)
    ensures ex.SendError? || !ex.readFailed ==> Fetch(ex, decode) == Gravel.Fetch(ex, decode)
    ensures ex.Response? && ex.readFailed ==>
              Gravel.Fetch(ex, decode) == Err(ReadFailed) &&
              Fetch(ex, decode) == Gravel.Fetch(ex.(readFailed := false), decode)
  {
  }

  /** Given the same decoder, both copies move the cursor identically on every reply
      read in full. */
  lemma SameCursorAsGravel(offset: int64, ex: Exchange, decode: Bytes -> Decoded<seq<Update>>)
    requires ex.SendError? || !ex.readFailed
    ensures Cursor.Advance(offset, Fetch(ex, decode)) == Cursor.Advance(offset, Gravel.Fetch(ex, decode))
  {
    FetchAgreesWithGravel(ex, decode);
  }

  /** The copies diverge when the stream breaks after a complete envelope: from cursor
      0, a reply whose bytes decode to `ok: true` with update 5 moves this copy's cursor
      to 6 and returns the batch, while the Gravel copy reports a read failure and keeps
      cursor 0. */
  lemma CursorsDivergeOnLateReadFailure(received: Bytes)
    ensures var ex := Response(200, received, true);
            var decode := (b: Bytes) => Envelope(true, [Update(5)]);
            Fetch(ex, decode) == Ok([Update(5)]) && Cursor.Advance(0, Fetch(ex, decode)) == 6 &&
            Gravel.Fetch(ex, decode) == Err(ReadFailed) && Cursor.Advance(0, Gravel.Fetch(ex, decode)) == 0
  {
  }

  /** The copies also diverge on a body read in full that carries data after the
      envelope: utils.go's stream decoder stops after the first JSON value and accepts
      it, client.go's `json.Unmarshal` rejects it. With update 5 in the envelope, this
      copy moves the cursor from 0 to 6 and the Gravel copy keeps cursor 0. */
  lemma CursorsDivergeOnTrailingData(received: Bytes)
    ensures var ex := Response(200, received, false);
            var stream := (b: Bytes) => Envelope(true, [Update(5)]);
            var strict := (b: Bytes) => Malformed;
            Fetch(ex, stream) == Ok([Update(5)]) && Cursor.Advance(0, Fetch(ex, stream)) == 6 &&
            Gravel.Fetch(ex, strict) == Err(DecodeFailed) && Cursor.Advance(0, Gravel.Fetch(ex, strict)) == 0
  {
  }

  class Client {
    var Token: string
    var Offset: int64

    /** Polls for updates at the current cursor; on success the batch is returned as
        decoded and the cursor moves past its last update, otherwise it stays put. */
    method GetUpdates(get: string -> Exchange, decode: Bytes -> Decoded<seq<Update>>)
      returns (r: Result<seq<Update>>)
      modifies this`Offset
      ensures r == Fetch(get(Transport.UpdatesUrl(Token, old(Offset))), decode)
      ensures Offset == Cursor.Advance(old(Offset), r)
    {
      var url := Transport.UpdatesUrl(Token, Offset);
      var resp := get(url);
      if resp.SendError? {
        return Err(RequestFailed);
      }
      var result := decode(resp.received);
      if result.Malformed? {
        return Err(DecodeFailed);
      }
      if !result.ok {
        return Err(ApiRejected);
      }
      if |result.result| > 0 {
        Offset := Cursor.Inc(result.result[|result.result| - 1].updateId);
      }
      return Ok(result.result);
    }

    /** Fetches a chat and reports it as a user, copying the four identifying fields
        when the envelope says `ok`; every failure is passed on. */
    method GetUserInfo(chatId: int64, get: string -> Exchange, decode: Bytes -> Decoded<Chat>)
      returns (r: Result<User>)
      ensures var fetched := Fetch(get(Transport.ChatUrl(Token, chatId)), decode);
              (r.Ok? <==> fetched.Ok?) &&
              (r.Ok? ==> r.value == UserOf(fetched.value)) &&
              (r.Err? ==> r.error == fetched.error)
    {
      var url := Transport.ChatUrl(Token, chatId);
      var resp := get(url);
      if resp.SendError? {
        return Err(RequestFailed);
      }
      var result := decode(resp.received);
      if result.Malformed? {
        return Err(DecodeFailed);
      }
      if !result.ok {
        return Err(ApiRejected);
      }
      var chat := result.result;
      r := Ok(User(chat.id, chat.firstName, chat.lastName, chat.userName));
    }
  }
}
