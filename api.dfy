/** Values shared by both copies of the Telegram Bot API client: the wire types the
    core consults, the abstract outcome of one HTTP exchange, the decoded response
    envelope and the closed set of error kinds the client can report. */
module Api {

  /** Go's `int` on a 64-bit platform: two's complement, wrapping on overflow. */
  newtype int64 = x: int | -0x8000_0000_0000_0000 <= x < 0x8000_0000_0000_0000

  const MinInt64: int64 := -0x8000_0000_0000_0000
  const MaxInt64: int64 := 0x7fff_ffff_ffff_ffff

  newtype byte = x: int | 0 <= x < 256
  type Bytes = seq<byte>

  datatype Option<+T> = None | Some(value: T)

  /** One kind per distinct failure path of the client; the message strings are not modelled. */
  datatype ErrorKind =
    | MarshalFailed             // the payload could not be encoded as JSON
    | RequestFailed             // the HTTP request could not be sent
    | ReadFailed                // the response body could not be read
    | UnexpectedStatus(code: int)  // a status other than 200 OK
    | DecodeFailed              // the body is not a well-formed response envelope
    | ApiRejected               // the envelope says `ok: false`

  datatype Result<+T> = Ok(value: T) | Err(error: ErrorKind)

  /** The outcome of an operation that returns only an error value. */
  datatype Outcome = Pass | Fail(error: ErrorKind)

  /** What one HTTP round trip yields: either the request could not be sent, or a
      response arrived with a status code, the body bytes received, and whether reading
      the body then failed (`readFailed`: the stream broke after `received`). */
  datatype Exchange = SendError | Response(status: int, received: Bytes, readFailed: bool)

  /** The result of decoding a body as the uniform envelope `{ok, result}`. */
  datatype Decoded<+T> = Malformed | Envelope(ok: bool, result: T)

  /** An inbound event; the core consults only its identifier. */
  datatype Update = Update(updateId: int64)

  datatype Chat = Chat(id: int64, firstName: string, lastName: string, userName: string)

  datatype User = User(id: int64, firstName: string, lastName: string, userName: string)

  datatype KeyboardButton = KeyboardButton(text: string)

  datatype ReplyKeyboardMarkup = ReplyKeyboardMarkup(keyboard: seq<seq<KeyboardButton>>, resizeKeyboard: bool)

  datatype InlineKeyboardButton = InlineKeyboardButton(text: string, callbackData: string)

  datatype InlineKeyboardMarkup = InlineKeyboardMarkup(inlineKeyboard: seq<seq<InlineKeyboardButton>>)

  /** The account description built from a chat: the four identifying fields are copied. */
  function UserOf(c: Chat): (u: User)
    ensures u.id == c.id && u.firstName == c.firstName
    ensures u.lastName == c.lastName && u.userName == c.userName
  {
    User(c.id, c.firstName, c.lastName, c.userName)
  }
}
