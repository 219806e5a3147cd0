# Gravel Telegram Bot API client — a verified model

Gravel is a small Go client for the Telegram Bot API. It sends messages (plain, to a
channel, with a reply keyboard, with an inline keyboard), fetches chat information, and
polls for inbound updates with `getUpdates`, carrying a cursor (`Offset`) from one poll
to the next. The repository holds two near-identical clients: `Gravel` (gravel.go and
client.go) and `Client` (utils.go).

This project models the logic that is left once the network and the JSON library are
replaced by abstract inputs:

- `Api` (api.dfy): the wire types the core consults (`Update`, `Chat`, `User`, the keyboard
  markups), 64-bit `int64`, the abstract HTTP exchange
  `SendError | Response(status, received: Bytes, readFailed: bool)` (the bytes that
  arrived, and whether the stream then broke), the decoded envelope
  `Malformed | Envelope(ok, result)` and a closed set of error kinds.
- `Decimal` (decimal.dfy): Go's `%d` rendering, used in the `getUpdates` and `getChat`
  URLs, with its inverse parser.
- `Cursor` (cursor.dfy): how one poll moves `Offset`, and what a run of polls retrieves.
- `Transport` (transport.dfy): the pure part of client.go: URLs, the four `sendMessage`
  payload shapes, `NewInlineKeyboardRow`, and the outcome ladder of `makeRequest`.
- `Gravel` (gravel.dfy): class `Gravel` with fields `Token`, `BaseURL`, `Offset`, `IsLog`,
  its constructor `NewGravel` and the client.go methods.
- `Telegram` (telegram.dfy): class `Client` with the utils.go methods. It is compared with
  the `Gravel` copy. client.go reads the whole body and fails if the read fails; utils.go
  decodes from the stream and stops after the first JSON value, so a stream that breaks
  after a complete envelope is accepted there and rejected by client.go.

The network, the JSON encoder and the JSON decoder become parameters of the methods:
- `get: string -> Exchange` is the reply to a GET of that URL.
- `post: (string, Bytes) -> Exchange` is the reply to a POST.
- `marshal: Payload -> Option<Bytes>` is `json.Marshal`.
- `decode: Bytes -> Decoded<T>` is the JSON decoding of a body into `{ok, result}`.

The cursor methods (`GetUpdates`) change `Offset` in place (`modifies this`Offset`). They
are proved against the specification functions `Fetch` and `Cursor.Advance`, and the
protocol properties are proved about those functions.

In three places the code differs from what the polling protocol is meant to guarantee.
The model follows the code in each:
- The new cursor is one past the LAST update of a batch, not the largest.
- The cursor is not kept monotone.
- Neither copy checks the HTTP status of a poll.

Lemmas show that the cursor rule agrees with "maximum + 1" on ascending batches
(`Cursor.LastIsMaxWhenAscending`) and differs on other batches
(`Cursor.LastIsNotMaxInGeneral`, `Cursor.CursorCanMoveBackwards`). `Cursor.ExactlyOnce`
proves exactly-once retrieval under the server's side of the protocol. The server holds
an ascending queue of updates with identifiers below MaxInt64. It answers each poll with
a leading part of the queued updates at or past the requested offset. Then the updates
returned over any run of polls are exactly the queued updates between the first and the
final cursor, each returned once and in order. `Cursor.AtMostOnce` proves the no-duplicate
half under a weaker assumption: each batch is ascending, at or past the requested
offset and below MaxInt64. Without that bound the claims fail: an update with identifier
MaxInt64 wraps the cursor to MinInt64 (`Cursor.CursorCanMoveBackwards`).

## Model

| member | source | states |
|---|---|---|
| `Api.UserOf` | client.go:190-195 | the user built from a chat carries the chat's ID, FirstName, LastName and UserName |
| `Decimal.FormatParseRoundTrip` | client.go:114 | the `%d` rendering of any integer (minus sign, digits without leading zeros) parses back to that integer |
| `Decimal.FormatIntInjective` | client.go:114 | two integers have the same `%d` rendering exactly when they are equal |
| `Decimal.Digits` | client.go:114 | the digit string of a natural number is non-empty, all digits, and starts with `0` only for zero |
| `Cursor.Inc` | client.go:150 | Go's `UpdateID + 1` on a 64-bit int: one more below MaxInt64, wraps to MinInt64 at MaxInt64 |
| `Cursor.Advance` | client.go:144-151 | after a failed poll or an empty batch the cursor is unchanged; after a non-empty batch it is Go's `+ 1` of the last update's ID (wrapping to MinInt64 at MaxInt64) |
| `Cursor.MaxId` | client.go:149-151 | reference for "maximum identifier": an identifier of the batch that no other exceeds |
| `Cursor.LastIsMaxWhenAscending` | client.go:149-151 | on an ascending batch the last identifier is the maximum, so the rule equals "maximum + 1" |
| `Cursor.LastIsNotMaxInGeneral` | client.go:149-151 | on batch [9, 5] the cursor becomes 6 while the maximum is 9: update 9 is not acknowledged |
| `Cursor.CursorCanMoveBackwards` | client.go:149-151 | nothing keeps the cursor monotone: a smaller last identifier moves it back, MaxInt64 wraps it |
| `Cursor.AdvancePassesBatch` | client.go:149-151 | on an ascending batch at or past the cursor and below MaxInt64, the cursor does not decrease and ends past every update of the batch |
| `Cursor.AtMostOnce` | client.go:112-155 | over any run of polls whose batches are ascending, at or past the requested cursor and below MaxInt64, the retrieved updates strictly increase (none twice), lie between the first and the final cursor, and the cursor never decreases |
| `Cursor.Pending` | client.go:114 | the updates a request with a given offset may return: exactly the queued updates at or past the offset |
| `Cursor.NoLoss` | client.go:112-155 | over any run of polls served from an ascending queue whose identifiers are below MaxInt64, every queued update between the first and the final cursor has been retrieved |
| `Cursor.RetrievedFromQueue` | client.go:112-155 | over any run of polls served from a queue, every retrieved update is a queued one |
| `Cursor.ExactlyOnce` | client.go:112-155 | over any run of polls served from an ascending queue whose identifiers are below MaxInt64, the retrieved updates are exactly the queued updates between the first and the final cursor, in strictly increasing order, and the cursor never decreases |
| `Transport.BotEndpoint` | gravel.go:16 | the endpoint is `https://api.telegram.org/bot` followed by the token, which can be read back from it |
| `Transport.UpdatesUrlInjective` | client.go:114 | two getUpdates URLs with one token are equal exactly when their offsets are |
| `Transport.UpdatesUrlCarriesOffset` | client.go:114 | the getUpdates URL is the endpoint, `/getUpdates?offset=`, and a query value that parses back to the cursor |
| `Transport.ChatUrlInjective` | client.go:158 | two getChat URLs with one token are equal exactly when their chat IDs are |
| `Transport.MessagePayload` | client.go:35-45 | the payload has exactly `chat_id` (an integer), `text` and `reply_markup = {remove_keyboard: true}` |
| `Transport.ChannelPayload` | client.go:14-22 | the payload has exactly `chat_id` (a string) and `text`, with no reply markup |
| `Transport.MarkupPayload` | client.go:49-58 | the payload has exactly `chat_id`, `text` and the given reply keyboard as `reply_markup` |
| `Transport.InlineKeyboardPayload` | client.go:62-71 | the payload has exactly `chat_id`, `text` and the given inline keyboard as `reply_markup` |
| `Transport.PayloadsDifferOnlyInMarkup` | client.go:14-72 | the chat payloads agree outside `reply_markup`; the channel payload is the plain one without markup and with a string chat ID |
| `Transport.NewInlineKeyboardRow` | client.go:26-32 | the row has the arguments' length and elements in order; no arguments give an empty row |
| `Transport.MakeRequest` | client.go:74-109 | success exactly when encoding, sending and reading succeed and the status is 200; otherwise the first failing step names the error (a failed read wins over a bad status), and a bad status carries its code |
| `Gravel.Fetch` | client.go:116-154 | a GET reply succeeds exactly when its body was read in full, decodes and says `ok`, and then yields the decoded result; request, read, decode and `ok: false` failures are reported in that order |
| `Gravel.FetchIgnoresStatus` | client.go:117-154 | the status code of a GET reply never changes the outcome (a 500 with `ok: true` is accepted) |
| `Gravel.Gravel.NewGravel` | gravel.go:13-19 | the new client has the given token and logging flag, `BaseURL` is the bot endpoint of the token, and `Offset` is 0 |
| `Gravel.Gravel.SendMessageToChannel` | client.go:14-23 | the outcome is `makeRequest` on `BaseURL + "/sendMessage"` with the channel payload |
| `Gravel.Gravel.SendMessage` | client.go:35-46 | the outcome is `makeRequest` on `BaseURL + "/sendMessage"` with the keyboard-removing payload |
| `Gravel.Gravel.SendMarkup` | client.go:49-59 | the outcome is `makeRequest` on `BaseURL + "/sendMessage"` with the reply-keyboard payload |
| `Gravel.Gravel.SendInlineKeyboard` | client.go:62-72 | the outcome is `makeRequest` on `BaseURL + "/sendMessage"` with the inline-keyboard payload |
| `Gravel.Gravel.GetUpdates` | client.go:112-155 | the result is the classified reply to the getUpdates URL for the old cursor, and the new cursor is `Advance` of the old one: unchanged on failure or an empty batch |
| `Gravel.Gravel.GetUserInfo` | client.go:157-199 | succeeds exactly when the getChat reply does, returning the chat's four fields as a user; otherwise passes the error on |
| `Gravel.PollScenario` | client.go:114-151 | from cursor 0 a batch [5, 6, 9] moves the cursor to 10 and the next request asks for `offset=10` |
| `Telegram.Fetch` | utils.go:13-37 | a GET reply succeeds exactly when the bytes received decode and say `ok`; neither the status nor a read failure after those bytes is consulted |
| `Telegram.FetchAgreesWithGravel` | utils.go:10-38 | given the same decoder, the two copies classify every reply read in full alike; on a failed read client.go reports a read error while utils.go answers as for the same bytes read in full |
| `Telegram.SameCursorAsGravel` | utils.go:33-35 | given the same decoder, both copies move the cursor identically on every reply read in full |
| `Telegram.CursorsDivergeOnLateReadFailure` | utils.go:24-37 | a stream that breaks after a complete `ok` envelope with update 5 moves the utils.go cursor from 0 to 6 and returns the batch, while client.go reports a read failure and keeps cursor 0 |
| `Telegram.CursorsDivergeOnTrailingData` | utils.go:24-35 | a body read in full with data after an `ok` envelope holding update 5 is accepted by utils.go's stream decoder (cursor 0 to 6) and rejected as undecodable by client.go's `json.Unmarshal` (cursor stays 0) |
| `Telegram.Client.GetUpdates` | utils.go:10-38 | the result is the utils.go classification of the reply to the getUpdates URL for the old cursor; the cursor moves past the last update of a non-empty batch and is otherwise unchanged |
| `Telegram.Client.GetUserInfo` | utils.go:40-77 | succeeds exactly when the getChat reply does, copying ID, FirstName, LastName and UserName; on `ok: false` or any failure it returns the error |

## Left out

- HTTP I/O (`http.Get`, `http.Post`, `io.ReadAll`, `resp.Body.Close`) is replaced by the
  `get` and `post` parameters. Timeouts, connection reuse and closing the body are not
  modelled.
- JSON encoding and decoding (`encoding/json`) are replaced by the `marshal` and `decode`
  parameters; no JSON text is modelled. utils.go decodes from the stream with
  `json.Decoder`, which tolerates trailing data, and client.go uses `json.Unmarshal`,
  which does not. The two differ only in which `decode` a caller supplies. For utils.go,
  `decode` applied to the bytes received stands for the stream decoder. A stream that
  breaks before the envelope is complete must decode as `Malformed`.
- A `nil` slice and an empty slice are not distinguished. `NewInlineKeyboardRow()` with no
  arguments returns `nil` in Go, which encodes as JSON `null`.
- logger/logger.go: logging is a process-wide flag plus `log.Println` and never affects
  control flow. `NewGravel` stores `IsLog` but never calls `logger.Config`, so `IsLog` has
  no effect in this code.
- Error messages and `fmt.Errorf` wrapping: errors are the closed set `ErrorKind`.
  `Telegram` passes the network and decoder errors on unchanged; they map to
  `RequestFailed` and `DecodeFailed`.
- The definitions of `Update`, `Chat` and `User` are not part of this model. Only the
  fields the core uses are kept: `UpdateID`, and the chat/user `ID`, `FirstName`,
  `LastName`, `UserName`.
- The definitions of the keyboard types are not part of this model either. They are given
  the Bot API's wire fields (button text, callback data, the keyboard grid,
  `resize_keyboard`). The core never reads these fields: it carries each markup unchanged
  into the payload.
- The `Client` struct of utils.go is not part of this model. Only its `Token` and `Offset`
  fields are used, and its construction is not shown.
- Go's `int` is taken to be 64 bits wide, as on the usual platforms.
- Concurrent polls on one client (an unsynchronised read-modify-write of `Offset`) are not
  modelled: every method runs alone.
