# ESP8266 SUPER-CONNECT: a verified model of the AT-command driver

This project models the micro:bit extension that drives an ESP8266 Wi-Fi
module over a serial line (`main.ts`). The extension has five pieces:

- `sendAT` writes one AT command line.
- `waitResponse` polls the serial input into a 200-character rolling buffer
  until it sees an expected substring or 30 seconds pass.
- `connectWifi`, `connectThingSpeak` and `IFTTTWebhook` are built on those two.
  They join the access point, upload eight samples to ThingSpeak, and fire an
  IFTTT webhook.

The module-level state becomes the fields of `SuperConnect.Session`:
`wifiConnected`, `thingSpeakConnected`, `iftttConnected`,
`lastUploadSuccessful` and the receive buffer `serialStr`. Each operation is
a method that updates those fields the way the source does.

The device's collaborators are modelled as a trace and as scripts:

- `serial.writeString` appends a `Wrote(text)` event to the `trace`.
- `basic.pause` appends a `Paused(ms)` event to the same `trace`, so the
  order of writes and pauses is kept.
- Each wait reads the environment from an `Exchange`: the clock reading
  taken at its start (`input.runningTime()`), then a script of `Poll`s. A
  `Poll` is the chunk `serial.readString()` returned and the clock reading
  that follows it.
- A wait requires that some poll of its script reads the clock past the
  deadline. That stands for "the clock keeps running", and it bounds the loop.

Files:

- `decimal.dfy` (`Decimal`): decimal text for the integer samples, with
  round-trip proofs in both directions.
- `wire.dfy` (`Wire`): the exact command and request strings, and the
  AT+CIPSEND byte count.
- `response.dfy` (`Response`): the rolling buffer, substring search and
  `Await`. `Await` is the specification of `waitResponse`, and the lemmas
  that characterise it are here.
- `session.dfy` (`SuperConnect`): the `Session` class and its methods. Each
  method is proved against the functions above.
- `scenarios.dfy` (`Scenarios`): client runs on scripted modules.
  - A module that answers "OK".
  - A module that stays silent.
  - A stale "OK" left over from an earlier exchange.

Points where the code does something other than its names suggest (the model follows the code):

- The webhook stores its connect result in `iftttConnected`, not in the
  ThingSpeak flag. It can still overwrite `lastUploadSuccessful`.
- There is no accessor for `iftttConnected`.
- `connectWifi` returns nothing. Its result is visible only through
  `isWifiConnected`.
- A match found on the poll whose clock reading is already past the deadline
  still counts as success, because the match test comes before the deadline
  test.
- Nothing clears the receive buffer. A second `connectWifi` on a silent or
  dead module after a successful join reports Wi-Fi up, because the first
  join's "OK" is still in the buffer (`Scenarios.RejoinSilent`).

## Model

| member | source | states |
|---|---|---|
| `SuperConnect.Session.constructor` | main.ts:3-7 | the initial state: all four flags false, empty receive buffer, empty trace |
| `SuperConnect.Session.Pause` | main.ts:12 | `basic.pause`: appends exactly one pause of `ms` to the trace and changes nothing else; every pause of the source (main.ts:12, 70, 77, 95, 102, 113) goes through it |
| `SuperConnect.Session.SendAT` | main.ts:10-13 | appends exactly one write, `command + "\r\n"`, followed by exactly one pause of `wait` ms (default 100); nothing else changes |
| `SuperConnect.Session.WaitResponse` | main.ts:16-31 | the loop's result and final buffer are those of `Await` on the old buffer and the script; afterwards the buffer holds at most 200 characters |
| `SuperConnect.Session.ConnectWifi` | main.ts:41-57 | clears the Wi-Fi and ThingSpeak flags; the trace grows by AT+RESTORE, pause 1000, AT+RST, pause 1000, AT+CWMODE=1, pause 100, `AT+CWJAP="<ssid>","<pwd>"`, pause 100, with no early exit; `wifiConnected` is the result of waiting for "OK"; `iftttConnected` and `lastUploadSuccessful` are unchanged |
| `SuperConnect.Session.ConnectThingSpeak` | main.ts:65-80 | with Wi-Fi down or an empty key: no write, no pause, no flag or buffer change; otherwise writes `AT+CIPSTART="TCP","<ip>",80` with pause 0, then pauses 100, and sets `thingSpeakConnected` to the wait result; on failure nothing more happens and `lastUploadSuccessful` is kept; on success writes `AT+CIPSEND=<len+2>` (pause 100) and the update request (pause 0), pauses 100, and sets `lastUploadSuccessful` to the second wait's result |
| `SuperConnect.Session.OpenConnection` | main.ts:68-70 | writes `AT+CIPSTART="TCP","<host>",80` with pause 0, waits for "OK" on the old buffer, then pauses 100; the result is that wait's |
| `SuperConnect.Session.SendRequest` | main.ts:72-77 | clears the upload flag, writes `AT+CIPSEND=<len+2>` (pause 100) and the request (pause 0), pauses 100; the upload flag is the wait's result |
| `SuperConnect.Session.IFTTTWebhook` | main.ts:90-105 | a no-op unless Wi-Fi is up and event name and key are non-empty; always connects to maker.ifttt.com, whatever `ip` is; sets `iftttConnected` and never `thingSpeakConnected`; on success announces and sends the trigger request with its Host header |
| `SuperConnect.Session.Wait` | main.ts:112-114 | one pause of `delay` ms when `delay > 0`, otherwise nothing |
| `SuperConnect.Session.IsWifiConnected` | main.ts:120-122 | returns the Wi-Fi flag; its frame is that one field, so it reads nothing else |
| `SuperConnect.Session.IsThingSpeakConnected` | main.ts:128-130 | returns the ThingSpeak flag; its frame is that one field, so it reads nothing else |
| `SuperConnect.Session.IsLastUploadSuccessful` | main.ts:136-138 | returns the last-upload flag; its frame is that one field, so it reads nothing else |
| `Response.Tail` | main.ts:21-23 | the truncated buffer has length min(n, \|s\|) and is the back end of s: characters are dropped only from the front |
| `Response.Roll` | main.ts:20-23 | one poll's buffer update keeps min(200, old length + chunk length) characters (which ones: `Response.Tail`, `Response.RollKeepsBack`); while everything fits nothing is dropped |
| `Response.Contains` | main.ts:24 | `includes`: the empty target is in every buffer, and a target longer than the buffer is never in it |
| `Response.Expired` | main.ts:28 | the deadline test is strict: a clock reading exactly 30000 ms after the start does not end the wait, one 30001 ms after does |
| `Response.Await` | main.ts:16-31 | a wait uses at least one and at most all polls of its script, and leaves at most 200 characters in the buffer |
| `Response.RollKeepsBack` | main.ts:20-23 | a chunk of at most 200 characters survives the poll that delivers it, whole and at the back of the buffer |
| `Response.TailOfTail` | main.ts:20-23 | truncating after each append keeps the same characters as truncating once at the end |
| `Response.RollAllIsTail` | main.ts:20-23 | after any sequence of polls the buffer is the last min(200, n) characters of the old buffer followed by every chunk, in order |
| `Response.AwaitStopsAtFirstEvent` | main.ts:17-30 | the wait ends at the first poll that matches, where a match beats the deadline on the same poll, or else at the first poll past the deadline; every earlier poll neither matched nor was past the deadline; the result is true exactly when the final buffer contains the target; a false result comes from a poll past the deadline |
| `Response.AwaitOutcomeAt` | main.ts:17-30 | the converse: if poll n is the first to match or pass the deadline, the wait uses exactly n polls, leaves the buffer after poll n, and returns whether poll n matched |
| `Response.AwaitFoundIffSomePollMatches` | main.ts:17-30 | true exactly when the buffer after some poll the wait made contains the target; false only after a poll whose clock reading is more than 30000 ms past the start |
| `Response.AwaitBufferIsTail` | main.ts:19-23 | after a wait the buffer is the last min(200, n) characters of the old buffer followed by every chunk the wait read |
| `Response.StaleMatch` | main.ts:20-26 | a target already in the buffer is matched on the first poll even when that poll reads nothing, and the buffer is unchanged |
| `Response.ArrivingTargetIsMatched` | main.ts:20-26 | a chunk that contains the target and fits in the buffer is matched on the poll that delivers it |
| `Decimal.NatToString` | main.ts:73 | a natural sample's text is one digit exactly when it is below 10, starts with a digit that is `0` only for "0", and ends with the digit n mod 10 |
| `Decimal.IntToString` | main.ts:73 | an integer sample's text is non-empty and starts with `-` exactly when the sample is negative |
| `Decimal.NatToStringRoundTrip` | main.ts:73 | a natural sample is written as a canonical decimal numeral that reads back as its value |
| `Decimal.IntToStringRoundTrip` | main.ts:73 | an integer sample, negative ones included, is written as a canonical numeral that reads back as its value |
| `Decimal.NaturalNumeralIsWritten` | main.ts:73 | every canonical natural numeral is the text written for its value |
| `Decimal.NumeralIsWritten` | main.ts:73 | every canonical integer numeral is the text written for its value, so the writing is a bijection onto canonical numerals |
| `Decimal.IntToStringInjective` | main.ts:73 | distinct samples give distinct field text |
| `Wire.Line` | main.ts:11 | what sendAT writes is the command followed by exactly the two characters CR, LF |
| `Wire.JoinCommand` | main.ts:54 | `AT+CWJAP="` then the SSID, `","`, the password and a closing quote, 14 fixed characters in all |
| `Wire.StartCommand` | main.ts:68 | `AT+CIPSTART="TCP","` then the host, then `",80`; the IFTTT call (main.ts:93) uses it with `maker.ifttt.com` |
| `Wire.SendLengthCommand` | main.ts:74 | the announcement starts with `AT+CIPSEND=` and has a count after it (also main.ts:99) |
| `Wire.SendLengthIsWritten` | main.ts:74 | the count after `AT+CIPSEND=` is a canonical numeral whose value is the number of characters the next sendAT writes: the payload plus CR+LF (also main.ts:99) |
| `Wire.UploadLine` | main.ts:73 | the length of the update request built from the key and eight field texts is \|key\| + 84 + the field texts' lengths; the text itself is main.ts:73's concatenation, as the body writes it (the order of fields 1-7 is given by the body and by `Scenarios.SampleRequest`) |
| `Wire.UploadLineStartsWithKey` | main.ts:73 | the update request starts with `GET /update?api_key=` immediately followed by the key |
| `Wire.UploadLineEndsWithLastField` | main.ts:73 | the update request ends with `&field8=` and the eighth field's text |
| `Wire.UploadRequest` | main.ts:73 | the length of the update request for eight samples is \|key\| + 84 + the lengths of the samples' decimal text; the text is `Wire.UploadLine` applied to the key and the samples' `Decimal.IntToString` text |
| `Wire.WebhookRequest` | main.ts:98 | the trigger request is its three arguments plus 65 fixed characters, the embedded CR+LF pairs among them; the event name follows `GET /trigger/`; it always ends with the header `Host: maker.ifttt.com` and CR+LF |
| `Wire.WebhookAnnouncedLength` | main.ts:98-99 | AT+CIPSEND announces the three arguments' total length plus 67 for a trigger request |
| `Scenarios.SampleRequest` | main.ts:73 | key K1 with samples 1..8 gives exactly `GET /update?api_key=K1&field1=1&...&field8=8` |
| `Scenarios.SampleUpload` | main.ts:73-74 | the request for key K1 and samples 1..8 has 94 characters, so it is announced as AT+CIPSEND=96 |
| `Scenarios.JoinAnswered` | main.ts:41-57 | joining "net"/"pw" on a module that answers "OK" succeeds, and the fourth write (seventh event) is `AT+CWJAP="net","pw"` with CR+LF |
| `Scenarios.JoinSilent` | main.ts:16-31 | joining a module that never answers fails once the clock passes the deadline |
| `Scenarios.SampleLines` | main.ts:73-75 | the two lines sendAT writes for that upload are exactly `AT+CIPSEND=96` and `GET /update?api_key=K1&field1=1&...&field8=8`, each with CR+LF |
| `Scenarios.Joined` | main.ts:41-57 | joining on a module that answers "OK" leaves Wi-Fi up after eight trace events |
| `Scenarios.UploadAnswered` | main.ts:65-80 | after a successful join, uploading 1..8 with key K1 to an answering module writes the announcement line and then the request line (whose text `Scenarios.SampleLines` spells out) as the twelfth and fourteenth events, and reports success |
| `Scenarios.RejoinSilent` | main.ts:20-57 | after a successful join, joining again on a module that sends nothing still reports Wi-Fi up, because the first join's "OK" is still in the buffer |
| `Scenarios.StaleUpload` | main.ts:20-26 | after the join's "OK", a ThingSpeak connect and upload to a module that sends nothing both report success, because the old "OK" is still in the buffer |
| `Scenarios.WebhookWithoutWifi` | main.ts:91 | a webhook before any join writes nothing, pauses nothing and sets no flag |

## Left out

- `serial.redirect` and the TX/RX pin and baud-rate arguments of `connectWifi`: hardware configuration with no logic.
- The `//%` block-editor annotations and their parameter defaults: editor metadata, not behaviour.
- Real time. Pauses are durations in the trace, and the clock is a scripted input. The model does not bound how far past 30000 ms a silent wait really ends, or how long the busy-poll takes.
- The commented-out `control.reset()` in `connectWifi`, and any retry policy: neither exists in the code.
- `Decimal.IntToString` and floating-point samples: `n1..n8` are JavaScript numbers in the source. Here they are integers written in plain decimal. That matches JavaScript's formatting only for integral values of magnitude at most 2^53, the safe integers. A larger integral double is written with the shortest digits that read back as the same double, padded with zeros: 2^64 gives `18446744073709552000` in the source but `18446744073709551616` here, and the AT+CIPSEND count differs with it. From 10^21 up JavaScript uses exponent notation. Fractions, rounding to doubles, exponent notation, `NaN` and `Infinity` are not modelled.
- The serial input as one continuous stream. Each wait gets its own `Exchange`. Bytes that arrive after a wait ends simply begin the next wait's script, so every run of the device is still described by some choice of exchanges. A poll's clock value is ignored when that poll matches, because the source reads the clock only after a failed match.
- `Response.Tail`, `Response.Roll` and `Wire.SendLengthCommand`: a string is a sequence of Unicode scalar values here, while JavaScript's `length` and `substr` count UTF-16 code units. The 200-character cap and the AT+CIPSEND count agree with the source only when all text is in the Basic Multilingual Plane; a character outside it counts once here and twice in the source.
- `SuperConnect.Session.SendAT`, `SuperConnect.Session.Pause` and `SuperConnect.Session.Wait`: pause durations are integers here, while the source's `wait` and `delay` are JavaScript numbers, so fractional durations are not modelled.
- Concurrency and re-entrancy: the source is single-threaded and has no protection against overlapping calls.
