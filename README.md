# blinko-wechat relay: a Dafny model

blinko-wechat is a WeChat Official Account server (`webot.js`). It forwards
what a user sends to the account to a Blinko note service. A text becomes a
note. An image is uploaded and held for its sender for a caption window. If
the sender's next text arrives in time, the image and that text are saved as
one note. Otherwise a timer saves the image with a default caption. Replies
go back to WeChat as passive XML messages. A `GET /wechat` request is checked
with the platform's SHA-1 signature scheme.

This project models the per-sender image-then-caption state machine behind
`POST /wechat`. That covers the two Maps `pendingImages` and `imageTimeouts`,
the timer callback, the SIGTERM handler and three pure helpers: the
signature check, the XML reply and the error reply.

Files and modules:

- `wrappers.dfy` (`Wrappers`): `Option`, used for fields that may be `undefined`.
- `inbound.dfy` (`Inbound`): the parsed message, `${}` interpolation (`undefined` renders as "undefined") and truthiness.
- `decimal.dfy` (`Decimal`): the decimal text of an integer and its parser.
- `signature.dfy` (`Signature`): JavaScript's default string sort and `checkSignature`.
- `reply.dfy` (`Reply`): the XML reply layout, a parser for it, `generateXmlResponse` and `generateErrorResponse`.
- `relay.dfy` (`Relay`): the state machine as a transition system over values. This is the specification.
- `relay_laws.dfy` (`RelayLaws`): the invariant of reachable states and the frame property per sender.
- `relay_traces.dfy` (`RelayTraces`): concrete runs, both intended behaviour and interleavings.
- `webot.dfy` (`Webot`): class `Server` holds the Maps and changes them in place. Each method is proved to perform exactly one `Relay` transition.

How concurrency is modelled. Node runs the handlers on one thread, and
interleaving happens only at an `await`. Each handler is split at its
`await` into two steps:

- a step that issues the upstream call. The model's `notes` is the log of
  every `sendToBlinko` call issued, and the note joins it in this step.
  Whether the service received it is known only from the outcome of the
  second step.
- a step that resumes with the call's outcome: a truthy `data.id`, a falsy
  one, or a rejection.

The runtime's armed timers are a map from handle to the sender and image
the callback closed over. `clearTimeout` removes a handle. Any armed timer
may fire between two steps.

## Model

| member | source | states |
|---|---|---|
| `Decimal.IntTextRoundTrip` | webot.js:215-219 | the `<CreateTime>` text of any integer reads back as that integer |
| `Signature.Sort` | webot.js:158 | the token, timestamp and nonce are put in lexicographic order, as a permutation of the input |
| `Signature.SortedUnique` | webot.js:158 | there is only one sorted arrangement, so every correct sort gives the same joined text |
| `Signature.CheckSignatureMeaning` | webot.js:156-167 | the check is true exactly when the signature equals the digest of the three parts joined in sorted order |
| `Signature.CheckSignatureSymmetric` | webot.js:156-167 | swapping the timestamp and the nonce never changes the verdict |
| `Reply.RoundTrip` | webot.js:216-222 | a text reply or a FAIL reply whose fields hold no `]` reads back as the same fields |
| `Reply.XmlResponseReads` | webot.js:214-223 | the reply is addressed to `toUser` from `fromUser`, carries the content, and its creation time is the current time in whole seconds, rounded down |
| `Reply.ErrorResponseReads` | webot.js:226-245 | the error goes back to the sender, prefixed `错误：`, when both user names are truthy; otherwise it is the FAIL form carrying the message |
| `Relay.Receive` | webot.js:72-146 | a text sends one note with its content: it attaches the sender's pending image when there is one (line 78) and nothing otherwise (lines 97-99). An image starts its upload (line 111). Any other type gets 400 `Unsupported message type` and changes nothing (lines 142-146). No Map changes at this step. |
| `Relay.UploadDone` | webot.js:111-141 | on success the sender's pending image is the uploaded one and a new armed timer capturing it is stored; the old timer stays armed and other senders' entries are unchanged. On a rejection nothing changes and the reply is the 500 error reply (lines 147-151). |
| `Relay.NoteDone` | webot.js:80-96 | a caption reply says saved or failed by `data.id`, then the sender's stored timer is cleared and both entries are gone. A text-only reply does the same by `data.id` (lines 100-108) and changes no Map. A rejection gives the 500 reply and skips the cleanup (lines 147-151). A finished auto-save deletes both entries (lines 131-134). |
| `Relay.Fire` | webot.js:119-135 | a firing timer sends ITS captured image with `来自微信公众号图片` if its sender has any pending image; otherwise it deletes the sender's stored handle and sends nothing |
| `Relay.Sigterm` | webot.js:253-261 | every handle stored in `imageTimeouts` is cleared and every other armed timer is kept; no note is sent, no entry changes, and the process exits |
| `RelayLaws.StepKeepsInv` | webot.js:48-49 | every event keeps the invariant. A sender has a pending image exactly when it has a stored handle, and a stored handle that is still armed belongs to that sender and captured its pending image. |
| `RelayLaws.RunKeepsInv` | webot.js:64-153 | any sequence of events from a state that satisfies the invariant ends in a state that satisfies it |
| `RelayLaws.ReachableInv` | webot.js:47-49 | every state reachable from process start satisfies the invariant |
| `RelayLaws.RunAppendsNotes` | webot.js:198-211 | the log of `sendToBlinko` calls only grows at its end, by at most one call per event |
| `RelayLaws.OtherSendersUntouched` | webot.js:74-137 | an event about one sender leaves every other sender's pending image, stored handle and armed timers as they were |
| `RelayLaws.UnparsedRequestFails` | webot.js:147-151 | a request whose body parses to `undefined` changes nothing and gets status 500 with the FAIL form carrying `系统内部错误` |
| `RelayLaws.ReplacedTimerLeaks` | webot.js:116-137 | after a second image, the first image's timer is still armed but no entry refers to it |
| `RelayTraces.CaptionedImageSavedOnce` | webot.js:74-96 | image then caption: one note with the caption and the image, nothing left armed |
| `RelayTraces.UncaptionedImageAutoSaved` | webot.js:119-135 | image with no caption: one note with the default caption |
| `RelayTraces.PlainTextSaved` | webot.js:97-109 | text with nothing pending: one note with no attachment |
| `RelayTraces.ShutdownDropsPendingImage` | webot.js:253-261 | SIGTERM with an image pending clears its timer and sends nothing |
| `RelayTraces.SupersededTimerSavesOldImage` | webot.js:119-137 | a replaced image's timer saves the OLD image and deletes the new entry, so the new image is never saved |
| `RelayTraces.TimerAndCaptionBothSave` | webot.js:74-96 | a caption arriving while the auto-save is suspended saves the same image a second time |
| `RelayTraces.CaptionCleanupDropsNewerImage` | webot.js:90-96 | an image uploaded while the caption's note is suspended is deleted by the caption's cleanup and never saved |
| `Webot.Server.constructor` | webot.js:47-49 | the process starts with both Maps empty and nothing armed |
| `Webot.Server.Receive` | webot.js:64-151 | performs the relay's request step in place: `Relay.Receive` on a parsed message, `Relay.RejectUnparsed` on `undefined` |
| `Webot.Server.ResumeUpload` | webot.js:111-151 | performs `Relay.UploadDone` in place |
| `Webot.Server.ResumeNote` | webot.js:78-151 | performs `Relay.NoteDone` in place |
| `Webot.Server.FireTimer` | webot.js:119-135 | performs `Relay.Fire` in place |
| `Webot.Server.Terminate` | webot.js:253-261 | loops over `imageTimeouts` clearing each timer, then performs `Relay.Sigterm` |
| `Webot.Server.SendToBlinko` | webot.js:198-211 | exactly one more `sendToBlinko` call is logged, with the given content and attachments |
| `Webot.Server.ClearTimeout` | webot.js:93 | the handle is disarmed; clearing a fired or cleared handle changes nothing |

## Where the code and the intended behaviour differ

An image-then-caption relay would be expected to do three things:

- take a pending entry atomically, so that only one handler can use it;
- dispose of the old timer before a pending image is replaced;
- send at most one note per pending image.

The code does none of these. The model follows the code.

- `RelayTraces.SupersededTimerSavesOldImage`: the old timer is not cleared at webot.js:137. Its callback checks only `has(sender)`, so it saves the replaced image and deletes the new entry.
- `RelayTraces.TimerAndCaptionBothSave`: a text and a timer can both save the same image.
- `RelayTraces.CaptionCleanupDropsNewerImage`: the caption handler cleans up after its `await`, so it can delete an image that arrived in between.

A failed upload might be expected to get a plain failure reply. The code
answers with the catch block's 500 reply: `错误：系统内部错误`, or the FAIL form.

## Left out

- Express plumbing: app setup, middleware, sessions, `app.listen`, `res.set('Content-Type', …)` and the `GET /wechat` handler (webot.js:9-61, 248-250). The model keeps `checkSignature`, which that handler calls.
- `parseWechatMessage` (webot.js:170-181): `xml2js` is a foreign library. Its result is an input: a record whose fields are strings or `undefined`, or `undefined` itself when the root element is not `xml`. Which bodies give which result is not modelled. Neither are elements that parse to objects or arrays.
- A `NoteThrew` outcome does not say whether the note reached the service. A transport failure rejects before it arrives; a rejection after the service stored it looks the same. Either way the call stays in `notes`, which logs calls issued, not notes stored.
- `uploadImage` and `sendToBlinko` (webot.js:184-211) are HTTP calls through `axios`. Only their outcome is modelled: image fields or a rejection, and a truthy `id`, a falsy `id` or a rejection. The upload request itself is not recorded.
- SHA-1: the digest is a function parameter of `CheckSignature`.
- `Date.now()` is a parameter. `Math.floor(ms / 1000)` is integer division, which rounds down for a positive divisor. Numbers of 10^21 or more, which JavaScript prints in exponent form, are not modelled.
- Time: `UPLOAD.TIMEOUT` is not modelled. Any armed timer may fire at any step, which admits schedules Node would not run: a timer firing early, or equal-delay timers firing out of arming order. The traces in `RelayTraces` use only orders Node can produce.
- A rejection inside the timer callback escapes it as an unhandled rejection. The model skips the callback's cleanup, as the code does. The process crash that recent Node versions turn this into is not modelled.
- `process.exit` is modelled only as the end of all events. Handlers still suspended at that point are abandoned.
- Logging: `logger`, `console.log` and `console.error` are not modelled. utils/logger.js is pure configuration.
- config.example.js holds constants only. The WeChat token is a parameter of `CheckSignature`.
- `Signature.LexLe` compares Dafny characters, which are Unicode scalar values. JavaScript compares UTF-16 code units. The two orders differ only between characters above U+FFFF and characters from U+E000 to U+FFFF.
- A missing `timestamp` or `nonce` is taken as the empty string. JavaScript sorts `undefined` last and joins it as nothing, which gives the same text. Query parameters given more than once (arrays) are not modelled.
- Reply.XmlResponseReads: states the reply's fields only when none of them contains `]`. `Reply.Parse` reads back only such replies, because a `]` can end a CDATA section early.
- Reply.ErrorResponseReads: states the reply's fields only when the error message and the user names contain no `]`, for the same reason.
