# PubNub 3.0 client for CodeIgniter, modelled in Dafny

This project models the `Pubnub` library class (`application/libraries/Pubnub.php`).
The class is a client for a hosted publish/subscribe service that is reached
only through HTTP GET requests of the form `http://origin/op/seg/.../seg`. The
model covers:

- the path-segment encoder (`_encode`, `_encode_char`);
- URL assembly in `_request`;
- the three one-shot operations `publish`, `history` and `time`, with the
  publish signature;
- the blocking `subscribe` long-poll loop.

Files (one module each):

- `php_values.dfy` (`PhpValues`): byte strings and the PHP values the class
  handles. It defines truthiness (null, false, 0, "", "0" and the empty array
  are falsy), string conversion, `count`, `foreach` and `$v[k]`.
- `path_encoder.dfy` (`PathEncoder`): the encoder, and `rawurldecode` as its
  inverse.
- `encoder_examples.dfy` (`EncoderExamples`): concrete encodings of bytes.
- `request_executor.dfy` (`RequestExecutor`):
  - `implode`/`explode` on `/`;
  - the URL of a request;
  - `_request` as a method over an abstract fetch function.
- `pubnub_client.dfy` (`PubnubClient`):
  - the immutable settings;
  - the signer;
  - `publish`, `history` and `time`. Each is a pure decision: either return at
    once, or send exactly one segment list. A method then performs that
    decision.
- `subscribe_loop.dfy` (`SubscribeLoop`):
  - `subscribe` specified by recursive functions. `Listen` and `Deliver`
    follow the PHP method's self-recursion.
  - `Subscribe`, an iterative method over a mutable cursor that is proved
    equal to them. `Poll` is its loop, `PollOnce` one pass of the loop body
    and `DispatchBatch` the `foreach` over a batch. The loop records a
    trace of events: requests, callback calls and sleeps.
- `subscribe_properties.dfy` (`SubscribeProperties`): what every run does.
  This covers requests and cursor threading, dispatch order, stopping and
  sleeping, plus worked scenarios.

Collaborators the class cannot see are parameters:

- `json_encode` and `md5` are fields of `Foreign`.
- HTTP GET followed by `json_decode` is a function `fetch` from the URL to the
  decoded value.
- In `subscribe`, each poll's decoded response is an entry of a script of
  outcomes. The callback is an oracle that receives the number of earlier
  calls and the message.

Behaviour of the code that is easy to miss, and that the model keeps:

- `.` and `~` are in the reserved set, but `rawurlencode` leaves RFC 3986
  unreserved bytes as they are (PHP 5.3 and later; earlier versions
  escaped `~`). So these two bytes are never escaped, and
  the segments "." and ".." are sent raw (`EncodeKeepsExamples`). Output
  length is input length plus 2 for each reserved byte *other than* `.` and
  `~`.
- A failed fetch does not keep the cursor and does not back off. `json_decode`
  yields null, so the batch is empty and `args['timetoken']` becomes null.
  `isset` then treats the cursor as unset, and the next poll asks for "0" at
  once. Only a caught `Exception` sleeps. This holds whether the exception is
  raised by the request or by the callback; after a callback exception the
  cursor from line 114 is already in place.
- `history` replaces only a zero or missing limit by 10. A negative limit is
  sent as it is.
- A secret key of "0" is falsy, so it signs with "0", like an empty key.
- `count` and `foreach` follow PHP 5/7:
  - null counts 0;
  - a scalar counts 1, but `foreach` does not iterate over it.
- A value sent as a path segment goes through `str_split`. A non-empty
  array as the channel or as the cursor is truthy, but `str_split` returns
  null for it (PHP 5/7), so its segment is empty (`SegmentText`). The string
  to sign is a plain `implode` and holds "Array" (`ArrayChannelSentEmpty`).

## Model

| member | source | states |
|---|---|---|
| `PathEncoder.ReservedStringBytes` | application/libraries/Pubnub.php:219 | a byte is in the string `_encode_char` searches exactly when it is printable ASCII (space included), not a letter or digit, and neither `-` nor `_` |
| `PathEncoder.SegmentText` | application/libraries/Pubnub.php:206-209 | a scalar segment is split as its string form; an array yields an empty segment, although it converts to "Array" elsewhere |
| `PathEncoder.EncodeByte` | application/libraries/Pubnub.php:218-224 | a byte is kept exactly when it is not escaped (not reserved, or `.`/`~`); an escaped byte becomes `%` and two upper-case hex digits whose value is the byte |
| `PathEncoder.RawUrlEncodeByte` | application/libraries/Pubnub.php:223 | `rawurlencode` of one byte keeps it exactly when it is unreserved, and percent-decodes back to it |
| `PathEncoder.EncodeAppend` | application/libraries/Pubnub.php:206-210 | encoding distributes over concatenation: `Encode(a + b) == Encode(a) + Encode(b)` |
| `PathEncoder.EncodeLength` | application/libraries/Pubnub.php:206-224 | output length is input length plus 2 for each escaped byte |
| `PathEncoder.EncodeSafe` | application/libraries/Pubnub.php:206-224 | no encoded segment contains a raw reserved byte other than `%`, `.`, `~`; in particular no `/` and no space |
| `PathEncoder.DecodeEncode` | application/libraries/Pubnub.php:206-224 | percent-decoding an encoded segment gives back the segment (the encoder is injective) |
| `PathEncoder.EncodeUnescaped` | application/libraries/Pubnub.php:218-221 | a segment with no escaped byte is sent unchanged |
| `PathEncoder.EncodeDecimal` | application/libraries/Pubnub.php:160 | an integer printed by PHP passes through the encoder unchanged |
| `EncoderExamples.EncodeEscapesExamples` | application/libraries/Pubnub.php:219-223 | "a/b" encodes to "a%2Fb" and " %" to "%20%25" |
| `EncoderExamples.EncodeKeepsExamples` | application/libraries/Pubnub.php:219-223 | ".", ".." and "~" encode to themselves |
| `EncoderExamples.EscapeExample` | application/libraries/Pubnub.php:219-223 | an escaped byte becomes `%` followed by the upper-case hex digits of its high and low halves |
| `PathEncoder.PlainWords` | application/libraries/Pubnub.php:64-72 | the fixed words "0" and "publish" are sent unescaped |
| `PhpValues.DecimalDigits` | application/libraries/Pubnub.php:160 | an integer's string form is an optional `-` (present exactly for negatives) followed by digits whose value is the integer's magnitude |
| `PhpValues.DecimalInjective` | application/libraries/Pubnub.php:160 | distinct integers print as distinct strings |
| `PhpValues.Elements` | application/libraries/Pubnub.php:117-122 | `foreach` over an array visits exactly its values, in order, and as many as `count` says; over a scalar or null it visits nothing |
| `RequestExecutor.EncodeAll` | application/libraries/Pubnub.php:188 | each segment is replaced by its encoding, count and order kept |
| `RequestExecutor.DecodeEncodeAll` | application/libraries/Pubnub.php:188 | decoding every encoded segment gives back the raw segment list |
| `RequestExecutor.SplitJoin` | application/libraries/Pubnub.php:196 | `explode('/')` undoes `implode('/')` for parts without `/` |
| `RequestExecutor.Url` | application/libraries/Pubnub.php:187-196 | the URL is the unencoded server, then `/`, then text that splits on `/` into exactly the encoded segments in order, and that decodes back to the raw segments; no segments gives the server alone |
| `RequestExecutor.Request` | application/libraries/Pubnub.php:187-198 | `_request` fetches exactly that URL and returns its decoded response |
| `PubnubClient.StringToSign` | application/libraries/Pubnub.php:46-52 | the signed string splits back into pub-key, sub-key, secret-key, channel and message, in that order, when none of them holds `/` |
| `PubnubClient.Signature` | application/libraries/Pubnub.php:54-55 | "0" when the secret key is falsy, otherwise md5 of the string to sign |
| `PubnubClient.PublishCall` | application/libraries/Pubnub.php:34-73 | false exactly on a falsy channel or message; the too-long array exactly when the serialised message exceeds 1800 bytes; otherwise one request `[publish, pub-key, sub-key, signature, channel, '0', message]` (1800 bytes is sent) |
| `PubnubClient.Publish` | application/libraries/Pubnub.php:34-73 | no URL is fetched on a falsy input or an oversized message; otherwise exactly one, the publish URL, and its response is returned |
| `PubnubClient.PublishUrlSegments` | application/libraries/Pubnub.php:64-72 | a publish URL splits after the origin into seven pieces; the channel (its segment text, empty for an array) and the message decode back whole |
| `PubnubClient.ArrayChannelSentEmpty` | application/libraries/Pubnub.php:46-72 | a publish on a non-empty array channel signs the string with "Array" but sends an empty channel segment |
| `PubnubClient.HistoryLimit` | application/libraries/Pubnub.php:145 | a missing or zero limit becomes 10, any other integer is kept; the result is never 0 |
| `PubnubClient.HistoryCall` | application/libraries/Pubnub.php:143-162 | false exactly on a falsy channel, otherwise one request `[history, sub-key, channel, '0', limit]` |
| `PubnubClient.History` | application/libraries/Pubnub.php:143-162 | no URL is fetched on a falsy channel; otherwise exactly the history URL, and its response is returned |
| `PubnubClient.HistoryUrlLimit` | application/libraries/Pubnub.php:154-161 | the history URL has five pieces and the last is the limit's digits, unescaped |
| `PubnubClient.Perform` | application/libraries/Pubnub.php:63-72 | an early result fetches nothing; a send fetches exactly the URL of its segments and returns what is fetched |
| `PubnubClient.Time` | application/libraries/Pubnub.php:171-179 | exactly one URL, that of `[time, '0']`, is fetched and element 0 of its response is returned |
| `SubscribeLoop.Timetoken` | application/libraries/Pubnub.php:88 | a null (unset) cursor polls with "0", an array cursor with an empty segment, any other cursor with its string form |
| `SubscribeLoop.ListenShape` | application/libraries/Pubnub.php:102-132 | a run ends only stopped or at the model's bound; it issues no event exactly when no poll is allowed; its first event is the poll with the current cursor |
| `SubscribeLoop.DeliverShape` | application/libraries/Pubnub.php:121-127 | a non-empty batch starts with the delivery of its first message; the run ends stopped or at the bound |
| `SubscribeLoop.Subscription` | application/libraries/Pubnub.php:84-111 | a falsy channel, then a missing callback, ends the call before any request; otherwise the first request is `[subscribe, sub-key, channel, '0', timetoken or "0"]` |
| `SubscribeLoop.DispatchBatch` | application/libraries/Pubnub.php:122-124 | the `foreach`'s events and its ending (stop, or continue with the calls made) agree with `Deliver` |
| `SubscribeLoop.PollOnce` | application/libraries/Pubnub.php:102-132 | one request and what follows it: a stopped run is exactly its events, otherwise its events followed by the run from the new cursor and call count |
| `SubscribeLoop.Poll` | application/libraries/Pubnub.php:102-132 | the loop over the cursor yields exactly the run of the recursive specification from the supplied timetoken |
| `SubscribeLoop.Subscribe` | application/libraries/Pubnub.php:84-133 | the two checks and then the loop yield exactly the run of the recursive specification |
| `SubscribeProperties.PlannedPollAt` | application/libraries/Pubnub.php:105-114 | the k-th planned poll uses the cursor left by the first k outcomes: `response[1]` of each response, unchanged across an exception |
| `SubscribeProperties.ListenPolls` | application/libraries/Pubnub.php:102-132 | the requests of a run are a prefix of the plan, at most the fuel, and all the plan allows unless the callback stopped the run |
| `SubscribeProperties.DeliverPolls` | application/libraries/Pubnub.php:121-127 | the same for a run that begins inside a batch |
| `SubscribeProperties.SubscriptionPolls` | application/libraries/Pubnub.php:84-118 | a refused call issues no request; an accepted one issues a prefix of the plan starting from the supplied timetoken |
| `SubscribeProperties.DeliverAccepted` | application/libraries/Pubnub.php:121-127 | a fully accepted batch is delivered whole, one message at a time in array order, then the loop polls again |
| `SubscribeProperties.DeliverStops` | application/libraries/Pubnub.php:122-123 | the first falsy callback result at message j ends the call: messages 0..j delivered in order, nothing after |
| `SubscribeProperties.DeliverThrows` | application/libraries/Pubnub.php:122-131 | a callback exception at message j: messages 0..j delivered, one sleep, then a poll with the cursor already taken |
| `SubscribeProperties.ListenStops` | application/libraries/Pubnub.php:121-123 | a stopped run ends with the delivery of a message, and the callback refused it on the call that delivered it: the last call of the run, numbered from the calls made before |
| `SubscribeProperties.DeliverStopsAt` | application/libraries/Pubnub.php:121-123 | the same for a run that begins inside a batch |
| `SubscribeProperties.NeverStops` | application/libraries/Pubnub.php:102-132 | a callback that never returns falsy never stops the loop |
| `SubscribeProperties.ListenSleepsRetry` | application/libraries/Pubnub.php:129-132 | every sleep follows a poll or callback call (never another sleep) and is followed by a new poll when the run goes on |
| `SubscribeProperties.DeliverSleepsRetry` | application/libraries/Pubnub.php:129-132 | the same for a run that begins inside a batch |
| `SubscribeProperties.ListenQuiet` | application/libraries/Pubnub.php:116-119 | with no exception anywhere, a run never sleeps; an empty or failed poll is followed by the next poll at once |
| `SubscribeProperties.DeliverQuiet` | application/libraries/Pubnub.php:121-127 | the same for a run that begins inside a batch |
| `SubscribeProperties.EmptyBatchThenTwoMessages` | application/libraries/Pubnub.php:113-127 | from an unset cursor, an empty batch with cursor t1 then an accepted batch [a, b] with cursor t2: the events begin poll("0"), poll(t1), a, b, and the run goes on from t2 after two calls |
| `SubscribeProperties.StopOnFirstMessage` | application/libraries/Pubnub.php:123 | a callback refusing "a" stops before "b" is dispatched and before any further poll |
| `SubscribeProperties.FailedFetchRestartsFromZero` | application/libraries/Pubnub.php:113-118 | after a failed fetch the next poll comes at once, with cursor "0" |
| `SubscribeProperties.RaisedRetriesSameCursor` | application/libraries/Pubnub.php:129-132 | an exception during a poll sleeps once and retries with the same cursor |

## Left out

- Configuration loading through CodeIgniter (`get_instance`, `load->config`) in the constructor. It is framework plumbing; the settings are an immutable `Settings` record and the 1800-byte limit is a constant, as the constructor hard-codes it.
- The HTTP fetch (`file_get_contents`, stream context, 200 s timeout). This is network I/O; it is the abstract `fetch` parameter, or a scripted outcome in `subscribe`.
- The internals of `json_encode`, `json_decode` and `md5`. These are foreign functions, passed as parameters. A `json_encode` that fails and returns false is not modelled; the serialiser always yields bytes.
- `echo` diagnostics. These are output only. `sleep(1)` is recorded as a `Slept` event, not as a delay.
- Termination of `subscribe`. By design it loops until the callback stops it, so runs are bounded by `fuel` and by the script length. `Exhausted` marks that bound; it is not an ending of the source.
- Floats, JSON objects (string-keyed arrays) and 64-bit integer overflow. The value model has null, booleans, unbounded integers, byte strings and list arrays.
- PHP 8 behaviour of `count(null)` and of `str_split` on arrays, which raise errors there. The model follows PHP 5/7. The warnings PHP 5/7 prints for an array segment are output only and are left out.
- A `history` limit that is not an integer (for example, a numeric string). The limit is an optional integer.
- The truthiness of the callback value itself. A missing callback is `None` and any supplied callable is truthy.
- The visibility of `time`, which is private in the source. The model exposes its behaviour.
