/** The one-shot operations of the `Pubnub` class: `publish`, `history` and
    `time`. Each first decides, without any I/O, whether it returns at once
    or which single segment list it sends; the methods then perform that
    decision through `_request`. */
module PubnubClient {
  import opened PhpValues
  import opened PathEncoder
  import opened RequestExecutor

  /** The settings the constructor reads from the configuration; they never
      change afterwards. A missing configuration item reads as "". */
  datatype Settings = Settings(origin: Bytes, pubKey: Bytes, subKey: Bytes, secretKey: Bytes) {
    /** `'http://' . pubnub_origin`, the first, unencoded, part of every URL. */
    function Server(): Bytes {
      "http://" + origin
    }
  }

  /** The size limit `publish` puts on the serialised message, in bytes. */
  const MessageLimit: nat := 1800

  /** The foreign functions the class calls: PHP's `json_encode` and `md5`. */
  datatype Foreign = Foreign(jsonEncode: Value -> Bytes, md5: Bytes -> Bytes)

  /** What an operation does: return a value without any request, or send
      exactly one request with these raw segments. */
  datatype Call = Early(result: Value) | Send(segments: seq<Bytes>)

  /** The array `publish` returns for an oversized message. */
  const TooLong: Value := Arr([Int(0), Str("Message Too Long.")])

  /** The string `publish` signs: the three keys, the channel and the
      serialised message joined with `/`, in that order. */
  function StringToSign(cfg: Settings, channel: Bytes, message: Bytes): (r: Bytes)
    ensures
      var fields := [cfg.pubKey, cfg.subKey, cfg.secretKey, channel, message];
      (forall i :: 0 <= i < 5 ==> '/' !in fields[i]) ==> Split(r) == fields
  {
    var fields := [cfg.pubKey, cfg.subKey, cfg.secretKey, channel, message];
    if forall i :: 0 <= i < 5 ==> '/' !in fields[i] then
      SplitJoin(fields);
      Join(fields)
    else
      Join(fields)
  }

  /** The publish signature: the literal "0" exactly when the secret key is
      falsy (empty or "0"); otherwise the md5 of the string to sign. */
  function Signature(cfg: Settings, md5: Bytes -> Bytes, channel: Bytes, message: Bytes): (sig: Bytes)
    ensures Falsy(Str(cfg.secretKey)) ==> sig == "0"
    ensures !Falsy(Str(cfg.secretKey)) ==> sig == md5(StringToSign(cfg, channel, message))
  {
    if !Falsy(Str(cfg.secretKey)) then md5(StringToSign(cfg, channel, message)) else "0"
  }

  /** The segments of a publish request. */
  function PublishSegments(cfg: Settings, ext: Foreign, channel: Value, message: Value): seq<Bytes> {
    var json := ext.jsonEncode(message);
    ["publish", cfg.pubKey, cfg.subKey, Signature(cfg, ext.md5, ToStr(channel), json), SegmentText(channel), "0", json]
  }

  /** `publish`: false on a falsy channel or message, the too-long array
      when the serialised message exceeds the limit, and otherwise one
      request. A message of exactly the limit is sent. */
  function PublishCall(cfg: Settings, ext: Foreign, channel: Value, message: Value): (c: Call)
    ensures c == Early(Bool(false)) <==> Falsy(channel) || Falsy(message)
    ensures c == Early(TooLong) <==>
      !Falsy(channel) && !Falsy(message) && |ext.jsonEncode(message)| > MessageLimit
    ensures c.Send? <==>
      !Falsy(channel) && !Falsy(message) && |ext.jsonEncode(message)| <= MessageLimit
    ensures c.Send? ==> c.segments == PublishSegments(cfg, ext, channel, message)
  {
    if Falsy(channel) || Falsy(message) then Early(Bool(false))
    else
      var json := ext.jsonEncode(message);
      if |json| > MessageLimit then Early(TooLong)
      else Send(PublishSegments(cfg, ext, channel, message))
  }

  /** The limit `history` asks for: `+$limit ? +$limit : 10`. A missing limit
      or 0 becomes 10; every other integer, negative ones too, is kept. */
  function HistoryLimit(limit: Option<int>): (n: int)
    ensures n != 0
    ensures limit.None? || limit == Some(0) ==> n == 10
    ensures limit.Some? && limit.value != 0 ==> n == limit.value
  {
    match limit
    case None => 10
    case Some(l) => if l != 0 then l else 10
  }

  /** The segments of a history request. */
  function HistorySegments(cfg: Settings, channel: Value, limit: Option<int>): seq<Bytes> {
    ["history", cfg.subKey, SegmentText(channel), "0", Decimal(HistoryLimit(limit))]
  }

  /** `history`: false on a falsy channel, otherwise one request. */
  function HistoryCall(cfg: Settings, channel: Value, limit: Option<int>): (c: Call)
    ensures c == Early(Bool(false)) <==> Falsy(channel)
    ensures c.Send? <==> !Falsy(channel)
    ensures c.Send? ==> c.segments == HistorySegments(cfg, channel, limit)
  {
    if Falsy(channel) then Early(Bool(false))
    else Send(HistorySegments(cfg, channel, limit))
  }

  /** The segments of a `time` request. */
  const TimeSegments: seq<Bytes> := ["time", "0"]

  /** Carry out a decision: an early value issues no request, a send issues
      exactly the one request for its segments and returns its response. */
  method Perform(cfg: Settings, c: Call, fetch: Bytes -> Value) returns (result: Value, sent: seq<Bytes>)
    ensures c.Early? ==> result == c.result && sent == []
    ensures c.Send? ==> sent == [Url(cfg.Server(), c.segments)] && result == fetch(sent[0])
  {
    match c
    case Early(v) =>
      result, sent := v, [];
    case Send(segments) =>
      var url;
      result, url := Request(cfg.Server(), segments, fetch);
      sent := [url];
  }

  method Publish(cfg: Settings, ext: Foreign, fetch: Bytes -> Value, channel: Value, message: Value)
    returns (result: Value, sent: seq<Bytes>)
    ensures Falsy(channel) || Falsy(message) ==> result == Bool(false) && sent == []
    ensures !Falsy(channel) && !Falsy(message) && |ext.jsonEncode(message)| > MessageLimit ==>
      result == TooLong && sent == []
    ensures !Falsy(channel) && !Falsy(message) && |ext.jsonEncode(message)| <= MessageLimit ==>
      && sent == [Url(cfg.Server(), PublishSegments(cfg, ext, channel, message))]
      && result == fetch(sent[0])
  {
    result, sent := Perform(cfg, PublishCall(cfg, ext, channel, message), fetch);
  }

  method History(cfg: Settings, fetch: Bytes -> Value, channel: Value, limit: Option<int>)
    returns (result: Value, sent: seq<Bytes>)
    ensures Falsy(channel) ==> result == Bool(false) && sent == []
    ensures !Falsy(channel) ==>
      && sent == [Url(cfg.Server(), HistorySegments(cfg, channel, limit))]
      && result == fetch(sent[0])
  {
    result, sent := Perform(cfg, HistoryCall(cfg, channel, limit), fetch);
  }

  /** `time`: one request, of which the first element is returned. */
  method Time(cfg: Settings, fetch: Bytes -> Value) returns (result: Value, sent: seq<Bytes>)
    ensures sent == [Url(cfg.Server(), TimeSegments)]
    ensures result == Index(fetch(sent[0]), 0)
  {
    var response;
    response, sent := Perform(cfg, Send(TimeSegments), fetch);
    result := Index(response, 0);
  }

  /** The URL of a publish request reads back, after the origin, as exactly
      seven segments; the channel and the serialised message come back
      whole, so a `/` inside them is never taken for a separator. An array
      channel is signed as "Array" but sent as an empty segment. */
  lemma PublishUrlSegments(cfg: Settings, ext: Foreign, channel: Value, message: Value)
    ensures
      var server := cfg.Server();
      var url := Url(server, PublishSegments(cfg, ext, channel, message));
      var pieces := Split(url[|server| + 1..]);
      && |pieces| == 7
      && PercentDecode(pieces[4]) == SegmentText(channel)
      && PercentDecode(pieces[6]) == ext.jsonEncode(message)
      && pieces[0] == "publish" && pieces[5] == "0"
  {
    var segments := PublishSegments(cfg, ext, channel, message);
    var url := Url(cfg.Server(), segments);
    var pieces := EncodeAll(segments);
    assert Split(url[|cfg.Server()| + 1..]) == pieces;
    assert PercentDecode(pieces[4]) == segments[4] by {
      assert DecodeAll(pieces)[4] == segments[4];
    }
    assert PercentDecode(pieces[6]) == segments[6] by {
      assert DecodeAll(pieces)[6] == segments[6];
    }
    PlainWords();
  }

  /** A non-empty array as the channel: the string to sign holds "Array",
      but the channel segment of the request is empty. */
  lemma ArrayChannelSentEmpty(cfg: Settings, ext: Foreign, elems: seq<Value>, message: Value)
    requires elems != [] && !Falsy(message) && |ext.jsonEncode(message)| <= MessageLimit
    ensures var c := PublishCall(cfg, ext, Arr(elems), message);
      && c.Send?
      && c.segments[4] == ""
      && c.segments[3] == Signature(cfg, ext.md5, "Array", ext.jsonEncode(message))
  {
  }

  /** The history limit is sent as its decimal digits, unescaped. */
  lemma HistoryUrlLimit(cfg: Settings, channel: Value, limit: Option<int>)
    ensures
      var server := cfg.Server();
      var url := Url(server, HistorySegments(cfg, channel, limit));
      var pieces := Split(url[|server| + 1..]);
      |pieces| == 5 && pieces[4] == Decimal(HistoryLimit(limit))
  {
    EncodeDecimal(HistoryLimit(limit));
  }
}
