/** URL assembly in `_request`: every segment is encoded, the unencoded
    server origin is put in front, and the parts are joined with `/`. The
    HTTP fetch and the JSON decoding of its body are one abstract function
    from the URL to the decoded value. */
module RequestExecutor {
  import opened PhpValues
  import opened PathEncoder

  /** `implode('/', parts)`. */
  function Join(parts: seq<Bytes>): Bytes {
    if parts == [] then []
    else if |parts| == 1 then parts[0]
    else parts[0] + "/" + Join(parts[1..])
  }

  /** `explode('/', s)`: the pieces between separators, at least one. */
  function Split(s: Bytes): (pieces: seq<Bytes>)
    ensures |pieces| > 0
  {
    if s == [] then [[]]
    else
      var rest := Split(s[1..]);
      if s[0] == '/' then [[]] + rest else [[s[0]] + rest[0]] + rest[1..]
  }

  /** `array_map('Pubnub::_encode', $request)`. */
  function EncodeAll(segments: seq<Bytes>): (encoded: seq<Bytes>)
    ensures |encoded| == |segments|
    ensures forall i :: 0 <= i < |segments| ==> encoded[i] == Encode(segments[i])
  {
    if segments == [] then [] else [Encode(segments[0])] + EncodeAll(segments[1..])
  }

  /** Decoding each piece, as a server reading the path would. */
  function DecodeAll(pieces: seq<Bytes>): (decoded: seq<Bytes>)
    ensures |decoded| == |pieces|
    ensures forall i :: 0 <= i < |pieces| ==> decoded[i] == PercentDecode(pieces[i])
  {
    if pieces == [] then [] else [PercentDecode(pieces[0])] + DecodeAll(pieces[1..])
  }

  /** The URL `_request` fetches for a list of raw segments. The part after
      the origin and its `/` splits back into exactly the encoded segments,
      in order, and decoding those gives back the raw segments. */
  function Url(server: Bytes, segments: seq<Bytes>): (url: Bytes)
    ensures segments == [] ==> url == server
    ensures segments != [] ==>
      && |url| > |server| && url[..|server|] == server && url[|server|] == '/'
      && Split(url[|server| + 1..]) == EncodeAll(segments)
      && DecodeAll(Split(url[|server| + 1..])) == segments
  {
    var parts := [server] + EncodeAll(segments);
    var url := Join(parts);
    if segments != [] then
      var encoded := EncodeAll(segments);
      assert parts[1..] == encoded;
      assert url == server + "/" + Join(encoded);
      assert url[|server| + 1..] == Join(encoded);
      forall i | 0 <= i < |encoded| ensures '/' !in encoded[i] {
        EncodeSafe(segments[i]);
      }
      SplitJoin(encoded);
      DecodeEncodeAll(segments);
      url
    else
      url
  }

  /** `_request`: encode the segments, put the server in front with
      `array_unshift`, join with `/`, and fetch and decode that URL. */
  method Request(server: Bytes, segments: seq<Bytes>, fetch: Bytes -> Value)
    returns (response: Value, url: Bytes)
    ensures url == Url(server, segments)
    ensures response == fetch(url)
  {
    var request := EncodeAll(segments);
    request := [server] + request;
    url := Join(request);
    response := fetch(url);
  }

  /** A piece without `/` is one piece of its own. */
  lemma {:induction false} SplitPlain(a: Bytes)
    requires '/' !in a
    ensures Split(a) == [a]
  {
    if a != [] {
      SplitPlain(a[1..]);
      assert [a[0]] + a[1..] == a;
    }
  }

  /** Splitting at the first `/` of `a + "/" + b` when `a` has none. */
  lemma {:induction false} SplitAtSlash(a: Bytes, b: Bytes)
    requires '/' !in a
    ensures Split(a + "/" + b) == [a] + Split(b)
  {
    if a == [] {
      assert a + "/" + b == "/" + b;
      assert ("/" + b)[1..] == b;
    } else {
      var s := a + "/" + b;
      assert s[0] == a[0] && s[1..] == a[1..] + "/" + b;
      SplitAtSlash(a[1..], b);
      assert [a[0]] + a[1..] == a;
    }
  }

  /** `explode` undoes `implode` when no part contains the separator. */
  lemma {:induction false} SplitJoin(parts: seq<Bytes>)
    requires |parts| > 0
    requires forall i :: 0 <= i < |parts| ==> '/' !in parts[i]
    ensures Split(Join(parts)) == parts
  {
    if |parts| == 1 {
      SplitPlain(parts[0]);
    } else {
      SplitJoin(parts[1..]);
      SplitAtSlash(parts[0], Join(parts[1..]));
      assert [parts[0]] + parts[1..] == parts;
    }
  }

  lemma DecodeEncodeAll(segments: seq<Bytes>)
    ensures DecodeAll(EncodeAll(segments)) == segments
  {
    forall i | 0 <= i < |segments| ensures PercentDecode(Encode(segments[i])) == segments[i] {
      DecodeEncode(segments[i]);
    }
  }
}
