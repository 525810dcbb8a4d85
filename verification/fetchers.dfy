/**
 * The fetch tasks once each one has been joined: the gate of `URLFetcher`
 * and `MP3Fetcher`, and the response parsers of the JSON and XML dictionary
 * fetchers. Every exception a task swallows becomes `None`.
 */
module Fetchers {
  import opened Wrappers
  import opened Strings
  import opened Records

  /** What `requests.get` gave: an exception, or a response with its status code and body. */
  datatype Response = Raised | Reply(status: int, content: Bytes)

  /** The joined outcome of one fetch task, and whether it sent its request at all. */
  datatype Fetched<R> = Fetched(result: Option<R>, requested: bool)

  /**
   * `URLFetcher._valid`: the URL validator applied to the target. A missing
   * target, on which the validator raises, reads as invalid.
   */
  predicate UrlValid(validUrl: string -> bool, url: Option<string>)
  {
    url.Some? && validUrl(url.value)
  }

  /** `MP3Fetcher._valid`: a valid URL that also ends with `mp3`. */
  predicate Mp3Valid(validUrl: string -> bool, url: Option<string>)
  {
    UrlValid(validUrl, url) && EndsWith(url.value, "mp3")
  }

  /**
   * `URLFetcher._fetcher`: an invalid target gives no result and sends no
   * request; otherwise the request is sent, and only a status of 200 lets the
   * body reach the parser. `parse` is the subclass's `_parser`, with an
   * exception inside it read as `None`.
   */
  function RunFetcher<R>(valid: bool, response: Response, parse: Bytes -> Option<R>): (f: Fetched<R>)
    ensures f.requested == valid
    ensures f.result.Some? ==> valid && response.Reply? && response.status == 200
    ensures valid && response.Reply? && response.status == 200 ==> f.result == parse(response.content)
  {
    if !valid then Fetched(None, false)
    else
      match response
      case Raised => Fetched(None, true)
      case Reply(status, content) =>
        if status != 200 then Fetched(None, true) else Fetched(parse(content), true)
  }

  /** Where audio requests go: the URL validator, and what `requests.get(url)` gives for each URL. */
  datatype AudioNet = AudioNet(validUrl: string -> bool, get: string -> Response)

  /**
   * `MP3Fetcher(url).start().join()`: the raw body of a 200 response for a
   * valid URL ending in `mp3`, and no request at all for any other URL.
   */
  function FetchMp3(net: AudioNet, url: Option<string>): (f: Fetched<Bytes>)
    ensures f.requested <==> Mp3Valid(net.validUrl, url)
    ensures f.result.Some? <==>
      Mp3Valid(net.validUrl, url) && net.get(url.value).Reply? && net.get(url.value).status == 200
    ensures f.result.Some? ==> url.Some? && f.result.value == net.get(url.value).content
  {
    var response := if url.Some? then net.get(url.value) else Raised;
    RunFetcher(Mp3Valid(net.validUrl, url), response, (c: Bytes) => Some(c))
  }

  /** The three audio fetch tasks the JSON parser starts for one symbol, in the order am, en, tts. */
  function AudioTasks(s: Symbol, net: AudioNet): (Fetched<Bytes>, Fetched<Bytes>, Fetched<Bytes>)
  {
    (FetchMp3(net, s.phAmMp3), FetchMp3(net, s.phEnMp3), FetchMp3(net, s.phTtsMp3))
  }

  /**
   * One symbol after both loops of the JSON parser: each audio-data slot holds
   * the joined result of the audio fetch of the matching URL, and nothing else
   * about the symbol changes.
   */
  function WithAudio(s: Symbol, net: AudioNet): (t: Symbol)
    ensures t.(phAmMp3Data := s.phAmMp3Data, phEnMp3Data := s.phEnMp3Data, phTtsMp3Data := s.phTtsMp3Data) == s
    ensures t.phAmMp3Data.Some? ==> s.phAmMp3.Some? && EndsWith(s.phAmMp3.value, "mp3")
    ensures t.phEnMp3Data.Some? ==> s.phEnMp3.Some? && EndsWith(s.phEnMp3.value, "mp3")
    ensures t.phTtsMp3Data.Some? ==> s.phTtsMp3.Some? && EndsWith(s.phTtsMp3.value, "mp3")
    ensures t.phAmMp3Data == FetchMp3(net, s.phAmMp3).result
    ensures t.phEnMp3Data == FetchMp3(net, s.phEnMp3).result
    ensures t.phTtsMp3Data == FetchMp3(net, s.phTtsMp3).result
  {
    var tasks := AudioTasks(s, net);
    s.(phAmMp3Data := tasks.0.result, phEnMp3Data := tasks.1.result, phTtsMp3Data := tasks.2.result)
  }

  /**
   * `JSONICIFetcher._parser` on the decoded payload: no `word_name` gives no
   * record; otherwise every symbol, in order, gets its three audio slots,
   * `sent` becomes empty, and word name and exchange are kept.
   */
  function JsonShaped(data: Record, net: AudioNet): (r: Option<Record>)
    ensures r.Some? <==> data.wordName.Some?
    ensures r.Some? ==>
      r.value.wordName == data.wordName && r.value.exchange == data.exchange && r.value.sent == Some([])
    ensures r.Some? ==> (r.value.symbols.Some? <==> data.symbols.Some?)
    ensures r.Some? && data.symbols.Some? ==>
      |r.value.symbols.value| == |data.symbols.value| &&
      forall i :: 0 <= i < |data.symbols.value| ==> r.value.symbols.value[i] == WithAudio(data.symbols.value[i], net)
  {
    if data.wordName.None? then None
    else
      var symbols :=
        match data.symbols
        case None => None
        case Some(ss) => Some(seq(|ss|, i requires 0 <= i < |ss| => WithAudio(ss[i], net)));
      Some(data.(symbols := symbols, sent := Some([])))
  }

  /**
   * The parser's own steps: a first loop starts the three audio tasks of every
   * symbol, a second loop joins them into the symbol's slots, then `sent` is
   * overwritten.
   */
  method JsonParse(data: Record, net: AudioNet) returns (r: Option<Record>)
    ensures r == JsonShaped(data, net)
  {
    if data.wordName.None? {
      return None;
    }
    var symbols := data.symbols.GetOr([]);
    var pending: seq<(Fetched<Bytes>, Fetched<Bytes>, Fetched<Bytes>)> := [];
    var i := 0;
    while i < |symbols|
      invariant 0 <= i <= |symbols|
      invariant |pending| == i
      invariant forall k :: 0 <= k < i ==> pending[k] == AudioTasks(symbols[k], net)
    {
      pending := pending + [AudioTasks(symbols[i], net)];
      i := i + 1;
    }
    var joined := symbols;
    i := 0;
    while i < |joined|
      invariant 0 <= i <= |joined| == |symbols|
      invariant forall k :: 0 <= k < i ==> joined[k] == WithAudio(symbols[k], net)
      invariant forall k :: i <= k < |joined| ==> joined[k] == symbols[k]
    {
      var s := joined[i];
      joined := joined[i := s.(phAmMp3Data := pending[i].0.result,
                               phEnMp3Data := pending[i].1.result,
                               phTtsMp3Data := pending[i].2.result)];
      i := i + 1;
    }
    assert data.symbols.Some? ==>
      joined == seq(|symbols|, k requires 0 <= k < |symbols| => WithAudio(symbols[k], net));
    var updated := if data.symbols.Some? then data.(symbols := Some(joined)) else data;
    r := Some(updated.(sent := Some([])));
  }

  /**
   * `xmltodict.parse(content)['dict']['sent']`: the path is missing, there was
   * exactly one `<sent>` (xmltodict then gives that node itself, not a list),
   * or there were several.
   */
  datatype SentNode = Missing | Single(one: Sentence) | Many(items: seq<Sentence>)

  /**
   * `XMLICIFetcher._parser` on the decoded document: a record whose only key
   * is `sent`, holding the sentences in document order. A missing path raises
   * `KeyError`; a single node raises too, because iterating it yields its key
   * strings and `dict('orig')` refuses them; both read as `None`.
   */
  function XmlShaped(doc: SentNode): (r: Option<Record>)
    ensures r.Some? <==> doc.Many?
    ensures r.Some? ==> SentOnly(r.value) && r.value.sent == Some(doc.items)
  {
    match doc
    case Missing => None
    case Single(_) => None
    case Many(items) => Some(Record(None, None, None, Some(items)))
  }

  /** The parser's own loop, appending each sentence node to `ret['sent']`. */
  method XmlParse(doc: SentNode) returns (r: Option<Record>)
    ensures r == XmlShaped(doc)
  {
    match doc
    case Missing =>
      r := None;
    case Single(_) =>
      r := None;
    case Many(items) =>
      var sent: seq<Sentence> := [];
      for i := 0 to |items|
        invariant sent == items[..i]
      {
        sent := sent + [items[i]];
      }
      assert items[..|items|] == items;
      r := Some(Record(None, None, None, Some(sent)));
  }

  /** An audio URL ending in `wav` is refused before any request, whatever the validator says. */
  lemma WavRejected(net: AudioNet)
    ensures FetchMp3(net, Some("http://x/a.wav")) == Fetched(None, false)
  {
  }
}
