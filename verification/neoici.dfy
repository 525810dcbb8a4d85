/**
 * The lookup policy of `NeoIci.fetch` and the cache write it leaves behind
 * (`LDBPusher`). Every fetch task is taken as already joined: its result is
 * a value.
 */
module NeoIci {
  import opened Wrappers
  import opened Records
  import opened Fetchers

  /** What an `LDBPusher` sends to the cache service. */
  datatype CacheRequest = Put(word: string, record: Record) | Delete(word: string)

  /** `LDBPusher._pusher`: a record is written under the word; no record deletes the word. */
  function PushRequest(word: string, data: Option<Record>): (q: CacheRequest)
    ensures q.word == word
    ensures q.Put? <==> data.Some?
    ensures q.Put? ==> q.record == data.value
  {
    match data
    case None => Delete(word)
    case Some(d) => Put(word, d)
  }

  /**
   * What one call of `fetch` produces: the record it returns, whether it
   * started the two dictionary fetches, and the cache request of the
   * `LDBPusher` it started, if any.
   */
  datatype Outcome = Outcome(record: Option<Record>, consulted: bool, push: Option<CacheRequest>)

  /**
   * `NeoIci.fetch` given the joined results of the cache fetch, the JSON
   * dictionary fetch and the XML dictionary fetch. A cache hit is returned as
   * it is; on a miss a failed JSON fetch fails the lookup whatever the XML
   * fetch gave, a failed XML fetch is tolerated, and a successful lookup is
   * written back to the cache exactly once, under the word, with the record
   * returned.
   */
  function Fetch(word: string, cached: Option<Record>, json: Option<Record>, xml: Option<Record>): (o: Outcome)
    ensures cached.Some? ==> o.record == cached && !o.consulted && o.push.None?
    ensures cached.None? ==> o.consulted
    ensures cached.None? && json.None? ==> o.record.None? && o.push.None?
    ensures cached.None? && json.Some? && xml.Some? ==> o.record == Some(Update(json.value, xml.value))
    ensures cached.None? && json.Some? && xml.None? ==> o.record == json
    ensures o.push.Some? <==> cached.None? && o.record.Some?
    ensures o.push.Some? ==> o.push.value == Put(word, o.record.value)
  {
    if cached.Some? then Outcome(cached, false, None)
    else if json.None? then Outcome(None, true, None)
    else
      var data := if xml.Some? then Update(json.value, xml.value) else json.value;
      Outcome(Some(data), true, Some(PushRequest(word, Some(data))))
  }

  /**
   * On a cache miss, with the JSON and XML records coming from their parsers,
   * the lookup succeeds exactly when the JSON payload has a word name; word
   * name, symbols and exchange then come from the JSON record, and `sent` is
   * the XML sentences when the XML parser succeeded and empty otherwise.
   */
  lemma MergeSources(word: string, payload: Record, net: AudioNet, doc: SentNode)
    ensures
      var json := JsonShaped(payload, net);
      var o := Fetch(word, None, json, XmlShaped(doc));
      && (o.record.Some? <==> payload.wordName.Some?)
      && (o.record.Some? ==>
            && o.record.value.wordName == payload.wordName
            && o.record.value.symbols == json.value.symbols
            && o.record.value.exchange == payload.exchange
            && o.record.value.sent == (if doc.Many? then Some(doc.items) else Some([])))
  {
  }

  /** The cache service, keyed by word: PUT upserts, DELETE removes. */
  type Store = map<string, Record>

  function Serve(store: Store, q: CacheRequest): (s: Store)
    ensures q.Put? ==> q.word in s && s[q.word] == q.record
    ensures q.Delete? ==> q.word !in s
    ensures forall w :: w != q.word ==> (w in s <==> w in store)
    ensures forall w :: w != q.word && w in s ==> s[w] == store[w]
  {
    match q
    case Put(word, record) => store[word := record]
    case Delete(word) => store - {word}
  }

  /** A cache read: the stored record, or a miss. */
  function Read(store: Store, word: string): Option<Record>
  {
    if word in store then Some(store[word]) else None
  }

  /**
   * Two lookups of the same word, the second after the first one's cache
   * write has landed: once the first succeeded, the second returns the same
   * record, starts no dictionary fetch and writes nothing.
   */
  lemma FetchTwice(store: Store, word: string, json1: Option<Record>, xml1: Option<Record>,
                   json2: Option<Record>, xml2: Option<Record>)
    ensures
      var o1 := Fetch(word, Read(store, word), json1, xml1);
      var after := if o1.push.Some? then Serve(store, o1.push.value) else store;
      var o2 := Fetch(word, Read(after, word), json2, xml2);
      o1.record.Some? ==> o2.record == o1.record && !o2.consulted && o2.push.None?
  {
  }

  /** One request: a URL and its query parameters. */
  datatype Request = Request(url: string, params: seq<(string, string)>)

  /** The value a server reads for query parameter `name`: its first occurrence. */
  function Param(params: seq<(string, string)>, name: string): Option<string>
  {
    if params == [] then None
    else if params[0].0 == name then Some(params[0].1)
    else Param(params[1..], name)
  }

  /** The addresses and the API key the fetchers use. */
  datatype Config = Config(cacheUrl: string, apiUrl: string, apiKey: string)

  /**
   * The collaborators: the URL validator, the answer to each GET request
   * (`Raised` for a transport failure), and the three decoders
   * (`pickle.loads`, `json.loads`, `xmltodict.parse`), each giving `None`
   * where it would raise.
   */
  datatype World = World(
    validUrl: string -> bool,
    get: Request -> Response,
    unpickle: Bytes -> Option<Record>,
    decodeJson: Bytes -> Option<Record>,
    decodeXml: Bytes -> Option<SentNode>)

  /** Audio clips are plain GETs without parameters. */
  function AudioNetOf(w: World): AudioNet
  {
    AudioNet(w.validUrl, (url: string) => w.get(Request(url, [])))
  }

  /** The request of an `LDBFetcher`: the cache service, asked for the word. */
  function CacheRequestOf(cfg: Config, word: string): Request
  {
    Request(cfg.cacheUrl, [("word", word)])
  }

  /**
   * `LDBFetcher(word)`: a GET on the cache service for the word; a hit is a
   * 200 reply whose body unpickles, and the record is the unpickled body.
   */
  function CacheFetch(w: World, cfg: Config, word: string): (f: Fetched<Record>)
    ensures Param(CacheRequestOf(cfg, word).params, "word") == Some(word)
    ensures f.requested <==> w.validUrl(cfg.cacheUrl)
    ensures var resp := w.get(CacheRequestOf(cfg, word));
      f.result.Some? <==>
        w.validUrl(cfg.cacheUrl) && resp.Reply? && resp.status == 200 && w.unpickle(resp.content).Some?
    ensures var resp := w.get(CacheRequestOf(cfg, word));
      f.result.Some? ==> f.result == w.unpickle(resp.content)
  {
    RunFetcher(UrlValid(w.validUrl, Some(cfg.cacheUrl)), w.get(CacheRequestOf(cfg, word)), w.unpickle)
  }

  /** The request of an `ICIFetcher` of type `t` (`json` or `xml`): the API key, the type and the word. */
  function DictRequest(cfg: Config, word: string, t: string): (q: Request)
    ensures q.url == cfg.apiUrl
    ensures Param(q.params, "key") == Some(cfg.apiKey)
    ensures Param(q.params, "type") == Some(t)
    ensures Param(q.params, "w") == Some(word)
  {
    var params := [("key", cfg.apiKey), ("type", t), ("w", word)];
    assert Param(params[2..], "w") == Some(word);
    Request(cfg.apiUrl, params)
  }

  /**
   * `JSONICIFetcher._parser` on the response body: decode, then shape. A
   * record comes out exactly when the body decodes to a payload with a word
   * name, and its `sent` is then empty.
   */
  function JsonPayload(w: World, content: Bytes): (r: Option<Record>)
    ensures r.Some? <==> w.decodeJson(content).Some? && w.decodeJson(content).value.wordName.Some?
    ensures r.Some? ==> r.value.wordName == w.decodeJson(content).value.wordName && r.value.sent == Some([])
    ensures r.Some? ==> r == JsonShaped(w.decodeJson(content).value, AudioNetOf(w))
  {
    match w.decodeJson(content)
    case None => None
    case Some(data) => JsonShaped(data, AudioNetOf(w))
  }

  /** `JSONICIFetcher(word)`: the `json` dictionary request, its 200 body decoded and shaped. */
  function JsonFetch(w: World, cfg: Config, word: string): (f: Fetched<Record>)
    ensures f.requested <==> w.validUrl(cfg.apiUrl)
    ensures var resp := w.get(DictRequest(cfg, word, "json"));
      f.result.Some? <==>
        w.validUrl(cfg.apiUrl) && resp.Reply? && resp.status == 200 && JsonPayload(w, resp.content).Some?
    ensures var resp := w.get(DictRequest(cfg, word, "json"));
      f.result.Some? ==> f.result == JsonPayload(w, resp.content)
  {
    RunFetcher(UrlValid(w.validUrl, Some(cfg.apiUrl)), w.get(DictRequest(cfg, word, "json")),
               (c: Bytes) => JsonPayload(w, c))
  }

  /**
   * `XMLICIFetcher._parser` on the response body: decode, then shape. A
   * record comes out exactly when the body decodes to a list of sentences,
   * and it then holds only those sentences.
   */
  function XmlPayload(w: World, content: Bytes): (r: Option<Record>)
    ensures r.Some? <==> w.decodeXml(content).Some? && w.decodeXml(content).value.Many?
    ensures r.Some? ==> SentOnly(r.value) && r.value.sent == Some(w.decodeXml(content).value.items)
  {
    match w.decodeXml(content)
    case None => None
    case Some(doc) => XmlShaped(doc)
  }

  /** `XMLICIFetcher(word)`: the `xml` dictionary request, its 200 body decoded and shaped. */
  function XmlFetch(w: World, cfg: Config, word: string): (f: Fetched<Record>)
    ensures f.requested <==> w.validUrl(cfg.apiUrl)
    ensures var resp := w.get(DictRequest(cfg, word, "xml"));
      f.result.Some? <==>
        w.validUrl(cfg.apiUrl) && resp.Reply? && resp.status == 200 && XmlPayload(w, resp.content).Some?
    ensures var resp := w.get(DictRequest(cfg, word, "xml"));
      f.result.Some? ==> f.result == XmlPayload(w, resp.content)
  {
    RunFetcher(UrlValid(w.validUrl, Some(cfg.apiUrl)), w.get(DictRequest(cfg, word, "xml")),
               (c: Bytes) => XmlPayload(w, c))
  }

  /**
   * `NeoIci.fetch(word)` end to end. A hit returns what the cache held; a
   * result obtained remotely always has a word name and a `sent` list, holds
   * exactly the sentences of the XML record when there is one, and is what is
   * written back.
   */
  function FetchWord(w: World, cfg: Config, word: string): (o: Outcome)
    ensures !o.consulted <==> CacheFetch(w, cfg, word).result.Some?
    ensures !o.consulted ==> o.record == CacheFetch(w, cfg, word).result
    ensures o.consulted && o.record.Some? ==>
      && JsonFetch(w, cfg, word).result.Some?
      && o.record.value.wordName.Some?
      && o.record.value.wordName == JsonFetch(w, cfg, word).result.value.wordName
      && o.record.value.exchange == JsonFetch(w, cfg, word).result.value.exchange
      && o.record.value.sent.Some?
      && o.record.value.symbols == JsonFetch(w, cfg, word).result.value.symbols
      && (XmlFetch(w, cfg, word).result.Some? ==> o.record.value.sent == XmlFetch(w, cfg, word).result.value.sent)
      && (XmlFetch(w, cfg, word).result.None? ==> o.record.value.sent == Some([]))
    ensures o.consulted && o.record.Some? ==> o.push == Some(Put(word, o.record.value))
    ensures o.consulted ==> (o.record.Some? <==> JsonFetch(w, cfg, word).result.Some?)
    ensures o.push.Some? <==> o.consulted && o.record.Some?
  {
    Fetch(word, CacheFetch(w, cfg, word).result, JsonFetch(w, cfg, word).result, XmlFetch(w, cfg, word).result)
  }

  /**
   * The word "test" on a cache miss: one symbol with a US spelling and an
   * `mp3` URL whose audio answers two bytes, one part with one meaning, and an
   * XML document with one sentence. The symbol gets the audio bytes; the
   * single `<sent>` node makes the XML parser fail, so `sent` stays empty,
   * whereas a list holding that one sentence would have been merged.
   */
  lemma TestScenario()
    ensures
      var sentence := Sentence("This is a test.", "这是个测试。");
      var symbol := Symbol(Some("tɛst"), None, None, Some("http://x/a.mp3"), None, None,
                           None, None, None, Some([Part(Some("n."), Some(["a trial"]))]));
      var payload := Record(Some("test"), Some([symbol]), None, None);
      var net := AudioNet((u: string) => true,
                          (u: string) => if u == "http://x/a.mp3" then Reply(200, [0xff, 0xfb]) else Raised);
      var heard := symbol.(phAmMp3Data := Some([0xff, 0xfb]));
      && Fetch("test", None, JsonShaped(payload, net), XmlShaped(Single(sentence))).record
           == Some(Record(Some("test"), Some([heard]), None, Some([])))
      && Fetch("test", None, JsonShaped(payload, net), XmlShaped(Many([sentence]))).record
           == Some(Record(Some("test"), Some([heard]), None, Some([sentence])))
  {
    var sentence := Sentence("This is a test.", "这是个测试。");
    var symbol := Symbol(Some("tɛst"), None, None, Some("http://x/a.mp3"), None, None,
                         None, None, None, Some([Part(Some("n."), Some(["a trial"]))]));
    var payload := Record(Some("test"), Some([symbol]), None, None);
    var net := AudioNet((u: string) => true,
                        (u: string) => if u == "http://x/a.mp3" then Reply(200, [0xff, 0xfb]) else Raised);
    var heard := symbol.(phAmMp3Data := Some([0xff, 0xfb]));
    assert "http://x/a.mp3"[|"http://x/a.mp3"| - 3..] == "mp3";
    assert FetchMp3(net, symbol.phAmMp3).result == Some([0xff, 0xfb]);
    assert WithAudio(symbol, net) == heard;
    var json := JsonShaped(payload, net);
    assert json.value.symbols.value == [heard];
  }
}
