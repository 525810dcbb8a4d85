# neoici: lookup, cache and rendering core

This project models the core of the `neoici` Neovim plugin. The plugin looks up an
English word in the iciba online dictionary and renders the entry as Markdown-like
lines in a buffer. It plays the first pronunciation clip it finds.

The model covers these parts of `rplugin/python3/neoici.py`:

- **Lookup policy** (`NeoIci.fetch`), in module `NeoIci`. The local cache service is
  asked first, and a hit is returned unchanged. On a miss, the JSON and XML dictionary
  requests are issued. If the JSON lookup fails, nothing is returned. Otherwise the XML
  example sentences replace the JSON record's empty `sent`. The merged record is then
  written back to the cache. `Fetch` states this policy over the three already-joined
  results. `FetchWord` composes it with the concrete fetchers over a `World` of
  parameters: validator, HTTP GET, unpickle, JSON decode and XML decode.
- **Fetch gate** (`URLFetcher._fetcher` / `_valid`, `MP3Fetcher._valid`), in module
  `Fetchers`. No request is sent unless the URL validates, and for audio unless it also
  ends in `mp3`. Only a status 200 reply is handed to the parser. Every exception
  yields no result. `Fetched.requested` records whether a request left the plugin at all.
- **Record shaping** (`JSONICIFetcher._parser`, `XMLICIFetcher._parser`), in module
  `Fetchers`. The JSON parser drops payloads without `word_name`. It attaches the three
  audio downloads to every symbol and empties `sent`. The XML parser keeps only the
  `sent` list. Both parsers are imperative loops (`JsonParse`, `XmlParse`), proved equal
  to the value-level specifications `JsonShaped` and `XmlShaped`.
- **Cache write-back** (`LDBPusher._pusher`), in module `NeoIci`: a record gives a PUT
  of that record under the word, and no record gives a DELETE. The cache service
  is modelled as a map (`Serve`, `Read`).
- **Rendering** (`NeoIciPlugin.parse`), in modules `Render` and `RenderProperties`.
  It produces the heading, the exchange block with its Chinese labels, a phonetic
  line for each symbol with a truthy spelling (a mute icon after every shown spelling
  whose audio arrived), the parts
  of speech with their meanings, and the example sentences. `Render` is the imperative
  loop, proved equal to the line specification `RenderLines`. Its second result is the
  clip list that is played, proved to hold at most one clip, the first audible one.

Python dictionaries become datatypes whose fields are `Option`s: a missing key is
`None`. Python truthiness of a string or a byte buffer is `Truthy` / `HasBytes`.
`dict.update` is `Records.Update`.

With a single `<sent>` element, `xmltodict` yields a mapping rather than a list.
Iterating it gives its key strings, `dict('orig')` raises, and the whole XML result is
dropped, so the JSON record keeps `sent == []`. `SentNode.Single` therefore parses to
`None`. `NeoIci.TestScenario` proves both outcomes for the word `test`: a single
sentence is lost, a list of one sentence is merged.

## Model

| member | source | states |
|---|---|---|
| Records.Update | rplugin/python3/neoici.py:193 | merging a sentences-only XML record overrides exactly `sent`; every other field of the JSON record is kept |
| Fetchers.RunFetcher | rplugin/python3/neoici.py:58-69 | a request is sent iff the URL is valid; a result exists only after a valid URL got a status 200 reply; that result is the parser's output on the body |
| Fetchers.FetchMp3 | rplugin/python3/neoici.py:79-80 | audio is requested iff the URL is present, valid and ends in `mp3`; audio arrives iff additionally the reply is 200, and then it is the reply body |
| Fetchers.WavRejected | rplugin/python3/neoici.py:79-80 | a `.wav` URL is never requested and yields no audio |
| Fetchers.WithAudio | rplugin/python3/neoici.py:146-154 | attaching audio changes only the three data slots; each slot holds the result of the audio fetch of its URL, so it is filled only when its URL is present and ends in `mp3`, and then with the reply body |
| Fetchers.JsonShaped | rplugin/python3/neoici.py:141-158 | a payload is accepted iff it has `word_name`; word name and exchange are kept, `sent` becomes empty, and each symbol is the same symbol with its audio attached, in order |
| Fetchers.JsonParse | rplugin/python3/neoici.py:141-158 | the two-pass loop (start all downloads, then join them) computes exactly `JsonShaped` |
| Fetchers.XmlShaped | rplugin/python3/neoici.py:165-172 | a result exists iff the document has a list of sentences; it then holds only `sent`, equal to those sentences in order |
| Fetchers.XmlParse | rplugin/python3/neoici.py:165-172 | the appending loop computes exactly `XmlShaped` |
| NeoIci.PushRequest | rplugin/python3/neoici.py:92-96 | the write-back targets the given word; it is a PUT of the record iff there is a record, and a DELETE otherwise |
| NeoIci.Serve | rplugin/python3/neoici.py:92-96 | after a PUT the cache maps the word to the record; after a DELETE the word is absent; other words are unchanged |
| NeoIci.Fetch | rplugin/python3/neoici.py:179-196 | a cache hit is returned as is, without consulting the dictionary or writing back; on a miss a failed JSON lookup gives nothing; a JSON record is merged with the XML record when there is one; a write-back of the returned record happens iff the cache missed and a record is returned |
| NeoIci.MergeSources | rplugin/python3/neoici.py:187-193 | on a miss the lookup succeeds iff the JSON payload has a word name; the returned record then has the JSON word name, symbols and exchange, and the XML sentences when the XML document held a list, none otherwise |
| NeoIci.FetchTwice | rplugin/python3/neoici.py:179-196 | once a miss was written back, looking the word up again is a cache hit that returns the same record and sends no dictionary request |
| NeoIci.CacheFetch | rplugin/python3/neoici.py:100-107 | the cache lookup asks the cache service for the word; it is sent iff the cache URL validates, and hits iff the reply is 200 and its body unpickles, the record being the unpickled body |
| NeoIci.DictRequest | rplugin/python3/neoici.py:110-123 | a dictionary request goes to the API URL with the API key, the response type and the word as query parameters |
| NeoIci.JsonPayload | rplugin/python3/neoici.py:141-158 | a JSON body gives a record iff it decodes to a payload with `word_name`; the record is that payload shaped by `JsonShaped`: word name and exchange kept, audio attached to every symbol, empty `sent` |
| NeoIci.JsonFetch | rplugin/python3/neoici.py:128-130 | the JSON lookup sends the `json` dictionary request iff the API URL validates, and succeeds iff the reply is 200 and its body gives a record, which is the result |
| NeoIci.XmlPayload | rplugin/python3/neoici.py:165-172 | an XML body gives a record iff it decodes to a list of sentences; the record then holds only those sentences |
| NeoIci.XmlFetch | rplugin/python3/neoici.py:161-163 | the XML lookup sends the `xml` dictionary request iff the API URL validates, and succeeds iff the reply is 200 and its body gives a record, which is the result |
| NeoIci.FetchWord | rplugin/python3/neoici.py:179-196 | composed with the real fetchers: the dictionary is consulted iff the cache lookup fails; a remote result has the JSON record's word name, exchange and symbols, and the XML sentences or none; a remote lookup succeeds iff the JSON lookup does; a write-back is issued iff a remote lookup returns a record, so a hit writes nothing |
| NeoIci.TestScenario | rplugin/python3/neoici.py:141-196 | for `test` with an empty cache: a single `<sent>` leaves `sent` empty, a list of one sentence puts that sentence into the record; the symbol carries the downloaded audio |
| Render.Render | rplugin/python3/neoici.py:205-290 | the rendering loop produces exactly `RenderLines(r)`, and the clips it plays are `PlayedClips(r)`, at most one |
| Render.GatherExchange | rplugin/python3/neoici.py:219-223 | the exchange loop produces exactly one labelled line per non-empty entry, in order |
| Render.AddSpelling | rplugin/python3/neoici.py:234-243 | one spelling step appends the bracketed label when the spelling is truthy, then the icon when its audio is present; that audio is played only if nothing was played before |
| Render.BuildPhonetic | rplugin/python3/neoici.py:230-275 | the phonetic line of a symbol is `Phonetic(s)`; the played flag becomes set iff some clip was audible so far, and the played clip stays the first audible one |
| Render.AppendSymbols | rplugin/python3/neoici.py:230-283 | the symbol loop appends each symbol's lines in order, and the clips it plays are exactly the first audible clip, or none when no symbol is audible |
| Render.AppendSymbol | rplugin/python3/neoici.py:231-283 | one turn of the symbol loop appends a blank line, the phonetic line when longer than `*`, and the parts; the played clip stays the first audible one |
| Render.AppendSentences | rplugin/python3/neoici.py:285-288 | the sentence loop appends `> orig`, `> trans` and a blank line per sentence, in order |
| Render.AppendParts | rplugin/python3/neoici.py:277-283 | the parts loop appends each part's label when truthy, then each meaning, then a blank line, in order |
| RenderProperties.HeaderFirst | rplugin/python3/neoici.py:217 | the first rendered line is `### ` followed by the word |
| RenderProperties.ExchangeLinesEmpty | rplugin/python3/neoici.py:219-228 | no exchange line is produced iff every exchange entry is empty |
| RenderProperties.ExchangeLinesFrom | rplugin/python3/neoici.py:206-223 | every exchange line is ` * <label>: <forms joined by '; '>` for some non-empty entry, with the label from the fixed table |
| RenderProperties.ExchangeHeading | rplugin/python3/neoici.py:219-228 | the `* exchange:` heading appears in the output iff some exchange entry is non-empty |
| RenderProperties.PhoneticShown | rplugin/python3/neoici.py:233-275 | a symbol's phonetic line is shown iff one of its three spellings is truthy; it then starts with `* US` when the US spelling is truthy, otherwise `* UK` when the UK one is, otherwise `* TTS`, and is never the exchange heading |
| RenderProperties.IconFollowsSpelling | rplugin/python3/neoici.py:234-266 | each shown spelling is followed by the mute icon iff its audio arrived; an absent spelling adds nothing, even when audio exists |
| RenderProperties.StripTtsDrops | rplugin/python3/neoici.py:256-262 | the shown TTS spelling is a suffix of the raw one; the 24-character host prefix is dropped iff the raw value starts with it, and then one comma is dropped iff what remains starts with a comma |
| RenderProperties.WithSentencesShape | rplugin/python3/neoici.py:285-288 | each sentence adds three lines, `> orig`, `> trans` and a blank line, in order, after the earlier lines |
| RenderProperties.SentencesLast | rplugin/python3/neoici.py:285-288 | the example sentences are the last lines of the output, three lines each, in order |
| RenderProperties.SymbolAudible | rplugin/python3/neoici.py:234-272 | a symbol contributes an audible clip iff some truthy spelling has its audio |
| RenderProperties.FirstClip | rplugin/python3/neoici.py:230-272 | the played clip is the first audible one: every earlier symbol and every earlier spelling of its own symbol is silent |
| RenderProperties.PlayedAtMostOnce | rplugin/python3/neoici.py:230-272 | at most one clip is played, and one is played iff some symbol is audible |
| RenderProperties.TestRendered | rplugin/python3/neoici.py:205-290 | the record for `test` with one US spelling, its audio and one meaning renders to the six expected lines and plays that audio |

## Left out

- Threads (`ResultThread`, the daemon `LDBPusher`, the playback threads) are not modelled. Every `start().join()` is the fetcher's value, and the write-back is the `CacheRequest` the lookup emits. Races between lookups and cache writes are not modelled.
- `requests`, `pickle`, `json.loads`, `xmltodict.parse` and `validators.url` are parameters of `World` and `AudioNet`. An exception in any of them is modelled as no result. Pickling is assumed to round-trip, so the cache stores records as values.
- pydub decoding and playback are left out. The model returns the clip bytes that would be handed to the player.
- Render.Render: assumes `AudioSegment.from_file` decodes every clip it is given. When it raises on bytes it cannot decode, `parse` aborts, and that path is not modelled; the two-byte clip of `RenderProperties.TestRendered` is one such input.
- The Neovim command `Ici` (`NeoIciPlugin._ici`) and the plugin registration are left out: they only call `fetch` and `parse`.
- `JSONICIFetcher._mp3_fetcher` and `_is_valid_url` are never called, so they are not modelled.
- The hard-coded cache URL, dictionary URL and API key are fields of `Config`, not constants.
- Payload keys the plugin never reads are not modelled. `dict.update` would carry them along unchanged.
- A key whose JSON value is `null` is not distinguished from a missing key. The code behaves differently in three cases. A `word_name` of `null` is treated as absent, while the code would render `### None`. A `symbols` of `null` makes the JSON parser raise at line 146, so the code's lookup fails while the model returns a record. An `exchange` or `sent` of `null` makes `parse` raise at lines 220 and 285, while the model renders nothing for them.
- Payload values are typed. An exchange value is a list of strings, a sentence always has `orig` and `trans`, and a `sent` that is neither one mapping nor a list is not modelled.
- Render.Render: requires `Renderable`, which covers a word name, known exchange labels, and `parts`/`means` present on every symbol. The code raises `KeyError` or `TypeError` otherwise, and that failure is not modelled.
- Render.Render: its lines are built from Python's `str.format`, modelled as plain string concatenation of the values.
