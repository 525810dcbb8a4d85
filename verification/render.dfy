/**
 * `NeoIciPlugin.parse`: a record becomes the markdown-like lines shown in the
 * editor, and at most one audio clip is handed to the player. The lines are
 * specified by `RenderLines` and the clips by `PlayedClips`, both written as
 * the source builds them, appending to what is already there; the method
 * `Render` follows the source's loops and is proved to produce both.
 */
module Render {
  import opened Wrappers
  import opened Strings
  import opened Records

  /** `extbl`: the display label of each exchange form code. */
  const EXCHANGE_LABELS: map<string, string> := map[
    "word_pl" := "复数",
    "word_past" := "过去时",
    "word_done" := "完成时",
    "word_ing" := "进行时",
    "word_third" := "第三人称单数",
    "word_er" := "比较级",
    "word_est" := "最高级"]

  const EXCHANGE_HEADING: string := "* exchange:"

  /** The speaker icon appended after a spelling whose audio was fetched. */
  const MUTE: string := "\U{1F507}"

  /** The prefix of TTS phonetic strings that is not shown. */
  const TTS_HOST: string := "http://res-tts.iciba.com"

  /** Every exchange form with a non-empty value has a label; `extbl[k]` raises otherwise. */
  predicate LabelsKnown(ex: seq<(string, seq<string>)>)
  {
    forall i :: 0 <= i < |ex| && ex[i].1 != [] ==> ex[i].0 in EXCHANGE_LABELS
  }

  predicate MeansPresent(ps: seq<Part>)
  {
    forall j :: 0 <= j < |ps| ==> ps[j].means.Some?
  }

  /** `s['parts']` and every `p['means']` exist; the source raises otherwise. */
  predicate SymbolRenderable(s: Symbol)
  {
    s.parts.Some? && MeansPresent(s.parts.value)
  }

  predicate SymbolsRenderable(ss: seq<Symbol>)
  {
    forall i :: 0 <= i < |ss| ==> SymbolRenderable(ss[i])
  }

  /** What `parse` needs to run to its end without raising. */
  predicate Renderable(r: Record)
  {
    && r.wordName.Some?
    && LabelsKnown(r.exchange.GetOr([]))
    && SymbolsRenderable(r.symbols.GetOr([]))
  }

  // ---------------------------------------------------------------- exchange

  function ExchangeLine(code: string, forms: seq<string>): string
    requires code in EXCHANGE_LABELS
  {
    " * " + EXCHANGE_LABELS[code] + ": " + Join("; ", forms)
  }

  /** The exchange lines: one per form code with a non-empty value, in order. */
  function ExchangeLines(ex: seq<(string, seq<string>)>): seq<string>
    requires LabelsKnown(ex)
  {
    if ex == [] then []
    else
      var last := ex[|ex| - 1];
      ExchangeLines(ex[..|ex| - 1]) + (if last.1 != [] then [ExchangeLine(last.0, last.1)] else [])
  }

  /** The header line, then a blank line, the heading and the exchange lines when there are some. */
  function Head(word: string, ex: seq<(string, seq<string>)>): seq<string>
    requires LabelsKnown(ex)
  {
    var exchangeLines := ExchangeLines(ex);
    if exchangeLines == [] then ["### " + word]
    else ["### " + word] + ["", EXCHANGE_HEADING] + exchangeLines
  }

  // ---------------------------------------------------------------- phonetics

  /** `ph_other` as shown: a leading TTS host is dropped (24 characters), then one leading comma. */
  function StripTts(pho: string): string
  {
    var p := if StartsWith(pho, TTS_HOST) then pho[24..] else pho;
    if StartsWith(p, ",") then p[1..] else p
  }

  /**
   * One step of building `ph`: a truthy spelling appends its bracketed label,
   * followed by the speaker icon when its audio data is present.
   */
  function Spelled(ph: string, present: bool, bracketed: string, data: Option<Bytes>): string
  {
    if !present then ph
    else if HasBytes(data) then ph + bracketed + MUTE
    else ph + bracketed
  }

  function UsLabel(s: Symbol): string { " US: [" + s.phAm.GetOr("") + "]" }
  function UkLabel(s: Symbol): string { " UK: [" + s.phEn.GetOr("") + "]" }
  function TtsLabel(s: Symbol): string { " TTS: [" + StripTts(s.phOther.GetOr("")) + "]" }

  /** The phonetic line `ph` of a symbol: `"*"`, then the US, UK and TTS spellings that are truthy. */
  function Phonetic(s: Symbol): string
  {
    var am := Spelled("*", Truthy(s.phAm), UsLabel(s), s.phAmMp3Data);
    var en := Spelled(am, Truthy(s.phEn), UkLabel(s), s.phEnMp3Data);
    Spelled(en, Truthy(s.phOther), TtsLabel(s), s.phTtsMp3Data)
  }

  // ---------------------------------------------------------------- symbols

  /** `acc` followed by one line per meaning. */
  function WithMeans(acc: seq<string>, means: seq<string>): seq<string>
  {
    if means == [] then acc
    else WithMeans(acc, means[..|means| - 1]) + ["  * " + means[|means| - 1]]
  }

  /** `acc` followed by a part: its label when truthy, its meanings, a blank line. */
  function WithPart(acc: seq<string>, p: Part): seq<string>
    requires p.means.Some?
  {
    var labelled := if Truthy(p.part) then acc + [" * " + p.part.value] else acc;
    WithMeans(labelled, p.means.value) + [""]
  }

  function WithParts(acc: seq<string>, ps: seq<Part>): seq<string>
    requires MeansPresent(ps)
  {
    if ps == [] then acc
    else WithPart(WithParts(acc, ps[..|ps| - 1]), ps[|ps| - 1])
  }

  /** `acc` followed by a symbol: a blank line, the phonetic line when longer than `"*"`, its parts. */
  function WithSymbol(acc: seq<string>, s: Symbol): seq<string>
    requires SymbolRenderable(s)
  {
    var ph := Phonetic(s);
    var withPhonetic := if |ph| > 1 then acc + [""] + [ph] else acc + [""];
    WithParts(withPhonetic, s.parts.value)
  }

  function WithSymbols(acc: seq<string>, ss: seq<Symbol>): seq<string>
    requires SymbolsRenderable(ss)
  {
    if ss == [] then acc
    else WithSymbol(WithSymbols(acc, ss[..|ss| - 1]), ss[|ss| - 1])
  }

  // ---------------------------------------------------------------- sentences

  /** `acc` followed by three lines per sentence: the original, the translation, a blank line. */
  function WithSentences(acc: seq<string>, ss: seq<Sentence>): seq<string>
  {
    if ss == [] then acc
    else
      var last := ss[|ss| - 1];
      WithSentences(acc, ss[..|ss| - 1]) + ["> " + last.orig] + ["> " + last.trans] + [""]
  }

  // ---------------------------------------------------------------- the whole

  /** The lines `parse` returns for a record. */
  function RenderLines(r: Record): seq<string>
    requires Renderable(r)
  {
    var head := Head(r.wordName.value, r.exchange.GetOr([]));
    WithSentences(WithSymbols(head, r.symbols.GetOr([])), r.sent.GetOr([]))
  }

  // ---------------------------------------------------------------- playback

  /** One spelling's clip is met when the spelling is truthy and its audio data present. */
  function Met(heard: seq<Bytes>, present: bool, data: Option<Bytes>): seq<Bytes>
  {
    if present && HasBytes(data) then heard + [data.value] else heard
  }

  /** `heard` followed by the clips of one symbol, in the order US, UK, TTS. */
  function HeardIn(heard: seq<Bytes>, s: Symbol): seq<Bytes>
  {
    Met(Met(Met(heard, Truthy(s.phAm), s.phAmMp3Data), Truthy(s.phEn), s.phEnMp3Data),
        Truthy(s.phOther), s.phTtsMp3Data)
  }

  /** Every clip met while rendering the symbols, in order. */
  function AudibleClips(ss: seq<Symbol>): seq<Bytes>
  {
    if ss == [] then []
    else HeardIn(AudibleClips(ss[..|ss| - 1]), ss[|ss| - 1])
  }

  /** What `parse` plays: the first clip it meets, and nothing else. */
  function PlayedClips(r: Record): seq<Bytes>
  {
    var audible := AudibleClips(r.symbols.GetOr([]));
    if audible == [] then [] else [audible[0]]
  }

  // ---------------------------------------------------------------- parse

  /** The first loop of `parse`: one line per exchange form with a non-empty value. */
  method GatherExchange(exchange: seq<(string, seq<string>)>) returns (exchangeLines: seq<string>)
    requires LabelsKnown(exchange)
    ensures exchangeLines == ExchangeLines(exchange)
  {
    exchangeLines := [];
    for i := 0 to |exchange|
      invariant exchangeLines == ExchangeLines(exchange[..i])
    {
      var (code, forms) := exchange[i];
      assert exchange[..i + 1][..i] == exchange[..i];
      if forms != [] {
        exchangeLines := exchangeLines + [ExchangeLine(code, forms)];
      }
    }
    assert exchange[..|exchange|] == exchange;
  }

  /**
   * One spelling step of the symbol loop: a truthy spelling appends its
   * bracketed label, then the speaker icon when its audio data is present,
   * and that audio is played unless a clip was played already. `heard` is
   * the ghost record of every clip met so far; what was played is always its
   * first one.
   */
  method AddSpelling(ph: string, present: bool, bracketed: string, data: Option<Bytes>,
                     played: bool, clips: seq<Bytes>, ghost heard: seq<Bytes>)
    returns (out: string, nowPlayed: bool, nowClips: seq<Bytes>)
    requires played <==> heard != []
    requires clips == if played then [heard[0]] else []
    ensures out == Spelled(ph, present, bracketed, data)
    ensures nowPlayed <==> Met(heard, present, data) != []
    ensures nowClips == if nowPlayed then [Met(heard, present, data)[0]] else []
  {
    out, nowPlayed, nowClips := ph, played, clips;
    if present {
      out := out + bracketed;
      if HasBytes(data) {
        out := out + MUTE;
        if !nowPlayed {
          nowClips := nowClips + [data.value];
          nowPlayed := true;
        }
      }
    }
  }

  /**
   * The part of the symbol loop that builds `ph`: the US, UK and TTS
   * spellings in turn, the TTS one shown through `StripTts`.
   */
  method BuildPhonetic(s: Symbol, played: bool, clips: seq<Bytes>, ghost heard: seq<Bytes>)
    returns (ph: string, nowPlayed: bool, nowClips: seq<Bytes>)
    requires played <==> heard != []
    requires clips == if played then [heard[0]] else []
    ensures ph == Phonetic(s)
    ensures nowPlayed <==> HeardIn(heard, s) != []
    ensures nowClips == if nowPlayed then [HeardIn(heard, s)[0]] else []
  {
    ph, nowPlayed, nowClips := AddSpelling("*", Truthy(s.phAm), UsLabel(s), s.phAmMp3Data, played, clips, heard);
    ghost var met := Met(heard, Truthy(s.phAm), s.phAmMp3Data);
    ph, nowPlayed, nowClips := AddSpelling(ph, Truthy(s.phEn), UkLabel(s), s.phEnMp3Data, nowPlayed, nowClips, met);
    met := Met(met, Truthy(s.phEn), s.phEnMp3Data);
    ph, nowPlayed, nowClips := AddSpelling(ph, Truthy(s.phOther), TtsLabel(s), s.phTtsMp3Data, nowPlayed, nowClips, met);
  }

  /** The loops over a symbol's parts and each part's meanings, appending to `lines`. */
  method AppendParts(lines: seq<string>, parts: seq<Part>) returns (out: seq<string>)
    requires MeansPresent(parts)
    ensures out == WithParts(lines, parts)
  {
    out := lines;
    for j := 0 to |parts|
      invariant out == WithParts(lines, parts[..j])
    {
      var p := parts[j];
      assert parts[..j + 1][..j] == parts[..j];
      if Truthy(p.part) {
        out := out + [" * " + p.part.value];
      }
      ghost var labelled := out;
      var means := p.means.value;
      for m := 0 to |means|
        invariant out == WithMeans(labelled, means[..m])
      {
        assert means[..m + 1][..m] == means[..m];
        out := out + ["  * " + means[m]];
      }
      assert means[..|means|] == means;
      out := out + [""];
    }
    assert parts[..|parts|] == parts;
  }

  /**
   * One turn of the symbol loop: a blank line, the phonetic line when it
   * holds more than `"*"`, then the parts; the played clip stays the first
   * one met, `heard` being the ghost record of every clip met before.
   */
  method AppendSymbol(lines: seq<string>, s: Symbol, played: bool, clips: seq<Bytes>, ghost heard: seq<Bytes>)
    returns (out: seq<string>, nowPlayed: bool, nowClips: seq<Bytes>)
    requires SymbolRenderable(s)
    requires played <==> heard != []
    requires clips == if played then [heard[0]] else []
    ensures out == WithSymbol(lines, s)
    ensures nowPlayed <==> HeardIn(heard, s) != []
    ensures nowClips == if nowPlayed then [HeardIn(heard, s)[0]] else []
  {
    out := lines + [""];
    var ph;
    ph, nowPlayed, nowClips := BuildPhonetic(s, played, clips, heard);
    if |ph| > 1 {
      out := out + [ph];
    }
    out := AppendParts(out, s.parts.value);
  }

  /** The sentence loop: the original, the translation and a blank line per sentence. */
  method AppendSentences(lines: seq<string>, sentences: seq<Sentence>) returns (out: seq<string>)
    ensures out == WithSentences(lines, sentences)
  {
    out := lines;
    for i := 0 to |sentences|
      invariant out == WithSentences(lines, sentences[..i])
    {
      var sentence := sentences[i];
      assert sentences[..i + 1][..i] == sentences[..i];
      out := out + ["> " + sentence.orig];
      out := out + ["> " + sentence.trans];
      out := out + [""];
    }
    assert sentences[..|sentences|] == sentences;
  }

  /** The symbol loop: every symbol in turn, the first clip met being the one played. */
  method AppendSymbols(head: seq<string>, symbols: seq<Symbol>) returns (lines: seq<string>, clips: seq<Bytes>)
    requires SymbolsRenderable(symbols)
    ensures lines == WithSymbols(head, symbols)
    ensures clips == if AudibleClips(symbols) == [] then [] else [AudibleClips(symbols)[0]]
  {
    lines := head;
    var played := false;
    clips := [];
    for i := 0 to |symbols|
      invariant lines == WithSymbols(head, symbols[..i])
      invariant played <==> AudibleClips(symbols[..i]) != []
      invariant clips == if played then [AudibleClips(symbols[..i])[0]] else []
    {
      assert symbols[..i + 1][..i] == symbols[..i];
      lines, played, clips := AppendSymbol(lines, symbols[i], played, clips, AudibleClips(symbols[..i]));
    }
    assert symbols[..|symbols|] == symbols;
  }

  /**
   * `parse`: the header, the exchange lines under their heading, then for
   * each symbol a blank line, its phonetic line and its parts, then three
   * lines per sentence; the clip played is the first one met.
   */
  method Render(r: Record) returns (lines: seq<string>, clips: seq<Bytes>)
    requires Renderable(r)
    ensures lines == RenderLines(r)
    ensures clips == PlayedClips(r) && |clips| <= 1
  {
    lines := ["### " + r.wordName.value];

    var exchange := r.exchange.GetOr([]);
    var exchangeLines := GatherExchange(exchange);
    if exchangeLines != [] {
      lines := lines + ["", EXCHANGE_HEADING];
      lines := lines + exchangeLines;
    }
    lines, clips := AppendSymbols(lines, r.symbols.GetOr([]));
    lines := AppendSentences(lines, r.sent.GetOr([]));
  }
}
