/**
 * The dictionary entry as the plugin handles it: a Python dict whose keys may
 * be absent. Every key the code reads is a field of type `Option`, `None`
 * standing for an absent key (or a `None` value: `d.get(k)` does not tell the
 * two apart). Keys the code never reads are not modelled.
 */
module Records {
  import opened Wrappers

  type Bytes = seq<bv8>

  /** The truth value of `d.get(k)` for a string value: present and non-empty. */
  predicate Truthy(s: Option<string>)
  {
    s.Some? && s.value != ""
  }

  /** The truth value of `d.get(k)` for an audio buffer: present and non-empty. */
  predicate HasBytes(b: Option<Bytes>)
  {
    b.Some? && b.value != []
  }

  /** One entry of a symbol's `parts` list: `{part, means}`. */
  datatype Part = Part(part: Option<string>, means: Option<seq<string>>)

  /**
   * One element of `symbols`: the three phonetic spellings (`ph_am`, `ph_en`,
   * `ph_other`), the three audio URLs (`ph_am_mp3`, `ph_en_mp3`,
   * `ph_tts_mp3`), the three audio-data slots the JSON parser attaches
   * (`ph_am_mp3_data`, `ph_en_mp3_data`, `ph_tts_mp3_data`) and `parts`.
   */
  datatype Symbol = Symbol(
    phAm: Option<string>,
    phEn: Option<string>,
    phOther: Option<string>,
    phAmMp3: Option<string>,
    phEnMp3: Option<string>,
    phTtsMp3: Option<string>,
    phAmMp3Data: Option<Bytes>,
    phEnMp3Data: Option<Bytes>,
    phTtsMp3Data: Option<Bytes>,
    parts: Option<seq<Part>>)

  /** One element of `sent`: `{orig, trans}`. */
  datatype Sentence = Sentence(orig: string, trans: string)

  /**
   * A record: `word_name`, `symbols`, `exchange` (form code to list of forms,
   * in the dict's insertion order) and `sent`.
   */
  datatype Record = Record(
    wordName: Option<string>,
    symbols: Option<seq<Symbol>>,
    exchange: Option<seq<(string, seq<string>)>>,
    sent: Option<seq<Sentence>>)

  /** A record whose only key is `sent`. */
  predicate SentOnly(r: Record)
  {
    r.wordName.None? && r.symbols.None? && r.exchange.None? && r.sent.Some?
  }

  /** `d.update(e)`: every key present in `e` takes `e`'s value, every other key keeps `d`'s. */
  function Update(d: Record, e: Record): (r: Record)
    ensures e.sent.Some? ==> r.sent == e.sent
    ensures e.sent.None? ==> r.sent == d.sent
    ensures SentOnly(e) ==> r == d.(sent := e.sent)
  {
    Record(
      if e.wordName.Some? then e.wordName else d.wordName,
      if e.symbols.Some? then e.symbols else d.symbols,
      if e.exchange.Some? then e.exchange else d.exchange,
      if e.sent.Some? then e.sent else d.sent)
  }

}
