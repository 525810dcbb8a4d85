/**
 * What the lines and the clips of `parse` are, proved about the
 * specification functions of module Render (and so, through the contract of
 * `Render.Render`, about the method).
 */
module RenderProperties {
  import opened Wrappers
  import opened Strings
  import opened Records
  import opened Render

  /** `out` begins with `acc`. */
  predicate Extends(acc: seq<string>, out: seq<string>)
  {
    |acc| <= |out| && out[..|acc|] == acc
  }

  /** No line of `lines` from index `from` on is the exchange heading. */
  predicate HeadingFreeFrom(lines: seq<string>, from: nat)
  {
    forall k :: from <= k < |lines| ==> lines[k] != EXCHANGE_HEADING
  }

  /** Some exchange form has a non-empty value. */
  predicate HasExchange(ex: seq<(string, seq<string>)>)
  {
    exists i :: 0 <= i < |ex| && ex[i].1 != []
  }

  /** Appending in two steps, neither of which adds the heading, adds no heading. */
  lemma Chain(acc: seq<string>, mid: seq<string>, out: seq<string>)
    requires Extends(acc, mid) && HeadingFreeFrom(mid, |acc|)
    requires Extends(mid, out) && HeadingFreeFrom(out, |mid|)
    ensures Extends(acc, out) && HeadingFreeFrom(out, |acc|)
  {
    assert out[..|acc|] == mid[..|acc|];
    forall k | |acc| <= k < |mid|
      ensures out[k] != EXCHANGE_HEADING
    {
      assert out[k] == mid[k];
    }
  }

  /** A line whose first character is not `*` is not the heading. */
  lemma NotHeading(prefix: string, rest: string)
    requires |prefix| > 0 && prefix[0] != '*'
    ensures prefix + rest != EXCHANGE_HEADING
  {
    assert (prefix + rest)[0] == prefix[0];
  }

  /** Appending one line that is not the heading adds no heading. */
  lemma AppendOne(acc: seq<string>, line: string)
    requires line != EXCHANGE_HEADING
    ensures Extends(acc, acc + [line]) && HeadingFreeFrom(acc + [line], |acc|)
  {
    assert (acc + [line])[..|acc|] == acc;
  }

  // ---------------------------------------------------------------- header

  /** The first line is `'### ' + word_name`. */
  lemma HeaderFirst(r: Record)
    requires Renderable(r)
    ensures |RenderLines(r)| >= 1 && RenderLines(r)[0] == "### " + r.wordName.value
  {
    var head := Head(r.wordName.value, r.exchange.GetOr([]));
    var body := WithSymbols(head, r.symbols.GetOr([]));
    WithSymbolsFree(head, r.symbols.GetOr([]));
    WithSentencesShape(body, r.sent.GetOr([]));
    assert RenderLines(r) == WithSentences(body, r.sent.GetOr([]));
    assert RenderLines(r)[0] == body[0] == head[0];
  }

  // ---------------------------------------------------------------- exchange

  /** Exchange lines exist exactly when some value is non-empty. */
  lemma {:induction false} ExchangeLinesEmpty(ex: seq<(string, seq<string>)>)
    requires LabelsKnown(ex)
    ensures ExchangeLines(ex) == [] <==> !HasExchange(ex)
  {
    if ex != [] {
      var init := ex[..|ex| - 1];
      ExchangeLinesEmpty(init);
      if HasExchange(init) {
        var i :| 0 <= i < |init| && init[i].1 != [];
        assert ex[i] == init[i];
      }
      if HasExchange(ex) && ex[|ex| - 1].1 == [] {
        var i :| 0 <= i < |ex| && ex[i].1 != [];
        assert init[i] == ex[i];
      }
    }
  }

  /** `line` is the exchange line of some form of `ex` with a non-empty value. */
  predicate FromEntry(ex: seq<(string, seq<string>)>, line: string)
  {
    exists i :: (0 <= i < |ex| && ex[i].1 != [] && ex[i].0 in EXCHANGE_LABELS &&
      line == ExchangeLine(ex[i].0, ex[i].1))
  }

  /**
   * Every exchange line comes from a form with a non-empty value, and is that
   * form's label, translated through the table, followed by its forms joined
   * by `"; "`.
   */
  lemma {:induction false} ExchangeLinesFrom(ex: seq<(string, seq<string>)>)
    requires LabelsKnown(ex)
    ensures |ExchangeLines(ex)| <= |ex|
    ensures forall k :: 0 <= k < |ExchangeLines(ex)| ==> FromEntry(ex, ExchangeLines(ex)[k])
  {
    if ex != [] {
      var init := ex[..|ex| - 1];
      var last := ex[|ex| - 1];
      ExchangeLinesFrom(init);
      var prev := ExchangeLines(init);
      var lines := ExchangeLines(ex);
      assert lines == prev + (if last.1 != [] then [ExchangeLine(last.0, last.1)] else []);
      forall k | 0 <= k < |lines|
        ensures FromEntry(ex, lines[k])
      {
        if k < |prev| {
          assert lines[k] == prev[k];
          var i :| 0 <= i < |init| && init[i].1 != [] && init[i].0 in EXCHANGE_LABELS &&
            prev[k] == ExchangeLine(init[i].0, init[i].1);
          assert ex[i] == init[i];
        } else {
          assert lines[k] == ExchangeLine(last.0, last.1);
          assert ex[|ex| - 1] == last;
        }
      }
    }
  }

  lemma {:induction false} ExchangeLinesFree(ex: seq<(string, seq<string>)>)
    requires LabelsKnown(ex)
    ensures HeadingFreeFrom(ExchangeLines(ex), 0)
  {
    if ex != [] {
      var init := ex[..|ex| - 1];
      var last := ex[|ex| - 1];
      ExchangeLinesFree(init);
      if last.1 != [] {
        NotHeading(" * ", EXCHANGE_LABELS[last.0] + ": " + Join("; ", last.1));
        assert ExchangeLine(last.0, last.1) == " * " + (EXCHANGE_LABELS[last.0] + ": " + Join("; ", last.1));
        AppendOne(ExchangeLines(init), ExchangeLine(last.0, last.1));
      }
    }
  }

  // ---------------------------------------------------------------- symbols add no heading

  lemma {:induction false} WithMeansFree(acc: seq<string>, means: seq<string>)
    ensures Extends(acc, WithMeans(acc, means)) && HeadingFreeFrom(WithMeans(acc, means), |acc|)
  {
    if means != [] {
      var init := means[..|means| - 1];
      WithMeansFree(acc, init);
      NotHeading("  * ", means[|means| - 1]);
      AppendOne(WithMeans(acc, init), "  * " + means[|means| - 1]);
      Chain(acc, WithMeans(acc, init), WithMeans(acc, means));
    }
  }

  lemma WithPartFree(acc: seq<string>, p: Part)
    requires p.means.Some?
    ensures Extends(acc, WithPart(acc, p)) && HeadingFreeFrom(WithPart(acc, p), |acc|)
  {
    var labelled := if Truthy(p.part) then acc + [" * " + p.part.value] else acc;
    if Truthy(p.part) {
      NotHeading(" * ", p.part.value);
      AppendOne(acc, " * " + p.part.value);
    } else {
      assert acc[..|acc|] == acc;
    }
    WithMeansFree(labelled, p.means.value);
    Chain(acc, labelled, WithMeans(labelled, p.means.value));
    var means := WithMeans(labelled, p.means.value);
    AppendOne(means, "");
    Chain(acc, means, means + [""]);
  }

  lemma {:induction false} WithPartsFree(acc: seq<string>, ps: seq<Part>)
    requires MeansPresent(ps)
    ensures Extends(acc, WithParts(acc, ps)) && HeadingFreeFrom(WithParts(acc, ps), |acc|)
  {
    if ps != [] {
      var init := ps[..|ps| - 1];
      WithPartsFree(acc, init);
      WithPartFree(WithParts(acc, init), ps[|ps| - 1]);
      Chain(acc, WithParts(acc, init), WithParts(acc, ps));
    }
  }

  /** Building `ph` only ever appends. */
  lemma SpelledExtends(ph: string, present: bool, bracketed: string, data: Option<Bytes>)
    ensures |Spelled(ph, present, bracketed, data)| >= |ph|
    ensures Spelled(ph, present, bracketed, data)[..|ph|] == ph
    ensures present ==> |Spelled(ph, present, bracketed, data)| >= |ph| + |bracketed|
  {
  }

  /**
   * The phonetic line is longer than `"*"` exactly when a spelling is truthy,
   * and it then starts with the first truthy spelling's label (`"* US"`,
   * `"* UK"` or `"* TTS"`), so it is never the exchange heading.
   */
  lemma PhoneticShown(s: Symbol)
    ensures |Phonetic(s)| > 1 <==> Truthy(s.phAm) || Truthy(s.phEn) || Truthy(s.phOther)
    ensures |Phonetic(s)| > 1 ==> Phonetic(s)[..3] == "* U" || Phonetic(s)[..3] == "* T"
    ensures Truthy(s.phAm) ==> |Phonetic(s)| >= 4 && Phonetic(s)[..4] == "* US"
    ensures !Truthy(s.phAm) && Truthy(s.phEn) ==> |Phonetic(s)| >= 4 && Phonetic(s)[..4] == "* UK"
    ensures !Truthy(s.phAm) && !Truthy(s.phEn) && Truthy(s.phOther) ==>
      |Phonetic(s)| >= 5 && Phonetic(s)[..5] == "* TTS"
    ensures Phonetic(s) != EXCHANGE_HEADING
  {
    var am := Spelled("*", Truthy(s.phAm), UsLabel(s), s.phAmMp3Data);
    var en := Spelled(am, Truthy(s.phEn), UkLabel(s), s.phEnMp3Data);
    var ph := Spelled(en, Truthy(s.phOther), TtsLabel(s), s.phTtsMp3Data);
    SpelledExtends("*", Truthy(s.phAm), UsLabel(s), s.phAmMp3Data);
    SpelledExtends(am, Truthy(s.phEn), UkLabel(s), s.phEnMp3Data);
    SpelledExtends(en, Truthy(s.phOther), TtsLabel(s), s.phTtsMp3Data);
    if |ph| > 1 {
      if Truthy(s.phAm) {
        assert am[..4] == "* US";
        assert ph[..4] == en[..4] == am[..4];
        assert ph[..3] == "* U";
      } else if Truthy(s.phEn) {
        assert en[..4] == "* UK";
        assert ph[..4] == en[..4];
        assert ph[..3] == "* U";
      } else {
        assert ph[..5] == "* TTS";
        assert ph[..3] == "* T";
      }
      assert ph[2] != EXCHANGE_HEADING[2];
    } else {
      assert |ph| != |EXCHANGE_HEADING|;
    }
  }

  lemma WithSymbolFree(acc: seq<string>, s: Symbol)
    requires SymbolRenderable(s)
    ensures Extends(acc, WithSymbol(acc, s)) && HeadingFreeFrom(WithSymbol(acc, s), |acc|)
  {
    var ph := Phonetic(s);
    PhoneticShown(s);
    var withPhonetic := if |ph| > 1 then acc + [""] + [ph] else acc + [""];
    AppendOne(acc, "");
    if |ph| > 1 {
      AppendOne(acc + [""], ph);
      Chain(acc, acc + [""], withPhonetic);
    }
    WithPartsFree(withPhonetic, s.parts.value);
    Chain(acc, withPhonetic, WithSymbol(acc, s));
  }

  lemma {:induction false} WithSymbolsFree(acc: seq<string>, ss: seq<Symbol>)
    requires SymbolsRenderable(ss)
    ensures Extends(acc, WithSymbols(acc, ss)) && HeadingFreeFrom(WithSymbols(acc, ss), |acc|)
  {
    if ss != [] {
      var init := ss[..|ss| - 1];
      WithSymbolsFree(acc, init);
      WithSymbolFree(WithSymbols(acc, init), ss[|ss| - 1]);
      Chain(acc, WithSymbols(acc, init), WithSymbols(acc, ss));
    }
  }

  // ---------------------------------------------------------------- sentences

  /**
   * Each sentence adds exactly `'> ' + orig`, `'> ' + trans` and `''`, in
   * input order, after the lines already there.
   */
  lemma {:induction false} WithSentencesShape(acc: seq<string>, ss: seq<Sentence>)
    ensures |WithSentences(acc, ss)| == |acc| + 3 * |ss|
    ensures WithSentences(acc, ss)[..|acc|] == acc
    ensures forall k :: 0 <= k < |ss| ==>
      && WithSentences(acc, ss)[|acc| + 3 * k] == "> " + ss[k].orig
      && WithSentences(acc, ss)[|acc| + 3 * k + 1] == "> " + ss[k].trans
      && WithSentences(acc, ss)[|acc| + 3 * k + 2] == ""
  {
    if ss != [] {
      var init := ss[..|ss| - 1];
      WithSentencesShape(acc, init);
      var before := WithSentences(acc, init);
      var out := WithSentences(acc, ss);
      assert out[..|before|] == before;
      forall k | 0 <= k < |ss|
        ensures out[|acc| + 3 * k] == "> " + ss[k].orig
        ensures out[|acc| + 3 * k + 1] == "> " + ss[k].trans
        ensures out[|acc| + 3 * k + 2] == ""
      {
        if k < |init| {
          assert ss[k] == init[k];
          assert out[|acc| + 3 * k] == before[|acc| + 3 * k];
          assert out[|acc| + 3 * k + 1] == before[|acc| + 3 * k + 1];
          assert out[|acc| + 3 * k + 2] == before[|acc| + 3 * k + 2];
        }
      }
    }
  }

  lemma WithSentencesFree(acc: seq<string>, ss: seq<Sentence>)
    ensures Extends(acc, WithSentences(acc, ss)) && HeadingFreeFrom(WithSentences(acc, ss), |acc|)
  {
    WithSentencesShape(acc, ss);
    forall k | |acc| <= k < |WithSentences(acc, ss)|
      ensures WithSentences(acc, ss)[k] != EXCHANGE_HEADING
    {
      var i := (k - |acc|) / 3;
      assert |acc| + 3 * i <= k < |acc| + 3 * i + 3;
      assert ("> " + ss[i].orig)[0] == '>';
      assert ("> " + ss[i].trans)[0] == '>';
    }
  }

  /** The last `3 * |sent|` lines are the sentence triples, in order. */
  lemma SentencesLast(r: Record, k: nat)
    requires Renderable(r)
    requires k < |r.sent.GetOr([])|
    ensures var lines := RenderLines(r);
      var n := |r.sent.GetOr([])|;
      && |lines| >= 3 * n
      && lines[|lines| - 3 * n + 3 * k] == "> " + r.sent.value[k].orig
      && lines[|lines| - 3 * n + 3 * k + 1] == "> " + r.sent.value[k].trans
      && lines[|lines| - 3 * n + 3 * k + 2] == ""
  {
    var head := Head(r.wordName.value, r.exchange.GetOr([]));
    WithSentencesShape(WithSymbols(head, r.symbols.GetOr([])), r.sent.GetOr([]));
  }

  // ---------------------------------------------------------------- the heading

  /** The header block holds the heading exactly when some exchange value is non-empty. */
  lemma HeadHeading(word: string, ex: seq<(string, seq<string>)>)
    requires LabelsKnown(ex)
    ensures EXCHANGE_HEADING in Head(word, ex) <==> HasExchange(ex)
  {
    ExchangeLinesEmpty(ex);
    ExchangeLinesFree(ex);
    var head := Head(word, ex);
    NotHeading("### ", word);
    if HasExchange(ex) {
      assert head[2] == EXCHANGE_HEADING;
    } else {
      assert head == ["### " + word];
    }
  }

  /** When nothing after `acc` is the heading, the heading is in `out` only if it is in `acc`. */
  lemma HeadingOnlyInPrefix(acc: seq<string>, out: seq<string>)
    requires Extends(acc, out) && HeadingFreeFrom(out, |acc|)
    ensures EXCHANGE_HEADING in out <==> EXCHANGE_HEADING in acc
  {
    if EXCHANGE_HEADING in out {
      var k :| 0 <= k < |out| && out[k] == EXCHANGE_HEADING;
      assert out[..|acc|][k] == EXCHANGE_HEADING;
    }
    if EXCHANGE_HEADING in acc {
      var k :| 0 <= k < |acc| && acc[k] == EXCHANGE_HEADING;
      assert out[k] == out[..|acc|][k];
    }
  }

  /**
   * The `'* exchange:'` heading appears among the lines if and only if some
   * exchange value is non-empty.
   */
  lemma ExchangeHeading(r: Record)
    requires Renderable(r)
    ensures EXCHANGE_HEADING in RenderLines(r) <==> HasExchange(r.exchange.GetOr([]))
  {
    var ex := r.exchange.GetOr([]);
    var head := Head(r.wordName.value, ex);
    var body := WithSymbols(head, r.symbols.GetOr([]));
    WithSymbolsFree(head, r.symbols.GetOr([]));
    WithSentencesFree(body, r.sent.GetOr([]));
    Chain(head, body, RenderLines(r));
    HeadingOnlyInPrefix(head, RenderLines(r));
    HeadHeading(r.wordName.value, ex);
  }

  // ---------------------------------------------------------------- phonetics

  /**
   * `ph_other` as shown is a suffix of the raw value; what is dropped is
   * nothing, a comma, the TTS host, or the host and a comma; the host is
   * dropped exactly when the raw value starts with it, and a comma exactly
   * when what remains after the host starts with one.
   */
  lemma StripTtsDrops(pho: string)
    ensures var shown := StripTts(pho);
      && |shown| <= |pho| && pho[|pho| - |shown|..] == shown
      && pho[..|pho| - |shown|] in {"", ",", TTS_HOST, TTS_HOST + ","}
      && (StartsWith(pho, TTS_HOST) <==> |pho| - |shown| >= |TTS_HOST|)
    ensures var shown := StripTts(pho);
      var rest := if StartsWith(pho, TTS_HOST) then pho[24..] else pho;
      pho[..|pho| - |shown|] in {",", TTS_HOST + ","} <==> StartsWith(rest, ",")
  {
    if StartsWith(pho, TTS_HOST) {
      assert StartsWith(pho[24..], ",") ==> pho[..25] == TTS_HOST + ",";
    }
  }

  /**
   * The speaker icon follows a spelling exactly when that spelling's audio
   * data is present: each truthy spelling's step ends with the icon if and
   * only if its data is present, and a falsy spelling adds nothing.
   */
  lemma IconFollowsSpelling(s: Symbol)
    ensures var am := Spelled("*", Truthy(s.phAm), UsLabel(s), s.phAmMp3Data);
      var en := Spelled(am, Truthy(s.phEn), UkLabel(s), s.phEnMp3Data);
      var ph := Spelled(en, Truthy(s.phOther), TtsLabel(s), s.phTtsMp3Data);
      && ph == Phonetic(s)
      && (!Truthy(s.phAm) ==> am == "*")
      && (Truthy(s.phAm) ==> (EndsWith(am, MUTE) <==> HasBytes(s.phAmMp3Data)))
      && (!Truthy(s.phEn) ==> en == am)
      && (Truthy(s.phEn) ==> (EndsWith(en, MUTE) <==> HasBytes(s.phEnMp3Data)))
      && (!Truthy(s.phOther) ==> ph == en)
      && (Truthy(s.phOther) ==> (EndsWith(ph, MUTE) <==> HasBytes(s.phTtsMp3Data)))
  {
    IconStep("*", Truthy(s.phAm), UsLabel(s), s.phAmMp3Data);
    var am := Spelled("*", Truthy(s.phAm), UsLabel(s), s.phAmMp3Data);
    IconStep(am, Truthy(s.phEn), UkLabel(s), s.phEnMp3Data);
    var en := Spelled(am, Truthy(s.phEn), UkLabel(s), s.phEnMp3Data);
    IconStep(en, Truthy(s.phOther), TtsLabel(s), s.phTtsMp3Data);
  }

  lemma IconStep(ph: string, present: bool, bracketed: string, data: Option<Bytes>)
    requires bracketed != [] && bracketed[|bracketed| - 1] == ']'
    ensures present ==> (EndsWith(Spelled(ph, present, bracketed, data), MUTE) <==> HasBytes(data))
  {
    var r := Spelled(ph, present, bracketed, data);
    if present && !HasBytes(data) {
      assert r[|r| - 1] == ']';
      assert r[|r| - 1..] != MUTE;
    }
  }

  // ---------------------------------------------------------------- playback

  /** A symbol offers a clip exactly when one of its truthy spellings has audio data. */
  lemma SymbolAudible(heard: seq<Bytes>, s: Symbol)
    ensures HeardIn(heard, s) == heard + HeardIn([], s)
    ensures HeardIn([], s) != [] <==>
      (Truthy(s.phAm) && HasBytes(s.phAmMp3Data)) ||
      (Truthy(s.phEn) && HasBytes(s.phEnMp3Data)) ||
      (Truthy(s.phOther) && HasBytes(s.phTtsMp3Data))
  {
  }

  /** No symbol before index `n` offers a clip. */
  predicate SilentBefore(ss: seq<Symbol>, n: nat)
  {
    forall j :: 0 <= j < n && j < |ss| ==> HeardIn([], ss[j]) == []
  }

  /**
   * The clips met are none exactly when no symbol offers one; otherwise the
   * first clip met is the first clip of the first symbol that offers one.
   */
  lemma {:induction false} FirstClip(ss: seq<Symbol>)
    ensures AudibleClips(ss) == [] <==> SilentBefore(ss, |ss|)
    ensures AudibleClips(ss) != [] ==>
      exists i :: 0 <= i < |ss| && HeardIn([], ss[i]) != [] && SilentBefore(ss, i) &&
        AudibleClips(ss)[0] == HeardIn([], ss[i])[0]
  {
    if ss != [] {
      var init := ss[..|ss| - 1];
      var last := ss[|ss| - 1];
      FirstClip(init);
      var before := AudibleClips(init);
      assert AudibleClips(ss) == HeardIn(before, last);
      SymbolAudible(before, last);
      SilentPrefix(ss, |init|);
      if before != [] {
        var i :| 0 <= i < |init| && HeardIn([], init[i]) != [] && SilentBefore(init, i) &&
          before[0] == HeardIn([], init[i])[0];
        SilentPrefix(ss, i);
        assert ss[i] == init[i];
      } else if HeardIn([], last) != [] {
        assert AudibleClips(ss) == HeardIn([], last);
      }
    }
  }

  /** Silence before `k` is a property of the first `k` symbols only. */
  lemma SilentPrefix(ss: seq<Symbol>, k: nat)
    requires k < |ss|
    ensures SilentBefore(ss, k) <==> SilentBefore(ss[..|ss| - 1], k)
    ensures SilentBefore(ss, k + 1) <==> SilentBefore(ss, k) && HeardIn([], ss[k]) == []
  {
    assert forall j :: 0 <= j < k ==> ss[j] == ss[..|ss| - 1][j];
  }

  /**
   * At most one clip is played per render: none when no symbol offers one,
   * otherwise the first clip of the first symbol that does.
   */
  lemma PlayedAtMostOnce(r: Record)
    ensures |PlayedClips(r)| <= 1
    ensures var ss := r.symbols.GetOr([]);
      && (PlayedClips(r) == [] <==> SilentBefore(ss, |ss|))
      && (PlayedClips(r) != [] ==>
            exists i :: 0 <= i < |ss| && HeardIn([], ss[i]) != [] && SilentBefore(ss, i) &&
              PlayedClips(r) == [HeardIn([], ss[i])[0]])
  {
    FirstClip(r.symbols.GetOr([]));
  }

  /**
   * The record of the word "test" (one symbol with a US spelling and its
   * audio, one part with one meaning, no exchange, no sentences) renders to
   * six lines and plays its one clip.
   */
  lemma TestRendered()
    ensures
      var symbol := Symbol(Some("tɛst"), None, None, Some("http://x/a.mp3"), None, None,
                           Some([0xff, 0xfb]), None, None, Some([Part(Some("n."), Some(["a trial"]))]));
      var r := Record(Some("test"), Some([symbol]), None, Some([]));
      && Renderable(r)
      && RenderLines(r) == ["### test", "", "* US: [tɛst]" + MUTE, " * n.", "  * a trial", ""]
      && PlayedClips(r) == [[0xff, 0xfb]]
  {
    var part := Part(Some("n."), Some(["a trial"]));
    var symbol := Symbol(Some("tɛst"), None, None, Some("http://x/a.mp3"), None, None,
                         Some([0xff, 0xfb]), None, None, Some([part]));
    var r := Record(Some("test"), Some([symbol]), None, Some([]));
    assert Phonetic(symbol) == "* US: [tɛst]" + MUTE;
    assert ["a trial"][..0] == [];
    assert "  * " + "a trial" == "  * a trial";
    assert " * " + "n." == " * n.";
    assert "### " + "test" == "### test";
    var labelled := ["### test", "", "* US: [tɛst]" + MUTE, " * n."];
    assert WithMeans(labelled, ["a trial"]) == labelled + ["  * a trial"];
    assert [part][..0] == [];
    var start := ["### test", "", "* US: [tɛst]" + MUTE];
    assert start + [" * n."] == labelled;
    assert WithPart(start, part) == labelled + ["  * a trial"] + [""];
    assert WithParts(["### test", "", "* US: [tɛst]" + MUTE], [part])
      == ["### test", "", "* US: [tɛst]" + MUTE, " * n.", "  * a trial", ""];
    assert [symbol][..0] == [];
    assert Head("test", []) == ["### test"];
    assert ["### test"] + [""] + ["* US: [tɛst]" + MUTE] == start;
    assert WithSymbol(["### test"], symbol) == WithParts(start, [part]);
    assert WithSymbols(["### test"], [symbol]) == WithSymbol(["### test"], symbol);
    assert AudibleClips([symbol]) == [[0xff, 0xfb]];
  }
}
