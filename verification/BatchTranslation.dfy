/** Batched generation, `generate_translations` of `ml/training/train.py`.  The model is a function of one tagged text
    and the forced target language: what it makes of a text does not depend on the rest of the batch. */
module BatchTranslation {
  import opened Options
  import opened Text
  import opened Direction

  type Model = (string, Language) -> string

  datatype Result = Ok(translations: seq<string>) | ValueError | AssertionError

  /** What one example should be translated to. */
  function Translate(model: Model, e: Example): string {
    StripLeadingTag(model(TagSourceText(e.sourceText, e.targetLang), e.targetLang), e.targetLang)
  }

  /** `t` is what comes of an example: the model is given the target language's tag, a space and the source text; if its
      answer begins with that tag, the tag and the whitespace behind it are taken off. */
  ghost predicate IsTranslation(model: Model, e: Example, t: string) {
    var tag := if e.targetLang == Kaqchikel then "__cak__" else "__es__";
    var answer := model(tag + " " + e.sourceText, e.targetLang);
    if tag <= answer then
      exists space: string :: (forall c :: c in space ==> IsSpace(c)) && answer == tag + space + t
                              && (t == "" || !IsSpace(t[0]))
    else t == answer
  }

  lemma TagComesOff(tag: string, answer: string, t: string)
    requires tag <= answer && t == LStrip(answer[|tag|..])
    ensures exists space: string ::
      (forall c :: c in space ==> IsSpace(c)) && answer == tag + space + t && (t == "" || !IsSpace(t[0]))
  {
    hide LStrip, IsSpace;
    var rest := answer[|tag|..];
    LStripTakesSpace(rest);
    var space := rest[..|rest| - |t|];
    assert rest == space + t && answer == tag + rest;
    assert answer == tag + space + t;
  }

  lemma TranslateIsTranslation(model: Model, e: Example)
    ensures IsTranslation(model, e, Translate(model, e))
  {
    hide LStrip, IsSpace;
    var tag := if e.targetLang == Kaqchikel then "__cak__" else "__es__";
    var answer := model(tag + " " + e.sourceText, e.targetLang);
    assert tag == Tag(e.targetLang);
    if tag <= answer { TagComesOff(tag, answer, Translate(model, e)); }
  }

  function TranslateEach(model: Model, examples: seq<Example>): seq<string> {
    seq(|examples|, i requires 0 <= i < |examples| => Translate(model, examples[i]))
  }

  lemma EachIsTranslation(model: Model, examples: seq<Example>)
    ensures forall i :: 0 <= i < |examples| ==> IsTranslation(model, examples[i], TranslateEach(model, examples)[i])
  {
    forall i | 0 <= i < |examples| ensures IsTranslation(model, examples[i], TranslateEach(model, examples)[i]) {
      TranslateIsTranslation(model, examples[i]);
    }
  }

  ghost predicate IsGroup(examples: seq<Example>, lang: Language, indices: seq<nat>) {
    forall i :: i in indices <==> 0 <= i < |examples| && examples[i].targetLang == lang
  }

  lemma GroupGrows(examples: seq<Example>, k: nat, lang: Language, indices: seq<nat>)
    requires k < |examples| && IsGroup(examples[..k], lang, indices)
    ensures IsGroup(examples[..k + 1], lang, if examples[k].targetLang == lang then indices + [k] else indices)
  {
  }

  lemma NoGroup(examples: seq<Example>, lang: Language)
    requires forall i :: 0 <= i < |examples| ==> examples[i].targetLang != lang
    ensures IsGroup(examples, lang, [])
  {
  }

  /** `indices_by_target_lang`: the languages in the order of their first example, and the indices of each. */
  method GroupByTargetLang(examples: seq<Example>) returns (langs: seq<Language>, indices: map<Language, seq<nat>>)
    ensures forall lang :: lang in langs <==> exists i :: 0 <= i < |examples| && examples[i].targetLang == lang
    ensures forall i, j :: 0 <= i < j < |langs| ==> langs[i] != langs[j]
    ensures forall lang :: lang in langs ==> lang in indices && IsGroup(examples, lang, indices[lang])
  {
    hide IsGroup;
    langs, indices := [], map[];
    for k := 0 to |examples|
      invariant forall lang :: lang in langs <==> lang in indices
      invariant forall lang :: lang in langs <==> exists i :: 0 <= i < k && examples[i].targetLang == lang
      invariant forall i, j :: 0 <= i < j < |langs| ==> langs[i] != langs[j]
      invariant forall lang :: lang in langs ==> IsGroup(examples[..k], lang, indices[lang])
    {
      var lang := examples[k].targetLang;
      forall other | other in indices ensures other != lang ==> IsGroup(examples[..k + 1], other, indices[other]) {
        GroupGrows(examples, k, other, indices[other]);
      }
      if lang !in indices {
        NoGroup(examples[..k], lang);
        langs, indices := langs + [lang], indices[lang := []];
      }
      GroupGrows(examples, k, lang, indices[lang]);
      indices := indices[lang := indices[lang] + [k]];
    }
    assert examples[..|examples|] == examples;
  }

  function Decoded(model: Model, texts: seq<string>, lang: Language): seq<string> {
    seq(|texts|, j requires 0 <= j < |texts| => model(texts[j], lang))
  }

  /** One batch: tag, generate, strip, and put every hypothesis at its example's index. */
  method TranslateBatch(model: Model, examples: seq<Example>, lang: Language, batch: seq<nat>,
                        hypotheses: array<Option<string>>)
    requires hypotheses.Length == |examples|
    requires forall i :: i in batch ==> i < |examples| && examples[i].targetLang == lang
    modifies hypotheses
    ensures forall i :: 0 <= i < |examples| ==>
      hypotheses[i] == if i in batch then Some(Translate(model, examples[i])) else old(hypotheses[i])
  {
    hide StripLeadingTag, TagSourceText;
    var texts := seq(|batch|, j requires 0 <= j < |batch| =>
      assert batch[j] in batch; TagSourceText(examples[batch[j]].sourceText, lang));
    var decoded := Decoded(model, texts, lang);
    for j := 0 to |batch|
      invariant forall i :: 0 <= i < |examples| ==>
        hypotheses[i] == if i in batch[..j] then Some(Translate(model, examples[i])) else old(hypotheses[i])
    {
      assert batch[j] in batch;
      hypotheses[batch[j]] := Some(StripLeadingTag(decoded[j], lang));
      assert batch[..j + 1] == batch[..j] + [batch[j]];
    }
    assert batch[..|batch|] == batch;
  }

  /** One target language, in batches of a positive size. */
  method TranslateGroup(model: Model, examples: seq<Example>, lang: Language, indices: seq<nat>, batchSize: int,
                        hypotheses: array<Option<string>>)
    requires hypotheses.Length == |examples| && batchSize > 0
    requires forall i :: i in indices ==> i < |examples| && examples[i].targetLang == lang
    modifies hypotheses
    ensures forall i :: 0 <= i < |examples| ==>
      hypotheses[i] == if i in indices then Some(Translate(model, examples[i])) else old(hypotheses[i])
  {
    hide Translate;
    var start := 0;
    while start < |indices|
      invariant 0 <= start
      invariant forall i :: 0 <= i < |examples| ==>
        hypotheses[i] == if i in indices[..if start < |indices| then start else |indices|]
                         then Some(Translate(model, examples[i])) else old(hypotheses[i])
      decreases |indices| - start
    {
      var end := if start + batchSize < |indices| then start + batchSize else |indices|;
      var batch := indices[start..end];
      assert forall i :: i in batch ==> i in indices;
      TranslateBatch(model, examples, lang, batch, hypotheses);
      assert indices[..end] == indices[..start] + batch;
      start := start + batchSize;
    }
    assert indices[..|indices|] == indices;
  }

  predicate AllPresent(hypotheses: seq<Option<string>>) {
    forall i :: 0 <= i < |hypotheses| ==> hypotheses[i].Some?
  }

  /** The loop over the target languages; false is the ValueError of a zero batch size. */
  method TranslateGroups(model: Model, examples: seq<Example>, batchSize: int, hypotheses: array<Option<string>>)
    returns (ok: bool)
    requires hypotheses.Length == |examples| && forall i :: 0 <= i < |examples| ==> hypotheses[i] == None
    modifies hypotheses
    ensures ok <==> examples == [] || batchSize != 0
    ensures ok ==> forall i :: 0 <= i < |examples| ==>
      hypotheses[i] == if batchSize > 0 then Some(Translate(model, examples[i])) else None
  {
    hide Translate;
    var langs, indices := GroupByTargetLang(examples);
    assert examples != [] ==> examples[0].targetLang in langs;
    for k := 0 to |langs|
      invariant batchSize > 0 ==> forall i :: 0 <= i < |examples| ==>
        hypotheses[i] == if examples[i].targetLang in langs[..k] then Some(Translate(model, examples[i])) else None
      invariant batchSize < 0 ==> forall i :: 0 <= i < |examples| ==> hypotheses[i] == None
      invariant batchSize == 0 ==> k == 0
    {
      var lang := langs[k];
      assert lang in langs;
      if batchSize == 0 {
        return false;
      }
      if batchSize > 0 {
        TranslateGroup(model, examples, lang, indices[lang], batchSize, hypotheses);
      }
      assert langs[..k + 1] == langs[..k] + [lang];
    }
    assert langs[..|langs|] == langs;
    assert forall i :: 0 <= i < |examples| ==> examples[i].targetLang in langs;
    return true;
  }

  /** For any mix of directions and any positive batch size, exactly the per-example translations in the examples'
      order; without examples nothing happens; a zero or negative batch size fails, each in its own way. */
  method GenerateTranslations(model: Model, examples: seq<Example>, batchSize: int) returns (result: Result)
    ensures result == if examples == [] || batchSize > 0 then Ok(TranslateEach(model, examples))
                      else if batchSize == 0 then ValueError else AssertionError
    ensures result.Ok? ==>
      && |result.translations| == |examples|
      && forall i :: 0 <= i < |examples| ==> IsTranslation(model, examples[i], result.translations[i])
  {
    hide Translate, IsTranslation;
    var hypotheses: array<Option<string>> := new Option<string>[|examples|](_ => None);
    var ok := TranslateGroups(model, examples, batchSize, hypotheses);
    if !ok {
      return ValueError;
    }
    var all := hypotheses[..];
    EachIsTranslation(model, examples);
    result := Finish(all);
    assert examples != [] && batchSize < 0 ==> all[0].None?;
    assert batchSize > 0 || examples == [] ==> AllPresent(all) && result.translations == TranslateEach(model, examples);
  }

  /** The final assertion and the result. */
  method Finish(hypotheses: seq<Option<string>>) returns (result: Result)
    ensures AllPresent(hypotheses) ==> result.Ok? && |result.translations| == |hypotheses|
    ensures AllPresent(hypotheses) ==>
      forall i :: 0 <= i < |hypotheses| ==> result.translations[i] == hypotheses[i].value
    ensures !AllPresent(hypotheses) ==> result == AssertionError
  {
    if !AllPresent(hypotheses) {
      return AssertionError;
    }
    return Ok(seq(|hypotheses|, i requires 0 <= i < |hypotheses| => hypotheses[i].value));
  }
}
