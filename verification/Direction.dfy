/** Direction-tagged training examples, `ml/training/direction.py`. */
module Direction {
  import opened Text

  datatype Language = Spanish | Kaqchikel
  datatype Choice = EsToCak | CakToEs | Both

  datatype Example = Example(sourceText: string, targetText: string, sourceLang: Language, targetLang: Language)

  function Tag(lang: Language): string {
    match lang
    case Spanish => "__es__"
    case Kaqchikel => "__cak__"
  }

  const ALL_TAGS: seq<string> := ["__es__", "__cak__"]

  function TagSourceText(text: string, target: Language): string {
    Tag(target) + " " + text
  }

  /** `strip_leading_direction_tag`. */
  function StripLeadingTag(text: string, target: Language): string {
    var tag := Tag(target);
    if tag <= text then LStrip(text[|tag|..]) else text
  }

  lemma LeadingSpaceGoes(text: string)
    ensures LStrip(" " + text) == LStrip(text)
  {
    assert (" " + text)[1..] == text;
  }

  /** Stripping undoes tagging, up to leading whitespace. */
  lemma StripUndoesTag(text: string, target: Language)
    ensures StripLeadingTag(TagSourceText(text, target), target) == LStrip(text)
  {
    hide LStrip, Tag;
    var tag := Tag(target);
    var tagged := TagSourceText(text, target);
    assert tagged == tag + (" " + text);
    assert tagged[|tag|..] == " " + text;
    LeadingSpaceGoes(text);
  }

  function Forward(pairs: seq<Pair>): (e: seq<Example>)
    ensures |e| == |pairs|
    ensures forall i :: 0 <= i < |pairs| ==> e[i] == Example(pairs[i].0, pairs[i].1, Spanish, Kaqchikel)
  {
    seq(|pairs|, i requires 0 <= i < |pairs| => Example(pairs[i].0, pairs[i].1, Spanish, Kaqchikel))
  }

  function Backward(pairs: seq<Pair>): (e: seq<Example>)
    ensures |e| == |pairs|
    ensures forall i :: 0 <= i < |pairs| ==> e[i] == Example(pairs[i].1, pairs[i].0, Kaqchikel, Spanish)
  {
    seq(|pairs|, i requires 0 <= i < |pairs| => Example(pairs[i].1, pairs[i].0, Kaqchikel, Spanish))
  }

  function Examples(pairs: seq<Pair>, direction: Choice): seq<Example> {
    (if direction == CakToEs then [] else Forward(pairs)) + (if direction == EsToCak then [] else Backward(pairs))
  }

  predicate AreForward(examples: seq<Example>, pairs: seq<Pair>) {
    && |examples| == |pairs|
    && forall i :: 0 <= i < |pairs| ==> examples[i] == Example(pairs[i].0, pairs[i].1, Spanish, Kaqchikel)
  }

  predicate AreBackward(examples: seq<Example>, pairs: seq<Pair>) {
    && |examples| == |pairs|
    && forall i :: 0 <= i < |pairs| ==> examples[i] == Example(pairs[i].1, pairs[i].0, Kaqchikel, Spanish)
  }

  datatype Expansion = Expanded(examples: seq<Example>) | UnknownDirection

  const DIRECTION_CHOICES: map<string, Choice> := map["es->cak" := EsToCak, "cak->es" := CakToEs, "both" := Both]

  /** `build_direction_examples`: any other direction is a ValueError. */
  method BuildDirectionExamples(pairs: seq<Pair>, direction: string) returns (result: Expansion)
    ensures result ==
      if direction in DIRECTION_CHOICES then Expanded(Examples(pairs, DIRECTION_CHOICES[direction]))
      else UnknownDirection
    ensures result.UnknownDirection? <==> direction !in {"es->cak", "cak->es", "both"}
    ensures direction == "es->cak" ==> AreForward(result.examples, pairs)
    ensures direction == "cak->es" ==> AreBackward(result.examples, pairs)
    ensures direction == "both" ==>
      && |result.examples| == 2 * |pairs|
      && AreForward(result.examples[..|pairs|], pairs) && AreBackward(result.examples[|pairs|..], pairs)
  {
    if direction !in DIRECTION_CHOICES {
      return UnknownDirection;
    }
    var examples: seq<Example> := [];
    if direction == "es->cak" || direction == "both" {
      examples := examples + Forward(pairs);
    }
    if direction == "cak->es" || direction == "both" {
      examples := examples + Backward(pairs);
    }
    return Expanded(examples);
  }

  function TextsIn(examples: seq<Example>, language: Language): seq<string> {
    if examples == [] then []
    else
      var e := examples[|examples| - 1];
      TextsIn(examples[..|examples| - 1], language)
      + (if e.sourceLang == language then [e.sourceText] else [])
      + (if e.targetLang == language then [e.targetText] else [])
  }

  /** `collect_texts_for_language`. */
  method CollectTextsForLanguage(examples: seq<Example>, language: Language) returns (texts: seq<string>)
    ensures texts == TextsIn(examples, language)
  {
    texts := [];
    for k := 0 to |examples|
      invariant texts == TextsIn(examples[..k], language)
    {
      var example := examples[k];
      assert examples[..k + 1][..k] == examples[..k];
      if example.sourceLang == language {
        texts := texts + [example.sourceText];
      }
      if example.targetLang == language {
        texts := texts + [example.targetText];
      }
    }
    assert examples[..|examples|] == examples;
  }

  predicate IsTextIn(e: Example, language: Language, t: string) {
    (e.sourceLang == language && e.sourceText == t) || (e.targetLang == language && e.targetText == t)
  }

  lemma {:induction false} TextsInHold(examples: seq<Example>, language: Language, t: string)
    ensures t in TextsIn(examples, language) <==> exists i :: 0 <= i < |examples| && IsTextIn(examples[i], language, t)
  {
    if examples != [] {
      var init := examples[..|examples| - 1];
      TextsInHold(init, language, t);
      if i :| 0 <= i < |examples| && IsTextIn(examples[i], language, t) {
        if i < |init| { assert IsTextIn(init[i], language, t); }
      }
      if i :| 0 <= i < |init| && IsTextIn(init[i], language, t) {
        assert IsTextIn(examples[i], language, t);
      }
    }
  }

  /** Whatever the direction, the Kaqchikel texts of the examples are the corpus's Kaqchikel column. */
  lemma KaqchikelColumn(pairs: seq<Pair>, direction: Choice, t: string)
    ensures t in TextsIn(Examples(pairs, direction), Kaqchikel) <==> exists i :: 0 <= i < |pairs| && pairs[i].1 == t
  {
    hide TextsIn;
    var examples := Examples(pairs, direction);
    TextsInHold(examples, Kaqchikel, t);
    if k :| 0 <= k < |examples| && IsTextIn(examples[k], Kaqchikel, t) {
      assert pairs[if k < |pairs| then k else k - |pairs|].1 == t;
    }
    if i :| 0 <= i < |pairs| && pairs[i].1 == t {
      assert IsTextIn(examples[i], Kaqchikel, t);
    }
  }
}
