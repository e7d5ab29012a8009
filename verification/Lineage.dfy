/** Chains of training runs, what each adds to the tokenizer, what its model card records, and what the evaluator
    reconstructs from that: `ml/training/train.py` and `ml/evaluation/evaluate_checkpoint.py`. */
module Lineage {
  import opened Options
  import opened Text
  import opened Direction
  import opened VocabGap
  import opened TokenizerExtension
  import CE = ComposedEmbeddings

  // -------------------------------------------------------------------- one run

  /** One run of the chain.  `scoped` runs use the Kaqchikel texts only, earlier ones used both languages;
      `pieces` is whatever the subword trainer produced; `cardReadable` says whether the model card saved with
      the checkpoint can still be read. */
  datatype Run = Run(scoped: bool, direction: Choice, pieces: set<string>, cardReadable: bool)

  function BothSides(examples: seq<Example>): (texts: seq<string>)
    ensures |texts| == 2 * |examples|
    ensures forall i :: 0 <= i < |examples| ==>
      texts[i] == examples[i].sourceText && texts[|examples| + i] == examples[i].targetText
  {
    seq(|examples|, i requires 0 <= i < |examples| => examples[i].sourceText)
    + seq(|examples|, i requires 0 <= i < |examples| => examples[i].targetText)
  }

  /** The `sample_texts` of a run's character/word step. */
  function SampleTexts(run: Run, pairs: seq<Pair>): seq<string> {
    var examples := Examples(pairs, run.direction);
    (if run.scoped then TextsIn(examples, Kaqchikel) else BothSides(examples)) + ALL_TAGS
  }

  /** What the character/word step of a run adds to vocabulary v. */
  function WordStep(run: Run, pairs: seq<Pair>, v: set<string>): seq<string> {
    NewTokens(SampleTexts(run, pairs), v)
  }

  /** What the subword step, which follows, adds; it is skipped for an empty corpus. */
  function SubwordStep(run: Run, pairs: seq<Pair>, v: set<string>): seq<string> {
    if TextsIn(Examples(pairs, run.direction), Kaqchikel) == [] then []
    else NewSubwords(run.pieces, v + Elements(WordStep(run, pairs, v)))
  }

  /** What one run added, in its two steps. */
  datatype Step = Step(words: seq<string>, subwords: seq<string>)

  function StepOf(run: Run, pairs: seq<Pair>, v: set<string>): Step {
    Step(WordStep(run, pairs, v), SubwordStep(run, pairs, v))
  }

  /** `embedding_init_compositional_coverage`. */
  method CompositionalCoverage(addedTokens: seq<string>, baseVocab: set<string>) returns (coverage: nat)
    ensures coverage == CE.CountTrue(CE.Coverage(addedTokens, baseVocab))
  {
    var base: map<string, nat> := map t | t in baseVocab :: 0;
    assert base.Keys == baseVocab;
    coverage := CE.CountDecomposableTokens(addedTokens, base);
  }

  /** The two extension steps of `extend_vocabulary_for_examples`, for an arbitrary trained piece set. */
  method ExtendVocabularyForExamples(tokenizer: Tokenizer, examples: seq<Example>, pieces: set<string>)
    returns (words: seq<string>, subwords: seq<string>)
    requires tokenizer.Valid()
    modifies tokenizer
    ensures tokenizer.Valid()
    ensures words == NewTokens(TextsIn(examples, Kaqchikel) + ALL_TAGS, old(tokenizer.vocab))
    ensures subwords == if TextsIn(examples, Kaqchikel) == [] then []
                        else NewSubwords(pieces, old(tokenizer.vocab) + Elements(words))
    ensures tokenizer.vocab == old(tokenizer.vocab) + Elements(words) + Elements(subwords)
    ensures tokenizer.hasDecoder ==>
      tokenizer.Tracked() == old(tokenizer.Tracked()) + Elements(WholeWords(words)) + Elements(MarkedOnly(subwords))
  {
    var kaqchikelTexts := CollectTextsForLanguage(examples, Kaqchikel);
    words := tokenizer.ExtendTokenizerVocab(kaqchikelTexts + ALL_TAGS);
    if kaqchikelTexts == [] {
      subwords := [];
    } else {
      subwords := tokenizer.ExtendTokenizerVocabWithSubwords(pieces);
    }
  }

  /** A scoped run's steps are what that method adds for the run's own examples. */
  lemma ScopedRunStep(run: Run, pairs: seq<Pair>, v: set<string>)
    requires run.scoped
    ensures var texts := TextsIn(Examples(pairs, run.direction), Kaqchikel);
      var words := NewTokens(texts + ALL_TAGS, v);
      StepOf(run, pairs, v) == Step(words, if texts == [] then [] else NewSubwords(run.pieces, v + Elements(words)))
  {
  }

  // ------------------------------------------------------------------ the chain

  /** The checkpoint vocabulary after some runs. */
  function Vocab(base: set<string>, steps: seq<Step>): set<string> {
    if steps == [] then base
    else
      var last := steps[|steps| - 1];
      Vocab(base, steps[..|steps| - 1]) + (Elements(last.words) + Elements(last.subwords))
  }

  predicate FollowsAt(base: set<string>, pairs: seq<Pair>, runs: seq<Run>, steps: seq<Step>, k: nat)
    requires k < |runs| == |steps|
  {
    steps[k] == StepOf(runs[k], pairs, Vocab(base, steps[..k]))
  }

  /** `steps` is what the runs of a chain, each continuing from the previous checkpoint, added on one corpus. */
  ghost predicate Follows(base: set<string>, pairs: seq<Pair>, runs: seq<Run>, steps: seq<Step>) {
    |runs| == |steps| && forall k :: 0 <= k < |runs| ==> FollowsAt(base, pairs, runs, steps, k)
  }

  /** Every chain of runs has such steps. */
  lemma {:induction false} EveryChainHasSteps(base: set<string>, pairs: seq<Pair>, runs: seq<Run>)
    returns (steps: seq<Step>)
    ensures Follows(base, pairs, runs, steps)
  {
    if runs == [] {
      steps := [];
    } else {
      var n := |runs| - 1;
      var init := EveryChainHasSteps(base, pairs, runs[..n]);
      steps := init + [StepOf(runs[n], pairs, Vocab(base, init))];
      forall k | 0 <= k < |runs| ensures FollowsAt(base, pairs, runs, steps, k) {
        OneMoreStep(base, pairs, runs, init, steps[n], k);
      }
    }
  }

  lemma OneMoreStep(base: set<string>, pairs: seq<Pair>, runs: seq<Run>, init: seq<Step>, last: Step, k: nat)
    requires k < |runs| == |init| + 1 && Follows(base, pairs, runs[..|init|], init)
    requires last == StepOf(runs[|init|], pairs, Vocab(base, init))
    ensures FollowsAt(base, pairs, runs, init + [last], k)
  {
    hide StepOf, Vocab;
    assert (init + [last])[..k] == init[..k];
    if k < |init| { assert FollowsAt(base, pairs, runs[..|init|], init, k); } else { assert init[..k] == init; }
  }

  lemma {:induction false} VocabGrows(base: set<string>, steps: seq<Step>, j: nat, k: nat)
    requires j <= k <= |steps|
    ensures Vocab(base, steps[..j]) <= Vocab(base, steps[..k])
  {
    if j < k {
      assert steps[..k][..k - 1] == steps[..k - 1];
      VocabGrows(base, steps, j, k - 1);
    }
  }

  lemma VocabNext(base: set<string>, steps: seq<Step>, k: nat)
    requires k < |steps|
    ensures Vocab(base, steps[..k + 1]) == Vocab(base, steps[..k])
      + (Elements(steps[k].words) + Elements(steps[k].subwords))
  {
    assert steps[..k + 1][..k] == steps[..k];
  }

  /** The corpus columns. */
  function KaqchikelTexts(pairs: seq<Pair>): (t: seq<string>)
    ensures |t| == |pairs| && forall i :: 0 <= i < |pairs| ==> t[i] == pairs[i].1
  {
    seq(|pairs|, i requires 0 <= i < |pairs| => pairs[i].1)
  }

  function SpanishTexts(pairs: seq<Pair>): (t: seq<string>)
    ensures |t| == |pairs| && forall i :: 0 <= i < |pairs| ==> t[i] == pairs[i].0
  {
    seq(|pairs|, i requires 0 <= i < |pairs| => pairs[i].0)
  }

  const KAQCHIKEL_ONLY := "kaqchikel_only"

  /** `_build_train_sample_texts`. */
  function EvaluatorTexts(pairs: seq<Pair>, scoping: Option<string>): seq<string> {
    (if scoping == Some(KAQCHIKEL_ONLY) then KaqchikelTexts(pairs) else SpanishTexts(pairs) + KaqchikelTexts(pairs))
    + ALL_TAGS
  }

  /** `_build_train_sample_texts`, with its warning about an unrecognised label. */
  method BuildTrainSampleTexts(pairs: seq<Pair>, scoping: Option<string>)
    returns (sampleTexts: seq<string>, warned: bool)
    ensures sampleTexts == EvaluatorTexts(pairs, scoping)
    ensures warned <==> scoping.Some? && scoping.value != KAQCHIKEL_ONLY
  {
    warned := false;
    if scoping == Some(KAQCHIKEL_ONLY) {
      sampleTexts := KaqchikelTexts(pairs);
    } else {
      warned := scoping.Some?;
      sampleTexts := SpanishTexts(pairs) + KaqchikelTexts(pairs);
    }
    sampleTexts := sampleTexts + ALL_TAGS;
  }

  predicate InColumns(pairs: seq<Pair>, spanishToo: bool, t: string) {
    t in KaqchikelTexts(pairs) || (spanishToo && t in SpanishTexts(pairs))
  }

  /** The texts of a run, as a set, are corpus columns and tags: they do not depend on its direction. */
  lemma RunTextsAreColumns(run: Run, pairs: seq<Pair>, t: string)
    ensures t in SampleTexts(run, pairs) <==> InColumns(pairs, !run.scoped, t) || t in ALL_TAGS
  {
    if run.scoped { ScopedTexts(pairs, run.direction, t); } else { UnscopedTexts(pairs, run.direction, t); }
  }

  lemma ScopedTexts(pairs: seq<Pair>, direction: Choice, t: string)
    ensures t in TextsIn(Examples(pairs, direction), Kaqchikel) <==> t in KaqchikelTexts(pairs)
  {
    KaqchikelColumn(pairs, direction, t);
    if t in KaqchikelTexts(pairs) {
      var i :| 0 <= i < |pairs| && KaqchikelTexts(pairs)[i] == t;
      assert pairs[i].1 == t;
    }
    if i :| 0 <= i < |pairs| && pairs[i].1 == t { assert KaqchikelTexts(pairs)[i] == t; }
  }

  lemma UnscopedTexts(pairs: seq<Pair>, direction: Choice, t: string)
    ensures t in BothSides(Examples(pairs, direction)) <==> InColumns(pairs, true, t)
  {
    var examples := Examples(pairs, direction);
    var texts := BothSides(examples);
    if t in texts {
      var k :| 0 <= k < |texts| && texts[k] == t;
      SideIsColumn(pairs, direction, if k < |examples| then k else k - |examples|);
    }
    if t in KaqchikelTexts(pairs) {
      var i :| 0 <= i < |pairs| && KaqchikelTexts(pairs)[i] == t;
      ColumnIsSide(pairs, direction, i);
    }
    if t in SpanishTexts(pairs) {
      var i :| 0 <= i < |pairs| && SpanishTexts(pairs)[i] == t;
      ColumnIsSide(pairs, direction, i);
    }
  }

  lemma SideIsColumn(pairs: seq<Pair>, direction: Choice, e: nat)
    requires e < |Examples(pairs, direction)|
    ensures var x := Examples(pairs, direction)[e];
      InColumns(pairs, true, x.sourceText) && InColumns(pairs, true, x.targetText)
  {
    var p := if e < |pairs| then e else e - |pairs|;
    assert KaqchikelTexts(pairs)[p] in KaqchikelTexts(pairs) && SpanishTexts(pairs)[p] in SpanishTexts(pairs);
  }

  lemma ColumnIsSide(pairs: seq<Pair>, direction: Choice, i: nat)
    requires i < |pairs|
    ensures var texts := BothSides(Examples(pairs, direction));
      pairs[i].0 in texts && pairs[i].1 in texts
  {
    var examples := Examples(pairs, direction);
    var texts := BothSides(examples);
    assert texts[i] in texts && texts[|examples| + i] in texts;
  }

  // ------------------------------------------- two facts about the word step alone

  /** What a step adds to a grown vocabulary, a larger text set would have added to the base. */
  lemma WordStepWithinTexts(texts: seq<string>, all: seq<string>, base: set<string>, v: set<string>, t: string)
    requires base <= v && (forall x :: x in texts ==> x in all) && t in NewTokens(texts, v)
    ensures t in NewTokens(all, base)
  {
    NewTokensAre(texts, v, t);
    NewTokensAre(all, base, t);
  }

  /** A vocabulary extended for some texts has nothing left to learn from any part of them. */
  lemma CoveredTextsAddNothing(texts: seq<string>, all: seq<string>, v: set<string>, w: set<string>)
    requires (forall x :: x in texts ==> x in all) && v <= w && forall t :: t in NewTokens(all, v) ==> t in w
    ensures NewTokens(texts, w) == []
  {
    var added := NewTokens(texts, w);
    if added != [] {
      var t := added[0];
      WordStepWithinTexts(texts, all, v, w, t);
      NewTokensAre(texts, w, t);
    }
  }

  // ------------------------------------------------------- the chain's fixed point

  // Run j's texts are, after run j, covered by every later checkpoint.
  lemma SeenStaysCovered(base: set<string>, pairs: seq<Pair>, runs: seq<Run>, steps: seq<Step>, j: nat, k: nat)
    requires Follows(base, pairs, runs, steps) && j < k <= |runs|
    ensures Vocab(base, steps[..j]) <= Vocab(base, steps[..k])
    ensures forall t ::
      t in NewTokens(SampleTexts(runs[j], pairs), Vocab(base, steps[..j])) ==> t in Vocab(base, steps[..k])
  {
    VocabGrows(base, steps, j, k);
    VocabGrows(base, steps, j + 1, k);
    VocabNext(base, steps, j);
    assert FollowsAt(base, pairs, runs, steps, j);
    assert steps[j].words == NewTokens(SampleTexts(runs[j], pairs), Vocab(base, steps[..j]));
  }

  /** In a chain of runs on one corpus, all scoped (or all unscoped), the character/word step adds nothing after the
      first run, whatever direction each run used and whatever subwords came in between. */
  lemma WordStepAddsNothingAgain(base: set<string>, pairs: seq<Pair>, runs: seq<Run>, steps: seq<Step>, k: nat)
    requires Follows(base, pairs, runs, steps) && 0 < k < |runs| && (runs[0].scoped ==> runs[k].scoped)
    ensures steps[k].words == []
  {
    var first, texts := SampleTexts(runs[0], pairs), SampleTexts(runs[k], pairs);
    forall t | t in texts ensures t in first {
      RunTextsAreColumns(runs[0], pairs, t);
      RunTextsAreColumns(runs[k], pairs, t);
    }
    SeenStaysCovered(base, pairs, runs, steps, 0, k);
    CoveredTextsAddNothing(texts, first, Vocab(base, steps[..0]), Vocab(base, steps[..k]));
    assert FollowsAt(base, pairs, runs, steps, k);
  }

  /** Reconstruction against the pristine vocabulary returns exactly the multi-character tokens the chain's
      character/word steps ever added. */
  lemma ReconstructionIsExact(base: set<string>, pairs: seq<Pair>, runs: seq<Run>, steps: seq<Step>,
                              scoping: Option<string>)
    requires Follows(base, pairs, runs, steps) && runs != [] && (scoping == Some(KAQCHIKEL_ONLY) <==> runs[0].scoped)
    requires forall k :: 0 <= k < |runs| ==> runs[k].scoped == runs[0].scoped
    ensures WholeWords(NewTokens(EvaluatorTexts(pairs, scoping), base)) == WholeWords(steps[0].words)
    ensures forall k :: 0 < k < |runs| ==> steps[k].words == []
  {
    var texts, first := EvaluatorTexts(pairs, scoping), SampleTexts(runs[0], pairs);
    forall t ensures t in texts <==> t in first { RunTextsAreColumns(runs[0], pairs, t); }
    NewTokensDependOnTextSet(texts, first, base);
    assert FollowsAt(base, pairs, runs, steps, 0);
    assert Vocab(base, steps[..0]) == base;
    forall k | 0 < k < |runs| ensures steps[k].words == [] {
      WordStepAddsNothingAgain(base, pairs, runs, steps, k);
    }
  }

  // ------------------------------------------------------------------ provenance

  /** `_resolve_vocab_extension_scoping_for_model_card`; `ancestor` is the label read from the ancestor's card. */
  function ResolveScoping(initModel: Option<string>, ancestor: Option<string>): Option<string> {
    if initModel.None? || initModel.value == "" then Some(KAQCHIKEL_ONLY)
    else if ancestor == Some(KAQCHIKEL_ONLY) then Some(KAQCHIKEL_ONLY)
    else None
  }

  /** The label run k writes on its card: a run from before the label existed writes none. */
  function CardScoping(runs: seq<Run>, k: nat): Option<string>
    requires k < |runs|
  {
    if !runs[k].scoped then None
    else if k == 0 then ResolveScoping(None, None)
    else ResolveScoping(Some("checkpoint"), if runs[k - 1].cardReadable then CardScoping(runs, k - 1) else None)
  }

  /** A card carries the scoped label exactly when every run up to it was scoped and every ancestor's card could
      be read. */
  lemma {:induction false} CardIsScopedIff(runs: seq<Run>, k: nat)
    requires k < |runs|
    ensures CardScoping(runs, k) == Some(KAQCHIKEL_ONLY) <==>
      ((forall j :: 0 <= j <= k ==> runs[j].scoped) && forall j :: 0 <= j < k ==> runs[j].cardReadable)
  {
    if k > 0 { CardIsScopedIff(runs, k - 1); }
  }

  /** The label the evaluator reads from the last checkpoint of the chain. */
  function EvaluatorScoping(runs: seq<Run>): Option<string>
    requires runs != []
  {
    if runs[|runs| - 1].cardReadable then CardScoping(runs, |runs| - 1) else None
  }

  predicate ReadsScoped(runs: seq<Run>)
    requires runs != []
  {
    EvaluatorScoping(runs) == Some(KAQCHIKEL_ONLY)
  }

  function Reconstructed(base: set<string>, pairs: seq<Pair>, runs: seq<Run>): seq<string>
    requires runs != []
  {
    WholeWords(NewTokens(EvaluatorTexts(pairs, EvaluatorScoping(runs)), base))
  }

  lemma EvaluatorTextsAreColumns(pairs: seq<Pair>, runs: seq<Run>, t: string)
    requires runs != []
    ensures t in EvaluatorTexts(pairs, EvaluatorScoping(runs)) <==>
      InColumns(pairs, !ReadsScoped(runs), t) || t in ALL_TAGS
  {
  }

  lemma EvaluatorCoversRun(pairs: seq<Pair>, runs: seq<Run>, k: nat)
    requires k < |runs|
    ensures forall x :: x in SampleTexts(runs[k], pairs) ==> x in EvaluatorTexts(pairs, EvaluatorScoping(runs))
  {
    CardIsScopedIff(runs, |runs| - 1);
    forall x | x in SampleTexts(runs[k], pairs) ensures x in EvaluatorTexts(pairs, EvaluatorScoping(runs)) {
      RunTextsAreColumns(runs[k], pairs, x);
      EvaluatorTextsAreColumns(pairs, runs, x);
    }
  }

  lemma WordsOfStep(base: set<string>, pairs: seq<Pair>, runs: seq<Run>, steps: seq<Step>, k: nat)
    requires Follows(base, pairs, runs, steps) && k < |runs|
    ensures steps[k].words == NewTokens(SampleTexts(runs[k], pairs), Vocab(base, steps[..k]))
    ensures base <= Vocab(base, steps[..k])
  {
    assert FollowsAt(base, pairs, runs, steps, k);
    VocabGrows(base, steps, 0, k);
  }

  /** The text set the evaluator picks never under-reconstructs: every whole-word token any run of any chain added
      is marked again, mixed lineages and lost cards included. */
  lemma NeverUnderReconstructs(base: set<string>, pairs: seq<Pair>, runs: seq<Run>, steps: seq<Step>, k: nat, t: string)
    requires Follows(base, pairs, runs, steps) && k < |runs| && t in WholeWords(steps[k].words)
    ensures t in Reconstructed(base, pairs, runs)
  {
    EvaluatorCoversRun(pairs, runs, k);
    WordsOfStep(base, pairs, runs, steps, k);
    WordStepWithinTexts(SampleTexts(runs[k], pairs), EvaluatorTexts(pairs, EvaluatorScoping(runs)), base,
                        Vocab(base, steps[..k]), t);
  }

  // ----------------------------------------------------------------- diagnostics

  /** The over-reconstruction warning: reconstructed tokens the checkpoint does not have. */
  function OverReconstructed(base: set<string>, pairs: seq<Pair>, runs: seq<Run>, steps: seq<Step>): set<string>
    requires runs != []
  {
    set t | t in Reconstructed(base, pairs, runs) && t !in Vocab(base, steps)
  }

  // Whatever run k was shown is in the final vocabulary.
  lemma ShownIsInCheckpoint(base: set<string>, pairs: seq<Pair>, runs: seq<Run>, steps: seq<Step>, k: nat, t: string)
    requires Follows(base, pairs, runs, steps) && k < |runs| && t in NewTokens(SampleTexts(runs[k], pairs), base)
    ensures t in Vocab(base, steps)
  {
    var v := Vocab(base, steps[..k]);
    SeenStaysCovered(base, pairs, runs, steps, k, |runs|);
    assert steps[..|runs|] == steps;
    NewTokensAre(SampleTexts(runs[k], pairs), base, t);
    NewTokensAre(SampleTexts(runs[k], pairs), v, t);
  }

  // A run shown at least what the evaluator picks rules the warning out.
  lemma RunCoversEvaluator(base: set<string>, pairs: seq<Pair>, runs: seq<Run>, steps: seq<Step>, k: nat)
    requires Follows(base, pairs, runs, steps) && k < |runs| && (runs[k].scoped ==> ReadsScoped(runs))
    ensures OverReconstructed(base, pairs, runs, steps) == {}
  {
    var texts := EvaluatorTexts(pairs, EvaluatorScoping(runs));
    forall x | x in texts ensures x in SampleTexts(runs[k], pairs) {
      RunTextsAreColumns(runs[k], pairs, x);
      EvaluatorTextsAreColumns(pairs, runs, x);
    }
    forall t | t in Reconstructed(base, pairs, runs) ensures t in Vocab(base, steps) {
      WordStepWithinTexts(texts, SampleTexts(runs[k], pairs), base, base, t);
      ShownIsInCheckpoint(base, pairs, runs, steps, k, t);
    }
  }

  /** The over-reconstruction warning fires exactly when no run was unscoped, the scoped label was nevertheless not
      read, and the Spanish column holds a longer word the checkpoint never got.  With the label read it never does. */
  lemma OverReconstructionIff(base: set<string>, pairs: seq<Pair>, runs: seq<Run>, steps: seq<Step>)
    requires Follows(base, pairs, runs, steps) && runs != []
    ensures OverReconstructed(base, pairs, runs, steps) != {} <==>
      (&& (forall k :: 0 <= k < |runs| ==> runs[k].scoped)
       && !ReadsScoped(runs)
       && exists w :: w in WordsOf(SpanishTexts(pairs)) && |w| > 1 && w !in Vocab(base, steps))
  {
    if ReadsScoped(runs) {
      RunCoversEvaluator(base, pairs, runs, steps, 0);
    } else if k :| 0 <= k < |runs| && !runs[k].scoped {
      RunCoversEvaluator(base, pairs, runs, steps, k);
    } else {
      var over := OverReconstructed(base, pairs, runs, steps);
      forall t ensures t in over <==> t in WordsOf(SpanishTexts(pairs)) && |t| > 1 && t !in Vocab(base, steps) {
        UnscopedReadOverReconstructs(base, pairs, runs, steps, t);
      }
    }
  }

  lemma UnscopedReadOverReconstructs(base: set<string>, pairs: seq<Pair>, runs: seq<Run>, steps: seq<Step>, t: string)
    requires Follows(base, pairs, runs, steps) && runs != [] && !ReadsScoped(runs)
    ensures t in OverReconstructed(base, pairs, runs, steps) <==>
      t in WordsOf(SpanishTexts(pairs)) && |t| > 1 && t !in Vocab(base, steps)
  {
    var texts := EvaluatorTexts(pairs, EvaluatorScoping(runs));
    VocabGrows(base, steps, 0, |steps|);
    assert steps[..|steps|] == steps;
    NewTokensAre(texts, base, t);
    if t in OverReconstructed(base, pairs, runs, steps) && t !in WordsOf(SpanishTexts(pairs)) {
      var x :| x in texts && t in Words(x);
      RunTextsAreColumns(runs[0], pairs, x);
      NewTokensAre(SampleTexts(runs[0], pairs), base, t);
      ShownIsInCheckpoint(base, pairs, runs, steps, 0, t);
    }
  }

  /** The checkpoint's added tokens that could be whole words or subword continuations. */
  function Ambiguous(base: set<string>, checkpoint: set<string>): set<string> {
    set t | t in checkpoint && t !in base && |t| > 1 && !HasMarker(t)
  }

  function Unaccounted(base: set<string>, pairs: seq<Pair>, runs: seq<Run>, steps: seq<Step>): set<string>
    requires runs != []
  {
    Ambiguous(base, Vocab(base, steps)) - Elements(Reconstructed(base, pairs, runs))
  }

  /** `new_tokens_added` on a run's card. */
  function NewTokensAdded(step: Step): nat {
    |step.words| + |step.subwords|
  }

  /** The under-reconstruction warning, judged by the last run's card; without a card there is only a note. */
  predicate WarnsUnderReconstruction(base: set<string>, pairs: seq<Pair>, runs: seq<Run>, steps: seq<Step>)
    requires |runs| == |steps| > 0
  {
    runs[|runs| - 1].cardReadable && |Unaccounted(base, pairs, runs, steps)| > NewTokensAdded(steps[|steps| - 1])
  }

  /** Every subword any of the steps added. */
  function AllSubwords(steps: seq<Step>): set<string> {
    if steps == [] then {} else AllSubwords(steps[..|steps| - 1]) + Elements(steps[|steps| - 1].subwords)
  }

  lemma {:induction false} AddedByWordsOrSubwords(base: set<string>, steps: seq<Step>, t: string) returns (j: nat)
    requires t in Vocab(base, steps) && t !in base && t !in AllSubwords(steps)
    ensures j < |steps| && t in steps[j].words
  {
    var n := |steps| - 1;
    if t in Vocab(base, steps[..n]) { j := AddedByWordsOrSubwords(base, steps[..n], t); } else { j := n; }
  }

  /** Only subword pieces are ever left unaccounted for. */
  lemma UnaccountedAreSubwords(base: set<string>, pairs: seq<Pair>, runs: seq<Run>, steps: seq<Step>, t: string)
    requires Follows(base, pairs, runs, steps) && runs != [] && t in Unaccounted(base, pairs, runs, steps)
    ensures t in AllSubwords(steps)
  {
    if t !in AllSubwords(steps) {
      var j := AddedByWordsOrSubwords(base, steps, t);
      NeverUnderReconstructs(base, pairs, runs, steps, j, t);
    }
  }

  lemma {:induction false} NoSubwords(steps: seq<Step>)
    requires forall j :: 0 <= j < |steps| ==> steps[j].subwords == []
    ensures AllSubwords(steps) == {}
  {
    if steps != [] { NoSubwords(steps[..|steps| - 1]); }
  }

  lemma {:induction false} FewElements(tokens: seq<string>)
    ensures |Elements(tokens)| <= |tokens|
  {
    if tokens != [] {
      FewElements(tokens[1..]);
      assert Elements(tokens) == {tokens[0]} + Elements(tokens[1..]);
    }
  }

  lemma Smaller(a: set<string>, b: set<string>)
    requires a <= b
    ensures |a| <= |b|
  {
    assert b == a + (b - a);
  }

  /** The under-reconstruction warning never fires when only the last run added subwords. */
  lemma NoFalseAlarmForLastRunSubwords(base: set<string>, pairs: seq<Pair>, runs: seq<Run>, steps: seq<Step>)
    requires Follows(base, pairs, runs, steps) && runs != []
    requires forall j :: 0 <= j < |runs| - 1 ==> steps[j].subwords == []
    ensures !WarnsUnderReconstruction(base, pairs, runs, steps)
  {
    var last := steps[|steps| - 1].subwords;
    NoSubwords(steps[..|steps| - 1]);
    forall t | t in Unaccounted(base, pairs, runs, steps) ensures t in Elements(last) {
      UnaccountedAreSubwords(base, pairs, runs, steps, t);
    }
    FewElements(last);
    Smaller(Unaccounted(base, pairs, runs, steps), Elements(last));
  }

  function Markerless(tokens: set<string>): set<string> {
    set t | t in tokens && !HasMarker(t)
  }

  /** The chain's marker-less subwords that are no words of the texts the evaluator picks. */
  function HiddenSubwords(pairs: seq<Pair>, runs: seq<Run>, steps: seq<Step>): set<string>
    requires runs != []
  {
    Markerless(AllSubwords(steps)) - WordsOf(EvaluatorTexts(pairs, EvaluatorScoping(runs)))
  }

  /** On every lineage, exactly the hidden subwords stay unaccounted for, so the warning fires exactly when the last
      card was read and they outnumber the tokens the last run added: it counts subwords, not missed words. */
  lemma WarningCountsSubwords(base: set<string>, pairs: seq<Pair>, runs: seq<Run>, steps: seq<Step>)
    requires Follows(base, pairs, runs, steps) && runs != []
    ensures Unaccounted(base, pairs, runs, steps) == HiddenSubwords(pairs, runs, steps)
    ensures WarnsUnderReconstruction(base, pairs, runs, steps) <==>
      && runs[|runs| - 1].cardReadable
      && |HiddenSubwords(pairs, runs, steps)| > |steps[|steps| - 1].words| + |steps[|steps| - 1].subwords|
  {
    var unaccounted, hidden := Unaccounted(base, pairs, runs, steps), HiddenSubwords(pairs, runs, steps);
    forall t | t in unaccounted ensures t in hidden { UnaccountedIsHidden(base, pairs, runs, steps, t); }
    forall t | t in hidden ensures t in unaccounted { HiddenIsUnaccounted(base, pairs, runs, steps, t); }
    assert unaccounted == hidden;
  }

  lemma UnaccountedIsHidden(base: set<string>, pairs: seq<Pair>, runs: seq<Run>, steps: seq<Step>, t: string)
    requires Follows(base, pairs, runs, steps) && runs != [] && t in Unaccounted(base, pairs, runs, steps)
    ensures t in HiddenSubwords(pairs, runs, steps)
  {
    UnaccountedAreSubwords(base, pairs, runs, steps, t);
    NewTokensAre(EvaluatorTexts(pairs, EvaluatorScoping(runs)), base, t);
  }

  lemma HiddenIsUnaccounted(base: set<string>, pairs: seq<Pair>, runs: seq<Run>, steps: seq<Step>, t: string)
    requires Follows(base, pairs, runs, steps) && runs != [] && t in HiddenSubwords(pairs, runs, steps)
    ensures t in Unaccounted(base, pairs, runs, steps)
  {
    var k := SubwordOfSomeStep(steps, t);
    SubwordOfStep(base, pairs, runs, steps, k, t);
    StepIsInCheckpoint(base, steps, k, t);
    NewTokensAre(EvaluatorTexts(pairs, EvaluatorScoping(runs)), base, t);
  }

  lemma ScopedSubwordsAreHidden(base: set<string>, pairs: seq<Pair>, runs: seq<Run>, steps: seq<Step>)
    requires Follows(base, pairs, runs, steps) && runs != [] && ReadsScoped(runs)
    ensures HiddenSubwords(pairs, runs, steps) == Markerless(AllSubwords(steps))
  {
    var words := WordsOf(EvaluatorTexts(pairs, EvaluatorScoping(runs)));
    forall t | t in Markerless(AllSubwords(steps)) ensures t !in words {
      var k := SubwordOfSomeStep(steps, t);
      SubwordIsNoWord(base, pairs, runs, steps, k, t);
    }
  }

  /** With the scoped label read no subword is a word of the texts, so every marker-less one counts. */
  lemma ScopedWarningCountsSubwords(base: set<string>, pairs: seq<Pair>, runs: seq<Run>, steps: seq<Step>)
    requires Follows(base, pairs, runs, steps) && runs != [] && ReadsScoped(runs)
    ensures Unaccounted(base, pairs, runs, steps) == Markerless(AllSubwords(steps))
    ensures WarnsUnderReconstruction(base, pairs, runs, steps) <==>
      |Markerless(AllSubwords(steps))| > |steps[|steps| - 1].words| + |steps[|steps| - 1].subwords|
  {
    WarningCountsSubwords(base, pairs, runs, steps);
    ScopedSubwordsAreHidden(base, pairs, runs, steps);
  }

  // -------------------------------------------- what reconstruction marks, on every lineage

  predicate AddedAsWord(steps: seq<Step>, t: string) {
    exists k :: 0 <= k < |steps| && t in WholeWords(steps[k].words)
  }

  /** The continuation pieces that reconstruction marks as word starts although no run added them as words: those that
      happen to be words of the texts the evaluator picks. */
  predicate MarkedContinuation(pairs: seq<Pair>, runs: seq<Run>, steps: seq<Step>, t: string)
    requires runs != []
  {
    t in AllSubwords(steps) && t in WordsOf(EvaluatorTexts(pairs, EvaluatorScoping(runs)))
  }

  /** On every lineage, exactly the tokens of the checkpoint that some run added as whole words, and those continuation
      pieces, are reconstructed. */
  lemma ReconstructedIff(base: set<string>, pairs: seq<Pair>, runs: seq<Run>, steps: seq<Step>, t: string)
    requires Follows(base, pairs, runs, steps) && runs != []
    ensures t in Reconstructed(base, pairs, runs) && t in Vocab(base, steps)
      <==> AddedAsWord(steps, t) || MarkedContinuation(pairs, runs, steps, t)
  {
    hide Follows, EvaluatorTexts, EvaluatorScoping, AllSubwords, NewTokens;
    NewTokensAre(EvaluatorTexts(pairs, EvaluatorScoping(runs)), base, t);
    if t in Reconstructed(base, pairs, runs) && t in Vocab(base, steps) && t !in AllSubwords(steps) {
      var k := AddedByWordsOrSubwords(base, steps, t);
      assert t in WholeWords(steps[k].words);
    }
    if k :| 0 <= k < |steps| && t in WholeWords(steps[k].words) {
      assert |runs| == |steps| by { SameLength(base, pairs, runs, steps); }
      NeverUnderReconstructs(base, pairs, runs, steps, k, t);
      WordIsInCheckpoint(base, steps, k, t);
    }
    if t in AllSubwords(steps) {
      var k := SubwordOfSomeStep(steps, t);
      SubwordOfStep(base, pairs, runs, steps, k, t);
      StepIsInCheckpoint(base, steps, k, t);
    }
  }

  lemma SameLength(base: set<string>, pairs: seq<Pair>, runs: seq<Run>, steps: seq<Step>)
    requires Follows(base, pairs, runs, steps)
    ensures |runs| == |steps|
  {
  }

  lemma WordIsInCheckpoint(base: set<string>, steps: seq<Step>, k: nat, t: string)
    requires k < |steps| && t in steps[k].words
    ensures t in Vocab(base, steps)
  {
    VocabNext(base, steps, k);
    VocabGrows(base, steps, k + 1, |steps|);
    assert steps[..|steps|] == steps;
  }

  /** With the scoped label read there are none of those: what is reconstructed is exactly what was added as a word. */
  lemma ScopedReconstructionIsExact(base: set<string>, pairs: seq<Pair>, runs: seq<Run>, steps: seq<Step>, t: string)
    requires Follows(base, pairs, runs, steps) && runs != [] && ReadsScoped(runs)
    ensures t in Reconstructed(base, pairs, runs) <==> AddedAsWord(steps, t)
  {
    hide EvaluatorTexts, Follows, AddedAsWord;
    ReconstructedIff(base, pairs, runs, steps, t);
    if t in AllSubwords(steps) {
      var k := SubwordOfSomeStep(steps, t);
      SubwordIsNoWord(base, pairs, runs, steps, k, t);
    }
    OverReconstructionIff(base, pairs, runs, steps);
    assert t !in OverReconstructed(base, pairs, runs, steps);
  }

  lemma {:induction false} SubwordOfSomeStep(steps: seq<Step>, t: string) returns (k: nat)
    requires t in AllSubwords(steps)
    ensures k < |steps| && t in steps[k].subwords
  {
    var n := |steps| - 1;
    if t in steps[n].subwords { k := n; } else { k := SubwordOfSomeStep(steps[..n], t); }
  }

  lemma SubwordIsNew(run: Run, pairs: seq<Pair>, v: set<string>, t: string)
    requires t in SubwordStep(run, pairs, v)
    ensures t !in v && t !in WordStep(run, pairs, v) && |t| > 1
  {
    assert t in HighValue(run.pieces);
  }

  lemma StepIsInCheckpoint(base: set<string>, steps: seq<Step>, k: nat, t: string)
    requires k < |steps| && t in steps[k].subwords
    ensures t in Vocab(base, steps)
  {
    VocabNext(base, steps, k);
    VocabGrows(base, steps, k + 1, |steps|);
    assert steps[..|steps|] == steps;
  }

  lemma SubwordOfStep(base: set<string>, pairs: seq<Pair>, runs: seq<Run>, steps: seq<Step>, k: nat, t: string)
    requires Follows(base, pairs, runs, steps) && k < |steps| && t in steps[k].subwords
    ensures var v := Vocab(base, steps[..k]);
      base <= v && t !in v && t !in NewTokens(SampleTexts(runs[k], pairs), v) && |t| > 1
  {
    VocabGrows(base, steps, 0, k);
    assert FollowsAt(base, pairs, runs, steps, k);
    SubwordIsNew(runs[k], pairs, Vocab(base, steps[..k]), t);
  }

  // A subword is new when it is added, so it is no word of the texts its run had already covered.
  lemma SubwordIsNoWord(base: set<string>, pairs: seq<Pair>, runs: seq<Run>, steps: seq<Step>, k: nat, t: string)
    requires Follows(base, pairs, runs, steps) && runs != [] && ReadsScoped(runs)
    requires k < |steps| && t in steps[k].subwords
    ensures t !in WordsOf(EvaluatorTexts(pairs, EvaluatorScoping(runs)))
  {
    var texts, all := SampleTexts(runs[k], pairs), EvaluatorTexts(pairs, EvaluatorScoping(runs));
    SubwordOfStep(base, pairs, runs, steps, k, t);
    CardIsScopedIff(runs, |runs| - 1);
    forall x | x in all ensures x in texts {
      RunTextsAreColumns(runs[k], pairs, x);
      EvaluatorTextsAreColumns(pairs, runs, x);
    }
    NewTokensAre(texts, Vocab(base, steps[..k]), t);
  }

  lemma {:induction false} InAllSubwords(steps: seq<Step>, k: nat, t: string)
    requires k < |steps| && t in steps[k].subwords
    ensures t in AllSubwords(steps)
  {
    var n := |steps| - 1;
    if k < n { InAllSubwords(steps[..n], k, t); }
  }

  // ------------------------------------------------ repeating a run on the same corpus

  lemma KaqchikelTextsExist(pairs: seq<Pair>, direction: Choice)
    requires pairs != []
    ensures TextsIn(Examples(pairs, direction), Kaqchikel) != []
  {
    KaqchikelColumn(pairs, direction, pairs[0].1);
  }

  // After a run, every piece worth adding that its trainer produced is in the checkpoint.
  lemma PiecesAreKnown(base: set<string>, pairs: seq<Pair>, runs: seq<Run>, steps: seq<Step>, t: string)
    requires Follows(base, pairs, runs, steps) && runs != [] && pairs != [] && t in HighValue(runs[0].pieces)
    ensures t in Vocab(base, steps[..1])
  {
    KaqchikelTextsExist(pairs, runs[0].direction);
    assert FollowsAt(base, pairs, runs, steps, 0);
    assert steps[..0] == [];
    VocabNext(base, steps, 0);
  }

  /** Repeating a run adds nothing: no words, and no subwords if its trainer produced none that run 0's had not. */
  lemma RepeatedRunAddsNothing(base: set<string>, pairs: seq<Pair>, runs: seq<Run>, steps: seq<Step>, k: nat)
    requires Follows(base, pairs, runs, steps) && 0 < k < |runs| && pairs != []
    requires (runs[0].scoped ==> runs[k].scoped) && runs[k].pieces <= runs[0].pieces
    ensures steps[k] == Step([], [])
  {
    WordStepAddsNothingAgain(base, pairs, runs, steps, k);
    assert FollowsAt(base, pairs, runs, steps, k);
    VocabGrows(base, steps, 1, k);
    var subwords := steps[k].subwords;
    if subwords != [] {
      var t := subwords[0];
      SubwordOfStep(base, pairs, runs, steps, k, t);
      assert t in HighValue(runs[k].pieces);
      PiecesAreKnown(base, pairs, runs, steps, t);
    }
  }

  lemma SomeElement(s: set<string>)
    ensures |s| > 0 <==> s != {}
  {
  }

  /** So after a repeated run the warning fires exactly when there is any hidden subword at all, although no whole word
      was missed. */
  lemma RepeatedRunWarnsIff(base: set<string>, pairs: seq<Pair>, runs: seq<Run>, steps: seq<Step>)
    requires Follows(base, pairs, runs, steps) && |runs| >= 2 && pairs != [] && runs[|runs| - 1].cardReadable
    requires (runs[0].scoped ==> runs[|runs| - 1].scoped) && runs[|runs| - 1].pieces <= runs[0].pieces
    ensures WarnsUnderReconstruction(base, pairs, runs, steps) <==> HiddenSubwords(pairs, runs, steps) != {}
  {
    var hidden, last := HiddenSubwords(pairs, runs, steps), steps[|steps| - 1];
    assert NewTokensAdded(last) == 0 by { RepeatedRunAddsNothing(base, pairs, runs, steps, |runs| - 1); }
    SomeElement(hidden);
    WarningCountsSubwords(base, pairs, runs, steps);
  }

  /** On a lineage read as scoped, exactly when any run added a marker-less subword. */
  lemma RepeatedScopedRunWarnsIff(base: set<string>, pairs: seq<Pair>, runs: seq<Run>, steps: seq<Step>)
    requires Follows(base, pairs, runs, steps) && |runs| >= 2 && pairs != [] && ReadsScoped(runs)
    requires runs[|runs| - 1].pieces <= runs[0].pieces
    ensures WarnsUnderReconstruction(base, pairs, runs, steps) <==> Markerless(AllSubwords(steps)) != {}
  {
    CardIsScopedIff(runs, |runs| - 1);
    RepeatedRunWarnsIff(base, pairs, runs, steps);
    ScopedSubwordsAreHidden(base, pairs, runs, steps);
  }

  /** The corpus of the example, and its texts with the tags. */
  const PIZZA: seq<Pair> := [("pizza", "pizza")]
  const PIZZA_TEXTS: set<string> := {"pizza", "__es__", "__cak__"}

  lemma PizzaTextsAreWords(x: string)
    requires x in PIZZA_TEXTS
    ensures Words(x) == [x] && x != "zz"
  {
    OneWord(x);
  }

  lemma PizzaTexts(run: Run, x: string)
    requires x in SampleTexts(run, PIZZA)
    ensures x in PIZZA_TEXTS
  {
    RunTextsAreColumns(run, PIZZA, x);
  }

  lemma ZzIsNoWord(run: Run)
    ensures "zz" !in WordsOf(SampleTexts(run, PIZZA))
  {
    if "zz" in WordsOf(SampleTexts(run, PIZZA)) {
      var x :| x in SampleTexts(run, PIZZA) && "zz" in Words(x);
      PizzaTexts(run, x);
      PizzaTextsAreWords(x);
      assert false;
    }
  }

  lemma PieceIsAdded(run: Run, pairs: seq<Pair>, v: set<string>, t: string)
    requires pairs != [] && t in HighValue(run.pieces) && |t| > 1 && t !in v
    requires t !in WordsOf(SampleTexts(run, pairs))
    ensures t in SubwordStep(run, pairs, v)
  {
    KaqchikelTextsExist(pairs, run.direction);
    NewTokensAre(SampleTexts(run, pairs), v, t);
  }

  /** Two runs on that corpus whose trainer finds "zz" in "pizza". */
  predicate PizzaRuns(runs: seq<Run>) {
    |runs| == 2 && runs[0] == runs[1] && runs[0].scoped && runs[0].cardReadable && runs[0].pieces == {"zz"}
  }

  /** The last run's count does not bound the subwords of earlier runs: from any base vocabulary without "zz", running
      twice on the same corpus raises the warning although every whole word is reconstructed. */
  lemma FalseAlarmForEarlierSubwords(base: set<string>, runs: seq<Run>, steps: seq<Step>)
    requires "zz" !in base && PizzaRuns(runs) && Follows(base, PIZZA, runs, steps)
    ensures WarnsUnderReconstruction(base, PIZZA, runs, steps)
    ensures forall k, t :: 0 <= k < |steps| && t in WholeWords(steps[k].words) ==> t in Reconstructed(base, PIZZA, runs)
  {
    CardIsScopedIff(runs, 1);
    RepeatedScopedRunWarnsIff(base, PIZZA, runs, steps);
    ZzIsAdded(base, runs, steps);
    InAllSubwords(steps, 0, "zz");
    assert "zz" in Markerless(AllSubwords(steps));
    forall k, t | 0 <= k < |steps| && t in WholeWords(steps[k].words) ensures t in Reconstructed(base, PIZZA, runs) {
      NeverUnderReconstructs(base, PIZZA, runs, steps, k, t);
    }
  }

  lemma ZzIsAdded(base: set<string>, runs: seq<Run>, steps: seq<Step>)
    requires "zz" !in base && PizzaRuns(runs) && Follows(base, PIZZA, runs, steps)
    ensures "zz" in steps[0].subwords
  {
    ZzIsNoWord(runs[0]);
    PieceIsAdded(runs[0], PIZZA, base, "zz");
    assert FollowsAt(base, PIZZA, runs, steps, 0);
    assert Vocab(base, steps[..0]) == base;
  }
}
