/** What a vocabulary is missing of a corpus: `ml/training/vocab_gap.py`, `select_new_tokens` of
    `ml/training/vocab_extension.py` and `compute_new_tokens_for_texts` of `ml/training/tokenizer_extension.py`. */
module VocabGap {
  import opened Text
  import VE = VocabExtension
  import CE = ComposedEmbeddings

  /** The texts' characters, as one-character strings. */
  function Characters(texts: seq<string>): set<string> {
    set t, i | t in texts && 0 <= i < |t| :: [t[i]]
  }

  function WordsOf(texts: seq<string>): set<string> {
    set t, w | t in texts && w in Words(t) :: w
  }

  /** `extract_characters`. */
  method ExtractCharacters(texts: seq<string>) returns (characters: set<string>)
    ensures characters == Characters(texts)
  {
    characters := {};
    for k := 0 to |texts|
      invariant characters == Characters(texts[..k])
    {
      characters := characters + set i | 0 <= i < |texts[k]| :: [texts[k][i]];
      assert texts[..k + 1] == texts[..k] + [texts[k]];
    }
    assert texts[..|texts|] == texts;
  }

  /** `find_missing_characters`: whitespace is never missing. */
  function MissingCharacters(texts: seq<string>, known: set<string>): set<string> {
    set c | c in Characters(texts) && c !in known && !(c != "" && IsSpace(c[0]))
  }

  function MissingWords(texts: seq<string>, known: set<string>): set<string> {
    set w | w in WordsOf(texts) && w !in known
  }

  /** `find_missing_words`. */
  method FindMissingWords(texts: seq<string>, known: set<string>) returns (missing: set<string>)
    ensures missing == MissingWords(texts, known)
  {
    var words: set<string> := {};
    for k := 0 to |texts|
      invariant words == WordsOf(texts[..k])
    {
      words := words + set w | w in Words(texts[k]);
      assert texts[..k + 1] == texts[..k] + [texts[k]];
    }
    assert texts[..|texts|] == texts;
    missing := set w | w in words && w !in known;
  }

  function Without(tokens: seq<string>, known: set<string>): (r: seq<string>)
    ensures forall t :: t in r <==> t in tokens && t !in known
  {
    if tokens == [] then []
    else if tokens[0] in known then Without(tokens[1..], known)
    else [tokens[0]] + Without(tokens[1..], known)
  }

  lemma {:induction false} WithoutIsDistinct(tokens: seq<string>, known: set<string>)
    requires Distinct(tokens)
    ensures Distinct(Without(tokens, known))
  {
    if tokens != [] {
      WithoutIsDistinct(tokens[1..], known);
      var rest := Without(tokens[1..], known);
      forall j | 0 <= j < |rest| ensures rest[j] != tokens[0] { assert rest[j] in tokens[1..]; }
    }
  }

  /** `select_new_tokens`: the candidates that are not yet keys, once each and in sorted order. */
  function SelectNewTokens(candidates: set<string>, known: set<string>): (r: seq<string>)
    ensures forall t :: t in r <==> t in candidates && t !in known
  {
    Without(Sorted(candidates), known)
  }

  lemma SelectedAreDistinct(candidates: set<string>, known: set<string>)
    ensures Distinct(SelectNewTokens(candidates, known))
  {
    SortedIsDistinct(candidates);
    WithoutIsDistinct(Sorted(candidates), known);
  }

  lemma {:induction false} WithoutIsInOrder(tokens: seq<string>, known: set<string>)
    requires InOrder(tokens)
    ensures InOrder(Without(tokens, known))
  {
    hide Precedes;
    if tokens != [] {
      WithoutIsInOrder(tokens[1..], known);
      var rest := Without(tokens[1..], known);
      forall j | 0 <= j < |rest| ensures Precedes(tokens[0], rest[j]) {
        assert rest[j] in tokens[1..];
        var k :| 0 <= k < |tokens| - 1 && tokens[1..][k] == rest[j];
        assert tokens[k + 1] == rest[j];
      }
    }
  }

  /** Selected tokens come in lexicographic order of code points. */
  lemma SelectedAreInOrder(candidates: set<string>, known: set<string>)
    ensures InOrder(SelectNewTokens(candidates, known))
  {
    SortedIsInOrder(candidates);
    WithoutIsInOrder(Sorted(candidates), known);
  }

  /** `compute_new_tokens_for_texts`. */
  function NewTokens(texts: seq<string>, known: set<string>): seq<string> {
    SelectNewTokens(MissingCharacters(texts, known) + MissingWords(texts, known), known)
  }

  /** `_select_whole_word_tokens`. */
  function WholeWords(tokens: seq<string>): (r: seq<string>)
    ensures forall t :: t in r <==> t in tokens && |t| > 1
  {
    if tokens == [] then []
    else if |tokens[0]| > 1 then [tokens[0]] + WholeWords(tokens[1..])
    else WholeWords(tokens[1..])
  }

  /** The new tokens are exactly the missing characters and words. */
  lemma NewTokensAre(texts: seq<string>, known: set<string>, t: string)
    ensures t in NewTokens(texts, known) <==>
      (t !in known && (t in WordsOf(texts) || (t in Characters(texts) && !IsSpace(t[0]))))
    ensures t in NewTokens(texts, known) ==> t != ""
  {
    if t in WordsOf(texts) {
      var text :| text in texts && t in Words(text);
      WordsAreWords(text, "", t);
    }
  }

  /** Only the set of texts matters, not their order or repetition. */
  lemma NewTokensDependOnTextSet(a: seq<string>, b: seq<string>, known: set<string>)
    requires forall t :: t in a <==> t in b
    ensures NewTokens(a, known) == NewTokens(b, known)
  {
    assert Characters(a) == Characters(b);
    assert WordsOf(a) == WordsOf(b);
  }

  // -------------------------------------------- how the new tokens get their rows

  /** Every character of a new token is known already or a new token of its own. */
  lemma CharactersOfNewTokens(texts: seq<string>, known: set<string>, t: string, c: char)
    requires t in NewTokens(texts, known) && c in t
    ensures [c] in known || [c] in NewTokens(texts, known)
  {
    NewTokensAre(texts, known, t);
    NewTokensAre(texts, known, [c]);
    if t in WordsOf(texts) {
      var text :| text in texts && t in Words(text);
      WordsAreWords(text, "", t);
      assert c in text;
      var i :| 0 <= i < |text| && text[i] == c;
      assert [text[i]] in Characters(texts);
    }
  }

  /** A new token falls back to the global mean exactly when it is a single character. */
  lemma FallsBackIffSingleCharacter(texts: seq<string>, known: set<string>, i: nat)
    requires i < |NewTokens(texts, known)|
    ensures var tokens := NewTokens(texts, known);
      CE.TakesComposedBranch(tokens, known, i) <==> |tokens[i]| > 1
  {
    var tokens := NewTokens(texts, known);
    var t := tokens[i];
    var pool := CE.Pool(t, Elements(tokens), known);
    CE.ComposedBranchIff(tokens, known, i);
    NewTokensAre(texts, known, t);
    SelectedAreDistinct(MissingCharacters(texts, known) + MissingWords(texts, known), known);
    assert t !in tokens[..i];
    if |t| > 1 {
      forall c | c in t ensures [c] in pool { CharactersOfNewTokens(texts, known, t, c); }
      VE.CharactersSuffice(t, 0, pool);
    } else if VE.Decompose(t, pool).Some? {
      OneCharacterPiece(t, pool);
    }
  }

  lemma OneCharacterPiece(t: string, pool: set<string>)
    requires |t| == 1 && VE.Decompose(t, pool).Some?
    ensures t in pool
  {
    assert t[0..1] == t;
  }

  lemma {:induction false} CountOfLongTokens(tokens: seq<string>, bits: seq<bool>)
    requires |bits| == |tokens| && forall i :: 0 <= i < |tokens| ==> (bits[i] <==> |tokens[i]| > 1)
    ensures CE.CountTrue(bits) == |WholeWords(tokens)|
  {
    if tokens != [] { CountOfLongTokens(tokens[1..], bits[1..]); }
  }

  /** For the tokens of the character/word step, the recorded coverage is the number of whole-word tokens. */
  lemma CoverageCountsWholeWords(texts: seq<string>, known: set<string>)
    ensures var tokens := NewTokens(texts, known);
      CE.CountTrue(CE.Coverage(tokens, known)) == |WholeWords(tokens)|
  {
    var tokens := NewTokens(texts, known);
    forall i | 0 <= i < |tokens| ensures CE.TakesComposedBranch(tokens, known, i) <==> |tokens[i]| > 1 {
      FallsBackIffSingleCharacter(texts, known, i);
    }
    CountOfLongTokens(tokens, CE.Coverage(tokens, known));
  }
}
