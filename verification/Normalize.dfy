/** Text normalisation, `ml/data/normalize.py`.  Unicode NFC is a parameter; what is assumed of it is `StableNfc`. */
module Normalize {
  import opened Text

  const LOOKALIKE: char := '\U{02C8}'

  /** `normalize_glottal_marks`. */
  function NormalizeGlottalMarks(text: string): (r: string)
    ensures |r| == |text|
    ensures forall i :: 0 <= i < |r| ==> r[i] == if text[i] == LOOKALIKE then '\'' else text[i]
  {
    seq(|text|, i requires 0 <= i < |text| => if text[i] == LOOKALIKE then '\'' else text[i])
  }

  /** Replacing every run of whitespace by one space. */
  function Collapse(text: string): string
    decreases |text|
  {
    if text == "" then ""
    else if IsSpace(text[0]) then " " + Collapse(LStrip(text[1..]))
    else [text[0]] + Collapse(text[1..])
  }

  function Tidy(text: string): string {
    Strip(Collapse(text))
  }

  function NormalizeText(nfc: string -> string, text: string): string {
    Tidy(NormalizeGlottalMarks(nfc(text)))
  }

  /** NFC is idempotent (section 1.2 of UAX #15), and neither rewrite makes an NFC text stop being one. */
  ghost predicate StableNfc(nfc: string -> string) {
    && (forall t :: nfc(nfc(t)) == nfc(t))
    && (forall t :: nfc(t) == t ==> nfc(NormalizeGlottalMarks(t)) == NormalizeGlottalMarks(t))
    && (forall t :: nfc(t) == t ==> nfc(Tidy(t)) == Tidy(t))
  }

  // ------------------------------------------------------------ tidying keeps the words

  lemma {:induction false} RStripAppend(x: string, y: string)
    requires RStrip(y) != ""
    ensures RStrip(x + y) == x + RStrip(y)
  {
    hide IsSpace;
    if IsSpace(y[|y| - 1]) {
      assert (x + y)[..|x + y| - 1] == x + y[..|y| - 1];
      RStripAppend(x, y[..|y| - 1]);
    }
  }

  lemma {:induction false} LStripKeepsWords(text: string)
    ensures WordsFrom(LStrip(text), "") == WordsFrom(text, "")
  {
    if text != "" && IsSpace(text[0]) { LStripKeepsWords(text[1..]); }
  }

  lemma WordStarts(text: string)
    requires text != "" && !IsSpace(text[0])
    ensures WordsFrom(text, "") == WordsFrom(text[1..], [text[0]])
  {
    assert "" + [text[0]] == [text[0]];
  }

  lemma TrailingSpaceGoes(word: string)
    requires word != "" && NoSpace(word)
    ensures RStrip(word) == word && RStrip(word + " ") == word
  {
    assert word[|word| - 1] in word;
    assert (word + " ")[..|word|] == word;
  }

  /** What collapsing and stripping make of a text whose first word has begun with `current`. */
  predicate TidiesTo(text: string, current: string) {
    var words := WordsFrom(text, current);
    words != [] && RStrip(current + Collapse(text)) == Join(" ", words) && Join(" ", words) != ""
  }

  lemma TidyLastWord(text: string, current: string)
    requires current != "" && NoSpace(current)
    requires text != "" && IsSpace(text[0]) && LStrip(text[1..]) == ""
    ensures TidiesTo(text, current)
  {
    LStripKeepsWords(text[1..]);
    assert WordsFrom(text, current) == [current];
    assert current + Collapse(text) == current + " ";
    TrailingSpaceGoes(current);
  }

  lemma JoinCons(word: string, words: seq<string>)
    requires words != []
    ensures Join(" ", [word] + words) == word + " " + Join(" ", words)
  {
    assert ([word] + words)[1..] == words;
  }

  lemma TidyNextWord(text: string, current: string, rest: string)
    requires current != "" && NoSpace(current)
    requires text != "" && IsSpace(text[0]) && rest == LStrip(text[1..]) && rest != ""
    requires TidiesTo(rest[1..], [rest[0]])
    ensures TidiesTo(text, current)
  {
    hide IsSpace, NoSpace;
    var words := WordsFrom(rest[1..], [rest[0]]);
    var tail := [rest[0]] + Collapse(rest[1..]);
    assert WordsFrom(text, current) == [current] + words by {
      LStripKeepsWords(text[1..]);
      WordStarts(rest);
    }
    assert current + Collapse(text) == (current + " ") + tail by {
      assert Collapse(text) == " " + tail;
    }
    JoinCons(current, words);
    RStripAppend(current + " ", tail);
  }

  lemma {:induction false} TidyFrom(text: string, current: string)
    requires current != "" && NoSpace(current)
    ensures TidiesTo(text, current)
    decreases |text|
  {
    hide IsSpace;
    if text == "" {
      assert current + Collapse(text) == current;
      TrailingSpaceGoes(current);
    } else if !IsSpace(text[0]) {
      assert current + Collapse(text) == (current + [text[0]]) + Collapse(text[1..]);
      TidyFrom(text[1..], current + [text[0]]);
    } else {
      var rest := LStrip(text[1..]);
      if rest == "" {
        TidyLastWord(text, current);
      } else {
        TidyFrom(rest[1..], [rest[0]]);
        TidyNextWord(text, current, rest);
      }
    }
  }

  /** Collapsing whitespace and stripping is the words of the text with one space between them. */
  lemma TidyIsWords(text: string)
    ensures Tidy(text) == Join(" ", Words(text))
  {
    var rest := LStrip(text);
    LStripKeepsWords(text);
    if text != "" && IsSpace(text[0]) {
      assert LStrip(text[1..]) == rest;
      assert Collapse(text)[1..] == Collapse(rest);
    }
    assert LStrip(Collapse(text)) == Collapse(rest);
    if rest != "" {
      WordStarts(rest);
      TidyFrom(rest[1..], [rest[0]]);
    }
  }

  predicate AllWords(words: seq<string>) {
    forall i :: 0 <= i < |words| ==> words[i] != "" && NoSpace(words[i])
  }

  /** The words of a space-joined list of words are that list. */
  lemma {:induction false} WordsOfJoin(words: seq<string>)
    requires AllWords(words)
    ensures Words(Join(" ", words)) == words
  {
    if words != [] {
      var rest := if |words| == 1 then "" else " " + Join(" ", words[1..]);
      assert Join(" ", words) == words[0] + rest;
      ReadWord(words[0], rest, "");
      assert "" + words[0] == words[0];
      if |words| > 1 {
        assert rest[1..] == Join(" ", words[1..]);
        WordsOfJoin(words[1..]);
      }
    }
  }

  lemma WordsAreAllWords(text: string)
    ensures AllWords(Words(text))
  {
    forall i | 0 <= i < |Words(text)| ensures Words(text)[i] != "" && NoSpace(Words(text)[i]) {
      WordsAreWords(text, "", Words(text)[i]);
    }
  }

  lemma TidyIsIdempotent(text: string)
    ensures Tidy(Tidy(text)) == Tidy(text) && Words(Tidy(text)) == Words(text)
  {
    TidyIsWords(text);
    TidyIsWords(Tidy(text));
    WordsAreAllWords(text);
    WordsOfJoin(Words(text));
  }

  /** The only whitespace in a tidied text is the plain space. */
  predicate PlainSpaces(text: string) {
    forall c :: c in text ==> IsSpace(c) ==> c == ' '
  }

  lemma {:induction false} CollapseChars(text: string, c: char)
    requires c in Collapse(text)
    ensures c == ' ' || (c in text && !IsSpace(c))
    decreases |text|
  {
    if IsSpace(text[0]) {
      if c != ' ' { CollapseChars(LStrip(text[1..]), c); }
    } else if c != text[0] {
      CollapseChars(text[1..], c);
    }
  }

  lemma TidyHasPlainSpaces(text: string)
    ensures PlainSpaces(Tidy(text)) && forall c :: c in Tidy(text) && c != ' ' ==> c in text
  {
    forall c | c in Tidy(text) ensures c == ' ' || (c in text && !IsSpace(c)) { CollapseChars(text, c); }
  }

  lemma GlottalFixpoint(text: string)
    requires LOOKALIKE !in text
    ensures NormalizeGlottalMarks(text) == text
  {
    forall i | 0 <= i < |text| ensures text[i] != LOOKALIKE { assert text[i] in text; }
  }

  /** A normalised text is a normal form: no look-alike mark, single plain spaces, no space at either end, and exactly
      the words of the composed text; normalising again changes nothing. */
  lemma NormalizeIsIdempotent(nfc: string -> string, text: string)
    requires StableNfc(nfc)
    ensures var n := NormalizeText(nfc, text);
      && NormalizeText(nfc, n) == n
      && LOOKALIKE !in n && PlainSpaces(n)
      && Words(n) == Words(NormalizeGlottalMarks(nfc(text)))
      && n == Join(" ", Words(n))
  {
    var marked := NormalizeGlottalMarks(nfc(text));
    var n := Tidy(marked);
    assert nfc(marked) == marked;
    TidyHasPlainSpaces(marked);
    assert LOOKALIKE !in marked;
    assert LOOKALIKE !in n;
    GlottalFixpoint(n);
    TidyIsIdempotent(marked);
    TidyIsWords(n);
  }
}
