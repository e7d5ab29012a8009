/** The tokenizer's in-place vocabulary extension and its patched decoder, `ml/training/tokenizer_extension.py`.
    The tokenizer's own `sp_model.decode` is modelled as: concatenate, turn markers into spaces, strip. */
module TokenizerExtension {
  import opened Options
  import opened Text
  import opened VocabGap

  const MARKER: char := '\U{2581}'

  predicate HasMarker(token: string) {
    token != "" && token[0] == MARKER
  }

  /** `token.removeprefix(WORD_BOUNDARY_MARKER)`. */
  function WithoutMarker(token: string): string {
    if HasMarker(token) then token[1..] else token
  }

  // ------------------------------------------------------------------- decoding

  function MarkersToSpaces(s: string): (r: string)
    ensures |r| == |s|
  {
    if s == "" then "" else [if s[0] == MARKER then ' ' else s[0]] + MarkersToSpaces(s[1..])
  }

  function NativeDecode(tokens: seq<string>): string {
    Strip(MarkersToSpaces(Concat(tokens)))
  }

  /** The tokenizer's `convert_tokens_to_string`: its own, or a wrapper around what was there before. */
  datatype Decoder = Native | Wrapped(inner: Decoder)

  predicate StartsWord(token: string, boundary: set<string>) {
    token in boundary || HasMarker(token)
  }

  /** The runs of a token list, `current` being the run read so far. */
  function RunsFrom(tokens: seq<string>, boundary: set<string>, current: seq<string>): seq<seq<string>> {
    if tokens == [] then (if current == [] then [] else [current])
    else if StartsWord(tokens[0], boundary) && current != [] then
      [current] + RunsFrom(tokens[1..], boundary, [tokens[0]])
    else RunsFrom(tokens[1..], boundary, current + [tokens[0]])
  }

  function Runs(tokens: seq<string>, boundary: set<string>): seq<seq<string>> {
    RunsFrom(tokens, boundary, [])
  }

  /** A run whose leading token we vouch for loses that token's marker before the inner decode. */
  function Unmarked(run: seq<string>, boundary: set<string>): seq<string> {
    if run != [] && run[0] in boundary then [WithoutMarker(run[0])] + run[1..] else run
  }

  function DecodeRuns(runs: seq<seq<string>>, boundary: set<string>, inner: Decoder): seq<string>
    decreases inner, 1, |runs|
  {
    if runs == [] then []
    else [Decode(inner, boundary, Unmarked(runs[0], boundary))] + DecodeRuns(runs[1..], boundary, inner)
  }

  function NonEmpty(parts: seq<string>): seq<string> {
    if parts == [] then [] else (if parts[0] == "" then [] else [parts[0]]) + NonEmpty(parts[1..])
  }

  function Decode(decoder: Decoder, boundary: set<string>, tokens: seq<string>): string
    decreases decoder, 0
  {
    match decoder
    case Native => NativeDecode(tokens)
    case Wrapped(inner) => Strip(Join(" ", NonEmpty(DecodeRuns(Runs(tokens, boundary), boundary, inner))))
  }

  function Flatten(runs: seq<seq<string>>): seq<string> {
    if runs == [] then [] else runs[0] + Flatten(runs[1..])
  }

  predicate Continues(tokens: seq<string>, boundary: set<string>) {
    forall i :: 0 <= i < |tokens| ==> !StartsWord(tokens[i], boundary)
  }

  /** A run: only its first token may start a word. */
  predicate IsRun(run: seq<string>, boundary: set<string>) {
    run != [] && Continues(run[1..], boundary)
  }

  /** Grouping loses, adds and reorders no token, and only the head of a run starts a word. */
  lemma {:induction false} RunsPartition(tokens: seq<string>, boundary: set<string>, current: seq<string>)
    requires current == [] || IsRun(current, boundary)
    ensures var runs := RunsFrom(tokens, boundary, current);
      && Flatten(runs) == current + tokens
      && (forall r :: r in runs ==> IsRun(r, boundary))
      && (forall k :: 0 < k < |runs| ==> runs[k] != [] && StartsWord(runs[k][0], boundary))
  {
    if tokens == [] {
      assert Flatten([current]) == current + Flatten([]);
      assert current + tokens == current;
    } else {
      var rest := tokens[1..];
      assert tokens == [tokens[0]] + rest;
      if StartsWord(tokens[0], boundary) && current != [] {
        var tail := RunsFrom(rest, boundary, [tokens[0]]);
        RunsPartition(rest, boundary, [tokens[0]]);
        FirstRunKeepsHead(rest, boundary, [tokens[0]]);
        var runs := [current] + tail;
        assert runs[1..] == tail;
        forall k | 0 < k < |runs| ensures runs[k] != [] && StartsWord(runs[k][0], boundary) {
          assert runs[k] == tail[k - 1];
        }
        assert current + ([tokens[0]] + rest) == current + tokens;
      } else {
        var longer := current + [tokens[0]];
        if current != [] { assert longer[1..] == current[1..] + [tokens[0]]; }
        RunsPartition(rest, boundary, longer);
        assert longer + rest == current + tokens;
      }
    }
  }

  lemma {:induction false} FirstRunKeepsHead(tokens: seq<string>, boundary: set<string>, current: seq<string>)
    requires current != []
    ensures var runs := RunsFrom(tokens, boundary, current);
      runs != [] && runs[0] != [] && runs[0][0] == current[0]
  {
    if tokens != [] && !StartsWord(tokens[0], boundary) {
      FirstRunKeepsHead(tokens[1..], boundary, current + [tokens[0]]);
    }
  }

  lemma FirstRunRecovered(run: seq<string>, rest: seq<string>, boundary: set<string>, current: seq<string>)
    requires current != [] && IsRun(run, boundary) && StartsWord(run[0], boundary)
    ensures RunsFrom(run + rest, boundary, current) == [current] + RunsFrom(rest, boundary, run)
  {
    hide StartsWord, Continues;
    var head, tail := run[0], run[1..];
    assert run == [head] + tail;
    assert (run + rest)[1..] == tail + rest;
    ContinuationsJoinRun(tail, rest, boundary, [head]);
  }

  /** Conversely, any list of word-initial runs is recovered from the flat token list. */
  lemma {:induction false} RunsRecovered(runs: seq<seq<string>>, boundary: set<string>, current: seq<string>)
    requires current != []
    requires forall r :: r in runs ==> IsRun(r, boundary) && StartsWord(r[0], boundary)
    ensures RunsFrom(Flatten(runs), boundary, current) == [current] + runs
  {
    hide StartsWord, Continues;
    if runs != [] {
      var run, rest := runs[0], runs[1..];
      assert run in runs;
      FirstRunRecovered(run, Flatten(rest), boundary, current);
      RunsRecovered(rest, boundary, run);
      assert runs == [run] + rest;
    }
  }

  lemma {:induction false} ContinuationsJoinRun(tail: seq<string>, more: seq<string>, boundary: set<string>,
                                                current: seq<string>)
    requires current != [] && Continues(tail, boundary)
    ensures RunsFrom(tail + more, boundary, current) == RunsFrom(more, boundary, current + tail)
  {
    if tail == [] {
      assert tail + more == more && current + tail == current;
    } else {
      assert (tail + more)[1..] == tail[1..] + more;
      ContinuationsJoinRun(tail[1..], more, boundary, current + [tail[0]]);
      assert current + [tail[0]] + tail[1..] == current + tail;
    }
  }

  // --------------------------------------------------------- the decode round trip

  predicate PlainWord(word: string) {
    word != "" && NoSpace(word) && MARKER !in word
  }

  /** The tokens of one word: a boundary token or a marker-initial piece, then plain continuations. */
  predicate Spells(run: seq<string>, word: string, boundary: set<string>) {
    IsRun(run, boundary) && StartsWord(run[0], boundary) && WithoutMarker(run[0]) + Concat(run[1..]) == word
  }

  lemma {:induction false} PlainTextIsKept(s: string)
    requires MARKER !in s
    ensures MarkersToSpaces(s) == s
  {
    if s != "" {
      assert s == [s[0]] + s[1..];
      PlainTextIsKept(s[1..]);
    }
  }

  lemma PlainWordIsTrimmed(word: string)
    requires PlainWord(word)
    ensures !IsSpace(word[0]) && !IsSpace(word[|word| - 1])
  {
    assert word[0] in word && word[|word| - 1] in word;
  }

  // A word with its marker in front decodes to the word.
  lemma MarkedWordDecodes(word: string)
    requires PlainWord(word)
    ensures Strip(MarkersToSpaces([MARKER] + word)) == word
  {
    PlainTextIsKept(word);
    PlainWordIsTrimmed(word);
    var marked := [MARKER] + word;
    assert marked[1..] == word;
    var spaced := MarkersToSpaces(marked);
    assert spaced == [' '] + word;
    assert spaced[1..] == word;
    assert LStrip(spaced) == LStrip(word) == word;
  }

  lemma TrackedRunDecodes(run: seq<string>, word: string, boundary: set<string>)
    requires Spells(run, word, boundary) && PlainWord(word) && run[0] in boundary
    ensures NativeDecode(Unmarked(run, boundary)) == word
  {
    hide Strip, MarkersToSpaces, HasMarker, StartsWord, Continues;
    var tail := run[1..];
    assert ([WithoutMarker(run[0])] + tail)[1..] == tail;
    PlainTextIsKept(word);
    PlainWordIsTrimmed(word);
    StripOfTrimmed(word);
  }

  lemma MarkedRunDecodes(run: seq<string>, word: string, boundary: set<string>)
    requires Spells(run, word, boundary) && PlainWord(word) && run[0] !in boundary
    ensures NativeDecode(Unmarked(run, boundary)) == word
  {
    hide Strip, MarkersToSpaces, Concat, Spells, PlainWord;
    MarkedRunText(run, word, boundary);
    MarkedWordDecodes(word);
  }

  lemma MarkedRunText(run: seq<string>, word: string, boundary: set<string>)
    requires Spells(run, word, boundary) && run[0] !in boundary
    ensures Concat(run) == [MARKER] + word
  {
    hide Continues;
    var head := run[0];
    assert head == [MARKER] + head[1..];
    assert head + Concat(run[1..]) == [MARKER] + (head[1..] + Concat(run[1..]));
  }

  lemma NativeDecodesRun(run: seq<string>, word: string, boundary: set<string>)
    requires Spells(run, word, boundary) && PlainWord(word)
    ensures NativeDecode(Unmarked(run, boundary)) == word
  {
    hide NativeDecode, Unmarked, PlainWord;
    if run[0] in boundary { TrackedRunDecodes(run, word, boundary); } else { MarkedRunDecodes(run, word, boundary); }
  }

  lemma {:induction false} RunsDecodeToWords(runs: seq<seq<string>>, words: seq<string>, boundary: set<string>)
    requires |runs| == |words|
    requires forall k :: 0 <= k < |runs| ==> Spells(runs[k], words[k], boundary) && PlainWord(words[k])
    ensures NonEmpty(DecodeRuns(runs, boundary, Native)) == words
  {
    if runs != [] {
      NativeDecodesRun(runs[0], words[0], boundary);
      RunsDecodeToWords(runs[1..], words[1..], boundary);
      assert words == [words[0]] + words[1..];
    }
  }

  /** A text that is not empty and neither begins nor ends with whitespace. */
  predicate Trimmed(s: string) {
    s != "" && !IsSpace(s[0]) && !IsSpace(s[|s| - 1])
  }

  lemma {:induction false} JoinIsTrimmed(parts: seq<string>)
    requires parts != [] && forall p :: p in parts ==> Trimmed(p)
    ensures Trimmed(Join(" ", parts))
  {
    assert parts[0] in parts;
    if |parts| > 1 {
      assert forall x :: x in parts[1..] ==> x in parts;
      JoinIsTrimmed(parts[1..]);
    }
  }

  lemma SpelledRunsRecovered(runs: seq<seq<string>>, words: seq<string>, boundary: set<string>)
    requires |runs| == |words| > 0
    requires forall k :: 0 <= k < |runs| ==> Spells(runs[k], words[k], boundary)
    ensures Runs(Flatten(runs), boundary) == runs
  {
    hide StartsWord, Continues, WithoutMarker, Concat;
    var head, tail := runs[0][0], runs[0][1..];
    assert runs[0] == [head] + tail;
    forall r | r in runs ensures IsRun(r, boundary) && StartsWord(r[0], boundary) {
      var k :| 0 <= k < |runs| && runs[k] == r;
      assert Spells(runs[k], words[k], boundary);
    }
    assert Flatten(runs)[1..] == tail + Flatten(runs[1..]);
    ContinuationsJoinRun(tail, Flatten(runs[1..]), boundary, [head]);
    RunsRecovered(runs[1..], boundary, runs[0]);
    assert [] + [head] == [head];
  }

  /** Round trip: tokens that spell words, each begun by a word-initial token, decode to those words joined by
      exactly one space. */
  lemma DecodeSpacesWords(runs: seq<seq<string>>, words: seq<string>, boundary: set<string>)
    requires |runs| == |words|
    requires forall k :: 0 <= k < |runs| ==> Spells(runs[k], words[k], boundary) && PlainWord(words[k])
    ensures Decode(Wrapped(Native), boundary, Flatten(runs)) == Join(" ", words)
  {
    if runs != [] {
      SpelledRunsRecovered(runs, words, boundary);
      RunsDecodeToWords(runs, words, boundary);
      forall w | w in words ensures Trimmed(w) {
        var k :| 0 <= k < |words| && words[k] == w;
        assert PlainWord(words[k]);
        PlainWordIsTrimmed(w);
      }
      JoinIsTrimmed(words);
      StripOfTrimmed(Join(" ", words));
    }
  }

  // ------------------------------------------------- decoding, for every list of tokens

  /** Before a word start a list of tokens splits into the runs on either side. */
  lemma {:induction false} RunsSplit(a: seq<string>, b: seq<string>, boundary: set<string>, current: seq<string>)
    requires b == [] || StartsWord(b[0], boundary)
    ensures RunsFrom(a + b, boundary, current) == RunsFrom(a, boundary, current) + RunsFrom(b, boundary, [])
  {
    hide StartsWord;
    if a == [] {
      assert a + b == b;
      if b != [] { assert [] + [b[0]] == [b[0]]; }
    } else {
      assert (a + b)[1..] == a[1..] + b;
      if StartsWord(a[0], boundary) && current != [] {
        RunsSplit(a[1..], b, boundary, [a[0]]);
      } else {
        RunsSplit(a[1..], b, boundary, current + [a[0]]);
      }
    }
  }

  lemma {:induction false} PartsAppend(x: seq<seq<string>>, y: seq<seq<string>>, boundary: set<string>)
    ensures NonEmpty(DecodeRuns(x + y, boundary, Native))
      == NonEmpty(DecodeRuns(x, boundary, Native)) + NonEmpty(DecodeRuns(y, boundary, Native))
  {
    hide NativeDecode, Unmarked;
    if x == [] {
      assert x + y == y;
    } else {
      assert (x + y)[1..] == x[1..] + y;
      PartsAppend(x[1..], y, boundary);
    }
  }

  lemma {:induction false} PartsAreTrimmed(runs: seq<seq<string>>, boundary: set<string>)
    ensures forall p :: p in NonEmpty(DecodeRuns(runs, boundary, Native)) ==> Trimmed(p)
  {
    hide Unmarked;
    if runs != [] { PartsAreTrimmed(runs[1..], boundary); }
  }

  lemma {:induction false} JoinAppend(x: seq<string>, y: seq<string>)
    requires x != [] && y != []
    ensures Join(" ", x + y) == Join(" ", x) + " " + Join(" ", y)
  {
    assert (x + y)[1..] == x[1..] + y;
    if |x| == 1 {
      assert x[1..] + y == y;
    } else {
      JoinAppend(x[1..], y);
    }
  }

  /** The patched decoder's result, without its last strip. */
  lemma DecodeIsJoin(tokens: seq<string>, boundary: set<string>)
    ensures var parts := NonEmpty(DecodeRuns(Runs(tokens, boundary), boundary, Native));
      Decode(Wrapped(Native), boundary, tokens) == Join(" ", parts) && (parts == [] <==> Join(" ", parts) == "")
  {
    hide Runs, NonEmpty, DecodeRuns;
    var parts := NonEmpty(DecodeRuns(Runs(tokens, boundary), boundary, Native));
    PartsAreTrimmed(Runs(tokens, boundary), boundary);
    if parts != [] {
      JoinIsTrimmed(parts);
      StripOfTrimmed(Join(" ", parts));
    }
  }

  /** For any tokens, cut before any word start: the two sides are decoded apart and joined by exactly one space, and a
      side that decodes to nothing leaves no trace. */
  lemma DecodeSplits(a: seq<string>, b: seq<string>, boundary: set<string>)
    requires b == [] || StartsWord(b[0], boundary)
    ensures var left, right := Decode(Wrapped(Native), boundary, a), Decode(Wrapped(Native), boundary, b);
      Decode(Wrapped(Native), boundary, a + b)
      == if left == "" then right else if right == "" then left else left + " " + right
  {
    hide Decode, DecodeRuns, NonEmpty;
    RunsSplit(a, b, boundary, []);
    PartsAppend(Runs(a, boundary), Runs(b, boundary), boundary);
    DecodeIsJoin(a, boundary);
    DecodeIsJoin(b, boundary);
    DecodeIsJoin(a + b, boundary);
    var x := NonEmpty(DecodeRuns(Runs(a, boundary), boundary, Native));
    var y := NonEmpty(DecodeRuns(Runs(b, boundary), boundary, Native));
    if x == [] {
      assert x + y == y;
    } else if y == [] {
      assert x + y == x;
    } else {
      JoinAppend(x, y);
    }
  }

  /** And a single run is decoded as the native decoder does, without the marker of a tracked head. */
  lemma DecodeOfRun(run: seq<string>, boundary: set<string>)
    requires IsRun(run, boundary)
    ensures Decode(Wrapped(Native), boundary, run)
      == NativeDecode(if run[0] in boundary then [WithoutMarker(run[0])] + run[1..] else run)
  {
    hide StartsWord, Continues;
    assert [] + [run[0]] == [run[0]] && run == [run[0]] + run[1..];
    ContinuationsJoinRun(run[1..], [], boundary, [run[0]]);
    assert run[1..] + [] == run[1..];
    assert Runs(run, boundary) == [run];
    DecodeIsJoin(run, boundary);
    assert DecodeRuns([run], boundary, Native) == [NativeDecode(Unmarked(run, boundary))];
  }

  /** So a lone marker before a word, or at the end, changes nothing. */
  lemma LoneMarkerVanishes(a: seq<string>, b: seq<string>, boundary: set<string>)
    requires b == [] || StartsWord(b[0], boundary)
    ensures Decode(Wrapped(Native), boundary, a + ["\U{2581}"] + b) == Decode(Wrapped(Native), boundary, a + b)
  {
    hide Decode, NativeDecode;
    var marker := ["\U{2581}"];
    DecodeOfRun(marker, boundary);
    MarkerDecodesToNothing();
    assert marker[1..] == [] && [""] + [] == [""];
    DecodeSplits(a, marker, boundary);
    DecodeSplits(a + marker, b, boundary);
    DecodeSplits(a, b, boundary);
  }

  lemma MarkerDecodesToNothing()
    ensures NativeDecode(["\U{2581}"]) == "" && NativeDecode([""]) == "" && WithoutMarker("\U{2581}") == ""
  {
    var marker := "\U{2581}";
    ghost var none: seq<string> := [];
    assert [marker][1..] == none && [""][1..] == none && marker[1..] == "";
    assert MarkersToSpaces(marker) == " ";
    assert " "[1..] == "";
  }

  lemma {:induction false} ConcatSnoc(parts: seq<string>, last: string)
    ensures Concat(parts + [last]) == Concat(parts) + last
  {
    if parts == [] {
      assert parts + [last] == [last] && [last][1..] == [];
    } else {
      assert (parts + [last])[1..] == parts[1..] + [last];
      ConcatSnoc(parts[1..], last);
    }
  }

  lemma WordsGlue(run: seq<string>, left: string, right: string, boundary: set<string>)
    requires Spells(run, left, boundary) && run[0] !in boundary && PlainWord(left) && PlainWord(right)
    ensures NativeDecode(run + [right]) == left + right
  {
    hide Strip, MarkersToSpaces, Concat, Spells, PlainWord;
    MarkedRunText(run, left, boundary);
    ConcatSnoc(run, right);
    assert [MARKER] + left + right == [MARKER] + (left + right);
    JoinedIsPlain(left, right);
    MarkedWordDecodes(left + right);
  }

  lemma JoinedIsPlain(left: string, right: string)
    requires PlainWord(left) && PlainWord(right)
    ensures PlainWord(left + right)
  {
  }

  lemma WordsAreSpaced(run: seq<string>, left: string, right: string, boundary: set<string>)
    requires Spells(run, left, boundary) && PlainWord(left) && PlainWord(right) && right in boundary
    ensures Decode(Wrapped(Native), boundary, run + [right]) == left + " " + right
  {
    var runs := [run, [right]];
    assert Flatten(runs) == run + [right] by {
      assert runs[1..] == [[right]] && [[right]][1..] == [];
      assert Flatten([[right]]) == [right] + Flatten([]);
    }
    assert Spells([right], right, boundary) by { assert right[0] in right && [right][1..] == []; }
    assert Join(" ", [left, right]) == left + " " + right by { assert [left, right][1..] == [right]; }
    hide Spells, Decode, Flatten, Join, PlainWord;
    DecodeSpacesWords(runs, [left, right], boundary);
  }

  /** Without the patch an added whole-word token is glued to the word before it, whatever pieces spell that; with it
      exactly one space comes between. */
  lemma NativeDecodeGlues(run: seq<string>, left: string, right: string, boundary: set<string>)
    requires Spells(run, left, boundary) && run[0] !in boundary
    requires PlainWord(left) && PlainWord(right) && right in boundary
    ensures NativeDecode(run + [right]) == left + right
    ensures Decode(Wrapped(Native), boundary, run + [right]) == left + " " + right
  {
    hide NativeDecode, Decode, PlainWord;
    WordsGlue(run, left, right, boundary);
    WordsAreSpaced(run, left, right, boundary);
  }

  // ------------------------------------------------------------------ the tokenizer

  /** The pieces of a trained subword model worth adding (`select_high_value_subwords`, minimum length 2). */
  function HighValue(pieces: set<string>): set<string> {
    set p | p in pieces && |WithoutMarker(p)| >= 2
  }

  /** What the subword step adds to a vocabulary, for whatever pieces training happened to produce. */
  function NewSubwords(pieces: set<string>, vocab: set<string>): seq<string> {
    SelectNewTokens(HighValue(pieces), vocab)
  }

  /** Whatever training yields: exactly its unknown pieces of at least two characters are added, a leading "▁" not
      counted, once each. */
  lemma NewSubwordsAre(pieces: set<string>, vocab: set<string>, p: string)
    ensures p in NewSubwords(pieces, vocab) <==>
      && p in pieces && p !in vocab
      && |p| >= (if p != "" && p[0] == '\U{2581}' then 3 else 2)
    ensures Distinct(NewSubwords(pieces, vocab))
  {
    SelectedAreDistinct(HighValue(pieces), vocab);
  }

  function MarkedOnly(tokens: seq<string>): (r: seq<string>)
    ensures forall t :: t in r <==> t in tokens && HasMarker(t)
  {
    if tokens == [] then []
    else if HasMarker(tokens[0]) then [tokens[0]] + MarkedOnly(tokens[1..])
    else MarkedOnly(tokens[1..])
  }

  class Tokenizer {
    var vocab: set<string>
    var decoder: Decoder
    // The tracked set, once `_mark_word_boundary_tokens` has attached it to the instance.
    var boundary: Option<set<string>>
    const hasDecoder: bool

    constructor (vocab: set<string>, hasDecoder: bool)
      ensures this.vocab == vocab && this.hasDecoder == hasDecoder
      ensures Valid() && boundary == None
    {
      this.vocab := vocab;
      this.hasDecoder := hasDecoder;
      decoder := Native;
      boundary := None;
    }

    /** The decoder is wrapped at most once, exactly when the boundary set is attached. */
    predicate Valid()
      reads this
    {
      decoder == (if boundary.Some? then Wrapped(Native) else Native) && (boundary.Some? ==> hasDecoder)
    }

    function Tracked(): set<string>
      reads this
    {
      if boundary.Some? then boundary.value else {}
    }

    method AddTokens(tokens: seq<string>)
      modifies this`vocab
      ensures vocab == old(vocab) + Elements(tokens)
    {
      vocab := vocab + Elements(tokens);
    }

    /** `_mark_word_boundary_tokens`. */
    method MarkWordBoundaryTokens(tokens: seq<string>)
      requires Valid()
      modifies this`decoder, this`boundary
      ensures Valid()
      ensures tokens == [] || !hasDecoder ==> boundary == old(boundary) && decoder == old(decoder)
      ensures tokens != [] && hasDecoder ==> boundary == Some(old(Tracked()) + Elements(tokens))
    {
      if tokens == [] || !hasDecoder {
        return;
      }
      if boundary.None? {
        boundary := Some({});
        decoder := Wrapped(decoder);
      }
      boundary := Some(boundary.value + Elements(tokens));
    }

    /** What both extension functions do with the tokens they have selected. */
    method AddAndMark(newTokens: seq<string>, boundaryTokens: seq<string>)
      requires Valid() && (newTokens == [] ==> boundaryTokens == [])
      modifies this
      ensures Valid()
      ensures vocab == old(vocab) + Elements(newTokens)
      ensures hasDecoder ==> Tracked() == old(Tracked()) + Elements(boundaryTokens)
    {
      if newTokens != [] {
        AddTokens(newTokens);
        MarkWordBoundaryTokens(boundaryTokens);
      }
    }

    /** `extend_tokenizer_vocab`. */
    method ExtendTokenizerVocab(sampleTexts: seq<string>) returns (newTokens: seq<string>)
      requires Valid()
      modifies this
      ensures Valid()
      ensures newTokens == NewTokens(sampleTexts, old(vocab))
      ensures vocab == old(vocab) + Elements(newTokens)
      ensures hasDecoder ==> Tracked() == old(Tracked()) + Elements(WholeWords(newTokens))
    {
      newTokens := NewTokens(sampleTexts, vocab);
      AddAndMark(newTokens, WholeWords(newTokens));
    }

    /** `extend_tokenizer_vocab_with_subwords`, for an arbitrary trained piece set. */
    method ExtendTokenizerVocabWithSubwords(pieces: set<string>) returns (newTokens: seq<string>)
      requires Valid()
      modifies this
      ensures Valid()
      ensures newTokens == NewSubwords(pieces, old(vocab))
      ensures vocab == old(vocab) + Elements(newTokens)
      ensures hasDecoder ==> Tracked() == old(Tracked()) + Elements(MarkedOnly(newTokens))
    {
      newTokens := NewSubwords(pieces, vocab);
      AddAndMark(newTokens, MarkedOnly(newTokens));
    }

    /** `patch_word_boundary_decoding_for_checkpoint`. */
    method PatchWordBoundaryDecoding(baseVocab: set<string>, sampleTexts: seq<string>) returns (tokens: seq<string>)
      requires Valid()
      modifies this`decoder, this`boundary
      ensures Valid()
      ensures tokens == WholeWords(NewTokens(sampleTexts, baseVocab))
      ensures hasDecoder ==> Tracked() == old(Tracked()) + Elements(tokens)
    {
      tokens := WholeWords(NewTokens(sampleTexts, baseVocab));
      MarkWordBoundaryTokens(tokens);
    }

    /** `convert_tokens_to_string`, as currently patched. */
    method ConvertTokensToString(tokensToDecode: seq<string>) returns (s: string)
      requires Valid()
      ensures s == Decode(decoder, Tracked(), tokensToDecode)
    {
      if boundary.None? {
        return NativeDecode(tokensToDecode);
      }
      var runs := GroupRuns(tokensToDecode, boundary.value);
      var decodedRuns: seq<string> := [];
      for k := 0 to |runs|
        invariant decodedRuns + DecodeRuns(runs[k..], boundary.value, Native)
                  == DecodeRuns(runs, boundary.value, Native)
      {
        var run := Unmarked(runs[k], boundary.value);
        assert runs[k..][0] == runs[k] && runs[k..][1..] == runs[k + 1..];
        assert DecodeRuns(runs[k..], boundary.value, Native)
            == [NativeDecode(run)] + DecodeRuns(runs[k + 1..], boundary.value, Native);
        decodedRuns := decodedRuns + [NativeDecode(run)];
      }
      assert runs[|runs|..] == [];
      assert decodedRuns + [] == decodedRuns;
      return Strip(Join(" ", NonEmpty(decodedRuns)));
    }
  }

  /** The wrapper's grouping loop. */
  method GroupRuns(tokensToDecode: seq<string>, boundaryTokens: set<string>) returns (runs: seq<seq<string>>)
    ensures runs == Runs(tokensToDecode, boundaryTokens)
  {
    runs := [];
    var currentRun: seq<string> := [];
    for k := 0 to |tokensToDecode|
      invariant runs + RunsFrom(tokensToDecode[k..], boundaryTokens, currentRun) == Runs(tokensToDecode, boundaryTokens)
    {
      var token := tokensToDecode[k];
      assert tokensToDecode[k..][0] == token && tokensToDecode[k..][1..] == tokensToDecode[k + 1..];
      assert [] + [token] == [token];
      ghost var more := RunsFrom(tokensToDecode[k + 1..], boundaryTokens, [token]);
      assert runs + ([currentRun] + more) == runs + [currentRun] + more;
      if StartsWord(token, boundaryTokens) && currentRun != [] {
        runs := runs + [currentRun];
        currentRun := [];
      }
      currentRun := currentRun + [token];
    }
    if currentRun != [] {
      runs := runs + [currentRun];
    }
  }
}
