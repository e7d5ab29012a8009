/** Sentence pairs: the TSV reader and writer at text level (`ml/data/corpus_io.py`), deduplication (`dedup.py`), the
    length filter (`length_filter.py`) and the cleaning pipeline (`pipeline.py`). */
module Corpus {
  import opened Text
  import opened Normalize
  import opened Reals

  // ------------------------------------------------------------------ reading and writing

  /** Where `str.splitlines` ends a line. */
  predicate IsBreak(c: char) {
    var n := c as int;
    10 <= n <= 13 || 28 <= n <= 30 || n == 0x85 || n == 0x2028 || n == 0x2029
  }

  /** `str.splitlines`; `current` is the line read so far, and a carriage return takes a following newline with it. */
  function LinesFrom(text: string, current: string): seq<string>
    decreases |text|
  {
    if text == "" then (if current == "" then [] else [current])
    else if !IsBreak(text[0]) then LinesFrom(text[1..], current + [text[0]])
    else if "\r\n" <= text then [current] + LinesFrom(text[2..], "")
    else [current] + LinesFrom(text[1..], "")
  }

  /** `line.split("\t")`. */
  function FieldsFrom(line: string, current: string): (fields: seq<string>)
    ensures fields != []
  {
    if line == "" then [current]
    else if line[0] == '\t' then [current] + FieldsFrom(line[1..], "")
    else FieldsFrom(line[1..], current + [line[0]])
  }

  function Fields(line: string): seq<string> {
    FieldsFrom(line, "")
  }

  /** The `ValueError` of a malformed line names its number and how many fields it has. */
  datatype Result = Ok(pairs: seq<Pair>) | ValueError(lineNumber: nat, fields: nat)

  predicate IsBlank(line: string) {
    Strip(line) == ""
  }

  function ReadLines(lines: seq<string>, done: nat): Result
    requires done <= |lines|
    decreases |lines| - done
  {
    if done == |lines| then Ok([])
    else if IsBlank(lines[done]) then ReadLines(lines, done + 1)
    else
      var fields := Fields(lines[done]);
      if |fields| != 2 then ValueError(done + 1, |fields|)
      else
        match ReadLines(lines, done + 1)
        case Ok(pairs) => Ok([(fields[0], fields[1])] + pairs)
        case ValueError(lineNumber, count) => ValueError(lineNumber, count)
  }

  function Read(text: string): Result {
    ReadLines(LinesFrom(text, ""), 0)
  }

  /** `read_tsv_pairs`, from the text of the file. */
  method ReadTsvPairs(text: string) returns (result: Result)
    ensures result == Read(text)
  {
    var lines := LinesFrom(text, "");
    var pairs: seq<Pair> := [];
    for k := 0 to |lines|
      invariant Read(text) == match ReadLines(lines, k)
                              case Ok(rest) => Ok(pairs + rest)
                              case ValueError(lineNumber, count) => ValueError(lineNumber, count)
    {
      var line := lines[k];
      if !IsBlank(line) {
        var fields := Fields(line);
        if |fields| != 2 {
          return ValueError(k + 1, |fields|);
        }
        assert forall rest: seq<Pair> ::
            pairs + ([(fields[0], fields[1])] + rest) == pairs + [(fields[0], fields[1])] + rest;
        pairs := pairs + [(fields[0], fields[1])];
      }
    }
    assert pairs + [] == pairs;
    return Ok(pairs);
  }

  function Line(p: Pair): string {
    p.0 + "\t" + p.1
  }

  function LinesOf(pairs: seq<Pair>): (lines: seq<string>)
    ensures |lines| == |pairs| && forall i :: 0 <= i < |pairs| ==> lines[i] == Line(pairs[i])
  {
    seq(|pairs|, i requires 0 <= i < |pairs| => Line(pairs[i]))
  }

  /** The text `write_tsv_pairs` writes. */
  function Write(pairs: seq<Pair>): string {
    var text := Join("\n", LinesOf(pairs));
    if text != "" then text + "\n" else text
  }

  // ------------------------------------------------------------------------- round trip

  predicate Plain(field: string) {
    forall c :: c in field ==> !IsBreak(c) && c != '\t'
  }

  /** A pair that a TSV line can carry. */
  predicate Storable(p: Pair) {
    Plain(p.0) && Plain(p.1) && !IsBlank(Line(p))
  }

  predicate AllStorable(pairs: seq<Pair>) {
    forall i :: 0 <= i < |pairs| ==> Storable(pairs[i])
  }

  predicate BreakFree(line: string) {
    forall c :: c in line ==> !IsBreak(c)
  }

  lemma {:induction false} ReadOneLine(line: string, rest: string, current: string)
    requires BreakFree(line)
    ensures LinesFrom(line + "\n" + rest, current) == [current + line] + LinesFrom(rest, "")
  {
    var text := line + "\n" + rest;
    if line == "" {
      assert text == "\n" + rest && current + line == current;
      assert text[0] == '\n' && text[1..] == rest;
    } else {
      assert line[0] in line && text[0] == line[0];
      assert text[1..] == line[1..] + "\n" + rest;
      assert current + [line[0]] + line[1..] == current + line;
      ReadOneLine(line[1..], rest, current + [line[0]]);
    }
  }

  lemma {:induction false} LinesOfJoined(lines: seq<string>)
    requires lines != [] && forall i :: 0 <= i < |lines| ==> BreakFree(lines[i])
    ensures LinesFrom(Join("\n", lines) + "\n", "") == lines
  {
    var rest := if |lines| == 1 then "" else Join("\n", lines[1..]) + "\n";
    assert Join("\n", lines) + "\n" == lines[0] + "\n" + rest;
    ReadOneLine(lines[0], rest, "");
    assert "" + lines[0] == lines[0];
    if |lines| > 1 { LinesOfJoined(lines[1..]); }
  }

  lemma {:induction false} ReadField(field: string, rest: string, current: string)
    requires '\t' !in field
    ensures FieldsFrom(field + rest, current) == FieldsFrom(rest, current + field)
  {
    if field == "" {
      assert field + rest == rest && current + field == current;
    } else {
      assert field[0] in field && (field + rest)[1..] == field[1..] + rest;
      ReadField(field[1..], rest, current + [field[0]]);
      assert current + [field[0]] + field[1..] == current + field;
    }
  }

  lemma FieldsOfLine(p: Pair)
    requires Plain(p.0) && Plain(p.1)
    ensures Fields(Line(p)) == [p.0, p.1] && BreakFree(Line(p))
  {
    var rest := "\t" + p.1;
    assert Line(p) == p.0 + rest;
    ReadField(p.0, rest, "");
    assert "" + p.0 == p.0 && rest[1..] == p.1;
    assert p.1 + "" == p.1 && "" + p.1 == p.1;
    ReadField(p.1, "", "");
  }

  lemma {:induction false} ReadLinesOf(pairs: seq<Pair>, done: nat)
    requires AllStorable(pairs) && done <= |pairs|
    ensures ReadLines(LinesOf(pairs), done) == Ok(pairs[done..])
    decreases |pairs| - done
  {
    if done < |pairs| {
      FieldsOfLine(pairs[done]);
      ReadLinesOf(pairs, done + 1);
      assert pairs[done..] == [pairs[done]] + pairs[done + 1..];
    }
  }

  lemma WrittenTextIsRead(pairs: seq<Pair>)
    requires AllStorable(pairs)
    ensures Read(Write(pairs)) == Ok(pairs)
  {
    var lines := LinesOf(pairs);
    if pairs != [] {
      forall i | 0 <= i < |lines| ensures BreakFree(lines[i]) { FieldsOfLine(pairs[i]); }
      LinesOfJoined(lines);
      assert '\t' in Join("\n", lines) by { assert lines[0][|pairs[0].0|] == '\t' && lines[0] <= Join("\n", lines); }
    }
    ReadLinesOf(pairs, 0);
    assert pairs[0..] == pairs;
  }

  lemma {:induction false} LinesAreBreakFree(text: string, current: string, line: string)
    requires BreakFree(current) && line in LinesFrom(text, current)
    ensures BreakFree(line)
    decreases |text|
  {
    if text != "" {
      if !IsBreak(text[0]) {
        LinesAreBreakFree(text[1..], current + [text[0]], line);
      } else if line != current {
        LinesAreBreakFree(if "\r\n" <= text then text[2..] else text[1..], "", line);
      }
    }
  }

  lemma {:induction false} FieldsAreTabFree(line: string, current: string)
    requires '\t' !in current
    ensures forall f :: f in FieldsFrom(line, current) ==> '\t' !in f
    ensures Join("\t", FieldsFrom(line, current)) == current + line
  {
    if line == "" {
      assert current + line == current;
    } else if line[0] == '\t' {
      FieldsAreTabFree(line[1..], "");
      var rest := FieldsFrom(line[1..], "");
      assert ([current] + rest)[1..] == rest;
      assert "" + line[1..] == line[1..];
      assert current + "\t" + line[1..] == current + line;
    } else {
      FieldsAreTabFree(line[1..], current + [line[0]]);
      assert current + [line[0]] + line[1..] == current + line;
    }
  }

  lemma TwoFields(line: string)
    requires BreakFree(line) && !IsBlank(line) && |Fields(line)| == 2
    ensures Storable((Fields(line)[0], Fields(line)[1])) && Line((Fields(line)[0], Fields(line)[1])) == line
  {
    var f := Fields(line);
    FieldsAreTabFree(line, "");
    assert f[1..] == [f[1]];
    assert f[0] + "\t" + f[1] == "" + line == line;
    assert f[0] in f && f[1] in f;
    forall c | c in f[0] || c in f[1] ensures c in line { assert c in f[0] + "\t" + f[1]; }
  }

  lemma {:induction false} ReadLinesAreStorable(lines: seq<string>, done: nat)
    requires done <= |lines| && forall i :: 0 <= i < |lines| ==> BreakFree(lines[i])
    ensures ReadLines(lines, done).Ok? ==> AllStorable(ReadLines(lines, done).pairs)
    decreases |lines| - done
  {
    if done < |lines| {
      ReadLinesAreStorable(lines, done + 1);
      if !IsBlank(lines[done]) && |Fields(lines[done])| == 2 { TwoFields(lines[done]); }
    }
  }

  /** Whatever is read can be written and read again. */
  lemma ReadPairsAreStorable(text: string)
    ensures Read(text).Ok? ==> AllStorable(Read(text).pairs)
  {
    var lines := LinesFrom(text, "");
    forall i | 0 <= i < |lines| ensures BreakFree(lines[i]) { LinesAreBreakFree(text, "", lines[i]); }
    ReadLinesAreStorable(lines, 0);
  }

  /** Reading back what was written gives the same pairs exactly when no field holds a tab or a line break and no line
      is blank. */
  lemma RoundTripIff(pairs: seq<Pair>)
    ensures Read(Write(pairs)) == Ok(pairs) <==> AllStorable(pairs)
  {
    ReadPairsAreStorable(Write(pairs));
    if AllStorable(pairs) { WrittenTextIsRead(pairs); }
  }

  /** Rewriting what was read settles after one round. */
  lemma RewriteSettles(text: string)
    ensures Read(text).Ok? ==> Read(Write(Read(text).pairs)) == Read(text)
  {
    ReadPairsAreStorable(text);
    if Read(text).Ok? { RoundTripIff(Read(text).pairs); }
  }

  predicate Malformed(line: string) {
    !IsBlank(line) && |Fields(line)| != 2
  }

  /** Reading fails exactly when some line that is not blank has other than two fields, and reports the first one. */
  lemma {:induction false} ReadFailsAtFirstMalformed(lines: seq<string>, done: nat)
    requires done <= |lines|
    ensures ReadLines(lines, done).Ok? <==> forall i :: done <= i < |lines| ==> !Malformed(lines[i])
    ensures ReadLines(lines, done).ValueError? ==> (
      var n := ReadLines(lines, done).lineNumber;
      && done < n <= |lines| && Malformed(lines[n - 1]) && ReadLines(lines, done).fields == |Fields(lines[n - 1])|
      && forall i :: done <= i < n - 1 ==> !Malformed(lines[i]))
    decreases |lines| - done
  {
    hide IsBlank, Fields;
    if done < |lines| && !Malformed(lines[done]) { ReadFailsAtFirstMalformed(lines, done + 1); }
  }

  // ---------------------------------------------------------------------- deduplication

  function Dedup(pairs: seq<Pair>): seq<Pair> {
    if pairs == [] then []
    else
      var init := pairs[..|pairs| - 1];
      var last := pairs[|pairs| - 1];
      if last in init then Dedup(init) else Dedup(init) + [last]
  }

  /** `deduplicate_pairs`. */
  method DeduplicatePairs(pairs: seq<Pair>) returns (result: seq<Pair>)
    ensures result == Dedup(pairs)
  {
    var seen: set<Pair> := {};
    result := [];
    for k := 0 to |pairs|
      invariant result == Dedup(pairs[..k])
      invariant forall p :: p in seen <==> p in pairs[..k]
    {
      var pair := pairs[k];
      assert pairs[..k + 1][..k] == pairs[..k];
      if pair in seen {
        continue;
      }
      seen := seen + {pair};
      result := result + [pair];
    }
    assert pairs[..|pairs|] == pairs;
  }

  function FirstIndex(pairs: seq<Pair>, p: Pair): (i: nat)
    requires p in pairs
    ensures i < |pairs| && pairs[i] == p && forall j :: 0 <= j < i ==> pairs[j] != p
  {
    if pairs[0] == p then 0 else 1 + FirstIndex(pairs[1..], p)
  }

  lemma FirstIndexOfPrefix(pairs: seq<Pair>, init: seq<Pair>, p: Pair)
    requires init <= pairs && p in init
    ensures FirstIndex(pairs, p) == FirstIndex(init, p)
  {
  }

  /** Deduplication keeps every pair once, where it first occurred. */
  lemma {:induction false} DedupKeepsFirstOccurrences(pairs: seq<Pair>)
    ensures forall p :: p in Dedup(pairs) <==> p in pairs
    ensures Distinct(Dedup(pairs))
    ensures forall i, j :: 0 <= i < j < |Dedup(pairs)| ==>
      Dedup(pairs)[i] in pairs && Dedup(pairs)[j] in pairs
      && FirstIndex(pairs, Dedup(pairs)[i]) < FirstIndex(pairs, Dedup(pairs)[j])
  {
    if pairs != [] {
      var init := pairs[..|pairs| - 1];
      var d := Dedup(pairs);
      DedupKeepsFirstOccurrences(init);
      assert pairs == init + [pairs[|pairs| - 1]];
      forall i, j | 0 <= i < j < |d| ensures FirstIndex(pairs, d[i]) < FirstIndex(pairs, d[j]) {
        assert d[i] == Dedup(init)[i] && d[i] in init;
        FirstIndexOfPrefix(pairs, init, d[i]);
        if j < |Dedup(init)| {
          assert d[j] == Dedup(init)[j] && d[j] in init;
          FirstIndexOfPrefix(pairs, init, d[j]);
        }
      }
    }
  }

  lemma {:induction false} DedupOfDistinct(pairs: seq<Pair>)
    requires Distinct(pairs)
    ensures Dedup(pairs) == pairs
  {
    if pairs != [] {
      DedupOfDistinct(pairs[..|pairs| - 1]);
      assert pairs == pairs[..|pairs| - 1] + [pairs[|pairs| - 1]];
    }
  }

  // --------------------------------------------------------------------- length filter

  datatype LengthFilterConfig = LengthFilterConfig(minLength: int, maxLength: int, maxRatio: real)

  const DEFAULT_LENGTHS := LengthFilterConfig(1, 400, 4.0)

  /** The longer side is not more than `ratio` times the shorter. */
  predicate WithinRatio(es: nat, cak: nat, ratio: real)
    requires es > 0 && cak > 0
  {
    var longer, shorter := if es < cak then cak else es, if es < cak then es else cak;
    !(longer as real / shorter as real > ratio)
  }

  predicate ValidLengths(es: nat, cak: nat, config: LengthFilterConfig) {
    && es != 0 && cak != 0
    && !(es < config.minLength || cak < config.minLength)
    && !(es > config.maxLength || cak > config.maxLength)
    && WithinRatio(es, cak, config.maxRatio)
  }

  predicate IsValidLength(p: Pair, config: LengthFilterConfig) {
    ValidLengths(|Strip(p.0)|, |Strip(p.1)|, config)
  }

  lemma QuotientAtMost(longer: nat, shorter: nat, ratio: real)
    requires shorter > 0
    ensures !(longer as real / shorter as real > ratio) <==> longer as real <= ratio * shorter as real
  {
    var q, n := longer as real / shorter as real, shorter as real;
    assert q * n == longer as real;
    if q > ratio { LargerProduct(ratio, q, n); } else if q < ratio { LargerProduct(q, ratio, n); }
  }

  lemma RatioBothWays(longer: nat, shorter: nat, ratio: real)
    requires 0 < shorter <= longer && longer as real <= ratio * shorter as real
    ensures shorter as real <= ratio * longer as real
  {
    if ratio < 1.0 { LargerProduct(ratio, 1.0, shorter as real); }
    if shorter < longer {
      LargerProduct(shorter as real, longer as real, ratio);
    }
  }

  lemma WithinRatioIff(es: nat, cak: nat, ratio: real)
    requires es > 0 && cak > 0
    ensures WithinRatio(es, cak, ratio) <==> es as real <= ratio * cak as real && cak as real <= ratio * es as real
  {
    var longer, shorter := if es < cak then cak else es, if es < cak then es else cak;
    QuotientAtMost(longer, shorter, ratio);
    if longer as real <= ratio * shorter as real { RatioBothWays(longer, shorter, ratio); }
  }

  /** Stripped lengths are valid exactly when both are positive, within the bounds, and neither exceeds the other by
      more than the ratio. */
  lemma ValidLengthsIff(es: nat, cak: nat, config: LengthFilterConfig)
    ensures ValidLengths(es, cak, config) <==>
      && es > 0 && cak > 0
      && config.minLength <= es <= config.maxLength && config.minLength <= cak <= config.maxLength
      && es as real <= config.maxRatio * cak as real && cak as real <= config.maxRatio * es as real
  {
    if es > 0 && cak > 0 { WithinRatioIff(es, cak, config.maxRatio); }
  }

  /** With the default thresholds: 1 to 400 characters on either side, and at most four times the other. */
  lemma DefaultLengthsIff(p: Pair)
    ensures var es, cak := |Strip(p.0)|, |Strip(p.1)|;
      IsValidLength(p, DEFAULT_LENGTHS) <==> 1 <= es <= 400 && 1 <= cak <= 400 && es <= 4 * cak && cak <= 4 * es
  {
    ValidLengthsIff(|Strip(p.0)|, |Strip(p.1)|, DEFAULT_LENGTHS);
  }

  /** `filter_pairs_by_length`. */
  function FilterByLength(pairs: seq<Pair>, config: LengthFilterConfig): seq<Pair> {
    if pairs == [] then []
    else
      FilterByLength(pairs[..|pairs| - 1], config)
      + (if IsValidLength(pairs[|pairs| - 1], config) then [pairs[|pairs| - 1]] else [])
  }

  lemma {:induction false} FilterKeepsValid(pairs: seq<Pair>, config: LengthFilterConfig, p: Pair)
    ensures p in FilterByLength(pairs, config) <==> p in pairs && IsValidLength(p, config)
  {
    if pairs != [] {
      FilterKeepsValid(pairs[..|pairs| - 1], config, p);
      assert pairs == pairs[..|pairs| - 1] + [pairs[|pairs| - 1]];
    }
  }

  lemma {:induction false} FilterKeepsDistinct(pairs: seq<Pair>, config: LengthFilterConfig)
    requires Distinct(pairs)
    ensures Distinct(FilterByLength(pairs, config))
  {
    if pairs != [] {
      var init := pairs[..|pairs| - 1];
      FilterKeepsDistinct(init, config);
      var kept := FilterByLength(init, config);
      forall i | 0 <= i < |kept| ensures kept[i] != pairs[|pairs| - 1] {
        FilterKeepsValid(init, config, kept[i]);
        assert kept[i] in kept;
      }
    }
  }

  lemma {:induction false} FilterOfValid(pairs: seq<Pair>, config: LengthFilterConfig)
    requires forall i :: 0 <= i < |pairs| ==> IsValidLength(pairs[i], config)
    ensures FilterByLength(pairs, config) == pairs
  {
    if pairs != [] {
      FilterOfValid(pairs[..|pairs| - 1], config);
      assert pairs == pairs[..|pairs| - 1] + [pairs[|pairs| - 1]];
    }
  }

  // ------------------------------------------------------------------------ the pipeline

  function NormalizePair(nfc: string -> string, p: Pair): Pair {
    (NormalizeText(nfc, p.0), NormalizeText(nfc, p.1))
  }

  function NormalizePairs(nfc: string -> string, pairs: seq<Pair>): (r: seq<Pair>)
    ensures |r| == |pairs| && forall i :: 0 <= i < |pairs| ==> r[i] == NormalizePair(nfc, pairs[i])
  {
    seq(|pairs|, i requires 0 <= i < |pairs| => NormalizePair(nfc, pairs[i]))
  }

  /** `clean_pairs`. */
  function CleanPairs(nfc: string -> string, pairs: seq<Pair>, config: LengthFilterConfig): seq<Pair> {
    FilterByLength(Dedup(NormalizePairs(nfc, pairs)), config)
  }

  /** Cleaning keeps each pair that passes the filter after normalisation, once. */
  lemma CleanPairsAre(nfc: string -> string, pairs: seq<Pair>, config: LengthFilterConfig)
    ensures var cleaned := CleanPairs(nfc, pairs, config);
      && Distinct(cleaned)
      && forall p :: p in cleaned <==>
          IsValidLength(p, config) && exists i :: 0 <= i < |pairs| && NormalizePair(nfc, pairs[i]) == p
  {
    var normalized := NormalizePairs(nfc, pairs);
    DedupKeepsFirstOccurrences(normalized);
    FilterKeepsDistinct(Dedup(normalized), config);
    var cleaned := CleanPairs(nfc, pairs, config);
    forall p
      ensures p in cleaned <==>
          IsValidLength(p, config) && exists i :: 0 <= i < |pairs| && NormalizePair(nfc, pairs[i]) == p
    {
      FilterKeepsValid(Dedup(normalized), config, p);
      if i :| 0 <= i < |pairs| && NormalizePair(nfc, pairs[i]) == p { assert normalized[i] == p; }
    }
  }

  /** Cleaning a cleaned corpus changes nothing. */
  lemma CleaningIsIdempotent(nfc: string -> string, pairs: seq<Pair>, config: LengthFilterConfig)
    requires StableNfc(nfc)
    ensures var cleaned := CleanPairs(nfc, pairs, config); CleanPairs(nfc, cleaned, config) == cleaned
  {
    var cleaned := CleanPairs(nfc, pairs, config);
    CleanPairsAre(nfc, pairs, config);
    forall i | 0 <= i < |cleaned|
      ensures NormalizePair(nfc, cleaned[i]) == cleaned[i] && IsValidLength(cleaned[i], config)
    {
      assert cleaned[i] in cleaned;
      var j :| 0 <= j < |pairs| && NormalizePair(nfc, pairs[j]) == cleaned[i];
      NormalizeIsIdempotent(nfc, pairs[j].0);
      NormalizeIsIdempotent(nfc, pairs[j].1);
    }
    assert NormalizePairs(nfc, cleaned) == cleaned;
    DedupOfDistinct(cleaned);
    FilterOfValid(cleaned, config);
  }

  /** A non-empty text with no whitespace but plain spaces fits in a field. */
  lemma CleanSideIsPlain(nfc: string -> string, text: string)
    ensures Plain(NormalizeText(nfc, text))
  {
    TidyHasPlainSpaces(NormalizeGlottalMarks(nfc(text)));
  }

  lemma CleanPairIsStorable(nfc: string -> string, p: Pair, config: LengthFilterConfig)
    requires IsValidLength(NormalizePair(nfc, p), config)
    ensures Storable(NormalizePair(nfc, p))
  {
    var q := NormalizePair(nfc, p);
    CleanSideIsPlain(nfc, p.0);
    CleanSideIsPlain(nfc, p.1);
    StripIsEmpty(q.0);
    StripIsEmpty(Line(q));
    var c :| c in q.0 && !IsSpace(c);
    assert c in Line(q);
  }

  /** A cleaned corpus survives being written and read, for any normalisation form and any thresholds. */
  lemma CleanedCorpusRoundTrips(nfc: string -> string, pairs: seq<Pair>, config: LengthFilterConfig)
    ensures var cleaned := CleanPairs(nfc, pairs, config); Read(Write(cleaned)) == Ok(cleaned)
  {
    var cleaned := CleanPairs(nfc, pairs, config);
    CleanPairsAre(nfc, pairs, config);
    forall i | 0 <= i < |cleaned| ensures Storable(cleaned[i]) {
      assert cleaned[i] in cleaned;
      var j :| 0 <= j < |pairs| && NormalizePair(nfc, pairs[j]) == cleaned[i];
      CleanPairIsStorable(nfc, pairs[j], config);
    }
    RoundTripIff(cleaned);
  }

  /** `clean_corpus_file` run on its own output writes the same text again. */
  lemma RecleaningAFileSettles(nfc: string -> string, text: string, config: LengthFilterConfig)
    requires StableNfc(nfc) && Read(text).Ok?
    ensures var written := Write(CleanPairs(nfc, Read(text).pairs, config));
      && Read(written).Ok?
      && Write(CleanPairs(nfc, Read(written).pairs, config)) == written
  {
    CleanedCorpusRoundTrips(nfc, Read(text).pairs, config);
    CleaningIsIdempotent(nfc, Read(text).pairs, config);
  }
}
