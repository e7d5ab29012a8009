/** Model cards, `ml/evaluation/model_card.py`: the Markdown printer and the regular-expression reader of its metrics.
    Scores are given in tenths, which is what the card shows of them. */
module ModelCard {
  import opened Options
  import opened Text

  datatype Metrics = Metrics(bleu: nat, chrf: nat, sentences: nat)

  /** A label and its value, as they appear on a card. */
  type Field = (string, string)

  datatype Card = Card(
    runId: string, timestamp: string, baseModel: string, direction: string, corpusVersion: string,
    trainSentences: nat, validationSentences: nat, hyperparameters: seq<Field>, metrics: Metrics,
    notes: Option<string>, perDirection: Option<seq<(string, Metrics)>>)

  // ------------------------------------------------------------------------- the printer

  function Digit(n: nat): char
    requires n < 10
  {
    '0' + n as char
  }

  function Decimal(n: nat): string {
    if n < 10 then [Digit(n)] else Decimal(n / 10) + [Digit(n % 10)]
  }

  /** `{:.1f}` of a score given in tenths. */
  function OneDecimal(tenths: nat): string {
    Decimal(tenths / 10) + "." + [Digit(tenths % 10)]
  }

  /** `{:,}`. */
  function Grouped(n: nat): string {
    if n < 1000 then Decimal(n)
    else Grouped(n / 1000) + "," + [Digit(n / 100 % 10), Digit(n / 10 % 10), Digit(n % 10)]
  }

  function FieldLine(f: Field): string {
    "- **" + f.0 + "**: " + f.1
  }

  function FieldLines(fields: seq<Field>): (lines: seq<string>)
    ensures |lines| == |fields| && forall i :: 0 <= i < |fields| ==> lines[i] == FieldLine(fields[i])
  {
    seq(|fields|, i requires 0 <= i < |fields| => FieldLine(fields[i]))
  }

  function RunFields(card: Card): seq<Field> {
    [("Timestamp", card.timestamp), ("Base model", card.baseModel), ("Direction", card.direction),
     ("Corpus version", card.corpusVersion), ("Training sentences", Grouped(card.trainSentences)),
     ("Validation sentences", Grouped(card.validationSentences))]
  }

  function MetricFields(m: Metrics): seq<Field> {
    [("BLEU", OneDecimal(m.bleu)), ("chrF", OneDecimal(m.chrf)), ("Sentences evaluated", Grouped(m.sentences))]
  }

  function DirectionBlock(d: (string, Metrics)): seq<string> {
    ["### " + d.0, ""] + FieldLines(MetricFields(d.1)) + [""]
  }

  function DirectionBlocks(ds: seq<(string, Metrics)>): (lines: seq<string>)
    ensures ds != [] ==> lines != []
  {
    if ds == [] then [] else DirectionBlocks(ds[..|ds| - 1]) + DirectionBlock(ds[|ds| - 1])
  }

  function RunLines(card: Card): seq<string> {
    ["# Model card: " + card.runId, ""] + FieldLines(RunFields(card)) + ["", "## Hyperparameters", ""]
  }

  function MetricLines(m: Metrics): seq<string> {
    ["", "## Metrics (validation set)", ""] + FieldLines(MetricFields(m))
  }

  function CombinedLines(card: Card): seq<string> {
    RunLines(card) + FieldLines(card.hyperparameters) + MetricLines(card.metrics)
  }

  function DirectionLines(card: Card): seq<string> {
    if card.perDirection.None? || card.perDirection.value == [] then []
    else
      var blocks := DirectionBlocks(card.perDirection.value);
      ["", "## Metrics by direction", ""] + blocks[..|blocks| - 1]
  }

  function NoteLines(card: Card): seq<string> {
    if card.notes.None? || card.notes.value == "" then [] else ["", "## Notes", "", card.notes.value]
  }

  function CardText(card: Card): string {
    Join("\n", CombinedLines(card) + DirectionLines(card) + NoteLines(card)) + "\n"
  }

  /** The loop over the hyperparameters. */
  method AppendFields(start: seq<string>, fields: seq<Field>) returns (lines: seq<string>)
    ensures lines == start + FieldLines(fields)
  {
    lines := start;
    for k := 0 to |fields|
      invariant lines == start + FieldLines(fields[..k])
    {
      lines := lines + [FieldLine(fields[k])];
    }
    assert fields[..|fields|] == fields;
  }

  /** The loop over the directions; the last block loses its blank line again. */
  method AppendDirections(start: seq<string>, ds: seq<(string, Metrics)>) returns (lines: seq<string>)
    requires ds != []
    ensures var blocks := DirectionBlocks(ds); lines == start + blocks[..|blocks| - 1]
  {
    hide DirectionBlock;
    lines := start;
    for k := 0 to |ds|
      invariant lines == start + DirectionBlocks(ds[..k])
    {
      assert ds[..k + 1][..k] == ds[..k];
      lines := lines + DirectionBlock(ds[k]);
    }
    assert ds[..|ds|] == ds;
    lines := lines[..|lines| - 1];
  }

  /** The three lines of some metrics. */
  predicate PrintsMetrics(m: Metrics, lines: seq<string>) {
    lines == ["- **BLEU**: " + OneDecimal(m.bleu), "- **chrF**: " + OneDecimal(m.chrf),
              "- **Sentences evaluated**: " + Grouped(m.sentences)]
  }

  /** Which line says what, down to the combined metrics; n is the number of hyperparameters. */
  predicate PrintsHead(card: Card, lines: seq<string>) {
    var n := |card.hyperparameters|;
    && |lines| == 17 + n
    && lines[..6] == ["# Model card: " + card.runId, "", "- **Timestamp**: " + card.timestamp,
                      "- **Base model**: " + card.baseModel, "- **Direction**: " + card.direction,
                      "- **Corpus version**: " + card.corpusVersion]
    && lines[6..11] == ["- **Training sentences**: " + Grouped(card.trainSentences),
                        "- **Validation sentences**: " + Grouped(card.validationSentences),
                        "", "## Hyperparameters", ""]
    && (forall i :: 0 <= i < n ==>
          lines[11 + i] == "- **" + card.hyperparameters[i].0 + "**: " + card.hyperparameters[i].1)
    && lines[11 + n..14 + n] == ["", "## Metrics (validation set)", ""]
    && PrintsMetrics(card.metrics, lines[14 + n..])
  }

  /** A direction's block takes six lines, the last of them blank and left out at the end. */
  predicate PrintsDirections(ds: seq<(string, Metrics)>, lines: seq<string>) {
    && |lines| == 2 + 6 * |ds| && ds != [] && lines[..3] == ["", "## Metrics by direction", ""]
    && (forall i :: 0 <= i < |ds| ==>
          && lines[3 + 6 * i] == "### " + ds[i].0 && lines[4 + 6 * i] == ""
          && PrintsMetrics(ds[i].1, lines[5 + 6 * i..8 + 6 * i]))
    && (forall i :: 0 <= i < |ds| - 1 ==> lines[8 + 6 * i] == "")
  }

  // The printed labels, put together.
  lemma RunLabels()
    ensures "- **" + "Timestamp" + "**: " == "- **Timestamp**: "
    ensures "- **" + "Base model" + "**: " == "- **Base model**: "
  {
  }

  lemma CorpusLabels()
    ensures "- **" + "Direction" + "**: " == "- **Direction**: "
    ensures "- **" + "Corpus version" + "**: " == "- **Corpus version**: "
  {
  }

  lemma CountLabels()
    ensures "- **" + "Training sentences" + "**: " == "- **Training sentences**: "
    ensures "- **" + "Validation sentences" + "**: " == "- **Validation sentences**: "
  {
  }

  lemma MetricsArePrinted(m: Metrics)
    ensures PrintsMetrics(m, FieldLines(MetricFields(m)))
  {
    assert "- **" + "BLEU" + "**: " == "- **BLEU**: " && "- **" + "chrF" + "**: " == "- **chrF**: ";
    assert "- **" + "Sentences evaluated" + "**: " == "- **Sentences evaluated**: ";
  }

  lemma RunLinesArePrinted(card: Card)
    ensures RunLines(card)
      == ["# Model card: " + card.runId, "", "- **Timestamp**: " + card.timestamp,
          "- **Base model**: " + card.baseModel, "- **Direction**: " + card.direction,
          "- **Corpus version**: " + card.corpusVersion]
         + ["- **Training sentences**: " + Grouped(card.trainSentences),
            "- **Validation sentences**: " + Grouped(card.validationSentences),
            "", "## Hyperparameters", ""]
  {
    hide Grouped;
    RunLabels();
    CorpusLabels();
    CountLabels();
  }

  lemma HeadIsPrinted(card: Card)
    ensures PrintsHead(card, CombinedLines(card))
  {
    hide OneDecimal, Grouped, RunLines, MetricFields, PrintsMetrics;
    var lines, n := CombinedLines(card), |card.hyperparameters|;
    RunLinesArePrinted(card);
    assert lines[..6] == RunLines(card)[..6] && lines[6..11] == RunLines(card)[6..];
    assert lines[11..11 + n] == FieldLines(card.hyperparameters);
    assert lines[11 + n..14 + n] == MetricLines(card.metrics)[..3];
    assert lines[14 + n..] == MetricLines(card.metrics)[3..] == FieldLines(MetricFields(card.metrics));
    MetricsArePrinted(card.metrics);
  }

  lemma {:induction false} BlocksAt(ds: seq<(string, Metrics)>, i: nat, m: nat)
    requires i < |ds| && m < 6
    ensures |DirectionBlocks(ds)| == 6 * |ds| && |DirectionBlock(ds[i])| == 6
    ensures DirectionBlocks(ds)[6 * i + m] == DirectionBlock(ds[i])[m]
    decreases |ds|
  {
    hide DirectionBlock;
    var init, last := ds[..|ds| - 1], ds[|ds| - 1];
    BlockLength(last);
    if |ds| > 1 { BlocksAt(init, if i < |init| then i else 0, m); }
    if i == |init| {
      assert (DirectionBlocks(init) + DirectionBlock(last))[6 * |init| + m] == DirectionBlock(last)[m];
    } else {
      assert (DirectionBlocks(init) + DirectionBlock(last))[6 * i + m] == DirectionBlocks(init)[6 * i + m];
    }
  }

  lemma BlockLength(d: (string, Metrics))
    ensures |DirectionBlock(d)| == 6
  {
  }

  lemma BlockIsPrinted(ds: seq<(string, Metrics)>, lines: seq<string>, i: nat)
    requires i < |ds| && |lines| == 2 + 6 * |ds|
    requires |DirectionBlocks(ds)| == 6 * |ds| && lines[3..] == DirectionBlocks(ds)[..6 * |ds| - 1]
    ensures lines[3 + 6 * i] == "### " + ds[i].0 && lines[4 + 6 * i] == ""
    ensures PrintsMetrics(ds[i].1, lines[5 + 6 * i..8 + 6 * i])
    ensures i < |ds| - 1 ==> lines[8 + 6 * i] == ""
  {
    hide FieldLine, OneDecimal, Grouped, DirectionBlocks, PrintsMetrics;
    var blocks, block := DirectionBlocks(ds), DirectionBlock(ds[i]);
    forall m | 0 <= m < 6 ensures blocks[6 * i + m] == block[m] { BlocksAt(ds, i, m); }
    forall m | 0 <= m < 5 ensures lines[3 + 6 * i + m] == block[m] {
      assert lines[3..][6 * i + m] == blocks[6 * i + m];
    }
    if i < |ds| - 1 { assert lines[8 + 6 * i] == lines[3..][6 * i + 5] == blocks[6 * i + 5] == block[5]; }
    assert lines[3 + 6 * i + 0] == block[0] && lines[3 + 6 * i + 1] == block[1];
    assert lines[5 + 6 * i..8 + 6 * i] == [block[2], block[3], block[4]] by {
      assert lines[3 + 6 * i + 2] == block[2] && lines[3 + 6 * i + 3] == block[3] && lines[3 + 6 * i + 4] == block[4];
    }
    assert [block[2], block[3], block[4]] == FieldLines(MetricFields(ds[i].1));
    MetricsArePrinted(ds[i].1);
  }

  lemma DirectionsArePrinted(card: Card)
    requires card.perDirection.Some? && card.perDirection.value != []
    ensures PrintsDirections(card.perDirection.value, DirectionLines(card))
  {
    hide FieldLines, MetricFields, DirectionBlocks, DirectionBlock, PrintsMetrics;
    var ds, lines := card.perDirection.value, DirectionLines(card);
    BlocksAt(ds, 0, 0);
    assert lines[3..] == DirectionBlocks(ds)[..6 * |ds| - 1];
    forall i | 0 <= i < |ds|
      ensures lines[3 + 6 * i] == "### " + ds[i].0 && lines[4 + 6 * i] == ""
      ensures PrintsMetrics(ds[i].1, lines[5 + 6 * i..8 + 6 * i])
      ensures i < |ds| - 1 ==> lines[8 + 6 * i] == ""
    {
      BlockIsPrinted(ds, lines, i);
    }
  }

  /** A whole card, line by line: the head, the directions if there are any, and the notes if there are any. */
  predicate PrintsCard(card: Card, head: seq<string>, directions: seq<string>, notes: seq<string>) {
    && PrintsHead(card, head)
    && (if card.perDirection.None? || card.perDirection.value == [] then directions == []
        else PrintsDirections(card.perDirection.value, directions))
    && (notes == if card.notes.None? || card.notes.value == "" then [] else ["", "## Notes", "", card.notes.value])
  }

  lemma CardIsPrinted(card: Card)
    ensures PrintsCard(card, CombinedLines(card), DirectionLines(card), NoteLines(card))
  {
    hide PrintsHead, PrintsDirections, CombinedLines;
    HeadIsPrinted(card);
    if card.perDirection.Some? && card.perDirection.value != [] { DirectionsArePrinted(card); }
  }

  method RenderLines(card: Card) returns (lines: seq<string>)
    ensures lines == CombinedLines(card) + DirectionLines(card) + NoteLines(card)
  {
    hide FieldLines, DirectionBlocks, RunLines, MetricLines;
    lines := AppendFields(RunLines(card), card.hyperparameters);
    lines := lines + MetricLines(card.metrics);
    if card.perDirection.Some? && card.perDirection.value != [] {
      var start := lines + ["", "## Metrics by direction", ""];
      lines := AppendDirections(start, card.perDirection.value);
    }
    assert lines == CombinedLines(card) + DirectionLines(card);
    if card.notes.Some? && card.notes.value != "" {
      lines := lines + ["", "## Notes", "", card.notes.value];
    }
  }

  /** `render_model_card`. */
  method RenderModelCard(card: Card) returns (text: string)
    ensures text == CardText(card)
    ensures exists head, directions, notes ::
      PrintsCard(card, head, directions, notes) && text == Join("\n", head + directions + notes) + "\n"
  {
    hide PrintsCard, CombinedLines, DirectionLines, NoteLines, Join;
    var lines := RenderLines(card);
    text := Join("\n", lines) + "\n";
    CardIsPrinted(card);
  }

  // -------------------------------------------------------------------------- the reader

  predicate Numeric(c: char) {
    '0' <= c <= '9' || c == '.'
  }

  /** The longest numeric run a text starts with: what the group captures. */
  function NumericPrefix(s: string): string {
    if s != "" && Numeric(s[0]) then [s[0]] + NumericPrefix(s[1..]) else ""
  }

  /** What `\s*([0-9.]+)` captures at the start of a text; empty when it does not match. */
  function Number(s: string): string {
    NumericPrefix(LStrip(s))
  }

  function Mark(name: string): string {
    "**" + name + "**:"
  }

  /** `pattern.search(text)`: the group of the leftmost match. */
  function Search(name: string, text: string): Option<string>
    decreases |text|
  {
    if text == "" then None
    else if Mark(name) <= text && Number(text[|Mark(name)|..]) != "" then Some(Number(text[|Mark(name)|..]))
    else Search(name, text[1..])
  }

  lemma {:induction false} NumericPrefixStops(x: string, rest: string)
    requires rest != "" && !Numeric(rest[0])
    ensures NumericPrefix(x + rest) == NumericPrefix(x)
  {
    if x == "" {
      assert x + rest == rest;
    } else {
      assert (x + rest)[1..] == x[1..] + rest;
      NumericPrefixStops(x[1..], rest);
    }
  }

  lemma {:induction false} NumericIsWholePrefix(s: string)
    requires forall c :: c in s ==> Numeric(c)
    ensures NumericPrefix(s) == s
  {
    if s != "" {
      assert s[0] in s && forall c :: c in s[1..] ==> c in s;
      NumericIsWholePrefix(s[1..]);
    }
  }

  /** `v` is a longest numeric run, `rest` what follows it. */
  predicate NumberEnds(v: string, rest: string) {
    && v != "" && (forall c :: c in v ==> c == '.' || '0' <= c <= '9')
    && (rest == "" || !(rest[0] == '.' || '0' <= rest[0] <= '9'))
  }

  predicate AllSpace(s: string) {
    forall c :: c in s ==> IsSpace(c)
  }

  /** The bold name, a colon, optional whitespace and the number `v` stand at `i`: what the pattern matches. */
  ghost predicate MatchesAt(name: string, text: string, i: nat, v: string) {
    i <= |text| && exists space, rest ::
      AllSpace(space) && NumberEnds(v, rest) && text[i..] == "**" + name + "**:" + (space + (v + rest))
  }

  /** The pattern's leftmost match captures `found`, or it matches nowhere. */
  ghost predicate IsFound(name: string, text: string, found: Option<string>) {
    if found == None then forall k, u :: !MatchesAt(name, text, k, u)
    else exists i :: MatchesAt(name, text, i, found.value) && forall k, u :: k < i ==> !MatchesAt(name, text, k, u)
  }

  lemma {:induction false} NumericPrefixSplits(s: string)
    ensures var v := NumericPrefix(s);
      v <= s && (forall c :: c in v ==> Numeric(c)) && (v == s || !Numeric(s[|v|]))
  {
    if s != "" { NumericPrefixSplits(s[1..]); }
  }

  lemma NumberOfMatch(space: string, v: string, rest: string)
    requires AllSpace(space) && NumberEnds(v, rest)
    ensures Number(space + (v + rest)) == v
  {
    assert v[0] in v && !IsSpace(v[0]);
    LStripSkips(space, v + rest);
    NumericIsWholePrefix(v);
    if rest != "" { NumericPrefixStops(v, rest); } else { assert v + rest == v; }
  }

  lemma NumberSplits(s: string)
    requires Number(s) != ""
    ensures exists space, rest :: AllSpace(space) && NumberEnds(Number(s), rest) && s == space + (Number(s) + rest)
  {
    hide LStrip, NumericPrefix, IsSpace;
    var t, v := LStrip(s), Number(s);
    LStripTakesSpace(s);
    NumericPrefixSplits(t);
    var space, rest := s[..|s| - |t|], t[|v|..];
    assert AllSpace(space) && NumberEnds(v, rest);
    CutTwice(s, t, v);
  }

  lemma MatchesIff(name: string, text: string, i: nat, v: string)
    requires i <= |text|
    ensures MatchesAt(name, text, i, v)
      <==> Mark(name) <= text[i..] && v != "" && Number(text[i..][|Mark(name)|..]) == v
  {
    hide Number, AllSpace;
    var t, mark := text[i..], Mark(name);
    if MatchesAt(name, text, i, v) {
      var space, rest :|
        AllSpace(space) && NumberEnds(v, rest) && t == "**" + name + "**:" + (space + (v + rest));
      assert t[|mark|..] == space + (v + rest);
      NumberOfMatch(space, v, rest);
    }
    if mark <= t && v != "" && Number(t[|mark|..]) == v {
      NumberSplits(t[|mark|..]);
      var space, rest :| AllSpace(space) && NumberEnds(v, rest) && t[|mark|..] == space + (v + rest);
      assert t == mark + t[|mark|..];
      assert t == "**" + name + "**:" + (space + (v + rest));
    }
  }

  /** Searching from `i` on stops at the first match. */
  lemma {:induction false} SearchFrom(name: string, text: string, i: nat) returns (j: nat)
    requires i <= |text|
    ensures i <= j
    ensures Search(name, text[i..]).Some? ==> MatchesAt(name, text, j, Search(name, text[i..]).value)
    ensures Search(name, text[i..]) == None ==> j == |text| + 1
    ensures forall k, u :: i <= k < j ==> !MatchesAt(name, text, k, u)
    decreases |text| - i
  {
    hide MatchesAt, Number;
    var t := text[i..];
    forall u { MatchesIff(name, text, i, u); }
    if t == "" {
      j := i + 1;
    } else if Mark(name) <= t && Number(t[|Mark(name)|..]) != "" {
      j := i;
    } else {
      assert t[1..] == text[i + 1..];
      j := SearchFrom(name, text, i + 1);
    }
  }

  /** The search finds the leftmost match. */
  lemma SearchIsLeftmost(name: string, text: string)
    ensures IsFound(name, text, Search(name, text))
  {
    hide Search;
    assert text[0..] == text;
    var j := SearchFrom(name, text, 0);
    assert forall k: nat, u :: MatchesAt(name, text, k, u) ==> k < |text| + 1;
  }

  /** `parse_model_card_metrics`. */
  method ParseModelCardMetrics(text: string) returns (metrics: map<string, string>)
    ensures metrics.Keys <= {"bleu", "chrf"}
    ensures Search("BLEU", text) == if "bleu" in metrics then Some(metrics["bleu"]) else None
    ensures Search("chrF", text) == if "chrf" in metrics then Some(metrics["chrf"]) else None
    ensures IsFound("BLEU", text, if "bleu" in metrics then Some(metrics["bleu"]) else None)
    ensures IsFound("chrF", text, if "chrf" in metrics then Some(metrics["chrf"]) else None)
  {
    SearchIsLeftmost("BLEU", text);
    SearchIsLeftmost("chrF", text);
    metrics := map[];
    var found := Search("BLEU", text);
    if found.Some? {
      metrics := metrics["bleu" := found.value];
    }
    found := Search("chrF", text);
    if found.Some? {
      metrics := metrics["chrf" := found.value];
    }
  }

  // ------------------------------------------------------------- reading back what was printed

  /** No two stars side by side. */
  predicate NoMark(s: string) {
    forall i :: 0 <= i < |s| - 1 ==> !(s[i] == '*' && s[i + 1] == '*')
  }

  predicate IsName(name: string) {
    name != "" && '*' !in name && '\n' !in name && name[0] != ':'
  }

  lemma NoMarkAppend(x: string, y: string)
    requires NoMark(x) && NoMark(y) && (x == "" || y == "" || x[|x| - 1] != '*' || y[0] != '*')
    ensures NoMark(x + y)
  {
  }

  /** A stretch without adjacent stars is passed over. */
  lemma {:induction false} SkipPlain(name: string, s: string, rest: string)
    requires NoMark(s) && (s == "" || rest == "" || s[|s| - 1] != '*' || rest[0] != '*')
    ensures Search(name, s + rest) == Search(name, rest)
  {
    if s == "" {
      assert s + rest == rest;
    } else {
      var text := s + rest;
      assert text[1..] == s[1..] + rest;
      assert Mark(name)[0] == '*' && Mark(name)[1] == '*';
      assert |text| >= 2 ==> !(text[0] == '*' && text[1] == '*');
      SkipPlain(name, s[1..], rest);
    }
  }

  /** The closing stars of a label start no match. */
  lemma SkipClosing(name: string, text: string)
    requires IsName(name) && |text| >= 3 && text[0] == '*' && text[1] == '*' && (text[2] == '*' || text[2] == ':')
    ensures Search(name, text) == Search(name, text[1..])
  {
    assert Mark(name)[2] == name[0] && name[0] in name;
    assert !(Mark(name) <= text);
  }

  /** A label without adjacent stars followed by its closing stars and colon is the mark of exactly that name. */
  lemma LabelIsName(name: string, key: string, rest: string)
    requires IsName(name) && NoMark(key)
    ensures name + "**:" <= key + "**:" + rest <==> key == name
  {
    var x, y := name + "**:", key + "**:" + rest;
    if |key| < |name| {
      assert name[|key|] in name;
      assert x[|key|] != y[|key|];
    } else if |key| > |name| {
      assert x[|name|] == '*' && x[|name| + 1] == '*' && x[|name| + 2] == ':';
      if |key| == |name| + 1 {
        assert y[|name| + 2] == '*';
      } else {
        assert !(y[|name|] == '*' && y[|name| + 1] == '*');
      }
    } else if x <= y {
      assert key == y[..|key|] == x[..|name|] == name;
    }
  }

  /** Past the opening stars, a label and its closing stars start no match. */
  lemma SkipLabel(name: string, key: string, rest: string)
    requires IsName(name) && NoMark(key)
    ensures Search(name, key + "**:" + rest) == Search(name, rest)
  {
    hide Search, Mark;
    var closing := "**:" + rest;
    assert key + "**:" + rest == key + closing;
    assert closing[1..] == "*:" + rest;
    SkipClosing(name, closing);
    SkipPlain(name, "*:", rest);
    if key != "" && key[|key| - 1] == '*' {
      var init := key[..|key| - 1];
      assert key + closing == init + ("*" + closing);
      assert init == "" || init[|init| - 1] != '*';
      SkipPlain(name, init, "*" + closing);
      assert ("*" + closing)[1..] == closing;
      SkipClosing(name, "*" + closing);
    } else {
      SkipPlain(name, key, closing);
    }
  }

  /** The labels that read as the name: the name itself, or the name with one star before it. */
  predicate Reads(name: string, key: string) {
    key == name || key == "*" + name
  }

  /** One bold label: it matches if it reads as the name and a number follows; otherwise the search goes on. */
  lemma SearchLabel(name: string, key: string, rest: string)
    requires IsName(name) && NoMark(key)
    ensures Search(name, "**" + key + "**:" + rest)
      == if Reads(name, key) && Number(rest) != "" then Some(Number(rest)) else Search(name, rest)
  {
    var text := "**" + key + "**:" + rest;
    var mark := Mark(name);
    var t1 := "*" + key + "**:" + rest;
    var t2 := key + "**:" + rest;
    assert text[1..] == t1 && t1[1..] == t2 && text[2..] == t2;
    LabelIsName(name, key, rest);
    assert mark[2..] == name + "**:";
    assert mark <= text <==> name + "**:" <= t2 by { PrefixAfterTwo(mark, text); }
    if key != "" && key[0] == '*' {
      var l := key[1..];
      assert t2[1..] == l + "**:" + rest && t1[2..] == t2[1..];
      LabelIsName(name, l, rest);
      assert l == name <==> key == "*" + name;
      assert mark <= t1 <==> name + "**:" <= t2[1..] by { PrefixAfterTwo(mark, t1); }
    } else {
      assert mark[1] == '*' && mark[2] == name[0] && name[0] in name;
      assert if key == "" then t1[2] == '*' else t1[1] == key[0];
      assert !(mark <= t1);
    }
    assert mark <= text ==> text[|mark|..] == rest;
    assert mark <= t1 ==> t1[|mark|..] == rest;
    assert key == name ==> key[0] != '*' by { if key == name { assert name[0] in name; } }
    SkipLabel(name, key, rest);
  }

  lemma PrefixAfterTwo(mark: string, text: string)
    requires |mark| >= 2 && |text| >= 2 && mark[0] == text[0] && mark[1] == text[1]
    ensures mark <= text <==> mark[2..] <= text[2..]
  {
    if mark[2..] <= text[2..] {
      forall i | 0 <= i < |mark| ensures mark[i] == text[i] {
        if i >= 2 { assert mark[2..][i - 2] == text[2..][i - 2]; }
      }
    }
  }

  // -------------------------------------------------------------------- fields and lines

  /** Every line with its line feed. */
  function Flat(lines: seq<string>): string {
    if lines == [] then "" else lines[0] + "\n" + Flat(lines[1..])
  }

  lemma {:induction false} JoinIsFlat(lines: seq<string>)
    requires lines != []
    ensures Join("\n", lines) + "\n" == Flat(lines)
  {
    if |lines| > 1 { JoinIsFlat(lines[1..]); }
  }

  lemma {:induction false} FlatAppend(x: seq<string>, y: seq<string>)
    ensures Flat(x + y) == Flat(x) + Flat(y)
  {
    if x == [] {
      assert x + y == y;
    } else {
      assert (x + y)[1..] == x[1..] + y;
      FlatAppend(x[1..], y);
    }
  }

  /** The number after a label is the number its value starts with. */
  lemma NumberOfValue(v: string, rest: string)
    requires Number(rest) == ""
    ensures Number(" " + v + "\n" + rest) == Number(v)
  {
    var text := " " + v + "\n" + rest;
    var tail := "\n" + rest;
    assert text[1..] == v + tail;
    assert tail[1..] == rest;
    LStripAppend(v, tail);
    if LStrip(v) != "" { NumericPrefixStops(LStrip(v), tail); }
  }

  predicate PlainField(f: Field) {
    NoMark(f.0) && NoMark(f.1)
  }

  lemma SearchField(name: string, f: Field, rest: string)
    requires IsName(name) && PlainField(f) && Number(rest) == ""
    ensures Search(name, FieldLine(f) + "\n" + rest)
      == if Reads(name, f.0) && Number(f.1) != "" then Some(Number(f.1)) else Search(name, rest)
  {
    var after := " " + f.1 + "\n" + rest;
    assert FieldLine(f) + "\n" + rest == "- " + ("**" + f.0 + "**:" + after);
    SkipPlain(name, "- ", "**" + f.0 + "**:" + after);
    SearchLabel(name, f.0, after);
    NumberOfValue(f.1, rest);
    NoMarkAppend(" ", f.1);
    NoMarkAppend(" " + f.1, "\n");
    SkipPlain(name, " " + f.1 + "\n", rest);
  }

  /** The number of the first field whose label reads as the name and whose value starts with a number. */
  function FirstReading(name: string, fields: seq<Field>): Option<string> {
    if fields == [] then None
    else if Reads(name, fields[0].0) && Number(fields[0].1) != "" then Some(Number(fields[0].1))
    else FirstReading(name, fields[1..])
  }

  predicate PlainFields(fields: seq<Field>) {
    forall i :: 0 <= i < |fields| ==> PlainField(fields[i])
  }

  // -------------------------------------------------------------------- line by line

  predicate EndsLine(s: string) {
    s != "" && s[|s| - 1] == '\n'
  }

  /** No mark reaches over the end of a line. */
  lemma MarkInLine(name: string, s: string, rest: string)
    requires IsName(name) && EndsLine(s)
    ensures Mark(name) <= s + rest <==> Mark(name) <= s
    ensures Mark(name) <= s ==> EndsLine(s[|Mark(name)|..])
  {
    var mark := Mark(name);
    assert '\n' !in mark;
    if |mark| >= |s| { assert mark[|s| - 1] in mark; }
  }

  lemma {:induction false} NumericPrefixInLine(s: string, rest: string)
    requires EndsLine(s)
    ensures NumericPrefix(s + rest) == NumericPrefix(s)
  {
    if Numeric(s[0]) {
      assert (s + rest)[1..] == s[1..] + rest;
      NumericPrefixInLine(s[1..], rest);
    }
  }

  lemma {:induction false} LStripKeepsEnd(s: string)
    requires EndsLine(s)
    ensures LStrip(s) == "" || EndsLine(LStrip(s))
  {
    if IsSpace(s[0]) && |s| > 1 { LStripKeepsEnd(s[1..]); }
  }

  lemma NumberInLine(s: string, rest: string)
    requires EndsLine(s) && Number(rest) == ""
    ensures Number(s + rest) == Number(s)
  {
    LStripAppend(s, rest);
    LStripKeepsEnd(s);
    if LStrip(s) != "" { NumericPrefixInLine(LStrip(s), rest); }
  }

  /** Searching across the end of a line, whatever the line holds, before a text that starts with no number. */
  lemma {:induction false} SearchSeam(name: string, s: string, rest: string)
    requires IsName(name) && (s == "" || EndsLine(s)) && Number(rest) == ""
    ensures Search(name, s + rest) == OrElse(Search(name, s), Search(name, rest))
  {
    if s == "" {
      assert s + rest == rest;
    } else {
      assert (s + rest)[1..] == s[1..] + rest;
      MarkInLine(name, s, rest);
      if Mark(name) <= s {
        var after := s[|Mark(name)|..];
        assert (s + rest)[|Mark(name)|..] == after + rest;
        NumberInLine(after, rest);
      }
      SearchSeam(name, s[1..], rest);
    }
  }

  /** How every printed line but the notes begins: it is blank, an item or a heading. */
  predicate Starter(line: string) {
    line == "" || "- " <= line || "# " <= line || "## " <= line || "### " <= line
  }

  predicate Starters(lines: seq<string>) {
    forall i :: 0 <= i < |lines| ==> Starter(lines[i])
  }

  lemma StarterHasNoNumber(line: string, rest: string)
    requires Starter(line) && Number(rest) == ""
    ensures Number(line + "\n" + rest) == ""
  {
    var text := line + "\n" + rest;
    if line == "" {
      assert text[1..] == rest;
    } else {
      assert text[0] == line[0] && LStrip(text) == text;
    }
  }

  lemma {:induction false} LinesHaveNoNumber(lines: seq<string>, tail: string)
    requires Starters(lines) && Number(tail) == ""
    ensures Number(Flat(lines) + tail) == ""
  {
    if lines == [] {
      assert Flat(lines) + tail == tail;
    } else {
      LinesHaveNoNumber(lines[1..], tail);
      StarterHasNoNumber(lines[0], Flat(lines[1..]) + tail);
      assert Flat(lines) + tail == lines[0] + "\n" + (Flat(lines[1..]) + tail);
    }
  }

  /** What is found on the first of some lines on which anything is found, each searched by itself. */
  function SearchLines(name: string, lines: seq<string>): Option<string> {
    if lines == [] then None else OrElse(Search(name, lines[0] + "\n"), SearchLines(name, lines[1..]))
  }

  lemma {:induction false} SearchIsByLine(name: string, lines: seq<string>, tail: string)
    requires IsName(name) && Starters(lines) && Number(tail) == ""
    ensures Search(name, Flat(lines) + tail) == OrElse(SearchLines(name, lines), Search(name, tail))
  {
    if lines == [] {
      assert Flat(lines) + tail == tail;
    } else {
      var rest := Flat(lines[1..]) + tail;
      LinesHaveNoNumber(lines[1..], tail);
      assert Flat(lines) + tail == (lines[0] + "\n") + rest;
      SearchSeam(name, lines[0] + "\n", rest);
      SearchIsByLine(name, lines[1..], tail);
    }
  }

  lemma {:induction false} SearchLinesAppend(name: string, x: seq<string>, y: seq<string>)
    ensures SearchLines(name, x + y) == OrElse(SearchLines(name, x), SearchLines(name, y))
  {
    if x == [] {
      assert x + y == y;
    } else {
      assert (x + y)[1..] == x[1..] + y;
      SearchLinesAppend(name, x[1..], y);
    }
  }

  /** Nothing is found on a line without adjacent stars. */
  lemma PlainLine(name: string, line: string)
    requires NoMark(line)
    ensures Search(name, line + "\n") == None
  {
    NoMarkAppend(line, "\n");
    assert line + "\n" + "" == line + "\n";
    SkipPlain(name, line + "\n", "");
  }

  /** Searching a list of plain fields. */
  lemma {:induction false} SearchFields(name: string, fields: seq<Field>)
    requires IsName(name) && PlainFields(fields)
    ensures SearchLines(name, FieldLines(fields)) == FirstReading(name, fields)
  {
    if fields != [] {
      assert FieldLines(fields)[1..] == FieldLines(fields[1..]);
      SearchField(name, fields[0], "");
      assert FieldLine(fields[0]) + "\n" + "" == FieldLine(fields[0]) + "\n";
      SearchFields(name, fields[1..]);
    }
  }

  // ------------------------------------------------------------------------ what numbers say

  /** The digits of a text, read as one number. */
  function Value(s: string): nat {
    if s == "" then 0
    else
      var c := s[|s| - 1];
      var rest := Value(s[..|s| - 1]);
      if '0' <= c <= '9' then 10 * rest + (c as int - '0' as int) else rest
  }

  lemma ValueSnoc(s: string, n: nat)
    requires n < 10
    ensures Value(s + [Digit(n)]) == 10 * Value(s) + n
  {
    assert (s + [Digit(n)])[..|s|] == s;
  }

  lemma ValueSeparator(s: string, c: char)
    requires !('0' <= c <= '9')
    ensures Value(s + [c]) == Value(s)
  {
    assert (s + [c])[..|s|] == s;
  }

  lemma {:induction false} ValueOfDecimal(n: nat)
    ensures Value(Decimal(n)) == n
  {
    if n < 10 {
      ValueSnoc("", n);
      assert "" + [Digit(n)] == [Digit(n)];
    } else {
      ValueOfDecimal(n / 10);
      ValueSnoc(Decimal(n / 10), n % 10);
    }
  }

  /** A printed score says the score in tenths, so different scores print differently. */
  lemma ValueOfOneDecimal(tenths: nat)
    ensures Value(OneDecimal(tenths)) == tenths
  {
    var whole := Decimal(tenths / 10);
    ValueOfDecimal(tenths / 10);
    ValueSeparator(whole, '.');
    ValueSnoc(whole + ".", tenths % 10);
  }

  lemma LastThreeDigits(n: nat)
    ensures 10 * (10 * (10 * (n / 1000) + n / 100 % 10) + n / 10 % 10) + n % 10 == n
  {
    assert n / 100 == 10 * (n / 1000) + n / 100 % 10;
    assert n / 10 == 10 * (n / 100) + n / 10 % 10;
  }

  lemma ValueOfThree(s: string, a: nat, b: nat, c: nat)
    requires a < 10 && b < 10 && c < 10
    ensures Value(s + "," + [Digit(a), Digit(b), Digit(c)]) == 10 * (10 * (10 * Value(s) + a) + b) + c
  {
    var t := s + ",";
    ValueSeparator(s, ',');
    ValueSnoc(t, a);
    ValueSnoc(t + [Digit(a)], b);
    ValueSnoc(t + [Digit(a)] + [Digit(b)], c);
    assert t + [Digit(a), Digit(b), Digit(c)] == t + [Digit(a)] + [Digit(b)] + [Digit(c)];
  }

  /** A printed count says the count. */
  lemma {:induction false} ValueOfGrouped(n: nat)
    ensures Value(Grouped(n)) == n
  {
    if n < 1000 {
      ValueOfDecimal(n);
    } else {
      ValueOfGrouped(n / 1000);
      ValueOfThree(Grouped(n / 1000), n / 100 % 10, n / 10 % 10, n % 10);
      LastThreeDigits(n);
    }
  }

  predicate IsDigit(c: char) {
    '0' <= c <= '9'
  }

  lemma {:induction false} DecimalShape(n: nat)
    ensures Decimal(n) != "" && (forall c :: c in Decimal(n) ==> IsDigit(c)) && (Decimal(n)[0] == '0' ==> n == 0)
    ensures |Decimal(n)| > 1 <==> n >= 10
  {
    if n >= 10 { DecimalShape(n / 10); }
  }

  /** A printed score is digits, a point and one more digit, without a leading zero before another digit. */
  lemma OneDecimalShape(tenths: nat)
    ensures var s := OneDecimal(tenths);
      && |s| >= 3 && s[|s| - 2] == '.' && (s[0] == '0' ==> |s| == 3)
      && forall i :: 0 <= i < |s| && i != |s| - 2 ==> IsDigit(s[i])
  {
    hide Decimal;
    var whole := Decimal(tenths / 10);
    DecimalShape(tenths / 10);
    var s := OneDecimal(tenths);
    assert s[0] == whole[0];
    forall i | 0 <= i < |s| && i != |s| - 2 ensures IsDigit(s[i]) {
      if i < |whole| { assert s[i] == whole[i] && whole[i] in whole; }
    }
  }

  /** Digits, with a comma before every third from the right. */
  predicate InGroups(s: string) {
    forall i :: 0 <= i < |s| ==> if (|s| - i) % 4 == 0 then s[i] == ',' else IsDigit(s[i])
  }

  lemma OneMoreGroup(front: string, a: char, b: char, c: char)
    requires InGroups(front) && IsDigit(a) && IsDigit(b) && IsDigit(c)
    ensures InGroups(front + "," + [a, b, c])
  {
    var s := front + "," + [a, b, c];
    forall i | 0 <= i < |s| ensures if (|s| - i) % 4 == 0 then s[i] == ',' else IsDigit(s[i]) {
      if i < |front| { assert s[i] == front[i] && |s| - i == |front| - i + 4; }
    }
  }

  /** A printed count has a comma before every third digit from the right, and only there, and no leading zero. */
  lemma {:induction false} GroupedShape(n: nat)
    ensures var s := Grouped(n); s != "" && IsDigit(s[0]) && (s[0] == '0' ==> n == 0) && InGroups(s)
  {
    hide InGroups, Decimal;
    if n < 1000 {
      SmallIsGrouped(n);
    } else {
      GroupedShape(n / 1000);
      OneMoreGroup(Grouped(n / 1000), Digit(n / 100 % 10), Digit(n / 10 % 10), Digit(n % 10));
    }
  }

  lemma SmallIsGrouped(n: nat)
    requires n < 1000
    ensures var s := Decimal(n); s != "" && IsDigit(s[0]) && (s[0] == '0' ==> n == 0) && InGroups(s)
  {
    DecimalShape(n);
    SmallIsShort(n);
    assert forall i :: 0 <= i < |Decimal(n)| ==> Decimal(n)[i] in Decimal(n);
  }

  lemma SmallIsShort(n: nat)
    requires n < 1000
    ensures |Decimal(n)| <= 3
  {
    DecimalShape(n / 100);
  }

  // -------------------------------------------------------------------------- whole cards

  predicate NoStar(s: string) {
    '*' !in s
  }

  lemma {:induction false} DecimalIsNumeric(n: nat)
    ensures Decimal(n) != "" && forall c :: c in Decimal(n) ==> Numeric(c)
  {
    if n >= 10 { DecimalIsNumeric(n / 10); }
  }

  lemma {:induction false} GroupedIsPlain(n: nat)
    ensures NoStar(Grouped(n))
  {
    if n < 1000 { DecimalIsNumeric(n); } else { GroupedIsPlain(n / 1000); }
  }

  lemma ScoreIsItsNumber(tenths: nat)
    ensures Number(OneDecimal(tenths)) == OneDecimal(tenths) && OneDecimal(tenths) != "" && NoMark(OneDecimal(tenths))
  {
    var s := OneDecimal(tenths);
    DecimalIsNumeric(tenths / 10);
    assert Numeric(s[0]) by { assert s[0] == Decimal(tenths / 10)[0]; }
    NumericIsWholePrefix(s);
    assert '*' !in s;
  }

  lemma NoStarIsNoMark(s: string)
    requires NoStar(s)
    ensures NoMark(s)
  {
    forall i | 0 <= i < |s| - 1 ensures s[i] != '*' { assert s[i] in s; }
  }

  const NAMES: set<string> := {"BLEU", "chrF"}

  function Combined(card: Card, name: string): string {
    OneDecimal(if name == "BLEU" then card.metrics.bleu else card.metrics.chrf)
  }

  lemma MetricFieldsRead(m: Metrics, name: string)
    requires name in NAMES
    ensures FirstReading(name, MetricFields(m)) == Some(OneDecimal(if name == "BLEU" then m.bleu else m.chrf))
    ensures PlainFields(MetricFields(m))
  {
    ScoreIsItsNumber(m.bleu);
    ScoreIsItsNumber(m.chrf);
    GroupedIsPlain(m.sentences);
    NoStarIsNoMark(Grouped(m.sentences));
    NoStarIsNoMark("BLEU");
    NoStarIsNoMark("chrF");
    NoStarIsNoMark("Sentences evaluated");
    var fields := MetricFields(m);
    assert fields[1..][0] == fields[1];
    assert "BLEU" != "chrF" && "BLEU"[0] == 'B';
  }

  /** No field before the metrics holds two stars side by side. */
  predicate EarlierFieldsArePlain(card: Card) {
    && NoMark(card.runId) && NoMark(card.timestamp) && NoMark(card.baseModel) && NoMark(card.direction)
    && NoMark(card.corpusVersion) && PlainFields(card.hyperparameters)
  }

  lemma {:induction false} NoneRead(name: string, fields: seq<Field>)
    requires forall i :: 0 <= i < |fields| ==> !Reads(name, fields[i].0)
    ensures FirstReading(name, fields) == None
  {
    if fields != [] { NoneRead(name, fields[1..]); }
  }

  lemma RunFieldsDoNotRead(card: Card, name: string)
    requires name in NAMES && EarlierFieldsArePlain(card)
    ensures FirstReading(name, RunFields(card)) == None && PlainFields(RunFields(card))
  {
    GroupedIsPlain(card.trainSentences);
    NoStarIsNoMark(Grouped(card.trainSentences));
    GroupedIsPlain(card.validationSentences);
    NoStarIsNoMark(Grouped(card.validationSentences));
    RunLabelsArePlain();
    hide NoMark, Grouped;
    NoneRead(name, RunFields(card));
  }

  lemma RunLabelsArePlain()
    ensures NoMark("Timestamp") && NoMark("Base model") && NoMark("Direction") && NoMark("Corpus version")
    ensures NoMark("Training sentences") && NoMark("Validation sentences")
  {
    NoStarIsNoMark("Timestamp");
    NoStarIsNoMark("Base model");
    NoStarIsNoMark("Direction");
    NoStarIsNoMark("Corpus version");
    NoStarIsNoMark("Training sentences");
    NoStarIsNoMark("Validation sentences");
  }

  // ------------------------------------------------------------------------ the whole card

  /** Every line of a card, the notes included. */
  function Lines(card: Card): seq<string> {
    CombinedLines(card) + DirectionLines(card) + NoteLines(card)
  }

  /** Each printed line ends in a line feed, the last one included. */
  lemma CardShape(card: Card)
    ensures CardText(card) == Flat(Lines(card))
  {
    JoinIsFlat(Lines(card));
  }

  /** The lines printed above the combined score of that name. */
  function LinesAbove(card: Card, name: string): seq<string> {
    RunLines(card) + FieldLines(card.hyperparameters) + ["", "## Metrics (validation set)", ""]
    + (if name == "chrF" then [FieldLine(("BLEU", Combined(card, "BLEU")))] else [])
  }

  lemma FieldLinesAreStarters(fields: seq<Field>)
    ensures Starters(FieldLines(fields))
  {
  }

  lemma RunLinesAreStarters(card: Card)
    ensures Starters(RunLines(card))
  {
    hide FieldLines, RunFields;
    FieldLinesAreStarters(RunFields(card));
  }

  lemma LinesAboveAreStarters(card: Card, name: string)
    ensures Starters(LinesAbove(card, name))
  {
    hide FieldLines, RunLines;
    RunLinesAreStarters(card);
    FieldLinesAreStarters(card.hyperparameters);
  }

  lemma ScoreIsWholeNumber(tenths: nat, rest: string)
    ensures Number(" " + OneDecimal(tenths) + "\n" + rest) == OneDecimal(tenths) != ""
  {
    hide OneDecimal;
    var score := OneDecimal(tenths);
    var after := " " + score + "\n" + rest;
    ScoreIsItsNumber(tenths);
    assert after[1..] == score + ("\n" + rest);
    LStripAppend(score, "\n" + rest);
    NumericPrefixStops(LStrip(score), "\n" + rest);
    NumericStart(score);
  }

  // A text that is its own number starts without whitespace.
  lemma NumericStart(s: string)
    requires Number(s) == s && s != ""
    ensures LStrip(s) == s
  {
    NumericPrefixShortens(LStrip(s));
  }

  lemma {:induction false} NumericPrefixShortens(s: string)
    ensures |NumericPrefix(s)| <= |s|
  {
    if s != "" { NumericPrefixShortens(s[1..]); }
  }

  /** The line of the combined score is where the search ends, whatever follows it. */
  lemma ScoreIsFound(name: string, tenths: nat, rest: string)
    requires IsName(name) && NoMark(name)
    ensures Search(name, FieldLine((name, OneDecimal(tenths))) + "\n" + rest) == Some(OneDecimal(tenths))
  {
    hide OneDecimal, Number, Mark;
    var after := " " + OneDecimal(tenths) + "\n" + rest;
    assert FieldLine((name, OneDecimal(tenths))) + "\n" + rest == "- " + ("**" + name + "**:" + after);
    SkipPlain(name, "- ", "**" + name + "**:" + after);
    SearchLabel(name, name, after);
    ScoreIsWholeNumber(tenths, rest);
  }

  /** A card splits at the line of the combined score. */
  lemma CardSplits(card: Card, name: string) returns (rest: string)
    requires name in NAMES
    ensures CardText(card) == Flat(LinesAbove(card, name)) + (FieldLine((name, Combined(card, name))) + "\n" + rest)
  {
    hide RunLines, FieldLine, DirectionLines, NoteLines;
    var above, line := LinesAbove(card, name), FieldLine((name, Combined(card, name)));
    var below := Lines(card)[|above| + 1..];
    assert FieldLines(MetricFields(card.metrics))[..2]
        == [FieldLine(("BLEU", Combined(card, "BLEU"))), FieldLine(("chrF", Combined(card, "chrF")))];
    assert Lines(card) == above + ([line] + below);
    CardShape(card);
    FlatAppend(above, [line] + below);
    rest := Flat(below);
    assert ([line] + below)[1..] == below;
  }

  lemma NamesAreNames(name: string)
    requires name in NAMES
    ensures IsName(name) && NoMark(name)
  {
    NoStarIsNoMark(name);
  }

  /** What the reader finds on a rendered card, whatever its fields hold: whatever it finds among the lines above the
      combined score, and else the combined score; never a per-direction score. */
  lemma MetricReadsAs(card: Card, name: string)
    requires name in NAMES
    ensures Search(name, CardText(card))
      == OrElse(Search(name, Flat(LinesAbove(card, name))), Some(Combined(card, name)))
    ensures Search(name, Flat(LinesAbove(card, name))) == SearchLines(name, LinesAbove(card, name))
  {
    hide CardText, LinesAbove, FieldLine, Combined, Search, Flat, Starters, SearchLines;
    NamesAreNames(name);
    var rest := CardSplits(card, name);
    ScoreLineStarts(name, Combined(card, name), rest);
    ScoreIsCombined(card, name, rest);
    LinesAboveAreStarters(card, name);
    SearchIsByLine(name, LinesAbove(card, name), FieldLine((name, Combined(card, name))) + "\n" + rest);
    SearchIsByLine(name, LinesAbove(card, name), "");
    assert Flat(LinesAbove(card, name)) + "" == Flat(LinesAbove(card, name));
    assert Search(name, "") == None by { EmptyHasNothing(name); }
  }

  lemma EmptyHasNothing(name: string)
    ensures Search(name, "") == None && Number("") == ""
  {
  }

  lemma ScoreLineStarts(name: string, score: string, rest: string)
    ensures Number(FieldLine((name, score)) + "\n" + rest) == ""
  {
    var text := FieldLine((name, score)) + "\n" + rest;
    assert text[0] == '-' && LStrip(text) == text;
  }

  lemma ScoreIsCombined(card: Card, name: string, rest: string)
    requires name in NAMES
    ensures Search(name, FieldLine((name, Combined(card, name))) + "\n" + rest) == Some(Combined(card, name))
  {
    NamesAreNames(name);
    ScoreIsFound(name, if name == "BLEU" then card.metrics.bleu else card.metrics.chrf, rest);
  }

  /** On every card: the combined score is read back exactly when the lines above it, each by itself, hold nothing that
      is read before it, or the first such thing says the same. */
  lemma CombinedIsReadIff(card: Card, name: string)
    requires name in NAMES
    ensures Search(name, CardText(card)) == Some(Combined(card, name))
      <==> SearchLines(name, LinesAbove(card, name)) in {None, Some(Combined(card, name))}
  {
    hide CardText, SearchLines, LinesAbove, Combined, Search;
    MetricReadsAs(card, name);
  }

  /** Then what is read says the combined score. */
  lemma ParsedScore(card: Card, name: string)
    requires name in NAMES && SearchLines(name, LinesAbove(card, name)) in {None, Some(Combined(card, name))}
    ensures Search(name, CardText(card)).Some?
    ensures Value(Search(name, CardText(card)).value) == if name == "BLEU" then card.metrics.bleu else card.metrics.chrf
  {
    hide CardText, SearchLines, LinesAbove, Search, Value, OneDecimal;
    MetricReadsAs(card, name);
    ValueOfOneDecimal(if name == "BLEU" then card.metrics.bleu else card.metrics.chrf);
  }

  // --------------------------------------------------------------- cards without adjacent stars

  lemma {:induction false} NothingOnPlainLines(name: string, lines: seq<string>)
    requires forall i :: 0 <= i < |lines| ==> NoMark(lines[i])
    ensures SearchLines(name, lines) == None
  {
    if lines != [] {
      PlainLine(name, lines[0]);
      NothingOnPlainLines(name, lines[1..]);
    }
  }

  lemma TitleIsPlain(card: Card)
    requires NoMark(card.runId)
    ensures NoMark("# Model card: " + card.runId)
  {
    NoMarkAppend("# Model card: ", card.runId);
  }

  lemma NothingOnRunLines(card: Card, name: string)
    requires name in NAMES && EarlierFieldsArePlain(card)
    ensures SearchLines(name, RunLines(card)) == None
  {
    hide RunFields, SearchLines, NoMark, PlainFields, FirstReading;
    var title, heading := ["# Model card: " + card.runId, ""], ["", "## Hyperparameters", ""];
    TitleIsPlain(card);
    NoStarIsNoMark("");
    NoStarIsNoMark("## Hyperparameters");
    NothingOnPlainLines(name, title);
    NothingOnPlainLines(name, heading);
    NamesAreNames(name);
    RunFieldsDoNotRead(card, name);
    SearchFields(name, RunFields(card));
    SearchLinesAppend(name, title + FieldLines(RunFields(card)), heading);
    SearchLinesAppend(name, title, FieldLines(RunFields(card)));
  }

  lemma NothingOnMetricHead(card: Card, name: string)
    requires name in NAMES
    ensures SearchLines(name, ["", "## Metrics (validation set)", ""]
                              + if name == "chrF" then [FieldLine(("BLEU", Combined(card, "BLEU")))] else []) == None
  {
    hide SearchLines, FieldLine;
    var heading := ["", "## Metrics (validation set)", ""];
    NoStarIsNoMark("");
    NoStarIsNoMark("## Metrics (validation set)");
    NothingOnPlainLines(name, heading);
    if name == "chrF" {
      var bleu := [("BLEU", Combined(card, "BLEU"))];
      MetricFieldsRead(card.metrics, "BLEU");
      assert PlainField(MetricFields(card.metrics)[0]);
      NamesAreNames(name);
      SearchFields(name, bleu);
      assert "BLEU"[0] == 'B';
      NoneRead(name, bleu);
      assert FieldLines(bleu) == [FieldLine(bleu[0])];
      SearchLinesAppend(name, heading, FieldLines(bleu));
    } else {
      assert heading + [] == heading;
    }
  }

  /** Without adjacent stars above, only a hyperparameter whose label reads as the metric's name, and whose value starts
      with a number, is read before the combined score. */
  lemma ParsedMetric(card: Card, name: string)
    requires name in NAMES && EarlierFieldsArePlain(card)
    ensures SearchLines(name, LinesAbove(card, name)) == FirstReading(name, card.hyperparameters)
    ensures Search(name, CardText(card)) == match FirstReading(name, card.hyperparameters)
                                            case Some(number) => Some(number)
                                            case None => Some(Combined(card, name))
  {
    hide CardText, FirstReading, NoMark, Search, SearchLines, RunLines, FieldLines, FieldLine;
    var hyperparameters := FieldLines(card.hyperparameters);
    var head := ["", "## Metrics (validation set)", ""]
      + if name == "chrF" then [FieldLine(("BLEU", Combined(card, "BLEU")))] else [];
    NothingOnRunLines(card, name);
    NamesAreNames(name);
    SearchFields(name, card.hyperparameters);
    NothingOnMetricHead(card, name);
    SearchLinesAppend(name, RunLines(card) + hyperparameters, head);
    SearchLinesAppend(name, RunLines(card), hyperparameters);
    assert LinesAbove(card, name) == RunLines(card) + hyperparameters + head;
    MetricReadsAs(card, name);
  }

  /** A card with no adjacent stars in any earlier field whose BLEU is nevertheless read from a hyperparameter. */
  lemma HyperparameterCanShadowMetric(card: Card)
    requires EarlierFieldsArePlain(card) && card.hyperparameters == [("BLEU", "4-gram")]
    ensures Search("BLEU", CardText(card)) == Some("4")
    ensures Combined(card, "BLEU") != "4"
  {
    var value := "4-gram";
    assert value[1..] == "-gram" && Number(value) == "4";
    ParsedMetric(card, "BLEU");
    assert '.' in Combined(card, "BLEU");
  }
}
