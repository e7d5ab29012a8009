/** Reading a hyperparameter back out of a model card: `_extract_vocab_extension_scoping` and
    `_extract_new_tokens_added` of `ml/evaluation/evaluate_checkpoint.py`, and the reader in `ml/training/train.py`.
    Both patterns want a dash, optional whitespace, the bold name, a colon, and then a word or a number. */
module CardReading {
  import opened Options
  import opened Text
  import opened ModelCard

  const SCOPING := "vocab_extension_scoping"
  const ADDED := "new_tokens_added"

  /** What the group of a pattern captures: a word or a number. */
  datatype Capture = Word | Digits

  predicate Captures(c: Capture, ch: char) {
    if c.Word? then !IsSpace(ch) else '0' <= ch <= '9'
  }

  function PrefixOf(c: Capture, s: string): string {
    if s != "" && Captures(c, s[0]) then [s[0]] + PrefixOf(c, s[1..]) else ""
  }

  /** Optional whitespace and the group; empty when it does not match. */
  function Group(c: Capture, s: string): string {
    PrefixOf(c, LStrip(s))
  }

  /** What the pattern captures behind its dash; empty when it does not match. */
  function Captured(name: string, c: Capture, rest: string): string {
    if Mark(name) <= rest then Group(c, rest[|Mark(name)|..]) else ""
  }

  /** What the pattern captures at the start of a text; empty when it does not match there. */
  function FieldAt(name: string, c: Capture, text: string): string {
    if text == "" || text[0] != '-' then "" else Captured(name, c, LStrip(text[1..]))
  }

  /** `pattern.search(text)`: the group of the leftmost match. */
  function ReadField(name: string, c: Capture, text: string): Option<string> {
    if text == "" then None
    else if FieldAt(name, c, text) != "" then Some(FieldAt(name, c, text))
    else ReadField(name, c, text[1..])
  }

  // ------------------------------------------------------------------ the leftmost match

  lemma {:induction false} PrefixIsWhole(c: Capture, v: string, rest: string)
    requires (forall i :: 0 <= i < |v| ==> Captures(c, v[i])) && (rest == "" || !Captures(c, rest[0]))
    ensures PrefixOf(c, v + rest) == v
  {
    if v == "" {
      assert v + rest == rest;
    } else {
      assert (v + rest)[1..] == v[1..] + rest;
      PrefixIsWhole(c, v[1..], rest);
    }
  }

  /** `v` is a longest word or number, `rest` what follows it. */
  predicate GroupEnds(c: Capture, v: string, rest: string) {
    && v != "" && (forall i :: 0 <= i < |v| ==> if c.Word? then !IsSpace(v[i]) else '0' <= v[i] <= '9')
    && (rest == "" || if c.Word? then IsSpace(rest[0]) else !('0' <= rest[0] <= '9'))
  }

  /** A dash, optional whitespace, the bold name, a colon, optional whitespace and the group `v` stand at `i`. */
  ghost predicate FieldMatches(name: string, c: Capture, text: string, i: nat, v: string) {
    i <= |text| && exists gap, space, rest ::
      && AllSpace(gap) && AllSpace(space) && GroupEnds(c, v, rest)
      && text[i..] == "-" + (gap + ("**" + name + "**:" + (space + (v + rest))))
  }

  /** The pattern's leftmost match captures `found`, or it matches nowhere. */
  ghost predicate IsRead(name: string, c: Capture, text: string, found: Option<string>) {
    if found == None then forall k, u :: !FieldMatches(name, c, text, k, u)
    else exists i ::
      FieldMatches(name, c, text, i, found.value) && forall k, u :: k < i ==> !FieldMatches(name, c, text, k, u)
  }

  lemma {:induction false} PrefixSplits(c: Capture, s: string)
    ensures var v := PrefixOf(c, s);
      v <= s && (forall i :: 0 <= i < |v| ==> Captures(c, v[i])) && (v == s || !Captures(c, s[|v|]))
  {
    if s != "" { PrefixSplits(c, s[1..]); }
  }

  lemma GroupOfMatch(c: Capture, space: string, v: string, rest: string)
    requires AllSpace(space) && GroupEnds(c, v, rest)
    ensures Group(c, space + (v + rest)) == v
  {
    assert !IsSpace(v[0]);
    LStripSkips(space, v + rest);
    PrefixIsWhole(c, v, rest);
  }

  lemma GroupSplits(c: Capture, s: string)
    requires Group(c, s) != ""
    ensures exists space, rest ::
      AllSpace(space) && GroupEnds(c, Group(c, s), rest) && s == space + (Group(c, s) + rest)
  {
    hide LStrip, PrefixOf, IsSpace;
    var t, v := LStrip(s), Group(c, s);
    LStripTakesSpace(s);
    PrefixSplits(c, t);
    var space, rest := s[..|s| - |t|], t[|v|..];
    assert AllSpace(space) && GroupEnds(c, v, rest);
    CutTwice(s, t, v);
  }

  lemma CapturedOfMatch(name: string, c: Capture, gap: string, space: string, v: string, rest: string)
    requires AllSpace(gap) && AllSpace(space) && GroupEnds(c, v, rest)
    ensures FieldAt(name, c, "-" + (gap + ("**" + name + "**:" + (space + (v + rest))))) == v
  {
    hide Group, AllSpace, GroupEnds;
    var tail := space + (v + rest);
    var marked := "**" + name + "**:" + tail;
    var text := "-" + (gap + marked);
    assert text[1..] == gap + marked;
    assert LStrip(gap + marked) == marked by {
      assert marked[0] == '*';
      assert forall ch :: ch in gap ==> IsSpace(ch) by { SpaceIsSpace(gap); }
      LStripSkips(gap, marked);
    }
    assert marked == Mark(name) + tail && marked[|Mark(name)|..] == tail;
    GroupOfMatch(c, space, v, rest);
  }

  lemma SpaceIsSpace(s: string)
    requires AllSpace(s)
    ensures forall ch :: ch in s ==> IsSpace(ch)
  {
  }

  lemma FieldAtSplits(name: string, c: Capture, text: string)
    requires FieldAt(name, c, text) != ""
    ensures FieldMatches(name, c, text, 0, FieldAt(name, c, text))
  {
    hide Group, LStrip, IsSpace, GroupEnds;
    var v, after := FieldAt(name, c, text), text[1..];
    var marked := LStrip(after);
    LStripTakesSpace(after);
    var gap, tail := after[..|after| - |marked|], marked[|Mark(name)|..];
    GroupSplits(c, tail);
    var space, rest :| AllSpace(space) && GroupEnds(c, v, rest) && tail == space + (v + rest);
    assert AllSpace(gap) && after == gap + marked && text == "-" + after;
    assert marked == Mark(name) + tail;
    assert text[0..] == "-" + (gap + ("**" + name + "**:" + (space + (v + rest))));
  }

  lemma FieldMatchesIff(name: string, c: Capture, text: string, i: nat, v: string)
    requires i <= |text|
    ensures FieldMatches(name, c, text, i, v) <==> v != "" && FieldAt(name, c, text[i..]) == v
  {
    hide FieldAt, AllSpace;
    var t := text[i..];
    if FieldMatches(name, c, text, i, v) {
      var gap, space, rest :| AllSpace(gap) && AllSpace(space) && GroupEnds(c, v, rest)
                              && t == "-" + (gap + ("**" + name + "**:" + (space + (v + rest))));
      CapturedOfMatch(name, c, gap, space, v, rest);
    }
    if v != "" && FieldAt(name, c, t) == v {
      FieldAtSplits(name, c, t);
      assert t[0..] == t;
    }
  }

  /** Reading from `i` on stops at the first match. */
  lemma {:induction false} ReadFrom(name: string, c: Capture, text: string, i: nat) returns (j: nat)
    requires i <= |text|
    ensures i <= j
    ensures ReadField(name, c, text[i..]).Some? ==> FieldMatches(name, c, text, j, ReadField(name, c, text[i..]).value)
    ensures ReadField(name, c, text[i..]) == None ==> j == |text| + 1
    ensures forall k, u :: i <= k < j ==> !FieldMatches(name, c, text, k, u)
    decreases |text| - i
  {
    hide FieldMatches, FieldAt;
    var t := text[i..];
    forall u { FieldMatchesIff(name, c, text, i, u); }
    if t == "" {
      assert FieldAt(name, c, t) == "" by { EmptyHasNoField(name, c); }
      j := i + 1;
    } else if FieldAt(name, c, t) != "" {
      j := i;
    } else {
      assert t[1..] == text[i + 1..];
      j := ReadFrom(name, c, text, i + 1);
    }
  }

  lemma EmptyHasNoField(name: string, c: Capture)
    ensures FieldAt(name, c, "") == ""
  {
  }

  /** What is read is the group of the pattern's leftmost match, and nothing where it matches nowhere. */
  lemma ReadIsLeftmost(name: string, c: Capture, text: string)
    ensures IsRead(name, c, text, ReadField(name, c, text))
  {
    hide ReadField;
    assert text[0..] == text;
    var j := ReadFrom(name, c, text, 0);
    assert forall k: nat, u :: FieldMatches(name, c, text, k, u) ==> k < |text| + 1;
  }

  // ----------------------------------------------------------------------- skipping

  /** Not two stars next, whitespace aside. */
  predicate Calm(text: string) {
    !("**" <= LStrip(text))
  }

  lemma NoMatchHere(name: string, c: Capture, text: string)
    requires text != "" && (text[0] == '-' ==> !(Mark(name) <= LStrip(text[1..])))
    ensures ReadField(name, c, text) == ReadField(name, c, text[1..])
  {
  }

  lemma {:induction false} LStripKeepsNoMark(s: string)
    requires NoMark(s)
    ensures NoMark(LStrip(s)) && (LStrip(s) != "" ==> s != "" && LStrip(s)[|LStrip(s)| - 1] == s[|s| - 1])
  {
    if s != "" && IsSpace(s[0]) { LStripKeepsNoMark(s[1..]); }
  }

  /** The stars of a mark are not found in a stretch without adjacent stars, nor after it. */
  lemma NoMarkAhead(name: string, s: string, rest: string)
    requires NoMark(s) && Calm(rest) && (s == "" || rest == "" || s[|s| - 1] != '*' || rest[0] != '*')
    ensures !(Mark(name) <= LStrip(s + rest))
  {
    LStripAppend(s, rest);
    LStripKeepsNoMark(s);
    var w := LStrip(s);
    assert Mark(name)[0] == '*' && Mark(name)[1] == '*';
    assert Mark(name)[..2] == "**";
    if w == "" {
      assert Mark(name) <= LStrip(rest) ==> "**" <= LStrip(rest);
    } else {
      assert |w| >= 2 ==> (w + rest)[1] == w[1];
    }
  }

  lemma {:induction false} SkipCalm(name: string, c: Capture, s: string, rest: string)
    requires NoMark(s) && Calm(rest) && (s == "" || rest == "" || s[|s| - 1] != '*' || rest[0] != '*')
    ensures ReadField(name, c, s + rest) == ReadField(name, c, rest)
  {
    if s == "" {
      assert s + rest == rest;
    } else {
      assert (s + rest)[1..] == s[1..] + rest;
      NoMarkAhead(name, s[1..], rest);
      NoMatchHere(name, c, s + rest);
      SkipCalm(name, c, s[1..], rest);
    }
  }

  /** Nor are they found in a key, whose closing stars are followed by a colon. */
  lemma NoMarkInKey(name: string, key: string, rest: string)
    requires IsName(name) && NoMark(key)
    ensures !(Mark(name) <= LStrip(key + ("**:" + rest)))
  {
    LStripAppend(key, "**:" + rest);
    LStripKeepsNoMark(key);
    var w, mark := LStrip(key), Mark(name);
    assert name[0] in name && mark[0] == '*' && mark[1] == '*' && mark[2] == name[0];
    var text := w + ("**:" + rest);
    assert |w| >= 2 ==> text[1] == w[1];
    assert |w| == 1 ==> text[1] == '*' && text[2] == '*';
    assert |w| == 0 ==> text[2] == ':';
  }

  lemma {:induction false} SkipKey(name: string, c: Capture, key: string, rest: string)
    requires IsName(name) && NoMark(key)
    ensures ReadField(name, c, key + ("**:" + rest)) == ReadField(name, c, rest)
  {
    if key == "" {
      assert "" + ("**:" + rest) == "**:" + rest;
      SkipThree(name, c, '*', '*', ':', rest);
      assert "**:" + rest == ['*', '*', ':'] + rest;
    } else {
      assert (key + ("**:" + rest))[1..] == key[1..] + ("**:" + rest);
      NoMarkInKey(name, key[1..], rest);
      NoMatchHere(name, c, key + ("**:" + rest));
      SkipKey(name, c, key[1..], rest);
    }
  }

  lemma SkipThree(name: string, c: Capture, x: char, y: char, z: char, rest: string)
    requires x != '-' && y != '-' && z != '-'
    ensures ReadField(name, c, [x, y, z] + rest) == ReadField(name, c, rest)
  {
    assert ([x, y, z] + rest)[1..] == [y, z] + rest;
    assert ([y, z] + rest)[1..] == [z] + rest;
    assert ([z] + rest)[1..] == rest;
    NoMatchHere(name, c, [x, y, z] + rest);
    NoMatchHere(name, c, [y, z] + rest);
    NoMatchHere(name, c, [z] + rest);
  }

  // ------------------------------------------------------------------- reading fields

  lemma FieldAtLine(name: string, c: Capture, key: string, after: string)
    requires IsName(name) && NoMark(key)
    ensures FieldAt(name, c, "- **" + key + "**:" + after) == if key == name then Group(c, after) else ""
  {
    var text, rest := "- **" + key + "**:" + after, "**" + key + "**:" + after;
    var mark := Mark(name);
    assert text[1..] == " " + rest && (" " + rest)[1..] == rest;
    assert LStrip(text[1..]) == rest;
    LabelIsName(name, key, after);
    assert mark[2..] == name + "**:" && rest[2..] == key + "**:" + after;
    PrefixAfterTwo(mark, rest);
    assert key == name ==> rest[|mark|..] == after;
  }

  /** One line: it is read if its key is the name and something is captured; otherwise the search goes on behind it. */
  lemma ReadLine(name: string, c: Capture, f: Field, rest: string)
    requires IsName(name) && PlainField(f) && Calm(rest)
    ensures var captured := Group(c, " " + f.1 + "\n" + rest);
      ReadField(name, c, FieldLine(f) + "\n" + rest)
      == if f.0 == name && captured != "" then Some(captured) else ReadField(name, c, rest)
  {
    hide Group, Mark, FieldAt;
    var after := " " + f.1 + "\n" + rest;
    var text := "- **" + f.0 + "**:" + after;
    assert FieldLine(f) + "\n" + rest == text;
    FieldAtLine(name, c, f.0, after);
    var tail := f.0 + ("**:" + after);
    assert text[1..] == [' ', '*', '*'] + tail;
    SkipThree(name, c, ' ', '*', '*', tail);
    SkipKey(name, c, f.0, after);
    NoMarkAppend(" ", f.1);
    NoMarkAppend(" " + f.1, "\n");
    SkipCalm(name, c, " " + f.1 + "\n", rest);
  }

  /** A value the group captures whole. */
  predicate Whole(c: Capture, v: string) {
    v != "" && forall i :: 0 <= i < |v| ==> Captures(c, v[i]) && !IsSpace(v[i])
  }

  lemma GroupIsWhole(c: Capture, v: string, rest: string)
    requires Whole(c, v)
    ensures Group(c, " " + v + "\n" + rest) == v
  {
    var text, tail := " " + v + "\n" + rest, v + ("\n" + rest);
    assert text[1..] == tail && tail[0] == v[0];
    assert LStrip(text) == LStrip(tail) == tail;
    PrefixIsWhole(c, v, "\n" + rest);
  }

  // --------------------------------------------------------------------- line by line

  function FirstWord(text: string): string {
    Group(Word, text)
  }

  /** Texts that start as a printed line does, or with a dash alone. */
  predicate Fresh(text: string) {
    FirstWord(text) in {"", "-", "#", "##", "###"}
  }

  lemma {:induction false} PrefixOfPrefix(c: Capture, s: string)
    ensures PrefixOf(c, PrefixOf(c, s)) == PrefixOf(c, s)
  {
    if s != "" && Captures(c, s[0]) {
      assert ([s[0]] + PrefixOf(c, s[1..]))[1..] == PrefixOf(c, s[1..]);
      PrefixOfPrefix(c, s[1..]);
    }
  }

  lemma {:induction false} PrefixInLine(c: Capture, s: string, rest: string)
    requires EndsLine(s)
    ensures PrefixOf(c, s + rest) == PrefixOf(c, s)
  {
    if Captures(c, s[0]) {
      assert (s + rest)[1..] == s[1..] + rest;
      PrefixInLine(c, s[1..], rest);
    }
  }

  lemma FreshGroup(c: Capture, rest: string)
    requires Fresh(rest)
    ensures Group(c, FirstWord(rest)) == Group(c, rest) && LStrip(FirstWord(rest)) == FirstWord(rest)
    ensures if LStrip(rest) == "" then FirstWord(rest) == "" else LStrip(rest)[0] != '*'
    ensures FirstWord(rest) == "" || FirstWord(rest)[0] != '*'
  {
    PrefixOfPrefix(Word, LStrip(rest));
  }

  /** What a group captures behind the end of a line depends on the next word only. */
  lemma GroupInLine(c: Capture, s: string, rest: string)
    requires EndsLine(s) && Fresh(rest)
    ensures Group(c, s + rest) == Group(c, s + FirstWord(rest))
  {
    hide Fresh, FirstWord;
    LStripAppend(s, rest);
    LStripAppend(s, FirstWord(rest));
    if LStrip(s) == "" {
      FreshGroup(c, rest);
    } else {
      LStripKeepsEnd(s);
      PrefixInLine(c, LStrip(s), rest);
      PrefixInLine(c, LStrip(s), FirstWord(rest));
    }
  }

  lemma CapturedInLine(name: string, c: Capture, l: string, rest: string)
    requires IsName(name) && EndsLine(l) && Fresh(rest)
    ensures Captured(name, c, l + rest) == Captured(name, c, l + FirstWord(rest))
  {
    hide Fresh, FirstWord, Group, Mark;
    var mark, w := Mark(name), FirstWord(rest);
    MarkInLine(name, l, rest);
    MarkInLine(name, l, w);
    if mark <= l {
      var after := l[|mark|..];
      assert (l + rest)[|mark|..] == after + rest && (l + w)[|mark|..] == after + w;
      GroupInLine(c, after, rest);
    }
  }

  lemma NothingCaptured(name: string, c: Capture, rest: string)
    requires rest == "" || rest[0] != '*'
    ensures Captured(name, c, rest) == ""
  {
    assert |Mark(name)| > 0 && Mark(name)[0] == '*';
  }

  lemma FieldInLine(name: string, c: Capture, s: string, rest: string)
    requires IsName(name) && EndsLine(s) && Fresh(rest)
    ensures FieldAt(name, c, s + rest) == FieldAt(name, c, s + FirstWord(rest))
  {
    hide Fresh, FirstWord, Group, Mark, Captured, LStrip, IsName, IsSpace;
    if s[0] == '-' {
      var r, w := s[1..], FirstWord(rest);
      assert (s + rest)[1..] == r + rest && (s + w)[1..] == r + w;
      LStripAppend(r, rest);
      LStripAppend(r, w);
      FreshGroup(c, rest);
      if LStrip(r) == "" {
        NothingCaptured(name, c, LStrip(rest));
        NothingCaptured(name, c, w);
      } else {
        LStripKeepsEnd(r);
        CapturedInLine(name, c, LStrip(r), rest);
      }
    }
  }

  lemma WordReadsNothing(name: string, c: Capture, w: string)
    requires w in {"", "-", "#", "##", "###"}
    ensures ReadField(name, c, w) == None
  {
    assert "-"[1..] == "" && "#"[1..] == "" && "##"[1..] == "#" && "###"[1..] == "##";
    assert ReadField(name, c, "") == ReadField(name, c, "#") == ReadField(name, c, "##") == None;
    assert |Mark(name)| > 0;
  }

  /** Reading across the end of a line, whatever the line holds, before a text that starts as a line does. */
  lemma {:induction false} ReadSeam(name: string, c: Capture, s: string, rest: string)
    requires IsName(name) && (s == "" || EndsLine(s)) && Fresh(rest)
    ensures ReadField(name, c, s + rest) == OrElse(ReadField(name, c, s + FirstWord(rest)), ReadField(name, c, rest))
  {
    hide FirstWord, FieldAt;
    var w := FirstWord(rest);
    if s == "" {
      assert s + rest == rest && s + w == w;
      WordReadsNothing(name, c, w);
    } else {
      assert (s + rest)[1..] == s[1..] + rest && (s + w)[1..] == s[1..] + w;
      FieldInLine(name, c, s, rest);
      ReadSeam(name, c, s[1..], rest);
    }
  }

  lemma FirstWordIs(w: string, text: string)
    requires w in {"-", "#", "##", "###"} && w + " " <= text
    ensures FirstWord(text) == w
  {
    var rest := text[|w|..];
    assert text == w + rest && rest[0] == ' ';
    assert text[0] == w[0] && LStrip(text) == text;
    PrefixIsWhole(Word, w, rest);
  }

  lemma StarterIsFresh(line: string, rest: string)
    requires Starter(line) && (line == "" ==> Fresh(rest))
    ensures Fresh(line + "\n" + rest)
  {
    var text := line + "\n" + rest;
    if line == "" {
      assert text[1..] == rest;
    } else if "- " <= line {
      FirstWordIs("-", text);
    } else if "# " <= line {
      FirstWordIs("#", text);
    } else if "## " <= line {
      FirstWordIs("##", text);
    } else {
      FirstWordIs("###", text);
    }
  }

  lemma {:induction false} LinesAreFresh(lines: seq<string>, tail: string)
    requires Starters(lines) && Fresh(tail)
    ensures Fresh(Flat(lines) + tail)
  {
    hide Fresh, Starter;
    if lines == [] {
      assert Flat(lines) + tail == tail;
    } else {
      LinesAreFresh(lines[1..], tail);
      StarterIsFresh(lines[0], Flat(lines[1..]) + tail);
      assert Flat(lines) + tail == lines[0] + "\n" + (Flat(lines[1..]) + tail);
    }
  }

  /** A line with all a pattern can see of what follows it: the next word. */
  function InContext(lines: seq<string>, i: nat, next: string): string
    requires i < |lines|
  {
    lines[i] + "\n" + FirstWord(Flat(lines[i + 1..]) + next)
  }

  /** What is read on the first of some lines on which anything is read, each by itself. */
  function ReadLines(name: string, c: Capture, lines: seq<string>, next: string): Option<string> {
    if lines == [] then None
    else OrElse(ReadField(name, c, InContext(lines, 0, next)), ReadLines(name, c, lines[1..], next))
  }

  lemma {:induction false} ReadIsByLine(name: string, c: Capture, lines: seq<string>, tail: string)
    requires IsName(name) && Starters(lines) && Fresh(tail)
    ensures ReadField(name, c, Flat(lines) + tail) == OrElse(ReadLines(name, c, lines, tail), ReadField(name, c, tail))
  {
    hide ReadField, Fresh, FirstWord, Starter;
    if lines == [] {
      assert Flat(lines) + tail == tail;
    } else {
      var rest := Flat(lines[1..]) + tail;
      LinesAreFresh(lines[1..], tail);
      assert Flat(lines) + tail == (lines[0] + "\n") + rest;
      ReadSeam(name, c, lines[0] + "\n", rest);
      ReadIsByLine(name, c, lines[1..], tail);
    }
  }

  /** No line, by itself, is read as the field. */
  predicate Silent(name: string, c: Capture, lines: seq<string>, next: string) {
    forall i :: 0 <= i < |lines| ==> ReadField(name, c, InContext(lines, i, next)) == None
  }

  lemma {:induction false} SilentLines(name: string, c: Capture, lines: seq<string>, next: string)
    ensures ReadLines(name, c, lines, next) == None <==> Silent(name, c, lines, next)
  {
    hide ReadField;
    if lines != [] {
      SilentLines(name, c, lines[1..], next);
      forall i | 0 < i < |lines| ensures InContext(lines, i, next) == InContext(lines[1..], i - 1, next) {
        assert lines[i + 1..] == lines[1..][i..];
      }
      if Silent(name, c, lines[1..], next) && ReadField(name, c, InContext(lines, 0, next)) == None {
        forall i | 0 <= i < |lines| ensures ReadField(name, c, InContext(lines, i, next)) == None {
          if i > 0 { assert ReadField(name, c, InContext(lines[1..], i - 1, next)) == None; }
        }
      } else if Silent(name, c, lines, next) {
        forall i | 0 <= i < |lines| - 1 ensures ReadField(name, c, InContext(lines[1..], i, next)) == None {
          assert ReadField(name, c, InContext(lines, i + 1, next)) == None;
        }
      }
    }
  }

  // --------------------------------------------------------------------- whole cards

  const KEYS: set<string> := {SCOPING, ADDED}

  lemma KeysAreNames(name: string)
    requires name in KEYS
    ensures IsName(name)
  {
  }

  lemma KeysArePlain(name: string)
    requires name in KEYS
    ensures NoMark(name)
  {
    NoStarIsNoMark(name);
  }

  /** Hyperparameters are a dictionary: no key occurs twice. */
  predicate DistinctKeys(fields: seq<Field>) {
    forall i, j :: 0 <= i < j < |fields| ==> fields[i].0 != fields[j].0
  }

  predicate Unnamed(name: string, fields: seq<Field>) {
    forall i :: 0 <= i < |fields| ==> fields[i].0 != name
  }

  /** The lines of a card but its notes, and the notes. */
  function Printed(card: Card): seq<string> {
    CombinedLines(card) + DirectionLines(card)
  }

  function Notes(card: Card): string {
    Flat(NoteLines(card))
  }

  lemma NotesAreFresh(card: Card)
    ensures Fresh(Notes(card))
  {
    if NoteLines(card) != [] {
      NotesText(card);
      StarterIsFresh("## Notes", "\n" + card.notes.value + "\n");
      StarterIsFresh("", "## Notes" + "\n" + ("\n" + card.notes.value + "\n"));
    }
  }

  lemma NotesText(card: Card)
    requires NoteLines(card) != []
    ensures Notes(card) == "" + "\n" + ("## Notes" + "\n" + ("\n" + card.notes.value + "\n"))
  {
    var notes := card.notes.value;
    assert ["", "## Notes", "", notes][1..] == ["## Notes", "", notes];
    assert ["## Notes", "", notes][1..] == ["", notes] && ["", notes][1..] == [notes] && [notes][1..] == [];
    assert Flat([notes]) == notes + "\n" + "";
    assert Flat(["", notes]) == "" + "\n" + Flat([notes]) == "\n" + notes + "\n";
    assert Flat(["## Notes", "", notes]) == "## Notes" + "\n" + Flat(["", notes]);
  }

  lemma {:induction false} BlocksAreStarters(ds: seq<(string, Metrics)>)
    ensures Starters(DirectionBlocks(ds))
  {
    hide FieldLines, MetricFields;
    if ds != [] {
      BlocksAreStarters(ds[..|ds| - 1]);
      FieldLinesAreStarters(MetricFields(ds[|ds| - 1].1));
    }
  }

  lemma StartersAppend(x: seq<string>, y: seq<string>)
    requires Starters(x) && Starters(y)
    ensures Starters(x + y)
  {
    hide Starter;
  }

  lemma CombinedAreStarters(card: Card)
    ensures Starters(CombinedLines(card))
  {
    hide FieldLines, MetricFields, RunFields, Starter;
    RunLinesAreStarters(card);
    FieldLinesAreStarters(card.hyperparameters);
    FieldLinesAreStarters(MetricFields(card.metrics));
    HeadingIsStarter("## Metrics (validation set)");
    StartersAppend(["", "## Metrics (validation set)", ""], FieldLines(MetricFields(card.metrics)));
    StartersAppend(RunLines(card), FieldLines(card.hyperparameters));
    StartersAppend(RunLines(card) + FieldLines(card.hyperparameters), MetricLines(card.metrics));
  }

  lemma HeadingIsStarter(heading: string)
    requires Starter(heading)
    ensures Starters(["", heading, ""])
  {
  }

  lemma PrintedAreStarters(card: Card)
    ensures Starters(Printed(card))
  {
    hide CombinedLines, DirectionBlocks;
    CombinedAreStarters(card);
    if card.perDirection.Some? { BlocksAreStarters(card.perDirection.value); }
    HeadingIsStarter("## Metrics by direction");
    StartersAppend(CombinedLines(card), DirectionLines(card));
  }

  /** What is read of a rendered card, whatever its fields hold: what is read on the first of its lines on which
      anything is read, each by itself, and else what is read of its notes. */
  lemma CardIsReadByLine(card: Card, name: string, c: Capture)
    requires IsName(name)
    ensures ReadField(name, c, CardText(card))
      == OrElse(ReadLines(name, c, Printed(card), Notes(card)), ReadField(name, c, Notes(card)))
  {
    hide ReadField, ReadLines, CombinedLines, DirectionLines, NoteLines, Fresh, Starters;
    CardShape(card);
    FlatAppend(Printed(card), NoteLines(card));
    PrintedAreStarters(card);
    NotesAreFresh(card);
    ReadIsByLine(name, c, Printed(card), Notes(card));
  }

  /** On every card: nothing is read exactly when nothing is read on any of its lines nor of its notes. */
  lemma NothingIsReadIff(card: Card, name: string, c: Capture)
    requires IsName(name)
    ensures ReadField(name, c, CardText(card)) == None
      <==> Silent(name, c, Printed(card), Notes(card)) && ReadField(name, c, Notes(card)) == None
  {
    hide ReadField, ReadLines, Printed, Notes, Silent, CardText;
    CardIsReadByLine(card, name, c);
    SilentLines(name, c, Printed(card), Notes(card));
  }

  /** The lines printed above a hyperparameter. */
  function LinesAboveRecord(card: Card, i: nat): seq<string>
    requires i < |card.hyperparameters|
  {
    RunLines(card) + FieldLines(card.hyperparameters[..i])
  }

  /** What is read above a hyperparameter, up to the dash of its own line. */
  function Ahead(card: Card, name: string, c: Capture, i: nat): Option<string>
    requires i < |card.hyperparameters|
  {
    ReadField(name, c, Flat(LinesAboveRecord(card, i)) + "-")
  }

  lemma LinesAboveRecordAreStarters(card: Card, i: nat)
    requires i < |card.hyperparameters|
    ensures Starters(LinesAboveRecord(card, i))
  {
    hide FieldLines, RunLines, Starter;
    RunLinesAreStarters(card);
    FieldLinesAreStarters(card.hyperparameters[..i]);
    StartersAppend(RunLines(card), FieldLines(card.hyperparameters[..i]));
  }

  lemma DashIsFresh()
    ensures FirstWord("-") == "-" && Fresh("-")
  {
    assert "-"[1..] == "";
  }

  lemma AheadIsByLine(card: Card, name: string, c: Capture, i: nat)
    requires IsName(name) && i < |card.hyperparameters|
    ensures Ahead(card, name, c, i) == ReadLines(name, c, LinesAboveRecord(card, i), "-")
  {
    hide ReadField, ReadLines, LinesAboveRecord, Fresh;
    LinesAboveRecordAreStarters(card, i);
    DashIsFresh();
    ReadIsByLine(name, c, LinesAboveRecord(card, i), "-");
    WordReadsNothing(name, c, "-");
  }

  /** A card splits at the line of a hyperparameter. */
  lemma CardSplitsAt(card: Card, i: nat) returns (rest: string)
    requires i < |card.hyperparameters|
    ensures CardText(card) == Flat(LinesAboveRecord(card, i)) + (FieldLine(card.hyperparameters[i]) + "\n" + rest)
  {
    hide RunLines, MetricLines, DirectionLines, NoteLines, FieldLine;
    var hyperparameters, above := card.hyperparameters, LinesAboveRecord(card, i);
    var line := FieldLine(hyperparameters[i]);
    var below := Lines(card)[|above| + 1..];
    assert FieldLines(hyperparameters)[..i] == FieldLines(hyperparameters[..i]);
    assert FieldLines(hyperparameters)
        == FieldLines(hyperparameters)[..i] + ([line] + FieldLines(hyperparameters)[i + 1..]);
    assert Lines(card) == above + ([line] + below);
    CardShape(card);
    FlatAppend(above, [line] + below);
    rest := Flat(below);
    assert ([line] + below)[1..] == below;
  }

  /** The line of a recorded value is read, whatever follows it. */
  lemma RecordIsRead(name: string, c: Capture, v: string, rest: string)
    requires name in KEYS && Whole(c, v)
    ensures ReadField(name, c, FieldLine((name, v)) + "\n" + rest) == Some(v)
    ensures FirstWord(FieldLine((name, v)) + "\n" + rest) == "-"
  {
    hide FieldAt, Whole;
    var text := FieldLine((name, v)) + "\n" + rest;
    var after := " " + v + "\n" + rest;
    assert text == "- **" + name + "**:" + after;
    FirstWordIs("-", text);
    KeysAreNames(name);
    KeysArePlain(name);
    FieldAtLine(name, c, name, after);
    GroupIsWhole(c, v, rest);
    assert v != "" by { WholeIsSome(c, v); }
  }

  lemma WholeIsSome(c: Capture, v: string)
    requires Whole(c, v)
    ensures v != ""
  {
  }

  /** What is read where a value is recorded, on every card: what is read above its line, and else the value. */
  lemma RecordedValueReadsAs(card: Card, name: string, c: Capture, i: nat)
    requires name in KEYS && i < |card.hyperparameters|
    requires card.hyperparameters[i].0 == name && Whole(c, card.hyperparameters[i].1)
    ensures ReadField(name, c, CardText(card)) == OrElse(Ahead(card, name, c, i), Some(card.hyperparameters[i].1))
  {
    hide ReadField, LinesAboveRecord, CardText, Whole, FieldLine, FirstWord, Starters;
    var above, v := LinesAboveRecord(card, i), card.hyperparameters[i].1;
    KeysAreNames(name);
    var rest := CardSplitsAt(card, i);
    RecordIsRead(name, c, v, rest);
    LinesEnd(above);
    ReadSeam(name, c, Flat(above), FieldLine((name, v)) + "\n" + rest);
  }

  lemma {:induction false} LinesEnd(lines: seq<string>)
    ensures Flat(lines) == "" || EndsLine(Flat(lines))
  {
    if lines != [] { LinesEnd(lines[1..]); }
  }

  /** So a recorded value is read back exactly when nothing else, or the same, is read above it. */
  lemma RecordedValueIsReadIff(card: Card, name: string, c: Capture, i: nat)
    requires name in KEYS && i < |card.hyperparameters|
    requires card.hyperparameters[i].0 == name && Whole(c, card.hyperparameters[i].1)
    ensures ReadField(name, c, CardText(card)) == Some(card.hyperparameters[i].1)
      <==> Ahead(card, name, c, i) in {None, Some(card.hyperparameters[i].1)}
  {
    hide ReadField, Ahead, CardText, Whole;
    RecordedValueReadsAs(card, name, c, i);
  }

  // ----------------------------------------------------------------- what a run records

  /** The hyperparameters record this label, or none: the key is left out then. */
  predicate Records(fields: seq<Field>, scoping: Option<string>) {
    && DistinctKeys(fields)
    && (scoping.Some? ==> Whole(Word, scoping.value) && (SCOPING, scoping.value) in fields)
    && (scoping.None? ==> Unnamed(SCOPING, fields))
  }

  /** The exact condition on a card for a value, or its absence, to be read back. */
  predicate Undisturbed(card: Card, name: string, c: Capture, recorded: Option<string>) {
    match recorded
    case Some(v) =>
      forall i :: 0 <= i < |card.hyperparameters| && card.hyperparameters[i] == (name, v) ==>
        Ahead(card, name, c, i) in {None, Some(v)}
    case None => Silent(name, c, Printed(card), Notes(card)) && ReadField(name, c, Notes(card)) == None
  }

  lemma DecimalIsWhole(n: nat)
    ensures Whole(Digits, Decimal(n))
  {
    DecimalHasDigits(n);
    forall i | 0 <= i < |Decimal(n)| ensures !IsSpace(Decimal(n)[i]) { assert '0' <= Decimal(n)[i] <= '9'; }
  }

  lemma {:induction false} DecimalHasDigits(n: nat)
    ensures Decimal(n) != "" && forall i :: 0 <= i < |Decimal(n)| ==> '0' <= Decimal(n)[i] <= '9'
  {
    if n >= 10 { DecimalHasDigits(n / 10); }
  }

  // --------------------------------------------------------------- cards without adjacent stars

  /** A line on which the field cannot be read: without adjacent stars, or an item with another label. */
  ghost predicate Quiet(name: string, line: string) {
    NoMark(line) || exists f: Field :: line == FieldLine(f) && PlainField(f) && f.0 != name
  }

  ghost predicate QuietLines(name: string, lines: seq<string>) {
    forall i :: 0 <= i < |lines| ==> Quiet(name, lines[i])
  }

  lemma WordIsCalm(w: string)
    requires w in {"", "-", "#", "##", "###"}
    ensures Calm(w) && (w == "" || w[0] != '*')
  {
  }

  lemma NothingOnQuietLine(name: string, c: Capture, line: string, w: string)
    requires IsName(name) && Quiet(name, line) && w in {"", "-", "#", "##", "###"}
    ensures ReadField(name, c, line + "\n" + w) == None
  {
    hide ReadField, Calm, NoMark, IsName, FieldLine, Group;
    WordIsCalm(w);
    WordReadsNothing(name, c, w);
    if NoMark(line) {
      PlainLineEnds(line);
      SkipCalm(name, c, line + "\n", w);
    } else {
      var f: Field :| line == FieldLine(f) && PlainField(f) && f.0 != name;
      ReadLine(name, c, f, w);
    }
  }

  lemma PlainLineEnds(line: string)
    requires NoMark(line)
    ensures NoMark(line + "\n") && (line + "\n")[|line|] != '*'
  {
    NoMarkAppend(line, "\n");
  }

  lemma QuietLinesAreSilent(name: string, c: Capture, lines: seq<string>, next: string)
    requires IsName(name) && Starters(lines) && Fresh(next) && QuietLines(name, lines)
    ensures Silent(name, c, lines, next)
  {
    hide ReadField, FirstWord, Quiet, Starter;
    forall i | 0 <= i < |lines| ensures ReadField(name, c, InContext(lines, i, next)) == None {
      LinesAreFresh(lines[i + 1..], next);
      NothingOnQuietLine(name, c, lines[i], FirstWord(Flat(lines[i + 1..]) + next));
    }
  }

  lemma FieldsAreQuiet(name: string, fields: seq<Field>)
    requires PlainFields(fields) && Unnamed(name, fields)
    ensures QuietLines(name, FieldLines(fields))
  {
    hide FieldLine, NoMark;
    forall i | 0 <= i < |fields| ensures Quiet(name, FieldLines(fields)[i]) {
      assert FieldLines(fields)[i] == FieldLine(fields[i]) && PlainField(fields[i]);
    }
  }

  lemma RunFieldsArePlain(card: Card, name: string)
    requires name in KEYS && EarlierFieldsArePlain(card)
    ensures PlainFields(RunFields(card)) && Unnamed(name, RunFields(card))
  {
    assert |SCOPING| == 23 && |ADDED| == 16;
    assert ADDED[0] == 'n';
    RunFieldsDoNotRead(card, "BLEU");
  }

  lemma MetricFieldsArePlain(m: Metrics, name: string)
    requires name in KEYS
    ensures PlainFields(MetricFields(m)) && Unnamed(name, MetricFields(m))
  {
    assert |SCOPING| == 23 && |ADDED| == 16;
    MetricFieldsRead(m, "BLEU");
  }

  lemma RunLinesAreQuiet(card: Card, name: string)
    requires name in KEYS && EarlierFieldsArePlain(card)
    ensures QuietLines(name, RunLines(card))
  {
    hide RunFields, FieldLines, NoMark, PlainFields, Unnamed, EarlierFieldsArePlain;
    assert NoMark(card.runId) by { RunIdIsPlain(card); }
    TitleIsPlain(card);
    NoStarIsNoMark("");
    NoStarIsNoMark("## Hyperparameters");
    RunFieldsArePlain(card, name);
    FieldsAreQuiet(name, RunFields(card));
  }

  lemma RunIdIsPlain(card: Card)
    requires EarlierFieldsArePlain(card)
    ensures NoMark(card.runId) && PlainFields(card.hyperparameters)
  {
  }

  /** Without adjacent stars above it a recorded value is read back: unlike the metrics, these names cannot be taken by
      another field, as the keys of the hyperparameters are distinct. */
  lemma RecordedValueIsReadBack(card: Card, name: string, c: Capture, i: nat)
    requires name in KEYS && EarlierFieldsArePlain(card) && DistinctKeys(card.hyperparameters)
    requires i < |card.hyperparameters| && card.hyperparameters[i].0 == name && Whole(c, card.hyperparameters[i].1)
    ensures Ahead(card, name, c, i) == None
    ensures ReadField(name, c, CardText(card)) == Some(card.hyperparameters[i].1)
  {
    hide ReadField, Ahead, CardText, Whole, ReadLines, QuietLines, RunLines, FieldLines, Starters, Fresh, Silent;
    var fields := card.hyperparameters[..i];
    KeysAreNames(name);
    RunLinesAreQuiet(card, name);
    FieldsAreQuiet(name, fields);
    QuietAppend(name, RunLines(card), FieldLines(fields));
    LinesAboveRecordAreStarters(card, i);
    DashIsFresh();
    QuietLinesAreSilent(name, c, LinesAboveRecord(card, i), "-");
    SilentLines(name, c, LinesAboveRecord(card, i), "-");
    AheadIsByLine(card, name, c, i);
    RecordedValueReadsAs(card, name, c, i);
  }

  lemma QuietAppend(name: string, x: seq<string>, y: seq<string>)
    requires QuietLines(name, x) && QuietLines(name, y)
    ensures QuietLines(name, x + y)
  {
    hide Quiet;
  }

  /** The fields that follow the metrics hold no two adjacent stars either. */
  predicate LaterFieldsArePlain(card: Card) {
    && (card.notes.Some? ==> NoMark(card.notes.value))
    && (card.perDirection.Some? ==>
          forall i :: 0 <= i < |card.perDirection.value| ==> NoMark(card.perDirection.value[i].0))
  }

  lemma HeadingIsQuiet(name: string, level: string, text: string)
    requires NoStar(level) && level != "" && NoMark(text)
    ensures Quiet(name, level + text)
  {
    NoStarIsNoMark(level);
    assert level[|level| - 1] in level;
    NoMarkAppend(level, text);
  }

  lemma PlainIsQuiet(name: string, line: string)
    requires NoStar(line)
    ensures QuietLines(name, ["", line, ""]) && QuietLines(name, [""])
  {
    NoStarIsNoMark(line);
    NoStarIsNoMark("");
  }

  lemma {:induction false} BlocksAreQuiet(name: string, ds: seq<(string, Metrics)>)
    requires name in KEYS && forall i :: 0 <= i < |ds| ==> NoMark(ds[i].0)
    ensures QuietLines(name, DirectionBlocks(ds))
  {
    hide FieldLines, MetricFields, NoMark, Quiet, PlainFields, Unnamed;
    if ds != [] {
      var init, d := ds[..|ds| - 1], ds[|ds| - 1];
      BlocksAreQuiet(name, init);
      HeadingIsQuiet(name, "### ", d.0);
      PlainIsQuiet(name, "");
      assert QuietLines(name, ["### " + d.0]);
      QuietAppend(name, ["### " + d.0], [""]);
      MetricFieldsArePlain(d.1, name);
      FieldsAreQuiet(name, MetricFields(d.1));
      QuietAppend(name, ["### " + d.0] + [""], FieldLines(MetricFields(d.1)));
      QuietAppend(name, ["### " + d.0] + [""] + FieldLines(MetricFields(d.1)), [""]);
      assert DirectionBlock(d) == ["### " + d.0] + [""] + FieldLines(MetricFields(d.1)) + [""];
      QuietAppend(name, DirectionBlocks(init), DirectionBlock(d));
    }
  }

  lemma PrintedAreQuiet(card: Card, name: string)
    requires name in KEYS && EarlierFieldsArePlain(card) && LaterFieldsArePlain(card)
    requires Unnamed(name, card.hyperparameters)
    ensures QuietLines(name, Printed(card))
  {
    hide FieldLines, MetricFields, RunLines, DirectionBlocks, NoMark, Quiet, PlainFields, Unnamed;
    hide EarlierFieldsArePlain;
    RunIdIsPlain(card);
    RunLinesAreQuiet(card, name);
    FieldsAreQuiet(name, card.hyperparameters);
    PlainIsQuiet(name, "## Metrics (validation set)");
    PlainIsQuiet(name, "## Metrics by direction");
    MetricFieldsArePlain(card.metrics, name);
    FieldsAreQuiet(name, MetricFields(card.metrics));
    if card.perDirection.Some? { BlocksAreQuiet(name, card.perDirection.value); }
  }

  lemma NothingInNotes(name: string, c: Capture, card: Card)
    requires IsName(name) && (card.notes.Some? ==> NoMark(card.notes.value))
    ensures ReadField(name, c, Notes(card)) == None
  {
    if NoteLines(card) != [] {
      var heading, notes := "\n## Notes\n\n", card.notes.value;
      NotesText(card);
      var text := heading + notes;
      assert Notes(card) == text + "\n" + "";
      NoStarIsNoMark(heading);
      NoMarkAppend(heading, notes);
      NothingOnQuietLine(name, c, text, "");
    }
  }

  /** Without adjacent stars a value that was not recorded is not read, notes and directions included. */
  lemma UnrecordedValueIsNotRead(card: Card, name: string, c: Capture)
    requires name in KEYS && EarlierFieldsArePlain(card) && LaterFieldsArePlain(card)
    requires Unnamed(name, card.hyperparameters)
    ensures ReadField(name, c, CardText(card)) == None
  {
    hide ReadField, CardText, Printed, Notes, QuietLines, Starters, Fresh, Silent;
    KeysAreNames(name);
    PrintedAreStarters(card);
    NotesAreFresh(card);
    PrintedAreQuiet(card, name);
    QuietLinesAreSilent(name, c, Printed(card), Notes(card));
    NothingInNotes(name, c, card);
    NothingIsReadIff(card, name, c);
  }

  lemma {:induction false} SkipWithoutDash(name: string, c: Capture, s: string, rest: string)
    requires '-' !in s
    ensures ReadField(name, c, s + rest) == ReadField(name, c, rest)
  {
    if s == "" {
      assert s + rest == rest;
    } else {
      assert (s + rest)[1..] == s[1..] + rest;
      NoMatchHere(name, c, s + rest);
      SkipWithoutDash(name, c, s[1..], rest);
    }
  }

  lemma TitleHoldsLine(card: Card, name: string, v: string, next: string)
    requires card.runId == "run\n- **" + name + "**: " + v
    ensures Printed(card)[0] + "\n" + next == "# Model card: run\n" + (FieldLine((name, v)) + "\n" + next)
  {
    hide FieldLines, MetricLines, DirectionLines;
    var title := "# Model card: ";
    assert card.runId == "run\n" + FieldLine((name, v));
    assert title + ("run\n" + FieldLine((name, v))) + "\n" + next
        == (title + "run\n") + (FieldLine((name, v)) + "\n" + next);
  }

  /** With adjacent stars they can be taken: a run id that continues with such a line is read instead of whatever the
      hyperparameters record. */
  lemma RunIdCanShadowRecord(card: Card, name: string, c: Capture, v: string)
    requires name in KEYS && Whole(c, v) && card.runId == "run\n- **" + name + "**: " + v
    ensures ReadField(name, c, CardText(card)) == Some(v)
  {
    hide ReadField, CardText, Whole, Notes, RunFields, FirstWord, FieldLine;
    var title := Printed(card)[0];
    var next := FirstWord(Flat(Printed(card)[1..]) + Notes(card));
    TitleHoldsLine(card, name, v, next);
    SkipWithoutDash(name, c, "# Model card: run\n", FieldLine((name, v)) + "\n" + next);
    RecordIsRead(name, c, v, next);
    KeysAreNames(name);
    CardIsReadByLine(card, name, c);
  }

  // ------------------------------------------------------------------- what a run passes on

  /** No field a card was given holds two adjacent stars. */
  predicate Plain(card: Card) {
    EarlierFieldsArePlain(card) && LaterFieldsArePlain(card)
  }

  /** The scoping label a run records, or its absence, is what the next run and the evaluator read exactly when nothing
      else is read ahead of it, as on every card without adjacent stars. */
  lemma ScopingIsReadBack(card: Card, scoping: Option<string>)
    requires Records(card.hyperparameters, scoping)
    ensures ReadField(SCOPING, Word, CardText(card)) == scoping <==> Undisturbed(card, SCOPING, Word, scoping)
    ensures Plain(card) ==> ReadField(SCOPING, Word, CardText(card)) == scoping
  {
    hide ReadField, CardText, Ahead, Whole, Printed, Notes, Silent, EarlierFieldsArePlain, LaterFieldsArePlain;
    if scoping.Some? {
      var i :| 0 <= i < |card.hyperparameters| && card.hyperparameters[i] == (SCOPING, scoping.value);
      RecordedValueIsReadIff(card, SCOPING, Word, i);
      if Plain(card) { RecordedValueIsReadBack(card, SCOPING, Word, i); }
    } else {
      KeysAreNames(SCOPING);
      NothingIsReadIff(card, SCOPING, Word);
      if Plain(card) { UnrecordedValueIsNotRead(card, SCOPING, Word); }
    }
  }

  /** `int` of what is read is the number of added tokens a run recorded exactly when what is read above it, if
      anything, is that number; without adjacent stars nothing is. */
  lemma AddedCountIsReadBack(card: Card, i: nat, count: nat)
    requires i < |card.hyperparameters| && card.hyperparameters[i] == (ADDED, Decimal(count))
    ensures var read, ahead := ReadField(ADDED, Digits, CardText(card)), Ahead(card, ADDED, Digits, i);
      read.Some? && (Value(read.value) == count <==> ahead == None || Value(ahead.value) == count)
    ensures EarlierFieldsArePlain(card) && DistinctKeys(card.hyperparameters) ==> Ahead(card, ADDED, Digits, i) == None
  {
    hide ReadField, CardText, Ahead, Whole, Value, EarlierFieldsArePlain;
    DecimalIsWhole(count);
    ValueOfDecimal(count);
    RecordedValueReadsAs(card, ADDED, Digits, i);
    if EarlierFieldsArePlain(card) && DistinctKeys(card.hyperparameters) {
      RecordedValueIsReadBack(card, ADDED, Digits, i);
    }
  }
}
