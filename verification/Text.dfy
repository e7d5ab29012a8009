/** The Python string operations the sources rely on.  A string is a sequence of Unicode scalar values. */
module Text {
  /** A sentence pair, Spanish first. */
  type Pair = (string, string)

  /** `str.isspace` on one character; also what `\s` matches and what `strip` and `split` cut at. */
  predicate IsSpace(c: char) {
    var n := c as int;
    9 <= n <= 13 || 28 <= n <= 32 || n == 0x85 || n == 0xA0 || n == 0x1680 || 0x2000 <= n <= 0x200A
    || n == 0x2028 || n == 0x2029 || n == 0x202F || n == 0x205F || n == 0x3000
  }

  predicate NoSpace(s: string) {
    forall c :: c in s ==> !IsSpace(c)
  }

  function LStrip(s: string): (r: string)
    ensures r == "" || !IsSpace(r[0])
    ensures |r| <= |s| && forall c :: c in r ==> c in s
  {
    if s != "" && IsSpace(s[0]) then LStrip(s[1..]) else s
  }

  function RStrip(s: string): (r: string)
    ensures r == "" || !IsSpace(r[|r| - 1])
    ensures r <= s && forall c :: c in r ==> c in s
  {
    if s != "" && IsSpace(s[|s| - 1]) then RStrip(s[..|s| - 1]) else s
  }

  /** `str.strip`. */
  function Strip(s: string): (r: string)
    ensures r == "" || (!IsSpace(r[0]) && !IsSpace(r[|r| - 1]))
    ensures forall c :: c in r ==> c in s
  {
    RStrip(LStrip(s))
  }

  lemma {:induction false} LStripTakesSpace(s: string)
    ensures s[|s| - |LStrip(s)|..] == LStrip(s)
    ensures forall c :: c in s[..|s| - |LStrip(s)|] ==> IsSpace(c)
  {
    hide IsSpace;
    if s != "" && IsSpace(s[0]) {
      LStripTakesSpace(s[1..]);
      var n := |s| - |LStrip(s)|;
      assert s[..n] == [s[0]] + s[1..][..n - 1] && s[n..] == s[1..][n - 1..];
    }
  }

  lemma {:induction false} LStripAppend(v: string, rest: string)
    ensures LStrip(v + rest) == if LStrip(v) == "" then LStrip(rest) else LStrip(v) + rest
  {
    if v == "" {
      assert v + rest == rest;
    } else {
      assert (v + rest)[1..] == v[1..] + rest;
      LStripAppend(v[1..], rest);
    }
  }

  /** A text cut before one of its ends, and that end cut behind one of its beginnings. */
  lemma CutTwice(s: string, t: string, v: string)
    requires |t| <= |s| && s[|s| - |t|..] == t && v <= t
    ensures s == s[..|s| - |t|] + (v + t[|v|..])
  {
    assert t == v + t[|v|..];
  }

  lemma LStripSkips(space: string, s: string)
    requires (forall c :: c in space ==> IsSpace(c)) && (s == "" || !IsSpace(s[0]))
    ensures LStrip(space + s) == s
  {
    LStripAppend(space, s);
  }

  /** Stripping leaves nothing exactly when there is nothing but whitespace. */
  lemma {:induction false} StripIsEmpty(s: string)
    ensures Strip(s) == "" <==> forall c :: c in s ==> IsSpace(c)
  {
    if s != "" && IsSpace(s[0]) {
      StripIsEmpty(s[1..]);
      assert s == [s[0]] + s[1..];
    } else if s != "" {
      RStripKeeps(s);
      assert s[0] in s;
    }
  }

  lemma {:induction false} RStripKeeps(s: string)
    requires s != "" && !IsSpace(s[0])
    ensures RStrip(s) != ""
  {
    if IsSpace(s[|s| - 1]) { RStripKeeps(s[..|s| - 1]); }
  }

  lemma StripOfTrimmed(s: string)
    requires s == "" || (!IsSpace(s[0]) && !IsSpace(s[|s| - 1]))
    ensures Strip(s) == s
  {
  }

  /** `str.split()`; `current` holds the word read so far. */
  function WordsFrom(text: string, current: string): seq<string> {
    if text == "" then (if current == "" then [] else [current])
    else if !IsSpace(text[0]) then WordsFrom(text[1..], current + [text[0]])
    else (if current == "" then [] else [current]) + WordsFrom(text[1..], "")
  }

  function Words(text: string): seq<string> {
    WordsFrom(text, "")
  }

  /** Words are non-empty, free of whitespace, and made of the text's own characters. */
  lemma {:induction false} WordsAreWords(text: string, current: string, w: string)
    requires NoSpace(current) && w in WordsFrom(text, current)
    ensures w != "" && NoSpace(w) && forall c :: c in w ==> c in text || c in current
  {
    if text != "" {
      assert text == [text[0]] + text[1..];
      if !IsSpace(text[0]) {
        WordsAreWords(text[1..], current + [text[0]], w);
      } else if w in WordsFrom(text[1..], "") {
        WordsAreWords(text[1..], "", w);
      }
    }
  }

  lemma {:induction false} ReadWord(word: string, rest: string, current: string)
    requires NoSpace(word)
    ensures WordsFrom(word + rest, current) == WordsFrom(rest, current + word)
  {
    if word == "" {
      assert word + rest == rest && current + word == current;
    } else {
      assert word[0] in word;
      assert (word + rest)[1..] == word[1..] + rest;
      ReadWord(word[1..], rest, current + [word[0]]);
      assert current + [word[0]] + word[1..] == current + word;
    }
  }

  /** A text that is one word splits into itself. */
  lemma OneWord(word: string)
    requires word != "" && NoSpace(word)
    ensures Words(word) == [word]
  {
    assert word + "" == word && "" + word == word;
    ReadWord(word, "", "");
  }

  /** `"".join(parts)`. */
  function Concat(parts: seq<string>): string {
    if parts == [] then "" else parts[0] + Concat(parts[1..])
  }

  /** `set(parts)`. */
  function Elements(parts: seq<string>): set<string> {
    set p | p in parts
  }

  /** `sep.join(parts)`. */
  function Join(sep: string, parts: seq<string>): string {
    if parts == [] then "" else if |parts| == 1 then parts[0] else parts[0] + sep + Join(sep, parts[1..])
  }

  // --------------------------------------------------------------- sorted strings

  /** Python's order on strings: lexicographic by code point. */
  predicate Precedes(a: string, b: string) {
    a == "" || (b != "" && (a[0] < b[0] || (a[0] == b[0] && Precedes(a[1..], b[1..]))))
  }

  lemma {:induction false} PrecedesIsTotal(a: string, b: string)
    ensures Precedes(a, b) || Precedes(b, a)
  {
    if a != "" && b != "" && a[0] == b[0] { PrecedesIsTotal(a[1..], b[1..]); }
  }

  lemma {:induction false} PrecedesIsAntisymmetric(a: string, b: string)
    requires Precedes(a, b) && Precedes(b, a)
    ensures a == b
  {
    if a != "" && b != "" {
      PrecedesIsAntisymmetric(a[1..], b[1..]);
      assert a == [a[0]] + a[1..] && b == [b[0]] + b[1..];
    }
  }

  lemma {:induction false} PrecedesIsTransitive(a: string, b: string, c: string)
    requires Precedes(a, b) && Precedes(b, c)
    ensures Precedes(a, c)
  {
    if a != "" && b != "" && c != "" && a[0] == b[0] == c[0] { PrecedesIsTransitive(a[1..], b[1..], c[1..]); }
  }

  predicate IsFirst(s: set<string>, m: string) {
    m in s && forall x :: x in s ==> Precedes(m, x)
  }

  lemma {:induction false} SomeFirst(s: set<string>) returns (m: string)
    requires s != {}
    ensures IsFirst(s, m)
    decreases |s|
  {
    var x :| x in s;
    PrecedesIsTotal(x, x);
    if s == {x} {
      m := x;
    } else {
      var rest := s - {x};
      assert s == rest + {x};
      var n := SomeFirst(rest);
      PrecedesIsTotal(x, n);
      m := if Precedes(x, n) then x else n;
      forall y | y in s ensures Precedes(m, y) {
        if y != x && m == x { PrecedesIsTransitive(x, n, y); }
      }
    }
  }

  function First(s: set<string>): (m: string)
    requires s != {}
    ensures IsFirst(s, m)
  {
    assert exists m :: IsFirst(s, m) by { var m := SomeFirst(s); }
    assert forall a, b :: IsFirst(s, a) && IsFirst(s, b) ==> a == b by {
      forall a, b | IsFirst(s, a) && IsFirst(s, b) ensures a == b { PrecedesIsAntisymmetric(a, b); }
    }
    var m :| IsFirst(s, m);
    m
  }

  /** `sorted(s)` for a set: each element once, in order. */
  function Sorted(s: set<string>): (r: seq<string>)
    ensures |r| == |s| && forall x :: x in r <==> x in s
    decreases |s|
  {
    if s == {} then [] else
      var m := First(s);
      assert s == s - {m} + {m};
      [m] + Sorted(s - {m})
  }

  predicate InOrder(s: seq<string>) {
    forall i, j :: 0 <= i < j < |s| ==> Precedes(s[i], s[j])
  }

  lemma {:induction false} SortedIsInOrder(s: set<string>)
    ensures InOrder(Sorted(s))
    decreases |s|
  {
    if s != {} {
      var m := First(s);
      SortedIsInOrder(s - {m});
      var rest := Sorted(s - {m});
      forall j | 0 <= j < |rest| ensures Precedes(m, rest[j]) { assert rest[j] in rest; }
    }
  }

  predicate Distinct<T(==)>(s: seq<T>) {
    forall i, j :: 0 <= i < j < |s| ==> s[i] != s[j]
  }

  lemma {:induction false} SortedIsDistinct(s: set<string>)
    ensures Distinct(Sorted(s))
    decreases |s|
  {
    if s != {} {
      var m := First(s);
      SortedIsDistinct(s - {m});
      var rest := Sorted(s - {m});
      forall j | 0 <= j < |rest| ensures rest[j] != m { assert rest[j] in rest; }
    }
  }
}
