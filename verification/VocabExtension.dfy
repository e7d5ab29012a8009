/** Greedy segmentation and composed embedding rows, `ml/training/vocab_extension.py`. */
module VocabExtension {
  import opened Options
  import opened Text

  // ------------------------------------------------------- greedy segmentation

  /** The largest e in (pos, end] such that token[pos..e] is in the pool. */
  function LongestMatch(token: string, pos: nat, end: nat, pool: set<string>): (e: Option<nat>)
    requires pos <= end <= |token|
    ensures e.Some? ==> pos < e.value <= end && token[pos..e.value] in pool
    ensures forall f :: (if e.Some? then e.value else pos) < f <= end ==> token[pos..f] !in pool
    decreases end
  {
    if end == pos then None
    else if token[pos..end] in pool then Some(end)
    else LongestMatch(token, pos, end - 1, pool)
  }

  function Greedy(token: string, pos: nat, pool: set<string>): Option<seq<string>>
    requires pos <= |token|
    decreases |token| - pos
  {
    if pos == |token| then Some([])
    else
      match LongestMatch(token, pos, |token|, pool)
      case None => None
      case Some(e) =>
        var rest := Greedy(token, e, pool);
        if rest.None? then None else Some([token[pos..e]] + rest.value)
  }

  /** The segmentation `decompose_token_into_known_pieces` computes; the empty token has none. */
  function Decompose(token: string, pool: set<string>): Option<seq<string>> {
    if token == "" then None else Greedy(token, 0, pool)
  }

  /** `pieces` spells token[pos..], and every piece is the longest pool entry at its place. */
  predicate MaximalMunch(token: string, pos: nat, pieces: seq<string>, pool: set<string>)
    requires pos <= |token|
    decreases |pieces|
  {
    if pieces == [] then pos == |token|
    else
      var e := pos + |pieces[0]|;
      && pos < e <= |token| && pieces[0] == token[pos..e] && pieces[0] in pool
      && (forall f :: e < f <= |token| ==> token[pos..f] !in pool)
      && MaximalMunch(token, e, pieces[1..], pool)
  }

  /** The greedy result is the one and only maximal munch of the token. */
  lemma {:induction false} GreedyIsMaximalMunch(token: string, pos: nat, pieces: seq<string>, pool: set<string>)
    requires pos <= |token|
    ensures Greedy(token, pos, pool) == Some(pieces) <==> MaximalMunch(token, pos, pieces, pool)
    decreases |token| - pos
  {
    if pos < |token| && pieces != [] {
      var m := LongestMatch(token, pos, |token|, pool);
      if m.Some? {
        var e := m.value;
        GreedyIsMaximalMunch(token, e, pieces[1..], pool);
        assert pieces == [pieces[0]] + pieces[1..];
        var f := pos + |pieces[0]|;
        if f <= |token| && pieces[0] == token[pos..f] && pieces[0] in pool && f < e {
          assert token[pos..e] in pool;
        }
      }
    }
  }

  /** A segmentation consists of pool entries and spells the token. */
  lemma PiecesSpellToken(token: string, pool: set<string>)
    requires Decompose(token, pool).Some?
    ensures var pieces := Decompose(token, pool).value;
      pieces != [] && Concat(pieces) == token && forall p :: p in pieces ==> p in pool && 0 < |p| <= |token|
  {
    GreedySpells(token, 0, pool);
  }

  lemma {:induction false} GreedySpells(token: string, pos: nat, pool: set<string>)
    requires pos <= |token| && Greedy(token, pos, pool).Some?
    ensures var pieces := Greedy(token, pos, pool).value;
      Concat(pieces) == token[pos..] && forall p :: p in pieces ==> p in pool && 0 < |p| <= |token|
    decreases |token| - pos
  {
    hide LongestMatch;
    if pos < |token| {
      var e := LongestMatch(token, pos, |token|, pool).value;
      GreedySpells(token, e, pool);
      var rest := Greedy(token, e, pool).value;
      assert ([token[pos..e]] + rest)[1..] == rest;
      assert token[pos..] == token[pos..e] + token[e..];
    }
  }

  /** Segmentation looks at a pool only through the token's own substrings. */
  predicate AgreeOn(token: string, a: set<string>, b: set<string>) {
    forall i, j :: 0 <= i < j <= |token| ==> (token[i..j] in a <==> token[i..j] in b)
  }

  lemma {:induction false} LongestMatchAgrees(token: string, pos: nat, end: nat, a: set<string>, b: set<string>)
    requires pos <= end <= |token| && AgreeOn(token, a, b)
    ensures LongestMatch(token, pos, end, a) == LongestMatch(token, pos, end, b)
    decreases end
  {
    if pos < end && token[pos..end] !in a { LongestMatchAgrees(token, pos, end - 1, a, b); }
  }

  lemma {:induction false} GreedyAgrees(token: string, pos: nat, a: set<string>, b: set<string>)
    requires pos <= |token| && AgreeOn(token, a, b)
    ensures Greedy(token, pos, a) == Greedy(token, pos, b)
    decreases |token| - pos
  {
    if pos < |token| {
      LongestMatchAgrees(token, pos, |token|, a, b);
      var m := LongestMatch(token, pos, |token|, a);
      if m.Some? { GreedyAgrees(token, m.value, a, b); }
    }
  }

  /** A token that is itself a pool entry is its own single piece. */
  lemma WholeMatch(token: string, pool: set<string>)
    requires token != "" && token in pool
    ensures Decompose(token, pool) == Some([token])
  {
    assert token[0..|token|] == token;
    assert Greedy(token, |token|, pool) == Some([]);
    assert [token] + [] == [token];
  }

  /** With every character of the token in the pool, the greedy scan never gets stuck. */
  lemma {:induction false} CharactersSuffice(token: string, pos: nat, pool: set<string>)
    requires pos <= |token| && forall c :: c in token ==> [c] in pool
    ensures Greedy(token, pos, pool).Some?
    decreases |token| - pos
  {
    if pos < |token| {
      assert token[pos..pos + 1] == [token[pos]];
      CharactersSuffice(token, LongestMatch(token, pos, |token|, pool).value, pool);
    }
  }

  /** More pool entries can destroy a segmentation: a longer match may leave an uncoverable rest. */
  lemma DecomposabilityIsNotMonotone()
    ensures Decompose("abc", {"a", "bc"}) == Some(["a", "bc"])
    ensures Decompose("abc", {"a", "ab", "bc"}) == None
  {
    var small, large := {"a", "bc"}, {"a", "ab", "bc"};
    assert "abc"[0..1] == "a" && "abc"[0..2] == "ab" && "abc"[0..3] == "abc";
    assert "abc"[1..3] == "bc" && "abc"[2..3] == "c";
    assert MaximalMunch("abc", 3, [], small);
    assert ["a", "bc"][1..] == ["bc"] && ["bc"][1..] == [];
    assert MaximalMunch("abc", 1, ["bc"], small);
    assert MaximalMunch("abc", 0, ["a", "bc"], small) by {
      forall f | 1 < f <= 3 ensures "abc"[0..f] !in small { assert |"abc"[0..f]| == f && "abc"[0..f][0] == 'a'; }
    }
    GreedyIsMaximalMunch("abc", 0, ["a", "bc"], small);
    assert LongestMatch("abc", 0, 3, large) == Some(2);
    assert LongestMatch("abc", 2, 3, large) == None;
  }

  function Prepend(pieces: seq<string>, rest: Option<seq<string>>): Option<seq<string>> {
    if rest.None? then None else Some(pieces + rest.value)
  }

  /** `decompose_token_into_known_pieces`. */
  method DecomposeTokenIntoKnownPieces<V>(token: string, vocab: map<string, V>) returns (r: Option<seq<string>>)
    ensures r == Decompose(token, vocab.Keys)
  {
    hide LongestMatch;
    if token == "" {
      return None;
    }
    var pieces: seq<string> := [];
    var position := 0;
    ghost var all := Greedy(token, 0, vocab.Keys);
    assert all.Some? ==> [] + all.value == all.value;
    while position < |token|
      invariant position <= |token|
      invariant Decompose(token, vocab.Keys) == Prepend(pieces, Greedy(token, position, vocab.Keys))
    {
      var matched := MatchLongest(token, position, vocab);
      if matched.None? {
        return None;
      }
      ghost var rest := Greedy(token, position + |matched.value|, vocab.Keys);
      assert rest.Some? ==> pieces + ([matched.value] + rest.value) == pieces + [matched.value] + rest.value;
      pieces := pieces + [matched.value];
      position := position + |matched.value|;
    }
    assert pieces + [] == pieces;
    return Some(pieces);
  }

  /** The inner `for` loop, from the longest candidate down. */
  method MatchLongest<V>(token: string, position: nat, vocab: map<string, V>) returns (matched: Option<string>)
    requires position < |token|
    ensures var e := LongestMatch(token, position, |token|, vocab.Keys);
      matched == if e.None? then None else Some(token[position..e.value])
  {
    for end := |token| downto position
      invariant LongestMatch(token, position, |token|, vocab.Keys) == LongestMatch(token, position, end, vocab.Keys)
    {
      var candidate := token[position..end + 1];
      if candidate in vocab {
        return Some(candidate);
      }
    }
    return None;
  }
}
