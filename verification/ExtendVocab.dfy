/** Ids for new tokens, `extend_vocab` of `ml/training/vocab_extension.py`. */
module ExtendVocab {
  import opened Text
  import opened VocabGap

  predicate IsLargest(ids: set<int>, m: int) {
    m in ids && forall x :: x in ids ==> x <= m
  }

  lemma {:induction false} SomeLargest(ids: set<int>) returns (m: int)
    requires ids != {}
    ensures IsLargest(ids, m)
    decreases |ids|
  {
    assert (forall x :: x !in ids) ==> ids == {};
    var x :| x in ids;
    if ids == {x} {
      m := x;
    } else {
      var rest := ids - {x};
      assert ids == rest + {x};
      var n := SomeLargest(rest);
      m := if x < n then n else x;
    }
  }

  /** `max(ids)`. */
  function Largest(ids: set<int>): (m: int)
    requires ids != {}
    ensures IsLargest(ids, m)
  {
    assert exists m :: IsLargest(ids, m) by { var m := SomeLargest(ids); }
    var m :| IsLargest(ids, m);
    m
  }

  function NextId(vocab: map<string, int>): int {
    if vocab == map[] then 0
    else
      assert vocab.Values != {} by { var t :| t in vocab; assert vocab[t] in vocab.Values; }
      Largest(vocab.Values) + 1
  }

  /** The vocabulary with the tokens on consecutive ids from `next` on. */
  function Numbered(vocab: map<string, int>, tokens: seq<string>, next: int): map<string, int> {
    if tokens == [] then vocab
    else Numbered(vocab, tokens[..|tokens| - 1], next)[tokens[|tokens| - 1] := next + |tokens| - 1]
  }

  /** `extend_vocab`. */
  method ExtendVocab(baseVocab: map<string, int>, newTokens: set<string>) returns (extended: map<string, int>)
    ensures extended == Numbered(baseVocab, SelectNewTokens(newTokens, baseVocab.Keys), NextId(baseVocab))
  {
    extended := baseVocab;
    var toAdd := SelectNewTokens(newTokens, baseVocab.Keys);
    var nextId := NextId(baseVocab);
    for offset := 0 to |toAdd|
      invariant extended == Numbered(baseVocab, toAdd[..offset], nextId)
    {
      assert toAdd[..offset + 1][..offset] == toAdd[..offset];
      extended := extended[toAdd[offset] := nextId + offset];
    }
    assert toAdd[..|toAdd|] == toAdd;
  }

  lemma {:induction false} NumberedKeys(vocab: map<string, int>, tokens: seq<string>, next: int, t: string)
    ensures t in Numbered(vocab, tokens, next) <==> t in vocab || t in tokens
    ensures t in vocab && t !in tokens ==> Numbered(vocab, tokens, next)[t] == vocab[t]
  {
    if tokens != [] {
      NumberedKeys(vocab, tokens[..|tokens| - 1], next, t);
      assert tokens == tokens[..|tokens| - 1] + [tokens[|tokens| - 1]];
    }
  }

  lemma {:induction false} NumberedAt(vocab: map<string, int>, tokens: seq<string>, next: int, i: nat)
    requires Distinct(tokens) && i < |tokens|
    ensures tokens[i] in Numbered(vocab, tokens, next) && Numbered(vocab, tokens, next)[tokens[i]] == next + i
  {
    if i < |tokens| - 1 { NumberedAt(vocab, tokens[..|tokens| - 1], next, i); }
  }

  lemma {:induction false} NumberedSize(vocab: map<string, int>, tokens: seq<string>, next: int)
    requires Distinct(tokens) && forall i :: 0 <= i < |tokens| ==> tokens[i] !in vocab
    ensures |Numbered(vocab, tokens, next)| == |vocab| + |tokens|
  {
    if tokens != [] {
      var init, last := tokens[..|tokens| - 1], tokens[|tokens| - 1];
      NumberedSize(vocab, init, next);
      NumberedKeys(vocab, init, next, last);
    }
  }

  /** The ids are 0 to n - 1, each used once: what a row per token needs. */
  predicate Dense(vocab: map<string, int>, n: nat) {
    && (forall t :: t in vocab ==> 0 <= vocab[t] < n)
    && (forall t, u :: t in vocab && u in vocab && vocab[t] == vocab[u] ==> t == u)
    && |vocab| == n
  }

  lemma {:induction false} DenseHasLast(ids: set<int>, n: nat)
    requires |ids| == n > 0 && forall x :: x in ids ==> 0 <= x < n
    ensures n - 1 in ids
    decreases n
  {
    if n - 1 !in ids {
      IdsBelow(ids, n - 1);
      assert false;
    }
  }

  lemma {:induction false} IdsBelow(ids: set<int>, n: nat)
    requires forall x :: x in ids ==> 0 <= x < n
    ensures |ids| <= n
    decreases n
  {
    if n == 0 {
      assert forall x :: x !in ids;
      assert ids == {};
    } else {
      IdsBelow(ids - {n - 1}, n - 1);
    }
  }

  lemma {:induction false} ValuesOfInjective(vocab: map<string, int>)
    requires forall t, u :: t in vocab && u in vocab && vocab[t] == vocab[u] ==> t == u
    ensures |vocab.Values| == |vocab|
    decreases |vocab|
  {
    if vocab == map[] {
      assert vocab.Values == {};
    } else {
      var t :| t in vocab;
      var rest := vocab - {t};
      ValuesOfInjective(rest);
      assert vocab.Values == rest.Values + {vocab[t]} by {
        forall v | v in vocab.Values ensures v in rest.Values + {vocab[t]} {
          var u :| u in vocab && vocab[u] == v;
          if u != t { assert u in rest && rest[u] == v; }
        }
        forall v | v in rest.Values ensures v in vocab.Values {
          var u :| u in rest && rest[u] == v;
          assert u in vocab;
        }
      }
      assert vocab[t] !in rest.Values;
      assert vocab.Keys == rest.Keys + {t};
    }
  }

  /** In a vocabulary whose ids are dense the next id is the number of tokens, that is the number of embedding rows. */
  lemma NextIdIsSize(vocab: map<string, int>, n: nat)
    requires Dense(vocab, n)
    ensures NextId(vocab) == n
  {
    ValuesOfInjective(vocab);
    if n == 0 {
      assert vocab == map[];
    } else {
      assert vocab != map[];
      DenseHasLast(vocab.Values, n);
    }
  }

  lemma NextIdIsAbove(vocab: map<string, int>, t: string)
    requires t in vocab
    ensures vocab[t] < NextId(vocab)
  {
    assert vocab[t] in vocab.Values;
  }

  /** The next id follows the largest one in use, or is 0. */
  lemma NextIdFollows(vocab: map<string, int>)
    ensures vocab == map[] ==> NextId(vocab) == 0
    ensures vocab != map[] ==> exists t :: t in vocab && vocab[t] == NextId(vocab) - 1
  {
    if vocab != map[] {
      var u :| u in vocab;
      assert vocab[u] in vocab.Values;
      assert Largest(vocab.Values) in vocab.Values;
    }
  }

  /** For every vocabulary, gaps or not: no id in use changes, every new token is added once, in sorted order, and
      the new ids are consecutive from one past the largest id in use, or from 0. */
  lemma ExtensionKeepsIds(baseVocab: map<string, int>, newTokens: set<string>)
    ensures var added := SelectNewTokens(newTokens, baseVocab.Keys);
      var extended := Numbered(baseVocab, added, NextId(baseVocab));
      && extended.Keys == baseVocab.Keys + newTokens && Distinct(added) && InOrder(added)
      && (forall t :: t in baseVocab ==> extended[t] == baseVocab[t] < NextId(baseVocab))
      && (baseVocab == map[] ==> NextId(baseVocab) == 0)
      && (baseVocab != map[] ==> exists t :: t in baseVocab && baseVocab[t] == NextId(baseVocab) - 1)
      && (forall i :: 0 <= i < |added| ==> added[i] in extended && extended[added[i]] == NextId(baseVocab) + i)
  {
    SelectedAreDistinct(newTokens, baseVocab.Keys);
    SelectedAreInOrder(newTokens, baseVocab.Keys);
    NextIdFollows(baseVocab);
    NumberedExtends(baseVocab, newTokens, SelectNewTokens(newTokens, baseVocab.Keys), NextId(baseVocab));
    forall t | t in baseVocab ensures baseVocab[t] < NextId(baseVocab) { NextIdIsAbove(baseVocab, t); }
  }

  lemma NumberedExtends(vocab: map<string, int>, newTokens: set<string>, added: seq<string>, next: int)
    requires Distinct(added) && forall t :: t in added <==> t in newTokens && t !in vocab
    ensures var extended := Numbered(vocab, added, next);
      && extended.Keys == vocab.Keys + newTokens
      && (forall t :: t in vocab ==> extended[t] == vocab[t])
      && (forall i :: 0 <= i < |added| ==> added[i] in extended && extended[added[i]] == next + i)
  {
    var extended := Numbered(vocab, added, next);
    forall t ensures t in extended <==> t in vocab || t in added { NumberedKeys(vocab, added, next, t); }
    forall t | t in vocab ensures extended[t] == vocab[t] { NumberedKeys(vocab, added, next, t); }
    forall i | 0 <= i < |added|
      ensures added[i] in extended && extended[added[i]] == next + i
    {
      NumberedAt(vocab, added, next, i);
    }
  }

  /** A token's id says where it comes from: below n from the old vocabulary, n + i from the i-th new token. */
  lemma IdSource(vocab: map<string, int>, tokens: seq<string>, n: nat, t: string) returns (i: nat)
    requires Dense(vocab, n) && Distinct(tokens) && (forall j :: 0 <= j < |tokens| ==> tokens[j] !in vocab)
    requires t in Numbered(vocab, tokens, n)
    ensures var id := Numbered(vocab, tokens, n)[t];
      if t in vocab then 0 <= id < n && id == vocab[t] else i < |tokens| && tokens[i] == t && id == n + i
  {
    NumberedKeys(vocab, tokens, n, t);
    i := 0;
    if t !in vocab {
      i :| i < |tokens| && tokens[i] == t;
      NumberedAt(vocab, tokens, n, i);
    }
  }

  lemma NumberedIsDense(vocab: map<string, int>, tokens: seq<string>, n: nat)
    requires Dense(vocab, n) && Distinct(tokens) && forall i :: 0 <= i < |tokens| ==> tokens[i] !in vocab
    ensures Dense(Numbered(vocab, tokens, n), n + |tokens|)
  {
    NumberedSize(vocab, tokens, n);
    var m := Numbered(vocab, tokens, n);
    forall t | t in m ensures 0 <= m[t] < n + |tokens| { var i := IdSource(vocab, tokens, n, t); }
    forall t, u | t in m && u in m && m[t] == m[u] ensures t == u {
      var i := IdSource(vocab, tokens, n, t);
      var j := IdSource(vocab, tokens, n, u);
    }
  }

  /** Dense ids stay dense, so the i-th new token names the i-th row after the existing ones. */
  lemma ExtensionStaysDense(baseVocab: map<string, int>, newTokens: set<string>, n: nat)
    requires Dense(baseVocab, n)
    ensures var added := SelectNewTokens(newTokens, baseVocab.Keys);
      var extended := Numbered(baseVocab, added, NextId(baseVocab));
      && Dense(extended, n + |added|)
      && forall i :: 0 <= i < |added| ==> added[i] in extended && extended[added[i]] == n + i
  {
    var added := SelectNewTokens(newTokens, baseVocab.Keys);
    NextIdIsSize(baseVocab, n);
    ExtensionKeepsIds(baseVocab, newTokens);
    forall i | 0 <= i < |added| ensures added[i] !in baseVocab { assert added[i] in added; }
    NumberedIsDense(baseVocab, added, n);
  }
}
