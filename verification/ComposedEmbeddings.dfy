/** Composed embedding rows and their coverage counter, `ml/training/vocab_extension.py`.
    The Gaussian noise matrix is a parameter. */
module ComposedEmbeddings {
  import opened Options
  import opened Rows
  import opened StableSort
  import opened Text
  import opened VocabExtension

  type Vocab = map<string, nat>

  /** Every id of the vocabulary is a row of the embedding matrix. */
  predicate Agrees(base: Vocab, embeddings: seq<Row>, dim: nat) {
    Matrix(embeddings, dim) && forall p :: p in base ==> base[p] < |embeddings|
  }

  /** What a token may be composed of: base pieces and strictly shorter tokens of its batch. */
  function Pool(token: string, siblings: set<string>, keys: set<string>): set<string> {
    keys + (set s | s in siblings && |s| < |token|)
  }

  /** The composed row, defined without any processing order: the mean of the rows of the token's pieces,
      or the mean of the whole matrix when it has no segmentation. */
  function Center(token: string, siblings: set<string>, base: Vocab, embeddings: seq<Row>, dim: nat): (c: Row)
    requires Agrees(base, embeddings, dim) && embeddings != []
    ensures |c| == dim
    decreases |token| + 1, 0
  {
    match Decompose(token, Pool(token, siblings, base.Keys))
    case None => Mean(embeddings, dim)
    case Some(pieces) =>
      PiecesSpellToken(token, Pool(token, siblings, base.Keys));
      Mean(PieceRows(pieces, |token|, siblings, base, embeddings, dim), dim)
  }

  function PieceRows(pieces: seq<string>, bound: nat, siblings: set<string>, base: Vocab, embeddings: seq<Row>,
                     dim: nat): (rows: seq<Row>)
    requires Agrees(base, embeddings, dim) && embeddings != []
    requires forall p :: p in pieces ==> p in base || (p in siblings && |p| < bound)
    ensures |rows| == |pieces| && Matrix(rows, dim)
    decreases bound, |pieces| + 1
  {
    if pieces == [] then []
    else
      var p := pieces[0];
      [if p in base then embeddings[base[p]] else Center(p, siblings, base, embeddings, dim)]
      + PieceRows(pieces[1..], bound, siblings, base, embeddings, dim)
  }

  // ---------------------------------------------------- properties of the centers

  /** A center depends on its batch only through the strictly shorter siblings. */
  lemma {:induction false} CenterIgnoresLongerSiblings(token: string, s1: set<string>, s2: set<string>, base: Vocab,
    embeddings: seq<Row>, dim: nat)
    requires Agrees(base, embeddings, dim) && embeddings != []
    requires forall s :: |s| < |token| ==> (s in s1 <==> s in s2)
    ensures Center(token, s1, base, embeddings, dim) == Center(token, s2, base, embeddings, dim)
    decreases |token| + 1, 0
  {
    assert Pool(token, s1, base.Keys) == Pool(token, s2, base.Keys);
    var d := Decompose(token, Pool(token, s1, base.Keys));
    if d.Some? {
      PiecesSpellToken(token, Pool(token, s1, base.Keys));
      PieceRowsIgnoreLongerSiblings(d.value, |token|, s1, s2, base, embeddings, dim);
    }
  }

  lemma {:induction false} PieceRowsIgnoreLongerSiblings(pieces: seq<string>, bound: nat, s1: set<string>,
    s2: set<string>, base: Vocab, embeddings: seq<Row>, dim: nat)
    requires Agrees(base, embeddings, dim) && embeddings != []
    requires forall p :: p in pieces ==> p in base || (p in s1 && |p| < bound)
    requires forall s :: |s| < bound ==> (s in s1 <==> s in s2)
    ensures PieceRows(pieces, bound, s1, base, embeddings, dim) == PieceRows(pieces, bound, s2, base, embeddings, dim)
    decreases bound, |pieces| + 1
  {
    if pieces != [] {
      var p := pieces[0];
      if p !in base { CenterIgnoresLongerSiblings(p, s1, s2, base, embeddings, dim); }
      PieceRowsIgnoreLongerSiblings(pieces[1..], bound, s1, s2, base, embeddings, dim);
    }
  }

  /** Every center lies, coordinate by coordinate, within the range of the existing embedding column. */
  lemma {:induction false} CenterWithinColumn(token: string, siblings: set<string>, base: Vocab, embeddings: seq<Row>,
    dim: nat, j: nat, lo: real, hi: real)
    requires Agrees(base, embeddings, dim) && embeddings != [] && j < dim && ColumnWithin(embeddings, j, lo, hi)
    ensures lo <= Center(token, siblings, base, embeddings, dim)[j] <= hi
    decreases |token| + 1, 0
  {
    var d := Decompose(token, Pool(token, siblings, base.Keys));
    if d.None? {
      MeanWithin(embeddings, dim, j, lo, hi);
    } else {
      PiecesSpellToken(token, Pool(token, siblings, base.Keys));
      PieceRowsWithinColumn(d.value, |token|, siblings, base, embeddings, dim, j, lo, hi);
      MeanWithin(PieceRows(d.value, |token|, siblings, base, embeddings, dim), dim, j, lo, hi);
    }
  }

  lemma {:induction false} PieceRowsWithinColumn(pieces: seq<string>, bound: nat, siblings: set<string>, base: Vocab,
    embeddings: seq<Row>, dim: nat, j: nat, lo: real, hi: real)
    requires Agrees(base, embeddings, dim) && embeddings != [] && j < dim && ColumnWithin(embeddings, j, lo, hi)
    requires forall p :: p in pieces ==> p in base || (p in siblings && |p| < bound)
    ensures ColumnWithin(PieceRows(pieces, bound, siblings, base, embeddings, dim), j, lo, hi)
    decreases bound, |pieces| + 1
  {
    if pieces != [] {
      var p := pieces[0];
      if p !in base { CenterWithinColumn(p, siblings, base, embeddings, dim, j, lo, hi); }
      PieceRowsWithinColumn(pieces[1..], bound, siblings, base, embeddings, dim, j, lo, hi);
    }
  }

  // ---------------------------------------- the batch: order, growing pool, coverage

  /** Position j is processed before position i: shortest first, ties by position. */
  predicate Earlier(tokens: seq<string>, j: nat, i: nat)
    requires i < |tokens| && j < |tokens|
  {
    |tokens[j]| < |tokens[i]| || (|tokens[j]| == |tokens[i]| && j < i)
  }

  function EarlierTokens(tokens: seq<string>, i: nat): set<string>
    requires i < |tokens|
  {
    set j | 0 <= j < |tokens| && Earlier(tokens, j, i) :: tokens[j]
  }

  /** When its turn comes, token i can be segmented with the pool grown so far. */
  predicate TakesComposedBranch(tokens: seq<string>, keys: set<string>, i: nat)
    requires i < |tokens|
  {
    Decompose(tokens[i], keys + EarlierTokens(tokens, i)).Some?
  }

  function Coverage(tokens: seq<string>, keys: set<string>): (c: seq<bool>)
    ensures |c| == |tokens| && forall i :: 0 <= i < |tokens| ==> c[i] == TakesComposedBranch(tokens, keys, i)
  {
    seq(|tokens|, i requires 0 <= i < |tokens| => TakesComposedBranch(tokens, keys, i))
  }

  function CountTrue(bits: seq<bool>): nat {
    if bits == [] then 0 else (if bits[0] then 1 else 0) + CountTrue(bits[1..])
  }

  /** An equal-length sibling is never a proper piece, so only strictly shorter ones matter. */
  lemma GrownPoolAgrees(tokens: seq<string>, keys: set<string>, i: nat)
    requires i < |tokens| && (tokens[i] in keys || tokens[i] !in EarlierTokens(tokens, i))
    ensures Decompose(tokens[i], keys + EarlierTokens(tokens, i))
      == Decompose(tokens[i], Pool(tokens[i], Elements(tokens), keys))
  {
    var token := tokens[i];
    var grown, pool := keys + EarlierTokens(tokens, i), Pool(token, Elements(tokens), keys);
    forall a, b | 0 <= a < b <= |token| ensures token[a..b] in grown <==> token[a..b] in pool {
      SubstringInPools(tokens, keys, i, token[a..b]);
      if b - a == |token| { assert token[a..b] == token; }
    }
    GreedyAgrees(token, 0, grown, pool);
  }

  lemma SubstringInPools(tokens: seq<string>, keys: set<string>, i: nat, s: string)
    requires i < |tokens| && |s| <= |tokens[i]|
    ensures |s| < |tokens[i]| ==> (s in EarlierTokens(tokens, i) <==> s in Elements(tokens))
    ensures |s| == |tokens[i]| ==> s !in Pool(tokens[i], Elements(tokens), keys) || s in keys
  {
    if |s| < |tokens[i]| && s in tokens {
      var j :| 0 <= j < |tokens| && tokens[j] == s;
      assert Earlier(tokens, j, i);
    }
  }

  /** A repetition of an earlier token of the same batch is its own single piece. */
  lemma RepetitionIsOnePiece(tokens: seq<string>, keys: set<string>, i: nat)
    requires i < |tokens| && tokens[i] != "" && tokens[i] in EarlierTokens(tokens, i)
    ensures Decompose(tokens[i], keys + EarlierTokens(tokens, i)) == Some([tokens[i]])
  {
    WholeMatch(tokens[i], keys + EarlierTokens(tokens, i));
  }

  /** Token i gets a composed row exactly when the base vocabulary and its shorter siblings spell it, or it
      repeats an earlier entry of the list. */
  lemma ComposedBranchIff(tokens: seq<string>, keys: set<string>, i: nat)
    requires i < |tokens|
    ensures TakesComposedBranch(tokens, keys, i) <==>
      && tokens[i] != ""
      && (tokens[i] in tokens[..i] || Decompose(tokens[i], Pool(tokens[i], Elements(tokens), keys)).Some?)
  {
    var token := tokens[i];
    if token in tokens[..i] {
      var j :| 0 <= j < i && tokens[j] == token;
      assert Earlier(tokens, j, i);
      if token != "" { RepetitionIsOnePiece(tokens, keys, i); }
    } else {
      GrownPoolAgrees(tokens, keys, i);
    }
  }

  function Lengths(tokens: seq<string>): (l: seq<real>)
    ensures |l| == |tokens| && forall i :: 0 <= i < |tokens| ==> l[i] == |tokens[i]| as real
  {
    seq(|tokens|, i requires 0 <= i < |tokens| => |tokens[i]| as real)
  }

  /** `sorted(range(n), key=lambda i: (len(tokens[i]), i))`. */
  function ProcessingOrder(tokens: seq<string>): (order: seq<nat>)
    ensures |order| == |tokens| && Positions(order, |tokens|)
  {
    ArgSort(Lengths(tokens), |tokens|)
  }

  /** The tokens at the first k positions of the order. */
  function Done(tokens: seq<string>, order: seq<nat>, k: nat): set<string>
    requires Positions(order, |tokens|) && k <= |order|
  {
    if k == 0 then {} else Done(tokens, order, k - 1) + {tokens[order[k - 1]]}
  }

  lemma {:induction false} DoneHolds(tokens: seq<string>, order: seq<nat>, k: nat, t: string)
    requires Positions(order, |tokens|) && k <= |order|
    ensures t in Done(tokens, order, k) <==> exists m :: 0 <= m < k && tokens[order[m]] == t
  {
    if k > 0 { DoneHolds(tokens, order, k - 1, t); }
  }

  lemma OrderVisitsOnce(tokens: seq<string>, m: nat, k: nat)
    requires m < k < |tokens|
    ensures var order := ProcessingOrder(tokens);
      order[m] != order[k] && Earlier(tokens, order[m], order[k])
  {
    ArgSortSorts(Lengths(tokens), |tokens|);
    assert Before(Lengths(tokens), ProcessingOrder(tokens)[m], ProcessingOrder(tokens)[k]);
  }

  /** When position k of the order is reached, exactly the earlier tokens are done. */
  lemma DoneIsEarlier(tokens: seq<string>, k: nat)
    requires k < |tokens|
    ensures var order := ProcessingOrder(tokens);
      Done(tokens, order, k) == EarlierTokens(tokens, order[k])
  {
    var order := ProcessingOrder(tokens);
    forall m | 0 <= m < k ensures Earlier(tokens, order[m], order[k]) { OrderVisitsOnce(tokens, m, k); }
    forall j | 0 <= j < |tokens| && Earlier(tokens, j, order[k])
      ensures exists m :: 0 <= m < k && order[m] == j
    {
      ArgSortVisits(Lengths(tokens), |tokens|, j);
      var m :| 0 <= m < |order| && order[m] == j;
      if m > k { OrderVisitsOnce(tokens, k, m); }
    }
    forall t ensures t in Done(tokens, order, k) <==> t in EarlierTokens(tokens, order[k]) {
      DoneHolds(tokens, order, k, t);
      if t in EarlierTokens(tokens, order[k]) {
        var j :| 0 <= j < |tokens| && Earlier(tokens, j, order[k]) && tokens[j] == t;
        var m :| 0 <= m < k && order[m] == j;
      }
    }
  }

  /** One turn of the counter's loop. */
  method CountTurn<V>(tokens: seq<string>, ghost keys: set<string>, k: nat, index: nat,
                      available: map<string, Option<V>>)
    returns (decomposable: bool, available': map<string, Option<V>>)
    requires k < |tokens| && index == ProcessingOrder(tokens)[k]
    requires available.Keys == keys + Done(tokens, ProcessingOrder(tokens), k)
    ensures available'.Keys == keys + Done(tokens, ProcessingOrder(tokens), k + 1)
    ensures decomposable == Coverage(tokens, keys)[index]
  {
    var token := tokens[index];
    DoneIsEarlier(tokens, k);
    var pieces := DecomposeTokenIntoKnownPieces(token, available);
    decomposable := pieces.Some?;
    available' := available;
    if token !in available {
      available' := available[token := None];
    }
    assert Done(tokens, ProcessingOrder(tokens), k + 1) == Done(tokens, ProcessingOrder(tokens), k) + {token};
  }

  lemma FillStart<T>(tokens: seq<string>, a: seq<T>, b: seq<T>)
    requires |a| == |b| == |tokens|
    ensures FilledIn(a, b, ProcessingOrder(tokens), 0)
  {
    FillNothing(a, b, Lengths(tokens));
  }

  lemma FillEnd<T>(tokens: seq<string>, a: seq<T>, b: seq<T>)
    requires |a| == |tokens| && FilledIn(a, b, ProcessingOrder(tokens), |tokens|)
    ensures a == b
  {
    FilledInCompletely(a, b, Lengths(tokens));
  }

  lemma NothingDone(tokens: seq<string>)
    ensures Done(tokens, ProcessingOrder(tokens), 0) == {}
  {
  }

  /** `count_decomposable_tokens`: as many as the resize loop composes. */
  method CountDecomposableTokens<V>(tokens: seq<string>, vocab: map<string, V>) returns (n: nat)
    ensures n == CountTrue(Coverage(tokens, vocab.Keys))
  {
    hide Coverage, Done, FilledIn, Lengths, ProcessingOrder, CountTrue, ArgSort;
    var available: map<string, Option<V>> := map p | p in vocab :: Some(vocab[p]);
    var order := ProcessingOrder(tokens);
    var decomposable := seq(|tokens|, _ => false);
    ghost var coverage := Coverage(tokens, vocab.Keys);
    NothingDone(tokens);
    FillStart(tokens, decomposable, coverage);
    for k := 0 to |order|
      invariant available.Keys == vocab.Keys + Done(tokens, order, k)
      invariant FilledIn(decomposable, coverage, order, k) && |decomposable| == |tokens|
    {
      var bit;
      bit, available := CountTurn(tokens, vocab.Keys, k, order[k], available);
      FillNext(decomposable, coverage, order, k);
      decomposable := decomposable[order[k] := bit];
    }
    FillEnd(tokens, decomposable, coverage);
    n := CountTrue(decomposable);
  }

  // -------------------------------------------------------------- the resize loop

  /** The resolved centers and placeholders agree with the order-free definition. */
  ghost predicate Resolved(available: map<string, Option<nat>>, resolved: map<string, Row>, done: set<string>,
                           siblings: set<string>, base: Vocab, embeddings: seq<Row>, dim: nat)
    requires Agrees(base, embeddings, dim) && embeddings != []
  {
    && available.Keys == base.Keys + done
    && (forall p :: p in base ==> available[p] == Some(base[p]))
    && resolved.Keys == done - base.Keys
    && (forall p :: p in resolved ==> resolved[p] == Center(p, siblings, base, embeddings, dim))
  }

  lemma NothingResolved(available: map<string, Option<nat>>, done: set<string>, siblings: set<string>, base: Vocab,
                        embeddings: seq<Row>, dim: nat)
    requires Agrees(base, embeddings, dim) && embeddings != [] && done == {}
    requires available == map p | p in base :: Some(base[p])
    ensures Resolved(available, map[], done, siblings, base, embeddings, dim)
  {
  }

  /** The rows looked up for the pieces of one token; no `None` placeholder is ever used as a row index. */
  method LookUpRows(pieces: seq<string>, available: map<string, Option<nat>>, resolved: map<string, Row>,
                    embeddings: seq<Row>, ghost done: set<string>, ghost siblings: set<string>, ghost base: Vocab,
                    dim: nat)
    returns (rows: seq<Row>)
    requires Agrees(base, embeddings, dim) && embeddings != []
    requires Resolved(available, resolved, done, siblings, base, embeddings, dim)
    requires forall p :: p in pieces ==> p in available
    ensures |rows| == |pieces| && Matrix(rows, dim)
    ensures forall k :: 0 <= k < |pieces| ==>
      rows[k] == if pieces[k] in base then embeddings[base[pieces[k]]]
                 else Center(pieces[k], siblings, base, embeddings, dim)
  {
    rows := [];
    for k := 0 to |pieces|
      invariant |rows| == k && Matrix(rows, dim)
      invariant forall m :: 0 <= m < k ==> rows[m] == PieceRow(pieces[m], siblings, base, embeddings, dim)
    {
      var piece := pieces[k];
      rows := rows + [if piece in resolved then resolved[piece] else embeddings[available[piece].value]];
    }
  }

  function PieceRow(piece: string, siblings: set<string>, base: Vocab, embeddings: seq<Row>, dim: nat): Row
    requires Agrees(base, embeddings, dim) && embeddings != []
  {
    if piece in base then embeddings[base[piece]] else Center(piece, siblings, base, embeddings, dim)
  }

  lemma {:induction false} PieceRowsAt(pieces: seq<string>, bound: nat, siblings: set<string>, base: Vocab,
    embeddings: seq<Row>, dim: nat, k: nat)
    requires Agrees(base, embeddings, dim) && embeddings != [] && k < |pieces|
    requires forall p :: p in pieces ==> p in base || (p in siblings && |p| < bound)
    ensures PieceRows(pieces, bound, siblings, base, embeddings, dim)[k]
      == PieceRow(pieces[k], siblings, base, embeddings, dim)
  {
    if k > 0 { PieceRowsAt(pieces[1..], bound, siblings, base, embeddings, dim, k - 1); }
  }

  /** One turn of the loop: the row computed from the grown pool is the order-free center. */
  method ResolveCenter(tokens: seq<string>, ghost index: nat, token: string, available: map<string, Option<nat>>,
                       resolved: map<string, Row>, embeddings: seq<Row>, meanRow: Row, ghost base: Vocab, dim: nat)
    returns (center: Row, composed: bool)
    requires index < |tokens| && token == tokens[index]
    requires Agrees(base, embeddings, dim) && embeddings != [] && meanRow == Mean(embeddings, dim)
    requires Resolved(available, resolved, EarlierTokens(tokens, index), Elements(tokens), base, embeddings, dim)
    ensures center == Center(token, Elements(tokens), base, embeddings, dim)
    ensures composed == TakesComposedBranch(tokens, base.Keys, index)
  {
    ghost var siblings := Elements(tokens);
    ghost var done := EarlierTokens(tokens, index);
    var pieces := DecomposeTokenIntoKnownPieces(token, available);
    composed := pieces.Some?;
    if token in base || token !in done {
      GrownPoolAgrees(tokens, base.Keys, index);
    }
    if pieces.None? {
      center := meanRow;
      if token !in base && token in done && token != "" { RepetitionIsOnePiece(tokens, base.Keys, index); }
    } else {
      PiecesSpellToken(token, available.Keys);
      var rows := LookUpRows(pieces.value, available, resolved, embeddings, done, siblings, base, dim);
      center := Mean(rows, dim);
      if token in base || token !in done {
        PiecesSpellToken(token, Pool(token, siblings, base.Keys));
        forall k | 0 <= k < |rows|
          ensures rows[k] == PieceRows(pieces.value, |token|, siblings, base, embeddings, dim)[k]
        {
          PieceRowsAt(pieces.value, |token|, siblings, base, embeddings, dim, k);
        }
        assert rows == PieceRows(pieces.value, |token|, siblings, base, embeddings, dim);
      } else {
        RepetitionIsOnePiece(tokens, base.Keys, index);
        assert rows == [Center(token, siblings, base, embeddings, dim)];
        MeanOfOne(Center(token, siblings, base, embeddings, dim));
      }
    }
  }

  /** A first occurrence becomes a piece for longer siblings; a repetition never overwrites it. */
  method Register(token: string, center: Row, available: map<string, Option<nat>>, resolved: map<string, Row>,
                  ghost done: set<string>, ghost siblings: set<string>, ghost base: Vocab,
                  ghost embeddings: seq<Row>, ghost dim: nat)
    returns (available': map<string, Option<nat>>, resolved': map<string, Row>)
    requires Agrees(base, embeddings, dim) && embeddings != []
    requires Resolved(available, resolved, done, siblings, base, embeddings, dim)
    requires center == Center(token, siblings, base, embeddings, dim)
    ensures Resolved(available', resolved', done + {token}, siblings, base, embeddings, dim)
  {
    available', resolved' := available, resolved;
    if token !in available {
      available' := available[token := None];
      resolved' := resolved[token := center];
    }
  }

  function Centers(tokens: seq<string>, base: Vocab, embeddings: seq<Row>, dim: nat): (c: seq<Row>)
    requires Agrees(base, embeddings, dim) && embeddings != []
    ensures |c| == |tokens| && Matrix(c, dim)
    ensures forall i :: 0 <= i < |tokens| ==> c[i] == Center(tokens[i], Elements(tokens), base, embeddings, dim)
  {
    seq(|tokens|, i requires 0 <= i < |tokens| => Center(tokens[i], Elements(tokens), base, embeddings, dim))
  }

  // --------------------------------------------------- what the new rows are the means of

  function Position(tokens: seq<string>, token: string): (k: nat)
    requires token in tokens
    ensures k < |tokens| && tokens[k] == token
  {
    if tokens[0] == token then 0 else 1 + Position(tokens[1..], token)
  }

  /** Coordinate j of a new row without its noise. */
  function Denoised(matrix: seq<Row>, embeddings: seq<Row>, noise: seq<Row>, i: nat, j: nat): real
    requires |matrix| == |embeddings| + |noise| && i < |noise| && j < |matrix[|embeddings| + i]| && j < |noise[i]|
  {
    matrix[|embeddings| + i][j] - noise[i][j]
  }

  predicate Fits(matrix: seq<Row>, embeddings: seq<Row>, tokens: seq<string>, base: Vocab, noise: seq<Row>, dim: nat) {
    && Agrees(base, embeddings, dim) && Matrix(matrix, dim) && Matrix(noise, dim)
    && |noise| == |tokens| && |matrix| == |embeddings| + |tokens|
  }

  /** Column j summed over some pieces: the old row of a base piece, the new row without its noise of a new token. */
  function PieceSum(pieces: seq<string>, matrix: seq<Row>, embeddings: seq<Row>, tokens: seq<string>, base: Vocab,
                    noise: seq<Row>, dim: nat, j: nat): real
    requires Fits(matrix, embeddings, tokens, base, noise, dim) && j < dim
    requires forall p :: p in pieces ==> p in base || p in tokens
  {
    if pieces == [] then 0.0
    else
      (if pieces[0] in base then embeddings[base[pieces[0]]][j]
       else Denoised(matrix, embeddings, noise, Position(tokens, pieces[0]), j))
      + PieceSum(pieces[1..], matrix, embeddings, tokens, base, noise, dim, j)
  }

  /** Coordinate j of a new row without its noise, times the number of the token's pieces, is the sum over those pieces;
      or, times the number of old rows, the column sum if nothing spells the token. */
  ghost predicate RowAddsUp(matrix: seq<Row>, embeddings: seq<Row>, tokens: seq<string>, base: Vocab, noise: seq<Row>,
                            dim: nat, i: nat, j: nat)
    requires Fits(matrix, embeddings, tokens, base, noise, dim) && i < |tokens| && j < dim
  {
    match Decompose(tokens[i], Pool(tokens[i], Elements(tokens), base.Keys))
    case Some(pieces) =>
      && (forall p :: p in pieces ==> p in base || (p in tokens && |p| < |tokens[i]|))
      && Times(|pieces|, Denoised(matrix, embeddings, noise, i, j))
         == PieceSum(pieces, matrix, embeddings, tokens, base, noise, dim, j)
    case None => Times(|embeddings|, Denoised(matrix, embeddings, noise, i, j)) == ColumnSum(embeddings, j)
  }

  /** The old rows stay, and every new row adds up. */
  ghost predicate IsComposedMatrix(matrix: seq<Row>, embeddings: seq<Row>, tokens: seq<string>, base: Vocab,
                                   noise: seq<Row>, dim: nat)
    requires Fits(matrix, embeddings, tokens, base, noise, dim)
  {
    && matrix[..|embeddings|] == embeddings
    && forall i, j :: 0 <= i < |tokens| && 0 <= j < dim ==>
      RowAddsUp(matrix, embeddings, tokens, base, noise, dim, i, j)
  }

  lemma DenoisedIsCenter(matrix: seq<Row>, embeddings: seq<Row>, tokens: seq<string>, base: Vocab, noise: seq<Row>,
                         dim: nat, i: nat, j: nat)
    requires Fits(matrix, embeddings, tokens, base, noise, dim) && embeddings != [] && i < |tokens| && j < dim
    requires matrix == embeddings + NoisyRows(Centers(tokens, base, embeddings, dim), noise)
    ensures Denoised(matrix, embeddings, noise, i, j) == Center(tokens[i], Elements(tokens), base, embeddings, dim)[j]
  {
    hide Center;
    AddAt(Centers(tokens, base, embeddings, dim)[i], noise[i], j);
  }

  lemma {:induction false} PieceRowsAddUp(pieces: seq<string>, bound: nat, matrix: seq<Row>, embeddings: seq<Row>,
    tokens: seq<string>, base: Vocab, noise: seq<Row>, dim: nat, j: nat)
    requires Fits(matrix, embeddings, tokens, base, noise, dim) && embeddings != [] && j < dim
    requires matrix == embeddings + NoisyRows(Centers(tokens, base, embeddings, dim), noise)
    requires forall p :: p in pieces ==> p in base || (p in tokens && |p| < bound)
    ensures ColumnSum(PieceRows(pieces, bound, Elements(tokens), base, embeddings, dim), j)
      == PieceSum(pieces, matrix, embeddings, tokens, base, noise, dim, j)
    decreases |pieces|
  {
    hide Center, Denoised, NoisyRows, Centers;
    if pieces != [] {
      var p := pieces[0];
      var rows := PieceRows(pieces, bound, Elements(tokens), base, embeddings, dim);
      assert rows[1..] == PieceRows(pieces[1..], bound, Elements(tokens), base, embeddings, dim);
      if p !in base { DenoisedIsCenter(matrix, embeddings, tokens, base, noise, dim, Position(tokens, p), j); }
      PieceRowsAddUp(pieces[1..], bound, matrix, embeddings, tokens, base, noise, dim, j);
    }
  }

  lemma ComposedRowAddsUp(matrix: seq<Row>, embeddings: seq<Row>, tokens: seq<string>, base: Vocab, noise: seq<Row>,
                          dim: nat, i: nat, j: nat, pieces: seq<string>)
    requires Fits(matrix, embeddings, tokens, base, noise, dim) && embeddings != [] && i < |tokens| && j < dim
    requires matrix == embeddings + NoisyRows(Centers(tokens, base, embeddings, dim), noise)
    requires Decompose(tokens[i], Pool(tokens[i], Elements(tokens), base.Keys)) == Some(pieces)
    ensures forall p :: p in pieces ==> p in base || (p in tokens && |p| < |tokens[i]|)
    ensures Times(|pieces|, Denoised(matrix, embeddings, noise, i, j))
      == PieceSum(pieces, matrix, embeddings, tokens, base, noise, dim, j)
  {
    hide Times, ColumnSum, PieceRows, NoisyRows, Denoised, Mean, Centers;
    PiecesSpellToken(tokens[i], Pool(tokens[i], Elements(tokens), base.Keys));
    DenoisedIsCenter(matrix, embeddings, tokens, base, noise, dim, i, j);
    PieceRowsAddUp(pieces, |tokens[i]|, matrix, embeddings, tokens, base, noise, dim, j);
    MeanTimesSize(PieceRows(pieces, |tokens[i]|, Elements(tokens), base, embeddings, dim), dim, j);
  }

  lemma FallbackRowAddsUp(matrix: seq<Row>, embeddings: seq<Row>, tokens: seq<string>, base: Vocab, noise: seq<Row>,
                          dim: nat, i: nat, j: nat)
    requires Fits(matrix, embeddings, tokens, base, noise, dim) && embeddings != [] && i < |tokens| && j < dim
    requires matrix == embeddings + NoisyRows(Centers(tokens, base, embeddings, dim), noise)
    requires Decompose(tokens[i], Pool(tokens[i], Elements(tokens), base.Keys)) == None
    ensures Times(|embeddings|, Denoised(matrix, embeddings, noise, i, j)) == ColumnSum(embeddings, j)
  {
    hide Times, ColumnSum, NoisyRows, Denoised, Mean, Centers;
    DenoisedIsCenter(matrix, embeddings, tokens, base, noise, dim, i, j);
    MeanTimesSize(embeddings, dim, j);
  }

  /** Each new row is the mean of the rows of its token's pieces, plus its noise. */
  lemma NewRowsAreMeans(matrix: seq<Row>, embeddings: seq<Row>, tokens: seq<string>, base: Vocab, noise: seq<Row>,
                        dim: nat)
    requires Fits(matrix, embeddings, tokens, base, noise, dim) && embeddings != []
    requires matrix == embeddings + NoisyRows(Centers(tokens, base, embeddings, dim), noise)
    ensures IsComposedMatrix(matrix, embeddings, tokens, base, noise, dim)
  {
    hide Times, ColumnSum, PieceSum, NoisyRows, Denoised, Centers, Fits, Pool, Decompose;
    forall i, j | 0 <= i < |tokens| && 0 <= j < dim
      ensures RowAddsUp(matrix, embeddings, tokens, base, noise, dim, i, j)
    {
      match Decompose(tokens[i], Pool(tokens[i], Elements(tokens), base.Keys)) {
        case Some(pieces) => ComposedRowAddsUp(matrix, embeddings, tokens, base, noise, dim, i, j, pieces);
        case None => FallbackRowAddsUp(matrix, embeddings, tokens, base, noise, dim, i, j);
      }
    }
  }

  /** `resize_embedding_matrix_compositional`: the old rows unchanged, then row i for `newTokens[i]`. */
  method ResizeEmbeddingMatrixCompositional(embeddings: seq<Row>, newTokens: seq<string>, baseVocab: Vocab,
    noise: seq<Row>, dim: nat)
    returns (matrix: seq<Row>, composed: seq<bool>)
    requires Agrees(baseVocab, embeddings, dim) && Matrix(noise, dim) && |noise| == |newTokens|
    requires newTokens != [] ==> embeddings != []
    ensures newTokens == [] ==> matrix == embeddings
    ensures newTokens != [] ==> matrix == embeddings + NoisyRows(Centers(newTokens, baseVocab, embeddings, dim), noise)
    ensures Fits(matrix, embeddings, newTokens, baseVocab, noise, dim)
    ensures IsComposedMatrix(matrix, embeddings, newTokens, baseVocab, noise, dim)
    ensures composed == Coverage(newTokens, baseVocab.Keys)
  {
    if newTokens == [] {
      return embeddings, [];
    }
    var centers: seq<Row>;
    centers, composed := ResolveCenters(embeddings, newTokens, baseVocab, dim);
    var newRows := AddNoise(centers, noise, dim);
    matrix := embeddings + newRows;
    assert Matrix(newRows, dim);
    NewRowsAreMeans(matrix, embeddings, newTokens, baseVocab, noise, dim);
  }

  function NoisyRows(centers: seq<Row>, noise: seq<Row>): (rows: seq<Row>)
    requires |centers| == |noise| && forall i :: 0 <= i < |centers| ==> |centers[i]| == |noise[i]|
    ensures |rows| == |centers| && forall i :: 0 <= i < |rows| ==> rows[i] == Add(centers[i], noise[i])
  {
    seq(|centers|, i requires 0 <= i < |centers| => Add(centers[i], noise[i]))
  }

  method AddNoise(centers: seq<Row>, noise: seq<Row>, ghost dim: nat) returns (rows: seq<Row>)
    requires |centers| == |noise| && Matrix(centers, dim) && Matrix(noise, dim)
    ensures rows == NoisyRows(centers, noise)
  {
    rows := [];
    for index := 0 to |centers|
      invariant |rows| == index && forall m :: 0 <= m < index ==> rows[m] == Add(centers[m], noise[m])
    {
      rows := rows + [Add(centers[index], noise[index])];
    }
  }

  /** One turn of the resize loop. */
  method ResolveTurn(newTokens: seq<string>, k: nat, index: nat, available: map<string, Option<nat>>,
                     resolved: map<string, Row>, embeddings: seq<Row>, meanRow: Row, ghost baseVocab: Vocab, dim: nat)
    returns (center: Row, composed: bool, available': map<string, Option<nat>>, resolved': map<string, Row>)
    requires k < |newTokens| && index == ProcessingOrder(newTokens)[k]
    requires Agrees(baseVocab, embeddings, dim) && embeddings != [] && meanRow == Mean(embeddings, dim)
    requires Resolved(available, resolved, Done(newTokens, ProcessingOrder(newTokens), k), Elements(newTokens),
                      baseVocab, embeddings, dim)
    ensures center == Centers(newTokens, baseVocab, embeddings, dim)[index]
    ensures composed == Coverage(newTokens, baseVocab.Keys)[index]
    ensures Resolved(available', resolved', Done(newTokens, ProcessingOrder(newTokens), k + 1), Elements(newTokens),
                     baseVocab, embeddings, dim)
  {
    ghost var done, siblings := Done(newTokens, ProcessingOrder(newTokens), k), Elements(newTokens);
    DoneIsEarlier(newTokens, k);
    center, composed := ResolveCenter(newTokens, index, newTokens[index], available, resolved, embeddings, meanRow,
                                      baseVocab, dim);
    available', resolved' := Register(newTokens[index], center, available, resolved, done, siblings, baseVocab,
                                      embeddings, dim);
  }

  /** The shortest-first loop over the batch. */
  method ResolveCenters(embeddings: seq<Row>, newTokens: seq<string>, baseVocab: Vocab, dim: nat)
    returns (centers: seq<Row>, composed: seq<bool>)
    requires Agrees(baseVocab, embeddings, dim) && embeddings != []
    ensures centers == Centers(newTokens, baseVocab, embeddings, dim)
    ensures composed == Coverage(newTokens, baseVocab.Keys)
  {
    hide Coverage, Centers, Done, FilledIn, Resolved, Lengths, ProcessingOrder, ArgSort, Mean;
    var meanRow := Mean(embeddings, dim);
    var order := ProcessingOrder(newTokens);
    var available: map<string, Option<nat>> := map p | p in baseVocab :: Some(baseVocab[p]);
    var resolved: map<string, Row> := map[];
    centers, composed := seq(|newTokens|, _ => []), seq(|newTokens|, _ => false);
    ghost var siblings := Elements(newTokens);
    ghost var target := Centers(newTokens, baseVocab, embeddings, dim);
    ghost var coverage := Coverage(newTokens, baseVocab.Keys);
    FillStart(newTokens, centers, target);
    FillStart(newTokens, composed, coverage);
    NothingDone(newTokens);
    NothingResolved(available, Done(newTokens, order, 0), siblings, baseVocab, embeddings, dim);
    for k := 0 to |order|
      invariant Resolved(available, resolved, Done(newTokens, order, k), siblings, baseVocab, embeddings, dim)
      invariant FilledIn(centers, target, order, k) && FilledIn(composed, coverage, order, k)
      invariant |centers| == |composed| == |newTokens|
    {
      var center, branch;
      center, branch, available, resolved :=
        ResolveTurn(newTokens, k, order[k], available, resolved, embeddings, meanRow, baseVocab, dim);
      FillNext(centers, target, order, k);
      FillNext(composed, coverage, order, k);
      centers, composed := centers[order[k] := center], composed[order[k] := branch];
    }
    FillEnd(newTokens, centers, target);
    FillEnd(newTokens, composed, coverage);
  }

  /** Permuting the new tokens permutes their centers and changes nothing else. */
  lemma PermutedTokensPermuteCenters(tokens: seq<string>, permuted: seq<string>, base: Vocab, embeddings: seq<Row>,
    dim: nat, i: nat, j: nat)
    requires Agrees(base, embeddings, dim) && embeddings != [] && multiset(tokens) == multiset(permuted)
    requires i < |tokens| && j < |permuted| && tokens[i] == permuted[j]
    ensures Centers(permuted, base, embeddings, dim)[j] == Centers(tokens, base, embeddings, dim)[i]
  {
    forall t ensures t in tokens <==> t in permuted {
      assert t in tokens <==> t in multiset(tokens);
      assert t in permuted <==> t in multiset(permuted);
    }
    assert Elements(tokens) == Elements(permuted);
  }
}
