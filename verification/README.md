# Verified model of the Spanish–Kaqchikel translator

A Dafny model of the logic under the translator: the numeric kernels of its corpus diagnostics, the extension of the
tokenizer's vocabulary, the asynchronous translate jobs, the browser's poll session and page, and the text formats that
runs leave behind. `dafny verify dfyconfig.toml` checks everything.

## How the modules fit together

* **Numeric kernels** over exact reals: `KMeans` (two-cluster Lloyd loop), `RankAuc` (tie-averaged rank-sum AUC) and
  `LengthBias` (probability rectification), on `Reals`, `Rows` and `StableSort`.
* **Vocabulary**: `VocabExtension` (greedy segmentation), `ComposedEmbeddings` (composed embedding rows and the coverage
  counter), `VocabGap` (what a corpus needs), `ExtendVocab` (ids), `TokenizerExtension` (the in-place tokenizer and its
  decode patch), `Lineage` (chains of runs, model-card provenance, reconstruction and its diagnostics).
* **Jobs**: `Jobs` is the table and each handler as one call; `JobProtocol` interleaves their steps with crashes, duplicate
  deliveries, a clock and expiry.
* **Browser**: `PollSession` is one `translate()` call driven by fetch continuations and timers; `App` is the page with
  every call it ever made; `EndToEnd` runs `App` against `JobProtocol`; `ReportUrl` is the pre-filled report link.
* **Texts**: `Text`, `Normalize`, `Corpus` (cleaning and TSV), `Direction`, `BatchTranslation`, `ModelCard`
  (the printer and the metric parser) and `CardReading` (the readers of two hyperparameters).

State that the sources update in place is a class (`Tokenizer`, `JobsTable`, `Session`, `Page`), an array or a loop; each
method is proved equal to a function of the old state, and the theorems are about those functions. The protocols are step
relations (`Enabled`, `Next`) over events, and `Runs`/`After` are whole runs of any length and order.

## Where the code and its documentation disagree

* The docstring of `_diagnose_word_boundary_reconstruction` says the gap bound holds however many continuation runs
  contributed. It does not: the warning counts subwords, and `Lineage.WarningCountsSubwords` says for every lineage exactly
  when it fires. Running again on the same corpus adds nothing (`Lineage.RepeatedRunAddsNothing`), so after that it fires
  whenever any hidden subword exists (`Lineage.RepeatedRunWarnsIff`), as in `Lineage.FalseAlarmForEarlierSubwords`, two
  identical runs on the word "pizza" with no whole word missed.
* The comment above `buildTranslationReportUrl` speaks of the largest shared budget. `ReportUrl.ChosenBudgetIsNotAlwaysLargest`
  gives two texts of accented letters, within the input limit, for which a larger budget fits; `ReportUrl.ChosenBudgetIsLargestIff`
  says exactly when the chosen one is the largest.
* `parse_model_card_metrics` may return something else than the combined score. `ModelCard.CombinedIsReadIff` says for every
  card exactly when: when a line printed above the score, taken by itself, is read first and says something else. Without
  `**` in any field above, only a hyperparameter can be that line, one whose key is the metric's name, or that name after one
  `*`, and whose value starts with a number (`ModelCard.ParsedMetric`, `ModelCard.HyperparameterCanShadowMetric`).
* The readers of the scoping label and of the added-token count may likewise be misled, but only by a field with `**` in it:
  `CardReading.RecordedValueIsReadIff` and `CardReading.NothingIsReadIff` say for every card exactly when they are not.
* The docstring of `_conditional_update` promises that a finished item is never overwritten, which holds, but the same guard
  also lets a terminal write create an item without `ttl` for a swept job. `JobProtocol.GetFailsIff`: a job's GETs fail, from
  then on, exactly when that has happened; `JobProtocol.LateWriteFails` is such a run, and `JobProtocol.NoGetFails` says that
  it does not if the sweep spares jobs with an outstanding delivery.

## Model

| member | source | states |
|---|---|---|
| KMeans.KMeansTwoClusters | ml/data/dialect_signal.py:129-166 | The labels are those of a run that starts from row 0 as cluster 0 and the first row farthest from it as cluster 1, moves a row to cluster 1 iff it is strictly closer to its mean, and stops at the first repetition or after the iterations; both clusters come back non-empty exactly when some row differs from row 0; short inputs are all zeros and no iteration is an assertion failure. |
| KMeans.StartRunsFromFarthestPair | ml/data/dialect_signal.py:144-166 | The specified loop is such a run, said as a list of labellings by distances and cluster sums alone. |
| KMeans.FirstRowIsInZero | ml/data/dialect_signal.py:144-153 | So after one iteration row 0 is in cluster 0. |
| KMeans.MoveCentroids | ml/data/dialect_signal.py:160-163 | Both centroids move in place to the means of their clusters; an empty cluster's stays. |
| KMeans.TwoClustersIffRowsDiffer | ml/data/dialect_signal.py:144-166 | Both clusters survive the whole run iff the rows are not all equal; then every centroid is its cluster's mean, an early break is at a nearest-centroid fixed point, and the cost never rose. |
| KMeans.StartSeparates | ml/data/dialect_signal.py:144-147 | The farthest-pair start gives two different centroids and two non-empty clusters as soon as one row differs from row 0. |
| KMeans.StepKeepsClusters | ml/data/dialect_signal.py:151-163 | One assign and update step keeps both clusters non-empty and the centroids distinct, so the `mask.any()` guard never skips. |
| KMeans.LloydKeepsClusters | ml/data/dialect_signal.py:150-163 | The same over any number of steps, with means at the end and ties to cluster 0. |
| KMeans.LeadAtMean | ml/data/dialect_signal.py:163 | The difference of squared distances to two points, averaged over a cluster, is its value at the cluster's mean. |
| KMeans.AssignNeverRaisesCost | ml/data/dialect_signal.py:151-153 | Reassigning rows to their nearest centroid never raises the total squared distance of any labelling. |
| KMeans.UpdateNeverRaisesCost | ml/data/dialect_signal.py:160-163 | Means minimise squared error: moving the centroids never raises the cost. |
| KMeans.LloydNeverRaisesCost | ml/data/dialect_signal.py:150-163 | No run ends above the cost it started from. |
| KMeans.ChangeLowersCost | ml/data/dialect_signal.py:150-163 | An iteration that changes the labels of centred clusters lowers the cost strictly: ties that move shift cluster 0's mean. |
| KMeans.LloydBreaks | ml/data/dialect_signal.py:150-158 | So no labelling recurs: the loop breaks once it has more iterations left than there are cheaper labellings. |
| KMeans.EveryRunConverges | ml/data/dialect_signal.py:129-166 | With more than two to the number of rows, plus one, iterations allowed every run ends at its break. |
| StableSort.ArgSortSorts | ml/data/alignment_signal.py:119 | The stable argsort orders positions by key and equal keys by position. |
| StableSort.ArgSortVisits | ml/data/alignment_signal.py:119 | It visits every position exactly. |
| RankAuc.AverageRanks | ml/data/alignment_signal.py:110-136 | Sort, tie scan and scatter give every value the number of smaller values plus half of one more than the number of equal ones, back in the input's order. |
| RankAuc.RankSorted | ml/data/alignment_signal.py:121-132 | The tie scan over the sorted values fills in exactly those ranks. |
| RankAuc.Scatter | ml/data/alignment_signal.py:134-136 | Writing back through the order puts each rank at its own position and overwrites none. |
| RankAuc.TiedBlockCounts | ml/data/alignment_signal.py:125-131 | In a sorted sequence the block bounds count the smaller and the equal values. |
| RankAuc.RankSumCountsPairs | ml/data/alignment_signal.py:104-107 | The positives' rank sum less its smallest value is the number of pairs they win, ties counting one half. |
| RankAuc.PairScoreDuality | ml/data/alignment_signal.py:92-97 | Wins of one group and wins of the other add up to all pairs. |
| RankAuc.AucInUnitInterval | ml/data/alignment_signal.py:92-95 | The AUC is between 0 and 1. |
| RankAuc.AucComplement | ml/data/alignment_signal.py:92-95 | Exchanging the groups complements it. |
| RankAuc.AucSeparation | ml/data/alignment_signal.py:89-107 | The rank formula returns the normalised pair count, and fails exactly when a group is empty. |
| LengthBias.RectifyIsDistribution | ml/evaluation/length_bias.py:93-118 | A rectified distribution is a distribution, whatever delta. |
| LengthBias.RectifyIsProportional | ml/evaluation/length_bias.py:93-118 | Its entries are to each other as what the original ones exceed delta by; where none does, the row is the original one. |
| LengthBias.BatchIsDistributions | ml/evaluation/length_bias.py:93-118 | So is every row of a rectified batch. |
| LengthBias.FallbackIffAllClipped | ml/evaluation/length_bias.py:112-118 | The fallback row is taken exactly when delta reaches every entry. |
| LengthBias.RectifyKeepsOrder | ml/evaluation/length_bias.py:93-118 | Strict order is kept exactly unless both entries are clipped away in a row that is not the fallback. |
| LengthBias.ZeroDeltaIsIdentity | ml/evaluation/length_bias.py:99-101 | Delta 0 changes nothing. |
| LengthBias.SmoothIsDistribution | ml/evaluation/length_bias.py:26-31 | The label-smoothed mixture of a distribution and the uniform one is a distribution. |
| LengthBias.RectifyInvertsSmoothing | ml/evaluation/length_bias.py:93-118 | At delta = a/V rectification recovers q from (1-a)q + a/V iff a < 1 or q is uniform. |
| VocabExtension.GreedyIsMaximalMunch | ml/training/vocab_extension.py:164-178 | The greedy result is the one segmentation whose every piece is the longest pool entry at its place; no such segmentation, no result. |
| VocabExtension.PiecesSpellToken | ml/training/vocab_extension.py:162-178 | Pieces are pool entries that concatenate to the token. |
| VocabExtension.GreedyAgrees | ml/training/vocab_extension.py:169-178 | The result depends only on which substrings of the token the pool holds. |
| VocabExtension.CharactersSuffice | ml/training/vocab_extension.py:164-178 | A pool with all the token's characters always segments it. |
| VocabExtension.DecomposabilityIsNotMonotone | ml/training/vocab_extension.py:164-178 | A concrete larger pool segments less. |
| VocabExtension.MatchLongest | ml/training/vocab_extension.py:168-173 | The inner loop finds the longest vocabulary entry at a position, or that there is none. |
| VocabExtension.DecomposeTokenIntoKnownPieces | ml/training/vocab_extension.py:122-178 | The nested loops compute that segmentation, and none for the empty token. |
| ComposedEmbeddings.GrownPoolAgrees | ml/training/vocab_extension.py:344-375 | Decomposing against the pool grown so far equals decomposing against the base and the strictly shorter siblings. |
| ComposedEmbeddings.ComposedBranchIff | ml/training/vocab_extension.py:357-369 | A token takes the composed branch iff the base and its shorter siblings spell it, or it repeats an earlier entry. |
| ComposedEmbeddings.CenterIgnoresLongerSiblings | ml/training/vocab_extension.py:344-377 | A center depends on the batch only through strictly shorter siblings. |
| ComposedEmbeddings.CenterWithinColumn | ml/training/vocab_extension.py:333-377 | Every composed center lies, per coordinate, between the least and greatest existing entry of that column. |
| ComposedEmbeddings.PermutedTokensPermuteCenters | ml/training/vocab_extension.py:344-377 | Permuting the new tokens permutes their centers and nothing else. |
| ComposedEmbeddings.LookUpRows | ml/training/vocab_extension.py:363-368 | A base piece gives its own row of the matrix and a sibling its resolved center, in the order of the pieces; the placeholder of a sibling is never used as an index. |
| ComposedEmbeddings.ResolveCenters | ml/training/vocab_extension.py:344-377 | The shortest-first loop computes the order-free centers, whose rows `NewRowsAreMeans` describes, and records which branch each token took. |
| ComposedEmbeddings.ResizeEmbeddingMatrixCompositional | ml/training/vocab_extension.py:266-383 | Old rows are unchanged; new row i less its noise, times its number of pieces, is per coordinate the sum of the rows of the base pieces and of the noise-free rows of the sibling pieces, and the column mean for a token that cannot be segmented. |
| ComposedEmbeddings.NewRowsAreMeans | ml/training/vocab_extension.py:344-383 | That holds of the order-free centers for any tokens, base and noise, without naming how they are computed. |
| ComposedEmbeddings.CountDecomposableTokens | ml/training/vocab_extension.py:249-263 | The counter equals the number of tokens the resize loop composes, duplicates included. |
| VocabGap.ExtractCharacters | ml/training/vocab_gap.py:20-25 | The loop collects exactly the characters of the texts. |
| VocabGap.FindMissingWords | ml/training/vocab_gap.py:39-54 | The loop collects exactly the whitespace-separated words not in the vocabulary. |
| VocabGap.SelectedAreDistinct | ml/training/vocab_extension.py:65-66 | Selected tokens are pairwise different. |
| VocabGap.SelectedAreInOrder | ml/training/vocab_extension.py:65-66 | They come in lexicographic order of code points. |
| VocabGap.NewTokensAre | ml/training/tokenizer_extension.py:221-226 | A token is new iff it is unknown and a non-whitespace character or a word of the texts. |
| VocabGap.NewTokensDependOnTextSet | ml/training/tokenizer_extension.py:221-226 | The list depends on the set of texts only, not on their order or number. |
| VocabGap.FallsBackIffSingleCharacter | ml/training/vocab_extension.py:359-361 | Among the new tokens of a corpus exactly the single characters fall back to the mean row. |
| VocabGap.CoverageCountsWholeWords | ml/training/vocab_extension.py:234-263 | So the coverage of a corpus's new tokens is the number of its whole-word tokens. |
| ExtendVocab.ExtendVocab | ml/training/vocab_extension.py:69-82 | The loop numbers the new tokens from one past the largest id in use. |
| ExtendVocab.NextIdIsSize | ml/training/vocab_extension.py:79 | With ids 0 to n - 1 the next id is n. |
| ExtendVocab.ExtensionKeepsIds | ml/training/vocab_extension.py:69-82 | For any vocabulary: no id in use changes, exactly the unknown tokens are added, once each and in sorted order, with consecutive ids from one past the largest in use, or from 0. |
| ExtendVocab.ExtensionStaysDense | ml/training/vocab_extension.py:69-82 | From ids 0 to n - 1, ids stay dense and the i-th new token names the i-th row after the existing ones. |
| TokenizerExtension.Tokenizer.MarkWordBoundaryTokens | ml/training/tokenizer_extension.py:154-195 | The decoder is wrapped at most once, the tracked set only grows by the given tokens, and nothing happens for no tokens or no decoder. |
| TokenizerExtension.Tokenizer.ExtendTokenizerVocab | ml/training/tokenizer_extension.py:229-246 | Adds the corpus's new tokens and tracks exactly the multi-character ones. |
| TokenizerExtension.Tokenizer.ExtendTokenizerVocabWithSubwords | ml/training/tokenizer_extension.py:361-379 | Adds the unknown pieces of at least two characters and tracks exactly the marker-initial ones. |
| TokenizerExtension.NewSubwordsAre | ml/training/subword_vocab.py:157-162 | Whatever training yields, a piece is added iff it is unknown and has two characters besides a leading marker, so "▁a" never is. |
| TokenizerExtension.Tokenizer.PatchWordBoundaryDecoding | ml/training/tokenizer_extension.py:314-334 | Tracks the reconstructed whole-word tokens and leaves the vocabulary alone. |
| TokenizerExtension.Tokenizer.ConvertTokensToString | ml/training/tokenizer_extension.py:164-191 | The patched decoder computes the run-by-run decoding. |
| TokenizerExtension.GroupRuns | ml/training/tokenizer_extension.py:165-176 | The grouping loop computes the runs. |
| TokenizerExtension.RunsPartition | ml/training/tokenizer_extension.py:165-176 | Runs are non-empty, concatenate to the token list, and every run but possibly the first begins at, and only at, a word start. |
| TokenizerExtension.RunsRecovered | ml/training/tokenizer_extension.py:165-176 | Any list of word-initial runs is recovered from its concatenation. |
| TokenizerExtension.DecodeSpacesWords | ml/training/tokenizer_extension.py:164-191 | Tokens that spell words decode to those words joined by exactly one space. |
| TokenizerExtension.DecodeSplits | ml/training/tokenizer_extension.py:164-191 | For any token list cut before a word start the sides decode apart and are joined by exactly one space; a side that decodes to nothing leaves no trace. |
| TokenizerExtension.DecodeOfRun | ml/training/tokenizer_extension.py:177-188 | A single run decodes as the native decoder decodes it without the marker of a tracked head. |
| TokenizerExtension.LoneMarkerVanishes | ml/training/tokenizer_extension.py:164-191 | A lone marker before a word start, or at the end, changes nothing. |
| TokenizerExtension.NativeDecodeGlues | ml/training/tokenizer_extension.py:115-122 | For any word, however it is spelled by pieces, and any added word after it: without the patch the two are glued, with it there is exactly one space between. |
| Direction.BuildDirectionExamples | ml/training/direction.py:123-151 | The list is one forward example per pair, one backward, or both in that order, with the two languages and texts written out; any string but the three is an error. |
| Direction.CollectTextsForLanguage | ml/training/direction.py:154-174 | The loop collects the texts of either side in the language, in order. |
| Direction.KaqchikelColumn | ml/training/direction.py:123-174 | Whatever the direction, the Kaqchikel texts are the corpus's Kaqchikel column. |
| Direction.StripUndoesTag | ml/training/direction.py:75-120 | Stripping a tag undoes tagging up to leading whitespace. |
| Lineage.ExtendVocabularyForExamples | ml/training/train.py:674-686 | One run adds the Kaqchikel texts' new tokens and then unknown subword pieces, skipping the second step without texts. |
| Lineage.ScopedRunStep | ml/training/train.py:674-686 | What the chain's theorems call a scoped run's step is what that call adds for the run's own examples. |
| Lineage.CompositionalCoverage | ml/training/train.py:698-700 | The recorded coverage is the number of composed rows against the run's starting vocabulary. |
| Lineage.EveryChainHasSteps | ml/training/train.py:605-701 | Every chain of runs is described by some list of steps. |
| Lineage.WordStepAddsNothingAgain | ml/training/tokenizer_extension.py:292-300 | On one corpus the character/word step adds nothing after the first run, whatever directions and subwords came between. |
| Lineage.ReconstructionIsExact | ml/training/tokenizer_extension.py:249-311 | On a chain of one scoping, reconstruction from the pristine vocabulary returns exactly the whole-word tokens its first run added, and no later run added any. |
| Lineage.ReconstructedIff | ml/training/tokenizer_extension.py:249-311 | On every lineage, a token of the checkpoint is reconstructed iff some run added it as a whole word or it is a continuation piece that is also a word of the evaluator's texts. |
| Lineage.ScopedReconstructionIsExact | ml/evaluation/evaluate_checkpoint.py:525-581 | With the scoped label read, exactly the tokens added as whole words are reconstructed. |
| Lineage.CardIsScopedIff | ml/training/train.py:215-260 | A card records the scoped label iff every run up to it was scoped and every ancestor's card could be read. |
| Lineage.BuildTrainSampleTexts | ml/evaluation/evaluate_checkpoint.py:525-581 | The evaluator's texts are the Kaqchikel column, or both columns, plus the tags; it warns exactly on an unknown label. |
| Lineage.NeverUnderReconstructs | ml/evaluation/evaluate_checkpoint.py:525-581 | Every whole-word token any run of any chain added is reconstructed, mixed lineages and lost cards included. |
| Lineage.OverReconstructionIff | ml/evaluation/evaluate_checkpoint.py:646-657 | The over-reconstruction warning fires iff all runs were scoped, the label was not read, and a Spanish word of several characters is missing from the checkpoint. |
| Lineage.UnaccountedAreSubwords | ml/evaluation/evaluate_checkpoint.py:659-666 | Only subword pieces are ever left unaccounted for. |
| Lineage.NoFalseAlarmForLastRunSubwords | ml/evaluation/evaluate_checkpoint.py:682-694 | The `new_tokens_added` warning never fires when only the last run added subwords. |
| Lineage.WarningCountsSubwords | ml/evaluation/evaluate_checkpoint.py:659-694 | On every lineage, scoped, unscoped, mixed or with lost cards, exactly the marker-less subwords that are no words of the evaluator's texts stay unaccounted for, and the warning fires iff the last card was read and they outnumber the last run's additions. |
| Lineage.ScopedWarningCountsSubwords | ml/evaluation/evaluate_checkpoint.py:659-694 | On a lineage read as scoped these are all the chain's marker-less subwords. |
| Lineage.RepeatedRunAddsNothing | ml/training/train.py:674-701 | Continuing on the same corpus, with no new pieces from the trainer, adds no token at all. |
| Lineage.RepeatedRunWarnsIff | ml/evaluation/evaluate_checkpoint.py:659-694 | After such a run the warning fires iff there is any hidden subword. |
| Lineage.RepeatedScopedRunWarnsIff | ml/evaluation/evaluate_checkpoint.py:659-694 | On a lineage read as scoped, iff any run added a marker-less subword. |
| Lineage.FalseAlarmForEarlierSubwords | ml/evaluation/evaluate_checkpoint.py:632-636 | Two identical runs on one word raise the warning, from any base vocabulary without the piece, although every whole word is reconstructed. |
| Jobs.JobsTable.CreateJob | apps/api/app/jobs.py:58-80 | The new item is pending, carries the request and expires an hour later; no other item changes. |
| Jobs.JobsTable.UpdateIfPending | apps/api/app/jobs.py:127-161 | The guarded write changes the item iff it is missing or not yet terminal. |
| Jobs.JobsTable.WorkerHandler | apps/api/app/worker_handler.py:41-77 | Undisturbed, the Worker writes the endpoint's answer to the job's own request once, and touches nothing for a missing job. |
| Jobs.JobsTable.FailureHandler | apps/api/app/failure_handler.py:54-68 | The destination writes the fixed 504 failure under the same guard. |
| Jobs.FirstWriteWins | apps/api/app/jobs.py:127-161 | After one terminal write a second changes nothing. |
| Jobs.CompleteItemsAreServed | apps/api/app/main.py:133-152 | A complete or absent item is always served, and only a malformed id is a bad request; what is served is in the next row. |
| Jobs.WrittenAnswerIsServed | apps/api/app/main.py:139-152 | Whatever terminal answer is written to a pending job, success or failure, its GET returns that very answer until it expires, and not found afterwards. |
| Jobs.TerminalWriteNeedsItem | apps/api/app/jobs.py:151-158 | A terminal write leaves a complete item iff there was one; otherwise every GET fails on what it created. |
| Jobs.CreatedJobExpires | apps/api/app/jobs.py:31-92 | A created job is submitted to the Worker as it was, reads as pending for an hour and as not found afterwards, swept or not. |
| JobProtocol.StepKeepsInv | apps/api/app/jobs.py:58-161 | Every step of every Lambda, the clock and a sweep at any time keeps: items carry what their status calls for and their own request, or are terminal strays; a success is the endpoint's answer to that request. |
| JobProtocol.WriteOnce | apps/api/app/jobs.py:130-138 | Over any run an item's first terminal status and payload never change while it is there, a served answer never changes, and a swept job is never served again. |
| JobProtocol.ServedTranslationIsTheAnswer | apps/api/app/worker_handler.py:44-69 | In every reachable state a served translation is what some Worker call of the run was answered to that job's own text and direction. |
| JobProtocol.ServedFailureIsTheAnswer | apps/api/app/failure_handler.py:54-68 | A served failure, code and message, is likewise the answer of some call to that job's own request, or 504 with its fixed message and a crash of that job was handled. |
| JobProtocol.HistoryIsTheRuns | apps/api/app/worker_handler.py:41-77 | The recorded answers and reports are exactly the calls and failure writes of the run. |
| JobProtocol.GetFailsIff | apps/api/app/jobs.py:151-158 | In every reachable state a job's GET fails iff some terminal write so far found its item gone. |
| JobProtocol.LateWriteFails | apps/api/app/jobs.py:151-158 | A run in which the item is swept between the Worker's call and its write, and the GET fails. |
| JobProtocol.NoGetFails | apps/api/app/jobs.py:31-38 | No GET ever fails if the sweep and late deliveries spare a job while a delivery for it is outstanding. |
| JobProtocol.NoJobLeftBehind | apps/api/app/failure_handler.py:54-56 | With crashes at any step, when no delivery is outstanding every invoked job is terminal or gone. |
| JobProtocol.OutstandingMovesOn | apps/api/app/worker_handler.py:41-77 | An outstanding delivery can always move, and each of its moves brings it closer to its end. |
| JobProtocol.UndisturbedWorkerIsHandler | apps/api/app/worker_handler.py:41-77 | The Worker's steps in a row do to the table what its handler does in one piece, for a job with a request, a missing one and a stray. |
| JobProtocol.ObservationOrder | apps/api/app/main.py:139-152 | The GETs of a job read pending, then one constant terminal answer, then not found, then fail; they fail only once a terminal write found the item gone. |
| PollSession.Session.Translate | apps/web/src/api.ts:157-190 | A new session has its overall timer armed and one POST under way. |
| PollSession.Session.SettleWith | apps/web/src/api.ts:173-184 | Settling clears every timer and settles the promise, once. |
| PollSession.Session.ScheduleNextPoll | apps/web/src/api.ts:192-200 | Arms one poll timer an interval ahead unless settled. |
| PollSession.Session.OnPollRejected | apps/web/src/api.ts:215-229 | Aborts are silent; the third counted failure settles, an earlier one reschedules, and what that leads to is in `FailuresAreForgiven`. |
| PollSession.Session.OnPollResponse | apps/web/src/api.ts:231-241 | 404 and other failures settle; an ok answer resets the count before its body is read. |
| PollSession.Session.OnPollBody | apps/web/src/api.ts:243-251 | A terminal body settles, any other reschedules. |
| PollSession.Session.CancelTranslate | apps/web/src/api.ts:144-155 | Cancelling a live session aborts, clears its timers and settles it as cancelled; otherwise nothing. |
| PollSession.Session.Deliver | apps/web/src/api.ts:186-279 | Delivering an event runs exactly its callback. |
| PollSession.StepKeepsInv | apps/web/src/api.ts:144-279 | Every event the browser may deliver keeps the session invariant. |
| PollSession.SettlesOnceWithFirstVerdict | apps/web/src/api.ts:202-251 | A session settles at most once, at the first thing heard that decides and as it decides; the polling network error comes exactly on the third failure with no ok response between; its fetches are aborted iff it timed out or was cancelled. |
| PollSession.NothingAfterSettling | apps/web/src/api.ts:173-184 | After settling there is no request, no timer and no second settlement. |
| PollSession.OneActivityAtATime | apps/web/src/api.ts:192-279 | While live, at most one of POST, GET and poll timer is under way. |
| PollSession.LiveSessionGoesOn | apps/web/src/api.ts:192-251 | In every run a live session does exactly what it heard last calls for: after a failed GET or a pending body a poll timer is due 2000 ms later, after an answer its body is read; it is never idle except after a body it could not read. |
| PollSession.FailuresAreForgiven | apps/web/src/api.ts:215-229 | From any live state waiting for a GET with fewer than three trailing failures, it can fail again up to two in a row, poll again two seconds later each time and still settle with the translation. |
| PollSession.FailedPollsAreRetried | apps/web/src/api.ts:215-229 | So a job whose first one or two GETs fail is still translated, with one more request and 2000 ms for each. |
| PollSession.SettlesInTime | apps/web/src/api.ts:186-190 | A session settles within the timeout, also when a body failed to parse. |
| PollSession.BoundedRequests | apps/web/src/api.ts:25-31 | One POST, then at most 61 GETs, all for the created job. |
| PollSession.BoundIsReached | apps/web/src/api.ts:25-31 | A job that stays pending is polled 61 times. |
| App.Page.HandleSwap | apps/web/src/App.tsx:308-325 | Bumps the number, cancels, carries a shown translation over, flips the direction and goes idle. |
| App.Page.HandleClear | apps/web/src/App.tsx:358-366 | Bumps the number, cancels, empties the input and goes idle. |
| App.Page.StartTranslate | apps/web/src/App.tsx:327-345 | A new number, a snapshot of text and direction, a session and a warming timer. |
| App.Page.Resume | apps/web/src/App.tsx:344-355 | A continuation shows its result or error only if its number is current, and clears its timer; which error is in `ShownErrorIsTheOutcome`. |
| App.Page.OnWarmingTimer | apps/web/src/App.tsx:338-342 | The warming notice appears only if the call that armed the timer is still current. |
| App.ShownSuccessIsTheCurrentRequests | apps/web/src/App.tsx:327-355 | In every run a shown success came from exactly its stored text and the displayed direction. |
| App.SpinnerIffUnanswered | apps/web/src/App.tsx:308-366 | Loading or warming is shown iff the request numbered by `requestIdRef` has not come back, warming only four seconds into it, and nothing is shown iff there is no such request. |
| App.ShownErrorIsTheOutcome | apps/web/src/App.tsx:202-215 | In every run an error is shown iff the current request came back without a translation, and by the status itself: server from 500 up, rate limited at 429, client otherwise, and timeout, lost job and network each for its own outcome; a cancellation is never shown. |
| App.AbandoningIsForGood | apps/web/src/App.tsx:308-366 | After a clear or a swap nothing is shown until the next translate, whatever abandoned calls still hear. |
| App.SwapSendsTheTranslationBack | apps/web/src/App.tsx:308-345 | In every run, swapping on a shown translation and translating again sends that translation in the other direction, with every earlier session cancelled. |
| App.OnlyTheCurrentSessionIsLive | apps/web/src/api.ts:130-168 | `currentSession` is the only live session, and it is the newest call's. |
| App.SpinnerEnds | apps/web/src/App.tsx:344-355 | Past the session's deadline the spinner's continuation can run and ends it. |
| EndToEnd.StepKeepsInv | apps/web/src/App.tsx:344-355 | Page and service steps in any order keep: each call polls a job made from its own request. |
| EndToEnd.AnswersAreToldApart | apps/web/src/App.tsx:202-215 | Across service, session and page, for every answer: only an unknown or expired job is reported as lost, only a pending answer or a translation is no error, and a failed job is reported by its own status: from 500 up, 429, or any other. |
| EndToEnd.ShownTranslationIsTheEndpointsAnswer | apps/api/app/worker_handler.py:55-69 | Across browser and Lambdas, a shown translation is the endpoint's answer to the shown text in the displayed direction. |
| EndToEnd.ShownFailureIsTheJobs | apps/api/app/failure_handler.py:54-68 | And an error shown for a failed job is, by its status, what the endpoint answered to the shown text in the displayed direction, or a 504 for a crash reported for that very job. |
| ReportUrl.EncodedTextIsReadBack | apps/web/src/App.tsx:103-110 | Parsing the encoded value and reading it as UTF-8 gives exactly the text's characters, lone surrogates as U+FFFD. |
| ReportUrl.EncodedTextIsSafe | apps/web/src/App.tsx:103-110 | An encoded text holds only plain characters, plus signs and upper-case percent escapes, so no text can end its parameter early. |
| ReportUrl.PlainTextIsKept | apps/web/src/App.tsx:103-110 | Letters, digits and `*-._` are encoded as themselves, and a space as a plus sign. |
| ReportUrl.EncodedLength | apps/web/src/App.tsx:103-110 | The encoded length is the sum of what each character costs. |
| ReportUrl.LongerPrefixCostsMore | apps/web/src/App.tsx:113-118 | One more code unit never shortens the encoding, also when it completes a surrogate pair. |
| ReportUrl.SearchBudget | apps/web/src/App.tsx:142-156 | The loop terminates with the result of the halving search, for any test. |
| ReportUrl.SearchBrackets | apps/web/src/App.tsx:142-156 | Without monotonicity: the result fits and the next budget does not. |
| ReportUrl.BudgetZeroFits | apps/web/src/App.tsx:142-156 | Budget 0 always fits. |
| ReportUrl.TemplatesAreSound | apps/web/src/App.tsx:56-110 | The page's own fixed texts meet what the general results ask of them. |
| ReportUrl.BodyIsLines | apps/web/src/App.tsx:65-101 | For any texts, what surrounds them is the report, line by line: the checked box, the headings, the source text under the input heading and the translation under the output heading. |
| ReportUrl.LinkOpensReport | apps/web/src/App.tsx:65-110 | The link is the new-issue address with template, label and title; nothing in it ends the body early, and the body decodes to those lines. |
| ReportUrl.ReportHasTwoPlateaus | apps/web/src/App.tsx:113-118 | Fitting is downward closed below the shorter text's length and again from there on. |
| ReportUrl.ChosenBudgetIsLargestIff | apps/web/src/App.tsx:129-156 | The chosen budget is the largest iff there is no step up at the shorter text's length, or the first budget probed between the last that fits before the step and the last that fits after it is past the step. |
| ReportUrl.ChosenBudgetIsNotAlwaysLargest | apps/web/src/App.tsx:125-131 | Two texts within the input limit whose link keeps less than it could. |
| ReportUrl.BuildTranslationReportUrl | apps/web/src/App.tsx:132-163 | The link has at most 8096 characters, carries everything when that fits and else is cut at the chosen budget; decoded, its body is the report with the direction's box checked and each text, whole or cut with the note, under its heading. |
| Normalize.TidyIsWords | ml/data/normalize.py:84 | Collapsing whitespace and stripping is the words joined by single spaces. |
| Normalize.NormalizeIsIdempotent | ml/data/normalize.py:68-84 | A normalised text is a fixed point, free of the look-alike mark and of whitespace but single inner spaces, with the composed text's words. |
| Corpus.ReadTsvPairs | ml/data/corpus_io.py:61-74 | The reading loop, with its error for the first malformed line. |
| Corpus.ReadFailsAtFirstMalformed | ml/data/corpus_io.py:63-71 | Reading fails iff a line that is not blank has other than two fields, and names the first such line and its count. |
| Corpus.RoundTripIff | ml/data/corpus_io.py:53-83 | What was written is read back iff no field holds a tab or line break and no line is blank. |
| Corpus.RewriteSettles | ml/data/corpus_io.py:53-83 | Writing and reading what was read changes nothing. |
| Corpus.DeduplicatePairs | ml/data/dedup.py:10-25 | The loop computes the deduplication. |
| Corpus.DedupKeepsFirstOccurrences | ml/data/dedup.py:10-25 | Deduplication keeps every pair once, in the order of first occurrence. |
| Corpus.FilterKeepsValid | ml/data/length_filter.py:43-48 | The filter keeps exactly the pairs of valid length. |
| Corpus.ValidLengthsIff | ml/data/length_filter.py:25-40 | Two lengths are valid iff both are positive, within the bounds, and neither exceeds the other by more than the ratio. |
| Corpus.DefaultLengthsIff | ml/data/length_filter.py:17-40 | With the defaults: 1 to 400 characters a side after stripping, neither more than four times the other. |
| Corpus.CleanPairsAre | ml/data/pipeline.py:25-36 | Cleaning keeps, once each, exactly the normalised pairs that pass the length filter. |
| Corpus.CleaningIsIdempotent | ml/data/pipeline.py:25-36 | Cleaning a cleaned corpus changes nothing. |
| Corpus.CleanedCorpusRoundTrips | ml/data/pipeline.py:39-46 | A cleaned corpus survives being written and read. |
| Corpus.RecleaningAFileSettles | ml/data/pipeline.py:39-46 | Cleaning a cleaned file writes the same text again. |
| BatchTranslation.GroupByTargetLang | ml/training/train.py:1162-1164 | Languages without repetition, each with exactly its examples' indices. |
| BatchTranslation.TranslateBatch | ml/training/train.py:1169-1190 | A batch fills exactly its own slots, each with its own example's translation. |
| BatchTranslation.TranslateGroup | ml/training/train.py:1168-1190 | The batches of a language fill exactly that language's slots. |
| BatchTranslation.GenerateTranslations | ml/training/train.py:1161-1193 | For any direction mix and positive batch size, in order and for each example, what the model answers to its text after its target's tag, less that tag, if it leads the answer, and the whitespace behind it; a zero size is a ValueError and a negative one an assertion failure, unless there are no examples. |
| BatchTranslation.TranslateIsTranslation | ml/training/train.py:1169-1190 | That is what the per-example map of the rows above computes, with the tags written out. |
| ModelCard.RenderModelCard | ml/evaluation/model_card.py:45-97 | The appends, the pop and the join produce the card with every label before its own value, the scores inside each direction's block, and each optional section iff there is something to put in it. |
| ModelCard.CardIsPrinted | ml/evaluation/model_card.py:45-97 | The lines the parser theorems speak about are that card. |
| ModelCard.OneDecimalShape | ml/evaluation/model_card.py:67-68 | A printed score is digits, a point and one more digit. |
| ModelCard.GroupedShape | ml/evaluation/model_card.py:54-55 | A printed count has a comma before every third digit from the right and only there. |
| ModelCard.ParseModelCardMetrics | ml/evaluation/model_card.py:118-128 | Each metric present is the number that the leftmost place holding its bold name, a colon, optional whitespace and a number holds; an absent one stands nowhere in the text. |
| ModelCard.SearchIsLeftmost | ml/evaluation/model_card.py:112-128 | That is what the search finds for any name and text. |
| ModelCard.SearchLabel | ml/evaluation/model_card.py:112-115 | A bold label matches iff it is the metric's name, or that name after one star, and a number follows; otherwise the search goes on behind it. |
| ModelCard.CardShape | ml/evaluation/model_card.py:47-97 | The card is its printed lines in order, each ended by a line feed. |
| ModelCard.SearchIsByLine | ml/evaluation/model_card.py:112-128 | No match reaches over the end of a printed line, whatever the lines hold: searching lines is searching each by itself. |
| ModelCard.MetricReadsAs | ml/evaluation/model_card.py:45-128 | On every card: what is read is what the lines above the combined score yield, and else that score; never a per-direction score. |
| ModelCard.CombinedIsReadIff | ml/evaluation/model_card.py:45-128 | On every card: the combined score is read iff the lines above it, each by itself, yield nothing or the same. |
| ModelCard.ParsedMetric | ml/evaluation/model_card.py:45-128 | Without adjacent stars above, what those lines yield is the first hyperparameter that reads as the metric. |
| ModelCard.ParsedScore | ml/evaluation/model_card.py:67-128 | When the combined score is read, the text read denotes it. |
| ModelCard.ValueOfGrouped | ml/evaluation/model_card.py:54-55 | A printed count denotes the count. |
| ModelCard.HyperparameterCanShadowMetric | ml/evaluation/model_card.py:60-67 | A hyperparameter named after the metric is read instead of it. |
| CardReading.ReadIsLeftmost | ml/evaluation/evaluate_checkpoint.py:438-504 | For any text, what is read is the word or digits at the leftmost dash, bold name and colon with whitespace where the pattern allows it, and nothing iff that stands nowhere. |
| CardReading.ReadIsByLine | ml/evaluation/evaluate_checkpoint.py:438-504 | Reading lines is reading each by itself with the next line's first word, whatever the lines hold. |
| CardReading.RecordedValueReadsAs | ml/evaluation/evaluate_checkpoint.py:438-504 | On every card that records a value: what is read is what the text above its line yields, and else the value. |
| CardReading.RecordedValueIsReadIff | ml/evaluation/evaluate_checkpoint.py:438-504 | So it is read back iff that text yields nothing or the same. |
| CardReading.AheadIsByLine | ml/evaluation/evaluate_checkpoint.py:438-504 | What that text yields can be checked line by line. |
| CardReading.NothingIsReadIff | ml/evaluation/evaluate_checkpoint.py:438-504 | On every card: nothing is read iff no line by itself, nor the notes, yields anything. |
| CardReading.RecordedValueIsReadBack | ml/evaluation/evaluate_checkpoint.py:438-504 | Without adjacent stars in any field above, nothing is read above a recorded value, so it is read back. |
| CardReading.UnrecordedValueIsNotRead | ml/evaluation/evaluate_checkpoint.py:438-504 | Without adjacent stars a value that was not recorded is not read, per-direction scores and notes included. |
| CardReading.ScopingIsReadBack | ml/training/train.py:185-212 | On every card the label, or its absence, passes to the next run and to the evaluator iff nothing else is read ahead of it; so on every card without adjacent stars. |
| CardReading.AddedCountIsReadBack | ml/evaluation/evaluate_checkpoint.py:473-482 | On every card the count read is the count recorded iff what is read above it, if anything, is that number. |
| CardReading.RunIdCanShadowRecord | ml/evaluation/evaluate_checkpoint.py:438-504 | A run id that continues with such a line is read instead of what is recorded. |

## Left out

* Floating point: rounding, NaN, infinities, dtypes and the label type of the clustering; rows and scores are exact reals.
* `build_ngram_vectors`, `cosine_similarities`, the random derangement, and the length-bias logits processor.
* The Gaussian noise and its seed: `ComposedEmbeddings.ResizeEmbeddingMatrixCompositional` takes the noise as a parameter, and its second result, which branch each token took, is not in the source.
* An embedding matrix without rows, whose mean is undefined; `resize_embedding_matrix` and `compositional_row_for_token`.
* How Hugging Face assigns ids to added tokens against padded embedding rows.
* SentencePiece: training produces an arbitrary set of pieces; decoding concatenates, turns markers into spaces and strips.
* TokenizerExtension.Tokenizer.ConvertTokensToString: models the wrapper around that decoder only, and the native decoder is stateless.
* Lineage: run texts are drawn from one unchanged corpus; whether a run's card can be read is a flag, and what is read of a readable one is in `CardReading`.
* CardReading: `\d` matches ASCII digits only, and `\s` what `Text.IsSpace` says.
* JobProtocol: job ids are fresh. Lambda retries are duplicates; one onFailure delivery follows each crash (one attempt and a failure destination in infra/cdk/lib/api-stack.ts). Log lines and the validation of submitted texts are not modelled, and parsing an id as a UUID is a boolean.
* PollSession: timers fire no later than they are due, so the bound is on the browser's own clock; a fetch rejects with an AbortError only after an abort. The job's text in the POST body belongs to `App`.
* App: rendering, focus, clipboard, announcements, the about view and unmounting; "Traducir" and "Reintentar" are enabled whenever nothing is being translated, which only adds runs.
* EndToEnd: page and service have separate clocks, and other clients are other `Create` events.
* ReportUrl.ChosenBudgetIsLargestIff: stated for any fixed texts of the page's shape; `ReportUrl.TemplatesAreSound` shows the page's own are such.
* Normalize: Unicode NFC is a parameter with the properties of `Normalize.StableNfc`; strings are Unicode scalars, so Python's lone surrogates are not modelled.
* Corpus: files, S3, encodings and the universal-newline translation of text mode; `is_valid_length` divides exactly.
* BatchTranslation: the model is a function of one tagged text and the target language, independent of its batch; unknown languages, truncation and devices are not modelled.
* ModelCard: scores are given in tenths, so rounding to one decimal is not modelled, and values are already strings.
* SageMaker, S3 and CDK code, command lines, and checkpoint averaging.
