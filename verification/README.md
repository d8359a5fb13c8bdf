# AIND-Recognizer: model selection and recognition, in Dafny

This project models the decision layer of the AIND-Recognizer sign-language
recogniser. The hidden Markov model trainer itself is treated as an opaque
collaborator. Two pieces are modelled:

- **Model selectors** (`my_model_selectors.py`). One selector per word
  chooses how many hidden states that word's Gaussian HMM gets:
  - `SelectorConstant` fits a fixed number of states.
  - `SelectorBIC` tries every n in `[min_n_components, max_n_components]`
    and scores each fit by `BIC = −2·logL + p·log N`, where
    `p = n² + 2·d·n − 1`.
  - `SelectorCV` scores each n by the mean held-out log-likelihood over
    k folds. With fewer than three sequences it fits and scores once on
    the word's whole data instead.
  - Every selector absorbs trainer failures: a candidate whose fit or score
    fails adds nothing. The BIC and CV selectors return the model of the
    first candidate with the largest score, or None when every candidate
    failed.
- **Recognizer** (`my_recognizer.py`). For each test item in order it
  records every word's log-likelihood, with −∞ when scoring fails. The
  guess is the first word with the largest value.

Files:

- `externals.dfy` (module `Externals`): the collaborators, as injected
  pure functions in a `Libraries<M>` record. These are hmmlearn's
  `GaussianHMM.fit` and `score`, sklearn's `KFold` split, `combine_sequences`
  and `np.log`. A call that raises in Python returns `None` here.
- `floats.dfy` (module `Floats`): the part of Python's float the code
  depends on. It has finite values, −∞ and the NaN of `np.mean([])`,
  Python's `>`, and `MaxIndex`, the scan by which `max(..., key=...)`
  picks the first largest element.
- `selection.dfy` (module `Selection`): the `n_state_scores` list both
  search selectors build, and their shared decision rule. Lemma
  `ChoiceIsFirstBest` proves that the pick is None exactly when every
  candidate failed, and is otherwise the first best candidate.
- `model_selectors.dfy` (module `ModelSelectors`): class `ModelSelector`
  with the selectors as methods:
  - `x` and `lengths` are mutable fields, because cross-validation
    overwrites them with each fold's training data.
  - A ghost log `fitRequests` records every fit asked of the trainer, so
    the contracts can say which fits each selector requests and in what
    order.
  - Each selection loop is proved against a specification function of its
    candidates (`BicCriterion`, `CvCriterion`).
- `recognizer.dfy` (module `Recognizer`): `Recognize` with its two nested
  loops, proved against the functions `Profile` (the per-item word →
  log-likelihood dict) and `Guess`.

Notes on orientation and on the code as written:

- **BIC is maximised.** `SelectorBIC`'s docstring promises the model with
  the lowest BIC (my_model_selectors.py:65), but the code keeps the largest
  (my_model_selectors.py:104). The model follows the code.
  `BicMaximisationFavoursMoreStates` states the consequence: between
  candidates of equal likelihood, the one with more states wins.
- **The NaN tuple is appended too.** With fewer than three sequences,
  `SelectorCV` appends the scored tuple and then, at line 156, a second
  tuple whose score is the mean of an empty list (NaN). The model
  appends both, although a one-score description of this path would not
  have the NaN tuple. `EntryPick` and `AppendNaNKeepsMaxIndex` prove that
  the NaN tuple never changes the pick.

## Model

| member | source | states |
|---|---|---|
| ModelSelectors.ModelSelector.constructor | my_model_selectors.py:16-29 | The word's sequences and its `(X, lengths)` are looked up by `this_word`, and every other field takes its argument. The defaults are 3, 2, 10, 14 and false. No fit has been requested yet. |
| ModelSelectors.ModelSelector.BaseModel | my_model_selectors.py:34-47 | Exactly one fit is requested, for `num_states` on the current `x`/`lengths`, with a diagonal covariance, 1000 iterations, the selector's seed and no verbosity. The result is the fitted model, or None when fitting fails; it never raises. |
| ModelSelectors.ModelSelector.SelectConstant | my_model_selectors.py:55-61 | Exactly one fit is requested, with `n_constant` states. The result is whatever that fit gives. |
| ModelSelectors.ParameterCount | my_model_selectors.py:93 | `p` is non-negative whenever n ≥ 1 and d ≥ 0. |
| ModelSelectors.ParameterCountIncreasing | my_model_selectors.py:93 | For a fixed d ≥ 0, `p` is strictly increasing in n. |
| ModelSelectors.BicCriterion | my_model_selectors.py:84-96 | A successful BIC candidate always has a finite score. |
| ModelSelectors.BicCandidateScore | my_model_selectors.py:83-99 | A candidate succeeds exactly when its fit and score succeed and X has a first row. Its tuple is then the fitted model with score `−2·logL + p·log N`, where N is the row count of X and d is the width of its first row. |
| ModelSelectors.BicMaximisationFavoursMoreStates | my_model_selectors.py:95-104 | When log N > 0, two candidates with equal logL have BIC values ordered by state count. So the selector's `max` favours the larger model, which is the opposite of the minimisation the docstring promises. |
| ModelSelectors.RangeFits | my_model_selectors.py:81-84 | Trying lo..hi requests one fit per n, in ascending order, all on the same data. |
| ModelSelectors.ModelSelector.SelectBic | my_model_selectors.py:79-104 | The result is None exactly when every candidate in the range failed. Otherwise it is the model of a candidate in the range whose BIC is at least every other success's, and strictly greater than every earlier success's. The requested fits are one per n, in ascending order, on the word's data, which is left unchanged. |
| ModelSelectors.ModelSelector.BestModel | my_model_selectors.py:101-104 | The result is None exactly for an empty list. Otherwise it is the model of the tuple `max` picks by score. When the first score is not NaN, that tuple's score is not NaN, is at least every non-NaN score, and is strictly greater than every non-NaN score before it. |
| Selection.ChoiceIsFirstBest | my_model_selectors.py:101-104 | For any candidate outcomes with finite scores, the pick from the appended list is None iff all failed. Otherwise it is the model of the first best candidate. |
| Selection.AppendedWinner | my_model_selectors.py:79-104 | The appended list is empty iff every candidate failed. Its first element has a finite score, and the element `max` picks is the tuple of a first best candidate. |
| Selection.EntryPick | my_model_selectors.py:146-156 | The NaN-scored copy appended after a candidate's tuple leaves `max`'s pick where the tuple alone put it. |
| Floats.MaxIndex | my_model_selectors.py:104 | The index `max` picks is within the list. |
| Floats.MaxIndexIsFirstMaximum | my_recognizer.py:38 | When the first key is not NaN, the element `max` picks has a non-NaN key. That key is at least every non-NaN key, and strictly greater than every non-NaN key before it. |
| Floats.AppendNaNKeepsMaxIndex | my_model_selectors.py:156 | Appending a NaN key never changes the element `max` picks. |
| ModelSelectors.FirstFailure | my_model_selectors.py:148-153 | The result is the first fold that fails for n, or the fold count when none fails. Every fold before it succeeds. |
| ModelSelectors.FoldScores | my_model_selectors.py:148-153 | `cv_scores` after k successful folds has k entries, each that fold's held-out log-likelihood. |
| ModelSelectors.LastAttempted | my_model_selectors.py:149-151 | The fold the loop last started is a valid fold index. Every fold before it succeeds, and it is either a failing fold or the last fold. |
| ModelSelectors.FoldFits | my_model_selectors.py:149-153 | The first k folds request k fits. Fit j is for n states, with the selector's seed, on the concatenated training sequences of fold j. |
| ModelSelectors.CvCriterion | my_model_selectors.py:139-156 | A successful cross-validation candidate always has a finite score. |
| ModelSelectors.CvCandidateNeedsEveryFold | my_model_selectors.py:148-156 | With three or more sequences, n succeeds iff every fold fits and scores. Its score is then the mean of the fold log-likelihoods, and its model is the last fold's. |
| ModelSelectors.CvFitsFewSequences | my_model_selectors.py:143-145 | With fewer than three sequences, cross-validation requests exactly the fits BIC does: one per n, in ascending order, on the word's data. |
| ModelSelectors.CvChoiceIsFirstBest | my_model_selectors.py:162-165 | The cross-validation pick is None iff every candidate failed. Otherwise it is the model of the first candidate with the largest mean held-out log-likelihood. |
| ModelSelectors.ModelSelector.SelectCv | my_model_selectors.py:129-165 | The result is None exactly when every candidate failed, and otherwise the first best candidate's model. It states the fits requested for every candidate. Afterwards `x`/`lengths` hold the training data of the last fold started, or are unchanged with fewer than three sequences. |
| ModelSelectors.ModelSelector.CvCandidate | my_model_selectors.py:139-160 | One iteration of the n loop appends candidate n's entry and requests its fits. It leaves `x`/`lengths` as the candidate's outcome dictates. |
| ModelSelectors.ModelSelector.FitAndScoreAll | my_model_selectors.py:141-156 | With fewer than three sequences, one fit is requested on the word's data. A success appends the scored tuple followed by its NaN-scored copy; a failure appends nothing. |
| ModelSelectors.ModelSelector.RunFold | my_model_selectors.py:149-153 | `x`/`lengths` become the fold's training data and one fit is requested on it. The outcome is the held-out log-likelihood and model, or None when either step fails. |
| ModelSelectors.ModelSelector.CrossValidate | my_model_selectors.py:148-156 | The fold loop stops at the first failing fold and then appends nothing. Otherwise it appends the mean fold score with the last fold's model. One fit is requested per fold started, and `x`/`lengths` keep the last started fold's training data. |
| Recognizer.WordLogL | my_recognizer.py:32-35 | A word's recorded value is never NaN. It is finite iff the word has a model and scoring succeeds, and then it equals the score; otherwise it is −∞. |
| Recognizer.Profile | my_recognizer.py:28-35 | The profile's key set is exactly the model table's word set, whatever scoring fails. |
| Recognizer.ProfileRecordsEveryWord | my_recognizer.py:30-35 | Each word's profile entry is its own model's value, whatever the other words' models do. |
| Recognizer.GuessIsFirstBestWord | my_recognizer.py:38 | The guess is a key of the profile whose value is at least every value. No earlier word in the table has a value as large. If any word scored finitely, the guess did too. |
| Recognizer.Recognize | my_recognizer.py:5-41 | Both lists have one entry per test item, in item order. Entry t is that item's profile and that item's guess. |

## Left out

- SelectCv: the model requires KFold to yield at least one fold for three or more sequences. This holds with scikit-learn releases before 0.22, whose default is three splits. From 0.22 the default is five splits. Then `split` raises for a word with three or four sequences, the `except` catches it for every n, and SelectorCV returns None. That raising split is not modelled.
- KFold's shuffling and split count are not modelled: the folds are an injected function of the sequence count and the seed, the same list for every n.
- GaussianHMM fitting and scoring (Baum–Welch) are not modelled: they are opaque partial functions, and a raise becomes None.
- `combine_sequences` and `np.log` are injected pure functions (`asl_utils` is not part of this model).
- Floating point is not modelled beyond −∞ and NaN:
  - scores are exact reals;
  - a NaN or infinite value returned by the trainer's score is not represented;
  - `np.mean` is the exact mean.
- `SelectorDIC.select` is left out: it only raises `NotImplementedError`.
- `warnings.filterwarnings`, the `print` diagnostics and the `verbose` messages are left out, because they do not affect results.
- `SinglesData` accessors are left out (`asl_data` is not part of this model): the test set is the sequence of its items' `(X, lengths)` pairs.
- ModelSelectors.ModelSelector.constructor: the `KeyError` for a word missing from either dict is a precondition rather than a raise.
- Recognize: `max` over an empty profile raises, so the model table is required to be non-empty whenever there are test items. The table's values are `Option`s, and a missing model (None) records −∞, as the caught `AttributeError` does.
