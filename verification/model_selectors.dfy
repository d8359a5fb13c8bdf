/** The model-selection strategies for one word: the constant baseline, the
    Bayesian information criterion and cross-validation. Each asks the
    trainer for candidate models of some numbers of hidden states and keeps
    one, or none when every candidate failed. */
module ModelSelectors {
  import opened Externals
  import opened Floats
  import opened Selection

  /* ---------- The Bayesian information criterion of one candidate ---------- */

  /** The free-parameter count p = n² + 2·d·n − 1 of an n-state model over
      d-dimensional features. */
  function ParameterCount(n: int, d: int): (p: int)
    ensures n >= 1 && d >= 0 ==> p >= 0
  {
    n * n + 2 * d * n - 1
  }

  /** More states means more free parameters. */
  lemma ParameterCountIncreasing(n: int, m: int, d: int)
    requires 0 <= n < m && d >= 0
    ensures ParameterCount(n, d) < ParameterCount(m, d)
  {
    assert m * m - n * n == (m - n) * (m + n);
    assert (m - n) * (m + n) > 0;
    assert 2 * d * m - 2 * d * n == 2 * d * (m - n) >= 0;
  }

  /** BIC = −2·logL + p·log N. */
  function Bic(logL: real, p: int, logN: real): (bic: real)
  {
    -2.0 * logL + (p as real) * logN
  }

  /** Candidate n of the BIC selector on `data`: it fails when fitting or
      scoring fails or when X has no first row to take d from; otherwise its
      score is the BIC with N the number of rows of X and d the length of
      the first row. */
  function BicCriterion<M>(lib: Libraries<M>, randomState: int, data: Observations, n: int): (r: Option<Scored<M>>)
    ensures r.Some? ==> r.value.key.Fin?
  {
    match Fit(lib, data, n, randomState)
    case None => None
    case Some(model) =>
      match lib.score(model, data)
      case None => None
      case Some(logL) =>
        if |data.x| == 0 then None
        else Some(Scored(Fin(Bic(logL, ParameterCount(n, |data.x[0]|), lib.log(|data.x|))), model))
  }

  /** Candidate n of the BIC selector succeeds exactly when its fit and its
      score succeed on a non-empty X; it then carries the fitted model and
      the score −2·logL + p·log N for n states, d the width of the first row
      of X and N its number of rows. */
  lemma BicCandidateScore<M>(lib: Libraries<M>, randomState: int, data: Observations, n: int)
    ensures var r, m := BicCriterion(lib, randomState, data, n), Fit(lib, data, n, randomState);
      && (r.Some? <==> m.Some? && lib.score(m.value, data).Some? && |data.x| > 0)
      && (r.Some? ==>
            && r.value.model == m.value
            && r.value.key == Fin(Bic(lib.score(m.value, data).value, ParameterCount(n, |data.x[0]|), lib.log(|data.x|))))
  {
  }

  function BicCriteria<M>(lib: Libraries<M>, randomState: int, data: Observations): (crit: int -> Option<Scored<M>>)
    ensures forall n :: crit(n) == BicCriterion(lib, randomState, data, n)
  {
    n => BicCriterion(lib, randomState, data, n)
  }

  /** The selector keeps the LARGEST BIC although the criterion is meant to
      be minimised: between two candidates that fit the data equally well,
      the penalty term makes the one with more states win whenever log N is
      positive. */
  lemma BicMaximisationFavoursMoreStates(logL: real, n: int, m: int, d: int, logN: real)
    requires 1 <= n < m && d >= 0 && logN > 0.0
    ensures Bic(logL, ParameterCount(n, d), logN) < Bic(logL, ParameterCount(m, d), logN)
  {
    ParameterCountIncreasing(n, m, d);
    var pn, pm := ParameterCount(n, d) as real, ParameterCount(m, d) as real;
    assert pn < pm;
    assert pn * logN < pm * logN;
  }

  /** The fits requested by trying each n in lo..hi once on `data`. */
  function RangeFits(randomState: int, data: Observations, lo: int, hi: int): (r: seq<(HmmConfig, Observations)>)
    ensures |r| == if hi < lo then 0 else hi - lo + 1
    ensures forall i :: 0 <= i < |r| ==> r[i] == (HmmFor(lo + i, randomState), data)
    decreases hi - lo
  {
    if hi < lo then [] else RangeFits(randomState, data, lo, hi - 1) + [(HmmFor(hi, randomState), data)]
  }

  /* ---------- Cross-validation of one candidate ---------- */

  /** Fold j for n states: fit on the concatenated training sequences,
      score on the concatenated held-out ones; the log-likelihood and the
      model, or None when either step fails. */
  function FoldOutcome<M>(lib: Libraries<M>, randomState: int, sequences: seq<Sequence>, folds: seq<Fold>, j: int, n: int)
    : (outcome: Option<(real, M)>)
    requires 0 <= j < |folds|
  {
    match Fit(lib, lib.combine(folds[j].train, sequences), n, randomState)
    case None => None
    case Some(model) =>
      match lib.score(model, lib.combine(folds[j].test, sequences))
      case None => None
      case Some(logL) => Some((logL, model))
  }

  /** The index of the first fold from `from` on that fails for n states,
      or |folds|. */
  function FirstFailure<M>(lib: Libraries<M>, randomState: int, sequences: seq<Sequence>, folds: seq<Fold>, n: int,
                           from: nat := 0): (k: nat)
    requires from <= |folds|
    ensures from <= k <= |folds|
    ensures forall j :: from <= j < k ==> FoldOutcome(lib, randomState, sequences, folds, j, n).Some?
    ensures k < |folds| ==> FoldOutcome(lib, randomState, sequences, folds, k, n).None?
    decreases |folds| - from
  {
    if from == |folds| then from
    else if FoldOutcome(lib, randomState, sequences, folds, from, n).None? then from
    else FirstFailure(lib, randomState, sequences, folds, n, from + 1)
  }

  /** The held-out log-likelihoods of the first k folds, in fold order. */
  function FoldScores<M>(lib: Libraries<M>, randomState: int, sequences: seq<Sequence>, folds: seq<Fold>, n: int, k: nat)
    : (s: seq<real>)
    requires k <= |folds|
    requires forall j :: 0 <= j < k ==> FoldOutcome(lib, randomState, sequences, folds, j, n).Some?
    ensures |s| == k
    ensures forall j :: 0 <= j < k ==> s[j] == FoldOutcome(lib, randomState, sequences, folds, j, n).value.0
  {
    if k == 0 then []
    else FoldScores(lib, randomState, sequences, folds, n, k - 1) + [FoldOutcome(lib, randomState, sequences, folds, k - 1, n).value.0]
  }

  /** The fold the loop for n states last started: the first failing one,
      or the last one when none fails. */
  function LastAttempted<M>(lib: Libraries<M>, randomState: int, sequences: seq<Sequence>, folds: seq<Fold>, n: int): (k: nat)
    requires |folds| > 0
    ensures k < |folds|
    ensures forall j :: 0 <= j < k ==> FoldOutcome(lib, randomState, sequences, folds, j, n).Some?
    ensures FoldOutcome(lib, randomState, sequences, folds, k, n).None? || k == |folds| - 1
  {
    var f := FirstFailure(lib, randomState, sequences, folds, n);
    if f < |folds| then f else |folds| - 1
  }

  /** The training data of the last fold started for n states, which the
      fold loop leaves in `x`/`lengths`. */
  function LastTrainingData<M>(lib: Libraries<M>, randomState: int, sequences: seq<Sequence>, folds: seq<Fold>, n: int)
    : (train: Observations)
    requires |folds| > 0
  {
    lib.combine(folds[LastAttempted(lib, randomState, sequences, folds, n)].train, sequences)
  }

  /** Candidate n of the cross-validation selector. With fewer than three
      sequences: one fit and one score, both on `data`. Otherwise: it fails
      when any fold fails; its score is the mean held-out log-likelihood and
      its model the last fold's. */
  function CvCriterion<M>(lib: Libraries<M>, randomState: int, sequences: seq<Sequence>, data: Observations,
                          folds: seq<Fold>, n: int): (r: Option<Scored<M>>)
    ensures r.Some? ==> r.value.key.Fin?
  {
    if |sequences| < 3 then
      match Fit(lib, data, n, randomState)
      case None => None
      case Some(model) =>
        match lib.score(model, data)
        case None => None
        case Some(logL) => Some(Scored(Fin(logL), model))
    else if |folds| == 0 || FirstFailure(lib, randomState, sequences, folds, n) < |folds| then None
    else
      Some(Scored(Fin(Mean(FoldScores(lib, randomState, sequences, folds, n, |folds|))),
                  FoldOutcome(lib, randomState, sequences, folds, |folds| - 1, n).value.1))
  }

  function CvCriteria<M>(lib: Libraries<M>, randomState: int, sequences: seq<Sequence>, data: Observations,
                         folds: seq<Fold>): (crit: int -> Option<Scored<M>>)
    ensures forall n :: crit(n) == CvCriterion(lib, randomState, sequences, data, folds, n)
  {
    n => CvCriterion(lib, randomState, sequences, data, folds, n)
  }

  /** The cross-validation selector's decision over the candidates lo..hi:
      no model exactly when every candidate fails, otherwise the model of
      the first candidate with the largest mean held-out log-likelihood. */
  lemma CvChoiceIsFirstBest<M>(lib: Libraries<M>, randomState: int, sequences: seq<Sequence>, data: Observations,
                               folds: seq<Fold>, lo: int, hi: int)
    ensures var r := PickModel(Appended(CvCriteria(lib, randomState, sequences, data, folds), lo, hi, |sequences| < 3));
      && (r.None? <==> forall n :: lo <= n <= hi ==> CvCriterion(lib, randomState, sequences, data, folds, n).None?)
      && (r.Some? ==> exists n ::
            && IsFirstBest(CvCriteria(lib, randomState, sequences, data, folds), lo, hi, n)
            && r.value == CvCriterion(lib, randomState, sequences, data, folds, n).value.model)
  {
    ChoiceIsFirstBest(CvCriteria(lib, randomState, sequences, data, folds), lo, hi, |sequences| < 3);
  }

  /** With three or more sequences, candidate n succeeds exactly when every
      fold fits and scores; its score is then the mean of the fold scores
      and its model the model fitted on the last fold. */
  lemma CvCandidateNeedsEveryFold<M>(lib: Libraries<M>, randomState: int, sequences: seq<Sequence>, data: Observations,
                                     folds: seq<Fold>, n: int)
    requires |sequences| >= 3 && |folds| > 0
    ensures var r := CvCriterion(lib, randomState, sequences, data, folds, n);
      && (r.Some? <==> forall j :: 0 <= j < |folds| ==> FoldOutcome(lib, randomState, sequences, folds, j, n).Some?)
      && (r.Some? ==>
            && r.value.model == FoldOutcome(lib, randomState, sequences, folds, |folds| - 1, n).value.1
            && exists scores: seq<real> ::
                 && |scores| == |folds|
                 && (forall j :: 0 <= j < |folds| ==> scores[j] == FoldOutcome(lib, randomState, sequences, folds, j, n).value.0)
                 && r.value.key == Fin(Mean(scores)))
  {
    var r := CvCriterion(lib, randomState, sequences, data, folds, n);
    if r.Some? {
      var scores := FoldScores(lib, randomState, sequences, folds, n, |folds|);
      assert r.value.key == Fin(Mean(scores));
    }
  }

  /** The fits the first k folds request for n states. */
  function FoldFits<M>(lib: Libraries<M>, randomState: int, sequences: seq<Sequence>, folds: seq<Fold>, n: int, k: nat)
    : (r: seq<(HmmConfig, Observations)>)
    requires k <= |folds|
    ensures |r| == k
    ensures forall j :: 0 <= j < k ==> r[j] == (HmmFor(n, randomState), lib.combine(folds[j].train, sequences))
  {
    if k == 0 then []
    else FoldFits(lib, randomState, sequences, folds, n, k - 1) + [(HmmFor(n, randomState), lib.combine(folds[k - 1].train, sequences))]
  }

  /** The fits candidate n of the cross-validation selector requests: one
      on `data` with fewer than three sequences, otherwise one per fold up
      to and including the first failing fold. */
  function CandidateFits<M>(lib: Libraries<M>, randomState: int, sequences: seq<Sequence>, data: Observations,
                            folds: seq<Fold>, n: int): (fits: seq<(HmmConfig, Observations)>)
    requires |sequences| >= 3 ==> |folds| > 0
  {
    if |sequences| < 3 then [(HmmFor(n, randomState), data)]
    else FoldFits(lib, randomState, sequences, folds, n, LastAttempted(lib, randomState, sequences, folds, n) + 1)
  }

  /** `x`/`lengths` once candidate n is through: still `data` with fewer
      than three sequences, otherwise the training data of the last fold it
      started. */
  function DataAfter<M>(lib: Libraries<M>, randomState: int, sequences: seq<Sequence>, data: Observations,
                        folds: seq<Fold>, n: int): (after: Observations)
    requires |sequences| >= 3 ==> |folds| > 0
  {
    if |sequences| < 3 then data else LastTrainingData(lib, randomState, sequences, folds, n)
  }

  /** The fits requested by the cross-validation selector for the candidates
      lo..hi, in order. */
  function CvFits<M>(lib: Libraries<M>, randomState: int, sequences: seq<Sequence>, data: Observations,
                     folds: seq<Fold>, lo: int, hi: int): (fits: seq<(HmmConfig, Observations)>)
    requires |sequences| >= 3 ==> |folds| > 0
    decreases hi - lo
  {
    if hi < lo then []
    else CvFits(lib, randomState, sequences, data, folds, lo, hi - 1) + CandidateFits(lib, randomState, sequences, data, folds, hi)
  }

  /** With fewer than three sequences the cross-validation selector asks
      for exactly the fits the BIC selector asks for: each n once, on the
      word's own data. */
  lemma {:induction false} CvFitsFewSequences<M>(lib: Libraries<M>, randomState: int, sequences: seq<Sequence>,
                                                 data: Observations, folds: seq<Fold>, lo: int, hi: int)
    requires |sequences| < 3
    ensures CvFits(lib, randomState, sequences, data, folds, lo, hi) == RangeFits(randomState, data, lo, hi)
    decreases hi - lo
  {
    if lo <= hi {
      CvFitsFewSequences(lib, randomState, sequences, data, folds, lo, hi - 1);
    }
  }

  /** Where the cross-validation selector's loop stands once the candidates
      lo..n−1 are through, having started on `data` with the fit log
      `fits`: the tuples appended, the fit log and `x`/`lengths` now. */
  ghost predicate CvProgress<M>(lib: Libraries<M>, randomState: int, sequences: seq<Sequence>, data: Observations,
                                folds: seq<Fold>, lo: int, fits: seq<(HmmConfig, Observations)>, n: int,
                                scores: seq<Scored<M>>, fitsNow: seq<(HmmConfig, Observations)>, dataNow: Observations)
    requires |sequences| >= 3 ==> |folds| > 0
  {
    && scores == Appended(CvCriteria(lib, randomState, sequences, data, folds), lo, n - 1, |sequences| < 3)
    && fitsNow == fits + CvFits(lib, randomState, sequences, data, folds, lo, n - 1)
    && dataNow == if n <= lo then data else DataAfter(lib, randomState, sequences, data, folds, n - 1)
  }

  /** One more candidate: appending its entry, its fits and moving to the
      data it leaves behind keeps the loop's bookkeeping. */
  lemma CvProgressStep<M>(lib: Libraries<M>, randomState: int, sequences: seq<Sequence>, data: Observations,
                          folds: seq<Fold>, lo: int, fits: seq<(HmmConfig, Observations)>, n: int,
                          scores: seq<Scored<M>>, fitsNow: seq<(HmmConfig, Observations)>, dataNow: Observations,
                          scores': seq<Scored<M>>, fitsNow': seq<(HmmConfig, Observations)>, dataNow': Observations)
    requires lo <= n && (|sequences| >= 3 ==> |folds| > 0)
    requires CvProgress(lib, randomState, sequences, data, folds, lo, fits, n, scores, fitsNow, dataNow)
    requires scores' == scores + Entry(CvCriterion(lib, randomState, sequences, data, folds, n), |sequences| < 3)
    requires fitsNow' == fitsNow + CandidateFits(lib, randomState, sequences, data, folds, n)
    requires dataNow' == DataAfter(lib, randomState, sequences, data, folds, n)
    ensures CvProgress(lib, randomState, sequences, data, folds, lo, fits, n + 1, scores', fitsNow', dataNow')
    ensures |sequences| < 3 ==> dataNow' == data
  {
    AppendAssociative(fits, CvFits(lib, randomState, sequences, data, folds, lo, n - 1),
                      CandidateFits(lib, randomState, sequences, data, folds, n));
  }

  lemma AppendAssociative<T>(a: seq<T>, b: seq<T>, c: seq<T>)
    ensures (a + b) + c == a + (b + c)
  {
  }

  /* ---------- The selector object ---------- */

  /** A selector for one word. `x` and `lengths` start as the word's
      concatenated observations; cross-validation overwrites them with each
      fold's training data. */
  class ModelSelector<M> {
    const lib: Libraries<M>
    const words: map<string, seq<Sequence>>
    const hwords: map<string, Observations>
    const sequences: seq<Sequence>
    var x: seq<Frame>
    var lengths: seq<nat>
    const thisWord: string
    const nConstant: int
    const minNComponents: int
    const maxNComponents: int
    const randomState: int
    const verbose: bool
    /** Every fit asked of the trainer so far, in order: the configuration
        and the data it was asked to fit. */
    ghost var fitRequests: seq<(HmmConfig, Observations)>

    function Data(): (d: Observations)
      reads this
    {
      Observations(x, lengths)
    }

    /** The folds KFold, seeded with the selector's random state, gives for
        this word's sequences; the same list on every call. */
    function Folds(): (folds: seq<Fold>)
    {
      lib.kFoldSplit(|sequences|, randomState)
    }

    constructor (lib: Libraries<M>, allWordSequences: map<string, seq<Sequence>>,
                 allWordXlengths: map<string, Observations>, thisWord: string,
                 nConstant: int := 3, minNComponents: int := 2, maxNComponents: int := 10,
                 randomState: int := 14, verbose: bool := false)
      requires thisWord in allWordSequences && thisWord in allWordXlengths
      ensures this.lib == lib && words == allWordSequences && hwords == allWordXlengths
      ensures sequences == allWordSequences[thisWord] && Data() == allWordXlengths[thisWord]
      ensures this.thisWord == thisWord && this.nConstant == nConstant
      ensures this.minNComponents == minNComponents && this.maxNComponents == maxNComponents
      ensures this.randomState == randomState && this.verbose == verbose
      ensures fitRequests == []
    {
      this.lib := lib;
      words := allWordSequences;
      hwords := allWordXlengths;
      sequences := allWordSequences[thisWord];
      x, lengths := allWordXlengths[thisWord].x, allWordXlengths[thisWord].lengths;
      this.thisWord := thisWord;
      this.nConstant := nConstant;
      this.minNComponents := minNComponents;
      this.maxNComponents := maxNComponents;
      this.randomState := randomState;
      this.verbose := verbose;
      fitRequests := [];
    }

    /** Fits a `numStates`-state model to the current `x`/`lengths`; a
        failing fit gives None instead of raising. */
    method BaseModel(numStates: int) returns (r: Option<M>)
      modifies this`fitRequests
      ensures r == Fit(lib, Data(), numStates, randomState)
      ensures fitRequests == old(fitRequests) + [(HmmFor(numStates, randomState), Data())]
    {
      fitRequests := fitRequests + [(HmmFor(numStates, randomState), Data())];
      r := lib.fit(HmmFor(numStates, randomState), Data());
    }

    /** The baseline: exactly one fit, with `nConstant` states. */
    method SelectConstant() returns (r: Option<M>)
      modifies this`fitRequests
      ensures r == Fit(lib, Data(), nConstant, randomState)
      ensures fitRequests == old(fitRequests) + [(HmmFor(nConstant, randomState), Data())]
    {
      var bestNumComponents := nConstant;
      r := BaseModel(bestNumComponents);
    }

    /** Tries every n from `minNComponents` to `maxNComponents` in ascending
        order and keeps the model of the first candidate with the largest
        BIC; None when every candidate failed. */
    method SelectBic() returns (r: Option<M>)
      modifies this`fitRequests
      ensures r == PickModel(Appended(BicCriteria(lib, randomState, Data()), minNComponents, maxNComponents, false))
      ensures r.None? <==>
        forall n :: minNComponents <= n <= maxNComponents ==> BicCriterion(lib, randomState, Data(), n).None?
      ensures r.Some? ==> exists n ::
        && IsFirstBest(BicCriteria(lib, randomState, Data()), minNComponents, maxNComponents, n)
        && r.value == BicCriterion(lib, randomState, Data(), n).value.model
      ensures fitRequests == old(fitRequests) + RangeFits(randomState, Data(), minNComponents, maxNComponents)
    {
      ghost var data := Data();
      ghost var crit := BicCriteria(lib, randomState, data);
      var nStateScores: seq<Scored<M>> := [];
      var nStates := minNComponents;
      while nStates <= maxNComponents
        invariant minNComponents <= nStates <= if minNComponents <= maxNComponents then maxNComponents + 1 else minNComponents
        invariant Data() == data
        invariant nStateScores == Appended(crit, minNComponents, nStates - 1, false)
        invariant fitRequests == old(fitRequests) + RangeFits(randomState, data, minNComponents, nStates - 1)
      {
        ghost var scoresBefore := nStateScores;
        var model := BaseModel(nStates);
        if model.Some? {
          var logL := lib.score(model.value, Data());
          // X[0] raises on an empty X, which drops the candidate
          if logL.Some? && |x| > 0 {
            var nRows := |x|;
            var p := ParameterCount(nStates, |x[0]|);
            var bic := Bic(logL.value, p, lib.log(nRows));
            nStateScores := nStateScores + [Scored(Fin(bic), model.value)];
          }
        }
        assert nStateScores == scoresBefore + Entry(BicCriterion(lib, randomState, data, nStates), false);
        AppendAssociative(old(fitRequests), RangeFits(randomState, data, minNComponents, nStates - 1),
                          [(HmmFor(nStates, randomState), data)]);
        nStates := nStates + 1;
      }
      r := BestModel(nStateScores);
      ChoiceIsFirstBest(crit, minNComponents, maxNComponents, false);
    }

    /** The common tail of the BIC and cross-validation selectors: None for
        an empty list, else the model of the tuple `max` picks by score.
        When the list starts with a real score, that tuple has a best score
        of the list, beaten by none of the real scores, and no tuple before
        it scores as high; NaN-scored tuples never win. */
    method BestModel(nStateScores: seq<Scored<M>>) returns (r: Option<M>)
      ensures r.None? <==> nStateScores == []
      ensures r.Some? ==> r.value == nStateScores[MaxIndex(Keys(nStateScores))].model
      ensures nStateScores != [] && nStateScores[0].key != NaN ==>
        var best := MaxIndex(Keys(nStateScores));
        && nStateScores[best].key != NaN
        && (forall j :: 0 <= j < |nStateScores| && nStateScores[j].key != NaN ==>
              Ge(nStateScores[best].key, nStateScores[j].key))
        && (forall j :: 0 <= j < best && nStateScores[j].key != NaN ==>
              Gt(nStateScores[best].key, nStateScores[j].key))
    {
      if |nStateScores| == 0 {
        return None;
      }
      var keys := Keys(nStateScores);
      if keys[0] != NaN {
        MaxIndexIsFirstMaximum(keys);
      }
      r := Some(nStateScores[MaxIndex(keys)].model);
    }

    /** Cross-validates every n from `minNComponents` to `maxNComponents`
        and keeps the model of the first candidate with the largest mean
        held-out log-likelihood; None when every candidate failed. With
        three or more sequences `x`/`lengths` end up holding the training
        data of the last fold started. */
    method SelectCv() returns (r: Option<M>)
      requires |sequences| >= 3 ==> |Folds()| > 0
      modifies this
      ensures r == PickModel(Appended(CvCriteria(lib, randomState, sequences, old(Data()), Folds()),
                                      minNComponents, maxNComponents, |sequences| < 3))
      ensures r.None? <==> forall n :: minNComponents <= n <= maxNComponents ==>
        CvCriterion(lib, randomState, sequences, old(Data()), Folds(), n).None?
      ensures r.Some? ==> exists n ::
        && IsFirstBest(CvCriteria(lib, randomState, sequences, old(Data()), Folds()), minNComponents, maxNComponents, n)
        && r.value == CvCriterion(lib, randomState, sequences, old(Data()), Folds(), n).value.model
      ensures fitRequests == old(fitRequests) + CvFits(lib, randomState, sequences, old(Data()), Folds(),
                                                        minNComponents, maxNComponents)
      ensures Data() == if maxNComponents < minNComponents then old(Data())
                        else DataAfter(lib, randomState, sequences, old(Data()), Folds(), maxNComponents)
    {
      var folds := lib.kFoldSplit(|sequences|, randomState);
      ghost var data0 := Data();
      ghost var crit := CvCriteria(lib, randomState, sequences, data0, folds);
      var nStateScores: seq<Scored<M>> := [];
      var nStates := minNComponents;
      while nStates <= maxNComponents
        invariant minNComponents <= nStates <= if minNComponents <= maxNComponents then maxNComponents + 1 else minNComponents
        invariant nStateScores == Appended(crit, minNComponents, nStates - 1, |sequences| < 3)
        invariant fitRequests == old(fitRequests) + CvFits(lib, randomState, sequences, data0, folds, minNComponents, nStates - 1)
        invariant Data() == if nStates <= minNComponents then data0 else DataAfter(lib, randomState, sequences, data0, folds, nStates - 1)
      {
        ghost var scoresBefore, fitsBefore, dataBefore := nStateScores, fitRequests, Data();
        nStateScores := CvCandidate(folds, nStates, nStateScores, data0, crit);
        CvProgressStep(lib, randomState, sequences, data0, folds, minNComponents, old(fitRequests), nStates,
                       scoresBefore, fitsBefore, dataBefore, nStateScores, fitRequests, Data());
        nStates := nStates + 1;
      }
      assert folds == Folds() && data0 == old(Data());
      if minNComponents <= maxNComponents {
        assert nStates - 1 == maxNComponents;
      } else {
        assert nStateScores == [] == Appended(crit, minNComponents, maxNComponents, |sequences| < 3);
        assert CvFits(lib, randomState, sequences, data0, folds, minNComponents, nStates - 1) == []
            == CvFits(lib, randomState, sequences, data0, folds, minNComponents, maxNComponents);
      }
      r := BestModel(nStateScores);
      CvChoiceIsFirstBest(lib, randomState, sequences, data0, folds, minNComponents, maxNComponents);
    }

    /** One pass of the cross-validation selector's loop: candidate n
        appends its tuple (and, with fewer than three sequences, the NaN
        tuple after it) when it succeeds, and nothing when it fails. */
    method CvCandidate(folds: seq<Fold>, nStates: int, nStateScores: seq<Scored<M>>,
                       ghost data: Observations, ghost crit: int -> Option<Scored<M>>)
      returns (scores: seq<Scored<M>>)
      requires folds == Folds() && (|sequences| >= 3 ==> |folds| > 0)
      requires |sequences| < 3 ==> Data() == data
      requires crit(nStates) == CvCriterion(lib, randomState, sequences, data, folds, nStates)
      modifies this
      ensures scores == nStateScores + Entry(crit(nStates), |sequences| < 3)
      ensures fitRequests == old(fitRequests) + CandidateFits(lib, randomState, sequences, data, folds, nStates)
      ensures Data() == DataAfter(lib, randomState, sequences, data, folds, nStates)
    {
      if |sequences| < 3 {
        scores := FitAndScoreAll(folds, nStates, nStateScores, crit);
      } else {
        scores := CrossValidate(folds, nStates, nStateScores, data, crit);
      }
    }

    /** Candidate n with fewer than three sequences: one fit and one score,
        both on the word's own `x`/`lengths`. The list of fold scores stays
        empty, so the tuple appended after the scored one carries its NaN
        mean. */
    method FitAndScoreAll(folds: seq<Fold>, nStates: int, nStateScores: seq<Scored<M>>,
                          ghost crit: int -> Option<Scored<M>>)
      returns (scores: seq<Scored<M>>)
      requires |sequences| < 3
      requires crit(nStates) == CvCriterion(lib, randomState, sequences, Data(), folds, nStates)
      modifies this`fitRequests
      ensures scores == nStateScores + Entry(crit(nStates), true)
      ensures fitRequests == old(fitRequests) + [(HmmFor(nStates, randomState), Data())]
    {
      scores := nStateScores;
      var model := BaseModel(nStates);
      if model.Some? {
        var logL := lib.score(model.value, Data());
        if logL.Some? {
          scores := scores + [Scored(Fin(logL.value), model.value)];
          scores := scores + [Scored(NaN, model.value)];
        }
      }
    }

    /** Fold k for n states: `x`/`lengths` become the fold's training data,
        a model is fitted to them and scored on the held-out sequences; the
        log-likelihood and the model, or None when either step fails. */
    method RunFold(folds: seq<Fold>, k: int, nStates: int) returns (outcome: Option<(real, M)>)
      requires 0 <= k < |folds|
      modifies this
      ensures outcome == FoldOutcome(lib, randomState, sequences, folds, k, nStates)
      ensures Data() == lib.combine(folds[k].train, sequences)
      ensures fitRequests == old(fitRequests) + [(HmmFor(nStates, randomState), Data())]
    {
      var train := lib.combine(folds[k].train, sequences);
      x, lengths := train.x, train.lengths;
      var test := lib.combine(folds[k].test, sequences);
      var m := BaseModel(nStates);
      if m.None? {
        return None;
      }
      var logL := lib.score(m.value, test);
      if logL.None? {
        return None;
      }
      outcome := Some((logL.value, m.value));
    }

    /** The fold loop for one n: each fold first overwrites `x`/`lengths`
        with its training data, then fits and scores; the first failure
        abandons n, which then appends nothing. */
    method CrossValidate(folds: seq<Fold>, nStates: int, nStateScores: seq<Scored<M>>,
                         ghost data: Observations, ghost crit: int -> Option<Scored<M>>)
      returns (scores: seq<Scored<M>>)
      requires |sequences| >= 3 && folds == Folds() && |folds| > 0
      requires crit(nStates) == CvCriterion(lib, randomState, sequences, data, folds, nStates)
      modifies this
      ensures scores == nStateScores + Entry(crit(nStates), false)
      ensures fitRequests == old(fitRequests) + FoldFits(lib, randomState, sequences, folds, nStates,
                                                          LastAttempted(lib, randomState, sequences, folds, nStates) + 1)
      ensures Data() == LastTrainingData(lib, randomState, sequences, folds, nStates)
    {
      var cvScores: seq<real> := [];
      var model: Option<M> := None;
      var k := 0;
      while k < |folds|
        invariant 0 <= k <= |folds|
        invariant forall j :: 0 <= j < k ==> FoldOutcome(lib, randomState, sequences, folds, j, nStates).Some?
        invariant cvScores == FoldScores(lib, randomState, sequences, folds, nStates, k)
        invariant k > 0 ==> model == Some(FoldOutcome(lib, randomState, sequences, folds, k - 1, nStates).value.1)
        invariant fitRequests == old(fitRequests) + FoldFits(lib, randomState, sequences, folds, nStates, k)
        invariant k > 0 ==> Data() == lib.combine(folds[k - 1].train, sequences)
      {
        var outcome := RunFold(folds, k, nStates);
        AppendAssociative(old(fitRequests), FoldFits(lib, randomState, sequences, folds, nStates, k),
                          [(HmmFor(nStates, randomState), Data())]);
        if outcome.None? {
          assert FirstFailure(lib, randomState, sequences, folds, nStates) == k;
          return nStateScores;
        }
        cvScores := cvScores + [outcome.value.0];
        model := Some(outcome.value.1);
        k := k + 1;
      }
      assert FirstFailure(lib, randomState, sequences, folds, nStates) == |folds|;
      scores := nStateScores + [Scored(Fin(Mean(cvScores)), model.value)];
    }
  }
}
