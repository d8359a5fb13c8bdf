/** The collaborators the selection layer calls but does not implement: the
    Gaussian hidden Markov model trainer (hmmlearn), the fold splitter
    (sklearn's KFold), the sequence concatenation helper (asl_utils) and
    numpy's logarithm. Each is an injected pure function; a call that raises
    in Python is a `None` result here. */
module Externals {

  datatype Option<T> = None | Some(value: T)

  /** One feature vector (a row of X). */
  type Frame = seq<real>

  /** One recorded sequence of a word: its frames in order. */
  type Sequence = seq<Frame>

  /** The `(X, lengths)` pair: all frames of some sequences stacked into one
      matrix, and the length of each stacked sequence. */
  datatype Observations = Observations(x: seq<Frame>, lengths: seq<nat>)

  /** The constructor arguments of a GaussianHMM. */
  datatype HmmConfig = HmmConfig(
    nComponents: int,
    covarianceType: string,
    nIter: int,
    randomState: int,
    verbose: bool)

  const DiagonalCovariance: string := "diag"
  const MaxIterations: int := 1000

  /** One train/test split of a word's sequences, as indices into them. */
  datatype Fold = Fold(train: seq<nat>, test: seq<nat>)

  datatype Libraries<!M> = Libraries(
    /** GaussianHMM(config).fit(X, lengths); None when fitting raises. */
    fit: (HmmConfig, Observations) -> Option<M>,
    /** model.score(X, lengths), a log-likelihood; None when scoring raises. */
    score: (M, Observations) -> Option<real>,
    /** combine_sequences(indices, sequences). */
    combine: (seq<nat>, seq<Sequence>) -> Observations,
    /** The folds KFold(shuffle=True, random_state=seed) produces for a given
        number of sequences. */
    kFoldSplit: (nat, int) -> seq<Fold>,
    /** np.log. */
    log: nat -> real)

  /** The configuration `base_model` hands to the trainer for `numStates`
      hidden states: diagonal covariance, at most 1000 iterations, the
      selector's seed, quiet. */
  function HmmFor(numStates: int, randomState: int): (c: HmmConfig)
  {
    HmmConfig(numStates, DiagonalCovariance, MaxIterations, randomState, false)
  }

  /** Fitting an `numStates`-state model to `data` with the selector's seed. */
  function Fit<M>(lib: Libraries<M>, data: Observations, numStates: int, randomState: int): (r: Option<M>)
  {
    lib.fit(HmmFor(numStates, randomState), data)
  }
}
