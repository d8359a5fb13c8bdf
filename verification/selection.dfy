/** The decision rule shared by the BIC and cross-validation selectors: every
    candidate state count n that succeeds appends `(score, model)` to the
    list `n_state_scores`, and the selector returns the model of
    `max(n_state_scores, key=score)`, or None for an empty list. */
module Selection {
  import opened Externals
  import opened Floats

  /** One `(score, model)` tuple of `n_state_scores`. */
  datatype Scored<M> = Scored(key: Float, model: M)

  function Keys<M>(l: seq<Scored<M>>): (ks: seq<Float>)
    ensures |ks| == |l|
    ensures forall i :: 0 <= i < |l| ==> ks[i] == l[i].key
  {
    seq(|l|, i requires 0 <= i < |l| => l[i].key)
  }

  /** `None` for an empty list, else `max(l, key=lambda x: x[0])[1]`. */
  function PickModel<M>(l: seq<Scored<M>>): (r: Option<M>)
  {
    if l == [] then None else Some(l[MaxIndex(Keys(l))].model)
  }

  /** What one candidate appends: nothing when it failed, its tuple when it
      succeeded, followed by a NaN-scored copy of its model when `echo` holds
      (the cross-validation selector with fewer than three sequences). */
  function Entry<M>(c: Option<Scored<M>>, echo: bool): (e: seq<Scored<M>>)
  {
    match c
    case None => []
    case Some(s) => if echo then [s, Scored(NaN, s.model)] else [s]
  }

  /** `n_state_scores` after the candidates lo, lo+1, ..., hi, in this order,
      where `crit(n)` is candidate n's outcome. */
  function Appended<M>(crit: int -> Option<Scored<M>>, lo: int, hi: int, echo: bool): (l: seq<Scored<M>>)
    decreases hi - lo
  {
    if hi < lo then [] else Appended(crit, lo, hi - 1, echo) + Entry(crit(hi), echo)
  }

  /** Every successful candidate in [lo, hi] has a finite score. */
  ghost predicate FiniteScores<M>(crit: int -> Option<Scored<M>>, lo: int, hi: int)
  {
    forall n :: lo <= n <= hi && crit(n).Some? ==> crit(n).value.key.Fin?
  }

  /** Candidate n is the smallest one in [lo, hi] with a maximal score among
      the successful candidates. */
  ghost predicate IsFirstBest<M>(crit: int -> Option<Scored<M>>, lo: int, hi: int, n: int)
  {
    && lo <= n <= hi
    && crit(n).Some?
    && (forall m :: lo <= m <= hi && crit(m).Some? ==> Ge(crit(n).value.key, crit(m).value.key))
    && (forall m :: lo <= m < n && crit(m).Some? ==> Gt(crit(n).value.key, crit(m).value.key))
  }

  /** The selectors' decision rule: no model exactly when every candidate
      failed, and otherwise the model of the first best candidate. NaN copies
      never win, because a finite score of the same candidate precedes them. */
  lemma ChoiceIsFirstBest<M>(crit: int -> Option<Scored<M>>, lo: int, hi: int, echo: bool)
    requires FiniteScores(crit, lo, hi)
    ensures PickModel(Appended(crit, lo, hi, echo)).None? <==> forall n :: lo <= n <= hi ==> crit(n).None?
    ensures PickModel(Appended(crit, lo, hi, echo)).Some? ==>
      exists n :: IsFirstBest(crit, lo, hi, n) && PickModel(Appended(crit, lo, hi, echo)).value == crit(n).value.model
  {
    var w := AppendedWinner(crit, lo, hi, echo);
    var l := Appended(crit, lo, hi, echo);
    if l != [] {
      assert IsFirstBest(crit, lo, hi, w);
    }
  }

  /** The element `max` picks from `Appended` is the tuple of a first best
      candidate w, and the list starts with a finite score. */
  lemma {:induction false} AppendedWinner<M>(crit: int -> Option<Scored<M>>, lo: int, hi: int, echo: bool)
    returns (w: int)
    requires FiniteScores(crit, lo, hi)
    ensures var l := Appended(crit, lo, hi, echo);
      && (l == [] <==> forall n :: lo <= n <= hi ==> crit(n).None?)
      && (l != [] ==> l[0].key.Fin? && IsFirstBest(crit, lo, hi, w) && l[MaxIndex(Keys(l))] == crit(w).value)
    decreases hi - lo
  {
    if hi < lo {
      return lo;
    }
    var w0 := AppendedWinner(crit, lo, hi - 1, echo);
    var l0 := Appended(crit, lo, hi - 1, echo);
    var l := Appended(crit, lo, hi, echo);
    assert l == l0 + Entry(crit(hi), echo);
    if crit(hi).None? {
      assert l == l0;
      w := w0;
      if l0 != [] {
        BestSurvivesFailure(crit, lo, hi, w0);
      }
    } else {
      var s := crit(hi).value;
      var l1 := l0 + [s];
      if l0 == [] {
        w := hi;
        assert Keys(l1) == [s.key];
        FirstSuccessIsBest(crit, lo, hi);
      } else {
        var k0 := MaxIndex(Keys(l0));
        PickSnoc(l0, s);
        if Gt(s.key, l0[k0].key) {
          w := hi;
          NewBest(crit, lo, hi, w0);
        } else {
          w := w0;
          BestSurvivesWeaker(crit, lo, hi, w0);
        }
      }
      EntryPick(l0, s, echo);
    }
  }

  /** The NaN copy a successful candidate may add after its tuple leaves the
      pick where the tuple alone put it. */
  lemma EntryPick<M>(l: seq<Scored<M>>, s: Scored<M>, echo: bool)
    ensures var l1, l2 := l + [s], l + Entry(Some(s), echo);
      l2[MaxIndex(Keys(l2))] == l1[MaxIndex(Keys(l1))]
  {
    if echo {
      assert l + Entry(Some(s), echo) == (l + [s]) + [Scored(NaN, s.model)];
      PickSnocNaN(l + [s], s.model);
    }
  }

  lemma KeysSnoc<M>(l: seq<Scored<M>>, e: Scored<M>)
    ensures Keys(l + [e]) == Keys(l) + [e.key]
  {
  }

  /** Appending a tuple to a non-empty list: `max` moves to it exactly when
      its score is strictly greater than the current maximum's. */
  lemma PickSnoc<M>(l: seq<Scored<M>>, e: Scored<M>)
    requires l != []
    ensures var l1 := l + [e];
      l1[MaxIndex(Keys(l1))] == if Gt(e.key, l[MaxIndex(Keys(l))].key) then e else l[MaxIndex(Keys(l))]
  {
    KeysSnoc(l, e);
    assert (Keys(l) + [e.key])[..|l|] == Keys(l);
  }

  lemma PickSnocNaN<M>(l: seq<Scored<M>>, m: M)
    requires l != []
    ensures var l1 := l + [Scored(NaN, m)];
      l1[MaxIndex(Keys(l1))] == l[MaxIndex(Keys(l))]
  {
    KeysSnoc(l, Scored(NaN, m));
    AppendNaNKeepsMaxIndex(Keys(l));
  }

  lemma BestSurvivesFailure<M>(crit: int -> Option<Scored<M>>, lo: int, hi: int, w: int)
    requires IsFirstBest(crit, lo, hi - 1, w) && crit(hi).None?
    ensures IsFirstBest(crit, lo, hi, w)
  {
  }

  lemma FirstSuccessIsBest<M>(crit: int -> Option<Scored<M>>, lo: int, hi: int)
    requires lo <= hi && crit(hi).Some? && crit(hi).value.key.Fin?
    requires forall n :: lo <= n < hi ==> crit(n).None?
    ensures IsFirstBest(crit, lo, hi, hi)
  {
  }

  lemma NewBest<M>(crit: int -> Option<Scored<M>>, lo: int, hi: int, w: int)
    requires IsFirstBest(crit, lo, hi - 1, w) && crit(hi).Some?
    requires Gt(crit(hi).value.key, crit(w).value.key)
    ensures IsFirstBest(crit, lo, hi, hi)
  {
    var s := crit(hi).value.key;
    var b := crit(w).value.key;
    forall m | lo <= m < hi && crit(m).Some?
      ensures Gt(s, crit(m).value.key)
    {
      GtGeIsGt(s, b, crit(m).value.key);
    }
  }

  lemma BestSurvivesWeaker<M>(crit: int -> Option<Scored<M>>, lo: int, hi: int, w: int)
    requires IsFirstBest(crit, lo, hi - 1, w) && crit(hi).Some?
    requires crit(w).value.key != NaN && crit(hi).value.key != NaN
    requires !Gt(crit(hi).value.key, crit(w).value.key)
    ensures IsFirstBest(crit, lo, hi, w)
  {
    NotGtIsGe(crit(w).value.key, crit(hi).value.key);
  }
}
