/** The recogniser: every test item is scored by every word's model, and the
    word whose model gives the largest log-likelihood is the guess. */
module Recognizer {
  import opened Externals
  import opened Floats

  /** The `models` dict as its items in iteration order: a word and the model
      the selector kept for it, None when the selector found none. */
  type ModelTable<M> = seq<(string, Option<M>)>

  /** Dict keys are distinct. */
  predicate DistinctWords<M>(models: ModelTable<M>)
  {
    forall i, j :: 0 <= i < j < |models| ==> models[i].0 != models[j].0
  }

  function Words<M>(models: ModelTable<M>): (ws: set<string>)
  {
    set i | 0 <= i < |models| :: models[i].0
  }

  /** The log-likelihood recorded for one word and one item: the model's
      score, or −∞ when there is no model or scoring it raises. */
  function WordLogL<M>(score: (M, Observations) -> Option<real>, model: Option<M>, item: Observations): (f: Float)
    ensures f != NaN
    ensures f.Fin? <==> model.Some? && score(model.value, item).Some?
    ensures f.Fin? ==> f.r == score(model.value, item).value
  {
    match model
    case None => NegInf
    case Some(m) =>
      match score(m, item)
      case None => NegInf
      case Some(logL) => Fin(logL)
  }

  /** `world_LogLvalues` for one item: the dict filled word by word in the
      table's order. */
  function Profile<M>(score: (M, Observations) -> Option<real>, models: ModelTable<M>, item: Observations)
    : (p: map<string, Float>)
    ensures p.Keys == Words(models)
  {
    if models == [] then map[]
    else
      var last := models[|models| - 1];
      var init := models[..|models| - 1];
      assert Words(models) == Words(init) + {last.0} by {
        assert forall i :: 0 <= i < |init| ==> init[i] == models[i];
      }
      Profile(score, init, item)[last.0 := WordLogL(score, last.1, item)]
  }

  /** The profile's values in the dict's iteration order, which is the
      table's order. */
  function Values<M>(score: (M, Observations) -> Option<real>, models: ModelTable<M>, item: Observations)
    : (vs: seq<Float>)
    ensures |vs| == |models|
    ensures forall i :: 0 <= i < |models| ==> vs[i] == WordLogL(score, models[i].1, item)
  {
    seq(|models|, i requires 0 <= i < |models| => WordLogL(score, models[i].1, item))
  }

  /** The guess for one item: the key `max(world_LogLvalues, key=...)`
      returns. */
  function Guess<M>(score: (M, Observations) -> Option<real>, models: ModelTable<M>, item: Observations): (g: string)
    requires |models| > 0
  {
    models[MaxIndex(Values(score, models, item))].0
  }

  /** Every word of the table has an entry in the profile, and that entry is
      its own model's log-likelihood (−∞ on failure), whatever the other
      words' models do. */
  lemma {:induction false} ProfileRecordsEveryWord<M>(score: (M, Observations) -> Option<real>, models: ModelTable<M>,
                                                      item: Observations)
    requires DistinctWords(models)
    ensures forall i :: 0 <= i < |models| ==>
      Profile(score, models, item)[models[i].0] == WordLogL(score, models[i].1, item)
  {
    if models != [] {
      var init := models[..|models| - 1];
      ProfileRecordsEveryWord(score, init, item);
      forall i | 0 <= i < |models|
        ensures Profile(score, models, item)[models[i].0] == WordLogL(score, models[i].1, item)
      {
        if i < |models| - 1 {
          assert init[i] == models[i];
          assert models[i].0 != models[|models| - 1].0;
        }
      }
    }
  }

  /** The guess is a word of the profile with the largest log-likelihood in
      it, no earlier word of the table has as large a value, and the guess
      scored finitely whenever any word did. */
  lemma GuessIsFirstBestWord<M>(score: (M, Observations) -> Option<real>, models: ModelTable<M>, item: Observations)
    requires |models| > 0 && DistinctWords(models)
    ensures var p, g := Profile(score, models, item), Guess(score, models, item);
      && g in p
      && (forall w :: w in p ==> Ge(p[g], p[w]))
      && (forall i, j :: 0 <= i < j < |models| && models[j].0 == g ==> Gt(p[g], p[models[i].0]))
      && ((exists w :: w in p && p[w].Fin?) ==> p[g].Fin?)
  {
    var p, vs := Profile(score, models, item), Values(score, models, item);
    var k := MaxIndex(vs);
    ProfileRecordsEveryWord(score, models, item);
    MaxIndexIsFirstMaximum(vs);
    assert p[models[k].0] == vs[k];
    forall w | w in p
      ensures Ge(p[models[k].0], p[w])
    {
      var i :| 0 <= i < |models| && models[i].0 == w;
      assert p[w] == vs[i];
    }
    forall i, j | 0 <= i < j < |models| && models[j].0 == models[k].0
      ensures Gt(p[models[k].0], p[models[i].0])
    {
      assert j == k;
      assert p[models[i].0] == vs[i];
    }
  }

  /** For every test item in order: score it with every word's model, record
      the profile and append the guess. */
  method Recognize<M>(score: (M, Observations) -> Option<real>, models: ModelTable<M>, testSet: seq<Observations>)
    returns (probabilities: seq<map<string, Float>>, guesses: seq<string>)
    requires DistinctWords(models)
    requires |testSet| > 0 ==> |models| > 0
    ensures |probabilities| == |testSet| && |guesses| == |testSet|
    ensures forall t :: 0 <= t < |testSet| ==> probabilities[t] == Profile(score, models, testSet[t])
    ensures forall t :: 0 <= t < |testSet| ==> guesses[t] == Guess(score, models, testSet[t])
  {
    probabilities, guesses := [], [];
    var wordId := 0;
    while wordId < |testSet|
      invariant 0 <= wordId <= |testSet|
      invariant |probabilities| == wordId && |guesses| == wordId
      invariant forall t :: 0 <= t < wordId ==> probabilities[t] == Profile(score, models, testSet[t])
      invariant forall t :: 0 <= t < wordId ==> guesses[t] == Guess(score, models, testSet[t])
    {
      var item := testSet[wordId];
      var worldLogLValues: map<string, Float> := map[];
      // the dict's values in insertion order, which `max` scans
      var inOrder: seq<Float> := [];
      var i := 0;
      while i < |models|
        invariant 0 <= i <= |models|
        invariant worldLogLValues == Profile(score, models[..i], item)
        invariant inOrder == Values(score, models[..i], item)
      {
        var (word, model) := models[i];
        var logL: Float;
        if model.None? {
          logL := NegInf;
        } else {
          var s := score(model.value, item);
          logL := if s.Some? then Fin(s.value) else NegInf;
        }
        assert models[..i + 1][..i] == models[..i];
        worldLogLValues := worldLogLValues[word := logL];
        inOrder := inOrder + [logL];
        i := i + 1;
      }
      assert models[..|models|] == models;
      probabilities := probabilities + [worldLogLValues];
      guesses := guesses + [models[MaxIndex(inOrder)].0];
      wordId := wordId + 1;
    }
  }
}
