/** The part of Python's float that the selection and recognition code relies
    on: finite values, the negative infinity the recognizer records for a
    failed score, and the NaN that numpy's mean of an empty list yields;
    Python's `>` on them, and the scan by which the built-in `max` picks an
    element. */
module Floats {

  datatype Float = NegInf | Fin(r: real) | NaN

  /** Python's `a > b`: false whenever either side is NaN. */
  predicate Gt(a: Float, b: Float)
  {
    match a
    case Fin(x) => b.NegInf? || (b.Fin? && x > b.r)
    case _ => false
  }

  /** Python's `a >= b`. */
  predicate Ge(a: Float, b: Float)
  {
    Gt(a, b) || (a == b && a != NaN)
  }

  /** The position of the element `max(items, key=...)` returns when `keys`
      are the items' keys in iteration order: the scan keeps the first item
      and replaces the current one only by an item whose key is strictly
      greater. */
  function MaxIndex(keys: seq<Float>): (k: nat)
    requires |keys| > 0
    ensures k < |keys|
  {
    if |keys| == 1 then 0
    else
      var k := MaxIndex(keys[..|keys| - 1]);
      if Gt(keys[|keys| - 1], keys[k]) then |keys| - 1 else k
  }

  /** When the first key is not NaN, `max` returns a first maximal element
      among the non-NaN keys: its key is not NaN, is at least every non-NaN
      key, and is strictly greater than every non-NaN key before it. NaN
      keys later in the list are passed over, since `>` with NaN is false. */
  lemma {:induction false} MaxIndexIsFirstMaximum(keys: seq<Float>)
    requires |keys| > 0 && keys[0] != NaN
    ensures keys[MaxIndex(keys)] != NaN
    ensures forall j :: 0 <= j < |keys| && keys[j] != NaN ==> Ge(keys[MaxIndex(keys)], keys[j])
    ensures forall j :: 0 <= j < MaxIndex(keys) && keys[j] != NaN ==> Gt(keys[MaxIndex(keys)], keys[j])
  {
    if |keys| > 1 {
      var init := keys[..|keys| - 1];
      MaxIndexIsFirstMaximum(init);
      var k0 := MaxIndex(init);
      var last := keys[|keys| - 1];
      assert forall j :: 0 <= j < |init| ==> init[j] == keys[j];
      if Gt(last, keys[k0]) {
        forall j | 0 <= j < |keys| && keys[j] != NaN
          ensures Ge(last, keys[j])
        {
          if j < |init| { GtGeIsGt(last, keys[k0], keys[j]); }
        }
        forall j | 0 <= j < |keys| - 1 && keys[j] != NaN
          ensures Gt(last, keys[j])
        {
          GtGeIsGt(last, keys[k0], keys[j]);
        }
      } else if last != NaN {
        NotGtIsGe(keys[k0], last);
      }
    }
  }

  /** A key NaN appended after the others never replaces the current maximum. */
  lemma AppendNaNKeepsMaxIndex(keys: seq<Float>)
    requires |keys| > 0
    ensures MaxIndex(keys + [NaN]) == MaxIndex(keys)
  {
    assert (keys + [NaN])[..|keys|] == keys;
  }

  lemma GtGeIsGt(a: Float, b: Float, c: Float)
    requires Gt(a, b) && Ge(b, c)
    ensures Gt(a, c)
  {
  }

  lemma NotGtIsGe(a: Float, b: Float)
    requires a != NaN && b != NaN && !Gt(b, a)
    ensures Ge(a, b)
  {
  }

  function Sum(s: seq<real>): (total: real)
  {
    if s == [] then 0.0 else Sum(s[..|s| - 1]) + s[|s| - 1]
  }

  /** np.mean of a non-empty list. */
  function Mean(s: seq<real>): (mean: real)
    requires |s| > 0
  {
    Sum(s) / (|s| as real)
  }
}
