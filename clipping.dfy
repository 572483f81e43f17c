/** The clipping transformer that opens every fitted score-normalisation
    pipeline (script/struc_score_normalization.py and the identical class in
    script/converting_data_type.py). Its bounds are set once, by the
    constructor, and never change, so it is a value with member functions. */
module Clipping {
  import opened Wrappers

  /** `np.clip` on one value: `min(max(x, lo), hi)`. */
  function Clip(x: real, lo: real, hi: real): real {
    var up := if x < lo then lo else x;
    if up > hi then hi else up
  }

  datatype ClippingTransformer = ClippingTransformer(qLow: Option<real>, qHigh: Option<real>) {

    /** `fit` learns nothing and returns the transformer itself. */
    function Fit(xs: seq<real>): (t: ClippingTransformer)
      ensures t == this
    {
      this
    }

    predicate Configured() {
      qLow.Some? && qHigh.Some?
    }

    /** `transform` on a one-column frame: a ValueError unless both bounds are
        set, otherwise each value clipped into the bounds, one output per
        input, in order. */
    function Transform(xs: seq<real>): (r: Result<seq<real>>)
      ensures r.Err? <==> !Configured()
      ensures r.Err? ==> r.error.ValueError?
      ensures r.Ok? ==> |r.value| == |xs|
      ensures r.Ok? ==> forall i :: 0 <= i < |xs| ==> r.value[i] == Clip(xs[i], qLow.value, qHigh.value)
    {
      if qLow.None? || qHigh.None? then
        Err(ValueError("q_low and q_high must be specified manually before using transform()."))
      else
        Ok(seq(|xs|, i requires 0 <= i < |xs| => Clip(xs[i], qLow.value, qHigh.value)))
    }
  }

  /** With ordered bounds every clipped value lies between them. */
  lemma ClipBounds(x: real, lo: real, hi: real)
    requires lo <= hi
    ensures lo <= Clip(x, lo, hi) <= hi
  {
  }

  /** A value already inside the bounds is left alone. */
  lemma ClipFixesInside(x: real, lo: real, hi: real)
    requires lo <= x <= hi
    ensures Clip(x, lo, hi) == x
  {
  }

  /** With bounds in the wrong order np.clip returns the upper bound. */
  lemma ClipInvertedBounds(x: real, lo: real, hi: real)
    requires hi < lo
    ensures Clip(x, lo, hi) == hi
  {
  }

  /** Every value of a configured transformer's output lies within the
      bounds when they are ordered. */
  lemma TransformBounded(t: ClippingTransformer, xs: seq<real>)
    requires t.Configured() && t.qLow.value <= t.qHigh.value
    ensures t.Transform(xs).Ok?
    ensures forall i :: 0 <= i < |xs| ==> t.qLow.value <= t.Transform(xs).value[i] <= t.qHigh.value
  {
    forall i | 0 <= i < |xs| ensures t.qLow.value <= t.Transform(xs).value[i] <= t.qHigh.value {
      ClipBounds(xs[i], t.qLow.value, t.qHigh.value);
    }
  }

  /** Values already in range pass through unchanged. */
  lemma TransformKeepsInRange(t: ClippingTransformer, xs: seq<real>)
    requires t.Configured()
    requires forall i :: 0 <= i < |xs| ==> t.qLow.value <= xs[i] <= t.qHigh.value
    ensures t.Transform(xs) == Ok(xs)
  {
    var r := t.Transform(xs).value;
    forall i | 0 <= i < |xs| ensures r[i] == xs[i] {
      ClipFixesInside(xs[i], t.qLow.value, t.qHigh.value);
    }
    assert r == xs;
  }

  /** Clipping twice is clipping once. */
  lemma TransformIdempotent(t: ClippingTransformer, xs: seq<real>)
    requires t.Configured()
    ensures t.Transform(xs).Ok?
    ensures t.Transform(t.Transform(xs).value) == t.Transform(xs)
  {
    var lo, hi := t.qLow.value, t.qHigh.value;
    var once := t.Transform(xs).value;
    var twice := t.Transform(once).value;
    forall i | 0 <= i < |xs| ensures twice[i] == once[i] {
      if lo <= hi {
        ClipBounds(xs[i], lo, hi);
        ClipFixesInside(once[i], lo, hi);
      } else {
        ClipInvertedBounds(xs[i], lo, hi);
        ClipInvertedBounds(once[i], lo, hi);
      }
    }
    assert twice == once;
  }
}
