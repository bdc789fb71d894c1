/**
  The sliding windows both plugins keep per measurement: the `Average` and
  `Maximum` classes. The two classes are identical except for `get`, so they
  share one `Window` value here and differ only in the accessor used
  (`AverageGet` or `MaximumGet`).

  A window is a FIFO of already-scaled samples plus a capacity. `update`
  appends one sample and then drops the oldest ones until the window fits.
 */
module SlidingWindow {

  datatype Option<T> = None | Some(value: T)

  /** A window capacity: never below one, since the constructor sets 30 and
      `set_max_samples` clamps anything smaller to one. */
  type Capacity = c: int | 1 <= c witness 1

  const DefaultMaxSamples: Capacity := 30

  datatype Window = Window(samples: seq<real>, maxSamples: Capacity)

  function Min(a: int, b: int): int
  {
    if a <= b then a else b
  }

  /** The last `min(|s|, n)` elements of `s`, in their original order. */
  function LastN(s: seq<real>, n: nat): seq<real>
  {
    s[|s| - Min(|s|, n)..]
  }

  function Last(s: seq<real>): real
    requires |s| > 0
  {
    s[|s| - 1]
  }

  /** A freshly constructed window: no samples, capacity 30, so neither
      accessor has a reading yet. */
  function NewWindow(): (r: Window)
    ensures |r.samples| == 0 && r.maxSamples == DefaultMaxSamples
    ensures AverageGet(r).None? && MaximumGet(r).None?
  {
    Window([], DefaultMaxSamples)
  }

  /** `set_max_samples(m)`: the capacity becomes max(m, 1). The retained
      samples are left alone; only the next `update` trims them. */
  function SetMaxSamples(w: Window, m: int): (r: Window)
    ensures r.samples == w.samples
    ensures m <= r.maxSamples
    ensures r.maxSamples == m || r.maxSamples == 1
  {
    if m < 1 then w.(maxSamples := 1) else w.(maxSamples := m)
  }

  /** Lowering the capacity takes effect at the next `update`: the window
      then keeps only the newest max(m, 1) samples of its history and the
      new value. Setting the same capacity twice changes nothing more. */
  lemma SetMaxSamplesThenUpdate(w: Window, m: int, v: real)
    ensures var c := if m < 1 then 1 else m;
      && Update(SetMaxSamples(w, m), v, 0).samples == LastN(w.samples + [v], c)
      && |Update(SetMaxSamples(w, m), v, 0).samples| <= c
    ensures SetMaxSamples(SetMaxSamples(w, m), m) == SetMaxSamples(w, m)
  {
    UpdateDefaultScale(SetMaxSamples(w, m), v);
  }

  /** The eviction loop of `update`: while the window holds more than `cap`
      samples, delete the oldest one. */
  function Evict(s: seq<real>, cap: Capacity): (r: seq<real>)
    ensures r == LastN(s, cap)
    decreases |s|
  {
    if |s| > cap then Evict(s[1..], cap) else s
  }

  /** `10 ** n` for a natural exponent. */
  function Pow10(n: nat): (p: real)
    ensures p >= 1.0
  {
    if n == 0 then 1.0 else 10.0 * Pow10(n - 1)
  }

  /** The sample `update` appends: `newValue * 10 ** scale`, one factor of
      ten at a time (a negative scale divides). */
  function ScaledSample(newValue: real, scale: int): (r: real)
    ensures scale == 0 ==> r == newValue
    ensures scale >= 0 ==> r == newValue * Pow10(scale)
    ensures scale < 0 ==> r * Pow10(-scale) == newValue
    decreases if scale < 0 then -scale else scale
  {
    if scale == 0 then newValue
    else if scale > 0 then
      var q := ScaledSample(newValue, scale - 1);
      TenfoldStep(newValue, q, Pow10(scale - 1));
      10.0 * q
    else
      var q := ScaledSample(newValue, scale + 1);
      TenthStep(newValue, q, Pow10(-(scale + 1)));
      q / 10.0
  }

  /** One more factor of ten on both sides of `q == v * p`. */
  lemma TenfoldStep(v: real, q: real, p: real)
    requires q == v * p
    ensures 10.0 * q == v * (10.0 * p)
  {
  }

  /** One more division by ten undone by one more factor of ten. */
  lemma TenthStep(v: real, q: real, p: real)
    requires q * p == v
    ensures (q / 10.0) * (10.0 * p) == v
  {
  }

  /** `update(newValue, scale)`: append `newValue * 10 ** scale`, then evict
      from the front until the window is within its capacity. */
  function Update(w: Window, newValue: real, scale: int): (r: Window)
    ensures r.maxSamples == w.maxSamples
    ensures r.samples == LastN(w.samples + [ScaledSample(newValue, scale)], w.maxSamples)
    ensures 0 < |r.samples| <= r.maxSamples
    ensures Last(r.samples) == ScaledSample(newValue, scale)
  {
    Window(Evict(w.samples + [ScaledSample(newValue, scale)], w.maxSamples), w.maxSamples)
  }

  /** With the default scale 0 the appended sample is exactly the value given:
      it is appended with nothing removed while the window has room, and
      exactly the oldest sample goes when the window was full. */
  lemma UpdateDefaultScale(w: Window, v: real)
    ensures Update(w, v, 0).samples == LastN(w.samples + [v], w.maxSamples)
    ensures |w.samples| < w.maxSamples ==> Update(w, v, 0).samples == w.samples + [v]
    ensures |w.samples| == w.maxSamples ==> Update(w, v, 0).samples == w.samples[1..] + [v]
  {
    assert ScaledSample(v, 0) == v;
  }

  /** Feed a whole sequence of values, oldest first, through `update`. */
  function PushAll(w: Window, vs: seq<real>): (r: Window)
    ensures r.maxSamples == w.maxSamples
    decreases |vs|
  {
    if |vs| == 0 then w else PushAll(Update(w, vs[0], 0), vs[1..])
  }

  /** Taking the last `n` of a longer sequence that ends with `a` is the same
      as taking the last `n` of `a`, once `a` has at least `n` elements. */
  lemma LastNOfSuffix(p: seq<real>, a: seq<real>, n: nat)
    requires |a| >= n
    ensures LastN(p + a, n) == LastN(a, n)
  {
    var b := p + a;
    assert |LastN(b, n)| == n == |LastN(a, n)|;
    forall k | 0 <= k < n
      ensures LastN(b, n)[k] == LastN(a, n)[k]
    {
      assert LastN(b, n)[k] == b[|b| - n + k];
      assert b[|b| - n + k] == a[|a| - n + k];
    }
  }

  /** Trimming a window before appending more values loses nothing that
      trimming afterwards would keep. */
  lemma LastNAbsorb(s: seq<real>, t: seq<real>, n: nat, st: seq<real>)
    requires st == s + t
    ensures LastN(LastN(s, n) + t, n) == LastN(st, n)
  {
    if |s| > n {
      var k := |s| - n;
      assert s == s[..k] + LastN(s, n);
      assert s + t == s[..k] + (LastN(s, n) + t);
      LastNOfSuffix(s[..k], LastN(s, n) + t, n);
    } else {
      assert LastN(s, n) == s;
    }
  }

  /** One update followed by trimming to capacity keeps what trimming the
      whole history would keep. */
  lemma UpdateThenTrim(w: Window, vs: seq<real>)
    requires |vs| > 0
    ensures LastN(Update(w, vs[0], 0).samples + vs[1..], w.maxSamples)
         == LastN(w.samples + vs, w.maxSamples)
  {
    UpdateDefaultScale(w, vs[0]);
    var s0 := w.samples + [vs[0]];
    assert vs == [vs[0]] + vs[1..];
    assert s0 + vs[1..] == w.samples + vs;
    LastNAbsorb(s0, vs[1..], w.maxSamples, w.samples + vs);
  }

  /** Over any run of updates, the window retains exactly the most recent
      `maxSamples` values of everything it has seen, oldest evicted first. */
  lemma {:induction false} PushAllKeepsMostRecent(w: Window, vs: seq<real>)
    requires |vs| > 0
    ensures PushAll(w, vs).samples == LastN(w.samples + vs, w.maxSamples)
    decreases |vs|
  {
    var w1 := Update(w, vs[0], 0);
    assert PushAll(w, vs) == PushAll(w1, vs[1..]);
    if |vs| == 1 {
      UpdateDefaultScale(w, vs[0]);
      assert vs == [vs[0]];
    } else {
      PushAllKeepsMostRecent(w1, vs[1..]);
      UpdateThenTrim(w, vs);
    }
  }

  /** Python's `sum`: a left-to-right total. */
  function Sum(s: seq<real>): real
    decreases |s|
  {
    if |s| == 0 then 0.0 else Sum(s[..|s| - 1]) + s[|s| - 1]
  }

  /** `sum` does not depend on how the samples are split: the total of a
      concatenation is the sum of the totals. */
  lemma {:induction false} SumConcat(a: seq<real>, b: seq<real>)
    ensures Sum(a + b) == Sum(a) + Sum(b)
    decreases |b|
  {
    if |b| > 0 {
      var b' := b[..|b| - 1];
      assert (a + b)[..|a + b| - 1] == a + b';
      SumConcat(a, b');
    } else {
      assert a + b == a;
    }
  }

  /** The arithmetic mean of a non-empty window. (Its defining property,
      mean times count is the total, is stated by `AverageGet`.) */
  function Mean(s: seq<real>): real
    requires |s| > 0
  {
    Sum(s) / (|s| as real)
  }

  /** If every sample lies in [lo, hi], the total lies between |s|*lo and |s|*hi. */
  lemma {:induction false} SumBounds(s: seq<real>, lo: real, hi: real)
    requires forall i :: 0 <= i < |s| ==> lo <= s[i] <= hi
    ensures (|s| as real) * lo <= Sum(s) <= (|s| as real) * hi
    decreases |s|
  {
    if |s| > 0 {
      var p := s[..|s| - 1];
      assert forall i :: 0 <= i < |p| ==> p[i] == s[i];
      SumBounds(p, lo, hi);
      assert (|s| as real) * lo == (|p| as real) * lo + lo;
      assert (|s| as real) * hi == (|p| as real) * hi + hi;
    }
  }

  /** The mean of a window lies between any lower and upper bound of its
      samples; in particular the mean of a window of equal samples is that
      sample. */
  lemma MeanWithinBounds(s: seq<real>, lo: real, hi: real)
    requires |s| > 0
    requires forall i :: 0 <= i < |s| ==> lo <= s[i] <= hi
    ensures lo <= Mean(s) <= hi
  {
    SumBounds(s, lo, hi);
    var n := |s| as real;
    var m := Mean(s);
    assert m * n == Sum(s);
    assert (m - lo) * n >= 0.0;
    assert (hi - m) * n >= 0.0;
  }

  /** Python's `max` over a non-empty window. */
  function MaxOf(s: seq<real>): (r: real)
    requires |s| > 0
    ensures r in s
    ensures forall i :: 0 <= i < |s| ==> s[i] <= r
    decreases |s|
  {
    if |s| == 1 then s[0]
    else
      var m := MaxOf(s[1..]);
      if s[0] >= m then s[0] else m
  }

  /** The two accessors agree in order: a window's mean never exceeds its
      maximum. */
  lemma MeanAtMostMax(w: Window)
    requires |w.samples| > 0
    ensures AverageGet(w).value <= MaximumGet(w).value
  {
    var s := w.samples;
    var hi := MaxOf(s);
    var lo := MinOf(s);
    MeanWithinBounds(s, lo, hi);
  }

  /** A sample no retained sample lies below (used only to bound the mean). */
  function MinOf(s: seq<real>): (r: real)
    requires |s| > 0
    ensures forall i :: 0 <= i < |s| ==> r <= s[i]
    decreases |s|
  {
    if |s| == 1 then s[0]
    else
      var m := MinOf(s[1..]);
      if s[0] <= m then s[0] else m
  }

  /** `Average.get`: the mean of the retained samples. On an empty window
      the source divides by zero and raises; that is the `None` case. */
  function AverageGet(w: Window): (r: Option<real>)
    ensures r.Some? <==> |w.samples| > 0
    ensures r.Some? ==> r.value * (|w.samples| as real) == Sum(w.samples)
  {
    if |w.samples| == 0 then None else Some(Mean(w.samples))
  }

  /** `Maximum.get`: a retained sample that no retained sample exceeds. On
      an empty window the source's `max` raises; that is the `None` case. */
  function MaximumGet(w: Window): (r: Option<real>)
    ensures r.Some? <==> |w.samples| > 0
    ensures r.Some? ==> r.value in w.samples
    ensures r.Some? ==> forall i :: 0 <= i < |w.samples| ==> w.samples[i] <= r.value
  {
    if |w.samples| == 0 then None else Some(MaxOf(w.samples))
  }
}
