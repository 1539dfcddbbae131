/** The two linear resamplers of the host: the downlink one of audio/resample.py, on a grid of
    seconds, and the feature one of ml/affect/features.py, on the unit interval. */
module Resample {
  import opened Prelude
  import opened Pcm

  const TARGET_RATE := 16000

  /** Sample instants of a grid, in increasing order. */
  ghost predicate Increasing(xs: seq<real>) {
    forall i, j :: 0 <= i < j < |xs| ==> xs[i] < xs[j]
  }

  /** Piecewise linear interpolation, clamped at both ends (numpy.interp). */
  function Interp(x: real, xs: seq<real>, fp: seq<real>): real
    requires |xs| == |fp| > 0 && Increasing(xs)
  {
    if x <= xs[0] then fp[0]
    else if xs[|xs| - 1] <= x then fp[|xs| - 1]
    else
      var i := Cell(x, xs, 0);
      Line(fp[i], fp[i + 1], xs[i + 1] - xs[i], x - xs[i])
  }

  /** The point `d` along a segment of width `w` from height `a` to height `b`. */
  function Line(a: real, b: real, w: real, d: real): real
    requires 0.0 < w
  {
    (b - a) / w * d + a
  }

  /** The grid cell holding `x`. */
  function Cell(x: real, xs: seq<real>, i: nat): (c: nat)
    requires i + 1 < |xs| && Increasing(xs)
    requires xs[i] <= x < xs[|xs| - 1]
    ensures i <= c && c + 1 < |xs| && xs[c] <= x < xs[c + 1]
    decreases |xs| - i
  {
    if x < xs[i + 1] then i else Cell(x, xs, i + 1)
  }

  function Grid(n: nat, step: real): (xs: seq<real>)
    requires 0.0 < step
    ensures |xs| == n && Increasing(xs)
  {
    var xs := seq(n, i requires 0 <= i < n => i as real * step);
    assert forall i, j :: 0 <= i < j < n ==> xs[i] < xs[j] by {
      forall i, j | 0 <= i < j < n ensures xs[i] < xs[j] {
        assert xs[j] - xs[i] == (j - i) as real * step;
      }
    }
    xs
  }

  /** The source on one grid, read on another. */
  function Regrid(samples: seq<real>, step: real, m: nat, newStep: real): (out: seq<real>)
    requires samples != [] && 0.0 < step && 0.0 < newStep
    ensures |out| == m
    ensures forall j :: 0 <= j < m ==> out[j] == Interp(Grid(m, newStep)[j], Grid(|samples|, step), samples)
  {
    seq(m, j requires 0 <= j < m => Interp(Grid(m, newStep)[j], Grid(|samples|, step), samples))
  }

  /** n * 16000 / rate, before rounding. */
  function IdealLength(n: nat, rate: int): real
    requires 0 < rate
  {
    (n * TARGET_RATE) as real / rate as real
  }

  function TargetLength(n: nat, rate: int): (m: int)
    requires 0 < rate
    ensures 1 <= m
  {
    Max(1, RoundHalfEven(IdealLength(n, rate)))
  }

  /** `to_pcm16_16k` before clipping and quantisation. */
  function DownlinkSamples(samples: seq<real>, rate: int): (out: seq<real>)
    requires 0 < rate
    ensures samples == [] ==> out == []
    ensures samples != [] && rate != TARGET_RATE ==> |out| == TargetLength(|samples|, rate)
  {
    if samples == [] then []
    else if rate == TARGET_RATE then samples
    else
      Regrid(samples, 1.0 / rate as real, TargetLength(|samples|, rate), 1.0 / TARGET_RATE as real)
  }

  function Quantised(xs: seq<real>): (pcm: seq<Int16>)
    ensures |pcm| == |xs|
  {
    seq(|xs|, i requires 0 <= i < |xs| => Quantise(xs[i]))
  }

  datatype Resampled<T> = Converted(out: seq<T>) | BadRate | EmptyAudio

  /** `to_pcm16_16k` on mono input. */
  function ToPcm16(samples: seq<real>, rate: int): (r: Resampled<Int16>)
    ensures r.BadRate? <==> rate <= 0
    ensures r.Converted? <==> 0 < rate
  {
    if rate <= 0 then BadRate else Converted(Quantised(DownlinkSamples(samples, rate)))
  }

  /** `resample_to_target` at its default target rate, on mono input. */
  function FeatureSamples(mono: seq<real>, rate: int): (r: Resampled<real>)
    ensures r.Converted? <==> 0 < rate && mono != []
    ensures r.BadRate? <==> rate <= 0
    ensures r.Converted? && rate != TARGET_RATE ==> |r.out| == TargetLength(|mono|, rate)
  {
    if rate <= 0 then BadRate
    else if mono == [] then EmptyAudio
    else if rate == TARGET_RATE then Converted(mono)
    else
      var m := TargetLength(|mono|, rate);
      Converted(Regrid(mono, 1.0 / |mono| as real, m, 1.0 / m as real))
  }

  // ----- interpolation -----

  lemma LineBetween(a: real, b: real, w: real, d: real, lo: real, hi: real)
    requires 0.0 <= d <= w && 0.0 < w
    requires lo <= a <= hi && lo <= b <= hi
    ensures lo <= Line(a, b, w, d) <= hi
  {
    var t := d / w;
    assert 0.0 <= t <= 1.0;
    assert (b - a) / w * d == (b - a) * t;
    assert Line(a, b, w, d) == a * (1.0 - t) + b * t;
    assert lo * (1.0 - t) <= a * (1.0 - t) <= hi * (1.0 - t);
    assert lo * t <= b * t <= hi * t;
  }

  /** An interpolated value lies between the two samples around it. */
  lemma InterpBetween(x: real, xs: seq<real>, fp: seq<real>, lo: real, hi: real)
    requires |xs| == |fp| > 0 && Increasing(xs)
    requires forall i :: 0 <= i < |fp| ==> lo <= fp[i] <= hi
    ensures lo <= Interp(x, xs, fp) <= hi
  {
    if xs[0] < x < xs[|xs| - 1] {
      var i := Cell(x, xs, 0);
      LineBetween(fp[i], fp[i + 1], xs[i + 1] - xs[i], x - xs[i], lo, hi);
    }
  }

  ghost predicate Nondecreasing(s: seq<real>) {
    forall i, j :: 0 <= i <= j < |s| ==> s[i] <= s[j]
  }

  lemma LineMonotone(a: real, b: real, w: real, d: real, e: real)
    requires 0.0 < w && a <= b && d <= e
    ensures Line(a, b, w, d) <= Line(a, b, w, e)
  {
    var slope := (b - a) / w;
    assert 0.0 <= slope * (e - d);
  }

  lemma InterpMonotone(x: real, y: real, xs: seq<real>, fp: seq<real>)
    requires |xs| == |fp| > 0 && Increasing(xs) && Nondecreasing(fp)
    requires x <= y
    ensures Interp(x, xs, fp) <= Interp(y, xs, fp)
  {
    var last := |xs| - 1;
    if xs[0] < x && y < xs[last] {
      var i, j := Cell(x, xs, 0), Cell(y, xs, 0);
      if i == j {
        LineMonotone(fp[i], fp[i + 1], xs[i + 1] - xs[i], x - xs[i], y - xs[i]);
      } else {
        CellOrder(x, y, xs);
        LineBetween(fp[i], fp[i + 1], xs[i + 1] - xs[i], x - xs[i], fp[i], fp[i + 1]);
        LineBetween(fp[j], fp[j + 1], xs[j + 1] - xs[j], y - xs[j], fp[j], fp[j + 1]);
        assert fp[i + 1] <= fp[j];
      }
    } else {
      InterpBetween(x, xs, fp, fp[0], fp[last]);
      InterpBetween(y, xs, fp, fp[0], fp[last]);
    }
  }

  lemma CellOrder(x: real, y: real, xs: seq<real>)
    requires 2 <= |xs| && Increasing(xs) && xs[0] <= x <= y < xs[|xs| - 1]
    ensures Cell(x, xs, 0) <= Cell(y, xs, 0)
  {
    var i, j := Cell(x, xs, 0), Cell(y, xs, 0);
    assert forall p, q :: 0 <= p <= q < |xs| ==> xs[p] <= xs[q];
  }

  lemma CellUnique(x: real, xs: seq<real>, c: nat)
    requires 2 <= |xs| && Increasing(xs) && xs[0] <= x < xs[|xs| - 1]
    requires c + 1 < |xs| && xs[c] <= x < xs[c + 1]
    ensures Cell(x, xs, 0) == c
  {
    var i := Cell(x, xs, 0);
    assert forall p, q :: 0 <= p <= q < |xs| ==> xs[p] <= xs[q];
  }

  lemma ScaleLine(k: real, a: real, b: real, w: real, d: real)
    requires 0.0 < k && 0.0 < w
    ensures 0.0 < k * w && Line(a, b, k * w, k * d) == Line(a, b, w, d)
  {
    assert 0.0 < k * w;
    var q := (b - a) / w;
    assert q * w == b - a;
    var p := (b - a) / (k * w);
    assert p * (k * w) == b - a;
    assert (p * k) * w == q * w;
    assert p * k == q;
    assert p * (k * d) == (p * k) * d;
  }

  /** `x` sits in grid `xs` where `y` sits in grid `ys`. */
  ghost predicate SamePlace(x: real, xs: seq<real>, y: real, ys: seq<real>) {
    && |xs| == |ys|
    && forall i :: 0 <= i < |xs| ==> (x <= xs[i] <==> y <= ys[i]) && (xs[i] <= x <==> ys[i] <= y)
  }

  lemma InterpSamePlace(x: real, xs: seq<real>, y: real, ys: seq<real>, fp: seq<real>)
    requires |xs| == |fp| > 0 && Increasing(xs) && Increasing(ys) && SamePlace(x, xs, y, ys)
    requires forall i :: 0 <= i < |xs| - 1 ==>
      Line(fp[i], fp[i + 1], xs[i + 1] - xs[i], x - xs[i]) == Line(fp[i], fp[i + 1], ys[i + 1] - ys[i], y - ys[i])
    ensures Interp(x, xs, fp) == Interp(y, ys, fp)
  {
    if xs[0] < x < xs[|xs| - 1] {
      CellUnique(y, ys, Cell(x, xs, 0));
    }
  }

  /** `ys` is the grid `xs` in another unit. */
  ghost predicate Scaled(k: real, xs: seq<real>, ys: seq<real>) {
    |xs| == |ys| && forall i :: 0 <= i < |xs| ==> ys[i] == k * xs[i]
  }

  /** Interpolation does not depend on the unit of the grid. */
  lemma InterpScale(k: real, x: real, xs: seq<real>, y: real, ys: seq<real>, fp: seq<real>)
    requires 0.0 < k && y == k * x
    requires |xs| == |fp| > 0 && Increasing(xs) && Increasing(ys) && Scaled(k, xs, ys)
    ensures Interp(x, xs, fp) == Interp(y, ys, fp)
  {
    forall i | 0 <= i < |xs| ensures (x <= xs[i] <==> y <= ys[i]) && (xs[i] <= x <==> ys[i] <= y) {
      SameOrder(k, x, xs[i], y, ys[i]);
    }
    forall i | 0 <= i < |xs| - 1
      ensures Line(fp[i], fp[i + 1], xs[i + 1] - xs[i], x - xs[i]) ==
        Line(fp[i], fp[i + 1], ys[i + 1] - ys[i], y - ys[i])
    {
      LineInUnits(k, fp[i], fp[i + 1], xs[i], xs[i + 1], x, ys[i], ys[i + 1], y);
    }
    InterpSamePlace(x, xs, y, ys, fp);
  }

  lemma SameOrder(k: real, x: real, u: real, x': real, u': real)
    requires 0.0 < k && x' == k * x && u' == k * u
    ensures (x <= u <==> x' <= u') && (u <= x <==> u' <= x')
  {
    ScaleOrder(k, x, u);
    ScaleOrder(k, u, x);
  }

  lemma LineInUnits(k: real, a: real, b: real, u: real, v: real, x: real, u': real, v': real, x': real)
    requires 0.0 < k && u < v && u' < v' && u' == k * u && v' == k * v && x' == k * x
    ensures Line(a, b, v - u, x - u) == Line(a, b, v' - u', x' - u')
  {
    Distribute(k, v, u);
    Distribute(k, x, u);
    ScaleLine(k, a, b, v - u, x - u);
  }

  lemma ScaleOrder(a: real, x: real, y: real)
    requires 0.0 < a
    ensures x <= y <==> a * x <= a * y
  {
    Distribute(a, x, y);
    SignOfProduct(x - y, a);
  }

  lemma Distribute(a: real, x: real, y: real)
    ensures a * (x - y) == a * x - a * y
  {
  }

  lemma CellOfGridPoint(xs: seq<real>, c: nat)
    requires Increasing(xs) && c + 1 < |xs|
    ensures xs[0] <= xs[c] < xs[|xs| - 1] && Cell(xs[c], xs, 0) == c
  {
    CellUnique(xs[c], xs, c);
  }

  /** At a grid point interpolation gives the sample there. */
  lemma InterpAtGridPoint(xs: seq<real>, fp: seq<real>, c: nat)
    requires c < |xs| == |fp| && Increasing(xs)
    ensures Interp(xs[c], xs, fp) == fp[c]
  {
    if 0 < c < |xs| - 1 {
      CellOfGridPoint(xs, c);
      assert (fp[c + 1] - fp[c]) / (xs[c + 1] - xs[c]) * 0.0 == 0.0;
    }
  }

  // ----- how fast an interpolated value can change -----

  /** From height `a` at `x` to height `b` at `y` the way is no steeper than `slope`, up or down. */
  predicate Gentle(slope: real, x: real, a: real, y: real, b: real) {
    slope * x - a <= slope * y - b && slope * x + a <= slope * y + b
  }

  /** No step of `fp` over the grid is steeper than `slope`. */
  ghost predicate NoSteeper(xs: seq<real>, fp: seq<real>, slope: real)
    requires |xs| == |fp|
  {
    0.0 <= slope && forall i :: 0 <= i < |xs| - 1 ==> Gentle(slope, xs[i], fp[i], xs[i + 1], fp[i + 1])
  }

  lemma LevelIsGentle(slope: real, x: real, y: real, a: real)
    requires 0.0 <= slope && x <= y
    ensures Gentle(slope, x, a, y, a)
  {
    RiseIsNonnegative(slope, y - x);
    Distribute(slope, y, x);
  }

  lemma RiseIsNonnegative(slope: real, d: real)
    requires 0.0 <= slope && 0.0 <= d
    ensures 0.0 <= slope * d
  {
  }

  /** A line over a gentle step is gentle between any two of its points. */
  lemma LineIsGentle(slope: real, u: real, a: real, v: real, b: real, x: real, y: real)
    requires u < v && x <= y && Gentle(slope, u, a, v, b)
    ensures Gentle(slope, x, Line(a, b, v - u, x - u), y, Line(a, b, v - u, y - u))
  {
    var q := Quotient(b - a, v - u);
    SlopeOfLine(slope, u, a, v, b, q);
    SteadyRise(slope, q, x, y);
    LineAt(a, b, v - u, u, x, q);
    LineAt(a, b, v - u, u, y, q);
  }

  lemma Quotient(a: real, w: real) returns (q: real)
    requires 0.0 < w
    ensures q == a / w && q * w == a
  {
    q := a / w;
  }

  lemma SlopeOfLine(slope: real, u: real, a: real, v: real, b: real, q: real)
    requires u < v && q * (v - u) == b - a && Gentle(slope, u, a, v, b)
    ensures -slope <= q <= slope
  {
    var w := v - u;
    Distribute(slope, v, u);
    SumTimes(slope, q, w);
    SignOfProduct(slope - q, w);
    SignOfProduct(slope + q, w);
  }

  lemma SumTimes(f: real, g: real, w: real)
    ensures (f - g) * w == f * w - g * w && (f + g) * w == f * w + g * w
  {
  }

  lemma SteadyRise(slope: real, q: real, x: real, y: real)
    requires -slope <= q <= slope && x <= y
    ensures slope * x - q * x <= slope * y - q * y && slope * x + q * x <= slope * y + q * y
  {
    RiseIsNonnegative(slope - q, y - x);
    RiseIsNonnegative(slope + q, y - x);
    SumTimes(slope, q, y - x);
    Distribute(slope, y, x);
    Distribute(q, y, x);
  }

  lemma LineAt(a: real, b: real, w: real, u: real, x: real, q: real)
    requires 0.0 < w && q == (b - a) / w
    ensures Line(a, b, w, x - u) == q * x - q * u + a
  {
    Distribute(q, x, u);
  }

  lemma {:induction false} GridIsGentle(xs: seq<real>, fp: seq<real>, slope: real, i: nat, j: nat)
    requires |xs| == |fp| && NoSteeper(xs, fp, slope) && i <= j < |xs|
    ensures Gentle(slope, xs[i], fp[i], xs[j], fp[j])
    decreases j - i
  {
    if i == j {
      LevelIsGentle(slope, xs[i], xs[i], fp[i]);
    } else {
      GridIsGentle(xs, fp, slope, i + 1, j);
    }
  }

  /** The first grid point not in front of `x`. */
  lemma NextGridPoint(x: real, xs: seq<real>, fp: seq<real>, slope: real) returns (p: nat)
    requires |xs| == |fp| > 0 && Increasing(xs) && NoSteeper(xs, fp, slope) && x < xs[|xs| - 1]
    ensures p == if x <= xs[0] then 0 else Cell(x, xs, 0) + 1
    ensures p < |xs| && x <= xs[p] && Gentle(slope, x, Interp(x, xs, fp), xs[p], fp[p])
  {
    if x <= xs[0] {
      p := 0;
      LevelIsGentle(slope, x, xs[0], fp[0]);
    } else {
      var c := Cell(x, xs, 0);
      p := c + 1;
      LineIsGentle(slope, xs[c], fp[c], xs[c + 1], fp[c + 1], x, xs[c + 1]);
      LineEnds(fp[c], fp[c + 1], xs[c + 1] - xs[c]);
    }
  }

  /** The last grid point not behind `y`. */
  lemma PreviousGridPoint(y: real, xs: seq<real>, fp: seq<real>, slope: real) returns (q: nat)
    requires |xs| == |fp| > 0 && Increasing(xs) && NoSteeper(xs, fp, slope) && xs[0] < y
    ensures q == if xs[|xs| - 1] <= y then |xs| - 1 else Cell(y, xs, 0)
    ensures q < |xs| && xs[q] <= y && Gentle(slope, xs[q], fp[q], y, Interp(y, xs, fp))
  {
    if xs[|xs| - 1] <= y {
      q := |xs| - 1;
      LevelIsGentle(slope, xs[q], y, fp[q]);
    } else {
      q := Cell(y, xs, 0);
      LineIsGentle(slope, xs[q], fp[q], xs[q + 1], fp[q + 1], xs[q], y);
      LineEnds(fp[q], fp[q + 1], xs[q + 1] - xs[q]);
    }
  }

  lemma LineEnds(a: real, b: real, w: real)
    requires 0.0 < w
    ensures Line(a, b, w, 0.0) == a && Line(a, b, w, w) == b
  {
  }

  /** Interpolation is nowhere steeper than the source. */
  lemma InterpIsGentle(x: real, y: real, xs: seq<real>, fp: seq<real>, slope: real)
    requires |xs| == |fp| > 0 && Increasing(xs) && NoSteeper(xs, fp, slope) && x <= y
    ensures Gentle(slope, x, Interp(x, xs, fp), y, Interp(y, xs, fp))
  {
    if y <= xs[0] || xs[|xs| - 1] <= x {
      OnePlateau(x, y, xs, fp);
      LevelIsGentle(slope, x, y, Interp(x, xs, fp));
    } else {
      var p := NextGridPoint(x, xs, fp, slope);
      var q := PreviousGridPoint(y, xs, fp, slope);
      if p <= q {
        GridIsGentle(xs, fp, slope, p, q);
      } else {
        CellOrder(x, y, xs);
        LineIsGentle(slope, xs[q], fp[q], xs[q + 1], fp[q + 1], x, y);
      }
    }
  }

  lemma OnePlateau(x: real, y: real, xs: seq<real>, fp: seq<real>)
    requires |xs| == |fp| > 0 && Increasing(xs) && x <= y && (y <= xs[0] || xs[|xs| - 1] <= x)
    ensures Interp(x, xs, fp) == Interp(y, xs, fp)
  {
    if |xs| > 1 { assert xs[0] < xs[|xs| - 1]; }
  }

  // ----- the two resamplers agree -----

  /** The source at an instant, in seconds. */
  function SourceAt(samples: seq<real>, rate: int, t: real): real
    requires samples != [] && 0 < rate
  {
    Interp(t, Grid(|samples|, 1.0 / rate as real), samples)
  }

  /** Instant, in seconds, at which the downlink resampler reads output sample `j`. */
  function DownlinkInstant(j: nat): real { j as real / TARGET_RATE as real }

  /** The same for the feature resampler, whose grid is the unit interval over the clip. */
  function FeatureInstant(n: nat, rate: int, j: nat): real
    requires 0 < n && 0 < rate
  {
    j as real / TargetLength(n, rate) as real * (n as real / rate as real)
  }

  /** The instants of the two grids lie less than half an output period apart. They coincide for the
      first sample, and for a later one exactly when n * 16000 / rate is whole. */
  lemma InstantsTogether(n: nat, rate: int, j: nat)
    requires 0 < n && 0 < rate && j < TargetLength(n, rate)
    ensures -1.0 / 32000.0 < DownlinkInstant(j) - FeatureInstant(n, rate, j) < 1.0 / 32000.0
    ensures DownlinkInstant(j) == FeatureInstant(n, rate, j) <==> j == 0 || n * TARGET_RATE % rate == 0
  {
    var m := TargetLength(n, rate);
    var q := j as real / m as real;
    var e := m as real - IdealLength(n, rate);
    InstantGap(n, rate, j, q, e);
    UnitFraction(j as real, m as real);
    WholeLength(n, rate);
    SmallGap(DownlinkInstant(j), FeatureInstant(n, rate, j), q, if j == 0 then 0.0 else e);
  }

  /** The gap between the two instants is the rounding error of the length, scaled by j / m. */
  lemma InstantGap(n: nat, rate: int, j: nat, q: real, e: real)
    requires 0 < n && 0 < rate
    requires q == j as real / TargetLength(n, rate) as real
    requires e == TargetLength(n, rate) as real - IdealLength(n, rate)
    ensures (DownlinkInstant(j) - FeatureInstant(n, rate, j)) * 16000.0 == q * e
  {
    var m := TargetLength(n, rate) as real;
    var duration := n as real / rate as real;
    LengthPerSecond(n, rate);
    assert q * m == j as real;
    Distribute(q, m, duration * 16000.0);
    assert q * (duration * 16000.0) == q * duration * 16000.0;
  }

  lemma LengthPerSecond(n: nat, rate: int)
    requires 0 < rate
    ensures IdealLength(n, rate) == n as real / rate as real * 16000.0
  {
  }

  lemma SmallGap(s: real, t: real, q: real, e: real)
    requires (s - t) * 16000.0 == q * e
    requires 0.0 <= q < 1.0 && -0.5 <= e <= 0.5
    ensures -1.0 / 32000.0 < s - t < 1.0 / 32000.0
    ensures s == t <==> q == 0.0 || e == 0.0
  {
    if 0.0 < q {
      SignOfProduct(e, q);
      SignOfProduct(e, 1.0 - q);
      Distribute(e, 1.0, q);
    }
  }

  lemma UnitFraction(j: real, m: real)
    requires 0.0 <= j < m
    ensures 0.0 <= j / m < 1.0
    ensures j / m == 0.0 <==> j == 0.0
  {
    var q := j / m;
    assert q * m == j;
    SignOfProduct(q, m);
    SignOfProduct(q - 1.0, m);
  }

  lemma SignOfProduct(a: real, b: real)
    requires 0.0 < b
    ensures 0.0 < a <==> 0.0 < a * b
    ensures 0.0 == a <==> 0.0 == a * b
  {
  }

  /** Rounding the ideal length is exact precisely when the division is. */
  lemma WholeLength(n: nat, rate: int)
    requires 0 < n && 0 < rate
    ensures IdealLength(n, rate) == RoundHalfEven(IdealLength(n, rate)) as real <==> n * TARGET_RATE % rate == 0
  {
    var x := IdealLength(n, rate);
    if n * TARGET_RATE % rate == 0 {
      RealQuotient(n * TARGET_RATE, rate, n * TARGET_RATE / rate);
      RoundUnique(x, n * TARGET_RATE / rate);
    } else if x == RoundHalfEven(x) as real {
      WholeQuotient(n * TARGET_RATE, rate, RoundHalfEven(x));
    }
  }

  lemma RealQuotient(a: int, b: int, q: int)
    requires 0 < b && a == q * b
    ensures a as real / b as real == q as real
  {
    assert a as real == q as real * b as real;
  }

  lemma WholeQuotient(a: int, b: int, q: int)
    requires 0 < b && a as real / b as real == q as real
    ensures a % b == 0
  {
    assert a as real == q as real * b as real;
    assert a == q * b;
    Multiple(q, b);
  }

  lemma Multiple(q: int, b: int)
    requires 0 < b
    ensures q * b % b == 0
  {
    var d, r := q * b / b, q * b % b;
    assert (q - d) * b == r;
    assert q - d >= 1 ==> (q - d - 1) * b >= 0;
    assert q - d <= -1 ==> (q - d + 1) * b <= 0;
  }

  lemma OwnLength(n: nat)
    requires 0 < n
    ensures TargetLength(n, TARGET_RATE) == n
  {
    RealQuotient(n * TARGET_RATE, TARGET_RATE, n);
    RoundUnique(IdealLength(n, TARGET_RATE), n);
  }

  /** Both resamplers give as many samples. */
  lemma SameLength(samples: seq<real>, rate: int)
    requires samples != [] && 0 < rate
    ensures |DownlinkSamples(samples, rate)| == TargetLength(|samples|, rate)
    ensures |FeatureSamples(samples, rate).out| == TargetLength(|samples|, rate)
  {
    if rate == TARGET_RATE { OwnLength(|samples|); }
  }

  lemma DownlinkReads(samples: seq<real>, rate: int, j: nat)
    requires samples != [] && 0 < rate && j < |DownlinkSamples(samples, rate)|
    ensures DownlinkSamples(samples, rate)[j] == SourceAt(samples, rate, DownlinkInstant(j))
  {
    DownlinkGrid(|DownlinkSamples(samples, rate)|, j);
    if rate == TARGET_RATE { InterpAtGridPoint(Grid(|samples|, 1.0 / rate as real), samples, j); }
  }

  lemma DownlinkGrid(m: nat, j: nat)
    requires j < m
    ensures Grid(m, 1.0 / TARGET_RATE as real)[j] == DownlinkInstant(j)
  {
  }

  lemma FeatureReads(samples: seq<real>, rate: int, j: nat)
    requires samples != [] && 0 < rate && j < |FeatureSamples(samples, rate).out|
    ensures FeatureSamples(samples, rate).out[j] == SourceAt(samples, rate, FeatureInstant(|samples|, rate, j))
  {
    var n := |samples|;
    if rate == TARGET_RATE {
      OwnInstant(n, j);
      InterpAtGridPoint(Grid(n, 1.0 / rate as real), samples, j);
    } else {
      OtherRateReads(samples, rate, TargetLength(n, rate), j);
    }
  }

  lemma OtherRateReads(samples: seq<real>, rate: int, m: nat, j: nat)
    requires samples != [] && 0 < rate && m == TargetLength(|samples|, rate) && j < m
    ensures Regrid(samples, 1.0 / |samples| as real, m, 1.0 / m as real)[j]
      == SourceAt(samples, rate, FeatureInstant(|samples|, rate, j))
  {
    var t := Grid(m, 1.0 / m as real)[j];
    FeatureGrid(|samples|, rate, m, j);
    InSeconds(samples, rate, t, FeatureInstant(|samples|, rate, j));
  }

  lemma OwnInstant(n: nat, j: nat)
    requires j < n
    ensures FeatureInstant(n, TARGET_RATE, j) == Grid(n, 1.0 / TARGET_RATE as real)[j]
  {
    OwnLength(n);
    Multiple(n, TARGET_RATE);
    InstantsTogether(n, TARGET_RATE, j);
    DownlinkGrid(n, j);
  }

  lemma FeatureGrid(n: nat, rate: int, m: nat, j: nat)
    requires 0 < n && 0 < rate && m == TargetLength(n, rate) && j < m
    ensures FeatureInstant(n, rate, j) == n as real / rate as real * Grid(m, 1.0 / m as real)[j]
  {
    InUnits(j, m, n as real / rate as real);
  }

  /** Reading on the unit interval is reading in seconds. */
  lemma InSeconds(samples: seq<real>, rate: int, t: real, instant: real)
    requires samples != [] && 0 < rate && instant == |samples| as real / rate as real * t
    ensures Interp(t, Grid(|samples|, 1.0 / |samples| as real), samples) == SourceAt(samples, rate, instant)
  {
    var n := |samples|;
    GridsScale(n, rate);
    InterpScale(n as real / rate as real, t, Grid(n, 1.0 / n as real), instant, Grid(n, 1.0 / rate as real), samples);
  }

  lemma GridsScale(n: nat, rate: int)
    requires 0 < n && 0 < rate
    ensures Scaled(n as real / rate as real, Grid(n, 1.0 / n as real), Grid(n, 1.0 / rate as real))
  {
    var unit, seconds := Grid(n, 1.0 / n as real), Grid(n, 1.0 / rate as real);
    forall i | 0 <= i < n ensures seconds[i] == n as real / rate as real * unit[i] {
      GridUnit(i, n as real, rate as real);
    }
  }

  lemma InUnits(j: int, m: int, duration: real)
    requires 0 < m
    ensures j as real / m as real * duration == duration * (j as real * (1.0 / m as real))
  {
    assert j as real / m as real == j as real * (1.0 / m as real);
  }

  /** Output sample `j` of either resampler is the source at that resampler's instant, and the two
      instants lie less than half an output period apart. They coincide for the first sample, and for a
      later one exactly when n * 16000 / rate is whole. */
  lemma ResamplersReadTogether(samples: seq<real>, rate: int, j: nat)
    requires samples != [] && 0 < rate && j < TargetLength(|samples|, rate)
    ensures var down, feature := DownlinkSamples(samples, rate), FeatureSamples(samples, rate).out;
            var d, f := DownlinkInstant(j), FeatureInstant(|samples|, rate, j);
      && |down| == |feature| == TargetLength(|samples|, rate)
      && down[j] == SourceAt(samples, rate, d) && feature[j] == SourceAt(samples, rate, f)
      && -1.0 / 32000.0 < d - f < 1.0 / 32000.0
      && (d == f <==> j == 0 || |samples| * TARGET_RATE % rate == 0)
  {
    SameLength(samples, rate);
    DownlinkReads(samples, rate, j);
    FeatureReads(samples, rate, j);
    InstantsTogether(|samples|, rate, j);
  }

  /** So no two corresponding samples differ by more than the steepest slope of the source, per second,
      over half an output period. */
  lemma ResamplersStayClose(samples: seq<real>, rate: int, j: nat, slope: real)
    requires samples != [] && 0 < rate && j < TargetLength(|samples|, rate)
    requires NoSteeper(Grid(|samples|, 1.0 / rate as real), samples, slope)
    ensures |DownlinkSamples(samples, rate)| == |FeatureSamples(samples, rate).out| == TargetLength(|samples|, rate)
    ensures var gap := DownlinkSamples(samples, rate)[j] - FeatureSamples(samples, rate).out[j];
      -slope / 32000.0 <= gap <= slope / 32000.0
  {
    var d, f := DownlinkInstant(j), FeatureInstant(|samples|, rate, j);
    var grid := Grid(|samples|, 1.0 / rate as real);
    ResamplersReadTogether(samples, rate, j);
    if d <= f {
      InterpIsGentle(d, f, grid, samples, slope);
      ShortRise(slope, d, SourceAt(samples, rate, d), f, SourceAt(samples, rate, f));
    } else {
      InterpIsGentle(f, d, grid, samples, slope);
      ShortRise(slope, f, SourceAt(samples, rate, f), d, SourceAt(samples, rate, d));
    }
  }

  lemma ShortRise(slope: real, x: real, a: real, y: real, b: real)
    requires 0.0 <= slope && y - x <= 1.0 / 32000.0 && Gentle(slope, x, a, y, b)
    ensures -slope / 32000.0 <= b - a <= slope / 32000.0
  {
    RiseIsNonnegative(slope, 1.0 / 32000.0 - (y - x));
    Distribute(slope, 1.0 / 32000.0, y - x);
    Distribute(slope, y, x);
  }

  /** When n * 16000 / rate is whole the two resamplers produce the same samples. */
  lemma ResamplersAgree(samples: seq<real>, rate: int)
    requires samples != [] && 0 < rate && |samples| * TARGET_RATE % rate == 0
    ensures FeatureSamples(samples, rate) == Converted(DownlinkSamples(samples, rate))
  {
    var down, feature := DownlinkSamples(samples, rate), FeatureSamples(samples, rate).out;
    SameLength(samples, rate);
    forall j | 0 <= j < |down| ensures feature[j] == down[j] {
      ResamplersReadTogether(samples, rate, j);
    }
    assert feature == down;
  }

  lemma GridUnit(i: int, n: real, rate: real)
    requires 0.0 < n && 0.0 < rate
    ensures i as real * (1.0 / rate) == n / rate * (i as real * (1.0 / n))
  {
    var u, v := 1.0 / n, 1.0 / rate;
    assert n * u == 1.0;
    assert n / rate == n * v;
    assert n * v * (i as real * u) == (n * u) * (i as real * v);
  }

  // ----- what the downlink keeps of its source -----

  /** No resampled value leaves the range of the source, so nothing is clipped when the source is
      already in [-1, 1]. */
  lemma DownlinkStaysInRange(samples: seq<real>, rate: int, lo: real, hi: real)
    requires 0 < rate
    requires forall i :: 0 <= i < |samples| ==> lo <= samples[i] <= hi
    ensures forall j :: 0 <= j < |DownlinkSamples(samples, rate)| ==> lo <= DownlinkSamples(samples, rate)[j] <= hi
    ensures -1.0 <= lo && hi <= 1.0 ==>
      forall j :: 0 <= j < |DownlinkSamples(samples, rate)| ==>
        Clip(DownlinkSamples(samples, rate)[j]) == DownlinkSamples(samples, rate)[j]
  {
    var out := DownlinkSamples(samples, rate);
    forall j | 0 <= j < |out| ensures lo <= out[j] <= hi {
      if rate != TARGET_RATE {
        InterpBetween(Grid(|out|, 1.0 / TARGET_RATE as real)[j], Grid(|samples|, 1.0 / rate as real), samples, lo, hi);
      }
    }
  }

  /** A nondecreasing source gives nondecreasing int16 output. */
  lemma DownlinkKeepsOrder(samples: seq<real>, rate: int, i: nat, j: nat)
    requires 0 < rate && Nondecreasing(samples)
    requires i <= j < |DownlinkSamples(samples, rate)|
    ensures ToPcm16(samples, rate).out[i] <= ToPcm16(samples, rate).out[j]
  {
    var out := DownlinkSamples(samples, rate);
    if rate != TARGET_RATE {
      var target := Grid(|out|, 1.0 / TARGET_RATE as real);
      InterpMonotone(target[i], target[j], Grid(|samples|, 1.0 / rate as real), samples);
    }
    QuantiseMonotone(out[i], out[j]);
  }

  /** The clip keeps its duration to 1/32000 s, unless its length had to be forced to one sample;
      that happens exactly when it lasts at most half an output period. */
  lemma DownlinkKeepsDuration(samples: seq<real>, rate: int)
    requires 0 < rate && samples != []
    ensures var source := |samples| as real / rate as real;
            var played := |DownlinkSamples(samples, rate)| as real / TARGET_RATE as real;
      && (source > 1.0 / 32000.0 ==> -1.0 / 32000.0 <= played - source <= 1.0 / 32000.0)
      && (source <= 1.0 / 32000.0 ==> |DownlinkSamples(samples, rate)| == 1)
  {
    var n := |samples|;
    var x := IdealLength(n, rate);
    var source := n as real / rate as real;
    assert x == source * 16000.0;
    if rate != TARGET_RATE {
      if source <= 1.0 / 32000.0 {
        assert 0.0 < x <= 0.5;
        if x < 0.5 { RoundUnique(x, 0); }
      } else {
        assert x > 0.5;
        assert RoundHalfEven(x) >= 1;
      }
    }
  }

  /** Uplink bytes played straight back at 16 kHz: every sample within one step, and the whole
      buffer unchanged exactly when no sample exceeds 16384 in magnitude. */
  lemma UplinkEcho(raw: seq<Byte>)
    requires |raw| % 2 == 0
    ensures var pcm := DecodePcm(raw);
            var echo := ToPcm16(DecodeUplink(raw), TARGET_RATE);
      && echo.Converted? && |echo.out| == |pcm|
      && (forall i :: 0 <= i < |pcm| ==> -1 <= echo.out[i] - pcm[i] <= 1)
      && (forall i :: 0 <= i < |pcm| ==> (echo.out[i] == pcm[i] <==> -16384 <= pcm[i] <= 16384))
  {
    var pcm := DecodePcm(raw);
    forall i | 0 <= i < |pcm|
      ensures var q := Quantise(DecodeUplink(raw)[i]);
        -1 <= q - pcm[i] <= 1 && (q == pcm[i] <==> -16384 <= pcm[i] <= 16384)
    {
      RequantiseSample(pcm[i]);
    }
  }
}
