/**
 * Pure specification of what `ECGData.init_data` and `ECGData.update_data`
 * compute for one lead. Sine values, Gaussian noise and the uniform random
 * draw are inputs; everything the source derives from them with plain
 * arithmetic and index ranges is modelled here, over exact reals.
 */
module Waveform {

  /** Samples per lead buffer: `np.zeros(500)`, `np.linspace(0, 10*np.pi, 500)`. */
  const N: nat := 500
  /** Samples appended per `update_data` call: `np.roll(..., -2)`, `[-2:]`. */
  const Step: nat := 2
  /** First beat anchor and beat pitch: `range(15, 500, 50)`. */
  const FirstAnchor: int := 15
  const Pitch: int := 50
  /** The uniform draw below which a spike is injected: `np.random.random() < 0.2`. */
  const SpikeThreshold: real := 0.2

  /** Python's `x % 1` on a float: the fractional part, always in [0, 1). */
  function Frac(x: real): (f: real)
    ensures 0.0 <= f < 1.0
    ensures (x - f).Floor as real == x - f
  {
    x - x.Floor as real
  }

  /** `amplitude = 0.5 + (lead_num * 0.1) % 1`. */
  function Amplitude(lead: int): (amp: real)
    ensures 0.5 <= amp < 1.5
  {
    0.5 + Frac(lead as real * 0.1)
  }

  /** For a non-negative lead number the amplitude is 0.5 plus a tenth of its last digit. */
  lemma AmplitudeByLastDigit(lead: nat)
    ensures Amplitude(lead) == 0.5 + (lead % 10) as real / 10.0
  {
    var x := lead as real * 0.1;
    var q := lead / 10;
    assert x == q as real + (lead % 10) as real / 10.0;
    assert q as real <= x < q as real + 1.0;
    assert x.Floor == q;
  }

  /** R-wave and spike scale: `1 + (lead_num % 3) * 0.5`. */
  function RScale(lead: int): (k: real)
    ensures k == 1.0 || k == 1.5 || k == 2.0
    ensures k == 1.0 <==> lead % 3 == 0
  {
    1.0 + (lead % 3) as real * 0.5
  }

  lemma DivSelf(x: real)
    requires x != 0.0
    ensures x / x == 1.0
  {
  }

  /** `np.linspace(start, stop, num)`: num evenly spaced points from start to stop inclusive. */
  function Linspace(start: real, stop: real, num: nat): (r: seq<real>)
    requires num >= 2
    ensures |r| == num && r[0] == start && r[num - 1] == stop
  {
    var r := seq(num, k requires 0 <= k < num => start + (stop - start) * (k as real / (num - 1) as real));
    DivSelf((num - 1) as real);
    r
  }

  /** A waveform multiplied by a constant, element by element. */
  function Scaled(w: seq<real>, c: real): seq<real> {
    seq(|w|, k requires 0 <= k < |w| => w[k] * c)
  }

  /** Python's `range(start, stop, step)` for a positive step. */
  function PyRange(start: int, stop: int, step: int): (r: seq<int>)
    requires step > 0
    ensures forall k :: 0 <= k < |r| ==> r[k] == start + step * k && r[k] < stop
    ensures start + step * |r| >= stop
    decreases stop - start
  {
    if start >= stop then [] else [start] + PyRange(start + step, stop, step)
  }

  /** The beat anchors of `init_data`. */
  function Anchors(): (r: seq<int>)
    ensures forall k :: 0 <= k < |r| ==> 0 <= r[k] < N && r[k] % Pitch == FirstAnchor
    ensures forall i :: 0 <= i < N && i % Pitch == FirstAnchor ==> i in r
  {
    var r := PyRange(FirstAnchor, N, Pitch);
    forall i | 0 <= i < N && i % Pitch == FirstAnchor
      ensures i in r
    {
      var k := i / Pitch;
      assert i == FirstAnchor + Pitch * k;
      assert k < |r|;
      assert r[k] == i;
    }
    r
  }

  /** There are ten beats, at 15, 65, …, 465. */
  lemma AnchorsExact()
    ensures |Anchors()| == 10
    ensures forall b :: 0 <= b < 10 ==> Anchors()[b] == FirstAnchor + Pitch * b
  {
  }

  /** At every anchor all four guards of the beat loop pass, so each beat is written whole and in bounds. */
  lemma AnchorGuardsHold(b: int)
    requires 0 <= b < |Anchors()|
    ensures var i := Anchors()[b];
      i >= 10 && i + 3 < N && i + 5 < N && i + 15 < N && 0 <= i - 10 && i + 15 <= N
  {
  }

  /**
   * P wave: `np.sin(np.linspace(0, np.pi, 10)) * 0.2`, given the sine values.
   * Sines of [0, pi] lie in [0, 1], so the P wave stays within [0, 0.2].
   */
  function PWave(pSine: seq<real>): (w: seq<real>)
    ensures |w| == |pSine|
    ensures (forall k :: 0 <= k < |pSine| ==> 0.0 <= pSine[k] <= 1.0) ==>
      forall k :: 0 <= k < |w| ==> 0.0 <= w[k] <= 0.2
  {
    Scaled(pSine, 0.2)
  }

  /** R wave: `np.linspace(0, 2, 2) * (1 + (lead_num % 3) * 0.5)`, a rise from 0 to twice the R scale. */
  function RWave(lead: int): (w: seq<real>)
    ensures w == [0.0, 2.0 * RScale(lead)]
  {
    Scaled(Linspace(0.0, 2.0, 2), RScale(lead))
  }

  /** S wave (subtracted): `np.linspace(0.5, 0, 2) * 0.3`, a fall from 0.15 to 0. */
  function SWave(): (w: seq<real>)
    ensures w == [0.15, 0.0]
  {
    Scaled(Linspace(0.5, 0.0, 2), 0.3)
  }

  /**
   * T wave: `np.sin(np.linspace(0, np.pi, 7)) * 0.3`, given the sine values.
   * Sines of [0, pi] lie in [0, 1], so the T wave stays within [0, 0.3].
   */
  function TWave(tSine: seq<real>): (w: seq<real>)
    ensures |w| == |tSine|
    ensures (forall k :: 0 <= k < |tSine| ==> 0.0 <= tSine[k] <= 1.0) ==>
      forall k :: 0 <= k < |w| ==> 0.0 <= w[k] <= 0.3
  {
    Scaled(tSine, 0.3)
  }

  predicate ShapesOk(pSine: seq<real>, tSine: seq<real>) {
    |pSine| == 10 && |tSine| == 7
  }

  /**
   * What one iteration of the beat loop, at anchor i, adds to sample j:
   * each of the five guarded slice updates contributes where its slice covers j.
   * A beat touches only [i - 10, i + 5) and [i + 8, i + 15).
   */
  function BeatDelta(lead: int, pSine: seq<real>, tSine: seq<real>, i: int, j: int): (d: real)
    requires ShapesOk(pSine, tSine)
    ensures j < i - 10 || i + 15 <= j || (i + 5 <= j < i + 8) ==> d == 0.0
  {
    (if i >= 10 && i - 10 <= j < i then PWave(pSine)[j - (i - 10)] else 0.0)
    + (if i + 3 < N && j == i then -0.2 else 0.0)
    + (if i + 3 < N && i + 1 <= j < i + 3 then RWave(lead)[j - (i + 1)] else 0.0)
    + (if i + 5 < N && i + 3 <= j < i + 5 then -SWave()[j - (i + 3)] else 0.0)
    + (if i + 15 < N && i + 8 <= j < i + 15 then TWave(tSine)[j - (i + 8)] else 0.0)
  }

  /**
   * Within one whole beat the five parts occupy disjoint index ranges, so each
   * touched sample gets exactly one part's delta: P over [i-10, i), Q −0.2 at i,
   * R 0 then 2·scale at i+1, i+2, S −0.15 then −0 at i+3, i+4, T over [i+8, i+15).
   */
  lemma BeatOffsets(lead: int, pSine: seq<real>, tSine: seq<real>, i: int)
    requires ShapesOk(pSine, tSine)
    requires 10 <= i && i + 15 < N
    ensures forall k :: 0 <= k < 10 ==> BeatDelta(lead, pSine, tSine, i, i - 10 + k) == pSine[k] * 0.2
    ensures BeatDelta(lead, pSine, tSine, i, i) == -0.2
    ensures BeatDelta(lead, pSine, tSine, i, i + 1) == 0.0
    ensures BeatDelta(lead, pSine, tSine, i, i + 2) == 2.0 * RScale(lead)
    ensures BeatDelta(lead, pSine, tSine, i, i + 3) == -0.15
    ensures BeatDelta(lead, pSine, tSine, i, i + 4) == 0.0
    ensures forall k :: 0 <= k < 7 ==> BeatDelta(lead, pSine, tSine, i, i + 8 + k) == tSine[k] * 0.3
  {
  }

  /** Total delta that the beats at `anchors`, applied in order, add to sample j. */
  function SumDelta(lead: int, pSine: seq<real>, tSine: seq<real>, anchors: seq<int>, j: int): (d: real)
    requires ShapesOk(pSine, tSine)
    ensures (forall k :: 0 <= k < |anchors| ==> j < anchors[k] - 10 || anchors[k] + 15 <= j) ==> d == 0.0
    decreases |anchors|
  {
    if |anchors| == 0 then 0.0
    else SumDelta(lead, pSine, tSine, anchors[..|anchors| - 1], j)
         + BeatDelta(lead, pSine, tSine, anchors[|anchors| - 1], j)
  }

  /** Applying one more beat adds that beat's delta to the running total. */
  lemma SumDeltaExtend(lead: int, pSine: seq<real>, tSine: seq<real>, anchors: seq<int>, b: nat, j: int)
    requires ShapesOk(pSine, tSine) && b < |anchors|
    ensures SumDelta(lead, pSine, tSine, anchors[..b + 1], j)
            == SumDelta(lead, pSine, tSine, anchors[..b], j) + BeatDelta(lead, pSine, tSine, anchors[b], j)
  {
    assert anchors[..b + 1][..b] == anchors[..b];
  }

  /** Index of the beat whose 50-sample block holds sample j. */
  function BeatOf(j: int): int { j / Pitch }

  function AnchorOf(j: int): int { FirstAnchor + Pitch * BeatOf(j) }

  /**
   * After the first m beats, a sample has received the delta of its own beat
   * if that beat is among them, and nothing otherwise: beat footprints are
   * pairwise disjoint.
   */
  /** A sample outside beat b's 50-sample block lies outside that beat's footprint. */
  lemma OutsideBlock(b: int, j: int)
    requires 0 <= b && 0 <= j && BeatOf(j) != b
    ensures j < FirstAnchor + Pitch * b - 10 || FirstAnchor + Pitch * b + 15 <= j
  {
    assert Pitch * BeatOf(j) <= j < Pitch * BeatOf(j) + Pitch;
    if BeatOf(j) < b {
      assert Pitch * BeatOf(j) + Pitch <= Pitch * b;
    } else {
      assert Pitch * b + Pitch <= Pitch * BeatOf(j);
    }
  }

  lemma {:induction false} SumDeltaPrefix(lead: int, pSine: seq<real>, tSine: seq<real>, m: nat, j: int)
    requires ShapesOk(pSine, tSine)
    requires m <= |Anchors()| && 0 <= j < N
    ensures SumDelta(lead, pSine, tSine, Anchors()[..m], j)
            == if BeatOf(j) < m then BeatDelta(lead, pSine, tSine, AnchorOf(j), j) else 0.0
  {
    if m > 0 {
      AnchorsExact();
      var pre := Anchors()[..m];
      var a := Anchors()[m - 1];
      assert pre[..m - 1] == Anchors()[..m - 1];
      assert SumDelta(lead, pSine, tSine, pre, j)
             == SumDelta(lead, pSine, tSine, Anchors()[..m - 1], j) + BeatDelta(lead, pSine, tSine, a, j);
      SumDeltaPrefix(lead, pSine, tSine, m - 1, j);
      if BeatOf(j) != m - 1 {
        OutsideBlock(m - 1, j);
      }
    }
  }

  /** Every sample receives the delta of exactly one beat: the one whose block contains it. */
  lemma OneBeatPerSample(lead: int, pSine: seq<real>, tSine: seq<real>, j: int)
    requires ShapesOk(pSine, tSine)
    requires 0 <= j < N
    ensures 0 <= BeatOf(j) < |Anchors()| && AnchorOf(j) == Anchors()[BeatOf(j)]
    ensures SumDelta(lead, pSine, tSine, Anchors(), j) == BeatDelta(lead, pSine, tSine, AnchorOf(j), j)
  {
    AnchorsExact();
    assert Anchors()[..10] == Anchors();
    SumDeltaPrefix(lead, pSine, tSine, 10, j);
  }

  /**
   * The closed form of the heartbeat overlay: by the sample's position in its
   * 50-sample block, P (positions 5..14), Q (15), R (16, 17), S (18, 19),
   * T (23..29), and no change anywhere else.
   */
  lemma ComplexDelta(lead: int, pSine: seq<real>, tSine: seq<real>, j: int)
    requires ShapesOk(pSine, tSine)
    requires 0 <= j < N
    ensures var d := SumDelta(lead, pSine, tSine, Anchors(), j);
            var pos := j % Pitch;
            && (5 <= pos < 15 ==> d == pSine[pos - 5] * 0.2)
            && (pos == 15 ==> d == -0.2)
            && (pos == 16 ==> d == 0.0)
            && (pos == 17 ==> d == 2.0 * RScale(lead))
            && (pos == 18 ==> d == -0.15)
            && (pos == 19 ==> d == 0.0)
            && (23 <= pos < 30 ==> d == tSine[pos - 23] * 0.3)
            && (pos < 5 || 20 <= pos < 23 || 30 <= pos ==> d == 0.0)
  {
    OneBeatPerSample(lead, pSine, tSine, j);
    var i := AnchorOf(j);
    AnchorGuardsHold(BeatOf(j));
    BeatOffsets(lead, pSine, tSine, i);
    var pos := j % Pitch;
    assert j == i - FirstAnchor + pos;
  }

  /** One lead as `init_data` leaves it: amplitude-scaled baseline, plus the beats, plus noise. */
  function FilledLead(lead: int, baseSine: seq<real>, pSine: seq<real>, tSine: seq<real>, noise: seq<real>): (s: seq<real>)
    requires |baseSine| == N && |noise| == N && ShapesOk(pSine, tSine)
    ensures |s| == N
  {
    seq(N, j requires 0 <= j < N =>
      baseSine[j] * Amplitude(lead) + SumDelta(lead, pSine, tSine, Anchors(), j) + noise[j])
  }

  /** Spike added to the second new point when the draw is below the threshold. */
  function Spike(lead: int, draw: real): (h: real)
    ensures h == 0.0 || h == 1.2 || h == 1.8 || h == 2.4
    ensures h != 0.0 <==> draw < SpikeThreshold
  {
    if draw < SpikeThreshold then 1.2 * RScale(lead) else 0.0
  }

  /**
   * The two points `update_data` appends to a lead: the amplitude-scaled sine
   * values, a possible spike on the second, then noise.
   */
  function NewPoints(lead: int, sine: seq<real>, draw: real, noise: seq<real>): (pts: seq<real>)
    requires |sine| == Step && |noise| == Step
    ensures |pts| == Step
  {
    var base := Scaled(sine, Amplitude(lead));
    var spiked := base[1 := base[1] + Spike(lead, draw)];
    seq(Step, k requires 0 <= k < Step => spiked[k] + noise[k])
  }

  /**
   * The random draw only ever changes the second new point, and by exactly
   * the spike height: compared with any other draw, point 0 is equal and point 1
   * differs by the difference of the spikes.
   */
  lemma SpikeOnlyOnSecondPoint(lead: int, sine: seq<real>, noise: seq<real>, draw: real, other: real)
    requires |sine| == Step && |noise| == Step
    ensures NewPoints(lead, sine, draw, noise)[0] == NewPoints(lead, sine, other, noise)[0]
    ensures NewPoints(lead, sine, draw, noise)[1] - NewPoints(lead, sine, other, noise)[1]
            == Spike(lead, draw) - Spike(lead, other)
  {
  }

  /** `np.roll(s, shift)`: sample k of the result is sample (k - shift) mod |s| of s. */
  function Rolled(s: seq<real>, shift: int): (r: seq<real>)
    requires |s| > 0
    ensures |r| == |s|
  {
    seq(|s|, k requires 0 <= k < |s| => s[(k - shift) % |s|])
  }

  lemma ModInRange(x: int, n: int)
    requires 0 <= x < n
    ensures x % n == x
  {
  }

  lemma ModWrapOnce(x: int, n: int)
    requires 0 < n <= x < 2 * n
    ensures x % n == x - n
  {
  }

  /** Rolling left by k is a rotation: the first k samples move to the end. */
  lemma RolledLeft(s: seq<real>, k: nat)
    requires 0 < |s| && k <= |s|
    ensures Rolled(s, -(k as int)) == s[k..] + s[..k]
  {
    var r := Rolled(s, -(k as int));
    var t := s[k..] + s[..k];
    var n := |s|;
    forall m | 0 <= m < n
      ensures r[m] == t[m]
    {
      assert r[m] == s[(m + k) % n];
      if m + k < n {
        ModInRange(m + k, n);
        assert t[m] == s[m + k];
      } else {
        ModWrapOnce(m + k, n);
        assert t[m] == s[m + k - n];
      }
    }
  }

  /** FIFO roll: drop the oldest |pts| samples and append pts at the newest end. */
  function DropAppend(buf: seq<real>, pts: seq<real>): (r: seq<real>)
    requires |pts| <= |buf|
    ensures |r| == |buf|
  {
    buf[|pts|..] + pts
  }

  /** After a drop-append, the old samples keep their order, shifted down by |pts|, and the tail is pts. */
  lemma DropAppendShifts(buf: seq<real>, pts: seq<real>, k: int)
    requires |pts| <= |buf| && 0 <= k < |buf|
    ensures k < |buf| - |pts| ==> DropAppend(buf, pts)[k] == buf[k + |pts|]
    ensures k >= |buf| - |pts| ==> DropAppend(buf, pts)[k] == pts[k - (|buf| - |pts|)]
  {
  }

  /** The points of successive ticks, oldest first. */
  function Concat(ticks: seq<seq<real>>): (r: seq<real>)
    requires forall t :: 0 <= t < |ticks| ==> |ticks[t]| == Step
    ensures |r| == Step * |ticks|
    decreases |ticks|
  {
    if |ticks| == 0 then [] else Concat(ticks[..|ticks| - 1]) + ticks[|ticks| - 1]
  }

  /** A buffer after a sequence of update ticks, one drop-append per tick. */
  function Advance(buf: seq<real>, ticks: seq<seq<real>>): (r: seq<real>)
    requires |buf| >= Step
    requires forall t :: 0 <= t < |ticks| ==> |ticks[t]| == Step
    ensures |r| == |buf|
    decreases |ticks|
  {
    if |ticks| == 0 then buf
    else DropAppend(Advance(buf, ticks[..|ticks| - 1]), ticks[|ticks| - 1])
  }

  /**
   * The buffer is always a sliding window: after t ticks it is the last |buf|
   * samples of the initial buffer followed by every point appended since.
   */
  lemma {:induction false} AdvanceIsWindow(buf: seq<real>, ticks: seq<seq<real>>)
    requires |buf| >= Step
    requires forall t :: 0 <= t < |ticks| ==> |ticks[t]| == Step
    ensures Advance(buf, ticks) == (buf + Concat(ticks))[Step * |ticks|..]
    decreases |ticks|
  {
    if |ticks| > 0 {
      var pre := ticks[..|ticks| - 1];
      var last := ticks[|ticks| - 1];
      AdvanceIsWindow(buf, pre);
      var all := buf + Concat(pre);
      assert buf + Concat(ticks) == all + last;
      assert (all + last)[Step * |ticks|..] == all[Step * |pre|..][Step..] + last;
    }
  }

  /** After N / Step = 250 ticks every sample of a 500-sample buffer has been replaced by new points. */
  lemma FullRotation(buf: seq<real>, ticks: seq<seq<real>>)
    requires |buf| == N && |ticks| == N / Step
    requires forall t :: 0 <= t < |ticks| ==> |ticks[t]| == Step
    ensures Advance(buf, ticks) == Concat(ticks)
  {
    AdvanceIsWindow(buf, ticks);
    assert (buf + Concat(ticks))[N..] == Concat(ticks);
  }
}
