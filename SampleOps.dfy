/**
 * The in-place array work of `init_data` and `update_data` on one lead's
 * buffer: numpy slice updates (`a[lo:hi] += w`, `a[lo:hi] -= w`), one beat of
 * the heartbeat overlay, the whole fill of a lead, and roll-then-overwrite.
 * Each lead's buffer is a fresh array, as numpy makes one per lead.
 */
module SampleOps {
  import opened Waveform

  /** `a[lo:lo+len(w)] += w`. */
  method AddSlice(a: array<real>, lo: int, w: seq<real>)
    requires 0 <= lo && lo + |w| <= a.Length
    modifies a
    ensures forall j :: 0 <= j < a.Length ==>
      a[j] == old(a[j]) + (if lo <= j < lo + |w| then w[j - lo] else 0.0)
  {
    for k := 0 to |w|
      invariant forall j :: 0 <= j < a.Length ==>
        a[j] == old(a[j]) + (if lo <= j < lo + k then w[j - lo] else 0.0)
    {
      a[lo + k] := a[lo + k] + w[k];
    }
  }

  /** `a[lo:lo+len(w)] -= w`. */
  method SubSlice(a: array<real>, lo: int, w: seq<real>)
    requires 0 <= lo && lo + |w| <= a.Length
    modifies a
    ensures forall j :: 0 <= j < a.Length ==>
      a[j] == old(a[j]) - (if lo <= j < lo + |w| then w[j - lo] else 0.0)
  {
    for k := 0 to |w|
      invariant forall j :: 0 <= j < a.Length ==>
        a[j] == old(a[j]) - (if lo <= j < lo + k then w[j - lo] else 0.0)
    {
      a[lo + k] := a[lo + k] - w[k];
    }
  }

  /** One iteration of the beat loop at anchor i, with its four bounds guards. */
  method AddBeat(a: array<real>, i: int, lead: int, pSine: seq<real>, tSine: seq<real>)
    requires a.Length == N && 0 <= i < N && ShapesOk(pSine, tSine)
    modifies a
    ensures forall j :: 0 <= j < N ==> a[j] == old(a[j]) + BeatDelta(lead, pSine, tSine, i, j)
  {
    ghost var a0 := a[..];
    if i >= 10 {
      AddSlice(a, i - 10, PWave(pSine));
    }
    ghost var a1 := a[..];
    assert forall j :: 0 <= j < N ==>
      a1[j] == a0[j] + (if i >= 10 && i - 10 <= j < i then PWave(pSine)[j - (i - 10)] else 0.0);
    if i + 3 < N {
      a[i] := a[i] - 0.2;
      AddSlice(a, i + 1, RWave(lead));
    }
    ghost var a2 := a[..];
    assert forall j :: 0 <= j < N ==>
      a2[j] == a1[j] + (if i + 3 < N && j == i then -0.2 else 0.0)
                     + (if i + 3 < N && i + 1 <= j < i + 3 then RWave(lead)[j - (i + 1)] else 0.0);
    if i + 5 < N {
      SubSlice(a, i + 3, SWave());
    }
    ghost var a3 := a[..];
    assert forall j :: 0 <= j < N ==>
      a3[j] == a2[j] + (if i + 5 < N && i + 3 <= j < i + 5 then -SWave()[j - (i + 3)] else 0.0);
    if i + 15 < N {
      AddSlice(a, i + 8, TWave(tSine));
    }
  }

  /**
   * The body of `init_data` for one lead: the amplitude-scaled baseline,
   * the beats at `range(15, 500, 50)` added in place, then the noise.
   */
  method FillLead(lead: int, baseSine: seq<real>, pSine: seq<real>, tSine: seq<real>, noise: seq<real>)
    returns (s: seq<real>)
    requires |baseSine| == N && |noise| == N && ShapesOk(pSine, tSine)
    ensures s == FilledLead(lead, baseSine, pSine, tSine, noise)
  {
    var base := Scaled(baseSine, Amplitude(lead));
    var a := new real[N](j requires 0 <= j < N => base[j]);
    var anchors := Anchors();
    for b := 0 to |anchors|
      invariant forall j :: 0 <= j < N ==> a[j] == base[j] + SumDelta(lead, pSine, tSine, anchors[..b], j)
    {
      AnchorGuardsHold(b);
      AddBeat(a, anchors[b], lead, pSine, tSine);
      forall j | 0 <= j < N
        ensures a[j] == base[j] + SumDelta(lead, pSine, tSine, anchors[..b + 1], j)
      {
        SumDeltaExtend(lead, pSine, tSine, anchors, b, j);
      }
    }
    assert anchors[..|anchors|] == anchors;
    ghost var overlaid := a[..];
    AddSlice(a, 0, noise);
    s := a[..];
    forall j | 0 <= j < N
      ensures s[j] == FilledLead(lead, baseSine, pSine, tSine, noise)[j]
    {
      assert s[j] == overlaid[j] + noise[j];
    }
  }

  /**
   * The body of `update_data` for one lead's buffer: `np.roll(buf, -2)` into
   * a new array, then `[-2:] = pts`. The result is a FIFO drop-append.
   */
  method RollAppend(buf: seq<real>, pts: seq<real>) returns (r: seq<real>)
    requires |pts| == Step && Step <= |buf|
    ensures r == DropAppend(buf, pts)
  {
    var n := |buf|;
    var a := new real[n];
    for k := 0 to n
      invariant forall m :: 0 <= m < k ==> a[m] == Rolled(buf, -(Step as int))[m]
    {
      a[k] := buf[(k + Step) % n];
    }
    a[n - 2] := pts[0];
    a[n - 1] := pts[1];
    RolledLeft(buf, Step);
    r := a[..];
    assert r == DropAppend(buf, pts);
  }
}
