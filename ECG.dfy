/**
 * The `ECGData` sample store: a dictionary from the twelve lead keys
 * "lead_1" … "lead_12" to 500-sample buffers, filled once at construction
 * and advanced by two samples per lead on every `update_data` call.
 */
module ECG {
  import opened LeadKeys
  import opened Waveform
  import opened SampleOps

  /** The per-lead values `init_data` takes from numpy: `np.sin(x * freq + phase)` and `np.random.normal(0, 0.03, 500)`. */
  datatype FillInput = FillInput(baseSine: seq<real>, noise: seq<real>)

  /**
   * The per-lead values one `update_data` call takes from numpy: the two sine
   * values, the uniform draw `np.random.random()` and `np.random.normal(0, 0.05, 2)`.
   */
  datatype TickInput = TickInput(sine: seq<real>, draw: real, noise: seq<real>)

  predicate FillInputsOk(inputs: map<int, FillInput>) {
    forall n :: 1 <= n <= LeadCount ==>
      n in inputs && |inputs[n].baseSine| == N && |inputs[n].noise| == N
  }

  predicate TickInputsOk(ticks: map<int, TickInput>) {
    forall n :: 1 <= n <= LeadCount ==>
      n in ticks && |ticks[n].sine| == Step && |ticks[n].noise| == Step
  }

  /** `np.zeros(len)`. */
  function Zeros(len: nat): seq<real> {
    seq(len, _ => 0.0)
  }

  /**
   * The dictionary `__init__` builds before `init_data`: a zero buffer for each
   * of `lead_1` … `lead_12`, which already has the store's shape.
   */
  function InitialStore(): (d: map<string, seq<real>>)
    ensures ValidStore(d)
  {
    map n: nat | 1 <= n <= LeadCount :: LeadKey(n) := Zeros(N)
  }

  /** A store dictionary: exactly the twelve lead keys, each holding exactly N samples. */
  ghost predicate ValidStore(d: map<string, seq<real>>) {
    d.Keys == KeySet() && forall key :: key in d ==> |d[key]| == N
  }

  /** Every store key is the key of a lead in 1..12. */
  lemma StoreKeyIsLead(d: map<string, seq<real>>, key: string)
    requires d.Keys == KeySet() && key in d
    ensures exists n :: 1 <= n <= LeadCount && key == LeadKey(n)
  {
  }

  /**
   * The dictionary once a loop over the keys in order has replaced the
   * buffers of its first k keys, lead n's by `values[n - 1]`.
   */
  ghost function ReplacedUpTo(before: map<string, seq<real>>, values: seq<seq<real>>, k: nat): map<string, seq<real>>
    requires k <= |values|
  {
    if k == 0 then before else ReplacedUpTo(before, values, k - 1)[LeadKey(k) := values[k - 1]]
  }

  /** After k keys the key set is unchanged, and lead n holds its new buffer iff n <= k. */
  lemma {:induction false} ReplacedUpToAt(before: map<string, seq<real>>, values: seq<seq<real>>, k: nat, n: int)
    requires before.Keys == KeySet() && |values| == LeadCount && k <= LeadCount
    requires 1 <= n <= LeadCount
    ensures ReplacedUpTo(before, values, k).Keys == KeySet()
    ensures ReplacedUpTo(before, values, k)[LeadKey(n)] == if n <= k then values[n - 1] else before[LeadKey(n)]
  {
    if k > 0 {
      ReplacedUpToAt(before, values, k - 1, n);
      var prev := ReplacedUpTo(before, values, k - 1);
      assert LeadKey(k) in prev;
      if n != k {
        LeadKeyInjective(n, k);
        assert ReplacedUpTo(before, values, k)[LeadKey(n)] == prev[LeadKey(n)];
      }
    }
  }

  /**
   * Once all twelve keys are handled, every lead holds its own new buffer,
   * and if those all have N samples the store is valid.
   */
  lemma ReplacedAll(before: map<string, seq<real>>, values: seq<seq<real>>)
    requires before.Keys == KeySet() && |values| == LeadCount
    requires forall i :: 0 <= i < LeadCount ==> |values[i]| == N
    ensures ValidStore(ReplacedUpTo(before, values, LeadCount))
    ensures forall n :: 1 <= n <= LeadCount ==> ReplacedUpTo(before, values, LeadCount)[LeadKey(n)] == values[n - 1]
  {
    var d := ReplacedUpTo(before, values, LeadCount);
    ReplacedUpToAt(before, values, LeadCount, 1);
    forall n | 1 <= n <= LeadCount
      ensures d[LeadKey(n)] == values[n - 1]
    {
      ReplacedUpToAt(before, values, LeadCount, n);
    }
    forall key | key in d
      ensures |d[key]| == N
    {
      StoreKeyIsLead(d, key);
    }
  }

  /** The buffers `init_data` gives leads 1..12. */
  function FilledValues(inputs: map<int, FillInput>, pSine: seq<real>, tSine: seq<real>): (values: seq<seq<real>>)
    requires FillInputsOk(inputs) && ShapesOk(pSine, tSine)
    ensures |values| == LeadCount && forall i :: 0 <= i < LeadCount ==> |values[i]| == N
  {
    seq(LeadCount, i requires 0 <= i < LeadCount =>
      FilledLead(i + 1, inputs[i + 1].baseSine, pSine, tSine, inputs[i + 1].noise))
  }

  /** The buffers one `update_data` call gives leads 1..12. */
  function UpdatedValues(before: map<string, seq<real>>, ticks: map<int, TickInput>): (values: seq<seq<real>>)
    requires ValidStore(before) && TickInputsOk(ticks)
    ensures |values| == LeadCount && forall i :: 0 <= i < LeadCount ==> |values[i]| == N
  {
    seq(LeadCount, i requires 0 <= i < LeadCount =>
      DropAppend(before[LeadKey(i + 1)], NewPoints(i + 1, ticks[i + 1].sine, ticks[i + 1].draw, ticks[i + 1].noise)))
  }

  /** After `init_data` the store is valid and lead n holds its filled waveform. */
  lemma FilledAll(before: map<string, seq<real>>, inputs: map<int, FillInput>, pSine: seq<real>, tSine: seq<real>)
    requires before.Keys == KeySet() && FillInputsOk(inputs) && ShapesOk(pSine, tSine)
    ensures ValidStore(ReplacedUpTo(before, FilledValues(inputs, pSine, tSine), LeadCount))
    ensures forall n :: 1 <= n <= LeadCount ==>
      ReplacedUpTo(before, FilledValues(inputs, pSine, tSine), LeadCount)[LeadKey(n)]
      == FilledLead(n, inputs[n].baseSine, pSine, tSine, inputs[n].noise)
  {
    ReplacedAll(before, FilledValues(inputs, pSine, tSine));
  }

  /** After `update_data` the store is valid and lead n is its old buffer advanced by its two new points. */
  lemma UpdatedAll(before: map<string, seq<real>>, ticks: map<int, TickInput>)
    requires ValidStore(before) && TickInputsOk(ticks)
    ensures ValidStore(ReplacedUpTo(before, UpdatedValues(before, ticks), LeadCount))
    ensures forall n :: 1 <= n <= LeadCount ==>
      ReplacedUpTo(before, UpdatedValues(before, ticks), LeadCount)[LeadKey(n)]
      == DropAppend(before[LeadKey(n)], NewPoints(n, ticks[n].sine, ticks[n].draw, ticks[n].noise))
  {
    ReplacedAll(before, UpdatedValues(before, ticks));
  }

  class ECGData {
    var data: map<string, seq<real>>

    /** Exactly the twelve lead keys, each holding exactly N samples. */
    ghost predicate Valid()
      reads this
      ensures Valid() ==> |data| == LeadCount
    {
      KeySetCard();
      assert data.Keys == KeySet() ==> |data| == |data.Keys|;
      ValidStore(data)
    }

    /** `__init__`: twelve zero buffers, then `init_data`. */
    constructor (inputs: map<int, FillInput>, pSine: seq<real>, tSine: seq<real>)
      requires FillInputsOk(inputs) && ShapesOk(pSine, tSine)
      ensures Valid()
      ensures forall n :: 1 <= n <= LeadCount ==>
        data[LeadKey(n)] == FilledLead(n, inputs[n].baseSine, pSine, tSine, inputs[n].noise)
    {
      data := InitialStore();
      new;
      InitData(inputs, pSine, tSine);
    }

    /** `init_data`: every lead, in key order, is replaced by its filled waveform. */
    method InitData(inputs: map<int, FillInput>, pSine: seq<real>, tSine: seq<real>)
      requires data.Keys == KeySet()
      requires FillInputsOk(inputs) && ShapesOk(pSine, tSine)
      modifies this
      ensures Valid()
      ensures forall n :: 1 <= n <= LeadCount ==>
        data[LeadKey(n)] == FilledLead(n, inputs[n].baseSine, pSine, tSine, inputs[n].noise)
    {
      var keys := KeyOrder();
      ghost var before := data;
      ghost var values := FilledValues(inputs, pSine, tSine);
      for k := 0 to |keys|
        invariant data == ReplacedUpTo(before, values, k)
      {
        var key := keys[k];
        assert key == LeadKey(k + 1);
        LeadKeyRoundTrip(k + 1);
        var lead := ParseLeadNumber(key).value;
        var input := inputs[lead];
        var filled := FillLead(lead, input.baseSine, pSine, tSine, input.noise);
        data := data[key := filled];
      }
      FilledAll(before, inputs, pSine, tSine);
    }

    /**
     * `update_data`: every lead, in key order, is rolled left by two and its
     * last two samples overwritten with that lead's new points. Returns the
     * store's contents.
     */
    method UpdateData(ticks: map<int, TickInput>) returns (snapshot: map<string, seq<real>>)
      requires Valid() && TickInputsOk(ticks)
      modifies this
      ensures Valid()
      ensures forall n :: 1 <= n <= LeadCount ==>
        data[LeadKey(n)]
        == DropAppend(old(data)[LeadKey(n)], NewPoints(n, ticks[n].sine, ticks[n].draw, ticks[n].noise))
      ensures snapshot == data
    {
      var keys := KeyOrder();
      ghost var before := data;
      ghost var values := UpdatedValues(before, ticks);
      for k := 0 to |keys|
        invariant data == ReplacedUpTo(before, values, k)
      {
        var key := keys[k];
        assert key == LeadKey(k + 1);
        ReplacedUpToAt(before, values, k, k + 1);
        LeadKeyRoundTrip(k + 1);
        var lead := ParseLeadNumber(key).value;
        var tick := ticks[lead];
        var pts := NewPoints(lead, tick.sine, tick.draw, tick.noise);
        var rolled := RollAppend(data[key], pts);
        data := data[key := rolled];
      }
      UpdatedAll(before, ticks);
      snapshot := data;
    }
  }
}
