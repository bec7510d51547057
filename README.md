# ECG sample store — a Dafny model

This project models the `ECGData` class of a small 12-lead ECG simulator
(`app.py`). The store is a dictionary from the keys `lead_1` … `lead_12` to
500-sample buffers.

- **Construction** makes twelve zero buffers and runs `init_data`.
- **`init_data`** gives each lead an amplitude-scaled baseline sinusoid. It adds a
  heartbeat complex (P, Q, R, S, T) at the anchors `range(15, 500, 50)`, then
  Gaussian noise.
- **`update_data`** advances every lead by two samples. It rolls the buffer left by
  two (`np.roll(..., -2)`) and overwrites the last two slots with new points. A new
  point is a sine value scaled by the amplitude, plus an optional spike on the
  second point, plus noise.
- **Keys** are written with `f"lead_{i}"` and read back with `int(key.split('_')[1])`.

Files:

- `LeadKeys.dfy` (module `LeadKeys`) covers the key format and parse. It models
  decimal rendering, `str.split` on one character with `str.join` as its inverse,
  and `int()`. It proves that parsing a key gives back its lead number and that
  there are exactly twelve distinct keys.
- `Waveform.dfy` (module `Waveform`) holds the pure specification:
  - the amplitude and R-scale formulas and `np.linspace`;
  - `range` and the beat anchors;
  - what one beat adds to each sample, and the sum over all beats with its closed form;
  - the new points and the spike;
  - `np.roll`, the FIFO drop-append, and the sliding-window view of many update calls.
- `SampleOps.dfy` (module `SampleOps`) holds the in-place array work for one lead:
  slice `+=` and `-=`, one guarded beat, a whole lead's fill, and roll-then-overwrite.
  Each method is proved against the `Waveform` functions.
- `ECG.dfy` (module `ECG`) holds the class `ECGData`. Its field
  `data: map<string, seq<real>>` is the dictionary. Its invariant is "exactly the
  twelve lead keys, each with 500 samples". The constructor, `InitData` and
  `UpdateData` loop over the keys in insertion order and parse each key as the
  source does.

Sine values, Gaussian noise and the uniform draw are inputs to the model:

- `init_data`: per lead, the 500 values of `np.sin(x * freq + phase)` and the
  500 noise values; shared by all leads, the 10 values of
  `np.sin(np.linspace(0, np.pi, 10))` and the 7 values of
  `np.sin(np.linspace(0, np.pi, 7))`.
- `update_data`: per lead, the 2 sine values, the draw of
  `np.random.random()` and the 2 noise values.

All arithmetic the source applies to these inputs is modelled exactly over `real`.
That covers the amplitude, the 0.2/0.3 shape factors, the R scale, the Q/R/S
constants, the spike height and its threshold.

In `init_data` every guard (`i >= 10`, `i+3 < 500`, `i+5 < 500`, `i+15 < 500`) is
modelled as written. `AnchorGuardsHold` shows that all of them pass at every anchor
the loop visits.

## Model

| member | source | states |
|---|---|---|
| `LeadKeys.Decimal` | app.py:15 | the f-string rendering of a lead number is non-empty, all decimal digits, and starts with '0' only for 0 |
| `LeadKeys.DecimalValue` | app.py:15 | reading the digits of a rendered number gives the number back |
| `LeadKeys.ParseInt` | app.py:20 | `int()` fails on empty text and gives the digit value of an all-digit text |
| `LeadKeys.Split` | app.py:20 | `str.split` gives one more piece than there are separators, and no piece contains the separator |
| `LeadKeys.SplitJoin` | app.py:20 | joining the pieces of a split with the same separator restores the text |
| `LeadKeys.SplitWithoutSeparator` | app.py:20 | text without the separator splits into itself alone |
| `LeadKeys.SplitAfterFirst` | app.py:20 | text whose first separator follows a prefix splits into that prefix followed by the pieces of the rest |
| `LeadKeys.LeadKey` | app.py:15 | the key `f"lead_{n}"` has exactly one '_', so `split('_')` gives the two pieces "lead" and the decimal digits of n |
| `LeadKeys.ParseLeadNumber` | app.py:20 | `int(key.split('_')[1])` fails (IndexError in the source) on a key with no '_' |
| `LeadKeys.LeadKeyRoundTrip` | app.py:46 | `int(f"lead_{n}".split('_')[1]) == n` for every natural n: parsing a generated key gives back its lead number |
| `LeadKeys.LeadKeyInjective` | app.py:15 | two lead keys are equal exactly when their lead numbers are |
| `LeadKeys.KeyOrderCoversKeySet` | app.py:15-19 | `for lead in self.data` visits twelve pairwise-distinct keys whose set is exactly the store's key set: every lead is visited once, none skipped and none added |
| `LeadKeys.KeysUpToCard` | app.py:15 | the keys of the first m leads are m distinct strings |
| `LeadKeys.KeySetCard` | app.py:15 | the store has exactly twelve distinct keys |
| `LeadKeys.KeySetExact` | app.py:15-20 | a string is a key of the store iff it is `lead_n` for some n in 1..12, and every key parses to such an n |
| `Waveform.Frac` | app.py:22 | Python's `% 1` on a float lies in [0, 1) and leaves an integer when subtracted |
| `Waveform.Amplitude` | app.py:22 | the amplitude always lies in [0.5, 1.5) |
| `Waveform.AmplitudeByLastDigit` | app.py:48 | the amplitude of lead n is 0.5 plus a tenth of n's last decimal digit |
| `Waveform.RScale` | app.py:33 | the R and spike scale is 1, 1.5 or 2, and is 1 exactly when the lead number is a multiple of 3 |
| `Waveform.Linspace` | app.py:36 | `np.linspace(start, stop, num)` has num points, the first start and the last stop |
| `Waveform.PyRange` | app.py:27 | `range(start, stop, step)` lists start + step·k for k = 0, 1, …, all below stop, and stops at the first value that reaches stop |
| `Waveform.Anchors` | app.py:27 | the anchors of `range(15, 500, 50)` are exactly the samples in [0, 500) at position 15 of their 50-sample block: every anchor is one, and every such sample is an anchor |
| `Waveform.AnchorsExact` | app.py:27 | the beat anchors are exactly the ten values 15, 65, …, 465 |
| `Waveform.AnchorGuardsHold` | app.py:27-40 | at every anchor all four guards are true, and the whole beat [i-10, i+15) lies inside [0, 500) |
| `Waveform.PWave` | app.py:29 | the P wave has one sample per sine value, and lies in [0, 0.2] when the sine values lie in [0, 1] as sines of [0, π] do |
| `Waveform.RWave` | app.py:33 | the R wave is the two samples 0 and 2·scale |
| `Waveform.SWave` | app.py:36 | the S wave is the two samples 0.15 and 0 |
| `Waveform.TWave` | app.py:39 | the T wave has one sample per sine value, and lies in [0, 0.3] when the sine values lie in [0, 1] |
| `Waveform.BeatDelta` | app.py:28-40 | one iteration of the beat loop at anchor i changes no sample outside [i-10, i+5) and [i+8, i+15) |
| `Waveform.BeatOffsets` | app.py:28-40 | within a whole beat the parts do not overlap: P adds 0.2·sine, Q −0.2 at i, R 0 and 2·scale at i+1 and i+2, S −0.15 and −0 at i+3 and i+4, T 0.3·sine over [i+8, i+15) |
| `Waveform.SumDelta` | app.py:27-40 | the beats applied in order leave unchanged every sample that lies outside all of their footprints |
| `Waveform.SumDeltaExtend` | app.py:27-40 | one more iteration of the beat loop adds exactly that beat's delta to the running total |
| `Waveform.SumDeltaPrefix` | app.py:27-40 | after the first m beats a sample carries its own beat's delta if that beat was applied, and nothing from any other beat |
| `Waveform.OneBeatPerSample` | app.py:27-40 | every sample receives the delta of exactly one beat, the one whose 50-sample block contains it |
| `Waveform.ComplexDelta` | app.py:27-41 | closed form of the overlay by position in the 50-sample block: P at 5..14, Q at 15, R at 16-17, S at 18-19, T at 23..29, and baseline plus noise only everywhere else |
| `Waveform.FilledLead` | app.py:24-41 | a filled lead has exactly 500 samples |
| `Waveform.Spike` | app.py:52-53 | the spike is 0 unless the draw is below 0.2, and then it is 1.2, 1.8 or 2.4 |
| `Waveform.NewPoints` | app.py:50-54 | each update makes exactly two new points |
| `Waveform.SpikeOnlyOnSecondPoint` | app.py:52-53 | the draw never affects new point 0; it changes new point 1 by exactly the spike height |
| `Waveform.Rolled` | app.py:45 | `np.roll` keeps the length |
| `Waveform.RolledLeft` | app.py:45 | `np.roll(s, -k)` is the rotation `s[k:] + s[:k]` |
| `Waveform.DropAppend` | app.py:45-55 | roll-and-overwrite keeps the buffer length |
| `Waveform.DropAppendShifts` | app.py:45-55 | after a drop-append, positions 0..n-3 hold old positions 2..n-1 in order and the last two hold the new points |
| `Waveform.Concat` | app.py:55 | the points of t update calls number 2·t |
| `Waveform.Advance` | app.py:43-56 | any number of update calls keeps the buffer length |
| `Waveform.AdvanceIsWindow` | app.py:43-56 | after t update calls a buffer is the initial buffer followed by all appended points, with the oldest 2·t samples dropped |
| `Waveform.FullRotation` | app.py:43-56 | after 250 update calls a 500-sample buffer consists only of appended points |
| `SampleOps.AddSlice` | app.py:30 | `a[lo:hi] += w` adds w over the slice and leaves every other sample unchanged |
| `SampleOps.SubSlice` | app.py:37 | `a[lo:hi] -= w` subtracts w over the slice and leaves every other sample unchanged |
| `SampleOps.AddBeat` | app.py:28-40 | one iteration of the beat loop adds exactly the beat delta to each sample |
| `SampleOps.FillLead` | app.py:24-41 | the in-place fill of one lead yields exactly the filled-lead specification |
| `SampleOps.RollAppend` | app.py:45-55 | rolling a new array left by two and overwriting its last two slots gives exactly the FIFO drop-append |
| `ECG.Zeros` | app.py:15 | definition of `np.zeros(len)`: len samples, all 0 |
| `ECG.InitialStore` | app.py:15 | the dictionary comprehension of `__init__` already has the store's shape: exactly the twelve lead keys, each with 500 samples |
| `ECG.ReplacedUpToAt` | app.py:19-55 | after the key loop of `init_data` or `update_data` has handled its first k keys, the key set is unchanged, and lead n holds its new buffer exactly when n ≤ k and its old buffer otherwise |
| `ECG.ReplacedAll` | app.py:19-55 | once the loop has handled all twelve keys, every lead holds its own new buffer, and the store is valid if every new buffer has 500 samples |
| `ECG.FilledValues` | app.py:24-41 | `init_data` computes one 500-sample buffer for each of the twelve leads |
| `ECG.UpdatedValues` | app.py:45-55 | `update_data` computes one 500-sample buffer for each of the twelve leads |
| `ECG.FilledAll` | app.py:18-41 | after the whole `init_data` loop the store is valid and each lead holds its filled waveform |
| `ECG.UpdatedAll` | app.py:43-55 | after the whole `update_data` loop the store is valid and each lead is its old buffer advanced by its own two new points |
| `ECG.ECGData.Valid` | app.py:15 | the class invariant: exactly the twelve lead keys, each holding 500 samples; a valid store has exactly twelve entries |
| `ECG.ECGData.constructor` | app.py:14-16 | the new store is valid, and each lead holds its filled waveform |
| `ECG.ECGData.InitData` | app.py:18-41 | every lead is visited once through its parsed key, the key set is unchanged, and each lead holds its filled waveform of 500 samples |
| `ECG.ECGData.UpdateData` | app.py:43-56 | every one of the twelve leads advances exactly once by a drop-append of its own new points; the keys stay `lead_1`…`lead_12`, every buffer keeps 500 samples, and the returned dictionary is the store's contents |

## Left out

- `get_plot_base64` (app.py:58-73) is not modelled: matplotlib rendering, PNG encoding and base64 have no logic to check.
- The Flask routes, the HTML/JavaScript template and `app.run` (app.py:78-159) are web plumbing and are not modelled.
- The module-level singleton `ecg_data` (app.py:76) is not modelled. It is mutated directly in the request handler, and app.py has no lock, tick counter or snapshot copy to model.
- Sine values, `np.linspace` over multiples of π, and the per-lead `freq` and `phase` are transcendental. They enter only as the input sine values.
- Gaussian noise and the uniform draw are inputs. Statistical claims about spike frequency are out of scope.
- Floating-point rounding is not modelled. Samples are exact reals, so `0.5 * 0.3` is exactly 0.15 and `(3 * 0.1) % 1` is exactly 0.3.
- `LeadKeys.ParseInt`: it does not model the surrounding whitespace, `_` digit separators and non-ASCII digits that Python's `int()` also accepts. No key the store builds contains them.
- `ECG.ECGData.UpdateData`: it returns the dictionary as a value, not as an alias of the store's own dictionary as `return self.data` does.
- The numpy arrays are modelled as follows. Each lead's arrays are fresh local `array<real>` values inside `FillLead` and `RollAppend`, and the dictionary stores their contents as `seq<real>`. Aliasing between a dictionary entry and an array held elsewhere is not modelled; the source creates none.
- `update_data` restarts its sine argument at `np.linspace(0, 2*np.pi, 2)` on every call. The model takes the two sine values as an input, so it neither reproduces nor corrects the resulting phase jump.
