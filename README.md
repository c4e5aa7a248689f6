# UST leak detector: the analysis pipeline

The repository is two Streamlit scripts for an ultrasonic leak check on an
underground storage tank. `ust_leak_app.py` (phase 1) loads a WAV recording,
keeps channel 0, computes the duration and a time axis, and shows the first
half of the FFT spectrum in decibels against a frequency axis.
`ust_leak_app_phase2.py` (phase 2) does the same and then takes the frequency
of the strongest bin and turns it into one of three fixed verdicts.

This project models that pipeline as pure Dafny functions over exact reals,
with lemmas about them:

- `Outcomes`: the exceptions the scripts can raise, as a `Result` type.
- `Channels`: the decoded recording (mono, or frames by channels) and the
  reduction to channel 0.
- `Spacing`: NumPy's `linspace` with its endpoint included, and the facts
  about it: length, endpoints, even spacing, bounds, monotonicity, and
  uniqueness.
- `Spectrum`: duration, time axis, frequency axis and the whole phase-1
  pipeline `Summarize`.
- `Peak`: `np.argmax` as the first index of the maximum.
- `Classifier`: the three frequency bands and their messages.
- `LeakEstimator`: the phase-2 pipeline `Analyze`, and the tank data it ignores.

Both pipelines take the WAV decoder's output as inputs: the sample rate and
the frame array. They also take the dB value of every FFT bin as the abstract
sequence `binDb`, one value per frame. The FFT output has one bin per input
sample, so the model asks that `|binDb|` equals the frame count.

The failures follow the order of the script lines:
1. `data[:, 0]` on an array with no channel raises `MissingChannel`.
2. `len(data) / rate` with a zero rate raises `DivisionByZero`.
3. The FFT of an empty signal raises `EmptyTransform`. The FFT routine refuses
   fewer than one data point.
4. `np.argmax` of an empty dB sequence raises `EmptyArgMax`. Only phase 2
   searches for a peak, so a single frame is an error in phase 2 and not in
   phase 1.

Two consequences of following the code exactly:
- `linspace` includes its endpoint, so with two or more retained bins the
  last frequency is exactly `rate / 2`, not a value below it.
- The scripts have no explicit check for empty or one-sample input. The
  failures are the library exceptions listed above.

The frequency axis labels FFT bin `k` as `k * (rate / 2) / (N // 2 - 1)`,
while that bin's frequency is `k * rate / N`. The labels therefore run high
by a factor of `N / (2 * (N // 2 - 1))`, which is `(N // 2) / (N // 2 - 1)`
for even N and approaches 1 as N grows. The model keeps the script's labels, so
the peak frequency and the verdict are what the script reports.

## Model

| member | source | states |
|---|---|---|
| Channels.ReduceChannels | ust_leak_app_phase2.py:30-31 | Fails only when the array has no channel 0. On success there is exactly one value per frame: value `i` is frame `i`'s channel-0 sample, and mono input comes back unchanged. Phase 1 has the same code at ust_leak_app.py:21-22. |
| Channels.OnlyChannelZeroMatters | ust_leak_app.py:21-22 | Two frame arrays that agree in column 0 reduce to the same signal, whatever their other channels hold: the reduction discards every other channel. |
| Spacing.Linspace | ust_leak_app_phase2.py:50 | Gives `num` points. The first is `start`, and with at least two points the last is exactly `stop`, because the endpoint is included. |
| Spacing.LinspaceSpacing | ust_leak_app_phase2.py:50 | With at least two points, neighbouring points are `(stop - start) / (num - 1)` apart. |
| Spacing.LinspaceWithin | ust_leak_app_phase2.py:50 | When `start <= stop`, every point lies in `[start, stop]`. |
| Spacing.LinspaceIncreasing | ust_leak_app_phase2.py:50 | When `start < stop`, the points strictly increase. |
| Spacing.LinspaceUnique | ust_leak_app.py:29 | Any sequence of at least two evenly spaced points from `start` to `stop` equals `Linspace`. So "N evenly spaced points from 0 to the duration inclusive" describes the axis completely. |
| Spectrum.Duration | ust_leak_app_phase2.py:33 | Succeeds exactly when `rate > 0`; a zero rate is a division by zero. The result is non-negative and equals `N / rate` (duration times rate is N). Phase 1 has it at ust_leak_app.py:24. |
| Spectrum.TimeAxis | ust_leak_app.py:29 | Has N points. It starts at 0, ends exactly at the duration when `N >= 2`, is evenly spaced by `duration / (N - 1)`, and stays inside `[0, duration]`. |
| Spectrum.FrequencyAxis | ust_leak_app_phase2.py:50 | Has `N // 2` entries. The first is 0. With `N // 2 >= 2` the last is exactly `rate / 2` and the entries are evenly spaced. All entries lie in `[0, rate / 2]`, and they strictly increase when `rate > 0`. Phase 1 has it at ust_leak_app.py:42. |
| Spectrum.Summarize | ust_leak_app.py:19-43 | The phase-1 pipeline. It succeeds exactly when channel 0 exists, `rate > 0` and `N >= 1`, and it names the failure in each other case. On success it holds the reduced samples, the duration with `duration * rate == N`, the time axis, the frequency axis, and the dB sequence `binDb[..N // 2]`. The frequency axis and the dB sequence both have length `N // 2`. |
| Spectrum.SingleFrameSummary | ust_leak_app.py:40-43 | With one frame, phase 1 succeeds with an empty frequency axis and an empty dB sequence. |
| Peak.FirstMaxIndex | ust_leak_app_phase2.py:62 | For a non-empty sequence, returns an index where no value is larger and every earlier value is strictly smaller. This is `np.argmax`'s first occurrence of the maximum. |
| Peak.ArgMax | ust_leak_app_phase2.py:62 | Fails exactly on an empty sequence. Otherwise it returns the first index of the maximum. |
| Peak.FirstMaxUnique | ust_leak_app_phase2.py:62 | At most one index satisfies the first-maximum property, so that property determines the argmax. |
| Classifier.Classify | ust_leak_app_phase2.py:66-71 | "Close" holds iff `peak > 25000`. "Mid-range" holds iff `20000 < peak <= 25000`. "No pattern" holds iff `peak <= 20000`. Exactly one band applies to every frequency. |
| Classifier.BoundaryCases | ust_leak_app_phase2.py:66-71 | 25000 Hz gives mid-range and 25000.01 Hz gives close. 20000 Hz gives no pattern and 20000.01 Hz gives mid-range. |
| Classifier.Message | ust_leak_app_phase2.py:66-71 | "Close" is shown as "Leak may be close to the mic.", "mid-range" as "Leak may be mid-range inside the tank.", and "no pattern" as "No strong ultrasonic leak pattern detected.". Each text belongs to exactly one verdict, so the shown text identifies the band. |
| LeakEstimator.Analyze | ust_leak_app_phase2.py:27-71 | The phase-2 pipeline. It succeeds exactly when channel 0 exists, `rate > 0` and `N >= 2`. With one frame it fails at the argmax. Otherwise it fails as phase 1 does. On success, the peak index is the first maximum of the whole dB sequence and the peak frequency is the axis value at that index, so it lies in `[0, rate / 2]`. The verdict is the band of the peak frequency, and the shown text is that verdict's `Message`. |
| LeakEstimator.TankIsIgnored | ust_leak_app_phase2.py:17-22 | The tank values entered in the sidebar do not change the result. |
| LeakEstimator.PeakAboveDisplayedRange | ust_leak_app_phase2.py:58-71 | The 50 kHz limit applies only to the plot. The four frames 1, 0, -1, 0 at 200 kHz have dB values of about -120, 6.02, -120, 6.02 (FFT magnitudes 0, 2, 0, 2). The peak is at index 1, labelled 100 kHz on the script's axis (the tone itself is at 50 kHz), and the verdict is "close" with its text. |

## Left out

- WAV decoding (`scipy.io.wavfile.read`) is a library call. Its output (the rate and the frame array) is the input of the model.
- The FFT and the `20 * log10(|x| + 1e-6)` conversion are library numerics. Their output is the abstract per-bin dB sequence `binDb`, so the -120 dB floor of an all-zero signal is not modelled.
- Floating-point rounding in the division and in `linspace` is not modelled. The model uses exact reals.
- Peak frequencies are always finite in the scripts, because the axis runs from 0 to `rate / 2.0` over an integer rate. A NaN in the dB values (from a float WAV holding NaN, say) is not modelled, because reals have no NaN; there `np.argmax` returns the index of the first NaN.
- The Streamlit page, sidebar widgets, uploader and messages, and all matplotlib plotting (including `set_xlim(0, 50000)`), are presentation only.
- The rerun-on-every-interaction execution model is not modelled. Each pipeline is one pure call.
- The sample type is a type parameter. Samples are only carried through, since the transform itself is abstract.
