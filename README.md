# WaveRiderSDR control logic in Dafny

This project models the stateful control logic of the WaveRiderSDR receiver/transmitter
toolkit and proves properties about it:

- **Waterfall display settings** (`WaterfallSettings`). Setters clamp the display range,
  contrast, brightness, averaging depth and colour map. Per-frame processing applies
  brightness and contrast, updates the peak-hold buffer in place, and clips to the
  display range.
- **Squelch gate** (`AudioDemodulator`). An exponentially smoothed power estimate drives
  an open/closed decision with 3 dB of hysteresis.
- **LoRa parameter update** (`LoRaCommunication.configure_lora_params`). Only the fields
  whose arguments are present are overwritten.
- **Device configuration** (`SDRConfig`). Default ISM transmit bands, band membership
  with inclusive ends, and `validate`'s ordered list of errors.
- **Transmitter and receiver lifecycles** (`SDRTransmitter`, `SDRReceiver`). Covers the
  open and transmitting/receiving flags, the guarded frequency and gain setters with
  rollback, the sample guards, transmit-sample normalisation and the RSSI sentinel.

State the source updates in place becomes Dafny classes whose methods carry `modifies`
frames. The display peak-hold buffer is an `array<real>` updated by a loop. Each method
is specified against pure functions (`NextPeak`, `ClipAll`, `Decide`, `Failing`, …), and
the lemmas about those functions carry the properties the program relies on.

Modules: `Util` (Option, min/max, `np.clip`, `int()` truncation), `Iq` (complex samples
and their power), `Waterfall`, `Squelch`, `LoRa`, `Config`, `Transmitter`, `Receiver`.

## Model

| member | source | states |
|---|---|---|
| Util.Clip | waverider_common.py:533 | `np.clip`: the result lies in [lo, hi], equals x when x is in range, and equals the violated bound otherwise |
| Util.Trunc | waverider_common.py:549 | `int()` on a real truncates toward zero: floor for non-negative values, ceiling for negative ones |
| Iq.SumPowerZeroIff | waverider_sdr/receiver.py:190-191 | the total power of a block is non-negative, and zero exactly when every sample has zero power |
| Iq.MeanPowerPositiveIff | waverider_sdr/receiver.py:190-194 | the mean power of a non-empty block is non-negative, and positive exactly when some sample is non-zero |
| Waterfall.Adjusted | waverider_common.py:561 | each output bin is `(x + brightness) * contrast` of its input bin, same length |
| Waterfall.DecayedPeak | waverider_common.py:569 | each held value is at least the new bin and at least the decayed old value, and equals one of the two |
| Waterfall.DecayPeakBuffer | waverider_common.py:569 | the loop leaves the buffer equal to the element-wise maximum of the frame and the decayed old contents |
| Waterfall.NextPeak | waverider_common.py:564-570 | with no buffer or one of a different length, the new buffer is a copy of the frame; otherwise it is the decayed maximum; never below the frame |
| Waterfall.ClipAll | waverider_common.py:573 | every output element is the clip of its input into [lo, hi], with in-range values unchanged |
| Waterfall.DecayStep | waverider_common.py:569 | for one bin at or below its held value and a decay in [0, 1], the updated value is at least the bin, is no larger in magnitude than the held value, and does not exceed a non-negative held value |
| Waterfall.PeakDecaysTowardFrame | waverider_common.py:569 | for dB values of any sign, a decay in [0, 1] and a frame at or below the held peak, one update keeps every bin at or above the frame, never increases its magnitude, and never raises a non-negative held value |
| Waterfall.NegativePeakRises | waverider_common.py:569 | a held value below 0 dB is raised by a decay in [0, 1) (multiplying dB values, see Left out) |
| Waterfall.PeakHoldMonotone | waverider_common.py:564-570 | over a sustained frame of any sign that starts at or below the held peak, the held values never grow in magnitude from one frame to the next and never drop below the frame |
| Waterfall.WaterfallSettings.constructor | waverider_common.py:491-506 | the default settings (viridis, -80..0 dB, contrast 1, brightness 0, no peak hold, decay 0.95, no buffer) satisfy the settings invariant |
| Waterfall.WaterfallSettings.SetColormap | waverider_common.py:508-515 | a known name selects the colour map the ten-entry table maps it to (e.g. rainbow → jet); an unknown name leaves the colour map unchanged |
| Waterfall.WaterfallSettings.SetRange | waverider_common.py:517-525 | the ceiling becomes max and the floor min(min, max - 5), so at least 5 dB of range always remains |
| Waterfall.WaterfallSettings.SetContrast | waverider_common.py:527-533 | contrast is clamped to [0.1, 3.0] and is kept as given when already in range |
| Waterfall.WaterfallSettings.SetBrightness | waverider_common.py:535-541 | brightness is clamped to [-50, 50] and is kept as given when already in range |
| Waterfall.WaterfallSettings.SetAveraging | waverider_common.py:543-549 | averaging becomes max(1, int(frames)), so it is at least 1 |
| Waterfall.WaterfallSettings.ApplyProcessing | waverider_common.py:551-575 | output has the frame's length and lies in [minDb, maxDb]; with peak hold the buffer matches the frame length, holds `NextPeak` of the adjusted frame, and the output is its clip; without peak hold the buffer is untouched and the output is the clip of the adjusted frame |
| Squelch.SmoothBetween | waverider_common.py:644-645 | the smoothed estimate lies between the previous estimate and the new block's power |
| Squelch.Decide | waverider_common.py:647-659 | disabled: open. Enabled: open above the threshold, closed at or below threshold - hysteresis, and unchanged in the band between |
| Squelch.Detect | waverider_common.py:644-661 | the estimate is always smoothed, and the new decision follows `Decide` from the previous one |
| Squelch.Run | waverider_common.py:630-662 | a stream of blocks yields one decision per block |
| Squelch.StaysOpen | waverider_common.py:648-656 | an open gate stays open while every block's power stays above threshold - hysteresis |
| Squelch.StaysClosed | waverider_common.py:648-656 | a closed gate stays closed while every block's power stays at or below the threshold |
| Squelch.NoChatterInBand | waverider_common.py:647-662 | with block powers inside the hysteresis band, every decision equals the first: the gate does not chatter |
| Squelch.AudioDemodulator.constructor | waverider_common.py:603-628 | defaults, decimation `int(sample_rate / audio_rate)`, squelch enabled, estimate at -100 dB, gate closed |
| Squelch.AudioDemodulator.DetectSignal | waverider_common.py:630-662 | estimate becomes `0.1·p + 0.9·prev` in every case; enabled: strict comparison against threshold - 3 when last open, against threshold when last closed; disabled: true; the result is stored as the last decision |
| Squelch.AudioDemodulator.SetSquelch | waverider_common.py:664-670 | the threshold is clamped to [-100, 0] dB and kept as given when in range |
| Squelch.AudioDemodulator.EnableSquelch | waverider_common.py:672-678 | the squelch flag becomes the argument |
| Squelch.AudioDemodulator.GetSignalStrength | waverider_common.py:680-686 | returns the current smoothed estimate |
| LoRa.Override | waverider_common.py:367-372 | a present argument replaces the field; an absent one keeps it |
| LoRa.LoRaCommunication.constructor | waverider_common.py:317-328 | not connected; 915 MHz, 125 kHz, spreading factor 7 |
| LoRa.LoRaCommunication.ConfigureLoraParams | waverider_common.py:359-372 | exactly the parameters whose argument is present change; port and connection state are untouched; with no arguments nothing changes |
| Config.DefaultTxBandsWellFormed | waverider_sdr/config.py:40-47 | six default bands, each with start < end, listed in increasing order without overlap |
| Config.AnyBandHolds | waverider_sdr/config.py:62-65 | the band scan finds the frequency iff some band holds it, both ends included |
| Config.LicenseMessageNamesFrequency | waverider_sdr/config.py:86-90 | the license-band message of `validate` starts with "Frequency " followed by the center frequency formatted in MHz |
| Config.MessageInitial | waverider_sdr/config.py:76-96 | every message is non-empty, and its first letter names the check that produced it |
| Config.MessageIdentifiesCheck | waverider_sdr/config.py:76-96 | two errors with the same message come from the same check, so the message list tells which checks failed |
| Config.Messages | waverider_sdr/config.py:74-98 | one message per error: the i-th message is the message of the i-th error |
| Config.AllChecks | waverider_sdr/config.py:76-96 | the six checks of `validate`, in the order they run |
| Config.InCheckOrderBounded | waverider_sdr/config.py:74-98 | an error list in check order has at most one entry per check, so at most six |
| Config.SDRConfig.constructor | waverider_sdr/config.py:35-47 | dataclass defaults; the default bands replace only an absent band list, and a given list (even empty) is kept |
| Config.SDRConfig.IsFrequencyAllowedForTx | waverider_sdr/config.py:49-65 | false whenever TX is disabled; with TX enabled, true iff some allowed band contains the frequency, ends inclusive |
| Config.SDRConfig.FailingSpec | waverider_sdr/config.py:74-98 | running checks in order lists exactly the failing ones and keeps their order |
| Config.SDRConfig.ValidationErrorsSpec | waverider_sdr/config.py:67-98 | the error list is in check order, has at most 6 entries, contains each error iff its check fails, and is empty iff all six conditions hold; the license-band error applies only with TX enabled and the license check on |
| Config.SDRConfig.FailingCollects | waverider_sdr/config.py:74-98 | running the six checks as a list gives the same errors as running them one after the other, each appending its error when it fails |
| Config.SDRConfig.FailedChecks | waverider_sdr/config.py:74-98 | the successive appends produce exactly the failing checks in order: in check order, at most six, each error present iff its check fails, empty iff all pass, and the license-band error carries the center frequency; the configuration is only read |
| Config.SDRConfig.Validate | waverider_sdr/config.py:67-98 | the returned strings are the messages of exactly the failing checks, in check order; at most six, and none iff every check passes |
| Transmitter.OpenAsWritten | waverider_sdr/transmitter.py:48-58 | as written, `open` on a closed, TX-enabled transmitter raises `AttributeError` from the frequency check it calls |
| Transmitter.OpenAsWrittenNeverOpens | waverider_sdr/transmitter.py:94-101 | as written, `open` never succeeds on a closed transmitter |
| Transmitter.SetFrequencyAsWritten | waverider_sdr/transmitter.py:226-242 | as written, an accepted frequency is stored and then the check raises, so the rollback never runs |
| Transmitter.SetFrequencyAsWrittenSkipsRollback | waverider_sdr/transmitter.py:235-242 | tuning from 433.92 MHz to 5 GHz (outside every default band) raises and leaves 5 GHz configured |
| Transmitter.NormalizeSamples | waverider_sdr/transmitter.py:115-134 | a zero-peak block is returned unchanged (all of its samples are zero); otherwise every sample is divided by the peak magnitude, so every normalised sample has magnitude at most 1 and the loudest has magnitude exactly 1 |
| Transmitter.NormalizedBounded | waverider_sdr/transmitter.py:125-127 | dividing by the peak magnitude bounds every sample by 1 and brings the peak to 1 |
| Transmitter.SDRTransmitter.FrequencyValid | waverider_sdr/transmitter.py:94-113 | the frequency check, with the band test the configuration defines: true iff TX is enabled and some allowed band holds the center frequency, ends inclusive |
| Transmitter.SDRTransmitter.constructor | waverider_sdr/transmitter.py:22-39 | closed and not transmitting |
| Transmitter.SDRTransmitter.Open | waverider_sdr/transmitter.py:41-81 | already open: succeeds with no change; TX disabled or frequency not allowed: fails and stays closed; otherwise opens; `transmitting ⇒ open` is kept |
| Transmitter.SDRTransmitter.Close | waverider_sdr/transmitter.py:83-92 | stops transmitting first, so both flags end false; a closed transmitter is left alone |
| Transmitter.SDRTransmitter.StartTransmitting | waverider_sdr/transmitter.py:165-182 | fails without change when closed, is idempotent when already transmitting, and keeps `transmitting ⇒ open` |
| Transmitter.SDRTransmitter.StopTransmitting | waverider_sdr/transmitter.py:184-190 | transmission is off afterwards |
| Transmitter.SDRTransmitter.TransmitSamples | waverider_sdr/transmitter.py:136-163 | accepted iff the transmitter is open and a non-empty block is given |
| Transmitter.SDRTransmitter.SetFrequency | waverider_sdr/transmitter.py:216-245 | rejected with no change while transmitting or for f ≤ 0; otherwise succeeds iff f is allowed for TX, and a failed check rolls the frequency back |
| Transmitter.SDRTransmitter.SetGain | waverider_sdr/transmitter.py:247-267 | succeeds iff open and gain ≥ 0; otherwise the TX gain is unchanged |
| Transmitter.ExampleTransmitterOpens | waverider_sdr/transmitter.py:41-77 | the bidirectional example's TX configuration (433.92 MHz, TX enabled) opens under the corrected frequency check |
| Receiver.SDRReceiver.constructor | waverider_sdr/receiver.py:22-34 | closed, not receiving, no remembered block |
| Receiver.SDRReceiver.Open | waverider_sdr/receiver.py:36-62 | always succeeds and leaves the device open; idempotent |
| Receiver.SDRReceiver.Close | waverider_sdr/receiver.py:64-73 | stops reception first, so both flags end false; a closed receiver is left alone |
| Receiver.SDRReceiver.StartReceiving | waverider_sdr/receiver.py:75-92 | fails without change when closed, is idempotent when already receiving, and keeps `receiving ⇒ open` |
| Receiver.SDRReceiver.StopReceiving | waverider_sdr/receiver.py:94-100 | reception is off afterwards |
| Receiver.SDRReceiver.ReadSamples | waverider_sdr/receiver.py:102-133 | none, with the remembered block kept, unless open and receiving; otherwise exactly `numSamples` samples of the device waveform, which become the remembered block |
| Receiver.SDRReceiver.SetFrequency | waverider_sdr/receiver.py:135-155 | succeeds iff open and f > 0; otherwise the center frequency is unchanged |
| Receiver.SDRReceiver.SetGain | waverider_sdr/receiver.py:157-177 | succeeds iff open and gain ≥ 0; otherwise the RX gain is unchanged |
| Receiver.SDRReceiver.GetSignalStrength | waverider_sdr/receiver.py:179-196 | -100 when there is no block, the block is empty, or all its samples are zero; otherwise the dBm conversion of the mean power, which is then positive |

## Left out

- The FFT pipeline `compute_fft_db` and the FM, AM and SSB demodulators with their filter design. These are floating-point DSP over numpy and scipy.
- The dB conversions (`10·log10`). `Squelch.AudioDemodulator.DetectSignal` takes the block's power in dB as its argument, and `Receiver.SDRReceiver.GetSignalStrength` takes the power-to-dBm conversion as a function parameter.
- `Receiver.SDRReceiver.ReadSamples`: the simulated waveform (two tones plus random noise, cast to complex64) is a function parameter. The sample count is a natural number; numpy's error on a negative count is not modelled.
- `Receiver.SDRReceiver.ReadSamples`: returns a value, while `read_samples` returns the same array it stores as the last block. A caller that changes the returned array in place therefore also changes what `get_signal_strength` measures. The model does not capture this aliasing.
- `Squelch.AudioDemodulator.constructor`: does not model the low-pass filter design of the base demodulator. SciPy's `butter` raises `ValueError` when the cutoff is at or above half the audio rate, for example an audio rate of 22050 Hz with the default 15 kHz cutoff; the model accepts such settings. An audio rate of 0, for which the decimation division raises `ZeroDivisionError`, is excluded by the constructor's precondition.
- `Transmitter.NormalizeSamples`: takes the block's peak magnitude as an argument, characterised through squared magnitudes, because square roots are not available. Like numpy's maximum, the peak does not exist for an empty block.
- `Transmitter.SDRTransmitter.TransmitSamples`: the normalised block and its power only feed log lines, so they are not computed.
- `SignalGenerator` and `SDRTransmitter.generate_tone`. They involve random noise and complex exponentials.
- `SDRDevice`, `MeshtasticDetector`, `AudioPlayer`, and `LoRaCommunication.connect`/`disconnect`/`get_status`. These are hardware, serial and audio I/O.
- `WaterfallSettings.get_settings_dict`. It only copies fields into a dictionary.
- The `__enter__`/`__exit__` context managers of the transmitter and receiver. They are `open`/`close` calls.
- All logging.
- `Config.Message`: the license-band message formats the center frequency in MHz with two decimals; that formatting is a function parameter, applied to the frequency divided by 10^6.
- `Config.SDRConfig.FailedChecks`: returns the failing checks as `ConfigError` values; `Config.SDRConfig.Validate` turns them into the strings `validate` returns.
- Floats are modelled as exact reals, so rounding, NaN and infinities are not captured. This applies to `np.clip` and `np.maximum` as well.
- The Python type distinction between integer and float settings (for example bandwidth `125` vs `125.0`). All such values are reals in the model.
- The peak-hold decay multiplies dB values. For a held value below 0 dB this raises it toward 0 dB rather than lowering it (`Waterfall.NegativePeakRises`). The model keeps this behaviour as written.

## Findings

| source | as written | input that shows it | evidently intended | confidence | as-written member | corrected member |
|---|---|---|---|---|---|---|
| waverider_sdr/transmitter.py:101 | `_validate_frequency` calls `config.validate_tx_frequency`, which `SDRConfig` does not define, so every call raises `AttributeError`: `open` raises on a closed TX-enabled transmitter, and `set_frequency` raises after storing the new frequency, skipping its rollback | `open()` with the bidirectional example's TX config (433.92 MHz, TX enabled); `set_frequency(5e9)` on an idle transmitter at 433.92 MHz | check the frequency with `is_frequency_allowed_for_tx` (waverider_sdr/config.py:49) | high (not executed) | Transmitter.OpenAsWrittenNeverOpens, Transmitter.SetFrequencyAsWrittenSkipsRollback | Transmitter.SDRTransmitter.Open, Transmitter.SDRTransmitter.SetFrequency, Transmitter.ExampleTransmitterOpens |
