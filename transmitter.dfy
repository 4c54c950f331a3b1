/** `SDRTransmitter` (waverider_sdr/transmitter.py): the open/transmitting
    lifecycle, the guarded frequency and gain setters, and sample
    normalisation. The hardware itself is simulated in the source and is not
    part of this model.

    The source's frequency check calls `config.validate_tx_frequency`, a method
    `SDRConfig` does not define (waverider_sdr/config.py defines
    `is_frequency_allowed_for_tx`), so in Python every call raises
    `AttributeError`. `OpenAsWritten` and `SetFrequencyAsWritten` model that
    behaviour; the class below checks the frequency with
    `IsFrequencyAllowedForTx`, the predicate the call evidently means. */
module Transmitter {
  import opened Util
  import opened Iq
  import opened Config

  /** A Python call either returns a value or raises `AttributeError`. */
  datatype Outcome<T> = Returned(value: T) | AttributeError

  /** `open()` as written: the frequency check raises. */
  function OpenAsWritten(isOpen: bool, txEnabled: bool): (r: Outcome<bool>)
    ensures isOpen ==> r == Returned(true)
    ensures !isOpen && !txEnabled ==> r == Returned(false)
    ensures !isOpen && txEnabled ==> r == AttributeError
  {
    if isOpen then Returned(true)
    else if !txEnabled then Returned(false)
    else AttributeError
  }

  /** As written, `open()` never opens a closed transmitter: it refuses when
      TX is disabled and raises otherwise. */
  lemma OpenAsWrittenNeverOpens(txEnabled: bool)
    ensures OpenAsWritten(false, txEnabled) != Returned(true)
  {
  }

  /** The result of `set_frequency` as written, with the center frequency it
      leaves in the configuration. */
  datatype SetFrequencyResult = SetFrequencyResult(outcome: Outcome<bool>, centerFrequency: real)

  /** `set_frequency` as written: the new frequency is stored before the
      check, and the check raises before the rollback can run. */
  function SetFrequencyAsWritten(isTransmitting: bool, centerFrequency: real, frequency: real): (r: SetFrequencyResult)
    ensures isTransmitting || frequency <= 0.0 ==> r == SetFrequencyResult(Returned(false), centerFrequency)
    ensures !isTransmitting && frequency > 0.0 ==> r == SetFrequencyResult(AttributeError, frequency)
  {
    if isTransmitting then SetFrequencyResult(Returned(false), centerFrequency)
    else if frequency <= 0.0 then SetFrequencyResult(Returned(false), centerFrequency)
    else SetFrequencyResult(AttributeError, frequency)
  }

  /** Counterexample: tuning an idle transmitter from 433.92 MHz to 5 GHz, a
      frequency outside every default band, raises and still leaves 5 GHz in
      the configuration. */
  lemma SetFrequencyAsWrittenSkipsRollback()
    ensures SetFrequencyAsWritten(false, 433920000.0, 5000000000.0)
         == SetFrequencyResult(AttributeError, 5000000000.0)
    ensures !exists i :: 0 <= i < |DefaultTxBands| && InBand(DefaultTxBands[i], 5000000000.0)
  {
  }

  /** `peak` is the largest magnitude in `samples` (numpy's
      `np.max(np.abs(samples))`), stated through squares. */
  predicate IsPeakMagnitude(samples: seq<Complex>, peak: real)
  {
    && peak >= 0.0
    && (forall i :: 0 <= i < |samples| ==> Abs2(samples[i]) <= peak * peak)
    && (exists i :: 0 <= i < |samples| && Abs2(samples[i]) == peak * peak)
  }

  /** A sample multiplied by a real factor. */
  function Scale(z: Complex, k: real): Complex
  {
    Complex(z.re * k, z.im * k)
  }

  lemma Abs2Scale(z: Complex, k: real)
    ensures Abs2(Scale(z, k)) == k * k * Abs2(z)
  {
  }

  /** `_normalize_samples`: divides every sample by the peak magnitude, so the
      loudest sample has magnitude 1 and none exceeds it; a block whose peak
      is zero (all samples zero) is returned unchanged. */
  function NormalizeSamples(samples: seq<Complex>, peak: real): (r: seq<Complex>)
    requires IsPeakMagnitude(samples, peak)
    ensures |r| == |samples|
    ensures peak == 0.0 ==> r == samples && AllZero(samples)
    ensures peak > 0.0 ==> forall i :: 0 <= i < |r| ==> r[i] == Scale(samples[i], 1.0 / peak)
    ensures peak > 0.0 ==> forall i :: 0 <= i < |r| ==> Abs2(r[i]) <= 1.0
    ensures peak > 0.0 ==> exists i :: 0 <= i < |r| && Abs2(r[i]) == 1.0
  {
    if peak > 0.0 then
      var r := seq(|samples|, i requires 0 <= i < |samples| => Scale(samples[i], 1.0 / peak));
      NormalizedBounded(samples, peak, r);
      r
    else
      samples
  }

  lemma NormalizedBounded(samples: seq<Complex>, peak: real, r: seq<Complex>)
    requires IsPeakMagnitude(samples, peak) && peak > 0.0
    requires |r| == |samples| && forall i :: 0 <= i < |r| ==> r[i] == Scale(samples[i], 1.0 / peak)
    ensures forall i :: 0 <= i < |r| ==> Abs2(r[i]) <= 1.0
    ensures exists i :: 0 <= i < |r| && Abs2(r[i]) == 1.0
  {
    forall i | 0 <= i < |r| ensures Abs2(r[i]) <= 1.0 {
      ScaledBelowOne(samples[i], peak);
    }
    var j :| 0 <= j < |samples| && Abs2(samples[j]) == peak * peak;
    ScaledPeakIsOne(samples[j], peak);
    assert Abs2(r[j]) == 1.0;
  }

  lemma InverseSquare(peak: real)
    requires peak > 0.0
    ensures (1.0 / peak) * (1.0 / peak) * (peak * peak) == 1.0
  {
    var k := 1.0 / peak;
    assert k * peak == 1.0;
    assert k * k * (peak * peak) == (k * peak) * (k * peak);
  }

  lemma ScaledBelowOne(z: Complex, peak: real)
    requires peak > 0.0 && Abs2(z) <= peak * peak
    ensures Abs2(Scale(z, 1.0 / peak)) <= 1.0
  {
    var k := 1.0 / peak;
    var a := k * k;
    InverseSquare(peak);
    assert a * (peak * peak) == 1.0;
    Abs2Scale(z, k);
    SquareNonNegative(k);
    ProductMonotone(a, Abs2(z), peak * peak);
  }

  lemma ScaledPeakIsOne(z: Complex, peak: real)
    requires peak > 0.0 && Abs2(z) == peak * peak
    ensures Abs2(Scale(z, 1.0 / peak)) == 1.0
  {
    var k := 1.0 / peak;
    var a := k * k;
    InverseSquare(peak);
    assert a * (peak * peak) == 1.0;
    Abs2Scale(z, k);
  }

  lemma ProductMonotone(a: real, x: real, y: real)
    requires a >= 0.0 && x <= y
    ensures a * x <= a * y
  {
    assert a * y - a * x == a * (y - x);
  }

  class SDRTransmitter {
    const config: SDRConfig
    var isOpen: bool
    var isTransmitting: bool

    /** Transmission only ever runs on an open device. */
    ghost predicate Valid()
      reads this
    {
      isTransmitting ==> isOpen
    }

    constructor (config: SDRConfig)
      ensures this.config == config && !isOpen && !isTransmitting && Valid()
    {
      this.config := config;
      isOpen := false;
      isTransmitting := false;
    }

    /** `_validate_frequency`, with the check the source evidently means: the
        configured center frequency may be used for transmission, that is, TX
        is enabled and some allowed band holds it, both ends included. */
    function FrequencyValid(): (valid: bool)
      reads this, config
      ensures valid ==> config.txEnabled
      ensures valid <==>
        config.txEnabled &&
        exists i :: 0 <= i < |config.allowedTxBands| && InBand(config.allowedTxBands[i], config.centerFrequency)
    {
      config.IsFrequencyAllowedForTx(config.centerFrequency)
    }

    /** Opens the device: an open device stays open and reports success; a
        closed one opens only with TX enabled and an allowed frequency, and
        otherwise stays closed and reports failure. */
    method Open() returns (ok: bool)
      requires Valid()
      modifies this`isOpen
      ensures Valid() && isTransmitting == old(isTransmitting)
      ensures old(isOpen) ==> ok && isOpen
      ensures !old(isOpen) && !config.txEnabled ==> !ok && !isOpen
      ensures !old(isOpen) && !FrequencyValid() ==> !ok && !isOpen
      ensures !old(isOpen) && config.txEnabled && FrequencyValid() ==> ok && isOpen
    {
      if isOpen {
        return true;
      }
      if !config.txEnabled {
        return false;
      }
      if !FrequencyValid() {
        return false;
      }
      isOpen := true;
      return true;
    }

    /** Stops any transmission, then closes; a closed device is left alone. */
    method Close()
      requires Valid()
      modifies this`isOpen, this`isTransmitting
      ensures Valid() && !isOpen && !isTransmitting
      ensures !old(isOpen) ==> isTransmitting == old(isTransmitting)
    {
      if !isOpen {
        return;
      }
      if isTransmitting {
        StopTransmitting();
      }
      isOpen := false;
    }

    /** Starts continuous transmission on an open device; fails without any
        change on a closed one, and succeeds without change when already
        transmitting. */
    method StartTransmitting() returns (ok: bool)
      requires Valid()
      modifies this`isTransmitting
      ensures Valid()
      ensures ok == isOpen
      ensures !isOpen ==> isTransmitting == old(isTransmitting)
      ensures isOpen ==> isTransmitting
    {
      if !isOpen {
        return false;
      }
      if isTransmitting {
        return true;
      }
      isTransmitting := true;
      return true;
    }

    method StopTransmitting()
      requires Valid()
      modifies this`isTransmitting
      ensures Valid() && !isTransmitting
    {
      if !isTransmitting {
        return;
      }
      isTransmitting := false;
    }

    /** Accepts a block for transmission only when the device is open and the
        block is present and non-empty. The normalised block only feeds the
        source's log lines, so it is not computed here. */
    method TransmitSamples(samples: Option<seq<Complex>>) returns (ok: bool)
      ensures ok <==> isOpen && samples.Some? && |samples.value| > 0
    {
      if !isOpen {
        return false;
      }
      if samples.None? || |samples.value| == 0 {
        return false;
      }
      return true;
    }

    /** Retunes: refused while transmitting or for a non-positive frequency;
        otherwise the new frequency is stored, checked against the transmit
        bands, and rolled back when the check fails. Nothing but the center
        frequency changes. */
    method SetFrequency(frequency: real) returns (ok: bool)
      modifies config`centerFrequency
      ensures isTransmitting || frequency <= 0.0 ==> !ok
      ensures ok <==> !isTransmitting && frequency > 0.0 && config.IsFrequencyAllowedForTx(frequency)
      ensures config.centerFrequency == if ok then frequency else old(config.centerFrequency)
    {
      if isTransmitting {
        return false;
      }
      if frequency <= 0.0 {
        return false;
      }
      var oldFreq := config.centerFrequency;
      config.centerFrequency := frequency;
      if !FrequencyValid() {
        config.centerFrequency := oldFreq;
        return false;
      }
      return true;
    }

    /** Sets the TX gain on an open device when the gain is not negative;
        otherwise the gain is unchanged. */
    method SetGain(gain: real) returns (ok: bool)
      modifies config`txGain
      ensures ok <==> isOpen && gain >= 0.0
      ensures config.txGain == if ok then gain else old(config.txGain)
    {
      if !isOpen {
        return false;
      }
      if gain < 0.0 {
        return false;
      }
      config.txGain := gain;
      return true;
    }
  }

  /** The transmit configuration of the repository's bidirectional example
      (TX enabled, 433.92 MHz, default bands): with the frequency checked by
      `IsFrequencyAllowedForTx` the transmitter opens, where the source as
      written raises. */
  method ExampleTransmitterOpens() returns (ok: bool)
    ensures ok
  {
    var cfg := new SDRConfig(deviceId := "tx_device", centerFrequency := 433920000.0,
                             sampleRate := 2400000.0, txGain := 15.0, txEnabled := true,
                             maxTxPower := 0.1);
    assert InBand(cfg.allowedTxBands[2], 433920000.0);
    var tx := new SDRTransmitter(cfg);
    ok := tx.Open();
  }
}
