/** `SDRReceiver` (waverider_sdr/receiver.py): the open/receiving lifecycle,
    sample reads that remember the last block, the guarded frequency and gain
    setters, and the signal-strength estimate. The samples the simulated
    hardware produces (two tones plus random noise) are a parameter here. */
module Receiver {
  import opened Util
  import opened Iq
  import opened Config

  /** The RSSI reported when there is no power to measure. */
  const NoSignalDbm: real := -100.0

  /** The default block length of `read_samples`. */
  const DefaultNumSamples: nat := 1024

  class SDRReceiver {
    const config: SDRConfig
    var isOpen: bool
    var isReceiving: bool
    /** The block returned by the last successful read. */
    var lastSamples: Option<seq<Complex>>

    /** Reception only ever runs on an open device. */
    ghost predicate Valid()
      reads this
    {
      isReceiving ==> isOpen
    }

    constructor (config: SDRConfig)
      ensures this.config == config && !isOpen && !isReceiving && lastSamples.None? && Valid()
    {
      this.config := config;
      isOpen := false;
      isReceiving := false;
      lastSamples := None;
    }

    /** Opening always succeeds, and is a no-op on an open device. */
    method Open() returns (ok: bool)
      requires Valid()
      modifies this`isOpen
      ensures Valid() && ok && isOpen
      ensures isReceiving == old(isReceiving)
    {
      if isOpen {
        return true;
      }
      isOpen := true;
      return true;
    }

    /** Stops any reception, then closes; a closed device is left alone. */
    method Close()
      requires Valid()
      modifies this`isOpen, this`isReceiving
      ensures Valid() && !isOpen && !isReceiving
      ensures !old(isOpen) ==> isReceiving == old(isReceiving)
    {
      if !isOpen {
        return;
      }
      if isReceiving {
        StopReceiving();
      }
      isOpen := false;
    }

    /** Starts reception on an open device; fails without any change on a
        closed one, and succeeds without change when already receiving. */
    method StartReceiving() returns (ok: bool)
      requires Valid()
      modifies this`isReceiving
      ensures Valid()
      ensures ok == isOpen
      ensures !isOpen ==> isReceiving == old(isReceiving)
      ensures isOpen ==> isReceiving
    {
      if !isOpen {
        return false;
      }
      if isReceiving {
        return true;
      }
      isReceiving := true;
      return true;
    }

    method StopReceiving()
      requires Valid()
      modifies this`isReceiving
      ensures Valid() && !isReceiving
    {
      if !isReceiving {
        return;
      }
      isReceiving := false;
    }

    /** Reads a block of `numSamples` samples of `signal`, the waveform the
        device delivers. Nothing is read, and the remembered block is kept,
        unless the device is open and receiving; otherwise the block has
        exactly `numSamples` samples and becomes the remembered block. */
    method ReadSamples(signal: nat -> Complex, numSamples: nat := DefaultNumSamples) returns (samples: Option<seq<Complex>>)
      modifies this`lastSamples
      ensures !(isOpen && isReceiving) ==> samples.None? && lastSamples == old(lastSamples)
      ensures isOpen && isReceiving ==> samples.Some? && |samples.value| == numSamples
      ensures isOpen && isReceiving ==> forall i :: 0 <= i < numSamples ==> samples.value[i] == signal(i)
      ensures isOpen && isReceiving ==> lastSamples == samples
    {
      if !isOpen {
        return None;
      }
      if !isReceiving {
        return None;
      }
      lastSamples := Some(seq(numSamples, (i: nat) requires i < numSamples => signal(i)));
      return lastSamples;
    }

    /** Retunes an open device to a positive frequency; otherwise the center
        frequency is unchanged. */
    method SetFrequency(frequency: real) returns (ok: bool)
      modifies config`centerFrequency
      ensures ok <==> isOpen && frequency > 0.0
      ensures config.centerFrequency == if ok then frequency else old(config.centerFrequency)
    {
      if !isOpen {
        return false;
      }
      if frequency <= 0.0 {
        return false;
      }
      config.centerFrequency := frequency;
      return true;
    }

    /** Sets the RX gain on an open device when the gain is not negative;
        otherwise the gain is unchanged. */
    method SetGain(gain: real) returns (ok: bool)
      modifies config`rxGain
      ensures ok <==> isOpen && gain >= 0.0
      ensures config.rxGain == if ok then gain else old(config.rxGain)
    {
      if !isOpen {
        return false;
      }
      if gain < 0.0 {
        return false;
      }
      config.rxGain := gain;
      return true;
    }

    /** The RSSI of the remembered block, with `dbm` the conversion of a
        positive mean power to dBm. The sentinel -100 is reported exactly when
        there is no block, the block is empty, or every sample is zero;
        otherwise the conversion of the block's mean power, which is then
        positive. */
    function GetSignalStrength(dbm: real -> real): (r: real)
      reads this
      ensures lastSamples.None? || |lastSamples.value| == 0 ==> r == NoSignalDbm
      ensures lastSamples.Some? && |lastSamples.value| > 0 && AllZero(lastSamples.value) ==> r == NoSignalDbm
      ensures lastSamples.Some? && |lastSamples.value| > 0 && !AllZero(lastSamples.value) ==>
        MeanPower(lastSamples.value) > 0.0 && r == dbm(MeanPower(lastSamples.value))
    {
      if lastSamples.None? || |lastSamples.value| == 0 then
        NoSignalDbm
      else
        var power := MeanPower(lastSamples.value);
        MeanPowerPositiveIff(lastSamples.value);
        if power > 0.0 then dbm(power) else NoSignalDbm
    }
  }
}
