/** The LoRa radio parameters of `LoRaCommunication` (waverider_common.py):
    an optional, field-by-field update of frequency, bandwidth and spreading
    factor. The serial connection itself is not part of this model. */
module LoRa {
  import opened Util

  /** The three radio parameters as a value. */
  datatype LoRaParams = LoRaParams(frequency: real, bandwidth: real, spreadingFactor: int)

  /** A field is overwritten only when its argument is present. */
  function Override<T>(arg: Option<T>, current: T): (r: T)
    ensures arg.None? ==> r == current
    ensures arg.Some? ==> r == arg.value
  {
    if arg.Some? then arg.value else current
  }

  class LoRaCommunication {
    var port: Option<string>
    var isConnected: bool
    /** MHz. */
    var frequency: real
    /** kHz. */
    var bandwidth: real
    var spreadingFactor: int

    function Params(): LoRaParams
      reads this
    {
      LoRaParams(frequency, bandwidth, spreadingFactor)
    }

    constructor (port: Option<string> := None)
      ensures this.port == port && !isConnected
      ensures frequency == 915.0 && bandwidth == 125.0 && spreadingFactor == 7
    {
      this.port := port;
      isConnected := false;
      frequency := 915.0;
      bandwidth := 125.0;
      spreadingFactor := 7;
    }

    /** Overwrites exactly the parameters whose argument is given; the others,
        the port and the connection state keep their values. */
    method ConfigureLoraParams(frequency: Option<real> := None, bandwidth: Option<real> := None,
                               spreadingFactor: Option<int> := None)
      modifies this`frequency, this`bandwidth, this`spreadingFactor
      ensures this.frequency == Override(frequency, old(this.frequency))
      ensures this.bandwidth == Override(bandwidth, old(this.bandwidth))
      ensures this.spreadingFactor == Override(spreadingFactor, old(this.spreadingFactor))
      ensures frequency.None? && bandwidth.None? && spreadingFactor.None? ==> Params() == old(Params())
    {
      if frequency.Some? {
        this.frequency := frequency.value;
      }
      if bandwidth.Some? {
        this.bandwidth := bandwidth.value;
      }
      if spreadingFactor.Some? {
        this.spreadingFactor := spreadingFactor.value;
      }
    }
  }
}
