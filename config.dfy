/** `SDRConfig` (waverider_sdr/config.py): device settings, the transmit bands
    and the checks that say whether a configuration may be used. */
module Config {
  import opened Util

  /** An inclusive frequency band, in Hz. */
  datatype Band = Band(start: real, end: real)

  predicate InBand(b: Band, frequency: real)
  {
    b.start <= frequency <= b.end
  }

  /** The ISM bands used when no transmit bands are given: 13.56 MHz, 27 MHz,
      433 MHz (ITU Region 1), 900 MHz (ITU Region 2), 2.4 GHz and 5.8 GHz. */
  const DefaultTxBands: seq<Band> := [
    Band(13553000.0, 13567000.0),
    Band(26957000.0, 27283000.0),
    Band(433050000.0, 434790000.0),
    Band(902000000.0, 928000000.0),
    Band(2400000000.0, 2500000000.0),
    Band(5725000000.0, 5875000000.0)
  ]

  /** Every default band is a proper interval, and the bands are listed in
      increasing order without overlapping. */
  lemma DefaultTxBandsWellFormed()
    ensures |DefaultTxBands| == 6
    ensures forall i :: 0 <= i < |DefaultTxBands| ==> DefaultTxBands[i].start < DefaultTxBands[i].end
    ensures forall i :: 0 <= i < |DefaultTxBands| - 1 ==> DefaultTxBands[i].end < DefaultTxBands[i + 1].start
  {
  }

  /** The scan of `is_frequency_allowed_for_tx` over the bands, in order,
      stopping at the first band that holds the frequency. */
  function AnyBandHolds(bands: seq<Band>, frequency: real): (found: bool)
    ensures found <==> exists i :: 0 <= i < |bands| && InBand(bands[i], frequency)
  {
    if bands == [] then false
    else if InBand(bands[0], frequency) then true
    else
      var rest := AnyBandHolds(bands[1..], frequency);
      assert forall i :: 1 <= i < |bands| ==> bands[i] == bands[1..][i - 1];
      rest
  }

  /** One check of `validate`, in the order the checks run. */
  datatype ConfigError =
    | SampleRateNotPositive
    | CenterFrequencyNotPositive
    | BandwidthOutOfRange
    | FrequencyNotInTxBands(frequency: real)
    | TxGainOutOfRange
    | MaxTxPowerNotPositive

  /** The position of each check in `validate`. */
  function Rank(e: ConfigError): nat
  {
    match e
    case SampleRateNotPositive => 0
    case CenterFrequencyNotPositive => 1
    case BandwidthOutOfRange => 2
    case FrequencyNotInTxBands(_) => 3
    case TxGainOutOfRange => 4
    case MaxTxPowerNotPositive => 5
  }

  /** The message `validate` appends for each error. `formatMhz` renders a
      frequency given in MHz with two decimals, as the `:.2f` format of
      `validate` does. */
  function Message(e: ConfigError, formatMhz: real -> string): string
  {
    match e
    case SampleRateNotPositive => "Sample rate must be positive"
    case CenterFrequencyNotPositive => "Center frequency must be positive"
    case BandwidthOutOfRange => "Bandwidth " + "must be positive and <= sample rate"
    case FrequencyNotInTxBands(f) =>
      "Frequency " + formatMhz(f / 1000000.0) + " MHz not in allowed TX bands. "
      + "Ensure you have proper authorization to transmit on this frequency."
    case TxGainOutOfRange => "TX gain must be between 0 and 100 dB"
    case MaxTxPowerNotPositive => "Max TX power must be positive"
  }

  /** The license-band message names the rejected frequency, in MHz, right
      after its first word. */
  lemma LicenseMessageNamesFrequency(frequency: real, formatMhz: real -> string)
    ensures var m := Message(FrequencyNotInTxBands(frequency), formatMhz);
      var mhz := formatMhz(frequency / 1000000.0);
      |m| >= 10 + |mhz| && m[..10] == "Frequency " && m[10..10 + |mhz|] == mhz
  {
    var mhz := formatMhz(frequency / 1000000.0);
    Pieces("Frequency ", mhz, " MHz not in allowed TX bands. "
      + "Ensure you have proper authorization to transmit on this frequency.");
  }

  /** The pieces of a concatenation are found at their offsets. */
  lemma Pieces(a: string, b: string, c: string)
    ensures |a + b + c| >= |a| + |b|
    ensures (a + b + c)[..|a|] == a && (a + b + c)[|a|..|a| + |b|] == b
  {
  }

  /** The check, by its position in the order of `validate`, whose messages
      start with the letter `c`. */
  function CheckOfInitial(c: char): nat
  {
    if c == 'S' then 0
    else if c == 'C' then 1
    else if c == 'B' then 2
    else if c == 'F' then 3
    else if c == 'T' then 4
    else 5
  }

  /** Every message starts with a letter that names its check. */
  lemma MessageInitial(e: ConfigError, formatMhz: real -> string)
    ensures |Message(e, formatMhz)| > 0 && CheckOfInitial(Message(e, formatMhz)[0]) == Rank(e)
  {
    match e
    case SampleRateNotPositive =>
    case CenterFrequencyNotPositive =>
    case BandwidthOutOfRange =>
    case FrequencyNotInTxBands(_) =>
    case TxGainOutOfRange =>
    case MaxTxPowerNotPositive =>
  }

  /** Two errors with the same message come from the same check, so the list
      of messages tells which checks failed. */
  lemma MessageIdentifiesCheck(a: ConfigError, b: ConfigError, formatMhz: real -> string)
    ensures Message(a, formatMhz) == Message(b, formatMhz) ==> Rank(a) == Rank(b)
  {
    MessageInitial(a, formatMhz);
    MessageInitial(b, formatMhz);
  }

  /** The messages of a list of errors, in the same order. */
  function Messages(errors: seq<ConfigError>, formatMhz: real -> string): (messages: seq<string>)
    ensures |messages| == |errors|
    ensures forall i :: 0 <= i < |errors| ==> messages[i] == Message(errors[i], formatMhz)
  {
    if errors == [] then []
    else Messages(errors[..|errors| - 1], formatMhz) + [Message(errors[|errors| - 1], formatMhz)]
  }

  /** The errors of a list are in check order, so none appears twice. */
  predicate InCheckOrder(errors: seq<ConfigError>)
  {
    forall i, j :: 0 <= i < j < |errors| ==> Rank(errors[i]) < Rank(errors[j])
  }

  /** Every check of `validate`, in the order it runs them; the license-band
      error names the configured center frequency. */
  function AllChecks(centerFrequency: real): (checks: seq<ConfigError>)
    ensures InCheckOrder(checks)
  {
    [SampleRateNotPositive, CenterFrequencyNotPositive, BandwidthOutOfRange,
     FrequencyNotInTxBands(centerFrequency), TxGainOutOfRange, MaxTxPowerNotPositive]
  }

  /** A list in check order has at most one error per check. */
  lemma {:induction false} InCheckOrderBounded(errors: seq<ConfigError>)
    requires InCheckOrder(errors)
    ensures |errors| <= 6
    ensures |errors| > 0 ==> Rank(errors[|errors| - 1]) >= |errors| - 1
  {
    if |errors| > 1 {
      var init := errors[..|errors| - 1];
      assert InCheckOrder(init) by {
        forall i, j | 0 <= i < j < |init| ensures Rank(init[i]) < Rank(init[j]) {
          assert init[i] == errors[i] && init[j] == errors[j];
        }
      }
      InCheckOrderBounded(init);
      assert init[|init| - 1] == errors[|errors| - 2];
      assert Rank(errors[|errors| - 2]) < Rank(errors[|errors| - 1]);
    }
  }

  class SDRConfig {
    var deviceId: string
    var sampleRate: real
    var centerFrequency: real
    var bandwidth: real
    var rxGain: real
    var txGain: real
    var txEnabled: bool
    var maxTxPower: real
    var requireLicenseCheck: bool
    var allowedTxBands: seq<Band>

    /** The dataclass constructor with its defaults, followed by
        `__post_init__`: the default ISM bands replace only an absent band
        list; a given list, even an empty one, is kept. */
    constructor (deviceId: string := "default", sampleRate: real := 2400000.0,
                 centerFrequency: real := 100000000.0, bandwidth: real := 2000000.0,
                 rxGain: real := 20.0, txGain: real := 10.0, txEnabled: bool := false,
                 maxTxPower: real := 1.0, requireLicenseCheck: bool := true,
                 allowedTxBands: Option<seq<Band>> := None)
      ensures this.deviceId == deviceId && this.sampleRate == sampleRate
      ensures this.centerFrequency == centerFrequency && this.bandwidth == bandwidth
      ensures this.rxGain == rxGain && this.txGain == txGain && this.txEnabled == txEnabled
      ensures this.maxTxPower == maxTxPower && this.requireLicenseCheck == requireLicenseCheck
      ensures allowedTxBands.None? ==> this.allowedTxBands == DefaultTxBands
      ensures allowedTxBands.Some? ==> this.allowedTxBands == allowedTxBands.value
    {
      this.deviceId := deviceId;
      this.sampleRate := sampleRate;
      this.centerFrequency := centerFrequency;
      this.bandwidth := bandwidth;
      this.rxGain := rxGain;
      this.txGain := txGain;
      this.txEnabled := txEnabled;
      this.maxTxPower := maxTxPower;
      this.requireLicenseCheck := requireLicenseCheck;
      if allowedTxBands.None? {
        this.allowedTxBands := DefaultTxBands;
      } else {
        this.allowedTxBands := allowedTxBands.value;
      }
    }

    /** Transmission is allowed on `frequency` only with TX enabled, and then
        exactly when some band holds it, both ends included. */
    function IsFrequencyAllowedForTx(frequency: real): (allowed: bool)
      reads this
      ensures !txEnabled ==> !allowed
      ensures txEnabled ==>
        (allowed <==> exists i :: 0 <= i < |allowedTxBands| && InBand(allowedTxBands[i], frequency))
    {
      if !txEnabled then false else AnyBandHolds(allowedTxBands, frequency)
    }

    /** Whether the license-band check applies and fails. */
    predicate LicenseCheckFails()
      reads this
    {
      txEnabled && requireLicenseCheck && !IsFrequencyAllowedForTx(centerFrequency)
    }

    /** Whether the check that reports `e` fails on this configuration. */
    predicate Fails(e: ConfigError)
      reads this
    {
      match e
      case SampleRateNotPositive => sampleRate <= 0.0
      case CenterFrequencyNotPositive => centerFrequency <= 0.0
      case BandwidthOutOfRange => bandwidth <= 0.0 || bandwidth > sampleRate
      case FrequencyNotInTxBands(_) => LicenseCheckFails()
      case TxGainOutOfRange => txGain < 0.0 || txGain > 100.0
      case MaxTxPowerNotPositive => maxTxPower <= 0.0
    }

    /** The errors that running `checks` in order appends. */
    function Failing(checks: seq<ConfigError>): seq<ConfigError>
      reads this
    {
      if checks == [] then [] else RunCheck(Failing(checks[..|checks| - 1]), checks[|checks| - 1])
    }

    /** Running checks in order lists exactly the failing ones, and keeps
        their order. */
    lemma {:induction false} FailingSpec(checks: seq<ConfigError>)
      ensures forall e :: e in Failing(checks) <==> e in checks && Fails(e)
      ensures InCheckOrder(checks) ==> InCheckOrder(Failing(checks))
    {
      if checks != [] {
        var init, last := checks[..|checks| - 1], checks[|checks| - 1];
        assert checks == init + [last];
        FailingSpec(init);
        if InCheckOrder(checks) {
          assert InCheckOrder(init) by {
            forall i, j | 0 <= i < j < |init| ensures Rank(init[i]) < Rank(init[j]) {
              assert init[i] == checks[i] && init[j] == checks[j];
            }
          }
          var f := Failing(checks);
          var g := Failing(init);
          forall i, j | 0 <= i < j < |f| ensures Rank(f[i]) < Rank(f[j]) {
            if j < |g| {
              assert f[i] == g[i] && f[j] == g[j];
            } else {
              assert f[j] == last && f[i] == g[i] && g[i] in init;
              var k :| 0 <= k < |init| && init[k] == g[i];
              assert checks[k] == g[i] && checks[|checks| - 1] == last;
            }
          }
        }
      }
    }

    /** The errors listed after running the check that reports `e`, when
        `errors` were listed before it. */
    function RunCheck(errors: seq<ConfigError>, e: ConfigError): seq<ConfigError>
      reads this
    {
      if Fails(e) then errors + [e] else errors
    }

    /** The errors listed by running the six checks one after the other. */
    function Collected(): seq<ConfigError>
      reads this
    {
      RunCheck(RunCheck(RunCheck(RunCheck(RunCheck(RunCheck([],
          SampleRateNotPositive), CenterFrequencyNotPositive), BandwidthOutOfRange),
          FrequencyNotInTxBands(centerFrequency)), TxGainOutOfRange), MaxTxPowerNotPositive)
    }

    /** Running the six checks in order lists what running them one after
        the other lists. */
    lemma FailingCollects()
      ensures Failing(AllChecks(centerFrequency)) == Collected()
    {
      var checks := AllChecks(centerFrequency);
      assert checks[..1][..0] == [];
      assert Failing(checks[..1]) == RunCheck([], SampleRateNotPositive);
      assert checks[..2][..1] == checks[..1];
      assert Failing(checks[..2]) == RunCheck(Failing(checks[..1]), CenterFrequencyNotPositive);
      assert checks[..3][..2] == checks[..2];
      assert Failing(checks[..3]) == RunCheck(Failing(checks[..2]), BandwidthOutOfRange);
      assert checks[..4][..3] == checks[..3];
      assert Failing(checks[..4]) == RunCheck(Failing(checks[..3]), FrequencyNotInTxBands(centerFrequency));
      assert checks[..5][..4] == checks[..4];
      assert Failing(checks[..5]) == RunCheck(Failing(checks[..4]), TxGainOutOfRange);
      assert checks[..6][..5] == checks[..5] && checks[..6] == checks;
    }

    /** All six checks of `validate` pass. */
    predicate ChecksPass()
      reads this
    {
      && sampleRate > 0.0
      && centerFrequency > 0.0
      && 0.0 < bandwidth <= sampleRate
      && !LicenseCheckFails()
      && 0.0 <= txGain <= 100.0
      && maxTxPower > 0.0
    }

    /** What `validate` promises: the errors are in check order, at most one
        per check, each present exactly when its check fails, and the list is
        empty exactly when every check passes. */
    lemma ValidationErrorsSpec()
      ensures var errors := Failing(AllChecks(centerFrequency));
        && InCheckOrder(errors) && |errors| <= 6
        && (errors == [] <==> ChecksPass())
        && (SampleRateNotPositive in errors <==> sampleRate <= 0.0)
        && (CenterFrequencyNotPositive in errors <==> centerFrequency <= 0.0)
        && (BandwidthOutOfRange in errors <==> bandwidth <= 0.0 || bandwidth > sampleRate)
        && (FrequencyNotInTxBands(centerFrequency) in errors <==> LicenseCheckFails())
        && (forall e :: e in errors && e.FrequencyNotInTxBands? ==> e.frequency == centerFrequency)
        && (TxGainOutOfRange in errors <==> txGain < 0.0 || txGain > 100.0)
        && (MaxTxPowerNotPositive in errors <==> maxTxPower <= 0.0)
    {
      var checks := AllChecks(centerFrequency);
      var errors := Failing(checks);
      FailingSpec(checks);
      InCheckOrderBounded(errors);
      if errors == [] {
        forall e | e in checks ensures !Fails(e) { }
        assert !Fails(SampleRateNotPositive) && !Fails(CenterFrequencyNotPositive) && !Fails(BandwidthOutOfRange);
        assert !Fails(FrequencyNotInTxBands(centerFrequency)) && !Fails(TxGainOutOfRange) && !Fails(MaxTxPowerNotPositive);
      } else {
        var e := errors[0];
        assert e in checks && Fails(e);
        assert e == checks[0] || e == checks[1] || e == checks[2] || e == checks[3] || e == checks[4] || e == checks[5];
      }
    }

    /** Runs the six checks in order, appending the error of each one that
        fails. */
    method RunChecks() returns (errors: seq<ConfigError>)
      ensures errors == Collected()
    {
      errors := [];
      if sampleRate <= 0.0 {
        errors := errors + [SampleRateNotPositive];
      }
      if centerFrequency <= 0.0 {
        errors := errors + [CenterFrequencyNotPositive];
      }
      if bandwidth <= 0.0 || bandwidth > sampleRate {
        errors := errors + [BandwidthOutOfRange];
      }
      if txEnabled && requireLicenseCheck {
        if !IsFrequencyAllowedForTx(centerFrequency) {
          errors := errors + [FrequencyNotInTxBands(centerFrequency)];
        }
      }
      if txGain < 0.0 || txGain > 100.0 {
        errors := errors + [TxGainOutOfRange];
      }
      if maxTxPower <= 0.0 {
        errors := errors + [MaxTxPowerNotPositive];
      }
    }

    /** Runs the checks in order and lists the failing ones, one error per
        failing check; the configuration is only read. */
    method FailedChecks() returns (errors: seq<ConfigError>)
      ensures errors == Failing(AllChecks(centerFrequency))
      ensures InCheckOrder(errors) && |errors| <= 6
      ensures errors == [] <==> ChecksPass()
      ensures SampleRateNotPositive in errors <==> sampleRate <= 0.0
      ensures CenterFrequencyNotPositive in errors <==> centerFrequency <= 0.0
      ensures BandwidthOutOfRange in errors <==> bandwidth <= 0.0 || bandwidth > sampleRate
      ensures FrequencyNotInTxBands(centerFrequency) in errors <==> LicenseCheckFails()
      ensures forall e :: e in errors && e.FrequencyNotInTxBands? ==> e.frequency == centerFrequency
      ensures TxGainOutOfRange in errors <==> txGain < 0.0 || txGain > 100.0
      ensures MaxTxPowerNotPositive in errors <==> maxTxPower <= 0.0
    {
      errors := RunChecks();
      FailingCollects();
      ValidationErrorsSpec();
    }

    /** `validate`: the messages of the failing checks, in check order; at
        most six, and none exactly when every check passes. */
    method Validate(formatMhz: real -> string) returns (messages: seq<string>)
      ensures messages == Messages(Failing(AllChecks(centerFrequency)), formatMhz)
      ensures |messages| <= 6
      ensures messages == [] <==> ChecksPass()
    {
      var errors := FailedChecks();
      messages := Messages(errors, formatMhz);
    }
  }
}
