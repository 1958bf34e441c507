/** The NRSH (spirulina) and ELXR (kombucha) telemetry pallets of
    runtime/parachain-integration.rs. Each pallet keeps the authorised
    account per device, the telemetry records by id, the latest record per
    device, the next id and the optimal ranges. The signed origin and the
    block number are parameters; deposited events are returned in order. No
    dispatchable writes before its last check, so an error writes nothing. */
module ParachainIntegration {
  import opened Results
  import opened UInt

  type AccountId = nat
  type BlockNumber = nat
  type Bytes = seq<u8>
  /** `T::TelemetryId`, a numeric id whose `Default` is zero. */
  type TelemetryId = u64

  /** A `(min, max)` pair in the reading's fixed-point units. */
  type Range = (u32, u32)

  /** The dispatch errors, one per `ensure!` message of the pallets. */
  datatype Error =
    | DeviceNotAuthorized       // "Device not authorized for this account"
    | DeviceIdTooLong           // "Device ID too long"
    | BatchIdTooLong            // "Batch ID too long"
    | SignatureTooLong          // "Quantum signature too long"
    | InvalidSignatureLength    // "Invalid quantum signature length"
    | TelemetryIdOverflow       // "Telemetry ID overflow"
    | InvalidPhRange | InvalidTemperatureRange | InvalidLightRange | InvalidDensityRange
    | InvalidDissolvedOxygenRange | InvalidNitrateRange | InvalidSalinityRange
    | InvalidCo2Range | InvalidFermentationRange

  /** A reading lies outside its inclusive optimal range. */
  predicate OutOfRange(value: u32, range: Range)
  {
    value < range.0 || value > range.1
  }

  /** A `(min, max)` pair that `update_optimal_ranges` accepts: `min < max`. */
  predicate Ordered(range: Range)
  {
    range.0 < range.1
  }

  /** `verify_quantum_signature` (identical in both pallets): only the
      length is checked, at least 64 bytes. */
  function VerifyQuantumSignature(deviceId: Bytes, signature: Bytes): (r: Result<(), Error>)
    ensures r.Ok? <==> |signature| >= 64
    ensures r.Err? ==> r.error == InvalidSignatureLength
  {
    if |signature| >= 64 then Ok(()) else Err(InvalidSignatureLength)
  }

  /** The next id: the current id `checked_add` the default id, zero. */
  function NextId(current: TelemetryId): (r: Option<TelemetryId>)
    ensures r.Some?
    ensures r.Some? ==> r.value >= current
  {
    CheckedAdd64(current, 0)
  }

  /** The id never advances: adding the default id gives back the same id. */
  lemma NextIdIsCurrent(current: TelemetryId)
    ensures NextId(current) == Some(current)
  {
  }

  /** A named range check: the anomaly label, the reading and its range. */
  datatype Check = Check(name: string, reading: u32, bounds: Range)

  /** Reference definition of anomaly detection: the labels of the checks
      whose reading is out of range, in the order of the checks. */
  function OutOfRangeLabels(checks: seq<Check>): seq<string>
  {
    if |checks| == 0 then []
    else if OutOfRange(checks[0].reading, checks[0].bounds) then [checks[0].name] + OutOfRangeLabels(checks[1..])
    else OutOfRangeLabels(checks[1..])
  }

  /** The filter reports a label exactly when some check of that name is out
      of range, and never more labels than checks. */
  lemma {:induction false} OutOfRangeLabelsSpec(checks: seq<Check>)
    ensures |OutOfRangeLabels(checks)| <= |checks|
    ensures forall l :: l in OutOfRangeLabels(checks) <==>
      exists c :: c in checks && c.name == l && OutOfRange(c.reading, c.bounds)
  {
    if |checks| > 0 {
      OutOfRangeLabelsSpec(checks[1..]);
      assert forall c :: c in checks[1..] ==> c in checks;
      assert forall c :: c in checks ==> c == checks[0] || c in checks[1..];
    }
  }

  /* ---------------- NRSH pallet ---------------- */

  datatype NrshRanges = NrshRanges(ph: Range, temperature: Range, light: Range, density: Range,
                                   dissolvedOxygen: Range, nitrate: Range, salinity: Range)

  datatype NrshTelemetry = NrshTelemetry(
    deviceId: Bytes, timestamp: BlockNumber, batchId: Bytes,
    ph: u32, temperature: u32, light: u32, density: u32, dissolvedOxygen: u32, nitrate: u32, salinity: u32,
    battery: u32, overallHealth: u32, harvestReady: bool, reporter: AccountId, quantumSignature: Bytes)

  datatype NrshEvent =
    | NewTelemetryRecorded(deviceId: Bytes, telemetryId: TelemetryId)
    | DeviceAuthorizationUpdated(deviceId: Bytes, account: AccountId)
    | OptimalRangesUpdated
    | HarvestReadinessDetected(deviceId: Bytes, batchId: Bytes)
    | AnomalyDetected(deviceId: Bytes, anomaly: string)

  /** The NRSH range checks in the order `check_anomalies` performs them. */
  function NrshChecks(ranges: NrshRanges, ph: u32, temperature: u32, light: u32, density: u32,
                      dissolvedOxygen: u32, nitrate: u32, salinity: u32): seq<Check>
  {
    [Check("pH_out_of_range", ph, ranges.ph), Check("temperature_out_of_range", temperature, ranges.temperature),
     Check("light_out_of_range", light, ranges.light), Check("density_out_of_range", density, ranges.density),
     Check("dissolved_oxygen_out_of_range", dissolvedOxygen, ranges.dissolvedOxygen),
     Check("nitrate_out_of_range", nitrate, ranges.nitrate), Check("salinity_out_of_range", salinity, ranges.salinity)]
  }

  /** The NRSH event for one check: an `AnomalyDetected` when out of range. */
  function NrshAnomaly(deviceId: Bytes, c: Check): seq<NrshEvent>
  {
    if OutOfRange(c.reading, c.bounds) then [NrshEvent.AnomalyDetected(deviceId, c.name)] else []
  }

  /** Wraps each anomaly label into the NRSH event for `deviceId`. */
  function NrshAnomalyEvents(deviceId: Bytes, labels: seq<string>): (r: seq<NrshEvent>)
    ensures |r| == |labels|
    ensures forall i :: 0 <= i < |r| ==> r[i] == NrshEvent.AnomalyDetected(deviceId, labels[i])
  {
    if |labels| == 0 then [] else [NrshEvent.AnomalyDetected(deviceId, labels[0])] + NrshAnomalyEvents(deviceId, labels[1..])
  }

  /** The checks run one after the other, each depositing its event if its
      reading is out of range: the events of the reference filter. */
  function NrshAnomalies(deviceId: Bytes, checks: seq<Check>): (r: seq<NrshEvent>)
    ensures r == NrshAnomalyEvents(deviceId, OutOfRangeLabels(checks))
  {
    if |checks| == 0 then [] else NrshAnomaly(deviceId, checks[0]) + NrshAnomalies(deviceId, checks[1..])
  }

  /** NRSH `check_anomalies`: the seven range checks in parameter order; it
      never fails, and reports exactly the out-of-range readings, in order. */
  function NrshCheckAnomalies(deviceId: Bytes, ranges: NrshRanges, ph: u32, temperature: u32, light: u32, density: u32,
                              dissolvedOxygen: u32, nitrate: u32, salinity: u32): (r: seq<NrshEvent>)
    ensures r == NrshAnomalyEvents(deviceId, OutOfRangeLabels(NrshChecks(ranges, ph, temperature, light, density,
                                                                         dissolvedOxygen, nitrate, salinity)))
  {
    NrshAnomalies(deviceId, NrshChecks(ranges, ph, temperature, light, density, dissolvedOxygen, nitrate, salinity))
  }

  class NrshPallet {
    /** `SpirulinaTelemetry`. */
    var telemetry: map<TelemetryId, NrshTelemetry>
    /** `DeviceLatestTelemetry`. */
    var deviceLatest: map<Bytes, TelemetryId>
    /** `NextTelemetryId` (a value query, zero until written). */
    var nextTelemetryId: TelemetryId
    /** `AuthorizedDevices`. */
    var authorizedDevices: map<Bytes, AccountId>
    /** `OptimalRanges` (a value query, all zero until written). */
    var optimalRanges: NrshRanges
    const maxDeviceIdLength: u32
    const maxBatchIdLength: u32
    const maxSignatureLength: u32

    constructor (maxDeviceIdLength: u32, maxBatchIdLength: u32, maxSignatureLength: u32)
      ensures this.maxDeviceIdLength == maxDeviceIdLength && this.maxBatchIdLength == maxBatchIdLength
      ensures this.maxSignatureLength == maxSignatureLength
      ensures telemetry == map[] && deviceLatest == map[] && nextTelemetryId == 0 && authorizedDevices == map[]
      ensures optimalRanges == NrshRanges((0, 0), (0, 0), (0, 0), (0, 0), (0, 0), (0, 0), (0, 0))
    {
      this.maxDeviceIdLength := maxDeviceIdLength;
      this.maxBatchIdLength := maxBatchIdLength;
      this.maxSignatureLength := maxSignatureLength;
      telemetry, deviceLatest, nextTelemetryId, authorizedDevices := map[], map[], 0, map[];
      optimalRanges := NrshRanges((0, 0), (0, 0), (0, 0), (0, 0), (0, 0), (0, 0), (0, 0));
    }

    /** NRSH `submit_telemetry`. Checks, in order: the device is authorised
        for the sender; the device id, batch id and signature are within
        their caps; the signature has at least 64 bytes. Then the record is
        stored under the current id, which becomes the device's latest, and
        the id is left where it was. Events: the anomalies, then
        `NrshEvent.HarvestReadinessDetected` when `harvestReady`, then
        `NrshEvent.NewTelemetryRecorded`. */
    method SubmitTelemetry(sender: AccountId, now: BlockNumber, deviceId: Bytes, batchId: Bytes,
                           ph: u32, temperature: u32, light: u32, density: u32, dissolvedOxygen: u32,
                           nitrate: u32, salinity: u32, battery: u32, overallHealth: u32, harvestReady: bool,
                           quantumSignature: Bytes)
      returns (r: Result<seq<NrshEvent>, Error>)
      modifies this`telemetry, this`deviceLatest, this`nextTelemetryId
      ensures !(deviceId in old(authorizedDevices) && old(authorizedDevices)[deviceId] == sender) ==> r == Err(DeviceNotAuthorized)
      ensures deviceId in old(authorizedDevices) && old(authorizedDevices)[deviceId] == sender ==>
        && (|deviceId| > maxDeviceIdLength ==> r == Err(DeviceIdTooLong))
        && (|deviceId| <= maxDeviceIdLength && |batchId| > maxBatchIdLength ==> r == Err(BatchIdTooLong))
        && ((|deviceId| <= maxDeviceIdLength && |batchId| <= maxBatchIdLength && |quantumSignature| > maxSignatureLength)
              ==> r == Err(SignatureTooLong))
        && ((|deviceId| <= maxDeviceIdLength && |batchId| <= maxBatchIdLength && |quantumSignature| <= maxSignatureLength)
              ==> (r.Ok? <==> |quantumSignature| >= 64))
        && ((|deviceId| <= maxDeviceIdLength && |batchId| <= maxBatchIdLength && |quantumSignature| <= maxSignatureLength
             && |quantumSignature| < 64) ==> r == Err(InvalidSignatureLength))
      ensures r.Err? ==> telemetry == old(telemetry) && deviceLatest == old(deviceLatest) && nextTelemetryId == old(nextTelemetryId)
      ensures r.Ok? ==>
        var id := old(nextTelemetryId);
        && telemetry == old(telemetry)[id := NrshTelemetry(deviceId, now, batchId, ph, temperature, light, density,
                                                            dissolvedOxygen, nitrate, salinity, battery, overallHealth,
                                                            harvestReady, sender, quantumSignature)]
        && deviceLatest == old(deviceLatest)[deviceId := id]
        && nextTelemetryId == id
        && r.value == NrshCheckAnomalies(deviceId, optimalRanges, ph, temperature, light, density, dissolvedOxygen, nitrate, salinity)
                      + (if harvestReady then [NrshEvent.HarvestReadinessDetected(deviceId, batchId)] else [])
                      + [NrshEvent.NewTelemetryRecorded(deviceId, id)]
    {
      if !(deviceId in authorizedDevices && authorizedDevices[deviceId] == sender) {
        return Err(DeviceNotAuthorized);
      }
      if |deviceId| > maxDeviceIdLength {
        return Err(DeviceIdTooLong);
      }
      if |batchId| > maxBatchIdLength {
        return Err(BatchIdTooLong);
      }
      if |quantumSignature| > maxSignatureLength {
        return Err(SignatureTooLong);
      }
      var verified := VerifyQuantumSignature(deviceId, quantumSignature);
      if verified.Err? {
        return Err(verified.error);
      }
      var id := nextTelemetryId;
      var next := NextId(id);
      if next.None? {
        return Err(TelemetryIdOverflow);
      }
      var record := NrshTelemetry(deviceId, now, batchId, ph, temperature, light, density, dissolvedOxygen,
                                  nitrate, salinity, battery, overallHealth, harvestReady, sender, quantumSignature);
      telemetry := telemetry[id := record];
      deviceLatest := deviceLatest[deviceId := id];
      nextTelemetryId := next.value;
      var events := NrshCheckAnomalies(deviceId, optimalRanges, ph, temperature, light, density, dissolvedOxygen, nitrate, salinity);
      if harvestReady {
        events := events + [NrshEvent.HarvestReadinessDetected(deviceId, batchId)];
      }
      events := events + [NrshEvent.NewTelemetryRecorded(deviceId, id)];
      r := Ok(events);
    }

    /** NRSH `authorize_device`: refuses an over-long id; otherwise the
        device is (re)assigned to the sender, whoever held it before. */
    method AuthorizeDevice(sender: AccountId, deviceId: Bytes) returns (r: Result<seq<NrshEvent>, Error>)
      modifies this`authorizedDevices
      ensures |deviceId| > maxDeviceIdLength ==> r == Err(DeviceIdTooLong) && authorizedDevices == old(authorizedDevices)
      ensures |deviceId| <= maxDeviceIdLength ==>
        && r == Ok([NrshEvent.DeviceAuthorizationUpdated(deviceId, sender)])
        && authorizedDevices == old(authorizedDevices)[deviceId := sender]
    {
      if |deviceId| > maxDeviceIdLength {
        return Err(DeviceIdTooLong);
      }
      authorizedDevices := authorizedDevices[deviceId := sender];
      r := Ok([NrshEvent.DeviceAuthorizationUpdated(deviceId, sender)]);
    }

    /** NRSH `update_optimal_ranges`: every pair needs `min < max`, checked
        in parameter order; the first failing pair names the error. */
    method UpdateOptimalRanges(ranges: NrshRanges) returns (r: Result<seq<NrshEvent>, Error>)
      modifies this`optimalRanges
      ensures r.Ok? <==> Ordered(ranges.ph) && Ordered(ranges.temperature) && Ordered(ranges.light) && Ordered(ranges.density)
                         && Ordered(ranges.dissolvedOxygen) && Ordered(ranges.nitrate) && Ordered(ranges.salinity)
      ensures !Ordered(ranges.ph) ==> r == Err(InvalidPhRange)
      ensures Ordered(ranges.ph) && !Ordered(ranges.temperature) ==> r == Err(InvalidTemperatureRange)
      ensures Ordered(ranges.ph) && Ordered(ranges.temperature) && !Ordered(ranges.light) ==> r == Err(InvalidLightRange)
      ensures Ordered(ranges.ph) && Ordered(ranges.temperature) && Ordered(ranges.light) && !Ordered(ranges.density) ==> r == Err(InvalidDensityRange)
      ensures (Ordered(ranges.ph) && Ordered(ranges.temperature) && Ordered(ranges.light) && Ordered(ranges.density)
               && !Ordered(ranges.dissolvedOxygen)) ==> r == Err(InvalidDissolvedOxygenRange)
      ensures (Ordered(ranges.ph) && Ordered(ranges.temperature) && Ordered(ranges.light) && Ordered(ranges.density)
               && Ordered(ranges.dissolvedOxygen) && !Ordered(ranges.nitrate)) ==> r == Err(InvalidNitrateRange)
      ensures (Ordered(ranges.ph) && Ordered(ranges.temperature) && Ordered(ranges.light) && Ordered(ranges.density)
               && Ordered(ranges.dissolvedOxygen) && Ordered(ranges.nitrate) && !Ordered(ranges.salinity)) ==> r == Err(InvalidSalinityRange)
      ensures r.Err? ==> optimalRanges == old(optimalRanges)
      ensures r.Ok? ==> optimalRanges == ranges && r.value == [NrshEvent.OptimalRangesUpdated]
    {
      if !Ordered(ranges.ph) { return Err(InvalidPhRange); }
      if !Ordered(ranges.temperature) { return Err(InvalidTemperatureRange); }
      if !Ordered(ranges.light) { return Err(InvalidLightRange); }
      if !Ordered(ranges.density) { return Err(InvalidDensityRange); }
      if !Ordered(ranges.dissolvedOxygen) { return Err(InvalidDissolvedOxygenRange); }
      if !Ordered(ranges.nitrate) { return Err(InvalidNitrateRange); }
      if !Ordered(ranges.salinity) { return Err(InvalidSalinityRange); }
      optimalRanges := ranges;
      r := Ok([NrshEvent.OptimalRangesUpdated]);
    }
  }

  /* ---------------- ELXR pallet ---------------- */

  datatype ElxrRanges = ElxrRanges(ph: Range, temperature: Range, light: Range, density: Range,
                                   co2: Range, fermentation: Range)

  datatype ElxrTelemetry = ElxrTelemetry(
    deviceId: Bytes, timestamp: BlockNumber,
    ph: u32, temperature: u32, light: u32, density: u32, co2: u32, fermentation: u32, battery: u32,
    reporter: AccountId, quantumSignature: Bytes)

  datatype ElxrEvent =
    | NewTelemetryRecorded(deviceId: Bytes, telemetryId: TelemetryId)
    | DeviceAuthorizationUpdated(deviceId: Bytes, account: AccountId)
    | OptimalRangesUpdated
    | FermentationCompleted(deviceId: Bytes)
    | AnomalyDetected(deviceId: Bytes, anomaly: string)

  /** Fermentation counts as complete from 80% (800 in units of 1/1000). */
  const FERMENTATION_COMPLETE: u32 := 800

  /** The ELXR range checks in the order `check_anomalies` performs them. */
  function ElxrChecks(ranges: ElxrRanges, ph: u32, temperature: u32, light: u32, density: u32, co2: u32, fermentation: u32): seq<Check>
  {
    [Check("pH_out_of_range", ph, ranges.ph), Check("temperature_out_of_range", temperature, ranges.temperature),
     Check("light_out_of_range", light, ranges.light), Check("density_out_of_range", density, ranges.density),
     Check("co2_out_of_range", co2, ranges.co2), Check("fermentation_out_of_range", fermentation, ranges.fermentation)]
  }

  /** The ELXR event for one check: an `AnomalyDetected` when out of range. */
  function ElxrAnomaly(deviceId: Bytes, c: Check): seq<ElxrEvent>
  {
    if OutOfRange(c.reading, c.bounds) then [ElxrEvent.AnomalyDetected(deviceId, c.name)] else []
  }

  /** Wraps each anomaly label into the ELXR event for `deviceId`. */
  function ElxrAnomalyEvents(deviceId: Bytes, labels: seq<string>): (r: seq<ElxrEvent>)
    ensures |r| == |labels|
    ensures forall i :: 0 <= i < |r| ==> r[i] == ElxrEvent.AnomalyDetected(deviceId, labels[i])
  {
    if |labels| == 0 then [] else [ElxrEvent.AnomalyDetected(deviceId, labels[0])] + ElxrAnomalyEvents(deviceId, labels[1..])
  }

  /** The checks run one after the other, each depositing its event if its
      reading is out of range: the events of the reference filter. */
  function ElxrAnomalies(deviceId: Bytes, checks: seq<Check>): (r: seq<ElxrEvent>)
    ensures r == ElxrAnomalyEvents(deviceId, OutOfRangeLabels(checks))
  {
    if |checks| == 0 then [] else ElxrAnomaly(deviceId, checks[0]) + ElxrAnomalies(deviceId, checks[1..])
  }

  /** ELXR `check_anomalies`: the six range checks in parameter order; it
      never fails, and reports exactly the out-of-range readings, in order. */
  function ElxrCheckAnomalies(deviceId: Bytes, ranges: ElxrRanges, ph: u32, temperature: u32, light: u32, density: u32,
                              co2: u32, fermentation: u32): (r: seq<ElxrEvent>)
    ensures r == ElxrAnomalyEvents(deviceId, OutOfRangeLabels(ElxrChecks(ranges, ph, temperature, light, density, co2, fermentation)))
  {
    ElxrAnomalies(deviceId, ElxrChecks(ranges, ph, temperature, light, density, co2, fermentation))
  }

  class ElxrPallet {
    /** `KombuchaTelemetry`. */
    var telemetry: map<TelemetryId, ElxrTelemetry>
    /** `DeviceLatestTelemetry`. */
    var deviceLatest: map<Bytes, TelemetryId>
    /** `NextTelemetryId` (a value query, zero until written). */
    var nextTelemetryId: TelemetryId
    /** `AuthorizedDevices`. */
    var authorizedDevices: map<Bytes, AccountId>
    /** `OptimalRanges` (a value query, all zero until written). */
    var optimalRanges: ElxrRanges
    const maxDeviceIdLength: u32
    const maxSignatureLength: u32

    constructor (maxDeviceIdLength: u32, maxSignatureLength: u32)
      ensures this.maxDeviceIdLength == maxDeviceIdLength && this.maxSignatureLength == maxSignatureLength
      ensures telemetry == map[] && deviceLatest == map[] && nextTelemetryId == 0 && authorizedDevices == map[]
      ensures optimalRanges == ElxrRanges((0, 0), (0, 0), (0, 0), (0, 0), (0, 0), (0, 0))
    {
      this.maxDeviceIdLength := maxDeviceIdLength;
      this.maxSignatureLength := maxSignatureLength;
      telemetry, deviceLatest, nextTelemetryId, authorizedDevices := map[], map[], 0, map[];
      optimalRanges := ElxrRanges((0, 0), (0, 0), (0, 0), (0, 0), (0, 0), (0, 0));
    }

    /** ELXR `submit_telemetry`: as the NRSH one without a batch id; the
        extra event is `FermentationCompleted` when fermentation reaches 800. */
    method SubmitTelemetry(sender: AccountId, now: BlockNumber, deviceId: Bytes,
                           ph: u32, temperature: u32, light: u32, density: u32, co2: u32, fermentation: u32,
                           battery: u32, quantumSignature: Bytes)
      returns (r: Result<seq<ElxrEvent>, Error>)
      modifies this`telemetry, this`deviceLatest, this`nextTelemetryId
      ensures !(deviceId in old(authorizedDevices) && old(authorizedDevices)[deviceId] == sender) ==> r == Err(DeviceNotAuthorized)
      ensures deviceId in old(authorizedDevices) && old(authorizedDevices)[deviceId] == sender ==>
        && (|deviceId| > maxDeviceIdLength ==> r == Err(DeviceIdTooLong))
        && (|deviceId| <= maxDeviceIdLength && |quantumSignature| > maxSignatureLength ==> r == Err(SignatureTooLong))
        && (|deviceId| <= maxDeviceIdLength && |quantumSignature| <= maxSignatureLength ==> (r.Ok? <==> |quantumSignature| >= 64))
        && ((|deviceId| <= maxDeviceIdLength && |quantumSignature| <= maxSignatureLength && |quantumSignature| < 64)
              ==> r == Err(InvalidSignatureLength))
      ensures r.Err? ==> telemetry == old(telemetry) && deviceLatest == old(deviceLatest) && nextTelemetryId == old(nextTelemetryId)
      ensures r.Ok? ==>
        var id := old(nextTelemetryId);
        && telemetry == old(telemetry)[id := ElxrTelemetry(deviceId, now, ph, temperature, light, density, co2,
                                                            fermentation, battery, sender, quantumSignature)]
        && deviceLatest == old(deviceLatest)[deviceId := id]
        && nextTelemetryId == id
        && r.value == ElxrCheckAnomalies(deviceId, optimalRanges, ph, temperature, light, density, co2, fermentation)
                      + (if fermentation >= FERMENTATION_COMPLETE then [FermentationCompleted(deviceId)] else [])
                      + [ElxrEvent.NewTelemetryRecorded(deviceId, id)]
    {
      if !(deviceId in authorizedDevices && authorizedDevices[deviceId] == sender) {
        return Err(DeviceNotAuthorized);
      }
      if |deviceId| > maxDeviceIdLength {
        return Err(DeviceIdTooLong);
      }
      if |quantumSignature| > maxSignatureLength {
        return Err(SignatureTooLong);
      }
      var verified := VerifyQuantumSignature(deviceId, quantumSignature);
      if verified.Err? {
        return Err(verified.error);
      }
      var id := nextTelemetryId;
      var next := NextId(id);
      if next.None? {
        return Err(TelemetryIdOverflow);
      }
      var record := ElxrTelemetry(deviceId, now, ph, temperature, light, density, co2, fermentation, battery,
                                  sender, quantumSignature);
      telemetry := telemetry[id := record];
      deviceLatest := deviceLatest[deviceId := id];
      nextTelemetryId := next.value;
      var events := ElxrCheckAnomalies(deviceId, optimalRanges, ph, temperature, light, density, co2, fermentation);
      if fermentation >= FERMENTATION_COMPLETE {
        events := events + [FermentationCompleted(deviceId)];
      }
      events := events + [ElxrEvent.NewTelemetryRecorded(deviceId, id)];
      r := Ok(events);
    }

    /** ELXR `authorize_device`: as the NRSH one. */
    method AuthorizeDevice(sender: AccountId, deviceId: Bytes) returns (r: Result<seq<ElxrEvent>, Error>)
      modifies this`authorizedDevices
      ensures |deviceId| > maxDeviceIdLength ==> r == Err(DeviceIdTooLong) && authorizedDevices == old(authorizedDevices)
      ensures |deviceId| <= maxDeviceIdLength ==>
        && r == Ok([ElxrEvent.DeviceAuthorizationUpdated(deviceId, sender)])
        && authorizedDevices == old(authorizedDevices)[deviceId := sender]
    {
      if |deviceId| > maxDeviceIdLength {
        return Err(DeviceIdTooLong);
      }
      authorizedDevices := authorizedDevices[deviceId := sender];
      r := Ok([ElxrEvent.DeviceAuthorizationUpdated(deviceId, sender)]);
    }

    /** ELXR `update_optimal_ranges`: every pair needs `min < max`, checked
        in parameter order; the first failing pair names the error. */
    method UpdateOptimalRanges(ranges: ElxrRanges) returns (r: Result<seq<ElxrEvent>, Error>)
      modifies this`optimalRanges
      ensures r.Ok? <==> Ordered(ranges.ph) && Ordered(ranges.temperature) && Ordered(ranges.light) && Ordered(ranges.density)
                         && Ordered(ranges.co2) && Ordered(ranges.fermentation)
      ensures !Ordered(ranges.ph) ==> r == Err(InvalidPhRange)
      ensures Ordered(ranges.ph) && !Ordered(ranges.temperature) ==> r == Err(InvalidTemperatureRange)
      ensures Ordered(ranges.ph) && Ordered(ranges.temperature) && !Ordered(ranges.light) ==> r == Err(InvalidLightRange)
      ensures Ordered(ranges.ph) && Ordered(ranges.temperature) && Ordered(ranges.light) && !Ordered(ranges.density) ==> r == Err(InvalidDensityRange)
      ensures (Ordered(ranges.ph) && Ordered(ranges.temperature) && Ordered(ranges.light) && Ordered(ranges.density)
               && !Ordered(ranges.co2)) ==> r == Err(InvalidCo2Range)
      ensures (Ordered(ranges.ph) && Ordered(ranges.temperature) && Ordered(ranges.light) && Ordered(ranges.density)
               && Ordered(ranges.co2) && !Ordered(ranges.fermentation)) ==> r == Err(InvalidFermentationRange)
      ensures r.Err? ==> optimalRanges == old(optimalRanges)
      ensures r.Ok? ==> optimalRanges == ranges && r.value == [ElxrEvent.OptimalRangesUpdated]
    {
      if !Ordered(ranges.ph) { return Err(InvalidPhRange); }
      if !Ordered(ranges.temperature) { return Err(InvalidTemperatureRange); }
      if !Ordered(ranges.light) { return Err(InvalidLightRange); }
      if !Ordered(ranges.density) { return Err(InvalidDensityRange); }
      if !Ordered(ranges.co2) { return Err(InvalidCo2Range); }
      if !Ordered(ranges.fermentation) { return Err(InvalidFermentationRange); }
      optimalRanges := ranges;
      r := Ok([ElxrEvent.OptimalRangesUpdated]);
    }
  }
}
