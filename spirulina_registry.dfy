/** The `SpirulinaRegistry` ink! contract of runtime/spirulina-registry.rs:
    cultivation facilities, their telemetry devices and cultivation
    parameters, guarded by owner/auditor rules. The caller and the block
    timestamp are parameters of each message; events are returned. No
    message writes before its last check, so an error leaves storage as it was. */
module SpirulinaRegistry {
  import opened Results
  import opened UInt

  type AccountId = nat
  type Timestamp = u64
  type Id = string

  datatype CertificationType = Organic | GMP | HACCP | ISO22000 | FairTrade | Kosher | Halal | Other
  datatype CultivationMethod = OpenPond | Raceway | Photobioreactor | Greenhouse | SemiClosed | FullyClosed | Hybrid
  datatype FacilityStatus = Pending | Active | Suspended | Revoked
  datatype DeviceStatus = Authorized | Suspended | Revoked

  datatype Certification = Certification(certType: CertificationType, certId: string, issuer: string, validUntil: Timestamp)

  datatype Facility = Facility(
    id: Id, name: string, location: (int, int), capacity: u32,
    certifications: seq<Certification>, methods: seq<CultivationMethod>,
    status: FacilityStatus, owner: AccountId, registeredAt: Timestamp, lastAudit: Timestamp)

  datatype Device = Device(
    deviceId: Id, facilityId: Id, publicKey: seq<u8>, status: DeviceStatus,
    registeredAt: Timestamp, lastActive: Timestamp, firmwareVersion: string)

  /** A `(min, max)` pair in the contract's fixed-point units. */
  type Range = (u32, u32)

  datatype Parameters = Parameters(
    ph: Range, temp: Range, light: Range, density: Range,
    dissolvedOxygen: Range, nitrate: Range, salinity: Range)

  datatype Error =
    | Unauthorized | FacilityAlreadyExists | FacilityNotFound | DeviceAlreadyExists | DeviceNotFound
    | InvalidParameters | FacilityNotActive | DeviceNotAuthorized | CertificationExpired

  datatype Event =
    | FacilityRegistered(facilityId: Id, owner: AccountId)
    | FacilityStatusChanged(facilityId: Id, newFacilityStatus: FacilityStatus)
    | DeviceAuthorized(deviceId: Id, facilityId: Id)
    | DeviceStatusChanged(deviceId: Id, newDeviceStatus: DeviceStatus)
    | ParametersUpdated(facilityId: Id)

  /** The constructor's defaults: pH 8.5-10.5, 30-37 C, 2500-10000 lux,
      1-3 g/L, 6-9 mg/L oxygen, 10-30 mg/L nitrate, 10-20 g/L salinity. */
  const DefaultParameters := Parameters((850, 1050), (3000, 3700), (2500, 10000), (1000, 3000), (600, 900), (100, 300), (100, 200))

  /** `is_valid_parameters`, in its two stages: every pair must have
      `min < max`, and then every pair must lie inside its hard bounds. */
  predicate IsValidParameters(p: Parameters)
    ensures IsValidParameters(p) <==>
      && Within(p.ph, 500, 1400) && Within(p.temp, 1500, 4500) && Within(p.light, 0, 50000)
      && Within(p.density, 500, 10000) && Within(p.dissolvedOxygen, 0, 2000)
      && Within(p.nitrate, 0, 1000) && Within(p.salinity, 0, 500)
  {
    if p.ph.0 >= p.ph.1 || p.temp.0 >= p.temp.1 || p.light.0 >= p.light.1 || p.density.0 >= p.density.1
       || p.dissolvedOxygen.0 >= p.dissolvedOxygen.1 || p.nitrate.0 >= p.nitrate.1 || p.salinity.0 >= p.salinity.1
    then false
    else if p.ph.0 < 500 || p.ph.1 > 1400 || p.temp.0 < 1500 || p.temp.1 > 4500 || p.light.1 > 50000
       || p.density.0 < 500 || p.density.1 > 10000 || p.dissolvedOxygen.1 > 2000 || p.nitrate.1 > 1000
       || p.salinity.1 > 500
    then false
    else true
  }

  /** A range that is non-empty and inside `[lo, hi]`. */
  predicate Within(r: Range, lo: nat, hi: nat)
  {
    lo <= r.0 < r.1 <= hi
  }

  /** The constructor's defaults pass validation, and the boundary example
      with an empty pH range does not. */
  lemma DefaultParametersValid()
    ensures IsValidParameters(DefaultParameters)
    ensures !IsValidParameters(DefaultParameters.(ph := (900, 900)))
  {
  }

  /** Every facility is stored under its own id and listed under its owner. */
  ghost predicate OwnersList(facilities: map<Id, Facility>, byOwner: map<AccountId, seq<Id>>)
  {
    forall id {:trigger facilities[id]} :: id in facilities ==> facilities[id].id == id && id in GetOr(byOwner, facilities[id].owner, [])
  }

  /** Adding a facility under a fresh id and appending that id to its
      owner's list keeps every facility listed under its owner. */
  lemma OwnersListAppend(facilities: map<Id, Facility>, byOwner: map<AccountId, seq<Id>>, f: Facility)
    requires OwnersList(facilities, byOwner)
    ensures OwnersList(facilities[f.id := f], byOwner[f.owner := GetOr(byOwner, f.owner, []) + [f.id]])
  {
    var facilities' := facilities[f.id := f];
    var byOwner' := byOwner[f.owner := GetOr(byOwner, f.owner, []) + [f.id]];
    forall other | other in facilities'
      ensures facilities'[other].id == other && other in GetOr(byOwner', facilities'[other].owner, [])
    {
      if other != f.id && facilities[other].owner == f.owner {
        assert other in GetOr(byOwner, f.owner, []);
      }
    }
  }

  /** The registry's bookkeeping invariant: every facility has parameters
      and is listed under its owner, every device belongs to a registered
      facility, and every stored parameter set (the defaults included) is
      valid. */
  ghost predicate RegistryInvariant(facilities: map<Id, Facility>, devices: map<Id, Device>, parameters: map<Id, Parameters>,
                                    byOwner: map<AccountId, seq<Id>>, defaults: Parameters)
  {
    && OwnersList(facilities, byOwner)
    && (forall id {:trigger facilities[id]} :: id in facilities ==> id in parameters)
    && (forall d {:trigger devices[d]} :: d in devices ==> devices[d].facilityId in facilities)
    && IsValidParameters(defaults)
    && (forall id {:trigger parameters[id]} :: id in parameters ==> IsValidParameters(parameters[id]))
  }

  /** Registering a facility under a fresh id, with its owner's list
      extended and a copy of the (valid) defaults, keeps the invariant. */
  lemma RegisterKeepsInvariant(facilities: map<Id, Facility>, devices: map<Id, Device>, parameters: map<Id, Parameters>,
                               byOwner: map<AccountId, seq<Id>>, defaults: Parameters,
                               f: Facility)
    requires RegistryInvariant(facilities, devices, parameters, byOwner, defaults)
    requires f.id !in facilities
    ensures RegistryInvariant(facilities[f.id := f], devices, parameters[f.id := defaults],
                              byOwner[f.owner := GetOr(byOwner, f.owner, []) + [f.id]], defaults)
  {
    var facilities', parameters' := facilities[f.id := f], parameters[f.id := defaults];
    OwnersListAppend(facilities, byOwner, f);
    forall id | id in facilities' ensures id in parameters' {
    }
    forall d | d in devices ensures devices[d].facilityId in facilities' {
    }
    forall id | id in parameters' ensures IsValidParameters(parameters'[id]) {
    }
  }

  /** Storing a device under a fresh id for a registered facility keeps the
      invariant. */
  lemma AddDeviceKeepsInvariant(facilities: map<Id, Facility>, devices: map<Id, Device>, parameters: map<Id, Parameters>,
                                byOwner: map<AccountId, seq<Id>>, defaults: Parameters,
                                d: Device)
    requires RegistryInvariant(facilities, devices, parameters, byOwner, defaults)
    requires d.deviceId !in devices && d.facilityId in facilities
    ensures RegistryInvariant(facilities, devices[d.deviceId := d], parameters, byOwner, defaults)
  {
    var devices' := devices[d.deviceId := d];
    forall k | k in devices' ensures devices'[k].facilityId in facilities {
    }
  }

  /** Replacing a facility by one with the same id and owner keeps the invariant. */
  lemma FacilityUpdateKeepsInvariant(facilities: map<Id, Facility>, devices: map<Id, Device>, parameters: map<Id, Parameters>,
                                     byOwner: map<AccountId, seq<Id>>, defaults: Parameters,
                                     f: Facility)
    requires RegistryInvariant(facilities, devices, parameters, byOwner, defaults)
    requires f.id in facilities && facilities[f.id].owner == f.owner
    ensures RegistryInvariant(facilities[f.id := f], devices, parameters, byOwner, defaults)
  {
    var facilities' := facilities[f.id := f];
    forall id | id in facilities' ensures facilities'[id].id == id && id in GetOr(byOwner, facilities'[id].owner, []) {
    }
    forall d | d in devices ensures devices[d].facilityId in facilities' {
    }
  }

  /** Replacing a device by one attached to the same facility keeps the invariant. */
  lemma DeviceUpdateKeepsInvariant(facilities: map<Id, Facility>, devices: map<Id, Device>, parameters: map<Id, Parameters>,
                                   byOwner: map<AccountId, seq<Id>>, defaults: Parameters,
                                   id: Id, d: Device)
    requires RegistryInvariant(facilities, devices, parameters, byOwner, defaults)
    requires id in devices && devices[id].facilityId == d.facilityId
    ensures RegistryInvariant(facilities, devices[id := d], parameters, byOwner, defaults)
  {
    var devices' := devices[id := d];
    forall k | k in devices' ensures devices'[k].facilityId in facilities {
    }
  }

  /** Storing valid parameters for a registered facility keeps the invariant. */
  lemma ParametersUpdateKeepsInvariant(facilities: map<Id, Facility>, devices: map<Id, Device>, parameters: map<Id, Parameters>,
                                       byOwner: map<AccountId, seq<Id>>, defaults: Parameters,
                                       id: Id, p: Parameters)
    requires RegistryInvariant(facilities, devices, parameters, byOwner, defaults)
    requires IsValidParameters(p)
    ensures RegistryInvariant(facilities, devices, parameters[id := p], byOwner, defaults)
  {
    var parameters' := parameters[id := p];
    forall k | k in facilities ensures k in parameters' {
    }
    forall k | k in parameters' ensures IsValidParameters(parameters'[k]) {
    }
  }

  class Registry {
    const owner: AccountId
    var facilities: map<Id, Facility>
    var devices: map<Id, Device>
    var parameters: map<Id, Parameters>
    var auditors: map<AccountId, bool>
    var facilitiesByOwner: map<AccountId, seq<Id>>
    var defaultParameters: Parameters
    var facilitiesCount: nat
    var devicesCount: nat

    /** `RegistryInvariant` over this registry's storage. */
    ghost predicate Valid()
      reads this
    {
      RegistryInvariant(facilities, devices, parameters, facilitiesByOwner, defaultParameters)
    }

    constructor (caller: AccountId)
      ensures owner == caller
      ensures facilities == map[] && devices == map[] && parameters == map[] && auditors == map[]
      ensures facilitiesByOwner == map[] && defaultParameters == DefaultParameters
      ensures facilitiesCount == 0 && devicesCount == 0
      ensures Valid()
    {
      owner := caller;
      facilities, devices, parameters, auditors, facilitiesByOwner := map[], map[], map[], map[], map[];
      defaultParameters := DefaultParameters;
      facilitiesCount, devicesCount := 0, 0;
    }

    /** `get_facilities_by_owner`: an absent entry reads as the empty list. */
    function OwnerFacilities(account: AccountId): seq<Id>
      reads this
    {
      GetOr(facilitiesByOwner, account, [])
    }

    /** `is_auditor`: an absent entry reads as `false`. */
    function IsAuditor(account: AccountId): (b: bool)
      reads this
      ensures b <==> account in auditors && auditors[account]
    {
      GetOr(auditors, account, false)
    }

    /** `is_device_authorized`. */
    function IsDeviceAuthorized(deviceId: Id, facilityId: Id): (b: bool)
      reads this
      ensures b <==> deviceId in devices && devices[deviceId].facilityId == facilityId && devices[deviceId].status == Authorized
    {
      if deviceId in devices then
        devices[deviceId].facilityId == facilityId && devices[deviceId].status == Authorized
      else
        false
    }

    /** `register_facility`: refuses a duplicate id; otherwise stores a
        pending facility owned by the caller, lists it under the caller,
        gives it a copy of the defaults and counts it. */
    method RegisterFacility(caller: AccountId, id: Id, name: string, location: (int, int), capacity: u32,
                            methods: seq<CultivationMethod>, now: Timestamp)
      returns (r: Result<(), Error>, events: seq<Event>)
      requires Valid()
      modifies this`facilities, this`facilitiesByOwner, this`parameters, this`facilitiesCount
      ensures Valid()
      ensures id in old(facilities) ==> r == Err(FacilityAlreadyExists) && events == [] && unchanged(this)
      ensures id !in old(facilities) ==>
        && r == Ok(())
        && facilities == old(facilities)[id := Facility(id, name, location, capacity, [], methods, Pending, caller, now, 0)]
        && facilitiesByOwner == old(facilitiesByOwner)[caller := old(OwnerFacilities(caller)) + [id]]
        && parameters == old(parameters)[id := old(defaultParameters)]
        && facilitiesCount == old(facilitiesCount) + 1
        && events == [FacilityRegistered(id, caller)]
    {
      if id in facilities {
        return Err(FacilityAlreadyExists), [];
      }
      var facility := Facility(id, name, location, capacity, [], methods, Pending, caller, now, 0);
      var facilities' := facilities[id := facility];
      var ownerFacilities := GetOr(facilitiesByOwner, caller, []) + [id];
      var byOwner' := facilitiesByOwner[caller := ownerFacilities];
      var parameters' := parameters[id := defaultParameters];
      RegisterKeepsInvariant(facilities, devices, parameters, facilitiesByOwner, defaultParameters, facility);
      facilities, facilitiesByOwner, parameters, facilitiesCount := facilities', byOwner', parameters', facilitiesCount + 1;
      events := [FacilityRegistered(id, caller)];
      r := Ok(());
    }

    /** `update_facility_status`: the contract owner or an auditor only,
        checked before existence; only the status field changes. */
    method UpdateFacilityStatus(caller: AccountId, facilityId: Id, newStatus: FacilityStatus)
      returns (r: Result<(), Error>, events: seq<Event>)
      requires Valid()
      modifies this`facilities
      ensures Valid()
      ensures caller != owner && !old(IsAuditor(caller)) ==> r == Err(Unauthorized)
      ensures (caller == owner || old(IsAuditor(caller))) && facilityId !in old(facilities) ==> r == Err(FacilityNotFound)
      ensures r.Err? ==> events == [] && unchanged(this)
      ensures r.Ok? <==> (caller == owner || old(IsAuditor(caller))) && facilityId in old(facilities)
      ensures r.Ok? ==>
        && facilities == old(facilities)[facilityId := old(facilities)[facilityId].(status := newStatus)]
        && events == [FacilityStatusChanged(facilityId, newStatus)]
    {
      if caller != owner && !IsAuditor(caller) {
        return Err(Unauthorized), [];
      }
      if facilityId !in facilities {
        return Err(FacilityNotFound), [];
      }
      var facility := facilities[facilityId].(status := newStatus);
      FacilityUpdateKeepsInvariant(facilities, devices, parameters, facilitiesByOwner, defaultParameters, facility);
      facilities := facilities[facilityId := facility];
      events := [FacilityStatusChanged(facilityId, newStatus)];
      r := Ok(());
    }

    /** `register_device`: checks, in order, that the facility exists, that
        the caller owns it, that it is active and that the device id is new;
        then stores an authorized device and counts it. */
    method RegisterDevice(caller: AccountId, deviceId: Id, facilityId: Id, publicKey: seq<u8>,
                          firmwareVersion: string, now: Timestamp)
      returns (r: Result<(), Error>, events: seq<Event>)
      requires Valid()
      modifies this`devices, this`devicesCount
      ensures Valid()
      ensures facilityId !in old(facilities) ==> r == Err(FacilityNotFound)
      ensures facilityId in old(facilities) ==>
        var facility := old(facilities)[facilityId];
        && (facility.owner != caller ==> r == Err(Unauthorized))
        && (facility.owner == caller && facility.status != Active ==> r == Err(FacilityNotActive))
        && (facility.owner == caller && facility.status == Active && deviceId in old(devices) ==> r == Err(DeviceAlreadyExists))
        && (facility.owner == caller && facility.status == Active && deviceId !in old(devices) ==>
              && r == Ok(())
              && devices == old(devices)[deviceId := Device(deviceId, facilityId, publicKey, Authorized, now, now, firmwareVersion)]
              && devicesCount == old(devicesCount) + 1
              && events == [DeviceAuthorized(deviceId, facilityId)])
      ensures r.Err? ==> events == [] && unchanged(this)
    {
      if facilityId !in facilities {
        return Err(FacilityNotFound), [];
      }
      var facility := facilities[facilityId];
      if facility.owner != caller {
        return Err(Unauthorized), [];
      }
      if facility.status != Active {
        return Err(FacilityNotActive), [];
      }
      if deviceId in devices {
        return Err(DeviceAlreadyExists), [];
      }
      var device := Device(deviceId, facilityId, publicKey, Authorized, now, now, firmwareVersion);
      AddDeviceKeepsInvariant(facilities, devices, parameters, facilitiesByOwner, defaultParameters, device);
      devices, devicesCount := devices[deviceId := device], devicesCount + 1;
      events := [DeviceAuthorized(deviceId, facilityId)];
      r := Ok(());
    }

    /** `update_device_status`: the device must exist, then its facility;
        only the facility's owner or the contract owner may change it. */
    method UpdateDeviceStatus(caller: AccountId, deviceId: Id, newStatus: DeviceStatus)
      returns (r: Result<(), Error>, events: seq<Event>)
      requires Valid()
      modifies this`devices
      ensures Valid()
      ensures deviceId !in old(devices) ==> r == Err(DeviceNotFound)
      ensures deviceId in old(devices) ==>
        var device := old(devices)[deviceId];
        && (device.facilityId !in old(facilities) ==> r == Err(FacilityNotFound))
        && (device.facilityId in old(facilities) ==>
              && (old(facilities)[device.facilityId].owner != caller && caller != owner ==> r == Err(Unauthorized))
              && (old(facilities)[device.facilityId].owner == caller || caller == owner ==>
                    && r == Ok(())
                    && devices == old(devices)[deviceId := device.(status := newStatus)]
                    && events == [DeviceStatusChanged(deviceId, newStatus)]))
      ensures r.Err? ==> events == [] && unchanged(this)
    {
      if deviceId !in devices {
        return Err(DeviceNotFound), [];
      }
      var device := devices[deviceId];
      if device.facilityId !in facilities {
        return Err(FacilityNotFound), [];
      }
      var facility := facilities[device.facilityId];
      if facility.owner != caller && caller != owner {
        return Err(Unauthorized), [];
      }
      DeviceUpdateKeepsInvariant(facilities, devices, parameters, facilitiesByOwner, defaultParameters, deviceId, device.(status := newStatus));
      devices := devices[deviceId := device.(status := newStatus)];
      events := [DeviceStatusChanged(deviceId, newStatus)];
      r := Ok(());
    }

    /** `update_parameters`: the facility must exist, the caller must own it
        or be an auditor, and the new parameters must be valid. */
    method UpdateParameters(caller: AccountId, facilityId: Id, newParameters: Parameters)
      returns (r: Result<(), Error>, events: seq<Event>)
      requires Valid()
      modifies this`parameters
      ensures Valid()
      ensures facilityId !in old(facilities) ==> r == Err(FacilityNotFound)
      ensures facilityId in old(facilities) ==>
        && (old(facilities)[facilityId].owner != caller && !old(IsAuditor(caller)) ==> r == Err(Unauthorized))
        && (old(facilities)[facilityId].owner == caller || old(IsAuditor(caller)) ==>
              && (!IsValidParameters(newParameters) ==> r == Err(InvalidParameters))
              && (IsValidParameters(newParameters) ==>
                    && r == Ok(())
                    && parameters == old(parameters)[facilityId := newParameters]
                    && events == [ParametersUpdated(facilityId)]))
      ensures r.Err? ==> events == [] && unchanged(this)
    {
      if facilityId !in facilities {
        return Err(FacilityNotFound), [];
      }
      var facility := facilities[facilityId];
      if facility.owner != caller && !IsAuditor(caller) {
        return Err(Unauthorized), [];
      }
      if !IsValidParameters(newParameters) {
        return Err(InvalidParameters), [];
      }
      ParametersUpdateKeepsInvariant(facilities, devices, parameters, facilitiesByOwner, defaultParameters, facilityId, newParameters);
      parameters := parameters[facilityId := newParameters];
      events := [ParametersUpdated(facilityId)];
      r := Ok(());
    }

    /** `add_certification`: auditors only, checked before existence; the
        certification is appended to the facility's list. */
    method AddCertification(caller: AccountId, facilityId: Id, certType: CertificationType, certId: string,
                            issuer: string, validUntil: Timestamp)
      returns (r: Result<(), Error>)
      requires Valid()
      modifies this`facilities
      ensures Valid()
      ensures !old(IsAuditor(caller)) ==> r == Err(Unauthorized)
      ensures old(IsAuditor(caller)) && facilityId !in old(facilities) ==> r == Err(FacilityNotFound)
      ensures r.Err? ==> unchanged(this)
      ensures r.Ok? <==> old(IsAuditor(caller)) && facilityId in old(facilities)
      ensures r.Ok? ==>
        var facility := old(facilities)[facilityId];
        facilities == old(facilities)[facilityId := facility.(certifications := facility.certifications + [Certification(certType, certId, issuer, validUntil)])]
    {
      if !IsAuditor(caller) {
        return Err(Unauthorized);
      }
      if facilityId !in facilities {
        return Err(FacilityNotFound);
      }
      var facility := facilities[facilityId];
      var certification := Certification(certType, certId, issuer, validUntil);
      FacilityUpdateKeepsInvariant(facilities, devices, parameters, facilitiesByOwner, defaultParameters, facility.(certifications := facility.certifications + [certification]));
      facilities := facilities[facilityId := facility.(certifications := facility.certifications + [certification])];
      r := Ok(());
    }

    /** `perform_audit`: auditors only, checked before existence; the
        facility's last-audit time becomes `now`. */
    method PerformAudit(caller: AccountId, facilityId: Id, now: Timestamp) returns (r: Result<(), Error>)
      requires Valid()
      modifies this`facilities
      ensures Valid()
      ensures !old(IsAuditor(caller)) ==> r == Err(Unauthorized)
      ensures old(IsAuditor(caller)) && facilityId !in old(facilities) ==> r == Err(FacilityNotFound)
      ensures r.Err? ==> unchanged(this)
      ensures r.Ok? <==> old(IsAuditor(caller)) && facilityId in old(facilities)
      ensures r.Ok? ==> facilities == old(facilities)[facilityId := old(facilities)[facilityId].(lastAudit := now)]
    {
      if !IsAuditor(caller) {
        return Err(Unauthorized);
      }
      if facilityId !in facilities {
        return Err(FacilityNotFound);
      }
      var facility := facilities[facilityId];
      FacilityUpdateKeepsInvariant(facilities, devices, parameters, facilitiesByOwner, defaultParameters, facility.(lastAudit := now));
      facilities := facilities[facilityId := facility.(lastAudit := now)];
      r := Ok(());
    }

    /** `add_auditor`: the contract owner only; the account becomes an auditor. */
    method AddAuditor(caller: AccountId, auditor: AccountId) returns (r: Result<(), Error>)
      requires Valid()
      modifies this`auditors
      ensures Valid()
      ensures caller != owner ==> r == Err(Unauthorized) && unchanged(this)
      ensures caller == owner ==> r == Ok(()) && auditors == old(auditors)[auditor := true] && IsAuditor(auditor)
    {
      if caller != owner {
        return Err(Unauthorized);
      }
      auditors := auditors[auditor := true];
      r := Ok(());
    }

    /** `remove_auditor`: the contract owner only; the entry is set to
        `false` rather than deleted, so the account is no longer an auditor. */
    method RemoveAuditor(caller: AccountId, auditor: AccountId) returns (r: Result<(), Error>)
      requires Valid()
      modifies this`auditors
      ensures Valid()
      ensures caller != owner ==> r == Err(Unauthorized) && unchanged(this)
      ensures caller == owner ==> r == Ok(()) && auditors == old(auditors)[auditor := false] && !IsAuditor(auditor)
    {
      if caller != owner {
        return Err(Unauthorized);
      }
      auditors := auditors[auditor := false];
      r := Ok(());
    }

    /** `update_default_parameters`: the contract owner only, and the new
        defaults must be valid. Facilities registered earlier keep their
        own copies. */
    method UpdateDefaultParameters(caller: AccountId, newParameters: Parameters) returns (r: Result<(), Error>)
      requires Valid()
      modifies this`defaultParameters
      ensures Valid()
      ensures caller != owner ==> r == Err(Unauthorized)
      ensures caller == owner && !IsValidParameters(newParameters) ==> r == Err(InvalidParameters)
      ensures r.Err? ==> unchanged(this)
      ensures r.Ok? <==> caller == owner && IsValidParameters(newParameters)
      ensures r.Ok? ==> defaultParameters == newParameters
    {
      if caller != owner {
        return Err(Unauthorized);
      }
      if !IsValidParameters(newParameters) {
        return Err(InvalidParameters);
      }
      defaultParameters := newParameters;
      r := Ok(());
    }

    /** `update_device_activity`: the device must exist and be authorized;
        its last-active time becomes `now`. */
    method UpdateDeviceActivity(deviceId: Id, now: Timestamp) returns (r: Result<(), Error>)
      requires Valid()
      modifies this`devices
      ensures Valid()
      ensures deviceId !in old(devices) ==> r == Err(DeviceNotFound)
      ensures deviceId in old(devices) && old(devices)[deviceId].status != Authorized ==> r == Err(DeviceNotAuthorized)
      ensures r.Err? ==> unchanged(this)
      ensures r.Ok? <==> deviceId in old(devices) && old(devices)[deviceId].status == Authorized
      ensures r.Ok? ==> devices == old(devices)[deviceId := old(devices)[deviceId].(lastActive := now)]
    {
      if deviceId !in devices {
        return Err(DeviceNotFound);
      }
      var device := devices[deviceId];
      if device.status != Authorized {
        return Err(DeviceNotAuthorized);
      }
      DeviceUpdateKeepsInvariant(facilities, devices, parameters, facilitiesByOwner, defaultParameters, deviceId, device.(lastActive := now));
      devices := devices[deviceId := device.(lastActive := now)];
      r := Ok(());
    }
  }
}
