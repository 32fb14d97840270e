/** The chaincode's transaction handlers in the form the contract writes them:
    each reads the world state through the stub, decodes a record, changes a
    field and puts the record back, then appends an audit entry. Every handler
    is proved to leave the stub exactly as the corresponding function of
    module Ledger says, so the properties proved there hold of these. */
module Chaincode {
  import opened Primitives
  import opened LedgerState
  import Ledger

  /** The part of the transaction context the handlers use: the world state
      behind GetState and PutState. */
  class Stub {
    var state: WorldState

    constructor(initial: WorldState)
      ensures state == initial
    {
      state := initial;
    }

    /** GetState: the stored document, or nothing for an absent key. */
    method GetState(key: string) returns (d: Option<Document>)
      ensures d.Some? <==> key in state
      ensures d.Some? ==> d.value == state[key]
    {
      d := if key in state then Some(state[key]) else None;
    }

    method PutState(key: string, d: Document)
      modifies this
      ensures state == old(state)[key := d]
    {
      state := state[key := d];
    }
  }

  /** createAuditLog. */
  method CreateAuditLog(stub: Stub, ctx: TxContext, patientID: string, doctorID: string,
                        action: string, details: string)
    modifies stub
    ensures stub.state == Ledger.WithAuditLog(old(stub.state), ctx, patientID, doctorID, action, details)
  {
    var logID := LogKey(ctx.now, patientID, doctorID);
    var log := AuditLog(logID, patientID, doctorID, action, details, ctx.now, ctx.mspID, ctx.txID);
    stub.PutState(logID, AuditDoc(log));
  }

  method RegisterPatient(stub: Stub, ctx: TxContext, patientID: string, name: string, dob: string,
                         phone: string, aadhar: string, fingerprintTemplateID: Int64)
    returns (result: Result<(), Ledger.ChaincodeError>)
    modifies stub
    ensures Ledger.RegisterPatient(old(stub.state), ctx, patientID, name, dob, phone, aadhar, fingerprintTemplateID)
      == Ledger.Outcome(result, stub.state)
  {
    if |patientID| == 0 || |name| == 0 || Utf8Len(aadhar) != AADHAR_BYTES {
      return Err(Ledger.InvalidPatientDetails);
    }
    var patientKey := PatientKey(patientID);
    var existing := stub.GetState(patientKey);
    if existing.Some? {
      return Err(Ledger.PatientAlreadyRegistered(patientID));
    }
    var patient := Patient(patientID, name, dob, phone, aadhar, fingerprintTemplateID, ctx.now, ctx.mspID);
    stub.PutState(patientKey, PatientDoc(patient));
    CreateAuditLog(stub, ctx, patientID, "", "REGISTER_PATIENT", "Patient registered by " + ctx.mspID);
    return Ok(());
  }

  method GetPatient(stub: Stub, patientID: string) returns (result: Result<Patient, Ledger.ChaincodeError>)
    ensures result == Ledger.GetPatient(stub.state, patientID)
  {
    var bytes := stub.GetState(PatientKey(patientID));
    if bytes.None? {
      return Err(Ledger.PatientDoesNotExist(patientID));
    }
    return Ok(DecodePatient(bytes.value));
  }

  method RegisterDoctor(stub: Stub, ctx: TxContext, doctorID: string, name: string, licenseNumber: string,
                        specialization: string, hospitalName: string)
    returns (result: Result<(), Ledger.ChaincodeError>)
    modifies stub
    ensures Ledger.RegisterDoctor(old(stub.state), ctx, doctorID, name, licenseNumber, specialization, hospitalName)
      == Ledger.Outcome(result, stub.state)
  {
    if |doctorID| == 0 || |name| == 0 || |licenseNumber| == 0 {
      return Err(Ledger.InvalidDoctorDetails);
    }
    var doctorKey := DoctorKey(doctorID);
    var existing := stub.GetState(doctorKey);
    if existing.Some? {
      return Err(Ledger.DoctorAlreadyRegistered(doctorID));
    }
    var doctor := Doctor(doctorID, name, licenseNumber, specialization, hospitalName, false, ctx.now, ctx.mspID);
    stub.PutState(doctorKey, DoctorDoc(doctor));
    CreateAuditLog(stub, ctx, "", doctorID, "REGISTER_DOCTOR", "Doctor registered by " + ctx.mspID);
    return Ok(());
  }

  method GetDoctor(stub: Stub, doctorID: string) returns (result: Result<Doctor, Ledger.ChaincodeError>)
    ensures result == Ledger.GetDoctor(stub.state, doctorID)
  {
    var bytes := stub.GetState(DoctorKey(doctorID));
    if bytes.None? {
      return Err(Ledger.DoctorDoesNotExist(doctorID));
    }
    return Ok(DecodeDoctor(bytes.value));
  }

  method VerifyDoctor(stub: Stub, ctx: TxContext, doctorID: string) returns (result: Result<(), Ledger.ChaincodeError>)
    modifies stub
    ensures Ledger.VerifyDoctor(old(stub.state), ctx, doctorID) == Ledger.Outcome(result, stub.state)
  {
    if ctx.mspID != AUDIT_ORG_MSP {
      return Err(Ledger.OnlyAuditOrgCanVerify);
    }
    var found := GetDoctor(stub, doctorID);
    if found.Err? {
      return Err(found.error);
    }
    var doctor := found.value;
    doctor := doctor.(verified := true);
    stub.PutState(DoctorKey(doctorID), DoctorDoc(doctor));
    CreateAuditLog(stub, ctx, "", doctorID, "VERIFY_DOCTOR", "Doctor verified by AuditOrg");
    return Ok(());
  }

  method GrantAccess(stub: Stub, ctx: TxContext, patientID: string, doctorID: string,
                     durationHours: Int64, purpose: string) returns (result: Result<string, Ledger.ChaincodeError>)
    modifies stub
    ensures Ledger.GrantAccess(old(stub.state), ctx, patientID, doctorID, durationHours, purpose)
      == Ledger.Outcome(result, stub.state)
  {
    var patient := GetPatient(stub, patientID);
    if patient.Err? {
      return Err(patient.error);
    }
    var doctor := GetDoctor(stub, doctorID);
    if doctor.Err? {
      return Err(doctor.error);
    }
    if !doctor.value.verified {
      return Err(Ledger.DoctorNotVerified(doctorID));
    }
    var currentTime := ctx.now;
    var accessKey := AccessKey(patientID, doctorID, currentTime);
    var expiryTime := Wrap64(currentTime + Wrap64(durationHours * 3600));
    var record := AccessRecord(accessKey, patientID, doctorID, currentTime, expiryTime, durationHours,
                               purpose, false, 0, ctx.mspID);
    assert record == Ledger.NewGrant(ctx, patientID, doctorID, durationHours, purpose);
    ghost var before := stub.state;
    stub.PutState(accessKey, AccessDoc(record));
    CreateAuditLog(stub, ctx, patientID, doctorID, "GRANT_ACCESS",
                   "Access granted for " + FormatInt(durationHours) + " hours: " + purpose);
    assert Ledger.GrantAccess(before, ctx, patientID, doctorID, durationHours, purpose)
      == Ledger.Outcome(Ok(accessKey), stub.state);
    return Ok(accessKey);
  }

  /** RevokeAccess as the contract writes it (see Ledger.RevokeAccess). */
  method RevokeAccess(stub: Stub, ctx: TxContext, accessKey: string) returns (result: Result<(), Ledger.ChaincodeError>)
    modifies stub
    ensures Ledger.RevokeAccess(old(stub.state), ctx, accessKey) == Ledger.Outcome(result, stub.state)
  {
    var bytes := stub.GetState(accessKey);
    if bytes.None? {
      return Err(Ledger.AccessKeyNotFound(accessKey));
    }
    var accessRecord := DecodeAccess(bytes.value);
    if accessRecord.revoked {
      return Err(Ledger.AccessAlreadyRevoked);
    }
    accessRecord := accessRecord.(revoked := true, revokedAt := ctx.now);
    stub.PutState(accessKey, AccessDoc(accessRecord));
    CreateAuditLog(stub, ctx, accessRecord.patientID, accessRecord.doctorID, "REVOKE_ACCESS", "Access manually revoked");
    return Ok(());
  }

  method CheckAccessValidity(stub: Stub, ctx: TxContext, accessKey: string) returns (v: Ledger.Validity)
    ensures v == Ledger.CheckAccessValidity(stub.state, ctx.now, accessKey)
  {
    var bytes := stub.GetState(accessKey);
    if bytes.None? {
      return Ledger.AccessNotFound;
    }
    var accessRecord := DecodeAccess(bytes.value);
    var currentTime := ctx.now;
    if accessRecord.revoked {
      return Ledger.AccessRevoked(accessRecord.revokedAt);
    }
    if currentTime > accessRecord.expiryTime {
      return Ledger.AccessExpired(accessRecord.expiryTime);
    }
    return Ledger.AccessValid(accessRecord.patientID, accessRecord.doctorID,
                              Wrap64(accessRecord.expiryTime - currentTime), accessRecord.expiryTime);
  }

  /** The iterator loop over the rich query `{"patientID": p, "revoked": false}`,
      whose keys in iteration order are `hits`. */
  method GetActiveAccessesForPatient(stub: Stub, ctx: TxContext, patientID: string, hits: seq<string>)
    returns (activeAccesses: seq<AccessRecord>)
    requires Ledger.IsQueryResult(stub.state, Ledger.Selector(patientID, true), hits)
    ensures activeAccesses == Ledger.ActiveAccesses(stub.state, ctx.now, hits)
    ensures forall a :: a in activeAccesses <==>
      AccessDoc(a) in stub.state.Values && a.patientID == patientID && !a.revoked && ctx.now <= a.expiryTime
  {
    activeAccesses := [];
    var currentTime := ctx.now;
    var i := 0;
    while i < |hits|
      invariant 0 <= i <= |hits|
      invariant activeAccesses == Ledger.ActiveAccesses(stub.state, currentTime, hits[..i])
    {
      var value := stub.GetState(hits[i]);
      var access := DecodeAccess(value.value);
      if currentTime <= access.expiryTime {
        activeAccesses := activeAccesses + [access];
      }
      assert hits[..i + 1][..i] == hits[..i];
      i := i + 1;
    }
    assert hits[..i] == hits;
    Ledger.ActiveAccessesExact(stub.state, currentTime, patientID, hits);
  }

  /** GetAuditTrail as the contract writes it: the iterator loop over the rich
      query `{"patientID": p}`, decoding every hit as an audit entry. */
  method GetAuditTrail(stub: Stub, patientID: string, hits: seq<string>) returns (logs: seq<AuditLog>)
    requires Ledger.IsQueryResult(stub.state, Ledger.Selector(patientID, false), hits)
    ensures logs == Ledger.AuditTrailAsWritten(stub.state, hits)
    ensures |logs| == |hits|
  {
    logs := [];
    var i := 0;
    while i < |hits|
      invariant 0 <= i <= |hits|
      invariant logs == Ledger.AuditTrailAsWritten(stub.state, hits[..i])
    {
      var value := stub.GetState(hits[i]);
      logs := logs + [DecodeAuditLog(value.value)];
      assert hits[..i + 1][..i] == hits[..i];
      i := i + 1;
    }
    assert hits[..i] == hits;
  }
}
