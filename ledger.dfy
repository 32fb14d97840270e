/** The chaincode's transactions as functions from a world state to a result
    and a new world state, with the properties each one promises and the
    invariant the whole contract keeps. The imperative methods in module
    Chaincode are proved equal to these. */
module Ledger {
  import opened Primitives
  import opened LedgerState

  datatype ChaincodeError =
    | InvalidPatientDetails
    | PatientAlreadyRegistered(patientID: string)
    | PatientDoesNotExist(patientID: string)
    | InvalidDoctorDetails
    | DoctorAlreadyRegistered(doctorID: string)
    | OnlyAuditOrgCanVerify
    | DoctorDoesNotExist(doctorID: string)
    | DoctorNotVerified(doctorID: string)
    | AccessKeyNotFound(accessKey: string)
    | AccessAlreadyRevoked

  /** What a transaction returns, and the world state it leaves behind. */
  datatype Outcome<T> = Outcome(result: Result<T, ChaincodeError>, state: WorldState)

  /** Every key outside `keys` keeps its document, and no other key appears. */
  predicate OnlyChanged(s: WorldState, s': WorldState, keys: set<string>) {
    && (forall k | k in s && k !in keys :: k in s' && s'[k] == s[k])
    && s'.Keys <= s.Keys + keys
  }

  /** The audit entry of the current transaction for (patientID, doctorID)
      records `action` with the text `details`. */
  predicate Logged(s: WorldState, ctx: TxContext, patientID: string, doctorID: string, action: string, details: string) {
    var key := LogKey(ctx.now, patientID, doctorID);
    && key in s
    && s[key] == AuditDoc(AuditLog(key, patientID, doctorID, action, details, ctx.now, ctx.mspID, ctx.txID))
  }

  // ---------------------------------------------------------------------
  // createAuditLog
  // ---------------------------------------------------------------------

  function AuditEntry(ctx: TxContext, patientID: string, doctorID: string, action: string, details: string): AuditLog {
    AuditLog(LogKey(ctx.now, patientID, doctorID), patientID, doctorID, action, details, ctx.now, ctx.mspID, ctx.txID)
  }

  /** createAuditLog: writes one audit document and touches no other key. */
  function WithAuditLog(s: WorldState, ctx: TxContext, patientID: string, doctorID: string,
                        action: string, details: string): (r: WorldState)
    ensures Logged(r, ctx, patientID, doctorID, action, details)
    ensures OnlyChanged(s, r, {LogKey(ctx.now, patientID, doctorID)})
    ensures r.Keys == s.Keys + {LogKey(ctx.now, patientID, doctorID)}
  {
    s[LogKey(ctx.now, patientID, doctorID) := AuditDoc(AuditEntry(ctx, patientID, doctorID, action, details))]
  }

  // ---------------------------------------------------------------------
  // Patients
  // ---------------------------------------------------------------------

  function RegisterPatient(s: WorldState, ctx: TxContext, patientID: string, name: string, dob: string,
                           phone: string, aadhar: string, fingerprintTemplateID: Int64): (r: Outcome<()>)
    ensures r.result.Err? ==> r.state == s
    ensures r.result == Err(InvalidPatientDetails) <==> !ValidPatientDetails(patientID, name, aadhar)
    ensures (r.result == Err(PatientAlreadyRegistered(patientID)))
      <==> ValidPatientDetails(patientID, name, aadhar) && PatientKey(patientID) in s
    ensures r.result.Ok? <==> ValidPatientDetails(patientID, name, aadhar) && PatientKey(patientID) !in s
    ensures r.result.Ok? ==>
      && PatientKey(patientID) in r.state && r.state[PatientKey(patientID)]
           == PatientDoc(Patient(patientID, name, dob, phone, aadhar, fingerprintTemplateID, ctx.now, ctx.mspID))
      && Logged(r.state, ctx, patientID, "", "REGISTER_PATIENT", "Patient registered by " + ctx.mspID)
      && OnlyChanged(s, r.state, {PatientKey(patientID), LogKey(ctx.now, patientID, "")})
  {
    if !ValidPatientDetails(patientID, name, aadhar) then Outcome(Err(InvalidPatientDetails), s)
    else if PatientKey(patientID) in s then Outcome(Err(PatientAlreadyRegistered(patientID)), s)
    else
      var patient := Patient(patientID, name, dob, phone, aadhar, fingerprintTemplateID, ctx.now, ctx.mspID);
      KeyFamilies(patientID, patientID, "", "", "", "", 0, ctx.now, patientID, "");
      Outcome(Ok(()), WithAuditLog(s[PatientKey(patientID) := PatientDoc(patient)], ctx, patientID, "",
                                   "REGISTER_PATIENT", "Patient registered by " + ctx.mspID))
  }

  function GetPatient(s: WorldState, patientID: string): (r: Result<Patient, ChaincodeError>)
    ensures r.Ok? <==> PatientKey(patientID) in s
    ensures r.Err? ==> r.error == PatientDoesNotExist(patientID)
    ensures r.Ok? && s[PatientKey(patientID)].PatientDoc? ==> r.value == s[PatientKey(patientID)].patient
  {
    var key := PatientKey(patientID);
    if key !in s then Err(PatientDoesNotExist(patientID)) else Ok(DecodePatient(s[key]))
  }

  // ---------------------------------------------------------------------
  // Doctors
  // ---------------------------------------------------------------------

  function RegisterDoctor(s: WorldState, ctx: TxContext, doctorID: string, name: string, licenseNumber: string,
                          specialization: string, hospitalName: string): (r: Outcome<()>)
    ensures r.result.Err? ==> r.state == s
    ensures r.result == Err(InvalidDoctorDetails) <==> !ValidDoctorDetails(doctorID, name, licenseNumber)
    ensures (r.result == Err(DoctorAlreadyRegistered(doctorID)))
      <==> ValidDoctorDetails(doctorID, name, licenseNumber) && DoctorKey(doctorID) in s
    ensures r.result.Ok? <==> ValidDoctorDetails(doctorID, name, licenseNumber) && DoctorKey(doctorID) !in s
    ensures r.result.Ok? ==>
      && DoctorKey(doctorID) in r.state && r.state[DoctorKey(doctorID)]
           == DoctorDoc(Doctor(doctorID, name, licenseNumber, specialization, hospitalName, false, ctx.now, ctx.mspID))
      && !IsVerifiedDoctor(r.state, doctorID)
      && Logged(r.state, ctx, "", doctorID, "REGISTER_DOCTOR", "Doctor registered by " + ctx.mspID)
      && OnlyChanged(s, r.state, {DoctorKey(doctorID), LogKey(ctx.now, "", doctorID)})
  {
    if !ValidDoctorDetails(doctorID, name, licenseNumber) then Outcome(Err(InvalidDoctorDetails), s)
    else if DoctorKey(doctorID) in s then Outcome(Err(DoctorAlreadyRegistered(doctorID)), s)
    else
      var doctor := Doctor(doctorID, name, licenseNumber, specialization, hospitalName, false, ctx.now, ctx.mspID);
      KeyFamilies("", "", doctorID, doctorID, "", "", 0, ctx.now, "", doctorID);
      Outcome(Ok(()), WithAuditLog(s[DoctorKey(doctorID) := DoctorDoc(doctor)], ctx, "", doctorID,
                                   "REGISTER_DOCTOR", "Doctor registered by " + ctx.mspID))
  }

  function GetDoctor(s: WorldState, doctorID: string): (r: Result<Doctor, ChaincodeError>)
    ensures r.Ok? <==> DoctorKey(doctorID) in s
    ensures r.Err? ==> r.error == DoctorDoesNotExist(doctorID)
    ensures r.Ok? && s[DoctorKey(doctorID)].DoctorDoc? ==> r.value == s[DoctorKey(doctorID)].doctor
  {
    var key := DoctorKey(doctorID);
    if key !in s then Err(DoctorDoesNotExist(doctorID)) else Ok(DecodeDoctor(s[key]))
  }

  /** Only the AuditOrg MSP may verify; the stored doctor keeps every field
      but `verified`, which becomes true. */
  function VerifyDoctor(s: WorldState, ctx: TxContext, doctorID: string): (r: Outcome<()>)
    ensures r.result.Err? ==> r.state == s
    ensures ctx.mspID != AUDIT_ORG_MSP ==> r.result == Err(OnlyAuditOrgCanVerify)
    ensures ctx.mspID == AUDIT_ORG_MSP && DoctorKey(doctorID) !in s ==> r.result == Err(DoctorDoesNotExist(doctorID))
    ensures r.result.Ok? <==> ctx.mspID == AUDIT_ORG_MSP && DoctorKey(doctorID) in s
    ensures r.result.Ok? ==>
      && DoctorKey(doctorID) in r.state
      && r.state[DoctorKey(doctorID)] == DoctorDoc(DecodeDoctor(s[DoctorKey(doctorID)]).(verified := true))
      && Logged(r.state, ctx, "", doctorID, "VERIFY_DOCTOR", "Doctor verified by AuditOrg")
      && OnlyChanged(s, r.state, {DoctorKey(doctorID), LogKey(ctx.now, "", doctorID)})
  {
    if ctx.mspID != AUDIT_ORG_MSP then Outcome(Err(OnlyAuditOrgCanVerify), s)
    else match GetDoctor(s, doctorID)
      case Err(e) => Outcome(Err(e), s)
      case Ok(doctor) =>
        KeyFamilies("", "", doctorID, doctorID, "", "", 0, ctx.now, "", doctorID);
        Outcome(Ok(()), WithAuditLog(s[DoctorKey(doctorID) := DoctorDoc(doctor.(verified := true))], ctx, "", doctorID,
                                     "VERIFY_DOCTOR", "Doctor verified by AuditOrg"))
  }

  // ---------------------------------------------------------------------
  // Access grants
  // ---------------------------------------------------------------------

  /** The exact expiry, when neither the multiplication nor the addition overflows int64. */
  predicate ExpiryInRange(now: Int64, durationHours: Int64) {
    -TWO_POW_63 <= durationHours * SECONDS_PER_HOUR < TWO_POW_63
    && -TWO_POW_63 <= now + durationHours * SECONDS_PER_HOUR < TWO_POW_63
  }

  /** The audit text of a grant: `Access granted for %d hours: %s`. */
  function GrantDetails(durationHours: Int64, purpose: string): string {
    "Access granted for " + FormatInt(durationHours) + " hours: " + purpose
  }

  const REVOKE_DETAILS: string := "Access manually revoked"

  function NewGrant(ctx: TxContext, patientID: string, doctorID: string, durationHours: Int64, purpose: string): AccessRecord {
    AccessRecord(AccessKey(patientID, doctorID, ctx.now), patientID, doctorID, ctx.now,
                 Expiry(ctx.now, durationHours), durationHours, purpose, false, 0, ctx.mspID)
  }

  function GrantAccess(s: WorldState, ctx: TxContext, patientID: string, doctorID: string,
                       durationHours: Int64, purpose: string): (r: Outcome<string>)
    ensures r.result.Err? ==> r.state == s
    ensures PatientKey(patientID) !in s ==> r.result == Err(PatientDoesNotExist(patientID))
    ensures PatientKey(patientID) in s && DoctorKey(doctorID) !in s ==> r.result == Err(DoctorDoesNotExist(doctorID))
    ensures (PatientKey(patientID) in s && DoctorKey(doctorID) in s && !DecodeDoctor(s[DoctorKey(doctorID)]).verified)
      ==> r.result == Err(DoctorNotVerified(doctorID))
    ensures r.result.Ok? <==>
      PatientKey(patientID) in s && DoctorKey(doctorID) in s && DecodeDoctor(s[DoctorKey(doctorID)]).verified
    ensures r.result.Ok? ==>
      var key := AccessKey(patientID, doctorID, ctx.now);
      && r.result.value == key
      && key in r.state && r.state[key] == AccessDoc(NewGrant(ctx, patientID, doctorID, durationHours, purpose))
      && r.state[key].access.grantedAt == ctx.now && !r.state[key].access.revoked
      && (ExpiryInRange(ctx.now, durationHours) ==>
            r.state[key].access.expiryTime == ctx.now + durationHours * SECONDS_PER_HOUR)
      && Logged(r.state, ctx, patientID, doctorID, "GRANT_ACCESS", GrantDetails(durationHours, purpose))
      && OnlyChanged(s, r.state, {key, LogKey(ctx.now, patientID, doctorID)})
  {
    match GetPatient(s, patientID)
    case Err(e) => Outcome(Err(e), s)
    case Ok(_) =>
      match GetDoctor(s, doctorID)
      case Err(e) => Outcome(Err(e), s)
      case Ok(doctor) =>
        if !doctor.verified then Outcome(Err(DoctorNotVerified(doctorID)), s)
        else
          var record := NewGrant(ctx, patientID, doctorID, durationHours, purpose);
          KeyFamilies("", "", "", "", patientID, doctorID, ctx.now, ctx.now, patientID, doctorID);
          Outcome(Ok(record.accessKey),
                  WithAuditLog(s[record.accessKey := AccessDoc(record)], ctx, patientID, doctorID, "GRANT_ACCESS",
                               GrantDetails(durationHours, purpose)))
  }

  /** RevokeAccess as the chaincode writes it: any key present in the world
      state is read as an access record, whatever document it holds. */
  function RevokeAccess(s: WorldState, ctx: TxContext, accessKey: string): (r: Outcome<()>)
    ensures r.result.Err? ==> r.state == s
    ensures accessKey !in s ==> r.result == Err(AccessKeyNotFound(accessKey))
    ensures accessKey in s && DecodeAccess(s[accessKey]).revoked ==> r.result == Err(AccessAlreadyRevoked)
    ensures r.result.Ok? <==> accessKey in s && !DecodeAccess(s[accessKey]).revoked
    ensures r.result.Ok? ==>
      var a := DecodeAccess(s[accessKey]);
      && Logged(r.state, ctx, a.patientID, a.doctorID, "REVOKE_ACCESS", REVOKE_DETAILS)
      && OnlyChanged(s, r.state, {accessKey, LogKey(ctx.now, a.patientID, a.doctorID)})
      && (accessKey != LogKey(ctx.now, a.patientID, a.doctorID) ==>
            accessKey in r.state && r.state[accessKey] == AccessDoc(a.(revoked := true, revokedAt := ctx.now)))
  {
    if accessKey !in s then Outcome(Err(AccessKeyNotFound(accessKey)), s)
    else
      var a := DecodeAccess(s[accessKey]);
      if a.revoked then Outcome(Err(AccessAlreadyRevoked), s)
      else
        Outcome(Ok(()), WithAuditLog(s[accessKey := AccessDoc(a.(revoked := true, revokedAt := ctx.now))], ctx,
                                     a.patientID, a.doctorID, "REVOKE_ACCESS", REVOKE_DETAILS))
  }

  /** RevokeAccess as evidently intended: a key that does not hold an access
      grant is "not found", so only grants can be revoked. */
  function RevokeAccessChecked(s: WorldState, ctx: TxContext, accessKey: string): (r: Outcome<()>)
    ensures r.result.Err? ==> r.state == s
    ensures accessKey !in s || !s[accessKey].AccessDoc? ==> r.result == Err(AccessKeyNotFound(accessKey))
    ensures accessKey in s && s[accessKey].AccessDoc? && s[accessKey].access.revoked ==> r.result == Err(AccessAlreadyRevoked)
    ensures r.result.Ok? <==> accessKey in s && s[accessKey].AccessDoc? && !s[accessKey].access.revoked
    ensures r.result.Ok? ==>
      var a := s[accessKey].access;
      && Logged(r.state, ctx, a.patientID, a.doctorID, "REVOKE_ACCESS", REVOKE_DETAILS)
      && OnlyChanged(s, r.state, {accessKey, LogKey(ctx.now, a.patientID, a.doctorID)})
      && (accessKey != LogKey(ctx.now, a.patientID, a.doctorID) ==>
            accessKey in r.state && r.state[accessKey] == AccessDoc(a.(revoked := true, revokedAt := ctx.now)))
  {
    if accessKey !in s || !s[accessKey].AccessDoc? then Outcome(Err(AccessKeyNotFound(accessKey)), s)
    else RevokeAccess(s, ctx, accessKey)
  }

  // ---------------------------------------------------------------------
  // Validity check
  // ---------------------------------------------------------------------

  /** The map CheckAccessValidity returns; the RFC 3339 rendering of the expiry
      is replaced by the expiry in seconds. */
  datatype Validity =
    | AccessNotFound
    | AccessRevoked(revokedAt: Int64)
    | AccessExpired(expiredAt: Int64)
    | AccessValid(patientID: string, doctorID: string, expiresIn: Int64, expiryTime: Int64)

  /** Not found, then revoked, then expired (strictly after the expiry
      second), then valid. */
  function CheckAccessValidity(s: WorldState, now: Int64, accessKey: string): (r: Validity)
    ensures r.AccessNotFound? <==> accessKey !in s
    ensures r.AccessRevoked? <==> accessKey in s && DecodeAccess(s[accessKey]).revoked
    ensures r.AccessExpired? <==>
      accessKey in s && !DecodeAccess(s[accessKey]).revoked && now > DecodeAccess(s[accessKey]).expiryTime
    ensures r.AccessValid? <==>
      accessKey in s && !DecodeAccess(s[accessKey]).revoked && now <= DecodeAccess(s[accessKey]).expiryTime
    ensures r.AccessRevoked? ==> r.revokedAt == DecodeAccess(s[accessKey]).revokedAt
    ensures r.AccessExpired? ==> r.expiredAt == DecodeAccess(s[accessKey]).expiryTime
    ensures r.AccessValid? ==>
      var a := DecodeAccess(s[accessKey]);
      && r.patientID == a.patientID && r.doctorID == a.doctorID && r.expiryTime == a.expiryTime
      && (now >= 0 ==> r.expiresIn == a.expiryTime - now >= 0)
  {
    if accessKey !in s then AccessNotFound
    else
      var a := DecodeAccess(s[accessKey]);
      if a.revoked then AccessRevoked(a.revokedAt)
      else if now > a.expiryTime then AccessExpired(a.expiryTime)
      else AccessValid(a.patientID, a.doctorID, Wrap64(a.expiryTime - now), a.expiryTime)
  }

  // ---------------------------------------------------------------------
  // Rich queries
  // ---------------------------------------------------------------------

  /** A CouchDB selector on `patientID`, optionally also on `revoked: false`. */
  datatype Selector = Selector(patientID: string, unrevokedOnly: bool)

  /** Whether a stored JSON document satisfies the selector: it must have the
      fields named (doctors have no `patientID`; only grants have `revoked`). */
  predicate Matches(d: Document, sel: Selector) {
    match d
    case PatientDoc(p) => p.patientID == sel.patientID && !sel.unrevokedOnly
    case DoctorDoc(_) => false
    case AccessDoc(a) => a.patientID == sel.patientID && !(sel.unrevokedOnly && a.revoked)
    case AuditDoc(l) => l.patientID == sel.patientID && !sel.unrevokedOnly
  }

  /** `hits` is what the query iterator yields: every matching key once, in
      the database's order. */
  ghost predicate IsQueryResult(s: WorldState, sel: Selector, hits: seq<string>) {
    && (forall i, j | 0 <= i < j < |hits| :: hits[i] != hits[j])
    && (forall k :: k in hits <==> k in s && Matches(s[k], sel))
  }

  /** The loop of GetActiveAccessesForPatient: decode each hit, keep it when
      `now <= expiryTime`, in iteration order. */
  function ActiveAccesses(s: WorldState, now: Int64, hits: seq<string>): (r: seq<AccessRecord>)
    requires forall k | k in hits :: k in s
    ensures |r| <= |hits|
    ensures forall a | a in r :: now <= a.expiryTime
  {
    if hits == [] then []
    else
      var rest := ActiveAccesses(s, now, hits[..|hits| - 1]);
      var a := DecodeAccess(s[hits[|hits| - 1]]);
      if now <= a.expiryTime then rest + [a] else rest
  }

  lemma {:induction false} ActiveAccessesMembers(s: WorldState, now: Int64, hits: seq<string>, a: AccessRecord)
    requires forall k | k in hits :: k in s
    ensures a in ActiveAccesses(s, now, hits) <==>
      exists k | k in hits :: DecodeAccess(s[k]) == a && now <= a.expiryTime
  {
    if hits != [] {
      var init := hits[..|hits| - 1];
      var last := hits[|hits| - 1];
      assert hits == init + [last];
      ActiveAccessesMembers(s, now, init, a);
      if exists k | k in hits :: DecodeAccess(s[k]) == a && now <= a.expiryTime {
        var k :| k in hits && DecodeAccess(s[k]) == a && now <= a.expiryTime;
        if k != last {
          assert k in init;
        }
      }
    }
  }

  /** GetActiveAccessesForPatient returns exactly the stored, unrevoked,
      unexpired grants of the patient. */
  lemma ActiveAccessesExact(s: WorldState, now: Int64, patientID: string, hits: seq<string>)
    requires IsQueryResult(s, Selector(patientID, true), hits)
    ensures forall a :: a in ActiveAccesses(s, now, hits) <==>
      AccessDoc(a) in s.Values && a.patientID == patientID && !a.revoked && now <= a.expiryTime
  {
    forall a
      ensures a in ActiveAccesses(s, now, hits) <==>
        AccessDoc(a) in s.Values && a.patientID == patientID && !a.revoked && now <= a.expiryTime
    {
      ActiveAccessesMembers(s, now, hits, a);
      if AccessDoc(a) in s.Values && a.patientID == patientID && !a.revoked && now <= a.expiryTime {
        var k :| k in s && s[k] == AccessDoc(a);
        assert k in hits && DecodeAccess(s[k]) == a;
      }
      if a in ActiveAccesses(s, now, hits) {
        var k :| k in hits && DecodeAccess(s[k]) == a && now <= a.expiryTime;
        assert Matches(s[k], Selector(patientID, true));
        assert s[k] == AccessDoc(a);
      }
    }
  }

  /** The loop of GetAuditTrail as written: every hit is decoded as an
      audit entry, whatever document it is. */
  function AuditTrailAsWritten(s: WorldState, hits: seq<string>): (r: seq<AuditLog>)
    requires forall k | k in hits :: k in s
    ensures |r| == |hits|
    ensures forall i :: 0 <= i < |hits| ==> r[i] == DecodeAuditLog(s[hits[i]])
  {
    if hits == [] then []
    else AuditTrailAsWritten(s, hits[..|hits| - 1]) + [DecodeAuditLog(s[hits[|hits| - 1]])]
  }

  /** GetAuditTrail as evidently intended: only audit documents. */
  function AuditTrail(s: WorldState, hits: seq<string>): (r: seq<AuditLog>)
    requires forall k | k in hits :: k in s
    ensures |r| <= |hits|
    ensures forall l | l in r :: AuditDoc(l) in s.Values
  {
    if hits == [] then []
    else
      var rest := AuditTrail(s, hits[..|hits| - 1]);
      var d := s[hits[|hits| - 1]];
      if d.AuditDoc? then rest + [d.log] else rest
  }

  lemma {:induction false} AuditTrailMembers(s: WorldState, hits: seq<string>, l: AuditLog)
    requires forall k | k in hits :: k in s
    ensures l in AuditTrail(s, hits) <==> exists k | k in hits :: s[k] == AuditDoc(l)
  {
    if hits != [] {
      var init := hits[..|hits| - 1];
      var last := hits[|hits| - 1];
      assert hits == init + [last];
      AuditTrailMembers(s, init, l);
      if exists k | k in hits :: s[k] == AuditDoc(l) {
        var k :| k in hits && s[k] == AuditDoc(l);
        if k != last {
          assert k in init;
        }
      }
    }
  }

  /** The corrected audit trail is exactly the patient's stored audit entries. */
  lemma AuditTrailExact(s: WorldState, patientID: string, hits: seq<string>)
    requires IsQueryResult(s, Selector(patientID, false), hits)
    ensures forall l :: l in AuditTrail(s, hits) <==> AuditDoc(l) in s.Values && l.patientID == patientID
  {
    forall l
      ensures l in AuditTrail(s, hits) <==> AuditDoc(l) in s.Values && l.patientID == patientID
    {
      AuditTrailMembers(s, hits, l);
      if AuditDoc(l) in s.Values && l.patientID == patientID {
        var k :| k in s && s[k] == AuditDoc(l);
        assert k in hits;
      }
      if l in AuditTrail(s, hits) {
        var k :| k in hits && s[k] == AuditDoc(l);
        assert Matches(s[k], Selector(patientID, false));
      }
    }
  }
}
