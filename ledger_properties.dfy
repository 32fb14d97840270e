/** Properties that relate several chaincode transactions: the world-state
    invariant every transaction keeps, what a later read observes after a
    write, and the two places where the chaincode as written departs from
    what it evidently intends. */
module LedgerProperties {
  import opened Primitives
  import opened LedgerState
  import opened Ledger

  /** The state-changing transactions a client can submit. */
  datatype Transaction =
    | RegisterPatientTx(patientID: string, name: string, dob: string, phone: string, aadhar: string, fingerprintTemplateID: Int64)
    | RegisterDoctorTx(doctorID: string, name: string, licenseNumber: string, specialization: string, hospitalName: string)
    | VerifyDoctorTx(doctorID: string)
    | GrantAccessTx(patientID: string, doctorID: string, durationHours: Int64, purpose: string)
    | RevokeAccessTx(accessKey: string)

  /** One committed transaction; revocation is the corrected RevokeAccessChecked. */
  function Apply(s: WorldState, ctx: TxContext, t: Transaction): WorldState {
    match t
    case RegisterPatientTx(p, n, dob, ph, a, f) => RegisterPatient(s, ctx, p, n, dob, ph, a, f).state
    case RegisterDoctorTx(d, n, l, sp, h) => RegisterDoctor(s, ctx, d, n, l, sp, h).state
    case VerifyDoctorTx(d) => VerifyDoctor(s, ctx, d).state
    case GrantAccessTx(p, d, h, pu) => GrantAccess(s, ctx, p, d, h, pu).state
    case RevokeAccessTx(k) => RevokeAccessChecked(s, ctx, k).state
  }

  /** Registered patients stay registered and verified doctors stay verified. */
  ghost predicate Grows(s: WorldState, s': WorldState) {
    && (forall id | IsPatient(s, id) :: IsPatient(s', id))
    && (forall id | IsVerifiedDoctor(s, id) :: IsVerifiedDoctor(s', id))
  }

  lemma PutKeepsValid(s: WorldState, k: string, d: Document)
    requires Valid(s)
    requires Grows(s, s[k := d])
    requires WellFormedAt(s[k := d], k)
    ensures Valid(s[k := d])
  {
    var s' := s[k := d];
    forall k' | k' in s' ensures WellFormedAt(s', k') {
      if k' != k {
        assert WellFormedAt(s, k');
      }
    }
  }

  lemma AuditLogKeepsValid(s: WorldState, ctx: TxContext, patientID: string, doctorID: string,
                           action: string, details: string)
    requires Valid(s)
    ensures Valid(WithAuditLog(s, ctx, patientID, doctorID, action, details))
    ensures Grows(s, WithAuditLog(s, ctx, patientID, doctorID, action, details))
  {
    var lk := LogKey(ctx.now, patientID, doctorID);
    var s' := s[lk := AuditDoc(AuditEntry(ctx, patientID, doctorID, action, details))];
    forall id | IsPatient(s, id) ensures IsPatient(s', id) {
      KeyFamilies(id, id, "", "", "", "", 0, ctx.now, patientID, doctorID);
    }
    forall id | IsVerifiedDoctor(s, id) ensures IsVerifiedDoctor(s', id) {
      KeyFamilies("", "", id, id, "", "", 0, ctx.now, patientID, doctorID);
    }
    PutKeepsValid(s, lk, AuditDoc(AuditEntry(ctx, patientID, doctorID, action, details)));
  }

  lemma RegisterPatientKeepsValid(s: WorldState, ctx: TxContext, patientID: string, name: string, dob: string,
                                  phone: string, aadhar: string, fp: Int64)
    requires Valid(s)
    ensures Valid(RegisterPatient(s, ctx, patientID, name, dob, phone, aadhar, fp).state)
    ensures Grows(s, RegisterPatient(s, ctx, patientID, name, dob, phone, aadhar, fp).state)
  {
    if RegisterPatient(s, ctx, patientID, name, dob, phone, aadhar, fp).result.Ok? {
      var pk := PatientKey(patientID);
      var doc := PatientDoc(Patient(patientID, name, dob, phone, aadhar, fp, ctx.now, ctx.mspID));
      var s1 := s[pk := doc];
      forall id | IsVerifiedDoctor(s, id) ensures IsVerifiedDoctor(s1, id) {
        KeyFamilies(patientID, patientID, id, id, "", "", 0, 0, "", "");
      }
      PutKeepsValid(s, pk, doc);
      AuditLogKeepsValid(s1, ctx, patientID, "", "REGISTER_PATIENT", "Patient registered by " + ctx.mspID);
    }
  }

  lemma RegisterDoctorKeepsValid(s: WorldState, ctx: TxContext, doctorID: string, name: string, licenseNumber: string,
                                 specialization: string, hospitalName: string)
    requires Valid(s)
    ensures Valid(RegisterDoctor(s, ctx, doctorID, name, licenseNumber, specialization, hospitalName).state)
    ensures Grows(s, RegisterDoctor(s, ctx, doctorID, name, licenseNumber, specialization, hospitalName).state)
  {
    if RegisterDoctor(s, ctx, doctorID, name, licenseNumber, specialization, hospitalName).result.Ok? {
      var dk := DoctorKey(doctorID);
      var doc := DoctorDoc(Doctor(doctorID, name, licenseNumber, specialization, hospitalName, false, ctx.now, ctx.mspID));
      var s1 := s[dk := doc];
      forall id | IsPatient(s, id) ensures IsPatient(s1, id) {
        KeyFamilies(id, id, doctorID, doctorID, "", "", 0, 0, "", "");
      }
      PutKeepsValid(s, dk, doc);
      AuditLogKeepsValid(s1, ctx, "", doctorID, "REGISTER_DOCTOR", "Doctor registered by " + ctx.mspID);
    }
  }

  lemma VerifyDoctorKeepsValid(s: WorldState, ctx: TxContext, doctorID: string)
    requires Valid(s)
    ensures Valid(VerifyDoctor(s, ctx, doctorID).state)
    ensures Grows(s, VerifyDoctor(s, ctx, doctorID).state)
  {
    if VerifyDoctor(s, ctx, doctorID).result.Ok? {
      var dk := DoctorKey(doctorID);
      ValidLookup(s, doctorID);
      assert WellFormedAt(s, dk);
      var doc := DoctorDoc(s[dk].doctor.(verified := true));
      var s1 := s[dk := doc];
      forall id | IsPatient(s, id) ensures IsPatient(s1, id) {
        KeyFamilies(id, id, doctorID, doctorID, "", "", 0, 0, "", "");
      }
      PutKeepsValid(s, dk, doc);
      AuditLogKeepsValid(s1, ctx, "", doctorID, "VERIFY_DOCTOR", "Doctor verified by AuditOrg");
    }
  }

  lemma GrantAccessKeepsValid(s: WorldState, ctx: TxContext, patientID: string, doctorID: string,
                              durationHours: Int64, purpose: string)
    requires Valid(s)
    ensures Valid(GrantAccess(s, ctx, patientID, doctorID, durationHours, purpose).state)
    ensures Grows(s, GrantAccess(s, ctx, patientID, doctorID, durationHours, purpose).state)
  {
    if GrantAccess(s, ctx, patientID, doctorID, durationHours, purpose).result.Ok? {
      var record := NewGrant(ctx, patientID, doctorID, durationHours, purpose);
      var key := record.accessKey;
      var s1 := s[key := AccessDoc(record)];
      ValidLookup(s, patientID);
      ValidLookup(s, doctorID);
      KeyFamilies(patientID, patientID, doctorID, doctorID, patientID, doctorID, ctx.now, 0, "", "");
      forall id | IsPatient(s, id) ensures IsPatient(s1, id) {
        KeyFamilies(id, id, "", "", patientID, doctorID, ctx.now, 0, "", "");
      }
      forall id | IsVerifiedDoctor(s, id) ensures IsVerifiedDoctor(s1, id) {
        KeyFamilies("", "", id, id, patientID, doctorID, ctx.now, 0, "", "");
      }
      PutKeepsValid(s, key, AccessDoc(record));
      AuditLogKeepsValid(s1, ctx, patientID, doctorID, "GRANT_ACCESS",
                         GrantDetails(durationHours, purpose));
    }
  }

  lemma RevokeAccessCheckedKeepsValid(s: WorldState, ctx: TxContext, accessKey: string)
    requires Valid(s)
    ensures Valid(RevokeAccessChecked(s, ctx, accessKey).state)
    ensures Grows(s, RevokeAccessChecked(s, ctx, accessKey).state)
  {
    if RevokeAccessChecked(s, ctx, accessKey).result.Ok? {
      var a := s[accessKey].access;
      var doc := AccessDoc(a.(revoked := true, revokedAt := ctx.now));
      var s1 := s[accessKey := doc];
      assert RevokeAccessChecked(s, ctx, accessKey).state
          == WithAuditLog(s1, ctx, a.patientID, a.doctorID, "REVOKE_ACCESS", REVOKE_DETAILS);
      assert WellFormedAt(s, accessKey);
      assert Grows(s, s1) by {
        forall id | IsPatient(s, id) ensures IsPatient(s1, id) {
          assert PatientKey(id) != accessKey;
        }
        forall id | IsVerifiedDoctor(s, id) ensures IsVerifiedDoctor(s1, id) {
          assert DoctorKey(id) != accessKey;
        }
      }
      PutKeepsValid(s, accessKey, doc);
      AuditLogKeepsValid(s1, ctx, a.patientID, a.doctorID, "REVOKE_ACCESS", REVOKE_DETAILS);
    }
  }

  /** Every transaction keeps the world state well formed, never unregisters
      a patient and never un-verifies a doctor. */
  lemma ApplyKeepsValid(s: WorldState, ctx: TxContext, t: Transaction)
    requires Valid(s)
    ensures Valid(Apply(s, ctx, t))
    ensures Grows(s, Apply(s, ctx, t))
  {
    match t
    case RegisterPatientTx(p, n, dob, ph, a, f) => RegisterPatientKeepsValid(s, ctx, p, n, dob, ph, a, f);
    case RegisterDoctorTx(d, n, l, sp, h) => RegisterDoctorKeepsValid(s, ctx, d, n, l, sp, h);
    case VerifyDoctorTx(d) => VerifyDoctorKeepsValid(s, ctx, d);
    case GrantAccessTx(p, d, h, pu) => GrantAccessKeepsValid(s, ctx, p, d, h, pu);
    case RevokeAccessTx(k) => RevokeAccessCheckedKeepsValid(s, ctx, k);
  }

  // ---------------------------------------------------------------------
  // Reads after writes
  // ---------------------------------------------------------------------

  /** A registered patient reads back with exactly the registered fields, and
      registering the same identifier again fails. */
  lemma RegisterPatientThenGet(s: WorldState, ctx: TxContext, ctx': TxContext, patientID: string, name: string,
                               dob: string, phone: string, aadhar: string, fp: Int64)
    requires RegisterPatient(s, ctx, patientID, name, dob, phone, aadhar, fp).result.Ok?
    ensures var s' := RegisterPatient(s, ctx, patientID, name, dob, phone, aadhar, fp).state;
      && GetPatient(s', patientID) == Ok(Patient(patientID, name, dob, phone, aadhar, fp, ctx.now, ctx.mspID))
      && RegisterPatient(s', ctx', patientID, name, dob, phone, aadhar, fp).result == Err(PatientAlreadyRegistered(patientID))
  {
  }

  /** A newly registered doctor reads back unverified, and cannot receive grants yet. */
  lemma RegisterDoctorThenGet(s: WorldState, ctx: TxContext, ctx': TxContext, doctorID: string, name: string,
                              licenseNumber: string, specialization: string, hospitalName: string,
                              patientID: string, hours: Int64, purpose: string)
    requires RegisterDoctor(s, ctx, doctorID, name, licenseNumber, specialization, hospitalName).result.Ok?
    ensures var s' := RegisterDoctor(s, ctx, doctorID, name, licenseNumber, specialization, hospitalName).state;
      && GetDoctor(s', doctorID) == Ok(Doctor(doctorID, name, licenseNumber, specialization, hospitalName, false, ctx.now, ctx.mspID))
      && GrantAccess(s', ctx', patientID, doctorID, hours, purpose).result.Err?
  {
  }

  /** Verifying twice is a repeat success that leaves the doctor as the first
      verification left it. */
  lemma VerifyDoctorIdempotent(s: WorldState, ctx: TxContext, ctx': TxContext, doctorID: string)
    requires VerifyDoctor(s, ctx, doctorID).result.Ok?
    requires ctx'.mspID == AUDIT_ORG_MSP
    ensures var s1 := VerifyDoctor(s, ctx, doctorID).state;
      var r2 := VerifyDoctor(s1, ctx', doctorID);
      && r2.result.Ok?
      && r2.state[DoctorKey(doctorID)] == s1[DoctorKey(doctorID)]
      && DecodeDoctor(r2.state[DoctorKey(doctorID)]).verified
  {
  }

  /** A fresh grant is valid up to and including its expiry second and
      expired afterwards; with a non-negative duration it is valid when it is
      granted, and with a negative one (the duration is never checked) it is
      already expired then. */
  lemma GrantThenCheck(s: WorldState, ctx: TxContext, patientID: string, doctorID: string,
                       hours: Int64, purpose: string, later: Int64)
    requires GrantAccess(s, ctx, patientID, doctorID, hours, purpose).result.Ok?
    requires ExpiryInRange(ctx.now, hours)
    ensures var r := GrantAccess(s, ctx, patientID, doctorID, hours, purpose);
      && (0 <= hours ==>
            CheckAccessValidity(r.state, ctx.now, r.result.value)
              == AccessValid(patientID, doctorID, hours * SECONDS_PER_HOUR, ctx.now + hours * SECONDS_PER_HOUR))
      && (CheckAccessValidity(r.state, later, r.result.value).AccessValid? <==> later <= ctx.now + hours * SECONDS_PER_HOUR)
      && (CheckAccessValidity(r.state, later, r.result.value).AccessExpired? <==> later > ctx.now + hours * SECONDS_PER_HOUR)
  {
    var r := GrantAccess(s, ctx, patientID, doctorID, hours, purpose);
    var key := AccessKey(patientID, doctorID, ctx.now);
    assert r.state[key].access.expiryTime == ctx.now + hours * SECONDS_PER_HOUR;
  }

  /** After a revocation the grant reports revoked at every later time, and
      a second revocation fails. */
  lemma RevokeThenCheck(s: WorldState, ctx: TxContext, ctx': TxContext, accessKey: string, later: Int64)
    requires Valid(s)
    requires RevokeAccessChecked(s, ctx, accessKey).result.Ok?
    ensures var s' := RevokeAccessChecked(s, ctx, accessKey).state;
      && CheckAccessValidity(s', later, accessKey) == AccessRevoked(ctx.now)
      && RevokeAccessChecked(s', ctx', accessKey).result == Err(AccessAlreadyRevoked)
  {
    var a := s[accessKey].access;
    assert WellFormedAt(s, accessKey);
    KeyFamilies("", "", "", "", a.patientID, a.doctorID, a.grantedAt, ctx.now, a.patientID, a.doctorID);
  }

  /** Every grant GetActiveAccessesForPatient returns is stored under its own
      key, as an unrevoked grant of the patient. */
  lemma ActiveAccessStored(s: WorldState, now: Int64, patientID: string, hits: seq<string>, a: AccessRecord)
    requires Valid(s) && IsQueryResult(s, Selector(patientID, true), hits)
    requires a in ActiveAccesses(s, now, hits)
    ensures a.accessKey in s && s[a.accessKey] == AccessDoc(a)
    ensures a.patientID == patientID && !a.revoked && now <= a.expiryTime
  {
    ActiveAccessesMembers(s, now, hits, a);
    var k :| k in hits && DecodeAccess(s[k]) == a && now <= a.expiryTime;
    assert Matches(s[k], Selector(patientID, true));
    assert WellFormedAt(s, k);
  }

  /** Every grant GetActiveAccessesForPatient returns passes CheckAccessValidity
      at the same time, under its own key. */
  lemma ActiveAccessesAreValid(s: WorldState, now: Int64, patientID: string, hits: seq<string>, a: AccessRecord)
    requires Valid(s) && IsQueryResult(s, Selector(patientID, true), hits)
    requires a in ActiveAccesses(s, now, hits)
    ensures CheckAccessValidity(s, now, a.accessKey) == AccessValid(patientID, a.doctorID, Wrap64(a.expiryTime - now), a.expiryTime)
  {
    ActiveAccessStored(s, now, patientID, hits, a);
    StoredGrantIsValid(s, now, a);
  }

  /** A stored, unrevoked, unexpired grant passes CheckAccessValidity. */
  lemma StoredGrantIsValid(s: WorldState, now: Int64, a: AccessRecord)
    requires a.accessKey in s && s[a.accessKey] == AccessDoc(a)
    requires !a.revoked && now <= a.expiryTime
    ensures CheckAccessValidity(s, now, a.accessKey) == AccessValid(a.patientID, a.doctorID, Wrap64(a.expiryTime - now), a.expiryTime)
  {
  }

  // ---------------------------------------------------------------------
  // Where the chaincode as written departs from its intent
  // ---------------------------------------------------------------------

  /** RevokeAccess as written accepts a doctor key: the doctor document is
      replaced by an access record, the doctor reads back unverified and
      nameless, and the ledger is no longer well formed. */
  lemma RevokeAccessUnverifiesDoctor(s: WorldState, ctx: TxContext, doctorID: string)
    requires Valid(s) && IsVerifiedDoctor(s, doctorID)
    ensures var r := RevokeAccess(s, ctx, DoctorKey(doctorID));
      && r.result.Ok?
      && !IsVerifiedDoctor(r.state, doctorID)
      && GetDoctor(r.state, doctorID) == Ok(Doctor(doctorID, "", "", "", "", false, 0, ""))
      && !Valid(r.state)
  {
    var dk := DoctorKey(doctorID);
    var a := DecodeAccess(s[dk]);
    ValidLookup(s, doctorID);
    KeyFamilies("", "", doctorID, doctorID, "", "", 0, ctx.now, a.patientID, a.doctorID);
    var r := RevokeAccess(s, ctx, dk);
    assert r.state[dk] == AccessDoc(a.(revoked := true, revokedAt := ctx.now));
    assert !WellFormedAt(r.state, dk);
  }

  /** The corrected revocation refuses a doctor key and leaves the ledger as it was. */
  lemma RevokeAccessCheckedRefusesDoctorKey(s: WorldState, ctx: TxContext, doctorID: string)
    requires Valid(s)
    ensures RevokeAccessChecked(s, ctx, DoctorKey(doctorID)) == Outcome(Err(AccessKeyNotFound(DoctorKey(doctorID))), s)
  {
    ValidLookup(s, doctorID);
  }

  /** A verified doctor exists on a ledger built by the transactions, so the
      premise of RevokeAccessUnverifiesDoctor can be met. */
  lemma VerifiedDoctorReachable()
    ensures var s1 := RegisterDoctor(map[], TxContext(100, "HospitalOrgMSP", "t1"), "D1", "Dr A", "L-1", "Cardiology", "City").state;
      var s2 := VerifyDoctor(s1, TxContext(101, AUDIT_ORG_MSP, "t2"), "D1").state;
      Valid(s2) && IsVerifiedDoctor(s2, "D1")
  {
    var t1 := TxContext(100, "HospitalOrgMSP", "t1");
    var t2 := TxContext(101, AUDIT_ORG_MSP, "t2");
    ApplyKeepsValid(map[], t1, RegisterDoctorTx("D1", "Dr A", "L-1", "Cardiology", "City"));
    var s1 := Apply(map[], t1, RegisterDoctorTx("D1", "Dr A", "L-1", "Cardiology", "City"));
    ApplyKeepsValid(s1, t2, VerifyDoctorTx("D1"));
  }

  /** GetAuditTrail as written also returns the patient's own registration
      document, decoded as an audit entry with no action; the corrected trail
      does not contain it. */
  lemma AuditTrailAsWrittenIncludesPatient(s: WorldState, patientID: string, hits: seq<string>)
    requires Valid(s) && IsPatient(s, patientID)
    requires IsQueryResult(s, Selector(patientID, false), hits)
    ensures AuditLog("", patientID, "", "", "", 0, "", "") in AuditTrailAsWritten(s, hits)
    ensures AuditLog("", patientID, "", "", "", 0, "", "") !in AuditTrail(s, hits)
  {
    var pk := PatientKey(patientID);
    ValidLookup(s, patientID);
    assert Matches(s[pk], Selector(patientID, false));
    var i :| 0 <= i < |hits| && hits[i] == pk;
    assert AuditTrailAsWritten(s, hits)[i] == DecodeAuditLog(s[pk]);
    var blank := AuditLog("", patientID, "", "", "", 0, "", "");
    AuditTrailExact(s, patientID, hits);
  }

  /** The audit key holds only the second, the patient and the doctor: a
      revocation in the same second as its grant replaces the grant's entry. */
  lemma SameSecondRevokeReplacesGrantLog(s: WorldState, ctx: TxContext, ctx': TxContext, patientID: string,
                                         doctorID: string, hours: Int64, purpose: string)
    requires GrantAccess(s, ctx, patientID, doctorID, hours, purpose).result.Ok?
    requires ctx'.now == ctx.now
    ensures var g := GrantAccess(s, ctx, patientID, doctorID, hours, purpose);
      var r := RevokeAccessChecked(g.state, ctx', g.result.value);
      && Logged(g.state, ctx, patientID, doctorID, "GRANT_ACCESS", GrantDetails(hours, purpose))
      && r.result.Ok?
      && Logged(r.state, ctx', patientID, doctorID, "REVOKE_ACCESS", REVOKE_DETAILS)
      && !Logged(r.state, ctx, patientID, doctorID, "GRANT_ACCESS", GrantDetails(hours, purpose))
  {
  }
}
