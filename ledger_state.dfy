/** The chaincode's world state: the four JSON document kinds it stores, the
    keys it stores them under, how Go's lenient `json.Unmarshal` reads a
    document as another kind, and the well-formedness invariant that the
    transactions are meant to keep. */
module LedgerState {
  import opened Primitives

  const AUDIT_ORG_MSP: string := "AuditOrgMSP"
  const SECONDS_PER_HOUR: int := 3600
  const AADHAR_BYTES: nat := 12

  datatype Patient = Patient(
    patientID: string, name: string, dateOfBirth: string, phone: string,
    aadharNumber: string, fingerprintTemplateID: Int64,
    registeredAt: Int64, registeredByOrg: string)

  datatype Doctor = Doctor(
    doctorID: string, name: string, licenseNumber: string,
    specialization: string, hospitalName: string, verified: bool,
    registeredAt: Int64, registeredByOrg: string)

  datatype AccessRecord = AccessRecord(
    accessKey: string, patientID: string, doctorID: string,
    grantedAt: Int64, expiryTime: Int64, durationHours: Int64,
    purpose: string, revoked: bool, revokedAt: Int64, grantedByOrg: string)

  datatype AuditLog = AuditLog(
    logID: string, patientID: string, doctorID: string, action: string,
    details: string, timestamp: Int64, orgMSP: string, txID: string)

  /** A value in the world state: the JSON encoding of one of the four structs. */
  datatype Document =
    | PatientDoc(patient: Patient)
    | DoctorDoc(doctor: Doctor)
    | AccessDoc(access: AccessRecord)
    | AuditDoc(log: AuditLog)

  type WorldState = map<string, Document>

  /** What a transaction learns from its context: the transaction timestamp
      in seconds, the caller's MSP ID and the transaction ID. */
  datatype TxContext = TxContext(now: Int64, mspID: string, txID: string)

  // ---------------------------------------------------------------------
  // Decoding. Unmarshalling a JSON object into a struct fills the fields
  // whose names occur in the object and leaves the others at Go's zero
  // value; unknown names are ignored. The four structs share only the
  // names listed below, so decoding never fails.
  // ---------------------------------------------------------------------

  function DecodePatient(d: Document): (p: Patient)
    ensures d.PatientDoc? ==> p == d.patient
    ensures !d.PatientDoc? ==> p.aadharNumber == "" && p.fingerprintTemplateID == 0
  {
    match d
    case PatientDoc(p) => p
    case DoctorDoc(x) => Patient("", x.name, "", "", "", 0, x.registeredAt, x.registeredByOrg)
    case AccessDoc(x) => Patient(x.patientID, "", "", "", "", 0, 0, "")
    case AuditDoc(x) => Patient(x.patientID, "", "", "", "", 0, 0, "")
  }

  function DecodeDoctor(d: Document): (r: Doctor)
    ensures d.DoctorDoc? ==> r == d.doctor
    ensures !d.DoctorDoc? ==> !r.verified
  {
    match d
    case PatientDoc(x) => Doctor("", x.name, "", "", "", false, x.registeredAt, x.registeredByOrg)
    case DoctorDoc(x) => x
    case AccessDoc(x) => Doctor(x.doctorID, "", "", "", "", false, 0, "")
    case AuditDoc(x) => Doctor(x.doctorID, "", "", "", "", false, 0, "")
  }

  function DecodeAccess(d: Document): (a: AccessRecord)
    ensures d.AccessDoc? ==> a == d.access
    ensures !d.AccessDoc? ==> !a.revoked && a.expiryTime == 0
  {
    match d
    case PatientDoc(x) => AccessRecord("", x.patientID, "", 0, 0, 0, "", false, 0, "")
    case DoctorDoc(x) => AccessRecord("", "", x.doctorID, 0, 0, 0, "", false, 0, "")
    case AccessDoc(x) => x
    case AuditDoc(x) => AccessRecord("", x.patientID, x.doctorID, 0, 0, 0, "", false, 0, "")
  }

  function DecodeAuditLog(d: Document): (l: AuditLog)
    ensures d.AuditDoc? ==> l == d.log
    ensures !d.AuditDoc? ==> l.action == ""
  {
    match d
    case PatientDoc(x) => AuditLog("", x.patientID, "", "", "", 0, "", "")
    case DoctorDoc(x) => AuditLog("", "", x.doctorID, "", "", 0, "", "")
    case AccessDoc(x) => AuditLog("", x.patientID, x.doctorID, "", "", 0, "", "")
    case AuditDoc(x) => x
  }

  // ---------------------------------------------------------------------
  // Keys
  // ---------------------------------------------------------------------

  function PatientKey(patientID: string): string { "patient:" + patientID }

  function DoctorKey(doctorID: string): string { "doctor:" + doctorID }

  function AccessKey(patientID: string, doctorID: string, grantedAt: Int64): string {
    "access:" + patientID + ":" + doctorID + ":" + FormatInt(grantedAt)
  }

  function LogKey(timestamp: Int64, patientID: string, doctorID: string): string {
    "log:" + FormatInt(timestamp) + ":" + patientID + ":" + doctorID
  }

  /** The four key families never meet, and the patient and doctor keys name
      exactly one identifier each. */
  lemma KeyFamilies(p: string, p': string, d: string, d': string, a1: string, a2: string, a3: Int64,
                    l1: Int64, l2: string, l3: string)
    ensures PatientKey(p) != DoctorKey(d) && PatientKey(p) != AccessKey(a1, a2, a3)
    ensures PatientKey(p) != LogKey(l1, l2, l3) && DoctorKey(d) != AccessKey(a1, a2, a3)
    ensures DoctorKey(d) != LogKey(l1, l2, l3) && AccessKey(a1, a2, a3) != LogKey(l1, l2, l3)
    ensures PatientKey(p) == PatientKey(p') ==> p == p'
    ensures DoctorKey(d) == DoctorKey(d') ==> d == d'
  {
    assert PatientKey(p)[0] == 'p' && DoctorKey(d)[0] == 'd';
    assert AccessKey(a1, a2, a3)[0] == 'a' && LogKey(l1, l2, l3)[0] == 'l';
    assert PatientKey(p)[8..] == p && PatientKey(p')[8..] == p';
    assert DoctorKey(d)[7..] == d && DoctorKey(d')[7..] == d';
  }

  /** Grants of one patient and doctor made in different seconds get
      different keys. */
  lemma AccessKeySeparatesSeconds(p: string, d: string, t1: Int64, t2: Int64)
    ensures AccessKey(p, d, t1) == AccessKey(p, d, t2) ==> t1 == t2
  {
    var prefix := "access:" + p + ":" + d + ":";
    assert AccessKey(p, d, t1)[|prefix|..] == FormatInt(t1);
    assert AccessKey(p, d, t2)[|prefix|..] == FormatInt(t2);
    if AccessKey(p, d, t1) == AccessKey(p, d, t2) {
      FormatIntInjective(t1, t2);
    }
  }

  /** Audit entries written in different seconds get different keys. */
  lemma LogKeySeparatesSeconds(t1: Int64, p1: string, d1: string, t2: Int64, p2: string, d2: string)
    ensures LogKey(t1, p1, d1) == LogKey(t2, p2, d2) ==> t1 == t2
  {
    if LogKey(t1, p1, d1) == LogKey(t2, p2, d2) {
      LogKeyAfterPrefix(t1, p1, d1);
      LogKeyAfterPrefix(t2, p2, d2);
      FormatIntPrefix(t1, t2, ":" + p1 + ":" + d1, ":" + p2 + ":" + d2);
    }
  }

  /** After `log:`, a log key is the time's `%d` text followed by ':'. */
  lemma LogKeyAfterPrefix(t: Int64, p: string, d: string)
    ensures LogKey(t, p, d)[4..] == FormatInt(t) + (":" + p + ":" + d)
  {
    var f := FormatInt(t);
    assert LogKey(t, p, d) == "log:" + (f + (":" + p + ":" + d));
  }

  // ---------------------------------------------------------------------
  // Invariant
  // ---------------------------------------------------------------------

  /** The checks RegisterPatient makes on its input; Go's `len` counts bytes. */
  predicate ValidPatientDetails(patientID: string, name: string, aadhar: string) {
    |patientID| > 0 && |name| > 0 && Utf8Len(aadhar) == AADHAR_BYTES
  }

  /** The checks RegisterDoctor makes on its input. */
  predicate ValidDoctorDetails(doctorID: string, name: string, licenseNumber: string) {
    |doctorID| > 0 && |name| > 0 && |licenseNumber| > 0
  }

  /** GrantAccess's expiry `currentTime + int64(durationHours*3600)` in int64. */
  function Expiry(grantedAt: Int64, durationHours: Int64): Int64 {
    Wrap64(grantedAt + Wrap64(durationHours * SECONDS_PER_HOUR))
  }

  predicate IsPatient(s: WorldState, patientID: string) {
    PatientKey(patientID) in s && s[PatientKey(patientID)].PatientDoc?
  }

  predicate IsVerifiedDoctor(s: WorldState, doctorID: string) {
    DoctorKey(doctorID) in s && s[DoctorKey(doctorID)].DoctorDoc?
    && s[DoctorKey(doctorID)].doctor.verified
  }

  /** The document under key k is of the kind the key's family names, was
      written by the transaction that owns that family, and an access grant
      refers to a registered patient and a verified doctor. */
  ghost predicate WellFormedAt(s: WorldState, k: string)
    requires k in s
  {
    match s[k]
    case PatientDoc(p) =>
      k == PatientKey(p.patientID) && ValidPatientDetails(p.patientID, p.name, p.aadharNumber)
    case DoctorDoc(d) =>
      k == DoctorKey(d.doctorID) && ValidDoctorDetails(d.doctorID, d.name, d.licenseNumber)
    case AccessDoc(a) =>
      && k == a.accessKey && k == AccessKey(a.patientID, a.doctorID, a.grantedAt)
      && a.expiryTime == Expiry(a.grantedAt, a.durationHours)
      && IsPatient(s, a.patientID) && IsVerifiedDoctor(s, a.doctorID)
    case AuditDoc(l) =>
      k == l.logID && k == LogKey(l.timestamp, l.patientID, l.doctorID)
  }

  ghost predicate Valid(s: WorldState) {
    forall k | k in s :: WellFormedAt(s, k)
  }

  /** In a valid state the document under a patient or doctor key is of that
      kind and carries that identifier. */
  lemma ValidLookup(s: WorldState, id: string)
    requires Valid(s)
    ensures PatientKey(id) in s ==> s[PatientKey(id)].PatientDoc? && s[PatientKey(id)].patient.patientID == id
    ensures DoctorKey(id) in s ==> s[DoctorKey(id)].DoctorDoc? && s[DoctorKey(id)].doctor.doctorID == id
  {
    if PatientKey(id) in s {
      assert WellFormedAt(s, PatientKey(id));
      match s[PatientKey(id)]
      case PatientDoc(p) => KeyFamilies(id, p.patientID, "", "", "", "", 0, 0, "", "");
      case DoctorDoc(d) => KeyFamilies(id, id, d.doctorID, d.doctorID, "", "", 0, 0, "", "");
      case AccessDoc(a) => KeyFamilies(id, id, "", "", a.patientID, a.doctorID, a.grantedAt, 0, "", "");
      case AuditDoc(l) => KeyFamilies(id, id, "", "", "", "", 0, l.timestamp, l.patientID, l.doctorID);
    }
    if DoctorKey(id) in s {
      assert WellFormedAt(s, DoctorKey(id));
      match s[DoctorKey(id)]
      case PatientDoc(p) => KeyFamilies(p.patientID, p.patientID, id, id, "", "", 0, 0, "", "");
      case DoctorDoc(d) => KeyFamilies("", "", id, d.doctorID, "", "", 0, 0, "", "");
      case AccessDoc(a) => KeyFamilies("", "", id, id, a.patientID, a.doctorID, a.grantedAt, 0, "", "");
      case AuditDoc(l) => KeyFamilies("", "", id, id, "", "", 0, l.timestamp, l.patientID, l.doctorID);
    }
  }
}
