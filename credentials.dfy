/** What the authentication service does to the credential tables, as
    functions from a table to a result and a new table: registration with
    duplicate-id rejection, login with one error for every failure, and
    token verification. The methods of module AuthService are proved equal
    to these. */
module Credentials {
  import opened Primitives
  import opened Sql
  import opened Crypto
  import PatientModel
  import DoctorModel

  /** `expiresIn: '24h'`. */
  const TOKEN_TTL_SECONDS: nat := 86400

  /** The JWT payloads the service signs: an id and a role. */
  datatype Claims = PatientClaims(patientId: string) | DoctorClaims(doctorId: string)
  {
    function Role(): string {
      match this
      case PatientClaims(_) => "patient"
      case DoctorClaims(_) => "doctor"
    }
  }

  datatype AuthError =
    | PatientIdAlreadyExists
    | DoctorIdAlreadyExists
    | InvalidCredentials
    | IllegalArguments            // bcryptjs `compare` given no password string
    | InvalidToken
    | Database(error: DbError)   // raised by `create` and passed through unchanged

  /** The request body of a patient registration; `None` is an absent field. */
  datatype PatientRegistration = PatientRegistration(
    patientId: Option<string>, name: Option<string>, dateOfBirth: Option<string>,
    phone: Option<string>, aadharNumber: Option<string>, password: Option<string>,
    fingerprintTemplateId: Option<int>)

  datatype DoctorRegistration = DoctorRegistration(
    doctorId: Option<string>, name: Option<string>, licenseNumber: Option<string>,
    specialization: Option<string>, hospitalName: Option<string>, password: Option<string>)

  /** The profile a login returns; it has no password field. */
  datatype PatientProfile = PatientProfile(
    patientId: string, name: string, dateOfBirth: string, phone: string, aadharNumber: string)

  datatype DoctorProfile = DoctorProfile(
    doctorId: string, name: string, licenseNumber: string, specialization: string,
    hospitalName: string, isVerified: bool)

  datatype Session<P> = Session(token: string, profile: P)

  /** A service call's result and the table it leaves behind. */
  datatype Step<T, S> = Step(result: Result<T, AuthError>, table: S)

  // ---------------------------------------------------------------------
  // Registration
  // ---------------------------------------------------------------------

  /** `patientData.fingerprintTemplateId || null`: 0 is falsy as well. */
  function FingerprintOrNull(f: Option<int>): (r: Option<int>)
    ensures r.Some? <==> f.Some? && f.value != 0
    ensures r.Some? ==> r == f
  {
    if f.Some? && f.value != 0 then f else None
  }

  /** The values registerPatient hands to `Patient.create`; the plain password
      goes into `passwordHash` for the hook to hash. */
  function PatientValuesOf(d: PatientRegistration): PatientModel.PatientValues {
    PatientModel.PatientValues(d.patientId, d.name, d.dateOfBirth, d.phone, d.aadharNumber, d.password,
                               FingerprintOrNull(d.fingerprintTemplateId))
  }

  function DoctorValuesOf(d: DoctorRegistration): DoctorModel.DoctorValues {
    DoctorModel.DoctorValues(d.doctorId, d.name, d.licenseNumber, d.specialization, d.hospitalName, d.password)
  }

  /** registerPatient: a taken id fails before anything is written; otherwise
      the row `create` inserts is the only change, and only the id is returned. */
  function RegisterPatient(t: PatientModel.PatientTable, d: PatientRegistration, b: Bcrypt, salt: nat, now: Instant)
    : (r: Step<string, PatientModel.PatientTable>)
    ensures d.patientId.Some? && d.patientId.value in t ==> r == Step(Err(PatientIdAlreadyExists), t)
    ensures r.result.Err? ==> r.table == t
    ensures r.result.Ok? <==> !(d.patientId.Some? && d.patientId.value in t) && PatientModel.Insert(t, PatientValuesOf(d), b, salt, now).Ok?
    ensures r.result.Err? && !(d.patientId.Some? && d.patientId.value in t) ==>
      r.result == Err(Database(PatientModel.Insert(t, PatientValuesOf(d), b, salt, now).error))
    ensures r.result.Ok? ==>
      && d.patientId.Some? && d.password.Some?
      && (var id := StoreVarchar(d.patientId.value, PatientModel.PATIENT_ID_LENGTH);
          && r.result.value == id
          && r.table.Keys == t.Keys + {id}
          && r.table == t[id := PatientModel.Insert(t, PatientValuesOf(d), b, salt, now).value]
          && (d.password.value != "" && Sound(b) ==> r.table[id].passwordHash == b.hash(d.password.value, salt))
          && r.table[id].fingerprintTemplateId == FingerprintOrNull(d.fingerprintTemplateId))
  {
    if d.patientId.Some? && d.patientId.value in t then Step(Err(PatientIdAlreadyExists), t)
    else match PatientModel.Insert(t, PatientValuesOf(d), b, salt, now)
      case Err(e) => Step(Err(Database(e)), t)
      case Ok(p) => Step(Ok(p.patientId), t[p.patientId := p])
  }

  /** registerDoctor, the same for doctors. */
  function RegisterDoctor(t: DoctorModel.DoctorTable, d: DoctorRegistration, b: Bcrypt, salt: nat, now: Instant)
    : (r: Step<string, DoctorModel.DoctorTable>)
    ensures d.doctorId.Some? && d.doctorId.value in t ==> r == Step(Err(DoctorIdAlreadyExists), t)
    ensures r.result.Err? ==> r.table == t
    ensures r.result.Ok? <==> !(d.doctorId.Some? && d.doctorId.value in t) && DoctorModel.Insert(t, DoctorValuesOf(d), b, salt, now).Ok?
    ensures r.result.Err? && !(d.doctorId.Some? && d.doctorId.value in t) ==>
      r.result == Err(Database(DoctorModel.Insert(t, DoctorValuesOf(d), b, salt, now).error))
    ensures r.result.Ok? ==>
      && d.doctorId.Some? && d.password.Some?
      && (var id := StoreVarchar(d.doctorId.value, DoctorModel.DOCTOR_ID_LENGTH);
          && r.result.value == id
          && r.table.Keys == t.Keys + {id}
          && r.table == t[id := DoctorModel.Insert(t, DoctorValuesOf(d), b, salt, now).value]
          && (d.password.value != "" && Sound(b) ==> r.table[id].passwordHash == b.hash(d.password.value, salt))
          && !r.table[id].isVerified && r.table[id].isActive)
  {
    if d.doctorId.Some? && d.doctorId.value in t then Step(Err(DoctorIdAlreadyExists), t)
    else match DoctorModel.Insert(t, DoctorValuesOf(d), b, salt, now)
      case Err(e) => Step(Err(Database(e)), t)
      case Ok(p) => Step(Ok(p.doctorId), t[p.doctorId := p])
  }

  // ---------------------------------------------------------------------
  // Login
  // ---------------------------------------------------------------------

  function PatientProfileOf(p: PatientModel.Patient): PatientProfile {
    PatientProfile(p.patientId, p.name, p.dateOfBirth, p.phone, p.aadharNumber)
  }

  function DoctorProfileOf(d: DoctorModel.Doctor): DoctorProfile {
    DoctorProfile(d.doctorId, d.name, d.licenseNumber, d.specialization, d.hospitalName, d.isVerified)
  }

  /** loginPatient: an absent or undefined id and an inactive account give
      InvalidCredentials; on an active account an undefined password makes
      bcryptjs reject with IllegalArguments, and a wrong one gives
      InvalidCredentials. No failure changes the table; success stamps
      lastLogin and signs `{patientId, role: 'patient'}` for 24 hours. */
  function LoginPatient(t: PatientModel.PatientTable, patientId: Option<string>, password: Option<string>, b: Bcrypt,
                        jwt: Jwt<Claims>, now: Instant): (r: Step<Session<PatientProfile>, PatientModel.PatientTable>)
    ensures r.result.Err? ==> r.table == t
    ensures r.result.Ok? <==>
      && patientId.Some? && patientId.value in t && t[patientId.value].isActive
      && password.Some? && PatientModel.ComparePassword(b, t[patientId.value], password.value)
    ensures r.result == Err(IllegalArguments) <==>
      patientId.Some? && patientId.value in t && t[patientId.value].isActive && password.None?
    ensures r.result.Err? && r.result != Err(IllegalArguments) ==> r.result == Err(InvalidCredentials)
    ensures r.result.Ok? ==>
      var id := patientId.value;
      && r.table == t[id := PatientModel.Touched(t[id], now)]
      && r.table[id].lastLogin == Some(now)
      && r.table[id].passwordHash == t[id].passwordHash
      && r.result.value.token == jwt.sign(PatientClaims(t[id].patientId), TOKEN_TTL_SECONDS)
      && r.result.value.profile == PatientProfileOf(t[id])
      && (PatientModel.TableValid(t) ==>
            r.result.value.token == jwt.sign(PatientClaims(id), TOKEN_TTL_SECONDS)
            && r.result.value.profile.patientId == id)
  {
    if patientId.None? || patientId.value !in t || !t[patientId.value].isActive then Step(Err(InvalidCredentials), t)
    else
      var patient := t[patientId.value];
      if password.None? then Step(Err(IllegalArguments), t)
      else if !PatientModel.ComparePassword(b, patient, password.value) then Step(Err(InvalidCredentials), t)
      else
        var token := jwt.sign(PatientClaims(patient.patientId), TOKEN_TTL_SECONDS);
        Step(Ok(Session(token, PatientProfileOf(patient))), t[patientId.value := PatientModel.Touched(patient, now)])
  }

  /** loginDoctor, the same for doctors with `{doctorId, role: 'doctor'}`. */
  function LoginDoctor(t: DoctorModel.DoctorTable, doctorId: Option<string>, password: Option<string>, b: Bcrypt,
                        jwt: Jwt<Claims>, now: Instant): (r: Step<Session<DoctorProfile>, DoctorModel.DoctorTable>)
    ensures r.result.Err? ==> r.table == t
    ensures r.result.Ok? <==>
      && doctorId.Some? && doctorId.value in t && t[doctorId.value].isActive
      && password.Some? && DoctorModel.ComparePassword(b, t[doctorId.value], password.value)
    ensures r.result == Err(IllegalArguments) <==>
      doctorId.Some? && doctorId.value in t && t[doctorId.value].isActive && password.None?
    ensures r.result.Err? && r.result != Err(IllegalArguments) ==> r.result == Err(InvalidCredentials)
    ensures r.result.Ok? ==>
      var id := doctorId.value;
      && r.table == t[id := DoctorModel.Touched(t[id], now)]
      && r.table[id].lastLogin == Some(now)
      && r.table[id].passwordHash == t[id].passwordHash
      && r.result.value.token == jwt.sign(DoctorClaims(t[id].doctorId), TOKEN_TTL_SECONDS)
      && r.result.value.profile == DoctorProfileOf(t[id])
      && r.result.value.profile.doctorId == t[id].doctorId
      && (DoctorModel.TableValid(t) ==>
            r.result.value.token == jwt.sign(DoctorClaims(id), TOKEN_TTL_SECONDS)
            && r.result.value.profile.doctorId == id)
  {
    if doctorId.None? || doctorId.value !in t || !t[doctorId.value].isActive then Step(Err(InvalidCredentials), t)
    else
      var doctor := t[doctorId.value];
      if password.None? then Step(Err(IllegalArguments), t)
      else if !DoctorModel.ComparePassword(b, doctor, password.value) then Step(Err(InvalidCredentials), t)
      else
        var token := jwt.sign(DoctorClaims(doctor.doctorId), TOKEN_TTL_SECONDS);
        Step(Ok(Session(token, DoctorProfileOf(doctor))), t[doctorId.value := DoctorModel.Touched(doctor, now)])
  }

  // ---------------------------------------------------------------------
  // Tokens
  // ---------------------------------------------------------------------

  /** verifyToken: the decoded claims, or the single error InvalidToken. */
  function VerifyToken(jwt: Jwt<Claims>, token: string): (r: Result<Claims, AuthError>)
    ensures r.Ok? <==> jwt.verify(token).Some?
    ensures r.Ok? ==> jwt.verify(token) == Some(r.value)
    ensures r.Err? ==> r.error == InvalidToken
  {
    match jwt.verify(token)
    case Some(claims) => Ok(claims)
    case None => Err(InvalidToken)
  }

  // ---------------------------------------------------------------------
  // Properties across calls
  // ---------------------------------------------------------------------

  /** Whoever registered with a non-empty password can log in with the same
      id and password exactly when the id fits its column: a longer id that
      PostgreSQL accepted (its excess is spaces) is stored cut short, and the
      lookup with the id as given finds no row. A successful login's token
      verifies to that id with role 'patient'. */
  lemma RegisterThenLoginPatient(t: PatientModel.PatientTable, d: PatientRegistration, b: Bcrypt, salt: nat,
                                 jwt: Jwt<Claims>, now: Instant, later: Instant)
    requires Sound(b) && RoundTrips(jwt)
    requires RegisterPatient(t, d, b, salt, now).result.Ok?
    requires d.password.Some? && d.password.value != ""
    ensures var t' := RegisterPatient(t, d, b, salt, now).table;
      var login := LoginPatient(t', d.patientId, d.password, b, jwt, later);
      && (login.result.Ok? <==> |d.patientId.value| <= PatientModel.PATIENT_ID_LENGTH)
      && (login.result.Ok? ==>
            && VerifyToken(jwt, login.result.value.token) == Ok(PatientClaims(d.patientId.value))
            && VerifyToken(jwt, login.result.value.token).value.Role() == "patient")
  {
    var t' := RegisterPatient(t, d, b, salt, now).table;
    var id := d.patientId.value;
    var stored := StoreVarchar(id, PatientModel.PATIENT_ID_LENGTH);
    if |id| <= PatientModel.PATIENT_ID_LENGTH {
      assert stored == id;
      assert b.compare(d.password.value, b.hash(d.password.value, salt));
      assert PatientModel.ComparePassword(b, t'[id], d.password.value);
      assert jwt.verify(jwt.sign(PatientClaims(id), TOKEN_TTL_SECONDS)) == Some(PatientClaims(id));
    } else {
      assert |stored| != |id|;
      assert id !in t';
    }
  }


  /** Whoever registered with a non-empty password can log in with the same
      id and password exactly when the id fits its column: a longer id that
      PostgreSQL accepted (its excess is spaces) is stored cut short, and the
      lookup with the id as given finds no row. A successful login's token
      verifies to that id with role 'doctor'. */
  lemma RegisterThenLoginDoctor(t: DoctorModel.DoctorTable, d: DoctorRegistration, b: Bcrypt, salt: nat,
                                 jwt: Jwt<Claims>, now: Instant, later: Instant)
    requires Sound(b) && RoundTrips(jwt)
    requires RegisterDoctor(t, d, b, salt, now).result.Ok?
    requires d.password.Some? && d.password.value != ""
    ensures var t' := RegisterDoctor(t, d, b, salt, now).table;
      var login := LoginDoctor(t', d.doctorId, d.password, b, jwt, later);
      && (login.result.Ok? <==> |d.doctorId.value| <= DoctorModel.DOCTOR_ID_LENGTH)
      && (login.result.Ok? ==>
            && VerifyToken(jwt, login.result.value.token) == Ok(DoctorClaims(d.doctorId.value))
            && VerifyToken(jwt, login.result.value.token).value.Role() == "doctor")
  {
    var t' := RegisterDoctor(t, d, b, salt, now).table;
    var id := d.doctorId.value;
    var stored := StoreVarchar(id, DoctorModel.DOCTOR_ID_LENGTH);
    if |id| <= DoctorModel.DOCTOR_ID_LENGTH {
      assert stored == id;
      assert b.compare(d.password.value, b.hash(d.password.value, salt));
      assert DoctorModel.ComparePassword(b, t'[id], d.password.value);
      assert jwt.verify(jwt.sign(DoctorClaims(id), TOKEN_TTL_SECONDS)) == Some(DoctorClaims(id));
    } else {
      assert |stored| != |id|;
      assert id !in t';
    }
  }


  /** Registration and login keep the patients table's constraints. */
  lemma PatientCallsKeepTableValid(t: PatientModel.PatientTable, d: PatientRegistration, b: Bcrypt, salt: nat,
                                   jwt: Jwt<Claims>, now: Instant, patientId: Option<string>, password: Option<string>)
    requires PatientModel.TableValid(t)
    ensures PatientModel.TableValid(RegisterPatient(t, d, b, salt, now).table)
    ensures PatientModel.TableValid(LoginPatient(t, patientId, password, b, jwt, now).table)
  {
    if RegisterPatient(t, d, b, salt, now).result.Ok? {
      PatientModel.InsertKeepsTableValid(t, PatientValuesOf(d), b, salt, now);
    }
    if LoginPatient(t, patientId, password, b, jwt, now).result.Ok? {
      PatientModel.TouchKeepsTableValid(t, patientId.value, now);
    }
  }

  /** Registration and login keep the doctors table's constraints. */
  lemma DoctorCallsKeepTableValid(t: DoctorModel.DoctorTable, d: DoctorRegistration, b: Bcrypt, salt: nat,
                                  jwt: Jwt<Claims>, now: Instant, doctorId: Option<string>, password: Option<string>)
    requires DoctorModel.TableValid(t)
    ensures DoctorModel.TableValid(RegisterDoctor(t, d, b, salt, now).table)
    ensures DoctorModel.TableValid(LoginDoctor(t, doctorId, password, b, jwt, now).table)
  {
    if RegisterDoctor(t, d, b, salt, now).result.Ok? {
      DoctorModel.InsertKeepsTableValid(t, DoctorValuesOf(d), b, salt, now);
    }
    if LoginDoctor(t, doctorId, password, b, jwt, now).result.Ok? {
      DoctorModel.TouchKeepsTableValid(t, doctorId.value, now);
    }
  }
}
