/** AuthService's methods as the service writes them: look the id up, then
    create or update through the model's store. Each is proved to leave the
    store, and to return, exactly what the corresponding function of module
    Credentials says. */
module AuthService {
  import opened Primitives
  import opened Sql
  import opened Crypto
  import opened Credentials
  import PatientModel
  import DoctorModel

  method RegisterPatient(patients: PatientModel.PatientStore, patientData: PatientRegistration,
                         b: Bcrypt, salt: nat, now: Instant) returns (r: Result<string, AuthError>)
    modifies patients
    ensures Credentials.RegisterPatient(old(patients.rows), patientData, b, salt, now) == Step(r, patients.rows)
  {
    var existing := patients.FindByPk(patientData.patientId);
    if existing.Some? {
      return Err(PatientIdAlreadyExists);
    }
    var patient := patients.Create(PatientValuesOf(patientData), b, salt, now);
    if patient.Err? {
      return Err(Database(patient.error));
    }
    return Ok(patient.value.patientId);
  }

  method RegisterDoctor(doctors: DoctorModel.DoctorStore, doctorData: DoctorRegistration,
                        b: Bcrypt, salt: nat, now: Instant) returns (r: Result<string, AuthError>)
    modifies doctors
    ensures Credentials.RegisterDoctor(old(doctors.rows), doctorData, b, salt, now) == Step(r, doctors.rows)
  {
    var existing := doctors.FindByPk(doctorData.doctorId);
    if existing.Some? {
      return Err(DoctorIdAlreadyExists);
    }
    var doctor := doctors.Create(DoctorValuesOf(doctorData), b, salt, now);
    if doctor.Err? {
      return Err(Database(doctor.error));
    }
    return Ok(doctor.value.doctorId);
  }

  method LoginPatient(patients: PatientModel.PatientStore, patientId: Option<string>, password: Option<string>,
                      b: Bcrypt, jwt: Jwt<Claims>, now: Instant) returns (r: Result<Session<PatientProfile>, AuthError>)
    modifies patients
    ensures Credentials.LoginPatient(old(patients.rows), patientId, password, b, jwt, now) == Step(r, patients.rows)
  {
    var patient := patients.FindByPk(patientId);
    if patient.None? || !patient.value.isActive {
      return Err(InvalidCredentials);
    }
    if password.None? {
      return Err(IllegalArguments);
    }
    var isValid := PatientModel.ComparePassword(b, patient.value, password.value);
    if !isValid {
      return Err(InvalidCredentials);
    }
    patients.UpdateLastLogin(patientId.value, now);
    var token := jwt.sign(PatientClaims(patient.value.patientId), TOKEN_TTL_SECONDS);
    var p := patient.value;
    return Ok(Session(token, PatientProfile(p.patientId, p.name, p.dateOfBirth, p.phone, p.aadharNumber)));
  }

  method LoginDoctor(doctors: DoctorModel.DoctorStore, doctorId: Option<string>, password: Option<string>,
                     b: Bcrypt, jwt: Jwt<Claims>, now: Instant) returns (r: Result<Session<DoctorProfile>, AuthError>)
    modifies doctors
    ensures Credentials.LoginDoctor(old(doctors.rows), doctorId, password, b, jwt, now) == Step(r, doctors.rows)
  {
    var doctor := doctors.FindByPk(doctorId);
    if doctor.None? || !doctor.value.isActive {
      return Err(InvalidCredentials);
    }
    if password.None? {
      return Err(IllegalArguments);
    }
    var isValid := DoctorModel.ComparePassword(b, doctor.value, password.value);
    if !isValid {
      return Err(InvalidCredentials);
    }
    doctors.UpdateLastLogin(doctorId.value, now);
    var token := jwt.sign(DoctorClaims(doctor.value.doctorId), TOKEN_TTL_SECONDS);
    var d := doctor.value;
    return Ok(Session(token, DoctorProfile(d.doctorId, d.name, d.licenseNumber, d.specialization,
                                           d.hospitalName, d.isVerified)));
  }
}
