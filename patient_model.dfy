/** The Sequelize model `Patient` on table `patients`: the row shape and
    its column constraints, the `beforeCreate` hook that hashes the password,
    `comparePassword`, and the table itself as the store that `create` and
    `update` change. */
module PatientModel {
  import opened Primitives
  import opened Sql
  import opened Crypto

  const PATIENT_ID_LENGTH: nat := 20
  const NAME_LENGTH: nat := 255
  const PHONE_LENGTH: nat := 20
  const AADHAR_LENGTH: nat := 12
  const PASSWORD_HASH_LENGTH: nat := 255

  /** The attribute values passed to `Patient.create`; `None` is undefined or null. */
  datatype PatientValues = PatientValues(
    patientId: Option<string>, name: Option<string>, dateOfBirth: Option<string>,
    phone: Option<string>, aadharNumber: Option<string>, passwordHash: Option<string>,
    fingerprintTemplateId: Option<int>)

  /** A row of `patients`. */
  datatype Patient = Patient(
    patientId: string, name: string, dateOfBirth: string, phone: string,
    aadharNumber: string, passwordHash: string, fingerprintTemplateId: Option<int>,
    isActive: bool, lastLogin: Option<Instant>, createdAt: Instant, updatedAt: Instant)

  /** The table, keyed by its primary key. */
  type PatientTable = map<string, Patient>

  /** Every column value fits its declared SQL type. */
  predicate FitsSchema(p: Patient) {
    && |p.patientId| <= PATIENT_ID_LENGTH && |p.name| <= NAME_LENGTH && |p.phone| <= PHONE_LENGTH
    && |p.aadharNumber| <= AADHAR_LENGTH && |p.passwordHash| <= PASSWORD_HASH_LENGTH
    && (p.fingerprintTemplateId.Some? ==> INT4_MIN <= p.fingerprintTemplateId.value <= INT4_MAX)
  }

  /** Every column value is one PostgreSQL accepts for its declared type:
      VARCHAR values that fit, or whose excess is spaces, and an INT4 in range. */
  predicate Storable(p: Patient) {
    && FitsVarchar(p.patientId, PATIENT_ID_LENGTH) && FitsVarchar(p.name, NAME_LENGTH)
    && FitsVarchar(p.phone, PHONE_LENGTH) && FitsVarchar(p.aadharNumber, AADHAR_LENGTH)
    && FitsVarchar(p.passwordHash, PASSWORD_HASH_LENGTH)
    && (p.fingerprintTemplateId.Some? ==> INT4_MIN <= p.fingerprintTemplateId.value <= INT4_MAX)
  }

  /** The row as PostgreSQL stores it: each VARCHAR value cut to its bound. */
  function Stored(p: Patient): (r: Patient)
    ensures Storable(p) ==> FitsSchema(r)
    ensures FitsSchema(p) ==> r == p
    ensures r.(patientId := p.patientId, name := p.name, phone := p.phone,
               aadharNumber := p.aadharNumber, passwordHash := p.passwordHash) == p
  {
    p.(patientId := StoreVarchar(p.patientId, PATIENT_ID_LENGTH), name := StoreVarchar(p.name, NAME_LENGTH),
       phone := StoreVarchar(p.phone, PHONE_LENGTH), aadharNumber := StoreVarchar(p.aadharNumber, AADHAR_LENGTH),
       passwordHash := StoreVarchar(p.passwordHash, PASSWORD_HASH_LENGTH))
  }

  /** What the table's constraints guarantee: rows sit under their primary
      key, fit the schema, and no two rows share an Aadhar number. */
  predicate TableValid(t: PatientTable) {
    && (forall id | id in t :: t[id].patientId == id && FitsSchema(t[id]))
    && (forall a, b | a in t && b in t && a != b :: t[a].aadharNumber != t[b].aadharNumber)
  }

  predicate AadharTaken(t: PatientTable, aadhar: string) {
    exists id | id in t :: t[id].aadharNumber == aadhar
  }

  predicate Complete(v: PatientValues) {
    && v.patientId.Some? && v.name.Some? && v.dateOfBirth.Some? && v.phone.Some?
    && v.aadharNumber.Some? && v.passwordHash.Some?
  }

  /** The NOT NULL attributes without a value, in schema order (the primary
      key is NOT NULL implicitly). */
  function MissingValues(v: PatientValues): (r: seq<string>)
    ensures r == [] <==> Complete(v)
  {
    var cols := [("patientId", v.patientId.Some?), ("name", v.name.Some?),
                 ("dateOfBirth", v.dateOfBirth.Some?), ("phone", v.phone.Some?),
                 ("aadharNumber", v.aadharNumber.Some?), ("passwordHash", v.passwordHash.Some?)];
    assert Complete(v) <==> cols[0].1 && cols[1].1 && cols[2].1 && cols[3].1 && cols[4].1 && cols[5].1;
    MissingColumns(cols)
  }

  /** The `beforeCreate` hook: a truthy (non-empty) password is replaced by its
      bcrypt hash; an empty one is stored as it is. */
  function BeforeCreate(passwordHash: string, b: Bcrypt, salt: nat): (r: string)
    ensures passwordHash == "" ==> r == ""
    ensures passwordHash != "" ==> r == b.hash(passwordHash, salt)
    ensures Sound(b) && passwordHash != "" ==> b.compare(passwordHash, r)
  {
    if passwordHash != "" then b.hash(passwordHash, salt) else passwordHash
  }

  /** The row `create` builds once validation passed: the given values, the
      hooked password, `isActive` defaulted to true and both timestamps now. */
  function NewRow(v: PatientValues, b: Bcrypt, salt: nat, now: Instant): Patient
    requires Complete(v)
  {
    Patient(v.patientId.value, v.name.value, v.dateOfBirth.value, v.phone.value, v.aadharNumber.value,
            BeforeCreate(v.passwordHash.value, b, salt), v.fingerprintTemplateId, true, None, now, now)
  }

  /** The first column whose value PostgreSQL refuses for its type. */
  function SchemaError(p: Patient): (r: Option<DbError>)
    ensures r.None? <==> Storable(p)
  {
    var cols := [VarcharColumn("patientId", p.patientId, PATIENT_ID_LENGTH),
                 VarcharColumn("name", p.name, NAME_LENGTH),
                 VarcharColumn("phone", p.phone, PHONE_LENGTH),
                 VarcharColumn("aadharNumber", p.aadharNumber, AADHAR_LENGTH),
                 VarcharColumn("passwordHash", p.passwordHash, PASSWORD_HASH_LENGTH)];
    match FirstTooLong(cols)
    case Some(c) => Some(ValueTooLong(c))
    case None =>
      assert FitsVarchar(cols[0].value, cols[0].maxLength) && FitsVarchar(cols[1].value, cols[1].maxLength);
      assert FitsVarchar(cols[2].value, cols[2].maxLength) && FitsVarchar(cols[3].value, cols[3].maxLength);
      assert FitsVarchar(cols[4].value, cols[4].maxLength);
      if p.fingerprintTemplateId.Some? && !(INT4_MIN <= p.fingerprintTemplateId.value <= INT4_MAX)
      then Some(IntegerOutOfRange("fingerprintTemplateId"))
      else None
  }

  /** `Patient.create`: NOT NULL validation, then the hook, then the INSERT
      with its type checks, the storing of each value, and the primary-key
      and unique checks on the stored values. */
  function Insert(t: PatientTable, v: PatientValues, b: Bcrypt, salt: nat, now: Instant): (r: Result<Patient, DbError>)
    ensures !Complete(v) ==> r == Err(NotNullViolation(MissingValues(v)))
    ensures r.Ok? <==>
      && Complete(v) && Storable(NewRow(v, b, salt, now))
      && StoreVarchar(v.patientId.value, PATIENT_ID_LENGTH) !in t
      && !AadharTaken(t, StoreVarchar(v.aadharNumber.value, AADHAR_LENGTH))
    ensures r.Ok? ==>
      && FitsSchema(r.value)
      && r.value.patientId == StoreVarchar(v.patientId.value, PATIENT_ID_LENGTH)
      && r.value.name == StoreVarchar(v.name.value, NAME_LENGTH)
      && r.value.dateOfBirth == v.dateOfBirth.value
      && r.value.phone == StoreVarchar(v.phone.value, PHONE_LENGTH)
      && r.value.aadharNumber == StoreVarchar(v.aadharNumber.value, AADHAR_LENGTH)
      && r.value.fingerprintTemplateId == v.fingerprintTemplateId
      && (v.passwordHash.value != "" ==>
            r.value.passwordHash == StoreVarchar(b.hash(v.passwordHash.value, salt), PASSWORD_HASH_LENGTH))
      && (v.passwordHash.value != "" && Sound(b) ==> r.value.passwordHash == b.hash(v.passwordHash.value, salt))
      && (v.passwordHash.value == "" ==> r.value.passwordHash == "")
      && r.value.isActive && r.value.lastLogin == None
      && r.value.createdAt == now && r.value.updatedAt == now
  {
    var missing := MissingValues(v);
    if missing != [] then Err(NotNullViolation(missing))
    else
      var built := NewRow(v, b, salt, now);
      match SchemaError(built)
      case Some(e) => Err(e)
      case None =>
        var row := Stored(built);
        if row.patientId in t then Err(UniqueViolation("patientId"))
        else if AadharTaken(t, row.aadharNumber) then Err(UniqueViolation("aadharNumber"))
        else Ok(row)
  }

  /** An insert keeps the table's constraints. */
  lemma InsertKeepsTableValid(t: PatientTable, v: PatientValues, b: Bcrypt, salt: nat, now: Instant)
    requires TableValid(t)
    requires Insert(t, v, b, salt, now).Ok?
    ensures var p := Insert(t, v, b, salt, now).value;
      TableValid(t[p.patientId := p]) && t[p.patientId := p].Keys == t.Keys + {p.patientId}
  {
    var p := Insert(t, v, b, salt, now).value;
    var t' := t[p.patientId := p];
    forall a, c | a in t' && c in t' && a != c
      ensures t'[a].aadharNumber != t'[c].aadharNumber
    {
      if a == p.patientId {
        assert t'[c] == t[c];
      } else if c == p.patientId {
        assert t'[a] == t[a];
      }
    }
  }

  /** `update({ lastLogin: new Date() })`: sets lastLogin and the updatedAt
      timestamp, nothing else. */
  function Touched(p: Patient, now: Instant): (r: Patient)
    ensures r.lastLogin == Some(now) && r.updatedAt == now
    ensures r.(lastLogin := p.lastLogin, updatedAt := p.updatedAt) == p
    ensures FitsSchema(r) == FitsSchema(p)
  {
    p.(lastLogin := Some(now), updatedAt := now)
  }

  /** A login's update keeps the table's constraints and its keys. */
  lemma TouchKeepsTableValid(t: PatientTable, id: string, now: Instant)
    requires TableValid(t) && id in t
    ensures TableValid(t[id := Touched(t[id], now)]) && t[id := Touched(t[id], now)].Keys == t.Keys
  {
    var t' := t[id := Touched(t[id], now)];
    forall a, c | a in t' && c in t' && a != c
      ensures t'[a].aadharNumber != t'[c].aadharNumber
    {
      assert t'[a].aadharNumber == t[a].aadharNumber && t'[c].aadharNumber == t[c].aadharNumber;
    }
  }

  /** `comparePassword`: bcrypt's verdict on the candidate against the stored hash. */
  function ComparePassword(b: Bcrypt, p: Patient, password: string): (ok: bool)
    ensures Sound(b) ==> forall salt :: p.passwordHash == b.hash(password, salt) ==> ok
  {
    b.compare(password, p.passwordHash)
  }

  /** The password a patient was created with matches the stored row, and
      keeps matching after logins update the row. */
  lemma CreatedPasswordMatches(t: PatientTable, v: PatientValues, b: Bcrypt, salt: nat, now: Instant, later: Instant)
    requires Sound(b)
    requires Insert(t, v, b, salt, now).Ok? && v.passwordHash.value != ""
    ensures ComparePassword(b, Insert(t, v, b, salt, now).value, v.passwordHash.value)
    ensures ComparePassword(b, Touched(Insert(t, v, b, salt, now).value, later), v.passwordHash.value)
  {
    assert |b.hash(v.passwordHash.value, salt)| == BCRYPT_HASH_LENGTH;
    assert b.compare(v.passwordHash.value, b.hash(v.passwordHash.value, salt));
  }

  /** The `patients` table, which `create` and `update` change in place. */
  class PatientStore {
    var rows: PatientTable

    constructor(initial: PatientTable)
      ensures rows == initial
    {
      rows := initial;
    }

    /** `Patient.findByPk`: no row for an undefined key. */
    method FindByPk(id: Option<string>) returns (p: Option<Patient>)
      ensures p.Some? <==> id.Some? && id.value in rows
      ensures p.Some? ==> p.value == rows[id.value]
    {
      if id.Some? && id.value in rows {
        p := Some(rows[id.value]);
      } else {
        p := None;
      }
    }

    method Create(v: PatientValues, b: Bcrypt, salt: nat, now: Instant) returns (r: Result<Patient, DbError>)
      modifies this
      ensures r == Insert(old(rows), v, b, salt, now)
      ensures rows == if r.Ok? then old(rows)[r.value.patientId := r.value] else old(rows)
    {
      var missing := MissingValues(v);
      if missing != [] {
        return Err(NotNullViolation(missing));
      }
      var passwordHash := v.passwordHash.value;
      if passwordHash != "" {
        passwordHash := b.hash(passwordHash, salt);
      }
      var row := Patient(v.patientId.value, v.name.value, v.dateOfBirth.value, v.phone.value, v.aadharNumber.value,
                         passwordHash, v.fingerprintTemplateId, true, None, now, now);
      var e := SchemaError(row);
      if e.Some? {
        return Err(e.value);
      }
      row := Stored(row);
      if row.patientId in rows {
        return Err(UniqueViolation("patientId"));
      }
      if AadharTaken(rows, row.aadharNumber) {
        return Err(UniqueViolation("aadharNumber"));
      }
      rows := rows[row.patientId := row];
      return Ok(row);
    }

    /** `patient.update({ lastLogin })` on a row just read. */
    method UpdateLastLogin(id: string, now: Instant)
      requires id in rows
      modifies this
      ensures rows == old(rows)[id := Touched(old(rows)[id], now)]
    {
      rows := rows[id := Touched(rows[id], now)];
    }
  }
}
