/** The Sequelize model `Doctor` on table `doctors`: the row shape, its
    column constraints and defaults, the `beforeCreate` hook that hashes the
    password, `comparePassword`, and the table as the store that `create`
    and `update` change. */
module DoctorModel {
  import opened Primitives
  import opened Sql
  import opened Crypto

  const DOCTOR_ID_LENGTH: nat := 20
  const NAME_LENGTH: nat := 255
  const LICENSE_NUMBER_LENGTH: nat := 50
  const SPECIALIZATION_LENGTH: nat := 100
  const HOSPITAL_NAME_LENGTH: nat := 255
  const PASSWORD_HASH_LENGTH: nat := 255

  /** The attribute values passed to `Doctor.create`; `None` is undefined or null. */
  datatype DoctorValues = DoctorValues(
    doctorId: Option<string>, name: Option<string>, licenseNumber: Option<string>,
    specialization: Option<string>, hospitalName: Option<string>, passwordHash: Option<string>)

  /** A row of `doctors`. */
  datatype Doctor = Doctor(
    doctorId: string, name: string, licenseNumber: string, specialization: string,
    hospitalName: string, passwordHash: string, isVerified: bool, verifiedAt: Option<Instant>,
    isActive: bool, lastLogin: Option<Instant>, createdAt: Instant, updatedAt: Instant)

  /** The table, keyed by its primary key. */
  type DoctorTable = map<string, Doctor>

  /** Every column value fits its declared VARCHAR length. */
  predicate FitsSchema(d: Doctor) {
    && |d.doctorId| <= DOCTOR_ID_LENGTH && |d.name| <= NAME_LENGTH
    && |d.licenseNumber| <= LICENSE_NUMBER_LENGTH && |d.specialization| <= SPECIALIZATION_LENGTH
    && |d.hospitalName| <= HOSPITAL_NAME_LENGTH && |d.passwordHash| <= PASSWORD_HASH_LENGTH
  }

  /** Every column value is one PostgreSQL accepts for its VARCHAR: it fits,
      or its excess is spaces. */
  predicate Storable(d: Doctor) {
    && FitsVarchar(d.doctorId, DOCTOR_ID_LENGTH) && FitsVarchar(d.name, NAME_LENGTH)
    && FitsVarchar(d.licenseNumber, LICENSE_NUMBER_LENGTH) && FitsVarchar(d.specialization, SPECIALIZATION_LENGTH)
    && FitsVarchar(d.hospitalName, HOSPITAL_NAME_LENGTH) && FitsVarchar(d.passwordHash, PASSWORD_HASH_LENGTH)
  }

  /** The row as PostgreSQL stores it: each VARCHAR value cut to its bound. */
  function Stored(d: Doctor): (r: Doctor)
    ensures Storable(d) ==> FitsSchema(r)
    ensures FitsSchema(d) ==> r == d
    ensures r.(doctorId := d.doctorId, name := d.name, licenseNumber := d.licenseNumber,
               specialization := d.specialization, hospitalName := d.hospitalName,
               passwordHash := d.passwordHash) == d
  {
    d.(doctorId := StoreVarchar(d.doctorId, DOCTOR_ID_LENGTH), name := StoreVarchar(d.name, NAME_LENGTH),
       licenseNumber := StoreVarchar(d.licenseNumber, LICENSE_NUMBER_LENGTH),
       specialization := StoreVarchar(d.specialization, SPECIALIZATION_LENGTH),
       hospitalName := StoreVarchar(d.hospitalName, HOSPITAL_NAME_LENGTH),
       passwordHash := StoreVarchar(d.passwordHash, PASSWORD_HASH_LENGTH))
  }

  /** What the table's constraints guarantee: rows sit under their primary
      key, fit the schema, and no two rows share a license number. */
  predicate TableValid(t: DoctorTable) {
    && (forall id | id in t :: t[id].doctorId == id && FitsSchema(t[id]))
    && (forall a, b | a in t && b in t && a != b :: t[a].licenseNumber != t[b].licenseNumber)
  }

  predicate LicenseTaken(t: DoctorTable, licenseNumber: string) {
    exists id | id in t :: t[id].licenseNumber == licenseNumber
  }

  predicate Complete(v: DoctorValues) {
    && v.doctorId.Some? && v.name.Some? && v.licenseNumber.Some? && v.specialization.Some?
    && v.hospitalName.Some? && v.passwordHash.Some?
  }

  /** The NOT NULL attributes without a value, in schema order. */
  function MissingValues(v: DoctorValues): (r: seq<string>)
    ensures r == [] <==> Complete(v)
  {
    var cols := [("doctorId", v.doctorId.Some?), ("name", v.name.Some?),
                 ("licenseNumber", v.licenseNumber.Some?), ("specialization", v.specialization.Some?),
                 ("hospitalName", v.hospitalName.Some?), ("passwordHash", v.passwordHash.Some?)];
    assert Complete(v) <==> cols[0].1 && cols[1].1 && cols[2].1 && cols[3].1 && cols[4].1 && cols[5].1;
    MissingColumns(cols)
  }

  /** The `beforeCreate` hook: a truthy (non-empty) password is replaced by its
      bcrypt hash; an empty one is stored as it is. */
  function BeforeCreate(passwordHash: string, b: Bcrypt, salt: nat): (r: string)
    ensures passwordHash == "" ==> r == ""
    ensures passwordHash != "" ==> r == b.hash(passwordHash, salt)
    ensures Sound(b) && passwordHash != "" ==> b.compare(passwordHash, r)
  {
    if passwordHash != "" then b.hash(passwordHash, salt) else passwordHash
  }

  /** The row `create` builds once validation passed: the given values, the
      hooked password, the defaults `isVerified = false` and `isActive = true`,
      and both timestamps now. */
  function NewRow(v: DoctorValues, b: Bcrypt, salt: nat, now: Instant): Doctor
    requires Complete(v)
  {
    Doctor(v.doctorId.value, v.name.value, v.licenseNumber.value, v.specialization.value, v.hospitalName.value,
           BeforeCreate(v.passwordHash.value, b, salt), false, None, true, None, now, now)
  }

  /** The first column whose value PostgreSQL refuses for its type. */
  function SchemaError(d: Doctor): (r: Option<DbError>)
    ensures r.None? <==> Storable(d)
  {
    var cols := [VarcharColumn("doctorId", d.doctorId, DOCTOR_ID_LENGTH),
                 VarcharColumn("name", d.name, NAME_LENGTH),
                 VarcharColumn("licenseNumber", d.licenseNumber, LICENSE_NUMBER_LENGTH),
                 VarcharColumn("specialization", d.specialization, SPECIALIZATION_LENGTH),
                 VarcharColumn("hospitalName", d.hospitalName, HOSPITAL_NAME_LENGTH),
                 VarcharColumn("passwordHash", d.passwordHash, PASSWORD_HASH_LENGTH)];
    match FirstTooLong(cols)
    case Some(c) => Some(ValueTooLong(c))
    case None =>
      assert FitsVarchar(cols[0].value, cols[0].maxLength) && FitsVarchar(cols[1].value, cols[1].maxLength);
      assert FitsVarchar(cols[2].value, cols[2].maxLength) && FitsVarchar(cols[3].value, cols[3].maxLength);
      assert FitsVarchar(cols[4].value, cols[4].maxLength) && FitsVarchar(cols[5].value, cols[5].maxLength);
      None
  }

  /** `Doctor.create`: NOT NULL validation, then the hook, then the INSERT
      with its type checks, the storing of each value, and the primary-key
      and unique checks on the stored values. */
  function Insert(t: DoctorTable, v: DoctorValues, b: Bcrypt, salt: nat, now: Instant): (r: Result<Doctor, DbError>)
    ensures !Complete(v) ==> r == Err(NotNullViolation(MissingValues(v)))
    ensures r.Ok? <==>
      && Complete(v) && Storable(NewRow(v, b, salt, now))
      && StoreVarchar(v.doctorId.value, DOCTOR_ID_LENGTH) !in t
      && !LicenseTaken(t, StoreVarchar(v.licenseNumber.value, LICENSE_NUMBER_LENGTH))
    ensures r.Ok? ==>
      && FitsSchema(r.value)
      && r.value.doctorId == StoreVarchar(v.doctorId.value, DOCTOR_ID_LENGTH)
      && r.value.name == StoreVarchar(v.name.value, NAME_LENGTH)
      && r.value.licenseNumber == StoreVarchar(v.licenseNumber.value, LICENSE_NUMBER_LENGTH)
      && r.value.specialization == StoreVarchar(v.specialization.value, SPECIALIZATION_LENGTH)
      && r.value.hospitalName == StoreVarchar(v.hospitalName.value, HOSPITAL_NAME_LENGTH)
      && (v.passwordHash.value != "" ==>
            r.value.passwordHash == StoreVarchar(b.hash(v.passwordHash.value, salt), PASSWORD_HASH_LENGTH))
      && (v.passwordHash.value != "" && Sound(b) ==> r.value.passwordHash == b.hash(v.passwordHash.value, salt))
      && (v.passwordHash.value == "" ==> r.value.passwordHash == "")
      && !r.value.isVerified && r.value.verifiedAt == None
      && r.value.isActive && r.value.lastLogin == None
      && r.value.createdAt == now && r.value.updatedAt == now
  {
    var missing := MissingValues(v);
    if missing != [] then Err(NotNullViolation(missing))
    else
      var built := NewRow(v, b, salt, now);
      match SchemaError(built)
      case Some(e) => Err(e)
      case None =>
        var row := Stored(built);
        if row.doctorId in t then Err(UniqueViolation("doctorId"))
        else if LicenseTaken(t, row.licenseNumber) then Err(UniqueViolation("licenseNumber"))
        else Ok(row)
  }

  /** An insert keeps the table's constraints. */
  lemma InsertKeepsTableValid(t: DoctorTable, v: DoctorValues, b: Bcrypt, salt: nat, now: Instant)
    requires TableValid(t)
    requires Insert(t, v, b, salt, now).Ok?
    ensures var d := Insert(t, v, b, salt, now).value;
      TableValid(t[d.doctorId := d]) && t[d.doctorId := d].Keys == t.Keys + {d.doctorId}
  {
    var d := Insert(t, v, b, salt, now).value;
    var t' := t[d.doctorId := d];
    forall a, c | a in t' && c in t' && a != c
      ensures t'[a].licenseNumber != t'[c].licenseNumber
    {
      if a == d.doctorId {
        assert t'[c] == t[c];
      } else if c == d.doctorId {
        assert t'[a] == t[a];
      }
    }
  }

  /** `update({ lastLogin: new Date() })`: sets lastLogin and the updatedAt
      timestamp, nothing else. */
  function Touched(d: Doctor, now: Instant): (r: Doctor)
    ensures r.lastLogin == Some(now) && r.updatedAt == now
    ensures r.(lastLogin := d.lastLogin, updatedAt := d.updatedAt) == d
    ensures FitsSchema(r) == FitsSchema(d)
  {
    d.(lastLogin := Some(now), updatedAt := now)
  }

  /** A login's update keeps the table's constraints and its keys. */
  lemma TouchKeepsTableValid(t: DoctorTable, id: string, now: Instant)
    requires TableValid(t) && id in t
    ensures TableValid(t[id := Touched(t[id], now)]) && t[id := Touched(t[id], now)].Keys == t.Keys
  {
    var t' := t[id := Touched(t[id], now)];
    forall a, c | a in t' && c in t' && a != c
      ensures t'[a].licenseNumber != t'[c].licenseNumber
    {
      assert t'[a].licenseNumber == t[a].licenseNumber && t'[c].licenseNumber == t[c].licenseNumber;
    }
  }

  /** `comparePassword`: bcrypt's verdict on the candidate against the stored hash. */
  function ComparePassword(b: Bcrypt, d: Doctor, password: string): (ok: bool)
    ensures Sound(b) ==> forall salt :: d.passwordHash == b.hash(password, salt) ==> ok
  {
    b.compare(password, d.passwordHash)
  }

  /** The password a doctor was created with matches the stored row, and
      keeps matching after logins update the row. */
  lemma CreatedPasswordMatches(t: DoctorTable, v: DoctorValues, b: Bcrypt, salt: nat, now: Instant, later: Instant)
    requires Sound(b)
    requires Insert(t, v, b, salt, now).Ok? && v.passwordHash.value != ""
    ensures ComparePassword(b, Insert(t, v, b, salt, now).value, v.passwordHash.value)
    ensures ComparePassword(b, Touched(Insert(t, v, b, salt, now).value, later), v.passwordHash.value)
  {
    assert |b.hash(v.passwordHash.value, salt)| == BCRYPT_HASH_LENGTH;
    assert b.compare(v.passwordHash.value, b.hash(v.passwordHash.value, salt));
  }

  /** The `doctors` table, which `create` and `update` change in place. */
  class DoctorStore {
    var rows: DoctorTable

    constructor(initial: DoctorTable)
      ensures rows == initial
    {
      rows := initial;
    }

    /** `Doctor.findByPk`: no row for an undefined key. */
    method FindByPk(id: Option<string>) returns (d: Option<Doctor>)
      ensures d.Some? <==> id.Some? && id.value in rows
      ensures d.Some? ==> d.value == rows[id.value]
    {
      if id.Some? && id.value in rows {
        d := Some(rows[id.value]);
      } else {
        d := None;
      }
    }

    method Create(v: DoctorValues, b: Bcrypt, salt: nat, now: Instant) returns (r: Result<Doctor, DbError>)
      modifies this
      ensures r == Insert(old(rows), v, b, salt, now)
      ensures rows == if r.Ok? then old(rows)[r.value.doctorId := r.value] else old(rows)
    {
      var missing := MissingValues(v);
      if missing != [] {
        return Err(NotNullViolation(missing));
      }
      var passwordHash := v.passwordHash.value;
      if passwordHash != "" {
        passwordHash := b.hash(passwordHash, salt);
      }
      var row := Doctor(v.doctorId.value, v.name.value, v.licenseNumber.value, v.specialization.value,
                        v.hospitalName.value, passwordHash, false, None, true, None, now, now);
      var e := SchemaError(row);
      if e.Some? {
        return Err(e.value);
      }
      row := Stored(row);
      if row.doctorId in rows {
        return Err(UniqueViolation("doctorId"));
      }
      if LicenseTaken(rows, row.licenseNumber) {
        return Err(UniqueViolation("licenseNumber"));
      }
      rows := rows[row.doctorId := row];
      return Ok(row);
    }

    /** `doctor.update({ lastLogin })` on a row just read. */
    method UpdateLastLogin(id: string, now: Instant)
      requires id in rows
      modifies this
      ensures rows == old(rows)[id := Touched(old(rows)[id], now)]
    {
      rows := rows[id := Touched(rows[id], now)];
    }
  }
}
