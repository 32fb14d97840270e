# Healthcare records ledger and credential backend — a Dafny model

This project models the logic of a healthcare-records system that has two parts:

- a Hyperledger Fabric chaincode, which keeps patients, doctors, time-bound
  access grants and an audit trail in a key/value world state;
- a Node.js backend, which stores login credentials in PostgreSQL through
  Sequelize, issues JWT session tokens, guards routes with a bearer-token
  middleware and caches one Fabric gateway per identity.

## The chaincode

- **State.** The world state is a `map<string, Document>`. Patients live under
  `patient:<id>`, doctors under `doctor:<id>`, grants under
  `access:<p>:<d>:<second>` and audit entries under `log:<second>:<p>:<d>`.
- **Decoding.** Go's lenient `json.Unmarshal` is modelled as total `Decode*`
  projections. A document of another kind decodes to zero values, as Go does.
- **Transactions.** Every transaction is a function from a world state and a
  transaction context (time, caller MSP ID, transaction ID) to a result and a
  new world state. Each contract says what is written, what error is returned
  and that no other key changes (`OnlyChanged`).
- **Stub layer.** Module `Chaincode` is imperative. It is a `Stub` class with
  `GetState`/`PutState`, and handler methods that do what the Go functions do,
  step by step. Each method is proved equal to its function in module `Ledger`.
- **Invariant.** `LedgerState.Valid` says every key holds a document of its
  family whose identifiers match the key. It also says every grant names a
  registered patient and a verified doctor. `ApplyKeepsValid` proves that every
  transaction, with revocation in its corrected form (`RevokeAccessChecked`),
  preserves it and never un-registers a patient or un-verifies a doctor. The
  as-written `RevokeAccess` does not preserve it (see Findings).
- **Integers.** Go's int64 arithmetic (`now + hours*3600`,
  `expiryTime - now`) wraps explicitly through `Wrap64`. `len()` on a string
  counts UTF-8 bytes (`Utf8Len`).

## The backend

- **Tables.** The Sequelize models are a table (`map` from primary key to
  row) with the NOT NULL checks, the `beforeCreate` hashing hook, the
  VARCHAR checks and the primary-key/unique checks in that order. As in
  PostgreSQL, a value longer than its VARCHAR(n) is refused unless the
  excess is all spaces, in which case it is stored cut to n characters; the
  key and unique checks then see the stored values.
- **Store classes.** `PatientStore`/`DoctorStore` own the rows that
  `create` and `update` change.
- **AuthService.** The AuthService methods are proved equal to pure functions
  in `Credentials`, and those functions carry the service's promises.
- **Crypto.** bcrypt and JWT are opaque function pairs. bcrypt's laws are
  `compare(p, hash(p, salt))` and that every hash is 60 characters long;
  JWT's is `verify(sign(c, ttl)) == Some(c)`.
- **Middleware.** The middleware is a pure decision (`Decide`) and a method
  that writes `req.user`, the response status and error, or calls `next`.
- **Gateway cache.** The cache in `network.js` is a class over a map of
  `Gateway` objects. Whether a Fabric connect succeeds is a parameter.

## Model

| member | source | states |
|---|---|---|
| Primitives.Wrap64 | Blockchain/chaincode/healthcare/healthcare-chaincode.go:265 | the result is in the int64 range, congruent to the input modulo 2^64, and equal to it when it is in range |
| Primitives.FormatInt | Blockchain/chaincode/healthcare/healthcare-chaincode.go:264 | Go's `%d`: a non-empty string of decimal digits, led by '-' exactly when the number is negative |
| Primitives.Digits | Blockchain/chaincode/healthcare/healthcare-chaincode.go:264 | the decimal digits of a natural number, which read back as that number |
| Primitives.FormatIntRoundTrip | Blockchain/chaincode/healthcare/healthcare-chaincode.go:264 | reading Go's `%d` text back gives the number |
| Primitives.FormatIntInjective | Blockchain/chaincode/healthcare/healthcare-chaincode.go:264 | distinct numbers format to distinct text |
| Primitives.FormatIntPrefix | Blockchain/chaincode/healthcare/healthcare-chaincode.go:420 | a `%d` text followed by a non-digit determines the number and the rest of the string |
| Primitives.Utf8Len | Blockchain/chaincode/healthcare/healthcare-chaincode.go:76 | Go's byte length of a string lies between its rune count and four times that, and is 0 only for the empty string |
| Primitives.AsciiUtf8Len | Blockchain/chaincode/healthcare/healthcare-chaincode.go:76 | the byte length equals the character count exactly when the text is ASCII: a 12-digit Aadhar passes the check, and any non-ASCII character makes the byte count exceed the character count |
| LedgerState.AccessKeySeparatesSeconds | Blockchain/chaincode/healthcare/healthcare-chaincode.go:264 | a patient's grants to one doctor made in different seconds get different keys |
| LedgerState.LogKeySeparatesSeconds | Blockchain/chaincode/healthcare/healthcare-chaincode.go:420 | audit entries written in different seconds get different keys, whatever the patient and doctor |
| LedgerState.DecodePatient | Blockchain/chaincode/healthcare/healthcare-chaincode.go:134 | a patient document decodes to its own record; any other document decodes with no Aadhar number and fingerprint ID 0 |
| LedgerState.DecodeDoctor | Blockchain/chaincode/healthcare/healthcare-chaincode.go:230 | a doctor document decodes to its own record; any other document decodes as an unverified doctor |
| LedgerState.DecodeAccess | Blockchain/chaincode/healthcare/healthcare-chaincode.go:41-52 | an access document decodes to its own record; any other document decodes as unrevoked with expiry 0 |
| LedgerState.DecodeAuditLog | Blockchain/chaincode/healthcare/healthcare-chaincode.go:55-64 | an audit document decodes to its own entry; any other document decodes to an entry with no action |
| LedgerState.KeyFamilies | Blockchain/chaincode/healthcare/healthcare-chaincode.go:81 | the four key families never collide, and a patient or doctor key determines its identifier |
| Ledger.WithAuditLog | Blockchain/chaincode/healthcare/healthcare-chaincode.go:416-443 | createAuditLog writes one entry, under `log:<now>:<p>:<d>` with the caller's MSP and transaction ID, and changes no other key |
| Ledger.RegisterPatient | Blockchain/chaincode/healthcare/healthcare-chaincode.go:71-118 | fails with no write iff the ID or name is empty or the Aadhar is not 12 bytes, or iff the key exists; otherwise stores exactly the given fields with the transaction time and the caller MSP, logs REGISTER_PATIENT with details "Patient registered by <MSP>" and changes nothing else |
| Ledger.GetPatient | Blockchain/chaincode/healthcare/healthcare-chaincode.go:121-140 | succeeds iff `patient:<id>` exists, returns the stored patient, and otherwise fails with "does not exist" |
| Ledger.RegisterDoctor | Blockchain/chaincode/healthcare/healthcare-chaincode.go:147-185 | rejects an empty ID, name or license and a duplicate, with no write; otherwise stores the doctor unverified, logs REGISTER_DOCTOR with details "Doctor registered by <MSP>" and changes nothing else |
| Ledger.GetDoctor | Blockchain/chaincode/healthcare/healthcare-chaincode.go:217-236 | succeeds iff `doctor:<id>` exists, returns the stored doctor, and otherwise fails with "does not exist" |
| Ledger.VerifyDoctor | Blockchain/chaincode/healthcare/healthcare-chaincode.go:188-214 | fails unless the caller MSP is exactly AuditOrgMSP and the doctor exists; otherwise sets `verified` and keeps every other doctor field, logs VERIFY_DOCTOR with details "Doctor verified by AuditOrg" and changes nothing else |
| Ledger.GrantAccess | Blockchain/chaincode/healthcare/healthcare-chaincode.go:243-292 | fails, in this order, for a missing patient, a missing doctor and an unverified doctor; otherwise returns and stores `access:<p>:<d>:<now>`, unrevoked, granted now and expiring at now + hours·3600 (exact when no int64 overflow), logs GRANT_ACCESS with details "Access granted for <hours> hours: <purpose>" and changes nothing else |
| Ledger.RevokeAccess | Blockchain/chaincode/healthcare/healthcare-chaincode.go:295-327 | as written: fails on a missing key and on an already revoked record; otherwise sets revoked and revokedAt = now on whatever the key decodes to, and logs REVOKE_ACCESS with details "Access manually revoked" |
| Ledger.RevokeAccessChecked | Blockchain/chaincode/healthcare/healthcare-chaincode.go:298-321 | corrected revocation: a key that holds no grant is "not found"; an unrevoked grant is stored back under its key with revoked set and revokedAt the transaction time, and logged with details "Access manually revoked", and nothing else changes |
| Ledger.CheckAccessValidity | Blockchain/chaincode/healthcare/healthcare-chaincode.go:330-373 | each outcome holds iff its condition holds: not found, then revoked, then expired iff now > expiry, then valid; a valid result reports expiresIn = expiry − now ≥ 0 |
| Ledger.ActiveAccesses | Blockchain/chaincode/healthcare/healthcare-chaincode.go:391-407 | the loop's result over the query hits: at most one record per hit, and every record it keeps has now ≤ expiry |
| Ledger.ActiveAccessesExact | Blockchain/chaincode/healthcare/healthcare-chaincode.go:376-410 | the active-access list holds exactly the stored grants of the patient that are unrevoked with now ≤ expiry |
| Ledger.AuditTrailAsWritten | Blockchain/chaincode/healthcare/healthcare-chaincode.go:446-473 | as written: one entry per query hit, in order, each the hit decoded as an audit entry |
| Ledger.AuditTrail | Blockchain/chaincode/healthcare/healthcare-chaincode.go:446-473 | the corrected trail over the query hits: at most one entry per hit, and every entry is an audit document stored in the ledger |
| Ledger.AuditTrailExact | Blockchain/chaincode/healthcare/healthcare-chaincode.go:446-473 | the corrected trail holds exactly the stored audit entries of the patient |
| LedgerProperties.ApplyKeepsValid | Blockchain/chaincode/healthcare/healthcare-chaincode.go:71-327 | every transaction, with revocation in its corrected form (RevokeAccessChecked), keeps the world state well formed, and registered patients and verified doctors stay so |
| LedgerProperties.RegisterPatientThenGet | Blockchain/chaincode/healthcare/healthcare-chaincode.go:71-140 | a registered patient reads back with exactly the registered fields, and registering the ID again fails |
| LedgerProperties.RegisterDoctorThenGet | Blockchain/chaincode/healthcare/healthcare-chaincode.go:147-292 | a new doctor reads back unverified, and any grant to them fails |
| LedgerProperties.VerifyDoctorIdempotent | Blockchain/chaincode/healthcare/healthcare-chaincode.go:188-214 | verifying again succeeds and leaves the doctor as the first verification left it, still verified |
| LedgerProperties.GrantThenCheck | Blockchain/chaincode/healthcare/healthcare-chaincode.go:243-373 | for any duration, including a negative one (it is never checked), a fresh grant is valid iff the check time ≤ expiry and expired iff it is later; with a non-negative duration it is valid at its grant time with expiresIn = hours·3600 |
| LedgerProperties.RevokeThenCheck | Blockchain/chaincode/healthcare/healthcare-chaincode.go:295-373 | after a revocation the grant reports revoked at the revocation time whenever it is checked, and a second revocation fails with "already revoked" |
| LedgerProperties.ActiveAccessStored | Blockchain/chaincode/healthcare/healthcare-chaincode.go:376-410 | every listed active grant is stored under its own access key, belongs to the queried patient, is unrevoked and has now ≤ expiry |
| LedgerProperties.ActiveAccessesAreValid | Blockchain/chaincode/healthcare/healthcare-chaincode.go:376-410 | every listed active grant passes CheckAccessValidity at the same time |
| LedgerProperties.RevokeAccessUnverifiesDoctor | Blockchain/chaincode/healthcare/healthcare-chaincode.go:298-318 | revoking `doctor:<id>` of a verified doctor succeeds, un-verifies the doctor, blanks the doctor's fields and breaks the ledger invariant |
| LedgerProperties.RevokeAccessCheckedRefusesDoctorKey | Blockchain/chaincode/healthcare/healthcare-chaincode.go:298-303 | the corrected revocation returns "not found" for a doctor key and leaves the ledger unchanged |
| LedgerProperties.AuditTrailAsWrittenIncludesPatient | Blockchain/chaincode/healthcare/healthcare-chaincode.go:449-469 | the as-written trail of a registered patient contains a blank entry decoded from the patient's own record; the corrected trail does not |
| LedgerProperties.SameSecondRevokeReplacesGrantLog | Blockchain/chaincode/healthcare/healthcare-chaincode.go:420 | a revocation in the same second as its grant overwrites the grant's audit entry |
| Chaincode.Stub.GetState | Blockchain/chaincode/healthcare/healthcare-chaincode.go:82 | returns a document iff the key is present, and then the stored one |
| Chaincode.CreateAuditLog | Blockchain/chaincode/healthcare/healthcare-chaincode.go:416-443 | the stub's new state is the one Ledger.WithAuditLog gives |
| Chaincode.RegisterPatient | Blockchain/chaincode/healthcare/healthcare-chaincode.go:71-118 | result and new state are those of Ledger.RegisterPatient |
| Chaincode.GetPatient | Blockchain/chaincode/healthcare/healthcare-chaincode.go:121-140 | the result is that of Ledger.GetPatient, and nothing changes |
| Chaincode.RegisterDoctor | Blockchain/chaincode/healthcare/healthcare-chaincode.go:147-185 | result and new state are those of Ledger.RegisterDoctor |
| Chaincode.GetDoctor | Blockchain/chaincode/healthcare/healthcare-chaincode.go:217-236 | the result is that of Ledger.GetDoctor, and nothing changes |
| Chaincode.VerifyDoctor | Blockchain/chaincode/healthcare/healthcare-chaincode.go:188-214 | result and new state are those of Ledger.VerifyDoctor |
| Chaincode.GrantAccess | Blockchain/chaincode/healthcare/healthcare-chaincode.go:243-292 | result and new state are those of Ledger.GrantAccess |
| Chaincode.RevokeAccess | Blockchain/chaincode/healthcare/healthcare-chaincode.go:295-327 | result and new state are those of the as-written Ledger.RevokeAccess |
| Chaincode.CheckAccessValidity | Blockchain/chaincode/healthcare/healthcare-chaincode.go:330-373 | the result is that of Ledger.CheckAccessValidity, and nothing changes |
| Chaincode.GetActiveAccessesForPatient | Blockchain/chaincode/healthcare/healthcare-chaincode.go:376-410 | the loop returns Ledger.ActiveAccesses of the hits, which is exactly the patient's unrevoked, unexpired grants |
| Chaincode.GetAuditTrail | Blockchain/chaincode/healthcare/healthcare-chaincode.go:446-473 | the loop returns Ledger.AuditTrailAsWritten of the hits |
| Sql.StoreVarchar | backend/src/models/Patient.js:5-34 | the stored VARCHAR(n) value is a prefix of the given one of at most n characters, the whole value when it fits, n characters when it does not, and only spaces are dropped from a value PostgreSQL accepts |
| Sql.FirstTooLong | backend/src/models/Patient.js:5-34 | names no column iff PostgreSQL accepts every value for its VARCHAR (it fits, or its excess is spaces), and otherwise names a column whose value it refuses |
| Sql.MissingColumns | backend/src/models/Patient.js:11-33 | empty iff every NOT NULL attribute has a value |
| PatientModel.MissingValues | backend/src/models/Patient.js:11-33 | empty iff all six NOT NULL attributes are present |
| PatientModel.SchemaError | backend/src/models/Patient.js:6-34 | none iff PostgreSQL accepts every column value: each VARCHAR fits or has only spaces past its bound, and the fingerprint ID is in the INT4 range |
| PatientModel.Stored | backend/src/models/Patient.js:6-34 | storing an accepted row gives one within the declared lengths, leaves a row already within them unchanged, and touches only the VARCHAR columns |
| PatientModel.BeforeCreate | backend/src/models/Patient.js:57-61 | the beforeCreate hook keeps an empty password, and otherwise stores a bcrypt hash that compares true against the password |
| PatientModel.ComparePassword | backend/src/models/Patient.js:64-66 | comparePassword accepts the password whenever the stored hash is a hash of it under some salt |
| PatientModel.Insert | backend/src/models/Patient.js:5-61 | NOT NULL errors first; succeeds iff the values are complete, PostgreSQL accepts the hooked row, and the stored primary key and stored Aadhar number are both new; the row is within the schema, holds each given value as its column stores it, a non-empty password hashed once (the hash itself under a sound bcrypt) and an empty one kept, isActive true, lastLogin empty and both timestamps now |
| PatientModel.InsertKeepsTableValid | backend/src/models/Patient.js:6-29 | a successful insert keeps rows under their own key, within the schema and with unique Aadhar numbers, and adds exactly one key |
| PatientModel.Touched | backend/src/services/auth.service.js:70 | the login update sets lastLogin and updatedAt to now, changes no other field and keeps the row within the schema |
| PatientModel.TouchKeepsTableValid | backend/src/services/auth.service.js:70 | the login update of a present row keeps the table's keys and its key and uniqueness constraints |
| PatientModel.CreatedPasswordMatches | backend/src/models/Patient.js:57-66 | a created patient's password passes comparePassword, before and after a login updates the row |
| PatientModel.PatientStore.FindByPk | backend/src/services/auth.service.js:14 | finds a row iff the key is given and present, and returns that row |
| PatientModel.PatientStore.Create | backend/src/services/auth.service.js:20-28 | returns PatientModel.Insert's result and adds exactly that row on success, and nothing on failure |
| PatientModel.PatientStore.UpdateLastLogin | backend/src/services/auth.service.js:70 | only that row's lastLogin and updatedAt change |
| DoctorModel.MissingValues | backend/src/models/Doctor.js:5-59 | empty iff all six NOT NULL attributes are present |
| DoctorModel.SchemaError | backend/src/models/Doctor.js:5-59 | none iff PostgreSQL accepts every column value: each VARCHAR fits or has only spaces past its bound |
| DoctorModel.Stored | backend/src/models/Doctor.js:5-59 | storing an accepted row gives one within the declared lengths, leaves a row already within them unchanged, and touches only the VARCHAR columns |
| DoctorModel.BeforeCreate | backend/src/models/Doctor.js:62-66 | the beforeCreate hook keeps an empty password, and otherwise stores a bcrypt hash that compares true against the password |
| DoctorModel.ComparePassword | backend/src/models/Doctor.js:69-71 | comparePassword accepts the password whenever the stored hash is a hash of it under some salt |
| DoctorModel.Insert | backend/src/models/Doctor.js:5-66 | NOT NULL errors first; succeeds iff the values are complete, PostgreSQL accepts the hooked row, and the stored primary key and stored license number are both new; the row is within the schema, holds each given value as its column stores it, and the new doctor is unverified, with no verifiedAt, active, with a password hashed once when non-empty (the hash itself under a sound bcrypt) |
| DoctorModel.InsertKeepsTableValid | backend/src/models/Doctor.js:15-20 | a successful insert keeps the license numbers unique and rows under their key, and adds exactly one key |
| DoctorModel.Touched | backend/src/services/auth.service.js:105 | the login update sets lastLogin and updatedAt to now, changes no other field and keeps the row within the schema |
| DoctorModel.TouchKeepsTableValid | backend/src/services/auth.service.js:105 | the login update of a present row keeps the table's keys and its key and uniqueness constraints |
| DoctorModel.CreatedPasswordMatches | backend/src/models/Doctor.js:62-71 | a created doctor's password passes comparePassword, before and after a login updates the row |
| DoctorModel.DoctorStore.FindByPk | backend/src/services/auth.service.js:38 | finds a row iff the key is given and present, and returns that row |
| DoctorModel.DoctorStore.Create | backend/src/services/auth.service.js:44-51 | returns DoctorModel.Insert's result and adds exactly that row on success, and nothing on failure |
| DoctorModel.DoctorStore.UpdateLastLogin | backend/src/services/auth.service.js:105 | only that row's lastLogin and updatedAt change |
| Credentials.FingerprintOrNull | backend/src/services/auth.service.js:27 | `x \|\| null`: a missing or zero fingerprint ID becomes null, and any other is kept |
| Credentials.RegisterPatient | backend/src/services/auth.service.js:10-31 | an ID already present exactly as given fails with "Patient ID already exists" and no change; otherwise succeeds iff the insert does; on success adds exactly one row, under the ID as its column stores it, with the password hashed, and returns only that stored ID; a database error leaves the table unchanged |
| Credentials.RegisterDoctor | backend/src/services/auth.service.js:34-54 | the same for doctors, and the new doctor is unverified and active |
| Credentials.LoginPatient | backend/src/services/auth.service.js:57-89 | succeeds iff the ID is given and present, the account is active, and a password is given and matches; an active account with no password fails with IllegalArguments, as bcryptjs's compare does; every other failure is the same InvalidCredentials; no failure changes the table; success sets lastLogin and updatedAt to now and nothing else, signs `{patientId, role 'patient'}` for 24 h, and returns the row's patientId, name, dateOfBirth, phone and aadharNumber as the profile, with no password |
| Credentials.LoginDoctor | backend/src/services/auth.service.js:92-125 | the same for doctors, with `{doctorId, role 'doctor'}` and a profile of the row's doctorId, name, licenseNumber, specialization, hospitalName and isVerified |
| Credentials.VerifyToken | backend/src/services/auth.service.js:128-134 | returns the decoded claims iff the token verifies; every failure is the single InvalidToken |
| Credentials.RegisterThenLoginPatient | backend/src/services/auth.service.js:10-89 | a patient registered with a non-empty password can log in with the same ID and password exactly when the ID is at most 20 characters (a longer, space-padded ID was stored cut short), and the token then verifies to their ID with role patient |
| Credentials.RegisterThenLoginDoctor | backend/src/services/auth.service.js:34-125 | a doctor registered with a non-empty password can log in with the same ID and password exactly when the ID is at most 20 characters, and the token then verifies to their ID with role doctor |
| Credentials.PatientCallsKeepTableValid | backend/src/models/Patient.js:6-29 | registration and login keep the patients table's key and uniqueness constraints |
| Credentials.DoctorCallsKeepTableValid | backend/src/models/Doctor.js:5-20 | registration and login keep the doctors table's key and uniqueness constraints |
| AuthService.RegisterPatient | backend/src/services/auth.service.js:10-31 | result and new table are those of Credentials.RegisterPatient |
| AuthService.RegisterDoctor | backend/src/services/auth.service.js:34-54 | result and new table are those of Credentials.RegisterDoctor |
| AuthService.LoginPatient | backend/src/services/auth.service.js:57-89 | result and new table are those of Credentials.LoginPatient |
| AuthService.LoginDoctor | backend/src/services/auth.service.js:92-125 | result and new table are those of Credentials.LoginDoctor |
| AuthMiddleware.BearerToken | backend/src/middleware/auth.middleware.js:8-15 | there is a token iff the header starts with exactly "Bearer ", and then header == "Bearer " + token |
| AuthMiddleware.BearerTokenRoundTrip | backend/src/middleware/auth.middleware.js:15 | the header "Bearer " + t yields the token t |
| AuthMiddleware.BearerPrefixIsExact | backend/src/middleware/auth.middleware.js:8 | a lower-case "bearer ", a bare "Bearer" and a tab instead of the space carry no token |
| AuthMiddleware.Decide | backend/src/middleware/auth.middleware.js:4-27 | 401 "No token provided" iff there is no bearer token; 401 "Invalid or expired token" iff the token does not verify; otherwise accept with the decoded claims |
| AuthMiddleware.SignedTokenAccepted | backend/src/middleware/auth.middleware.js:15-19 | a token the service signed, sent as a bearer header, is accepted with its claims |
| AuthMiddleware.Handle | backend/src/middleware/auth.middleware.js:4-27 | on acceptance req.user is set and next is called once, with no response written; on rejection the 401 and its message are written, req.user is untouched and next is not called |
| Network.GatewayCache.constructor | backend/src/fabric/network.js:4 | the cache starts empty |
| Network.GatewayCache.GetContract | backend/src/fabric/network.js:6-17 | the identity defaults to 'admin'; a cached gateway is returned with no new connect; otherwise a new gateway is cached before it connects once, so a failed connect leaves it cached, unconnected |
| Network.GatewayCache.DisconnectGateway | backend/src/fabric/network.js:19-32 | a given identity disconnects and evicts that entry alone, and is a no-op when uncached; no identity, or the empty one, disconnects every entry once and empties the cache; no gateway is asked to connect |
| Network.GatewayCache.DisconnectOne | backend/src/fabric/network.js:20-24 | the one-identity branch: only that entry is disconnected, once, and evicted; the other entries and their gateways are untouched |
| Network.GatewayCache.DisconnectAll | backend/src/fabric/network.js:25-31 | the loop over every identity: each cached gateway is disconnected exactly once, none is asked to connect, and the cache ends empty |

## Left out

- Ledger I/O errors (`GetState`/`PutState`/`GetMSPID`/`GetTxTimestamp` failing), `SetEvent` and the chaincode's `main`/`InitLedger` are not modelled; the stub's map access is total.
- JSON encoding is replaced by typed documents, so the "failed to unmarshal" branches, and the `continue` that skips undecodable query hits, cannot arise.
- Chaincode.GetActiveAccessesForPatient: the CouchDB selector is built by pasting the patient ID into JSON text unescaped; the model assumes the selector names exactly the given ID, so IDs containing `"`, `\` or control characters are not covered (in the source such an ID makes the query fail, or selects another ID).
- Chaincode.GetAuditTrail: the same unescaped selector; IDs containing `"`, `\` or control characters are not covered.
- Ledger.ActiveAccessesExact: stated for the query result of a selector that names exactly the given ID; the unescaped-selector cases above are not covered.
- Ledger.AuditTrailExact: stated for the query result of a selector that names exactly the given ID; the unescaped-selector cases above are not covered.
- CouchDB query semantics: a query result is stated as `Ledger.IsQueryResult` (every matching key once, in some order); iterator errors are not modelled.
- Ledger.CheckAccessValidity: the RFC 3339 rendering of `expiryTime` is replaced by the expiry in seconds.
- Ledger.CheckAccessValidity: `expiresIn == expiryTime - now` is stated only for `now >= 0`; for a negative transaction time the int64 subtraction can wrap.
- Ledger.GrantAccess: the exact expiry `now + hours*3600` is stated only when the int64 arithmetic does not overflow; otherwise it is the wrapped value.
- The doc comment of VerifyDoctor names HealthRegistryMSP, but the code checks AuditOrgMSP; the model follows the code.
- Chaincode.GetAuditTrail models the loop as written; the corrected trail exists only as the function `Ledger.AuditTrail`.
- bcrypt's cost factor, salt generation and timing, and jsonwebtoken's clock-based expiry, are not modelled: the salt and the verification verdict are parameters.
- Credentials.LoginPatient and Credentials.LoginDoctor model a login ID and password that are strings or absent; a password of another JavaScript type (a number, an object) is not modelled.
- Credentials.RegisterPatient and Credentials.RegisterDoctor model the registration fields as strings, absent values or integers as the model types them; a value of another JavaScript type (a numeric password, which the `beforeCreate` hook passes to `bcrypt.hash` and which bcrypt rejects, or an object) is not modelled.
- Sequelize's DATEONLY validation of `dateOfBirth` is not modelled (the INTEGER range check of `fingerprintTemplateId` is).
- Credentials.RegisterPatient and Credentials.RegisterDoctor return the primary key of the row as PostgreSQL stored it, as Sequelize's `RETURNING` refresh of the created instance does on PostgreSQL.
- When several column errors occur at once, PostgreSQL's choice of which to report is replaced by the first in schema order.
- The text of the database errors and the HTTP status codes the controllers map them to are out of scope; the controllers, routes, app setup, database configuration and the identity import scripts are not part of this model.
- Network.GatewayCache.GetContract returns the gateway object; the `contract` and `network` handles it derives from the gateway are not modelled.
- `backend/src/fabric/gateway.js` is not part of this model: the gateway is an abstract object with connect and disconnect, and the constructor mismatch between it and network.js is not modelled.
- Identities that collide with JavaScript object-prototype keys in `gateways` are not modelled.
- The async interleavings of the backend (two first-time `getContract` calls racing, for example) are not modelled: every operation runs to completion.
- AuthMiddleware.Handle: an exception thrown by `next()` inside the `try` would also produce the 401; `next` is modelled as not throwing.
- Both stores are not transactionally coupled; the model keeps the ledger and the credential tables separate and states nothing about their agreement.

## Findings

| source | as written | input that shows it | evidently intended | confidence | as-written member | corrected member |
|---|---|---|---|---|---|---|
| Blockchain/chaincode/healthcare/healthcare-chaincode.go:298-318 | RevokeAccess unmarshals whatever document the key holds as an AccessRecord and writes it back | revoking the key `doctor:<id>` of a verified doctor succeeds, overwrites the doctor with a revoked blank grant, and the doctor reads back unverified | only keys that hold access grants can be revoked; other keys are "not found" | high (proved on the model; not executed) | LedgerProperties.RevokeAccessUnverifiesDoctor | Ledger.RevokeAccessChecked |
| Blockchain/chaincode/healthcare/healthcare-chaincode.go:449-469 | GetAuditTrail selects every document with a matching `patientID` field and decodes each as an AuditLog | for a registered patient, the patient's own record comes back as an audit entry with no action, time or log ID | only audit-log documents are returned | high (proved on the model; not executed) | LedgerProperties.AuditTrailAsWrittenIncludesPatient | Ledger.AuditTrailExact |
