# Registration and login over the tenant store

A Dafny model of the account engine of the legal document system: `AuthService`
(register a law firm with its owner, log in, the refresh and validation stubs)
over `ApplicationDbContext`, the tenant store. The store's model rules
(`OnModelCreating`: unique indexes, column lengths, foreign keys and their delete
behaviour) are the predicate `Store.Consistent`, which the database enforces on
every commit; the `SaveChangesAsync` override is a loop over the change
tracker's entries that stamps `CreatedAt` on Added entries and `UpdatedAt` on
Modified ones before the commit.

Modules:

- `Wrappers`: `Option` and `Result`.
- `Entities`: the `Company` and `User` records with their defaults
  (`NewCompany`, `NewUser`), the enums, and the key and foreign-key columns of
  `Project`, `Document`, `ProjectPermission` and `AuditLog`. A `DateTime` is a
  count of 100 ns ticks; a C# `long` is the newtype `int64`.
- `Store`: `Tables` (the committed rows, keyed by id, and the next identity
  values); the model rules; the change tracker (`Entry`, `EntityState`); the
  database's write of tracked entries (`Commit`); and the class `AppDb`, the
  context, whose `SaveChanges` runs the stamping loop and then commits when the
  result is consistent.
- `Auth`: the DTOs; BCrypt and the JWT service as values holding functions
  (`PasswordHasher`, `JwtTokenService`); `RegisterEffect` and `LoginEffect`,
  which say what Register and Login do to the tables and what they return; the
  class `AuthService`, whose methods are proved to have exactly those effects;
  and lemmas about the two effect functions.

The clock and the random refresh token are parameters (`now`, `refreshToken`).

Three behaviours of the code are easy to miss; the model follows the code:

- Register is not atomic. It saves the company and the owner with two
  `SaveChangesAsync` calls (AuthService.cs lines 71 and 92) and no transaction.
  So an owner row the database refuses (a first name over 100 characters, say)
  leaves the new company committed with no user (`Auth.RegisterOrphansCompany`).
- A successful Login changes `UpdatedAt` as well as `LastLoginAt`. The
  `SaveChangesAsync` override stamps `UpdatedAt` on the Modified user entry.
- The user-email check in Register is global, but the unique index is per
  company. A store written only by Register and Login keeps emails globally
  unique (`Auth.RegisterKeepsEmailsUnique`, `Auth.LoginKeepsEmailsUnique`). A
  store in general need not (`Store.SameEmailInTwoCompanies`). Login's
  `FirstOrDefault` has no ordering, so in that case it may pick any of the
  users with the email; the model leaves that choice open.

## Model

| member | source | states |
|---|---|---|
| Entities.NewCompany | backend/LegalDocSystem.Domain/Entities/Company.cs:11-28 | A new company is Trial tier and active, has no subscription end date, empty contact and address texts, and zero storage counters. |
| Entities.NewUser | backend/LegalDocSystem.Domain/Entities/User.cs:11-24 | A new user has role User and is active. It has no last login, profile image, reset token or reset expiry. Its names, email, password hash and phone are empty. |
| Entities.RoleName | backend/LegalDocSystem.Domain/Enums/UserRole.cs:3-24 | `Role.ToString()` is never empty. |
| Entities.RoleNameInjective | backend/LegalDocSystem.Domain/Enums/UserRole.cs:3-24 | Distinct roles print as distinct names, so the role claim determines the role. |
| Store.Consistent | backend/LegalDocSystem.Infrastructure/Data/ApplicationDbContext.cs:21-133 | The model rules as one predicate: keys match the rows' ids, the company email index and the (CompanyId, Email) and (ProjectId, UserId) indexes are unique, company and user columns fit their lengths, and every foreign key resolves. `EmptyTables`, the Insert, Replace and Delete lemmas below, and `RegisterKeepsConsistent` and `LoginKeepsConsistent` are about it. |
| Store.EmptyTables | backend/LegalDocSystem.Infrastructure/Data/ApplicationDbContext.cs:21-133 | The empty database satisfies every model rule. |
| Store.InsertCompanyAccepted | backend/LegalDocSystem.Infrastructure/Data/ApplicationDbContext.cs:28-33 | The store accepts a new company row exactly when two things hold: name and email are at most 200 characters, phone at most 50 and address at most 500; and no company has its email. |
| Store.InsertUserAccepted | backend/LegalDocSystem.Infrastructure/Data/ApplicationDbContext.cs:36-55 | The store accepts a new user row exactly when three things hold: its names are at most 100 characters and its email at most 200; its company exists; and no user of that same company has its email. |
| Store.InsertCompanyKeepsRows | backend/LegalDocSystem.Infrastructure/Services/AuthService.cs:70-71 | Inserting a company under the identity value gains exactly one row, the given company under the new id. Every old row and every other table stays as it was. |
| Store.InsertUserKeepsRows | backend/LegalDocSystem.Infrastructure/Services/AuthService.cs:91-92 | Inserting a user under the identity value gains exactly one row, the given user under the new id. Every old row and every other table stays as it was. |
| Store.SameEmailInTwoCompanies | backend/LegalDocSystem.Infrastructure/Data/ApplicationDbContext.cs:55 | The (CompanyId, Email) index admits a consistent store in which two users of different companies share an email. |
| Store.InsertPermissionAccepted | backend/LegalDocSystem.Infrastructure/Data/ApplicationDbContext.cs:116-120 | The store accepts a permission row exactly when its project and user exist and no row has the same (ProjectId, UserId) pair. |
| Store.ReplaceUserAccepted | backend/LegalDocSystem.Infrastructure/Data/ApplicationDbContext.cs:48-55 | Rewriting a user row while keeping its company, names and email keeps the store consistent. |
| Store.DeleteCompanyRestricted | backend/LegalDocSystem.Infrastructure/Data/ApplicationDbContext.cs:36-44 | Deleting a company is accepted exactly when it has no users and no projects. |
| Store.RemoveUser | backend/LegalDocSystem.Infrastructure/Data/ApplicationDbContext.cs:58-61 | Deleting a user also deletes its project permissions (Cascade). `DeleteUserCascades` states what it removes and when the store refuses it. |
| Store.DeleteUserCascades | backend/LegalDocSystem.Infrastructure/Data/ApplicationDbContext.cs:58-71 | Deleting a user removes its project permissions. It is accepted exactly when the user uploaded no document and has no audit entry. |
| Store.RemoveProject | backend/LegalDocSystem.Infrastructure/Data/ApplicationDbContext.cs:85-93 | Deleting a project also deletes its documents and its permissions (Cascade). `DeleteProjectCascades` states what it removes and when the store refuses it. |
| Store.DeleteProjectCascades | backend/LegalDocSystem.Infrastructure/Data/ApplicationDbContext.cs:85-93 | Deleting a project removes its documents and its permissions. It is accepted exactly when no document of another project is a version of one of its documents. |
| Store.DeleteDocumentRestricted | backend/LegalDocSystem.Infrastructure/Data/ApplicationDbContext.cs:109-112 | Deleting a document is accepted exactly when no other document names it as its parent. |
| Store.Stamp | backend/LegalDocSystem.Infrastructure/Data/ApplicationDbContext.cs:141-149 | One pass of the loop body on one entry. `StampEffect` states what it sets and keeps. |
| Store.StampEffect | backend/LegalDocSystem.Infrastructure/Data/ApplicationDbContext.cs:141-149 | Stamping keeps an entry's state and every non-timestamp field. An Added entry gets CreatedAt = now, overriding what the caller set. A Modified entry gets UpdatedAt = now and keeps CreatedAt. Entries in any other state are untouched. |
| Store.StampAll | backend/LegalDocSystem.Infrastructure/Data/ApplicationDbContext.cs:139-150 | Stamping every entry keeps their number, order and states. Only timestamps change, and entries that are not Added or Modified are untouched. |
| Store.AppDb.StampTracked | backend/LegalDocSystem.Infrastructure/Data/ApplicationDbContext.cs:137-150 | The foreach over the tracked entries leaves each entry stamped, in order. |
| Store.AppDb.SaveChanges | backend/LegalDocSystem.Infrastructure/Data/ApplicationDbContext.cs:135-153 | The stamped entries are committed. If the write succeeds and the result is consistent, the tables become the result, the tracker holds the saved entities, and the count of written entries is returned. Otherwise nothing is written and the tracker keeps the stamped entries. |
| Store.Written | backend/LegalDocSystem.Infrastructure/Data/ApplicationDbContext.cs:152 | The number SaveChanges returns is at most the number of entries, and it is zero exactly when no entry is Added, Modified or Deleted. |
| Store.WrittenStamped | backend/LegalDocSystem.Infrastructure/Data/ApplicationDbContext.cs:139-152 | Stamping does not change how many entries are written. |
| Store.ApplyEntry | backend/LegalDocSystem.Infrastructure/Data/ApplicationDbContext.cs:152 | The write of one entry. What stays tracked is Unchanged and the identity counters never go back. Only a Modified or Deleted entry can fail, as a concurrency conflict. An Unchanged entry writes nothing. |
| Store.Commit | backend/LegalDocSystem.Infrastructure/Data/ApplicationDbContext.cs:152 | After a successful write, every entry left in the tracker is Unchanged, no entries are gained, and the identity counters never go back. |
| Store.CommitUnchanged | backend/LegalDocSystem.Infrastructure/Data/ApplicationDbContext.cs:152 | Committing entries that are all Unchanged writes nothing. |
| Store.AppDb.FindCompanyByEmail | backend/LegalDocSystem.Infrastructure/Services/AuthService.cs:32-33 | Finds a company exactly when one has the email, by exact equality. The company found is the only one with that email. It becomes tracked as Unchanged. |
| Store.AppDb.FindUserByEmail | backend/LegalDocSystem.Infrastructure/Services/AuthService.cs:137-139 | Finds a user exactly when some user of any company has the email. The user's company exists. With `Include`, that company is tracked as well. |
| Store.AppDb.Add | backend/LegalDocSystem.Infrastructure/Services/AuthService.cs:70 | `DbSet.Add` appends an Added entry to the tracker. |
| Store.AppDb.MarkModified | backend/LegalDocSystem.Infrastructure/Services/AuthService.cs:165 | Assigning a property of an Unchanged or Modified tracked entity makes its entry Modified with the new row. The other entries stay as they were. |
| Auth.TrialCompany | backend/LegalDocSystem.Infrastructure/Services/AuthService.cs:50-68 | The registered company carries the given name, email and phone and empty address fields. It is Trial tier and active, starts now and ends 14 days later. It uses 0 bytes of a 10 GiB quota and is created by "System". |
| Auth.OwnerUser | backend/LegalDocSystem.Infrastructure/Services/AuthService.cs:77-89 | The owner carries the new company's id, the given names, email and phone, and the hash. It has role CompanyOwner, is active, has no last login, and is created by "System". |
| Auth.IssueTokens | backend/LegalDocSystem.Infrastructure/Services/AuthService.cs:97-123 | The bundle, common to Register and Login (lines 170-196), holds four things: the token generated from the user's id, email, role name and company id; the refresh token; an expiry one day after now; and a UserDto copying the user's fields and the company name. |
| Auth.IssueTokensHidesSecrets | backend/LegalDocSystem.Infrastructure/Services/AuthService.cs:106-123 | The bundle does not depend on the password hash or on the login and audit timestamps. |
| Auth.LoginGate | backend/LegalDocSystem.Infrastructure/Services/AuthService.cs:146-162 | A user passes exactly when the password verifies and both the user and its company are active. The checks run in order (password, then user, then company), each with its own message. |
| Auth.WrongPasswordHidesAccountState | backend/LegalDocSystem.Infrastructure/Services/AuthService.cs:141-150 | A wrong password fails with the same message as an unknown email, whatever the active flags are. |
| Auth.LoginMessagesDistinct | backend/LegalDocSystem.Infrastructure/Services/AuthService.cs:141-162 | The invalid-credentials, inactive-user and inactive-company messages are pairwise distinct. |
| Auth.GloballyUniqueImpliesIndex | backend/LegalDocSystem.Infrastructure/Data/ApplicationDbContext.cs:55 | Globally unique user emails imply the per-company index. |
| Auth.GloballyUniqueLookup | backend/LegalDocSystem.Infrastructure/Services/AuthService.cs:137-139 | With globally unique emails, a lookup by email has at most one answer. |
| Auth.AddFreshEmailKeepsUnique | backend/LegalDocSystem.Infrastructure/Services/AuthService.cs:41-47 | Adding a user whose email no user has keeps emails globally unique. |
| Auth.RegisterEffect | backend/LegalDocSystem.Infrastructure/Services/AuthService.cs:27-130 | The result and the tables Register leaves: a taken company email, then a taken user email, fails; otherwise the Trial company and then its owner are saved in two separate commits. The Register lemmas below are about it, and `AuthService.Register` is proved to have exactly this effect. |
| Auth.RegisterRejectsTakenEmails | backend/LegalDocSystem.Infrastructure/Services/AuthService.cs:32-47 | A taken company email, checked first, or a taken user email in any company fails with its own InvalidOperation message and leaves the tables unchanged. |
| Auth.RegisterSucceedsIff | backend/LegalDocSystem.Infrastructure/Services/AuthService.cs:27-92 | Register succeeds exactly when both emails are free and both new rows fit their columns. |
| Auth.RegisterCreatesOwner | backend/LegalDocSystem.Infrastructure/Services/AuthService.cs:50-92 | On success, exactly one company and one user are added under fresh ids, and no other row of any table changes. The company is the Trial company. The user is its CompanyOwner, carries the hash, and is the only user with the email. The response names both. |
| Auth.RegisterOrphansCompany | backend/LegalDocSystem.Infrastructure/Services/AuthService.cs:70-92 | When the company fits and the owner row does not, Register fails but the new company stays committed with no user. |
| Auth.RegisterKeepsConsistent | backend/LegalDocSystem.Infrastructure/Services/AuthService.cs:27-92 | Whatever the outcome, Register leaves the tables consistent. |
| Auth.RegisterKeepsEmailsUnique | backend/LegalDocSystem.Infrastructure/Services/AuthService.cs:41-47 | Register preserves globally unique user emails. |
| Auth.LoginEffect | backend/LegalDocSystem.Infrastructure/Services/AuthService.cs:146-196 | The result and the tables Login leaves once the lookup found user k: LoginGate decides, a rejection writes nothing, and a success sets k's LastLoginAt and UpdatedAt. The Login lemmas below are about it, and `AuthService.Login` is proved to have exactly this effect. |
| Auth.LoginWritesOnlyLoginTime | backend/LegalDocSystem.Infrastructure/Services/AuthService.cs:164-166 | Login changes only user k's LastLoginAt and UpdatedAt, both set to now, and only on success. A rejected login writes nothing. |
| Auth.LoginSucceedsIff | backend/LegalDocSystem.Infrastructure/Services/AuthService.cs:146-196 | Login as user k succeeds exactly when the password verifies and the user and company are active; a failure carries LoginGate's error. On success the token names k, its email, role and company, and the bundle expires one day after now. |
| Auth.LoginKeepsConsistent | backend/LegalDocSystem.Infrastructure/Services/AuthService.cs:164-166 | Login leaves the tables consistent. |
| Auth.LoginKeepsEmailsUnique | backend/LegalDocSystem.Infrastructure/Services/AuthService.cs:164-166 | Login preserves globally unique user emails. |
| Auth.RegisterThenLoginSucceeds | backend/LegalDocSystem.Infrastructure/Services/AuthService.cs:27-196 | After a successful Register, the owner is the only user with the email, and a login with the same password succeeds as that owner, in the new company, with a token naming both. This needs BCrypt's promise that a password verifies against its own hash. |
| Auth.AuthService.Register | backend/LegalDocSystem.Infrastructure/Services/AuthService.cs:27-130 | The result and the new tables are exactly RegisterEffect of the old tables. The tracker holds the found or added rows. The store stays consistent. |
| Auth.AuthService.CreateTrialAccount | backend/LegalDocSystem.Infrastructure/Services/AuthService.cs:49-123 | Once both emails are free, saving the company and then its owner has exactly RegisterEffect's outcome. |
| Auth.AuthService.SaveNewCompany | backend/LegalDocSystem.Infrastructure/Services/AuthService.cs:70-71 | The company is stored under the next identity value exactly when it fits. Otherwise the save fails with a database error and nothing is written. |
| Auth.AuthService.SaveNewUser | backend/LegalDocSystem.Infrastructure/Services/AuthService.cs:91-92 | The user is stored under the next identity value exactly when it fits. Otherwise the save fails with a database error and nothing is written. |
| Auth.SavingAddedUser | backend/LegalDocSystem.Infrastructure/Services/AuthService.cs:91-92 | Committing a new user of an existing company whose email no user has inserts it under the next identity value. The store accepts it exactly when its columns fit. |
| Auth.AuthService.Login | backend/LegalDocSystem.Infrastructure/Services/AuthService.cs:132-207 | An unknown email fails with "Invalid email or password" and writes nothing. Otherwise, for the user the lookup found, the result and the new tables are exactly LoginEffect, and the tracker holds that user and its company. |
| Auth.AuthService.SaveLoginTime | backend/LegalDocSystem.Infrastructure/Services/AuthService.cs:164-166 | Saving the user with its new LastLoginAt rewrites only that user's row, with UpdatedAt = now. |
| Auth.AuthService.RefreshToken | backend/LegalDocSystem.Infrastructure/Services/AuthService.cs:209-214 | Always fails with NotImplemented and its message, and never returns a token. |
| Auth.AuthService.ValidateToken | backend/LegalDocSystem.Infrastructure/Services/AuthService.cs:216-219 | Returns exactly the token service's ValidateToken answer. |
| Auth.RegisterThenLogin | backend/LegalDocSystem.Infrastructure/Services/AuthService.cs:27-196 | Calls Register, then Login with the same credentials in a new request. If the registration succeeded, the login succeeds with the same user id, company id, the CompanyOwner role and the matching token. |

## Left out

- Store.CompanyFits: lengths are counted in Unicode scalar values (Dafny `char`). The database provider is not named in the source, and its unit may differ (UTF-16 code units for SQL Server `nvarchar`), or it may not enforce lengths at all (SQLite). `RegisterSucceedsIff` and `RegisterOrphansCompany` depend on this choice.
- Store.UserFits: the same unit as `CompanyFits`, for the same reason.
- Auth.PasswordHasher: `verify` is total. `BCrypt.Verify` throws on a stored hash that is not in BCrypt format, such as the default empty `PasswordHash`, and that exception leaves Login as an error other than Unauthorized. Register only stores real hashes, so only rows written some other way are affected.
- BCrypt is the pair of functions `PasswordHasher`. Its salt is not modelled, so the hash is a function of the password. `HasherSound` (a password verifies against its own hash) is assumed only where a lemma lists it among its requirements.
- The JWT service is opaque functions. Its signatures, claims encoding and expiry checks are not modelled.
- `GenerateRefreshToken` is random, so the refresh token is a parameter.
- The clock is one `now` per call. The source reads `DateTime.UtcNow` several times per call, at instants that may differ slightly.
- The `DateTime` range and the 32-bit range of the identity columns are not modelled. Ids are unbounded integers.
- Async execution, cancellation and concurrent requests are not modelled.
- EF Core internals are not modelled: identity resolution, lazy loading and DetectChanges beyond the one property assignment Login makes.
- The context is request-scoped. Register and Login start from a context that tracks nothing, and `AppDb.ClearTracker` stands for the start of a new request.
- Only company and user rows go through the change tracker. Project, document, permission and audit writes are stated as table updates, with their consistency lemmas.
- Emails match by exact string equality. Any database collation (case-insensitive comparison) is configuration that is not part of this model.
- `IsRequired` on the non-nullable strings is vacuous, because strings here are never null.
- The column lengths of projects, documents and audit logs, and their non-unique indexes, are not modelled. Only their keys and foreign keys are.
- AuditLog.CompanyId has no relationship configured, so it carries no foreign-key rule.
- SaveChanges's count is the number of tracked entries written. Rows removed by a cascade are not counted.
- The common base entity (BaseEntity.cs) is not part of this model. Its columns Id, CreatedAt, UpdatedAt and CreatedBy come from their uses. UpdatedAt is optional, being absent until a first update. The soft-delete flag `IsDeleted`, which the development endpoints filter on (TestController.cs lines 231 and 271), is not modelled, because neither AuthService nor the model rules look at it (there is no query filter). So a soft-deleted user can still log in, and a soft-deleted company's email still blocks Register.
- Logging, the controllers (HTTP status mapping and model binding), the development test endpoints and the frontend are transport or tooling and are not modelled.
- Project and document authorization, version-chain maintenance and audit recording are not modelled. No code for them exists, only their data shapes.
