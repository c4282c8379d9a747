/**
 * The registration and login engine (AuthService). BCrypt and the JWT
 * service are foreign code: they are given as function values. The clock
 * (DateTime.UtcNow) and the random refresh token are parameters.
 */
module Auth {
  import opened Wrappers
  import opened Entities
  import opened Store

  const CompanyExistsMessage := "Company with this email already exists"
  const UserExistsMessage := "User with this email already exists"
  const InvalidCredentialsMessage := "Invalid email or password"
  const UserInactiveMessage := "User account is inactive"
  const CompanyInactiveMessage := "Company account is inactive"
  const RefreshNotImplementedMessage := "Refresh token functionality will be implemented in next iteration"

  const TrialDays := 14
  const TokenLifetimeMinutes := 1440
  /** `10L * 1024 * 1024 * 1024`: 10 GiB, computed in 64 bits. */
  const TrialStorageQuotaBytes: int64 := 10 * 1024 * 1024 * 1024

  /** The exceptions the service throws. */
  datatype AuthError =
    | InvalidOperation(message: string)
    | Unauthorized(message: string)
    | NotImplemented(message: string)
    | StoreFailure(cause: DbError)

  datatype RegisterDto = RegisterDto(
    companyName: string,
    companyEmail: string,
    companyPhone: string,
    firstName: string,
    lastName: string,
    email: string,
    password: string,
    phone: string)

  datatype LoginDto = LoginDto(email: string, password: string)

  /** The user summary returned to the client. It has no field for the password hash. */
  datatype UserDto = UserDto(
    id: int,
    companyId: int,
    firstName: string,
    lastName: string,
    email: string,
    phone: string,
    role: string,
    companyName: string,
    isActive: bool)

  datatype TokenResponse = TokenResponse(token: string, refreshToken: string, expiresAt: Time, user: UserDto)

  /** BCrypt.HashPassword and BCrypt.Verify(password, hash). */
  datatype PasswordHasher = PasswordHasher(hashPassword: string -> string, verify: (string, string) -> bool)

  /** What BCrypt promises: a password verifies against its own hash. */
  ghost predicate HasherSound(h: PasswordHasher)
  {
    forall p :: h.verify(p, h.hashPassword(p))
  }

  /** IJwtTokenService.GenerateToken(userId, email, role, companyId) and ValidateToken(token). */
  datatype JwtTokenService = JwtTokenService(
    generateToken: (int, string, string, int) -> string,
    validateToken: string -> bool)

  /** No two users, of any companies, share an email. */
  ghost predicate UserEmailsGloballyUnique(users: map<int, User>)
  {
    forall a, b :: a in users && b in users && users[a].email == users[b].email ==> a == b
  }

  /** The company row Register builds: a 14-day Trial with the trial storage quota. */
  function TrialCompany(dto: RegisterDto, now: Time): (c: Company)
    ensures c.name == dto.companyName && c.email == dto.companyEmail && c.phone == dto.companyPhone
    ensures c.address == c.city == c.state == c.country == c.postalCode == ""
    ensures c.subscriptionTier == Trial && c.isActive
    ensures c.subscriptionStartDate == now
    ensures c.subscriptionEndDate == Some(AddDays(c.subscriptionStartDate, TrialDays))
    ensures c.storageUsedBytes == 0 && c.storageQuotaBytes as int == 10 * 0x4000_0000
    ensures c.createdAt == now && c.updatedAt == Option.None && c.createdBy == "System"
  {
    NewCompany().(
      name := dto.companyName,
      email := dto.companyEmail,
      phone := dto.companyPhone,
      address := "", city := "", state := "", country := "", postalCode := "",
      subscriptionTier := Trial,
      subscriptionStartDate := now,
      subscriptionEndDate := Some(AddDays(now, TrialDays)),
      isActive := true,
      storageUsedBytes := 0,
      storageQuotaBytes := TrialStorageQuotaBytes,
      createdAt := now,
      createdBy := "System")
  }

  /** The user row Register builds: the owner of the new company. */
  function OwnerUser(dto: RegisterDto, companyId: int, passwordHash: string, now: Time): (u: User)
    ensures u.companyId == companyId && u.passwordHash == passwordHash
    ensures u.firstName == dto.firstName && u.lastName == dto.lastName && u.email == dto.email && u.phone == dto.phone
    ensures u.role == CompanyOwner && u.isActive
    ensures u.lastLoginAt == Option.None && u.resetToken == Option.None && u.resetTokenExpiry == Option.None
    ensures u.createdAt == now && u.updatedAt == Option.None && u.createdBy == "System"
  {
    NewUser().(
      companyId := companyId,
      firstName := dto.firstName,
      lastName := dto.lastName,
      email := dto.email,
      passwordHash := passwordHash,
      phone := dto.phone,
      role := CompanyOwner,
      isActive := true,
      createdAt := now,
      createdBy := "System")
  }

  /** The token bundle both Register and Login return for a user of the named company. */
  function IssueTokens(jwt: JwtTokenService, refreshToken: string, u: User, companyName: string, now: Time): (r: TokenResponse)
    ensures r.token == jwt.generateToken(u.id, u.email, RoleName(u.role), u.companyId)
    ensures r.refreshToken == refreshToken
    ensures r.expiresAt == AddDays(now, 1)
    ensures r.user.id == u.id && r.user.companyId == u.companyId
    ensures r.user.firstName == u.firstName && r.user.lastName == u.lastName
    ensures r.user.email == u.email && r.user.phone == u.phone
    ensures r.user.role == RoleName(u.role) && r.user.isActive == u.isActive
    ensures r.user.companyName == companyName
  {
    TokenResponse(
      jwt.generateToken(u.id, u.email, RoleName(u.role), u.companyId),
      refreshToken,
      AddMinutes(now, TokenLifetimeMinutes),
      UserDto(u.id, u.companyId, u.firstName, u.lastName, u.email, u.phone, RoleName(u.role), companyName, u.isActive))
  }

  /** The token bundle does not depend on the password hash, nor on the login and audit timestamps. */
  lemma IssueTokensHidesSecrets(jwt: JwtTokenService, refreshToken: string, u: User, companyName: string, now: Time,
                                hash: string, lastLogin: Option<Time>, updated: Option<Time>)
    ensures IssueTokens(jwt, refreshToken, u.(passwordHash := hash, lastLoginAt := lastLogin, updatedAt := updated), companyName, now)
            == IssueTokens(jwt, refreshToken, u, companyName, now)
  {
  }

  /**
   * The checks Login makes once a user was found by email, in their order:
   * the password, then the user's active flag, then its company's. None
   * means every check passed.
   */
  function LoginGate(u: User, c: Company, password: string, hasher: PasswordHasher): (r: Option<AuthError>)
    ensures r.None? <==> hasher.verify(password, u.passwordHash) && u.isActive && c.isActive
    ensures !hasher.verify(password, u.passwordHash) ==> r == Some(Unauthorized(InvalidCredentialsMessage))
    ensures hasher.verify(password, u.passwordHash) && !u.isActive ==> r == Some(Unauthorized(UserInactiveMessage))
    ensures hasher.verify(password, u.passwordHash) && u.isActive && !c.isActive ==> r == Some(Unauthorized(CompanyInactiveMessage))
  {
    if !hasher.verify(password, u.passwordHash) then Some(Unauthorized(InvalidCredentialsMessage))
    else if !u.isActive then Some(Unauthorized(UserInactiveMessage))
    else if !c.isActive then Some(Unauthorized(CompanyInactiveMessage))
    else Option.None
  }

  /**
   * A wrong password reveals nothing about the account: it fails exactly as
   * an unknown email does, whatever the user's and company's active flags.
   */
  lemma WrongPasswordHidesAccountState(u: User, c: Company, password: string, hasher: PasswordHasher, active: bool, companyActive: bool)
    requires !hasher.verify(password, u.passwordHash)
    ensures LoginGate(u.(isActive := active), c.(isActive := companyActive), password, hasher)
            == Some(Unauthorized(InvalidCredentialsMessage))
  {
  }

  /** The three login rejections carry three different messages. */
  lemma LoginMessagesDistinct()
    ensures InvalidCredentialsMessage != UserInactiveMessage
    ensures InvalidCredentialsMessage != CompanyInactiveMessage
    ensures UserInactiveMessage != CompanyInactiveMessage
  {
    assert InvalidCredentialsMessage[0] != UserInactiveMessage[0];
    assert InvalidCredentialsMessage[0] != CompanyInactiveMessage[0];
    assert UserInactiveMessage[0] != CompanyInactiveMessage[0];
  }

  /** Global uniqueness is stronger than the per-company unique index. */
  lemma GloballyUniqueImpliesIndex(users: map<int, User>)
    requires UserEmailsGloballyUnique(users)
    ensures UserEmailUniquePerCompany(users)
  {
  }

  /** With globally unique emails, a lookup by email has at most one answer. */
  lemma GloballyUniqueLookup(users: map<int, User>, email: string, a: int, b: int)
    requires UserEmailsGloballyUnique(users)
    requires a in users && users[a].email == email && b in users && users[b].email == email
    ensures a == b
  {
  }

  /** Adding a user whose email no user has keeps emails globally unique. */
  lemma AddFreshEmailKeepsUnique(users: map<int, User>, id: int, u: User)
    requires UserEmailsGloballyUnique(users) && id !in users
    requires forall k :: k in users ==> users[k].email != u.email
    ensures UserEmailsGloballyUnique(users[id := u])
  {
  }

  // ----- What Register and Login do to the tables -----

  /**
   * RegisterAsync as a function of the committed tables it starts from: the
   * company email is checked first, then the user email against the users of
   * every company; then the Trial company and its owner are saved by two
   * separate SaveChanges, so an owner row the database refuses leaves the new
   * company behind.
   */
  function RegisterEffect(before: Tables, dto: RegisterDto, passwordHash: string, jwt: JwtTokenService,
                          refreshToken: string, now: Time): (Result<TokenResponse, AuthError>, Tables)
  {
    var company := TrialCompany(dto, now);
    var owner := OwnerUser(dto, before.nextCompanyId, passwordHash, now);
    if CompanyEmailTaken(before, dto.companyEmail) then (Failure(InvalidOperation(CompanyExistsMessage)), before)
    else if UserEmailTaken(before, dto.email) then (Failure(InvalidOperation(UserExistsMessage)), before)
    else if !CompanyFits(company) then (Failure(StoreFailure(DbUpdate)), before)
    else if !UserFits(owner) then (Failure(StoreFailure(DbUpdate)), InsertCompany(before, company))
    else (Success(IssueTokens(jwt, refreshToken, owner.(id := before.nextUserId), company.name, now)),
          InsertUser(InsertCompany(before, company), owner))
  }

  /**
   * The entities Register's context tracks when it returns: the row a taken
   * email was found in, or the rows it added, as saved or as refused.
   */
  ghost predicate RegisterTracked(before: Tables, dto: RegisterDto, passwordHash: string, now: Time,
                                  after: Tables, tracked: seq<Entry>)
  {
    var cid := before.nextCompanyId;
    var owner := OwnerUser(dto, cid, passwordHash, now);
    if CompanyEmailTaken(before, dto.companyEmail) then
      exists k :: k in before.companies && before.companies[k].email == dto.companyEmail
                  && tracked == [Entry(Unchanged, CompanyRow(before.companies[k]))]
    else if UserEmailTaken(before, dto.email) then
      exists k :: k in before.users && before.users[k].email == dto.email
                  && tracked == [Entry(Unchanged, UserRow(before.users[k]))]
    else if !CompanyFits(TrialCompany(dto, now)) then
      tracked == [Entry(Added, CompanyRow(TrialCompany(dto, now)))]
    else if !UserFits(owner) then
      cid in after.companies && tracked == [Entry(Unchanged, CompanyRow(after.companies[cid])), Entry(Added, UserRow(owner))]
    else
      cid in after.companies && before.nextUserId in after.users
      && tracked == [Entry(Unchanged, CompanyRow(after.companies[cid])), Entry(Unchanged, UserRow(after.users[before.nextUserId]))]
  }

  /** A taken company or user email rejects the registration and writes nothing. */
  lemma RegisterRejectsTakenEmails(before: Tables, dto: RegisterDto, passwordHash: string, jwt: JwtTokenService,
                                   refreshToken: string, now: Time)
    requires CompanyEmailTaken(before, dto.companyEmail) || UserEmailTaken(before, dto.email)
    ensures var e := RegisterEffect(before, dto, passwordHash, jwt, refreshToken, now);
            && e.1 == before
            && (CompanyEmailTaken(before, dto.companyEmail) ==> e.0 == Failure(InvalidOperation(CompanyExistsMessage)))
            && (!CompanyEmailTaken(before, dto.companyEmail) ==> e.0 == Failure(InvalidOperation(UserExistsMessage)))
  {
  }

  /** Register succeeds exactly when both emails are free and both rows fit their columns. */
  lemma RegisterSucceedsIff(before: Tables, dto: RegisterDto, passwordHash: string, jwt: JwtTokenService,
                            refreshToken: string, now: Time)
    ensures RegisterEffect(before, dto, passwordHash, jwt, refreshToken, now).0.Success? <==>
              && !CompanyEmailTaken(before, dto.companyEmail)
              && !UserEmailTaken(before, dto.email)
              && CompanyFits(TrialCompany(dto, now))
              && UserFits(OwnerUser(dto, before.nextCompanyId, passwordHash, now))
  {
  }

  /**
   * A successful registration adds exactly one company and one user, both
   * under fresh ids: the user owns the company, carries the given hash, and
   * is the only user with its email; the company is the only one with its
   * email. The response describes that user and that company.
   */
  lemma RegisterCreatesOwner(before: Tables, dto: RegisterDto, passwordHash: string, jwt: JwtTokenService,
                             refreshToken: string, now: Time)
    requires Consistent(before)
    requires RegisterEffect(before, dto, passwordHash, jwt, refreshToken, now).0.Success?
    ensures var (r, after) := RegisterEffect(before, dto, passwordHash, jwt, refreshToken, now);
            var cid := before.nextCompanyId;
            var uid := before.nextUserId;
            && cid !in before.companies && uid !in before.users
            && after.companies.Keys == before.companies.Keys + {cid}
            && after.users.Keys == before.users.Keys + {uid}
            && (forall k :: k in before.companies ==> after.companies[k] == before.companies[k])
            && (forall k :: k in before.users ==> after.users[k] == before.users[k])
            && after.projects == before.projects && after.documents == before.documents
            && after.projectPermissions == before.projectPermissions && after.auditLogs == before.auditLogs
            && after.companies[cid] == TrialCompany(dto, now).(id := cid)
            && after.users[uid] == OwnerUser(dto, cid, passwordHash, now).(id := uid)
            && after.users[uid].companyId == cid && after.users[uid].role == CompanyOwner
            && after.users[uid].email == dto.email && after.users[uid].passwordHash == passwordHash
            && (forall k :: k in after.users && after.users[k].email == dto.email ==> k == uid)
            && (forall k :: k in after.companies && after.companies[k].email == dto.companyEmail ==> k == cid)
            && r.value.user.id == uid && r.value.user.companyId == cid && r.value.user.companyName == dto.companyName
  {
    FreshIds(before);
  }

  /**
   * Registration is not atomic: when the company row fits and the owner row
   * does not, the new company stays committed with no user at all.
   */
  lemma RegisterOrphansCompany(before: Tables, dto: RegisterDto, passwordHash: string, jwt: JwtTokenService,
                               refreshToken: string, now: Time)
    requires Consistent(before)
    requires !CompanyEmailTaken(before, dto.companyEmail) && !UserEmailTaken(before, dto.email)
    requires CompanyFits(TrialCompany(dto, now)) && !UserFits(OwnerUser(dto, before.nextCompanyId, passwordHash, now))
    ensures var (r, after) := RegisterEffect(before, dto, passwordHash, jwt, refreshToken, now);
            var cid := before.nextCompanyId;
            && r == Failure(StoreFailure(DbUpdate))
            && cid !in before.companies && cid in after.companies
            && after.users == before.users
            && (forall k :: k in after.users ==> after.users[k].companyId != cid)
  {
    FreshIds(before);
  }

  /** Whatever its outcome, Register leaves the tables consistent. */
  lemma RegisterKeepsConsistent(before: Tables, dto: RegisterDto, passwordHash: string,
                                  jwt: JwtTokenService, refreshToken: string, now: Time)
    requires Consistent(before)
    ensures Consistent(RegisterEffect(before, dto, passwordHash, jwt, refreshToken, now).1)
  {
    var company := TrialCompany(dto, now);
    var owner := OwnerUser(dto, before.nextCompanyId, passwordHash, now);
    if !CompanyEmailTaken(before, dto.companyEmail) && !UserEmailTaken(before, dto.email) && CompanyFits(company) {
      InsertCompanyAccepted(before, company);
      var mid := InsertCompany(before, company);
      if UserFits(owner) {
        InsertUserAccepted(mid, owner);
      }
    }
  }

  /** Register never gives two users the same email, since it checks the users of every company. */
  lemma RegisterKeepsEmailsUnique(before: Tables, dto: RegisterDto, passwordHash: string, jwt: JwtTokenService,
                                  refreshToken: string, now: Time)
    requires KeysMatch(before) && UserEmailsGloballyUnique(before.users)
    ensures UserEmailsGloballyUnique(RegisterEffect(before, dto, passwordHash, jwt, refreshToken, now).1.users)
  {
    FreshIds(before);
    var uid := before.nextUserId;
    var owner := OwnerUser(dto, before.nextCompanyId, passwordHash, now);
    if !UserEmailTaken(before, dto.email) {
      AddFreshEmailKeepsUnique(before.users, uid, owner.(id := uid));
    }
  }

  /**
   * LoginAsync once the lookup by email returned user k: the checks of
   * LoginGate decide; on a rejection nothing is written; on success k's
   * LastLoginAt is set by Login and its UpdatedAt by the SaveChanges stamp.
   */
  function LoginEffect(before: Tables, k: int, password: string, hasher: PasswordHasher, jwt: JwtTokenService,
                       refreshToken: string, now: Time): (Result<TokenResponse, AuthError>, Tables)
    requires k in before.users && before.users[k].companyId in before.companies
  {
    var u := before.users[k];
    var c := before.companies[u.companyId];
    match LoginGate(u, c, password, hasher)
    case Some(err) => (Failure(err), before)
    case None =>
      var touched := u.(lastLoginAt := Some(now), updatedAt := Some(now));
      (Success(IssueTokens(jwt, refreshToken, touched, c.name, now)), before.(users := before.users[k := touched]))
  }

  /**
   * Login writes nothing but user k's LastLoginAt and UpdatedAt, and those
   * only when it succeeds.
   */
  lemma LoginWritesOnlyLoginTime(before: Tables, k: int, password: string, hasher: PasswordHasher, jwt: JwtTokenService,
                                 refreshToken: string, now: Time)
    requires k in before.users && before.users[k].companyId in before.companies
    ensures var (r, after) := LoginEffect(before, k, password, hasher, jwt, refreshToken, now);
            && after == before.(users := after.users)
            && after.users.Keys == before.users.Keys
            && (forall j :: j in before.users && j != k ==> after.users[j] == before.users[j])
            && (r.Success? ==> after.users[k] == before.users[k].(lastLoginAt := Some(now), updatedAt := Some(now)))
            && (r.Failure? ==> after == before)
  {
  }

  /**
   * Login as user k succeeds exactly when the password verifies and both the
   * user and its company are active; its token names k, k's email and role
   * and k's company as the tenant.
   */
  lemma LoginSucceedsIff(before: Tables, k: int, password: string, hasher: PasswordHasher, jwt: JwtTokenService,
                         refreshToken: string, now: Time)
    requires KeysMatch(before) && k in before.users && before.users[k].companyId in before.companies
    ensures var r := LoginEffect(before, k, password, hasher, jwt, refreshToken, now).0;
            var u := before.users[k];
            var c := before.companies[u.companyId];
            && (r.Success? <==> hasher.verify(password, u.passwordHash) && u.isActive && c.isActive)
            && (r.Failure? ==> Some(r.error) == LoginGate(u, c, password, hasher))
            && (r.Success? ==>
                  && r.value.token == jwt.generateToken(k, u.email, RoleName(u.role), u.companyId)
                  && r.value.user.id == k && r.value.user.companyId == u.companyId
                  && r.value.user.companyName == c.name && r.value.expiresAt == AddDays(now, 1))
  {
  }

  /** Login leaves the tables consistent: the columns it writes are in no index and no key. */
  lemma LoginKeepsConsistent(before: Tables, k: int, password: string, hasher: PasswordHasher, jwt: JwtTokenService,
                             refreshToken: string, now: Time)
    requires Consistent(before) && k in before.users && before.users[k].companyId in before.companies
    ensures Consistent(LoginEffect(before, k, password, hasher, jwt, refreshToken, now).1)
  {
    var u := before.users[k];
    if LoginGate(u, before.companies[u.companyId], password, hasher).None? {
      ReplaceUserAccepted(before, u.(lastLoginAt := Some(now), updatedAt := Some(now)));
    }
  }

  /** Login keeps emails globally unique, because it changes no email. */
  lemma LoginKeepsEmailsUnique(before: Tables, k: int, password: string, hasher: PasswordHasher, jwt: JwtTokenService,
                               refreshToken: string, now: Time)
    requires k in before.users && before.users[k].companyId in before.companies
    requires UserEmailsGloballyUnique(before.users)
    ensures UserEmailsGloballyUnique(LoginEffect(before, k, password, hasher, jwt, refreshToken, now).1.users)
  {
    var after := LoginEffect(before, k, password, hasher, jwt, refreshToken, now).1;
    assert forall j :: j in after.users ==> j in before.users && after.users[j].email == before.users[j].email;
  }

  /**
   * The round trip of registration and login: after a registration that
   * succeeded, the new owner is the only user with the registered email, and
   * logging in with the registered password succeeds as that owner, with the
   * new company as the token's tenant.
   */
  lemma RegisterThenLoginSucceeds(before: Tables, dto: RegisterDto, hasher: PasswordHasher, jwt: JwtTokenService,
                                  refresh1: string, refresh2: string, now1: Time, now2: Time)
    requires HasherSound(hasher)
    requires RegisterEffect(before, dto, hasher.hashPassword(dto.password), jwt, refresh1, now1).0.Success?
    ensures var (registered, mid) := RegisterEffect(before, dto, hasher.hashPassword(dto.password), jwt, refresh1, now1);
            var uid := registered.value.user.id;
            && uid in mid.users && mid.users[uid].companyId in mid.companies
            && (forall j :: j in mid.users && mid.users[j].email == dto.email ==> j == uid)
            && var loggedIn := LoginEffect(mid, uid, dto.password, hasher, jwt, refresh2, now2).0;
               && loggedIn.Success?
               && loggedIn.value.user.id == uid
               && loggedIn.value.user.companyId == registered.value.user.companyId
               && loggedIn.value.user.role == RoleName(CompanyOwner)
               && loggedIn.value.token == jwt.generateToken(uid, dto.email, RoleName(CompanyOwner), registered.value.user.companyId)
  {
    var hash := hasher.hashPassword(dto.password);
    var mid := RegisterEffect(before, dto, hash, jwt, refresh1, now1).1;
    var uid := before.nextUserId;
    var owner := OwnerUser(dto, before.nextCompanyId, hash, now1).(id := uid);
    assert mid.users == before.users[uid := owner];
    assert mid.companies[owner.companyId] == TrialCompany(dto, now1).(id := before.nextCompanyId);
    assert hasher.verify(dto.password, owner.passwordHash);
  }

  /**
   * Committing, after one Unchanged entry, a new user of an existing company
   * whose email no user has: the user is inserted under the next identity
   * value, and the store accepts it exactly when its columns fit.
   */
  lemma SavingAddedUser(t: Tables, first: Entry, u: User, now: Time)
    requires Consistent(t) && first.state == Unchanged && u.createdAt == now
    requires u.companyId in t.companies && !UserEmailTaken(t, u.email)
    ensures Commit(t, StampAll([first, Entry(Added, UserRow(u))], now))
            == Success((InsertUser(t, u), [first, Entry(Unchanged, UserRow(u.(id := t.nextUserId)))]))
    ensures Consistent(InsertUser(t, u)) <==> UserFits(u)
  {
    assert StampAll([first, Entry(Added, UserRow(u))], now) == [first, Entry(Added, UserRow(u))];
    CommitAfterUnchanged(t, first, Entry(Added, UserRow(u)));
    var saved := Entry(Unchanged, UserRow(u.(id := t.nextUserId)));
    assert ApplyEntry(t, Entry(Added, UserRow(u))) == Success((InsertUser(t, u), [saved]));
    assert [first] + [saved] == [first, saved];
    InsertUserAccepted(t, u);
  }

  /** AuthService, over a request's ApplicationDbContext, the JWT service and BCrypt. */
  class AuthService {
    const db: AppDb
    const jwt: JwtTokenService
    const hasher: PasswordHasher

    constructor (db: AppDb, jwt: JwtTokenService, hasher: PasswordHasher)
      ensures this.db == db && this.jwt == jwt && this.hasher == hasher
    {
      this.db := db;
      this.jwt := jwt;
      this.hasher := hasher;
    }

    ghost predicate Valid()
      reads db
    {
      db.Valid()
    }

    /** RegisterAsync, over a context that tracks nothing yet. */
    method Register(dto: RegisterDto, refreshToken: string, now: Time) returns (r: Result<TokenResponse, AuthError>)
      requires Valid() && db.tracked == []
      modifies db
      ensures Valid()
      ensures (r, db.Snapshot()) == RegisterEffect(old(db.Snapshot()), dto, hasher.hashPassword(dto.password), jwt, refreshToken, now)
      ensures RegisterTracked(old(db.Snapshot()), dto, hasher.hashPassword(dto.password), now, db.Snapshot(), db.tracked)
    {
      var existingCompany := db.FindCompanyByEmail(dto.companyEmail);
      if existingCompany.Some? {
        r := Failure(InvalidOperation(CompanyExistsMessage));
        return;
      }
      var existingUser := db.FindUserByEmail(dto.email, false);
      if existingUser.Some? {
        r := Failure(InvalidOperation(UserExistsMessage));
        return;
      }

      r := CreateTrialAccount(dto, refreshToken, now);
    }

    /**
     * The second half of RegisterAsync, once both emails are known to be
     * free: the Trial company is saved, then its owner.
     */
    method CreateTrialAccount(dto: RegisterDto, refreshToken: string, now: Time) returns (r: Result<TokenResponse, AuthError>)
      requires Valid() && db.tracked == []
      requires !CompanyEmailTaken(db.Snapshot(), dto.companyEmail) && !UserEmailTaken(db.Snapshot(), dto.email)
      modifies db
      ensures Valid()
      ensures (r, db.Snapshot()) == RegisterEffect(old(db.Snapshot()), dto, hasher.hashPassword(dto.password), jwt, refreshToken, now)
      ensures RegisterTracked(old(db.Snapshot()), dto, hasher.hashPassword(dto.password), now, db.Snapshot(), db.tracked)
    {
      var company := TrialCompany(dto, now);
      var saved, companyId := SaveNewCompany(company, now);
      if saved.Failure? {
        r := Failure(StoreFailure(saved.error));
        return;
      }

      var passwordHash := hasher.hashPassword(dto.password);
      var user := OwnerUser(dto, companyId, passwordHash, now);
      var userId;
      saved, userId := SaveNewUser(user, now);
      if saved.Failure? {
        r := Failure(StoreFailure(saved.error));
        return;
      }
      r := Success(IssueTokens(jwt, refreshToken, user.(id := userId), company.name, now));
    }

    /**
     * `Companies.Add(company)` then SaveChangesAsync, with the new company as
     * the only tracked entity. The row is stored, under the next identity
     * value, exactly when its columns fit.
     */
    method SaveNewCompany(company: Company, now: Time) returns (saved: Result<nat, DbError>, companyId: int)
      requires Valid() && db.tracked == []
      requires company.createdAt == now && !CompanyEmailTaken(db.Snapshot(), company.email)
      modifies db
      ensures Valid()
      ensures companyId == old(db.nextCompanyId) && companyId !in old(db.companies)
      ensures saved.Success? <==> CompanyFits(company)
      ensures saved.Success? ==>
                db.Snapshot() == InsertCompany(old(db.Snapshot()), company)
                && db.tracked == [Entry(Unchanged, CompanyRow(company.(id := companyId)))]
      ensures saved.Failure? ==>
                saved.error == DbUpdate && db.Snapshot() == old(db.Snapshot())
                && db.tracked == [Entry(Added, CompanyRow(company))]
    {
      ghost var before := db.Snapshot();
      FreshIds(before);
      companyId := db.nextCompanyId;
      db.Add(CompanyRow(company));
      assert StampAll(db.tracked, now) == [Entry(Added, CompanyRow(company))];
      CommitOne(before, Entry(Added, CompanyRow(company)));
      InsertCompanyAccepted(before, company);
      saved := db.SaveChanges(now);
      if saved.Success? {
        // EF Core writes the identity value back into the tracked entity.
        companyId := db.tracked[0].row.company.id;
      }
    }

    /**
     * `Users.Add(user)` then SaveChangesAsync, after the company it belongs to
     * was saved in this context and no user has its email. The row is stored,
     * under the next identity value, exactly when its columns fit.
     */
    method SaveNewUser(user: User, now: Time) returns (saved: Result<nat, DbError>, userId: int)
      requires Valid() && |db.tracked| == 1 && db.tracked[0].state == Unchanged
      requires user.createdAt == now && user.companyId in db.companies && !UserEmailTaken(db.Snapshot(), user.email)
      modifies db
      ensures Valid()
      ensures userId == old(db.nextUserId) && userId !in old(db.users)
      ensures saved.Success? <==> UserFits(user)
      ensures saved.Success? ==>
                db.Snapshot() == InsertUser(old(db.Snapshot()), user)
                && db.tracked == old(db.tracked) + [Entry(Unchanged, UserRow(user.(id := userId)))]
      ensures saved.Failure? ==>
                saved.error == DbUpdate && db.Snapshot() == old(db.Snapshot())
                && db.tracked == old(db.tracked) + [Entry(Added, UserRow(user))]
    {
      ghost var before := db.Snapshot();
      FreshIds(before);
      userId := db.nextUserId;
      ghost var first := db.tracked[0];
      ghost var stored := Entry(Unchanged, UserRow(user.(id := userId)));
      SavingAddedUser(before, first, user, now);
      db.Add(UserRow(user));
      assert db.tracked == [first, Entry(Added, UserRow(user))];
      saved := db.SaveChanges(now);
      if UserFits(user) {
        assert db.tracked == [first, stored];
        userId := db.tracked[1].row.user.id;
      }
    }

    /**
     * LoginAsync, over a context that tracks nothing yet. The user is looked
     * up by exact email together with its company; when several companies
     * have a user with that email, any one of them may be found.
     */
    method Login(dto: LoginDto, refreshToken: string, now: Time) returns (r: Result<TokenResponse, AuthError>)
      requires Valid() && db.tracked == []
      modifies db
      ensures Valid()
      ensures !UserEmailTaken(old(db.Snapshot()), dto.email) ==>
                r == Failure(Unauthorized(InvalidCredentialsMessage)) && db.Snapshot() == old(db.Snapshot()) && db.tracked == []
      ensures UserEmailTaken(old(db.Snapshot()), dto.email) ==>
                exists k :: && k in old(db.users) && old(db.users)[k].email == dto.email
                            && old(db.users)[k].companyId in old(db.companies)
                            && (r, db.Snapshot()) == LoginEffect(old(db.Snapshot()), k, dto.password, hasher, jwt, refreshToken, now)
                            && k in db.users && db.users[k].companyId in db.companies
                            && db.tracked == [Entry(Unchanged, UserRow(db.users[k])),
                                              Entry(Unchanged, CompanyRow(db.companies[db.users[k].companyId]))]
    {
      var found := db.FindUserByEmail(dto.email, true);
      if found.None? {
        r := Failure(Unauthorized(InvalidCredentialsMessage));
        return;
      }
      var user := found.value;
      var company := db.companies[user.companyId];

      if !hasher.verify(dto.password, user.passwordHash) {
        r := Failure(Unauthorized(InvalidCredentialsMessage));
        return;
      }
      if !user.isActive {
        r := Failure(Unauthorized(UserInactiveMessage));
        return;
      }
      if !company.isActive {
        r := Failure(Unauthorized(CompanyInactiveMessage));
        return;
      }

      user := user.(lastLoginAt := Some(now));
      SaveLoginTime(user, company, now);
      var savedUser := db.tracked[0].row.user;
      r := Success(IssueTokens(jwt, refreshToken, savedUser, company.name, now));
    }

    /**
     * Marks the found user, with its new LastLoginAt, as Modified and saves:
     * the stamp adds UpdatedAt, and only that user's row changes.
     */
    method SaveLoginTime(user: User, company: Company, now: Time)
      requires Valid() && user.id in db.users && user == db.users[user.id].(lastLoginAt := user.lastLoginAt)
      requires db.tracked == [Entry(Unchanged, UserRow(db.users[user.id])), Entry(Unchanged, CompanyRow(company))]
      modifies db
      ensures Valid()
      ensures db.Snapshot() == old(db.Snapshot()).(users := old(db.users)[user.id := user.(updatedAt := Some(now))])
      ensures db.tracked == [Entry(Unchanged, UserRow(user.(updatedAt := Some(now)))), Entry(Unchanged, CompanyRow(company))]
    {
      ghost var before := db.Snapshot();
      db.MarkModified(0, UserRow(user));
      ghost var touched := user.(updatedAt := Some(now));
      assert StampAll(db.tracked, now) == [Entry(Modified, UserRow(touched)), Entry(Unchanged, CompanyRow(company))];
      CommitBeforeUnchanged(before, Entry(Modified, UserRow(touched)), Entry(Unchanged, CompanyRow(company)));
      ReplaceUserAccepted(before, touched);
      var _ := db.SaveChanges(now);
    }

    /** RefreshTokenAsync is a placeholder: it always throws and never returns a token. */
    function RefreshToken(refreshToken: string): (r: Result<TokenResponse, AuthError>)
      ensures !r.Success?
      ensures r == Failure(NotImplemented(RefreshNotImplementedMessage))
    {
      Failure(NotImplemented(RefreshNotImplementedMessage))
    }

    /** ValidateTokenAsync answers whatever the token service's ValidateToken answers. */
    function ValidateToken(token: string): (valid: bool)
      ensures valid == jwt.validateToken(token)
    {
      jwt.validateToken(token)
    }
  }

  /**
   * A registration followed, in a new request, by a login with the same
   * credentials: when the registration succeeds, so does the login, as the
   * new owner of the new company.
   */
  method RegisterThenLogin(svc: AuthService, dto: RegisterDto, refresh1: string, refresh2: string, now1: Time, now2: Time)
    returns (registered: Result<TokenResponse, AuthError>, loggedIn: Result<TokenResponse, AuthError>)
    requires svc.Valid() && svc.db.tracked == [] && HasherSound(svc.hasher)
    modifies svc.db
    ensures registered.Success? ==>
              && loggedIn.Success?
              && loggedIn.value.user.id == registered.value.user.id
              && loggedIn.value.user.companyId == registered.value.user.companyId
              && loggedIn.value.user.role == RoleName(CompanyOwner)
              && loggedIn.value.token ==
                   svc.jwt.generateToken(registered.value.user.id, dto.email, RoleName(CompanyOwner), registered.value.user.companyId)
  {
    ghost var before := svc.db.Snapshot();
    registered := svc.Register(dto, refresh1, now1);
    svc.db.ClearTracker();
    ghost var mid := svc.db.Snapshot();
    loggedIn := svc.Login(LoginDto(dto.email, dto.password), refresh2, now2);
    if registered.Success? {
      RegisterThenLoginSucceeds(before, dto, svc.hasher, svc.jwt, refresh1, refresh2, now1, now2);
      ghost var uid := registered.value.user.id;
      assert mid.users[uid].email == dto.email;
      ghost var k :| k in mid.users && mid.users[k].email == dto.email && mid.users[k].companyId in mid.companies
               && (loggedIn, svc.db.Snapshot()) == LoginEffect(mid, k, dto.password, svc.hasher, svc.jwt, refresh2, now2);
      assert k == uid;
    }
  }
}
