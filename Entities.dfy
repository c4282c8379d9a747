/**
 * The domain records of the tenant store (LegalDocSystem.Domain.Entities).
 * Company and User are given in full; Project, Document, ProjectPermission and
 * AuditLog keep only the keys and foreign keys the store's delete rules need.
 * A record's defaults (its C# property initialisers) are given by a function.
 */
module Entities {
  import opened Wrappers

  /** A .NET DateTime, as a count of 100-nanosecond ticks. */
  type Time = int

  const TicksPerMinute: int := 600_000_000
  const TicksPerDay: int := 24 * 60 * TicksPerMinute

  /** DateTime.AddMinutes */
  function AddMinutes(t: Time, minutes: int): Time { t + minutes * TicksPerMinute }

  /** DateTime.AddDays */
  function AddDays(t: Time, days: int): Time { t + days * TicksPerDay }

  /** The C# `long`. */
  newtype int64 = x: int | -0x8000_0000_0000_0000 <= x < 0x8000_0000_0000_0000

  datatype SubscriptionTier = Trial | Basic | Professional | Enterprise

  datatype UserRole = CompanyOwner | Admin | User | Viewer

  /** Enum.ToString() of a role: the member's name. */
  function RoleName(role: UserRole): (name: string)
    ensures name != ""
  {
    match role
    case CompanyOwner => "CompanyOwner"
    case Admin => "Admin"
    case User => "User"
    case Viewer => "Viewer"
  }

  /** Distinct roles print differently, so a role survives its trip through a token's claim. */
  lemma RoleNameInjective(a: UserRole, b: UserRole)
    ensures RoleName(a) == RoleName(b) ==> a == b
  {
  }

  datatype PermissionLevel = None | Viewer | Commenter | Editor | Admin

  datatype ProjectStatus = Planning | Active | OnHold | Completed | Cancelled | Archived

  /** A tenant. The last three fields come from the common base entity. */
  datatype Company = Company(
    id: int,
    name: string,
    email: string,
    phone: string,
    address: string,
    city: string,
    state: string,
    country: string,
    postalCode: string,
    subscriptionTier: SubscriptionTier,
    subscriptionStartDate: Time,
    subscriptionEndDate: Option<Time>,
    isActive: bool,
    storageUsedBytes: int64,
    storageQuotaBytes: int64,
    createdAt: Time,
    updatedAt: Option<Time>,
    createdBy: string)

  /** A user account; it belongs to the one company named by companyId. */
  datatype User = User(
    id: int,
    companyId: int,
    firstName: string,
    lastName: string,
    email: string,
    passwordHash: string,
    phone: string,
    role: UserRole,
    isActive: bool,
    lastLoginAt: Option<Time>,
    profileImageUrl: Option<string>,
    resetToken: Option<string>,
    resetTokenExpiry: Option<Time>,
    createdAt: Time,
    updatedAt: Option<Time>,
    createdBy: string)

  datatype Project = Project(id: int, companyId: int, status: ProjectStatus)

  datatype Document = Document(
    id: int,
    projectId: int,
    uploadedByUserId: int,
    version: int,
    parentDocumentId: Option<int>,
    isLatestVersion: bool)

  datatype ProjectPermission = ProjectPermission(
    id: int,
    projectId: int,
    userId: int,
    permissionLevel: PermissionLevel,
    expiresAt: Option<Time>)

  datatype AuditLog = AuditLog(id: int, companyId: int, userId: int)

  /** `new Company()`: every property at its initialiser or its type's default. */
  function NewCompany(): (c: Company)
    ensures c.subscriptionTier == Trial && c.isActive
    ensures c.subscriptionEndDate == Option.None
    ensures c.name == c.email == c.phone == c.address == c.city == c.state == c.country == c.postalCode == ""
    ensures c.storageUsedBytes == 0 && c.storageQuotaBytes == 0
  {
    Company(0, "", "", "", "", "", "", "", "", Trial, 0, Option.None, true, 0, 0, 0, Option.None, "")
  }

  /** `new User()`: every property at its initialiser or its type's default. */
  function NewUser(): (u: User)
    ensures u.role == UserRole.User && u.isActive
    ensures u.lastLoginAt == Option.None && u.profileImageUrl == Option.None
    ensures u.resetToken == Option.None && u.resetTokenExpiry == Option.None
    ensures u.firstName == u.lastName == u.email == u.passwordHash == u.phone == ""
  {
    User.User(0, 0, "", "", "", "", "", UserRole.User, true, Option.None, Option.None, Option.None, Option.None, 0, Option.None, "")
  }
}
