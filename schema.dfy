/** The rows of the relational schema that the core reads and writes, with
    the enum members and column defaults of drizzle/schema.ts. Columns that no
    modelled operation reads or writes (creation timestamps, per-check
    timestamps, OTP attempt counters, encryption key ids) are omitted. */
module Schema {
  import opened Common

  datatype Role = RegularUser | Admin
  datatype UserType = Tenant | Landlord | Both

  datatype VerificationStatus = Pending | Approved | Rejected
  datatype TrustBadge = NotVerified | Verified

  datatype DocumentType = GovernmentId | Selfie | PropertyPhoto | OtherDocument

  /** The enum literal stored in the `documentType` column. */
  function DocumentTypeName(t: DocumentType): string {
    match t
    case GovernmentId => "government_id"
    case Selfie => "selfie"
    case PropertyPhoto => "property_photo"
    case OtherDocument => "other"
  }

  datatype SleepSchedule = EarlyBird | NightOwl | Flexible
  datatype SmokingPreference = NoSmoking | SmokesOccasionally | SmokesRegularly
  datatype DrinkingPreference = NoDrinking | DrinksOccasionally | DrinksRegularly

  /** A `users` row; `openId` is its unique key. */
  datatype UserRow = UserRow(
    openId: string,
    name: Option<string>,
    email: Option<string>,
    loginMethod: Option<string>,
    phoneNumber: Option<string>,
    profilePictureUrl: Option<string>,
    role: Role,
    userType: UserType,
    lastSignedIn: int)

  /** The columns of a `userProfiles` row that compatibility scoring reads.
      A `None` is a SQL NULL. */
  datatype ProfileRow = ProfileRow(
    userId: int,
    budgetMin: Option<real>,
    budgetMax: Option<real>,
    sleepSchedule: Option<SleepSchedule>,
    cleanlinessLevel: Option<int>,
    smokingPreference: Option<SmokingPreference>,
    drinkingPreference: Option<DrinkingPreference>,
    petsAllowed: Option<bool>)

  /** A `verifications` row; `userId` is its unique key. */
  datatype VerificationRow = VerificationRow(
    userId: int,
    status: VerificationStatus,
    trustBadge: TrustBadge,
    emailVerified: bool,
    phoneVerified: bool,
    idVerified: bool,
    selfieVerified: bool,
    reviewedBy: Option<int>,
    reviewedAt: Option<int>,
    rejectionReason: Option<string>)

  datatype DocumentRow = DocumentRow(
    userId: int,
    documentType: DocumentType,
    fileKey: string,
    fileUrl: string,
    mimeType: Option<string>,
    fileSize: Option<int>,
    verificationId: Option<int>,
    propertyId: Option<int>,
    encryptionAlgorithm: string)

  datatype ConversationRow = ConversationRow(id: nat, user1Id: int, user2Id: int)

  datatype MatchRow = MatchRow(
    userId1: int,
    userId2: int,
    compatibilityScore: int,
    budgetMatch: int,
    scheduleMatch: int,
    cleanlinessMatch: int,
    lifestyleMatch: int,
    petsMatch: int,
    explanation: string,
    status: string)

  datatype AuditLogRow = AuditLogRow(
    adminId: int,
    action: string,
    targetUserId: Option<int>,
    targetType: Option<string>,
    targetId: Option<int>,
    details: map<string, string>)
}
