/** The stand-alone admin router (server/routers/admin.ts): a role guard in
    front of every procedure, zod input schemas with bounds and defaults, and
    handlers that return constant or echoed results. A procedure is a
    function from the caller's role and the raw input to a response; the
    guard runs before the input is parsed, as tRPC runs middleware first. */
module AdminRouter {
  import opened Common
  import opened Schema

  datatype Response<+T> =
    | Ok(value: T)
    | Forbidden(message: string)
    | BadRequest

  const ForbiddenMessage := "Only administrators can access this resource"

  /** `adminProcedure`: `role` is `None` when there is no user. */
  function AdminGuard(role: Option<Role>): (r: Option<Response<()>>)
    ensures r.None? <==> role == Some(Admin)
    ensures r.Some? ==> r.value == Forbidden(ForbiddenMessage)
  {
    if role != Some(Admin) then Some(Forbidden(ForbiddenMessage)) else None
  }

  // ---------------------------------------------------------------------------
  // Input parsing
  // ---------------------------------------------------------------------------

  /** `z.number().min(lo).max(hi).default(d)`, or with no upper bound when
      `hi` is `None`; an absent value takes the default. */
  function ParseNumber(raw: Option<int>, lo: int, hi: Option<int>, default: int): (r: Option<int>)
    ensures raw.None? ==> r == Some(default)
    ensures raw.Some? ==> (r.Some? <==> lo <= raw.value && (hi.None? || raw.value <= hi.value))
    ensures raw.Some? && r.Some? ==> r.value == raw.value
  {
    match raw
    case None => Some(default)
    case Some(n) => if lo <= n && (hi.None? || n <= hi.value) then Some(n) else None
  }

  /** `z.enum(options)`, with `.default(d)` when `default` is given. */
  function ParseEnum(raw: Option<string>, options: seq<string>, default: Option<string>): (r: Option<Option<string>>)
    ensures raw.None? ==> r == Some(default)
    ensures raw.Some? ==> (r.Some? <==> raw.value in options)
    ensures raw.Some? && r.Some? ==> r.value == raw
  {
    match raw
    case None => Some(default)
    case Some(s) => if s in options then Some(Some(s)) else None
  }

  const Priorities := ["all", "low", "medium", "high"]
  const UserTypes := ["all", "tenant", "landlord"]
  const FlagTypes := ["duplicate_email", "duplicate_phone", "suspicious_documents", "fraud_attempt", "identity_mismatch", "other"]
  const BadgeTypes := ["verified", "unverified", "suspended"]

  datatype PendingInput = PendingInput(limit: Option<int>, offset: Option<int>, priority: Option<string>, userType: Option<string>)
  datatype PendingQuery = PendingQuery(limit: int, offset: int, priority: string, userType: string)

  /** The `getPendingVerifications` schema. */
  function ParsePendingInput(i: PendingInput): (r: Option<PendingQuery>)
    ensures r.Some? <==>
      (i.limit.None? || 1 <= i.limit.value <= 100) && (i.offset.None? || 0 <= i.offset.value)
      && (i.priority.None? || i.priority.value in Priorities) && (i.userType.None? || i.userType.value in UserTypes)
    ensures r.Some? ==> 1 <= r.value.limit <= 100 && 0 <= r.value.offset
    ensures r.Some? ==> r.value.limit == GetOr(i.limit, 20) && r.value.offset == GetOr(i.offset, 0)
    ensures r.Some? ==> r.value.priority == GetOr(i.priority, "all") && r.value.userType == GetOr(i.userType, "all")
  {
    var limit := ParseNumber(i.limit, 1, Some(100), 20);
    var offset := ParseNumber(i.offset, 0, None, 0);
    var priority := ParseEnum(i.priority, Priorities, Some("all"));
    var userType := ParseEnum(i.userType, UserTypes, Some("all"));
    if limit.Some? && offset.Some? && priority.Some? && userType.Some? then
      Some(PendingQuery(limit.value, offset.value, priority.value.value, userType.value.value))
    else None
  }

  datatype AuditLogInput = AuditLogInput(limit: Option<int>, offset: Option<int>, action: Option<string>, userId: Option<string>)
  datatype AuditLogQuery = AuditLogQuery(limit: int, offset: int, action: Option<string>, userId: Option<string>)

  /** The `getAuditLogs` schema. */
  function ParseAuditLogInput(i: AuditLogInput): (r: Option<AuditLogQuery>)
    ensures r.Some? <==> (i.limit.None? || 1 <= i.limit.value <= 100) && (i.offset.None? || 0 <= i.offset.value)
    ensures r.Some? ==> 1 <= r.value.limit <= 100 && 0 <= r.value.offset
    ensures r.Some? ==> r.value == AuditLogQuery(GetOr(i.limit, 50), GetOr(i.offset, 0), i.action, i.userId)
  {
    var limit := ParseNumber(i.limit, 1, Some(100), 50);
    var offset := ParseNumber(i.offset, 0, None, 0);
    if limit.Some? && offset.Some? then Some(AuditLogQuery(limit.value, offset.value, i.action, i.userId)) else None
  }

  // ---------------------------------------------------------------------------
  // Queries
  // ---------------------------------------------------------------------------

  /** A page of results; the stubs never return any rows. */
  datatype Page = Page(rows: seq<string>, total: nat, hasMore: bool)

  datatype Statistics = Statistics(
    totalPending: nat, totalApproved: nat, totalRejected: nat,
    averageReviewTime: nat, flaggedUsers: nat, recentActivity: seq<string>)

  /** Runs the guard, then the parser, then the handler. */
  function Guarded<I, Q, T>(role: Option<Role>, input: I, parse: I -> Option<Q>, handle: Q -> T): (r: Response<T>)
    ensures role != Some(Admin) ==> r == Forbidden(ForbiddenMessage)
    ensures role == Some(Admin) && parse(input).None? ==> r == BadRequest
    ensures role == Some(Admin) && parse(input).Some? ==> r == Ok(handle(parse(input).value))
  {
    if AdminGuard(role).Some? then Forbidden(ForbiddenMessage)
    else match parse(input)
      case None => BadRequest
      case Some(q) => Ok(handle(q))
  }

  function GetPendingVerifications(role: Option<Role>, i: PendingInput): (r: Response<Page>)
    ensures role == Some(Admin) && ParsePendingInput(i).Some? ==> r == Ok(Page([], 0, false))
  {
    Guarded(role, i, ParsePendingInput, (q: PendingQuery) => Page([], 0, false))
  }

  function GetAuditLogs(role: Option<Role>, i: AuditLogInput): (r: Response<Page>)
    ensures role == Some(Admin) && ParseAuditLogInput(i).Some? ==> r == Ok(Page([], 0, false))
  {
    Guarded(role, i, ParseAuditLogInput, (q: AuditLogQuery) => Page([], 0, false))
  }

  /** `getVerificationDetails`: the verification is always `null`. */
  function GetVerificationDetails(role: Option<Role>, verificationId: string): (r: Response<Option<string>>)
    ensures role == Some(Admin) ==> r == Ok(None)
  {
    Guarded(role, verificationId, (s: string) => Some(s), (s: string) => None)
  }

  function GetStatistics(role: Option<Role>): (r: Response<Statistics>)
    ensures role == Some(Admin) ==> r == Ok(Statistics(0, 0, 0, 0, 0, []))
  {
    Guarded(role, (), (u: ()) => Some(u), (u: ()) => Statistics(0, 0, 0, 0, 0, []))
  }

  // ---------------------------------------------------------------------------
  // Stub mutations
  // ---------------------------------------------------------------------------

  /** The input of each stub mutation; `None` is an omitted optional field. */
  datatype AdminMutation =
    | ApproveVerification(verificationId: string, notes: Option<string>)
    | RejectVerification(verificationId: string, reason: string, notes: Option<string>)
    | RequestVerificationInfo(verificationId: string, message: string, requiredDocuments: Option<seq<string>>)
    | ApproveDocument(documentId: string, notes: Option<string>)
    | RejectDocument(documentId: string, reason: string, notes: Option<string>)
    | FlagUser(userId: string, flagType: string, description: string)
    | RemoveUserFlag(userId: string, flagId: string, reason: string)
    | SetUserTrustBadge(userId: string, verified: bool, badgeType: Option<string>, badgeReason: Option<string>)
    | SuspendUser(userId: string, reason: string, duration: Option<int>)
    | UnsuspendUser(userId: string, reason: string)

  /** `{ success: true, <idField>: <id> }`. */
  datatype Echo = Echo(success: bool, idField: string, id: string)

  /** The id a mutation names, and the field it is echoed under. */
  function TargetOf(m: AdminMutation): (string, string) {
    match m
    case ApproveVerification(v, _) => ("verificationId", v)
    case RejectVerification(v, _, _) => ("verificationId", v)
    case RequestVerificationInfo(v, _, _) => ("verificationId", v)
    case ApproveDocument(d, _) => ("documentId", d)
    case RejectDocument(d, _, _) => ("documentId", d)
    case FlagUser(u, _, _) => ("userId", u)
    case RemoveUserFlag(u, _, _) => ("userId", u)
    case SetUserTrustBadge(u, _, _, _) => ("userId", u)
    case SuspendUser(u, _, _) => ("userId", u)
    case UnsuspendUser(u, _) => ("userId", u)
  }

  /** The enum fields a mutation's schema checks; the trust badge's type
      defaults to "unverified". */
  function ParseMutation(m: AdminMutation): (r: Option<AdminMutation>)
    ensures m.FlagUser? ==> (r.Some? <==> m.flagType in FlagTypes)
    ensures m.SetUserTrustBadge? ==> (r.Some? <==> m.badgeType.None? || m.badgeType.value in BadgeTypes)
    ensures m.SetUserTrustBadge? && r.Some? ==> r.value == m.(badgeType := Some(GetOr(m.badgeType, "unverified")))
    ensures !m.FlagUser? && !m.SetUserTrustBadge? ==> r == Some(m)
  {
    match m
    case FlagUser(_, flagType, _) => if flagType in FlagTypes then Some(m) else None
    case SetUserTrustBadge(_, _, badgeType, _) =>
      var parsed := ParseEnum(badgeType, BadgeTypes, Some("unverified"));
      if parsed.Some? then Some(m.(badgeType := parsed.value)) else None
    case _ => Some(m)
  }

  function RunMutation(role: Option<Role>, m: AdminMutation): (r: Response<Echo>) {
    Guarded(role, m, ParseMutation, (p: AdminMutation) => Echo(true, TargetOf(p).0, TargetOf(p).1))
  }

  /** Every stub mutation is refused for anyone but an admin, whatever its
      input; for an admin with a well-formed input it succeeds and echoes
      the id it was given, under that id's own field name. */
  lemma MutationsGuardThenEcho(role: Option<Role>, m: AdminMutation)
    ensures role != Some(Admin) ==> RunMutation(role, m) == Forbidden(ForbiddenMessage)
    ensures RunMutation(role, m).Ok? <==> role == Some(Admin) && ParseMutation(m).Some?
    ensures RunMutation(role, m).Ok? ==> RunMutation(role, m).value == Echo(true, TargetOf(m).0, TargetOf(m).1)
    ensures TargetOf(m).0 == "verificationId" <==> m.ApproveVerification? || m.RejectVerification? || m.RequestVerificationInfo?
    ensures TargetOf(m).0 == "documentId" <==> m.ApproveDocument? || m.RejectDocument?
  {
    if role == Some(Admin) && ParseMutation(m).Some? {
      assert TargetOf(ParseMutation(m).value) == TargetOf(m);
    }
  }

  /** The guard precedes input checking: a non-admin sees FORBIDDEN even
      for a malformed input, never a validation error. */
  lemma GuardBeforeValidation(role: Option<Role>, i: PendingInput)
    requires role != Some(Admin)
    requires i.limit == Some(0)
    ensures GetPendingVerifications(role, i) == Forbidden(ForbiddenMessage)
    ensures GetPendingVerifications(Some(Admin), i) == BadRequest
  {
  }

  /** An empty `getPendingVerifications` input means the first 20 of all
      priorities and user types. */
  lemma PendingDefaults()
    ensures ParsePendingInput(PendingInput(None, None, None, None)) == Some(PendingQuery(20, 0, "all", "all"))
    ensures ParseAuditLogInput(AuditLogInput(None, None, None, None)) == Some(AuditLogQuery(50, 0, None, None))
  {
  }
}
