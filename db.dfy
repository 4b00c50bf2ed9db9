/** The data-access layer of server/db.ts over an in-memory store: each table
    is a map keyed by its unique column, or a sequence in insertion order when
    the code reads rows back by a non-unique column. The verification-record
    transitions are pure functions on a row; the store methods apply them. */
module Db {
  import opened Common
  import opened Schema

  // ===========================================================================
  // Verification records
  // ===========================================================================

  /** The row inserted by `getOrCreateVerification`: pending, not verified,
      every sub-check at its column default (false), no review. */
  function NewVerification(userId: int): (v: VerificationRow)
    ensures v.userId == userId && v.status == Pending && v.trustBadge == NotVerified
    ensures !v.emailVerified && !v.phoneVerified && !v.idVerified && !v.selfieVerified
    ensures v.reviewedBy.None? && v.reviewedAt.None? && v.rejectionReason.None?
  {
    VerificationRow(userId, Pending, NotVerified, false, false, false, false, None, None, None)
  }

  predicate AllChecks(v: VerificationRow) {
    v.emailVerified && v.phoneVerified && v.idVerified && v.selfieVerified
  }

  /** The argument of `updateVerificationStatus`: `None` is an omitted field. */
  datatype SubCheckUpdate = SubCheckUpdate(
    emailVerified: Option<bool>,
    phoneVerified: Option<bool>,
    idVerified: Option<bool>,
    selfieVerified: Option<bool>)
  {
    predicate IsEmpty() {
      emailVerified.None? && phoneVerified.None? && idVerified.None? && selfieVerified.None?
    }

    /** Every supplied field is `true`. */
    predicate OnlySetsTrue() {
      emailVerified != Some(false) && phoneVerified != Some(false)
      && idVerified != Some(false) && selfieVerified != Some(false)
    }
  }

  const EmailChecked := SubCheckUpdate(Some(true), None, None, None)
  const PhoneChecked := SubCheckUpdate(None, Some(true), None, None)
  const SelfieChecked := SubCheckUpdate(None, None, None, Some(true))
  const IdPending := SubCheckUpdate(None, None, Some(false), None)

  /** The row after `updateVerificationStatus`: an empty update writes
      nothing; otherwise the supplied sub-checks are written, and when the
      merged sub-checks are all true the record is also approved with the
      verified badge. Nothing else is touched. */
  function StatusUpdated(v: VerificationRow, u: SubCheckUpdate): (r: VerificationRow)
    ensures u.IsEmpty() ==> r == v
    ensures r.emailVerified == GetOr(u.emailVerified, v.emailVerified)
    ensures r.phoneVerified == GetOr(u.phoneVerified, v.phoneVerified)
    ensures r.idVerified == GetOr(u.idVerified, v.idVerified)
    ensures r.selfieVerified == GetOr(u.selfieVerified, v.selfieVerified)
    ensures !u.IsEmpty() && AllChecks(r) ==> r.status == Approved && r.trustBadge == Verified
    ensures u.IsEmpty() || !AllChecks(r) ==> r.status == v.status && r.trustBadge == v.trustBadge
    ensures r.userId == v.userId && r.reviewedBy == v.reviewedBy && r.reviewedAt == v.reviewedAt
    ensures r.rejectionReason == v.rejectionReason
    ensures v.trustBadge == Verified ==> r.trustBadge == Verified
  {
    if u.IsEmpty() then v
    else
      var merged := v.(
        emailVerified := GetOr(u.emailVerified, v.emailVerified),
        phoneVerified := GetOr(u.phoneVerified, v.phoneVerified),
        idVerified := GetOr(u.idVerified, v.idVerified),
        selfieVerified := GetOr(u.selfieVerified, v.selfieVerified));
      if AllChecks(merged) then merged.(trustBadge := Verified, status := Approved) else merged
  }

  /** The verification table after `updateVerificationStatus(userId, u)`:
      only that user's row can change, and only if it exists. */
  function AfterStatusUpdate(vs: map<int, VerificationRow>, userId: int, u: SubCheckUpdate): (r: map<int, VerificationRow>)
    ensures r.Keys == vs.Keys
    ensures forall id :: id in vs && id != userId ==> r[id] == vs[id]
    ensures userId in vs ==> r[userId] == StatusUpdated(vs[userId], u)
  {
    if u.IsEmpty() || userId !in vs then vs else vs[userId := StatusUpdated(vs[userId], u)]
  }

  /** `approveVerification`: approved and verified whatever the sub-checks. */
  function ApprovedBy(v: VerificationRow, adminId: int, now: int): (r: VerificationRow)
    ensures r.status == Approved && r.trustBadge == Verified
    ensures r.reviewedBy == Some(adminId) && r.reviewedAt == Some(now)
    ensures r.(status := v.status, trustBadge := v.trustBadge, reviewedBy := v.reviewedBy, reviewedAt := v.reviewedAt) == v
  {
    v.(status := Approved, trustBadge := Verified, reviewedBy := Some(adminId), reviewedAt := Some(now))
  }

  /** `rejectVerification`: rejected, badge withdrawn, reason recorded. */
  function RejectedBy(v: VerificationRow, adminId: int, reason: string, now: int): (r: VerificationRow)
    ensures r.status == Rejected && r.trustBadge == NotVerified
    ensures r.reviewedBy == Some(adminId) && r.reviewedAt == Some(now) && r.rejectionReason == Some(reason)
    ensures r.(status := v.status, trustBadge := v.trustBadge, reviewedBy := v.reviewedBy,
               reviewedAt := v.reviewedAt, rejectionReason := v.rejectionReason) == v
  {
    v.(status := Rejected, trustBadge := NotVerified, reviewedBy := Some(adminId), reviewedAt := Some(now),
       rejectionReason := Some(reason))
  }

  // ---------------------------------------------------------------------------
  // Histories of one record
  // ---------------------------------------------------------------------------

  /** What can happen to one verification record. */
  datatype Event =
    | CheckUpdate(update: SubCheckUpdate)
    | AdminApproval(adminId: int, at: int)
    | AdminRejection(adminId: int, reason: string, at: int)

  function Apply(v: VerificationRow, e: Event): VerificationRow {
    match e
    case CheckUpdate(u) => StatusUpdated(v, u)
    case AdminApproval(a, t) => ApprovedBy(v, a, t)
    case AdminRejection(a, reason, t) => RejectedBy(v, a, reason, t)
  }

  function Replay(v: VerificationRow, es: seq<Event>): VerificationRow
    decreases |es|
  {
    if es == [] then v else Replay(Apply(v, es[0]), es[1..])
  }

  /** The event settles status and badge: an admin decision, or a non-empty
      sub-check update after which all four checks hold. */
  predicate Decides(v: VerificationRow, e: Event) {
    match e
    case CheckUpdate(u) => !u.IsEmpty() && AllChecks(StatusUpdated(v, u))
    case _ => true
  }

  function DecidedStatus(e: Event): VerificationStatus {
    if e.AdminRejection? then Rejected else Approved
  }

  /** The status set by the most recent deciding event, if any. */
  function LastDecision(v: VerificationRow, es: seq<Event>): Option<VerificationStatus>
    decreases |es|
  {
    if es == [] then None
    else
      var later := LastDecision(Apply(v, es[0]), es[1..]);
      if later.Some? then later
      else if Decides(v, es[0]) then Some(DecidedStatus(es[0]))
      else None
  }

  function BadgeFor(s: VerificationStatus): TrustBadge {
    if s == Approved then Verified else NotVerified
  }

  /** Whichever came last of an admin approval, an admin rejection and an
      update completing all four checks fixes both status and badge; with no
      such event both keep their initial values. */
  lemma {:induction false} MostRecentDecisionWins(v: VerificationRow, es: seq<Event>)
    ensures var d := LastDecision(v, es);
      Replay(v, es).status == GetOr(d, v.status)
      && Replay(v, es).trustBadge == (if d.Some? then BadgeFor(d.value) else v.trustBadge)
    decreases |es|
  {
    if es != [] {
      MostRecentDecisionWins(Apply(v, es[0]), es[1..]);
    }
  }

  /** Completing the four checks in any order, over separate calls, approves
      the record and grants the badge without any admin action. */
  lemma {:induction false} AllFourInAnyOrder(v: VerificationRow, us: seq<SubCheckUpdate>)
    requires |us| > 0
    requires forall i :: 0 <= i < |us| ==> !us[i].IsEmpty() && us[i].OnlySetsTrue()
    requires v.emailVerified || exists i :: 0 <= i < |us| && us[i].emailVerified == Some(true)
    requires v.phoneVerified || exists i :: 0 <= i < |us| && us[i].phoneVerified == Some(true)
    requires v.idVerified || exists i :: 0 <= i < |us| && us[i].idVerified == Some(true)
    requires v.selfieVerified || exists i :: 0 <= i < |us| && us[i].selfieVerified == Some(true)
    ensures var r := Replay(v, seq(|us|, i requires 0 <= i < |us| => CheckUpdate(us[i])));
      AllChecks(r) && r.status == Approved && r.trustBadge == Verified
    decreases |us|
  {
    var es := seq(|us|, i requires 0 <= i < |us| => CheckUpdate(us[i]));
    var v1 := StatusUpdated(v, us[0]);
    assert Apply(v, es[0]) == v1;
    if |us| > 1 {
      var rest := us[1..];
      var esRest := seq(|rest|, i requires 0 <= i < |rest| => CheckUpdate(rest[i]));
      assert es[1..] == esRest;
      if !v1.emailVerified {
        var i :| 0 <= i < |us| && us[i].emailVerified == Some(true);
        assert i != 0 && rest[i - 1] == us[i];
      }
      if !v1.phoneVerified {
        var i :| 0 <= i < |us| && us[i].phoneVerified == Some(true);
        assert i != 0 && rest[i - 1] == us[i];
      }
      if !v1.idVerified {
        var i :| 0 <= i < |us| && us[i].idVerified == Some(true);
        assert i != 0 && rest[i - 1] == us[i];
      }
      if !v1.selfieVerified {
        var i :| 0 <= i < |us| && us[i].selfieVerified == Some(true);
        assert i != 0 && rest[i - 1] == us[i];
      }
      AllFourInAnyOrder(v1, rest);
    } else {
      assert es[1..] == [];
    }
  }

  /** A rejection withdraws the badge even when all four checks hold; a later
      approval restores it with the sub-checks exactly as they were. */
  lemma RejectThenApprove(v: VerificationRow, admin: int, reason: string, t1: int, t2: int)
    requires AllChecks(v)
    ensures RejectedBy(v, admin, reason, t1).trustBadge == NotVerified
    ensures var r := ApprovedBy(RejectedBy(v, admin, reason, t1), admin, t2);
      r.trustBadge == Verified && r.status == Approved && AllChecks(r)
      && r.rejectionReason == Some(reason)
  {
  }

  /** After a rejection, any non-empty update that only sets checks to true
      re-approves a record whose four checks hold. */
  lemma ResubmissionOverridesRejection(v: VerificationRow, admin: int, reason: string, t: int, u: SubCheckUpdate)
    requires AllChecks(v) && !u.IsEmpty() && u.OnlySetsTrue()
    ensures StatusUpdated(RejectedBy(v, admin, reason, t), u).status == Approved
    ensures StatusUpdated(RejectedBy(v, admin, reason, t), u).trustBadge == Verified
  {
  }

  /** Marking the ID as pending again never demotes an existing badge. */
  lemma IdPendingKeepsBadge(v: VerificationRow)
    ensures var r := StatusUpdated(v, IdPending);
      !r.idVerified && r.trustBadge == v.trustBadge && r.status == v.status
  {
  }

  // ===========================================================================
  // Users
  // ===========================================================================

  /** A property of `upsertUser`'s argument that is either left out
      (`undefined`) or given. */
  datatype Field<+T> = Undefined | Defined(value: T)

  datatype UserInput = UserInput(
    openId: string,
    name: Field<Option<string>>,
    email: Field<Option<string>>,
    loginMethod: Field<Option<string>>,
    phoneNumber: Field<Option<string>>,
    profilePictureUrl: Field<Option<string>>,
    lastSignedIn: Field<int>,
    role: Field<Role>)

  /** The `updateSet` applied when the openId already exists. */
  datatype UserUpdate = UserUpdate(
    name: Field<Option<string>>,
    email: Field<Option<string>>,
    loginMethod: Field<Option<string>>,
    phoneNumber: Field<Option<string>>,
    profilePictureUrl: Field<Option<string>>,
    lastSignedIn: Field<int>,
    role: Field<Role>)
  {
    predicate IsEmpty() {
      name.Undefined? && email.Undefined? && loginMethod.Undefined? && phoneNumber.Undefined?
      && profilePictureUrl.Undefined? && lastSignedIn.Undefined? && role.Undefined?
    }
  }

  /** An explicit role wins; otherwise the owner's openId is made admin. */
  function RoleFor(input: UserInput, ownerOpenId: string): (r: Field<Role>)
    ensures input.role.Defined? ==> r == input.role
    ensures input.role.Undefined? ==> (r == Defined(Admin) <==> input.openId == ownerOpenId)
    ensures input.role.Undefined? ==> (r.Undefined? <==> input.openId != ownerOpenId)
  {
    if input.role.Defined? then input.role
    else if input.openId == ownerOpenId then Defined(Admin)
    else Undefined
  }

  function UpdateSetFor(input: UserInput, ownerOpenId: string, now: int): (u: UserUpdate)
    ensures u.name == input.name && u.email == input.email && u.loginMethod == input.loginMethod
    ensures u.phoneNumber == input.phoneNumber && u.profilePictureUrl == input.profilePictureUrl
    ensures u.role == RoleFor(input, ownerOpenId)
    ensures input.lastSignedIn.Defined? ==> u.lastSignedIn == input.lastSignedIn
    ensures !u.IsEmpty()
  {
    var u := UserUpdate(input.name, input.email, input.loginMethod, input.phoneNumber,
                        input.profilePictureUrl, input.lastSignedIn, RoleFor(input, ownerOpenId));
    if u.IsEmpty() then u.(lastSignedIn := Defined(now)) else u
  }

  function Assign<T>(f: Field<T>, current: T): T {
    match f
    case Defined(v) => v
    case Undefined => current
  }

  /** The row inserted for a new openId: given fields copied, the rest at
      their column defaults, `lastSignedIn` defaulting to now. */
  function InsertRowFor(input: UserInput, ownerOpenId: string, now: int): (row: UserRow)
    ensures row.openId == input.openId && row.userType == Tenant
    ensures row.role == Assign(RoleFor(input, ownerOpenId), RegularUser)
    ensures row.lastSignedIn == Assign(input.lastSignedIn, now)
    ensures row.name == Assign(input.name, None) && row.email == Assign(input.email, None)
    ensures row.loginMethod == Assign(input.loginMethod, None) && row.phoneNumber == Assign(input.phoneNumber, None)
    ensures row.profilePictureUrl == Assign(input.profilePictureUrl, None)
  {
    UserRow(input.openId, Assign(input.name, None), Assign(input.email, None), Assign(input.loginMethod, None),
            Assign(input.phoneNumber, None), Assign(input.profilePictureUrl, None),
            Assign(RoleFor(input, ownerOpenId), RegularUser), Tenant, Assign(input.lastSignedIn, now))
  }

  /** The duplicate-key update: every field the update sets takes its new
      value, every field it leaves out keeps the stored one. */
  function ApplyUserUpdate(row: UserRow, u: UserUpdate): (r: UserRow)
    ensures r.openId == row.openId && r.userType == row.userType
    ensures u.name.Defined? ==> r.name == u.name.value
    ensures u.name.Undefined? ==> r.name == row.name
    ensures u.email.Defined? ==> r.email == u.email.value
    ensures u.email.Undefined? ==> r.email == row.email
    ensures u.loginMethod.Defined? ==> r.loginMethod == u.loginMethod.value
    ensures u.loginMethod.Undefined? ==> r.loginMethod == row.loginMethod
    ensures u.phoneNumber.Defined? ==> r.phoneNumber == u.phoneNumber.value
    ensures u.phoneNumber.Undefined? ==> r.phoneNumber == row.phoneNumber
    ensures u.profilePictureUrl.Defined? ==> r.profilePictureUrl == u.profilePictureUrl.value
    ensures u.profilePictureUrl.Undefined? ==> r.profilePictureUrl == row.profilePictureUrl
    ensures u.lastSignedIn.Defined? ==> r.lastSignedIn == u.lastSignedIn.value
    ensures u.lastSignedIn.Undefined? ==> r.lastSignedIn == row.lastSignedIn
    ensures u.role.Defined? ==> r.role == u.role.value
    ensures u.role.Undefined? ==> r.role == row.role
  {
    row.(name := Assign(u.name, row.name), email := Assign(u.email, row.email),
         loginMethod := Assign(u.loginMethod, row.loginMethod), phoneNumber := Assign(u.phoneNumber, row.phoneNumber),
         profilePictureUrl := Assign(u.profilePictureUrl, row.profilePictureUrl),
         lastSignedIn := Assign(u.lastSignedIn, row.lastSignedIn), role := Assign(u.role, row.role))
  }

  /** The owner signing in without a role becomes admin, whether the row is
      new or existing; a user who is not the owner keeps an existing role. */
  lemma OwnerBecomesAdmin(input: UserInput, ownerOpenId: string, now: int, existing: UserRow)
    requires input.role.Undefined?
    ensures input.openId == ownerOpenId ==> InsertRowFor(input, ownerOpenId, now).role == Admin
    ensures input.openId == ownerOpenId ==> ApplyUserUpdate(existing, UpdateSetFor(input, ownerOpenId, now)).role == Admin
    ensures input.openId != ownerOpenId ==> InsertRowFor(input, ownerOpenId, now).role == RegularUser
    ensures input.openId != ownerOpenId ==> ApplyUserUpdate(existing, UpdateSetFor(input, ownerOpenId, now)).role == existing.role
  {
  }

  /** A sign-in carrying nothing but the openId refreshes `lastSignedIn`. */
  lemma BareSignInRefreshesLastSignedIn(input: UserInput, ownerOpenId: string, now: int, existing: UserRow)
    requires input.name.Undefined? && input.email.Undefined? && input.loginMethod.Undefined?
    requires input.phoneNumber.Undefined? && input.profilePictureUrl.Undefined?
    requires input.lastSignedIn.Undefined? && input.role.Undefined? && input.openId != ownerOpenId
    ensures ApplyUserUpdate(existing, UpdateSetFor(input, ownerOpenId, now)) == existing.(lastSignedIn := now)
  {
  }

  // ===========================================================================
  // Conversations
  // ===========================================================================

  /** The pair stored for a conversation: smaller id first. */
  function Normalised(a: int, b: int): (p: (int, int))
    ensures p.0 <= p.1
    ensures (p.0 == a && p.1 == b) || (p.0 == b && p.1 == a)
  {
    if a < b then (a, b) else (b, a)
  }

  lemma NormalisedIgnoresOrder(a: int, b: int)
    ensures Normalised(a, b) == Normalised(b, a)
  {
  }

  /** Conversation ids are 1, 2, ... in insertion order, each row stores its
      pair smaller id first, and no pair occurs twice. */
  ghost predicate ConversationsWellFormed(cs: seq<ConversationRow>) {
    (forall i :: 0 <= i < |cs| ==> cs[i].id == i + 1 && cs[i].user1Id <= cs[i].user2Id)
    && (forall i, j :: 0 <= i < j < |cs| ==> (cs[i].user1Id, cs[i].user2Id) != (cs[j].user1Id, cs[j].user2Id))
  }

  /** The index of the first conversation between `lo` and `hi`. */
  function FindConversation(cs: seq<ConversationRow>, lo: int, hi: int): (r: Option<nat>)
    ensures r.Some? ==> r.value < |cs| && cs[r.value].user1Id == lo && cs[r.value].user2Id == hi
    ensures r.None? <==> forall i :: 0 <= i < |cs| ==> (cs[i].user1Id, cs[i].user2Id) != (lo, hi)
    ensures r.Some? ==> forall i :: 0 <= i < r.value ==> (cs[i].user1Id, cs[i].user2Id) != (lo, hi)
  {
    if cs == [] then None
    else if cs[0].user1Id == lo && cs[0].user2Id == hi then Some(0)
    else
      var rest := FindConversation(cs[1..], lo, hi);
      assert forall i :: 1 <= i < |cs| ==> cs[i] == cs[1..][i - 1];
      if rest.Some? then Some(rest.value + 1) else None
  }

  // ===========================================================================
  // First-row re-selects
  // ===========================================================================

  /** The first row satisfying `p`: what `select ... limit 1` returns. */
  function FirstWhere<T>(rows: seq<T>, p: T -> bool): (i: nat)
    requires exists j :: 0 <= j < |rows| && p(rows[j])
    ensures i < |rows| && p(rows[i])
    ensures forall j :: 0 <= j < i ==> !p(rows[j])
  {
    if p(rows[0]) then 0
    else
      assert exists j :: 0 <= j < |rows[1..]| && p(rows[1..][j]) by {
        var j :| 0 <= j < |rows| && p(rows[j]);
        assert j != 0 && rows[1..][j - 1] == rows[j];
      }
      var k := FirstWhere(rows[1..], p);
      assert rows[k + 1] == rows[1..][k];
      k + 1
  }

  // ===========================================================================
  // The store
  // ===========================================================================

  class Store {
    var users: map<string, UserRow>
    var profiles: map<int, ProfileRow>
    var verifications: map<int, VerificationRow>
    var documents: seq<DocumentRow>
    var conversations: seq<ConversationRow>
    var matches: seq<MatchRow>
    var auditLogs: seq<AuditLogRow>

    /** Each keyed table stores a row under its own key, and the
        conversation table is well formed. */
    ghost predicate Valid()
      reads this
    {
      (forall k :: k in users ==> users[k].openId == k)
      && (forall id :: id in profiles ==> profiles[id].userId == id)
      && (forall id :: id in verifications ==> verifications[id].userId == id)
      && ConversationsWellFormed(conversations)
    }

    constructor ()
      ensures Valid()
      ensures users == map[] && profiles == map[] && verifications == map[]
      ensures documents == [] && conversations == [] && matches == [] && auditLogs == []
    {
      users, profiles, verifications := map[], map[], map[];
      documents, conversations, matches, auditLogs := [], [], [], [];
    }

    function GetUserProfile(userId: int): (r: Option<ProfileRow>)
      reads this
      ensures r.Some? <==> userId in profiles
      ensures r.Some? ==> r.value == profiles[userId]
    {
      if userId in profiles then Some(profiles[userId]) else None
    }

    function GetVerificationByUserId(userId: int): (r: Option<VerificationRow>)
      reads this
      ensures r.Some? <==> userId in verifications
      ensures r.Some? ==> r.value == verifications[userId]
    {
      if userId in verifications then Some(verifications[userId]) else None
    }

    /** Returns the user's record, inserting a fresh one first if there is none. */
    method GetOrCreateVerification(userId: int) returns (v: VerificationRow)
      requires Valid()
      modifies this`verifications
      ensures Valid()
      ensures userId in old(verifications) ==> v == old(verifications[userId]) && verifications == old(verifications)
      ensures userId !in old(verifications) ==> v == NewVerification(userId) && verifications == old(verifications)[userId := v]
      ensures userId in verifications && verifications[userId] == v
    {
      if userId in verifications {
        return verifications[userId];
      }
      verifications := verifications[userId := NewVerification(userId)];
      v := verifications[userId];
    }

    /** Writes the supplied sub-checks (and the auto-approval) to the user's
        record; an empty update or a user without a record changes nothing. */
    method UpdateVerificationStatus(userId: int, u: SubCheckUpdate) returns (r: Option<VerificationRow>)
      requires Valid()
      modifies this`verifications
      ensures Valid()
      ensures verifications == AfterStatusUpdate(old(verifications), userId, u)
      ensures u.IsEmpty() || userId !in old(verifications) ==> r.None? && verifications == old(verifications)
      ensures !u.IsEmpty() && userId in old(verifications) ==>
        r == Some(StatusUpdated(old(verifications[userId]), u)) && verifications == old(verifications)[userId := r.value]
    {
      if u.IsEmpty() {
        return None;
      }
      var current := GetVerificationByUserId(userId);
      if current.None? {
        return None;
      }
      verifications := verifications[userId := StatusUpdated(current.value, u)];
      r := GetVerificationByUserId(userId);
    }

    method ApproveVerification(userId: int, adminId: int, now: int) returns (r: Option<VerificationRow>)
      requires Valid()
      modifies this`verifications
      ensures Valid()
      ensures userId !in old(verifications) ==> r.None? && verifications == old(verifications)
      ensures userId in old(verifications) ==>
        r == Some(ApprovedBy(old(verifications[userId]), adminId, now)) && verifications == old(verifications)[userId := r.value]
    {
      if userId in verifications {
        verifications := verifications[userId := ApprovedBy(verifications[userId], adminId, now)];
      }
      r := GetVerificationByUserId(userId);
    }

    method RejectVerification(userId: int, adminId: int, reason: string, now: int) returns (r: Option<VerificationRow>)
      requires Valid()
      modifies this`verifications
      ensures Valid()
      ensures userId !in old(verifications) ==> r.None? && verifications == old(verifications)
      ensures userId in old(verifications) ==>
        r == Some(RejectedBy(old(verifications[userId]), adminId, reason, now)) && verifications == old(verifications)[userId := r.value]
    {
      if userId in verifications {
        verifications := verifications[userId := RejectedBy(verifications[userId], adminId, reason, now)];
      }
      r := GetVerificationByUserId(userId);
    }

    /** Appends a document row and reads back the first row stored under
        the same file key (not necessarily the one just inserted). */
    method CreateDocument(userId: int, documentType: DocumentType, fileKey: string, fileUrl: string,
                          mimeType: Option<string>, fileSize: Option<int>,
                          verificationId: Option<int>, propertyId: Option<int>)
      returns (d: DocumentRow)
      modifies this`documents
      ensures documents == old(documents) + [DocumentRow(userId, documentType, fileKey, fileUrl, mimeType, fileSize,
                                                         verificationId, propertyId, "AES-256-GCM")]
      ensures documents[|documents| - 1].fileKey == fileKey
      ensures d == documents[FirstWhere(documents, (r: DocumentRow) => r.fileKey == fileKey)]
    {
      documents := documents + [DocumentRow(userId, documentType, fileKey, fileUrl, mimeType, fileSize,
                                            verificationId, propertyId, "AES-256-GCM")];
      assert documents[|documents| - 1].fileKey == fileKey;
      d := documents[FirstWhere(documents, (r: DocumentRow) => r.fileKey == fileKey)];
    }

    /** Returns the conversation between two users, stored smaller id
        first, creating it if the pair has none. */
    method GetOrCreateConversation(user1Id: int, user2Id: int) returns (c: ConversationRow)
      requires Valid()
      modifies this`conversations
      ensures Valid()
      ensures (c.user1Id, c.user2Id) == Normalised(user1Id, user2Id)
      ensures 1 <= c.id <= |conversations| && conversations[c.id - 1] == c
      ensures FindConversation(old(conversations), c.user1Id, c.user2Id).Some? ==> conversations == old(conversations)
      ensures FindConversation(old(conversations), c.user1Id, c.user2Id).None? ==> conversations == old(conversations) + [c]
    {
      var (minId, maxId) := Normalised(user1Id, user2Id);
      var existing := FindConversation(conversations, minId, maxId);
      if existing.Some? {
        return conversations[existing.value];
      }
      c := ConversationRow(|conversations| + 1, minId, maxId);
      conversations := conversations + [c];
    }

    /** Appends a match row and reads back the first row for the same
        ordered pair of users (not necessarily the one just inserted). */
    method CreateMatch(userId1: int, userId2: int, compatibilityScore: int, budgetMatch: int, scheduleMatch: int,
                       cleanlinessMatch: int, lifestyleMatch: int, petsMatch: int, explanation: string)
      returns (m: MatchRow)
      modifies this`matches
      ensures matches == old(matches) + [MatchRow(userId1, userId2, compatibilityScore, budgetMatch, scheduleMatch,
                                                  cleanlinessMatch, lifestyleMatch, petsMatch, explanation, "active")]
      ensures matches[|matches| - 1].userId1 == userId1 && matches[|matches| - 1].userId2 == userId2
      ensures m == matches[FirstWhere(matches, (r: MatchRow) => r.userId1 == userId1 && r.userId2 == userId2)]
    {
      matches := matches + [MatchRow(userId1, userId2, compatibilityScore, budgetMatch, scheduleMatch,
                                     cleanlinessMatch, lifestyleMatch, petsMatch, explanation, "active")];
      assert matches[|matches| - 1].userId1 == userId1 && matches[|matches| - 1].userId2 == userId2;
      m := matches[FirstWhere(matches, (r: MatchRow) => r.userId1 == userId1 && r.userId2 == userId2)];
    }

    /** Appends one audit entry; absent details are stored as `{}`. */
    method CreateAuditLog(adminId: int, action: string, targetUserId: Option<int>, targetType: Option<string>,
                          targetId: Option<int>, details: Option<map<string, string>>)
      returns (ok: bool)
      modifies this`auditLogs
      ensures ok
      ensures auditLogs == old(auditLogs) + [AuditLogRow(adminId, action, targetUserId, targetType, targetId, GetOr(details, map[]))]
    {
      auditLogs := auditLogs + [AuditLogRow(adminId, action, targetUserId, targetType, targetId, GetOr(details, map[]))];
      ok := true;
    }

    /** Inserts the user, or updates the row with the same openId. */
    method UpsertUser(input: UserInput, ownerOpenId: string, now: int) returns (r: Outcome)
      requires Valid()
      modifies this`users
      ensures Valid()
      ensures input.openId == "" ==> r == Fail("User openId is required for upsert") && users == old(users)
      ensures input.openId != "" ==> r == Pass && input.openId in users
      ensures input.openId != "" && input.openId in old(users) ==>
        users == old(users)[input.openId := ApplyUserUpdate(old(users)[input.openId], UpdateSetFor(input, ownerOpenId, now))]
      ensures input.openId != "" && input.openId !in old(users) ==>
        users == old(users)[input.openId := InsertRowFor(input, ownerOpenId, now)]
    {
      if input.openId == "" {
        return Fail("User openId is required for upsert");
      }
      if input.openId in users {
        users := users[input.openId := ApplyUserUpdate(users[input.openId], UpdateSetFor(input, ownerOpenId, now))];
      } else {
        users := users[input.openId := InsertRowFor(input, ownerOpenId, now)];
      }
      r := Pass;
    }
  }

  /** Two calls for the same user return the same record, and only the
      first can insert one. */
  method VerificationCreatedOnce(store: Store, userId: int) returns (v1: VerificationRow, v2: VerificationRow)
    requires store.Valid()
    modifies store
    ensures store.Valid()
    ensures v1 == v2 && store.verifications == old(store.verifications)[userId := v1]
  {
    v1 := store.GetOrCreateVerification(userId);
    v2 := store.GetOrCreateVerification(userId);
  }

  /** Opening a conversation from either side yields the same row, and the
      second call adds nothing. */
  method ConversationSharedByPair(store: Store, a: int, b: int) returns (c1: ConversationRow, c2: ConversationRow)
    requires store.Valid()
    modifies store
    ensures store.Valid()
    ensures c1 == c2 && c1.user1Id <= c1.user2Id
    ensures |store.conversations| <= |old(store.conversations)| + 1
  {
    c1 := store.GetOrCreateConversation(a, b);
    c2 := store.GetOrCreateConversation(b, a);
  }
}
