/** The tRPC procedures of server/routers.ts that drive the verification
    record, the compatibility calculation and the admin decisions. Each
    procedure is a method over the store; the authenticated caller and the
    clock are parameters. */
module Routers {
  import opened Common
  import opened Schema
  import opened Compatibility
  import opened Db
  import opened Storage

  /** The authenticated user of a protected procedure. */
  datatype Caller = Caller(id: int, role: Role)

  // ===========================================================================
  // Verification procedures
  // ===========================================================================

  /** The storage key of an uploaded verification file:
      `verifications/<userId>/<kind>/<timestamp>-<fileName>`. */
  function VerificationFileKey(userId: int, kind: string, now: int, fileName: string): string {
    "verifications/" + IntToString(userId) + "/" + kind + "/" + IntToString(now) + "-" + fileName
  }

  /** A government-ID key and a selfie key never coincide, whatever the
      users, timestamps and file names. */
  lemma IdAndSelfieKeysDiffer(u1: int, t1: int, n1: string, u2: int, t2: int, n2: string)
    ensures VerificationFileKey(u1, "id", t1, n1) != VerificationFileKey(u2, "selfie", t2, n2)
  {
    var a1, a2 := IntToString(u1), IntToString(u2);
    var x := "id" + "/" + IntToString(t1) + "-" + n1;
    var y := "selfie" + "/" + IntToString(t2) + "-" + n2;
    KeySplits(u1, "id", t1, n1);
    KeySplits(u2, "selfie", t2, n2);
    assert x[0] != y[0];
    var pre := "verifications/";
    var s1, s2 := a1 + "/" + x, a2 + "/" + y;
    assert (pre + s1)[|pre|..] == s1 && (pre + s2)[|pre|..] == s2;
    if s1 == s2 {
      FirstSegmentUnique(a1, x, a2, y);
    }
  }

  lemma KeySplits(u: int, kind: string, t: int, n: string)
    ensures VerificationFileKey(u, kind, t, n) == "verifications/" + (IntToString(u) + "/" + (kind + "/" + IntToString(t) + "-" + n))
    ensures '/' !in IntToString(u)
  {
    var a := IntToString(u);
    assert forall i :: 0 <= i < |a| ==> a[i] != '/';
  }

  /** `verification.getStatus`: the caller's record, created on first use. */
  method GetStatus(store: Store, caller: Caller) returns (v: VerificationRow)
    requires store.Valid()
    modifies store`verifications
    ensures store.Valid()
    ensures caller.id in old(store.verifications) ==> v == old(store.verifications[caller.id]) && store.verifications == old(store.verifications)
    ensures caller.id !in old(store.verifications) ==> v == NewVerification(caller.id) && store.verifications == old(store.verifications)[caller.id := v]
  {
    var existing := store.GetVerificationByUserId(caller.id);
    if existing.None? {
      v := store.GetOrCreateVerification(caller.id);
    } else {
      v := existing.value;
    }
  }

  /** Shared body of the two upload procedures: store the blob, record the
      document, then apply the sub-check update. A storage failure is
      rethrown as `failure` before anything is written to the database. */
  method UploadVerificationFile(store: Store, blobs: BlobStore, caller: Caller, kind: string, docType: DocumentType,
                                check: SubCheckUpdate, failure: string,
                                fileBuffer: seq<bv8>, fileName: string, mimeType: string, now: int,
                                storageAnswer: Result<string>)
    returns (r: Result<DocumentRow>)
    requires store.Valid()
    modifies store`documents, store`verifications, blobs
    ensures store.Valid()
    ensures blobs.puts == old(blobs.puts) + [StoredBlob(VerificationFileKey(caller.id, kind, now, fileName), fileBuffer, mimeType)]
    ensures storageAnswer.Failure? ==>
      r == Failure(failure)
      && store.documents == old(store.documents) && store.verifications == old(store.verifications)
    ensures storageAnswer.Success? ==>
      r.Success?
      && store.documents == old(store.documents)
             + [DocumentRow(caller.id, docType, VerificationFileKey(caller.id, kind, now, fileName), storageAnswer.value,
                            Some(mimeType), Some(|fileBuffer|), None, None, "AES-256-GCM")]
      && r.value.fileKey == VerificationFileKey(caller.id, kind, now, fileName)
      && store.verifications == AfterStatusUpdate(old(store.verifications), caller.id, check)
  {
    var fileKey := VerificationFileKey(caller.id, kind, now, fileName);
    var put := blobs.Put(fileKey, fileBuffer, mimeType, storageAnswer);
    if put.Failure? {
      return Failure(failure);
    }
    var document := store.CreateDocument(caller.id, docType, fileKey, put.value, Some(mimeType), Some(|fileBuffer|), None, None);
    var _ := store.UpdateVerificationStatus(caller.id, check);
    r := Success(document);
  }

  /** `verification.uploadGovernmentId`: the ID goes back to unverified. */
  method UploadGovernmentId(store: Store, blobs: BlobStore, caller: Caller, fileBuffer: seq<bv8>, fileName: string,
                            mimeType: string, now: int, storageAnswer: Result<string>)
    returns (r: Result<DocumentRow>)
    requires store.Valid()
    modifies store`documents, store`verifications, blobs
    ensures store.Valid()
    ensures blobs.puts == old(blobs.puts) + [StoredBlob(VerificationFileKey(caller.id, "id", now, fileName), fileBuffer, mimeType)]
    ensures storageAnswer.Failure? ==>
      r == Failure("Failed to upload government ID")
      && store.documents == old(store.documents) && store.verifications == old(store.verifications)
    ensures storageAnswer.Success? ==>
      r.Success? && r.value.fileKey == VerificationFileKey(caller.id, "id", now, fileName)
      && store.documents == old(store.documents)
             + [DocumentRow(caller.id, GovernmentId, VerificationFileKey(caller.id, "id", now, fileName), storageAnswer.value,
                            Some(mimeType), Some(|fileBuffer|), None, None, "AES-256-GCM")]
      && store.verifications == AfterStatusUpdate(old(store.verifications), caller.id, IdPending)
  {
    r := UploadVerificationFile(store, blobs, caller, "id", GovernmentId, IdPending, "Failed to upload government ID",
                                fileBuffer, fileName, mimeType, now, storageAnswer);
  }

  /** `verification.uploadSelfie`: the selfie counts as verified on upload. */
  method UploadSelfie(store: Store, blobs: BlobStore, caller: Caller, fileBuffer: seq<bv8>, fileName: string,
                      mimeType: string, now: int, storageAnswer: Result<string>)
    returns (r: Result<DocumentRow>)
    requires store.Valid()
    modifies store`documents, store`verifications, blobs
    ensures store.Valid()
    ensures blobs.puts == old(blobs.puts) + [StoredBlob(VerificationFileKey(caller.id, "selfie", now, fileName), fileBuffer, mimeType)]
    ensures storageAnswer.Failure? ==>
      r == Failure("Failed to upload selfie")
      && store.documents == old(store.documents) && store.verifications == old(store.verifications)
    ensures storageAnswer.Success? ==>
      r.Success? && r.value.fileKey == VerificationFileKey(caller.id, "selfie", now, fileName)
      && store.documents == old(store.documents)
             + [DocumentRow(caller.id, Selfie, VerificationFileKey(caller.id, "selfie", now, fileName), storageAnswer.value,
                            Some(mimeType), Some(|fileBuffer|), None, None, "AES-256-GCM")]
      && store.verifications == AfterStatusUpdate(old(store.verifications), caller.id, SelfieChecked)
  {
    r := UploadVerificationFile(store, blobs, caller, "selfie", Selfie, SelfieChecked, "Failed to upload selfie",
                                fileBuffer, fileName, mimeType, now, storageAnswer);
  }

  /** `verification.verifyEmail`: the address itself is not used. */
  method VerifyEmail(store: Store, caller: Caller, email: string) returns (message: string)
    requires store.Valid()
    modifies store`verifications
    ensures store.Valid()
    ensures message == "Email verification sent"
    ensures store.verifications == AfterStatusUpdate(old(store.verifications), caller.id, EmailChecked)
  {
    var _ := store.UpdateVerificationStatus(caller.id, EmailChecked);
    message := "Email verification sent";
  }

  /** `verification.verifyPhoneOtp`: neither the number nor the code is checked. */
  method VerifyPhoneOtp(store: Store, caller: Caller, phoneNumber: string, otp: string) returns (message: string)
    requires store.Valid()
    modifies store`verifications
    ensures store.Valid()
    ensures message == "Phone verified"
    ensures store.verifications == AfterStatusUpdate(old(store.verifications), caller.id, PhoneChecked)
  {
    var _ := store.UpdateVerificationStatus(caller.id, PhoneChecked);
    message := "Phone verified";
  }

  /** From `v` to `r`, the flagged sub-checks were set (email, phone and
      selfie to true, the ID to false) and the others kept their values. */
  predicate SetsOnly(v: VerificationRow, r: VerificationRow, email: bool, phone: bool, id: bool, selfie: bool) {
    (r.emailVerified == if email then true else v.emailVerified)
    && (r.phoneVerified == if phone then true else v.phoneVerified)
    && (r.selfieVerified == if selfie then true else v.selfieVerified)
    && (r.idVerified == if id then false else v.idVerified)
  }

  /** Every sub-check procedure changes only the caller's row, and in it
      only its own check (plus the automatic approval when all four then
      hold): email, phone and selfie to true, the government ID to false. */
  lemma SubCheckProceduresTouchOwnCheck(vs: map<int, VerificationRow>, userId: int, other: int)
    requires other != userId
    ensures other in vs ==> AfterStatusUpdate(vs, userId, EmailChecked)[other] == vs[other]
    ensures other in vs ==> AfterStatusUpdate(vs, userId, PhoneChecked)[other] == vs[other]
    ensures other in vs ==> AfterStatusUpdate(vs, userId, SelfieChecked)[other] == vs[other]
    ensures other in vs ==> AfterStatusUpdate(vs, userId, IdPending)[other] == vs[other]
    ensures userId !in vs ==> AfterStatusUpdate(vs, userId, EmailChecked) == vs
    ensures userId in vs ==> SetsOnly(vs[userId], AfterStatusUpdate(vs, userId, EmailChecked)[userId], true, false, false, false)
    ensures userId in vs ==> SetsOnly(vs[userId], AfterStatusUpdate(vs, userId, PhoneChecked)[userId], false, true, false, false)
    ensures userId in vs ==> SetsOnly(vs[userId], AfterStatusUpdate(vs, userId, SelfieChecked)[userId], false, false, false, true)
    ensures userId in vs ==> SetsOnly(vs[userId], AfterStatusUpdate(vs, userId, IdPending)[userId], false, false, true, false)
  {
  }

  /** Email, phone and selfie in any order approve a user whose ID check
      already holds, with no admin involved: `order` is any arrangement of
      the three procedures' updates. */
  lemma ThreeProceduresThenApproved(v: VerificationRow, order: seq<SubCheckUpdate>)
    requires v.idVerified
    requires multiset(order) == multiset{EmailChecked, PhoneChecked, SelfieChecked}
    ensures var r := Replay(v, seq(|order|, i requires 0 <= i < |order| => CheckUpdate(order[i])));
      r.status == Approved && r.trustBadge == Verified
  {
    assert |order| == 3 by {
      assert |multiset(order)| == |order|;
    }
    forall i | 0 <= i < |order|
      ensures !order[i].IsEmpty() && order[i].OnlySetsTrue()
    {
      assert order[i] in multiset(order);
    }
    assert EmailChecked in multiset(order);
    assert PhoneChecked in multiset(order);
    assert SelfieChecked in multiset(order);
    var e :| 0 <= e < |order| && order[e] == EmailChecked;
    var p :| 0 <= p < |order| && order[p] == PhoneChecked;
    var s :| 0 <= s < |order| && order[s] == SelfieChecked;
    AllFourInAnyOrder(v, order);
  }

  /** Uploading the government ID marks it unverified, so a user who never
      had it verified can reach approval only through an admin. */
  lemma IdUploadNeverApproves(v: VerificationRow)
    ensures !AllChecks(StatusUpdated(v, IdPending))
    ensures StatusUpdated(v, IdPending).status == v.status
  {
  }

  // ===========================================================================
  // Matching
  // ===========================================================================

  /** `matching.calculateCompatibility`: fails when either profile is
      missing; otherwise scores the pair and appends a match row. When both
      budget midpoints are 0 the scores are NaN, the match insert is refused
      by the database and the procedure fails with nothing saved;
      `insertError` is the database's message. */
  method CalculateCompatibility(store: Store, caller: Caller, targetUserId: int, insertError: string)
    returns (r: Result<CompatibilityResult>)
    modifies store`matches
    ensures caller.id !in store.profiles || targetUserId !in store.profiles ==>
      r == Failure("User profile not found") && store.matches == old(store.matches)
    ensures (caller.id in store.profiles && targetUserId in store.profiles
      && !Scorable(store.profiles[caller.id], store.profiles[targetUserId])) ==>
      r == Failure(insertError) && store.matches == old(store.matches)
    ensures (caller.id in store.profiles && targetUserId in store.profiles
      && Scorable(store.profiles[caller.id], store.profiles[targetUserId])) ==>
      r == Success(Compute(store.profiles[caller.id], store.profiles[targetUserId]))
      && store.matches == old(store.matches) + [MatchFor(caller.id, targetUserId, r.value)]
  {
    var currentUser := store.GetUserProfile(caller.id);
    var targetUser := store.GetUserProfile(targetUserId);
    if currentUser.None? || targetUser.None? {
      return Failure("User profile not found");
    }
    if !Scorable(currentUser.value, targetUser.value) {
      return Failure(insertError);
    }
    var c := Compute(currentUser.value, targetUser.value);
    var _ := store.CreateMatch(caller.id, targetUserId, c.compatibilityScore, c.budgetMatch, c.scheduleMatch,
                               c.cleanlinessMatch, c.lifestyleMatch, c.petsMatch, c.explanation);
    r := Success(c);
  }

  /** The row `createMatch` inserts for a result. */
  function MatchFor(userId1: int, userId2: int, c: CompatibilityResult): (m: MatchRow)
    ensures m.userId1 == userId1 && m.userId2 == userId2 && m.status == "active"
    ensures m.compatibilityScore == c.compatibilityScore && m.explanation == c.explanation
    ensures m.budgetMatch == c.budgetMatch && m.scheduleMatch == c.scheduleMatch
      && m.cleanlinessMatch == c.cleanlinessMatch && m.lifestyleMatch == c.lifestyleMatch
      && m.petsMatch == c.petsMatch
  {
    MatchRow(userId1, userId2, c.compatibilityScore, c.budgetMatch, c.scheduleMatch, c.cleanlinessMatch,
             c.lifestyleMatch, c.petsMatch, c.explanation, "active")
  }

  // ===========================================================================
  // Admin decisions
  // ===========================================================================

  function ApprovalAudit(admin: Caller, userId: int): AuditLogRow {
    AuditLogRow(admin.id, "APPROVE_VERIFICATION", Some(userId), Some("user"), Some(userId), map[])
  }

  function RejectionAudit(admin: Caller, userId: int, reason: string): AuditLogRow {
    AuditLogRow(admin.id, "REJECT_VERIFICATION", Some(userId), Some("user"), Some(userId), map["reason" := reason])
  }

  /** `admin.approveVerification`: a caller who is not an admin is refused
      before anything is written; otherwise the record (if any) is approved
      and exactly one audit entry is appended, even for a missing record. */
  method AdminApproveVerification(store: Store, caller: Caller, userId: int, now: int)
    returns (r: Result<Option<VerificationRow>>)
    requires store.Valid()
    modifies store`verifications, store`auditLogs
    ensures store.Valid()
    ensures caller.role != Admin ==>
      r == Failure("Unauthorized")
      && store.verifications == old(store.verifications) && store.auditLogs == old(store.auditLogs)
    ensures caller.role == Admin ==>
      r.Success?
      && store.auditLogs == old(store.auditLogs) + [ApprovalAudit(caller, userId)]
    ensures caller.role == Admin && userId in old(store.verifications) ==>
      r.value == Some(ApprovedBy(old(store.verifications[userId]), caller.id, now))
      && store.verifications == old(store.verifications)[userId := r.value.value]
    ensures caller.role == Admin && userId !in old(store.verifications) ==>
      r.value.None? && store.verifications == old(store.verifications)
  {
    if caller.role != Admin {
      return Failure("Unauthorized");
    }
    var verification := store.ApproveVerification(userId, caller.id, now);
    var _ := store.CreateAuditLog(caller.id, "APPROVE_VERIFICATION", Some(userId), Some("user"), Some(userId), None);
    r := Success(verification);
  }

  /** `admin.rejectVerification`: as approval, with the reason stored on the
      record and carried in the audit entry's details. */
  method AdminRejectVerification(store: Store, caller: Caller, userId: int, reason: string, now: int)
    returns (r: Result<Option<VerificationRow>>)
    requires store.Valid()
    modifies store`verifications, store`auditLogs
    ensures store.Valid()
    ensures caller.role != Admin ==>
      r == Failure("Unauthorized")
      && store.verifications == old(store.verifications) && store.auditLogs == old(store.auditLogs)
    ensures caller.role == Admin ==>
      r.Success?
      && store.auditLogs == old(store.auditLogs) + [RejectionAudit(caller, userId, reason)]
    ensures caller.role == Admin && userId in old(store.verifications) ==>
      r.value == Some(RejectedBy(old(store.verifications[userId]), caller.id, reason, now))
      && store.verifications == old(store.verifications)[userId := r.value.value]
    ensures caller.role == Admin && userId !in old(store.verifications) ==>
      r.value.None? && store.verifications == old(store.verifications)
  {
    if caller.role != Admin {
      return Failure("Unauthorized");
    }
    var verification := store.RejectVerification(userId, caller.id, reason, now);
    var _ := store.CreateAuditLog(caller.id, "REJECT_VERIFICATION", Some(userId), Some("user"), Some(userId),
                                  Some(map["reason" := reason]));
    r := Success(verification);
  }
}
