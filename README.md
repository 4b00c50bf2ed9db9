# TrustNest decision logic in Dafny

TrustNest is a coliving platform. Tenants and landlords verify their
identity to earn a trust badge, are scored for roommate compatibility, and
browse properties. This project models the logic under the web plumbing and
proves properties of it:

- **Compatibility scoring** (`Compatibility`): the five sub-scores, the
  weighted and rounded overall score, and the explanation labels of
  `matching.calculateCompatibility`. JavaScript numbers are exact reals, and
  `Math.round` is `floor(x + 1/2)`.
- **The verification record and its procedures** (`Db`, `Routers`,
  `Storage`):
  - the database tables are maps and sequences in the `Db.Store` class, and
    each `db.ts` function is a method with frame conditions;
  - the pure transitions (`StatusUpdated`, `ApprovedBy`, `RejectedBy`)
    specify those methods;
  - the tRPC procedures are methods that drive the store and a blob store.
- **Document validation** (`DocumentService`, `DocumentUpload`): the
  server's per-type allow-list and size limit, and the client panel's own
  copy of both with its selection state. The two tables are proved equal.
- **The admin API** (`AdminRouter`): the role guard, the input bounds and
  defaults, and the stub results.
- **Client pages**:
  - `VerificationDashboard`: the wizard step machine. With the role fixed,
    the 100% "Verified!" panel is unreachable;
  - `PropertyListing`: the filter and the sort;
  - `AdminDashboard`: the admin queue filter and priority colours.
- **Internationalisation** (`I18n`, `Translations`): language negotiation,
  the stored preference, and the translation fallback chain.
- **Electronic ID** (`EId`, `SpidCie`): the provider tables, login URLs,
  the mock verification, and the SPID/CIE response normaliser.

Clocks, random suffixes, file contents after encryption and storage
answers are parameters. `Common` holds the option/result wrappers and the
string helpers. `Schema` holds the table rows and enums of
drizzle/schema.ts.

Three behaviours of the code worth noting:

- The budget score divides the midpoint gap by a fifth of the larger
  midpoint. When the larger midpoint is 0 and the other is negative, or a
  midpoint is 0 or negative against a positive one, the score is 0. Two
  different negative midpoints score above 100. Two midpoints of 0 divide
  zero by zero: the scores are NaN, and `matching.calculateCompatibility`
  fails when the match row is inserted.
- Admin approve or reject on a user without a verification record raises no
  error. The update touches nothing, the procedure returns `undefined`, and
  the audit entry is still written.
- The wizard's initial role is landlord only for a landlord user. "both"
  and no user start as tenant.

## Model

| member | source | states |
|---|---|---|
| Compatibility.JsRound | server/routers.ts:407-413 | `Math.round` lands within half a unit of its argument |
| Compatibility.BudgetFromMidpoints | server/routers.ts:371-375 | for any two midpoints not both 0: the score is never negative, at most 100 unless both midpoints are negative, 100 iff the midpoints are equal, and 0 iff the larger is not negative and the gap is at least a fifth of it |
| Compatibility.BudgetScore | server/routers.ts:370-376 | the budget score is never negative, lies in [0,100] when the larger midpoint is not negative, and is 100 when either side lacks a budget |
| Compatibility.ScheduleScore | server/routers.ts:379-381 | 50 exactly when both schedules are set and differ, otherwise 100 |
| Compatibility.CleanlinessScore | server/routers.ts:384-387 | a multiple of 20 in [0,100]; 100 iff either level is unset or the levels are equal |
| Compatibility.LifestyleScore | server/routers.ts:390-393 | 0, 50 or 100: 100 iff smoking and drinking both match, 0 iff neither does |
| Compatibility.PetsScore | server/routers.ts:396 | 100 iff `petsAllowed` is strictly equal, otherwise 50 |
| Compatibility.Scores | server/routers.ts:363-396 | the budget sub-score is never negative and the other four lie in [0,100]; all five lie in their ranges when the larger midpoint is not negative |
| Compatibility.Weighted | server/routers.ts:399-412 | the weighted sum of in-range sub-scores lies in [0,100] |
| Compatibility.OverallScore | server/routers.ts:407-413 | the overall score is in [0,100] and is the weighted sum rounded half up |
| Compatibility.QualifyingLabels | server/routers.ts:416-421 | the labels kept are an order-preserving subsequence, holding exactly those whose score exceeds 80 |
| Compatibility.Explanation | server/routers.ts:423 | with no sub-score above 80 the explanation is "Some differences in preferences" |
| Compatibility.Compute | server/routers.ts:438-446 | the returned score and rounded sub-scores are never negative, and lie in [0,100] when the larger midpoint is not negative |
| Compatibility.BudgetScoreSymmetric | server/routers.ts:370-376 | the budget score does not depend on the order of the two users |
| Compatibility.BudgetDependsOnlyOnMidpoints | server/routers.ts:371-375 | profiles with equal midpoints get equal budget scores |
| Compatibility.BudgetScoreExtremes | server/routers.ts:373-375 | 100 iff the midpoints are equal; 0 iff the larger is not negative and they differ by at least 20% of it |
| Compatibility.NonPositiveAgainstPositiveScoresZero | server/routers.ts:371-375 | a midpoint of 0 or below against a positive one scores 0, in either order |
| Compatibility.NegativeBudgetsExceedHundred | server/routers.ts:371-375 | two different negative midpoints score above 100 |
| Compatibility.BudgetOutsidePositiveExamples | server/routers.ts:371-375 | midpoints 0 and 100 score 0; midpoints -200 and -100 score 600 |
| Compatibility.IdenticalProfilesScoreFull | server/routers.ts:363-413 | a profile compared with itself scores 100 overall and on every sub-score |
| Compatibility.AllLabelsQualify | server/routers.ts:416-421 | when every score exceeds 80 every label is listed, in order |
| Compatibility.UnsetProfilesScoreFull | server/routers.ts:363-396 | unset fields on both sides give 100 everywhere, since strict equality of two absent values holds |
| Compatibility.CleanlinessExamples | server/routers.ts:384-387 | levels 3 and 5 give 60, levels 1 and 5 give 20, equal levels give 100 |
| Compatibility.EightyEarnsNoLabel | server/routers.ts:417-423 | a score of exactly 80 earns no label |
| Compatibility.ScenarioSimilarProfiles | server/routers.ts:363-446 | a worked pair of similar profiles scores 100 on everything and earns all five labels joined by ", " |
| Compatibility.PartialExplanation | server/routers.ts:415-423 | budget and lifestyle above 80, cleanliness at exactly 80: the explanation is the first and fourth labels joined by ", " |
| Compatibility.ScenarioPartialMatch | server/routers.ts:363-446 | a worked pair agreeing on budget and lifestyle gets (79, 100, 50, 80, 100, 50) and exactly those two labels |
| Compatibility.ScenarioOppositeProfiles | server/routers.ts:363-446 | a worked pair of opposite profiles gets its full result, explanation included |
| Compatibility.OverallUsesUnroundedBudget | server/routers.ts:407-444 | the overall score is computed from the unrounded budget score, not the returned rounded one |
| Db.NewVerification | server/db.ts:130-134 | a new record is pending, not verified, with every check false and no review |
| Db.StatusUpdated | server/db.ts:160-183 | only supplied checks change; all four true approves and verifies; otherwise status and badge stay, so a verified badge is never demoted |
| Db.AfterStatusUpdate | server/db.ts:166-185 | only the caller's row changes, as `StatusUpdated`; a missing row changes nothing |
| Db.ApprovedBy | server/db.ts:192-200 | approved, verified, reviewed by the admin; every other column unchanged |
| Db.RejectedBy | server/db.ts:209-218 | rejected, not verified, reviewed by the admin with the reason; every other column unchanged |
| Db.MostRecentDecisionWins | server/db.ts:160-218 | after any run of updates and admin decisions, the last decision fixes the status and badge |
| Db.AllFourInAnyOrder | server/db.ts:172-181 | updates that together set all four checks end approved and verified, in any order |
| Db.RejectThenApprove | server/db.ts:188-218 | an admin approval after a rejection restores approved and verified |
| Db.ResubmissionOverridesRejection | server/db.ts:172-181 | a check update on a record with all four checks re-approves a rejected record |
| Db.IdPendingKeepsBadge | server/db.ts:160-183 | setting `idVerified` to false never demotes a verified badge or changes the status |
| Db.RoleFor | server/db.ts:70-76 | an explicit role wins; otherwise the owner's openId gets admin and others get no role |
| Db.UpdateSetFor | server/db.ts:54-84 | only defined fields are copied, with the role rule; the update set is never empty |
| Db.InsertRowFor | server/db.ts:49-80 | a new user row carries the openId; each of name, email, loginMethod, phoneNumber and profilePictureUrl is the given value or null; the role rule's role or "user"; the sign-in time or now |
| Db.ApplyUserUpdate | server/db.ts:86-88 | a duplicate-key update keeps openId and userType; each of the seven updatable fields takes the supplied value when supplied and keeps the stored one otherwise |
| Db.OwnerBecomesAdmin | server/db.ts:70-76 | without an explicit role the owner becomes admin on insert and on update; others keep their role |
| Db.BareSignInRefreshesLastSignedIn | server/db.ts:82-84 | an input with only an openId updates just `lastSignedIn` |
| Db.Normalised | server/db.ts:427 | the pair is ordered (min, max) and holds the same two ids |
| Db.NormalisedIgnoresOrder | server/db.ts:427 | argument order does not matter |
| Db.FindConversation | server/db.ts:429-433 | finds the first conversation of the ordered pair, or reports that none exists |
| Db.FirstWhere | server/db.ts:544-550 | a `select ... limit(1)` returns the first matching row |
| Db.Store.GetUserProfile | server/db.ts:294-300 | a profile exactly when one is stored for the user |
| Db.Store.GetVerificationByUserId | server/db.ts:140-146 | a record exactly when one is stored for the user |
| Db.Store.GetOrCreateVerification | server/db.ts:119-138 | an existing record is returned unchanged; otherwise exactly one new record is inserted and returned |
| Db.Store.UpdateVerificationStatus | server/db.ts:148-186 | the table becomes `AfterStatusUpdate`; an empty update or a missing record returns nothing |
| Db.Store.ApproveVerification | server/db.ts:188-203 | the user's record becomes `ApprovedBy`; nothing else changes |
| Db.Store.RejectVerification | server/db.ts:205-221 | the user's record becomes `RejectedBy`; nothing else changes |
| Db.Store.CreateDocument | server/db.ts:227-254 | appends one AES-256-GCM document row and returns the first row with that file key |
| Db.Store.GetOrCreateConversation | server/db.ts:422-451 | returns the pair's conversation, stored as (min, max); a new row is appended only when none exists |
| Db.Store.CreateMatch | server/db.ts:517-551 | appends one active match row and returns the oldest match of the pair, not necessarily the new one |
| Db.Store.CreateAuditLog | server/db.ts:566-587 | appends exactly one audit row with details defaulting to `{}` and returns true |
| Db.Store.UpsertUser | server/db.ts:37-93 | a missing openId throws; otherwise inserts `InsertRowFor` or applies `UpdateSetFor` to the existing row |
| Db.VerificationCreatedOnce | server/db.ts:119-138 | two calls for one user return the same record and create at most one |
| Db.ConversationSharedByPair | server/db.ts:422-451 | (a, b) then (b, a) yield the same conversation and add at most one row |
| Storage.BlobStore.Put | server/routers.ts:75 | every storage call is recorded with its key, bytes and content type |
| Routers.IdAndSelfieKeysDiffer | server/routers.ts:75 | government-ID and selfie storage keys never collide |
| Routers.GetStatus | server/routers.ts:56-62 | returns the caller's record, creating it once if missing |
| Routers.UploadVerificationFile | server/routers.ts:73-97 | stores the file first; a storage failure leaves documents and checks untouched |
| Routers.UploadGovernmentId | server/routers.ts:65-98 | stores under `verifications/<id>/id/`, records a government_id document and sets `idVerified` false; any failure reads "Failed to upload government ID" |
| Routers.UploadSelfie | server/routers.ts:101-135 | stores under `verifications/<id>/selfie/`, records a selfie document and sets `selfieVerified` true; any failure reads "Failed to upload selfie" |
| Routers.VerifyEmail | server/routers.ts:138-149 | sets only `emailVerified` and answers "Email verification sent" |
| Routers.VerifyPhoneOtp | server/routers.ts:152-163 | sets only `phoneVerified`, without checking the OTP, and answers "Phone verified" |
| Routers.SubCheckProceduresTouchOwnCheck | server/routers.ts:88-157 | each procedure changes only its own check on the caller's record |
| Routers.ThreeProceduresThenApproved | server/routers.ts:125-157 | with the ID check set, the email, phone and selfie updates replayed in any of their six orders approve the record |
| Routers.IdUploadNeverApproves | server/routers.ts:88 | the government-ID upload can never complete the four checks |
| Routers.CalculateCompatibility | server/routers.ts:352-447 | a missing profile fails with "User profile not found" and saves nothing; two budget midpoints of 0 fail with the database's error and save nothing; otherwise saves exactly one match and returns `Compute` |
| Routers.MatchFor | server/routers.ts:426-436 | the saved match carries the pair, the overall score, the rounded sub-scores and the explanation |
| Routers.AdminApproveVerification | server/routers.ts:456-468 | a non-admin gets "Unauthorized" with nothing written; an admin approves and appends exactly one APPROVE_VERIFICATION entry |
| Routers.AdminRejectVerification | server/routers.ts:471-485 | a non-admin gets "Unauthorized" with nothing written; an admin rejects and appends exactly one REJECT_VERIFICATION entry with the reason |
| DocumentService.ValidateDocument | server/document-service.ts:39-60 | valid iff the type is allowed and the size is at most the limit; the type is checked first; each error has its message |
| DocumentService.LimitMessages | server/document-service.ts:29-34 | the size messages print 10, 5, 10 and 15 MB |
| DocumentService.LimitIsInclusive | server/document-service.ts:52 | a file of exactly the limit passes and one byte more fails |
| DocumentService.TypeCheckedBeforeSize | server/document-service.ts:45-57 | a wrong and oversize file reports the type error |
| DocumentService.ExecutableRejected | server/document-service.ts:22-27 | application/exe is rejected for every type |
| DocumentService.PdfAndWebpPerType | server/document-service.ts:22-27 | PDF is refused only by selfies and property photos, WebP admitted only by property photos, JPEG and PNG by all |
| DocumentService.UploadDocument | server/document-service.ts:112-149 | an invalid file fails with its message before any storage call; a valid one is stored as octet-stream under a key timed by the first clock read, and its metadata echoed with the second clock read as `uploadedAt` |
| DocumentService.DocumentKeyPrefix | server/document-service.ts:131 | every key starts `documents/<userId>/<documentType>/` |
| DocumentUpload.ClientMatchesServer | client/src/components/DocumentUpload.tsx:68-83 | for each server type, the client's allow-list, limit and decision equal the server's |
| DocumentUpload.AcceptMatchesAllowList | client/src/components/DocumentUpload.tsx:191-199 | the picker's `accept` is the allow-list joined with commas |
| DocumentUpload.AcceptGovernmentId | client/src/components/DocumentUpload.tsx:192-193 | the government-ID picker lists JPEG, PNG and PDF |
| DocumentUpload.AcceptSelfie | client/src/components/DocumentUpload.tsx:194-195 | the selfie picker lists JPEG and PNG |
| DocumentUpload.AcceptPropertyPhoto | client/src/components/DocumentUpload.tsx:196-197 | the property-photo picker lists JPEG, PNG and WebP |
| DocumentUpload.AcceptOther | client/src/components/DocumentUpload.tsx:198 | the fallback picker lists PDF, JPEG and PNG |
| DocumentUpload.UnknownTypeRejectsAll | client/src/components/DocumentUpload.tsx:82-83 | an unknown type rejects every file and falls back to 10 MiB |
| DocumentUpload.DocumentUploadPanel.constructor | client/src/components/DocumentUpload.tsx:21-28 | the panel starts with no drag, no selection, no upload |
| DocumentUpload.DocumentUploadPanel.HandleDragOver | client/src/components/DocumentUpload.tsx:47-50 | dragging starts |
| DocumentUpload.DocumentUploadPanel.HandleDragLeave | client/src/components/DocumentUpload.tsx:52-54 | dragging ends |
| DocumentUpload.DocumentUploadPanel.HandleFileSelect | client/src/components/DocumentUpload.tsx:66-96 | selects the file iff it passes both checks; a rejected file only raises its toast and keeps the earlier selection |
| DocumentUpload.DocumentUploadPanel.HandleDrop | client/src/components/DocumentUpload.tsx:56-64 | dragging always ends; only the first dropped file is considered; an empty drop changes nothing else |
| DocumentUpload.DocumentUploadPanel.HandleFileInputChange | client/src/components/DocumentUpload.tsx:98-103 | a missing or empty file list changes nothing; otherwise the first file is considered |
| DocumentUpload.DocumentUploadPanel.HandleUpload | client/src/components/DocumentUpload.tsx:105-130 | nothing happens without a selection; otherwise one request is issued and `isUploading` ends false |
| DocumentUpload.DocumentUploadPanel.OnUploadSuccess | client/src/components/DocumentUpload.tsx:32-41 | the selection moves to `uploadedFile`, an empty name reading "File", with a success toast |
| DocumentUpload.DocumentUploadPanel.OnUploadError | client/src/components/DocumentUpload.tsx:42-44 | adds the "Upload failed: " toast |
| DocumentUpload.DocumentUploadPanel.HandleClear | client/src/components/DocumentUpload.tsx:132-138 | both the selection and the finished upload are cleared |
| DocumentUpload.DocumentUploadPanel.RemoveSelection | client/src/components/DocumentUpload.tsx:220-227 | the remove button drops the selection only; a finished upload stays |
| AdminRouter.AdminGuard | server/routers/admin.ts:16-24 | passes iff the role is admin; otherwise FORBIDDEN with its message, also without a user |
| AdminRouter.ParseNumber | server/routers/admin.ts:33-34 | a missing number takes its default; a present one must lie within its bounds |
| AdminRouter.ParseEnum | server/routers/admin.ts:35-36 | a missing value takes its default; a present one must be an option |
| AdminRouter.ParsePendingInput | server/routers/admin.ts:31-38 | accepts iff limit is in 1..100 and offset at least 0; defaults 20, 0, "all", "all" |
| AdminRouter.ParseAuditLogInput | server/routers/admin.ts:248-255 | accepts iff limit is in 1..100 and offset at least 0; defaults 50 and 0 |
| AdminRouter.Guarded | server/routers/admin.ts:16-24 | the guard runs before input validation, then the handler sees the parsed input |
| AdminRouter.GetPendingVerifications | server/routers/admin.ts:30-50 | an admin with valid input gets an empty page: no rows, total 0, no more |
| AdminRouter.GetAuditLogs | server/routers/admin.ts:247-266 | an admin with valid input gets an empty page |
| AdminRouter.GetVerificationDetails | server/routers/admin.ts:55-65 | an admin always gets a null verification |
| AdminRouter.GetStatistics | server/routers/admin.ts:228-242 | an admin gets all counts 0 and no recent activity |
| AdminRouter.ParseMutation | server/routers/admin.ts:178-276 | the flag type must be listed; the badge type must be listed and defaults to "unverified"; other mutations always parse |
| AdminRouter.MutationsGuardThenEcho | server/routers/admin.ts:70-334 | non-admins are refused; every accepted mutation returns success and echoes its verification, document or user id |
| AdminRouter.GuardBeforeValidation | server/routers/admin.ts:16-38 | invalid input from a non-admin reads FORBIDDEN, not a validation error |
| AdminRouter.PendingDefaults | server/routers/admin.ts:31-38 | empty inputs take the documented defaults |
| VerificationDashboard.DefaultRole | client/src/pages/VerificationDashboard.tsx:16 | the wizard starts as landlord iff the user is a landlord |
| VerificationDashboard.StepCount | client/src/pages/VerificationDashboard.tsx:20-35 | tenants have 4 steps and landlords 5 |
| VerificationDashboard.CompletedSteps | client/src/pages/VerificationDashboard.tsx:36 | `min(step, length)` |
| VerificationDashboard.ProgressPercentage | client/src/pages/VerificationDashboard.tsx:37 | lies in [0,100] and is 100 iff the step has reached the list's length |
| VerificationDashboard.Next | client/src/pages/VerificationDashboard.tsx:59-205 | role cards set the role, step clicks set the step, any step button sets `isVerified`, Continue advances only below the last step |
| VerificationDashboard.FixedRoleNeverVerified | client/src/pages/VerificationDashboard.tsx:108 | with the role never changed the step stays below the length, so the badge panel never reads "Verified!" |
| VerificationDashboard.FromStartNeverVerified | client/src/pages/VerificationDashboard.tsx:16-37 | from a fresh page no run that keeps the role reaches 100% |
| VerificationDashboard.VerifiedIsNeverReset | client/src/pages/VerificationDashboard.tsx:223-287 | once set, `isVerified` stays true |
| VerificationDashboard.LandlordThenTenantShowsVerified | client/src/pages/VerificationDashboard.tsx:59-108 | reaching landlord step 4 and switching to tenant shows 100% |
| VerificationDashboard.ContinueStopsAtLastStep | client/src/pages/VerificationDashboard.tsx:201-205 | Continue at the last step does nothing |
| VerificationDashboard.Wizard.constructor | client/src/pages/VerificationDashboard.tsx:16-18 | the wizard starts at step 0, unverified, in the default role |
| VerificationDashboard.Wizard.SelectRole | client/src/pages/VerificationDashboard.tsx:59 | follows `Next` for a role card |
| VerificationDashboard.Wizard.SelectStep | client/src/pages/VerificationDashboard.tsx:148 | follows `Next` for a step click |
| VerificationDashboard.Wizard.EnterCode | client/src/pages/VerificationDashboard.tsx:255-262 | records the typed code of at most 6 characters, which nothing checks |
| VerificationDashboard.Wizard.PressStepButton | client/src/pages/VerificationDashboard.tsx:264-287 | follows `Next` for a step button |
| VerificationDashboard.Wizard.OnComplete | client/src/pages/VerificationDashboard.tsx:201-205 | follows `Next` for Continue |
| PropertyListing.LeadingDigits | client/src/pages/PropertyListing.tsx:39 | the longest all-digit prefix, as `parseInt` reads it |
| PropertyListing.ParseInt | client/src/pages/PropertyListing.tsx:39 | NaN exactly when the text does not start with a digit |
| PropertyListing.ParseIntRoundTrip | client/src/pages/PropertyListing.tsx:39 | every natural number printed in decimal parses back to itself |
| PropertyListing.SelectValuesParse | client/src/pages/PropertyListing.tsx:104-113 | the options "1" to "4" parse to their value |
| PropertyListing.Filter | client/src/pages/PropertyListing.tsx:23-42 | keeps exactly the properties passing the three clauses, in order, each with its multiplicity: duplicates are kept or dropped together |
| PropertyListing.Insert | client/src/pages/PropertyListing.tsx:43-56 | inserting into a sorted list keeps it sorted and adds exactly one element |
| PropertyListing.Sort | client/src/pages/PropertyListing.tsx:43-56 | the result is sorted by the comparator and a permutation of the input |
| PropertyListing.FilteredIsSortedPermutation | client/src/pages/PropertyListing.tsx:20-56 | the output is a sorted permutation of exactly the properties passing the filter |
| PropertyListing.SortOrders | client/src/pages/PropertyListing.tsx:43-56 | price_asc gives non-decreasing prices, price_desc non-increasing, newest non-increasing creation times |
| PropertyListing.NoDataNoResults | client/src/pages/PropertyListing.tsx:21 | no data gives an empty list |
| PropertyListing.RoomFilterRules | client/src/pages/PropertyListing.tsx:37-39 | off for "" and "0"; a missing or zero room count passes; otherwise at least the minimum is needed |
| PropertyListing.DefaultFiltersKeepPriceRange | client/src/pages/PropertyListing.tsx:14-34 | the default filters keep exactly prices from 0 to 5000, both ends included |
| PropertyListing.CitySearchIgnoresCase | client/src/pages/PropertyListing.tsx:26-28 | lower-casing the search text or the city never changes whether a property matches |
| PropertyListing.CitySearchExample | client/src/pages/PropertyListing.tsx:26-28 | "Roma" matches a search for "ROM" |
| AdminDashboard.FilterQueue | client/src/pages/AdminDashboard.tsx:136-143 | keeps exactly the requests matching search, status and priority, as an order-preserving subsequence with every multiplicity kept |
| AdminDashboard.EmptySearchMatchesAll | client/src/pages/AdminDashboard.tsx:137-139 | an empty search matches every request |
| AdminDashboard.NoFilterShowsAll | client/src/pages/AdminDashboard.tsx:136-143 | an empty search with both filters on "all" shows the whole queue |
| AdminDashboard.DefaultFiltersShowPending | client/src/pages/AdminDashboard.tsx:113-116 | the default filters show exactly the pending requests |
| AdminDashboard.PriorityColor | client/src/pages/AdminDashboard.tsx:145-156 | high is red, medium yellow, low green, anything else slate |
| AdminDashboard.PriorityColorsDistinct | client/src/pages/AdminDashboard.tsx:145-156 | each priority has its own colour, never the fallback |
| AdminDashboard.Render | client/src/pages/AdminDashboard.tsx:119-143 | only an admin sees the queue, and it is the filtered sample list |
| AdminDashboard.NonAdminSeesNothing | client/src/pages/AdminDashboard.tsx:119-134 | a non-admin or absent user gets the access-denied view |
| I18n.FromCode | client/src/lib/i18n.ts:2-13 | a code names a language iff it is one of the eight, and decodes to it |
| I18n.CodesRoundTrip | client/src/lib/i18n.ts:4-13 | eight codes, one per language, each decoding back |
| I18n.BrowserLanguage | client/src/lib/i18n.ts:29-34 | the part before the first "-" when supported, otherwise English; English without a window |
| I18n.BrowserLanguageExamples | client/src/lib/i18n.ts:29-34 | "it-IT" gives Italian and "zh-CN" English |
| I18n.StoredLanguage | client/src/lib/i18n.ts:17-21 | the stored string when non-empty, otherwise "en"; "en" without a window |
| I18n.AfterStore | client/src/lib/i18n.ts:23-27 | a write sets only the language key, and only when there is a window |
| I18n.SetThenGet | client/src/lib/i18n.ts:17-27 | reading after a write returns the written code |
| I18n.LastWriteWins | client/src/lib/i18n.ts:23-27 | of two writes the second wins |
| I18n.NoWindowNoPersistence | client/src/lib/i18n.ts:17-27 | without a window nothing is stored and reads give the default |
| I18n.StoredValueNotValidated | client/src/lib/i18n.ts:19-20 | any non-empty stored string is returned as is, even one naming no language |
| I18n.Browser.GetStoredLanguage | client/src/lib/i18n.ts:17-21 | reads the browser's storage as `StoredLanguage` |
| I18n.Browser.SetStoredLanguage | client/src/lib/i18n.ts:23-27 | the storage becomes `AfterStore` |
| I18n.StoreTwice | client/src/lib/i18n.test.ts:66-71 | writing "de" then "es" reads back "de" then "es" |
| Translations.Lookup | client/src/lib/translations.ts:543-545 | the language's non-empty entry, else the non-empty English entry, else the key |
| Translations.LookupNeverEmpty | client/src/lib/translations.ts:544 | a non-empty key never translates to "" |
| Translations.EnglishLookup | client/src/lib/translations.ts:544 | English is its own entry or the key |
| Translations.CompleteTableNeverFallsBack | client/src/lib/translations.ts:544 | a complete table without empty entries never falls back |
| Translations.NavTable | client/src/lib/translations.ts:8-13 | every table holds the six navigation keys |
| Translations.NavEntries | client/src/lib/translations.ts:8-482 | each language's navigation entries, with the same keys |
| Translations.TablesHaveSameKeys | client/src/lib/i18n.test.ts:161-171 | every table has the keys of the English one |
| Translations.NavPropertiesFirstFour | client/src/lib/i18n.test.ts:75-93 | `nav.properties` in English, Italian, French and German |
| Translations.NavPropertiesLastFour | client/src/lib/i18n.test.ts:95-113 | `nav.properties` in Spanish, Swedish, Portuguese and Dutch |
| Translations.UnknownKeyIsReturned | client/src/lib/translations.ts:544 | for any tables, a key that no table has comes back unchanged |
| EId.ParseProvider | server/eID.ts:24 | a parsed provider code is that provider's literal |
| EId.ProviderCodeRoundTrip | server/eID.ts:24 | every provider's code parses back to it |
| EId.ParseCountry | server/eID.ts:26 | a parsed country code is that country's literal |
| EId.ProvidersForCountry | server/eID.ts:61-73 | the country's list, or [] for an unknown country |
| EId.ProviderInExactlyOneCountry | server/eID.ts:62-71 | each provider is listed under exactly one country |
| EId.ProvidersForCountryPartition | server/eID.ts:61-73 | through the string interface too, a provider appears under its own code only |
| EId.MetadataMatchesCountryTable | server/eID.ts:78-92 | the metadata names and flags the country whose list holds the provider |
| EId.AuthUrl | server/eID.ts:307-323 | the base URL, then `?request_id=`, then the id unchanged |
| EId.AuthUrlDeterminesRequestId | server/eID.ts:322 | distinct request ids give distinct URLs |
| EId.MockUsersMatchCountry | server/eID.ts:137-258 | each mock identity is of its provider's country, with id equal to document number |
| EId.VerifyResponse | server/eID.ts:129-299 | echoes the request id; an unknown provider fails with "Unknown provider: …"; a known one succeeds with its mock identity |
| EId.VerificationIgnoresSaml | server/eID.ts:129-299 | every known provider succeeds, and the SAML response makes no difference |
| SpidCie.AvailableProviders | server/spid-cie.ts:47-49 | the configured list, unchanged |
| SpidCie.AvailableProvidersUnchanged | server/spid-cie.ts:40-49 | a service returns the list it was built with |
| SpidCie.GenerateAuthnRequest | server/spid-cie.ts:54-74 | throws "Invalid IdP index" iff the index has no provider; otherwise addresses that provider's entry point |
| SpidCie.DefaultIndexUsesFirstProvider | server/spid-cie.ts:54-56 | the default index 0 fails on an empty list and uses the first provider otherwise |
| SpidCie.OrDefault | server/spid-cie.ts:79-86 | an absent or empty attribute takes the fallback |
| SpidCie.ProcessSamlResponse | server/spid-cie.ts:77-93 | always verified; CIE iff the document type is "CIE"; document number and expiry pass through |
| SpidCie.MethodAgreesWithDocumentType | server/spid-cie.ts:86-90 | the reported type reads "CIE" iff the method is CIE; no type means SPID |
| SpidCie.EmptyResponse | server/spid-cie.ts:79-88 | an empty response gives empty strings, type "SPID" and no document details |
| SpidCie.CreateSpidCieService | server/spid-cie.ts:99-131 | production has three providers, any other environment one |
| SpidCie.ServicePerEnvironment | server/spid-cie.ts:101-129 | production is SPID, SPID, CIE and development the single "SPID Test"; only indices in range are accepted |

## Left out

- Database availability: every `if (!db)` branch, which returns `undefined` or `[]`, is left out. The store always exists.
- Database constraints other than the keys modelled: the unique email of `users` is not enforced, and auto-increment ids other than conversation ids are not modelled.
- Db.Store.UpsertUser: models only the openId conflict of `onDuplicateKeyUpdate`; a clash on another unique column is not modelled.
- Storage, encryption and decryption: `storagePut`, AES-256-GCM and the signed download URLs are outside this model. The ciphertext and the storage answer are parameters.
- Clocks and randomness: `Date.now()`, `new Date()`, the random hex suffix, `generateAuthRequest` in server/eID.ts and the random request id are parameters or left out.
- Base64 encoding of the SAML AuthnRequest is left out. `SpidCie.GenerateAuthnRequest` returns the XML before encoding.
- The SAML routes, strategy and identity-provider simulator (server/saml-*.ts) are not part of this model.
- The `_core` tRPC layer is not part of this model: `protectedProcedure`'s own check for a signed-in user, the context and the error mapping. Callers of the procedures are assumed signed in.
- Zod validation beyond what the admin API models: the email format of `verifyEmail`, non-integer numbers, and string lengths are not checked.
- JavaScript numbers are exact reals here. Floating-point rounding, NaN for non-numeric decimals, and 0.1 + 0.2 effects are not modelled.
- Compatibility.BudgetScore: requires that two compared budget midpoints are not both 0, because the code then divides zero by zero and the score is NaN (floating point). `Routers.CalculateCompatibility` models that case as a failed insert.
- Routers.CalculateCompatibility: a score above 127 (from two different negative midpoints) does not fit the tinyint columns; the model stores it unchanged. The database's own error text for the NaN case is a parameter.
- Compatibility.Explanation: its own contract states only the no-label case; the label list is stated by `Compatibility.QualifyingLabels`, and the ", " join by `Compatibility.IdenticalProfilesScoreFull`, `Compatibility.ScenarioSimilarProfiles` and `Compatibility.PartialExplanation`.
- Procedures not in the core: profile, matching-profile and property CRUD, `uploadPhoto`, the messaging procedures (`createMessage`, `markMessageAsRead`), `getDocuments` and `getUserMatches`.
- The document router (server/routers/documents.ts) is not part of this model; the client panel's requests are recorded, not sent.
- DocumentUpload: the client tables are modelled for string keys; keys that hit `Object.prototype` members such as "constructor" are not modelled. File reading (`FileReader`) is not modelled, so a request is issued at once.
- Case folding: `toLowerCase` is modelled for ASCII letters only.
- PropertyListing.ParseInt: models `parseInt` on unsigned decimal text; leading whitespace and signs are not modelled, since the select only offers "0" to "4". Its value is stated by `PropertyListing.ParseIntRoundTrip`.
- EId.ProvidersForCountry: takes the country as a string and returns [] for every key outside the eight countries. In the source, `providers[country] || []` reads a plain object, so an inherited key such as "constructor" returns the `Object` function instead; such keys are not modelled.
- EId.VerifyResponse: an inherited key such as "toString" is truthy in the source's `mockUsers` object, which then reports success with an empty identity. The model treats such keys as unknown providers and fails with "Unknown provider: …".
- PropertyListing.Sort: stability of the sort is built into the insertion but not stated as a lemma. Invalid dates (NaN comparisons) are not modelled.
- AdminDashboard: the statistics cards and tabs are constant rendering, and the sample data is not tied to the admin API. No lemma evaluates the filter on the three sample requests.
- Translations: only the navigation entries of the eight tables are written out. The other keys follow the same `Lookup`, and the test's equal-key-count check is stated for these entries.
- Rendering: React components, pages without logic (Home, App, UserProfile, Messaging, eIDVerification, RoommateMatching), LanguageSwitcher and the language context are not modelled.
- Concurrency: interleaved requests and async ordering are not modelled. Each procedure runs to completion.
