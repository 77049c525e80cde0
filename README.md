# Multi-tenant document summarizer — a Dafny model

The system is a SaaS application. An organization (a tenant, called a workspace in the UI)
signs up, or signs in through Google or Microsoft. Its admin invites members by a one-time
link. Members upload PDF and Word documents, and an AI model (Gemini) summarizes them. Each
plan has a monthly summary quota, and Stripe handles the subscription billing. Every change
an admin makes is recorded in an audit log.

The model covers the FastAPI backend: the authentication, user, organization, document,
summary, billing, analytics and activity endpoints, plus the services they call. It also
covers the Next.js frontend components that drive these endpoints and interpret their
answers.

- **Rows are datatypes and tables are maps from id to row.** The maps live in one
  `Store.Database` class. Endpoints are methods that `modifies` it.
- **Every state-changing endpoint states the database's whole new state.** It gives
  `db.State()` as a function of `old(db.State())`. It also preserves `Database.Valid()`:
  every row is stored under its own id, emails are unique, and invitation tokens are
  unique.
- **Outside inputs become parameters.** Anything the backend cannot see becomes a parameter
  of the operation:
  - fresh uuids and tokens, with `!in` preconditions;
  - the current time;
  - the order in which a query visits rows (a `scan` of the table's keys);
  - the password hash and verify functions;
  - the Gemini reply;
  - Stripe's answers;
  - the OAuth token exchange;
  - whether a file exists on disk.
- **Frontend components are classes whose fields are the component's React state.**
  `localStorage` is a `Browser.LocalStorage` object. Each `fetch` outcome is a
  `Fetch<T>` parameter (ok with a body, not ok with a status, or thrown). The router push is
  a returned `Navigation`.

Module layout, one module per source file:

- **Backend models:** `OrganizationModel`, `UserModel` and `Records`. `Records` holds
  Document, Summary and ActivityLog.
- **Backend configuration and store:** `Config`, and `Store` with the generic query helpers
  in `Tables`.
- **Backend services:** `ActivityLogger`, `AiService` and `StripeService`.
- **Backend endpoints:** `AuthEndpoint`, `UsersEndpoint`, `OrganizationsEndpoint`,
  `DocumentsEndpoint`, `SummariesEndpoint`, `BillingEndpoint`, `AnalyticsEndpoint` and
  `ActivityEndpoint`.
- **Frontend:** `Browser`, `AuthStore`, `AuthCallback`, `AcceptInvitationPage`,
  `TeamMembersView`, `DashboardHeaderView`, `ActivityLogView`, `DocumentUploaderView` and
  `WorkspaceSettingsView`.
- **Shared:** `Text` holds the string operations the sources use (split, join, strip, case
  mapping, number formatting). `Common` holds ids, time, HTTP responses and `Option`.

## Model

| member | source | states |
|---|---|---|
| OrganizationModel.NewOrganization | backend/app/models/organization.py:8-34 | a new organization gets every column default: trial status, basic plan, 100 summaries a month and none used, no domain and no Stripe ids, auto-generated summaries on, notifications, approval and two-factor off, 90-day retention, export allowed, active |
| OrganizationModel.CanCreateSummary | backend/app/models/organization.py:44-46 | a summary may be created exactly while this month's usage is below the limit |
| OrganizationModel.IncrementSummaryUsage | backend/app/models/organization.py:48-50 | usage rises by exactly one and no other column changes |
| OrganizationModel.GuardedIncrementStaysWithinQuota | backend/app/models/organization.py:44-50 | an increment made only when `can_create_summary` holds never pushes usage past the limit; the quota is exhausted afterwards exactly when this was the last allowed summary |
| OrganizationModel.QuotaRunsOut | backend/app/models/organization.py:44-50 | starting within quota, exactly limit − used guarded increments are allowed: every earlier step may create a summary, and after the last one creation is refused |
| OrganizationModel.RepeatUsage | backend/app/models/organization.py:48-50 | k increments add k to usage and change nothing else |
| UserModel.RoleValue | backend/app/models/user.py:9-11 | the stored text of a role is "admin" exactly for Admin and "member" exactly for Member |
| UserModel.ParseRole | backend/app/models/user.py:9-11 | exactly the two role texts parse to a role |
| UserModel.RoleValueRoundTrip | backend/app/models/user.py:9-11 | parsing a role's text gives the role back |
| UserModel.NewUser | backend/app/models/user.py:14-39 | a new user gets the column defaults: member, active, unverified, not pending, no token, no password, no name, no OAuth identity, never logged in |
| UserModel.AdminXorMember | backend/app/models/user.py:48-54 | a user is an admin or a member but never both, and is an admin exactly when the stored role text is "admin" |
| Records.ActivityTypeValueInjective | backend/app/models/activity_log.py:9-16 | distinct activity types are stored as distinct texts |
| Config.CommaList | backend/app/core/config.py:73-79 | the list has one entry per comma plus one, and each entry is the matching comma-separated piece with its whitespace stripped |
| Config.StripAll | backend/app/core/config.py:75 | every element is stripped, in order, and the length is kept |
| Config.MaxFileSizeBytes | backend/app/core/config.py:81-83 | the byte limit is the megabyte setting times 1024·1024 |
| Config.DefaultMaxFileSize | backend/app/core/config.py:55 | by default the limit is 10485760 bytes |
| Config.CommaListOfJoin | backend/app/core/config.py:73-79 | joining comma-free, unpadded items with commas and parsing the result gives the items back |
| Config.StripAllUnpadded | backend/app/core/config.py:75 | stripping leaves items without surrounding whitespace unchanged |
| Config.DefaultFileTypes | backend/app/core/config.py:56 | the default allowed types are exactly PDF and DOCX, in that order |
| Text.Split | backend/app/core/config.py:75 | splitting always yields at least one piece |
| Text.SplitCount | backend/app/core/config.py:75 | the number of pieces is the number of separators plus one |
| Text.SplitPiecesAreSeparatorFree | backend/app/core/config.py:75 | no piece contains the separator |
| Text.JoinSplit | backend/app/core/config.py:75 | joining the pieces with the separator gives the original string back |
| Text.SplitJoin | backend/app/core/config.py:75 | splitting a join of separator-free pieces gives the pieces back |
| Text.SplitSeparatorFree | frontend/src/components/team-members.tsx:209 | a string without the separator splits into itself alone |
| Text.SplitPrefix | frontend/src/components/team-members.tsx:209 | a separator-free word followed by the separator splits off as the first piece |
| Text.TrimStart | backend/app/core/config.py:75 | the result is a suffix of the input, everything cut off is whitespace, and it does not start with whitespace |
| Text.TrimEnd | backend/app/core/config.py:75 | the result is a prefix of the input, everything cut off is whitespace, and it does not end with whitespace |
| Text.Strip | backend/app/core/config.py:75 | the result is a slice of the input with only whitespace removed around it, and neither end is whitespace |
| Text.StripUnpadded | backend/app/core/config.py:75 | a string with no surrounding whitespace is its own strip |
| Text.Words | backend/app/services/ai_service.py:59 | every element of a whitespace split is a non-empty run of non-space characters, and a string starting with a non-space starts its first word |
| Text.WordsKeepNonSpace | backend/app/services/ai_service.py:59 | the words, concatenated, are exactly the input's non-space characters in order |
| Text.WordsCount | backend/app/services/ai_service.py:59 | the number of words `split()` gives is the number of non-space characters that are last or followed by whitespace, so words are maximal runs |
| Text.NoWordsIffBlank | backend/app/services/ai_service.py:59 | `split()` gives no words exactly when the string is whitespace only |
| Text.ToUpper | frontend/src/components/team-members.tsx:212 | same length, each character upper-cased |
| Text.ToLower | frontend/src/components/activity-log.tsx:61 | same length, each character lower-cased |
| Text.ToLowerIdempotent | frontend/src/components/activity-log.tsx:61 | lower-casing twice is lower-casing once |
| Text.Contains | frontend/src/components/document-uploader.tsx:33 | true exactly when the needle occurs at some position |
| Text.DigitChar | backend/app/api/v1/endpoints/summaries.py:50 | a digit below ten becomes the character with that value |
| Text.NatToString | backend/app/api/v1/endpoints/summaries.py:50 | a decimal rendering of a number is non-empty and all digits |
| Text.NatToStringRoundTrip | backend/app/api/v1/endpoints/summaries.py:50 | reading the decimal rendering back gives the number |
| Tables.RowsOf | backend/app/api/v1/endpoints/users.py:27-29 | a query's rows are the table's rows at the visited keys, in visiting order |
| Tables.RowsOfScanComplete | backend/app/api/v1/endpoints/users.py:27-29 | a query that visits every key returns every row |
| Tables.FirstMatch | backend/app/services/stripe_service.py:122-124 | `.first()` on a filter finds a matching row, or none exactly when no row matches |
| Tables.Filter | backend/app/api/v1/endpoints/users.py:27-29 | the result holds exactly the rows that satisfy the filter |
| Tables.FilterScan | backend/app/api/v1/endpoints/users.py:27-29 | filtering a scan that visits every key once keeps exactly the table's rows that pass |
| Tables.FilterKeepsOrder | backend/app/api/v1/endpoints/users.py:27-29 | the filtered rows are taken from strictly increasing positions of the scan, so the listing keeps the scan order |
| Tables.FilterMultiset | backend/app/api/v1/endpoints/users.py:27-29 | filtering keeps every kept row as often as it occurs and drops the rest |
| Tables.Count | backend/app/api/v1/endpoints/analytics.py:21-23 | a count is at most the number of rows |
| Tables.CountIsFilterLength | backend/app/api/v1/endpoints/analytics.py:21-23 | `count()` is the length of the filtered rows |
| Tables.CountSplit | backend/app/api/v1/endpoints/analytics.py:118-122 | counting under two disjoint conditions adds up to counting under their union |
| Tables.InsertDesc | backend/app/api/v1/endpoints/activity.py:22-26 | inserting into a list sorted newest first keeps it sorted and adds exactly that row |
| Tables.SortDesc | backend/app/api/v1/endpoints/activity.py:22-26 | `order_by(created_at.desc())` gives a permutation of the rows, sorted newest first |
| Tables.Page | backend/app/api/v1/endpoints/documents.py:101-103 | `offset(skip).limit(limit)` gives at most `limit` rows, taken in order from position `skip`, and none when skip is past the end |
| Tables.PageLength | backend/app/api/v1/endpoints/documents.py:101-103 | a page is as long as the smaller of the limit and the number of rows left after skipping |
| Tables.PageSubset | backend/app/api/v1/endpoints/documents.py:101-103 | every row of a page is a row of the query |
| Tables.Latest | backend/app/api/v1/endpoints/activity.py:22-26 | the newest `limit` matching rows: as many as the limit allows, sorted newest first, all matching, each at most as often as it matches, all matching rows when fewer than the limit, and every matching row newer than the last one kept is kept |
| Tables.FirstPageOfSorted | backend/app/api/v1/endpoints/activity.py:22-26 | the first `limit` rows of any newest-first permutation of the matches have every property `Latest` promises |
| Tables.LatestNewest | backend/app/api/v1/endpoints/activity.py:22-26 | on the first page of a newest-first permutation of the matches, every matching row newer than the page's last row is on the page |
| Tables.NewerPassingRowKept | backend/app/api/v1/endpoints/activity.py:22-26 | a single matching row newer than the last row of that first page is on it |
| Tables.LatestLeavesOutOnlyOlder | backend/app/api/v1/endpoints/activity.py:22-26 | a matching row `Latest` leaves out is never newer than a row it keeps |
| Tables.LatestPage | backend/app/api/v1/endpoints/activity.py:22-26 | taking the first `limit` rows of any permutation of the matches gives what `Latest` promises: as many as the limit allows, only matching rows, and all of them when fewer than the limit |
| Store.FindUserByEmail | backend/app/api/v1/endpoints/auth.py:31 | the lookup finds a user exactly when the email is registered, and then the stored row with that email |
| Store.FindUserByToken | backend/app/api/v1/endpoints/auth.py:300 | the lookup finds a user exactly when some user holds the token, and then that stored row |
| Store.DocumentIn | backend/app/api/v1/endpoints/documents.py:115-118 | the tenant-filtered lookup finds the document exactly when it exists and belongs to the organization |
| Store.SummaryIn | backend/app/api/v1/endpoints/summaries.py:120-123 | the tenant-filtered lookup finds the summary exactly when it exists and belongs to the organization |
| ActivityLogger.Entry | backend/app/services/activity_logger.py:14-20 | the entry carries the actor's id and organization and the given action, target and details |
| ActivityLogger.LogActivity | backend/app/services/activity_logger.py:6-23 | exactly one entry is added under a fresh id; every other table is unchanged |
| AuthEndpoint.SignupOrganization | backend/app/api/v1/endpoints/auth.py:46-53 | the signup organization carries the requested name, trial status, a limit of 100 and no usage |
| AuthEndpoint.SignupUser | backend/app/api/v1/endpoints/auth.py:55-67 | the signup user is the organization's active admin with the hashed password, not pending, with no token |
| AuthEndpoint.Signup | backend/app/api/v1/endpoints/auth.py:27-78 | a registered email is refused with 400, with the pending-invitation message exactly when its holder is pending, and nothing changes; otherwise exactly the organization and its admin are added and tokens for the new user are returned |
| AuthEndpoint.LoginDecision | backend/app/api/v1/endpoints/auth.py:97-134 | tokens are issued exactly when the user is not pending, has a non-empty password hash that verifies, and is active; the checks run in the source's order: pending invitation 403, then no password 403, then a wrong password the invalid-credentials 401, then a disabled account 403; every 401 is the same invalid-credentials answer |
| AuthEndpoint.Login | backend/app/api/v1/endpoints/auth.py:81-135 | an unknown email gets the same 401 as a wrong password; a known one gets the decision for that user; nothing is written |
| AuthEndpoint.SignupThenLogin | backend/app/api/v1/endpoints/auth.py:27-135 | a freshly signed-up user can log in with the signup password |
| AuthEndpoint.OAuthOrganization | backend/app/api/v1/endpoints/auth.py:163-166 | an OAuth user's new organization is named after the user's name, in trial with a limit of 100 |
| AuthEndpoint.OAuthUser | backend/app/api/v1/endpoints/auth.py:171-180 | an OAuth user is a verified, active admin with the provider and subject recorded and no password or token |
| AuthEndpoint.OAuthCallback | backend/app/api/v1/endpoints/auth.py:144-262 | a failed exchange or missing user info is a 400 and changes nothing; a missing email claim is a 400; a new email adds exactly an organization and its admin; a known email updates only that user's last login; every success redirects with tokens for that user |
| AuthEndpoint.CheckInvitation | backend/app/api/v1/endpoints/auth.py:274-290 | answers "no account" exactly for unregistered emails; otherwise reports pending status, name and organization, and reveals the token only while the invitation is pending |
| AuthEndpoint.Accepted | backend/app/api/v1/endpoints/auth.py:315-319 | accepting sets the password hash and last login, clears pending and the token, marks the user verified, and keeps every other column |
| AuthEndpoint.AcceptInvitation | backend/app/api/v1/endpoints/auth.py:293-333 | an unknown token is 404 and changes nothing; an invitation already accepted is 400 and changes nothing; otherwise only that user is replaced by its accepted form, and after success no user holds the token |
| AuthEndpoint.AcceptThenLogin | backend/app/api/v1/endpoints/auth.py:97-333 | a pending invitee cannot log in; after accepting with a password, the same password logs in |
| AuthEndpoint.Refresh | backend/app/api/v1/endpoints/auth.py:335-365 | a token that does not decode, or is not of type "refresh", is 401; otherwise new tokens are issued exactly when the subject is a stored user |
| UsersEndpoint.ListUsers | backend/app/api/v1/endpoints/users.py:21-30 | the list is the caller's organization's users, filtered from the scan in scan order, and holds exactly those users |
| UsersEndpoint.Invitee | backend/app/api/v1/endpoints/users.py:57-66 | the invited row is in the admin's organization, active, pending, unverified, holds the token and has no password |
| UsersEndpoint.CreateUser | backend/app/api/v1/endpoints/users.py:33-81 | an email registered anywhere is 400 and changes nothing; otherwise exactly the invitee and one INVITE entry naming the email and role are added |
| UsersEndpoint.ApplyUserUpdate | backend/app/api/v1/endpoints/users.py:105-110 | each supplied field is overwritten and every other column is kept |
| UsersEndpoint.UpdateIdempotent | backend/app/api/v1/endpoints/users.py:105-123 | applying an update twice equals applying it once, and the second time logs no role change |
| UsersEndpoint.MemberOf | backend/app/api/v1/endpoints/users.py:92-101 | a user is found exactly when it exists and belongs to the caller's organization |
| UsersEndpoint.UpdateUser | backend/app/api/v1/endpoints/users.py:84-125 | a user outside the organization is 404 and changes nothing; otherwise the user is replaced by its update, and a ROLE_CHANGE entry is added exactly when a different role was supplied |
| UsersEndpoint.DeleteUser | backend/app/api/v1/endpoints/users.py:128-166 | deleting yourself is 400; a user outside the organization is 404; otherwise exactly that user is removed and one DELETE entry naming the email is added |
| OrganizationsEndpoint.CreateOrganization | backend/app/api/v1/endpoints/organizations.py:27-47 | exactly one organization with the defaults and the requested name is added; the requested domain is not stored |
| OrganizationsEndpoint.Pick | backend/app/api/v1/endpoints/organizations.py:65-94 | a supplied value wins and an absent one keeps the current value |
| OrganizationsEndpoint.Applied | backend/app/api/v1/endpoints/organizations.py:65-94 | each supplied setting is taken and every other column is kept |
| OrganizationsEndpoint.ChangesEmptyIffUnchanged | backend/app/api/v1/endpoints/organizations.py:65-107 | the change list is empty exactly when the update leaves the organization as it was |
| OrganizationsEndpoint.ReapplyIsNoop | backend/app/api/v1/endpoints/organizations.py:65-94 | re-applying an update changes nothing and reports no changes |
| OrganizationsEndpoint.DomainFromNone | backend/app/api/v1/endpoints/organizations.py:69-70 | setting a domain where none was set reports "domain: none → d" |
| OrganizationsEndpoint.TrackBool | backend/app/api/v1/endpoints/organizations.py:76-91 | one boolean setting step gives the picked value and appends its change line exactly when the value differs |
| OrganizationsEndpoint.TrackBasic | backend/app/api/v1/endpoints/organizations.py:65-75 | the name, domain and active steps give the picked values and their change lines |
| OrganizationsEndpoint.TrackRetention | backend/app/api/v1/endpoints/organizations.py:88-91 | the retention step gives the picked value and appends its line exactly when the value differs |
| OrganizationsEndpoint.TrackChanges | backend/app/api/v1/endpoints/organizations.py:65-94 | walking all fields gives the applied organization and the change list |
| OrganizationsEndpoint.UpdateOrganization | backend/app/api/v1/endpoints/organizations.py:50-109 | a missing organization fails unhandled and changes nothing; otherwise the organization becomes its update, and one SETTINGS_UPDATE entry joining the changes is added exactly when there are any |
| OrganizationsEndpoint.DeleteOrganization | backend/app/api/v1/endpoints/organizations.py:112-134 | a missing organization is 404; otherwise exactly that organization is removed and the message names it |
| DocumentsEndpoint.LastIndex | backend/app/api/v1/endpoints/documents.py:44 | the index is the last position of the character, or −1 when it does not occur |
| DocumentsEndpoint.Extension | backend/app/api/v1/endpoints/documents.py:44 | `splitext` gives "" or a suffix of the name that starts with its only dot and contains no path separator |
| DocumentsEndpoint.ExtensionFrom | backend/app/api/v1/endpoints/documents.py:44 | from the last separator and the last dot, the extension is the name's suffix from that dot |
| DocumentsEndpoint.ExtensionOfName | backend/app/api/v1/endpoints/documents.py:44 | "stem.ext" has extension ".ext" when the stem is not only dots |
| DocumentsEndpoint.HiddenFileHasNoExtension | backend/app/api/v1/endpoints/documents.py:44 | a name with a single leading dot has no extension |
| DocumentsEndpoint.PathJoin | backend/app/api/v1/endpoints/documents.py:48 | an absolute second part replaces the first, and the result always ends with the second part |
| DocumentsEndpoint.NewDocument | backend/app/api/v1/endpoints/documents.py:60-69 | the record is "uploaded", in the caller's organization, uploaded by the caller, with no text yet |
| DocumentsEndpoint.AfterExtraction | backend/app/api/v1/endpoints/documents.py:76-88 | a successful extraction stores the text and page count and marks the record "completed"; a failure stores the error and marks it "failed"; nothing else changes |
| DocumentsEndpoint.RecordUpload | backend/app/api/v1/endpoints/documents.py:60-88 | exactly the record after extraction is stored |
| DocumentsEndpoint.UploadDocument | backend/app/api/v1/endpoints/documents.py:18-90 | in order: a disallowed type is 400, a file over the limit is 400, a save failure is 500, each changing nothing; otherwise exactly one record is stored, under the uuid name with the original extension, in the organization's directory |
| DocumentsEndpoint.UploadStatus | backend/app/api/v1/endpoints/documents.py:76-88 | an upload ends "completed" exactly when extraction succeeded, and never stays "uploaded" |
| DocumentsEndpoint.ListDocuments | backend/app/api/v1/endpoints/documents.py:93-105 | the page holds only the organization's documents, at most `limit`, taken from the tenant-filtered rows |
| DocumentsEndpoint.GetDocument | backend/app/api/v1/endpoints/documents.py:108-126 | the document is returned exactly when it exists in the caller's organization; otherwise 404 |
| DocumentsEndpoint.DeleteDocument | backend/app/api/v1/endpoints/documents.py:129-154 | a foreign or missing document is 404 and changes nothing; otherwise that record and, by the cascade, exactly its summaries are removed, and nothing else changes |
| DocumentsEndpoint.WithoutSummariesOf | backend/app/models/document.py:36 | the cascade leaves no summary of the deleted document and keeps every other summary unchanged |
| DocumentsEndpoint.DownloadDocument | backend/app/api/v1/endpoints/documents.py:157-185 | a foreign or missing record, or a file missing on disk, is 404; otherwise the stored file is served under its original name and type |
| AiService.Truncate | backend/app/services/ai_service.py:26-28 | text within 200000 characters is kept; longer text is its first 200000 characters followed by "..." |
| AiService.Prompt | backend/app/services/ai_service.py:17-23 | "brief" and "detailed" each get their own instruction, and every other type, unknown ones included, gets the standard one |
| AiService.MaxOutputTokens | backend/app/services/ai_service.py:45 | a non-zero override is the cap; otherwise the cap is 150 exactly for "brief", 500 exactly for "standard", and 1000 for anything else; never 0 |
| AiService.TokensUsed | backend/app/services/ai_service.py:59 | the estimate is the number of word-ending positions of the input plus those of the summary, so at least each word count, and zero exactly when both are blank |
| AiService.FullPrompt | backend/app/services/ai_service.py:35-39 | the prompt ends with the document text |
| AiService.JoinParts | backend/app/services/ai_service.py:51-54 | the summary is the parts' texts concatenated in order |
| AiService.GenerateSummary | backend/app/services/ai_service.py:9-64 | the outcome is the generation function's outcome |
| AiService.GenerateSummaryWithContext | backend/app/services/ai_service.py:67-75 | generating with context is generating on the title line prefixed to the text |
| AiService.TruncateIdempotent | backend/app/services/ai_service.py:26-28 | truncating twice is truncating once, and the input never exceeds 200003 characters |
| AiService.UnknownTypeMismatch | backend/app/services/ai_service.py:23-45 | an unknown summary type uses the standard prompt but the 1000-token cap, not the standard 500 |
| AiService.OverrideWins | backend/app/services/ai_service.py:45 | a non-zero token cap overrides the default; a cap of 0 falls back to it |
| AiService.ContextSurvivesTruncation | backend/app/services/ai_service.py:26-28 | a title line within the input limit survives truncation |
| AiService.TokensOfGeneration | backend/app/services/ai_service.py:51-64 | the token estimate is the word count of the truncated input plus that of the summary; generation fails exactly when the model call fails |
| StripeService.CheckoutRequestFor | backend/app/services/stripe_service.py:22-48 | the session request is for one seat of the plan's price in subscription mode, tagged with organization and plan |
| StripeService.PriceSelection | backend/app/services/stripe_service.py:29-33 | the pro price is chosen exactly for "pro"; every other plan gets the basic price |
| StripeService.CheckoutCompleted | backend/app/services/stripe_service.py:95-112 | a completed checkout records the subscription, marks it active, sets the plan and its limit, and keeps every other column |
| StripeService.SubscriptionDeleted | backend/app/services/stripe_service.py:119-127 | a deleted subscription marks the organization "canceled" and keeps every other column |
| StripeService.CancelKeepsQuota | backend/app/services/stripe_service.py:119-127 | cancelling keeps plan and limit, so whether a summary may be created is unchanged |
| StripeService.UpgradeKeepsUsage | backend/app/services/stripe_service.py:95-112 | upgrading to pro keeps the month's usage, and summaries are allowed exactly when usage is below the pro quota |
| StripeService.HandleWebhookEvent | backend/app/services/stripe_service.py:83-129 | a bad payload or signature is reported and changes nothing; a verified event has the effect `EventHandled` describes: a completed checkout updates exactly its organization (nothing when the organization is unknown), or fails unhandled when a metadata key is missing; a deleted subscription cancels the first organization holding it; every other event, the update event included, changes nothing and answers success |
| BillingEndpoint.CreateSubscriptionCheckout | backend/app/api/v1/endpoints/billing.py:15-55 | an unknown plan is 400, a missing organization is 404, each changing nothing; otherwise a customer id is recorded only when the organization has none, and the Stripe session for the plan is returned; a raising customer creation is a 500 that changes nothing, and a raising session creation is a 500 that keeps the committed customer id |
| BillingEndpoint.GetSubscriptionStatus | backend/app/api/v1/endpoints/billing.py:58-81 | a missing organization is exactly the 404; otherwise the organization's six billing columns are returned as stored |
| BillingEndpoint.CancelSubscription | backend/app/api/v1/endpoints/billing.py:84-111 | without a subscription the answer is 404 and nothing changes; a successful cancel marks the organization canceled; a failing one is 500 and changes nothing |
| BillingEndpoint.StripeWebhook | backend/app/api/v1/endpoints/billing.py:114-134 | a missing signature header is 400 before anything else; a bad payload or signature becomes a 400 with that error; a verified event answers and changes the organizations exactly as the handler does (`EventHandled`); a success is always "success" |
| SummariesEndpoint.CreateSummary | backend/app/api/v1/endpoints/summaries.py:16-83 | checked in order: a missing document is 404, no text is 400, a missing organization fails unhandled, an exhausted quota is 403, a failed model call is 500, none of them changing anything; otherwise exactly one summary is stored and the month's usage rises by one, staying within quota |
| SummariesEndpoint.GetDocumentSummaries | backend/app/api/v1/endpoints/summaries.py:86-110 | a foreign or missing document is exactly the 404; otherwise the list is the filter of the scan to that document's summaries in the caller's organization, and holds exactly those |
| SummariesEndpoint.GetSummary | backend/app/api/v1/endpoints/summaries.py:113-131 | the summary is returned exactly when it exists in the caller's organization; otherwise 404 |
| SummariesEndpoint.ListSummaries | backend/app/api/v1/endpoints/summaries.py:134-146 | the page holds only the organization's summaries, at most `limit`, from the tenant-filtered rows |
| SummariesEndpoint.DeleteSummary | backend/app/api/v1/endpoints/summaries.py:149-170 | a foreign or missing summary is 404 and changes nothing; otherwise exactly that summary is removed |
| AnalyticsEndpoint.Remaining | backend/app/api/v1/endpoints/analytics.py:39 | `max(0, limit − used)`: zero exactly when usage reached the limit, otherwise what is left |
| AnalyticsEndpoint.StatsLimit | backend/app/api/v1/endpoints/analytics.py:36-38 | the organization's limit, or 100 when the organization is missing |
| AnalyticsEndpoint.TotalSize | backend/app/api/v1/endpoints/analytics.py:48-50 | `func.sum(...) or 0`: no documents give 0, and with non-negative sizes the total is non-negative and at least every single size |
| AnalyticsEndpoint.GetDashboardStats | backend/app/api/v1/endpoints/analytics.py:13-62 | documents, this month's summaries, active members and total bytes are counted over the caller's organization only, and the remaining count follows the limit |
| AnalyticsEndpoint.RemainingMatchesQuota | backend/app/api/v1/endpoints/analytics.py:38-39 | when the month's count equals the usage counter, the dashboard shows summaries remaining exactly when one may be created |
| AnalyticsEndpoint.Newest | backend/app/api/v1/endpoints/analytics.py:73-75 | the newest `limit` of the organization's documents, newest first: as many as the limit allows, each at most as often as it occurs, all of them when fewer, and every document of the organization newer than the last one listed is listed |
| AnalyticsEndpoint.LatestOfOrg | backend/app/api/v1/endpoints/analytics.py:73-75 | `Latest`'s guarantees hold with the organization filter and the upload time spelled out |
| AnalyticsEndpoint.RecentEntry | backend/app/api/v1/endpoints/analytics.py:78-93 | an entry is "completed" exactly when the document has a summary, and names the uploader by full name or email, or "Unknown" when missing |
| AnalyticsEndpoint.UploaderName | backend/app/api/v1/endpoints/analytics.py:84 | a missing uploader is "Unknown"; an existing one is named by a non-empty full name, otherwise by the email |
| AnalyticsEndpoint.GetRecentDocuments | backend/app/api/v1/endpoints/analytics.py:65-95 | one corrected entry per newest document, at most `limit`, newest first |
| AnalyticsEndpoint.Entries | backend/app/api/v1/endpoints/analytics.py:78-93 | the loop builds one entry per document, in order |
| AnalyticsEndpoint.RecentAsWritten | backend/app/api/v1/endpoints/analytics.py:78-95 | as written, the request fails unhandled exactly when some listed document's uploader exists |
| AnalyticsEndpoint.EntriesAsWritten | backend/app/api/v1/endpoints/analytics.py:78-95 | the loop as written agrees with `RecentAsWritten` |
| AnalyticsEndpoint.AsWrittenSucceeds | backend/app/api/v1/endpoints/analytics.py:78-95 | when no uploader exists, the as-written loop returns the corrected entries |
| AnalyticsEndpoint.GetRecentDocumentsAsWritten | backend/app/api/v1/endpoints/analytics.py:65-95 | the endpoint as written is the as-written loop over the newest documents |
| AnalyticsEndpoint.KnownUploaderBreaksRecentDocuments | backend/app/api/v1/endpoints/analytics.py:83-84 | one document by an existing user makes the endpoint fail, where the corrected entry names that user |
| AnalyticsEndpoint.GetUsageOverTime | backend/app/api/v1/endpoints/analytics.py:98-129 | thirty points, one per day ending today, each counting the organization's summaries created that day |
| AnalyticsEndpoint.DailyCounts | backend/app/api/v1/endpoints/analytics.py:114-127 | the loop builds the thirty daily points from the start day |
| AnalyticsEndpoint.CountEmptyWindow | backend/app/api/v1/endpoints/analytics.py:118-122 | an empty window counts nothing |
| AnalyticsEndpoint.DaysAddUp | backend/app/api/v1/endpoints/analytics.py:114-122 | the daily counts add up to the count over the whole span |
| AnalyticsEndpoint.OneWindowPerSummary | backend/app/api/v1/endpoints/analytics.py:114-122 | a summary within the thirty days falls in exactly one daily window |
| ActivityEndpoint.View | backend/app/api/v1/endpoints/activity.py:29-41 | the response copies the entry and names the actor by full name (possibly null), or "Unknown User" when the actor is gone |
| ActivityEndpoint.ListActivityLogs | backend/app/api/v1/endpoints/activity.py:13-43 | at most `limit` entries, only the caller's organization, newest first, each the view of the latest matching row |
| ActivityEndpoint.Views | backend/app/api/v1/endpoints/activity.py:29-41 | the loop builds one view per row, in order |
| Browser.LocalStorage.GetItem | frontend/src/lib/auth-store.ts:33-34 | reading finds a value exactly when one is stored under the key |
| Browser.LocalStorage.SetItem | frontend/src/lib/auth-store.ts:33-34 | one key is set and every other is kept |
| Browser.LocalStorage.RemoveItem | frontend/src/lib/auth-store.ts:41-42 | one key is removed and every other is kept |
| Browser.WithTokens | frontend/src/lib/auth-store.ts:33-34 | the two tokens are stored under their keys and nothing else changes |
| Browser.WithoutTokens | frontend/src/lib/auth-store.ts:41-42 | both token keys are gone and nothing else changes |
| Browser.StoreTokens | frontend/src/app/auth/callback/auth-callback-client.tsx:21-22 | storage holds the tokens afterwards |
| Browser.RemoveTokens | frontend/src/components/dashboard-header.tsx:137-138 | storage holds neither token afterwards |
| Browser.WithTokensIdempotent | frontend/src/app/auth/callback/auth-callback-client.tsx:21-25 | storing the same tokens twice is storing them once |
| Browser.SignOutForgetsTokens | frontend/src/lib/auth-store.ts:30-44 | signing out after signing in leaves no token behind |
| AuthStore.SessionStore.constructor | frontend/src/lib/auth-store.ts:26-28 | the session starts with no user and no tokens |
| AuthStore.SessionStore.SetAuth | frontend/src/lib/auth-store.ts:30-36 | the session holds the user and tokens, and storage holds the tokens |
| AuthStore.SessionStore.ClearAuth | frontend/src/lib/auth-store.ts:38-44 | the session is empty again and storage holds neither token |
| AuthCallback.HandleCallback | frontend/src/app/auth/callback/auth-callback-client.tsx:13-35 | without both tokens nothing is stored and the login page opens; with both they are stored; a loaded profile authenticates the session and opens the dashboard, a failed one opens the login page |
| AcceptInvitationPage.Validate | frontend/src/app/accept-invitation/page.tsx:30-43 | the form passes exactly with a token, a password of at least 8 characters, and a matching confirmation; the first failing check chooses the message |
| AcceptInvitationPage.EightCharactersSuffice | frontend/src/app/accept-invitation/page.tsx:35 | eight characters typed twice are accepted |
| AcceptInvitationPage.InvitationForm.constructor | frontend/src/app/accept-invitation/page.tsx:15-24 | the page opens empty and shows the missing-token error when there is no token |
| AcceptInvitationPage.InvitationForm.HandleSubmit | frontend/src/app/accept-invitation/page.tsx:26-79 | a request is sent exactly when validation passes; acceptance stores the tokens and opens the dashboard; a refusal shows its detail or a fallback; a network error shows the retry message |
| TeamMembersView.Take | frontend/src/components/team-members.tsx:213 | `slice(0, n)` is the prefix of length min(n, length) |
| TeamMembersView.FirstLetters | frontend/src/components/team-members.tsx:209-211 | at most one letter per piece, and a non-empty first piece contributes its first character first |
| TeamMembersView.GetInitials | frontend/src/components/team-members.tsx:206-214 | at most two letters; "U" for an empty name; empty exactly when a non-empty name is all spaces |
| TeamMembersView.FirstLettersEmpty | frontend/src/components/team-members.tsx:209-211 | the pieces have no first letters exactly when the name is all spaces |
| TeamMembersView.TwoWordInitials | frontend/src/components/team-members.tsx:206-214 | "First Last" gives the two upper-cased first letters |
| TeamMembersView.ControlsOrYou | frontend/src/components/team-members.tsx:377-410 | a row never shows both the admin controls and "You", and an admin sees one of them on every row |
| TeamMembersView.InviteUrl | frontend/src/components/team-members.tsx:126 | the link is the origin, the accept path, then the token |
| TeamMembersView.InviteUrlInjective | frontend/src/components/team-members.tsx:126 | two tokens never share a link |
| TeamMembersView.InviteLink | frontend/src/components/team-members.tsx:125-126 | a link is offered exactly when the response carries a token, and it carries that token |
| TeamMembersView.AsServed | backend/app/schemas/user.py:24-34 | the served user has its identity, name, role text and active flag, but no invitation token or pending flag |
| TeamMembersView.WithInvitation | backend/app/schemas/user.py:24-34 | the corrected response also carries the invitation token and pending flag |
| TeamMembersView.InviteLinkNeverShown | frontend/src/components/team-members.tsx:125-126 | as served, a pending invitee with a token gets no link and no pending badge |
| TeamMembersView.InviteLinkCarriesToken | frontend/src/components/team-members.tsx:125-126 | in the corrected response the link carries the invitee's token and the badge shows |
| TeamMembersView.TeamPage.constructor | frontend/src/components/team-members.tsx:28-35 | the page opens with a closed, empty member invite form and no members |
| TeamMembersView.TeamPage.HandleInvite | frontend/src/components/team-members.tsx:91-143 | nothing is sent without a name and an email; a success reloads the members, resets and closes the form and offers the link; a failure keeps the form |
| TeamMembersView.TeamPage.HandleRemoveMember | frontend/src/components/team-members.tsx:172-204 | a request goes out exactly when confirmed; only a success with a reload changes the member list; the invite form is untouched |
| DashboardHeaderView.AtMostOneActive | frontend/src/components/dashboard-header.tsx:44 | at most one navigation entry is highlighted |
| DashboardHeaderView.IsActive | frontend/src/components/dashboard-header.tsx:44 | a navigation entry is highlighted exactly when the path equals its link |
| DashboardHeaderView.UserAvatar | frontend/src/components/dashboard-header.tsx:142-150 | the avatar is at most two letters, and "U" (from the stand-in "User") when there is no user or no full name |
| DashboardHeaderView.Header.constructor | frontend/src/components/dashboard-header.tsx:31-35 | the header opens with nothing loaded and the dialog closed |
| DashboardHeaderView.Header.FetchUserData | frontend/src/components/dashboard-header.tsx:48-95 | without a token both stand-ins show and nothing is requested; a failed response shows its stand-in; a throw shows both; a throwing profile request is the only request, a throwing workspace request the second; at most two requests |
| DashboardHeaderView.Header.HandleCreateWorkspace | frontend/src/components/dashboard-header.tsx:100-134 | a blank name sends nothing; a success closes the dialog, clears the field and shows the new workspace; a failure keeps the dialog |
| DashboardHeaderView.HandleSignOut | frontend/src/components/dashboard-header.tsx:136-140 | both tokens are removed and the login page opens |
| ActivityLogView.FormatTimestamp | frontend/src/components/activity-log.tsx:43-58 | the five buckets (just now, minutes, hours, days, date) cover elapsed time in order at 1 min, 1 h, 1 day and 7 days, and the count is the floored quotient in its range |
| ActivityLogView.Render | frontend/src/components/activity-log.tsx:51-57 | "Just now", the date itself, or the count first and " ago" last |
| ActivityLogView.ActionText | frontend/src/components/activity-log.tsx:60-80 | the fallback verb "updated" is shown exactly when the lower-cased type is none of the seven known types |
| ActivityLogView.ActionVerb | frontend/src/components/activity-log.tsx:60-80 | a non-empty verb, "updated" exactly for a type without a verb of its own |
| ActivityLogView.ActivityIcon | frontend/src/components/activity-log.tsx:82-184 | the default icon is shown exactly when the lower-cased type is none of the seven known spellings |
| ActivityLogView.IconFor | frontend/src/components/activity-log.tsx:82-184 | each tone is given for exactly its spellings: blue upload, green invite, purple role-change or role_change, amber settings or settings_update, red delete, and otherwise none |
| ActivityLogView.PluralIffMany | frontend/src/components/activity-log.tsx:53-56 | the unit takes an "s" exactly when the count exceeds one |
| ActivityLogView.OlderIsNeverYounger | frontend/src/components/activity-log.tsx:43-58 | an older entry never gets a more recent label |
| ActivityLogView.ActionTextIgnoresCase | frontend/src/components/activity-log.tsx:60-80 | the verb ignores the case of the action type |
| ActivityLogView.BackendTypesHaveVerbs | frontend/src/components/activity-log.tsx:60-80 | every backend action type has its own verb, never the "updated" fallback |
| ActivityLogView.IconlessBackendTypes | frontend/src/components/activity-log.tsx:82-184 | among backend types, exactly summary and workspace creation fall to the default icon |
| ActivityLogView.AvatarLettersAsWritten | frontend/src/components/activity-log.tsx:241-245 | as written, the avatar fails exactly when the user name is null |
| ActivityLogView.AvatarLetters | frontend/src/components/activity-log.tsx:241-245 | the corrected avatar agrees with the original whenever a name is present and is empty for a missing one |
| ActivityLogView.NamelessActorBreaksFeed | backend/app/api/v1/endpoints/activity.py:39 | an actor without a full name is served with a null name, which breaks the avatar as written |
| DocumentUploaderView.BackendTypesPassDrop | frontend/src/components/document-uploader.tsx:32-34 | both of the backend's allowed types pass the drop filter |
| DocumentUploaderView.DropAccepted | frontend/src/components/document-uploader.tsx:32-34 | a dropped file is kept exactly when its type is PDF or contains "document" |
| DocumentUploaderView.KeepOthersRemoves | frontend/src/components/document-uploader.tsx:46-48 | filtering out one index removes exactly that file, or nothing when the index is out of range |
| DocumentUploaderView.KeepOthers | frontend/src/components/document-uploader.tsx:47 | one element fewer when the index is in range, none fewer otherwise, and only elements of the list |
| DocumentUploaderView.IsStored | frontend/src/components/document-uploader.tsx:96 | a reply counts as stored exactly when it is a success |
| DocumentUploaderView.Run | frontend/src/components/document-uploader.tsx:67-98 | the loop sends every file exactly when no reply is a 401 or a throw; each reply is one request, so requests grow by at least one and by at most the number of files; stored files never fall |
| DocumentUploaderView.RunCounts | frontend/src/components/document-uploader.tsx:67-98 | stored files never exceed requests, requests never exceed files, and after all files are sent the stored ones are exactly the successful replies |
| DocumentUploaderView.Uploader.constructor | frontend/src/components/document-uploader.tsx:14-15 | no files, not uploading |
| DocumentUploaderView.Uploader.HandleDrop | frontend/src/components/document-uploader.tsx:28-37 | the dropped files passing the type filter are appended in order |
| DocumentUploaderView.Uploader.HandleFileSelect | frontend/src/components/document-uploader.tsx:39-44 | every selected file is appended, none when nothing is selected |
| DocumentUploaderView.Uploader.RemoveFile | frontend/src/components/document-uploader.tsx:46-48 | the file at the index is removed, or nothing changes for an index out of range |
| DocumentUploaderView.Uploader.HandleUpload | frontend/src/components/document-uploader.tsx:50-112 | nothing happens without files; without a token the login page opens before any request; after the loop, an upload that stored a file opens the document list and one that stored none resets; a 401 removes the access token and opens the login page |
| WorkspaceSettingsView.Nullish | frontend/src/components/workspace-settings.tsx:55-60 | `??` keeps a present value and takes the default for a missing one |
| WorkspaceSettingsView.Served | backend/app/schemas/organization.py:27-43 | the served organization carries every settings column, with the domain null when it is missing |
| WorkspaceSettingsView.Loaded | frontend/src/components/workspace-settings.tsx:53-60 | `||` for name and domain, `??` with defaults true, false, false, false, 90 and true for the six settings |
| WorkspaceSettingsView.SettingsForm.constructor | frontend/src/components/workspace-settings.tsx:26-35 | the form starts loading, with the component's default values |
| WorkspaceSettingsView.SettingsForm.ApplyFetched | frontend/src/components/workspace-settings.tsx:39-67 | loading ends; an ok response fills the form from the organization, with fallbacks for missing fields; otherwise the form is kept |
| WorkspaceSettingsView.SettingsForm.ToggleRetention | frontend/src/components/workspace-settings.tsx:288-289 | the switch shows retention on exactly as it was set, with 90 or 0 days; nothing else changes |
| WorkspaceSettingsView.SettingsForm.HandleSaveChanges | frontend/src/components/workspace-settings.tsx:72-116 | the request carries the form's eight values; the form is kept; an ok answer replaces the shown organization |
| WorkspaceSettingsView.SettingsForm.HandleDeleteWorkspace | frontend/src/components/workspace-settings.tsx:118-160 | a request goes out exactly when confirmed and the typed name matches; a success removes both tokens and opens the signup page; otherwise storage is kept |
| WorkspaceSettingsView.Payload | frontend/src/components/workspace-settings.tsx:81-90 | the save payload supplies all eight settings and leaves the active flag out |
| WorkspaceSettingsView.LoadedShowsOrganization | frontend/src/components/workspace-settings.tsx:50-60 | a served organization fills the form with its own values |
| WorkspaceSettingsView.UneditedSettingsUnchanged | frontend/src/components/workspace-settings.tsx:81-90 | saving unedited settings reports no settings changes |
| WorkspaceSettingsView.SaveWithoutEdits | frontend/src/components/workspace-settings.tsx:81-90 | saving without edits leaves the organization unchanged when it has a domain; without one, the save records an empty domain and logs that single change |

## Left out

- Stripe SDK and Gemini client internals: network calls are replaced by their outcomes, passed as parameters.
- `create_stripe_customer` (backend/app/services/stripe_service.py:10-19): the customer id it returns, or `None` when it raises, is a parameter of the checkout; so is the session `create_checkout_session` returns.
- `update_subscription` (backend/app/services/stripe_service.py:66-80): no endpoint in the model calls it.
- StripeService.CancelResult: the call to Stripe's delete is reduced to whether it raised.
- JWT creation and decoding, bcrypt hashing, and the OAuth login redirects: tokens are named by their subject, hashing is a function parameter, and the redirect URLs are not modelled.
- The `get_current_user` / `get_current_admin_user` dependencies (app.core.deps is not part of this model): the caller is a User value, and admin endpoints require an admin caller.
- The `GET /users/me` and `GET /organizations/` endpoints are not modelled as endpoints: only the response shape (`TeamMembersView.AsServed`, `WorkspaceSettingsView.Served`) is used.
- `skip` and `limit` are natural numbers: negative query values, which the database would reject or treat specially, are not modelled.
- Whitespace and case mapping are ASCII only: whitespace is the six common ASCII whitespace characters; Python's other whitespace for `strip`/`split`, including \x1c–\x1f, and JavaScript's full Unicode case mapping are not modelled.
- AcceptInvitationPage.Validate, AcceptInvitationPage.InvitationForm.HandleSubmit, TeamMembersView.FirstLetters, TeamMembersView.Take and TeamMembersView.GetInitials: frontend string lengths and indices count characters (Unicode scalar values), not JavaScript's UTF-16 code units, so a password of characters outside the Basic Multilingual Plane measures shorter here than in the browser, and the lone surrogate that `n[0]` gives for such a first letter is not modelled.
- Date formatting (`strftime("%b %d")`, `isoformat`, `toLocaleDateString`) is left out: time is an integer count of milliseconds, and formatted labels are not produced.
- Floating point is left out: storage in gigabytes and the upload progress percentage are not computed.
- Files on disk are left out: `save_uploaded_file` is reduced to its failure message, the extraction service to its outcome, and file deletion on disk is not modelled.
- Transactions are left out: intermediate commits and the rollback after a failed commit are not modelled separately; each endpoint moves from one state to the next.
- AuthEndpoint.Signup, AuthEndpoint.CheckInvitation and UsersEndpoint.CreateUser: pydantic's `EmailStr` validation and normalisation are not modelled. A malformed address, which the framework refuses with a 422 before the handler runs, is accepted, and emails are compared exactly as given, without lower-casing the domain.
- ORM cascades on deleting an organization or a user (child rows removed by the database) are not modelled: only the deleted row is removed. The cascade from a document to its summaries is modelled.
- The text of the database error for an OAuth sign-in without an email (`users.email` is NOT NULL) is not modelled: the model states only that the answer is a 400.
- Enum values in f-strings are rendered as their values ("admin"): Python 3.11 and later render them as `UserRole.ADMIN`, which is not modelled.
- The zustand persistence key and the `typeof window` check for server-side rendering are left out.
- `handleRoleChange`, `fetchMembers`, `fetchCurrentUser` and `formatDate` in team-members.tsx are not modelled: they only forward a fetch, or format dates.
- `setTimeout`, `alert`, `confirm`/`prompt` and toasts are left out: confirmations enter as parameters and message texts are not modelled.
- The login, signup and other frontend pages beyond those named above are not part of this model.

## Findings

| source | as written | input that shows it | evidently intended | confidence | as-written member | corrected member |
|---|---|---|---|---|---|---|
| backend/app/api/v1/endpoints/analytics.py:84 | the uploader's name is read from `first_name` and `last_name`, which User does not have, so the request fails with a 500 | one recent document whose uploader still exists | name the uploader by full name, falling back to the email | high (not executed) | AnalyticsEndpoint.KnownUploaderBreaksRecentDocuments | AnalyticsEndpoint.RecentEntry |
| frontend/src/components/team-members.tsx:125-126 | the invite response uses `UserResponse` (backend/app/schemas/user.py:24-34), which has no `invitation_token` or `is_pending_invitation`, so the link and the pending badge never show | inviting any new member | the response carries the invitation token and pending flag | high (not executed) | TeamMembersView.InviteLinkNeverShown | TeamMembersView.InviteLinkCarriesToken |
| frontend/src/components/activity-log.tsx:241-245 | `user_name.split` is called on the null name that backend/app/api/v1/endpoints/activity.py:39 serves for an actor without a full name, a TypeError that breaks the feed | one entry by a user whose full name is null | show no letters for a missing name | high (not executed) | ActivityLogView.NamelessActorBreaksFeed | ActivityLogView.AvatarLetters |
