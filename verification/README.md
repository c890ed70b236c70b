# TealDrive protected store: a verified model

TealDrive keeps accounts, storage quotas, session grants, an operation journal, login limits and an audit
log on behalf of an unprivileged web service. This project models that protected core in Dafny and proves
what every run of it keeps. `dafny verify dfyconfig.toml` checks the whole project.

How the system becomes a model:

- **Account database.** `Tables.Db` holds one map for each table or key family (accounts, pool, budgets,
  pending requests, fixed own quotas, retired UIDs, grants, enrollment proofs, policies). `Ops` gives each
  transaction as a function, `Runs` makes every public transaction an event, and `AccountStores.AccountStore`
  is the object whose methods rewrite its tables step by step and are proved equal to those events. What an
  accepted event leaves is then stated apart from its body: `Columns` projects the store onto one account,
  `Rooms` says how many bytes every event moves and what the quota readers answer, `Sessions` gives the exact
  lifetime of a grant or proof, and `Standing` says what status, password, forced change, panel scope and policy
  mean for later calls, and who may make them.
- **Kernel limits.** `Virtuals.Host` is the provisioning code: it owns the database and a map of kernel
  ("native") limits, and every single commit or kernel write extends a ghost `trace`. Its validity predicate
  says that *every* entry of the trace, hence every crash point, is safe: each recorded limit is within the
  metadata limit, and once every live virtual account has a limit, every one has a limit ever after. `QuotaCalls`
  gives a quota, budget or own-quota change as the list of states it passes through, with every write and the
  commit free to fail, and for any view of the child that the caller may have had. `Interleaving` lets every
  transaction that does not take the provisioning lock run between any two effects of a call that holds it, and
  `PlannedCalls` shows that the calls it speaks of are those of the host.
- **UID ranges.** `Subids` and `SubidText`: gap computation, the allocator's candidate order, and the text
  of `/etc/subuid`.
- **Operation journal.** `JournalRecords` (one record), `JournalOps` (events over records, trash tokens and
  staging tokens), `JournalInvariant`/`JournalPreservation`, then theorems in `JournalTheorems`,
  `JournalRetention`, `JournalLimits`, `JournalOutcomes` (what replies, claims and sweeps write down),
  `JournalTokens`; `JournalStore.OperationJournal` is the object. Every
  event carries the account database it runs against, so the journal theorems hold whatever happens to the
  accounts in between.
- **Smaller cores.** `LoginLimits`, `AuditSink`, `RangeHeader` (with the grammar of section 14.1.2 of RFC 9110
  written out beside the parser), `RangeStream`, `Listing`, and the configuration overlay in `ConfigPatch`,
  `RuntimeSettings` and `LiveConfig`.

Assumptions, all explicit in the model (`Admissible`, preconditions, or parameters):

- a UUID that is drawn has never been drawn before, and the clock does not run backwards;
- a Linux account never has a UID of the virtual range;
- a transaction commits as a whole or not at all; the resume path of a range read, which the source runs
  without an immediate transaction, is one atomic step;
- the provisioning lock is held during a provisioning call; a row that was read before the lock was taken may
  be out of date in every column that a transaction can change;
- where the kernel enforces quotas, the database a host starts from has no child and no open request below
  4096 bytes, which is the least quota that every call accepts there (`Native.Floored`); every call keeps this;
- a host starts in step with its database, or, where enforcement was just switched on, with accounts that have no
  kernel limit until `SyncLimits` gives them one;
- a helper read returns no more than it was asked for; SHA-256 is injective; a login reservation is handed
  back at most once (the source moves it).

Properties that turned out to fail, with the exact condition under which they hold:

- The kernel cannot express a limit below 1 KiB, so an administrator with an exhausted budget still gets
  1 KiB: `FloorExceedsBudget` is the instance, `BudgetIffRemainderAboveFloor` the condition.
- A caller's stale view of a child can lift the child or its owner above its limit, both when the change is
  refused or fails and is undone and when it commits: `StaleCallExceeds` reaches it by two calls for one child,
  `QuotaCallIff` is the condition over the whole call, `StaleCallInNumbers` says it in numbers, and
  `CurrentViewSafe` shows that a current view never does it.
- Account creation accepts control characters in user names but no page cursor may contain one, so following
  cursors can stop with an error: `LineBreakStopsTheWalk` is the instance, in a state that two creations
  reach, and `PagesMakeTheList` the condition.
- Without an audit path in the root file, the path of the open log is filled in after the ceiling check:
  `UnnamedLogConforms` says exactly when published settings still conform, `UnnamedLogInstance` is the instance.
- The range parser departs from the grammar of RFC 9110: it accepts a plus sign and blanks, ignores other
  spellings of the unit and numbers above u64, and calls some malformed headers unsatisfiable.
  `RangeFollowsReference` is the condition on every header; `SignedStart`, `BlankStart`, `UpperUnit`, `HugeEnd`
  and `MalformedPastEnd` are the instances.
- A directory scan of the audit log that stops with an error can leave a hole between archives:
  `ScanCanLeaveHole` is the instance, in a directory that the writer reaches by four events, `StoppedScanIff` the
  condition on the directory before the scan; `Prune` mends it once a scan completes.

## Model

| member | source | states |
|---|---|---|
| `Runs.StepKeeps` | src/accounts/store.rs:399-1023 | every transaction keeps the whole invariant (rows, ownership, two-level ledger, proof caps) and only moves rows, grants, proofs and UIDs forward |
| `Runs.RunKeeps` | src/accounts/store.rs:399-1023 | the same over every run of transactions in any order |
| `Theorems.Conservation` | src/accounts/store.rs:541-600 | in every reachable state budgets plus pending root requests fit the pool, and for every account children, pending requests and fixed own quota fit its budget |
| `Invariant.QuotaArithmeticFits` | src/accounts/store.rs:107-130 | in every valid state the sums and differences of the quota checks stay within i64 |
| `Theorems.BudgetReadersAgree` | src/accounts/virtuals.rs:436-463 | for an administrator neither reader of the budget can fail, the parts add up to the limit, and the effective quota is the fixed own quota or the remainder |
| `Theorems.FinalizeKeepsParent` | src/accounts/store.rs:541-632 | finalising a pending request moves its bytes from pending to children and leaves the parent's effective quota unchanged |
| `Store.ReadEffectiveQuota` | src/accounts/store.rs:634-667 | the query code, with unchecked i64 arithmetic, computes the specified effective quota for every id, including missing ones |
| `Store.ReadBudget` | src/accounts/virtuals.rs:436-463 | the query code computes the specified budget view or the specified error |
| `Store.PrepareAdminBudget` | src/accounts/store.rs:699-754 | the check-and-prepare code of a budget change equals its specification in every branch; `Rooms.BudgetStored` and `Rooms.BudgetAccepted` say what that specification stores and when |
| `Store.PrepareAdminOwn` | src/accounts/store.rs:757-797 | the same for the fixed own quota |
| `Store.PrepareChildQuota` | src/accounts/virtuals.rs:464-512 | the same for a child's quota, including authority, generation and room |
| `Store.PrepareChildRequest` | src/accounts/virtuals.rs:564-646 | the same for reserving a child's bytes and UID in a pending request |
| `Store.PrepareAdminRequest` | src/accounts/virtuals.rs:829-850 | the same for a pending administrator out of the root pool |
| `Store.PrepareRecord` | src/accounts/store.rs:504-632 | account creation equals its specification: identity checks, authority, room, uniqueness, closing of the request |
| `AccountStores.AccountStore.constructor` | src/accounts/store.rs:353-367 | a new store is empty and valid |
| `AccountStores.AccountStore.SetPool` | src/accounts/store.rs:668-690 | the tables change exactly as the pool event says, or not at all |
| `AccountStores.AccountStore.SetAdminBudget` | src/accounts/store.rs:691-754 | exactly the budget event, or nothing; on success the reader answers the bytes asked for |
| `AccountStores.AccountStore.Create` | src/accounts/store.rs:491-632 | exactly the creation event, or nothing |
| `AccountStores.AccountStore.SetPanelScope` | src/accounts/store.rs:399-427 | exactly the scope event with its generation bump and voided enrollment, or nothing |
| `AccountStores.AccountStore.SetRole` | src/accounts/store.rs:428-460 | exactly the role event, or nothing |
| `AccountStores.AccountStore.InvalidateRestoredSessions` | src/accounts/store.rs:799-815 | a restore deletes all grants and proofs and bumps every generation, for root only |
| `AccountStores.AccountStore.CopyAdminCredentials` | src/accounts/store.rs:817-858 | exactly the credential copy, guarded by both generations |
| `AccountStores.AccountStore.RequirePasswordChange` | src/accounts/store.rs:860-883 | exactly the forced change event |
| `AccountStores.AccountStore.SetPassword` | src/accounts/store.rs:884-921 | exactly the password event, including who may set whose |
| `AccountStores.AccountStore.TransitionChecked` | src/accounts/store.rs:957-1005 | exactly the status transition, with Deleted absorbing and the enrollment fence; on success the row has the status asked for, and login exactly with Active |
| `AccountStores.AccountStore.SetPolicy` | src/accounts/policies.rs:73-121 | one layer is replaced under a generation compare-and-swap, or nothing changes |
| `AccountStores.AccountStore.SetUndoPreferences` | src/accounts/undo.rs:249-283 | the preference changes under a revision compare-and-swap and no authority moves |
| `AccountStores.AccountStore.IssueGrant` | src/accounts/grants.rs:128-172 | a grant is added within both caps after expired ones are dropped, or nothing changes |
| `AccountStores.AccountStore.RevokeGrant` | src/accounts/grants.rs:201-213 | exactly the revocation event; on success the grant verifies for no caller at no time |
| `AccountStores.AccountStore.BeginEnrollment` | src/accounts/grants.rs:214-268 | exactly the issuing event with its replacement and cap rules |
| `AccountStores.AccountStore.CompleteEnrollment` | src/accounts/grants.rs:281-334 | the proof is consumed and the account enrolled, or nothing changes |
| `Theorems.NoResurrection` | src/accounts/grants.rs:173-200 | a grant that fails verification now fails at every later time after any run |
| `Theorems.RevocationBumps` | src/accounts/store.rs:957-1023 | every status, role, scope, policy, password or quota change of an account raises its generation |
| `Theorems.RevocationIsFinal` | src/accounts/grants.rs:173-213 | after such a change no earlier grant of that account verifies again, whatever runs next |
| `Theorems.GrantsBounded` | src/accounts/grants.rs:128-172 | at most 8192 grants in all and 64 per account, and at most 1024 proofs, in every reachable state |
| `Theorems.EnrollmentFence` | src/accounts/grants.rs:281-334 | completing a proof fails if, since it was issued, a transition, role, scope or policy change of that user, a restore or an earlier completion happened |
| `Theorems.SpentForever` | src/accounts/grants.rs:281-334 | a consumed or deleted proof never becomes live again |
| `Theorems.EnrollmentNeverReactivates` | src/accounts/grants.rs:281-334 | completion leaves a suspended, deleted or administratively denied account exactly as it was |
| `Theorems.DeletedForever` | src/accounts/store.rs:957-1005 | Deleted is absorbing and identity columns never change over any run |
| `Theorems.UidNeverReused` | src/accounts/virtuals.rs:1119-1146 | a UID that was handed out once is refused ever after, through finalise, cancel and purge |
| `Theorems.OneHolderPerUid` | src/accounts/virtuals.rs:1271-1277 | in every reachable state one UID belongs to one account, or to a request and the account it became |
| `Tenancy.OwnershipForest` | src/accounts/store.rs:525-573 | in every reachable state exactly the virtual users have an owner, and owners have none: depth at most two |
| `Tenancy.TenantIsolation` | src/accounts/store.rs:227-259 | a step by an account leaves every row and policy outside it and its children unchanged |
| `Tenancy.TenantsAreIsolated` | src/accounts/store.rs:227-259 | the same for any run of steps by any set of tenants |
| `Tenancy.RootLayersNeedRoot` | src/accounts/policies.rs:73-121 | root policy layers change only in root steps |
| `Columns.EventShows` | src/accounts/store.rs:399-1023 | whatever event is accepted, every account, with its flags, scope, rules, budget and own quota, becomes exactly what the event asked for that account, and every account it did not concern stays literally as it was |
| `Columns.RunShows` | src/accounts/store.rs:399-1023 | after every run an account is what the accepted requests for it, applied in order to it alone, make of it |
| `Columns.Born` | src/accounts/store.rs:491-632 | an account comes into being only by creation or enrollment, active, with the identity, owner, quota, hash, forced change and starting budget that were asked for |
| `Rooms.RoomMoves` | src/accounts/store.rs:541-797 | every accepted event moves the remaining bytes of every owner, and of the root pool, by exactly what it takes or gives back, with no other flow |
| `Rooms.RoomIsRemaining` | src/accounts/virtuals.rs:436-463 | a budget view shows the stored limit and own quota, and as remaining exactly that room |
| `Rooms.BudgetStored` | src/accounts/store.rs:691-754 | after an accepted budget change the reader answers the bytes asked for, for Linux and virtual administrators and both own-quota modes; every other account's readers answer as before |
| `Rooms.BudgetAccepted` | src/accounts/store.rs:699-752 | a budget is accepted exactly for an active administrator, from what is promised out of it up to what the pool has left |
| `Rooms.PoolStored` | src/accounts/store.rs:668-690 | the pool is the bytes asked for, what root has left of it follows, and no budget or limit moves |
| `Rooms.PoolAccepted` | src/accounts/store.rs:668-690 | a pool size is accepted exactly from what is delegated or pending up to i64 |
| `Rooms.OwnStored` | src/accounts/store.rs:757-797 | a fixed own quota is the effective quota afterwards; the budget's limit and everybody else's readers stay |
| `Rooms.OwnAccepted` | src/accounts/store.rs:757-797 | it is accepted exactly from 1 up to remaining plus present own quota |
| `Rooms.ChildQuotaStored` | src/accounts/virtuals.rs:464-512 | a child's quota is the effective quota afterwards, its owner's remaining bytes move by the difference, all other readers answer as before |
| `Rooms.ChildQuotaAccepted` | src/accounts/virtuals.rs:464-512 | it is accepted exactly for a current, undeleted child by root or its owner, up to its quota plus what the owner has left |
| `Rooms.ChildRequestAccepted` | src/accounts/virtuals.rs:564-646 | a live administrator's request is accepted exactly while it fits the remaining bytes that the budget reader shows, under a new key and UID |
| `Rooms.AdminRequestAccepted` | src/accounts/virtuals.rs:829-850 | the same for an administrator out of what root has left |
| `Rooms.RequestStored` | src/accounts/virtuals.rs:600-650 | an opened request is pending under its key with the owner, name, bytes and UID asked for, and no other request changes |
| `Rooms.CreateAccepted` | src/accounts/store.rs:504-632 | a direct creation is accepted exactly for a free, well-formed identity by whoever may create it, a virtual user only within what its owner has left |
| `Rooms.FinalizeAccepted` | src/accounts/store.rs:541-632 | an open request can always be finalised, whatever happened since: no condition on room is left, only on identity, authority and the request itself |
| `Sessions.SessionLasts` | src/accounts/grants.rs:173-213 | over every run a good grant is good later if and only if it has not expired and no event raised its account's generation, revoked it, or cleaned it up as expired |
| `Sessions.RevocationEnds` | src/accounts/grants.rs:201-213 | a revoked grant is refused in every continuation, for every caller and time, and every other grant that was good still is |
| `Sessions.GenerationMoves` | src/accounts/store.rs:399-1023 | an account's generation grows by one at exactly the listed events, and at every other event its row stays but for the undo window |
| `Sessions.IssuedIsGood` | src/accounts/grants.rs:128-200 | an issued grant verifies for exactly one caller, account, generation, nonce and lifetime, and for normal use exactly without a forced password change |
| `Sessions.IssueAccepted` | src/accounts/grants.rs:128-172 | a grant is issued exactly to a live account with a valid caller and lifetime, while fewer than 64 of its own and 8192 in all still count |
| `Sessions.ProofLasts` | src/accounts/grants.rs:214-334 | over every run a live proof is live later if and only if it has not expired and none of the listed events voided it |
| `Sessions.BegunIsLive` | src/accounts/grants.rs:214-268 | a new proof is live for its own caller and lifetime only and carries the identity asked for |
| `Sessions.CompletionAccepted` | src/accounts/grants.rs:281-334 | completion is accepted exactly for a live proof of the same identity whose account may enroll, or which can be created |
| `Standing.StatusAsked` | src/accounts/store.rs:957-1005 | a transition leaves the status asked for, login exactly with Active, the deletion time exactly with Deleted and denial except for one's own revocation; other accounts stay as they were |
| `Standing.ShutUntilReopened` | src/accounts/store.rs:957-1023 | from a transition to Suspended, Revoked or Deleted until an accepted transition to Active or a completed enrollment of the user, in every run: no session of any generation is issued or verifies, no authority is live, no password verifies |
| `Standing.DeniedThrough` | src/accounts/grants.rs:281-334 | a suspended, deleted or administratively revoked account stays shut in every run until a transition to Active; no enrollment opens it |
| `Standing.StatusSaysAll` | src/accounts/store.rs:957-1005 | in every reachable state login, deletion time and enrollment denial agree with the status |
| `Standing.PasswordStored` | src/accounts/store.rs:884-940 | from an accepted password change until another event writes one, exactly the passwords that its hash accepts verify while the account may log in |
| `Standing.PasswordAccepted` | src/accounts/store.rs:884-921 | it is accepted exactly from root, the owner or the account itself, and during a forced change only for a new password |
| `Standing.CredentialsCopied` | src/accounts/store.rs:817-858 | a migrated administrator verifies exactly the source's passwords and has a forced change exactly if the source had |
| `Standing.RestrictedUntilChanged` | src/accounts/grants.rs:173-200 | after a forced change every session, old or new, is refused for normal use until the password is changed, and a new one is still good for changing it |
| `Standing.ScopeStored` | src/accounts/store.rs:399-460 | panel scope and role read back as they were set, and a role change resets the scope |
| `Standing.RootAccepted` | src/accounts/store.rs:399-883 | scope, role, forced change and credential copy are accepted exactly from root and for the accounts they are meant for |
| `Standing.PolicyStored` | src/accounts/policies.rs:62-121 | the layer that was written reads back as written, the other two and all other accounts as before |
| `Standing.PolicyAccepted` | src/accounts/policies.rs:73-121 | which layer who may write, under the current generation and 512 rules for each layer |
| `Standing.TransitionAccepted` | src/accounts/store.rs:957-1005 | which transition who may make: root, the owner (deletion only if allowed), a Linux user its own revocation; never out of Deleted |
| `Standing.StaleForGood` | src/accounts/store.rs:227-243 | no lost updates: what names a generation or acts with one fails in every continuation once an accepted event has moved it on |
| `Standing.PreferencesStored` | src/accounts/undo.rs:249-283 | the undo window is the one asked for, sessions go on, and a second call with the same revision fails in every continuation |
| `Standing.PurgeStored` | src/accounts/virtuals.rs:1345-1364 | a purged account has no bytes, password or session, other accounts keep theirs, and it is not purged again |
| `Native.KernelLimit` | src/helper/native_quota.rs:67-92 | the limit that reaches the kernel is the number of bytes where it is at least 1 KiB and within the template ceiling, never above either, and never below 1 KiB |
| `Native.CommitSafe` | src/accounts/virtuals.rs:351-365 | what must hold of limits before a commit so that every kernel limit is within its metadata limit after it |
| `NativeCommits.BudgetNative` | src/accounts/virtuals.rs:965-1003 | a budget commit is safe once the administrator's kernel limit has been lowered to the new remainder |
| `NativeCommits.OwnNative` | src/accounts/virtuals.rs:1007-1045 | the same for the fixed own quota |
| `NativeCommits.ChildQuotaNative` | src/accounts/virtuals.rs:871-962 | the same for a child's quota, for child and owner together |
| `NativeRequests.ReserveNative` | src/accounts/virtuals.rs:564-657 | opening a request is safe once the owner has been lowered |
| `NativeRequests.FinalizeNative` | src/accounts/virtuals.rs:613-657 | turning a request into an account changes no limit, and the account has the request's |
| `NativeRequests.FinalizeCovers` | src/accounts/virtuals.rs:655-677 | afterwards every live virtual account is limited if and only if every one was before and the request's UID already had a kernel limit |
| `NativeRequests.CancelNative` | src/accounts/virtuals.rs:1119-1146 | cancelling a request is safe without any kernel write |
| `NativeRequests.FinishPurgeNative` | src/accounts/virtuals.rs:1345-1364 | giving a purged child's bytes back is safe without any kernel write |
| `HostSteps.ValidateInput` | src/accounts/virtuals.rs:280-308 | exactly which names and quotas provisioning accepts, and which error it gives otherwise |
| `Virtuals.Host.NativeSet` | src/accounts/virtuals.rs:351-365 | one kernel write that succeeds or changes nothing; the trace stays safe |
| `Virtuals.Host.WithinBudget` | src/accounts/virtuals.rs:351-365 | from any point on at which every live virtual account is limited, at every point of every call the kernel bounds an administrator, its children and its requests together by the budget, if its own limit is at least 1 KiB |
| `Virtuals.Host.LimitedEverAfter` | src/helper/native_quota.rs:67-92 | from such a point on every live virtual account has a kernel limit, never above its metadata limit |
| `Virtuals.Host.constructor` | src/accounts/virtuals.rs:1050-1073 | a host in step with its database is valid and every live virtual account in it is limited |
| `Virtuals.Host.OwnReservation` | src/accounts/virtuals.rs:366-388 | whether a reservation must be held for an administrator's own files |
| `Virtuals.Host.SetBudget` | src/accounts/virtuals.rs:965-1003 | the host passes through exactly the states of `LimitCall`, whichever write or commit fails, and every one is safe; the database changes only by the budget event; on success the budget reader answers the bytes asked for and kernel and metadata are equal |
| `Virtuals.Host.SetOwnQuota` | src/accounts/virtuals.rs:1007-1045 | the same for the own quota, which the effective quota then is |
| `Virtuals.Host.SetQuota` | src/accounts/virtuals.rs:871-962 | with any view of the child, the host passes through exactly the states of `QuotaCall`; they are all safe if and only if `QuotaCallSafe` holds, always so with a current view; the database changes only by the quota event; success leaves the quota asked for, and child and owner in step |
| `Virtuals.Host.SyncLimits` | src/accounts/virtuals.rs:1050-1073 | a completed sync makes every live virtual limit equal to the capped effective limit, and leaves no account without one |
| `Virtuals.Host.CancelRequest` | src/accounts/virtuals.rs:1093-1146 | safe at every point; the request is cancelled or the database unchanged; the owner ends in step |
| `Virtuals.Host.PurgeOne` | src/accounts/virtuals.rs:1271-1374 | safe at every point; success marks the child purged and leaves its owner in step; every other row and purge stays as it was |
| `Virtuals.Host.PurgeDeleted` | src/accounts/virtuals.rs:1216-1377 | safe at every point; only children whose retention had run out are purged, all of them if there are fewer than a hundred, and the answer counts exactly the newly purged accounts |
| `Virtuals.Host.Allocate` | src/accounts/virtuals.rs:220-265 | the result is free, unblocked, never assigned before and nearest to the cursor in cyclic order; failure leaves everything unchanged |
| `Virtuals.Host.Provision` | src/accounts/virtuals.rs:514-677 | safe at every point; success fulfils exactly this request, with the new child's and the owner's limits in the kernel; a finished request is answered without effect; failure creates no account; other requests are untouched |
| `Virtuals.Host.CreateAdmin` | src/accounts/virtuals.rs:762-870 | the same for a virtual administrator out of the pool, where web accounts are enabled; it has its limit in the kernel |
| `Virtuals.Host.EnsureIdentity` | src/accounts/virtuals.rs:678-761 | on success the kernel holds exactly the request's reserved limit, and nobody else's limit has moved |
| `NativeTheorems.BackgroundKeepsLimits` | src/accounts/store.rs:668-690 | every transaction outside the provisioning lock keeps all kernel limits safe |
| `NativeTheorems.GrantedWithinBudget` | src/accounts/virtuals.rs:351-365 | in a safe state the kernel bounds a Linux or virtual administrator, its children and its requests together by the budget if and only if each of these accounts has a limit, given that its own is at least 1 KiB |
| `NativeTheorems.GrantedExactly` | src/accounts/virtuals.rs:1050-1073 | on a synchronised host without a ceiling they are exactly the children, the requests, and the own limit or 1 KiB |
| `NativeTheorems.BudgetIffRemainderAboveFloor` | src/helper/native_quota.rs:67-92 | there, for an administrator whose own limit is the remainder, the bound holds if and only if the remainder is at least 1 KiB |
| `NativeTheorems.FloorExceedsBudget` | src/helper/native_quota.rs:67-92 | a valid state in which 5 KiB are granted out of a 4 KiB budget |
| `QuotaCalls.QuotaCallIff` | src/accounts/virtuals.rs:871-962 | for every state, view, outcome (refused, failed at the commit, committed) and answer of the system, every state of a quota call is safe if and only if the written condition on present, seen and new quota holds for child and owner |
| `QuotaCalls.CurrentViewSafe` | src/accounts/virtuals.rs:871-962 | a call with the child's present quota in its view is safe at every point |
| `QuotaCalls.StaleCallInNumbers` | src/accounts/virtuals.rs:871-962 | on a synchronised host without a ceiling the condition as comparisons of the three quotas, for refused, failed and committed calls |
| `QuotaCalls.FirstCall` | src/accounts/virtuals.rs:871-962 | from a valid host a change of a child from 16 KiB to 4 KiB is safe and commits |
| `QuotaCalls.StaleCallExceeds` | src/helper/account_gateway.rs:576-605 | a second call whose row was read before that leaves the kernel above the child's limit, whatever generation it names |
| `Interleaving.BackgroundDrift` | src/accounts/store.rs:399-1023 | no transaction outside the lock changes anything that a quota is computed from |
| `Interleaving.BackgroundFollows` | src/accounts/store.rs:399-1023 | such a transaction keeps recorded limits safe and every account limited |
| `Interleaving.GuardSurvives` | src/accounts/virtuals.rs:351-365 | what the lock's holder found out before an effect is still true after any such transactions |
| `Interleaving.EffectSafe` | src/accounts/virtuals.rs:351-365 | a kernel write or a quota transaction whose guard holds leads from a safe state to a safe state, and leaves every account limited if every one was |
| `Interleaving.InterleavedSafe` | src/accounts/virtuals.rs:351-365 | a sound call, in which any write may be refused and which may stop anywhere, passes through safe states only and never loses an account's limit, however other transactions interleave |
| `Interleaving.QuotaCallInterleaved` | src/accounts/virtuals.rs:871-962 | this holds of set_quota with a current view |
| `Interleaving.LimitCallInterleaved` | src/accounts/virtuals.rs:965-1045 | of set_budget and set_own_quota |
| `Interleaving.ReserveCallInterleaved` | src/accounts/virtuals.rs:564-657 | of the reservation in provision |
| `Interleaving.FinishCallInterleaved` | src/accounts/virtuals.rs:613-677 | of finishing a recorded request, a child's or an administrator's: the request is limited before the account exists |
| `Interleaving.BareCallInterleaved` | src/accounts/virtuals.rs:829-850 | of the reservation in create_admin, of cancelling and of both commits of a purge |
| `Interleaving.RefreshInterleaved` | src/accounts/virtuals.rs:1119-1146 | of the owner's refresh after a cancelled request or a purge |
| `PlannedCalls.QuotaCallPlanned` | src/accounts/virtuals.rs:871-962 | where the kernel enforces quotas, the states of set_quota with a current view are those of a run of its plan without other transactions, whatever answers the system gives |
| `PlannedCalls.BudgetCallPlanned` | src/accounts/virtuals.rs:965-1003 | the same for set_budget |
| `PlannedCalls.OwnCallPlanned` | src/accounts/virtuals.rs:1007-1045 | the same for set_own_quota |
| `Subids.Missing` | src/accounts/subids.rs:51-70 | the gaps are sorted, disjoint and cover exactly the ids of the interval in no range, without leaving u32 |
| `Subids.FreeSegments` | src/accounts/subids.rs:71-84 | the same against blocked segments |
| `Subids.CandidateOrder` | src/accounts/virtuals.rs:232-250 | the two-part candidate list names every free id exactly once, by distance from the cursor |
| `SubidText.Parse` | src/accounts/subids.rs:18-50 | the reading loop accepts exactly the texts whose lines all parse, up to 16384 entries |
| `SubidText.DecimalPrint` | src/accounts/subids.rs:105-150 | printed numbers read back |
| `SubidText.ReservedReads` | src/accounts/subids.rs:105-150 | old text, terminated, followed by the written lines reads as the old ranges plus the gaps |
| `SubidText.Reserve` | src/accounts/subids.rs:85-151 | what the file holds and what is answered in every case: malformed, nothing missing, too large to write, written; on success the ranges are the old ones followed by exactly the gaps, and cover what was covered and the interval, no more |
| `Uuids.ParseText` | src/accounts/lifecycle.rs:131-142 | the text of a UUID parses back to it |
| `JournalPreservation.StagedPathAccepted` | src/accounts/journal.rs:281-316 | the temporary path written into a record is the one that stage_target accepts, with the request's destination |
| `JournalPreservation.StepKeeps` | src/accounts/journal.rs:219-654 | every journal, undo, restore and cleanup step keeps the invariant, never reuses an id, never moves an undo or a range back |
| `JournalPreservation.RunKeeps` | src/accounts/journal.rs:219-654 | the same over every run |
| `JournalTheorems.UndoOnce` | src/accounts/undo.rs:181-231 | over any run an operation is claimed at most once, its undo settled at most once, and never settled without a claim |
| `JournalTheorems.NoClaimAcrossRestore` | src/accounts/undo.rs:81-103 | no operation written before a restore is ever claimed after it |
| `JournalTheorems.OnlyClaimsStart` | src/accounts/undo.rs:105-157 | no event but a claim of that operation starts an undo |
| `JournalRetention.RemovedWasNotUndoable` | src/accounts/journal.rs:378-416 | whatever removes a record is rotation or expiry, and no preference would have allowed its undo at that time |
| `JournalRetention.UnfinishedRowsStay` | src/accounts/journal.rs:404-416 | pending and unknown records are never given up for space |
| `JournalRetention.BeginSparesOthers` | src/accounts/journal.rs:378-416 | beginning an operation neither removes, changes nor adds a record of another account |
| `JournalRetention.BeginRemoves` | src/accounts/journal.rs:378-416 | what begin removes is expired, or is the oldest evictable record of a full journal |
| `JournalLimits.BeginCounts` | src/accounts/journal.rs:393-416 | no count rises above its limit, or above where it already was, under any configuration |
| `JournalLimits.LimitsHold` | src/accounts/journal.rs:28-39 | under one configuration records and tokens stay within per-account and total limits in every run |
| `JournalOutcomes.OutcomeRecorded` | src/accounts/journal.rs:453-573 | after an accepted answer the record says success exactly if the reply exists with success, failed exactly if it exists without, unknown exactly if there is none; no other record changes |
| `JournalOutcomes.FailureNotUndone` | src/accounts/journal.rs:482-556 | an operation whose answer was not a success is claimed for undo in no run after it, and every staging token outlives that answer |
| `JournalOutcomes.ReplyDecides` | src/accounts/journal.rs:472-527 | byte counts and observed states are the reply's where it has them, and everything else stays |
| `JournalOutcomes.FinishAccepted` | src/accounts/journal.rs:453-573 | only pending records are finished, and a refused answer changes nothing |
| `JournalOutcomes.BeginRecorded` | src/accounts/journal.rs:219-452 | a new record is pending, describes its request, carries the current epoch and its token, and can ever be undone exactly for move, rename, trash and chmod |
| `JournalOutcomes.BeginNeeds` | src/accounts/journal.rs:219-252 | which requests begin at all: a live account under its own identity, a tracked command, bounded paths |
| `JournalOutcomes.ClaimDecided` | src/accounts/undo.rs:26-231 | a claim is accepted exactly for a finished, reversible, unclaimed operation of the current epoch, within the account's window, fully observed, whose final state has the digest that the caller names; only that record changes |
| `JournalOutcomes.ClaimNeeds` | src/accounts/undo.rs:181-205 | which claims are looked at: a well-formed operation id and digest, from a live account; any other changes nothing |
| `JournalOutcomes.ClaimsOwn` | src/accounts/undo.rs:181-231 | only a live account claims, and only its own records |
| `JournalOutcomes.UndoRecorded` | src/accounts/undo.rs:105-157 | the outcome of an undo is the worker's, and the trash token goes exactly with a trash operation that is undone |
| `JournalOutcomes.UndoOutcomeLasts` | src/accounts/undo.rs:105-157 | in every run after it that outcome is never rewritten |
| `JournalOutcomes.StagingSwept` | src/accounts/staging.rs:48-118 | a staging token goes exactly when its account is purged or the worker has cleaned up for an active one, and is marked for review exactly when the worker failed |
| `JournalOutcomes.TrashSwept` | src/accounts/lifecycle.rs:156-256 | the same for trash, and only for an aged, successful trash operation that is not undone and was observed |
| `JournalOutcomes.ExpiredIsOld` | src/accounts/journal.rs:626-654 | a row counts as expired exactly when its retention has fully passed, and only such a row is deleted |
| `JournalOutcomes.SelectedIsOld` | src/accounts/staging.rs:18-50 | a cleanup selects exactly the tokens whose retention has passed and that are not left for review |
| `JournalTokens.StagingTokenUntilReleased` | src/accounts/lifecycle.rs:68-111 | from begin until a successful reply, cleanup or purge the staging token is there, whatever happens to its record, and stage_target answers exactly begin's path and destination |
| `JournalTokens.TokenAccepted` | src/accounts/lifecycle.rs:68-111 | in every reachable journal stage_target accepts every staging token with its own path |
| `JournalTokens.TrashTokenTarget` | src/accounts/lifecycle.rs:131-142 | in every reachable journal every trash token allows exactly the trash path of its own operation |
| `JournalTokens.PiecesContiguous` | src/accounts/journal.rs:501-522 | the delivered pieces of a range record form one unbroken stretch over any run |
| `JournalTokens.RangeCountsBytes` | src/accounts/journal.rs:501-522 | bytes read always equal next offset minus first offset |
| `JournalTokens.RangeResumesExactly` | src/accounts/journal.rs:245-279 | a continued range is taken up exactly at the recorded offset of a finished piece, for the same generation, root and path and within 300 seconds, and only that record changes; a smaller offset, a larger one, and a request while a piece is underway are each conflicts without effect |
| `JournalStore.FindLatest` | src/accounts/journal.rs:253-257 | the query loop finds the latest record of a request |
| `JournalStore.FindOldest` | src/accounts/journal.rs:406-410 | the query loop finds the oldest record that may be given up |
| `JournalStore.DropExpired` | src/accounts/journal.rs:378-394 | exactly the smaller of 2000 and all expired rows of the account are deleted |
| `JournalStore.OperationJournal.BeginOperation` | src/accounts/journal.rs:219-452 | the method is exactly the begin event for the expired rows it chose |
| `JournalStore.OperationJournal.FinishOperation` | src/accounts/journal.rs:453-573 | exactly the finish event: record, trash token and staging token; the outcome in the record is the reply's |
| `JournalStore.OperationJournal.GcOperations` | src/accounts/journal.rs:626-654 | a run of single expiries, at most 500, that may stop with an error; nothing but expired rows goes, and success means the smaller of 500 and all expired rows |
| `JournalStore.OperationJournal.ClaimUndo` | src/accounts/undo.rs:181-231 | exactly the claim event |
| `JournalStore.OperationJournal.FinishUndo` | src/accounts/undo.rs:105-157 | exactly the settling event |
| `JournalStore.OperationJournal.InvalidateRestored` | src/accounts/store.rs:808-808 | root replaces the undo epoch by a new one |
| `JournalStore.OperationJournal.CleanupStaging` | src/accounts/staging.rs:18-122 | a run of token sweeps over selected tokens only, at most as many as configured |
| `JournalStore.OperationJournal.CleanupTrash` | src/accounts/lifecycle.rs:156-256 | the same for trash tokens |
| `LoginLimits.CountersAreReservations` | src/accounts/limits.rs:9-84 | in every reachable table a counter equals the unrefunded reservations that carry its deadline |
| `LoginLimits.NeverAboveMaximum` | src/accounts/limits.rs:64-68 | under one maximum no window counts more than its scope allows, over any run |
| `LoginLimits.WindowsMoveForward` | src/accounts/limits.rs:52-68 | a new window's deadline is after every ticket ever issued for its key |
| `LoginLimits.RefundsReachTheirWindow` | src/accounts/limits.rs:75-84 | a refund never reaches a later window and never has to be clamped at zero |
| `LoginLimits.AttemptCharged` | src/accounts/limits.rs:9-73 | an accepted attempt takes one slot of its user, of everybody and of its address, opens missing windows until its own deadline, and touches no other counter |
| `LoginLimits.AttemptAccepted` | src/accounts/limits.rs:9-68 | it is accepted exactly while its user has had fewer than the maximum, its address fewer than 5 times and everybody fewer than 40 times that, and new windows fit 10000 rows |
| `LoginLimits.HandedBack` | src/accounts/limits.rs:75-84 | handing an attempt's slots back restores every counter |
| `LoginLimits.LoginStore.ReserveLogin` | src/accounts/limits.rs:9-73 | one slot in every scope or no change at all |
| `LoginLimits.LoginStore.ChargeScopes` | src/accounts/limits.rs:51-70 | the loop succeeds exactly when every scope has a slot and every new row fits, and then charges each scope once |
| `LoginLimits.LoginStore.FinishLogin` | src/accounts/limits.rs:75-84 | exactly the slots of this attempt go back |
| `AuditSink.MoveKeeps` | src/audit/sink.rs:120-127 | renaming into the free slot above keeps all lines in order |
| `AuditSink.PruneSuffix` | src/audit/sink.rs:74-104 | pruning by cap and age removes a tail of the oldest lines only |
| `AuditSink.StoppedScanIff` | src/audit/sink.rs:74-104 | with distinct events: wherever the scan stops, what it leaves is a suffix of the log, if and only if no non-empty archive that is to be removed lies below another non-empty archive |
| `AuditSink.ScanCanLeaveHole` | src/audit/sink.rs:74-104 | after four events and a new cap of one archive, a scan that stops after archive 2 leaves such a hole |
| `AuditSink.FourEvents` | src/audit/sink.rs:224-239 | a writer whose calls succeed reaches that directory and that cap |
| `AuditSink.PartScan` | src/audit/sink.rs:74-104 | below the first archive that retention gives up, the log stays unbroken whatever such a scan removed |
| `AuditSink.Writer.RemoveOld` | src/audit/sink.rs:74-104 | a completed directory scan removes exactly what is above the cap or too old; one that stops with an error has removed some of it and nothing else |
| `AuditSink.Writer.Prune` | src/audit/sink.rs:54-107 | skipped, complete or stopped; what retention keeps stays a suffix of the log, and a completed scan mends what a stopped one left |
| `AuditSink.Writer.Shift` | src/audit/sink.rs:119-127 | after success every archive has moved up by one; after a failed rename the log is still a suffix of everything written |
| `AuditSink.Writer.Rotate` | src/audit/sink.rs:108-141 | on success archive k+1 is the old archive k, archive 1 the old live file and nothing lies above the cap; on an error the old live file is still live or kept as archive 1 |
| `AuditSink.Writer.Emit` | src/audit/sink.rs:224-239 | on success exactly one whole event is appended, after the pruning and rotation that were due; on an error nothing or the beginning of the event is left; the files that retention keeps stay a suffix of everything written, the whole directory does as long as scans complete, and each file fits the cap or holds one event |
| `RangeHeader.RangeFollowsReference` | src/download/api.rs:44-80 | on every header and size, the answer is the one of section 14.1 of RFC 9110 (invalid ranges, whose end lies before their start, may be ignored or rejected) if and only if the header is conforming: a condition on its text and the size |
| `RangeHeader.MalformedAnswer` | src/download/api.rs:44-80 | the answer to every malformed header, and exactly which are unsatisfiable |
| `RangeHeader.SignedStart` | src/download/api.rs:64-73 | a signed number is accepted |
| `RangeHeader.BlankStart` | src/download/api.rs:44-80 | blanks around a number are accepted |
| `RangeHeader.UpperUnit` | src/download/api.rs:44-63 | an upper-case unit is ignored |
| `RangeHeader.HugeEnd` | src/download/api.rs:64-73 | an end above u64, which selects every byte, is ignored |
| `RangeHeader.MalformedPastEnd` | src/download/api.rs:64-73 | a malformed header with its start past the end is unsatisfiable |
| `RangeStream.Stream` | src/download/api.rs:165-237 | the body is the file from the start on without gap or overlap, exactly the range if no error occurs, and the loop ends |
| `RangeStream.StreamIsAccepted` | src/accounts/journal.rs:245-279 | from the first read on, if there is room and no pause is too long, the journal accepts every read of a stream and counts exactly its bytes, among any other events that do not begin the same request, finish its record or remove it |
| `RangeStream.BodyIsCounted` | src/download/api.rs:165-237 | for the pieces of a streamed body, among the same events, the bytes that the journal counts are the length of that body |
| `RangeStream.ForeignKeeps` | src/accounts/journal.rs:219-654 | such an event leaves the record as it is and the latest of its request |
| `Listing.ListingUnique` | src/accounts/listing.rs:67-67 | there is at most one strictly ordered list of a set of accounts |
| `Listing.ListPage` | src/accounts/listing.rs:36-99 | a page is the first accounts of the ordered answer beyond the cursor, says truthfully whether there is more, and shows an administrator only its own virtual accounts |
| `Listing.PageShowsOwn` | src/accounts/listing.rs:36-99 | to an account authority every row of a page is virtual and owned by that account, and for everybody every row has the kind, status, enrollment and name asked for |
| `Listing.WalkShowsExactly` | src/accounts/listing.rs:36-99 | an account is in a complete walk if and only if it has the kind, owner, status, enrollment and name asked for |
| `Listing.PageAccepted` | src/accounts/listing.rs:42-64 | which queries are answered: 1 to 200 rows, a valid cursor and filter, from root or a live administrator about virtual accounts |
| `Listing.CursorAdvances` | src/accounts/listing.rs:85-93 | the next cursor leaves exactly the rest of the answer |
| `Listing.PagesMakeTheList` | src/accounts/listing.rs:36-99 | following cursors yields the whole ordered answer if and only if every page ends in a name that is a valid cursor |
| `Listing.PlainNamesSuffice` | src/accounts/listing.rs:42-47 | names without control characters always work, for every page size |
| `Listing.LineBreakIsCreatable` | src/accounts/store.rs:511-522 | a user name that creation accepts and the cursor check refuses |
| `Listing.TwoAreReachable` | src/accounts/store.rs:491-632 | two creations from the empty store, one of them with such a name, succeed |
| `Listing.LineBreakStopsTheWalk` | src/accounts/listing.rs:42-47 | in the state that two creations reach, the walk fails |
| `Listing.AllAccounts` | src/accounts/listing.rs:101-123 | the loop ends and yields that walk, unless it exceeds 100000 accounts |
| `ConfigPatch.ApplyAudit` | src/config_patch.rs:40-59 | omitted fields stay, and the retention form named last replaces the other |
| `ConfigPatch.Apply` | src/config.rs:766-818 | section by section and field by field, exactly the named fields change |
| `ConfigPatch.PatchesMerge` | src/config.rs:766-818 | two patches in a row are one patch in which the field named last wins and unnamed fields stay, with both forms of retention as one setting |
| `ConfigPatch.FullPatchReplaces` | src/config.rs:766-818 | a patch that names every field replaces every setting that a patch can name |
| `RuntimeSettings.Validate` | src/runtime_settings.rs:79-147 | the checking loops decide exactly: valid, root-only parts equal, no new feature, no higher limit, no looser bound, retention no longer, same log directory |
| `RuntimeSettings.ProjectionReadsBack` | src/runtime_settings.rs:148-170 | the saved projection of conforming settings reads back as those settings, with retention in hours |
| `RuntimeSettings.HoursStayValid` | src/config.rs:371-377 | writing days as hours keeps settings valid and under the ceiling |
| `RuntimeSettings.CeilingAntisymmetric` | src/runtime_settings.rs:79-147 | settings that are under each other's ceiling are the same but for the warning threshold, the log's file name and the unit of retention |
| `RuntimeSettings.CeilingTransitive` | src/runtime_settings.rs:79-147 | what conforms to a conforming setting conforms |
| `RuntimeSettings.NeverLooser` | src/runtime_settings.rs:79-147 | a conforming setting grants no feature, limit, session time, login attempt or retention beyond the root file |
| `LiveConfig.AskedIsLive` | src/config.rs:933-1053 | what a successful call makes live is what was sent, what the files say, or the patched settings, with the open log's path filled in if none is named; the saved overlay and the open log follow it |
| `LiveConfig.PublishedConforms` | src/config.rs:933-996 | whatever call publishes settings, they conform to the root file that this call read |
| `LiveConfig.LiveAlwaysVouched` | src/config.rs:933-996 | in every reachable state the live settings conform to the ceiling that the last successful call read |
| `LiveConfig.RefusedChangesNothing` | src/config.rs:933-996 | a refused call leaves the live settings and the open log alone |
| `LiveConfig.TransportNeverChanges` | src/config.rs:431-438 | no run changes the transport settings |
| `LiveConfig.NeverLogsIntoSettings` | src/config.rs:891-911 | in no run does the open audit log come to be one of the two configuration files |
| `LiveConfig.SaveThenReload` | src/config.rs:947-1024 | saving and reloading under the same root file returns the live settings in every field, with retention in hours |
| `LiveConfig.UnnamedLogConforms` | src/config.rs:891-911 | without a log path in the root file, after every successful call the live settings conform exactly when it was a save or no log is open |
| `LiveConfig.UnnamedLogBlocks` | src/config.rs:972-1024 | with a filled-in path, every save and every patch under that root file is refused |
| `LiveConfig.UnnamedLogInstance` | src/config.rs:891-911 | an instance: root's own settings are stored and no longer conform |
| `LiveConfig.DynamicConfig.StoreConfig` | src/config.rs:933-946 | the method is exactly the store step |
| `LiveConfig.DynamicConfig.ReloadConfig` | src/config.rs:947-968 | exactly the reload step |
| `LiveConfig.DynamicConfig.ApplyPatchSaved` | src/config.rs:972-996 | exactly the patch step, saved or not |
| `LiveConfig.DynamicConfig.PersistConfig` | src/config.rs:1001-1053 | exactly the persist step, where the file may have been replaced even when the call fails |

## Left out

- SQLite, JSON and TOML encodings, file modes, flock and fsync: tables are maps, transactions are atomic, and an encoded record that is too large is a boolean.
- Kernel quota calls, useradd and userdel, NSS, PAM, Landlock and worker processes: kernel limits are a map with a fallible write, worker results are booleans.
- Password hashing and token hashing: opaque values and comparisons.
- The virtual operation ledger (src/accounts/ledger.rs): its files are not modelled; that removing one can fail is a boolean.
- HTTP handlers, WebSocket, admin and wizard code, event construction and TLS: they call the modelled operations and add only easy members.
- Error codes, requested and new modes, and log-charging fields of operation records: they are copied and never decide anything.
- The order of rows in a cleanup run and of accounts in a purge run: any order of the selected rows is allowed.
- `virtual_quota_sync` markers, which only tell an operator to run the repair that `SyncLimits` models.
- Virtuals.Host.Provision: the method runs without other transactions in between; that they may run between its effects is `ReserveCallInterleaved` and `FinishCallInterleaved`.
- Virtuals.Host.CreateAdmin: the same; see `BareCallInterleaved` and `FinishCallInterleaved`.
- AuditSink.Writer.Rotate: the rename that puts the live file back after a failure is taken to succeed.
- AuditSink.Writer.Emit: files are sequences of written pieces; that the event after a cut-off one continues its line is not stated.
- LiveConfig.DynamicConfig.StoreConfig: split mode only (a root file and a service-writable overlay); the single-file mode has no ceiling to state.
- RuntimeSettings.Validate: checks of root-only sections that no overlay setting can influence are one boolean.
