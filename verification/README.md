# orbit-auth, modelled and proved in Dafny

orbit-auth keeps accounts, organizations, memberships and invitations in Postgres, announces changes through an
outbox, decides permissions with scoped roles, issues sessions, and publishes the keys that verify its tokens. This
project models the four parts of it whose correctness is not visible in any single function, and proves what they
promise over every input, every run or every interleaving.

**Organizations, memberships, invitations and sign-up.** `Tables` holds the rows and the declared constraints,
`Transactions` what each store transaction does when it runs alone, `Effects` its exact effect row by row, `Statements` the same transactions as scripts of
single SQL statements, `PostgresStore` the store object. `Serial` proves script and transaction equal. `Locks`,
`Isolation` and `Interleaving` run any number of scripts concurrently, statement by statement under row locks, with
aborts at any point and outbox ids drawn from a sequence that rollbacks leave holes in; the result is that every such
run is serial, in the outbox as well as in the tables. `Organizations`, `EventLog`, `Invitations` and `Purge` draw the
consequences, and `Scenarios` reaches the states in which two of the promises fail.

**Scoped roles.** `Rbac` has the decision procedure, the listing of allowed scopes and the delegation check,
`Memstore` and `Catalog` the in-memory store and the catalog, `Delegation` runs of guarded grants and revocations.

**Token keys.** `Base64Url`, `BigEndian` and `Jwks` are the codec of the published key set, `Radix` what the codec computes as numbers; `RemoteVerifier` is the
caching client over runs of lookups with working and failing fetches.

**Sessions.** `Sessions` writes each handler as a sequence of atomic store calls. `SettledSessions` interleaves the
calls of any number of requests; `ConcurrentSessions` says when they keep one session per log-in, and `ConcurrentCodes`
how many wrong tries of a code they allow. `Answers` says of every call that is not interrupted when it gives a pair,
for whom and with which organization, and which rows it changes; `CompleteCalls` and `Activation` reason about
sequences of such calls. `Service` is the application object, which holds a store and is proved to have the effect of
its handler's store calls. `DemoUsers` is the seeding upsert, `Text` the normalization of identifiers.

Where the source changes state step by step the model is a class or a method with a loop, proved against a function of
its inputs; the theorems are about that function. Hashes are opaque values that only a matching preimage opens.

Six promises fail on some inputs, and the exact condition is proved for each:

- Replaying the outbox gives the membership rows after a transaction if and only if the transaction is neither a
  status change of an existing row to something other than suspended, nor a sign-up retry with an invitation into an
  organization where the account is suspended (`EventLog.FaithfulExactly`). The application asks only for suspensions,
  so for its requests the retry is the only exception (`EventLog.ApplicationFaithfulExactly`), and it is reachable
  (`Scenarios.MisreportHappens`).
- A purge leaves every organization an active member if and only if each one loses all its members or keeps an active
  one (`Purge.PurgeStaffedExactly`); the other case is reachable (`Scenarios.PurgeCanUnstaff`).
- A healthy key endpoint always serves a listed key if and only if the configured cache lifetime is at most an hour
  (`RemoteVerifier.ServesExactly`).
- The delegation guard adds no permission if and only if it is asked for a named subject
  (`Delegation.GuardSoundExactly`).
- The listing of scopes agrees with the decision about a resource of an organization, whoever asks and whatever is
  stored, if and only if each of the resource's scopes has an id or is the whole organization
  (`Rbac.CheckMeetsListing`); otherwise one assignment is enough to part them (`Rbac.UnlistedGrant`).
- One session per log-in holds over complete calls. When store calls interleave, the session rotations under way are
  safe at every point if and only if at no point two requests rotate the same session
  (`ConcurrentSessions.SafeThroughoutExactly`); two overlapping refreshes of one token leave two sessions
  (`ConcurrentSessions.OverlappingRefreshes`).

## Model

| member | source | states |
|---|---|---|
| `Serial.AloneIsExecute` | internal/infrastructure/postgres/signup.go:21-247 | For all eleven transactions, running the SQL statements one by one over a write buffer and committing gives the tables, outcome and events of the transaction's one-step meaning |
| `Serial.RunIsPlay` | internal/infrastructure/postgres/organizations.go:183-276 | Stopping a script after any statement and continuing on the buffered writes is the same as playing the rest on the tables those writes give |
| `Statements.OverlayRecord` | internal/infrastructure/postgres/organizations.go:135-180 | What a transaction sees after one more write is what that write does to what it saw before |
| `Locks.ScriptsDisciplined` | internal/infrastructure/postgres/organizations.go:307-315 | In every transaction each statement that depends on an organization's memberships, pending invitations or events comes after the one that locks its row |
| `Isolation.CommitAgrees` | internal/infrastructure/postgres/queries/organizations.sql:42-46 | A commit whose writes are behind its own locks changes nothing that disjoint locks protect |
| `Isolation.StatementLocal` | internal/infrastructure/postgres/organizations.go:196-218 | Under the locks a transaction holds, a statement gives the same answer and takes the same locks on the old and on the newly committed tables |
| `Isolation.PrefixStable` | internal/infrastructure/postgres/organizations.go:183-276 | The statements a transaction has run so far would give the same results if run again after any other transaction's commit |
| `Interleaving.StepLinearizes` | internal/infrastructure/postgres/invites.go:140-198 | Every step of a concurrent run keeps the locking invariant and is either invisible or has the effect of one whole transaction run alone at that moment |
| `Interleaving.Serializable` | internal/infrastructure/postgres/organizations.go:183-276 | Every interleaving of begins, statements, commits and aborts ends in the tables of a serial run that gave every caller the same answer, and each organization's outbox events in id order are the serial ones |
| `Outbox.FillAppends` | internal/infrastructure/postgres/events.go:31-62 | Events whose ids were drawn while the organization was locked come, in id order, after everything committed about it before, holes notwithstanding |
| `Constraints.ExecuteKeepsWellFormed` | internal/infrastructure/postgres/migrations/006_organization_invites.sql:2-20 | All foreign keys of memberships and invitations, the inviter's included, unique emails, mobiles and token hashes, and one pending invitation per organization and folded address survive every transaction |
| `Effects.CreateOrgExactly` | internal/infrastructure/postgres/organizations.go:18-64 | A new organization and its creator as active member, both announced, or nothing |
| `Effects.AddMemberExactly` | internal/infrastructure/postgres/organizations.go:135-180 | An absent membership is written and announced; an existing one is kept, without an error or an event |
| `Effects.UpdateMemberStatusExactly` | internal/infrastructure/postgres/organizations.go:183-230 | Only that row changes, unless it is the last active one and would stop being active; a suspension alone is announced |
| `Effects.RemoveMemberExactly` | internal/infrastructure/postgres/organizations.go:233-276 | Only that row goes, and the removal is announced, unless it is the last active one |
| `Effects.CreateInviteExactly` | internal/infrastructure/postgres/invites.go:20-66 | The new row carries the draft and is pending; exactly the pending rows of the same organization and folded address become revoked with every other field kept; every other row stays |
| `Effects.AcceptInviteExactly` | internal/infrastructure/postgres/invites.go:140-198 | Only a pending invitation of the organization is used up, and only that row and the one membership change; a suspended member is refused |
| `Effects.RevokeInviteExactly` | internal/infrastructure/postgres/invites.go:119-137 | Exactly a pending invitation of the organization becomes revoked |
| `Effects.CreateUserExactly` | internal/infrastructure/postgres/store.go:95-236 | One active account with the contact, verified exactly if it is an email, unless the contact or the id is taken |
| `Effects.VerifySignupExactly` | internal/infrastructure/postgres/signup.go:249-265 | Exactly an account that is signing up becomes active and verified, and nothing else of it changes |
| `Effects.SignupExactly` | internal/infrastructure/postgres/signup.go:21-136 | The account with the given fields and the organization it founds with it as active member, or nothing |
| `Effects.InvitedSignupExactly` | internal/infrastructure/postgres/signup.go:21-136 | The account, its active membership and the used-up invitation together, or nothing |
| `Effects.ReissueExactly` | internal/infrastructure/postgres/signup.go:143-247 | Only password and name change, only of an account that is signing up |
| `Effects.InvitedReissueExactly` | internal/infrastructure/postgres/signup.go:190-238 | With an open invitation the account is activated and joins as well; otherwise nothing changes |
| `Organizations.ExecuteKeepsStaffed` | internal/infrastructure/postgres/organizations.go:183-276 | Every transaction that runs alone leaves every organization an active member |
| `Organizations.AlwaysStaffed` | internal/infrastructure/postgres/organizations.go:183-276 | Over every interleaving, every committed organization has an active member |
| `Organizations.SuspensionLasts` | internal/infrastructure/postgres/queries/invites.sql:64-74 | Only an explicit status change or a removal of that member ends a suspension |
| `Organizations.SuspendedFrom` | internal/infrastructure/postgres/invites.go:163-188 | The same over any sequence of transactions, from any point of it |
| `Organizations.SuspendedThroughout` | internal/infrastructure/postgres/organizations.go:151-160 | Over every interleaving, once a suspension has committed, with any transactions under way, the member stays suspended until a lifting transaction finishes after it |
| `EventLog.ExecuteFaithful` | internal/infrastructure/postgres/organizations.go:135-276 | If replaying the log gives the rows, it still does after any transaction outside the two silent kinds |
| `EventLog.MisreportBreaks` | internal/infrastructure/postgres/organizations.go:211-224 | An unannounced change of a status, and a sign-up retry that joins an organization where the account is suspended, always break the replay |
| `EventLog.FaithfulExactly` | internal/infrastructure/postgres/signup.go:143-247 | The replay is faithful after a transaction if and only if it is of neither kind |
| `EventLog.ApplicationFaithfulExactly` | internal/application/organizations.go:78-94 | For the application's requests, whose only status change is a suspension, if and only if it is not such a retry |
| `EventLog.AnnouncingExactly` | internal/infrastructure/postgres/organizations.go:135-276 | Over any sequence from any tables, the log over the starting rows tells the rows after every transaction if and only if none is of the two kinds |
| `EventLog.OutboxTellsRows` | internal/infrastructure/postgres/organizations.go:135-276 | Over every interleaving without the two kinds, from any tables, replaying an organization's outbox in id order over its starting rows gives exactly its committed membership rows |
| `Scenarios.MisreportHappens` | internal/infrastructure/postgres/signup.go:190-238 | A concrete sequence of transactions from empty tables reaches it: the row stays suspended and the event says active |
| `Invitations.ExecuteMoves` | internal/infrastructure/postgres/queries/invites.sql:49-62 | An invitation changes only from pending to accepted or revoked, by a transaction that succeeded, and a successful claim found it pending; without a claim it is only revoked, by a newer invitation of its organization and folded address |
| `Invitations.SettledForGood` | internal/infrastructure/postgres/queries/invites.sql:49-62 | Over any sequence, an accepted or revoked invitation never changes again |
| `Invitations.ExactlyOneWinner` | internal/infrastructure/postgres/invites.go:119-198 | Over every interleaving, an invitation that ends settled, stored before or created on the way, was settled by one transaction, which claimed it or invited the same address to the same organization again; every other claim on it, earlier or later, failed |
| `Invitations.SingleUse` | internal/infrastructure/postgres/queries/invites.sql:49-62 | Over every interleaving, of two claims on any invitation at most one succeeds |
| `Invitations.OnePendingAlways` | internal/infrastructure/postgres/invites.go:20-66 | Over every interleaving, an organization has at most one pending invitation per folded address |
| `Purge.PurgeRemovesExactly` | internal/infrastructure/postgres/signup.go:271-290 | Exactly the pending, unverified accounts from before the cutoff go, with their index entries, with their memberships and the invitations they sent, and exactly the organizations whose members all went, with their invitations |
| `Purge.PurgeKeepsWellFormed` | internal/infrastructure/postgres/migrations/004_organizations.sql:9-17 | The declared constraints survive a purge, and afterwards every organization has a member |
| `Purge.PurgeStaffedExactly` | internal/infrastructure/postgres/queries/organizations.sql:76-80 | After a purge every organization has an active member if and only if each one lost all members or keeps an active one |
| `Scenarios.PurgeCanUnstaff` | internal/infrastructure/postgres/queries/organizations.sql:76-80 | A concrete sequence of transactions from empty tables leads to a purge that takes an organization's only active member and keeps the organization |
| `Purge.PurgeFaithfulExactly` | internal/infrastructure/postgres/signup.go:271-290 | The outbox still tells the rows after a purge if and only if no member was purged |
| `Scenarios.PurgeUntold` | internal/infrastructure/postgres/signup.go:271-290 | At the end of that sequence of transactions the log tells the rows, and after the purge it does not |
| `PostgresStore.Store.CreateOrg` | internal/infrastructure/postgres/organizations.go:18-64 | New tables, outcome and appended events are those of the transaction; the constraints are kept, and an active member everywhere if there was one |
| `PostgresStore.Store.AddMember` | internal/infrastructure/postgres/organizations.go:135-180 | The same; an existing membership is untouched and not announced |
| `PostgresStore.Store.UpdateMemberStatus` | internal/infrastructure/postgres/organizations.go:183-230 | The same, with the last-active guard |
| `PostgresStore.Store.RemoveMember` | internal/infrastructure/postgres/organizations.go:233-276 | The same, with the last-active guard |
| `PostgresStore.Store.CountActive` | internal/infrastructure/postgres/queries/organizations.sql:70-74 | Counting the rows one by one gives the size of the set of active members |
| `PostgresStore.Store.CreateInvite` | internal/infrastructure/postgres/invites.go:20-66 | The same transaction contract; which rows that revokes is `Effects.CreateInviteExactly` |
| `PostgresStore.Store.AcceptInvite` | internal/infrastructure/postgres/invites.go:140-198 | The same; a suspended member is refused |
| `PostgresStore.Store.RevokeInvite` | internal/infrastructure/postgres/invites.go:119-137 | The same; only a pending invitation of that organization |
| `PostgresStore.Store.CreateSignupUser` | internal/infrastructure/postgres/signup.go:21-136 | The same; account, accepted invitation and owned organization are written together or not at all |
| `PostgresStore.Store.ReissuePendingSignup` | internal/infrastructure/postgres/signup.go:143-247 | The same; only an unverified sign-up of that address; a given challenge replaces all others of its address and channel exactly when the rest succeeds, and a taken challenge id undoes everything |
| `PostgresStore.Store.VerifySignup` | internal/infrastructure/postgres/signup.go:249-265 | The same; only an account that is still unverified |
| `PostgresStore.Store.FindOrCreate` | internal/infrastructure/postgres/store.go:95-236 | The contact leads to the returned account afterwards; an existing one is returned with nothing written, otherwise the create transaction ran |
| `PostgresStore.Store.PurgeUnverifiedSignups` | internal/infrastructure/postgres/signup.go:271-290 | The tables are the purged ones, and the count is the number of accounts removed |
| `PostgresStore.Store.GetLatestChallenge` | internal/infrastructure/postgres/store.go:51-68 | The loop finds a newest row, one the query may return |
| `PostgresStore.Store.IncrementAttempts` | internal/infrastructure/postgres/store.go:71-77 | Every row of that id counts one more attempt, others are unchanged |
| `PostgresStore.Store.FindValidToken` | internal/infrastructure/postgres/store.go:346-352 | The loop finds a live row of the hash, or there is none |
| `PostgresStore.Store.RevokeToken` | internal/infrastructure/postgres/store.go:355-357 | Every row of the hash is revoked, others are unchanged |
| `PostgresStore.DeleteRows` | internal/infrastructure/postgres/queries/otp_challenges.sql:23-32 | Exactly the rows that pass stay, in order |
| `PostgresStore.EmitEvents` | internal/infrastructure/postgres/events.go:55-62 | The events are appended in order |
| `Rbac.PermissionsByRole` | authorization/rbac.go:255-268 | A key maps to exactly the permissions of all roles with that key |
| `Rbac.Check` | authorization/rbac.go:100-146 | Allowed exactly when some assignment of the subject carries the permission and applies to the resource, with the reason of every denial and the store failures |
| `Rbac.AllowedScopes` | authorization/rbac.go:148-195 | Strictly sorted ids, exactly the non-empty ones at which the permission is held, or everywhere; an error, with nothing listed, exactly when the store fails for a question that reaches it |
| `Rbac.CheckMeetsScopes` | authorization/rbac.go:100-195 | A decision is the permission held everywhere or at one of the resource's scopes |
| `Rbac.CheckMeetsListing` | authorization/rbac.go:126-195 | For a resource, decision and listing agree for every subject, permission and store if and only if it has no organization or each of its scopes has an id or is the whole organization |
| `Rbac.UnlistedGrant` | authorization/rbac.go:178-190 | The failing input: one assignment on a scope of the resource with a kind and no id is allowed and not listed |
| `Rbac.GrantsIgnoreOrder` | authorization/rbac.go:126-142 | Order and duplicates of roles and assignments do not matter |
| `Rbac.CanGrant` | authorization/rbac.go:200-233 | True exactly when each permission of the target's role is covered by an assignment of the granter at the target's scope |
| `Rbac.MayGrantTransitive` | authorization/rbac.go:200-233 | What may be granted by something that may be granted may be granted directly |
| `Rbac.MayGrantMonotone` | authorization/rbac.go:200-233 | More assignments never lose the right to grant |
| `Delegation.SomeoneMayIff` | authorization/rbac.go:100-146 | Some subject is allowed exactly when a single assignment of a named subject allows it |
| `Delegation.MoveAddsNothing` | authorization/rbac.go:200-233 | After one guarded grant or any revocation, whatever an assignment allows some assignment allowed before |
| `Delegation.NoPrivilegeGrowth` | authorization/rbac.go:200-233 | Over any run of guarded grants and arbitrary revocations, what some subject may do some subject could do at the start |
| `Delegation.GuardSoundExactly` | authorization/rbac.go:200-233 | Asking the guard for a subject's own assignments never lets a grant add a permission if and only if that subject has a name |
| `Delegation.AnonymousGrantGrows` | authorization/rbac.go:200-233 | The failing input: with the empty subject's assignments a grant adds a permission |
| `Memstore.Store.SetRoles` | authorization/memstore/memstore.go:31-38 | An authorizer then reads the given roles for the organization, and for every other organization and every subject what it read before |
| `Memstore.Store.AddRole` | authorization/memstore/memstore.go:41-61 | The first role with the key is replaced, or the role appended; others unchanged |
| `Memstore.Store.SetAssignments` | authorization/memstore/memstore.go:66-83 | The given assignments, filed under their organization and subject; others unchanged |
| `Memstore.Store.AddAssignment` | authorization/memstore/memstore.go:87-101 | One more assignment under its own organization and subject; others unchanged |
| `Memstore.WithRoleCarries` | authorization/memstore/memstore.go:41-61 | After adding a role its key carries the new permissions and those of later roles with the same key, and no other key changes |
| `Memstore.AddRoleReplaces` | authorization/memstore/memstore.go:41-61 | With unique keys, the key carries exactly the new permissions |
| `Memstore.LastAddedWins` | authorization/memstore/memstore.go:41-61 | Over any run of additions to unique keys, keys stay unique and each carries the permissions of the last role added with it, or what it carried |
| `Memstore.StoredDecision` | authorization/memstore/memstore.go:104-127 | A decision over the store is the plain existential over its stored roles and assignments |
| `Catalog.NewCatalog` | authorization/catalog.go:24-36 | Built exactly when the keys are distinct identifiers, and then holds them |
| `Catalog.ValidateRoles` | authorization/catalog.go:65-90 | Accepts exactly unique role keys whose permissions are all declared |
| `Base64Url.DecodeEncode` | token/access.go:170-171 | Every byte string survives unpadded base64url |
| `Base64Url.EncodeDecode` | token/access.go:395-402 | An accepted text is the encoding of its bytes if and only if it has no line break and its unused bits are zero |
| `Radix.DecodeExactly` | token/access.go:395-402 | A text is accepted if and only if it has only letters of the alphabet and line breaks and no lone last letter; the bytes are the number it spells in base 64 without the unused low bits, in base 256 |
| `BigEndian.FromBytesBytes` | token/access.go:170-171 | The big-endian bytes of a number give it back |
| `BigEndian.BytesFromBytes` | token/access.go:407-407 | Bytes come back from their number if and only if there is no leading zero |
| `BigEndian.OrIntoGap` | token/access.go:403-406 | Or-ing a byte into the bits a shift cleared is addition |
| `BigEndian.ExponentValue` | token/access.go:403-406 | The shift-and-or loop computes the big-endian value, below 2^32 |
| `Jwks.ReadDocument` | token/access.go:386-417 | A key set exactly for 1 to 100 entries with distinct identifiers, each an RS256 signing key of RSA with at least 2048 bits and an odd exponent of at least 3 in 1 to 4 bytes; it holds the numbers the entries spell under their identifiers and nothing else; otherwise the error of the first entry refused |
| `Jwks.ParseAllExactly` | token/access.go:390-415 | Reading succeeds if and only if every entry is acceptable and identifiers are distinct, and yields each entry under its identifier and nothing else |
| `Jwks.ParseExactly` | token/access.go:391-414 | One entry is accepted if and only if it is an RS256 signing key of RSA with a visible identifier, a modulus of at least 2^2047 and an odd exponent of at least 3 in 1 to 4 bytes, and gives the two numbers; an error names the entry |
| `Jwks.ReadExactly` | token/access.go:386-417 | The same for a document: 1 to 100 such entries with distinct identifiers, and the keys read are theirs |
| `Jwks.BitLenExactly` | token/access.go:408-408 | More than k bits exactly from 2^k on |
| `Jwks.Document` | token/access.go:156-175 | One entry per key, in strictly increasing order of identifiers |
| `Jwks.PublishedOnce` | token/access.go:156-162 | The document does not depend on the order the map is walked in |
| `Jwks.EntryRoundTrip` | token/access.go:164-172 | One published entry reads back if and only if its identifier is not blank, it has 2048 bits and its exponent is odd, at least 3 and below 2^32 |
| `Jwks.DocumentRoundTrip` | token/access.go:156-175 | A published key set reads back as itself if and only if it has 1 to 100 keys, all of that kind |
| `Jwks.ReadPublishable` | token/access.go:386-417 | Whatever is read is of that kind |
| `Jwks.Republishing` | token/access.go:386-417 | A key set read from any document survives being published and read again |
| `RemoteVerifier.RemoteVerifier.Refresh` | token/access.go:358-383 | A readable document replaces keys and both times; a failure changes nothing |
| `RemoteVerifier.RemoteVerifier.Lookup` | token/access.go:314-356 | The answer and the new cache are those of one step, which `RemoteVerifier.LookupExactly` and `RemoteVerifier.LookupLeaves` spell out |
| `RemoteVerifier.Open` | token/access.go:274-310 | A verifier exists exactly when the first fetch was good, with the default lifetime of five minutes |
| `RemoteVerifier.AttemptsExactly` | token/access.go:328-340 | A lookup goes to the network if and only if the cache expired and the last attempt is 15 seconds old, or the key is unknown and the last search for one is |
| `RemoteVerifier.LookupExactly` | token/access.go:317-355 | Each of the five answers if and only if its condition holds; a key is given exactly from a document at most an hour old |
| `RemoteVerifier.LookupLeaves` | token/access.go:331-383 | Keys, both times and both attempt clocks after a lookup |
| `RemoteVerifier.RefreshRate` | token/access.go:331-340 | Over every run, three attempts in a row span at least 15 seconds, so a run of length d makes at most 2 * (d / 15s + 1) |
| `RemoteVerifier.TwoAtOnce` | token/access.go:331-340 | Two attempts at one instant are possible from any expired cache, so the factor cannot be dropped |
| `RemoteVerifier.TwoAtOnceHappens` | token/access.go:304-340 | They happen to any verifier opened with a good document and left alone until its cache expires |
| `RemoteVerifier.KeyProvenance` | token/access.go:328-383 | Over every run, each key handed out is the one in the newest adopted document, which arrived at most an hour before |
| `RemoteVerifier.OutageExactly` | token/access.go:271-273 | During an outage of any length a cached key is served if and only if its document is at most an hour old, and an unknown key never |
| `RemoteVerifier.Serves` | token/access.go:328-355 | With good fetches and a lifetime of at most an hour, a key listed since t0 is served at every lookup from t0 + 15s, whatever else is looked up |
| `RemoteVerifier.StaleBeforeExpiry` | token/access.go:347-350 | With a longer lifetime a listed, cached key is refused after the hour without a fetch |
| `RemoteVerifier.ServesExactly` | token/access.go:347-355 | That availability holds for all runs if and only if the lifetime is at most an hour |
| `Text.TrimBlank` | token/access.go:392-392 | Trimming leaves nothing exactly when every character is white space |
| `Text.TrimExactly` | internal/application/password_tokens.go:21-21 | The text is the trimmed one with white space around it, and the trimmed one neither starts nor ends with white space |
| `DemoUsers.SeedIndexed` | internal/infrastructure/postgres/store.go:249-316 | Seeding keeps emails and mobiles unique and every account findable |
| `DemoUsers.SeedExactly` | internal/infrastructure/postgres/queries/users.sql:82-126 | The account of the contact becomes active with the given password, name and mobile, verified if an email is given; no other account changes, only a new one is announced, and a refusal changes nothing |
| `Sessions.Latest` | internal/infrastructure/postgres/queries/otp_challenges.sql:13-18 | Any newest challenge of the address and channel may be returned, and none exactly when there is none |
| `Sessions.FindValid` | internal/infrastructure/postgres/queries/refresh_tokens.sql:11-17 | Any unexpired, unrevoked row of the hash may be returned, and none exactly when there is none |
| `Sessions.SingleOrg` | internal/application/service.go:282-291 | The one organization in which the user is active, if there is exactly one |
| `SettledSessions.ExecuteProgresses` | internal/infrastructure/postgres/queries/users.sql:45-80 | No transaction takes an account back into sign-up or deletes one that has left it |
| `SettledSessions.StepCleared` | internal/application/service.go:206-238 | After every store call, a handler past its account check is about an account that exists and has left sign-up |
| `SettledSessions.SessionsAreSettled` | internal/application/service.go:206-238 | Over every interleaving of the store calls of any requests, purges and seedings included, every refresh token and every pair handed out belongs to an account that exists and has left sign-up |
| `SettledSessions.RefreshNeedsNoStatus` | internal/application/service.go:230-238 | The account behind a valid refresh token needs no status check, in any reachable state |
| `SettledSessions.AloneIsComplete` | internal/application/signup.go:229-280 | A request whose store calls nothing interrupts has the effect of the complete call |
| `Answers.LoginExactly` | internal/application/password_tokens.go:20-47 | A pair if and only if the identifier, as mobile number or folded email, leads to an active account with that password; the pair is a new session of that account; otherwise nothing changes and the reason is given |
| `Answers.ChooseExactly` | internal/application/service.go:271-291 | A log-in carries an organization if and only if automatic selection is on and it is the only one where the account is active; one row for 30 days is added, the pair is for 15 minutes |
| `Answers.RefreshExactly` | internal/application/service.go:230-238 | A pair if and only if the token has a live row; it is for the row's account with the row's organization, dropped exactly if the membership is no longer active; the token is revoked and the next row is on the same line |
| `Answers.SelectExactly` | internal/application/service.go:244-268 | A pair for the organization if and only if the caller is an active member and the live row found is their own; the same rotation |
| `Answers.VerifyOtpExactly` | internal/application/service.go:183-223 | Compared with the newest challenge: expired or with five tries it is refused, another code adds one try and changes nothing else, the right code uses it up and logs in the contact's account, created if there is none |
| `Answers.CodePairExactly` | internal/application/service.go:183-223 | A pair if and only if the newest challenge is unexpired, below five tries and has that code, the channel is email or sms, and the contact's account is not signing up or can be created |
| `Answers.LatestNewest` | internal/infrastructure/postgres/queries/otp_challenges.sql:13-18 | The challenge compared is one no other of the address and channel is newer than, and there is one if there is any |
| `Answers.RequestExactly` | internal/application/service.go:111-158 | Which requests are refused; otherwise expired challenges go and one for ten minutes without tries is added |
| `Answers.RegisterExactly` | internal/application/signup.go:36-122 | An account is created if and only if sign-up is open, the form valid, the address free and a named invitation usable; it has the normalized address, the name and the password, is pending and unverified without an invitation, and active, verified and an active member of the inviting organization with one |
| `Answers.RegisterStarts` | internal/application/signup.go:36-60 | The refusals in order; an invitation is usable if and only if its token matches, it is pending, unexpired and for the folded address |
| `Answers.NewRegistrationExactly` | internal/application/signup.go:67-122 | Without an invitation: the account, the organization it founds, and one challenge; every other row stays |
| `Answers.InvitedRegistrationExactly` | internal/application/signup.go:67-122 | With one: the account, its membership and the used-up invitation, and no challenge |
| `Answers.RepeatedRegistrationExactly` | internal/application/signup.go:129-198 | An account that is not signing up is left alone, silently; otherwise password and name are replaced, and a minute after the newest challenge a new one replaces all of the address |
| `Answers.RepeatedInvitedExactly` | internal/application/signup.go:129-198 | With an invitation an account that is signing up is also activated and joins |
| `Answers.ConfirmAnswers` | internal/application/signup.go:229-280 | The newest code and the password of an account that is signing up activate it, use the challenge up and log it in; anything else adds one try and changes nothing else |
| `CompleteCalls.GuessesAreBounded` | internal/application/service.go:183-205 | Over every sequence of complete calls, no challenge counts more than five wrong tries, accepted codes are at most the challenges created, and wrong tries at most five times that |
| `CompleteCalls.CodePairCosts` | internal/application/signup.go:242-280 | A pair obtained with a code uses up a challenge |
| `CompleteCalls.RotationLeavesOne` | internal/infrastructure/postgres/signup.go:163-188 | After a reissue with a challenge, the new one is the only one for the address and channel |
| `CompleteCalls.OneSessionPerLogin` | internal/application/service.go:230-321 | Over every sequence of complete calls, at most one unrevoked token descends from a log-in, for the account that logged in, and a pair carries an organization only while the account is an active member |
| `CompleteCalls.RevokeVacates` | internal/infrastructure/postgres/queries/refresh_tokens.sql:19-20 | Revoking a presented token leaves its line without a live row and other lines no worse |
| `ConcurrentSessions.ExclusiveRotation` | internal/application/service.go:230-268 | Over every interleaving in which no two requests rotate the same line at once, at most one unrevoked token descends from a log-in, for its account |
| `ConcurrentSessions.OverlappingRotations` | internal/application/service.go:230-268 | Whenever two handlers rotate one line, refreshing or switching, with any organization and any new secrets, running just those two leaves two live rows in it |
| `ConcurrentSessions.RotationsSafeExactly` | internal/application/service.go:230-268 | From any state the handlers can be in, every way to finish the rotations under way keeps one live row per log-in if and only if no two are of the same line |
| `ConcurrentSessions.SafeThroughoutExactly` | internal/application/service.go:230-268 | The same at every point of a whole interleaving |
| `ConcurrentSessions.OverlappingRefreshes` | internal/application/service.go:230-238 | From any state with a live token, with or without an organization, two refreshes that both find it leave two live rows in its line, with two different new tokens |
| `ConcurrentCodes.TriesUnderLoad` | internal/application/service.go:190-203 | Over every interleaving with at most n requests in flight, no challenge counts more than 4 + n wrong tries |
| `Activation.ConfirmExactly` | internal/application/signup.go:229-280 | Confirming takes an account out of sign-up if and only if sign-up is open, the newest code of the address matches, is alive and has tries left, and the stored password matches |
| `Activation.RegisterExactly` | internal/application/signup.go:36-182 | Registering changes no field of an account that is not signing up, writes only the address's own sign-up, which then holds the new password, changes nothing when refused, and activates only with a usable invitation for that address |
| `Activation.LeavesOnlyEarned` | internal/application/signup.go:229-280 | In one complete call an account leaves sign-up only through newest code and stored password, a usable invitation, or demo seeding |
| `Activation.PendingPasswords` | internal/infrastructure/postgres/queries/users.sql:57-74 | Over every sequence of complete calls, the password of an unconfirmed account is the one last registered for its address |
| `Activation.ConfirmedByLastRegistrant` | internal/application/signup.go:229-280 | So whoever confirms presents the newest code and the last registered password |
| `Service.Service.RequestOtp` | internal/application/service.go:111-158 | The checks, and the challenges and reply of the handler's store calls; what they are is `Answers.RequestExactly` |
| `Service.Service.VerifyOtp` | internal/application/service.go:183-223 | The tables, challenges, tokens and reply of the handler's store calls, for one of the rows the query may return; what they are is `Answers.VerifyOtpExactly` |
| `Service.Service.LoginByContact` | internal/application/service.go:206-222 | The same for the rest of the handler; an account still signing up is refused |
| `Service.Service.LoginWithPassword` | internal/application/password_tokens.go:20-47 | The tokens and reply of the handler's store calls; what they are is `Answers.LoginExactly` |
| `Service.Service.RefreshSession` | internal/application/service.go:230-238 | The tokens and reply of the handler's store calls; what they are is `Answers.RefreshExactly` |
| `Service.Service.SwitchOrg` | internal/application/service.go:244-268 | The tokens and reply of the handler's store calls; what they are is `Answers.SelectExactly` |
| `Service.Service.IssueTokens` | internal/application/service.go:271-277 | The same from the choice of organization on |
| `Service.Service.IssueTokensForOrg` | internal/application/service.go:305-321 | The token handed out is found at any time before it expires; the pair names the account and organization; a new line, or one without a live row, still has at most one live row |
| `Service.Service.RegisterWithEmail` | internal/application/signup.go:36-122 | The tables, challenges and reply of the handler's store calls; what they are is `Answers.RegisterExactly` |
| `Service.Service.RetryPendingSignup` | internal/application/signup.go:129-198 | The same from the second look at an existing address on |
| `Service.Service.VerifySignup` | internal/application/signup.go:229-280 | The tables, challenges, tokens and reply of the handler's store calls; what they are is `Answers.ConfirmAnswers` |

## Left out

- RSA signing, JWT parsing, bcrypt and SHA-256: a hash is an opaque value matched by its preimage, so two secrets never share one.
- HTTP, JSON decoding, redirects and URL checks of the key client: a fetch fails or brings a document at a time.
- gRPC and HTTP transport, notifications beyond sent or not sent, the outbox relay, feature-flag storage, migrations.
- API tokens and the foreign key from them to users that a purge would meet.
- The deprecated policy evaluator, which repeats the role check without scopes.
- Unicode case folding: addresses fold ASCII letters only, and strings are sequences of code points.
- Timestamps and payloads of events, `updated_at`, `last_login_at`, and the identifiers of outbox rows beyond their order.
- Purging is not part of the statement-level interleavings, where it takes no organization lock; it is a step of the session interleavings.
- The statement that revokes all pending invitations of an address takes its row locks in one step, and waiting on a foreign key or a deadlock is an abort.
- Serial.AloneIsExecute: the script of a reissue has no challenge statements, which touch no table of the statement-level model; the store method and the session model rotate the challenge.
- Checks that the invitation and membership handlers make before their one transaction, such as that the inviter is active; the transaction they lead to is modelled.
- A complete call reads one clock value; in interleavings each store call has its own.
- `NewID` collisions in refresh tokens need no assumption; a colliding challenge id is the primary-key error.
- CompleteCalls.OneSessionPerLogin: is about complete calls, because finding and revoking a token are two store calls; `ConcurrentSessions` has the interleavings.
- CompleteCalls.GuessesAreBounded: is about complete calls, because reading a challenge and counting or deleting it are separate store calls; `ConcurrentCodes` bounds the wrong tries over interleavings, not the acceptances.
- The service object does not say what its calls append to the outbox; the store's methods do.
