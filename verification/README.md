# mikaki: a verified model of its hard parts

This project models, in Dafny, the parts of the mikaki repository whose correctness is not visible in any single function,
and proves what they guarantee over whole runs. `dafny verify dfyconfig.toml` checks all of it.

- **Session and logout protocol of the OpenID provider** (`Op*.dfy`). `OpTables` has the tables and the queries that decide
  authentication, `OpBatches` the atomic batches, `OpGc` the deletions, `OpMachine` the steps. Steps of different requests,
  of scheduled runs and of operators interleave freely under one clock that never goes back; a batch whose guard fails
  changes nothing. `OpInvariants` and `OpSteps*` hold the invariant and its preservation, `Op*Theorems`, `OpGcPasses` and
  `OpRetryConflict` results over whole runs, and `OpStore` the same batches as methods of an object, statement by statement with
  rollback, each proved equal to its step. `OpWrites`, `OpRowLaw`, `OpIssueLaw`, `OpSignIn`, `OpQueries` and `OpRevocationLaw`
  write out, without the functions of the machine, when a batch commits, what each step does to each row, and what a query
  finds; `OpLeaseTheorems`, `OpOrigins`, `OpLifetimes` and `OpRetention` follow rows over runs: which step created a row, how
  long it is good for, what ends it, and when it may be collected.
- **Relying party** (`Rp*.dfy`). A request that waits for the database, the provider or the clock is a thread, so that every
  other step can run at each of its awaits. `RpSessionLaw` writes out its batches and follows sessions over runs.
- **Both together** (`Protocol.dfy`). The provider's answers and logout tokens are the real ones of the provider machine, and
  a 2xx answer to a notification only comes from a committed logout at the relying party.
- **Retry timing** (`RetryTiming.dfy`), **SQL tokenizer** (`Sql*.dfy`; `SqlTokens` defines its language apart from
  the scanner), **policy normaliser and canonical printer** (`CanonicalJson`, `Policy*.dfy`; `JsonReader` defines the text apart
  from the printer), **FIDO metadata store** (`Mds*.dfy`), **recipient keys** (`RecipientKey*.dfy`).

`Policy.dfy` is the hinge: `RuntimePolicy.Policy` is the type of policies whose inequalities the protocol proofs use, and
`PolicyRevision.AcceptedIsPolicy` proves that the normaliser accepts nothing else.

## Reading the model

- One clock for provider and relying party. A caller's `now()` is a reading `at` that may be older than the time `now` at
  which its batch runs; readings of different requests need not be ordered. Where a function reads the clock several times
  in a row, the model reads it once.
- UUIDs and random secrets are fresh: `Fresh` says that a committed one is not drawn again. A secret stands for its hash.
- `LIMIT` is any subset of the right size, except where the source orders and takes the first row. `ORDER BY` of the bulk
  statements is not modelled.
- History (`Hist`) records what has happened. No batch reads it; theorems about whole runs are stated with it.
- `keysActive` stands for the client key and signing key rows that the exchange and assertion statements join.
- Clients, connections and credentials are not deactivated by any step, and operators create clients and invitations before
  a run starts.

## What came out

- The last UPDATE of the relying party's `current` does not look at the lease again. `RpTheorems.LateExactly` says exactly when
  it therefore accepts a request `lease_ttl` or more after the revocation, and `OnTimeWhileLeased` that a test of the lease
  there would exclude it. What holds without one is the bound on the clock reading at which the lease was checked
  (`BoundedStaleness`).
- A bare `jti` is not unique for ever. `OpIssuanceTheorems.JtiReusableExactly` says exactly when it comes back: under an assertion
  that expires more than skew plus grace after the first. No assertion is ever accepted twice (`NoAssertionReplay`).
- `disableKey` writes a second audit row, exactly when the key it read was disabled in one step by somebody else meanwhile
  (`RecipientKeys.DisableExactly`, `DoubleAudit`).
- Expansion reuses the session id as event id and starts again at revision 0. If an earlier event of that id was retried and
  its audit row is still stored, a retry of the new event at the same revision is refused by UNIQUE(event_id, revision), its
  guard notwithstanding. `OpRetryConflict.LegitimateRetryRefused` reaches that under every policy, and `RetryRefusedExactly` has the
  exact condition.
- Layout and comments at token boundaries do matter in one case: a line comment directly after a minus sign swallows the sign
  (`SqlLexerTheorems.CommentedMinus`). `LayoutIrrelevant` says that this is the only one.
- `canonicalSql` is not idempotent on printed tokens that end in two semicolons (`SqlCanonical.TwoSemicolons`);
  `CanonicalAgain` says exactly when it is.

## Model

| member | source | states |
|---|---|---|
| OpStore.Store.constructor | local/schema.sql:1-58 | a fresh database satisfies the invariant and is an initial state of the machine |
| OpStore.Store.Logout | local/op.ts:667-676 | the logout batch either spends the transaction, records the one event of the session and revokes it with its client sessions, or rolls back to the tables it found; the new state is the machine's and keeps the invariant |
| OpStore.Store.RevokeAccount | local/account-admin.ts:17-53 | advances exactly the epoch that was read together with its revocation row, or changes nothing |
| OpStore.Store.Expand | local/account-admin.ts:56-79 | never aborts in a reachable state, and its two statements together are the machine's expansion |
| OpStore.Store.Fanout | local/logout-delivery.ts:37-57 | inserts exactly the chosen missing rows and sets exactly the flags of events with nothing missing |
| OpStore.Store.Claim | local/logout-delivery.ts:59-83 | takes the first claimable row in (next_at, id) order and leases it until the reading plus lease_ttl, returns None exactly when no row is claimable, and the returned task is on record under its new lease; OpLeaseTheorems says how long the lease lasts |
| OpStore.Store.Settle | local/logout-delivery.ts:118-142 | compare-and-set on a running lease: the outcome is written to the leased row or nothing changes |
| OpStore.Store.Expire | local/logout-delivery.ts:144-155 | finishes exactly the unleased rows whose deadline or attempts are used up |
| OpStore.Store.Retry | local/logout-admin.ts:19-102 | rejects bad parameters without touching the database; otherwise commits exactly under the guard and without an audit row of the same event and revision |
| OpStore.Store.AcceptClient | local/op.ts:489-525 | accepts exactly an assertion that still verifies at commit, of an active client and key, whose jti is not stored |
| OpStore.Store.JoinWrites | local/op.ts:144-173 | connection and client session are written together under the per-session cap, or the tables go back to where the batch began |
| OpStore.Store.IssueWrites | local/op.ts:132-199 | all issuing writes or none; when they commit and which rows they leave is in OpIssueLaw.IssueCommits and IssueRows, how long the code lives in OpOrigins.CodeRedeemedInTime |
| OpStore.Store.Issue | local/op.ts:719-727 | consent on a live session is one step of the machine and keeps the invariant |
| OpStore.Store.AuthenticationWrites | local/op.ts:405-462 | ceremony, invitation, bootstrap, account and credential rows change together or the batch is undone |
| OpStore.Store.SessionWrites | local/op.ts:465-483 | a session is inserted only below the per-account cap of the account's current epoch, with its context and retention bound |
| OpStore.Store.Finish | local/op.ts:402-486 | authentication, session and code commit together or not at all |
| OpStore.Store.Exchange | design/sql/exchange-code.sql:4-40 | the exchange consumes the code and issues the token in one step, or leaves everything |
| OpStore.Store.Collect | local/gc.ts:86-107 | one pass visits the tables in order, deletes at most gc_batch_size rows, and `deleted` counts exactly what each table lost; the pass is a legal pass of the specification |
| OpStore.Store.Attempt | local/logout-delivery.ts:236-246 | one round of the loop is a claim, a delay and a settlement of the machine, and stops only when nothing is claimable |
| OpStore.Store.Deliver | local/logout-delivery.ts:232-250 | a whole delivery run is a run of the machine, makes at most claim_batch_size attempts, and makes fewer only if nothing is claimable |
| OpStore.FirstExists | local/logout-delivery.ts:66-71 | ORDER BY next_at, id LIMIT 1 has an answer whenever a row is claimable |
| RetryTiming.CapDoubles | local/logout-delivery.ts:98-99 | the backoff window starts at base_delay, doubles with each attempt and never exceeds max_delay |
| RetryTiming.DelayBounds | local/logout-delivery.ts:98-100 | every delay lies between base_delay and the capped exponential |
| RetryTiming.NextBounds | local/logout-delivery.ts:100-113 | the next attempt is never before base_delay or a usable Retry-After, and never after the capped exponential unless a later Retry-After says so (section 10.2.3 of RFC 9110) |
| RetryTiming.OutcomeExactly | local/logout-delivery.ts:85-116 | exactly which status, attempt count and time lead to delivered, failed, expired or pending, and that a pending retry falls before the deadline |
| OpSafety.StepKeeps | local/logout-delivery.ts:37-155 | every step of every request, schedule and operator keeps references, epochs, unique events, row shape, leases, caps, one-time issuance and retention |
| OpSafety.RunKeeps | local/logout-delivery.ts:37-155 | the invariant holds in every state of every run from a fresh database |
| OpStepsDelivery.ClaimFits | local/logout-delivery.ts:68-70 | a claim that read an old clock still leaves at most max_inflight_per_client running leases now and later |
| OpStepsDelivery.SettleKeeps | local/logout-delivery.ts:118-142 | settling keeps the whole invariant whatever the status, headers and clock |
| OpStepsDelivery.RetryKeeps | local/logout-admin.ts:54-100 | an operator retry keeps the whole invariant |
| OpStepsDelivery.FanoutKeepsSent | local/logout-delivery.ts:40-56 | fanout keeps the record of notified client sessions exact: a row for each member before the flag, none twice |
| OpStepsLogout.LogoutKeeps | local/op.ts:667-676 | browser logout keeps the whole invariant |
| OpStepsLogout.RevokeAccountKeeps | local/account-admin.ts:17-53 | account revocation keeps the whole invariant; all sessions of the left epoch become dead at once |
| OpStepsLogout.ExpandKeeps | local/account-admin.ts:56-79 | expansion keeps the whole invariant |
| OpStepsIssue.FinishKeeps | local/op.ts:402-486 | the finish batch keeps the whole invariant, caps and one-time registration included |
| OpStepsIssue.MembershipFrozen | local/op.ts:156-175 | a live session has no logout event, so issuing a code never changes the membership of a stored event |
| OpStepsGc.CollectKeeps | local/gc.ts:19-73 | deleting any doomed rows of any table keeps the whole invariant |
| OpDeliveryTheorems.InFlightNeverExceeds | local/logout-delivery.ts:59-83 | in every reachable state and at every present or later time at most max_inflight_per_client leases of a client are running |
| OpDeliveryTheorems.RowsAlways | local/schema.sql:18-26 | shape of every reachable delivery row: lease iff leased, finish time iff finished, attempt bounds, due before the deadline, deadline agreement with its event and the event's retention |
| OpDeliveryTheorems.LeaseGoneForever | local/logout-delivery.ts:60-66 | a lease that no row holds any more is never held again |
| OpDeliveryTheorems.SettleTakesEffect | local/logout-delivery.ts:125-142 | a settlement changes something exactly when its row is still leased under it and the lease is running, and then releases the lease |
| OpDeliveryTheorems.SettledAtMostOnce | local/logout-delivery.ts:118-142 | over whole runs each claim is settled at most once |
| OpDeliveryTheorems.ClaimsCounted | local/logout-delivery.ts:65-65 | while a row is stored and no operator retry of its event commits, its attempt counter has counted exactly its claims |
| OpDeliveryTheorems.ClaimsBounded | local/logout-delivery.ts:65-68 | between committed operator retries a row is claimed at most max_attempts times, whatever retries are refused meanwhile |
| OpDeliveryTheorems.ExpireFinishes | local/logout-delivery.ts:144-155 | past every deadline and lease, one expire leaves no unfinished row |
| OpRowLaw.WindowIsCap | local/logout-delivery.ts:98-99 | the backoff window is base_delay, doubled by each further attempt up to 52 times, and cut off at max_delay |
| OpRowLaw.NextIsDue | local/logout-delivery.ts:98-113 | the next attempt is the earliest whole second that lies neither before the drawn point of the window nor before a usable Retry-After |
| OpRowLaw.RowStep | local/logout-delivery.ts:59-155 | what one step of any kind does to a stored delivery row, field by field: claim, answer, expiry, operator retry, and nothing else |
| OpRowLaw.RowBorn | local/logout-delivery.ts:40-48 | rows come only from fanouts: pending, due from their event's creation, until their event's deadline |
| OpLeaseTheorems.ClaimableExactly | local/logout-delivery.ts:66-71 | a row can be claimed exactly if it is pending or its lease has ended, it is due, before its deadline, with attempts left and room for its client |
| OpLeaseTheorems.ClaimTakesFirst | local/logout-delivery.ts:66-71 | a claim is empty exactly if nothing can be claimed, and otherwise takes the row that is due first, ties by id |
| OpLeaseTheorems.LeaseLasts | local/logout-delivery.ts:59-83 | over runs: from a claim at reading a on, the row is stored and leased under the same lease until a + lease_ttl, unless its settlement took effect, or a claim of it or an expiry came with a reading of at least a + lease_ttl |
| OpLeaseTheorems.NobodyElseClaims | local/logout-delivery.ts:66-71 | over runs: nobody claims a leased row again with a reading below a + lease_ttl before the lease has ended |
| OpLeaseTheorems.SettlesInTime | local/logout-delivery.ts:118-142 | over runs: a settlement under its lease with a reading below a + lease_ttl takes effect unless the lease has ended, and status, attempts, Retry-After and deadline decide state, due time, finish time and retention of the row |
| OpLeaseTheorems.ClaimableAgainExactly | local/logout-delivery.ts:59-83 | over runs: while nothing has ended the lease the row can be claimed again exactly from a + lease_ttl on, within due time, deadline, attempts and its client's room |
| OpLeaseTheorems.PendingLasts | local/logout-delivery.ts:66-71 | over runs: a pending row waits unchanged until a claim between its due time and its deadline, or an expiry after the deadline |
| OpLeaseTheorems.FinishedLasts | local/logout-delivery.ts:118-155 | over runs: a finished row stays unchanged until an operator retry of its event commits or a collection comes after its deadline and retention |
| OpLeaseTheorems.TriedWithinDeadline | local/logout-delivery.ts:21-36 | over runs: a notification of an event that no operator has extended is only tried before the deadline it was recorded with, for a browser logout retry_deadline after its reading |
| OpEventTheorems.MembershipFrozenStep | local/logout-delivery.ts:37-48 | while an event row is stored its session is permanently dead and no step adds or removes one of its client sessions |
| OpEventTheorems.EventLifetime | local/logout-delivery.ts:37-57 | over the lifetime of an event row its deadline, retention, revision and flag only grow and the membership at any two moments is the same |
| OpEventTheorems.FanoutNeverRepeats | local/logout-delivery.ts:45-47 | a fanout only inserts rows for client sessions that never had one for this event row |
| OpEventTheorems.ExpandedMissesNone | local/logout-delivery.ts:50-56 | a set expanded flag means that exactly the members of the session have been queued |
| OpEventTheorems.OneRowPerMember | local/logout-delivery.ts:37-57 | within one event row's lifetime no two fanouts insert a row for the same client session, even after the first row was collected |
| OpEventTheorems.DeliveredAbsorbs | local/logout-admin.ts:92-99 | rows keep event and key, and a delivered row never changes until it is deleted |
| OpEventTheorems.DeliveredNeverResent | local/logout-admin.ts:92-99 | a delivered notification is never queued again while its event row lives |
| OpEventTheorems.RetryAllOrNothing | local/logout-admin.ts:54-100 | a retry is all or nothing; when it commits it raises revision and deadline, never lowers retention and requeues exactly the failed and expired rows |
| OpEventTheorems.RetryOncePerRevision | local/logout-admin.ts:59-66 | at most one retry commits per event row and revision |
| OpRetryConflict.RetryRefusedExactly | local/schema.sql:44-49 | under its guard a retry is refused exactly if an audit row of the same event id and revision, or of its own operation id, is stored |
| OpRetryConflict.LegitimateRetryRefused | local/logout-admin.ts:54-100 | under every policy a state is reachable in which the guard of a retry holds, its operation id is new, and it is refused: the event was retried, collected without its session, and created again by a second account revocation |
| OpAccountTheorems.GeneratedEvent | local/account-admin.ts:62-71 | the generated event carries the earliest creation time and deadline of the covering revocations and is retained at least as long as each of them and the session |
| OpAccountTheorems.ExpandCommits | local/account-admin.ts:58-63 | reusing the session id as event id never collides in a reachable state |
| OpAccountTheorems.ExpandedExactly | local/account-admin.ts:72-77 | a revocation is marked expanded exactly when every session it covers has a logout event |
| OpAccountTheorems.UncoveredShrinks | local/account-admin.ts:56-79 | k consecutive expansions leave exactly max(0, n - k * batch) of n uncovered sessions |
| OpAccountTheorems.ExpansionRounds | local/account-admin.ts:56-79 | k >= 1 expansions finish all revocations if and only if n <= k * batch |
| OpExpansionTheorems.NothingUncovered | local/account-admin.ts:58-71 | apart from a committed account revocation no step of any request, schedule or operator adds a session without its event: new sessions have the new epoch, and the event of a pursued session is not collected |
| OpExpansionTheorems.UncoveredBounded | local/account-admin.ts:56-79 | under any interleaving without a new revocation, k expansion calls leave at most max(0, n - k * batch) of n uncovered sessions |
| OpExpansionTheorems.ExpansionFinishes | local/account-admin.ts:72-79 | under any interleaving without a new revocation, once k >= 1 calls had room for all n sessions every revocation is expanded, and stays so |
| OpFanoutTheorems.NothingMissing | local/logout-delivery.ts:40-49 | apart from creating an event no step of any request, schedule or operator adds a missing delivery row: the members of a stored event are frozen and the rows of an event that still lacks some are not collected |
| OpFanoutTheorems.MissingBounded | local/logout-delivery.ts:37-57 | under any interleaving without a new event, k fanout calls leave at most max(0, n - k * batch) of n missing rows |
| OpFanoutTheorems.FanoutFinishes | local/logout-delivery.ts:50-56 | under any interleaving without a new event, once k >= 1 calls had room for all n rows every event is flagged expanded, and stays so |
| OpAccountTheorems.EpochStaysClosed | local/op.ts:465-477 | once an account has left an epoch no step of any kind adds a session of that epoch |
| OpAccountTheorems.NoSessionEscapes | local/account-admin.ts:72-77 | every session that a revocation covers at any time after it was marked expanded had its event when it was marked |
| OpHistory.HistoryStep | local/op.ts:667-676 | no step rewrites what was issued, accepted or revoked; the first revocation time of a client session stands |
| OpHistory.HistoryKept | local/op.ts:584-606 | over runs the clock does not go back and the history only grows |
| OpIssuanceTheorems.IssuedAtMostOnce | local/op.ts:402-486 | every reachable state: one code per login transaction, one account per invitation, one administrator, and both session caps now and later |
| OpIssuanceTheorems.LoginIssuesOnce | local/op.ts:123-197 | whichever path issued the code of a login transaction, every later attempt on it changes nothing |
| OpIssuanceTheorems.ReacceptedLater | local/op.ts:508-523 | a jti is accepted again only under an assertion that expires more than skew plus grace after the first |
| OpIssuanceTheorems.NoAssertionReplay | local/op.ts:508-523 | no client assertion is accepted twice over a run, collection included (section 3 of RFC 7523) |
| OpIssuanceTheorems.JtiReusableExactly | local/op.ts:489-525 | for every policy and pair of expiries: a run accepts a bare jti under the first and again under the second if and only if the first can be accepted at all and the second is more than skew plus grace later |
| OpIssuanceTheorems.JtiComesBack | local/gc.ts:27-27 | under the example policy a bare jti is accepted twice, under expiries 60 and 86530 |
| OpCodeTheorems.CodesStep | design/sql/exchange-code.sql:4-21 | no step recreates a code or un-consumes one |
| OpCodeTheorems.CodeRedeemedOnce | design/sql/exchange-code.sql:4-40 | a code is exchanged at most once over a run, also after it has been collected |
| OpWrites.Untouched | local/op.ts:60-727 | every step leaves the tables it does not write as they are |
| OpIssueLaw.IssueCommits | local/op.ts:123-178 | a code is issued exactly for an unspent, unexpired login of this browser and a session live at commit, with client and connection active and room for one more client session |
| OpIssueLaw.IssueRows | local/op.ts:144-189 | the rows an issued code leaves: code until the earlier of code_ttl and the session's end, nonce, spent login, client session, and longer retention |
| OpIssueLaw.CreateCommits | local/op.ts:465-477 | a session is created exactly for an active account below its cap |
| OpIssueLaw.CreateRows | local/op.ts:465-483 | a new session lives sso_absolute_ttl from the reading, under the account's current epoch, and is retained for its own and the audit time |
| OpIssueLaw.AuthenticateCommits | local/op.ts:402-462 | authentication succeeds exactly within an open login and ceremony of the same browser, behind an open invitation, or with an active credential of an active account in the epoch that was read |
| OpIssueLaw.AuthenticateRows | local/op.ts:405-462 | the rows authentication leaves: spent ceremony, and for a registration the spent invitation, the account, its credential, and the administrator of a bootstrap |
| OpIssueLaw.ExchangeCommits | design/sql/exchange-code.sql:4-21 | a code is exchanged exactly once, with running keys, before it expires, while its client session is eligible and the client's registration is unchanged |
| OpIssueLaw.ExchangeRows | design/sql/exchange-code.sql:23-29 | the rows an exchange leaves: the spent code, and a token until the earlier of access_ttl and the session's end |
| OpSignIn.SignsInExactly | local/op.ts:402-486 | a sign-in commits exactly if login and ceremony are open, the owner is admitted (open invitation, or active credential in the epoch read and room below the cap), and client, connection, identifiers and session life admit it; otherwise nothing is written |
| OpQueries.SsoLookupExactly | local/op.ts:93-100 | which sessions a cookie signs in to, as a condition on the rows |
| OpQueries.SessionCheckExactly | design/sql/oidc-critical-schema.sql:76-95 | which client sessions the check confirms, over both views at once, and the end and authentication time it answers |
| OpQueries.UserInfoExactly | local/op.ts:607-617 | which bearer tokens are answered: confirmed client session, issued for it, neither revoked nor expired |
| OpOrigins.CodeStep | local/op.ts:178-189 | codes come only from issuing steps, and a stored code changes only by being exchanged |
| OpOrigins.CodeKept | local/op.ts:178-189 | over runs: a code keeps its client session, revision and expiry, and its identifier is never used for another |
| OpOrigins.CodeIssuedFor | local/op.ts:168-189 | over runs: a code first stored by step i was issued by it, for the client session it names, and expires at the earlier of its reading plus code_ttl and the session's end |
| OpOrigins.CodeRedeemedInTime | design/sql/exchange-code.sql:4-29 | over runs: a committed exchange of that code comes before both bounds, is for that client session, and its token ends within access_ttl of the exchanging reading |
| OpLifetimes.CeremonyStarts | local/op.ts:291-311 | a ceremony starts exactly within an open login, lasts ceremony_ttl, and spends the earlier ones of the login |
| OpLifetimes.LoginOrigin | local/op.ts:242-255 | over runs: every stored login was opened by a step of the run, with expiry and retention from its reading |
| OpLifetimes.LoginEndsInTime | local/op.ts:75-92 | over runs: a code is only issued within transaction_ttl of the opening of its login, by the browser that opened it |
| OpLifetimes.CeremonyOrigin | local/op.ts:295-311 | over runs: every stored ceremony was started by a step of the run, for its login, account, invitation and browser |
| OpLifetimes.CeremonyEndsInTime | local/op.ts:405-412 | over runs: authentication completes only within ceremony_ttl, in the browser that started it, after fewer than max_failures failures |
| OpLifetimes.SessionStep | local/op.ts:465-483 | sessions come only from finished authentications; a stored one is only revoked by its logout or retained longer by what is issued in it |
| OpLifetimes.SessionOrigin | local/op.ts:465-483 | over runs: every stored session was created by a finished authentication, with expiry and retention from its reading |
| OpLifetimes.ContextOrigin | local/op.ts:478-478 | over runs: a stored context and its session come from the same authentication |
| OpLifetimes.SignedInInTime | local/op.ts:93-100 | over runs: a cookie is only recognised within sso_absolute_ttl of the authentication that set it, whose reading is the reported authentication time |
| OpLifetimes.TokenOrigin | design/sql/exchange-code.sql:23-29 | over runs: every stored token was issued by an exchange of its code, until access_ttl or the session's end |
| OpLifetimes.TokenEndsInTime | local/op.ts:526-583 | over runs: a bearer token is only answered within access_ttl of the exchange that returned it and before its session's end |
| OpLifetimes.LogoutTxOrigin | local/op.ts:638-645 | over runs: every stored logout transaction was started by a step of the run, for its session and browser |
| OpLifetimes.LogoutEndsInTime | local/op.ts:660-671 | over runs: a logout is only confirmed within transaction_ttl of its start, for the session it named |
| OpLifetimes.RateExactly | local/op.ts:62-74 | a hit keeps its rate window at least as long as it asks for and never shorter than before |
| OpRevocationLaw.LogoutExactly | local/op.ts:660-676 | when a logout commits, and its rows: the session and all its client sessions revoked, the event with deadline and longest retention, the transaction spent |
| OpRevocationLaw.LoggedOutForGood | local/op.ts:667-676 | over runs: after a committed logout its session is never live again, so no cookie, client session or check of it succeeds |
| OpRevocationLaw.RevokeExactly | local/account-admin.ts:28-52 | when an account revocation commits, and its rows: the next epoch, and a record with deadline and retention |
| OpRevocationLaw.RevokedForGood | local/account-admin.ts:31-34 | over runs: after a committed revocation every live session of the account belongs to a later epoch |
| OpRevocationLaw.RevocationOrigin | local/account-admin.ts:36-51 | over runs: every stored revocation was recorded by a step of the run, with the time it gives to delivery |
| OpRevocationLaw.EventStep | local/account-admin.ts:58-71 | what one step of any kind does to the events: a logout or an expansion records one, a fanout flags, an operator retry extends |
| OpRevocationLaw.EventOrigin | local/logout-delivery.ts:21-36 | over runs: every stored event was recorded by a logout or an expansion; at revision 0 it still has the deadline and retention it was recorded with |
| OpRevocationLaw.RetryAudited | local/logout-admin.ts:67-86 | a committed retry writes its audit row with old and new deadline and retention; audit rows never change |
| OpGcTheorems.CollectInvisible | local/gc.ts:8-17 | deleting any doomed rows at time a changes no session lookup, login, ceremony, eligibility, session-check, UserInfo, logout-transaction or token-endpoint code answer at any t >= a |
| OpGcPasses.BudgetKept | local/gc.ts:86-104 | a pass deletes at most gc_batch_size rows |
| OpGcPasses.CutSafe | local/gc.ts:91-103 | wherever a pass stops, every child row has its parent and the invariant holds |
| OpGcPasses.PassInvisible | local/gc.ts:86-107 | a whole pass, at every cut, is invisible to authentication at every later time |
| OpRemovalTheorems.RowsKept | local/gc.ts:37-49 | only a collection of the table itself ever removes a delivery or an event, whatever else runs |
| OpRemovalTheorems.OnlyFinishedDisappear | local/gc.ts:37-42 | over whole runs: a delivery stored at one point and gone later was, at a step in between, finished, unleased and past retention, and that step collected it |
| OpRemovalTheorems.OnlyExhaustedEventsDisappear | local/gc.ts:43-48 | over whole runs: an event stored at one point and gone later was, at a step in between, expanded, without any row, past retention and not pursued by a revocation, and that step collected it |
| OpGcPasses.PassSize | local/gc.ts:100-104 | the count of a pass is exactly the number of rows that disappeared |
| OpGcPasses.WholeTableDoomed | local/gc.ts:19-73 | in a quiescent database a table whose blockers are gone can lose every row |
| OpGcPasses.CountZeroMeansEmpty | local/gc.ts:86-107 | on a quiescent database a pass reports 0 exactly when nothing is left |
| OpGcPasses.CollectionConverges | local/gc.ts:19-107 | repeated passes strictly shrink a quiescent database, and n / gc_batch_size + 2 of them empty n rows although two tables precede the rows that block them |
| OpRetention.DoomedExactly | local/gc.ts:10-71 | the fifteen DELETE statements select exactly the expendable rows, spelled out per table |
| OpRetention.OnlyCollectionsRemove | local/gc.ts:91-101 | no step but a collection removes a row of any collected table, apart from a confirmed logout spending its transaction |
| OpRetention.NothingCollectedEarly | local/gc.ts:19-71 | over runs: a row of any table stored at one point and gone later was expendable when a collection of its table took it |
| OpRetention.TransactionsRetained | local/gc.ts:20-25 | over runs: logins, ceremonies and logout transactions are collected only skew and grace after their own time, counted from the reading that started them |
| OpRetention.RecordsRetained | local/gc.ts:64-71 | over runs: sessions, contexts and revocations are collected only skew and grace after their own and the audit time |
| OpRetention.EventRetained | local/gc.ts:43-48 | over runs: an event is collected only after the retention it was recorded with |
| RpInvariants.StepKeeps | local/rp.ts:64-256 | every step of every request, of the provider and of the collector keeps leases, bounds, tombstones and paused requests consistent |
| RpInvariants.RunKeeps | local/rp.ts:64-256 | the invariant holds in every state of every run |
| RpInvariants.PausedCallbackFails | local/rp.ts:178-182 | a callback paused across a back-channel logout of its sid cannot insert a session: the tombstone is there or its lease has run out |
| RpInvariants.NotifyingBound | local/rp.ts:235-252 | the tombstone outlives every lease granted before the revocation |
| RpTheorems.NoResurrection | local/rp.ts:229-255 | after a back-channel logout has committed no later state holds a session of that sid, paused callbacks and collected tombstones included |
| RpTheorems.BoundedStaleness | local/rp.ts:82-111 | a request is only accepted on a lease checked before the revocation plus lease_ttl |
| RpTheorems.SessionBounds | local/rp.ts:175-203 | lease and idle bounds stay within the parent's, which is the provider's, and no sid has both a tombstone and a session |
| RpTheorems.OnTimeWhileLeased | local/rp.ts:105-110 | a request whose stored lease is running at commit is accepted before the revocation plus lease_ttl |
| RpTheorems.LateExactly | local/rp.ts:105-110 | for all bounds, revocation time r and commit time c: a run accepts a request at c, lease_ttl or more after r, if and only if the stored lease was granted by then (at most r + lease_ttl, so it has run out) and c is within the idle and parent bounds |
| RpTheorems.LateAcceptance | local/rp.ts:105-110 | under the example policy a request is accepted 400 seconds after the revocation although lease_ttl is 300, because the last UPDATE does not look at the lease again |
| RpSessionLaw.CheckedExactly | local/rp.ts:64-81 | which answers of the provider are good, and the lease, parent and idle bounds they give |
| RpSessionLaw.CallbackExactly | local/rp.ts:175-203 | when a callback commits and which sessions it leaves: the old one of the browser gone, the new one with its checked bounds, no other changed |
| RpSessionLaw.RefreshExactly | local/rp.ts:93-98 | a refresh commits exactly against the lease that was read without tombstone, and changes only the lease, up to the parent's end |
| RpSessionLaw.TouchExactly | local/rp.ts:105-110 | the last UPDATE finds its session exactly within idle and parent bound without tombstone, and moves the idle bound to idle_timeout from the reading or the parent's end |
| RpSessionLaw.BackchannelExactly | local/rp.ts:229-255 | drops exactly the sid's sessions, remembers the token, and leaves a tombstone of exactly the longest time that it has to outlive |
| RpSessionLaw.LocalLogoutExactly | local/rp.ts:286-297 | drops the browser's session and opens a transaction for transaction_ttl |
| RpSessionLaw.FinishLogoutExactly | local/rp.ts:270-278 | the return counts exactly for the browser that logged out, before expiry, once |
| RpSessionLaw.SessionStep | local/rp.ts:82-203 | sessions are opened only by committed callbacks under unused secrets; a stored one only moves its lease by refresh and its idle bound by accepted requests |
| RpSessionLaw.ReplacedForGood | local/rp.ts:190-203 | over runs: after a callback committed in a browser with a session, no later state holds a session under the old secret |
| RpSessionLaw.LocalLogoutForGood | local/rp.ts:287-289 | over runs: a local logout is final for its cookie |
| RpSessionLaw.IdleEnds | local/rp.ts:105-110 | over runs: a request is only accepted before idle_timeout has passed since an earlier accepted one on the session, or within the bounds of its opening check |
| RpSessionLaw.TombstoneLasts | local/rp.ts:229-252 | over runs: a back-channel logout blocks its sid until skew and grace after any session, redelivery, login, or code with its token that was under way |
| RpSessionLaw.LoginEndsInTime | local/rp.ts:145-182 | over runs: a session is only opened within transaction_ttl of the start of a login |
| RpSessionLaw.SessionLasts | local/rp.ts:82-255 | over runs: a session stays with its subject and parent bound until a new login in its browser, its logout, its sid's logout, or a collection skew and grace after its parent's end |
| RpSessionLaw.DoomedExactly | local/gc.ts:74-81 | the five DELETE statements select exactly the expendable rows, spelled out per table |
| RpSessionLaw.CollectedOnly | local/gc.ts:91-101 | a collection removes only expendable rows of its own table |
| RpCollection.CollectInvisible | local/gc.ts:74-83 | relying party collection changes no later session, login or logout-transaction lookup |
| RpCollection.PassCount | local/gc.ts:86-107 | a pass over ripe tables deletes exactly min(gc_batch_size, size) rows |
| RpCollection.CollectionConverges | local/gc.ts:74-107 | k passes leave exactly max(0, n - k * gc_batch_size) of n ripe rows |
| RpStore.Store.BeginCallback | local/rp.ts:145-152 | the login transaction is consumed exactly once, by the matching browser, before it expires |
| RpStore.Store.Bound | local/rp.ts:64-81 | the lease is counted from before the request, capped by the parent and running when it is handed on |
| RpStore.Store.CommitCallback | local/rp.ts:179-203 | commits exactly without tombstone and with a running lease and transaction; then the browser's old session is gone, the new one has the checked lease, parent and idle bounds, and no other session changes; a failed batch leaves the sessions alone |
| RpStore.Store.BeginCurrent | local/rp.ts:82-92 | finds exactly a session within its idle and parent bounds and without tombstone, and has to ask the provider exactly when the lease has run out |
| RpStore.Store.SendCheck | local/rp.ts:64-66 | the lease of a refresh counts from the clock reading at which the check is sent, which may be later than the reading of the SELECT |
| RpStore.Store.CommitRefresh | local/rp.ts:93-99 | writes a lease only over the lease that was read and for the sid that was checked |
| RpStore.Store.CommitTouch | local/rp.ts:105-110 | accepts exactly a session that is still within its bounds and without tombstone at commit |
| RpStore.Store.LatestParent | local/rp.ts:237-237 | the latest parent expiry over the sid's sessions, 0 if there are none |
| RpStore.Store.CommitLogout | local/rp.ts:229-255 | records the token, raises the tombstone and removes every session of the sid in one batch |
| RpStore.Store.LocalLogout | local/rp.ts:286-297 | drops the session and opens the logout transaction together |
| RpStore.Store.FinishLogout | local/rp.ts:270-278 | the logout transaction is spent once, by its browser |
| RpStore.Store.Collect | local/gc.ts:86-107 | the relying party's pass is a legal pass and keeps the invariant |
| Protocol.ActiveIsLive | local/op.ts:584-606 | an active answer is only given for an unrevoked session, with its real, unexpired parent bound |
| Protocol.TokensAreForRevoked | local/logout-delivery.ts:157-182 | logout tokens are only sent for revoked client sessions |
| Protocol.PartyRefines | local/rp.ts:64-81 | every relying party step in the system is a step of its machine with an honest provider |
| Protocol.ProviderRefines | local/op.ts:584-606 | every provider step is a legal change of the relying party's view |
| Protocol.OnlySettleDelivers | local/logout-delivery.ts:92-92 | only a 2xx settlement under the row's own lease makes a row delivered |
| Protocol.NoResurrection | local/rp.ts:208-256 | in the composed system a notified sid never has a session again |
| Protocol.DeliveredMeansGone | local/logout-delivery.ts:232-247 | when the provider has recorded a delivery, the relying party holds no session of that sid, then or later (sections 2.5 to 2.7 of OpenID Connect Back-Channel Logout 1.0) |
| Protocol.BoundedStaleness | local/rp.ts:64-104 | even without any notification a request is only accepted on a lease checked before the provider's revocation plus lease_ttl |
| Protocol.OnTimeWhileLeased | local/rp.ts:105-110 | in the composed system a request accepted while its stored lease is running is accepted before the provider's revocation plus lease_ttl, by commit time |
| Protocol.SessionsAreProviders | local/rp.ts:175-203 | every relying party session is one the provider opened and ends no later than its parent there |
| SqlLexerTheorems.TokenCut | scripts/production-baseline.ts:9-65 | a token is recognised again from its own characters followed by layout, a comment or the end; only a minus sign must not be followed directly by another |
| SqlLexerTheorems.LexAppend | scripts/production-baseline.ts:9-65 | the tokens of a, a line feed and b are those of a followed by those of b, failing exactly if b does |
| SqlLexerTheorems.RoundTrip | scripts/production-baseline.ts:5-8 | printing the tokens of any text with spaces and reading them back gives the same tokens |
| SqlLexerTheorems.LayoutIrrelevant | scripts/production-baseline.ts:5-8 | a text of tokens with gaps of layout and comments before, between and after them reads as these tokens if and only if no line comment stands directly after a minus sign |
| SqlLexerTheorems.WeaveRead | scripts/production-baseline.ts:12-32 | however tokens are laid out, exactly those that their gaps keep apart are read: a minus sign directly before a line comment is lost, everything else stays |
| SqlLexerTheorems.SeparatesExactly | scripts/production-baseline.ts:19-23 | a gap keeps a token apart from any text after it exactly if it is not a line comment directly after a minus sign |
| SqlLexerTheorems.CommentedMinus | scripts/production-baseline.ts:19-23 | the input that fails: `---x`, a line feed and `1` reads as `1` alone, with a space after the first minus sign as two tokens |
| SqlLexerTheorems.OnlyLayoutDropped | scripts/production-baseline.ts:12-63 | nothing but layout and comments is dropped: every text that tokenizes is its tokens with such gaps before, between and after them, the last comment possibly closed by the end of the text |
| SqlLexerTheorems.QuotedIsOneToken | scripts/production-baseline.ts:39-57 | any bytes quoted by doubling form exactly one token, verbatim |
| SqlLexerTheorems.BracketedIsOneToken | scripts/production-baseline.ts:39-57 | a bracketed body without a closing bracket is one token |
| SqlLexerTheorems.QuotingIsInjective | scripts/production-baseline.ts:39-57 | the body can be read off the quoted token, so different bodies give different tokens |
| SqlTokens.NumberExactly | scripts/production-baseline.ts:58-58 | the longest hexadecimal or decimal number at the head of a text, and when there is one |
| SqlTokens.TokenExactly | scripts/production-baseline.ts:33-62 | the scanner takes n characters as a token exactly if they are the longest token of the language that the text starts with; names, numbers, operators, blobs and quotes are defined by shape, apart from the scanner |
| SqlTokens.SkipExactly | scripts/production-baseline.ts:14-32 | it skips n characters exactly if they are all leading layout, a line comment with its line end, or a block comment up to its first closing mark |
| SqlTokens.LexExactly | scripts/production-baseline.ts:9-65 | the tokens are exactly those the text consists of, each as long as possible with layout and comments around them, and there are none exactly if it cannot be taken apart so |
| SqlTokens.OperatorsRead | scripts/production-baseline.ts:58-58 | each of the 27 operators, alone, is one token |
| SqlTokens.CanonicalExactly | scripts/production-baseline.ts:5-65 | the canonical form is those tokens without one last semicolon |
| SqlCanonical.ScanQuote | scripts/production-baseline.ts:40-54 | the inner loop finds exactly the closing quote, skipping doubled ones except between brackets |
| SqlCanonical.CanonicalSql | scripts/production-baseline.ts:9-65 | the index-driven scanner returns Canonical of the text, or fails where the tokenizer does; SqlTokens.CanonicalExactly says what that is without the scanner |
| SqlCanonical.CanonicalAgain | scripts/production-baseline.ts:63-64 | canonicalizing printed tokens again changes nothing exactly if they do not end in a semicolon |
| SqlCanonical.TwoSemicolons | scripts/production-baseline.ts:63-64 | the input that fails: two semicolons give one, and printing and canonicalizing that gives none |
| SqlCanonical.CanonicalSchema | scripts/production-baseline.ts:72-74 | succeeds exactly if every row tokenizes, and keeps the other columns |
| SqlCanonical.SchemasEqual | scripts/production-baseline.ts:72-104 | two schemas compare equal exactly if they list the same objects with the same canonical SQL |
| CanonicalJson.KeysAreSorted | scripts/policy-design.ts:179-180 | keys are printed in sorted order, each once |
| CanonicalJson.SamePrints | scripts/policy-design.ts:176-184 | values that differ in insertion order only print the same |
| CanonicalJson.PrintExactly | scripts/policy-design.ts:176-184 | two values print the same exactly if they differ in insertion order only; what the text says is JsonReader.PrintedExactly |
| JsonReader.PrintedReads | scripts/policy-design.ts:176-184 | a strict JSON reader defined apart from the printer reads the printed text as the same value, with the keys of every record in increasing order |
| JsonReader.PrintedExactly | scripts/policy-design.ts:176-184 | a text is what canonicalJson prints for a value if and only if the strict reader takes all of it, as the same value, with increasing keys |
| PolicyDesign.FlattenTables | scripts/policy-design.ts:64-72 | the loop computes the leaves by dotted path, later entries replacing earlier ones |
| PolicyDesign.CheckTables | scripts/policy-design.ts:80-88 | accepts exactly nested records at known table paths |
| PolicyDesign.NormaliseLimits | scripts/policy-design.ts:101-113 | normalises every limit, or stops at the first unacceptable key in sorted order |
| PolicyDesign.Validate | scripts/policy-design.ts:78-174 | accepts exactly known tables with the expected keys, version 1, acceptable values and all cross-field rules; says which check failed |
| PolicyRevision.DurationsExactly | scripts/policy-design.ts:103-107 | a duration is accepted exactly if it is a printed positive whole number and a unit, and means that many seconds, minutes, hours or days |
| PolicyRevision.AcceptedIsPolicy | scripts/policy-design.ts:114-174 | every accepted configuration satisfies all inequalities that the protocol proofs assume |
| PolicyRevision.RevisionsExactly | scripts/policy-design.ts:186-190 | two revision texts are equal exactly if the flattened, unit-normalised maps are |
| PolicyRevision.DigestsExactly | scripts/policy-design.ts:186-190 | so are their digests, if the digest does not collide on the two texts |
| PolicyOrder.OrderIrrelevant | scripts/policy-design.ts:64-72 | reordering keys and tables of a configuration at any depth keeps its revision |
| PolicyText.FlattenExactly | scripts/policy-design.ts:64-72 | flattening finds exactly the leaves, each under its dotted path, the last one where several stand at the same path |
| PolicyText.RevisionReads | scripts/policy-design.ts:186-190 | the text behind a revision reads as one record: exactly the expected keys in increasing order, each with its normalised number |
| PolicyRevision.ValuesExactly | scripts/policy-design.ts:101-112 | a limit is accepted exactly as a duration text or a count, as its key asks for, between 1 and 2147483647 |
| Mds.NeverRollsBack | local/mds.ts:173-197 | over runs with any number of processes the serial never decreases, and while it stays so do its token and first-seen time |
| Mds.SerialExpires | local/mds.ts:157-166 | a serial first accepted at t0 is not usable after t0 + max_age, however often it is accepted again |
| Mds.RegistrationNeverRollsBack | local/mds.ts:198-203 | over runs with any number of processes a registration only gets metadata first accepted and issued at most max_age before, under the 3.0 profile not past its next update, never an older serial than an earlier registration got, and the same token for the same serial |
| Mds.ChannelFixed | local/mds.ts:112-132 | once chosen the channel of a database never changes |
| Mds.SnapshotOnlyByAcceptance | local/mds.ts:246-253 | nothing but a committed acceptance changes the snapshot |
| Mds.AcceptsExactly | local/mds.ts:141-197 | when a BLOB is accepted, field by field: profile, anchor, serial, token of the same serial, issue time, first sighting, next update; what is then stored; and that a rejected one changes nothing |
| Mds.SameChannelSameRules | local/mds.ts:112-120 | processes that share a channel validate alike |
| Mds.UsableExactly | local/mds.ts:198-203 | when a registration gets metadata, field by field: the stored BLOB verifies again at the time of the call and it and its serial are fresh then |
| Mds.OpensExactly | local/mds.ts:93-133 | when a process may use the row: configuration within bounds and the row unused or of the same channel; what opening changes |
| MdsStore.Unique | local/mds.ts:235-238 | each address once, none lost |
| MdsStore.Store.Open | local/mds.ts:93-133 | opens exactly with a valid configuration on an unused row or the same channel; a refusal changes nothing |
| MdsStore.Store.Accept | local/mds.ts:173-197 | the transaction is the specification's acceptance, and a rejection leaves the row alone |
| MdsStore.Store.Refresh | local/mds.ts:227-255 | success is an acceptance of what was downloaded; failure only records time and reason |
| RecipientKeys.StepKeeps | scripts/recipient-key-admin.ts:87-282 | every read and batch of every operator keeps one active key and the audit, and moves keys only forward by one revision |
| RecipientKeys.OneActiveAlways | crates/worker/migrations/0001_owner_vault_initial.sql:996-997 | at most one key is active in every reachable state, without help from the index, and every revision has its audit row |
| RecipientKeys.ForwardOnly | crates/worker/migrations/0001_owner_vault_initial.sql:1640-1665 | over runs keys stay, states move forward, the revision counts the changes and identities never change |
| RecipientKeys.RotationLeavesOne | scripts/recipient-key-admin.ts:242-281 | a committed rotation leaves exactly one active key, the new one, whatever ran since its reads |
| RecipientKeys.DisableExactly | scripts/recipient-key-admin.ts:128-146 | exactly when disabling takes effect and exactly when it appends a second audit row without effect |
| RecipientKeys.DoubleAudit | scripts/recipient-key-admin.ts:128-146 | a run in which two operators leave two audit rows for one revision |
| RecipientKeyStore.KeyStore.Stage | scripts/recipient-key-admin.ts:87-111 | a staged key and its audit row are inserted together or not at all |
| RecipientKeyStore.KeyStore.CommitActivate | scripts/recipient-key-admin.ts:187-211 | the guarded activation batch, or no change |
| RecipientKeyStore.KeyStore.CommitRotate | scripts/recipient-key-admin.ts:242-281 | both guarded updates or none; afterwards only the new key is active |
| RecipientKeyStore.KeyStore.CommitDisable | scripts/recipient-key-admin.ts:128-146 | the unguarded batch and the check of the change counts after it |
| RecipientKeyStore.KeyStore.ReadActivate | scripts/recipient-key-admin.ts:177-188 | reads a staged key's revision exactly when no key is active |

## Left out

- HTTP routing, cookies, HTML, JSON and form bodies, CSRF checks and redirects: plumbing around the modelled batches.
- JWT signatures, SHA-256, PKCE and WebAuthn verification: tokens are records that have been verified, digests are injective.
- The credential counter of WebAuthn is compared and set in the same batch as the login; that comparison is not modelled, so
  the model allows more interleavings than the code.
- Subject identifiers (table `subject`) and the `sub` comparison at the provider: the relying party model compares `sub`, but the
  provider model answers any.
- Rate limits: the window rows and their collection are modelled, the counts are not.
- The limit on pending logins per browser is read outside the inserting statement in the source and is not modelled.
- Clock skew between the parties, which the single clock excludes; `clock_skew` still enters every retention bound.
- `deliveryHealth` and the operator listings: reports without effect.
- A promise that a session is notified only once ever: after its event row has been collected, and before the session row is, a
  new account revocation may create the event again, as `OpEventLives` does. Uniqueness is stated per lifetime of an event row.
- Column order and key order by UTF-16 code units in `canonicalJson`: the model sorts keys by characters; every result holds for
  the order used. Numbers are integers, as `validate` only lets integers through.
- Characters outside the Basic Multilingual Plane count as one identifier character in the tokenizer model and as two in the source.
- `destination` and `download` of the metadata store: the network is a function from addresses to texts.
- `validatePublicRecord`: an operator's record is taken as checked.
- Client registration, the Svelte interface, deployment and release scripts, and the Rust workers.
- Nothing of the original program is executed here; what is proved is proved of the model.
