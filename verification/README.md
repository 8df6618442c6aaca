# UniMail: what its token lifecycle, stores and unified inbox guarantee

UniMail connects mailboxes over OAuth, keeps their tokens alive and shows all inboxes as one.
This project models the part of it that decides things: which token is stored and refreshed,
which flow a callback consumes, which idle accounts are renewed, and which messages survive the
merge. It proves what holds in every run, and where the code breaks a promise, exactly when.

## How it is built

- `Tables`, `Database`, `Crypto`, `Rfc3339`, `Rfc3339Forms`, `Timestamps`: the SQLite tables as maps under the
  declared constraints; AES-256-GCM as any cipher whose decryption inverts its encryption;
  RFC 3339 text (section 5.6) as `chrono` prints and parses it.
- `AccountStore`, `TokenStore`, `Flows`: the three stores as classes over one connection.
  The token rows are encrypted text; a ghost field holds the plain map they stand for.
- `TokenRules`, `TokenManager`, `Graph`, `Renewal`: one call after another. The classes' methods
  are proved against functions on the plain tables; the lemmas are about those functions.
- `Lifecycle` and the `Lifecycle...` files: the same operations as concurrent tasks. A task is a
  program counter with its locals, every store call is one step, and between any two steps any
  other task may run. The provider is ghost state: to whom each token was issued, and which
  refresh tokens a rotation has spent (RFC 6749, section 6). `LifecycleSolo` ties this machine
  to `TokenManager`: a refresh, a use, a consent, a batch or a disconnect that runs while the
  other tasks rest does what the class promises. `LifecycleConsents` joins it to the flow registry,
  `LifecycleClient` to requests sent to Graph, `LifecycleRenewal` to the refresh loop.
- `MergeOrder`, `Inbox`, `UnifiedInbox`: the stable sort in place, the unified inbox, and which
  accounts it leaves out.

Four documented or natural promises are false of the code, and each is answered by a condition:

- *The newest refresh token is always stored.* `bump_last_used` writes back a token read earlier,
  without the refresh lock. `LifecycleChain.ChainHoldsIffClean`: the chain holds in exactly the
  runs in which no such write lands after a rotating refresh of the same account was written.
  `LifecycleScenarios.ChainCanBreak` is a run from the empty database that breaks it.
- *A disconnected account has no token* (`README.md:263`). Re-consent sets the status to active
  only on the struct it returns; the row stays disconnected under a new token.
  `LifecycleScenarios.PromiseBreaksFromScratch` is the run, `ReconnectionBreaksPromise` says it
  can happen to every disconnected account. `LifecyclePromise.PromiseHoldsIfUndisturbed` gives
  the schedules that keep the promise, and `PromiseKeptIffSafe` the states from which all of
  them do. The model follows the code.
- *One account per mailbox of a tenant, whatever the spelling.* The schema compares exactly; the
  case-insensitive lookup comes earlier. `LifecycleScenarios.TwinsFromScratch` is a run that makes
  two; `LifecycleAccounts.FoldUniqueIffNoOverlap` says which runs do not.
- *After a 401 the request is retried with a new token* (`src/provider/graph.rs:57-59`). Between
  the forced refresh and the second read another caller's pending bump may put the refused token
  back: `LifecycleScenarios.RefusedTokenIsSentAgain` is a run from the empty database.
  `LifecycleClient.RetrySendsRefusedIffBumped` says exactly when the refused token is sent again,
  `RetryIsPastIffRestored` when any token older than the refusal is, and `RetryIsNewIfBumpsApart`
  gives schedules on which it is not.

Assumptions: one process (the locks are local to it), a clock that never runs backwards, fresh
UUIDs and CSRF states, and a provider that never issues the same token twice and keeps the subject
of a refreshed token. Clock readings, provider replies, nonces and the order of unordered query
results are arguments or choices, so every result holds for all of them.

## Model

| member | source | states |
|---|---|---|
| LifecycleChain.ChainHoldsIffClean | src/auth/token.rs:148-189 | Over all interleaved runs: at every moment each stored refresh token is live, or the holder of that account's lock is past its exchange and carries the live one, if and only if no stale bump happened |
| LifecycleChain.StepKeepsChainIff | src/auth/token.rs:148-189 | One step of any task keeps the refresh-token chain exactly when it is not a bump that writes back a token rotated since and that no refresh in progress will overwrite |
| LifecycleChain.StaleBumpBreaksChain | src/auth/token.rs:243-257 | Such a bump leaves a spent refresh token stored with nobody left to replace it |
| LifecycleChain.BumpsApartKeepChain | src/auth/token.rs:148-189 | On the schedule alone: if no refresh writes its token while a cache hit of the same account is about to write back its own, the chain holds throughout |
| LifecycleChain.NoSpentTokenIsPresented | src/auth/token.rs:172-175 | In a run without a stale bump no refresh ever presents a spent refresh token |
| LifecycleChain.NoDeadlock | src/auth/token.rs:167-170 | While any task is unfinished some task can step, in every reachable state |
| LifecycleProgress.StepsAreBounded | src/auth/token.rs:89-240 | Once no more calls begin, the number of steps any run takes is at most a number computed from where the tasks stand and the accounts there are or may still come |
| LifecycleProgress.MaximalRunsFinish | src/auth/token.rs:167-170 | A reachable state allows no step exactly when every task is finished |
| LifecycleProgress.EveryTaskCanFinish | src/auth/token.rs:89-240 | From every reachable state some run without new calls finishes every task within that number of steps |
| LifecycleProgress.RemovedRefreshEndsInError | src/auth/token.rs:167-189 | A refresh whose account was removed has ended in an error in every run that can go no further, unless a consent re-created the row |
| LifecycleScenarios.ChainCanBreak | src/auth/token.rs:148-164 | A run from the empty database in which the chain holds until a bump that straddled a refresh breaks it |
| LifecycleScenarios.PendingBumpCanGoStale | src/auth/token.rs:149-152 | Any pending bump whose account's lock is free can be made stale by one rotating refresh |
| LifecycleScenarios.StaleBumpIsPresented | src/auth/token.rs:167-175 | Once a spent token is stored, the next refresh presents it |
| LifecycleScenarios.FirstConnection | src/auth/token.rs:89-145 | A consent from the empty database, step by step, to one connected account |
| LifecycleScenarios.TwinsCanArise | src/auth/token.rs:105-141 | From any reachable state a mailbox new to a tenant can end up as two accounts of two spellings |
| LifecycleScenarios.TwinsFromScratch | src/auth/token.rs:105-141 | Such a run from the empty database |
| LifecycleScenarios.ReconnectionBreaksPromise | src/auth/token.rs:109-115 | From any reachable state every disconnected account can be reconnected, and then its row is disconnected and has a token |
| LifecycleScenarios.PromiseBreaksFromScratch | src/auth/token.rs:139-142 | Connect, disconnect, reconnect, from the empty database: a disconnected row with a token |
| LifecycleLocks.MutualExclusion | src/auth/token.rs:167-170 | At most one task per account is between taking and releasing its lock, and no task ever holds two locks |
| LifecycleLocks.RunKeepsLocked | src/auth/token.rs:260-266 | The lock registry only grows and every held lock is held by the one task inside that account's refresh |
| LifecycleLocks.SomeTaskCanStep | src/auth/token.rs:167-170 | Under the lock invariant a task waiting for a lock always waits for one that can go on |
| LifecycleCustody.RunKeepsCustody | src/auth/token.rs:103-142 | Every stored or carried token was issued to the identity of the account it is filed under, in every interleaving, and no such record is ever altered |
| LifecycleCustody.StoredTokensAreTheirAccounts | src/auth/token.rs:103-142 | No schedule puts one account's token under another: both stored tokens were issued to an email equal to the account's up to ASCII case, and no two accounts share a refresh token |
| LifecycleCustody.ReturnedTokensAreTheirAccounts | src/auth/token.rs:148-164 | `get_access_token` never hands out an access token issued to another mailbox |
| LifecycleTerms.StoredTermsAreGranted | src/auth/token.rs:172-187 | In every interleaving and however often it was bumped, a stored token has the expiry and the scope its access token was granted with |
| LifecycleTerms.ServedIffGrantLasts | src/auth/token.rs:148-159 | A token is served from the cache exactly if the expiry the provider gave it lies more than five minutes ahead at that moment; any other is refreshed first |
| LifecycleCustody.SchemaHoldsInEveryRun | src/storage/db.rs:65-87 | Primary keys, exact `(tenant, email)` uniqueness and the foreign key hold in every interleaving |
| LifecycleCustody.IdentityNeverChanges | src/storage/accounts.rs:47-76 | An account's tenant and email are the same at any two moments of a run |
| LifecycleDisconnect.StaysTokenlessIffQuiet | src/auth/token.rs:236-240 | A tokenless account stays so under every schedule without a consent for it, if and only if no cache hit or refresh in flight still carries its token |
| LifecycleDisconnect.StaysTokenless | src/auth/token.rs:148-164 | From such a state on nobody is newly handed a token for it and `refresh_stale` never selects it |
| LifecycleDisconnect.HolderCanStore | src/auth/token.rs:172-187 | A task that still holds a token of a tokenless account, disconnected or not, can bring it back by itself, the rows and the other tasks as they were |
| LifecycleDisconnect.RefreshOfRemovedAccountFails | src/auth/token.rs:167-189 | A refresh in flight when its account is removed, waiting for the lock or further on, ends in an error; no step of a refresh of that account changes a table and nothing is stored for it, unless a consent re-creates the row |
| LifecycleAccounts.FoldUniqueIffNoOverlap | src/auth/token.rs:105-141 | Of all runs without removals, exactly those in which no consent inserts after another consent overtook it since its lookup keep mailboxes unique up to ASCII case |
| LifecycleAccounts.FoldUniqueWithoutOverlap | src/storage/accounts.rs:101-114 | With removals too, runs without such an overlap keep mailboxes unique up to case |
| LifecyclePromise.PromiseHoldsIfUndisturbed | src/auth/token.rs:236-240 | If every disconnect drops its token with nothing of the account in flight, and no consent reaches the account until its row is removed, a disconnected account has no token at any moment of the run; and exactly these runs keep every disconnect safe throughout |
| LifecyclePromise.PromiseKeptIffSafe | src/auth/token.rs:109-115 | From a reachable state every undisturbed schedule keeps "disconnected, hence no token" if and only if no account that is disconnected or about to be has a token or one in flight |
| LifecyclePromise.StepKeepsSafeIff | src/auth/token.rs:139-142 | The steps that endanger a disconnect: a drop with a token in flight, a consent that lands, a consent that re-creates the row under a pending mark while a token is in flight; no other |
| LifecyclePromise.DisconnectedIffMarkedSince | src/storage/accounts.rs:116-146 | A row is disconnected exactly if a disconnect marked it and nobody removed it since, whatever consents came between |
| LifecyclePromise.DisconnectionIsFinal | src/auth/token.rs:139-142 | No step other than removal ends a disconnected status, consents included, so no batch refreshes the account |
| LifecycleConsents.TakesBoundAccounts | src/auth/token.rs:89-142 | Flow registry and tasks together, however callbacks overlap: rows <= accounts created <= successful takes |
| LifecycleConsents.ConsentsAreTakes | src/auth/token.rs:89-96 | As many consents go on as flows are taken successfully |
| LifecycleConsents.AccountsAreForBegunTenants | src/auth/token.rs:78-142 | Every account belongs to a tenant some flow was begun for |
| LifecycleTenants.OtherTenantsCannotTell | src/storage/accounts.rs:78-146 | Deleting from any interleaved run, background batches included, all that one tenant asked for and all that batches did for its accounts leaves a run in which another tenant's results, accounts, tokens and email lookups are the same |
| LifecycleTenants.PurgedRunAgrees | src/auth/token.rs:105-142 | The two runs agree on everything that is not the deleted tenant's; a batch stands where it would had it never listed that tenant's accounts |
| LifecycleSolo.SoloRefresh | src/auth/token.rs:167-189 | In the machine, a refresh running alone has the effect and outcome of `TokenManager.RefreshAccount` |
| LifecycleSolo.SoloGet | src/auth/token.rs:148-164 | In the machine, `get_access_token` running alone has the effect and result of `TokenManager.GetAccessToken` |
| LifecycleSolo.SoloConsent | src/auth/token.rs:98-145 | In the machine, all of `complete_flow` running alone, from the code exchange on: refused, without a refresh token or without a profile it fails and leaves both tables; otherwise it stores the grant as it came, under the account the class says |
| LifecycleSolo.SoloDisconnect | src/api/routes.rs:41-49 | In the machine, a disconnect running alone drops the token and marks the row if the tenant owns it, and otherwise does nothing |
| LifecycleSolo.SoloBatch | src/auth/token.rs:193-233 | In the machine, a batch running alone, in any order and with any of its renewals refused, leaves the tables that refreshing each of its accounts by itself leaves |
| LifecycleSolo.SoloRemove | src/cli/mod.rs:120-133 | In the machine, a removal running alone takes the row under that id, or else one with that email up to case, and its token; if there is none it fails and changes nothing |
| TokenManager.TokenManager.RefreshAccount | src/auth/token.rs:167-189 | Replaces the stored token by the granted one, keeping the old refresh token if none came; no token or a refusal is an expiry error and changes nothing; one provider request if there is a token |
| TokenManager.TokenManager.GetAccessToken | src/auth/token.rs:148-164 | Returns the cached token and bumps its use at most every six hours, or refreshes and returns the new one; without a token it fails |
| TokenManager.TokenManager.CachedToken | src/auth/token.rs:149-156 | A cached token is used only while its expiry lies more than five minutes ahead |
| TokenManager.TokenManager.BumpLastUsed | src/auth/token.rs:243-257 | Writes only if no use is recorded or the recorded one is more than six hours old, and changes only the times |
| TokenManager.TokenManager.AccountLock | src/auth/token.rs:260-266 | The same lock for the same id, forever |
| TokenManager.RefreshStoresTheGrant | src/auth/token.rs:172-187 | A refresh stores token, scope and expiry of the grant, both times of the reply, and the granted refresh token or else the old one; it fails as expired exactly without a token or a grant, and then changes nothing |
| TokenManager.UseKeepsTheTerms | src/auth/token.rs:148-164 | More than 300 s before its expiry the stored token is returned and keeps tokens, scope and expiry, its times too unless the use on record is more than 21600 s old; otherwise the token is refreshed |
| TokenManager.TokenManager.RefreshAll | src/auth/token.rs:193-207 | Refreshes exactly the accounts not disconnected, each as if alone, with one outcome for each |
| TokenManager.TokenManager.RefreshStale | src/auth/token.rs:211-233 | Refreshes exactly the accounts without a use since the cutoff and returns how many were granted |
| TokenManager.ActiveAreRenewed | src/auth/token.rs:193-207 | Account by account: `refresh_all` renews it unless its row is disconnected |
| TokenManager.IdleAreRenewed | src/auth/token.rs:211-233 | Account by account: `refresh_stale` renews it unless a use within the last `days` times 86400 s is on record, disconnected or not |
| TokenManager.BatchOrderIsInvisible | src/auth/token.rs:198-205 | Refreshing distinct accounts in turn, in any order, gives the table that refreshing each by itself gives |
| TokenManager.BatchOutcomesAreIsolated | src/auth/token.rs:193-207 | Each account's outcome in a batch is the one it would have had alone: one failure never affects another |
| TokenManager.TokenManager.BeginFlow | src/auth/token.rs:78-85 | Stores the encrypted verifier and the tenant under the state of the consent URL and touches nothing else |
| TokenManager.TokenManager.CompleteFlow | src/auth/token.rs:89-145 | Consumes the flow. An unknown or expired flow, a refused code and a grant without a refresh token give Auth, an undecryptable flow Storage, a profile that does not resolve from the access token its own error, the tables untouched; otherwise the grant is stored under a known mailbox's account or one new account |
| TokenManager.LandingStoresTheGrant | src/auth/token.rs:105-142 | The stored token is the grant as it came; the account is the tenant's one with that email up to case, its row untouched, or else a new one under the new id |
| TokenManager.TokenManager.EnsureRow | src/auth/token.rs:139-141 | Creates the account unless its row is there, and fails only on a clash |
| TokenManager.TokenManager.Land | src/auth/token.rs:105-145 | From the lookup on a sequential consent cannot fail |
| TokenManager.ReconnectionStaysDisconnected | src/auth/token.rs:109-115 | Reconnecting a disconnected account returns it as active, yet its row stays disconnected and no `refresh_all` includes it |
| TokenManager.TokenManager.Disconnect | src/auth/token.rs:236-240 | Drops the token and marks the row if the tenant owns it; otherwise reports not found, the token gone all the same |
| LifecycleClient.AtMostThreeExchanges | src/provider/graph.rs:45-62 | In every interleaving a request makes at most three token requests, one for each of its calls |
| LifecycleClient.RetrySendsRefusedIffBumped | src/provider/graph.rs:57-59 | In every interleaving, the retry is handed the refused token exactly when, at the read that supplies it, the row was last written by a cache hit that had read that token |
| LifecycleClient.RetryIsPastIffRestored | src/provider/graph.rs:57-59 | The retry is handed a token granted before the refusal exactly when the row was last written by a cache hit that had read such a token, or by a consent that had been granted one |
| LifecycleClient.RetryIsNewIfBumpsApart | src/auth/token.rs:148-189 | On the schedule alone: if no refresh writes its token while a cache hit of the same account is about to write, the retry never sends the refused token |
| LifecycleClient.ForcedRefreshIsNew | src/auth/token.rs:167-189 | In every interleaving the forced refresh is about to write only a token granted after the refusal, it succeeds only if it wrote the row, and from then on no refresh of the account is about to write an older one |
| LifecycleClient.RowIsLastWrite | src/storage/tokens.rs:102-134 | The stored access token is that of the last bump, refresh or consent that wrote the row |
| LifecycleClient.RunKeepsAccessCustody | src/auth/token.rs:103-142 | What a consent was granted and has not stored yet nobody else holds, has read or could store |
| LifecycleClient.PendingBumpIsHandedOut | src/auth/token.rs:149-152 | After any forced refresh, a pending bump of a token still good by its expiry can land and have the retry sent with that token |
| LifecycleScenarios.RefusedTokenIsSentAgain | src/provider/graph.rs:57-59 | A run from the empty database in which the forced refresh succeeds and the retry is handed the refused token |
| Graph.AtMostTwoSendsThreeExchanges | src/provider/graph.rs:45-62 | In a request no other task disturbs, at most two sends and three token requests; three exactly when the first token had to be renewed, Graph answered 401 all the same and the forced refresh brought a token that expires within five minutes |
| Graph.TwoExchangesIfTokensLast | src/provider/graph.rs:45-62 | In such a request, at most two token requests if issued tokens still exceed the safety margin at reuse |
| Graph.RetrySendsWhatWasGrantedSince | src/provider/graph.rs:57-59 | In such a request the retry sends a token granted after the 401: the forced refresh's, or that of one more refresh if that one is too short-lived |
| Graph.LastResponseIsReturned | src/provider/graph.rs:52-61 | In such a request the caller gets the first response unless it was a 401, and then the retry's; without a token to send with, at either attempt, it gets an expiry error; and the tokens sent are exactly those |
| Graph.LastBearerIsStored | src/provider/graph.rs:52-61 | The token sent last is the one stored afterwards |
| Graph.TokenlessSendsNothing | src/provider/graph.rs:52-53 | Without a stored token nothing is sent, asked or changed, and the call fails |
| Graph.MicrosoftGraph.SendAuthorized | src/provider/graph.rs:45-62 | The method leaves exactly the tables, the tokens sent, the number of token requests and the result that the lemmas above speak of |
| Renewal.RecentUseIsSpared | src/auth/token.rs:148-164 | Whatever calls follow, `refresh_stale` does not select an account that `get_access_token` served at the cutoff plus six hours or later |
| Renewal.IdleAfterUseIff | src/auth/token.rs:243-257 | Right after a successful `get_access_token` an account counts as idle exactly when the throttle kept an earlier use on record that lies before the cutoff |
| Renewal.BumpsAreSpaced | src/auth/token.rs:28 | Bumps of one account are more than six hours apart for each step between them |
| Renewal.BumpsInSpan | src/auth/token.rs:243-257 | n bumps of one account in a span of w satisfy (n-1) * 6h < w |
| Renewal.NothingGrowsOlder | src/cli/mod.rs:191-201 | If renewals succeed, from the first completed run on no stored token's recorded use is older than threshold + two runs + the pause between them, max(interval, 60) s and its delay, at any moment and whatever else is called meanwhile |
| LifecycleRenewal.NothingGrowsOlder | src/cli/mod.rs:191-201 | In every interleaving, if tokens are written at most a given delay after their use was stamped and the loop's renewals are granted: from its first completed batch on no recorded use is older than max(threshold, delay) + two batches + the pause between them |
| Renewal.RoundIsARun | src/cli/mod.rs:191-201 | One round of the loop, renewing in any order, is such a completed run and does what `refresh_stale` does |
| Renewal.RefreshLoop | src/cli/mod.rs:191-201 | The loop itself, refresh then sleep max(interval, 60) s: as long as runs and pauses keep to their limits and renewals succeed, that bound holds until the end of the run after the last |
| Renewal.RoundsRenew | src/auth/token.rs:211-233 | What the loop's runs leave: no use on record older than the threshold at the last run's start, hence within the bound until the next one ends |
| Renewal.StartsAreSpaced | src/cli/mod.rs:192-199 | Two runs start at least max(interval, 60) s apart for each run between them |
| Renewal.Period | src/cli/mod.rs:192-199 | The pause is the configured interval or 60 s, whichever is longer |
| Renewal.LandingIsConnect | src/auth/token.rs:139-142 | A landed consent is one insert-or-nothing followed by one token write |
| Flows.TableRefinesLedger | src/storage/flows.rs:56-116 | Against a ledger that never purges, restarts under the same key included: younger than 600 s always resolves to the flow as begun, older never does, and at exactly 600 s only an insert in that same second loses it |
| Flows.TableIsPurgedLedger | src/storage/flows.rs:61-72 | The table is the ledger minus exactly what the latest insert's purge could see |
| Flows.FlowsAreConserved | src/storage/flows.rs:61-115 | Effective inserts = pending + taken + rejected + purged, over any run, any restarts and any set of states |
| Flows.CallbackReturnsItsFlow | src/storage/flows.rs:75-116 | A successful callback returns the tenant and verifier of the one insert it consumes (RFC 7636, section 4.5) |
| Flows.InsertYieldsOneTake | src/storage/flows.rs:98-100 | Two successful callbacks consume two different inserts |
| Flows.PendingHasOrigin | src/storage/flows.rs:67-71 | Every pending row is some insert's, not called back since |
| Flows.FlowStore.Insert | src/storage/flows.rs:56-72 | Purges rows of 600 s and older, then adds the row unless its state is taken |
| Flows.FlowStore.Take | src/storage/flows.rs:75-116 | Removes the row whatever the outcome; unknown, expired and undecryptable flows are told apart |
| TokenStore.TableRefinesMap | src/storage/tokens.rs:57-147 | For any run of writes and deletions and any nonces, the encrypted table with its text timestamps reads as the plain map |
| TokenStore.DecodeUndoesEncode | src/storage/tokens.rs:57-134 | Reading a written row gives back the token, times to the nanosecond |
| TokenStore.TextConditionIsTimeCondition | src/storage/tokens.rs:149-168 | The SQL comparison of texts selects exactly the tokens never used or last used strictly before the cutoff instant, and for a cutoff after the year 9999 those never used |
| TokenStore.SqliteTokenStore.Get | src/storage/tokens.rs:57-100 | Returns the token of the plain map; fails only on a row it did not write |
| TokenStore.SqliteTokenStore.Upsert | src/storage/tokens.rs:102-134 | The plain map gains exactly this token, unless the foreign key refuses it |
| TokenStore.SqliteTokenStore.Delete | src/storage/tokens.rs:136-147 | The plain map loses exactly this token |
| TokenStore.SqliteTokenStore.ListInactive | src/storage/tokens.rs:149-168 | Lists each idle account once and no other |
| Rfc3339.TextOrderIsTimeOrder | src/storage/tokens.rs:127-129 | Byte order of printed timestamps is time order for all instants of the years 0 to 9999, although fractions have 0, 3, 6 or 9 digits |
| Rfc3339.TextCutoffIsTimeCutoff | src/storage/tokens.rs:154-158 | The same against any cutoff: one before year 0 or after 9999 prints with a sign, below every recorded use |
| Rfc3339.ParseUndoesPrint | src/storage/tokens.rs:171-173 | Every printed instant parses back to itself (RFC 3339, section 5.6) |
| Rfc3339Forms.ParsesEveryForm | src/provider/mod.rs:94-98 | With `Z` or any offset of whole minutes below a day, `T`, `t` or a blank, and any number of fraction digits, a date is read as the instant it denotes: the local time less the offset (RFC 3339, section 5.6) |
| Rfc3339Forms.ParsedIsAForm | src/provider/mod.rs:94-98 | And nothing else is read: a text that parses is one of these forms |
| Rfc3339Forms.PrintIsAForm | src/storage/tokens.rs:127-129 | What is printed is one of them, in UTC |
| Rfc3339Forms.KnownTextIsRead | src/provider/mod.rs:94-98 | One such text in full, with the number it is read as |
| Rfc3339.FractionOrder | src/storage/tokens.rs:127-129 | Fractions of different widths compare correctly because '+' is below every digit |
| Timestamps.SplitIsInverse | src/storage/tokens.rs:171-173 | Calendar components and instants determine each other |
| Timestamps.MonthLengths | src/storage/tokens.rs:171-173 | The months have the lengths of the Gregorian calendar |
| Timestamps.ComponentOrderIsTimeOrder | src/storage/tokens.rs:127-129 | Date-time components compare as the instants do |
| Crypto.DecryptUndoesFrame | src/storage/crypto.rs:15-37 | Decryption of a nonce-prefixed blob returns the plaintext, for every nonce |
| Crypto.Encrypt | src/storage/crypto.rs:15-26 | The blob is the nonce followed by the ciphertext under it |
| Crypto.DecryptOpensTheRest | src/storage/crypto.rs:29-37 | Twelve bytes or fewer are refused; of any more the first twelve are the nonce and the rest the sealed text |
| AccountStore.SqliteAccountStore.Create | src/storage/accounts.rs:47-76 | Inserts exactly when id and (tenant, email) are free, else changes nothing |
| AccountStore.SqliteAccountStore.Get | src/storage/accounts.rs:86-99 | Finds a row only for its own tenant |
| AccountStore.SqliteAccountStore.GetByEmail | src/storage/accounts.rs:101-114 | Finds some row of the tenant whose email matches up to ASCII case, or says there is none |
| Tables.LowerFoldsCaseOnly | src/storage/accounts.rs:108-108 | Two emails are the same to the query exactly if they differ at most in the case of ASCII letters |
| AccountStore.SqliteAccountStore.SetStatus | src/storage/accounts.rs:116-132 | Changes status and time of the tenant's row alone |
| AccountStore.SqliteAccountStore.Delete | src/storage/accounts.rs:134-146 | Removes the tenant's row and, by the cascade, its token |
| AccountStore.SqliteAccountStore.ListAll | src/storage/accounts.rs:148-154 | Every account once, the most recently updated first |
| Tables.StatementsKeepSchema | src/storage/db.rs:65-87 | No statement of the stores breaks the declared constraints |
| Inbox.PushdownIsExact | src/provider/mod.rs:50-82 | Fetching `limit` messages per sorted mailbox gives, element for element, the first `limit` of all complete mailboxes sorted together |
| Inbox.ShorterIsPrefix | src/provider/mod.rs:50-82 | The inbox for k is a prefix of the inbox for k + 1 |
| Inbox.AggregateUnifiedInbox | src/provider/mod.rs:50-82 | Collect, sort in place, truncate: the method yields the specified inbox |
| Inbox.LaterComesFirst | src/provider/mod.rs:85-92 | Dates in whatever forms compare as the instants they denote, the later first, and a message without a date comes last |
| Inbox.EachMessageNamesItsAccount | src/provider/mod.rs:64-70 | Each message shown is one an account returned and carries that account's id and email |
| Inbox.NothingNewerIsLeftOut | src/provider/mod.rs:79-81 | The result is sorted, and nothing left out is newer than anything kept |
| Inbox.AggregateConcat | src/provider/mod.rs:73-81 | The inbox of two groups of accounts is the top of the merge of their inboxes |
| Inbox.FailingAccountsAreAbsent | src/provider/mod.rs:59-63 | Failing accounts behave as if absent |
| Inbox.WithoutFailing | src/provider/mod.rs:59-63 | In particular one account without a token, wherever it stands in the list |
| UnifiedInbox.TokenlessAreExcluded | src/provider/mod.rs:55-63 | The inbox equals the one computed without the accounts that have no token, because their authorized request fails |
| UnifiedInbox.AnsweredIsShown | src/provider/mod.rs:55-63 | An account whose request was answered shows the messages of the last answer; if either attempt fails it shows none |
| Inbox.AccountOrderIsInvisible | src/provider/mod.rs:73-81 | Permuting the accounts leaves the sequence of received instants unchanged |
| Inbox.CompareIsTotalPreorder | src/provider/mod.rs:85-92 | The comparison is a total preorder, undated last, whose ties are exactly the equal instants |
| MergeOrder.StableSortIsUnique | src/provider/mod.rs:79-79 | A sorted, stable rearrangement is unique, so the model's sort is the library's |
| MergeOrder.SortBy | src/provider/mod.rs:79-79 | Sorting the vector in place yields that rearrangement |
| MergeOrder.TakeSortConcat | src/provider/mod.rs:79-80 | Truncating each half before sorting changes nothing among the first k |

## Left out

- HTTP, Graph's JSON, the consent URL and the real provider: replies are arguments of the calls, or choices of the machine.
- Several processes on one database file: the refresh locks and the connection mutex are local to a process.
- Crashes between an exchange and its write, failing writes and poisoned mutexes: the errors they raise are not modelled.
- The inside of AES-256-GCM, and secrecy: the cipher is any function whose decryption inverts its encryption.
- Graph.AtMostTwoSendsThreeExchanges: one request at a time, as in the class; `LifecycleClient.AtMostThreeExchanges` is for interleaved tasks.
- Graph.RetrySendsWhatWasGrantedSince: likewise; `LifecycleClient.RetrySendsRefusedIffBumped` is for interleaved tasks.
- Renewal.RefreshLoop: makes a given number of runs, because the loop of the program never ends.
- Inactivity thresholds so large that the subtraction leaves the date range of `chrono` and panics.
- Leap seconds, and years outside 0 to 9999; offsets with U+2212 for the minus sign are not parsed.
- Renewal.NothingGrowsOlder: calls follow one another, as in the class; `LifecycleRenewal.NothingGrowsOlder` is the bound for interleaved tasks.
- MergeOrder.SortBy: an insertion sort in place of the library's merge sort; the result is the same by `StableSortIsUnique`.
- The `provider` column, which always holds the same value, and `created_at`, `updated_at` of accounts as text: they are instants here.
- `list` and `touch` of the account store: a filter like `get`, and a statement no shown code calls.
- The REST routes, MCP tools, command line, callback pages, configuration and API keys: wiring around the calls modelled here.
