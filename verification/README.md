# Verification of the proxy's protocols

A model, in Dafny, of the parts of the proxy where several processes, several handlers and one
database have to agree, with proofs of what they keep. The project stands alone:
`dafny verify dfyconfig.toml` checks all of it.

The service sits between OAuth clients and upstream MCP servers ("targets"). Administrators
create, replace and remove targets in a table; any number of replicas serve snapshots of it that
may lag; sessions, flows and per-user credentials carry a *stamp*, a fingerprint of where a
credential goes. What is proved, from the largest result down:

- **The whole** (`World`, `Confinement`, `FenceSafety`, `TokenVerdicts`, `PurgeSafety`,
  `OneSession`, `EndToEnd`): every
  handler broken into the statements it runs, over N replicas and one database, in any
  interleaving. Whatever is forwarded goes to the URL of the definition the user approved, under
  the client the flow was for, with a credential that belongs to that session and definition. A
  stamp that is retired never lands another row, lets nobody in, and once purged leaves none; a
  refresh buys tokens only for a stamp that was current when its token was taken; an approval is
  good for one session. And what does
  happen: which target /authorize resolves, that a live session of the current definition is let
  in, and just what is sent for it. `Runs`,
  `LaggingReplica` and `RemovedTarget` build concrete runs that reach what these are about.
- **The targets table** (`Targets`, `TargetSafety`): row locks, fences, version bumps. Version v
  is exactly the first v committed changes; a stamp once left never returns; no update is lost.
- **Replicas** (`Replicas`, `ReplicaSafety`, `Registries`, `RegistrySafety`): published versions
  never go backwards, replicas agree after a poll each, freshness is exact, a reused proxy is what
  a fresh build would make, and at most 64 requests are in flight to a stamp.
- **The grant store** (`OAuthTables`, `Grants`, `GrantSafety`): one spendable grant to a session,
  a grant that rolls back erased from the run, codes spent only on proof, reuse caught always and
  only when it is reuse.
- **The provider's token** (`UpstreamRefresh`, `RefreshSafety`): concurrent refreshes under
  striped locks against a provider that rotates.
- **Sweeps** (`Disk`, `SweepSafety`, `SweepEffects`, `StraySweep`): which answers the deletes by
  age change and which the purge, exactly; that proper calls are told the same wherever they fall
  among the deletes; stray sweeps spare what any process serves.
- **The program's own objects** (`Stores`, `Servers`, and the classes in `Limiters` and
  `Registries`): the store, the transaction that can take back what it took, and the handlers, as
  classes whose methods are proved against the same functions the protocols use.
- **Kernels** (`Quoting`, `Stamps`, `Limiters`, `ClientKeys`, `Addresses`, `AddressTable`,
  `Sealing`, `Settings`): the address guard is a table of ranges, a form is accepted exactly when
  every field fits, the limiter's key is what the outermost trusted proxy saw.

How the machines are made: a `State`, a `Step`, `Enabled` and `Next`; a run is `Reaches`. A
statement is one step, judged on the rows it locks as they are when its locks are granted, which
is READ COMMITTED with its recheck. Rows it reads and does not lock it sees as they were when it
began. That matters to the take of a refresh token, which may wait for the token's row: it reads
its target's stamp at any version up to the one there is. A purge is taken when it begins, so the
first purge after an edit is one that began after it. A transaction's writes show when it commits, so an open one is
its locks and what it will write. Fields called history (`tables`, `consumed`, `origins`, `sent`,
...) are never read by a step, but that the take finds its snapshot in `tables`.

What is assumed: SHA-256 is injective, AES-GCM opens only under the purpose sealed with, drawn
ids are new, rows are written only by this code, and the configuration is the same on every
replica with each name once. With admin targets switched off the targets table is empty and every
check the model keeps passes, so that case is the same model with no edits.

## Where a promise fails, and exactly when

- **The sweep and SESSION_TTL.** From a sweep on, its deletes by age change the answer to a store
  call of the serving path in four cases, and to no other of the calls modelled
  (`ExpiryChangesExactly`). One: the call goes by a code that can still be exchanged, of a session
  then past SESSION_TTL, because a code is looked up without its session's age
  (`LateCodesAreLost`; `ALateCode` is one). If every code is written within an hour of its session,
  an hour and a minute of SESSION_TTL rules that out (`LongSessionsHaveNoLateCode`); nothing in
  `config.go` demands the one and nothing in `main.go`, which sets no write timeout, the other.
  Two: the call goes by the id of a session it would have found, that was then past SESSION_TTL or
  abandoned: writing a code, writing a refreshed token and reading a credential ask nothing of a
  session's age, so a request or a callback that came in time can fail between (`ALateWrite` is
  one). No SESSION_TTL rules that out. Three: the call asks whose a token is, whatever its age, and
  its row was past retention or its session past its lifetime: /revoke, and the probe that tells a
  replay (see Retention). Four: the call asks of a client whose registration was a day old with no
  row kept of it.
- **Retired refresh tokens.** The comment at proxy.go:555-558 blames the failed write. A retired
  provider token is also presented again when the provider rotated it and its answer was lost
  (`TheAnswerIsLost`, `ALostAnswerIsEnough`). What is presented has been retired exactly when an
  earlier request had it retired and failed (`RetiredIsPresentedOnlyAfterALoss`).
- **Refusals on refresh.** The stamp is read by the statement that takes the token, as it was when
  that statement began (it may have waited for the token's row since), and the snapshot it is
  judged against is loaded later. So /token answers retry exactly when the entry the replica then
  serves is not what was current at the take, older or newer: a replica that has just caught up
  says retry too (`RefreshVerdictsAreExact`). And it answers `invalid_grant` to a
  session whose stamp was current at the take, at a replica that does not serve its name, exactly
  when no row had the name then, a config target of it has that stamp, and the snapshot is of a
  version at which an unusable row held the name (`UnservedNamesAreRefused`). It happens
  (`ACurrentStampIsRefused`).
- **Refreshes that cross an edit.** A refresh whose take began before an edit retired the stamp may
  commit its pair after it (`ARefreshCrossesTheRemoval`): what is never committed is a pair for a
  token whose take began from then on (`RefreshesBuyForTheCurrent`,
  `NoneTakenAfterRetirementBuys`). A pair so bought lets nobody in (`WhatIsRetiredIsDead`).
- **Addresses.** A listed network can open one address that wraps a never-dialable one: `::1`,
  which reads as 0.0.0.1 (`NoListOpensTheReserved`, `ListedLoopbackIsDialled`). The code says so.
- **Retention.** The comment at store.go:936-938 promises a used token one refresh lifetime beyond
  its own. A sweep forgets it exactly when it is a day past its lifetime or its session is past its
  own (`ReplaysAreForgottenLate`), so the promise holds exactly when tokens last no more than a day
  or the session ends within a day of the token (`AFurtherLifetimeIsKept`; `AReplayIsForgotten` is
  one that fails).
- **What a sweep shows.** Its last part, the purge, changes an answer exactly when what would have
  been found is stamped for an admin definition no row carries (`PurgeChangesExactlyTheStale`;
  `APurgeShows` is one), and a whole sweep changes that and what its deletes by age change
  (`SweepChangesExactly`). No row the purge takes could have let anyone in, been unsealed, become a
  session, or been refreshed by a take begun since (`ThePurgeTakesOnlyTheRetired`,
  `WhatIsRetiredIsDead`). What changes is how it is refused, as unknown where a lagging replica
  would have said to retry; that a request already let in may find its provider token gone, and a
  callback the session it has just opened; and that /revoke finds nothing left to end.

## Model

| member | source | states |
|---|---|---|
| Confinement.EverythingForwardedIsConfined | proxy.go:355-502 | in every run, what was forwarded was dialled at the URL /authorize resolved for the flow behind its session, the flow was approved with its own browser secret, the token's client is the flow's, and the provider token, static values or credential sent are that session's and that definition's own |
| Confinement.PayloadBelongs | proxy.go:425-500 | at the read that precedes the forward, a provider token goes only to a provider_token definition and was obtained by the session's own flow or a refresh of it, static headers are those of the row under its stamp, a credential was typed in a form of its stamp by the session's own subject |
| Confinement.StaticHeadersAreItsOwn | registry.go:316-338 | the static headers of any admin entry ever served are what the row under its stamp held, supplied in a save naming that row and its URL |
| Confinement.EnteredIsOk | proxy.go:380-423 | a request let in holds a session of its entry's own definition, under a token of the flow's client |
| Confinement.InsertIsFromItsFlow | oauth.go:595-606 | the session a callback inserts is of the definition its approved flow was stamped with, holds the token that callback obtained, and owes a code that demands what /authorize was given |
| Confinement.OneSpendableGrantToASession | oauth.go:703-828 | in every run of the whole, a session has at most one code or unused refresh token |
| Confinement.CodesAreBoundToTheirFlow | oauth.go:703-745 | in every run no grant commits for a code unless its exchange named the client and redirect given to /authorize and its verifier hashes to the challenge given there |
| FenceSafety.FencedWritesLandOnTheirStamp | store.go:46-73 | a fenced write commits only while the row carries its stamp, and a session only if the row lists no groups or shares one with its user |
| FenceSafety.TheAdmittedCommit | store.go:480-496 | and whoever shares a group with the row, or anyone if it lists none, can commit |
| FenceSafety.PlainSessionsAreAdmitted | oauth.go:587-606 | a session of a config target is inserted exactly for someone who shares a group with it, or if it lists none |
| OneSession.OneSessionToAnApproval | oauth.go:485-606 | in every run, however callbacks, fences and replicas interleave, at most one session ever comes of a flow, and a flow one came of can give no other |
| FenceSafety.NothingLandsUnderARetiredStamp | store.go:474-546 | after the edit that retires a stamp, no session, token rewrite or credential under it commits |
| FenceSafety.RetiredSessionsAreGone | store.go:982-1017 | after the first purge following retirement, no session under the stamp exists in any later state |
| FenceSafety.RetiredCredentialsAreGone | store.go:982-1017 | nor any credential |
| FenceSafety.CallVerdictsAreExact | proxy.go:396-432 | for a live token, which verdict: retry exactly for the target's own session at a replica that is behind; refused for the stamp exactly when it is not the entry's; let in exactly when the session is for the target's resource, or for none in an unnamed deployment; otherwise the wrong audience |
| FenceSafety.CredentialsAreReadFresh | settings.go:330-350 | a credential is read only while its definition is the current one |
| TokenVerdicts.RefreshesBuyForTheCurrent | oauth.go:761-828 | in every run a refresh commits a pair only for a session whose stamp was current in the snapshot of the statement that took its token |
| TokenVerdicts.NoneTakenAfterRetirementBuys | oauth.go:761-828 | no token taken by a statement begun at or after the version that retired its stamp ever buys a pair |
| TokenVerdicts.RefusedRefreshesNeverCommit | oauth.go:783-800 | a refresh told to retry or that its target is gone never commits: until it rolls back it holds its token unused, and its rollback changes no row |
| TokenVerdicts.WholeRunsAreGrantRuns | oauth.go:703-828 | every run of the whole is a run of the grant store, so a refused refresh leaves what the run without it leaves |
| TokenVerdicts.RefreshVerdictsAreExact | oauth.go:761-801 | with the stamp read at the take and the snapshot loaded later: retry exactly when the entry is not what was current at the take, issue only for a stamp current then, refuse only for one that was not |
| TokenVerdicts.UnservedNamesAreRefused | oauth.go:761-799 | for a name the snapshot does not serve: never issues, retries exactly when a row had the name at the take, and refuses a stamp current then exactly under the condition above |
| LaggingReplica.ACurrentStampIsRefused | oauth.go:785-799 | a reachable state in which a refresh of a session of the current definition, its token live when taken, has been so refused |
| LaggingReplica.ARequestIsForwarded | proxy.go:355-502 | a reachable state in which a request has been forwarded |
| RemovedTarget.ARefreshCrossesTheRemoval | oauth.go:761-828 | a reachable state with a stamp retired and a refresh, its token taken before, about to commit a pair under it |
| RemovedTarget.ASessionIsThereToPurge | store.go:982-1010 | a reachable state with a stamp retired, a session under it, and the purge about to run |
| PurgeSafety.ThePurgeTakesOnlyTheRetired | store.go:982-1010 | every session, flow and credential the purge deletes is under a stamp an edit has retired |
| PurgeSafety.WhatIsRetiredIsDead | store.go:982-1010 | from retirement on, with or without a purge, nothing under the stamp is let in, unsealed or redeemed to a session, and no refresh whose take begins from then on buys a pair |
| PurgeSafety.ResolvedIsBorn | oauth.go:351-388 | what /authorize puts on a flow some version of the table or the config defined, asked for by its own resource or by none where none is named |
| EndToEnd.AuthorizeResolvesExactly | oauth.go:351-388 | with a resource, the target served at just that resource, and a refusal exactly when there is none; without, the first, and a refusal exactly where targets are named or none is served |
| EndToEnd.LetInExactly | proxy.go:380-432 | in every run a request is let in exactly when its token is live, its session is of the definition found, and that is the current one; it is unknown exactly when the token is not live; and the audience is never wrong for a session of that definition |
| EndToEnd.WhatIsSentExactly | proxy.go:434-500 | and is then given exactly what its target's mode says: the session's own stored credential while the definition is current, the static headers there are, or the token its session holds while it lasts |
| EndToEnd.CallsAreDialledAsTheySay | registry.go:108-121 | whatever entry a request holds dials its own URL, through the guard exactly for an admin target, to listed addresses only exactly over plain http |
| TargetSafety.StepKeeps | store.go:1271-1437 | every step of edits and fenced writes keeps the locks, the history and the stamps in order |
| TargetSafety.VersionsReplayTheChanges | store.go:1262-1267 | the version counts the committed changes and describes exactly the first so many |
| TargetSafety.StampsAreNeverRevived | store.go:1374-1379 | a stamp once left never returns under any name |
| TargetSafety.KeysMatchOnlyUnchangedRows | store.go:1351-1391 | a key matches only a row unchanged since it was read |
| TargetSafety.NoUpdateIsLost | store.go:1351-1404 | what an edit replaces is what it locked, and its commit is the next version |
| TargetSafety.StaticValuesStayHome | store.go:1361-1370 | a stored static value opens for its row and was entered for its URL |
| TargetSafety.SuppliesWereEntered | store.go:1235-1253 | every static value on record came in a static save naming that row and URL |
| TargetSafety.UpdatedRowOk | store.go:1361-1391 | an update keeps the row id and raises the revision; it keeps stamp and generation exactly when the destination is the same, and otherwise takes the re-rolled generation |
| TargetSafety.UpdatesFollowDestinations | store.go:1374-1379 | in every run, what an update will write keeps the stamp exactly when URL, mode and the list of headers and prefixes are those of the row it locked |
| ReplicaSafety.StepKeeps | registry.go:207-258 | every published snapshot serves the table of its version, whatever edits and rebuilds overlap |
| ReplicaSafety.VersionsNeverGoBack | registry.go:203-226 | a slow rebuild never publishes over a newer one |
| ReplicaSafety.APollCatchesUp | registry.go:217-226 | after the last edit one poll that takes the build lock and ends well reaches the current version, whatever rebuild was under way |
| ReplicaSafety.AtTheVersionServesTheRows | registry.go:213-226 | a skipped rebuild leaves a snapshot that serves the current rows |
| ReplicaSafety.ReplicasAgree | registry.go:340-362 | after the last edit and a poll on each, replicas serve the same definitions |
| ReplicaSafety.FreshnessIsExact | registry.go:137-147 | for every entry served, behind is false exactly when the current stamp is its own |
| ReplicaSafety.ServedProxiesSuit | registry.go:108-121 | every entry served dials its own URL, an admin one through the guard that insists on a listed address exactly over plain http, and a per_user one sends people to the settings page |
| ReplicaSafety.WhatIsLeftOut | registry.go:316-338 | whatever wrote it, a row is served exactly when today's policy accepts it, its stamp is its definition's, its static value opens, and it may be saved as it is |
| ReplicaSafety.RowsAreServedUnlessRefused | registry.go:316-338 | a row of the table is served exactly when today's policy accepts it, as it was saved, under its own path, with its stored static headers |
| ReplicaSafety.MismatchIsFinal | proxy.go:400-417 | a stamp refused by a replica that is not behind is not current, and never will be again |
| Registries.NewSnapshot | registry.go:90-127 | an entry for each target in turn, with the proxy there was under its name and stamp or else a new one with the URL, guard and advice that suit it; and under each name and resource the last entry that has it |
| Registries.Merge | registry.go:287-310 | the loops list the config targets no row holds, then the usable rows, and name the ones left out |
| Registries.Registry.Rebuild | registry.go:228-258 | publishes such a snapshot of what was loaded, or on any error leaves the current one |
| Registries.Registry.RebuildIfBehind | registry.go:217-226 | rebuilds exactly when the version read is not the snapshot's |
| RegistrySafety.RebuildServesTheDefinitions | registry.go:287-338 | a rebuild serves, under each name, exactly what the rows and the config define |
| RegistrySafety.ReuseRefinesAFreshBuild | registry.go:86-127 | a reused proxy has the URL, transport and advice a fresh build would give (which NewSnapshot states), and no two names share one |
| RegistrySafety.RebuildKeepsTheProxy | registry.go:101-103 | a rebuild that keeps serving a stamp keeps its proxy |
| RegistrySafety.InFlightIsBounded | proxy.go:103-131 | at most 64 requests are in flight to a stamp for as long as every rebuild serves it |
| RegistrySafety.InFlightIsBoundedFromNothing | proxy.go:103-131 | and that from no traffic at all, whatever was rebuilt and served before, once a stamp nobody holds is served |
| GrantSafety.StepKeeps | store.go:577-777 | every statement of interleaved grants keeps the foreign keys, the locks and one spendable grant |
| GrantSafety.OneSpendableGrant | oauth.go:592-623 | committed codes and unused refresh tokens of a session number at most one |
| GrantSafety.RollbackRestores | store.go:674-707 | any run in which a grant never commits is, but for that grant, the run without it: whatever else ran between, tables, clock, probes and other grants end the same |
| GrantSafety.CodesAreSpentOnProof | oauth.go:713-729 | in every interleaving a grant commits for a code only if its exchange proves what the session's code was to demand, and spends it as mismatched only if not |
| GrantSafety.AnUndisturbedExchange | oauth.go:703-729 | alone, an exchange proves its code, spends it and leaves one pair for its session and client |
| GrantSafety.AnUndisturbedRefresh | oauth.go:747-828 | alone, a refresh marks the token used and leaves one pair |
| GrantSafety.ReplayIsAlwaysSeen | store.go:727-777 | a token is taken for reuse exactly when a committed grant consumed it, under any client |
| GrantSafety.DeadStaysDead | store.go:548-553 | a deleted session never comes back |
| GrantSafety.ReuseEndsTheSession | oauth.go:762-774 | once the revocation commits, the session and all its codes and tokens are gone for good |
| GrantSafety.OnlyReuseIsRevoked | store.go:752-774 | the probe condemns a session only after a grant consuming that token committed |
| RefreshSafety.StepKeeps | proxy.go:515-598 | every step of concurrent refreshes keeps the stripes and the tokens in order |
| RefreshSafety.RetiredIsPresentedOnlyAfterALoss | proxy.go:541-562 | what is presented has been retired exactly when an earlier request had it retired and failed |
| RefreshSafety.TheAnswerIsLost | proxy.go:547-550 | a run in which the provider rotates a token and its answer is lost |
| RefreshSafety.ALostAnswerIsEnough | proxy.go:547-550 | after which the next request presents the retired token, though no write ever failed |
| RefreshSafety.OneRefreshToASession | proxy.go:328-346 | no two requests on a session are refreshing at once |
| RefreshSafety.ReturnsOnlyWhatTheRowHolds | proxy.go:515-567 | what is returned was read unexpired from the row, or written to it while the row was there and its admin stamp live |
| RefreshSafety.NothingReturnsAfterRevocation | proxy.go:530-540 | after revocation no request that has not returned ever returns a token |
| SweepSafety.StepStaysAlike | store.go:439-639 | two disks that differ in dead rows answer every proper call alike and stay so |
| SweepSafety.ExpiryIsInvisible | store.go:916-979 | after the deletes by age every later sequence of proper calls gets the answers it would have had |
| SweepSafety.StatementsAreInvisible | store.go:974-978 | and so wherever calls fall among the statements of any number of sweeps, each at its own time |
| SweepSafety.StatementStaysAlike | store.go:916-979 | each statement takes only rows that could answer nothing from then on |
| SweepEffects.ExpiryChangesExactly | store.go:916-979 | from a sweep on, the deletes by age change an answer exactly when it comes from a live code of a session then past its lifetime, from the id of a session found that was past its lifetime or abandoned (a code to write among them), from a token of any age whose row was not kept, or from a registration a day old with no row kept of it |
| SweepEffects.LateCodesAreLost | store.go:944-948 | so nothing changes for calls by flow, login, live code and live token exactly when there is no live code of a session past its lifetime |
| SweepEffects.ALateWrite | store.go:520-570 | one disk on which a sweep takes the session from under the write of a token, and of a code, that came in time |
| SweepEffects.ALateCode | store.go:577-590 | one disk with such a code, whose exchange the sweep changes |
| SweepEffects.ReplaysAreForgottenLate | store.go:936-942 | a sweep forgets a used token exactly when it is a day past its lifetime or its session past its own |
| SweepEffects.AFurtherLifetimeIsKept | store.go:936-942 | when the further lifetime of the comment is kept |
| SweepEffects.AReplayIsForgotten | store.go:936-942 | one token for which it is not |
| SweepEffects.LongSessionsHaveNoLateCode | config.go:359-364 | an hour and a minute of SESSION_TTL is enough for it, if codes are written within an hour of their session |
| SweepSafety.SweepShowsOnlyThePurge | store.go:916-980 | a whole sweep shows what its purge of retired stamps would show alone |
| SweepEffects.PurgeChangesExactlyTheStale | store.go:999-1010 | the purge changes an answer exactly when what would be found is stamped for an admin definition no row carries |
| SweepEffects.APurgeShows | store.go:999-1010 | one disk of which the purge changes an answer |
| SweepEffects.SweepChangesExactly | store.go:916-1010 | a whole sweep changes exactly what its deletes by age and its purge do, to any call at any later time |
| SweepEffects.ASweepLeavesExactly | store.go:916-1010 | what a whole sweep leaves of flows, logins, sessions, codes, tokens, credentials and seen stamps, row by row |
| SweepEffects.RegistrationsLeft | store.go:959-971 | a registration goes exactly when it is a day old and nothing left by age is its own |
| StraySweep.StraysAreUnsavedAndUnserved | store.go:1023-1060 | a stray is deleted exactly when neither saved nor recorded by any process for a week, whatever stamp_seen has lost |
| StraySweep.NoProcessSweepsWhatItServes | main.go:306-330 | a process that recorded what it serves within the week deletes none of its credentials |
| Stores.TheSweepIsTheExpiry | store.go:916-979 | the listed statements, run in order to the end, are the expiry proved invisible |
| Stores.RanUpToSpares | store.go:916-979 | they leave the credentials and what was lately seen |
| Stores.PurgedInTheEnd | store.go:999-1010 | the purge deals with each table whatever befell the others |
| Stores.Store.CreateFlow | store.go:420-427 | stored unapproved: nobody redeems it, and only the secret's holder may approve it, until it is ten minutes old |
| Stores.Store.ApproveFlow | store.go:430-447 | approves only for the secret's holder, in time and once |
| Stores.Store.TakeFlow | store.go:451-461 | taken, approved or not, only by the secret's holder in time, and then nobody approves, declines or redeems it |
| Stores.Store.TakeApprovedFlow | store.go:464-470 | redeems only an approved flow, in time, and then nobody does anything more with it |
| Stores.Store.TakeSettingsFlow | store.go:892-909 | a login is taken once, in time, by the browser that began it and for its own kind |
| Stores.Store.CreateSession | store.go:474-496 | an admin session is refused as stale exactly when no row carries its stamp, and as not admitted exactly when the row lists groups and shares none |
| Stores.Store.ReadSessionToken | store.go:498-510 | the token, exactly when the session is there under the stamp named and within SESSION_TTL |
| Stores.Store.UpdateSessionToken | store.go:512-546 | which of gone, stale and written, and exactly the row it writes |
| Stores.Store.RevokeSession | store.go:548-553 | the session, its codes and its tokens are gone and resolve to it no more; every other row is as it was |
| Stores.Store.CreateAuthCode | store.go:564-570 | a code only for a session that exists |
| Stores.Store.LookupAccessToken | store.go:619-639 | exactly for a token that has not expired of a session that has not ended, that session, and the stamp its target has now |
| Stores.Store.FindSession | store.go:780-796 | found exactly when the value is an access or a refresh token, live or not, and then its session |
| Stores.Store.PutUserCredential | store.go:801-823 | an admin credential only under the row's stamp, replacing what was there |
| Stores.Store.DeleteUserCredential | store.go:871-875 | that credential goes and every other stays, of the same person or not |
| Stores.Store.CreateTarget | store.go:1269-1316 | stores exactly what may be saved under a name that is free: under a new generation, its static headers sealed for the row, and the next version |
| Stores.Store.UpdateTarget | store.go:1324-1410 | each refusal, exactly when; the stamp and all issued under it are kept exactly when URL, mode, headers and prefixes are unchanged, and otherwise the generation is the re-rolled one and a purge follows; a stored static value is kept when none is supplied |
| Stores.Store.DeleteTarget | store.go:1412-1437 | only the row the key names; the next version; a purge, whose failure leaves the removal |
| Stores.Store.LoadAdminTargets | store.go:1127-1158 | every row once, and the version they are of |
| Stores.Store.RunStatements | store.go:974-978 | all of them, or those before the one that fails |
| Stores.Store.PurgeStaleAdminRows | store.go:982-1010 | of each table that does not fail, exactly the rows stamped for an admin definition no row of that name carries go; every table is tried |
| Stores.Store.Sweep | store.go:911-980 | the expiry then the purge; or what had run when a statement failed; or the tables whose purge did not fail |
| Stores.Store.RecordServedStamps | store.go:1028-1044 | every served pair is seen now and the others when they were, so no credential of a served pair is a stray for a week |
| Stores.Store.SweepStrayCredentials | store.go:1046-1060 | a credential goes exactly when it is a config one, saved over a week ago and not seen within the week |
| Stores.Grant.TakeAuthCode | store.go:577-590 | takes a live code by deleting it, with an outcome that still has it |
| Stores.Grant.TakeRefreshToken | store.go:727-777 | marks a live token of this client used, or tells a replay from a stranger and changes nothing |
| Stores.Grant.CreateTokenPair | store.go:660-672 | the access token finds the session for its twelve hours, the refresh token is live for its client alone and its lifetime, no other token changes, and the outcome has neither yet |
| Stores.Grant.Commit | store.go:704 | what was taken and written becomes the outcome, past any rollback |
| Stores.Grant.Rollback | store.go:706-707 | the outcome becomes what there is: this transaction's own changes undone, and nobody else's; after a commit nothing |
| Servers.Server.Issue | oauth.go:803-828 | the pair and the commit together, or an open grant; a commit whose report is lost has landed |
| Servers.Server.TokenFromCode | oauth.go:703-729 | issues exactly for a code under a minute old whose client, redirect and challenge the exchange meets; a failed proof spends the code; a failure before the commit lands gives it back |
| Servers.Server.TokenFromRefresh | oauth.go:747-801 | issues exactly for a live token of this client whose session's stamp is served, at a replica sure of its target; an unsure one answers retry and leaves the token unused, as does any failure before the commit lands; a replay ends the session |
| Servers.Server.HandleRevoke | oauth.go:830-866 | ends the session behind either token, and an unknown one is no error |
| Servers.Server.PersistRefreshed | proxy.go:569-598 | succeeds exactly when one of three attempts ends well before patience runs out and the row is there, with an admin stamp live |
| Servers.Server.LoadToken | oauth.go:896-908 | what the session's row holds under the stamp asked for |
| Servers.Server.CurrentUpstreamToken | proxy.go:513-567 | the token first read if it has a minute to go, or the one another refreshed meanwhile, or the provider's exactly when it could be written back, with the old refresh token where it gave none; the row holds what is returned |
| Servers.Server.HandleCallback | oauth.go:485-628 | each answer, exactly when: an approved flow is spent once; its own target must be served under its stamp, the provider answer, a per_user target have a subject, and the target list no groups or share one; then a session and a code with what the flow was approved for |
| Servers.Server.HandleSettingsSave | settings.go:226-321 | each answer, exactly when: a login, a served per_user target of the name, a form under its stamp, every field fitting, and for an admin target the row still carrying it |
| Servers.Server.SweepOnce | main.go:306-330 | what is served is seen now, then the sweep, then of the config targets' credentials just those served here, or saved or seen within the week, stay; never deletes a config credential of a definition it serves, nor any when the recording failed |
| Settings.FindPerUserTarget | settings.go:240-252 | the loop finds the last served per_user target of the form's name |
| Settings.PerUserTargetIsTheLast | settings.go:240-252 | it is the last served per_user target of that name, and none exactly when there is none |
| Settings.PerUserTarget | settings.go:240-252 | what it finds is served, per_user and of that name |
| Settings.FillHeaders | settings.go:283-305 | the loop gives the headers of its specification, or the first field's error |
| Settings.FilledExactlyWhenAllFit | settings.go:283-305 | a form is accepted exactly when every field is there, is at most 4096 bytes, and is sendable in a header with its prefix |
| Settings.FilledSendsOnlyWhatWasTyped | settings.go:283-305 | a value for exactly the definition's headers, each what was typed behind the prefix of its last field |
| Stamps.ComputeStamp | stamp.go:35-60 | the loop computes the stamp string of its specification |
| Stamps.FieldPartsOf | stamp.go:47-49 | the parts of the header and prefix list |
| Stamps.DecodeInvertsPreimage | stamp.go:35-60 | a decoder recovers everything from the pre-hash string, for all bytes and any list length |
| Stamps.StampStringsAgreeExactly | stamp.go:26-63 | stamp strings are equal exactly when what they stand for is |
| Stamps.StampsAgreeExactly | stamp.go:26-63 | which is field by field, without labels, names, groups and static values |
| Quoting.EncodeInvertsDecode | stamp.go:36-39 | decoding a rune of valid UTF-8 loses no byte |
| Quoting.ReadQuotedInvertsQuote | stamp.go:36-39 | a quoted string reads back, valid UTF-8 or not, and says where it ends |
| Quoting.ReadDigitsInvertsItoa | stamp.go:41-45 | so does a number |
| Sealing.BoundPurposesNeverCollide | crypto.go:68-75 | a joined purpose names one kind and one binding |
| Limiters.Limiter.Allow | ratelimit.go:52-85 | the answer and the table of its specification: a call counts in its key's open window, or opens one, and no other open window changes |
| Limiters.Limiter.Prune | ratelimit.go:72-76 | the loop drops exactly the lapsed windows |
| Limiters.AdmitsAtMostTwiceTheLimit | ratelimit.go:52-85 | no closed window admits more than twice the limit for a key, and the table stays within its cap |
| Limiters.TrackedKeysAreNeverCrowdedOut | ratelimit.go:58-66 | a tracked key is refused exactly when its own window is open and spent |
| Limiters.NewKeysAreRefusedOnlyInAFlood | ratelimit.go:69-82 | a new key is refused exactly when the table is full of open windows |
| ClientKeys.ClientKey | ratelimit.go:101-133 | the nested loops give the key of its specification |
| ClientKeys.TheOutermostProxysEntryIsTheKey | ratelimit.go:101-133 | behind as many proxies as are trusted, the key is the address the outermost of them saw, whatever was sent before it; an untrusted peer is its own key |
| ClientKeys.TooFewEntriesAreNotBelieved | ratelimit.go:124-130 | with fewer entries than proxies, or none trusted, the key is the peer |
| ClientKeys.ForgedEntriesMoveNothing | ratelimit.go:87-133 | nothing a caller puts before what the proxies wrote moves it to another bucket |
| Addresses.NeverDialableIsNotPublic | dialguard.go:24-50 | what the dial guard always refuses the other classifier does not call public |
| AddressTable.TheGuardIsTheTable | dialguard.go:52-86 | for every list and address: reserved exactly in the ranges never dialled; else admitted if listed; else refused where only the listed may be dialled, or inside the ranges that are not public; IPv6 by its ranges and by what it wraps |
| Addresses.UnlistedGuardAdmitsExactlyThePublic | dialguard.go:57-86 | with nothing listed the guard is exactly the public test |
| Addresses.NoListOpensTheReserved | dialguard.go:52-86 | no list opens a never-dialable address, nor one wrapping it but ::1 |
| Addresses.ListedLoopbackIsDialled | dialguard.go:38-41 | and a list can open ::1 |
| Addresses.EmbeddedIPv4 | cimd.go:64-85 | what it gives is an IPv4 address, and only for an address that is not one |

## Left out

- HTTP parsing and writing, cookies, templates, the catalogue, consent and admin pages: they only carry values to and from the calls modelled.
- Provider discovery, the iss check and the CIMD fetches: foreign calls. The provider appears as answers a step may take.
- Real SHA-256, AES-GCM, randomness, PKCE hashing and uuids: injective, ideal and new, as said above.
- The upstream policy of `validateAdminUpstream`, the syntax rules of names and headers, and the normalising of white space and slashes: `Config.accepts` and what callers pass stand for them.
- `url.Parse` failing on a stored URL, which fails the whole build: rows are checked when they are saved.
- Stores.TheSweepIsTheExpiry: every row of the model has a stamp, so the three statements that delete rows without one are listed and find nothing.
- Stores.Store.LoadAdminTargets: the order of the rows, and with it of `entries`, which depends on the database's collation: definitions are compared by name.
- The throttle of `CatchUp` and `RequestRebuild`: a replica may rebuild at any time or never.
- Closing idle connections, wildcards of routes, path and header rewriting in `proxy.go`.
- Serving tokens outside a grant (`CreateAccessToken`, `CreateRefreshToken`, `Store.CreateTokenPair`, `Store.TakeAuthCode`): not on the serving path.
- The two halves of reuse detection are two statements: what is said is that the grant which consumed the token committed before the probe.
- Stores.Store.CreateSession: the methods of the classes run alone, one after another. How several interleave is in the protocol modules, on values.
- Servers.Server.CurrentUpstreamToken: what others do meanwhile is one refresh or one revocation while the request waits; all the races are in `UpstreamRefresh`.
- Servers.Server.TokenFromRefresh: at most one store call of a request fails, so its `Fault` is one and not several.
- SweepSafety.StatementsAreInvisible: takes callbacks to write their code within the hour of their session, and calls by a session's id, a token of any age or a client to ask of what is still kept, or of nothing; what the deletes change of the others is in SweepEffects.ExpiryChangesExactly.
- SweepEffects.SweepChangesExactly: the settings page's own calls (listing, storing and clearing a credential) are not among those compared; the deletes by age touch no credential, and the purge takes those of retired stamps.
- Confinement.EverythingForwardedIsConfined: a request may forward the token its own refresh has just obtained, without a second read of the row; that it has written it back first is not asked there, and is in RefreshSafety.ReturnsOnlyWhatTheRowHolds.
- RegistrySafety.InFlightIsBounded: a config target displaced by a row and later restored gets a new proxy, so the bound is for as long as every rebuild serves the stamp.
- RefreshSafety.OneRefreshToASession: the locks are one process's. Two processes may refresh one session at once, and this says nothing of them.
- Limiters.AdmitsAtMostTwiceTheLimit: takes calls in order of time; the program reads the clock before it takes the mutex.
