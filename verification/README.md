# Verification of the SCC operator

A Dafny model of the operator that registers a Rancher cluster with the SUSE Customer Center (SCC), with proofs about it.
`dafny verify dfyconfig.toml` checks everything.

## What is modelled

**The Registration lifecycle.** `Registrations`, `Conditions`, `Lifecycle`, `OnlineMode`, `OfflineMode` hold the status
record with its condition list and everything the handlers do to it, once as functions on values and once in place.
`ApiServer` is the server as the operator meets it: one version per object, a status subresource (`Update` writes the spec
only, `UpdateStatus` the status only), and a script in which the environment decides, call by call, which spec edits
arrive first and whether the call is refused, answered, or done with its answer lost. When the script is over the operator
is dead, so a crash is possible at every call. Beside the Registration it keeps what the credentials secret holds.
`Reconciliation` is one call of `OnRegistrationChange` as a function of the
answers of clock, settings, secrets and SCC; `Controller` is the same call on mutable objects, proved equal to it.
`Automaton` proves that every history is a run of a small automaton, `Reachability` the invariant of its states,
`Simulation` the safety of whole runs, `Progress` and `OfflineProgress` the distance to activation and the recovery from
failures, `Panics` where exactly a call dereferences nil, `LostSystem` the state from which there is no recovery. What one
call may do is stated on what the outside answers: `Refusals` says that nothing gets announced, active or validated that
was not let through, `ErrorCodes` which HTTP codes end a registration, `Verdicts` what a call that ends without an error has
stored, `Retries` how long the loops go on.

**The entrypoint secret.** `Cluster` is the store of the secret and the Registrations made from it, with the informer's
cache, `Entrypoint` the
reconciler (adoption, salt, hash labels, cleanup by hash, creation), `EntrypointHandler` the reconciler on mutable objects,
proved equal to it. `Orphans` proves orphan-freedom over all runs with an informed cache, `OrphanRuns` that this condition
is exact and a run that breaks it, `HashLabels` the fixed point and convergence, `Salting` how the secret gets its salt,
`Extraction` which secrets are accepted and which edits name another Registration, `Creation` what is written before a
Registration is made and what the success of a call means.
`MergePatch` is section 2 of RFC 7396, `SecretPatches` connects it to the patches of secrets, `SecretRepository` is the
repository with its cache and retries, `Ownership` the label predicates, `Finalizers` the three removal forms on backing
arrays, `SecretRemoval` the removal of the secrets the operator made, `OwnerHelp` what it does to their owners.

**Three smaller cores.** `Initializer` is the once/condition-variable protocol for any number of threads, one transition
per step between synchronisation points; `Jitter` and `Dispatcher` are the check-in scheduler; `Credentials` is the
write-through adapter.

## What the proofs found

* SyncNow is not cleared by the handler: the object `UpdateStatus` returns carries the stored spec. With SyncNow set and
  no other writer, a Registration alternates between announced and active (`Progress.SyncNowNeverSettles`).
* A non-recoverable keepalive error is prepared but not stored (`Simulation.KeepaliveFailureIsNotStored`).
* The wrapper sends a keepalive instead of a registration exactly when the stored credentials are complete. If the status
  write after an accepted registration is refused, the credentials are complete and no system ID is stored: every later
  announcement dereferences nil, and the Registration is never activated (`LostSystem`, `Panics.AKeepaliveNeverAnnounces`).
* `prepareSecretSalt` shares the label map with its snapshot, and a managed secret has labels, so its first patch is
  empty: the secret is salted only by the retry after a failed patch, and no Registration is made before that (`Salting`).
  The same happens to a cached registration-code secret (`SecretRepository.Repository.EnsureRegCode`).
* After a failed first attempt, `RetryingPatchUpdate` replaces what other writers did
  (`SecretRepository.SuccessMergesOrReplaces`).
* A failed cleanup has already edited the cached Registration. Unless the informer renews it first, the next call skips
  it, overwrites the label and leaves an orphan (`OrphanRuns.AFailedCleanupMakesAnOrphan`). Orphan-freedom holds exactly
  when the cache knows the live Registrations where a call cleans up.
* Credentials that reach their secret in a call that stores no system ID make the Registration unrecoverable, also when only
  the answer of that write was lost (`LostSystem.CredentialsWithoutASystemAreLost`).
* The name digest is taken of texts joined without a separator: different secrets can name the same Registration
  (`Extraction.DifferentSecretsShareAName`).
* An owner lookup that fails, other than with NotFound, lets a credentials secret go (`SecretRemoval.ABrokenLookupReleases`).
* An offline Registration that is created with its certificate becomes active with an unset processed time
  (`OfflineProgress.ActivatedButNeverProcessed`); if a request was made before, every call activates it again
  (`OfflineProgress.ActiveOfflineStuttersExactly`).

## Assumptions

* The mode of a Registration does not change, only this controller writes its status, and the handler is given the current
  stored object. The clock is read once per call and is past the zero time.
* The credentials cache is current, SCC hands out a token, a login and a password that are not empty, and later answers of
  SCC do not blank the token. Other writers may take the credentials secret away, but not fill it.
* The entrypoint handler is given the current stored secret. The informer renews its cache between calls, with anything,
  however old. Users edit the data, the salt and all labels of the secret except the two hash labels and the two managed-by
  labels; they may touch or delete Registrations but do not make one live again.
* The digest is an arbitrary function with non-empty values; the results on names in `Extraction` say where they take it to
  be injective. The hashed text is the plain concatenation of the source,
  and the content digest continues the name digest.
* A condition setter finds or creates the condition of its kind; with an error, `SetError` denies it.
* A nil dereference ends the call at that point. A stored version names one content of an object.
* A refused `UpdateStatus` hands back the object it was given, so the Progressing retry goes on with it; a Get that fails
  hands back an empty object.

## Model

| member | source | states |
|---|---|---|
| `Simulation.WritesAreEdges` | pkg/controllers/controller.go:557-806 | In every run of an online Registration, whatever call fails and whoever edits the spec, each persisted status write is an edge New→Starting→Announced→Active, back to New only by a preparation error, back to Announced only by the reset, or into Failed by an error |
| `Simulation.MutationIsEdge` | pkg/controllers/online.go:57-306 | Each change the lifecycle makes starts in its own phase and ends in its own phase, on every status satisfying the invariant |
| `Simulation.FailedIsAbsorbing` | pkg/controllers/controller.go:588-603 | No inputs whatsoever change the status or the history of an online Registration that is failed |
| `Simulation.FailureEndsTheHistory` | pkg/controllers/controller.go:588-603 | In the history of an online run nothing follows the write that made the Registration failed: no status write and no call to SCC |
| `Simulation.NoUpdateIsLost` | pkg/controllers/reconcilers.go:15-45 | Over whole runs in both modes: each persisted status is one enabled lifecycle change of exactly the status it replaces, and the handler never writes a spec |
| `Simulation.RegistrationIsNotNeededAgain` | pkg/controllers/online.go:57-61 | NeedsRegistration, once false at a point of a run, is false at every later point |
| `Simulation.AnnouncedAtMostOnce` | pkg/controllers/online.go:102-121 | At most one write of any run turns an unregistered online Registration into an announced one |
| `Simulation.ActivationFollowsRegistration` | pkg/controllers/controller.go:627-704 | Every activation-branch call to SCC comes after a registration that SCC accepted, on a Registration that is announced, processed and has a system ID |
| `Simulation.OnlineIsNeverStuck` | pkg/controllers/controller.go:699-703 | The "not yet ready" exit is unreachable online: a reachable, unfailed Registration that needs activation but not registration is ready for it |
| `Simulation.KeepaliveFailureIsNotStored` | pkg/controllers/controller.go:761-782 | A non-recoverable keepalive error prepares a failed status, yet the stored status stays as it was, because the write is an Update |
| `Simulation.SpecBelongsToOthers` | pkg/controllers/controller.go:735-759 | A call never changes the stored spec when no other writer does; in particular it does not clear SyncNow |
| `Simulation.ActivationIsAccepted` | pkg/controllers/controller.go:704-727 | In the history of an online run, each status write that makes an inactive Registration active comes after an activation call that SCC let through, with no other status write in between |
| `Refusals.NoActivationWithoutAcceptance` | pkg/controllers/controller.go:699-733 | For every reachable Registration of either mode and every further input: a call leaves an inactive Registration active only if its credentials loaded and SCC let the activation of that very call through; offline, only if its certificate is valid |
| `Refusals.ARefusalIsAnError` | pkg/controllers/controller.go:699-733 | When the activation is due, credentials that do not load, a refusal of SCC or an invalid certificate make the call end in an error; a call that ends without one was let through and has stored an active Registration |
| `Refusals.NoAnnouncementWithoutAcceptance` | pkg/controllers/controller.go:659-694 | A reachable online Registration gets a system ID only from a call whose registration SCC accepted and whose credentials were saved, and it is the ID SCC gave out |
| `Refusals.NoValidationWithoutAcceptance` | pkg/controllers/controller.go:761-803 | The validation time of a reachable active Registration moves only to zero, by a reset, or to the time of a call whose keepalive was answered or whose certificate was valid |
| `Refusals.NoDeactivationWithoutAReason` | pkg/controllers/controller.go:574-759 | A reachable active Registration becomes inactive only if SyncNow is set or, offline, its certificate reference is gone, or its certificate is refused while it has never been processed |
| `Refusals.CallProcessesIfSaved` | pkg/controllers/offline.go:54-71 | An unprocessed offline Registration stays unprocessed by any call whose request secret is not saved |
| `Refusals.NeverActiveWhenRefused` | pkg/controllers/controller.go:704-709 | Over whole runs: an SCC that refuses every activation never makes an online Registration active |
| `Refusals.NeverAnnouncedWhenRefused` | pkg/controllers/controller.go:659-663 | Over whole runs: when every registration is refused, or its credentials are never saved, an online Registration never gets a system ID and is never announced or active |
| `ErrorCodes.RefusedActivationFailsExactly` | pkg/controllers/online.go:123-139 | For every reachable announced status: an activation error makes it failed if and only if it carries a code from 400 to 499 other than 429, or 501, 505 or 510; any other error leaves the status exactly as it is |
| `ErrorCodes.RefusedRegistrationEndsExactly` | pkg/controllers/online.go:169-201 | For every reachable starting status: a register error always fails it, but sets the processed time, which ends the retries, exactly for the same codes, and leaves it zero otherwise |
| `ErrorCodes.KeepaliveErrorFailsExactly` | pkg/controllers/online.go:343-366 | A keepalive error prepares a failed status for exactly the same codes, and no change otherwise |
| `ErrorCodes.TheCommonAnswers` | pkg/controllers/online.go:123-139 | 401, 403, 404, 422 and 501 fail an announced status; 429, 500, 502, 503, 504 and an error without a code leave it alone |
| `ErrorCodes.ARefusedActivationIsStored` | pkg/controllers/controller.go:704-709 | Through a whole call with an answering server: a due activation that SCC refuses ends in an error, and what is stored is failed exactly for those codes and unchanged otherwise |
| `ErrorCodes.ARefusedRegistrationIsStored` | pkg/controllers/controller.go:659-663 | Through a whole call with an answering server: a due announcement that SCC refuses stores a failed Registration, stamped as processed exactly for those codes |
| `ErrorCodes.ARefusedRequestIsStored` | pkg/controllers/offline.go:83-93 | Offline, a request secret that cannot be saved is told by the request condition with the text of the error, and the announcement stays due |
| `ErrorCodes.OfflineErrorsDenyTheRequest` | pkg/controllers/offline.go:83-93 | An offline register error denies the request condition with its text in the init and main phases, and leaves all conditions alone in the others |
| `Retries.ConflictsAreRetriedFiveTimes` | pkg/controllers/reconcilers.go:15-45 | Each retry loop of the Registration handler ends in a conflict only after five rounds of reads and writes |
| `Retries.RefusalsAreNotRetried` | pkg/controllers/controller.go:711-727 | A refused write ends each of the loops at once, and is what the loop reports |
| `Retries.NeitherRefusalIsLost` | pkg/controllers/reconcilers.go:15-45 | The error reconciler reports a refusal of either of its two writes, also if the other was answered |
| `Verdicts.AFinishedCallHasMovedOn` | pkg/controllers/controller.go:557-806 | A call on any reachable online Registration that ends without an error has stored Progressing for a new one, the announcement of a starting one, the activation of an announced one, and a reset or a validation at its time for an active one that was not validated recently; a failed one it has left alone |
| `Verdicts.FinishedMeansDone` | pkg/controllers/controller.go:557-806 | In both modes, from any state, a call that ends without an error had a server URL, and metrics unless it had nothing to do with them, and has stored what was due |
| `Panics.PanicsExactly` | pkg/controllers/controller.go:557-806 | For every reachable Registration of either mode and every further input: the call dereferences nil if and only if the registration request it reads is nil, SCC is sent a keepalive while an announcement is due, or the certificate secret could not be removed before a reset; then at most the secret reference was written |
| `Panics.AnnouncePanicsExactly` | pkg/controllers/controller.go:646-697 | The announce branch panics if and only if its secret and first write are saved, the credentials load, and either the request is gone or complete credentials turn the registration into a keepalive |
| `Panics.AKeepaliveNeverAnnounces` | pkg/controllers/controller.go:669-671 | In every reachable online state with an announcement due no system ID is stored, so a keepalive answer always dereferences nil |
| `Automaton.StepIsSound` | pkg/controllers/controller.go:557-806 | One call on the current stored object extends the history by legal events only, and leaves the stored status equal to what the history says |
| `Automaton.ReconcileErrorIsSound` | pkg/controllers/reconcilers.go:15-45 | The re-reading retry loop writes its lifecycle change on the status read last, once or not at all, under any interleaved spec writes |
| `Automaton.SaveActivationIsSound` | pkg/controllers/controller.go:711-727 | The activation retry loop, with its nested error reconciliation, produces legal writes only |
| `Automaton.SaveKeepaliveIsSound` | pkg/controllers/controller.go:784-800 | The keepalive retry loop stores the keepalive success of the status read last, or nothing |
| `Automaton.SaveKeepaliveErrorIsIdle` | pkg/controllers/controller.go:763-774 | The keepalive error loop changes nothing that is stored |
| `Automaton.BeginRegistrationIsSound` | pkg/controllers/controller.go:627-644 | The Progressing retry, which does not re-read, still only ever stores Begin of the stored status |
| `Automaton.AnnounceIsSound` | pkg/controllers/controller.go:646-697 | Both status writes of the announce branch, and its three error exits, are legal |
| `Automaton.ResetRegistrationIsSound` | pkg/controllers/controller.go:574-586 | UpdateStatus followed by Update of the returned object is one legal Reset, and the Update changes nothing |
| `Reachability.ReachableIsGood` | pkg/controllers/controller.go:557-806 | Every status ever persisted, in both modes: activated implies validated with Activated, Ready, Done True, Progressing False and Failure not True; Failure True implies not activated with Progressing and Ready False; CurrentCondition names a listed condition; online, NeedsRegistration means an unset processed time and Announced implies a system ID; offline, a failure is always the certificate's, and a processed Registration has its request reference and OfflineRequestReady True |
| `Reachability.MutationKeepsGood` | pkg/controllers/lifecycle/processors.go:17-30 | Each enabled lifecycle change keeps the invariant that ReachableIsGood states |
| `Reachability.NonRecoverableRegisterError` | pkg/controllers/online.go:153-201 | A non-recoverable register error leaves a failed, processed, unannounced, inactive status |
| `Reachability.RecoverableRegisterError` | pkg/controllers/online.go:169-201 | A recoverable register error leaves Failure False exactly in the preparation phase, which stays retryable, and True otherwise |
| `Reachability.ModesKeepApart` | pkg/controllers/online.go:102-121 | No reachable online Registration has an offline request, and no offline one credentials, a system ID, its address, a product or an expiry |
| `Reachability.RequestsGoOutOnce` | pkg/controllers/offline.go:35-40 | For every reachable offline Registration the request is due if and only if it is unprocessed and has no certificate: once out, no error or reset makes it due again |
| `Progress.ActivatedInExactlyThreeCalls` | pkg/controllers/controller.go:605-733 | With successful calls and no edits a fresh online Registration is activated by the third call and not before |
| `Progress.WhatThreeCallsLeave` | pkg/controllers/controller.go:627-733 | Those three calls leave the system ID SCC answered, its address, the times of the second and third call, the subscription read, and exactly the conditions of an announced, then active system |
| `Progress.SmoothCallLowersRank` | pkg/controllers/controller.go:627-733 | A successful call without edits takes a Registration that is not yet active exactly one phase closer to activation |
| `Progress.ActiveStuttersWhileYoung` | pkg/controllers/util.go:9-15 | An active Registration is left entirely alone while its validation is younger than the minimum check-in, and is validated again by the first smooth call after that |
| `Progress.SyncNowNeverSettles` | pkg/controllers/controller.go:735-759 | With SyncNow set and nobody clearing it, smooth calls alternate between Announced and Active for ever |
| `OfflineProgress.AwaitsCertificateAfterTwoCalls` | pkg/controllers/offline.go:35-82 | A fresh offline Registration without a certificate waits for one after exactly two smooth calls |
| `OfflineProgress.WaitsForTheCertificate` | pkg/controllers/offline.go:95-103 | Once the certificate is awaited, no call changes anything until its reference appears, whatever the outside answers, and waiting is not an error |
| `OfflineProgress.ActivatesWithTheCertificate` | pkg/controllers/offline.go:153-188 | The first successful call that finds the certificate reference activates the waiting Registration and clears the message of its certificate condition |
| `OfflineProgress.ActivatedButNeverProcessed` | pkg/controllers/offline.go:213-255 | A fresh offline Registration that has its certificate is active, and unprocessed, after one call |
| `OfflineProgress.ActivatesUnprocessedExactly` | pkg/controllers/offline.go:35-40 | A call that activates a reachable offline Registration found its certificate, and leaves it unprocessed if and only if it found it unprocessed |
| `OfflineProgress.ActiveOfflineStuttersExactly` | pkg/controllers/offline.go:95-98 | Successful calls leave an active offline Registration alone if and only if it has its certificate, SyncNow is unset, its validation is young, and it was processed in case a request was made |
| `OfflineProgress.NotReadyMeansNoCertificate` | pkg/controllers/offline.go:95-103 | Offline the "not yet ready" exit is taken exactly when the certificate reference is missing |
| `OfflineProgress.FailureRecoversExactlyByRemoval` | pkg/controllers/offline.go:105-121 | Every reachable failed offline Registration is preprocessed if and only if its certificate reference is gone; otherwise a call does nothing |
| `OfflineProgress.ResetClearsTheFailure` | pkg/controllers/offline.go:131-151 | After the reset nothing is failed, the certificate is awaited, and no spec makes preprocessing necessary again |
| `OfflineProgress.ResetWaitsExactlyWhenProcessed` | pkg/controllers/offline.go:105-151 | From every reachable failure the reset leads to waiting for a certificate if and only if the Registration was processed before; otherwise it is announced again |
| `OfflineProgress.PreprocessingRecovers` | pkg/controllers/controller.go:574-586 | A preprocessing call stores the reset status or nothing, stores it when both writes succeed, and changes nothing at all when the certificate secret cannot be removed |
| `OfflineProgress.ResetIsIdempotent` | pkg/controllers/offline.go:131-151 | Resetting an offline status twice gives the same conditions and activation fields as resetting once |
| `OfflineProgress.ResetAt` | pkg/controllers/offline.go:131-151 | Which condition of each kind survives the reset, and with what truth and message |
| `LostSystem.AnnouncedExactlyUnlessStranded` | internal/suseconnect/wrapper.go:52-55 | A reachable online Registration, neither processed nor failed, is announced by the successful calls it is away from that if and only if its attached credentials are not yet complete (or gone) |
| `LostSystem.DoomedForEver` | internal/suseconnect/wrapper.go:127-133 | From the state with complete credentials and no system ID no run whatever, with any answers of SCC and the server and any edits, stores a system ID, announces or activates |
| `LostSystem.ARefusedWriteStrands` | pkg/controllers/controller.go:687-694 | When SCC accepts the registration and its credentials are saved, the Registration is stranded if and only if the status write after it is refused |
| `LostSystem.StrandedInTwoCalls` | pkg/controllers/controller.go:627-697 | Two calls on a fresh Registration reach that state, with nothing refused but the last write |
| `LostSystem.AcceptedRegistrationCompletesTheSecret` | internal/suseconnect/credentials/secrets_adapter.go:169-190 | Once the saves of the token and the login SCC hands out have succeeded, the stored credentials are complete |
| `LostSystem.InitialisingBlanksTheToken` | internal/suseconnect/credentials/secrets_adapter.go:50-52 | Initialising the credentials secret leaves it without a token, whatever it held |
| `LostSystem.CredentialsArriveExactly` | internal/suseconnect/wrapper.go:127-133 | Registering makes the stored credentials complete exactly if they loaded, SCC accepted the registration and its credentials reached the secret, also when that answer was lost; otherwise they stay as they were |
| `LostSystem.AnUnheardInitialisationBlanks` | internal/suseconnect/credentials/secrets_adapter.go:50-52 | An initialisation of the secret whose answer is lost makes the call fail and blanks whatever credentials were there |
| `LostSystem.CredentialsWithoutASystemAreLost` | pkg/controllers/controller.go:659-694 | Whenever credentials arrive and the call still stores no system ID, for whatever reason, the Registration is never announced or activated |
| `Automaton.ReconcileErrorWrites` | pkg/controllers/reconcilers.go:15-45 | From any state, the error reconciler stores its change of the status it found, or nothing |
| `Controller.Handler.OnRegistrationChange` | pkg/controllers/controller.go:557-806 | The handler on mutable objects does to the server exactly what the transition function says, in every branch; of that function Simulation, Refusals, ErrorCodes and Verdicts prove what it may write, when, and with which verdict |
| `Controller.Handler.ApplyReconciler` | pkg/controllers/reconcilers.go:15-45 | The retry closure on mutable objects does to the server what Reconciliation.ReconcileError says, including how the two write errors join |
| `Controller.Handler.AnnounceSystem` | pkg/controllers/controller.go:646-658 | The announce branch on mutable objects does to the server what Reconciliation.Announce says: attach the secret once, save, then register |
| `Controller.Handler.FinishRegister` | pkg/controllers/controller.go:665-697 | After an accepted registration the method sets the system ID, prepares and saves, or reconciles, as Reconciliation.FinishAnnounce says |
| `Controller.Handler.StoreActivation` | pkg/controllers/controller.go:711-732 | The activation loop re-reads, prepares and saves in every round as Reconciliation.SaveActivation says |
| `Controller.Handler.ResetAndStore` | pkg/controllers/controller.go:574-586 | Status first, then the object the server returned: the reset of SyncNow and preprocessing equals Reconciliation.ResetRegistration |
| `Controller.Handler.StoreKeepaliveError` | pkg/controllers/controller.go:763-774 | The keepalive error loop equals Reconciliation.SaveKeepaliveError, which is proved to store nothing |
| `Controller.Handler.StoreKeepalive` | pkg/controllers/controller.go:784-800 | The keepalive loop equals Reconciliation.SaveKeepalive |
| `Registrations.Registration.RemoveCondition` | pkg/apis/scc.cattle.io/v1/types.go:134-144 | The filter loop drops exactly one kind and keeps the list free of duplicates |
| `Registrations.Registration.SetCurrentCondition` | pkg/apis/scc.cattle.io/v1/types.go:158-166 | CurrentCondition moves only to a listed kind |
| `Registrations.Registration.HasCondition` | pkg/apis/scc.cattle.io/v1/types.go:123-132 | HasCondition is true exactly when readers of the list find the kind |
| `Registrations.Registration.Encode` | pkg/apis/scc.cattle.io/v1/types.go:87-112 | What is written to the server is what the setters built up |
| `Conditions.WithoutMembers` | pkg/apis/scc.cattle.io/v1/types.go:134-144 | Removal keeps exactly the conditions of other kinds, and uniqueness |
| `Conditions.TableWithout` | pkg/apis/scc.cattle.io/v1/types.go:134-144 | Readers of the list see exactly the one row of the removed kind gone |
| `OnlineMode.ReconcileRegisterError` | pkg/controllers/online.go:169-202 | The in-place reconciler equals the status function of which the codes that end a registration, the fields they leave and the invariants are proved |
| `OnlineMode.PrepareRegisteredForActivation` | pkg/controllers/online.go:102-121 | Fails exactly without a system ID and then changes nothing |
| `OnlineMode.RegisteringAtLeaves` | pkg/controllers/online.go:102-121 | Preparing for activation sets Announced and Ready True, SccUrlReady and Failure False and the system address, and nothing else |
| `OnlineMode.ReconcileActivateError` | pkg/controllers/online.go:284-306 | Equals the status function that fails the status exactly for the codes of ErrorCodes.RefusedActivationFailsExactly and leaves every other error without a trace |
| `OnlineMode.ResetToReadyForActivation` | pkg/controllers/online.go:218-229 | The online reset in place, step by step, equals the Reset of the automaton |
| `OfflineMode.ResetToReadyForActivation` | pkg/controllers/offline.go:131-151 | The offline reset in place equals the Reset of the automaton, and returns no object exactly when the certificate secret could not be removed |
| `OfflineMode.ReconcileActivateError` | pkg/controllers/offline.go:200-211 | The Registration ends failed and inactive, with the text of the error as the message of its certificate condition |
| `Lifecycle.SuccessfulActivation` | pkg/controllers/lifecycle/processors.go:17-30 | Activated, Ready and Done become True, Progressing False, and only validation time and activation change beside them |
| `Lifecycle.Failed` | pkg/controllers/lifecycle/reconcilers.go:14-24 | Failure ends up True although an error setter denies it, Progressing and Ready False |
| `Orphans.NoOrphans` | pkg/controllers/controller.go:218-361 | Over every run in which the informer knows the live Registrations where a call cleans up, with a failure at any call, a crash anywhere and any data, salt or label edits by users: a live managed Registration exists only while the secret does, under its current name hash, with the secret managed by this operator |
| `Orphans.ChangeKeepsInv` | pkg/controllers/controller.go:218-361 | One call on the current secret keeps the orphan-freedom invariant, whatever fails in it, if the informer knows the live Registrations in case it cleans up |
| `Orphans.RemovalLeavesNobody` | pkg/controllers/controller.go:472-498 | When the removal handler succeeds under a cache that knew the live Registrations, no managed one lives |
| `Orphans.CleanupKillsTheHash` | pkg/controllers/controller.go:363-407 | After a successful cleanup of a hash under which the informer knows all live Registrations, none lives, however the calls interleave with edits |
| `Orphans.CleanupDeletesTheHash` | pkg/controllers/controller.go:377-405 | A successful cleanup has deleted every Registration that the informer holds under the hash with the finalizer: it is on its way out, or gone, under any edits |
| `Orphans.CleanupSparesOtherHashes` | pkg/controllers/controller.go:364-370 | The cleanup of a hash leaves exactly as they are the Registrations that the informer does not hold under it |
| `Orphans.CleanupSparesTheUnknown` | pkg/controllers/controller.go:363-407 | A cleanup leaves exactly as they are the Registrations that the cache does not hold under the hash with the finalizer: those of other hashes, and those whose cached copy was stripped before |
| `Orphans.AFreshCacheCovers` | pkg/controllers/controller.go:363-374 | A cache that holds the stored Registrations as they are knows all live ones |
| `OrphanRuns.CleaningCallIsSafeExactlyWhenCovered` | pkg/controllers/controller.go:287-325 | A successful, undisturbed call that cleans up leaves no orphan if and only if the cache knew all live Registrations when it began |
| `OrphanRuns.AFailedCleanupMakesAnOrphan` | pkg/controllers/controller.go:376-393 | A run from nothing that ends in an orphan: one write of a cleanup is refused, the next call skips the copy it stripped, overwrites the label and succeeds |
| `OrphanRuns.ARefusedCleanupStripsTheCache` | pkg/controllers/controller.go:382-393 | A cleanup whose write is refused stores nothing, and the cached copy has lost its finalizer |
| `OrphanRuns.TheUnknownIsLeftBehind` | pkg/controllers/controller.go:291-325 | A live Registration that the cache does not know goes through a whole successful call unchanged, under a hash that is no longer the secret's |
| `Orphans.RetryingPatchRelabels` | internal/repos/secretrepo/secrets.go:81-100 | At every point of the retry loop the operator's labels are the old or the new ones, never a mixture |
| `HashLabels.LabelsAreReExtracted` | pkg/controllers/resources.go:93-189 | For a salted, managed secret, extracting again after labelling yields the stored hash labels and the same mode |
| `HashLabels.LabellingIsIdempotent` | pkg/controllers/controller.go:198-216 | Labelling twice is labelling once; salt, other labels, manager and Helm's value stay |
| `HashLabels.ProcessingAgainCleansNothing` | pkg/controllers/controller.go:291-325 | Processing a labelled secret takes neither cleanup, and its patch writes nothing |
| `HashLabels.FirstCallLabels` | pkg/controllers/controller.go:266-285 | An undisturbed first call labels the secret and touches no Registration |
| `HashLabels.LaterCallsMaterialize` | pkg/controllers/controller.go:310-358 | An undisturbed later call leaves the secret alone and makes sure of exactly the one Registration its hash names, with labels and finalizer, whether it starts from the cache, the store or nothing |
| `Extraction.AcceptedExactly` | pkg/controllers/resources.go:93-117 | Extraction succeeds if and only if the type is offline, or it is missing, empty or online and the registration code is not empty |
| `Extraction.TheModeIsOnlineUnlessSaid` | pkg/controllers/resources.go:98-120 | The mode is offline exactly if the type says so, and the certificate counts exactly if it is not empty |
| `Extraction.ANewSaltIsANewName` | pkg/controllers/resources.go:128-138 | With an injective digest, changing the salt alone is accepted and changes the name hash |
| `Extraction.ANewCodeIsANewName` | pkg/controllers/resources.go:128-138 | With an injective digest, changing the registration code alone changes the name hash in both modes |
| `Extraction.ANewUrlIsANewNameOnlineOnly` | pkg/controllers/resources.go:77-91 | Changing the URL alone changes the name hash if and only if the mode is online and the URL is not the one in force; offline it changes nothing |
| `Extraction.ANewCertificateIsTheSameName` | pkg/controllers/resources.go:128-144 | With an injective digest, changing the certificate alone keeps the name hash and changes the content hash |
| `Extraction.DifferentSecretsShareAName` | pkg/controllers/resources.go:128-131 | The texts are joined without a separator: a secret of type online with some code and one without a type whose code starts with that word have the same name hash, for any digest |
| `Extraction.CleansExactlyWhenRenamed` | pkg/controllers/controller.go:287-300 | An edit of the data of a labelled secret makes the next call clean up under the old name hash if and only if it changes the name hash |
| `Extraction.TheTwoHashesDiffer` | pkg/controllers/resources.go:128-144 | The content digest continues the name digest, so that the two hashes differ even without a certificate |
| `Creation.SecretsAreWrittenFirst` | pkg/controllers/controller.go:327-358 | A call for an online secret, or one with a certificate, makes a Registration only after all the calls that write its other secret were answered, under any faults and edits |
| `Creation.SuccessMeansItStands` | pkg/controllers/controller.go:287-360 | With nobody else writing, a call on a labelled secret that ends without an error has left the Registration that the extraction names, with the finalizer and the labels, however its calls were contended, refused or lost on the way |
| `Creation.MadeOnlyWhenMissing` | pkg/controllers/resources.go:208-220 | A Registration is made only after its other secrets were written and the server has answered that there is none: once if its copy is cached, twice if not; a read that fails otherwise makes nothing |
| `Creation.ForeignLabelsAndFinalizersStay` | pkg/controllers/resources.go:221-229 | An undisturbed call that finds its Registration keeps its other labels, and its other finalizers in order |
| `Creation.TheCachedCopyIsEdited` | pkg/controllers/resources.go:208-229 | A cached Registration is edited in place: its copy has the labels and the finalizer even if the call fails, and no other copy changes |
| `Creation.RelatedSecretsAreCleaned` | pkg/controllers/controller.go:303-309 | A call that succeeds on changed content, or on the removal of a labelled secret, has had all the calls answered that clean up the secrets of the old content |
| `Creation.CleanupFromSucceeds` | pkg/controllers/controller.go:377-405 | With accurate copies and answered calls a cleanup succeeds, also where taking off the last finalizer leaves nothing to delete |
| `Creation.AFailedPatchIsTriedAgain` | internal/repos/secretrepo/secrets.go:81-100 | A patch of the secret whose first attempt is not answered, whatever went wrong, arrives if the read and the write after it are answered |
| `Creation.ForeignSecretsAreLeftAlone` | pkg/controllers/controller.go:219-251 | A secret that is deleted, or managed by another operator, is left alone |
| `Creation.AnAnsweredCallAdopts` | pkg/controllers/controller.go:227-243 | An answered call on an adoptable secret makes this operator its manager, and changes no other label, no data and no Registration |
| `Creation.ContentionIsRetriedFiveTimes` | pkg/controllers/controller.go:382-395 | The retry loops of the entrypoint handler end in a conflict only after five rounds |
| `EntrypointHandler.Handler.OnChange` | pkg/controllers/controller.go:218-361 | The handler on mutable secrets, with the shared label map of the salt step, equals the transition function, of which Extraction, Creation, HashLabels and Orphans are proved |
| `EntrypointHandler.Handler.OnRemove` | pkg/controllers/controller.go:455-500 | The removal handler on mutable secrets equals the transition function of which RemovalLeavesNobody is proved |
| `EntrypointHandler.Handler.CleanupByNameHash` | pkg/controllers/controller.go:363-407 | The loop over the cached objects, which it edits in place, with its early exits, equals the cleanup of which CleanupKillsTheHash is proved |
| `EntrypointHandler.Handler.CleanupRegistration` | pkg/controllers/controller.go:376-405 | Strips and deletes one Registration, and leaves the cached object without the finalizer whatever the server says |
| `EntrypointHandler.Handler.RegistrationFromEntrypoint` | pkg/controllers/resources.go:192-232 | From the cached object, edited in place, else the stored one, else nothing, the object gets the params labels and the finalizer once; a failed read gives an object without a name |
| `EntrypointHandler.Handler.CreateOrUpdateRegistration` | pkg/controllers/repos.go:35-54 | Creates after NotFound; after any other answer goes to the re-reading patch loop |
| `MergePatch.DiffThenApply` | pkg/controllers/repos.go:14-33 | For null-free documents the patch turns the snapshot into exactly the copy |
| `MergePatch.PatchSparesExactlyTheAgreedPaths` | internal/repos/secretrepo/secrets.go:59-79 | A path keeps its value in every later version if and only if snapshot and copy agree on it |
| `MergePatch.AgreementIsKept` | internal/repos/secretrepo/secrets.go:59-79 | Members other writers changed meanwhile survive where the caller changed nothing |
| `MergePatch.DisagreementIsWritten` | internal/repos/secretrepo/secrets.go:59-79 | At every path on which snapshot and copy do not agree, some later version is changed by the patch |
| `MergePatch.ArraysAreReplacedWhole` | internal/repos/secretrepo/secrets.go:59-79 | An edited array, such as the finalizers, replaces what others appended |
| `SecretPatches.PatchedIsTheMergePatch` | internal/repos/secretrepo/secrets.go:69-73 | The keywise patch of labels and data used for secrets is the merge patch of section 2 of RFC 7396 |
| `SecretRepository.SuccessMergesOrReplaces` | internal/repos/secretrepo/secrets.go:81-100 | A success merged the edit if the first attempt did it, and otherwise replaced the secret by the caller's copy |
| `SecretRepository.Repository.RetryingPatchUpdate` | internal/repos/secretrepo/secrets.go:81-100 | The retry loop on mutable secrets equals the retry of which SuccessMergesOrReplaces is proved |
| `SecretRepository.CreateOrUpdateStores` | internal/repos/secretrepo/secrets.go:102-109 | Without other writers, a success stores a secret that is new, or accurately cached, exactly as given; with an outdated copy the first patch keeps what the copy missed; and what the cache misses is never overwritten |
| `SecretRepository.PatchesAreSentSixTimes` | internal/repos/secretrepo/secrets.go:81-100 | A patch that ends in a conflict was sent six times; one whose first attempt is answered is sent once; a refusal after the re-read ends it |
| `SecretRepository.Repository.EnsureRegCode` | pkg/controllers/resources.go:257-285 | A registration-code secret that is in the cache is edited there, so an answered patch of it writes nothing |
| `Finalizers.RemovalsAgreeExactlyWithoutDuplicates` | pkg/controllers/lifecycle/mutators.go:46-60 | Deleting the first entry and filtering give the same list if and only if the finalizer occurs at most once |
| `Finalizers.ForeignFinalizersStay` | pkg/controllers/lifecycle/mutators.go:32-60 | Adding and removing keep all other finalizers in order, on any list |
| `Finalizers.RemovingUndoesAdding` | pkg/controllers/lifecycle/mutators.go:32-60 | Removal undoes addition; adding twice is adding once |
| `Finalizers.Meta.Remove` | pkg/controllers/lifecycle/mutators.go:46-60 | The in-place delete takes out the first entry |
| `Finalizers.Meta.Add` | pkg/controllers/lifecycle/mutators.go:32-44 | Appends only what is missing, in place or to a larger array |
| `Finalizers.Meta.Filter` | pkg/controllers/controller.go:382-389 | The filter loop takes out every entry |
| `Finalizers.Meta.Splice` | pkg/controllers/controller.go:522-525 | The append splice overwrites the source array, and the patch between the two lists still names the new one |
| `SecretRemoval.FinalizerLeavesExactlyWhenNobodyIsSeenHolding` | pkg/controllers/controller.go:503-552 | The secret keeps its finalizers and the handler fails if a lookup found a live activated Registration; otherwise only the patch can fail, and success stores exactly the cleared list |
| `SecretRemoval.LiveOwnersHoldTheSecret` | pkg/controllers/controller.go:503-543 | When every lookup is answered, the finalizer is held back exactly while an owner is live and activated |
| `SecretRemoval.ABrokenLookupReleases` | pkg/controllers/controller.go:511-519 | An error other than NotFound lets it go under a live activated owner |
| `SecretRemoval.ClearedKeepsTheOthers` | pkg/controllers/controller.go:537-543 | The cleared list has all other finalizers in order |
| `OwnerHelp.RemovalSparesTheOwners` | pkg/controllers/controller.go:506-532 | Without other writers and whatever fails: removing a secret makes no owner and changes none that is live and activated or not referred to; the others keep their foreign finalizers in order, and none disappears unless it was deleted and had no foreign finalizer |
| `OwnerHelp.AnsweredRemovalHelps` | pkg/controllers/controller.go:516-530 | When the calls are answered, each referenced owner that is not live and activated loses exactly the first of the operator's finalizers, and is gone if and only if it was deleted and had no other |
| `OwnerHelp.AReleaseFailsOnlyAfterFiveConflicts` | pkg/controllers/controller.go:537-551 | Without live owners seen, a secret whose patch is answered within five conflicting attempts is released, with exactly the cleared list |
| `SecretRemoval.Server.OnRemove` | pkg/controllers/controller.go:503-552 | The loop with its counter and its side patches equals the transition function, of which OwnerHelp proves what becomes of the owners |
| `Ownership.ManagersAreExclusive` | pkg/controllers/helpers/ownership.go:43-58 | No object is managed by two distinct operators |
| `Ownership.ManagingIsStricterThanAdopting` | pkg/controllers/helpers/ownership.go:26-58 | Managing implies adopting; the converse fails exactly for objects without the broker label that are unlabelled or Helm's |
| `Ownership.OwnershipIsStable` | pkg/controllers/helpers/ownership.go:61-78 | TakeOwnership makes its owner the manager, keeps Helm's value, and from then on no other operator may adopt or manage |
| `Ownership.TakeOwnership` | pkg/controllers/helpers/ownership.go:61-78 | The in-place form, with and without a label map |
| `Ownership.MergeLabelsPreservingHelm` | pkg/controllers/controller.go:198-216 | The copying loop gives every params label, except over a managed-by value that was set |
| `Ownership.PrepareSecretSalt` | pkg/controllers/resources.go:54-75 | With labels present the snapshot is salted along with the copy |
| `Salting.AnAnsweredPatchSaltsNothing` | pkg/controllers/resources.go:54-75 | When the first patch of the salt step is answered, the call on a managed secret succeeds and has changed nothing |
| `Salting.SaltArrivesExactlyByTheRetry` | internal/repos/secretrepo/secrets.go:81-100 | A successful, undisturbed call has stored the salt if and only if its first patch failed |
| `Salting.NothingIsMadeWithoutASalt` | pkg/controllers/controller.go:250-257 | Over every run in which nobody brings a salt and first patches are answered, the secret stays unsalted and no Registration is ever made |
| `Ownership.StoreSalt` | pkg/controllers/resources.go:54-75 | The patch between the prepared copy and its snapshot carries the salt if and only if the secret had no labels |
| `Ownership.ManagedObjectsHaveLabels` | pkg/controllers/helpers/ownership.go:43-58 | A secret this operator manages always has labels |
| `Initializer.EveryGetReturnsTheFirstSet` | internal/initializer/contexthelpers.go:10-28 | For any number of threads and any schedule: the body runs at most once and every Get that returned has its value |
| `Initializer.NoLostWakeUp` | internal/initializer/initializer.go:21-47 | Initialised and lock free implies that nobody sleeps in the wait set |
| `Initializer.AContextThatHoldsGetsTheValue` | internal/initializer/contexthelpers.go:21-28 | A GetWithContext that has returned came back empty if and only if its context was over while it waited; otherwise it has the value of the first Set |
| `Initializer.StuckExactly` | internal/initializer/initializer.go:40-47 | Nothing can move if and only if all threads are finished, or nothing was set and every getter sleeps |
| `Initializer.SetReleasesEverybody` | internal/initializer/initializer.go:21-61 | Every schedule has at most ten moves a thread, and with a Set among the threads it can only end with everybody finished |
| `Jitter.IntervalIsWithinTheJitter` | pkg/util/jitterbug/calculator.go:66-80 | Every drawn interval lies within the jitter of the base, for any sign of the fields |
| `Jitter.CompletedIntervals` | pkg/util/jitterbug/calculator.go:33-63 | Settings the constructor accepts can be drawn from exactly if JitterMax is positive; then all intervals are non-negative, and none exceeds the default deadline, under exact conditions |
| `Jitter.UsableExactly` | pkg/util/jitterbug/calculator.go:33-63 | Settings are refused exactly without a base, or with one smaller than the jitter, defaults included |
| `Jitter.CompletingKeepsWhatIsGiven` | pkg/util/jitterbug/calculator.go:33-63 | Completed settings keep what is given and fill in 15 minutes of jitter, 30 seconds of polling and a deadline of base plus jitter; completing them again changes nothing |
| `Jitter.Config.Complete` | pkg/util/jitterbug/calculator.go:33-63 | Filling in the defaults in place panics exactly where the settings are unusable |
| `Dispatcher.NobodyIsStale` | pkg/controllers/dispatcher.go:39-75 | At every point of a run of ticks, passing time and changes by others, with good ticks at most P apart: each eligible Registration is younger than Base+J+P, or after one of the ticks the store held it with SyncNow set since it was last validated |
| `Dispatcher.NobodyIsAskedTooEarly` | pkg/controllers/dispatcher.go:59-68 | No SyncNow is stored in any run for a Registration below age Base−J, not even by an Update whose answer is lost |
| `Dispatcher.TheControllerIsLegal` | pkg/controllers/lifecycle/processors.go:17-30 | Every change the controller makes to an online Registration validates it at its own time, keeps its validation, or leaves it ineligible |
| `Dispatcher.TriggerStaysWithinTheJitter` | pkg/util/jitterbug/jitterbug.go:42-78 | At every point of a run the interval in force lies in [Base−J, Base+J], is non-negative and at most the deadline |
| `Dispatcher.ConfigurationsMatchTheController` | pkg/controllers/dispatcher.go:13-30 | In both configurations Base−J is the minimum check-in of the controller, and the deadlines are 23 hours and 40 minutes |
| `Dispatcher.AskedForIsNotRecent` | pkg/controllers/controller.go:605-613 | The controller never takes a Registration that was asked for in any run as recently validated |
| `Dispatcher.TickAsksExactlyForTheDue` | pkg/controllers/dispatcher.go:46-74 | A successful tick asks for exactly the due Registrations of its list, and draws a new interval exactly if there were any |
| `Dispatcher.TickFailsExactlyOnAnUnansweredUpdate` | pkg/controllers/dispatcher.go:39-72 | A tick fails exactly if the listing fails or the Update of a due Registration is refused, outdated or unheard |
| `Dispatcher.WhatATickStores` | pkg/controllers/dispatcher.go:60-72 | Every request a tick logs stands in the store as SyncNow set to true on a record that was due; every other record is exactly as it was, and of the logged ones only SyncNow and the version changed; whether the tick fails or not |
| `Dispatcher.AGoodTickSetsSyncNowExactly` | pkg/controllers/dispatcher.go:46-75 | A tick that succeeds on a list of the stored records sets SyncNow for the due ones and leaves all others exactly as they were |
| `Dispatcher.LoggedMeansStored` | pkg/controllers/dispatcher.go:64-68 | For each request logged in a run there was a tick after which the stored record asked the controller for a validation, with the validation time of the request |
| `Dispatcher.AnIntervalIsDrawnExactlyAfterAsking` | pkg/util/jitterbug/jitterbug.go:60-78 | The interval in force is drawn anew by exactly the ticks that succeed and ask for somebody |
| `Dispatcher.Manager.OnTick` | pkg/controllers/dispatcher.go:39-75 | The loop with its flag and early return stores and asks for what the walk over the list does, of which WhatATickStores is proved, and answers alike |
| `Credentials.WriteThrough` | internal/suseconnect/credentials/secrets_adapter.go:169-190 | While all saves succeed, the stored token is the one in memory, the last that was set, and the stored login is the last complete pair set, else the loaded one |
| `Credentials.StoredLoginIsNeverTorn` | internal/suseconnect/credentials/secrets_adapter.go:75-129 | Whatever fails, the stored login is the loaded pair or one complete pair that was set |
| `Credentials.RefreshRecoversTheLogin` | internal/suseconnect/credentials/secrets_adapter.go:54-73 | A complete stored login outlives every run, incomplete SetLogin calls included, and a refresh brings it back |
| `Credentials.LoginIsForCompletePairs` | internal/suseconnect/credentials/credentials.go:55-98 | A login is handed out exactly when both halves are there |
| `Credentials.SaveStoresTheCredentials` | internal/suseconnect/credentials/secrets_adapter.go:75-129 | A save stores token and complete login together or nothing |
| `Credentials.ASaveKeepsTheRest` | internal/suseconnect/credentials/secrets_adapter.go:75-129 | A save that succeeds leaves the credentials finalizer on the secret, every foreign finalizer, key and label as it read them, and the stamped labels and owner |
| `Credentials.AFailedReadStoresNothing` | internal/suseconnect/credentials/secrets_adapter.go:75-90 | A save whose read fails writes nothing |
| `Credentials.MemoryHasTheLastToken` | internal/suseconnect/credentials/secrets_adapter.go:169-178 | The token in memory is the last one that was set, whatever fails: an empty one blanks it |
| `Credentials.LoadedExactly` | internal/suseconnect/credentials/secrets_adapter.go:54-73 | Every secret that holds anything is loaded, and nothing is loaded that it does not hold |
| `Credentials.SecretsAdapter.SaveCredentials` | internal/suseconnect/credentials/secrets_adapter.go:75-129 | The read-modify-write in place equals the save of which this is proved |
| `Credentials.SecretsAdapter.UpdateToken` | internal/suseconnect/credentials/secrets_adapter.go:169-178 | Skips the save exactly when both tokens are empty |
| `Credentials.SecretsAdapter.LoadCredentials` | internal/suseconnect/credentials/secrets_adapter.go:58-73 | An absent or empty secret leaves memory as it was |

## Left out

* SCC traffic, certificate signatures, metrics, logging, configuration, leader election, informers and CRD installation:
  their results are parameters.
* `OnRegistrationRemove`, `Deregister`, the removal of the credentials secret and name builders: they would only add easy
  members.
* The retry loops back off between rounds; the model has the rounds (five) and no waiting.
* Conditions have no timestamps, and reason and message texts that no branch reads are shortened. `CurrentCondition` is
  modelled by the kind it names, not as a pointer into the list.
* Durations and times are unbounded integers of seconds; overflow of 64-bit nanoseconds is not modelled. `InitialDelay`
  is not set by either configuration and is not part of this model.
* The specs of Registrations do not appear in the entrypoint model; the other secrets it writes appear there as calls
  that may fail. Both appear in models of their own (`Registrations`, `SecretRepository`, `Credentials`).
* A Get that finds nothing inside a retry is followed in the source by a patch without a name, which the client refuses;
  the model ends the loop there.
* Namespace and name checks of secrets, and the ownership check before `SecretRemoval.OnSecretRemove`, are taken as passed.
- Initializer.EveryGetReturnsTheFirstSet: the mutex and the condition variable are modelled as atomic transitions; weak
  memory effects of the read after the wait are not modelled.
- Dispatcher.NobodyIsStale: a tick takes no time, and a change of the controller happens at the time it writes as validation.
- Credentials.WriteThrough: other writers may add keys to the secret but do not write the three keys of the adapter.
