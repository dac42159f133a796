# Verification of the asset and maintenance backend

Dafny models of the backend's stateful services and of two small codecs, with proofs of what
they keep over every run. `dafny verify dfyconfig.toml` checks the whole project.

## What is modelled

- **Identities, devices, wallets, sign-in** (`IdentityModel` and the modules on it). A service
  call is its guards and a script of effects. `Perform` runs a call as one step;
  `Interleaving` runs any number of calls at once, effect by effect, with a scheduler that may
  stop any of them, guards that read arbitrarily stale or torn state, and others moving the
  chain. The chain is the two registries of `contracts/src`: wallets PENDING, ACTIVE, REVOKED,
  and role sets. A submission may be answered, turned away, or take effect and lose its answer.
  `Repositories`, `UsersService` and `AuthService` are the same calls as statements on mutable
  repositories, proved equal to the scripts. What the calls come to is then stated on the rows,
  without the services' lookups (`Facts`): exactly when each is let through and what it leaves
  (`Outcomes`, `SignIns`, `CredentialSafety`), whole ways through them (`Journeys`, `Rotation`),
  and where every success comes from in any interleaving (`Provenance`).
- **The per-wallet send queue** (`SendQueue`): sends are tickets; a step machine interleaves them
  at the points where the code awaits; the class holds the map and the segments of `sendAs`.
- **Assets** (`Forest`, `Assets`, `AssetsService`): hierarchy, guards, reconciliation, device
  signing, and the service with its in-memory map, which the contracts of its methods show to be
  invisible.
- **Jobs** (`Jobs`, `JobsService`): histories, separation of duties, and live job records changed
  in place.
- **The in-memory chain** (`MockLedger`): replay onto live records and the committee rotation.
- **Validators** (`Validators`): the height-driven lifecycle, its lazy view and its audit history.
- **Grants** (`Grants`): lazy expiry.
- **Codecs** (`Multipart`, `CompactSignature`).

Only the send queue, the chain-versus-records property and the challenge properties are stated
for arbitrary interleavings. Everything else takes a service call as one step for the others,
because the calls check, await and then write.

## Hypotheses the theorems name

- `WalletSafety.Admissible`: generated ids are fresh, and whenever a call passes its guards its
  ids are free in the trimmed form in which it stores them (`IdentityInvariant.IdsFree`).
  `UntrimmedIds.PreservedExactly` says that a passing call without this never keeps the records.
- `Validators.Plausible`: heads do not go down within a call, and registration ids are fresh.
- `AssetsService.LedgerEvolves`: the chain keeps assets, their type, and reports parents it has
  reported.
- `Grants.FreshGrants`, `RecordPermanence.FreshRun`, `Registration.NoMoreFailures`,
  `Registration.MayOnboard`, `Registration.Resumable`, `Registration.Others`,
  `Registration.OthersElsewhere`,
  `Journeys.Ready`, `Journeys.Unknown`, `Rotation.Distinct`: as named.

## What does not hold

Each of these is a theorem of the project, with the exact condition where one exists.

- `activateRegistration` fails, however often it is retried, while the chain holds the wanted
  role behind one that comes earlier in the shared role order (`Registration.RetryCompletes`,
  `Registration.HiddenNeverCompletes`). Two attempts and an `assignRole` lead there
  (`Registration.HiddenRoleReached`), another `assignRole` leads out (`Registration.RoleRestored`).
- In EVM mode nobody can replace their own active wallet, and an administrator who tries is left without one
  (`Rotation.SelfRotationStrands`, `Rotation.SelfRotationLoses`); an administrator can do it for them
  (`Rotation.RotationCompletes`).
- A stop between the saves that follow the chain sequence leaves a registration that
  `activateRegistration` never accepts again (`Registration.CrashRecovery`).
- `registerWallet`, `verifyRegistration` and `initializeAccount` look ids up as given and store
  them trimmed, so an id with a space after it can revert a wallet, duplicate an employee id or
  take over a device; `createUser` does not look an empty identity id up at all, so two such
  creations overwrite each other (`UntrimmedIds`, with the exact condition of each).
- A lost creation of a job leaves the in-memory chain with another asset under the id of the
  next job (`Jobs.LostCreationMisleads`).
- The in-memory chain never learns a job's chosen verifier or priority (`Jobs.ReplayMatches`).
- A job reassigned to the identity that rejected it can never be judged again
  (`Jobs.ReassignedToRejecter`, `Jobs.StuckForever`).
- The payload of a job preparation can name another job than the one that was checked
  (`Jobs.PrepareAgrees`).
- Cancelling a removal before activation makes a validator ACTIVE early
  (`Validators.TimelyUnlessCancelledEarly`, `Validators.EarlyCancellation`).
- Transactions sent on a wallet from elsewhere break the nonce sequence
  (`SendQueue.ExternalBreaksSequence`), and a late arrival makes the next send fail
  (`SendQueue.LateArrivalSpoils`).
- A multipart part whose filename parameter comes first is refused (`Multipart.FilenameFirst`).

## Model

| member | source | states |
|---|---|---|
| IdentityRuns.PerformKeeps | backend/src/users/users.service.ts:51-332 | Every one of the 18 identity and sign-in calls, taken as one step with any fate of its submissions and refused or not, keeps the record invariant (rows under their own keys, employee ids unique, every active wallet on an active device of the same active identity and named by its user row, at most one active wallet per identity) and moves wallets only PENDING to ACTIVE to REVOKED; a call that passes its guards needs its ids free in the form in which they are stored |
| WalletSafety.RunKeeps | backend/src/users/users.service.ts:95-332 | The invariant holds after every run of calls whose ids are free as stored wherever the guards pass; over the whole run no wallet row disappears, is registered again or changes anything but its status, which only moves forward, no issued session is rewritten, no identity past onboarding changes in anything but its role, and no device moves to another identity |
| WalletSafety.ActiveWalletUnique | backend/src/users/users.service.ts:193-308 | In every state such a run reaches, two active wallets of one identity are the same wallet, on an active device of that identity, and it is the one its user row names |
| WalletSafety.SenderIsActiveWallet | backend/src/users/users.service.ts:449-456 | The wallet a submission is sent from is the actor's unique active wallet whenever there is one |
| WalletSafety.SubmissionSender | backend/src/users/users.service.ts:449-456 | Without an active wallet a submission goes out as SYSTEM, and in EVM mode it is refused before it reaches the chain |
| WalletSafety.EmptyStoreGood | backend/src/users/repository-implementations.ts:218-220 | Freshly created memory repositories satisfy the invariant |
| WalletSafety.CallPreserves | backend/src/users/users.service.ts:51-332 | One call preserves all that a run preserves, when its ids are free as stored |
| UntrimmedIds.RegisterWalletExact | backend/src/users/users.service.ts:261-270 | A registerWallet that passes its guards preserves the records if and only if the trimmed address is new or names this very pending registration; it looks the address up as given and stores it trimmed |
| UntrimmedIds.VerifyRegistrationExact | backend/src/users/users.service.ts:185-189 | A verifyRegistration that passes its guards preserves the records if and only if nobody but the target holds the trimmed employee id |
| UntrimmedIds.InitializeAccountExact | backend/src/users/users.service.ts:120-145 | An initializeAccount that passes its guards preserves the records if and only if its employee id, device id and address are all free once trimmed; a taken one costs the uniqueness of employee ids, the device row, or the wallet row |
| UntrimmedIds.PreservedExactly | backend/src/users/users.service.ts:51-332 | For every call that passes its guards the records are preserved if and only if its ids are free as stored; in EVM mode the chain must not know the empty identity id, which it never does |
| UntrimmedIds.RegisterWalletReverts | backend/src/users/users.service.ts:266-269 | A store in which registering one's own active address with a space after it takes the wallet back to PENDING |
| UntrimmedIds.VerifyRegistrationDuplicates | backend/src/users/users.service.ts:185-189 | A store in which a passing verification gives one employee id to two identities |
| UntrimmedIds.InitializeAccountOverwrites | backend/src/users/users.service.ts:120-145 | A store in which a passing initialization takes over a colleague's device |
| UntrimmedIds.EmptyIdExact | backend/src/users/users.service.ts:51-74 | A direct creation under an empty identity id, which is not looked up, preserves the records if and only if nobody holds that id, or the holder is pending and has no pending device (for a pending creation), or no user row but under this employee id (for any other) |
| UntrimmedIds.EmptyIdNeverBound | contracts/src/IdentityRegistry.sol:134-142 | The registries never bind a wallet to the empty identity id, in any run of calls, so that in EVM mode such a creation is refused |
| UntrimmedIds.EmptyIdOverwrites | backend/src/users/users.service.ts:54-55 | From the empty store, two creations with an empty identity id and different employee ids both pass, and the second replaces the identity of the first |
| RecordPermanence.PerformSpares | backend/src/users/users.service.ts:51-332 | No call, in whatever state it finds the store and however it ends, changes an identity past onboarding in anything but its role, the one under the empty id excepted |
| RecordPermanence.PerformStays | backend/src/users/users.service.ts:220-259 | No call moves a device to another identity, unless it initializes an account on an id whose trimmed form is taken |
| SignIns.SignInRoundTrip | backend/src/auth/auth.service.ts:30-119 | A requested sign-in challenge opens a session exactly within five minutes and with the device's signature over its nonce, and never a second one |
| SignIns.SessionLasts | backend/src/auth/auth.service.ts:80-160 | A session just opened, by proof or by credential, is taken by validateSession and by the fresh-authentication calls at every moment before ttl seconds, at least sixty, have passed, and at none from then on |
| SignIns.SessionEnds | backend/src/auth/auth.service.ts:132-149 | From its expiry on no later run of calls makes a session valid again |
| SignIns.FreshRoundTrip | backend/src/auth/auth.service.ts:43-78 | A fresh-authentication challenge is met exactly within two minutes, while its session stands, by a signature for that operation, resource and session, and only once |
| SignIns.ProofExactly | backend/src/auth/auth.service.ts:101-119 | loginWithProof succeeds exactly for an unused, unexpired sign-in challenge of the device whose nonce is signed under the device's key, spends it, and opens one session on the device's active wallet; otherwise nothing changes |
| SignIns.CredentialExactly | backend/src/auth/auth.service.ts:80-99 | login succeeds outside production on the device the credential is bound to, and opens a session on its active wallet |
| SignIns.NoSignIn | backend/src/auth/auth.service.ts:80-119 | Nobody signs in, either way, on a device without an active wallet of its active, employed identity |
| SignIns.RequestExactly | backend/src/auth/auth.service.ts:30-41 | A sign-in challenge is issued exactly for an active device of an active identity with an active wallet on it, for five minutes |
| SignIns.ProvisionExactly | backend/src/users/users.service.ts:76-93 | A provisioning challenge is issued exactly for a named, attested device, for five minutes |
| SignIns.RequestFreshExactly | backend/src/auth/auth.service.ts:43-58 | A fresh-authentication challenge is issued exactly for a standing session and a named operation, for two minutes, bound to session, operation and resource |
| SignIns.VerifyFreshExactly | backend/src/auth/auth.service.ts:60-78 | It is met exactly by the key of the session's device, for this session, operation and resource, unexpired and unused |
| SignIns.LiveExactly | backend/src/auth/auth.service.ts:155-160 | In every reachable store a session stands on its wallet and its identity being active alone: its device then is active, too |
| SignIns.AcceptedExactly | backend/src/auth/auth.service.ts:132-149 | validateSession takes exactly the standing sessions of employed identities, in EVM mode with an address still derived from the device's key |
| SignIns.ValidateExactly | backend/src/auth/auth.service.ts:132-151 | validateSession deletes exactly the session it does not take, logout the one it is given, and neither anything else |
| CredentialSafety.RevocationForgets | backend/src/users/users.service.ts:255-255 | A successful revokeDevice leaves no credential that opens the device and leaves every other credential as it was |
| CredentialSafety.RevokedStaysOut | backend/src/users/users.service.ts:237-259 | After it, in every continuation, a credential opens a session on the device only if a later call registered the device with it again |
| CredentialSafety.OthersSignInAsBefore | backend/src/users/users.service.ts:237-259 | A login with another device's credential is answered after the revocation as before it |
| CredentialSafety.OnlyRegistrationBinds | backend/src/users/repository-implementations.ts:185-189 | Whatever run of calls, a credential opens a device only if it did before or a call registered that device with that credential |
| CredentialSafety.RegisteredSignsIn | backend/src/users/users.service.ts:220-235 | The credential a device is registered with signs in on that device |
| Outcomes.RegisterDeviceExactly | backend/src/users/users.service.ts:220-235 | Exactly when a device can be registered, which key it keeps, which credential it is bound to, and nothing else changed |
| Outcomes.RevokeDeviceExactly | backend/src/users/users.service.ts:237-259 | Exactly when a device can be revoked; device and its active wallets revoked and its credentials forgotten, or no record touched |
| Outcomes.RegisterWalletExactly | backend/src/users/users.service.ts:261-270 | Exactly when a wallet can be registered, and the pending row it leaves |
| Outcomes.RevokeWalletExactly | backend/src/users/users.service.ts:272-282 | Exactly when a wallet revocation is let through; it is the identity's active wallet that goes, and no other record |
| Outcomes.ActivateWalletPasses | backend/src/users/users.service.ts:284-296 | Exactly when a wallet activation is let through |
| Outcomes.ActivateWalletExactly | backend/src/users/users.service.ts:296-308 | It makes the wallet the identity's only active one and names it in the user row; failing midway it has at most revoked other active wallets of the identity |
| Outcomes.ActivateWalletRefuses | backend/src/users/users.service.ts:284-296 | Which error each refusal is |
| Outcomes.VerifyRegistrationExactly | backend/src/users/users.service.ts:179-191 | Exactly when a registration can be verified, by whom, and what identity row results |
| Outcomes.ActivateRegistrationExactly | backend/src/users/users.service.ts:193-218 | Exactly when an activation is let through; then identity, device, wallet and user row are what was pending, made active, or no record changes |
| Outcomes.AssignRoleExactly | backend/src/users/users.service.ts:310-333 | Exactly who may give whom a role; the role is then in the identity row and, where there is one, in the user row |
| Outcomes.InitializeAccountPasses | backend/src/users/users.service.ts:95-127 | Exactly when an account can be initialized: with a signature, under the key registered, over an unused, unexpired challenge of this device |
| Outcomes.InitializeAccountExactly | backend/src/users/users.service.ts:128-158 | The pending identity, device and wallet it leaves, and the spent challenge, or nothing at all |
| Outcomes.CreateUserPasses | backend/src/users/users.service.ts:51-62 | Exactly when a direct creation is let through |
| Outcomes.CreateUserExactly | backend/src/users/users.service.ts:58-74 | The identity and user rows it leaves, and when they depend on the chain |
| Outcomes.NobodyNamed | backend/src/users/users.service.ts:374-375 | No call acts for, or does anything to, an id that names nobody |
| Outcomes.EnsureExactly | backend/src/users/users.service.ts:411-447 | In EVM mode an ensure step is over when the chain has what it wants, a conflict when it has the contrary, and submits otherwise; outside EVM mode it always submits |
| Outcomes.ReportedRole | backend/src/blockchain/evm-adapter.ts:272-290 | The role the chain reports is the first in the shared order of those it holds for an identity it knows |
| Outcomes.ActsForCaller | backend/src/users/users.service.ts:449-456 | Every submission of a call is made on behalf of the identity its caller's id names |
| Facts.ResolvedExactly | backend/src/users/users.service.ts:374-374 | In every reachable store an id names the identity stored under it, or else the only one with this employee id, or nobody |
| Facts.RegistryExactly | contracts/src/IdentityRegistry.sol:63-103 | The registries act for active wallets of administrators only, for issuers also when a wallet is to be activated; they bind each address once, give no role twice and none to whom they do not know, and take a wallet from PENDING to ACTIVE to REVOKED |
| Facts.RegistryAfter | contracts/src/IdentityRegistry.sol:63-103 | A transaction that is taken changes one wallet or adds one role, and is last on the ledger |
| Journeys.OnboardedSignsIn | backend/src/users/users.service.ts:76-218 | With a chain that answers, a newcomer comes from nothing on file to a session in seven calls, all of which succeed: provisioned, initialized with a signed challenge, verified, given a role, activated on chain, challenged and signed in on their own device and wallet |
| Journeys.RevokeWalletCompletes | backend/src/users/users.service.ts:272-282 | An administrator's wallet revocation goes through exactly when the registry has the wallet unrevoked |
| Journeys.AssignRoleCompletes | backend/src/users/users.service.ts:310-333 | A role goes to somebody past onboarding exactly when the registry knows the identity and has not given it the role |
| Rotation.SelfRotationStrands | backend/src/users/users.service.ts:296-306 | In EVM mode nobody can replace their own active wallet: unless the registry had activated the new one before, the call fails, and either nothing has happened or the identity is left without any active wallet, because the old one is revoked and was to sign the rest |
| Rotation.SelfRotationLoses | backend/src/users/users.service.ts:296-306 | An administrator who replaces their own wallet, with a chain that answers everything, fails and is left without any active wallet |
| Rotation.RotationCompletes | backend/src/users/users.service.ts:284-308 | An administrator's replacement for somebody else goes through whenever the registry has the old wallet unrevoked and can take the new one |
| Provenance.EverySuccessJustified | backend/src/auth/auth.service.ts:60-119 | In every interleaving, every session, registration and fresh authentication a challenge ever bought goes back to one call that entered earlier with a signature, under the key it found on record, over that challenge's nonce, before its expiry, for that device, purpose and binding, and that found device, identity, wallet or session active |
| SessionSafety.InactiveWalletKillsSession | backend/src/auth/auth.service.ts:132-149 | Once a session's wallet is no longer active, no clock and no later run of calls makes the session valid again |
| SessionSafety.WalletRevocationEndsSessions | backend/src/users/users.service.ts:272-282 | A successful revokeWallet ends, for every continuation, every session ever issued to that identity |
| SessionSafety.WalletRotationEndsSessions | backend/src/users/users.service.ts:284-308 | A successful activateWallet ends, for every continuation, every session issued to that identity before it |
| SessionSafety.DeviceRevocationEndsSessions | backend/src/users/users.service.ts:237-259 | A successful revokeDevice ends, for every continuation, every session issued on that device before it, also when the device is registered again and gets a new wallet |
| SessionSafety.LiveSessionsShareWallet | backend/src/auth/auth.service.ts:80-119 | In every reachable state all sessions of one identity that validate name one wallet |
| Registration.EnsureStep | backend/src/users/users.service.ts:411-440 | Each ensure step recognises a checkpoint the chain has passed and otherwise takes the chain from it to the next one or leaves it, whatever becomes of the submission |
| Registration.OneAttempt | backend/src/users/users.service.ts:193-218 | One activation attempt only advances along the three checkpoints, changes no record unless all three hold on chain, and succeeds only then |
| Registration.AttemptsInOrder | backend/src/users/users.service.ts:193-218 | Any number of failed and retried activations, by whichever actors and with any calls in between that save and submit nothing about this registration, has at most one effective IDENTITY_CREATE, ROLE_ASSIGN and WALLET_ACTIVATE, in that order, and identity, device and wallet stay as they were until an attempt succeeds, which takes all three |
| Registration.OtherActivation | backend/src/users/users.service.ts:193-218 | The activation of another identity with another wallet saves and submits nothing about this registration, so any number of registrations may be activated side by side |
| Registration.RetryCompletes | backend/src/users/users.service.ts:411-440 | A failure-free retry from any checkpoint ends with identity, device and wallet ACTIVE, if and only if the chain reports the wanted role first or does not hold it at all |
| Registration.CrashRecovery | backend/src/users/users.service.ts:200-214 | A process stopped after any number of an activation's effects strands the registration exactly when the chain sequence went through and the first save happened but not the last: then no later run of calls by anybody makes activateRegistration accept it, and otherwise the very next call is accepted |
| Registration.HiddenNeverCompletes | backend/src/users/users.service.ts:426-432 | While the chain holds the wanted role behind an earlier one, no attempt by anybody succeeds, however often, whatever becomes of its submissions, and whatever is called in between that saves nothing of this registration; the role stays hidden |
| Registration.HiddenRoleReached | backend/src/users/users.service.ts:310-333 | That state is reached: a first attempt stops after its role, the administrator gives the pending identity a role later in the shared order, and the next attempt loses the answer to that role's assignment |
| Registration.RoleRestored | backend/src/users/users.service.ts:310-333 | And it is left again: given back the role the chain reports, the identity can be activated |
| Interleaving.ExecEvolves | backend/src/users/users.service.ts:411-456 | Each effect of a call, rejected, answered or with its answer lost, only moves chain wallets forward, and an effect that completes has confirmed the wallet status it is for |
| Interleaving.AloneIsOnePass | backend/src/users/users.service.ts:374-374 | A call that runs alone is the special case in which all its lookups see one state |
| Interleaving.PlanCovered | backend/src/users/users.service.ts:193-308 | Whatever a call's guards read, stale, torn, or different each time they looked, it saves a wallet status only after an effect that confirms it on the chain |
| Interleaving.ChainNeverBehind | backend/src/users/users.service.ts:193-308 | For any number of calls in flight, every interleaving of their effects, every rejection, lost answer, stopped process and movement of the chain by others, no stored wallet status ranks above the chain's (none and PENDING below ACTIVE below REVOKED) |
| ChallengeSafety.PlanShaped | backend/src/auth/auth.service.ts:30-119 | Whatever its guards read, and however its second readings differ from the first, a call that is to hand something out for a challenge first consumes that challenge and then saves what matches its purpose, device and binding; no other call touches challenges |
| ChallengeSafety.RunSound | backend/src/users/repository-implementations.ts:208-215 | In every interleaving no challenge is spent twice, by a success or by a parked call, and every used challenge is accounted for |
| ChallengeSafety.SuccessOncePerChallenge | backend/src/auth/auth.service.ts:60-78 | In every interleaving of provisioning, sign-in and fresh-authentication calls each challenge buys at most one success, for its own purpose and device, and for fresh authentication also its session, operation and resource |
| ChallengeSafety.ConsumedAccounting | backend/src/auth/auth.service.ts:101-119 | For each purpose, successes ever logged plus calls parked between consuming and saving equals consumed challenges; a fresh authentication never parks |
| Repositories.Store.SaveIdentity | backend/src/users/repository-implementations.ts:159-165 | Saving is setting one row, and is the effect the scripts name |
| Repositories.Store.SaveUser | backend/src/users/repository-implementations.ts:166-171 | As above, by employee id |
| Repositories.Store.SaveDevice | backend/src/users/repository-implementations.ts:172-177 | As above, by device id |
| Repositories.Store.SaveWallet | backend/src/users/repository-implementations.ts:178-183 | As above, by address |
| Repositories.Store.SaveCredential | backend/src/users/repository-implementations.ts:187-187 | Credential verifiers map to devices |
| Repositories.Store.RevokeForDevice | backend/src/users/repository-implementations.ts:189-189 | Drops exactly the verifiers of one device |
| Repositories.Store.SaveChallenge | backend/src/users/repository-implementations.ts:207-207 | Stores or replaces one challenge |
| Repositories.Store.ConsumeIfUnused | backend/src/users/repository-implementations.ts:208-215 | Atomic check-and-set: true exactly when the challenge exists and is unused, and then it is used |
| Repositories.Store.SaveSession | backend/src/users/repository-implementations.ts:194-194 | Stores one session under its token |
| Repositories.Store.DeleteSession | backend/src/users/repository-implementations.ts:195-195 | Removes one session |
| Repositories.Store.SubmitTransaction | backend/src/blockchain/evm-adapter.ts:182-267 | A submission is processed and answered, turned away without effect, or takes effect and loses its answer; in EVM mode the registries may revert it |
| UsersService.Service.CreateUser | backend/src/users/users.service.ts:51-74 | Refuses a known employee id and a known non-empty identity id; otherwise saves identity and user row, after a confirmed role change when the chain reports another role, before announcing both when it knows none, and in EVM mode refuses an identity the chain does not know |
| UsersService.Service.RequestProvisioningChallenge | backend/src/users/users.service.ts:76-93 | Stores one unused challenge for an attested device, open for five minutes |
| UsersService.Service.InitializeAccount | backend/src/users/users.service.ts:95-158 | Consumes the device's unused, unexpired, proven challenge first, and only then saves a pending identity, device and wallet, under trimmed ids of which it looked up the untrimmed ones |
| UsersService.Service.VerifyRegistration | backend/src/users/users.service.ts:179-191 | Lets only an active administrator replace employee id and department of a pending identity by the trimmed ones, unless the employee id as given is another identity's |
| UsersService.Service.ActivateRegistration | backend/src/users/users.service.ts:193-218 | Only an active administrator, and a verified pending identity with a role and a pending device and wallet of one key; identity, role and wallet are confirmed on the chain, in that order, before the first of the four records is saved |
| UsersService.Service.RegisterDevice | backend/src/users/users.service.ts:220-235 | Makes a device active for an identity unless it is another's or active already, keeps its key when none is given, and binds the credential to it |
| UsersService.Service.RevokeDevice | backend/src/users/users.service.ts:237-259 | Confirms the revocation of each active wallet of the device on the chain before it revokes the device, drops its credentials and revokes the wallet records |
| UsersService.Service.RegisterWallet | backend/src/users/users.service.ts:261-270 | Saves a pending wallet on an active device of an active identity whose key it must match, refused when the address as given is known |
| UsersService.Service.RevokeWallet | backend/src/users/users.service.ts:272-282 | Submits the revocation of the identity's active wallet for the resolved actor, and revokes the record only when that is confirmed |
| UsersService.Service.ActivateWallet | backend/src/users/users.service.ts:284-308 | Revokes the identity's other active wallets one by one, each on the chain before its record, then announces and activates the pending wallet and points the user row at it |
| UsersService.Service.AssignRole | backend/src/users/users.service.ts:310-333 | Only an active administrator; a pending identity without a user row is changed in its record alone, anybody else only after a confirmed role submission, in identity and user row |
| UsersService.Service.Submit | backend/src/users/users.service.ts:449-456 | Signs with the actor's wallet if it is active, else as SYSTEM, else refuses; ends as the two-read effect of the model does |
| UsersService.Service.EnsureIdentityCreated | backend/src/users/users.service.ts:411-425 | Reads the chain, refuses a foreign binding, skips a known one, else submits |
| UsersService.Service.EnsureRoleAssigned | backend/src/users/users.service.ts:426-432 | Skips a role the chain reports, else submits |
| UsersService.Service.EnsureWalletActive | backend/src/users/users.service.ts:433-440 | Skips an active wallet, refuses a revoked one, else submits |
| UsersService.Service.EnsureWalletRevoked | backend/src/users/users.service.ts:441-447 | Skips a revoked wallet, else submits |
| UsersService.Service.RevokeDeviceAndWallets | backend/src/users/users.service.ts:243-255 | First loop confirms every wallet on the chain, only then device, credentials and, in the second loop, wallets are written |
| UsersService.Service.ReplaceAndActivate | backend/src/users/users.service.ts:297-306 | The loop revokes each old wallet on the chain before its record, then the new wallet is announced, activated and made the identity's wallet |
| AuthService.Service.RequestAuthenticationChallenge | backend/src/auth/auth.service.ts:30-41 | Stores one sign-in challenge, for five minutes, for an active device of an active identity with an active wallet on that device |
| AuthService.Service.RequestFreshAuthenticationChallenge | backend/src/auth/auth.service.ts:43-58 | Stores one challenge, for two minutes, bound to the session's hash, the trimmed operation and the resource, when the session and the records behind it are live |
| AuthService.Service.VerifyFreshAuthentication | backend/src/auth/auth.service.ts:60-78 | Consumes the challenge, as its last act, when the session is live, the challenge is bound to it and to this operation and resource, and the device, identity and wallet, read again, are active and match key, address and signature |
| AuthService.Service.Login | backend/src/auth/auth.service.ts:80-99 | Outside production, turns a credential into a session on the identity's first active wallet, when that is on the credential's active device |
| AuthService.Service.LoginWithProof | backend/src/auth/auth.service.ts:101-119 | Consumes a proven sign-in challenge of this device first, and then saves one session that lasts at least a minute |
| AuthService.Service.ValidateSession | backend/src/auth/auth.service.ts:132-149 | Answers with a user exactly when the session is unexpired and every record behind it is live, and deletes it otherwise |
| AuthService.Service.Logout | backend/src/auth/auth.service.ts:151-151 | Deletes the session, known or not, and nothing else |
| Grants.ValidExactly | backend/src/users/users.service.ts:353-365 | Over every run from the empty store: validateGrant says yes exactly when an active administrator's confirmed event granted this very use of this very asset to this active identity under this id, no confirmed event of its grantor or an administrator has taken it back since, and it has not expired |
| Grants.FoundExactly | backend/src/users/users.service.ts:348-351 | findActiveGrant finds a grant exactly when the resource is an asset and some event still grants the use |
| Grants.CreatedExactly | backend/src/users/users.service.ts:340-346 | createGrant succeeds exactly for an active administrator and an active target, for the transfer of an asset, once confirmed, with which grant, and otherwise with which error |
| Grants.RevokedExactly | backend/src/users/users.service.ts:352-352 | Over every run: revokeGrant succeeds exactly when it takes back what some earlier event granted, and otherwise says what is missing |
| Grants.ListedExactly | backend/src/users/users.service.ts:347-347 | listGrants shows exactly the stored grants to that identity |
| Grants.FailsForever | backend/src/users/users.service.ts:353-362 | With a nondecreasing clock, once an existing grant that matches a use fails validation it fails at every later time and after any further events |
| Grants.LazyWriteInvisible | backend/src/users/users.service.ts:347-362 | The EXPIRED write of validateGrant changes no answer to any later event, except that a listing may show a grant past its expiry as expired instead of granted, and nothing else of it |
| Grants.FindExact | backend/src/users/users.service.ts:348-351 | findActiveGrant answers exactly when some stored grant for that kind of resource would pass validateGrant at that instant, and with such a grant |
| Grants.Service.CreateGrant | backend/src/users/users.service.ts:340-346 | Who may create which grants, and nothing stored without a confirmed submission |
| Grants.Service.RevokeGrant | backend/src/users/users.service.ts:352-352 | Only the grantor or an admin, and stored only after a confirmed submission |
| Grants.Service.ValidateGrant | backend/src/users/users.service.ts:353-362 | The verdict and the lazy write |
| Grants.Service.ListGrants | backend/src/users/users.service.ts:347-347 | The grants of an existing identity, as stored |
| Grants.Service.FindActiveGrant | backend/src/users/users.service.ts:348-351 | The first active grant in storage order |
| SendQueue.ResolvedIffAheadFinished | backend/src/blockchain/evm-adapter.ts:523-528 | The chained promise a send awaits has resolved exactly when every earlier send of its wallet has released |
| SendQueue.ExclusiveFifo | backend/src/blockchain/evm-adapter.ts:521-540 | For any number of sends and any interleaving, at most one send per wallet is between its turn and its release, and everyone who entered before it has finished |
| SendQueue.EntryExact | backend/src/blockchain/evm-adapter.ts:523-540 | The map entry of a wallet is present exactly while one of its sends is live, and names the last of them |
| SendQueue.TurnComes | backend/src/blockchain/evm-adapter.ts:528-529 | A queued send can be woken exactly when everyone ahead of it on its wallet has finished |
| SendQueue.Drains | backend/src/blockchain/evm-adapter.ts:528-539 | From every reachable state all sends in flight can be brought to their end, whatever fails, and then the map is empty |
| SendQueue.NoncesConsecutive | backend/src/blockchain/evm-adapter.ts:530-535 | If nobody else spends a wallet's nonces, its accepted broadcasts carry consecutive nonces from the count at start, without duplicate or gap, however many sends fail, and however late a transaction that was given up on reaches the node |
| SendQueue.EverySuccessSent | backend/src/blockchain/evm-adapter.ts:530-535 | In every run a wallet's successful sends, with those whose answer is still out, are at most its accepted broadcasts: none succeeds without a transaction of its own |
| SendQueue.LateArrivalSpoils | backend/src/blockchain/evm-adapter.ts:530-539 | A transaction that arrives after its send gave up can take the nonce the next send has read, and then the node refuses that send |
| SendQueue.ExternalBreaksSequence | backend/src/blockchain/evm-adapter.ts:530-535 | The condition is needed: a count moved from outside between two sends is the second send's nonce, whatever the first one was |
| SendQueue.Adapter.Begin | backend/src/blockchain/evm-adapter.ts:521-527 | Becomes the tail behind the previous one |
| SendQueue.Adapter.Resume | backend/src/blockchain/evm-adapter.ts:528-528 | Runs alone on its wallet |
| SendQueue.Adapter.TakeNonce | backend/src/blockchain/evm-adapter.ts:530-533 | Reads the pending count |
| SendQueue.Adapter.Send | backend/src/blockchain/evm-adapter.ts:535-535 | The node takes the transaction unless its nonce is spent, and then nothing changes |
| SendQueue.Adapter.Late | backend/src/blockchain/evm-adapter.ts:535-539 | A transaction that was given up on reaches the node after all, and neither the map nor any live send notices |
| SendQueue.Adapter.Release | backend/src/blockchain/evm-adapter.ts:536-539 | Releases, and drops the map entry exactly when nobody is queued behind |
| Forest.WalkExact | backend/src/assets/assets.service.ts:307-320 | On any finite parent relation, cyclic ones included, the walk stops; it reports the component exactly when it is a proper ancestor, and a cycle exactly when it is not and the chain of parents never ends |
| Forest.WalkOnForest | backend/src/assets/assets.service.ts:307-320 | On a forest the walk rejects exactly proper ancestors |
| Forest.EdgeKeepsForest | backend/src/assets/assets.service.ts:197-209 | Adding an edge from a root keeps the relation a forest exactly when the new parent is neither the component nor below it |
| Assets.AttachExactly | backend/src/assets/assets.service.ts:197-209 | attachComponent passes exactly for existing, usable assets when the component is a root and the new edge leaves the hierarchy a forest |
| Assets.ForestKept | backend/src/assets/assets.service.ts:88-250 | The hierarchy stays a forest over existing assets and owner equals custodian through every call and every fate of its transaction, a lost answer included |
| Assets.ServedAsIntended | backend/src/assets/assets.service.ts:88-250 | A successful call changes what it announces on the asset it is about and nothing a reader sees of any other asset |
| Assets.DecommissionedStays | backend/src/assets/assets.service.ts:151-153 | A decommissioned asset stays so, with its owner, type and token: whatever call is made and however it ends, it can only be detached from its parent |
| Assets.PassesExactly | backend/src/assets/assets.service.ts:88-320 | Exactly when create, transfer, state change and removal are let through, on the assets as a reader sees them, and what each call then submits |
| Assets.FallsBackOn | backend/src/assets/assets.service.ts:114-130 | Where the chain is silent a call falls back on the asset as it was with the announced change, or on a new, active one without a token |
| Assets.RefusesFor | backend/src/assets/assets.service.ts:88-320 | Which refusal each call that is not let through gets |
| Assets.AnsweredExactly | backend/src/assets/assets.service.ts:338-388 | Past its guards a call succeeds exactly when it is signed for, in EVM mode by a device, the chain accepts it, and the asset can be read there or was given a token; and otherwise with which error |
| Assets.OnlySuccessStores | backend/src/assets/assets.service.ts:368-388 | A refused, rejected, failed or unreconciled write never changes the repository; a successful one stores exactly the record it returns |
| Assets.ChainWins | backend/src/assets/assets.service.ts:390-400 | Token, owner, custodian, status and reported parent and type are the chain's in what a write returns and in every later read, whatever others did on the chain |
| Assets.LookExactly | backend/src/assets/assets.service.ts:390-400 | What a reader sees of an asset on either side or both: the chain's values, and the repository's id, type and parent where the chain is silent |
| Assets.TypeSurvives | backend/src/assets/assets.service.ts:390-400 | With a chain that stores no types the type given at creation survives every later write, however it ends |
| Assets.ReplayMatches | mocks/mock-blockchain/index.ts:39-78 | Over every run the ledger is the replay of the accepted submissions, and while no answer is lost the repository shows the same assets with the same owner, custodian, parent, status and token |
| Assets.PrepareAgrees | backend/src/assets/assets.service.ts:252-286 | For trimmed non-empty ids each of the four preparations stops where its mutation stops, with the same error, and otherwise carries the payload the mutation submits |
| Assets.PrepareTrims | backend/src/assets/assets.service.ts:252-286 | On any ids each of the four preparations refuses a missing or blank one, and otherwise prepares what its mutation would submit for the trimmed ids; the mutation itself takes ids as they are |
| AssetsService.ReadThrough | backend/src/assets/assets.service.ts:77-86 | A read through the in-memory map answers what a read without it would |
| AssetsService.EvolvingAgrees | backend/src/assets/assets.service.ts:58-67 | No chain movement by others makes the map tell a different answer, as long as assets stay registered under their type and reported parents stay reported |
| AssetsService.RecordEvolves | mocks/mock-blockchain/index.ts:39-78 | Every replayed transaction is such a movement |
| AssetsService.Service.GetById | backend/src/assets/assets.service.ts:77-86 | Answers with the repository's asset reconciled with the ledger's, the same with any map and with none |
| AssetsService.Service.Create | backend/src/assets/assets.service.ts:88-132 | Mints once, for a known owner who is the custodian too, under an id a reader finds nothing at, given or generated, and stores the reconciled record; map contents make no difference |
| AssetsService.Service.Transfer | backend/src/assets/assets.service.ts:134-176 | Moves owner and custodian together to a known identity, for an asset that is in use and no component, and stores only what the chain confirms; map contents make no difference |
| AssetsService.Service.ChangeAssetState | backend/src/assets/assets.service.ts:178-195 | Follows the allowed state changes on the status a reader would see, not on the one in the map |
| AssetsService.Service.AttachComponent | backend/src/assets/assets.service.ts:197-226 | Attaches a root component below an asset that is neither it nor below it; the walk reads through the map and still decides on the current hierarchy |
| AssetsService.Service.RemoveComponent | backend/src/assets/assets.service.ts:228-250 | Detaches a component from exactly the parent a reader would see, not from the one in the map |
| AssetsService.Service.PrepareTransaction | backend/src/assets/assets.service.ts:252-294 | Prepares from what a reader would see, submits nothing, and leaves repository and ledger alone |
| AssetsService.Service.LoseMap | backend/src/assets/assets.service.ts:67-67 | Dropping the map changes nothing a caller can see |
| AssetsService.Service.AssertNoCycle | backend/src/assets/assets.service.ts:307-320 | The loop, with its visited set, ends on every finite hierarchy and decides as the walk on the parent relation |
| AssetsService.Service.Submit | backend/src/assets/assets.service.ts:338-388 | Envelope check, submission, reconciliation, and the two writes only after success |
| Jobs.LawfulHistories | backend/src/jobs/jobs.service.ts:21-28 | Over every run each job's accepted transactions are a prefix of CREATE (ASSIGN START COMPLETE REJECT)* ASSIGN START COMPLETE APPROVE, START and COMPLETE by the technician named in that round, the verdict by somebody else and by the awaited judge if there is one; and the job is what its history says: status, technician, last judge or chosen verifier, completion, asset, creator and priority |
| Jobs.AcceptedExactly | backend/src/jobs/jobs.service.ts:104-221 | Over every run an action is accepted exactly when the job exists, its arguments make sense, and it continues the job's history lawfully; otherwise the fault is the first that applies |
| Jobs.CreatedExactly | backend/src/jobs/jobs.service.ts:60-102 | Exactly when a job can be created, under which id, and as what |
| Jobs.FailureChangesNothing | backend/src/jobs/jobs.service.ts:263-287 | A call fails exactly when a guard, the signature check or the chain refuses it, and then changes no job; a successful one changes only the job it returns |
| Jobs.VerifierPermanent | backend/src/jobs/jobs.service.ts:176-221 | Over every run a job's non-empty verifier never changes |
| Jobs.JudgeableIff | backend/src/jobs/jobs.service.ts:299-306 | A COMPLETED job can be approved or rejected by somebody exactly when it has no verifier or its verifier is not its technician |
| Jobs.StuckForever | backend/src/jobs/jobs.service.ts:299-306 | Otherwise it stays COMPLETED in every continuation |
| Jobs.ReassignedToRejecter | backend/src/jobs/jobs.service.ts:104-128 | A rejected job reassigned to the identity that rejected it and worked off gets there |
| Jobs.ReplayMatches | mocks/mock-blockchain/index.ts:79-110 | Replaying the accepted submissions on the in-memory chain always gives the jobs of the repository with the same asset, technician, status and completion; the chain's creator is whoever submitted the creation, and it never learns the chosen verifier or the priority |
| Jobs.RecordKeepsJobs | mocks/mock-blockchain/index.ts:79-113 | Whatever transactions come, no replay drops a job, creates one again or under no id, or changes its asset, creator, verifier or priority |
| Assets.RecordKeepsAssets | mocks/mock-blockchain/index.ts:45-78 | Whatever transactions come, no replay drops an asset, mints one again or under no id, or changes its token or type; owner, status and parent each change by their own transaction only |
| Jobs.LedgerNeverBehind | mocks/mock-blockchain/index.ts:79-110 | Over every run in which answers may be lost, every job of the repository is on the in-memory chain, level with it or one allowed action ahead, a job only the chain has is a lost creation, and a job has the repository's asset unless its creation once lost its answer |
| Jobs.NothingLost | mocks/mock-blockchain/index.ts:79-110 | Without a lost answer the chain is the replay of the accepted submissions |
| Jobs.LostCreationMisleads | backend/src/jobs/jobs.service.ts:78-93 | After a lost creation the next job gets the same generated id, and the chain keeps the first one's asset under it |
| Jobs.PrepareAgrees | backend/src/jobs/jobs.service.ts:223-261 | Each of the five preparations, on a payload of any fields of any type, stops exactly where its action stops; when both pass they carry the same payload exactly when the request has no further field and names no other job, and otherwise the request's own fields win, its job id included |
| JobsService.Service.Create | backend/src/jobs/jobs.service.ts:60-102 | Stores a new live record, without a technician, once its creation is accepted, and leaves every other record untouched |
| JobsService.Service.Assign | backend/src/jobs/jobs.service.ts:104-128 | Sets technician and status of the live record, of a job created or rejected, once accepted; a refusal leaves it as it was |
| JobsService.Service.Start | backend/src/jobs/jobs.service.ts:130-148 | Lets only the assigned technician start, and changes the live record's status alone |
| JobsService.Service.Complete | backend/src/jobs/jobs.service.ts:150-174 | Lets only the assigned technician complete, with a digest as evidence, and marks the live record completed |
| JobsService.Service.Approve | backend/src/jobs/jobs.service.ts:176-195 | Lets anybody but the technician approve, and only the chosen verifier if there is one, who is then on the live record |
| JobsService.Service.Reject | backend/src/jobs/jobs.service.ts:197-221 | The same for a rejection, which needs a reason and keeps the technician on the live record |
| JobsService.Service.CheckNew | backend/src/jobs/jobs.service.ts:61-93 | The checks of create and the record they lead to, numbered by the repository's size when no id is given |
| MockLedger.Adapter.RecordAsset | mocks/mock-blockchain/index.ts:45-78 | Replays asset transactions onto live records in place, drawing a token id only for a new asset |
| MockLedger.Adapter.RecordJob | mocks/mock-blockchain/index.ts:79-113 | Replays job transactions onto live records in place |
| MockLedger.CommitteeExact | mocks/mock-blockchain/index.ts:121-129 | A committee has the prescribed size, no member twice, only active members, and exactly those the rotation seats |
| MockLedger.SizeInDoubles | mocks/mock-blockchain/index.ts:126-126 | The size computed in double precision, whatever the correctly rounded product is, equals the exact one for up to 2^46 validators |
| MockLedger.RotationFair | mocks/mock-blockchain/index.ts:121-129 | In any run of as many heights as there are active validators each of them sits in exactly as many committees as a committee has members |
| Validators.OperationsExactly | backend/src/validators/validator.service.ts:40-70 | Exactly when a removal, a restoration and a cancellation go through, by the heights alone, and which row and which record each leaves |
| Validators.AddExactly | backend/src/validators/validator.service.ts:26-38 | Exactly when a validator can be added, and which row and record that leaves |
| Validators.NotFoundExactly | backend/src/validators/validator.service.ts:95-95 | An operation answers NotFound exactly when an administrator properly asked about a validator that is under neither id |
| Validators.RefusedExactly | backend/src/validators/validator.service.ts:78-95 | A refused call leaves the registry alone; an unconfirmed one leaves one FAILED record of the status it saw and would have gone through confirmed |
| Validators.EffectiveConsistent | backend/src/validators/validator.service.ts:96-103 | Looking at an effective registration later is looking at the stored one later |
| Validators.EffectiveByHeights | backend/src/validators/validator.service.ts:96-103 | The effective status of a stored registration, by its heights alone |
| Validators.RunSound | backend/src/validators/validator.service.ts:26-102 | Over every run: no stored status is REMOVED, a removal is scheduled exactly when its height is set and then lies beyond the activation, ids are unique, and each validator's SUCCESS history is a linked path from its addition to its stored status |
| Validators.AddedOnce | backend/src/validators/validator.service.ts:28-33 | Each validator is added at most once: the branch that re-adds a removed one is never taken |
| Validators.OnlyConfirmedStores | backend/src/validators/validator.service.ts:78-93 | An unconfirmed call changes no registration and appends one FAILED record from a status to itself; a confirmed one stores what it returns and appends one record of it |
| Validators.RecordedState | backend/src/validators/validator.service.ts:47-68 | A successful record starts from the effective status at the head the operation acted on |
| Validators.CancelXorRestore | backend/src/validators/validator.service.ts:52-70 | At one head exactly one of cancelling and restoring is open to a scheduled removal, decided by its height |
| Validators.TimelyUnlessCancelledEarly | backend/src/validators/validator.service.ts:63-70 | That every ACTIVE validator has reached its activation height is kept by a call if and only if the call is not a confirmed cancellation that passes its guards before that height |
| Validators.EarlyCancellation | backend/src/validators/validator.service.ts:40-70 | Every PENDING validator is a way there: removed and restored by cancellation before its activation height, it is ACTIVE ahead of it |
| Validators.TimelyLater | backend/src/validators/validator.service.ts:96-103 | And the passing of time keeps it |
| Validators.Service.Add | backend/src/validators/validator.service.ts:26-38 | Registers a validator id that has none or a removed one, pending until an activation height beyond the head, and records the addition |
| Validators.Service.Remove | backend/src/validators/validator.service.ts:40-50 | Schedules the removal of a pending or active validator for a height beyond the head and its activation, and records the status it had |
| Validators.Service.Restore | backend/src/validators/validator.service.ts:52-61 | Makes a validator active again only once its removal height is reached, and clears the removal |
| Validators.Service.CancelScheduledRemoval | backend/src/validators/validator.service.ts:63-70 | Before the removal height makes the validator active and clears the removal, whether or not its activation height is reached |
| Prelude.TrimExactly | backend/src/users/users.service.ts:96-110 | Trimming takes white space from both ends, all of it, and nothing else |
| Prelude.DecimalExactly | backend/src/jobs/jobs.service.ts:80-80 | String(n) is the decimal numeral of n, so no two numbers share one |
| Multipart.ReadEvidence | backend/src/evidence/multipart.ts:11-43 | The chunk loop and the parsing after it answer as a function of the concatenated bytes: the outcome, a refusal for size included, does not depend on the chunking |
| Multipart.HeaderBlockEnds | backend/src/evidence/multipart.ts:25-27 | The blank line found is the one after the header block exactly when the block contains none and does not end in a line end |
| Multipart.FileEnds | backend/src/evidence/multipart.ts:28-30 | With a boundary free of CR the marker found is the file's own exactly when the file contains none, because no proper suffix of a marker starts a marker |
| Multipart.RoundTrip | backend/src/evidence/multipart.ts:24-42 | Parsing a single-part body hands the headers exactly the file bytes that were put in, whatever follows the close marker |
| Multipart.CutAtMarker | backend/src/evidence/multipart.ts:28-30 | A file that contains its own close marker is cut at the first one |
| Multipart.CrBoundaryCuts | backend/src/evidence/multipart.ts:28-30 | With a CR in the boundary the round trip can fail |
| Multipart.StandardUpload | backend/src/evidence/multipart.ts:11-43 | From request header to evidence: any usual upload comes back byte for byte with its name and media type, unless the file or the body is too large |
| Multipart.BoundaryExactly | backend/src/evidence/multipart.ts:13-15 | The boundary is read if and only if it stands at the first place where the expression matches at all: a non-empty quoted value, or failing that everything up to a semicolon |
| Multipart.ParameterExactly | backend/src/evidence/multipart.ts:33-34 | A parameter is read if and only if it stands, closed by a quote, at the first place where its expression matches at all |
| Multipart.FilenameFirst | backend/src/evidence/multipart.ts:32-37 | With the filename parameter first the field name is read from inside it, and the upload is refused unless the file itself is called file or evidence |
| CompactSignature.ParsePrinted | backend/src/blockchain/crypto.ts:27-37 | The printed form of a triple that fits the fields parses exactly when the triple is in range, and to that triple |
| CompactSignature.PrintParsed | backend/src/blockchain/crypto.ts:27-37 | Printing what was parsed gives the lower-cased input, and what was parsed is in range |
| CompactSignature.AcceptedExactly | backend/src/blockchain/crypto.ts:10-37 | A string parses if and only if it is 0x followed, in digits of any case, by the printed form of a triple in range |
| CompactSignature.OneStringPerTriple | backend/src/blockchain/crypto.ts:10-18 | Two accepted signatures read as the same triple exactly when they are the same up to digit case |
| CompactSignature.ExactlyOneOfNegation | backend/src/blockchain/crypto.ts:7-8 | For every s below the group order exactly one of s and its negation is accepted |
| CompactSignature.VerifiesExactly | backend/src/blockchain/crypto.ts:10-53 | A signature verifies if and only if it and the key spell, in digits of any case, a triple in range and 64 bytes for which the recovered address is the key's |
| CompactSignature.VerifiedForms | backend/src/blockchain/crypto.ts:45-53 | A verifying signature stays valid under digit case and never has a verifying negated form, whatever the curve operations answer |

## Left out

- HTTP routes, middleware, configuration, notifications, e-mail, logging and the frontend.
- Prisma, IPFS, JSON-RPC, ethers and the consensus nodes: the provider is a chain that may do anything its contract allows; address derivation, canonical spelling, signature recovery and hashes are functions the model does not look into; generated ids and tokens are parameters.
- Timestamps and error texts: only expiry instants and whether completedAt is set are kept; error classes are kept, messages are not.
- Integrity commitments and their version counters: they follow every write and decide nothing.
- Display fields (full name, device metadata, reasons of a revocation) and the copies of records that calls return.
- `listPendingRegistrations`, `listActiveEmployees`, `list` and the other pure listings: they add no state.
- Roles after creation: the registries' revokeRole is not used by the services and is not part of this model.
- Contract calls other than the four identity transactions; the registries' caller checks are kept, gas and receipts are not, and a revocation reason too long for the registry counts as a submission without effect.
- Validator transaction hashes and block numbers, and the production refusal of validator envelopes, which counts as a submission that is not confirmed.
- The order of rows in the Prisma repositories: the memory repositories' insertion order is the modelled one.
- Aliasing beyond the services: the jobs repository and the in-memory chain hand out live records, and a caller that changed such a record itself is not modelled.
- Text decoding in the multipart parser: header bytes are compared undecoded, letter case is folded for ASCII only, and trimming treats a byte as the character of its value.
- Registration.AttemptsInOrder: the registry binds no second wallet to the identity before its activation, and the calls in between are the services' own.
- Repositories.Store.SubmitTransaction: a transaction that is mined only after the call gave up waiting is not an outcome of the call; `Interleaving` has it as a movement of the chain by others.
- Jobs.LawfulHistories: is about the submissions answered with success; one whose answer was lost leaves the job as it was, and `Jobs.LedgerNeverBehind` says what the chain then has.
- SendQueue.NoncesConsecutive: the node's pending count is contiguous; dropped or replaced transactions count as movements from outside.
