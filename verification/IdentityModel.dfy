/** Identities, devices, wallets, challenges and sessions: the tables of the two identity
    services, the chain they answer to, and every service call as guards (`Plan`) that
    either refuse or hand over the list of effects (`Script`) the call goes on to perform.
    The same scripts are run to the end in one go (`Perform`, this module) and interleaved
    effect by effect (module Interleaving). */
module IdentityModel {
  import opened Prelude

  // ------------------------------------------------------------------ records

  datatype Role = ADMIN | MANAGER | ENGINEER | TECHNICIAN | AUDITOR | ISSUER | VERIFIER

  /** Lifecycle of identities, devices and wallets; only identities are ever Suspended. */
  datatype Status = Pending | Active | Revoked | Suspended

  datatype Identity = Identity(
    identityId: string, employeeId: Option<string>, role: Option<Role>, department: string,
    status: Status, verifiedBy: Option<string>)

  datatype User = User(employeeId: string, identityId: string, walletAddress: string, role: Role, status: Status)

  /** An absent public key is the empty string: the services only test it for truth. */
  datatype Device = Device(deviceId: string, identityId: string, status: Status, publicKey: string)

  datatype Wallet = Wallet(address: string, identityId: string, deviceId: string, status: Status, publicKey: string)

  datatype Purpose = WalletInitialization | Authentication | FreshAuthentication

  /** What a fresh-authentication challenge is bound to besides its device. */
  datatype FreshBinding = FreshBinding(operation: string, resourceId: Option<string>, sessionHash: string)

  datatype Challenge = Challenge(
    challengeId: string, deviceId: string, nonce: string, purpose: Purpose, expiresAt: int, used: bool,
    binding: Option<FreshBinding>)

  datatype Session = Session(token: string, identityId: string, deviceId: string, walletAddress: string, expiresAt: int)

  // -------------------------------------------------------------------- chain

  datatype Tx =
    | IdentityCreate(wallet: string, did: string)
    | RoleAssign(target: Option<string>, did: string, role: Role)
    | WalletActivate(wallet: string)
    | WalletRevoke(wallet: string)

  datatype ChainWallet = ChainWallet(did: string, status: Status)

  /** IdentityRegistry and RoleRegistry: wallets with their status, the role set of each
      DID, every transaction that took effect, and how many were submitted. */
  datatype Chain = Chain(
    wallets: map<string, ChainWallet>, roles: map<string, set<Role>>, ledger: seq<Tx>, submissions: nat)

  /** What becomes of a submission: it is processed and answered, it is turned away
      before it has any effect, or it takes effect and the answer is lost. */
  datatype Fate = Answered | TurnedAway | AnswerLost

  /** The environment: the configured chain kind, the cryptographic functions the services
      call (the canonical spelling of an address, if it is one, address derivation,
      signature check, two hashes), and the fate of the n-th submission. */
  datatype Env = Env(
    evm: bool,
    canonical: string -> Option<string>,
    derive: string -> Option<string>,
    proves: (string, string, string) -> bool,
    hashToken: string -> string,
    hashCredential: string -> string,
    fate: nat -> Fate)

  function RolesOf(chain: Chain, did: string): set<Role> {
    if did in chain.roles then chain.roles[did] else {}
  }

  predicate KnownDid(chain: Chain, did: string) {
    exists a :: a in chain.wallets && chain.wallets[a].did == did
  }

  /** The caller checks of every protected contract function: an active wallet whose
      identity holds one of the required roles. */
  predicate MayCall(chain: Chain, sender: string, required: set<Role>) {
    && sender in chain.wallets
    && chain.wallets[sender].status == Active
    && RolesOf(chain, chain.wallets[sender].did) * required != {}
  }

  /** The length of a string in UTF-8. */
  function Utf8Length(s: string): nat {
    if s == "" then 0
    else
      var c := s[|s| - 1] as int;
      Utf8Length(s[..|s| - 1]) + if c < 0x80 then 1 else if c < 0x800 then 2 else if c < 0x1_0000 then 3 else 4
  }

  /** The identity ids the registry takes. */
  predicate Registrable(did: string) {
    did != "" && Utf8Length(did) <= 128
  }

  /** The effect of a transaction on the registries; None when the contract reverts. */
  function Apply(chain: Chain, sender: string, tx: Tx): Option<Chain> {
    match tx
    case IdentityCreate(a, did) =>
      if !MayCall(chain, sender, {ADMIN}) || !Registrable(did) || a in chain.wallets then None
      else Some(chain.(wallets := chain.wallets[a := ChainWallet(did, Pending)], ledger := chain.ledger + [tx]))
    case RoleAssign(target, did, role) =>
      var key := match target case Some(a) => (if a in chain.wallets then chain.wallets[a].did else "") case None => did;
      if !MayCall(chain, sender, {ADMIN}) || !KnownDid(chain, key) || role in RolesOf(chain, key) then None
      else Some(chain.(roles := chain.roles[key := RolesOf(chain, key) + {role}], ledger := chain.ledger + [tx]))
    case WalletActivate(a) =>
      if !MayCall(chain, sender, {ADMIN, ISSUER}) || a !in chain.wallets || chain.wallets[a].status != Pending then None
      else Some(chain.(wallets := chain.wallets[a := chain.wallets[a].(status := Active)], ledger := chain.ledger + [tx]))
    case WalletRevoke(a) =>
      if !MayCall(chain, sender, {ADMIN}) || a !in chain.wallets || chain.wallets[a].status !in {Pending, Active} then None
      else Some(chain.(wallets := chain.wallets[a := chain.wallets[a].(status := Revoked)], ledger := chain.ledger + [tx]))
  }

  /** The adapter reports the first role, in the shared role order, of an identity's set. */
  function FirstRole(held: set<Role>): Option<Role> {
    if ADMIN in held then Some(ADMIN)
    else if MANAGER in held then Some(MANAGER)
    else if ENGINEER in held then Some(ENGINEER)
    else if TECHNICIAN in held then Some(TECHNICIAN)
    else if AUDITOR in held then Some(AUDITOR)
    else if ISSUER in held then Some(ISSUER)
    else if VERIFIER in held then Some(VERIFIER)
    else None
  }

  /** getIdentity: None without a registered wallet or without any role. */
  function ChainRole(chain: Chain, did: string): Option<Role> {
    if KnownDid(chain, did) then FirstRole(RolesOf(chain, did)) else None
  }

  // -------------------------------------------------------------------- world

  /** Proof that a challenge bought something: what the services hand out on success. */
  datatype Grant =
    | ProofSession(challengeId: string, session: Session)
    | Registration(challengeId: string, deviceId: string, identity: Identity)
    | FreshAuth(challengeId: string, deviceId: string, token: string, operation: string, resourceId: Option<string>)

  datatype World = World(
    env: Env,
    identities: Table<Identity>, users: Table<User>, devices: Table<Device>, wallets: Table<Wallet>,
    challenges: map<string, Challenge>, credentials: map<string, string>, sessions: map<string, Session>,
    chain: Chain,
    issued: map<string, Session>, // every session ever saved, by token
    granted: seq<Grant>)          // every success a challenge ever bought, in order

  function FindByEmployee(t: Table<Identity>, employeeId: string): Option<Identity> {
    t.Find((i: Identity) => i.employeeId == Some(employeeId))
  }

  function FindUser(t: Table<User>, identityId: string): Option<User> {
    t.Find((u: User) => u.identityId == identityId)
  }

  function FindDevice(t: Table<Device>, identityId: string, status: Status): Option<Device> {
    t.Find((d: Device) => d.identityId == identityId && d.status == status)
  }

  function FindWallet(t: Table<Wallet>, identityId: string, status: Status): Option<Wallet> {
    t.Find((x: Wallet) => x.identityId == identityId && x.status == status)
  }

  function FindWalletOn(t: Table<Wallet>, identityId: string, deviceId: string): Option<Wallet> {
    t.Find((x: Wallet) => x.identityId == identityId && x.status == Active && x.deviceId == deviceId)
  }

  function ActiveWalletsOn(t: Table<Wallet>, identityId: string, deviceId: string): seq<Wallet> {
    t.Filter((x: Wallet) => x.identityId == identityId && x.deviceId == deviceId && x.status == Active)
  }

  function ActiveWalletsExcept(t: Table<Wallet>, identityId: string, address: string): seq<Wallet> {
    t.Filter((x: Wallet) => x.identityId == identityId && x.status == Active && x.address != address)
  }

  function Resolve(w: World, id: string): Option<Identity> {
    if id in w.identities.rows then Some(w.identities.rows[id]) else FindByEmployee(w.identities, id)
  }

  /** The wallet binding rule is enforced only against an EVM chain. */
  predicate BindingOk(env: Env, address: string, publicKey: string) {
    env.evm ==> env.derive(publicKey).Some? && env.canonical(address) == env.derive(publicKey)
  }

  /** The registries know an address by its value, however it is spelled. */
  function OnChain(env: Env, address: string): string {
    if env.canonical(address).Some? then env.canonical(address).value else address
  }

  function AsSent(env: Env, tx: Tx): Tx {
    match tx
    case IdentityCreate(a, did) => IdentityCreate(OnChain(env, a), did)
    case RoleAssign(Some(a), did, role) => RoleAssign(Some(OnChain(env, a)), did, role)
    case RoleAssign(None, _, _) => tx
    case WalletActivate(a) => WalletActivate(OnChain(env, a))
    case WalletRevoke(a) => WalletRevoke(OnChain(env, a))
  }

  function ToUser(i: Identity, address: string): User {
    User(if i.employeeId.Some? then i.employeeId.value else "", i.identityId, address,
         if i.role.Some? then i.role.value else ENGINEER, i.status)
  }

  const SYSTEM_WALLET := "SYSTEM"

  // ------------------------------------------------------------------ effects

  /** One effect of a service call. The Ensure effects read the chain before they submit,
      Submit looks up its sender in two reads before it sends, and RepointUser reads the
      row it rewrites: each turns into a simpler effect first (see `Exec`). */
  datatype Action =
    | EnsureIdentityCreated(actor: string, did: string, address: string)
    | EnsureRoleAssigned(actor: string, did: string, role: Role, address: string)
    | EnsureWalletActive(actor: string, address: string)
    | EnsureWalletRevoked(actor: string, address: string)
    | Submit(actor: string, tx: Tx)
    | CheckSender(candidate: string, tx: Tx)
    | Send(sender: string, tx: Tx)
    | SaveIdentity(identity: Identity, grant: Option<Grant>)
    | SaveUser(user: User)
    | RepointUser(identityId: string, address: string)
    | SaveDevice(device: Device)
    | SaveWallet(wallet: Wallet)
    | SaveCredential(verifier: string, deviceId: string)
    | RevokeCredentials(deviceId: string)
    | SaveChallenge(challenge: Challenge)
    | Consume(challengeId: string, orElse: Error, grant: Option<Grant>)
    | SaveSession(session: Session, grant: Option<Grant>)
    | DeleteSession(token: string)

  datatype Error = Validation | Conflict | Forbidden | NotFound | Unauthorized | Signer | Reverted | NoAnswer

  datatype Progress =
    | Done(w: World)
    | Become(w: World, next: Action)
    | Throw(w: World, error: Error)

  type Script = seq<Action>

  function Logged(log: seq<Grant>, grant: Option<Grant>): seq<Grant> {
    if grant.Some? then log + [grant.value] else log
  }

  /** Outside EVM mode the in-memory chain accepts everything and keeps no wallets. */
  function SendStep(w: World, sender: string, tx: Tx): Progress {
    var n := w.chain.submissions;
    var chain := w.chain.(submissions := n + 1);
    var after := if w.env.evm then Apply(chain, OnChain(w.env, sender), AsSent(w.env, tx)) else Some(chain);
    match w.env.fate(n)
    case Answered => if after.Some? then Done(w.(chain := after.value)) else Throw(w.(chain := chain), Reverted)
    case TurnedAway => Throw(w.(chain := chain), NoAnswer)
    case AnswerLost => Throw(w.(chain := if after.Some? then after.value else chain), NoAnswer)
  }

  /** One step of an effect: what happens between two suspension points. */
  function Exec(w: World, a: Action): Progress {
    match a
    case EnsureIdentityCreated(actor, did, address) =>
      if w.env.evm && OnChain(w.env, address) in w.chain.wallets then
        (if w.chain.wallets[OnChain(w.env, address)].did != did then Throw(w, Conflict) else Done(w))
      else Become(w, Submit(actor, IdentityCreate(address, did)))
    case EnsureRoleAssigned(actor, did, role, address) =>
      if w.env.evm && ChainRole(w.chain, did) == Some(role) then Done(w)
      else Become(w, Submit(actor, RoleAssign(Some(address), did, role)))
    case EnsureWalletActive(actor, address) =>
      if w.env.evm && OnChain(w.env, address) in w.chain.wallets && w.chain.wallets[OnChain(w.env, address)].status == Active then Done(w)
      else if w.env.evm && OnChain(w.env, address) in w.chain.wallets && w.chain.wallets[OnChain(w.env, address)].status == Revoked then Throw(w, Conflict)
      else Become(w, Submit(actor, WalletActivate(address)))
    case EnsureWalletRevoked(actor, address) =>
      if w.env.evm && OnChain(w.env, address) in w.chain.wallets && w.chain.wallets[OnChain(w.env, address)].status == Revoked then Done(w)
      else Become(w, Submit(actor, WalletRevoke(address)))
    case Submit(actor, tx) =>
      var user := FindUser(w.users, actor);
      Become(w, CheckSender(if user.Some? then user.value.walletAddress else "", tx))
    case CheckSender(candidate, tx) =>
      if candidate != "" && candidate in w.wallets.rows && w.wallets.rows[candidate].status == Active
      then Become(w, Send(candidate, tx))
      else if w.env.evm then Throw(w, Signer)
      else Become(w, Send(SYSTEM_WALLET, tx))
    case Send(sender, tx) => SendStep(w, sender, tx)
    case SaveIdentity(i, grant) =>
      Done(w.(identities := w.identities.Put(i.identityId, i), granted := Logged(w.granted, grant)))
    case SaveUser(u) => Done(w.(users := w.users.Put(u.employeeId, u)))
    case RepointUser(id, address) =>
      var user := FindUser(w.users, id);
      if user.Some? then Become(w, SaveUser(user.value.(walletAddress := address))) else Done(w)
    case SaveDevice(d) => Done(w.(devices := w.devices.Put(d.deviceId, d)))
    case SaveWallet(x) => Done(w.(wallets := w.wallets.Put(x.address, x)))
    case SaveCredential(verifier, deviceId) => Done(w.(credentials := w.credentials[verifier := deviceId]))
    case RevokeCredentials(deviceId) =>
      Done(w.(credentials := map v | v in w.credentials && w.credentials[v] != deviceId :: w.credentials[v]))
    case SaveChallenge(c) => Done(w.(challenges := w.challenges[c.challengeId := c]))
    case Consume(id, orElse, grant) =>
      if id !in w.challenges || w.challenges[id].used then Throw(w, orElse)
      else Done(w.(challenges := w.challenges[id := w.challenges[id].(used := true)],
                   granted := Logged(w.granted, grant)))
    case SaveSession(s, grant) =>
      Done(w.(sessions := w.sessions[s.token := s], issued := w.issued[s.token := s],
              granted := Logged(w.granted, grant)))
    case DeleteSession(token) => Done(w.(sessions := w.sessions - {token}))
  }

  /** How many steps an effect can still take. */
  function Weight(a: Action): nat {
    match a
    case EnsureIdentityCreated(_, _, _) => 3
    case EnsureRoleAssigned(_, _, _, _) => 3
    case EnsureWalletActive(_, _) => 3
    case EnsureWalletRevoked(_, _) => 3
    case Submit(_, _) => 2
    case CheckSender(_, _) => 1
    case RepointUser(_, _) => 1
    case _ => 0
  }

  datatype Outcome = Ok | Failed(error: Error)

  /** An effect on its own, from its first step to its last. */
  function Complete(w: World, a: Action): (World, Outcome)
    decreases Weight(a)
  {
    match Exec(w, a)
    case Done(w') => (w', Ok)
    case Become(w', next) => Complete(w', next)
    case Throw(w', e) => (w', Failed(e))
  }

  /** A script on its own: effects in order, up to the first that throws. */
  function RunFrom(w: World, s: Script, i: nat): (World, Outcome)
    requires i <= |s|
    decreases |s| - i
  {
    if i == |s| then (w, Ok)
    else
      var (w', r) := Complete(w, s[i]);
      if r == Ok then RunFrom(w', s, i + 1) else (w', r)
  }

  function Run(w: World, s: Script): (World, Outcome) {
    RunFrom(w, s, 0)
  }

  // -------------------------------------------------------------------- calls

  datatype Call =
    | CreateUser(employeeId: string, role: Role, givenId: Option<string>, freshId: string, department: string,
                 status: Status, caller: Option<string>)
    | RequestProvisioning(deviceId: string, attested: bool, challengeId: string, nonce: string, now: int)
    | InitializeAccount(fullName: string, employeeId: string, department: string, deviceId: string, publicKey: string,
                        walletAddress: string, challengeId: string, signature: string, attested: bool,
                        freshId: string, now: int)
    | VerifyRegistration(actorId: string, userId: string, employeeId: string, department: string)
    | ActivateRegistration(actorId: string, userId: string)
    | RegisterDevice(userId: string, deviceId: string, credential: string, publicKey: string)
    | RevokeDevice(deviceId: string, caller: Option<string>)
    | RegisterWallet(userId: string, deviceId: string, address: string)
    | RevokeWallet(userId: string, reason: string, actorId: string)
    | ActivateWallet(userId: string, deviceId: string, address: string, actorId: string)
    | AssignRole(actorId: string, userId: string, role: Role)
    | RequestAuthentication(deviceId: string, challengeId: string, nonce: string, now: int)
    | LoginWithProof(deviceId: string, challengeId: string, publicKey: string, signature: string,
                     token: string, ttl: int, now: int)
    | LoginWithCredential(credential: string, production: bool, token: string, ttl: int, now: int)
    | ValidateSession(token: string, now: int)
    | Logout(token: string)
    | RequestFresh(token: string, operation: string, resourceId: Option<string>, challengeId: string, nonce: string, now: int)
    | VerifyFresh(token: string, challengeId: string, publicKey: string, signature: string, operation: string,
                  resourceId: Option<string>, now: int)

  datatype Planned = Refuse(error: Error) | Go(script: Script)

  const FIVE_MINUTES := 300_000
  const TWO_MINUTES := 120_000

  function SessionExpiry(ttl: int, now: int): int {
    now + (if ttl > 60 then ttl else 60) * 1000
  }

  function PlanCreateUser(w: World, employeeId: string, role: Role, givenId: Option<string>, freshId: string,
                          department: string, status: Status, caller: Option<string>): Planned {
    var id := if givenId.Some? then givenId.value else freshId;
    CreateUserOn(w, FindByEmployee(w.identities, employeeId), Resolve(w, if caller.Some? then caller.value else id),
                 employeeId, role, givenId, freshId, department, status)
  }

  /** A plan from what its lookups of identities returned; the rest is read in `w`. */
  function CreateUserOn(w: World, holder: Option<Identity>, actor: Option<Identity>, employeeId: string, role: Role,
                        givenId: Option<string>, freshId: string, department: string, status: Status): Planned {
    var id := if givenId.Some? then givenId.value else freshId;
    var i := Identity(id, Some(employeeId), Some(role), department, status, None);
    var onChain := if w.env.evm then ChainRole(w.chain, id) else None;
    if employeeId == "" then Refuse(Validation)
    else if holder.Some? then Refuse(Conflict)
    else if givenId.Some? && givenId.value != "" && givenId.value in w.identities.rows then Refuse(Conflict)
    else if w.env.evm && onChain.None? then Refuse(Conflict)
    else if onChain.Some? && onChain != Some(role) then
      (if actor.None? then Refuse(NotFound)
       else Go([Submit(actor.value.identityId, RoleAssign(None, id, role)), SaveIdentity(i, None), SaveUser(ToUser(i, ""))]))
    else if onChain.Some? then Go([SaveIdentity(i, None), SaveUser(ToUser(i, ""))])
    else Go([SaveIdentity(i, None), SaveUser(ToUser(i, "")),
             Submit(id, IdentityCreate("", id)), Submit(id, RoleAssign(None, id, role))])
  }

  function PlanRequestProvisioning(w: World, deviceId: string, attested: bool, challengeId: string, nonce: string,
                                   now: int): Planned {
    if Blank(deviceId) then Refuse(Validation)
    else if !attested then Refuse(Forbidden)
    else Go([SaveChallenge(Challenge(challengeId, deviceId, nonce, WalletInitialization, now + FIVE_MINUTES, false, None))])
  }

  function PlanInitializeAccount(w: World, fullName: string, employeeId: string, department: string, deviceId: string,
                                 publicKey: string, walletAddress: string, challengeId: string, signature: string,
                                 attested: bool, freshId: string, now: int): Planned {
    if Blank(fullName) || Blank(deviceId) || Blank(publicKey) || Blank(walletAddress) || Blank(challengeId)
       || Blank(signature) then Refuse(Validation)
    else if challengeId !in w.challenges then Refuse(Validation)
    else
      var c := w.challenges[challengeId];
      if c.purpose != WalletInitialization then Refuse(Validation)
      else if c.used then Refuse(Conflict)
      else if c.expiresAt <= now then Refuse(Validation)
      else if c.deviceId != deviceId then Refuse(Validation)
      else if !BindingOk(w.env, walletAddress, publicKey) then Refuse(Validation)
      else if !w.env.proves(c.nonce, publicKey, signature) then Refuse(Forbidden)
      else if !attested then Refuse(Forbidden)
      else if walletAddress in w.wallets.rows then Refuse(Conflict)
      else if deviceId in w.devices.rows then Refuse(Conflict)
      else if employeeId != "" && FindByEmployee(w.identities, employeeId).Some? then Refuse(Conflict)
      else
        var i := Identity(freshId, if Blank(employeeId) then None else Some(Trim(employeeId)), None, Trim(department), Pending, None);
        var d := Device(Trim(deviceId), freshId, Pending, publicKey);
        Go([Consume(challengeId, Conflict, None), SaveIdentity(i, Some(Registration(challengeId, deviceId, i))), SaveDevice(d),
            SaveWallet(Wallet(Trim(walletAddress), freshId, d.deviceId, Pending, publicKey))])
  }

  function PlanVerifyRegistration(w: World, actorId: string, userId: string, employeeId: string, department: string): Planned {
    VerifyRegistrationOn(Resolve(w, actorId), Resolve(w, userId), FindByEmployee(w.identities, employeeId), employeeId, department)
  }

  function VerifyRegistrationOn(actor: Option<Identity>, target: Option<Identity>, existing: Option<Identity>, employeeId: string,
                                department: string): Planned {
    if actor.None? then Refuse(NotFound)
    else if actor.value.status != Active || actor.value.role != Some(ADMIN) then Refuse(Forbidden)
    else if Blank(employeeId) || Blank(department) then Refuse(Validation)
    else if target.None? then Refuse(NotFound)
    else if target.value.status != Pending then Refuse(Conflict)
    else if existing.Some? && existing.value.identityId != target.value.identityId then Refuse(Conflict)
    else Go([SaveIdentity(target.value.(employeeId := Some(Trim(employeeId)), department := Trim(department),
                                        verifiedBy := Some(actor.value.identityId)), None)])
  }

  function ActivationScript(actor: string, i: Identity, role: Role, d: Device, x: Wallet): Script {
    [EnsureIdentityCreated(actor, i.identityId, x.address),
     EnsureRoleAssigned(actor, i.identityId, role, x.address),
     EnsureWalletActive(actor, x.address),
     SaveIdentity(i.(status := Active), None),
     SaveDevice(d.(status := Active)),
     SaveWallet(x.(status := Active)),
     SaveUser(ToUser(i.(status := Active), x.address))]
  }

  function PlanActivateRegistration(w: World, actorId: string, userId: string): Planned {
    ActivateRegistrationOn(w, Resolve(w, actorId), Resolve(w, userId))
  }

  function ActivateRegistrationOn(w: World, actor: Option<Identity>, target: Option<Identity>): Planned {
    if actor.None? then Refuse(NotFound)
    else if actor.value.status != Active || actor.value.role != Some(ADMIN) then Refuse(Forbidden)
    else if target.None? then Refuse(NotFound)
    else
      var i := target.value;
      if i.status != Pending || i.employeeId == None || i.employeeId == Some("") || i.department == "" || i.role.None?
      then Refuse(Conflict)
      else
        var d := FindDevice(w.devices, i.identityId, Pending);
        var x := FindWallet(w.wallets, i.identityId, Pending);
        if d.None? || x.None? then Refuse(Conflict)
        else if x.value.publicKey == "" || d.value.publicKey == "" || x.value.publicKey != d.value.publicKey then Refuse(Forbidden)
        else if !BindingOk(w.env, x.value.address, x.value.publicKey) then Refuse(Validation)
        else Go(ActivationScript(actor.value.identityId, i, i.role.value, d.value, x.value))
  }

  function PlanRegisterDevice(w: World, userId: string, deviceId: string, credential: string, publicKey: string): Planned {
    RegisterDeviceOn(w, Resolve(w, userId), deviceId, credential, publicKey)
  }

  function RegisterDeviceOn(w: World, target: Option<Identity>, deviceId: string, credential: string, publicKey: string): Planned {
    if Blank(deviceId) || Blank(credential) then Refuse(Validation)
    else if w.env.evm && (publicKey == "" || w.env.derive(publicKey).None?) then Refuse(Validation)
    else
      var existing := w.devices.Get(deviceId);
      if target.None? then Refuse(NotFound)
      else if existing.Some? && existing.value.identityId != target.value.identityId then Refuse(Conflict)
      else if existing.Some? && existing.value.status == Active then Refuse(Conflict)
      else
        var key := if publicKey != "" then publicKey else if existing.Some? then existing.value.publicKey else "";
        Go([SaveDevice(Device(deviceId, target.value.identityId, Active, key)),
            SaveCredential(w.env.hashCredential(credential), deviceId)])
  }

  function RevokeOnChain(actor: string, xs: seq<Wallet>): Script {
    if xs == [] then [] else [EnsureWalletRevoked(actor, xs[0].address)] + RevokeOnChain(actor, xs[1..])
  }

  function SaveRevoked(xs: seq<Wallet>): Script {
    if xs == [] then [] else [SaveWallet(xs[0].(status := Revoked))] + SaveRevoked(xs[1..])
  }

  /** The k-th wallet is revoked on chain at place k, and its record is the k-th saved. */
  lemma {:induction false} RevocationsConfirm(actor: string, xs: seq<Wallet>, k: nat)
    requires k < |xs|
    ensures |RevokeOnChain(actor, xs)| == |xs| && RevokeOnChain(actor, xs)[k] == EnsureWalletRevoked(actor, xs[k].address)
    ensures |SaveRevoked(xs)| == |xs| && SaveRevoked(xs)[k] == SaveWallet(xs[k].(status := Revoked))
    decreases |xs|
  {
    if k > 0 {
      RevocationsConfirm(actor, xs[1..], k - 1);
    } else if |xs| > 1 {
      RevocationsConfirm(actor, xs[1..], 0);
    }
  }

  function DeviceRevocationScript(actor: string, d: Device, xs: seq<Wallet>): Script {
    RevokeOnChain(actor, xs)
    + (if d.status == Revoked then [] else [SaveDevice(d.(status := Revoked))])
    + [RevokeCredentials(d.deviceId)]
    + SaveRevoked(xs)
  }

  function PlanRevokeDevice(w: World, deviceId: string, caller: Option<string>): Planned {
    var device := w.devices.Get(deviceId);
    RevokeDeviceOn(w, if device.None? then None else Resolve(w, if caller.Some? then caller.value else device.value.identityId), deviceId)
  }

  function RevokeDeviceOn(w: World, actor: Option<Identity>, deviceId: string): Planned {
    var device := w.devices.Get(deviceId);
    if device.None? || actor.None? then Refuse(NotFound)
    else Go(DeviceRevocationScript(actor.value.identityId, device.value,
                                   ActiveWalletsOn(w.wallets, device.value.identityId, deviceId)))
  }

  function PlanRegisterWallet(w: World, userId: string, deviceId: string, address: string): Planned {
    RegisterWalletOn(w, Resolve(w, userId), deviceId, address)
  }

  function RegisterWalletOn(w: World, target: Option<Identity>, deviceId: string, address: string): Planned {
    var device := w.devices.Get(deviceId);
    if Blank(address) then Refuse(Validation)
    else if target.None? then Refuse(NotFound)
    else if target.value.status != Active then Refuse(Forbidden)
    else if device.None? || device.value.identityId != target.value.identityId || device.value.status != Active then Refuse(Forbidden)
    else if device.value.publicKey == "" then Refuse(Forbidden)
    else if !BindingOk(w.env, address, device.value.publicKey) then Refuse(Validation)
    else if address in w.wallets.rows then Refuse(Conflict)
    else Go([SaveWallet(Wallet(Trim(address), target.value.identityId, deviceId, Pending, device.value.publicKey))])
  }

  function PlanRevokeWallet(w: World, userId: string, reason: string, actorId: string): Planned {
    RevokeWalletOn(w, Resolve(w, userId), Resolve(w, actorId), reason)
  }

  function RevokeWalletOn(w: World, target: Option<Identity>, actor: Option<Identity>, reason: string): Planned {
    if Blank(reason) then Refuse(Validation)
    else if target.None? then Refuse(NotFound)
    else
      var x := FindWallet(w.wallets, target.value.identityId, Active);
      if x.None? || actor.None? then Refuse(NotFound)
      else Go([Submit(actor.value.identityId, WalletRevoke(x.value.address)), SaveWallet(x.value.(status := Revoked))])
  }

  function ReplaceWallets(actor: string, xs: seq<Wallet>): Script {
    if xs == [] then []
    else [Submit(actor, WalletRevoke(xs[0].address)), SaveWallet(xs[0].(status := Revoked))] + ReplaceWallets(actor, xs[1..])
  }

  /** The k-th wallet is revoked on chain, and right after that in its record. */
  lemma {:induction false} ReplacementsAlternate(actor: string, xs: seq<Wallet>, k: nat)
    requires k < |xs|
    ensures var s := ReplaceWallets(actor, xs);
            |s| == 2 * |xs| && s[2 * k] == Submit(actor, WalletRevoke(xs[k].address))
            && s[2 * k + 1] == SaveWallet(xs[k].(status := Revoked))
    decreases |xs|
  {
    if k > 0 {
      ReplacementsAlternate(actor, xs[1..], k - 1);
    } else if |xs| > 1 {
      ReplacementsAlternate(actor, xs[1..], 0);
    }
  }

  function WalletActivationScript(actor: string, did: string, x: Wallet, olds: seq<Wallet>): Script {
    ReplaceWallets(actor, olds)
    + [EnsureIdentityCreated(actor, did, x.address),
       EnsureWalletActive(actor, x.address),
       SaveWallet(x.(status := Active)),
       RepointUser(did, x.address)]
  }

  function PlanActivateWallet(w: World, userId: string, deviceId: string, address: string, actorId: string): Planned {
    var target := Resolve(w, userId);
    var existing := w.wallets.Get(Trim(address));
    var others := if target.None? || existing.None? then []
                  else ActiveWalletsExcept(w.wallets, target.value.identityId, existing.value.address);
    ActivateWalletOn(w, target, Resolve(w, actorId), others, deviceId, address)
  }

  /** `others` are the identity's other active wallets, read after the one to activate. */
  function ActivateWalletOn(w: World, target: Option<Identity>, actor: Option<Identity>, others: seq<Wallet>, deviceId: string,
                            address: string): Planned {
    var device := w.devices.Get(deviceId);
    var existing := w.wallets.Get(Trim(address));
    if Blank(address) then Refuse(Validation)
    else if target.None? then Refuse(NotFound)
    else if target.value.status != Active then Refuse(Forbidden)
    else if device.None? || device.value.identityId != target.value.identityId || device.value.status != Active then Refuse(Forbidden)
    else if existing.Some? && existing.value.identityId != target.value.identityId then Refuse(Forbidden)
    else if existing.None? || existing.value.deviceId != deviceId || existing.value.status != Pending then Refuse(NotFound)
    else if existing.value.publicKey == "" then Refuse(Forbidden)
    else if !BindingOk(w.env, address, existing.value.publicKey) then Refuse(Validation)
    else if actor.None? then Refuse(NotFound)
    else Go(WalletActivationScript(actor.value.identityId, target.value.identityId, existing.value, others))
  }

  function PlanAssignRole(w: World, actorId: string, userId: string, role: Role): Planned {
    AssignRoleOn(w, Resolve(w, actorId), Resolve(w, userId), role)
  }

  function AssignRoleOn(w: World, actor: Option<Identity>, target: Option<Identity>, role: Role): Planned {
    if actor.None? then Refuse(NotFound)
    else if actor.value.role != Some(ADMIN) || actor.value.status != Active then Refuse(Forbidden)
    else if target.None? then Refuse(NotFound)
    else if target.value.status == Revoked then Refuse(Forbidden)
    else
      var i := target.value;
      var user := FindUser(w.users, i.identityId);
      if user.None? then
        (if i.status != Pending then Refuse(NotFound) else Go([SaveIdentity(i.(role := Some(role)), None)]))
      else Go([Submit(actor.value.identityId, RoleAssign(None, i.identityId, role)),
               SaveIdentity(i.(role := Some(role)), None), SaveUser(user.value.(role := role))])
  }

  // ------------------------------------------------------------ sign-in calls

  function PlanRequestAuthentication(w: World, deviceId: string, challengeId: string, nonce: string, now: int): Planned {
    var device := w.devices.Get(deviceId);
    if device.None? || device.value.status != Active || device.value.identityId !in w.identities.rows
       || w.identities.rows[device.value.identityId].status != Active
       || FindWalletOn(w.wallets, device.value.identityId, deviceId).None? then Refuse(Unauthorized)
    else Go([SaveChallenge(Challenge(challengeId, deviceId, nonce, Authentication, now + FIVE_MINUTES, false, None))])
  }

  /** An identity that may hold a session: verified, with a role and a user row. */
  predicate Employable(w: World, i: Identity) {
    && i.employeeId.Some? && i.employeeId.value != "" && i.role.Some? && i.department != ""
    && FindUser(w.users, i.identityId).Some?
  }

  function PlanLoginWithProof(w: World, deviceId: string, challengeId: string, publicKey: string, signature: string,
                              token: string, ttl: int, now: int): Planned {
    if challengeId !in w.challenges then Refuse(Unauthorized)
    else
      var c := w.challenges[challengeId];
      var device := w.devices.Get(deviceId);
      if c.purpose != Authentication || c.used || c.deviceId != deviceId then Refuse(Unauthorized)
      else if c.expiresAt <= now then Refuse(Unauthorized)
      else if device.None? || device.value.status != Active || device.value.identityId !in w.identities.rows then Refuse(Unauthorized)
      else
        var i := w.identities.rows[device.value.identityId];
        var x := FindWalletOn(w.wallets, i.identityId, deviceId);
        if !Employable(w, i) || i.status != Active || x.None? || device.value.publicKey == ""
           || device.value.publicKey != publicKey then Refuse(Unauthorized)
        else if !BindingOk(w.env, x.value.address, device.value.publicKey) then Refuse(Unauthorized)
        else if !w.env.proves(c.nonce, device.value.publicKey, signature) then Refuse(Unauthorized)
        else
          var session := Session(token, i.identityId, device.value.deviceId, x.value.address, SessionExpiry(ttl, now));
          Go([Consume(challengeId, Unauthorized, None), SaveSession(session, Some(ProofSession(challengeId, session)))])
  }

  function PlanLoginWithCredential(w: World, credential: string, production: bool, token: string, ttl: int, now: int): Planned {
    var verifier := w.env.hashCredential(credential);
    if production then Refuse(Forbidden)
    else if Blank(credential) then Refuse(Unauthorized)
    else if verifier !in w.credentials || w.credentials[verifier] == "" then Refuse(Unauthorized)
    else
      var device := w.devices.Get(w.credentials[verifier]);
      if device.None? || device.value.status != Active || device.value.identityId !in w.identities.rows then Refuse(Unauthorized)
      else
        var i := w.identities.rows[device.value.identityId];
        var x := FindWallet(w.wallets, i.identityId, Active);
        if !Employable(w, i) || x.None? || x.value.deviceId != device.value.deviceId then Refuse(Unauthorized)
        else if i.status != Active then Refuse(Forbidden)
        else Go([SaveSession(Session(token, i.identityId, device.value.deviceId, x.value.address, SessionExpiry(ttl, now)), None)])
  }

  /** What validateSession checks after the expiry: every record behind the session is live. */
  predicate Backed(w: World, s: Session) {
    && s.identityId in w.identities.rows
    && Employable(w, w.identities.rows[s.identityId])
    && w.identities.rows[s.identityId].status == Active
    && s.deviceId in w.devices.rows
    && w.devices.rows[s.deviceId].status == Active
    && s.walletAddress in w.wallets.rows
    && w.wallets.rows[s.walletAddress].status == Active
    && w.wallets.rows[s.walletAddress].deviceId == w.devices.rows[s.deviceId].deviceId
    && (w.env.evm ==> w.devices.rows[s.deviceId].publicKey != ""
                      && BindingOk(w.env, s.walletAddress, w.devices.rows[s.deviceId].publicKey))
  }

  /** The answer of validateSession: a user, or null. */
  predicate SessionAccepted(w: World, token: string, now: int) {
    token in w.sessions && w.sessions[token].expiresAt > now && Backed(w, w.sessions[token])
  }

  function PlanValidateSession(w: World, token: string, now: int): Planned {
    if token in w.sessions && !SessionAccepted(w, token, now) then Go([DeleteSession(token)]) else Go([])
  }

  /** The lighter check the fresh-authentication calls make on a session. */
  predicate SessionLive(w: World, token: string, now: int) {
    && token in w.sessions
    && var s := w.sessions[token];
    && s.expiresAt > now
    && s.identityId in w.identities.rows && w.identities.rows[s.identityId].status == Active
    && s.deviceId in w.devices.rows && w.devices.rows[s.deviceId].status == Active
    && s.walletAddress in w.wallets.rows
    && var x := w.wallets.rows[s.walletAddress];
    && x.status == Active && x.deviceId == w.devices.rows[s.deviceId].deviceId
    && x.identityId == w.identities.rows[s.identityId].identityId
  }

  function PlanRequestFresh(w: World, token: string, operation: string, resourceId: Option<string>, challengeId: string,
                            nonce: string, now: int): Planned {
    if !SessionLive(w, token, now) then Refuse(Unauthorized)
    else if Blank(operation) then Refuse(Unauthorized)
    else
      var resource := if resourceId.Some? && !Blank(resourceId.value) then Some(Trim(resourceId.value)) else None;
      Go([SaveChallenge(Challenge(challengeId, w.sessions[token].deviceId, nonce, FreshAuthentication, now + TWO_MINUTES, false,
                                  Some(FreshBinding(Trim(operation), resource, w.env.hashToken(token)))))])
  }

  function PlanVerifyFresh(w: World, token: string, challengeId: string, publicKey: string, signature: string,
                           operation: string, resourceId: Option<string>, now: int): Planned {
    VerifyFreshOn(w, w, token, challengeId, publicKey, signature, operation, resourceId, now)
  }

  /** The session check reads in `w`; the records behind the proof are read again, later. */
  function VerifyFreshOn(w: World, again: World, token: string, challengeId: string, publicKey: string, signature: string,
                         operation: string, resourceId: Option<string>, now: int): Planned {
    if !SessionLive(w, token, now) then Refuse(Unauthorized)
    else if challengeId !in w.challenges then Refuse(Unauthorized)
    else
      var s := w.sessions[token];
      var c := w.challenges[challengeId];
      if c.purpose != FreshAuthentication || c.used || c.deviceId != s.deviceId
         || c.binding != Some(FreshBinding(operation, resourceId, w.env.hashToken(token))) then Refuse(Unauthorized)
      else if c.expiresAt <= now then Refuse(Unauthorized)
      else if s.deviceId !in again.devices.rows || again.devices.rows[s.deviceId].status != Active then Refuse(Unauthorized)
      else
        var d := again.devices.rows[s.deviceId];
        if d.identityId !in again.identities.rows || again.identities.rows[d.identityId].status != Active
           || s.walletAddress !in again.wallets.rows then Refuse(Unauthorized)
        else
          var i := again.identities.rows[d.identityId];
          var x := again.wallets.rows[s.walletAddress];
          if x.identityId != i.identityId || x.status != Active || x.deviceId != s.deviceId || d.publicKey == ""
             || publicKey != d.publicKey then Refuse(Unauthorized)
          else if !BindingOk(w.env, x.address, d.publicKey) then Refuse(Unauthorized)
          else if !w.env.proves(c.nonce, d.publicKey, signature) then Refuse(Unauthorized)
          else Go([Consume(challengeId, Unauthorized, Some(FreshAuth(challengeId, s.deviceId, token, operation, resourceId)))])
  }

  function Plan(w: World, c: Call): Planned {
    match c
    case CreateUser(e, r, g, f, d, s, a) => PlanCreateUser(w, e, r, g, f, d, s, a)
    case RequestProvisioning(d, a, c, n, now) => PlanRequestProvisioning(w, d, a, c, n, now)
    case InitializeAccount(n, e, dep, d, pk, x, c, sig, a, f, now) => PlanInitializeAccount(w, n, e, dep, d, pk, x, c, sig, a, f, now)
    case VerifyRegistration(a, u, e, d) => PlanVerifyRegistration(w, a, u, e, d)
    case ActivateRegistration(a, u) => PlanActivateRegistration(w, a, u)
    case RegisterDevice(u, d, c, pk) => PlanRegisterDevice(w, u, d, c, pk)
    case RevokeDevice(d, a) => PlanRevokeDevice(w, d, a)
    case RegisterWallet(u, d, x) => PlanRegisterWallet(w, u, d, x)
    case RevokeWallet(u, r, a) => PlanRevokeWallet(w, u, r, a)
    case ActivateWallet(u, d, x, a) => PlanActivateWallet(w, u, d, x, a)
    case AssignRole(a, u, r) => PlanAssignRole(w, a, u, r)
    case RequestAuthentication(d, c, n, now) => PlanRequestAuthentication(w, d, c, n, now)
    case LoginWithProof(d, c, pk, sig, t, ttl, now) => PlanLoginWithProof(w, d, c, pk, sig, t, ttl, now)
    case LoginWithCredential(c, p, t, ttl, now) => PlanLoginWithCredential(w, c, p, t, ttl, now)
    case ValidateSession(t, now) => PlanValidateSession(w, t, now)
    case Logout(t) => Go([DeleteSession(t)])
    case RequestFresh(t, op, res, c, n, now) => PlanRequestFresh(w, t, op, res, c, n, now)
    case VerifyFresh(t, c, pk, sig, op, res, now) => PlanVerifyFresh(w, t, c, pk, sig, op, res, now)
  }

  function Carry(w: World, p: Planned): (World, Outcome) {
    match p
    case Refuse(e) => (w, Failed(e))
    case Go(s) => Run(w, s)
  }

  /** A service call taken as one atomic step. */
  function Perform(w: World, c: Call): (World, Outcome) {
    Carry(w, Plan(w, c))
  }

  /** A sequence of calls, each atomic, whatever their outcomes. */
  function PerformAll(w: World, calls: seq<Call>): World
    decreases |calls|
  {
    if calls == [] then w else PerformAll(Perform(w, calls[0]).0, calls[1..])
  }
}
