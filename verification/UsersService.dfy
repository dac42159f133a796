/** The users service, statement by statement, over the shared repositories. Every method
    is proved to be the call of the same name in module IdentityModel, run as one step. */
module UsersService {
  import opened Prelude
  import opened IdentityModel
  import opened Repositories

  /** The effects of a device revocation, by position. */
  lemma DeviceScriptAt(actor: string, d: Device, xs: seq<Wallet>)
    ensures var s, n := DeviceRevocationScript(actor, d, xs), |xs|;
            var m := n + if d.status == Revoked then 0 else 1;
            && |s| == m + 1 + n
            && (forall k :: 0 <= k < n ==> s[k] == Action.EnsureWalletRevoked(actor, xs[k].address))
            && (d.status != Revoked ==> s[n] == Action.SaveDevice(d.(status := Revoked)))
            && s[m] == Action.RevokeCredentials(d.deviceId)
            && forall k :: 0 <= k < n ==> s[m + 1 + k] == Action.SaveWallet(xs[k].(status := Revoked))
  {
    var s, n := DeviceRevocationScript(actor, d, xs), |xs|;
    var m := n + if d.status == Revoked then 0 else 1;
    if xs != [] { RevocationsConfirm(actor, xs, 0); }
    forall k | 0 <= k < n
      ensures s[k] == Action.EnsureWalletRevoked(actor, xs[k].address) && s[m + 1 + k] == Action.SaveWallet(xs[k].(status := Revoked))
    {
      RevocationsConfirm(actor, xs, k);
      assert s[k] == RevokeOnChain(actor, xs)[k] && s[m + 1 + k] == SaveRevoked(xs)[k];
    }
  }

  /** The effects of a wallet activation, by position. */
  lemma ActivationScriptAt(actor: string, did: string, x: Wallet, olds: seq<Wallet>)
    ensures var s, n := WalletActivationScript(actor, did, x, olds), |olds|;
            && |s| == 2 * n + 4
            && (forall k :: 0 <= k < n ==> s[2 * k] == Action.Submit(actor, WalletRevoke(olds[k].address))
                                           && s[2 * k + 1] == Action.SaveWallet(olds[k].(status := Revoked)))
            && s[2 * n..] == [Action.EnsureIdentityCreated(actor, did, x.address), Action.EnsureWalletActive(actor, x.address),
                              Action.SaveWallet(x.(status := Active)), Action.RepointUser(did, x.address)]
  {
    var s, n := WalletActivationScript(actor, did, x, olds), |olds|;
    if olds != [] { ReplacementsAlternate(actor, olds, 0); }
    forall k | 0 <= k < n
      ensures s[2 * k] == Action.Submit(actor, WalletRevoke(olds[k].address)) && s[2 * k + 1] == Action.SaveWallet(olds[k].(status := Revoked))
    {
      ReplacementsAlternate(actor, olds, k);
      assert s[2 * k] == ReplaceWallets(actor, olds)[2 * k] && s[2 * k + 1] == ReplaceWallets(actor, olds)[2 * k + 1];
    }
  }

  lemma RepointCompletes(w: World, id: string, address: string)
    ensures var user := FindUser(w.users, id);
            Complete(w, Action.RepointUser(id, address)) ==
              if user.Some? then Complete(w, Action.SaveUser(user.value.(walletAddress := address))) else (w, Ok)
  {
    hide FindUser;
  }

  class Service {
    const repositories: Store

    constructor (repositories: Store)
      ensures this.repositories == repositories
    {
      this.repositories := repositories;
    }

    ghost function State(): World
      reads this, repositories
    {
      repositories.State()
    }

    // ------------------------------------------------------------------- private

    method ResolveIdentity(id: string) returns (i: Option<Identity>)
      ensures i == Resolve(State(), id)
    {
      i := repositories.identities.Get(id);
      if i.None? {
        i := FindByEmployee(repositories.identities, id);
      }
    }

    /** The actor's wallet, if it is active, signs; outside EVM mode SYSTEM stands in. */
    method Submit(actor: string, tx: Tx) returns (r: Outcome)
      modifies repositories
      ensures (State(), r) == Complete(old(State()), Action.Submit(actor, tx))
    {
      hide FindUser, SendStep;
      var user := FindUser(repositories.users, actor);
      var candidate := if user.Some? then user.value.walletAddress else "";
      assert Complete(State(), Action.Submit(actor, tx)) == Complete(State(), Action.CheckSender(candidate, tx));
      var wallet := if candidate != "" then repositories.wallets.Get(candidate) else None;
      if wallet.Some? && wallet.value.status == Active {
        r := repositories.SubmitTransaction(candidate, tx);
      } else if repositories.env.evm {
        r := Failed(Signer);
      } else {
        r := repositories.SubmitTransaction(SYSTEM_WALLET, tx);
      }
    }

    method EnsureIdentityCreated(actor: string, did: string, address: string) returns (r: Outcome)
      modifies repositories
      ensures (State(), r) == Complete(old(State()), Action.EnsureIdentityCreated(actor, did, address))
    {
      hide FindUser, SendStep;
      var onChain := OnChain(repositories.env, address);
      if repositories.env.evm && onChain in repositories.chain.wallets {
        if repositories.chain.wallets[onChain].did != did {
          return Failed(Conflict);
        }
        return Ok;
      }
      r := Submit(actor, IdentityCreate(address, did));
    }

    method EnsureRoleAssigned(actor: string, did: string, role: Role, address: string) returns (r: Outcome)
      modifies repositories
      ensures (State(), r) == Complete(old(State()), Action.EnsureRoleAssigned(actor, did, role, address))
    {
      hide FindUser, SendStep, ChainRole;
      if repositories.env.evm && ChainRole(repositories.chain, did) == Some(role) {
        return Ok;
      }
      r := Submit(actor, RoleAssign(Some(address), did, role));
    }

    method EnsureWalletActive(actor: string, address: string) returns (r: Outcome)
      modifies repositories
      ensures (State(), r) == Complete(old(State()), Action.EnsureWalletActive(actor, address))
    {
      hide FindUser, SendStep;
      var onChain := OnChain(repositories.env, address);
      if repositories.env.evm && onChain in repositories.chain.wallets {
        if repositories.chain.wallets[onChain].status == Active {
          return Ok;
        }
        if repositories.chain.wallets[onChain].status == Revoked {
          return Failed(Conflict);
        }
      }
      r := Submit(actor, WalletActivate(address));
    }

    method EnsureWalletRevoked(actor: string, address: string) returns (r: Outcome)
      modifies repositories
      ensures (State(), r) == Complete(old(State()), Action.EnsureWalletRevoked(actor, address))
    {
      hide FindUser, SendStep;
      var onChain := OnChain(repositories.env, address);
      if repositories.env.evm && onChain in repositories.chain.wallets && repositories.chain.wallets[onChain].status == Revoked {
        return Ok;
      }
      r := Submit(actor, WalletRevoke(address));
    }

    // --------------------------------------------------------------- registration

    method ActivateRegistration(actorId: string, userId: string) returns (r: Outcome)
      modifies repositories
      ensures (State(), r) == Perform(old(State()), Call.ActivateRegistration(actorId, userId))
    {
      hide Complete, RunFrom, Along;
      ghost var w := State();
      assert Plan(w, Call.ActivateRegistration(actorId, userId)) == PlanActivateRegistration(w, actorId, userId);
      var actor := ResolveIdentity(actorId);
      if actor.None? {
        return Failed(NotFound);
      }
      if actor.value.status != Active || actor.value.role != Some(ADMIN) {
        return Failed(Forbidden);
      }
      var found := ResolveIdentity(userId);
      if found.None? {
        return Failed(NotFound);
      }
      var identity := found.value;
      if identity.status != Pending || identity.employeeId == None || identity.employeeId == Some("")
         || identity.department == "" || identity.role.None? {
        return Failed(Conflict);
      }
      var device := FindDevice(repositories.devices, identity.identityId, Pending);
      var wallet := FindWallet(repositories.wallets, identity.identityId, Pending);
      if device.None? || wallet.None? {
        return Failed(Conflict);
      }
      if wallet.value.publicKey == "" || device.value.publicKey == "" || wallet.value.publicKey != device.value.publicKey {
        return Failed(Forbidden);
      }
      if !BindingOk(repositories.env, wallet.value.address, wallet.value.publicKey) {
        return Failed(Validation);
      }
      r := Activate(actor.value.identityId, identity, device.value, wallet.value);
    }

    /** The chain sequence first, and the four records only once it is confirmed. */
    method Activate(actor: string, i: Identity, d: Device, x: Wallet) returns (r: Outcome)
      requires i.role.Some?
      modifies repositories
      ensures (State(), r) == Run(old(State()), ActivationScript(actor, i, i.role.value, d, x))
    {
      hide Complete, RunFrom, Along, Run, ToUser;
      ghost var w, s := State(), ActivationScript(actor, i, i.role.value, d, x);
      r := ConfirmOnChain(actor, i, x, s);
      if r != Ok {
        return;
      }
      SaveActivated(i, d, x, s, w);
    }

    method ConfirmOnChain(actor: string, i: Identity, x: Wallet, ghost s: Script) returns (r: Outcome)
      requires i.role.Some? && |s| >= 3
      requires s[0] == Action.EnsureIdentityCreated(actor, i.identityId, x.address)
      requires s[1] == Action.EnsureRoleAssigned(actor, i.identityId, i.role.value, x.address)
      requires s[2] == Action.EnsureWalletActive(actor, x.address)
      modifies repositories
      ensures if r == Ok then Along(old(State()), s, 3, State()) else Run(old(State()), s) == (State(), r)
    {
      hide Complete, RunFrom, Along, Run;
      ghost var w := State();
      AlongStart(w, s);
      r := EnsureIdentityCreated(actor, i.identityId, x.address);
      AlongStep(w, s, 0, w, s[0], State(), r);
      if r != Ok {
        return;
      }
      ghost var w1 := State();
      r := EnsureRoleAssigned(actor, i.identityId, i.role.value, x.address);
      AlongStep(w, s, 1, w1, s[1], State(), r);
      if r != Ok {
        return;
      }
      ghost var w2 := State();
      r := EnsureWalletActive(actor, x.address);
      AlongStep(w, s, 2, w2, s[2], State(), r);
    }

    method SaveActivated(i: Identity, d: Device, x: Wallet, ghost s: Script, ghost w: World)
      requires |s| == 7 && Along(w, s, 3, State())
      requires s[3] == Action.SaveIdentity(i.(status := Active), None) && s[4] == Action.SaveDevice(d.(status := Active))
      requires s[5] == Action.SaveWallet(x.(status := Active)) && s[6] == Action.SaveUser(ToUser(i.(status := Active), x.address))
      modifies repositories
      ensures Run(w, s) == (State(), Ok)
    {
      hide Complete, RunFrom, Along, Run, ToUser;
      ghost var w3 := State();
      repositories.SaveIdentity(i.(status := Active), None);
      AlongStep(w, s, 3, w3, s[3], State(), Ok);
      ghost var w4 := State();
      repositories.SaveDevice(d.(status := Active));
      AlongStep(w, s, 4, w4, s[4], State(), Ok);
      ghost var w5 := State();
      repositories.SaveWallet(x.(status := Active));
      AlongStep(w, s, 5, w5, s[5], State(), Ok);
      ghost var w6 := State();
      repositories.SaveUser(ToUser(i.(status := Active), x.address));
      AlongStep(w, s, 6, w6, s[6], State(), Ok);
      AlongEnd(w, s, State());
    }

    /** The employee directory entry an administrator creates directly. */
    method CreateUser(employeeId: string, role: Role, givenId: Option<string>, freshId: string, department: string,
                      status: Status, caller: Option<string>) returns (r: Outcome)
      modifies repositories
      ensures (State(), r) == Perform(old(State()), Call.CreateUser(employeeId, role, givenId, freshId, department, status, caller))
    {
      hide Complete, RunFrom, Along, ToUser, ChainRole, FindByEmployee;
      ghost var w := State();
      ghost var plan := Plan(w, Call.CreateUser(employeeId, role, givenId, freshId, department, status, caller));
      assert plan == PlanCreateUser(w, employeeId, role, givenId, freshId, department, status, caller);
      if employeeId == "" {
        return Failed(Validation);
      }
      if FindByEmployee(repositories.identities, employeeId).Some? {
        return Failed(Conflict);
      }
      if givenId.Some? && givenId.value != "" && givenId.value in repositories.identities.rows {
        return Failed(Conflict);
      }
      var id := if givenId.Some? then givenId.value else freshId;
      var identity := Identity(id, Some(employeeId), Some(role), department, status, None);
      var onChain := if repositories.env.evm then ChainRole(repositories.chain, id) else None;
      if repositories.env.evm && onChain.None? {
        return Failed(Conflict);
      }
      if onChain.Some? && onChain != Some(role) {
        var actor := ResolveIdentity(if caller.Some? then caller.value else id);
        if actor.None? {
          return Failed(NotFound);
        }
        r := RealignRole(actor.value.identityId, identity, role);
        return;
      }
      r := StoreUser(identity, role, onChain.Some?);
    }

    /** The chain already knows the identity under another role. */
    method RealignRole(actor: string, identity: Identity, role: Role) returns (r: Outcome)
      modifies repositories
      ensures (State(), r) == Run(old(State()), [Action.Submit(actor, RoleAssign(None, identity.identityId, role)),
                                                 Action.SaveIdentity(identity, None), Action.SaveUser(ToUser(identity, ""))])
    {
      hide Complete, RunFrom, Along, Run, ToUser;
      ghost var w := State();
      ghost var s := [Action.Submit(actor, RoleAssign(None, identity.identityId, role)),
                      Action.SaveIdentity(identity, None), Action.SaveUser(ToUser(identity, ""))];
      AlongStart(w, s);
      r := Submit(actor, RoleAssign(None, identity.identityId, role));
      AlongStep(w, s, 0, w, s[0], State(), r);
      if r != Ok {
        return;
      }
      ghost var w1 := State();
      repositories.SaveIdentity(identity, None);
      AlongStep(w, s, 1, w1, s[1], State(), Ok);
      ghost var w2 := State();
      repositories.SaveUser(ToUser(identity, ""));
      AlongStep(w, s, 2, w2, s[2], State(), Ok);
      AlongEnd(w, s, State());
    }

    /** Both rows first; an identity the chain does not know is announced to it afterwards. */
    method StoreUser(identity: Identity, role: Role, known: bool) returns (r: Outcome)
      modifies repositories
      ensures (State(), r) ==
              Run(old(State()), if known then [Action.SaveIdentity(identity, None), Action.SaveUser(ToUser(identity, ""))]
                                else [Action.SaveIdentity(identity, None), Action.SaveUser(ToUser(identity, "")),
                                      Action.Submit(identity.identityId, IdentityCreate("", identity.identityId)),
                                      Action.Submit(identity.identityId, RoleAssign(None, identity.identityId, role))])
    {
      hide Complete, RunFrom, Along, Run, ToUser;
      ghost var w := State();
      ghost var s := if known then [Action.SaveIdentity(identity, None), Action.SaveUser(ToUser(identity, ""))]
                     else [Action.SaveIdentity(identity, None), Action.SaveUser(ToUser(identity, "")),
                           Action.Submit(identity.identityId, IdentityCreate("", identity.identityId)),
                           Action.Submit(identity.identityId, RoleAssign(None, identity.identityId, role))];
      AlongStart(w, s);
      repositories.SaveIdentity(identity, None);
      AlongStep(w, s, 0, w, s[0], State(), Ok);
      ghost var w1 := State();
      repositories.SaveUser(ToUser(identity, ""));
      AlongStep(w, s, 1, w1, s[1], State(), Ok);
      if known {
        AlongEnd(w, s, State());
        return Ok;
      }
      ghost var w2 := State();
      r := Submit(identity.identityId, IdentityCreate("", identity.identityId));
      AlongStep(w, s, 2, w2, s[2], State(), r);
      if r != Ok {
        return;
      }
      ghost var w3 := State();
      r := Submit(identity.identityId, RoleAssign(None, identity.identityId, role));
      AlongStep(w, s, 3, w3, s[3], State(), r);
      if r == Ok { AlongEnd(w, s, State()); }
    }

    method RequestProvisioningChallenge(deviceId: string, attested: bool, challengeId: string, nonce: string, now: int) returns (r: Outcome)
      modifies repositories
      ensures (State(), r) == Perform(old(State()), Call.RequestProvisioning(deviceId, attested, challengeId, nonce, now))
    {
      hide Complete, RunFrom, Along, Trim;
      ghost var w := State();
      assert Plan(w, Call.RequestProvisioning(deviceId, attested, challengeId, nonce, now))
          == PlanRequestProvisioning(w, deviceId, attested, challengeId, nonce, now);
      if Blank(deviceId) {
        return Failed(Validation);
      }
      if !attested {
        return Failed(Forbidden);
      }
      var challenge := Challenge(challengeId, deviceId, nonce, WalletInitialization, now + FIVE_MINUTES, false, None);
      ghost var s := [Action.SaveChallenge(challenge)];
      AlongStart(w, s);
      repositories.SaveChallenge(challenge);
      AlongStep(w, s, 0, w, s[0], State(), Ok);
      AlongEnd(w, s, State());
      r := Ok;
    }

    method InitializeAccount(fullName: string, employeeId: string, department: string, deviceId: string, publicKey: string,
                             walletAddress: string, challengeId: string, signature: string, attested: bool, freshId: string,
                             now: int) returns (r: Outcome)
      modifies repositories
      ensures (State(), r) ==
              Perform(old(State()), Call.InitializeAccount(fullName, employeeId, department, deviceId, publicKey, walletAddress,
                                                           challengeId, signature, attested, freshId, now))
    {
      hide Complete, RunFrom, Along, Trim, FindByEmployee, Run;
      ghost var w := State();
      assert Plan(w, Call.InitializeAccount(fullName, employeeId, department, deviceId, publicKey, walletAddress,
                                            challengeId, signature, attested, freshId, now))
          == PlanInitializeAccount(w, fullName, employeeId, department, deviceId, publicKey, walletAddress,
                                   challengeId, signature, attested, freshId, now);
      if Blank(fullName) || Blank(deviceId) || Blank(publicKey) || Blank(walletAddress) || Blank(challengeId) || Blank(signature) {
        return Failed(Validation);
      }
      if challengeId !in repositories.challenges || repositories.challenges[challengeId].purpose != WalletInitialization {
        return Failed(Validation);
      }
      var challenge := repositories.challenges[challengeId];
      if challenge.used {
        return Failed(Conflict);
      }
      if challenge.expiresAt <= now {
        return Failed(Validation);
      }
      if challenge.deviceId != deviceId {
        return Failed(Validation);
      }
      if !BindingOk(repositories.env, walletAddress, publicKey) {
        return Failed(Validation);
      }
      if !repositories.env.proves(challenge.nonce, publicKey, signature) {
        return Failed(Forbidden);
      }
      if !attested {
        return Failed(Forbidden);
      }
      if walletAddress in repositories.wallets.rows {
        return Failed(Conflict);
      }
      if deviceId in repositories.devices.rows {
        return Failed(Conflict);
      }
      if employeeId != "" && FindByEmployee(repositories.identities, employeeId).Some? {
        return Failed(Conflict);
      }
      var identity := Identity(freshId, if Blank(employeeId) then None else Some(Trim(employeeId)), None, Trim(department), Pending, None);
      var device := Device(Trim(deviceId), freshId, Pending, publicKey);
      var wallet := Wallet(Trim(walletAddress), freshId, device.deviceId, Pending, publicKey);
      r := StoreRegistration(challengeId, deviceId, identity, device, wallet);
    }

    /** The challenge is consumed before anything is stored; losing the race stores nothing. */
    method StoreRegistration(challengeId: string, deviceId: string, identity: Identity, device: Device, wallet: Wallet) returns (r: Outcome)
      modifies repositories
      ensures (State(), r) ==
              Run(old(State()), [Action.Consume(challengeId, Conflict, None),
                                 Action.SaveIdentity(identity, Some(Registration(challengeId, deviceId, identity))),
                                 Action.SaveDevice(device), Action.SaveWallet(wallet)])
    {
      hide Complete, RunFrom, Along, Run;
      ghost var w := State();
      ghost var s := [Action.Consume(challengeId, Conflict, None),
                      Action.SaveIdentity(identity, Some(Registration(challengeId, deviceId, identity))),
                      Action.SaveDevice(device), Action.SaveWallet(wallet)];
      AlongStart(w, s);
      var consumed := repositories.ConsumeIfUnused(challengeId, Conflict, None);
      AlongStep(w, s, 0, w, s[0], State(), if consumed then Ok else Failed(Conflict));
      if !consumed {
        return Failed(Conflict);
      }
      ghost var w1 := State();
      repositories.SaveIdentity(identity, Some(Registration(challengeId, deviceId, identity)));
      AlongStep(w, s, 1, w1, s[1], State(), Ok);
      ghost var w2 := State();
      repositories.SaveDevice(device);
      AlongStep(w, s, 2, w2, s[2], State(), Ok);
      ghost var w3 := State();
      repositories.SaveWallet(wallet);
      AlongStep(w, s, 3, w3, s[3], State(), Ok);
      AlongEnd(w, s, State());
      r := Ok;
    }

    method VerifyRegistration(actorId: string, userId: string, employeeId: string, department: string) returns (r: Outcome)
      modifies repositories
      ensures (State(), r) == Perform(old(State()), Call.VerifyRegistration(actorId, userId, employeeId, department))
    {
      hide Complete, RunFrom, Along, Trim, FindByEmployee, Resolve;
      ghost var w := State();
      assert Plan(w, Call.VerifyRegistration(actorId, userId, employeeId, department))
          == PlanVerifyRegistration(w, actorId, userId, employeeId, department);
      var actor := ResolveIdentity(actorId);
      if actor.None? {
        return Failed(NotFound);
      }
      if actor.value.status != Active || actor.value.role != Some(ADMIN) {
        return Failed(Forbidden);
      }
      if Blank(employeeId) || Blank(department) {
        return Failed(Validation);
      }
      var found := ResolveIdentity(userId);
      if found.None? {
        return Failed(NotFound);
      }
      var target := found.value;
      if target.status != Pending {
        return Failed(Conflict);
      }
      var existing := FindByEmployee(repositories.identities, employeeId);
      if existing.Some? && existing.value.identityId != target.identityId {
        return Failed(Conflict);
      }
      target := target.(employeeId := Some(Trim(employeeId)), department := Trim(department), verifiedBy := Some(actor.value.identityId));
      r := StoreIdentity(target);
    }

    method StoreIdentity(i: Identity) returns (r: Outcome)
      modifies repositories
      ensures (State(), r) == Run(old(State()), [Action.SaveIdentity(i, None)]) && r == Ok
    {
      hide Complete, RunFrom, Along, Run;
      ghost var w, s := State(), [Action.SaveIdentity(i, None)];
      AlongStart(w, s);
      repositories.SaveIdentity(i, None);
      AlongStep(w, s, 0, w, s[0], State(), Ok);
      AlongEnd(w, s, State());
      r := Ok;
    }

    // ------------------------------------------------------------------- devices

    method RegisterDevice(userId: string, deviceId: string, credential: string, publicKey: string) returns (r: Outcome)
      modifies repositories
      ensures (State(), r) == Perform(old(State()), Call.RegisterDevice(userId, deviceId, credential, publicKey))
    {
      hide Complete, RunFrom, Along, Trim, Resolve;
      ghost var w := State();
      assert Plan(w, Call.RegisterDevice(userId, deviceId, credential, publicKey)) == PlanRegisterDevice(w, userId, deviceId, credential, publicKey);
      if Blank(deviceId) || Blank(credential) {
        return Failed(Validation);
      }
      if repositories.env.evm && publicKey == "" {
        return Failed(Validation);
      }
      if repositories.env.evm && repositories.env.derive(publicKey).None? {
        return Failed(Validation);
      }
      var target := ResolveIdentity(userId);
      if target.None? {
        return Failed(NotFound);
      }
      var existing := repositories.devices.Get(deviceId);
      if existing.Some? && existing.value.identityId != target.value.identityId {
        return Failed(Conflict);
      }
      if existing.Some? && existing.value.status == Active {
        return Failed(Conflict);
      }
      var device := Device(deviceId, target.value.identityId, Active,
                           if publicKey != "" then publicKey else if existing.Some? then existing.value.publicKey else "");
      r := StoreDevice(device, repositories.env.hashCredential(credential));
    }

    method StoreDevice(device: Device, verifier: string) returns (r: Outcome)
      modifies repositories
      ensures (State(), r) == Run(old(State()), [Action.SaveDevice(device), Action.SaveCredential(verifier, device.deviceId)])
    {
      hide Complete, RunFrom, Along, Run;
      ghost var w, s := State(), [Action.SaveDevice(device), Action.SaveCredential(verifier, device.deviceId)];
      AlongStart(w, s);
      repositories.SaveDevice(device);
      AlongStep(w, s, 0, w, s[0], State(), Ok);
      ghost var w1 := State();
      repositories.SaveCredential(verifier, device.deviceId);
      AlongStep(w, s, 1, w1, s[1], State(), Ok);
      AlongEnd(w, s, State());
      r := Ok;
    }

    method RevokeDevice(deviceId: string, caller: Option<string>) returns (r: Outcome)
      modifies repositories
      ensures (State(), r) == Perform(old(State()), Call.RevokeDevice(deviceId, caller))
    {
      hide Complete, RunFrom, Along, Run, Resolve, ActiveWalletsOn, DeviceRevocationScript;
      ghost var w := State();
      assert Plan(w, Call.RevokeDevice(deviceId, caller)) == PlanRevokeDevice(w, deviceId, caller);
      var device := repositories.devices.Get(deviceId);
      if device.None? {
        return Failed(NotFound);
      }
      var actor := ResolveIdentity(if caller.Some? then caller.value else device.value.identityId);
      if actor.None? {
        return Failed(NotFound);
      }
      var wallets := ActiveWalletsOn(repositories.wallets, device.value.identityId, deviceId);
      r := RevokeDeviceAndWallets(actor.value.identityId, device.value, wallets);
    }

    /** Every chain transition is confirmed, wallet by wallet, before any record changes. */
    method RevokeDeviceAndWallets(actor: string, device: Device, wallets: seq<Wallet>) returns (r: Outcome)
      modifies repositories
      ensures (State(), r) == Run(old(State()), DeviceRevocationScript(actor, device, wallets))
    {
      hide Complete, RunFrom, Along, Run, DeviceRevocationScript;
      ghost var w, s := State(), DeviceRevocationScript(actor, device, wallets);
      DeviceScriptAt(actor, device, wallets);
      AlongStart(w, s);
      for i := 0 to |wallets|
        invariant Along(w, s, i, State())
      {
        ghost var before := State();
        r := EnsureWalletRevoked(actor, wallets[i].address);
        AlongStep(w, s, i, before, s[i], State(), r);
        if r != Ok {
          return;
        }
      }
      ghost var m := |wallets|;
      if device.status != Revoked {
        ghost var before := State();
        repositories.SaveDevice(device.(status := Revoked));
        AlongStep(w, s, m, before, s[m], State(), Ok);
        m := m + 1;
      }
      ghost var w1 := State();
      repositories.RevokeForDevice(device.deviceId);
      AlongStep(w, s, m, w1, s[m], State(), Ok);
      for i := 0 to |wallets|
        invariant Along(w, s, m + 1 + i, State())
      {
        ghost var before := State();
        repositories.SaveWallet(wallets[i].(status := Revoked));
        AlongStep(w, s, m + 1 + i, before, s[m + 1 + i], State(), Ok);
      }
      AlongEnd(w, s, State());
      r := Ok;
    }

    // ------------------------------------------------------------------- wallets

    method RegisterWallet(userId: string, deviceId: string, address: string) returns (r: Outcome)
      modifies repositories
      ensures (State(), r) == Perform(old(State()), Call.RegisterWallet(userId, deviceId, address))
    {
      hide Complete, RunFrom, Along, Trim, Resolve;
      ghost var w := State();
      assert Plan(w, Call.RegisterWallet(userId, deviceId, address)) == PlanRegisterWallet(w, userId, deviceId, address);
      if Blank(address) {
        return Failed(Validation);
      }
      var target := ResolveIdentity(userId);
      if target.None? {
        return Failed(NotFound);
      }
      if target.value.status != Active {
        return Failed(Forbidden);
      }
      var device := repositories.devices.Get(deviceId);
      if device.None? || device.value.identityId != target.value.identityId || device.value.status != Active {
        return Failed(Forbidden);
      }
      if device.value.publicKey == "" {
        return Failed(Forbidden);
      }
      if !BindingOk(repositories.env, address, device.value.publicKey) {
        return Failed(Validation);
      }
      if address in repositories.wallets.rows {
        return Failed(Conflict);
      }
      var wallet := Wallet(Trim(address), target.value.identityId, deviceId, Pending, device.value.publicKey);
      ghost var s := [Action.SaveWallet(wallet)];
      AlongStart(w, s);
      repositories.SaveWallet(wallet);
      AlongStep(w, s, 0, w, s[0], State(), Ok);
      AlongEnd(w, s, State());
      r := Ok;
    }

    method RevokeWallet(userId: string, reason: string, actorId: string) returns (r: Outcome)
      modifies repositories
      ensures (State(), r) == Perform(old(State()), Call.RevokeWallet(userId, reason, actorId))
    {
      hide Complete, RunFrom, Along, Trim, Resolve, FindWallet;
      ghost var w := State();
      assert Plan(w, Call.RevokeWallet(userId, reason, actorId)) == PlanRevokeWallet(w, userId, reason, actorId);
      if Blank(reason) {
        return Failed(Validation);
      }
      var target := ResolveIdentity(userId);
      if target.None? {
        return Failed(NotFound);
      }
      var wallet := FindWallet(repositories.wallets, target.value.identityId, Active);
      if wallet.None? {
        return Failed(NotFound);
      }
      var actor := ResolveIdentity(actorId);
      if actor.None? {
        return Failed(NotFound);
      }
      r := RevokeThenSave(actor.value.identityId, wallet.value);
    }

    method RevokeThenSave(actor: string, wallet: Wallet) returns (r: Outcome)
      modifies repositories
      ensures (State(), r) == Run(old(State()), [Action.Submit(actor, WalletRevoke(wallet.address)), Action.SaveWallet(wallet.(status := Revoked))])
    {
      hide Complete, RunFrom, Along, Run;
      ghost var w := State();
      ghost var s := [Action.Submit(actor, WalletRevoke(wallet.address)), Action.SaveWallet(wallet.(status := Revoked))];
      AlongStart(w, s);
      r := Submit(actor, WalletRevoke(wallet.address));
      AlongStep(w, s, 0, w, s[0], State(), r);
      if r != Ok {
        return;
      }
      ghost var w1 := State();
      repositories.SaveWallet(wallet.(status := Revoked));
      AlongStep(w, s, 1, w1, s[1], State(), Ok);
      AlongEnd(w, s, State());
    }

    method ActivateWallet(userId: string, deviceId: string, address: string, actorId: string) returns (r: Outcome)
      modifies repositories
      ensures (State(), r) == Perform(old(State()), Call.ActivateWallet(userId, deviceId, address, actorId))
    {
      hide Complete, RunFrom, Along, Run, Trim, Resolve, ActiveWalletsExcept, WalletActivationScript;
      ghost var w := State();
      assert Plan(w, Call.ActivateWallet(userId, deviceId, address, actorId)) == PlanActivateWallet(w, userId, deviceId, address, actorId);
      if Blank(address) {
        return Failed(Validation);
      }
      var target := ResolveIdentity(userId);
      if target.None? {
        return Failed(NotFound);
      }
      if target.value.status != Active {
        return Failed(Forbidden);
      }
      var device := repositories.devices.Get(deviceId);
      if device.None? || device.value.identityId != target.value.identityId || device.value.status != Active {
        return Failed(Forbidden);
      }
      var existing := repositories.wallets.Get(Trim(address));
      if existing.Some? && existing.value.identityId != target.value.identityId {
        return Failed(Forbidden);
      }
      if existing.None? || existing.value.deviceId != deviceId || existing.value.status != Pending {
        return Failed(NotFound);
      }
      if existing.value.publicKey == "" {
        return Failed(Forbidden);
      }
      if !BindingOk(repositories.env, address, existing.value.publicKey) {
        return Failed(Validation);
      }
      var actor := ResolveIdentity(actorId);
      if actor.None? {
        return Failed(NotFound);
      }
      var olds := ActiveWalletsExcept(repositories.wallets, target.value.identityId, existing.value.address);
      r := ReplaceAndActivate(actor.value.identityId, target.value.identityId, existing.value, olds);
    }

    /** The old wallets go one by one, each on the chain before its record; then the new one
        is announced, activated and made the identity's wallet. */
    method ReplaceAndActivate(actor: string, did: string, wallet: Wallet, olds: seq<Wallet>) returns (r: Outcome)
      modifies repositories
      ensures (State(), r) == Run(old(State()), WalletActivationScript(actor, did, wallet, olds))
    {
      hide Complete, RunFrom, Along, Run, WalletActivationScript, FindUser;
      ghost var w, s := State(), WalletActivationScript(actor, did, wallet, olds);
      ActivationScriptAt(actor, did, wallet, olds);
      AlongStart(w, s);
      for i := 0 to |olds|
        invariant Along(w, s, 2 * i, State())
      {
        ghost var before := State();
        r := Submit(actor, WalletRevoke(olds[i].address));
        AlongStep(w, s, 2 * i, before, s[2 * i], State(), r);
        if r != Ok {
          return;
        }
        ghost var between := State();
        repositories.SaveWallet(olds[i].(status := Revoked));
        AlongStep(w, s, 2 * i + 1, between, s[2 * i + 1], State(), Ok);
      }
      r := ActivateReplacement(actor, did, wallet, s, 2 * |olds|, w);
    }

    method ActivateReplacement(actor: string, did: string, wallet: Wallet, ghost s: Script, ghost n: nat, ghost w: World) returns (r: Outcome)
      requires |s| == n + 4 && Along(w, s, n, State())
      requires s[n..] == [Action.EnsureIdentityCreated(actor, did, wallet.address), Action.EnsureWalletActive(actor, wallet.address),
                          Action.SaveWallet(wallet.(status := Active)), Action.RepointUser(did, wallet.address)]
      modifies repositories
      ensures Run(w, s) == (State(), r)
    {
      hide Complete, RunFrom, Along, Run, FindUser;
      assert s[n] == s[n..][0] && s[n + 1] == s[n..][1] && s[n + 2] == s[n..][2] && s[n + 3] == s[n..][3];
      ghost var w0 := State();
      r := EnsureIdentityCreated(actor, did, wallet.address);
      AlongStep(w, s, n, w0, s[n], State(), r);
      if r != Ok {
        return;
      }
      ghost var w1 := State();
      r := EnsureWalletActive(actor, wallet.address);
      AlongStep(w, s, n + 1, w1, s[n + 1], State(), r);
      if r != Ok {
        return;
      }
      ghost var w2 := State();
      repositories.SaveWallet(wallet.(status := Active));
      AlongStep(w, s, n + 2, w2, s[n + 2], State(), Ok);
      ghost var w3 := State();
      RepointCompletes(w3, did, wallet.address);
      var user := FindUser(repositories.users, did);
      if user.Some? {
        repositories.SaveUser(user.value.(walletAddress := wallet.address));
      }
      AlongStep(w, s, n + 3, w3, s[n + 3], State(), Ok);
      AlongEnd(w, s, State());
    }

    // --------------------------------------------------------------------- roles

    method AssignRole(actorId: string, userId: string, role: Role) returns (r: Outcome)
      modifies repositories
      ensures (State(), r) == Perform(old(State()), Call.AssignRole(actorId, userId, role))
    {
      hide Complete, RunFrom, Along, Run, Resolve, FindUser;
      ghost var w := State();
      assert Plan(w, Call.AssignRole(actorId, userId, role)) == PlanAssignRole(w, actorId, userId, role);
      var actor := ResolveIdentity(actorId);
      if actor.None? {
        return Failed(NotFound);
      }
      if actor.value.role != Some(ADMIN) || actor.value.status != Active {
        return Failed(Forbidden);
      }
      var target := ResolveIdentity(userId);
      if target.None? {
        return Failed(NotFound);
      }
      if target.value.status == Revoked {
        return Failed(Forbidden);
      }
      var user := FindUser(repositories.users, target.value.identityId);
      if user.None? {
        if target.value.status != Pending {
          return Failed(NotFound);
        }
        r := StoreIdentity(target.value.(role := Some(role)));
        return;
      }
      r := ChangeRole(actor.value.identityId, target.value, user.value, role);
    }

    method ChangeRole(actor: string, target: Identity, user: User, role: Role) returns (r: Outcome)
      modifies repositories
      ensures (State(), r) == Run(old(State()), [Action.Submit(actor, RoleAssign(None, target.identityId, role)),
                                                 Action.SaveIdentity(target.(role := Some(role)), None),
                                                 Action.SaveUser(user.(role := role))])
    {
      hide Complete, RunFrom, Along, Run;
      ghost var w := State();
      ghost var s := [Action.Submit(actor, RoleAssign(None, target.identityId, role)),
                      Action.SaveIdentity(target.(role := Some(role)), None), Action.SaveUser(user.(role := role))];
      AlongStart(w, s);
      r := Submit(actor, RoleAssign(None, target.identityId, role));
      AlongStep(w, s, 0, w, s[0], State(), r);
      if r != Ok {
        return;
      }
      ghost var w1 := State();
      repositories.SaveIdentity(target.(role := Some(role)), None);
      AlongStep(w, s, 1, w1, s[1], State(), Ok);
      ghost var w2 := State();
      repositories.SaveUser(user.(role := role));
      AlongStep(w, s, 2, w2, s[2], State(), Ok);
      AlongEnd(w, s, State());
    }
  }
}
