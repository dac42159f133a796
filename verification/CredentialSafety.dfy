/** What becomes of device credentials: revoking a device forgets its own and no others, and
    only registering the device again brings any back. */
module CredentialSafety {
  import opened Prelude
  import opened IdentityModel
  import opened IdentityInvariant
  import opened IdentityRuns
  import opened WalletSafety
  import opened Facts
  import opened Outcomes
  import opened SignIns

  /** No credential opens this device. */
  ghost predicate Closed(w: World, d: string) {
    forall v :: v in w.credentials ==> w.credentials[v] != d
  }

  predicate Binds(s: Script, v: string, d: string) {
    exists k :: 0 <= k < |s| && s[k] == SaveCredential(v, d)
  }

  lemma ExecCredentials(w: World, a: Action)
    ensures var p := Exec(w, a);
      && p.w.env == w.env
      && (if a.SaveCredential? then p.w.credentials == w.credentials[a.verifier := a.deviceId]
          else if a.RevokeCredentials? then Forgotten(w.credentials, p.w.credentials, a.deviceId)
          else p.w.credentials == w.credentials)
      && (p.Become? ==> !p.next.SaveCredential? && !p.next.RevokeCredentials? && Weight(p.next) < Weight(a)
                        && !a.SaveCredential? && !a.RevokeCredentials?)
  {
    hide SendStep, FindUser, ChainRole;
    if a.Send? {
      SendOnChain(w, a.sender, a.tx);
      assert Exec(w, a) == SendStep(w, a.sender, a.tx);
    }
  }

  /** After an effect a credential opens a device only if it did before or was just bound. */
  lemma {:induction false} CompleteCredentials(w: World, a: Action, v: string, d: string)
    ensures var w' := Complete(w, a).0;
      && w'.env == w.env
      && (v in w'.credentials && w'.credentials[v] == d ==> (v in w.credentials && w.credentials[v] == d) || a == SaveCredential(v, d))
    decreases Weight(a)
  {
    ExecCredentials(w, a);
    if Exec(w, a).Become? {
      hide Exec;
      CompleteCredentials(Exec(w, a).w, Exec(w, a).next, v, d);
    }
  }

  lemma {:induction false} RunCredentials(w: World, s: Script, i: nat, v: string, d: string)
    requires i <= |s|
    ensures var w' := RunFrom(w, s, i).0;
      && w'.env == w.env
      && (v in w'.credentials && w'.credentials[v] == d ==> (v in w.credentials && w.credentials[v] == d) || Binds(s, v, d))
    decreases |s| - i
  {
    hide Complete;
    if i < |s| {
      CompleteCredentials(w, s[i], v, d);
      RunCredentials(Complete(w, s[i]).0, s, i + 1, v, d);
    }
  }

  predicate NoCredential(s: Script) {
    forall k :: 0 <= k < |s| ==> !s[k].SaveCredential?
  }

  lemma {:induction false} WalletPartsBindNone(actor: string, xs: seq<Wallet>)
    ensures NoCredential(RevokeOnChain(actor, xs)) && NoCredential(SaveRevoked(xs)) && NoCredential(ReplaceWallets(actor, xs))
    decreases |xs|
  {
    if xs != [] { WalletPartsBindNone(actor, xs[1..]); }
  }

  lemma WalletScriptsBindNone(w: World, c: Call)
    requires (c.RevokeDevice? || c.ActivateWallet?) && Plan(w, c).Go?
    ensures NoCredential(Plan(w, c).script)
  {
    hide FindUser, FindWallet, FindByEmployee, Trim, ActiveWalletsOn, ActiveWalletsExcept, Resolve;
    if c.RevokeDevice? {
      WalletPartsBindNone("", ActiveWalletsOn(w.wallets, w.devices.rows[c.deviceId].identityId, c.deviceId));
      WalletPartsBindNone(Resolve(w, if c.caller.Some? then c.caller.value else w.devices.rows[c.deviceId].identityId).value.identityId,
                          ActiveWalletsOn(w.wallets, w.devices.rows[c.deviceId].identityId, c.deviceId));
    } else {
      WalletPartsBindNone(Resolve(w, c.actorId).value.identityId,
                          ActiveWalletsExcept(w.wallets, Resolve(w, c.userId).value.identityId, w.wallets.rows[Trim(c.address)].address));
    }
    hide RevokeOnChain, SaveRevoked, ReplaceWallets;
  }

  /** A registration of this device with a credential of this hash. */
  predicate Registers(env: Env, c: Call, v: string, d: string) {
    c.RegisterDevice? && c.deviceId == d && env.hashCredential(c.credential) == v
  }

  lemma PlanBinds(w: World, c: Call, v: string, d: string)
    requires Plan(w, c).Go? && Binds(Plan(w, c).script, v, d)
    ensures Registers(w.env, c, v, d)
  {
    hide FindUser, FindWallet, FindDevice, FindByEmployee, Trim, ChainRole, Resolve, PlanRevokeDevice, PlanActivateWallet, Backed,
         SessionLive, Employable, FindWalletOn;
    if c.RevokeDevice? || c.ActivateWallet? { WalletScriptsBindNone(w, c); }
  }

  /** Whatever is called, a credential opens a device afterwards only if it did before, or if
      a call registered that device with that credential. */
  lemma {:induction false} OnlyRegistrationBinds(w: World, calls: seq<Call>, v: string, d: string)
    ensures var w' := PerformAll(w, calls);
      && w'.env == w.env
      && (v in w'.credentials && w'.credentials[v] == d ==>
            (v in w.credentials && w.credentials[v] == d) || exists j :: 0 <= j < |calls| && Registers(w.env, calls[j], v, d))
    decreases |calls|
  {
    hide Perform, Registers;
    if calls != [] {
      CallBinds(w, calls[0], v, d);
      OnlyRegistrationBinds(Perform(w, calls[0]).0, calls[1..], v, d);
      assert forall j :: 0 <= j < |calls[1..]| ==> calls[1..][j] == calls[j + 1];
    }
  }

  lemma CallBinds(w: World, c: Call, v: string, d: string)
    ensures var w' := Perform(w, c).0;
      && w'.env == w.env
      && (v in w'.credentials && w'.credentials[v] == d ==> (v in w.credentials && w.credentials[v] == d) || Registers(w.env, c, v, d))
  {
    hide Plan, RunFrom, Registers;
    if Plan(w, c).Go? {
      RunCredentials(w, Plan(w, c).script, 0, v, d);
      if Binds(Plan(w, c).script, v, d) { PlanBinds(w, c, v, d); }
    }
  }

  // --------------------------------------------------------------- main results

  /** A successful revokeDevice leaves no credential that opens the device, and leaves every
      other credential as it was. */
  lemma RevocationForgets(w: World, d: string, caller: Option<string>)
    requires Good(w) && Perform(w, RevokeDevice(d, caller)).1 == Ok
    ensures var w' := Perform(w, RevokeDevice(d, caller)).0;
      && Closed(w', d)
      && (forall v :: v in w.credentials && w.credentials[v] != d ==> v in w'.credentials && w'.credentials[v] == w.credentials[v])
      && (forall v :: v in w'.credentials ==> v in w.credentials)
  {
    hide Good, Perform, Plan;
    RevokeDeviceExactly(w, d, caller);
  }

  /** After it, in every continuation, a credential opens a session on the device only if a
      later call has registered the device with it again. */
  lemma RevokedStaysOut(w: World, d: string, caller: Option<string>, calls: seq<Call>, c: Call)
    requires Good(w) && Perform(w, RevokeDevice(d, caller)).1 == Ok && c.LoginWithCredential?
    requires Admissible(Perform(w, RevokeDevice(d, caller)).0, calls)
    requires forall j :: 0 <= j < |calls| ==> !Registers(w.env, calls[j], w.env.hashCredential(c.credential), d)
    ensures var v := PerformAll(Perform(w, RevokeDevice(d, caller)).0, calls);
            Plan(v, c).Go? ==> Plan(v, c).script[0].SaveSession? && Plan(v, c).script[0].session.deviceId != d
  {
    hide Good, Perform, PerformAll, Registers, Admissible, Plan;
    RevocationForgets(w, d, caller);
    PerformKeeps(w, RevokeDevice(d, caller));
    var w' := Perform(w, RevokeDevice(d, caller)).0;
    RevokeDeviceExactly(w, d, caller);
    OnlyRegistrationBinds(w', calls, w.env.hashCredential(c.credential), d);
    RunKeeps(w', calls);
    if Plan(PerformAll(w', calls), c).Go? { OpensBound(PerformAll(w', calls), c); }
  }

  /** Signing in with a credential opens a session on the very device it is bound to. */
  lemma OpensBound(w: World, c: Call)
    requires Good(w) && c.LoginWithCredential? && Plan(w, c).Go?
    ensures var v := w.env.hashCredential(c.credential);
      v in w.credentials && Plan(w, c).script[0].SaveSession? && Plan(w, c).script[0].session.deviceId == w.credentials[v]
  {
    hide UserRows, ActivePlaced, OneActive, Onboarding, SessionsSound, RowWallets, EmployeesUnique, FindUser, FindWallet;
  }

  /** A login with another device's credential is answered after the revocation as before. */
  lemma OthersSignInAsBefore(w: World, d: string, caller: Option<string>, c: Call)
    requires Good(w) && Perform(w, RevokeDevice(d, caller)).1 == Ok && c.LoginWithCredential?
    requires w.env.hashCredential(c.credential) in w.credentials ==> w.credentials[w.env.hashCredential(c.credential)] != d
    ensures Plan(Perform(w, RevokeDevice(d, caller)).0, c) == Plan(w, c)
  {
    hide Good, Perform, WalletsOnRevoked, PlanLoginWithCredential, PlanRevokeDevice;
    RevocationForgets(w, d, caller);
    RevokeDeviceExactly(w, d, caller);
    PerformKeeps(w, RevokeDevice(d, caller));
    SamePlan(w, Perform(w, RevokeDevice(d, caller)).0, d, c);
  }

  lemma SamePlan(w: World, w': World, d: string, c: Call)
    requires Good(w) && Good(w') && c.LoginWithCredential? && w'.env == w.env
    requires d in w.devices.rows && w'.devices.rows == w.devices.rows[d := w.devices.rows[d].(status := Revoked)]
    requires w'.identities == w.identities && w'.users == w.users && WalletsOnRevoked(w.wallets.rows, w'.wallets.rows, d)
    requires var v := w.env.hashCredential(c.credential);
             (v in w'.credentials <==> v in w.credentials) && (v in w.credentials ==> w'.credentials[v] == w.credentials[v] != d)
    ensures PlanLoginWithCredential(w', c.credential, c.production, c.token, c.ttl, c.now)
            == PlanLoginWithCredential(w, c.credential, c.production, c.token, c.ttl, c.now)
  {
    hide Good;
    var v := w.env.hashCredential(c.credential);
    if v in w.credentials && w.credentials[v] in w.devices.rows {
      SameDeviceId(w, w.credentials[v]);
      WalletEitherWay(w, w', d, w.devices.rows[w.credentials[v]].identityId);
    }
    hide FindWallet, FindUser, WalletsOnRevoked;
  }

  lemma SameDeviceId(w: World, d: string)
    requires Good(w) && d in w.devices.rows
    ensures w.devices.rows[d].deviceId == d && w.devices.rows[d].identityId in w.identities.rows
    ensures w.identities.rows[w.devices.rows[d].identityId].identityId == w.devices.rows[d].identityId
  {
    hide UserRows, ActivePlaced, OneActive, Onboarding, SessionsSound, RowWallets, EmployeesUnique;
  }

  /** The active wallet found is the same, or was on the revoked device and is gone. */
  lemma WalletEitherWay(w: World, w': World, d: string, id: string)
    requires Good(w) && Good(w') && WalletsOnRevoked(w.wallets.rows, w'.wallets.rows, d)
    ensures var x, x' := FindWallet(w.wallets, id, Active), FindWallet(w'.wallets, id, Active);
      x' == x || (x.Some? && x.value.deviceId == d && x'.None?)
  {
    hide Good;
    ActiveWalletExactly(w, id);
    ActiveWalletExactly(w', id);
    hide FindWallet;
    var x, x' := FindWallet(w.wallets, id, Active), FindWallet(w'.wallets, id, Active);
    if x'.Some? { assert WalletIs(w, x'.value.address, id, Active); }
    if x.Some? && x.value.deviceId != d { assert WalletIs(w', x.value.address, id, Active); }
  }

  /** Registering a device binds its credential, and signing in with it finds that device. */
  lemma RegisteredSignsIn(w: World, u: string, i: Identity, d: string, credential: string, key: string, c: Call, a: string)
    requires Good(w) && Names(w, u, i) && Perform(w, RegisterDevice(u, d, credential, key)).1 == Ok
    requires c.LoginWithCredential? && c.credential == credential && !c.production
    requires var w' := Perform(w, RegisterDevice(u, d, credential, key)).0; SignsInOn(w', d, a)
    ensures var w' := Perform(w, RegisterDevice(u, d, credential, key)).0;
      && Perform(w', c).1 == Ok && c.token in Perform(w', c).0.sessions && Perform(w', c).0.sessions[c.token].deviceId == d
  {
    hide Good, Perform, SignsInOn, TrimStart, TrimEnd;
    RegisterDeviceExactly(w, u, i, d, credential, key);
    PerformKeeps(w, RegisterDevice(u, d, credential, key));
    var w' := Perform(w, RegisterDevice(u, d, credential, key)).0;
    CredentialExactly(w', c, a);
    BlankEmpty();
  }

  lemma BlankEmpty()
    ensures Trim("") == ""
  {
  }
}
