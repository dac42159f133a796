/** Revocation ends sessions for good: whatever is called afterwards, a session issued
    before the revocation is never accepted again. */
module SessionSafety {
  import opened Prelude
  import opened IdentityModel
  import opened IdentityInvariant
  import opened IdentityRuns
  import opened WalletSafety

  /** No clock reading and no later run of calls makes the token acceptable again,
      neither to validateSession nor to the fresh-authentication calls. */
  ghost predicate DeadForever(w: World, token: string) {
    forall calls, now :: Admissible(w, calls) ==>
      !SessionAccepted(PerformAll(w, calls), token, now) && !SessionLive(PerformAll(w, calls), token, now)
  }

  /** Once the wallet a session was issued on is no longer active, the session is dead for
      good: the wallet was active at issue, and the lifecycle has no way back. */
  lemma InactiveWalletKillsSession(w: World, token: string)
    requires Good(w) && token in w.issued
    requires w.issued[token].walletAddress in w.wallets.rows && w.wallets.rows[w.issued[token].walletAddress].status != Active
    ensures DeadForever(w, token)
  {
    hide Good, Admissible;
    IssuedOnWallet(w, token);
    forall calls, now | Admissible(w, calls)
      ensures !SessionAccepted(PerformAll(w, calls), token, now) && !SessionLive(PerformAll(w, calls), token, now)
    {
      var v := PerformAll(w, calls);
      RunKeeps(w, calls);
      LiveIsIssued(v, token);
      assert Later(w.wallets.rows[w.issued[token].walletAddress].status, v.wallets.rows[w.issued[token].walletAddress].status);
    }
  }

  lemma LiveIsIssued(v: World, token: string)
    requires Good(v)
    ensures token in v.sessions ==> token in v.issued && v.sessions[token] == v.issued[token]
  {
    hide RecordsSound;
  }

  lemma IssuedOnWallet(w: World, token: string)
    requires Good(w) && token in w.issued
    ensures SessionSound(w.wallets.rows, w.issued[token])
  {
    hide RecordsSound;
  }

  lemma OnlyOneActive(w: World, a: string, b: string)
    requires Good(w) && a in w.wallets.rows && b in w.wallets.rows
    requires w.wallets.rows[a].status == Active && w.wallets.rows[b].status == Active
    requires w.wallets.rows[a].identityId == w.wallets.rows[b].identityId
    ensures a == b
  {
    hide UserRows, ActivePlaced, Onboarding, SessionsSound, RowWallets, EmployeesUnique;
  }

  /** A successful revokeWallet ends every session ever issued to that identity. */
  lemma WalletRevocationEndsSessions(w: World, userId: string, reason: string, actorId: string, token: string)
    requires Good(w) && Perform(w, RevokeWallet(userId, reason, actorId)).1 == Ok
    requires token in w.issued && Resolve(w, userId).Some? && w.issued[token].identityId == Resolve(w, userId).value.identityId
    ensures DeadForever(Perform(w, RevokeWallet(userId, reason, actorId)).0, token)
  {
    hide Good, DeadForever, Run, RevokeAll;
    var actor, x := PlannedRevokeWallet(w, userId, reason, actorId);
    var v := Perform(w, RevokeWallet(userId, reason, actorId)).0;
    KeepRevokeWallet(w, userId, reason, actorId);
    RunRevokeWallet(w, actor, x);
    AfterRevoking(w, [x]);
    IssuedOnWallet(w, token);
    var a := w.issued[token].walletAddress;
    if w.wallets.rows[a].status == Active { OnlyOneActive(w, a, x.address); }
    InactiveWalletKillsSession(v, token);
  }

  /** A successful wallet rotation ends every session issued to that identity before it. */
  lemma WalletRotationEndsSessions(w: World, userId: string, deviceId: string, address: string, actorId: string, token: string)
    requires Good(w) && Perform(w, ActivateWallet(userId, deviceId, address, actorId)).1 == Ok
    requires token in w.issued && Resolve(w, userId).Some? && w.issued[token].identityId == Resolve(w, userId).value.identityId
    ensures DeadForever(Perform(w, ActivateWallet(userId, deviceId, address, actorId)).0, token)
  {
    hide Good, DeadForever, Run, RevokeAll, FindUser, PlanActivateWallet, WalletActivationScript;
    var actor, did, e, x, olds := PlannedActivateWallet(w, userId, deviceId, address, actorId);
    var v := Perform(w, ActivateWallet(userId, deviceId, address, actorId)).0;
    KeepActivateWallet(w, userId, deviceId, address, actorId);
    var k := RunWalletActivation(w, actor, did, x, olds);
    assert olds[..|olds|] == olds;
    AfterRevoking(w, olds);
    IssuedOnWallet(w, token);
    InactiveWalletKillsSession(v, token);
  }

  /** A successful revokeDevice ends every session issued on that device before it, even if
      the device is registered again and a new wallet is activated on it. */
  lemma DeviceRevocationEndsSessions(w: World, deviceId: string, caller: Option<string>, token: string)
    requires Good(w) && Perform(w, RevokeDevice(deviceId, caller)).1 == Ok
    requires token in w.issued && w.issued[token].deviceId == deviceId
    ensures DeadForever(Perform(w, RevokeDevice(deviceId, caller)).0, token)
  {
    hide Good, DeadForever, Run, RevokeAll, PlanRevokeDevice, DeviceRevocationScript;
    var actor, d, xs := PlannedRevokeDevice(w, deviceId, caller);
    var v := Perform(w, RevokeDevice(deviceId, caller)).0;
    KeepRevokeDevice(w, deviceId, caller);
    RunDeviceRevocation(w, actor, d, xs);
    AfterRevoking(w, xs);
    IssuedOnWallet(w, token);
    InactiveWalletKillsSession(v, token);
  }

  /** In every reachable state the accepted sessions of an identity all name one wallet. */
  lemma LiveSessionsShareWallet(w: World, calls: seq<Call>, s: string, t: string, now: int)
    requires Good(w) && Admissible(w, calls)
    requires var v := PerformAll(w, calls);
             SessionAccepted(v, s, now) && SessionAccepted(v, t, now) && v.sessions[s].identityId == v.sessions[t].identityId
    ensures var v := PerformAll(w, calls); v.sessions[s].walletAddress == v.sessions[t].walletAddress
  {
    hide Good, Admissible;
    var v := PerformAll(w, calls);
    RunKeeps(w, calls);
    LiveIsIssued(v, s);
    LiveIsIssued(v, t);
    IssuedOnWallet(v, s);
    IssuedOnWallet(v, t);
    OnlyOneActive(v, v.sessions[s].walletAddress, v.sessions[t].walletAddress);
  }
}
