/** What no identity call ever does, even in a store that a stopped process left half
    written: rewrite an identity past onboarding, or move a device to another identity. */
module RecordPermanence {
  import opened Prelude
  import opened IdentityModel
  import opened IdentityInvariant

  ghost predicate IdentitiesKeyed(ids: Identities) {
    forall k :: k in ids ==> ids[k].identityId == k
  }

  ghost predicate DevicesKeyed(ds: Devices) {
    forall k :: k in ds ==> ds[k].deviceId == k
  }

  /** An identity past onboarding keeps everything but its role. */
  ghost predicate StaysSettled(ids: Identities, ids': Identities, id: string) {
    id in ids && ids[id].status != Pending ==> id in ids' && ids'[id] == ids[id].(role := ids'[id].role)
  }

  ghost predicate AllSettled(ids: Identities, ids': Identities) {
    forall id :: StaysSettled(ids, ids', id)
  }

  /** A device row never disappears and never moves to another identity. */
  ghost predicate DevicesStay(ds: Devices, ds': Devices) {
    forall d :: d in ds ==> d in ds' && ds'[d].identityId == ds[d].identityId
  }

  // ---------------------------------------------------------------- the effects

  lemma ExecRecords(w: World, a: Action)
    ensures Exec(w, a).w.identities == (if a.SaveIdentity? then w.identities.Put(a.identity.identityId, a.identity) else w.identities)
    ensures Exec(w, a).w.devices == (if a.SaveDevice? then w.devices.Put(a.device.deviceId, a.device) else w.devices)
    ensures Exec(w, a).Become? ==> !Exec(w, a).next.SaveIdentity? && !Exec(w, a).next.SaveDevice?
    ensures Exec(w, a).Become? ==> Weight(Exec(w, a).next) < Weight(a) && !a.SaveIdentity? && !a.SaveDevice?
  {
    hide Apply, FindUser, ChainRole;
  }

  lemma {:induction false} CompleteRecords(w: World, a: Action)
    ensures Complete(w, a).0.identities == (if a.SaveIdentity? then w.identities.Put(a.identity.identityId, a.identity) else w.identities)
    ensures Complete(w, a).0.devices == (if a.SaveDevice? then w.devices.Put(a.device.deviceId, a.device) else w.devices)
    decreases Weight(a)
  {
    ExecRecords(w, a);
    if Exec(w, a).Become? {
      hide Exec;
      CompleteRecords(Exec(w, a).w, Exec(w, a).next);
    }
  }

  /** A script whose every save leaves the settled identity `id` what it was. */
  predicate SparesIdentity(ids: Identities, s: Script, id: string) {
    forall i :: 0 <= i < |s| && s[i].SaveIdentity? && s[i].identity.identityId == id ==> SettledSave(ids, s[i].identity)
  }

  predicate SettledSave(ids: Identities, j: Identity) {
    j.identityId in ids && ids[j.identityId].status != Pending ==> j == ids[j.identityId].(role := j.role)
  }

  predicate SparesDevices(ds: Devices, s: Script) {
    forall i :: 0 <= i < |s| && s[i].SaveDevice? ==>
      s[i].device.deviceId in ds ==> ds[s[i].device.deviceId].identityId == s[i].device.identityId
  }

  lemma {:induction false} RunSpares(ids: Identities, w: World, s: Script, i: nat, id: string)
    requires i <= |s| && SparesIdentity(ids, s, id) && StaysSettled(ids, w.identities.rows, id) && IdentitiesKeyed(w.identities.rows)
    ensures var w' := RunFrom(w, s, i).0; StaysSettled(ids, w'.identities.rows, id) && IdentitiesKeyed(w'.identities.rows)
    decreases |s| - i
  {
    if i < |s| {
      hide Complete;
      CompleteRecords(w, s[i]);
      var (w1, r) := Complete(w, s[i]);
      assert s[i].SaveIdentity? && s[i].identity.identityId == id ==> SettledSave(ids, s[i].identity);
      if r == Ok { RunSpares(ids, w1, s, i + 1, id); }
    }
  }

  lemma {:induction false} RunStays(ds: Devices, w: World, s: Script, i: nat)
    requires i <= |s| && SparesDevices(ds, s) && DevicesStay(ds, w.devices.rows)
    ensures DevicesStay(ds, RunFrom(w, s, i).0.devices.rows)
    decreases |s| - i
  {
    if i < |s| {
      hide Complete;
      CompleteRecords(w, s[i]);
      var (w1, r) := Complete(w, s[i]);
      if r == Ok { RunStays(ds, w1, s, i + 1); }
    }
  }

  // ------------------------------------------------------------------ the calls

  predicate SavesNone(s: Script) {
    forall i :: 0 <= i < |s| ==> !s[i].SaveIdentity? && !s[i].SaveDevice?
  }

  lemma {:induction false} WalletScriptsSaveNone(actor: string, xs: seq<Wallet>)
    ensures SavesNone(RevokeOnChain(actor, xs)) && SavesNone(SaveRevoked(xs)) && SavesNone(ReplaceWallets(actor, xs))
    decreases |xs|
  {
    if xs != [] {
      WalletScriptsSaveNone(actor, xs[1..]);
    }
  }

  /** A device revocation saves one device, under its own identity. */
  lemma DeviceRevocationSaves(actor: string, d: Device, xs: seq<Wallet>)
    ensures var s := DeviceRevocationScript(actor, d, xs);
            forall i :: 0 <= i < |s| ==> !s[i].SaveIdentity? && (s[i].SaveDevice? ==> s[i].device == d.(status := Revoked))
  {
    WalletScriptsSaveNone(actor, xs);
    hide RevokeOnChain, SaveRevoked;
  }

  lemma RotationSavesNone(actor: string, did: string, x: Wallet, olds: seq<Wallet>)
    ensures SavesNone(WalletActivationScript(actor, did, x, olds))
  {
    WalletScriptsSaveNone(actor, olds);
    hide ReplaceWallets;
  }

  /** The calls that save an identity or a device. */
  predicate SavesRecords(c: Call) {
    c.CreateUser? || c.InitializeAccount? || c.VerifyRegistration? || c.ActivateRegistration? || c.RegisterDevice?
    || c.RevokeDevice? || c.ActivateWallet? || c.AssignRole?
  }

  lemma OthersSaveNone(w: World, c: Call)
    requires !SavesRecords(c) && Plan(w, c).Go?
    ensures SavesNone(Plan(w, c).script)
  {
    hide PlanCreateUser, PlanInitializeAccount, PlanVerifyRegistration, PlanActivateRegistration, PlanRegisterDevice,
         PlanRevokeDevice, PlanActivateWallet, PlanAssignRole, FindUser, FindWallet, FindDevice, FindByEmployee, FindWalletOn,
         Trim, Backed, SessionLive, Employable;
  }

  lemma ResolvedSelf(w: World, u: string)
    requires IdentitiesKeyed(w.identities.rows)
    ensures Resolve(w, u).Some? ==>
      var i := Resolve(w, u).value; i.identityId in w.identities.rows && w.identities.rows[i.identityId] == i
  {
  }

  /** Revoking a device and rotating wallets save no identity, and no device but the
      revoked one. */
  lemma LifecycleSaves(w: World, c: Call)
    requires (c.RevokeDevice? || c.ActivateWallet?) && Plan(w, c).Go?
    ensures var s := Plan(w, c).script;
            forall i :: 0 <= i < |s| ==>
              && !s[i].SaveIdentity?
              && (s[i].SaveDevice? ==> c.RevokeDevice? && c.deviceId in w.devices.rows
                                       && s[i].device == w.devices.rows[c.deviceId].(status := Revoked))
  {
    hide FindUser, FindWallet, FindByEmployee, Trim, ActiveWalletsOn, ActiveWalletsExcept, DeviceRevocationScript,
         WalletActivationScript, Resolve;
    match c
    case RevokeDevice(d, a) =>
      var device := w.devices.rows[d];
      DeviceRevocationSaves(Resolve(w, if a.Some? then a.value else device.identityId).value.identityId, device,
                            ActiveWalletsOn(w.wallets, device.identityId, d));
    case ActivateWallet(u, d, x, a) =>
      var wallet := w.wallets.rows[Trim(x)];
      var did := Resolve(w, u).value.identityId;
      RotationSavesNone(Resolve(w, a).value.identityId, did, wallet, ActiveWalletsExcept(w.wallets, did, wallet.address));
  }

  /** A creation saves an identity under an id that is not in use. */
  lemma CreationSpares(w: World, c: Call, id: string)
    requires (c.CreateUser? || c.InitializeAccount? || c.RegisterDevice?) && FreshIds(w, c) && Plan(w, c).Go?
    requires id in w.identities.rows && (c.CreateUser? && c.givenId == Some("") ==> id != "")
    ensures SparesIdentity(w.identities.rows, Plan(w, c).script, id)
  {
    hide FindUser, FindByEmployee, Trim, ChainRole, Resolve, Blank, SettledSave;
  }

  lemma PlanSparesIdentity(w: World, c: Call, id: string)
    requires IdentitiesKeyed(w.identities.rows) && FreshIds(w, c) && Plan(w, c).Go?
    requires id in w.identities.rows && (c.CreateUser? && c.givenId == Some("") ==> id != "")
    ensures SparesIdentity(w.identities.rows, Plan(w, c).script, id)
  {
    hide FindUser, FindWallet, FindDevice, FindByEmployee, Trim, ChainRole, Resolve, PlanRevokeDevice, PlanActivateWallet;
    if !SavesRecords(c) {
      OthersSaveNone(w, c);
    } else if c.RevokeDevice? || c.ActivateWallet? {
      LifecycleSaves(w, c);
    } else if c.CreateUser? || c.InitializeAccount? || c.RegisterDevice? {
      CreationSpares(w, c, id);
    } else {
      hide PlanCreateUser, PlanInitializeAccount, PlanRegisterDevice;
      match c
      case VerifyRegistration(_, u, _, _) => ResolvedSelf(w, u);
      case ActivateRegistration(_, u) => ResolvedSelf(w, u);
      case AssignRole(_, u, _) => ResolvedSelf(w, u);
    }
  }

  lemma PlanSparesDevices(w: World, c: Call)
    requires DevicesKeyed(w.devices.rows) && Plan(w, c).Go?
    requires c.InitializeAccount? ==> Trim(c.deviceId) !in w.devices.rows
    ensures SparesDevices(w.devices.rows, Plan(w, c).script)
  {
    hide FindUser, FindWallet, FindByEmployee, Trim, ChainRole, Resolve, PlanRevokeDevice, PlanActivateWallet;
    if !SavesRecords(c) {
      OthersSaveNone(w, c);
    } else if c.RevokeDevice? || c.ActivateWallet? {
      LifecycleSaves(w, c);
    }
  }

  // --------------------------------------------------------------- main results

  /** No call, in whatever state it finds the store and however it ends, changes an identity
      past onboarding in anything but its role. */
  lemma PerformSpares(w: World, c: Call, id: string)
    requires IdentitiesKeyed(w.identities.rows) && FreshIds(w, c)
    requires c.CreateUser? && c.givenId == Some("") ==> id != ""
    ensures var w' := Perform(w, c).0;
            StaysSettled(w.identities.rows, w'.identities.rows, id) && IdentitiesKeyed(w'.identities.rows)
  {
    hide Plan;
    if Plan(w, c).Go? {
      var s := Plan(w, c).script;
      if id in w.identities.rows { PlanSparesIdentity(w, c, id); }
      SettledSelf(w.identities.rows, id);
      RunSpares(w.identities.rows, w, s, 0, id);
    } else {
      SettledSelf(w.identities.rows, id);
    }
  }

  lemma SettledSelf(ids: Identities, id: string)
    ensures StaysSettled(ids, ids, id)
  {
    if id in ids { assert ids[id] == ids[id].(role := ids[id].role); }
  }

  /** ... nor does any run of calls. */
  ghost predicate FreshRun(w: World, calls: seq<Call>)
    decreases |calls|
  {
    calls == [] || (FreshIds(w, calls[0]) && FreshRun(Perform(w, calls[0]).0, calls[1..]))
  }

  lemma {:induction false} RunSettled(w: World, calls: seq<Call>, id: string)
    requires IdentitiesKeyed(w.identities.rows) && FreshRun(w, calls) && id != ""
    ensures var v := PerformAll(w, calls); StaysSettled(w.identities.rows, v.identities.rows, id) && IdentitiesKeyed(v.identities.rows)
    decreases |calls|
  {
    hide Perform;
    SettledSelf(w.identities.rows, id);
    if calls != [] {
      PerformSpares(w, calls[0], id);
      RunSettled(Perform(w, calls[0]).0, calls[1..], id);
    }
  }

  /** No call moves a device to another identity, unless it initializes an account on a
      device id whose trimmed form is taken. */
  lemma PerformStays(w: World, c: Call)
    requires DevicesKeyed(w.devices.rows)
    requires Plan(w, c).Go? && c.InitializeAccount? ==> Trim(c.deviceId) !in w.devices.rows
    ensures DevicesStay(w.devices.rows, Perform(w, c).0.devices.rows)
  {
    hide Plan;
    if Plan(w, c).Go? {
      PlanSparesDevices(w, c);
      RunStays(w.devices.rows, w, Plan(w, c).script, 0);
    }
  }
}
