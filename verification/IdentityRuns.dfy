/** Every identity call, whatever becomes of its submissions, keeps the record invariant;
    so every run of calls does. */
module IdentityRuns {
  import opened Prelude
  import opened IdentityModel
  import opened IdentityInvariant

  /** What a call leaves behind: sound records, wallets that only advanced, and every
      session issued before still on record unchanged. */
  ghost predicate Kept(w: World, w': World) {
    && Good(w')
    && w'.env == w.env
    && WalletsEvolve(w.wallets.rows, w'.wallets.rows)
    && forall t :: t in w.issued ==> t in w'.issued && w'.issued[t] == w.issued[t]
  }

  /** Two consecutive steps, where no wallet went both ways through Active. */
  lemma KeptTrans(w: World, w': World, w'': World)
    requires Kept(w, w') && Kept(w', w'')
    requires forall a :: a in w.wallets.rows && a in w''.wallets.rows ==>
      Advances(w.wallets.rows[a].status, w''.wallets.rows[a].status)
    ensures Kept(w, w'')
  {
    hide Good;
  }

  lemma KeptSame(w: World, w': World, w'': World)
    requires Kept(w, w') && SameRecords(w', w'')
    ensures Kept(w, w'')
  {
    hide RecordsSound, SessionsSound;
  }

  lemma KeptSelf(w: World)
    requires Good(w)
    ensures Kept(w, w)
  {
    hide RecordsSound, SessionsSound;
  }

  // ------------------------------------------------- what each script changes

  lemma RunEnd(w: World, s: Script)
    ensures RunFrom(w, s, |s|) == (w, Ok)
  {
  }

  lemma RunSaveIdentity(w: World, s: Script, i: nat)
    requires i < |s| && s[i].SaveIdentity?
    ensures var j := s[i].identity;
            RunFrom(w, s, i) == RunFrom(w.(identities := w.identities.Put(j.identityId, j),
                                           granted := Logged(w.granted, s[i].grant)), s, i + 1)
  {
  }

  lemma RunSaveUser(w: World, s: Script, i: nat)
    requires i < |s| && s[i].SaveUser?
    ensures RunFrom(w, s, i) == RunFrom(w.(users := w.users.Put(s[i].user.employeeId, s[i].user)), s, i + 1)
  {
  }

  lemma RunSaveDevice(w: World, s: Script, i: nat)
    requires i < |s| && s[i].SaveDevice?
    ensures RunFrom(w, s, i) == RunFrom(w.(devices := w.devices.Put(s[i].device.deviceId, s[i].device)), s, i + 1)
  {
  }

  lemma RunSaveWallet(w: World, s: Script, i: nat)
    requires i < |s| && s[i].SaveWallet?
    ensures RunFrom(w, s, i) == RunFrom(w.(wallets := w.wallets.Put(s[i].wallet.address, s[i].wallet)), s, i + 1)
  {
  }

  lemma RunConsume(w: World, s: Script, i: nat)
    requires i < |s| && s[i].Consume?
    ensures var id := s[i].challengeId;
            if id in w.challenges && !w.challenges[id].used then
              RunFrom(w, s, i) == RunFrom(w.(challenges := w.challenges[id := w.challenges[id].(used := true)],
                granted := Logged(w.granted, s[i].grant)), s, i + 1)
            else RunFrom(w, s, i) == (w, Failed(s[i].orElse))
  {
  }

  lemma RunCreateUser(w: World, s: Script, n: nat, i: Identity, u: User)
    requires n <= 1 && n + 2 <= |s| && s[n] == SaveIdentity(i, None) && s[n + 1] == SaveUser(u)
    requires forall k :: 0 <= k < |s| && k != n && k != n + 1 ==> OnChainOnly(s[k])
    ensures var r := Run(w, s).0;
            || SameRecords(w, r)
            || SameRecords(w.(identities := w.identities.Put(i.identityId, i), users := w.users.Put(u.employeeId, u)), r)
  {
    hide RunFrom;
    var w1 := RunOnChain(w, s, 0, n);
    RunSaveIdentity(w1, s, n);
    var w2 := w1.(identities := w1.identities.Put(i.identityId, i));
    RunSaveUser(w2, s, n + 1);
    var w3 := w2.(users := w2.users.Put(u.employeeId, u));
    var w4 := RunOnChain(w3, s, n + 2, |s|);
    RunEnd(w4, s);
  }

  function CreateUserPlan(w: World, c: Call): Planned
    requires c.CreateUser?
  {
    PlanCreateUser(w, c.employeeId, c.role, c.givenId, c.freshId, c.department, c.status, c.caller)
  }

  function InitializePlan(w: World, c: Call): Planned
    requires c.InitializeAccount?
  {
    PlanInitializeAccount(w, c.fullName, c.employeeId, c.department, c.deviceId, c.publicKey, c.walletAddress,
                          c.challengeId, c.signature, c.attested, c.freshId, c.now)
  }

  function VerifyPlan(w: World, c: Call): Planned
    requires c.VerifyRegistration?
  {
    PlanVerifyRegistration(w, c.actorId, c.userId, c.employeeId, c.department)
  }

  lemma PlannedCreateUser(w: World, c: Call) returns (n: nat, i: Identity)
    requires Good(w) && c.CreateUser? && IdsFree(w, c) && FreshIds(w, c)
    requires CreateUserPlan(w, c).Go?
    ensures i.employeeId.Some?
    ensures Replaceable(w.identities.rows, w.users.rows, w.devices.rows, i.identityId, i.employeeId.value, i.status)
    ensures forall k :: k in w.identities.rows ==> w.identities.rows[k].employeeId != i.employeeId
    ensures var s := CreateUserPlan(w, c).script;
            && n <= 1 && n + 2 <= |s| && s[n] == SaveIdentity(i, None) && s[n + 1] == SaveUser(ToUser(i, ""))
            && (forall k :: 0 <= k < |s| && k != n && k != n + 1 ==> OnChainOnly(s[k]))
  {
    var id := if c.givenId.Some? then c.givenId.value else c.freshId;
    i := Identity(id, Some(c.employeeId), Some(c.role), c.department, c.status, None);
    n := if CreateUserPlan(w, c).script[0].Submit? then 1 else 0;
  }

  lemma KeepCreateUser(w: World, c: Call)
    requires Good(w) && c.CreateUser? && FreshIds(w, c) && (CreateUserPlan(w, c).Go? ==> IdsFree(w, c))
    ensures Kept(w, Carry(w, CreateUserPlan(w, c)).0)
  {
    hide CreateUserPlan, Run, Good, Kept, Replaceable;
    KeptIgnoresChain(w, w, w);
    if CreateUserPlan(w, c).Go? {
      var n, i := PlannedCreateUser(w, c);
      var u := ToUser(i, "");
      RunCreateUser(w, CreateUserPlan(w, c).script, n, i, u);
      CreatedKept(w, i);
      var w1 := w.(identities := w.identities.Put(i.identityId, i), users := w.users.Put(u.employeeId, u));
      var w' := Run(w, CreateUserPlan(w, c).script).0;
      if SameRecords(w, w') { KeptIgnoresChain(w, w, w'); } else { KeptIgnoresChain(w, w1, w'); }
    }
  }

  lemma CreatedKept(w: World, i: Identity)
    requires Good(w) && i.employeeId.Some?
    requires Replaceable(w.identities.rows, w.users.rows, w.devices.rows, i.identityId, i.employeeId.value, i.status)
    requires forall k :: k in w.identities.rows ==> w.identities.rows[k].employeeId != i.employeeId
    ensures var u := ToUser(i, "");
            Kept(w, w.(identities := w.identities.Put(i.identityId, i), users := w.users.Put(u.employeeId, u)))
  {
    hide RecordsSound, SessionsSound, Replaceable;
    UserCreated(w.identities.rows, w.users.rows, w.devices.rows, w.wallets.rows, i);
  }

  /** What a chain effect leaves of a good store is as good; the store itself included. */
  lemma KeptIgnoresChain(w: World, v: World, v': World)
    requires Good(w) && (v == w || Kept(w, v)) && SameRecords(v, v')
    ensures Kept(w, v')
  {
    hide RecordsSound, SessionsSound;
  }

  lemma RunInitialize(w: World, s: Script, c: string, g: Grant, i: Identity, d: Device, x: Wallet)
    requires s == [Consume(c, Conflict, None), SaveIdentity(i, Some(g)), SaveDevice(d), SaveWallet(x)]
    ensures var r := Run(w, s).0;
            || r == w
            || r == w.(identities := w.identities.Put(i.identityId, i), devices := w.devices.Put(d.deviceId, d),
                       wallets := w.wallets.Put(x.address, x), challenges := r.challenges, granted := r.granted)
  {
    hide RunFrom;
    RunConsume(w, s, 0);
    if c in w.challenges && !w.challenges[c].used {
      var w1 := w.(challenges := w.challenges[c := w.challenges[c].(used := true)]);
      RunSaveIdentity(w1, s, 1);
      var w2 := w1.(identities := w1.identities.Put(i.identityId, i), granted := w1.granted + [g]);
      RunSaveDevice(w2, s, 2);
      var w3 := w2.(devices := w2.devices.Put(d.deviceId, d));
      RunSaveWallet(w3, s, 3);
      RunEnd(w3.(wallets := w3.wallets.Put(x.address, x)), s);
    }
  }

  lemma PlannedInitialize(w: World, c: Call) returns (i: Identity, d: Device, x: Wallet)
    requires Good(w) && c.InitializeAccount? && IdsFree(w, c) && FreshIds(w, c)
    requires InitializePlan(w, c).Go?
    ensures InitializePlan(w, c).script
         == [Consume(c.challengeId, Conflict, None), SaveIdentity(i, Some(Registration(c.challengeId, c.deviceId, i))), SaveDevice(d), SaveWallet(x)]
    ensures i.identityId !in w.identities.rows && i.status == Pending
    ensures i.employeeId.Some? ==> forall k :: k in w.identities.rows ==> w.identities.rows[k].employeeId != i.employeeId
    ensures d.deviceId !in w.devices.rows && d.identityId == i.identityId && d.status == Pending
    ensures x.address !in w.wallets.rows && x.address != "" && x.identityId == i.identityId && x.deviceId == d.deviceId && x.status == Pending
  {
    i := Identity(c.freshId, if Blank(c.employeeId) then None else Some(Trim(c.employeeId)), None, Trim(c.department), Pending, None);
    d := Device(Trim(c.deviceId), c.freshId, Pending, c.publicKey);
    x := Wallet(Trim(c.walletAddress), c.freshId, d.deviceId, Pending, c.publicKey);
  }

  lemma KeepInitializeAccount(w: World, c: Call)
    requires Good(w) && c.InitializeAccount? && FreshIds(w, c) && (InitializePlan(w, c).Go? ==> IdsFree(w, c))
    ensures Kept(w, Carry(w, InitializePlan(w, c)).0)
  {
    hide InitializePlan, RunFrom, RecordsSound, SessionsSound;
    if InitializePlan(w, c).Go? {
      var i, d, x := PlannedInitialize(w, c);
      RunInitialize(w, InitializePlan(w, c).script, c.challengeId, Registration(c.challengeId, c.deviceId, i), i, d, x);
      AccountOpened(w.identities.rows, w.users.rows, w.devices.rows, w.wallets.rows, i, d, x);
      SessionsEvolve(w.wallets.rows, w.wallets.rows[x.address := x], w.sessions, w.issued);
    }
  }

  lemma Resolved(w: World, id: string)
    requires Keyed(w.identities.rows, w.users.rows, w.devices.rows, w.wallets.rows)
    ensures Resolve(w, id).Some? ==>
      var i := Resolve(w, id).value; i.identityId in w.identities.rows && w.identities.rows[i.identityId] == i
  {
  }

  lemma KeepVerifyRegistration(w: World, c: Call)
    requires Good(w) && c.VerifyRegistration? && (VerifyPlan(w, c).Go? ==> IdsFree(w, c))
    ensures Kept(w, Carry(w, VerifyPlan(w, c)).0)
  {
    hide RunFrom, RecordsSound, SessionsSound;
    if VerifyPlan(w, c).Go? {
      var s := VerifyPlan(w, c).script;
      RunSaveIdentity(w, s, 0);
      RunEnd(w.(identities := w.identities.Put(s[0].identity.identityId, s[0].identity)), s);
      VerifiedSound(w, c);
    }
  }

  lemma VerifiedSound(w: World, c: Call)
    requires Good(w) && c.VerifyRegistration? && IdsFree(w, c)
    requires VerifyPlan(w, c).Go?
    ensures var i := VerifyPlan(w, c).script[0].identity;
            RecordsSound(w.identities.rows[i.identityId := i], w.users.rows, w.devices.rows, w.wallets.rows)
  {
    var i := VerifyPlan(w, c).script[0].identity;
    Resolved(w, c.userId);
    forall k | k in w.identities.rows && k != i.identityId ensures w.identities.rows[k].employeeId != i.employeeId {
      var e := FindByEmployee(w.identities, Trim(c.employeeId));
    }
    IdentityRewritten(w.identities.rows, w.users.rows, w.devices.rows, w.wallets.rows, i);
  }

  // ------------------------------------------------------------- registration

  /** The records an activation leaves. */
  function Activated(w: World, i: Identity, d: Device, x: Wallet): World {
    var j := i.(status := Active);
    w.(identities := w.identities.Put(i.identityId, j),
       devices := w.devices.Put(d.deviceId, d.(status := Active)),
       wallets := w.wallets.Put(x.address, x.(status := Active)),
       users := w.users.Put(ToUser(j, x.address).employeeId, ToUser(j, x.address)))
  }

  lemma RunActivation(w: World, actor: string, i: Identity, role: Role, d: Device, x: Wallet)
    ensures var r := Run(w, ActivationScript(actor, i, role, d, x));
            || (SameRecords(w, r.0) && r.1 != Ok)
            || (r.1 == Ok && SameRecords(Activated(w, i, d, x), r.0))
  {
    hide RunFrom;
    var s := ActivationScript(actor, i, role, d, x);
    var j := i.(status := Active);
    var w1 := RunOnChain(w, s, 0, 3);
    RunSaveIdentity(w1, s, 3);
    var w2 := w1.(identities := w1.identities.Put(i.identityId, j));
    RunSaveDevice(w2, s, 4);
    var w3 := w2.(devices := w2.devices.Put(d.deviceId, d.(status := Active)));
    RunSaveWallet(w3, s, 5);
    var w4 := w3.(wallets := w3.wallets.Put(x.address, x.(status := Active)));
    RunSaveUser(w4, s, 6);
    RunEnd(w4.(users := w4.users.Put(ToUser(j, x.address).employeeId, ToUser(j, x.address))), s);
  }

  /** What the guards of activateRegistration establish about the rows they picked. */
  lemma PlannedActivation(w: World, actorId: string, userId: string)
    returns (actor: string, i: Identity, d: Device, x: Wallet)
    requires Good(w) && PlanActivateRegistration(w, actorId, userId).Go?
    ensures i.role.Some? && PlanActivateRegistration(w, actorId, userId).script == ActivationScript(actor, i, i.role.value, d, x)
    ensures i.identityId in w.identities.rows && w.identities.rows[i.identityId] == i && i.status == Pending && i.employeeId.Some?
    ensures d.deviceId in w.devices.rows && w.devices.rows[d.deviceId] == d && d.status == Pending && d.identityId == i.identityId
    ensures x.address in w.wallets.rows && w.wallets.rows[x.address] == x && x.status == Pending && x.identityId == i.identityId
  {
    hide UserRows, ActivePlaced, OneActive, Onboarding, SessionsSound, RowWallets, EmployeesUnique;
    Resolved(w, userId);
    actor := Resolve(w, actorId).value.identityId;
    i := Resolve(w, userId).value;
    d := FindDevice(w.devices, i.identityId, Pending).value;
    x := FindWallet(w.wallets, i.identityId, Pending).value;
  }

  lemma KeepActivateRegistration(w: World, actorId: string, userId: string)
    requires Good(w)
    ensures Kept(w, Carry(w, PlanActivateRegistration(w, actorId, userId)).0)
  {
    hide PlanActivateRegistration, ActivationScript, RunFrom, RecordsSound, SessionsSound;
    if PlanActivateRegistration(w, actorId, userId).Go? {
      var actor, i, d, x := PlannedActivation(w, actorId, userId);
      RunActivation(w, actor, i, i.role.value, d, x);
      ActivatedKept(w, i, d, x);
      hide TablesValid, WalletsEvolve;
    }
  }

  lemma ActivatedKept(w: World, i: Identity, d: Device, x: Wallet)
    requires Good(w)
    requires i.identityId in w.identities.rows && w.identities.rows[i.identityId] == i && i.status == Pending && i.employeeId.Some?
    requires d.deviceId in w.devices.rows && w.devices.rows[d.deviceId] == d && d.status == Pending && d.identityId == i.identityId
    requires x.address in w.wallets.rows && w.wallets.rows[x.address] == x && x.status == Pending && x.identityId == i.identityId
    ensures Kept(w, Activated(w, i, d, x))
  {
    hide RecordsSound, SessionsSound;
    RegistrationActivated(w.identities.rows, w.users.rows, w.devices.rows, w.wallets.rows, i, d, x);
    SessionsEvolve(w.wallets.rows, w.wallets.rows[x.address := x.(status := Active)], w.sessions, w.issued);
  }

  // ------------------------------------------------------------------ devices

  lemma RunRegisterDevice(w: World, d: Device, verifier: string)
    ensures Run(w, [SaveDevice(d), SaveCredential(verifier, d.deviceId)])
         == (w.(devices := w.devices.Put(d.deviceId, d), credentials := w.credentials[verifier := d.deviceId]), Ok)
  {
    var s := [SaveDevice(d), SaveCredential(verifier, d.deviceId)];
    RunSaveDevice(w, s, 0);
    var w1 := w.(devices := w.devices.Put(d.deviceId, d));
    assert RunFrom(w1, s, 1) == RunFrom(w1.(credentials := w1.credentials[verifier := d.deviceId]), s, 2);
  }

  lemma PlannedRegisterDevice(w: World, userId: string, deviceId: string, credential: string, publicKey: string)
    returns (d: Device, verifier: string)
    requires Good(w) && PlanRegisterDevice(w, userId, deviceId, credential, publicKey).Go?
    ensures PlanRegisterDevice(w, userId, deviceId, credential, publicKey).script
         == [SaveDevice(d), SaveCredential(verifier, d.deviceId)]
    ensures d.identityId in w.identities.rows && d.status == Active
    ensures d.deviceId in w.devices.rows ==> w.devices.rows[d.deviceId].identityId == d.identityId
  {
    hide UserRows, ActivePlaced, OneActive, Onboarding, SessionsSound, RowWallets, EmployeesUnique;
    Resolved(w, userId);
    var s := PlanRegisterDevice(w, userId, deviceId, credential, publicKey).script;
    d, verifier := s[0].device, s[1].verifier;
  }

  lemma KeepRegisterDevice(w: World, userId: string, deviceId: string, credential: string, publicKey: string)
    requires Good(w)
    ensures Kept(w, Carry(w, PlanRegisterDevice(w, userId, deviceId, credential, publicKey)).0)
  {
    hide PlanRegisterDevice, Run, RecordsSound, SessionsSound;
    if PlanRegisterDevice(w, userId, deviceId, credential, publicKey).Go? {
      var d, verifier := PlannedRegisterDevice(w, userId, deviceId, credential, publicKey);
      RunRegisterDevice(w, d, verifier);
      DeviceActivated(w.identities.rows, w.users.rows, w.devices.rows, w.wallets.rows, d);
    }
  }

  // --------------------------------------------------------- revoking wallets

  /** The wallet table once each listed wallet has been saved as revoked. */
  function RevokeAll(t: Table<Wallet>, xs: seq<Wallet>): Table<Wallet>
    decreases |xs|
  {
    if xs == [] then t else RevokeAll(t.Put(xs[0].address, xs[0].(status := Revoked)), xs[1..])
  }

  /** Copies of rows that are active, or have been revoked since they were read. */
  ghost predicate CopiesOf(t: Table<Wallet>, xs: seq<Wallet>) {
    forall x :: x in xs ==>
      && x.address in t.rows && t.rows[x.address].(status := Revoked) == x.(status := Revoked)
      && (t.rows[x.address].status == Active || t.rows[x.address].status == Revoked)
  }

  lemma SameEvolves(xs: map<string, Wallet>)
    ensures WalletsEvolve(xs, xs)
  {
    forall a | a in xs ensures xs[a] == xs[a].(status := xs[a].status) {}
  }

  lemma RevokedEvolves(xs: map<string, Wallet>, ys: map<string, Wallet>)
    requires xs.Keys == ys.Keys
    requires forall a :: a in xs ==> ys[a] == xs[a] || (xs[a].status == Active && ys[a] == xs[a].(status := Revoked))
    ensures WalletsEvolve(xs, ys)
  {
    SameEvolves(xs);
  }

  lemma {:induction false} RevokedAll(ids: Identities, us: Users, ds: Devices, t: Table<Wallet>, xs: seq<Wallet>)
    requires RecordsSound(ids, us, ds, t.rows) && t.Valid() && CopiesOf(t, xs)
    ensures var t' := RevokeAll(t, xs); RecordsSound(ids, us, ds, t'.rows) && t'.Valid()
    ensures var t' := RevokeAll(t, xs); WalletsEvolve(t.rows, t'.rows) && t'.rows.Keys == t.rows.Keys
    ensures var t' := RevokeAll(t, xs);
            forall a :: a in t.rows ==>
              (t'.rows[a] == t.rows[a] || (t.rows[a].status == Active && t'.rows[a] == t.rows[a].(status := Revoked)))
    ensures forall x :: x in xs ==> RevokeAll(t, xs).rows[x.address].status == Revoked
    decreases |xs|
  {
    hide RecordsSound, WalletsEvolve;
    if xs == [] {
      SameEvolves(t.rows);
    } else {
      var x := xs[0];
      WalletRevoked(ids, us, ds, t.rows, x.address);
      var t1 := t.Put(x.address, x.(status := Revoked));
      assert x.(status := Revoked) == t.rows[x.address].(status := Revoked);
      RevokedAll(ids, us, ds, t1, xs[1..]);
      RevokedEvolves(t.rows, RevokeAll(t, xs).rows);
      forall y | y in xs ensures RevokeAll(t, xs).rows[y.address].status == Revoked {
        if y != x { assert y in xs[1..]; }
      }
    }
  }

  lemma {:induction false} RunSaveRevoked(w: World, xs: seq<Wallet>)
    ensures Run(w, SaveRevoked(xs)) == (w.(wallets := RevokeAll(w.wallets, xs)), Ok)
    decreases |xs|
  {
    if xs != [] {
      var s := [SaveWallet(xs[0].(status := Revoked))];
      var w1 := w.(wallets := w.wallets.Put(xs[0].address, xs[0].(status := Revoked)));
      RunSaveWallet(w, s, 0);
      RunEnd(w1, s);
      RunAppend(w, s, SaveRevoked(xs[1..]));
      RunSaveRevoked(w1, xs[1..]);
    } else {
      RunEnd(w, []);
    }
  }

  lemma {:induction false} RevokeOnChainOnly(actor: string, xs: seq<Wallet>)
    ensures forall k :: 0 <= k < |RevokeOnChain(actor, xs)| ==> OnChainOnly(RevokeOnChain(actor, xs)[k])
    decreases |xs|
  {
    if xs != [] {
      RevokeOnChainOnly(actor, xs[1..]);
    }
  }

  lemma RunDeviceRevocation(w: World, actor: string, d: Device, xs: seq<Wallet>)
    ensures var r := Run(w, DeviceRevocationScript(actor, d, xs));
            || (SameRecords(w, r.0) && r.1 != Ok)
            || (r.1 == Ok
                && SameRecords(w.(devices := if d.status == Revoked then w.devices else w.devices.Put(d.deviceId, d.(status := Revoked)),
                                  credentials := r.0.credentials, wallets := RevokeAll(w.wallets, xs)), r.0)
                && Forgotten(w.credentials, r.0.credentials, d.deviceId))
  {
    hide RunFrom;
    var s1 := RevokeOnChain(actor, xs);
    var s2 := if d.status == Revoked then [] else [SaveDevice(d.(status := Revoked))];
    var s3 := [RevokeCredentials(d.deviceId)];
    RevokeOnChainOnly(actor, xs);
    var w1 := RunOnChain(w, s1, 0, |s1|);
    RunEnd(w1, s1);
    RunAppend(w, s1, s2);
    RunAppend(w, s1 + s2, s3);
    RunAppend(w, s1 + s2 + s3, SaveRevoked(xs));
    if Run(w, s1).1 == Ok {
      var w2 := w1.(devices := if d.status == Revoked then w.devices else w.devices.Put(d.deviceId, d.(status := Revoked)));
      if d.status == Revoked { RunEnd(w1, s2); } else { RunSaveDevice(w1, s2, 0); RunEnd(w2, s2); }
      var w3 := RunForgetCredentials(w2, d.deviceId);
      RunSaveRevoked(w3, xs);
    }
  }

  /** The same verifiers but those of one device, bound as before. */
  ghost predicate Forgotten(cs: map<string, string>, cs': map<string, string>, deviceId: string) {
    && (forall v :: v in cs' <==> v in cs && cs[v] != deviceId)
    && (forall v :: v in cs' ==> cs'[v] == cs[v])
  }

  lemma RunForgetCredentials(w: World, deviceId: string) returns (w': World)
    ensures w' == w.(credentials := w'.credentials) && Forgotten(w.credentials, w'.credentials, deviceId)
    ensures Run(w, [RevokeCredentials(deviceId)]) == (w', Ok)
  {
    var s := [RevokeCredentials(deviceId)];
    w' := Exec(w, s[0]).w;
    assert RunFrom(w, s, 0) == RunFrom(w', s, 1);
  }

  /** The wallets a device revocation revokes are all the active ones on that device. */
  lemma PlannedRevokeDevice(w: World, deviceId: string, caller: Option<string>)
    returns (actor: string, d: Device, xs: seq<Wallet>)
    requires Good(w) && PlanRevokeDevice(w, deviceId, caller).Go?
    ensures PlanRevokeDevice(w, deviceId, caller).script == DeviceRevocationScript(actor, d, xs)
    ensures deviceId in w.devices.rows && w.devices.rows[deviceId] == d && d.deviceId == deviceId
    ensures CopiesOf(w.wallets, xs) && forall a :: a in w.wallets.rows ==> w.wallets.rows[a].address == a
    ensures forall a :: a in w.wallets.rows && w.wallets.rows[a].deviceId == deviceId && w.wallets.rows[a].status == Active ==>
      w.wallets.rows[a] in xs
    ensures forall x :: x in xs ==> x.deviceId == deviceId && x.status == Active
  {
    hide UserRows, OneActive, Onboarding, SessionsSound, RowWallets, EmployeesUnique;
    d := w.devices.rows[deviceId];
    xs := ActiveWalletsOn(w.wallets, d.identityId, deviceId);
    actor := Resolve(w, if caller.Some? then caller.value else d.identityId).value.identityId;
  }

  lemma KeepRevokeDevice(w: World, deviceId: string, caller: Option<string>)
    requires Good(w)
    ensures Kept(w, Carry(w, PlanRevokeDevice(w, deviceId, caller)).0)
  {
    hide PlanRevokeDevice, Run, DeviceRevocationScript, Good, Kept, SameRecords, RevokeAll;
    KeptSelf(w);
    if PlanRevokeDevice(w, deviceId, caller).Go? {
      var actor, d, xs := PlannedRevokeDevice(w, deviceId, caller);
      RunDeviceRevocation(w, actor, d, xs);
      var r := Run(w, DeviceRevocationScript(actor, d, xs));
      if r.1 == Ok {
        KeepDeviceRevoked(w, deviceId, xs, r.0);
      } else {
        KeptSame(w, w, r.0);
      }
    }
  }

  lemma KeepDeviceRevoked(w: World, deviceId: string, xs: seq<Wallet>, r: World)
    requires Good(w) && deviceId in w.devices.rows && w.devices.rows[deviceId].deviceId == deviceId && CopiesOf(w.wallets, xs)
    requires forall a :: a in w.wallets.rows && w.wallets.rows[a].deviceId == deviceId && w.wallets.rows[a].status == Active ==>
      w.wallets.rows[a] in xs
    requires var d := w.devices.rows[deviceId];
             SameRecords(w.(devices := if d.status == Revoked then w.devices else w.devices.Put(d.deviceId, d.(status := Revoked)),
                            credentials := r.credentials, wallets := RevokeAll(w.wallets, xs)), r)
    ensures Kept(w, r)
  {
    hide RecordsSound, SessionsSound, RevokeAll;
    KeepRevokedList(w, xs);
    AfterRevoking(w, xs);
    DeviceRevoked(w.identities.rows, w.users.rows, w.devices.rows, RevokeAll(w.wallets, xs).rows, deviceId);
  }

  lemma RunRevokeWallet(w: World, actor: string, x: Wallet)
    ensures var r := Run(w, [Submit(actor, WalletRevoke(x.address)), SaveWallet(x.(status := Revoked))]);
            || (SameRecords(w, r.0) && r.1 != Ok)
            || (r.1 == Ok && SameRecords(w.(wallets := RevokeAll(w.wallets, [x])), r.0))
  {
    hide RunFrom;
    var s := [Submit(actor, WalletRevoke(x.address)), SaveWallet(x.(status := Revoked))];
    var w1 := RunOnChain(w, s, 0, 1);
    RunSaveWallet(w1, s, 1);
    assert RevokeAll(w.wallets, [x]) == RevokeAll(w.wallets.Put(x.address, x.(status := Revoked)), []);
    RunEnd(w1.(wallets := RevokeAll(w.wallets, [x])), s);
  }

  lemma PlannedRevokeWallet(w: World, userId: string, reason: string, actorId: string) returns (actor: string, x: Wallet)
    requires Good(w) && PlanRevokeWallet(w, userId, reason, actorId).Go?
    ensures PlanRevokeWallet(w, userId, reason, actorId).script
         == [Submit(actor, WalletRevoke(x.address)), SaveWallet(x.(status := Revoked))]
    ensures x.address in w.wallets.rows && w.wallets.rows[x.address] == x && x.status == Active
    ensures Resolve(w, userId).Some? && x.identityId == Resolve(w, userId).value.identityId
  {
    hide UserRows, OneActive, Onboarding, SessionsSound, RowWallets, EmployeesUnique;
    x := FindWallet(w.wallets, Resolve(w, userId).value.identityId, Active).value;
    actor := Resolve(w, actorId).value.identityId;
  }

  lemma KeepRevokeWallet(w: World, userId: string, reason: string, actorId: string)
    requires Good(w)
    ensures Kept(w, Carry(w, PlanRevokeWallet(w, userId, reason, actorId)).0)
  {
    hide PlanRevokeWallet, Run, RecordsSound, SessionsSound;
    if PlanRevokeWallet(w, userId, reason, actorId).Go? {
      var actor, x := PlannedRevokeWallet(w, userId, reason, actorId);
      RunRevokeWallet(w, actor, x);
      RevokedAll(w.identities.rows, w.users.rows, w.devices.rows, w.wallets, [x]);
      SessionsEvolve(w.wallets.rows, RevokeAll(w.wallets, [x]).rows, w.sessions, w.issued);
    }
  }

  // ------------------------------------------------------- activating wallets

  /** Revoked rows, and whatever chain the submissions left. */
  ghost predicate RevokedUpTo(w: World, t: Table<Wallet>, w': World) {
    w' == w.(chain := w'.chain, wallets := t)
  }

  /** Replacing wallets stops at the first rejected revocation, with a prefix revoked. */
  lemma {:induction false} RunReplaceWallets(w: World, actor: string, xs: seq<Wallet>) returns (k: nat)
    ensures k <= |xs| && (Run(w, ReplaceWallets(actor, xs)).1 == Ok ==> k == |xs|)
    ensures RevokedUpTo(w, RevokeAll(w.wallets, xs[..k]), Run(w, ReplaceWallets(actor, xs)).0)
    decreases |xs|
  {
    hide RunFrom;
    if xs == [] {
      RunEnd(w, []);
      k := 0;
      assert ReplaceWallets(actor, xs) == [] && Run(w, []).0 == w;
      assert RevokeAll(w.wallets, xs[..0]) == w.wallets;
      assert RevokedUpTo(w, w.wallets, w);
    } else {
      var s := [Submit(actor, WalletRevoke(xs[0].address)), SaveWallet(xs[0].(status := Revoked))];
      RunAppend(w, s, ReplaceWallets(actor, xs[1..]));
      assert ReplaceWallets(actor, xs) == s + ReplaceWallets(actor, xs[1..]);
      RunRevokeWallet(w, actor, xs[0]);
      var w1 := Run(w, s).0;
      if Run(w, s).1 == Ok {
        var j := RunReplaceWallets(w1, actor, xs[1..]);
        k := j + 1;
        assert w1.wallets == RevokeAll(w.wallets, [xs[0]]) == RevokeAll(w.wallets.Put(xs[0].address, xs[0].(status := Revoked)), []);
        assert xs[..k][1..] == xs[1..][..j];
        assert RevokeAll(w.wallets, xs[..k]) == RevokeAll(w1.wallets, xs[1..][..j]);
        assert Run(w, ReplaceWallets(actor, xs)) == Run(w1, ReplaceWallets(actor, xs[1..]));
        assert RevokedUpTo(w, RevokeAll(w.wallets, xs[..k]), Run(w1, ReplaceWallets(actor, xs[1..])).0);
      } else {
        k := 0;
        assert RevokeAll(w.wallets, xs[..0]) == w.wallets;
        assert Run(w, ReplaceWallets(actor, xs)) == Run(w, s);
        assert RevokedUpTo(w, w.wallets, w1);
      }
    }
  }

  lemma RunRepoint(w: World, s: Script, i: nat)
    requires i < |s| && s[i].RepointUser?
    ensures var u := FindUser(w.users, s[i].identityId);
            RunFrom(w, s, i) == if u.Some?
              then RunFrom(w.(users := w.users.Put(u.value.employeeId, u.value.(walletAddress := s[i].address))), s, i + 1)
              else RunFrom(w, s, i + 1)
  {
    var u := FindUser(w.users, s[i].identityId);
    if u.Some? {
      var save := SaveUser(u.value.(walletAddress := s[i].address));
      assert Exec(w, s[i]) == Become(w, save);
      assert Complete(w, save) == (w.(users := w.users.Put(save.user.employeeId, save.user)), Ok);
      assert Complete(w, s[i]) == Complete(w, save);
    }
  }

  /** The world in which a replacement wallet is active and named in its user row. */
  function Switched(w: World, did: string, x: Wallet): World {
    var u := FindUser(w.users, did);
    w.(wallets := w.wallets.Put(x.address, x.(status := Active)),
       users := if u.Some? then w.users.Put(u.value.employeeId, u.value.(walletAddress := x.address)) else w.users)
  }

  lemma RunSwitch(w: World, actor: string, did: string, x: Wallet)
    ensures var r := Run(w, WalletActivationScript(actor, did, x, []));
            (SameRecords(w, r.0) && r.1 != Ok) || (r.1 == Ok && SameRecords(Switched(w, did, x), r.0))
  {
    hide RunFrom, FindUser;
    var s := WalletActivationScript(actor, did, x, []);
    var w1 := RunOnChain(w, s, 0, 2);
    RunSaveWallet(w1, s, 2);
    var w2 := w1.(wallets := w1.wallets.Put(x.address, x.(status := Active)));
    RunRepoint(w2, s, 3);
    RunEnd(w2, s);
    RunEnd(Switched(w1, did, x), s);
  }

  lemma RunWalletActivation(w: World, actor: string, did: string, x: Wallet, olds: seq<Wallet>) returns (k: nat)
    ensures var r := Run(w, WalletActivationScript(actor, did, x, olds));
            && k <= |olds|
            && var w1 := w.(wallets := RevokeAll(w.wallets, olds[..k]));
               (r.1 != Ok && SameRecords(w1, r.0)) || (k == |olds| && r.1 == Ok && SameRecords(Switched(w1, did, x), r.0))
  {
    hide RunFrom, FindUser;
    k := RunReplaceWallets(w, actor, olds);
    assert RevokedUpTo(w, RevokeAll(w.wallets, olds[..k]), Run(w, ReplaceWallets(actor, olds)).0);
    assert WalletActivationScript(actor, did, x, olds) == ReplaceWallets(actor, olds) + WalletActivationScript(actor, did, x, []);
    RunAppend(w, ReplaceWallets(actor, olds), WalletActivationScript(actor, did, x, []));
    RunSwitch(Run(w, ReplaceWallets(actor, olds)).0, actor, did, x);
  }

  lemma OthersCopied(w: World, did: string, address: string)
    requires Good(w)
    ensures var olds := ActiveWalletsExcept(w.wallets, did, address);
            && CopiesOf(w.wallets, olds) && (forall y :: y in olds ==> y.address != address)
            && (forall y :: y in olds ==> y.address in w.wallets.rows && w.wallets.rows[y.address] == y && y.identityId == did && y.status == Active)
            && (forall a :: a in w.wallets.rows ==> w.wallets.rows[a].address == a)
            && forall a :: (a in w.wallets.rows && a != address && w.wallets.rows[a].identityId == did
                            && w.wallets.rows[a].status == Active) ==> w.wallets.rows[a] in olds
  {
    hide ActivePlaced, OneActive, Onboarding, SessionsSound, RowWallets, EmployeesUnique, UserRows;
  }

  lemma UserOf(w: World, did: string)
    requires Good(w) && did in w.identities.rows && w.identities.rows[did].status != Pending
    ensures FindUser(w.users, did).Some?
    ensures var e := FindUser(w.users, did).value.employeeId;
            e in w.users.rows && w.users.rows[e] == FindUser(w.users, did).value && w.users.rows[e].identityId == did
  {
    hide ActivePlaced, OneActive, Onboarding, SessionsSound, RowWallets, EmployeesUnique;
    assert OwnsRow(w.users.rows, did, w.identities.rows[did].employeeId.value);
  }

  lemma PlannedActivateWallet(w: World, userId: string, deviceId: string, address: string, actorId: string)
    returns (actor: string, did: string, e: string, x: Wallet, olds: seq<Wallet>)
    requires Good(w) && PlanActivateWallet(w, userId, deviceId, address, actorId).Go?
    ensures PlanActivateWallet(w, userId, deviceId, address, actorId).script == WalletActivationScript(actor, did, x, olds)
    ensures x.address in w.wallets.rows && w.wallets.rows[x.address] == x && x.status == Pending && x.identityId == did
    ensures x.deviceId == deviceId && deviceId in w.devices.rows && w.devices.rows[deviceId].status == Active
    ensures w.devices.rows[deviceId].identityId == did && did in w.identities.rows && w.identities.rows[did].status == Active
    ensures FindUser(w.users, did).Some? && e == FindUser(w.users, did).value.employeeId
    ensures e in w.users.rows && w.users.rows[e] == FindUser(w.users, did).value && w.users.rows[e].identityId == did
    ensures CopiesOf(w.wallets, olds) && forall y :: y in olds ==> y.address != x.address
    ensures forall a :: a in w.wallets.rows ==> w.wallets.rows[a].address == a
    ensures forall a :: a in w.wallets.rows && w.wallets.rows[a].identityId == did && w.wallets.rows[a].status == Active ==>
      w.wallets.rows[a] in olds
    ensures forall y :: y in olds ==> y.address in w.wallets.rows && w.wallets.rows[y.address] == y && y.identityId == did && y.status == Active
    ensures Resolve(w, userId) == Some(w.identities.rows[did]) && w.identities.rows[did].identityId == did
  {
    hide ActivePlaced, OneActive, Onboarding, SessionsSound, RowWallets, EmployeesUnique, UserRows, FindUser, ActiveWalletsExcept;
    Resolved(w, userId);
    did := Resolve(w, userId).value.identityId;
    x := w.wallets.rows[Trim(address)];
    olds := ActiveWalletsExcept(w.wallets, did, x.address);
    actor := Resolve(w, actorId).value.identityId;
    OthersCopied(w, did, x.address);
    UserOf(w, did);
    e := FindUser(w.users, did).value.employeeId;
  }

  lemma KeepRevokedList(w: World, xs: seq<Wallet>)
    requires Good(w) && CopiesOf(w.wallets, xs)
    ensures Kept(w, w.(wallets := RevokeAll(w.wallets, xs)))
  {
    hide RecordsSound, SessionsSound;
    RevokedAll(w.identities.rows, w.users.rows, w.devices.rows, w.wallets, xs);
    SessionsEvolve(w.wallets.rows, RevokeAll(w.wallets, xs).rows, w.sessions, w.issued);
  }

  lemma KeepSwitch(w: World, did: string, e: string, x: Wallet)
    requires Good(w)
    requires x.address in w.wallets.rows && w.wallets.rows[x.address] == x && x.status == Pending && x.identityId == did
    requires forall b :: b in w.wallets.rows && w.wallets.rows[b].identityId == did ==> w.wallets.rows[b].status != Active
    requires x.deviceId in w.devices.rows && w.devices.rows[x.deviceId].status == Active && w.devices.rows[x.deviceId].identityId == did
    requires did in w.identities.rows && w.identities.rows[did].status == Active
    requires FindUser(w.users, did).Some? && e == FindUser(w.users, did).value.employeeId
    requires e in w.users.rows && w.users.rows[e] == FindUser(w.users, did).value && w.users.rows[e].identityId == did
    ensures Kept(w, Switched(w, did, x))
  {
    hide RecordsSound, SessionsSound, FindUser;
    WalletActivated(w.identities.rows, w.users.rows, w.devices.rows, w.wallets.rows, e, x.address);
    SessionsEvolve(w.wallets.rows, w.wallets.rows[x.address := x.(status := Active)], w.sessions, w.issued);
  }

  /** What a revoked list leaves of the table: nothing in it active, the rest as it was. */
  lemma AfterRevoking(w: World, xs: seq<Wallet>)
    requires Good(w) && CopiesOf(w.wallets, xs)
    ensures var t' := RevokeAll(w.wallets, xs);
            && t'.rows.Keys == w.wallets.rows.Keys
            && (forall a :: a in w.wallets.rows ==>
                  (t'.rows[a] == w.wallets.rows[a] || (t'.rows[a].status == Revoked && w.wallets.rows[a].status == Active)))
            && (forall a :: a in w.wallets.rows && w.wallets.rows[a] in xs ==> t'.rows[a].status == Revoked)
  {
    hide RecordsSound, SessionsSound;
    RevokedAll(w.identities.rows, w.users.rows, w.devices.rows, w.wallets, xs);
    forall a | a in w.wallets.rows && w.wallets.rows[a] in xs ensures RevokeAll(w.wallets, xs).rows[a].status == Revoked {
      AddressIsKey(w, a);
    }
  }

  /** Revoking a list of rows revokes these and leaves all others alone. */
  lemma {:induction false} RevokedExactly(t: Table<Wallet>, xs: seq<Wallet>)
    requires forall x :: x in xs ==> x.address in t.rows && t.rows[x.address].(status := Revoked) == x.(status := Revoked)
    ensures RevokeAll(t, xs).rows.Keys == t.rows.Keys
    ensures forall a :: a in t.rows ==>
      RevokeAll(t, xs).rows[a] == if exists x :: x in xs && x.address == a then t.rows[a].(status := Revoked) else t.rows[a]
    decreases |xs|
  {
    if xs != [] {
      var x := xs[0];
      var t1 := t.Put(x.address, x.(status := Revoked));
      RevokedExactly(t1, xs[1..]);
      forall a | a in t.rows
        ensures RevokeAll(t, xs).rows[a] == if exists y :: y in xs && y.address == a then t.rows[a].(status := Revoked) else t.rows[a]
      {
        assert (exists y :: y in xs && y.address == a) <==> x.address == a || exists y :: y in xs[1..] && y.address == a;
      }
    }
  }

  lemma AddressIsKey(w: World, a: string)
    requires Good(w) && a in w.wallets.rows
    ensures w.wallets.rows[a].address == a && a != "" && w.wallets.rows[a].identityId in w.identities.rows
  {
    hide UserRows, ActivePlaced, OneActive, Onboarding, SessionsSound, RowWallets, EmployeesUnique;
  }

  lemma KeepActivateWallet(w: World, userId: string, deviceId: string, address: string, actorId: string)
    requires Good(w)
    ensures Kept(w, Carry(w, PlanActivateWallet(w, userId, deviceId, address, actorId)).0)
  {
    hide PlanActivateWallet, WalletActivationScript, Run, Good, FindUser, WalletsEvolve, RevokeAll, Kept, SameRecords;
    KeptSelf(w);
    if PlanActivateWallet(w, userId, deviceId, address, actorId).Go? {
      var actor, did, e, x, olds := PlannedActivateWallet(w, userId, deviceId, address, actorId);
      var k := RunWalletActivation(w, actor, did, x, olds);
      var r := Run(w, WalletActivationScript(actor, did, x, olds));
      var w1 := w.(wallets := RevokeAll(w.wallets, olds[..k]));
      KeepRevokedList(w, olds[..k]);
      if r.1 == Ok {
        SwitchKept(w, did, e, x, olds);
        assert olds[..k] == olds;
        KeptSame(w, Switched(w1, did, x), r.0);
      } else {
        KeptSame(w, w1, r.0);
      }
    }
  }

  /** Old wallets revoked, then the new one activated, as one step. */
  lemma SwitchKept(w: World, did: string, e: string, x: Wallet, olds: seq<Wallet>)
    requires Good(w) && CopiesOf(w.wallets, olds)
    requires x.address in w.wallets.rows && w.wallets.rows[x.address] == x && x.status == Pending && x.identityId == did
    requires x.deviceId in w.devices.rows && w.devices.rows[x.deviceId].status == Active && w.devices.rows[x.deviceId].identityId == did
    requires did in w.identities.rows && w.identities.rows[did].status == Active
    requires FindUser(w.users, did).Some? && e == FindUser(w.users, did).value.employeeId
    requires e in w.users.rows && w.users.rows[e] == FindUser(w.users, did).value && w.users.rows[e].identityId == did
    requires forall a :: a in w.wallets.rows && w.wallets.rows[a].identityId == did && w.wallets.rows[a].status == Active ==>
      w.wallets.rows[a] in olds
    ensures Kept(w, Switched(w.(wallets := RevokeAll(w.wallets, olds)), did, x))
  {
    hide RecordsSound, SessionsSound, FindUser, RevokeAll;
    var w1 := w.(wallets := RevokeAll(w.wallets, olds));
    KeepRevokedList(w, olds);
    AfterRevoking(w, olds);
    KeepSwitch(w1, did, e, x);
    KeptTrans(w, w1, Switched(w1, did, x));
  }

  // ------------------------------------------------------------ smaller calls

  lemma KeepRegisterWallet(w: World, userId: string, deviceId: string, address: string)
    requires Good(w) && (PlanRegisterWallet(w, userId, deviceId, address).Go? ==> AddressFree(w, userId, deviceId, address))
    ensures Kept(w, Carry(w, PlanRegisterWallet(w, userId, deviceId, address)).0)
  {
    hide RunFrom, RecordsSound, SessionsSound, FindByEmployee;
    if PlanRegisterWallet(w, userId, deviceId, address).Go? {
      var x := RunRegisterWallet(w, userId, deviceId, address);
      if x.address in w.wallets.rows {
        assert w.wallets.rows == w.wallets.rows[x.address := x];
        assert w == w.(wallets := w.wallets.Put(x.address, x));
        KeptSelf(w);
      } else {
        RegisteredOwner(w, userId);
        WalletRegistered(w.identities.rows, w.users.rows, w.devices.rows, w.wallets.rows, x);
        SessionsEvolve(w.wallets.rows, w.wallets.rows[x.address := x], w.sessions, w.issued);
      }
    }
  }

  lemma RunRegisterWallet(w: World, userId: string, deviceId: string, address: string) returns (x: Wallet)
    requires PlanRegisterWallet(w, userId, deviceId, address).Go?
    ensures Resolve(w, userId).Some? && deviceId in w.devices.rows && Trim(address) != ""
    ensures x == Wallet(Trim(address), Resolve(w, userId).value.identityId, deviceId, Pending, w.devices.rows[deviceId].publicKey)
    ensures Run(w, PlanRegisterWallet(w, userId, deviceId, address).script) == (w.(wallets := w.wallets.Put(x.address, x)), Ok)
  {
    hide RunFrom, FindByEmployee;
    var s := PlanRegisterWallet(w, userId, deviceId, address).script;
    x := s[0].wallet;
    RunSaveWallet(w, s, 0);
    RunEnd(w.(wallets := w.wallets.Put(x.address, x)), s);
  }

  lemma RegisteredOwner(w: World, userId: string)
    requires Good(w)
    ensures Resolve(w, userId).Some? ==>
      var i := Resolve(w, userId).value; i.identityId in w.identities.rows && w.identities.rows[i.identityId] == i
  {
    hide UserRows, ActivePlaced, OneActive, Onboarding, SessionsSound, RowWallets, EmployeesUnique;
    Resolved(w, userId);
  }

  lemma RunAssignRole(w: World, actor: string, tx: Tx, i: Identity, u: User)
    ensures var r := Run(w, [Submit(actor, tx), SaveIdentity(i, None), SaveUser(u)]);
            || (SameRecords(w, r.0) && r.1 != Ok)
            || (r.1 == Ok && SameRecords(w.(identities := w.identities.Put(i.identityId, i), users := w.users.Put(u.employeeId, u)), r.0))
  {
    hide RunFrom;
    var s := [Submit(actor, tx), SaveIdentity(i, None), SaveUser(u)];
    var w1 := RunOnChain(w, s, 0, 1);
    RunSaveIdentity(w1, s, 1);
    var w2 := w1.(identities := w1.identities.Put(i.identityId, i));
    RunSaveUser(w2, s, 2);
    RunEnd(w2.(users := w2.users.Put(u.employeeId, u)), s);
  }

  lemma PlannedAssignRole(w: World, actorId: string, userId: string, role: Role)
    returns (actor: string, i: Identity, u: Option<User>)
    requires Good(w) && PlanAssignRole(w, actorId, userId, role).Go?
    ensures i.identityId in w.identities.rows && i == w.identities.rows[i.identityId].(role := Some(role))
    ensures u.None? ==> PlanAssignRole(w, actorId, userId, role).script == [SaveIdentity(i, None)]
    ensures u.Some? ==>
      PlanAssignRole(w, actorId, userId, role).script
        == [Submit(actor, RoleAssign(None, i.identityId, role)), SaveIdentity(i, None), SaveUser(u.value)]
    ensures u.Some? ==> u.value.employeeId in w.users.rows && u.value == w.users.rows[u.value.employeeId].(role := role)
  {
    hide UserRows, ActivePlaced, OneActive, Onboarding, SessionsSound, RowWallets, EmployeesUnique;
    Resolved(w, userId);
    actor := Resolve(w, actorId).value.identityId;
    i := Resolve(w, userId).value.(role := Some(role));
    var user := FindUser(w.users, i.identityId);
    u := if user.Some? then Some(user.value.(role := role)) else None;
  }

  lemma KeepAssignRole(w: World, actorId: string, userId: string, role: Role)
    requires Good(w)
    ensures Kept(w, Carry(w, PlanAssignRole(w, actorId, userId, role)).0)
  {
    hide PlanAssignRole, RunFrom, RecordsSound, SessionsSound;
    if PlanAssignRole(w, actorId, userId, role).Go? {
      var actor, i, u := PlannedAssignRole(w, actorId, userId, role);
      var s := PlanAssignRole(w, actorId, userId, role).script;
      IdentityRewritten(w.identities.rows, w.users.rows, w.devices.rows, w.wallets.rows, i);
      if u.Some? {
        RunAssignRole(w, actor, RoleAssign(None, i.identityId, role), i, u.value);
        UserRewritten(w.identities.rows[i.identityId := i], w.users.rows, w.devices.rows, w.wallets.rows, u.value);
      } else {
        RunSaveIdentity(w, s, 0);
        RunEnd(w.(identities := w.identities.Put(i.identityId, i)), s);
      }
    }
  }

  // ------------------------------------------------------------------ sign-in

  lemma RunSaveSession(w: World, s: Script, i: nat)
    requires i < |s| && s[i].SaveSession?
    ensures var x := s[i].session;
            RunFrom(w, s, i) == RunFrom(w.(sessions := w.sessions[x.token := x], issued := w.issued[x.token := x],
              granted := Logged(w.granted, s[i].grant)), s, i + 1)
  {
  }

  /** A session to be issued names an active wallet of its identity and device. */
  ghost predicate Issuable(w: World, x: Session) {
    && x.walletAddress in w.wallets.rows
    && w.wallets.rows[x.walletAddress].status == Active
    && w.wallets.rows[x.walletAddress].identityId == x.identityId
    && w.wallets.rows[x.walletAddress].deviceId == x.deviceId
  }

  lemma SessionIssued(w: World, x: Session)
    requires Good(w) && Issuable(w, x) && x.token !in w.issued
    ensures SessionsSound(w.wallets.rows, w.sessions[x.token := x], w.issued[x.token := x])
  {
    hide RecordsSound;
  }

  lemma KeepSession(w: World, s: Script, n: nat, x: Session, p: Option<Grant>)
    requires Good(w) && Issuable(w, x) && x.token !in w.issued
    requires |s| == n + 1 && s[n] == SaveSession(x, p) && (n == 0 || (n == 1 && s[0].Consume?))
    ensures Kept(w, Run(w, s).0)
  {
    hide RunFrom, RecordsSound, SessionsSound;
    SessionIssued(w, x);
    if n == 1 { RunConsume(w, s, 0); }
    var w1 := if n == 0 then w else
      w.(challenges := if s[0].challengeId in w.challenges then w.challenges[s[0].challengeId := w.challenges[s[0].challengeId].(used := true)] else w.challenges,
         granted := Logged(w.granted, s[0].grant));
    RunSaveSession(w1, s, n);
    RunEnd(w1.(sessions := w1.sessions[x.token := x], issued := w1.issued[x.token := x],
               granted := Logged(w1.granted, p)), s);
  }

  lemma PlannedProofLogin(w: World, c: Call)
    requires Good(w) && c.LoginWithProof?
    requires PlanLoginWithProof(w, c.deviceId, c.challengeId, c.publicKey, c.signature, c.token, c.ttl, c.now).Go?
    ensures var s := PlanLoginWithProof(w, c.deviceId, c.challengeId, c.publicKey, c.signature, c.token, c.ttl, c.now).script;
            |s| == 2 && s[0].Consume? && s[1].SaveSession? && s[1].session.token == c.token && Issuable(w, s[1].session)
  {
    hide UserRows, OneActive, Onboarding, SessionsSound, RowWallets, EmployeesUnique, ActivePlaced, FindUser;
  }

  lemma PlannedCredentialLogin(w: World, c: Call)
    requires Good(w) && c.LoginWithCredential?
    requires PlanLoginWithCredential(w, c.credential, c.production, c.token, c.ttl, c.now).Go?
    ensures var s := PlanLoginWithCredential(w, c.credential, c.production, c.token, c.ttl, c.now).script;
            |s| == 1 && s[0].SaveSession? && s[0].session.token == c.token && Issuable(w, s[0].session)
  {
    hide UserRows, OneActive, Onboarding, SessionsSound, RowWallets, EmployeesUnique, ActivePlaced, FindUser;
  }

  lemma KeepChallengeOnly(w: World, s: Script)
    requires Good(w) && |s| == 1 && (s[0].SaveChallenge? || s[0].Consume? || s[0].DeleteSession?)
    ensures Kept(w, Run(w, s).0)
  {
    hide RecordsSound;
    assert RunFrom(w, s, 0) == (Exec(w, s[0]).w, if Exec(w, s[0]).Done? then Ok else Failed(Exec(w, s[0]).error));
  }

  /** Calls that only sign somebody in or out, or issue a challenge. */
  predicate SignsIn(c: Call) {
    c.RequestProvisioning? || c.RequestAuthentication? || c.LoginWithProof? || c.LoginWithCredential? || c.ValidateSession?
    || c.Logout? || c.RequestFresh? || c.VerifyFresh?
  }

  lemma KeepSignIn(w: World, c: Call)
    requires Good(w) && FreshIds(w, c) && SignsIn(c)
    ensures Kept(w, Perform(w, c).0)
  {
    hide RunFrom, RecordsSound, SessionsSound, FindUser, PlanLoginWithProof, PlanLoginWithCredential;
    if Plan(w, c).Go? {
      var s := Plan(w, c).script;
      match c
      case LoginWithProof(_, _, _, _, _, _, _) =>
        PlannedProofLogin(w, c);
        KeepSession(w, s, 1, s[1].session, s[1].grant);
      case LoginWithCredential(_, _, _, _, _) =>
        PlannedCredentialLogin(w, c);
        KeepSession(w, s, 0, s[0].session, s[0].grant);
      case ValidateSession(_, _) =>
        if s == [] { RunEnd(w, s); } else { KeepChallengeOnly(w, s); }
      case RequestProvisioning(_, _, _, _, _) => KeepChallengeOnly(w, s);
      case RequestAuthentication(_, _, _, _) => KeepChallengeOnly(w, s);
      case Logout(_) => KeepChallengeOnly(w, s);
      case RequestFresh(_, _, _, _, _, _) => KeepChallengeOnly(w, s);
      case VerifyFresh(_, _, _, _, _, _, _) => KeepChallengeOnly(w, s);
    }
  }

  // ---------------------------------------------------------------- main runs

  /** Every call keeps the records sound, whatever it answers. */
  lemma PerformKeeps(w: World, c: Call)
    requires Good(w) && FreshIds(w, c) && (Plan(w, c).Go? ==> IdsFree(w, c))
    ensures Kept(w, Perform(w, c).0)
  {
    hide Carry, Kept, Good, PlanActivateRegistration, PlanRegisterDevice, PlanRevokeDevice, PlanRegisterWallet, PlanRevokeWallet,
         PlanActivateWallet, PlanAssignRole, PlanCreateUser, PlanInitializeAccount, PlanVerifyRegistration,
         PlanRequestProvisioning, PlanRequestAuthentication, PlanLoginWithProof, PlanLoginWithCredential, PlanValidateSession,
         PlanRequestFresh, PlanVerifyFresh;
    match c
    case CreateUser(_, _, _, _, _, _, _) => KeepCreateUser(w, c);
    case InitializeAccount(_, _, _, _, _, _, _, _, _, _, _) => KeepInitializeAccount(w, c);
    case VerifyRegistration(_, _, _, _) => KeepVerifyRegistration(w, c);
    case ActivateRegistration(a, u) => KeepActivateRegistration(w, a, u);
    case RegisterDevice(u, d, k, pk) => KeepRegisterDevice(w, u, d, k, pk);
    case RevokeDevice(d, a) => KeepRevokeDevice(w, d, a);
    case RegisterWallet(u, d, x) => KeepRegisterWallet(w, u, d, x);
    case RevokeWallet(u, r, a) => KeepRevokeWallet(w, u, r, a);
    case ActivateWallet(u, d, x, a) => KeepActivateWallet(w, u, d, x, a);
    case AssignRole(a, u, r) => KeepAssignRole(w, a, u, r);
    case _ => KeepSignIn(w, c);
  }
}
