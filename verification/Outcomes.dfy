/** What the lifecycle calls come to, row by row: exactly when each is let through, exactly
    which rows it leaves, and that a call that fails leaves all of them alone. Stated on the
    rows themselves, for every store the services can reach. */
module Outcomes {
  import opened Prelude
  import opened IdentityModel
  import opened IdentityInvariant
  import opened IdentityRuns
  import opened Facts

  /** Everything but identities, users, devices, wallets, credentials and the chain. */
  ghost predicate SameSignIns(w: World, w': World) {
    && w'.env == w.env && w'.challenges == w.challenges && w'.sessions == w.sessions && w'.issued == w.issued
    && w'.granted == w.granted
  }

  // -------------------------------------------------------------------- devices

  /** registerDevice is let through for a named identity and a device that is nobody else's
      and not active, in EVM mode with a key that an address can be derived from. */
  lemma RegisterDeviceExactly(w: World, u: string, i: Identity, d: string, credential: string, key: string)
    requires Good(w) && Names(w, u, i)
    ensures var (w', r) := Perform(w, RegisterDevice(u, d, credential, key));
      && (r == Ok <==>
            && Trim(d) != "" && Trim(credential) != "" && (w.env.evm ==> key != "" && w.env.derive(key).Some?)
            && (d in w.devices.rows ==> w.devices.rows[d].identityId == i.identityId && w.devices.rows[d].status != Active))
      && (r != Ok ==> w' == w)
      && (r != Ok ==> r == Failed(
            if Trim(d) == "" || Trim(credential) == "" || (w.env.evm && (key == "" || w.env.derive(key).None?)) then Validation else Conflict))
      && (r == Ok ==>
            && w' == w.(devices := w'.devices, credentials := w.credentials[w.env.hashCredential(credential) := d])
            && w'.devices.rows == w.devices.rows[d := Device(d, i.identityId, Active,
                 if key == "" && d in w.devices.rows then w.devices.rows[d].publicKey else key)])
  {
    hide RunFrom, Good;
    ResolvedExactly(w, u);
    if PlanRegisterDevice(w, u, d, credential, key).Go? {
      var x, v := PlannedRegisterDevice(w, u, d, credential, key);
      RunRegisterDevice(w, x, v);
    }
    hide Names, NamesNobody, Resolve, TrimStart, TrimEnd;
  }

  /** revokeDevice: device and active wallets on it revoked, its credentials forgotten, and
      nothing else touched, or nothing at all. */
  lemma RevokeDeviceExactly(w: World, d: string, caller: Option<string>)
    requires Good(w)
    ensures var (w', r) := Perform(w, RevokeDevice(d, caller));
      && (Plan(w, RevokeDevice(d, caller)).Go? <==> d in w.devices.rows && (caller.Some? ==> !NamesNobody(w, caller.value)))
      && (r != Ok ==> SameRecords(w, w'))
      && (r == Ok ==>
            && d in w.devices.rows && SameSignIns(w, w') && w'.identities == w.identities && w'.users == w.users
            && w'.devices.rows == w.devices.rows[d := w.devices.rows[d].(status := Revoked)]
            && Forgotten(w.credentials, w'.credentials, d)
            && WalletsOnRevoked(w.wallets.rows, w'.wallets.rows, d))
  {
    hide Run, Good, DeviceRevocationScript, RevokeAll, WalletsOnRevoked, Forgotten;
    OwnerNamed(w, d);
    if d in w.devices.rows { ResolvedExactly(w, if caller.Some? then caller.value else w.devices.rows[d].identityId); }
    hide NamesNobody, Names, Resolve;
    if PlanRevokeDevice(w, d, caller).Go? {
      var actor, row, xs := PlannedRevokeDevice(w, d, caller);
      RunDeviceRevocation(w, actor, row, xs);
      RevokedRows(w, xs, d);
      assert row.status == Revoked ==> w.devices.rows[d := row.(status := Revoked)] == w.devices.rows;
    }
  }

  ghost predicate WalletsOnRevoked(xs: Wallets, xs': Wallets, d: string) {
    && xs'.Keys == xs.Keys
    && forall a :: a in xs ==>
         xs'[a] == if xs[a].deviceId == d && xs[a].status == Active then xs[a].(status := Revoked) else xs[a]
  }

  lemma RevokedRows(w: World, xs: seq<Wallet>, d: string)
    requires CopiesOf(w.wallets, xs) && forall a :: a in w.wallets.rows ==> w.wallets.rows[a].address == a
    requires forall x :: x in xs ==> x.deviceId == d && x.status == Active
    requires forall a :: a in w.wallets.rows && w.wallets.rows[a].deviceId == d && w.wallets.rows[a].status == Active ==> w.wallets.rows[a] in xs
    ensures WalletsOnRevoked(w.wallets.rows, RevokeAll(w.wallets, xs).rows, d)
  {
    RevokedExactly(w.wallets, xs);
    hide RevokeAll;
    forall a | a in w.wallets.rows && exists x :: x in xs && x.address == a
      ensures w.wallets.rows[a].deviceId == d && w.wallets.rows[a].(status := Revoked) == RevokeAll(w.wallets, xs).rows[a]
    {
      var x :| x in xs && x.address == a;
      assert w.wallets.rows[a].(status := Revoked).deviceId == x.(status := Revoked).deviceId;
    }
  }

  // -------------------------------------------------------------------- wallets

  /** registerWallet: a pending wallet, under the trimmed address, on an active device of an
      active identity, with that device's key. */
  lemma RegisterWalletExactly(w: World, u: string, i: Identity, d: string, address: string)
    requires Good(w) && Names(w, u, i)
    ensures var (w', r) := Perform(w, RegisterWallet(u, d, address));
      && (r == Ok <==>
            && Trim(address) != "" && i.status == Active && DeviceIs(w, d, i.identityId, Active) && w.devices.rows[d].publicKey != ""
            && Derived(w.env, w.devices.rows[d].publicKey, address) && address !in w.wallets.rows)
      && (r != Ok ==> w' == w)
      && (r != Ok ==> r == Failed(
            if Trim(address) == "" then Validation
            else if i.status != Active || !DeviceIs(w, d, i.identityId, Active) || w.devices.rows[d].publicKey == "" then Forbidden
            else if !Derived(w.env, w.devices.rows[d].publicKey, address) then Validation else Conflict))
      && (r == Ok ==>
            && w' == w.(wallets := w'.wallets)
            && w'.wallets.rows == w.wallets.rows[Trim(address) := Wallet(Trim(address), i.identityId, d, Pending, w.devices.rows[d].publicKey)])
  {
    hide Run, Good;
    ResolvedExactly(w, u);
    if PlanRegisterWallet(w, u, d, address).Go? {
      var x := RunRegisterWallet(w, u, d, address);
    }
    hide Names, NamesNobody, Resolve, TrimStart, TrimEnd;
  }

  /** revokeWallet: the identity's one active wallet is revoked, for a reason and by somebody. */
  lemma RevokeWalletExactly(w: World, u: string, i: Identity, reason: string, actorId: string)
    requires Good(w) && Names(w, u, i)
    ensures var (w', r) := Perform(w, RevokeWallet(u, reason, actorId));
      && (Plan(w, RevokeWallet(u, reason, actorId)).Go? <==>
            Trim(reason) != "" && !NamesNobody(w, actorId) && exists a :: WalletIs(w, a, i.identityId, Active))
      && (Plan(w, RevokeWallet(u, reason, actorId)).Refuse? ==> r == Failed(if Trim(reason) == "" then Validation else NotFound))
      && (r != Ok ==> SameRecords(w, w'))
      && (r == Ok ==> SameRecords(w.(wallets := w'.wallets), w') && OneGone(w, w', i.identityId))
  {
    hide Run, Good, RevokeAll;
    ResolvedExactly(w, u);
    ResolvedExactly(w, actorId);
    ActiveWalletExactly(w, i.identityId);
    hide Names, NamesNobody, Resolve, TrimStart, TrimEnd, FindWallet;
    if PlanRevokeWallet(w, u, reason, actorId).Go? {
      var actor, x := PlannedRevokeWallet(w, u, reason, actorId);
      RunRevokeWallet(w, actor, x);
      OneRevoked(w.wallets, x);
    }
  }

  /** The active wallet of an identity is revoked, and nothing else about wallets changes. */
  ghost predicate OneGone(w: World, w': World, id: string) {
    exists a :: WalletIs(w, a, id, Active) && w'.wallets.rows == w.wallets.rows[a := w.wallets.rows[a].(status := Revoked)]
  }

  /** A user row of the identity names this wallet now, and nothing else about users changes. */
  ghost predicate Repointed(w: World, w': World, id: string, a: string) {
    exists e :: UserIs(w, e, id) && w'.users.rows == w.users.rows[e := w.users.rows[e].(walletAddress := a)]
  }

  lemma OneRevoked(t: Table<Wallet>, x: Wallet)
    ensures RevokeAll(t, [x]).rows == t.rows[x.address := x.(status := Revoked)]
  {
    assert RevokeAll(t, [x]) == RevokeAll(t.Put(x.address, x.(status := Revoked)), []);
  }

  /** activateWallet: a pending wallet on an active device of an active identity becomes its
      one active wallet and is named in its user row; whoever was active is revoked. When it
      fails midway, at most other active wallets of the identity have been revoked. */
  lemma ActivateWalletExactly(w: World, u: string, i: Identity, d: string, address: string, actorId: string)
    requires Good(w) && Names(w, u, i)
    ensures var (w', r) := Perform(w, ActivateWallet(u, d, address, actorId)); var a := Trim(address);
      && w' == w.(wallets := w'.wallets, users := w'.users, chain := w'.chain)
      && (r != Ok ==> w'.users == w.users && SomeRevoked(w.wallets.rows, w'.wallets.rows, i.identityId))
      && (r == Ok ==> Rotated(w.wallets.rows, w'.wallets.rows, i.identityId, a) && Repointed(w, w', i.identityId, a))
  {
    hide Run, Good, RevokeAll, WalletActivationScript, PlanActivateWallet, ActiveWalletsExcept, FindUser, Names, NamesNobody, Resolve,
         SomeRevoked, Rotated, TrimStart, TrimEnd;
    ResolvedExactly(w, u);
    SomeSame(w.wallets.rows, i.identityId);
    if PlanActivateWallet(w, u, d, address, actorId).Go? {
      ActivateWalletPasses(w, u, i, d, address, actorId);
      var actor, did, e, x, olds := PlannedActivateWallet(w, u, d, address, actorId);
      var k := RunWalletActivation(w, actor, did, x, olds);
      OldsRevoked(w, did, x, olds, k);
      assert x.address == Trim(address) by { NamedAddress(w, u, d, address, actorId, x); }
    }
  }

  lemma NamedAddress(w: World, u: string, d: string, address: string, actorId: string, x: Wallet)
    requires Good(w) && PlanActivateWallet(w, u, d, address, actorId).Go?
    requires exists actor, did, olds :: PlanActivateWallet(w, u, d, address, actorId).script == WalletActivationScript(actor, did, x, olds)
    ensures x.address == Trim(address)
  {
    hide Good, Resolve, ActiveWalletsExcept, FindUser, TrimStart, TrimEnd;
    WalletKeys(w);
    var s := PlanActivateWallet(w, u, d, address, actorId).script;
    assert s[|s| - 2] == SaveWallet(x.(status := Active));
  }

  lemma ActivateWalletPasses(w: World, u: string, i: Identity, d: string, address: string, actorId: string)
    requires Good(w) && Names(w, u, i)
    ensures var a := Trim(address);
      Plan(w, ActivateWallet(u, d, address, actorId)).Go? <==>
            && a != "" && i.status == Active && DeviceIs(w, d, i.identityId, Active) && WalletIs(w, a, i.identityId, Pending)
            && w.wallets.rows[a].deviceId == d && w.wallets.rows[a].publicKey != ""
            && Derived(w.env, w.wallets.rows[a].publicKey, address) && !NamesNobody(w, actorId)
  {
    ResolvedExactly(w, u);
    ResolvedExactly(w, actorId);
    hide Names, NamesNobody, Resolve, TrimStart, TrimEnd, FindUser, ActiveWalletsExcept, Good, WalletActivationScript;
  }

  lemma ActivateWalletRefuses(w: World, u: string, i: Identity, d: string, address: string, actorId: string)
    requires Good(w) && Names(w, u, i) && Plan(w, ActivateWallet(u, d, address, actorId)).Refuse?
    ensures Plan(w, ActivateWallet(u, d, address, actorId)).error == WalletRefusal(w, i, d, address)
  {
    hide Names, NamesNobody, Resolve, ActiveWalletsExcept, Good, ActivateWalletOn, WalletRefusal;
    ResolvedExactly(w, u);
    var existing := w.wallets.Get(Trim(address));
    RotationRefusal(w, i, Resolve(w, actorId),
                    if existing.None? then [] else ActiveWalletsExcept(w.wallets, i.identityId, existing.value.address), d, address);
  }

  lemma RotationRefusal(w: World, i: Identity, actor: Option<Identity>, others: seq<Wallet>, d: string, address: string)
    requires ActivateWalletOn(w, Some(i), actor, others, d, address).Refuse?
    ensures ActivateWalletOn(w, Some(i), actor, others, d, address).error == WalletRefusal(w, i, d, address)
  {
    hide TrimStart, TrimEnd, WalletActivationScript;
  }

  function WalletRefusal(w: World, i: Identity, d: string, address: string): Error {
    var a := Trim(address);
    if a == "" then Validation
    else if i.status != Active || !DeviceIs(w, d, i.identityId, Active) then Forbidden
    else if a !in w.wallets.rows then NotFound
    else if w.wallets.rows[a].identityId != i.identityId then Forbidden
    else if w.wallets.rows[a].deviceId != d || w.wallets.rows[a].status != Pending then NotFound
    else if w.wallets.rows[a].publicKey == "" then Forbidden
    else if !Derived(w.env, w.wallets.rows[a].publicKey, address) then Validation
    else NotFound
  }

  lemma WalletKeys(w: World)
    requires Good(w)
    ensures forall a :: a in w.wallets.rows ==> w.wallets.rows[a].address == a
  {
    hide UserRows, ActivePlaced, OneActive, Onboarding, SessionsSound, RowWallets, EmployeesUnique;
  }

  ghost predicate SomeRevoked(xs: Wallets, xs': Wallets, id: string) {
    && xs'.Keys == xs.Keys
    && forall a :: a in xs ==> xs'[a] == xs[a] || (xs[a].identityId == id && xs[a].status == Active && xs'[a] == xs[a].(status := Revoked))
  }

  ghost predicate Rotated(xs: Wallets, xs': Wallets, id: string, a: string) {
    && xs'.Keys == xs.Keys
    && forall b :: b in xs ==>
         xs'[b] == if b == a then xs[b].(status := Active)
                   else if xs[b].identityId == id && xs[b].status == Active then xs[b].(status := Revoked) else xs[b]
  }

  lemma SomeSame(xs: Wallets, id: string)
    ensures SomeRevoked(xs, xs, id)
  {
  }

  lemma OldsRevoked(w: World, did: string, x: Wallet, olds: seq<Wallet>, k: nat)
    requires k <= |olds| && x.address in w.wallets.rows && w.wallets.rows[x.address] == x && x.status == Pending
    requires forall a :: a in w.wallets.rows ==> w.wallets.rows[a].address == a
    requires forall y :: y in olds ==> y.address in w.wallets.rows && w.wallets.rows[y.address] == y && y.identityId == did && y.status == Active
    requires forall a :: a in w.wallets.rows && w.wallets.rows[a].identityId == did && w.wallets.rows[a].status == Active ==> w.wallets.rows[a] in olds
    ensures SomeRevoked(w.wallets.rows, RevokeAll(w.wallets, olds[..k]).rows, did)
    ensures k == |olds| ==> Rotated(w.wallets.rows, RevokeAll(w.wallets, olds[..k]).rows[x.address := x.(status := Active)], did, x.address)
  {
    assert forall y :: y in olds[..k] ==> y in olds;
    RevokedExactly(w.wallets, olds[..k]);
    assert k == |olds| ==> olds[..k] == olds;
  }

  lemma OwnerNamed(w: World, d: string)
    requires Good(w)
    ensures d in w.devices.rows ==> w.devices.rows[d].deviceId == d && !NamesNobody(w, w.devices.rows[d].identityId)
  {
    hide UserRows, ActivePlaced, OneActive, Onboarding, SessionsSound, RowWallets, EmployeesUnique;
  }

  // -------------------------------------------------------------- registrations

  /** verifyRegistration: an active administrator sets employee id and department of a
      pending identity, trimmed, unless somebody else has the id as it was given. */
  lemma VerifyRegistrationExactly(w: World, actorId: string, a: Identity, u: string, i: Identity, e: string, department: string)
    requires Good(w) && Names(w, actorId, a) && Names(w, u, i)
    ensures var (w', r) := Perform(w, VerifyRegistration(actorId, u, e, department));
      && (r == Ok <==>
            && a.status == Active && a.role == Some(ADMIN) && Trim(e) != "" && Trim(department) != "" && i.status == Pending
            && NobodyElse(w, e, i.identityId))
      && (r != Ok ==> w' == w)
      && (r != Ok ==> r == Failed(
            if a.status != Active || a.role != Some(ADMIN) then Forbidden
            else if Trim(e) == "" || Trim(department) == "" then Validation else Conflict))
      && (r == Ok ==>
            && w' == w.(identities := w'.identities)
            && w'.identities.rows == w.identities.rows[i.identityId :=
                 Identity(i.identityId, Some(Trim(e)), i.role, Trim(department), Pending, Some(a.identityId))])
  {
    hide RunFrom, Good;
    ResolvedExactly(w, actorId);
    ResolvedExactly(w, u);
    HolderExactly(w, e);
    hide Names, NamesNobody, Resolve, TrimStart, TrimEnd, FindByEmployee;
    var p := PlanVerifyRegistration(w, actorId, u, e, department);
    if p.Go? {
      var j := p.script[0].identity;
      RunSaveIdentity(w, p.script, 0);
      RunEnd(w.(identities := w.identities.Put(j.identityId, j)), p.script);
    }
  }

  /** The one pending device and the one pending wallet of an identity. */
  ghost predicate OnlyPending(w: World, id: string, d: string, x: string) {
    && DeviceIs(w, d, id, Pending) && (forall e :: DeviceIs(w, e, id, Pending) ==> e == d)
    && WalletIs(w, x, id, Pending) && (forall y :: WalletIs(w, y, id, Pending) ==> y == x)
  }

  lemma PendingFound(w: World, id: string, d: string, x: string)
    requires Good(w) && OnlyPending(w, id, d, x)
    ensures FindDevice(w.devices, id, Pending) == Some(w.devices.rows[d]) && FindWallet(w.wallets, id, Pending) == Some(w.wallets.rows[x])
    ensures w.devices.rows[d].deviceId == d && w.wallets.rows[x].address == x
  {
    hide UserRows, ActivePlaced, OneActive, Onboarding, SessionsSound, RowWallets, EmployeesUnique;
    var e, y := FindDevice(w.devices, id, Pending), FindWallet(w.wallets, id, Pending);
    assert e.Some? && DeviceIs(w, e.value.deviceId, id, Pending);
    assert y.Some? && WalletIs(w, y.value.address, id, Pending);
  }

  /** activateRegistration: let through for an administrator and a verified pending identity
      with a role and a pending device and wallet of one key; then all or nothing. */
  lemma ActivateRegistrationExactly(w: World, actorId: string, a: Identity, u: string, i: Identity, d: string, x: string)
    requires Good(w) && Names(w, actorId, a) && Names(w, u, i) && OnlyPending(w, i.identityId, d, x)
    ensures var (w', r) := Perform(w, ActivateRegistration(actorId, u)); var key := w.devices.rows[d].publicKey;
      && (Plan(w, ActivateRegistration(actorId, u)).Go? <==>
            && a.status == Active && a.role == Some(ADMIN)
            && i.status == Pending && i.employeeId.Some? && i.employeeId.value != "" && i.department != "" && i.role.Some?
            && w.wallets.rows[x].publicKey == key != "" && Derived(w.env, key, x))
      && (Plan(w, ActivateRegistration(actorId, u)).Refuse? ==> r == Failed(
            if a.status != Active || a.role != Some(ADMIN) then Forbidden
            else if i.status != Pending || i.employeeId in {None, Some("")} || i.department == "" || i.role.None? then Conflict
            else if w.wallets.rows[x].publicKey != key || key == "" then Forbidden else Validation))
      && (r != Ok ==> SameRecords(w, w'))
      && (r == Ok ==>
            && i.employeeId.Some? && i.role.Some? && SameSignIns(w, w') && w'.credentials == w.credentials
            && w'.identities.rows == w.identities.rows[i.identityId := i.(status := Active)]
            && w'.devices.rows == w.devices.rows[d := w.devices.rows[d].(status := Active)]
            && w'.wallets.rows == w.wallets.rows[x := w.wallets.rows[x].(status := Active)]
            && w'.users.rows == w.users.rows[i.employeeId.value := User(i.employeeId.value, i.identityId, x, i.role.value, Active)])
  {
    hide Run, Good;
    ResolvedExactly(w, actorId);
    ResolvedExactly(w, u);
    PendingFound(w, i.identityId, d, x);
    hide Names, NamesNobody, Resolve, FindDevice, FindWallet, ActivationScript;
    if PlanActivateRegistration(w, actorId, u).Go? {
      RunActivation(w, a.identityId, i, i.role.value, w.devices.rows[d], w.wallets.rows[x]);
    }
  }

  // ---------------------------------------------------------------------- roles

  /** assignRole: by an active administrator. Without a user row only a pending identity can
      be given a role, on record alone; with one, after a confirmed submission, in both rows. */
  lemma AssignRoleExactly(w: World, actorId: string, a: Identity, u: string, i: Identity, role: Role)
    requires Good(w) && Names(w, actorId, a) && Names(w, u, i)
    ensures var (w', r) := Perform(w, AssignRole(actorId, u, role)); var rowless := forall e :: !UserIs(w, e, i.identityId);
      && (Plan(w, AssignRole(actorId, u, role)).Go? <==>
            a.status == Active && a.role == Some(ADMIN) && i.status != Revoked && (rowless ==> i.status == Pending))
      && (Plan(w, AssignRole(actorId, u, role)).Refuse? ==>
            r == Failed(if a.status != Active || a.role != Some(ADMIN) || i.status == Revoked then Forbidden else NotFound))
      && (r != Ok ==> SameRecords(w, w'))
      && (r == Ok ==> w'.identities.rows == w.identities.rows[i.identityId := i.(role := Some(role))])
      && (r == Ok && rowless ==> w' == w.(identities := w'.identities))
      && (r == Ok && !rowless ==> SameRecords(w.(identities := w'.identities, users := w'.users), w') && Promoted(w, w', i.identityId, role))
      && (rowless && Plan(w, AssignRole(actorId, u, role)).Go? ==> r == Ok)
  {
    hide Run, Good, PlanAssignRole;
    AssignRolePlanned(w, actorId, a, u, i, role);
    hide Names;
    if PlanAssignRole(w, actorId, u, role).Go? {
      var j := i.(role := Some(role));
      UserExactly(w, i.identityId);
      if FindUser(w.users, i.identityId).Some? {
        var row := FindUser(w.users, i.identityId).value;
        RunAssignRole(w, a.identityId, RoleAssign(None, i.identityId, role), j, row.(role := role));
      } else {
        SavedAlone(w, j);
      }
      hide FindUser;
    }
  }

  lemma AssignRolePlanned(w: World, actorId: string, a: Identity, u: string, i: Identity, role: Role)
    requires Good(w) && Names(w, actorId, a) && Names(w, u, i)
    ensures var p := PlanAssignRole(w, actorId, u, role); var j := i.(role := Some(role)); var rowless := forall e :: !UserIs(w, e, i.identityId);
      && (p.Go? <==> a.status == Active && a.role == Some(ADMIN) && i.status != Revoked && (rowless ==> i.status == Pending))
      && (p.Refuse? ==> p.error == if a.status != Active || a.role != Some(ADMIN) || i.status == Revoked then Forbidden else NotFound)
      && (rowless <==> FindUser(w.users, i.identityId).None?)
      && (p.Go? && rowless ==> p.script == [SaveIdentity(j, None)])
      && (p.Go? && !rowless ==> p.script == [Submit(a.identityId, RoleAssign(None, i.identityId, role)), SaveIdentity(j, None),
                                             SaveUser(FindUser(w.users, i.identityId).value.(role := role))])
      && i.identityId in w.identities.rows && w.identities.rows[i.identityId] == i
  {
    hide Good;
    ResolvedExactly(w, actorId);
    ResolvedExactly(w, u);
    UserExactly(w, i.identityId);
    hide Names, NamesNobody, Resolve, FindUser;
  }

  lemma SavedAlone(w: World, j: Identity)
    ensures Run(w, [SaveIdentity(j, None)]) == (w.(identities := w.identities.Put(j.identityId, j)), Ok)
  {
    hide RunFrom;
    RunSaveIdentity(w, [SaveIdentity(j, None)], 0);
    RunEnd(w.(identities := w.identities.Put(j.identityId, j)), [SaveIdentity(j, None)]);
  }

  /** A user row of the identity shows the role, and nothing else about users changes. */
  ghost predicate Promoted(w: World, w': World, id: string, role: Role) {
    exists e :: UserIs(w, e, id) && w'.users.rows == w.users.rows[e := w.users.rows[e].(role := role)]
  }

  /** initializeAccount: let through for an unused, unexpired challenge of this device, proved
      with the key that is registered, and for ids that are unknown as given; then a pending
      identity, device and wallet under the trimmed ids, and the challenge is spent. */
  lemma InitializeAccountExactly(w: World, c: Call)
    requires Good(w) && c.InitializeAccount?
    ensures var (w', r) := Perform(w, c);
      && (r == Ok <==> Plan(w, c).Go?)
      && (r != Ok ==> w' == w)
      && (r == Ok ==>
            && c.challengeId in w.challenges
            && w' == w.(identities := w'.identities, devices := w'.devices, wallets := w'.wallets, granted := w'.granted,
                        challenges := w.challenges[c.challengeId := w.challenges[c.challengeId].(used := true)])
            && w'.identities.rows == w.identities.rows[c.freshId := Identity(c.freshId,
                 if Trim(c.employeeId) == "" then None else Some(Trim(c.employeeId)), None, Trim(c.department), Pending, None)]
            && w'.devices.rows == w.devices.rows[Trim(c.deviceId) := Device(Trim(c.deviceId), c.freshId, Pending, c.publicKey)]
            && w'.wallets.rows == w.wallets.rows[Trim(c.walletAddress) :=
                 Wallet(Trim(c.walletAddress), c.freshId, Trim(c.deviceId), Pending, c.publicKey)])
  {
    hide RunFrom, Good, FindByEmployee, TrimStart, TrimEnd;
    var p := InitializePlan(w, c);
    assert Plan(w, c) == p;
    if p.Go? {
      var s := p.script;
      RunConsume(w, s, 0);
      var w1 := w.(challenges := w.challenges[c.challengeId := w.challenges[c.challengeId].(used := true)]);
      RunSaveIdentity(w1, s, 1);
      var w2 := w1.(identities := w1.identities.Put(c.freshId, s[1].identity), granted := Logged(w1.granted, s[1].grant));
      RunSaveDevice(w2, s, 2);
      var w3 := w2.(devices := w2.devices.Put(s[2].device.deviceId, s[2].device));
      RunSaveWallet(w3, s, 3);
      RunEnd(w3.(wallets := w3.wallets.Put(s[3].wallet.address, s[3].wallet)), s);
    }
  }

  lemma InitializeAccountPasses(w: World, c: Call)
    requires Good(w) && c.InitializeAccount?
    ensures Plan(w, c).Go? <==>
            && Trim(c.fullName) != "" && Trim(c.deviceId) != "" && Trim(c.publicKey) != "" && Trim(c.walletAddress) != ""
            && Trim(c.challengeId) != "" && Trim(c.signature) != "" && c.attested
            && c.challengeId in w.challenges && var h := w.challenges[c.challengeId];
            && h.purpose == WalletInitialization && !h.used && c.now < h.expiresAt && h.deviceId == c.deviceId
            && w.env.proves(h.nonce, c.publicKey, c.signature) && Derived(w.env, c.publicKey, c.walletAddress)
            && c.walletAddress !in w.wallets.rows && c.deviceId !in w.devices.rows
            && (c.employeeId == "" || forall k :: k in w.identities.rows ==> w.identities.rows[k].employeeId != Some(c.employeeId))
    ensures Plan(w, c).Refuse? ==> Plan(w, c).error in {Validation, Conflict, Forbidden}
    ensures Plan(w, c) == Refuse(Forbidden) ==>
      (c.challengeId in w.challenges && (!w.env.proves(w.challenges[c.challengeId].nonce, c.publicKey, c.signature) || !c.attested))
    ensures Plan(w, c) == Refuse(Conflict) ==>
      (|| (c.challengeId in w.challenges && w.challenges[c.challengeId].used) || c.walletAddress in w.wallets.rows
       || c.deviceId in w.devices.rows || exists k :: k in w.identities.rows && w.identities.rows[k].employeeId == Some(c.employeeId))
  {
    HolderExactly(w, c.employeeId);
    hide FindByEmployee, TrimStart, TrimEnd, Good;
  }

  /** createUser: for an unknown employee id and, if one is given, an unknown identity id. In
      EVM mode only for an identity the chain knows, whose role it changes there first;
      otherwise identity and user row are saved before anything is submitted. */
  lemma CreateUserExactly(w: World, c: Call)
    requires Good(w) && c.CreateUser?
    ensures var (w', r) := Perform(w, c); var id := if c.givenId.Some? then c.givenId.value else c.freshId;
      var known := w.env.evm && ChainRole(w.chain, id).Some?;
      && (Plan(w, c).Refuse? ==> w' == w)
      && (Plan(w, c).Go? && r != Ok && known ==> SameRecords(w, w'))
      && (Plan(w, c).Go? && (r == Ok || !known) ==>
            && SameRecords(w.(identities := w'.identities, users := w'.users), w')
            && w'.identities.rows == w.identities.rows[id := Identity(id, Some(c.employeeId), Some(c.role), c.department, c.status, None)]
            && w'.users.rows == w.users.rows[c.employeeId := User(c.employeeId, id, "", c.role, c.status)])
      && (known && ChainRole(w.chain, id) == Some(c.role) && Plan(w, c).Go? ==> r == Ok && w'.chain == w.chain)
  {
    hide Run, Good, ChainRole, FindByEmployee, Resolve;
    assert Plan(w, c) == CreateUserPlan(w, c);
    if Plan(w, c).Go? {
      var id := if c.givenId.Some? then c.givenId.value else c.freshId;
      var s := Plan(w, c).script;
      var i := Identity(id, Some(c.employeeId), Some(c.role), c.department, c.status, None);
      if s[0].Submit? { RunRoleFirst(w, s, i, ToUser(i, "")); } else { RunSavedFirst(w, s, i, ToUser(i, "")); }
    }
  }

  lemma CreateUserPasses(w: World, c: Call)
    requires Good(w) && c.CreateUser?
    ensures var id := if c.givenId.Some? then c.givenId.value else c.freshId;
      var role := if w.env.evm then ChainRole(w.chain, id) else None;
      Plan(w, c).Go? <==>
            && c.employeeId != "" && (forall k :: k in w.identities.rows ==> w.identities.rows[k].employeeId != Some(c.employeeId))
            && (c.givenId.Some? && c.givenId.value != "" ==> c.givenId.value !in w.identities.rows)
            && (w.env.evm ==> role.Some?)
            && (role.Some? && role.value != c.role ==> !NamesNobody(w, if c.caller.Some? then c.caller.value else id))
    ensures Plan(w, c).Refuse? ==> Plan(w, c).error in {Validation, Conflict, NotFound}
    ensures Plan(w, c).Refuse? ==> (Plan(w, c).error == Validation <==> c.employeeId == "")
    ensures Plan(w, c) == Refuse(NotFound) ==> w.env.evm && NamesNobody(w, CallerOf(w, c))
  {
    var id := if c.givenId.Some? then c.givenId.value else c.freshId;
    HolderExactly(w, c.employeeId);
    ResolvedExactly(w, if c.caller.Some? then c.caller.value else id);
    hide Names, NamesNobody, Resolve, FindByEmployee, Good, ChainRole;
    assert Plan(w, c) == CreateUserPlan(w, c);
  }

  lemma RunSavedFirst(w: World, s: Script, i: Identity, u: User)
    requires 2 <= |s| && s[0] == SaveIdentity(i, None) && s[1] == SaveUser(u) && forall k :: 2 <= k < |s| ==> OnChainOnly(s[k])
    ensures var (w', r) := Run(w, s); var w2 := w.(identities := w.identities.Put(i.identityId, i), users := w.users.Put(u.employeeId, u));
            SameRecords(w2, w') && (|s| == 2 ==> w' == w2 && r == Ok)
  {
    hide RunFrom;
    RunSaveIdentity(w, s, 0);
    var w1 := w.(identities := w.identities.Put(i.identityId, i));
    RunSaveUser(w1, s, 1);
    var w2 := w1.(users := w1.users.Put(u.employeeId, u));
    var w3 := RunOnChain(w2, s, 2, |s|);
    RunEnd(w3, s);
    if |s| == 2 { RunEnd(w2, s); }
  }

  lemma RunRoleFirst(w: World, s: Script, i: Identity, u: User)
    requires |s| == 3 && s[0].Submit? && s[1] == SaveIdentity(i, None) && s[2] == SaveUser(u)
    ensures var (w', r) := Run(w, s);
            || (SameRecords(w, w') && r != Ok)
            || (r == Ok && SameRecords(w.(identities := w.identities.Put(i.identityId, i), users := w.users.Put(u.employeeId, u)), w'))
  {
    RunAssignRole(w, s[0].actor, s[0].tx, i, u);
    assert s == [Submit(s[0].actor, s[0].tx), SaveIdentity(i, None), SaveUser(u)];
  }

  /** Nobody is acted for, and nothing is done to anybody, under an id that names nobody. */
  lemma NobodyNamed(w: World, c: Call, u: string)
    requires Good(w) && NamesNobody(w, u)
    requires (match c
              case VerifyRegistration(a, t, _, _) => u == a || u == t
              case ActivateRegistration(a, t) => u == a || u == t
              case RegisterDevice(t, _, _, _) => u == t
              case RegisterWallet(t, _, _) => u == t
              case RevokeWallet(t, _, a) => u == a || u == t
              case ActivateWallet(t, _, _, a) => u == a || u == t
              case AssignRole(a, t, _) => u == a || u == t
              case _ => false)
    ensures Plan(w, c).Refuse? && Perform(w, c).0 == w
    ensures (match c
             case VerifyRegistration(a, _, _, _) => u == a
             case ActivateRegistration(a, _) => u == a
             case AssignRole(a, _, _) => u == a
             case RegisterDevice(_, _, _, _) => !w.env.evm && Trim(c.deviceId) != "" && Trim(c.credential) != ""
             case RegisterWallet(_, _, x) => Trim(x) != ""
             case RevokeWallet(_, reason, _) => Trim(reason) != ""
             case ActivateWallet(t, _, x, _) => u == t && Trim(x) != ""
             case _ => false) ==> Plan(w, c).error == NotFound
  {
    hide Good, TrimStart, TrimEnd, FindByEmployee, FindUser, FindDevice, FindWallet, ActiveWalletsExcept;
    ResolvedExactly(w, u);
    hide Resolve, NamesNobody, Names;
  }

  // ------------------------------------------------------------- on whose behalf

  /** On whose behalf an effect submits, if it submits. */
  function ActsFor(a: Action): Option<string> {
    match a
    case EnsureIdentityCreated(actor, _, _) => Some(actor)
    case EnsureRoleAssigned(actor, _, _, _) => Some(actor)
    case EnsureWalletActive(actor, _) => Some(actor)
    case EnsureWalletRevoked(actor, _) => Some(actor)
    case Submit(actor, _) => Some(actor)
    case _ => None
  }

  /** The id the caller goes by in a call that may submit. */
  function CallerOf(w: World, c: Call): string {
    match c
    case CreateUser(_, _, given, id, _, _, caller) => if caller.Some? && w.env.evm then caller.value else if given.Some? then given.value else id
    case ActivateRegistration(a, _) => a
    case RevokeDevice(d, caller) =>
      if caller.Some? then caller.value else if d in w.devices.rows then w.devices.rows[d].identityId else ""
    case RevokeWallet(_, _, a) => a
    case ActivateWallet(_, _, _, a) => a
    case AssignRole(a, _, _) => a
    case _ => ""
  }

  predicate AllFor(s: Script, actor: string) {
    forall k :: 0 <= k < |s| && ActsFor(s[k]).Some? ==> ActsFor(s[k]).value == actor
  }

  lemma {:induction false} WalletPartsFor(actor: string, xs: seq<Wallet>)
    ensures AllFor(RevokeOnChain(actor, xs), actor) && AllFor(SaveRevoked(xs), actor) && AllFor(ReplaceWallets(actor, xs), actor)
    decreases |xs|
  {
    if xs != [] { WalletPartsFor(actor, xs[1..]); }
  }

  /** Every submission of a call is made on behalf of the identity its caller's id names. (A
      direct creation outside EVM mode acts for the identity it creates.) */
  lemma ActsForCaller(w: World, c: Call, i: Identity)
    requires Good(w) && Plan(w, c).Go?
    requires if c.CreateUser? && !w.env.evm then i.identityId == CallerOf(w, c) else Names(w, CallerOf(w, c), i)
    ensures AllFor(Plan(w, c).script, i.identityId)
  {
    ResolvedExactly(w, CallerOf(w, c));
    hide Plan, CallerOf, Resolve, Names, NamesNobody, AllFor, Good;
    if c.RevokeDevice? || c.ActivateWallet? {
      WalletCallsFor(w, c, i);
    } else if Submits(c) {
      OtherCallsFor(w, c, i);
    } else {
      SilentCalls(w, c, i.identityId);
    }
  }

  lemma WalletCallsFor(w: World, c: Call, i: Identity)
    requires (c.RevokeDevice? || c.ActivateWallet?) && Plan(w, c).Go? && Resolve(w, CallerOf(w, c)) == Some(i)
    ensures AllFor(Plan(w, c).script, i.identityId)
  {
    hide FindUser, Trim, Resolve, ActiveWalletsOn, ActiveWalletsExcept;
    if c.RevokeDevice? {
      WalletPartsFor(i.identityId, ActiveWalletsOn(w.wallets, w.devices.rows[c.deviceId].identityId, c.deviceId));
    } else {
      WalletPartsFor(i.identityId, ActiveWalletsExcept(w.wallets, Resolve(w, c.userId).value.identityId, w.wallets.rows[Trim(c.address)].address));
    }
    hide RevokeOnChain, SaveRevoked, ReplaceWallets;
  }

  lemma OtherCallsFor(w: World, c: Call, i: Identity)
    requires Submits(c) && Plan(w, c).Go?
    requires if c.CreateUser? && !w.env.evm then i.identityId == CallerOf(w, c) else Resolve(w, CallerOf(w, c)) == Some(i)
    ensures AllFor(Plan(w, c).script, i.identityId)
  {
    hide FindUser, FindWallet, FindDevice, FindByEmployee, Trim, ChainRole, Resolve;
  }

  predicate Submits(c: Call) {
    c.CreateUser? || c.ActivateRegistration? || c.RevokeWallet? || c.AssignRole?
  }

  lemma SilentCalls(w: World, c: Call, actor: string)
    requires !Submits(c) && !c.RevokeDevice? && !c.ActivateWallet? && Plan(w, c).Go?
    ensures AllFor(Plan(w, c).script, actor)
  {
    hide FindUser, FindWallet, FindByEmployee, Trim, Resolve, Backed, SessionLive, Employable, FindWalletOn, PlanCreateUser,
         PlanActivateRegistration, PlanRevokeWallet, PlanAssignRole, PlanRevokeDevice, PlanActivateWallet;
  }

  // ------------------------------------------------------------------ ensure effects

  /** What an ensure effect is to bring about, as a transaction. */
  function Wanted(a: Action): Tx
    requires a.EnsureIdentityCreated? || a.EnsureRoleAssigned? || a.EnsureWalletActive? || a.EnsureWalletRevoked?
  {
    match a
    case EnsureIdentityCreated(_, did, address) => IdentityCreate(address, did)
    case EnsureRoleAssigned(_, did, role, address) => RoleAssign(Some(address), did, role)
    case EnsureWalletActive(_, address) => WalletActivate(address)
    case EnsureWalletRevoked(_, address) => WalletRevoke(address)
  }

  predicate ChainStatus(w: World, address: string, status: Status) {
    OnChain(w.env, address) in w.chain.wallets && w.chain.wallets[OnChain(w.env, address)].status == status
  }

  predicate BoundTo(w: World, address: string, did: string) {
    OnChain(w.env, address) in w.chain.wallets && w.chain.wallets[OnChain(w.env, address)].did == did
  }

  /** In EVM mode an ensure effect is over when the chain has what it wants, is a conflict when
      the chain has the contrary, and submits otherwise; outside it always submits. */
  lemma EnsureExactly(w: World, a: Action)
    requires a.EnsureIdentityCreated? || a.EnsureRoleAssigned? || a.EnsureWalletActive? || a.EnsureWalletRevoked?
    ensures var there := w.env.evm && (match a
              case EnsureIdentityCreated(_, did, address) => BoundTo(w, address, did)
              case EnsureRoleAssigned(_, did, role, _) => ChainRole(w.chain, did) == Some(role)
              case EnsureWalletActive(_, address) => ChainStatus(w, address, Active)
              case EnsureWalletRevoked(_, address) => ChainStatus(w, address, Revoked)
              case _ => false);
      var contrary := w.env.evm && (match a
              case EnsureIdentityCreated(_, did, address) => OnChain(w.env, address) in w.chain.wallets && !BoundTo(w, address, did)
              case EnsureWalletActive(_, address) => ChainStatus(w, address, Revoked)
              case _ => false);
      Exec(w, a) == if there then Done(w) else if contrary then Throw(w, Conflict) else Become(w, Submit(ActsFor(a).value, Wanted(a)))
  {
    hide ChainRole;
  }

  /** The role the chain reports: the first in the shared order of those it holds for an
      identity it knows. */
  lemma ReportedRole(chain: Chain, did: string, n: nat)
    requires n < |ROLES|
    ensures ChainRole(chain, did) == Some(ROLES[n]) <==>
              && (exists a :: a in chain.wallets && chain.wallets[a].did == did) && did in chain.roles
              && ROLES[n] in chain.roles[did] && forall m: nat :: m < n ==> ROLES[m] !in chain.roles[did]
  {
    FirstInOrder(RolesOf(chain, did));
    hide FirstRole;
  }
}
