/** What every identity call keeps. Each call is one atomic step here; generated
    identifiers are fresh, and identifiers are free in the form in which they are stored. */
module IdentityInvariant {
  import opened Prelude
  import opened IdentityModel

  // ---------------------------------------------------------------- invariant

  type Identities = map<string, Identity>
  type Users = map<string, User>
  type Devices = map<string, Device>
  type Wallets = map<string, Wallet>

  ghost predicate Keyed(ids: Identities, us: Users, ds: Devices, xs: Wallets) {
    && (forall k :: k in ids ==> ids[k].identityId == k)
    && (forall k :: k in us ==> us[k].employeeId == k && us[k].identityId in ids)
    && (forall k :: k in ds ==> ds[k].deviceId == k && ds[k].identityId in ids)
    && (forall k :: k in xs ==> k != "" && xs[k].address == k && xs[k].identityId in ids)
  }

  ghost predicate EmployeesUnique(ids: Identities) {
    forall i, j :: (i in ids && j in ids && ids[i].employeeId.Some? && ids[i].employeeId == ids[j].employeeId) ==> i == j
  }

  /** An identity past onboarding owns exactly one user row, under its employee id. */
  ghost predicate OwnsRow(us: Users, id: string, employeeId: string) {
    && employeeId in us && us[employeeId].identityId == id
    && forall k :: k in us && us[k].identityId == id ==> k == employeeId
  }

  ghost predicate UserRows(ids: Identities, us: Users) {
    forall id :: id in ids && ids[id].status != Pending ==>
      ids[id].employeeId.Some? && OwnsRow(us, id, ids[id].employeeId.value)
  }

  /** The address in a user row, when there is one, is a wallet of the same identity. */
  ghost predicate RowWallets(us: Users, xs: Wallets) {
    forall k :: k in us && us[k].walletAddress != "" ==>
      us[k].walletAddress in xs && xs[us[k].walletAddress].identityId == us[k].identityId
  }

  /** An active wallet sits on an active device of its identity, whose user row names it. */
  ghost predicate Placed(ids: Identities, us: Users, ds: Devices, x: Wallet) {
    && x.deviceId in ds && ds[x.deviceId].status == Active && ds[x.deviceId].identityId == x.identityId
    && x.identityId in ids && ids[x.identityId].status != Pending && ids[x.identityId].employeeId.Some?
    && ids[x.identityId].employeeId.value in us
    && us[ids[x.identityId].employeeId.value].walletAddress == x.address
  }

  ghost predicate ActivePlaced(ids: Identities, us: Users, ds: Devices, xs: Wallets) {
    forall a :: a in xs && xs[a].status == Active ==> Placed(ids, us, ds, xs[a])
  }

  ghost predicate OneActive(xs: Wallets) {
    forall a, b :: (a in xs && b in xs && xs[a].status == Active && xs[b].status == Active
                    && xs[a].identityId == xs[b].identityId) ==> a == b
  }

  predicate IsOnboarding(ids: Identities, id: string) {
    id in ids && ids[id].status == Pending
  }

  /** While an identity is onboarding and its device is pending, it has no user row, and
      that device is the one its pending wallet names. */
  ghost predicate Onboarding(ids: Identities, us: Users, ds: Devices, xs: Wallets) {
    && (forall d, k :: (d in ds && ds[d].status == Pending && IsOnboarding(ids, ds[d].identityId) && k in us) ==>
          us[k].identityId != ds[d].identityId)
    && (forall d, a :: (d in ds && ds[d].status == Pending && IsOnboarding(ids, ds[d].identityId)
                        && a in xs && xs[a].status == Pending && xs[a].identityId == ds[d].identityId) ==>
          xs[a].deviceId == d)
  }

  ghost predicate RecordsSound(ids: Identities, us: Users, ds: Devices, xs: Wallets) {
    && Keyed(ids, us, ds, xs) && EmployeesUnique(ids) && UserRows(ids, us) && RowWallets(us, xs)
    && ActivePlaced(ids, us, ds, xs) && OneActive(xs) && Onboarding(ids, us, ds, xs)
  }

  /** A session names the wallet it was issued on, which was active then. */
  ghost predicate SessionSound(xs: Wallets, s: Session) {
    && s.walletAddress in xs
    && xs[s.walletAddress].status != Pending
    && xs[s.walletAddress].identityId == s.identityId
    && xs[s.walletAddress].deviceId == s.deviceId
  }

  ghost predicate SessionsSound(xs: Wallets, live: map<string, Session>, issued: map<string, Session>) {
    && (forall t :: t in live ==> t in issued && issued[t] == live[t])
    && (forall t :: t in issued ==> issued[t].token == t && SessionSound(xs, issued[t]))
  }

  ghost predicate TablesValid(w: World) {
    w.identities.Valid() && w.users.Valid() && w.devices.Valid() && w.wallets.Valid()
  }

  ghost predicate Good(w: World) {
    && TablesValid(w)
    && RecordsSound(w.identities.rows, w.users.rows, w.devices.rows, w.wallets.rows)
    && SessionsSound(w.wallets.rows, w.sessions, w.issued)
  }

  /** PENDING -> ACTIVE -> REVOKED, one step at a time. */
  predicate Advances(before: Status, after: Status) {
    before == after || (before == Pending && after == Active) || (before == Active && after == Revoked)
  }

  /** A wallet row never disappears, never moves, and only advances. */
  ghost predicate WalletsEvolve(xs: Wallets, xs': Wallets) {
    forall a :: a in xs ==>
      a in xs' && xs'[a] == xs[a].(status := xs'[a].status) && Advances(xs[a].status, xs'[a].status)
  }

  // --------------------------------------------------------------- hypotheses

  /** Three calls look an identifier up as it was given and store it trimmed: it is free
      when the trimmed form is, or is the caller's own already. A given identity id that is
      empty is not looked up at all, so whoever holds it must be replaceable. Any other call
      stores what it looked up. */
  predicate IdsFree(w: World, c: Call) {
    match c
    case InitializeAccount(_, e, _, d, _, x, _, _, _, _, _) =>
      EmployeeFree(w, e) && Trim(d) !in w.devices.rows && Trim(x) !in w.wallets.rows
    case VerifyRegistration(_, u, e, _) => EmployeeIsOwn(w, u, e)
    case RegisterWallet(u, d, x) => AddressFree(w, u, d, x)
    case CreateUser(e, _, given, _, _, status, _) =>
      given == Some("") ==> Replaceable(w.identities.rows, w.users.rows, w.devices.rows, "", e, status)
    case _ => true
  }

  /** An identity id nobody holds, or somebody still onboarding, whose pending device and
      whose user rows agree with an identity of this status and employee id. */
  predicate Replaceable(ids: Identities, us: Users, ds: Devices, id: string, employeeId: string, status: Status) {
    id in ids ==>
      && ids[id].status == Pending
      && if status == Pending then forall d :: d in ds && ds[d].identityId == id ==> ds[d].status != Pending
         else forall k :: k in us && us[k].identityId == id ==> k == employeeId
  }

  predicate EmployeeFree(w: World, employeeId: string) {
    Blank(employeeId) || FindByEmployee(w.identities, Trim(employeeId)).None?
  }

  predicate EmployeeIsOwn(w: World, userId: string, employeeId: string) {
    var other := FindByEmployee(w.identities, Trim(employeeId));
    var target := Resolve(w, userId);
    other.None? || (target.Some? && other.value.identityId == target.value.identityId)
  }

  /** New, or registered for this very identity, device and key and still pending. */
  predicate AddressFree(w: World, userId: string, deviceId: string, address: string) {
    Trim(address) in w.wallets.rows ==>
      && Resolve(w, userId).Some? && deviceId in w.devices.rows
      && w.wallets.rows[Trim(address)]
         == Wallet(Trim(address), Resolve(w, userId).value.identityId, deviceId, Pending, w.devices.rows[deviceId].publicKey)
  }

  predicate FreshIds(w: World, c: Call) {
    match c
    case CreateUser(_, _, _, id, _, _, _) => id !in w.identities.rows
    case RequestProvisioning(_, _, id, _, _) => id !in w.challenges
    case InitializeAccount(_, _, _, _, _, _, _, _, _, id, _) => id !in w.identities.rows
    case RequestAuthentication(_, id, _, _) => id !in w.challenges
    case LoginWithProof(_, _, _, _, t, _, _) => t !in w.issued
    case LoginWithCredential(_, _, t, _, _) => t !in w.issued
    case RequestFresh(_, _, _, id, _, _) => id !in w.challenges
    case _ => true
  }

  // ------------------------------------------------------- running the scripts

  predicate OnChainOnly(a: Action) {
    a.EnsureIdentityCreated? || a.EnsureRoleAssigned? || a.EnsureWalletActive? || a.EnsureWalletRevoked?
    || a.Submit? || a.CheckSender? || a.Send?
  }

  /** Two worlds that differ at most in their chain. */
  ghost predicate SameRecords(w: World, w': World) {
    w' == w.(chain := w'.chain)
  }

  lemma ExecOnChain(w: World, a: Action)
    requires OnChainOnly(a)
    ensures SameRecords(w, Exec(w, a).w) && (Exec(w, a).Become? ==> OnChainOnly(Exec(w, a).next))
  {
    hide SendStep, FindUser, ChainRole;
    if a.Send? {
      SendOnChain(w, a.sender, a.tx);
      assert Exec(w, a) == SendStep(w, a.sender, a.tx);
    }
  }

  lemma SendOnChain(w: World, sender: string, tx: Tx)
    ensures SameRecords(w, SendStep(w, sender, tx).w) && !SendStep(w, sender, tx).Become?
  {
    hide Apply;
  }

  lemma {:induction false} CompleteOnChain(w: World, a: Action)
    requires OnChainOnly(a)
    ensures SameRecords(w, Complete(w, a).0)
    decreases Weight(a)
  {
    ExecOnChain(w, a);
    if Exec(w, a).Become? {
      assert Weight(Exec(w, a).next) < Weight(a);
      hide Exec;
      CompleteOnChain(Exec(w, a).w, Exec(w, a).next);
    }
  }

  /** A prefix of chain effects either fails, or hands the records over untouched. */
  lemma {:induction false} RunOnChain(w: World, s: Script, i: nat, n: nat) returns (w': World)
    requires i <= n <= |s|
    requires forall k :: i <= k < n ==> OnChainOnly(s[k])
    ensures SameRecords(w, w')
    ensures || (RunFrom(w, s, i).0 == w' && RunFrom(w, s, i).1 != Ok)
            || RunFrom(w, s, i) == RunFrom(w', s, n)
    decreases n - i
  {
    if i == n { return w; }
    CompleteOnChain(w, s[i]);
    var (w1, r) := Complete(w, s[i]);
    if r != Ok { return w1; }
    w' := RunOnChain(w1, s, i + 1, n);
  }

  lemma {:induction false} RunAppendFrom(w: World, s: Script, t: Script, i: nat)
    requires i <= |s|
    ensures RunFrom(w, s + t, i)
         == (var (w', r) := RunFrom(w, s, i); if r == Ok then RunFrom(w', s + t, |s|) else (w', r))
    decreases |s| - i
  {
    if i < |s| {
      assert (s + t)[i] == s[i];
      RunAppendFrom(Complete(w, s[i]).0, s, t, i + 1);
    }
  }

  lemma {:induction false} RunShift(w: World, s: Script, t: Script, j: nat)
    requires j <= |t|
    ensures RunFrom(w, s + t, |s| + j) == RunFrom(w, t, j)
    decreases |t| - j
  {
    if j < |t| {
      assert (s + t)[|s| + j] == t[j];
      RunShift(Complete(w, t[j]).0, s, t, j + 1);
    }
  }

  lemma {:induction false} RunAppend(w: World, s: Script, t: Script)
    ensures Run(w, s + t) == (var (w', r) := Run(w, s); if r == Ok then Run(w', t) else (w', r))
  {
    RunAppendFrom(w, s, t, 0);
    RunShift(RunFrom(w, s, 0).0, s, t, 0);
  }

  // ------------------------------------------------------ changes to the tables

  /** Sessions survive any change that keeps wallets in place and advancing. */
  lemma SessionsEvolve(xs: Wallets, xs': Wallets, live: map<string, Session>, issued: map<string, Session>)
    requires SessionsSound(xs, live, issued) && WalletsEvolve(xs, xs')
    ensures SessionsSound(xs', live, issued)
  {
    forall t | t in issued ensures SessionSound(xs', issued[t]) {
      assert SessionSound(xs, issued[t]);
    }
  }

  lemma RegistrationKeepsOnboarding(ids: Identities, us: Users, ds: Devices, xs: Wallets, i: Identity, d: Device, x: Wallet)
    requires RecordsSound(ids, us, ds, xs)
    requires i.identityId in ids && ids[i.identityId] == i && i.status == Pending && i.employeeId.Some?
    requires d.deviceId in ds && ds[d.deviceId] == d && d.status == Pending && d.identityId == i.identityId
    requires x.address in xs && xs[x.address] == x && x.status == Pending && x.identityId == i.identityId
    ensures var j := i.(status := Active); var u := ToUser(j, x.address);
            Onboarding(ids[i.identityId := j], us[u.employeeId := u], ds[d.deviceId := d.(status := Active)],
                       xs[x.address := x.(status := Active)])
  {
    hide UserRows, RowWallets, ActivePlaced, OneActive;
  }

  lemma RegistrationKeepsRows(ids: Identities, us: Users, ds: Devices, xs: Wallets, i: Identity, d: Device, x: Wallet)
    requires RecordsSound(ids, us, ds, xs)
    requires i.identityId in ids && ids[i.identityId] == i && i.status == Pending && i.employeeId.Some?
    requires d.deviceId in ds && ds[d.deviceId] == d && d.status == Pending && d.identityId == i.identityId
    requires x.address in xs && xs[x.address] == x && x.status == Pending && x.identityId == i.identityId
    ensures var j := i.(status := Active); var u := ToUser(j, x.address); var xs' := xs[x.address := x.(status := Active)];
            Keyed(ids[i.identityId := j], us[u.employeeId := u], ds[d.deviceId := d.(status := Active)], xs')
            && EmployeesUnique(ids[i.identityId := j]) && UserRows(ids[i.identityId := j], us[u.employeeId := u])
            && RowWallets(us[u.employeeId := u], xs')
  {
    hide ActivePlaced, OneActive;
  }

  lemma RegistrationActivated(ids: Identities, us: Users, ds: Devices, xs: Wallets, i: Identity, d: Device, x: Wallet)
    requires RecordsSound(ids, us, ds, xs)
    requires i.identityId in ids && ids[i.identityId] == i && i.status == Pending && i.employeeId.Some?
    requires d.deviceId in ds && ds[d.deviceId] == d && d.status == Pending && d.identityId == i.identityId
    requires x.address in xs && xs[x.address] == x && x.status == Pending && x.identityId == i.identityId
    ensures var j := i.(status := Active); var u := ToUser(j, x.address);
            RecordsSound(ids[i.identityId := j], us[u.employeeId := u], ds[d.deviceId := d.(status := Active)],
                         xs[x.address := x.(status := Active)])
  {
    RegistrationKeepsOnboarding(ids, us, ds, xs, i, d, x);
    RegistrationKeepsRows(ids, us, ds, xs, i, d, x);
    hide Onboarding, RowWallets;
    assert x.deviceId == d.deviceId;
  }

  lemma WalletRevoked(ids: Identities, us: Users, ds: Devices, xs: Wallets, a: string)
    requires RecordsSound(ids, us, ds, xs)
    requires a in xs && (xs[a].status == Active || xs[a].status == Revoked)
    ensures RecordsSound(ids, us, ds, xs[a := xs[a].(status := Revoked)])
    ensures WalletsEvolve(xs, xs[a := xs[a].(status := Revoked)])
  {
    hide UserRows, EmployeesUnique;
  }

  lemma WalletActivated(ids: Identities, us: Users, ds: Devices, xs: Wallets, e: string, a: string)
    requires RecordsSound(ids, us, ds, xs)
    requires a in xs && xs[a].status == Pending
    requires forall b :: b in xs && xs[b].identityId == xs[a].identityId ==> xs[b].status != Active
    requires xs[a].deviceId in ds && ds[xs[a].deviceId].status == Active && ds[xs[a].deviceId].identityId == xs[a].identityId
    requires xs[a].identityId in ids && ids[xs[a].identityId].status == Active
    requires e in us && us[e].identityId == xs[a].identityId
    ensures RecordsSound(ids, us[e := us[e].(walletAddress := a)], ds, xs[a := xs[a].(status := Active)])
  {
    assert OwnsRow(us, xs[a].identityId, ids[xs[a].identityId].employeeId.value);
  }

  lemma DeviceRevoked(ids: Identities, us: Users, ds: Devices, xs: Wallets, d: string)
    requires RecordsSound(ids, us, ds, xs) && d in ds
    requires forall a :: a in xs && xs[a].deviceId == d ==> xs[a].status != Active
    ensures RecordsSound(ids, us, ds[d := ds[d].(status := Revoked)], xs)
  {
  }

  lemma DeviceActivated(ids: Identities, us: Users, ds: Devices, xs: Wallets, d: Device)
    requires RecordsSound(ids, us, ds, xs)
    requires d.identityId in ids && d.status == Active
    requires d.deviceId in ds ==> ds[d.deviceId].identityId == d.identityId
    ensures RecordsSound(ids, us, ds[d.deviceId := d], xs)
  {
  }

  lemma AccountOpenedRows(ids: Identities, us: Users, ds: Devices, xs: Wallets, i: Identity, d: Device, x: Wallet)
    requires RecordsSound(ids, us, ds, xs)
    requires i.identityId !in ids && i.status == Pending && d.deviceId !in ds && x.address !in xs && x.address != ""
    requires i.employeeId.Some? ==> forall k :: k in ids ==> ids[k].employeeId != i.employeeId
    requires d.identityId == i.identityId && x.identityId == i.identityId
    ensures Keyed(ids[i.identityId := i], us, ds[d.deviceId := d], xs[x.address := x])
    ensures EmployeesUnique(ids[i.identityId := i]) && UserRows(ids[i.identityId := i], us)
    ensures RowWallets(us, xs[x.address := x])
  {
    hide ActivePlaced, OneActive, Onboarding;
  }

  lemma AccountOpened(ids: Identities, us: Users, ds: Devices, xs: Wallets, i: Identity, d: Device, x: Wallet)
    requires RecordsSound(ids, us, ds, xs)
    requires i.identityId !in ids && i.status == Pending && d.deviceId !in ds && x.address !in xs && x.address != ""
    requires i.employeeId.Some? ==> forall k :: k in ids ==> ids[k].employeeId != i.employeeId
    requires d.identityId == i.identityId && d.status == Pending
    requires x.identityId == i.identityId && x.deviceId == d.deviceId && x.status == Pending
    ensures RecordsSound(ids[i.identityId := i], us, ds[d.deviceId := d], xs[x.address := x])
  {
    hide UserRows, EmployeesUnique, RowWallets;
    AccountOpenedRows(ids, us, ds, xs, i, d, x);
  }

  lemma UserCreatedRows(ids: Identities, us: Users, ds: Devices, xs: Wallets, i: Identity)
    requires RecordsSound(ids, us, ds, xs)
    requires i.employeeId.Some? && Replaceable(ids, us, ds, i.identityId, i.employeeId.value, i.status)
    requires forall k :: k in ids ==> ids[k].employeeId != i.employeeId
    ensures var us' := us[i.employeeId.value := ToUser(i, "")];
            Keyed(ids[i.identityId := i], us', ds, xs) && EmployeesUnique(ids[i.identityId := i])
            && UserRows(ids[i.identityId := i], us') && RowWallets(us', xs)
  {
    hide ActivePlaced, OneActive, Onboarding;
  }

  lemma UserCreated(ids: Identities, us: Users, ds: Devices, xs: Wallets, i: Identity)
    requires RecordsSound(ids, us, ds, xs)
    requires i.employeeId.Some? && Replaceable(ids, us, ds, i.identityId, i.employeeId.value, i.status)
    requires forall k :: k in ids ==> ids[k].employeeId != i.employeeId
    ensures RecordsSound(ids[i.identityId := i], us[i.employeeId.value := ToUser(i, "")], ds, xs)
  {
    hide UserRows, RowWallets;
    UserCreatedRows(ids, us, ds, xs, i);
  }

  /** Rewriting an onboarding identity, or only the role of any identity. */
  lemma IdentityRewritten(ids: Identities, us: Users, ds: Devices, xs: Wallets, i: Identity)
    requires RecordsSound(ids, us, ds, xs) && i.identityId in ids && i.status == ids[i.identityId].status
    requires i.employeeId == ids[i.identityId].employeeId
          || (i.status == Pending && i.employeeId.Some?
              && forall k :: k in ids && k != i.identityId ==> ids[k].employeeId != i.employeeId)
    ensures RecordsSound(ids[i.identityId := i], us, ds, xs)
  {
  }

  lemma UserRewritten(ids: Identities, us: Users, ds: Devices, xs: Wallets, u: User)
    requires RecordsSound(ids, us, ds, xs)
    requires u.employeeId in us && us[u.employeeId].identityId == u.identityId && us[u.employeeId].walletAddress == u.walletAddress
    ensures RecordsSound(ids, us[u.employeeId := u], ds, xs)
  {
  }

  lemma WalletRegistered(ids: Identities, us: Users, ds: Devices, xs: Wallets, x: Wallet)
    requires RecordsSound(ids, us, ds, xs)
    requires x.address !in xs && x.address != "" && x.status == Pending
    requires x.identityId in ids && ids[x.identityId].status == Active
    ensures RecordsSound(ids, us, ds, xs[x.address := x])
  {
  }
}
