/** Identifiers that are looked up as given and stored trimmed, or not looked up at all: for
    each of the four calls that do so, exactly when it keeps the records, and a store in
    which it does not. */
module UntrimmedIds {
  import opened Prelude
  import opened IdentityModel
  import opened IdentityInvariant
  import opened IdentityRuns
  import opened RecordPermanence
  import opened WalletSafety

  // ------------------------------------------------------------- registerWallet

  /** A registerWallet that passes its guards keeps the records exactly when the trimmed
      address is new, or names this very pending registration. */
  lemma RegisterWalletExact(w: World, userId: string, deviceId: string, address: string)
    requires Good(w) && PlanRegisterWallet(w, userId, deviceId, address).Go?
    ensures Preserved(w, Perform(w, RegisterWallet(userId, deviceId, address)).0) <==> AddressFree(w, userId, deviceId, address)
    ensures WalletsEvolve(w.wallets.rows, Perform(w, RegisterWallet(userId, deviceId, address)).0.wallets.rows)
            <==> AddressFree(w, userId, deviceId, address)
  {
    hide Good, PlanRegisterWallet, Preserved, Run, AllSettled, DevicesStay;
    var c := RegisterWallet(userId, deviceId, address);
    var x := RunRegisterWallet(w, userId, deviceId, address);
    var w' := Perform(w, c).0;
    assert w'.wallets == w.wallets.Put(x.address, x);
    if AddressFree(w, userId, deviceId, address) {
      CallPreserves(w, c);
      PreservedEvolves(w, w');
    } else {
      var row := w.wallets.rows[x.address];
      assert WalletsEvolve(w.wallets.rows, w'.wallets.rows) ==> x == row.(status := Pending) && row.status == Pending;
      assert row == row.(status := row.status);
      assert !WalletsEvolve(w.wallets.rows, w'.wallets.rows);
      if Preserved(w, w') { PreservedEvolves(w, w'); }
    }
  }

  lemma PreservedEvolves(w: World, w': World)
    requires Preserved(w, w')
    ensures WalletsEvolve(w.wallets.rows, w'.wallets.rows) && DevicesStay(w.devices.rows, w'.devices.rows)
    ensures EmployeesUnique(w'.identities.rows)
  {
    hide UserRows, ActivePlaced, OneActive, Onboarding, SessionsSound, RowWallets;
  }

  // --------------------------------------------------------- verifyRegistration

  /** A verifyRegistration that passes its guards keeps the records exactly when nobody but
      the target holds the trimmed employee id. */
  lemma VerifyRegistrationExact(w: World, c: Call)
    requires Good(w) && c.VerifyRegistration? && VerifyPlan(w, c).Go?
    ensures Preserved(w, Perform(w, c).0) <==> EmployeeIsOwn(w, c.userId, c.employeeId)
    ensures EmployeesUnique(Perform(w, c).0.identities.rows) <==> EmployeeIsOwn(w, c.userId, c.employeeId)
  {
    hide Good, Preserved, AllSettled, DevicesStay, Run, VerifyPlan, EmployeesUnique;
    var w' := Perform(w, c).0;
    var i := RunVerify(w, c);
    if EmployeeIsOwn(w, c.userId, c.employeeId) {
      CallPreserves(w, c);
      PreservedEvolves(w, w');
    } else {
      var k := EmployeeKey(w, Trim(c.employeeId));
      TwoHolders(w'.identities.rows, k, i.identityId);
      if Preserved(w, w') { PreservedEvolves(w, w'); }
    }
  }

  lemma RunVerify(w: World, c: Call) returns (i: Identity)
    requires Good(w) && c.VerifyRegistration? && VerifyPlan(w, c).Go?
    ensures Resolve(w, c.userId).Some? && i.identityId == Resolve(w, c.userId).value.identityId && i.employeeId == Some(Trim(c.employeeId))
    ensures Perform(w, c) == (w.(identities := w.identities.Put(i.identityId, i)), Ok)
    ensures Plan(w, c) == VerifyPlan(w, c)
  {
    hide Good, Resolve, FindByEmployee, RunFrom, Trim;
    var s := VerifyPlan(w, c).script;
    i := s[0].identity;
    RunSaveIdentity(w, s, 0);
    RunEnd(w.(identities := w.identities.Put(i.identityId, i)), s);
  }

  /** Where the holder of an employee id is stored. */
  lemma EmployeeKey(w: World, e: string) returns (k: string)
    requires Good(w) && FindByEmployee(w.identities, e).Some?
    ensures k in w.identities.rows && w.identities.rows[k] == FindByEmployee(w.identities, e).value
    ensures w.identities.rows[k].identityId == k && w.identities.rows[k].employeeId == Some(e)
  {
    hide UserRows, ActivePlaced, OneActive, Onboarding, SessionsSound, RowWallets, EmployeesUnique;
    var i := FindByEmployee(w.identities, e).value;
    k :| k in w.identities.rows && w.identities.rows[k] == i;
  }

  lemma TwoHolders(ids: Identities, k: string, l: string)
    requires k in ids && l in ids && k != l && ids[k].employeeId.Some? && ids[k].employeeId == ids[l].employeeId
    ensures !EmployeesUnique(ids)
  {
  }

  // ---------------------------------------------------------- initializeAccount

  /** An initializeAccount that passes its guards keeps the records exactly when each of its
      three identifiers is free once trimmed; each failure costs what it overwrites. */
  lemma InitializeAccountExact(w: World, c: Call)
    requires Good(w) && FreshIds(w, c) && c.InitializeAccount? && InitializePlan(w, c).Go?
    ensures var w' := Perform(w, c).0;
      && (Preserved(w, w') <==> IdsFree(w, c))
      && (EmployeesUnique(w'.identities.rows) <==> EmployeeFree(w, c.employeeId))
      && (DevicesStay(w.devices.rows, w'.devices.rows) <==> Trim(c.deviceId) !in w.devices.rows)
      && (WalletsEvolve(w.wallets.rows, w'.wallets.rows) <==> Trim(c.walletAddress) !in w.wallets.rows)
  {
    hide Good, Preserved, AllSettled, Run, InitializePlan, EmployeesUnique, EmployeeFree, Trim;
    var i, d, x := RunInitializeAccount(w, c);
    var w' := Perform(w, c).0;
    if IdsFree(w, c) { CallPreserves(w, c); }
    if Preserved(w, w') { PreservedEvolves(w, w'); }
    InitializedEmployees(w, c, i);
    OwnersKnown(w);
    SameEvolves(w.wallets.rows);
  }

  lemma RunInitializeAccount(w: World, c: Call) returns (i: Identity, d: Device, x: Wallet)
    requires c.InitializeAccount? && InitializePlan(w, c).Go?
    ensures i == Identity(c.freshId, if Blank(c.employeeId) then None else Some(Trim(c.employeeId)), None, Trim(c.department), Pending, None)
    ensures d == Device(Trim(c.deviceId), c.freshId, Pending, c.publicKey)
    ensures x == Wallet(Trim(c.walletAddress), c.freshId, d.deviceId, Pending, c.publicKey)
    ensures Plan(w, c) == InitializePlan(w, c)
    ensures var w' := Perform(w, c).0;
      && w'.identities == w.identities.Put(i.identityId, i) && w'.devices == w.devices.Put(d.deviceId, d)
      && w'.wallets == w.wallets.Put(x.address, x)
  {
    hide FindByEmployee, RunFrom, Trim;
    var s := InitializePlan(w, c).script;
    i, d, x := s[1].identity, s[2].device, s[3].wallet;
    RunConsume(w, s, 0);
    var w1 := w.(challenges := w.challenges[c.challengeId := w.challenges[c.challengeId].(used := true)]);
    RunSaveIdentity(w1, s, 1);
    var w2 := w1.(identities := w1.identities.Put(i.identityId, i), granted := Logged(w1.granted, s[1].grant));
    RunSaveDevice(w2, s, 2);
    var w3 := w2.(devices := w2.devices.Put(d.deviceId, d));
    RunSaveWallet(w3, s, 3);
    RunEnd(w3.(wallets := w3.wallets.Put(x.address, x)), s);
  }

  lemma InitializedEmployees(w: World, c: Call, i: Identity)
    requires Good(w) && FreshIds(w, c) && c.InitializeAccount? && i.identityId == c.freshId
    requires i.employeeId == if Blank(c.employeeId) then None else Some(Trim(c.employeeId))
    ensures EmployeesUnique(w.identities.rows[i.identityId := i]) <==> EmployeeFree(w, c.employeeId)
  {
    hide UserRows, ActivePlaced, OneActive, Onboarding, SessionsSound, RowWallets, Trim;
    if !EmployeeFree(w, c.employeeId) {
      var k := EmployeeKey(w, Trim(c.employeeId));
      TwoHolders(w.identities.rows[i.identityId := i], k, i.identityId);
    }
  }

  lemma OwnersKnown(w: World)
    requires Good(w)
    ensures forall d :: d in w.devices.rows ==> w.devices.rows[d].identityId in w.identities.rows
    ensures forall a :: a in w.wallets.rows ==> w.wallets.rows[a].identityId in w.identities.rows
  {
    hide UserRows, ActivePlaced, OneActive, Onboarding, SessionsSound, RowWallets, EmployeesUnique;
  }

  // ----------------------------------------------------- createUser with an empty id

  /** An empty identity id is not looked up. A creation under it that passes its guards keeps
      the records exactly when nobody holds it, or somebody whose rows fit the new identity. */
  lemma EmptyIdExact(w: World, c: Call)
    requires Good(w) && FreshIds(w, c) && c.CreateUser? && c.givenId == Some("") && CreateUserPlan(w, c).Go?
    requires w.env.evm ==> ChainRole(w.chain, "").None?
    ensures Preserved(w, Perform(w, c).0) <==>
              Replaceable(w.identities.rows, w.users.rows, w.devices.rows, "", c.employeeId, c.status)
  {
    hide Good, Preserved, DevicesStay, PlanCreateUser, Run, RunFrom, Replaceable;
    if Replaceable(w.identities.rows, w.users.rows, w.devices.rows, "", c.employeeId, c.status) {
      CallPreserves(w, c);
    } else {
      var w' := Perform(w, c).0;
      var i := PlannedOverwrite(w, c);
      RunOverwrite(w, CreateUserPlan(w, c).script, i, ToUser(i, ""));
      IllReplaced(w.identities.rows, w.users.rows, w.devices.rows, w.wallets.rows, i);
      if Preserved(w, w') { PreservedParts(w, w'); }
    }
  }

  lemma PreservedParts(w: World, w': World)
    requires Preserved(w, w')
    ensures UserRows(w'.identities.rows, w'.users.rows) && AllSettled(w.identities.rows, w'.identities.rows)
    ensures Onboarding(w'.identities.rows, w'.users.rows, w'.devices.rows, w'.wallets.rows)
  {
    hide EmployeesUnique, ActivePlaced, OneActive, SessionsSound, RowWallets;
  }

  /** Who may not be replaced shows what the replacement breaks. */
  lemma IllReplaced(ids: Identities, us: Users, ds: Devices, xs: Wallets, i: Identity)
    requires i.employeeId.Some? && !Replaceable(ids, us, ds, i.identityId, i.employeeId.value, i.status)
    requires i.identityId in ids ==> ids[i.identityId].employeeId != i.employeeId
    ensures var ids', us' := ids[i.identityId := i], us[i.employeeId.value := ToUser(i, "")];
            AllSettled(ids, ids') && UserRows(ids', us') ==> !Onboarding(ids', us', ds, xs)
  {
    var ids', us' := ids[i.identityId := i], us[i.employeeId.value := ToUser(i, "")];
    if ids[i.identityId].status != Pending {
      assert !StaysSettled(ids, ids', i.identityId);
    } else if i.status == Pending {
      var d :| d in ds && ds[d].identityId == i.identityId && ds[d].status == Pending;
      assert us'[i.employeeId.value].identityId == i.identityId;
    } else {
      var k :| k in us && us[k].identityId == i.identityId && k != i.employeeId.value;
      assert us'[k].identityId == i.identityId;
    }
  }

  lemma RunOverwrite(w: World, s: Script, i: Identity, u: User)
    requires 2 <= |s| && s[0] == SaveIdentity(i, None) && s[1] == SaveUser(u) && forall k :: 2 <= k < |s| ==> OnChainOnly(s[k])
    ensures SameRecords(w.(identities := w.identities.Put(i.identityId, i), users := w.users.Put(u.employeeId, u)), Run(w, s).0)
  {
    hide RunFrom;
    RunSaveIdentity(w, s, 0);
    var w1 := w.(identities := w.identities.Put(i.identityId, i));
    RunSaveUser(w1, s, 1);
    var w2 := RunOnChain(w1.(users := w1.users.Put(u.employeeId, u)), s, 2, |s|);
    RunEnd(w2, s);
  }

  lemma PlannedOverwrite(w: World, c: Call) returns (i: Identity)
    requires Good(w) && c.CreateUser? && CreateUserPlan(w, c).Go? && c.givenId == Some("")
    requires w.env.evm ==> ChainRole(w.chain, "").None?
    ensures i == Identity("", Some(c.employeeId), Some(c.role), c.department, c.status, None) && !w.env.evm
    ensures "" in w.identities.rows ==> w.identities.rows[""].employeeId != Some(c.employeeId)
    ensures var s := CreateUserPlan(w, c).script;
            2 <= |s| && s[0] == SaveIdentity(i, None) && s[1] == SaveUser(ToUser(i, ""))
            && forall k :: 2 <= k < |s| ==> OnChainOnly(s[k])
  {
    hide RecordsSound, SessionsSound, ChainRole;
    i := Identity("", Some(c.employeeId), Some(c.role), c.department, c.status, None);
  }

  /** In EVM mode such a creation is refused: the registry binds nobody to the empty id, in
      any run of calls. */
  lemma {:induction false} EmptyIdNeverBound(w: World, calls: seq<Call>)
    requires !KnownDid(w.chain, "")
    ensures var v := PerformAll(w, calls); !KnownDid(v.chain, "") && ChainRole(v.chain, "").None?
    decreases |calls|
  {
    hide Perform, KnownDid;
    if calls != [] {
      CallUnbound(w, calls[0]);
      EmptyIdNeverBound(Perform(w, calls[0]).0, calls[1..]);
    }
  }

  lemma CallUnbound(w: World, c: Call)
    requires !KnownDid(w.chain, "")
    ensures !KnownDid(Perform(w, c).0.chain, "")
  {
    hide Plan, KnownDid;
    if Plan(w, c).Go? { RunUnbound(w, Plan(w, c).script, 0); }
  }

  lemma {:induction false} RunUnbound(w: World, s: Script, i: nat)
    requires i <= |s| && !KnownDid(w.chain, "")
    ensures !KnownDid(RunFrom(w, s, i).0.chain, "")
    decreases |s| - i
  {
    hide KnownDid, Complete;
    if i < |s| {
      CompleteUnbound(w, s[i]);
      RunUnbound(Complete(w, s[i]).0, s, i + 1);
    }
  }

  lemma {:induction false} CompleteUnbound(w: World, a: Action)
    requires !KnownDid(w.chain, "")
    ensures !KnownDid(Complete(w, a).0.chain, "")
    decreases Weight(a)
  {
    hide KnownDid, Apply, FindUser, ChainRole, SendStep;
    if a.Send? {
      SendUnbound(w, a.sender, a.tx);
      assert Exec(w, a) == SendStep(w, a.sender, a.tx);
    } else if Exec(w, a).Become? {
      CompleteUnbound(w, Exec(w, a).next);
    }
  }

  lemma SendUnbound(w: World, sender: string, tx: Tx)
    requires !KnownDid(w.chain, "")
    ensures !SendStep(w, sender, tx).Become? && !KnownDid(SendStep(w, sender, tx).w.chain, "")
  {
    hide Apply, AsSent, OnChain;
    var chain := w.chain.(submissions := w.chain.submissions + 1);
    ApplyUnbound(chain, OnChain(w.env, sender), AsSent(w.env, tx));
  }

  lemma ApplyUnbound(chain: Chain, sender: string, tx: Tx)
    requires !KnownDid(chain, "")
    ensures Apply(chain, sender, tx).Some? ==> !KnownDid(Apply(chain, sender, tx).value, "")
  {
    hide MayCall, RolesOf;
  }

  // ------------------------------------------------------------------ all calls

  /** Over all calls that pass their guards: the records are preserved exactly when the
      identifiers are free as stored. */
  lemma PreservedExactly(w: World, c: Call)
    requires Good(w) && FreshIds(w, c) && Plan(w, c).Go?
    requires w.env.evm ==> ChainRole(w.chain, "").None?
    ensures Preserved(w, Perform(w, c).0) <==> IdsFree(w, c)
  {
    hide Good, Preserved, Perform, FindByEmployee, Resolve, Trim, PlanCreateUser, PlanInitializeAccount, PlanVerifyRegistration,
         PlanRegisterWallet, ChainRole, Replaceable;
    if IdsFree(w, c) {
      CallPreserves(w, c);
    } else {
      match c
      case CreateUser(_, _, _, _, _, _, _) => EmptyIdExact(w, c);
      case InitializeAccount(_, _, _, _, _, _, _, _, _, _, _) => InitializeAccountExact(w, c);
      case VerifyRegistration(_, _, _, _) => VerifyRegistrationExact(w, c);
      case RegisterWallet(u, d, x) => RegisterWalletExact(w, u, d, x);
    }
  }

  /** Two creations in a fresh store, both with an empty identity id: the second replaces the
      first identity. */
  lemma EmptyIdOverwrites(env: Env, chain: Chain, first: Call, second: Call)
    requires !env.evm && first.CreateUser? && second.CreateUser? && first.givenId == second.givenId == Some("")
    requires first.employeeId != "" && second.employeeId != "" && first.employeeId != second.employeeId && first.status != Pending
    ensures var w := Perform(EmptyStore(env, chain), first).0; var w' := Perform(w, second).0;
      && Good(w) && CreateUserPlan(w, second).Go? && !Preserved(w, w')
      && "" in w.identities.rows && w.identities.rows[""].employeeId == Some(first.employeeId)
      && "" in w'.identities.rows && w'.identities.rows[""].employeeId == Some(second.employeeId)
  {
    hide Good, Preserved, Run, RunFrom, Replaceable, PlanCreateUser;
    var w0 := EmptyStore(env, chain);
    EmptyStoreGood(env, chain);
    PassesUnder(w0, first);
    var i := PlannedOverwrite(w0, first);
    RunOverwrite(w0, CreateUserPlan(w0, first).script, i, ToUser(i, ""));
    NobodyHeld(w0, first);
    CallPreserves(w0, first);
    var w := Perform(w0, first).0;
    PreservedGood(w0, w);
    PassesUnder(w, second);
    var j := PlannedOverwrite(w, second);
    RunOverwrite(w, CreateUserPlan(w, second).script, j, ToUser(j, ""));
    OverwrittenLost(w, Perform(w, second).0);
  }

  lemma NobodyHeld(w: World, c: Call)
    requires c.CreateUser? && c.givenId == Some("") && w.identities.rows == map[]
    ensures FreshIds(w, c) && IdsFree(w, c)
  {
  }

  lemma PassesUnder(w: World, c: Call)
    requires c.CreateUser? && c.givenId == Some("") && c.employeeId != "" && !w.env.evm
    requires forall k :: k in w.identities.rows ==> w.identities.rows[k].employeeId != Some(c.employeeId)
    ensures CreateUserPlan(w, c).Go?
  {
  }

  lemma OverwrittenLost(w: World, w': World)
    requires "" in w.identities.rows && "" in w'.identities.rows && w.identities.rows[""].status != Pending
    requires w.identities.rows[""].employeeId != w'.identities.rows[""].employeeId
    ensures !Preserved(w, w')
  {
    hide Kept, DevicesStay;
    assert !StaysSettled(w.identities.rows, w'.identities.rows, "");
  }

  // ---------------------------------------------------------------- failing stores

  /** Outside EVM mode; nothing else about the environment matters here. */
  predicate Lenient(env: Env) {
    !env.evm && env.proves("n", "k2", "s")
  }

  const EMPTY_CHAIN := Chain(map[], map[], [], 0)

  /** An administrator with an active wallet, somebody onboarding, and an unused
      challenge. */
  function Office(env: Env): World {
    World(env,
          Table(["i", "j"], map["i" := Identity("i", Some("e"), Some(ADMIN), "dep", Active, None),
                                "j" := Identity("j", None, None, "", Pending, None)]),
          Table(["e"], map["e" := User("e", "i", "a", ADMIN, Active)]),
          Table(["d"], map["d" := Device("d", "i", Active, "k")]),
          Table(["a"], map["a" := Wallet("a", "i", "d", Active, "k")]),
          map["c" := Challenge("c", "d" + " ", "n", WalletInitialization, 10, false, None)],
          map[], map[], EMPTY_CHAIN, map[], [])
  }

  lemma OfficeGood(env: Env)
    ensures Good(Office(env))
  {
    var w := Office(env);
    OfficeTables(env);
    OfficePlaces(env);
    OfficeOnboarding(env);
    hide Office, Keyed, EmployeesUnique, UserRows, RowWallets, ActivePlaced, OneActive, Onboarding;
    assert RecordsSound(w.identities.rows, w.users.rows, w.devices.rows, w.wallets.rows);
  }

  lemma OfficeTables(env: Env)
    ensures var w := Office(env);
      && TablesValid(w) && SessionsSound(w.wallets.rows, w.sessions, w.issued)
      && Keyed(w.identities.rows, w.users.rows, w.devices.rows, w.wallets.rows) && EmployeesUnique(w.identities.rows)
  {
  }

  lemma OfficePlaces(env: Env)
    ensures var w := Office(env);
      && UserRows(w.identities.rows, w.users.rows) && RowWallets(w.users.rows, w.wallets.rows)
      && ActivePlaced(w.identities.rows, w.users.rows, w.devices.rows, w.wallets.rows) && OneActive(w.wallets.rows)
  {
    hide TablesValid, SessionsSound;
  }

  lemma OfficeOnboarding(env: Env)
    ensures var w := Office(env); Onboarding(w.identities.rows, w.users.rows, w.devices.rows, w.wallets.rows)
  {
  }

  lemma TrimEnds(s: string)
    requires s in ["a", "e", "d"]
    ensures Trim(s + " ") == s && !Blank(s + " ") && s + " " != s
  {
    var t := s + " ";
    assert TrimStart(t) == t;
    assert t[..1] == s;
    assert TrimEnd(t) == TrimEnd(s) == s;
    assert |t| != |s|;
  }

  /** Registering one's own active address once more, with a space after it, takes the active
      wallet back to PENDING. */
  lemma RegisterWalletReverts(env: Env)
    requires !env.evm
    ensures Good(Office(env)) && PlanRegisterWallet(Office(env), "i", "d", "a" + " ").Go?
    ensures !Preserved(Office(env), Perform(Office(env), RegisterWallet("i", "d", "a" + " ")).0)
    ensures Perform(Office(env), RegisterWallet("i", "d", "a" + " ")).0.wallets.Get("a") == Some(Wallet("a", "i", "d", Pending, "k"))
  {
    hide Preserved, Good, Trim, Run;
    var w := Office(env);
    OfficeGood(env);
    TrimEnds("a");
    RegisterWalletExact(w, "i", "d", "a" + " ");
    var x := RunRegisterWallet(w, "i", "d", "a" + " ");
  }

  lemma NobodyElse(env: Env, e: string)
    ensures e != "e" ==> FindByEmployee(Office(env).identities, e).None?
    ensures FindByEmployee(Office(env).identities, "e") == Some(Office(env).identities.rows["i"])
  {
    var t := Office(env).identities;
    assert t.Valid() && "i" in t.rows && t.rows["i"].employeeId == Some("e");
    assert forall k :: k in t.rows && t.rows[k].employeeId.Some? ==> k == "i";
  }

  /** Verifying a registration under a colleague's employee id, with a space after it, gives
      the id to two identities. */
  lemma VerifyRegistrationDuplicates(env: Env)
    ensures var w, c := Office(env), VerifyRegistration("i", "j", "e" + " ", "dep");
      && Good(w) && VerifyPlan(w, c).Go? && !Preserved(w, Perform(w, c).0)
      && !EmployeesUnique(Perform(w, c).0.identities.rows)
  {
    hide Preserved, Good, Trim, Run, FindByEmployee, EmployeesUnique;
    var w, c := Office(env), VerifyRegistration("i", "j", "e" + " ", "dep");
    OfficeGood(env);
    NobodyElse(env, "e" + " ");
    TrimEnds("e");
    NotBlank("dep");
    VerifyRegistrationExact(w, c);
  }

  /** Initializing an account on a colleague's device id, with a space after it, takes the
      device over. */
  lemma InitializeAccountOverwrites(env: Env)
    requires Lenient(env)
    ensures var w, c := Office(env), InitializeAccount("f", "", "", "d" + " ", "k2", "b", "c", "s", true, "new", 0);
      && Good(w) && InitializePlan(w, c).Go? && !Preserved(w, Perform(w, c).0)
      && !DevicesStay(w.devices.rows, Perform(w, c).0.devices.rows)
  {
    hide Preserved, Good, Trim, Run, FindByEmployee, DevicesStay;
    var w, c := Office(env), InitializeAccount("f", "", "", "d" + " ", "k2", "b", "c", "s", true, "new", 0);
    OfficeGood(env);
    TrimEnds("d");
    NotBlank("f");
    NotBlank("k2");
    NotBlank("b");
    NotBlank("c");
    NotBlank("s");
    InitializeAccountExact(w, c);
  }

  lemma NotBlank(s: string)
    requires s != "" && !IsSpace(s[0]) && !IsSpace(s[|s| - 1])
    ensures !Blank(s)
  {
  }
}
