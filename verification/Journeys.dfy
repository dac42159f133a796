/** Whole ways through the services: a newcomer with a device of their own comes to a session
    in seven calls, and a new wallet takes over from an old one. Nothing on the way refuses
    what it should let through. */
module Journeys {
  import opened Prelude
  import opened IdentityModel
  import opened IdentityInvariant
  import opened IdentityRuns
  import opened WalletSafety
  import opened Registration
  import opened Facts
  import opened Outcomes
  import opened SignIns

  /** An EVM chain that processes and answers everything, and an administrator it lets
      onboard identities. */
  ghost predicate Ready(w: World, admin: Identity) {
    && Good(w) && w.env.evm && NoMoreFailures(w) && MayOnboard(w, admin.identityId)
    && IdentityRow(w, admin) && admin.status == Active && admin.role == Some(ADMIN)
  }

  datatype Newcomer = Newcomer(
    id: string, name: string, employeeId: string, department: string, role: Role, device: string, key: string, wallet: string)

  /** Ids that are trimmed and nobody's yet, and a wallet of the device's own key. */
  ghost predicate Unknown(w: World, n: Newcomer) {
    && Canonical(n.employeeId) && Canonical(n.department) && Canonical(n.device) && Canonical(n.wallet)
    && !Blank(n.name) && !Blank(n.key) && n.key != "" && Derived(w.env, n.key, n.wallet)
    && n.id !in w.identities.rows && n.device !in w.devices.rows && n.wallet !in w.wallets.rows
    && (forall k :: k in w.identities.rows ==> w.identities.rows[k].employeeId != Some(n.employeeId))
    && Registrable(n.id) && OnChain(w.env, n.wallet) !in w.chain.wallets && RolesOf(w.chain, n.id) == {}
  }

  /** On file and pending: identity, device and wallet, and no user row yet. */
  ghost predicate OnFile(w: World, n: Newcomer, i: Identity) {
    && i.identityId == n.id && i.status == Pending && i.employeeId == Some(n.employeeId) && i.department == n.department
    && n.id in w.identities.rows && w.identities.rows[n.id] == i
    && OnlyPending(w, n.id, n.device, n.wallet)
    && w.devices.rows[n.device].publicKey == n.key && w.wallets.rows[n.wallet].publicKey == n.key
    && w.wallets.rows[n.wallet].deviceId == n.device
    && (forall e :: !UserIs(w, e, n.id))
  }

  lemma OwnersExist(w: World)
    requires Good(w)
    ensures forall d :: d in w.devices.rows ==> w.devices.rows[d].identityId in w.identities.rows
    ensures forall a :: a in w.wallets.rows ==> w.wallets.rows[a].identityId in w.identities.rows
    ensures forall e :: e in w.users.rows ==> w.users.rows[e].identityId in w.identities.rows
  {
    hide UserRows, ActivePlaced, OneActive, Onboarding, SessionsSound, RowWallets, EmployeesUnique;
  }

  /** The administrator's submissions go out from the same wallet while user rows stay and
      wallets are only added. */
  lemma SenderStays(w: World, w': World, actor: string)
    requires w'.users == w.users && w'.chain == w.chain && w'.env == w.env && MayOnboard(w, actor)
    requires forall a :: a in w.wallets.rows ==> a in w'.wallets.rows && w'.wallets.rows[a] == w.wallets.rows[a]
    ensures MayOnboard(w', actor)
  {
    hide FindUser;
  }

  lemma Provisioned(w: World, admin: Identity, n: Newcomer, h: string, nonce: string, start: int) returns (w': World)
    requires Ready(w, admin) && Unknown(w, n) && h !in w.challenges
    ensures Perform(w, RequestProvisioning(n.device, true, h, nonce, start)) == (w', Ok)
    ensures w' == w.(challenges := w.challenges[h := Challenge(h, n.device, nonce, WalletInitialization, start + 300_000, false, None)])
    ensures Ready(w', admin) && Unknown(w', n)
  {
    hide Good, Perform, TrimStart, TrimEnd;
    var c := RequestProvisioning(n.device, true, h, nonce, start);
    ProvisionExactly(w, n.device, true, h, nonce, start);
    PerformKeeps(w, c);
    w' := Perform(w, c).0;
    SenderStays(w, w', admin.identityId);
    hide MayOnboard;
  }

  function Initialization(n: Newcomer, h: string, signature: string, now: int): Call {
    InitializeAccount(n.name, n.employeeId, n.department, n.device, n.key, n.wallet, h, signature, true, n.id, now)
  }

  lemma Initialized(w: World, admin: Identity, n: Newcomer, h: string, signature: string, now: int) returns (w': World, i: Identity)
    requires Ready(w, admin) && Unknown(w, n) && h in w.challenges && !Blank(h) && !Blank(signature)
    requires var c := w.challenges[h];
      c.purpose == WalletInitialization && !c.used && now < c.expiresAt && c.deviceId == n.device && w.env.proves(c.nonce, n.key, signature)
    ensures Perform(w, Initialization(n, h, signature, now)) == (w', Ok)
    ensures Ready(w', admin) && OnFile(w', n, i) && w'.chain == w.chain && w'.issued == w.issued
    ensures w'.challenges.Keys == w.challenges.Keys && w'.env == w.env
  {
    hide Good, Perform, TrimStart, TrimEnd, Registrable, OnChain, RolesOf;
    hide FindByEmployee, OnFile;
    var c := Initialization(n, h, signature, now);
    InitializeAccountPasses(w, c);
    InitializeAccountExactly(w, c);
    HolderExactly(w, n.employeeId);
    PerformKeeps(w, c);
    w' := Perform(w, c).0;
    i := w'.identities.rows[n.id];
    NowOnFile(w, w', n);
    SenderStaysAdded(w, w', admin.identityId, n.wallet, w'.wallets.rows[n.wallet]);
    hide MayOnboard;
  }

  lemma NowOnFile(w: World, w': World, n: Newcomer)
    requires Good(w) && n.id !in w.identities.rows && n.device !in w.devices.rows && n.wallet !in w.wallets.rows
    requires w'.identities.rows == w.identities.rows[n.id := Identity(n.id, Some(n.employeeId), None, n.department, Pending, None)]
    requires w'.devices.rows == w.devices.rows[n.device := Device(n.device, n.id, Pending, n.key)]
    requires w'.wallets.rows == w.wallets.rows[n.wallet := Wallet(n.wallet, n.id, n.device, Pending, n.key)] && w'.users == w.users
    ensures OnFile(w', n, w'.identities.rows[n.id])
  {
    hide Good;
    OwnersExist(w);
  }

  lemma SenderStaysAdded(w: World, w': World, actor: string, a: string, x: Wallet)
    requires w'.users == w.users && w'.chain == w.chain && w'.env == w.env && MayOnboard(w, actor) && a !in w.wallets.rows
    requires w'.wallets.rows == w.wallets.rows[a := x]
    ensures MayOnboard(w', actor)
  {
    SenderStays(w, w', actor);
  }

  lemma Confirmed(w: World, admin: Identity, n: Newcomer, i: Identity) returns (w': World, j: Identity)
    requires Ready(w, admin) && OnFile(w, n, i) && Canonical(n.employeeId) && Canonical(n.department)
    ensures Perform(w, VerifyRegistration(admin.identityId, n.id, n.employeeId, n.department)) == (w', Ok)
    ensures Ready(w', admin) && OnFile(w', n, j) && w'.chain == w.chain && w'.issued == w.issued && w'.challenges == w.challenges && w'.env == w.env
  {
    hide Good, Perform, TrimStart, TrimEnd;
    var c := VerifyRegistration(admin.identityId, n.id, n.employeeId, n.department);
    HolderExactly(w, n.employeeId);
    VerifyRegistrationExactly(w, admin.identityId, admin, n.id, i, n.employeeId, n.department);
    hide FindByEmployee;
    PerformKeepsVerified(w, c, i);
    w' := Perform(w, c).0;
    j := w'.identities.rows[n.id];
    SenderStays(w, w', admin.identityId);
    StillOnFile(w, w', n, i, j);
    hide MayOnboard, OnFile;
  }

  lemma StillOnFile(w: World, w': World, n: Newcomer, i: Identity, j: Identity)
    requires OnFile(w, n, i) && w' == w.(identities := w'.identities) && w'.identities.rows == w.identities.rows[n.id := j]
    requires j.identityId == n.id && j.status == Pending && j.employeeId == Some(n.employeeId) && j.department == n.department
    ensures OnFile(w', n, j)
  {
    assert forall e :: DeviceIs(w', e, n.id, Pending) <==> DeviceIs(w, e, n.id, Pending);
    assert forall y :: WalletIs(w', y, n.id, Pending) <==> WalletIs(w, y, n.id, Pending);
    assert forall e :: UserIs(w', e, n.id) <==> UserIs(w, e, n.id);
  }

  lemma PerformKeepsVerified(w: World, c: Call, i: Identity)
    requires Good(w) && c.VerifyRegistration? && Names(w, c.userId, i) && Trim(c.employeeId) == c.employeeId && NobodyElse(w, c.employeeId, i.identityId)
    ensures Good(Perform(w, c).0)
  {
    hide Good, Perform, TrimStart, TrimEnd;
    HolderExactly(w, c.employeeId);
    ResolvedExactly(w, c.userId);
    hide Resolve, FindByEmployee;
    PerformKeeps(w, c);
  }

  lemma Appointed(w: World, admin: Identity, n: Newcomer, i: Identity) returns (w': World, j: Identity)
    requires Ready(w, admin) && OnFile(w, n, i)
    ensures Perform(w, AssignRole(admin.identityId, n.id, n.role)) == (w', Ok)
    ensures Ready(w', admin) && OnFile(w', n, j) && j.role == Some(n.role)
    ensures w'.chain == w.chain && w'.issued == w.issued && w'.challenges == w.challenges && w'.env == w.env
  {
    hide Good, Perform;
    var c := AssignRole(admin.identityId, n.id, n.role);
    AssignRoleExactly(w, admin.identityId, admin, n.id, i, n.role);
    PerformKeeps(w, c);
    w' := Perform(w, c).0;
    j := w'.identities.rows[n.id];
    SenderStays(w, w', admin.identityId);
    StillOnFile(w, w', n, i, j);
    hide MayOnboard;
  }

  lemma Completed(w: World, admin: Identity, n: Newcomer, i: Identity) returns (w': World)
    requires Ready(w, admin) && OnFile(w, n, i) && i.role == Some(n.role) && n.key != "" && Derived(w.env, n.key, n.wallet)
    requires n.employeeId != "" && n.department != ""
    requires Registrable(n.id) && OnChain(w.env, n.wallet) !in w.chain.wallets && RolesOf(w.chain, n.id) == {}
    ensures Perform(w, ActivateRegistration(admin.identityId, n.id)) == (w', Ok)
    ensures Good(w') && SignsInOn(w', n.device, n.wallet)
    ensures w'.devices.rows[n.device].publicKey == n.key && w'.devices.rows[n.device].identityId == n.id
    ensures w'.issued == w.issued && w'.challenges == w.challenges && w'.env == w.env
  {
    hide Good, Perform, OnChain, Registrable;
    var c := ActivateRegistration(admin.identityId, n.id);
    ActivateRegistrationExactly(w, admin.identityId, admin, n.id, i, n.device, n.wallet);
    PendingFound(w, n.id, n.device, n.wallet);
    ActivationPlanned(w, admin, n, i);
    RetryCompletes(w, admin.identityId, n.id, admin.identityId, i, n.role, w.devices.rows[n.device], w.wallets.rows[n.wallet]);
    PerformKeeps(w, c);
    w' := Perform(w, c).0;
  }

  lemma ActivationPlanned(w: World, admin: Identity, n: Newcomer, i: Identity)
    requires Ready(w, admin) && OnFile(w, n, i) && i.role == Some(n.role) && n.key != "" && Derived(w.env, n.key, n.wallet)
    requires n.employeeId != "" && n.department != ""
    ensures var d, x := w.devices.rows[n.device], w.wallets.rows[n.wallet];
      PlanActivateRegistration(w, admin.identityId, n.id) == Go(ActivationScript(admin.identityId, i, n.role, d, x))
    ensures w.wallets.rows[n.wallet].address == n.wallet
  {
    hide Good, ActivationScript;
    PendingFound(w, n.id, n.device, n.wallet);
    hide FindDevice, FindWallet, MayOnboard, NoMoreFailures;
  }

  /** From nothing on file to a session, in seven calls, each of which succeeds: provisioned,
      initialized with a signed challenge, verified, given a role, activated on the chain,
      challenged again and signed in, on the newcomer's own device and wallet. */
  lemma OnboardedSignsIn(w: World, admin: Identity, n: Newcomer, h: string, nonce: string, start: int, signature: string, now: int,
                         h': string, nonce': string, start': int, c: Call)
    returns (w1: World, w2: World, w3: World, w4: World, w5: World, w6: World, w7: World)
    requires Ready(w, admin) && Unknown(w, n) && h !in w.challenges && !Blank(h) && h' !in w.challenges && h' != h
    requires now < start + 300_000 && w.env.proves(nonce, n.key, signature) && !Blank(signature)
    requires c.LoginWithProof? && c.deviceId == n.device && c.challengeId == h' && c.publicKey == n.key && c.token !in w.issued
    requires c.now < start' + 300_000 && w.env.proves(nonce', n.key, c.signature)
    ensures Perform(w, RequestProvisioning(n.device, true, h, nonce, start)) == (w1, Ok)
    ensures Perform(w1, Initialization(n, h, signature, now)) == (w2, Ok)
    ensures Perform(w2, VerifyRegistration(admin.identityId, n.id, n.employeeId, n.department)) == (w3, Ok)
    ensures Perform(w3, AssignRole(admin.identityId, n.id, n.role)) == (w4, Ok)
    ensures Perform(w4, ActivateRegistration(admin.identityId, n.id)) == (w5, Ok)
    ensures Perform(w5, RequestAuthentication(n.device, h', nonce', start')) == (w6, Ok)
    ensures Perform(w6, c) == (w7, Ok)
    ensures forall t :: t < c.now + Lasts(c.ttl) <==> SessionAccepted(w7, c.token, t)
    ensures c.token in w7.sessions && w7.sessions[c.token].identityId == n.id && w7.sessions[c.token].walletAddress == n.wallet
  {
    hide Good, Perform, TrimStart, TrimEnd, MayOnboard, NoMoreFailures, OnChain, Registrable, SessionAccepted, Lasts;
    w1 := Provisioned(w, admin, n, h, nonce, start);
    var i2: Identity, i3: Identity, i4: Identity;
    w2, i2 := Initialized(w1, admin, n, h, signature, now);
    w3, i3 := Confirmed(w2, admin, n, i2);
    w4, i4 := Appointed(w3, admin, n, i3);
    w5 := Completed(w4, admin, n, i4);
    hide OnFile, Unknown;
    w6, w7 := SignedIn(w5, n.device, n.wallet, h', nonce', start', c);
  }

  /** A challenge and its proof, as in a day's work. */
  lemma SignedIn(w: World, d: string, a: string, h: string, nonce: string, start: int, c: Call) returns (w1: World, w2: World)
    requires Good(w) && SignsInOn(w, d, a) && h !in w.challenges && c.LoginWithProof? && c.token !in w.issued
    requires c.deviceId == d && c.challengeId == h && c.publicKey == w.devices.rows[d].publicKey != ""
    requires Derived(w.env, c.publicKey, a) && c.now < start + 300_000 && w.env.proves(nonce, c.publicKey, c.signature)
    ensures Perform(w, RequestAuthentication(d, h, nonce, start)) == (w1, Ok)
    ensures Perform(w1, c) == (w2, Ok)
    ensures forall t :: t < c.now + Lasts(c.ttl) <==> SessionAccepted(w2, c.token, t)
    ensures c.token in w2.sessions && w2.sessions[c.token].identityId == w.devices.rows[d].identityId
    ensures c.token in w2.sessions && w2.sessions[c.token].walletAddress == a
  {
    hide Good, Perform, SessionAccepted, Lasts;
    SignInRoundTrip(w, a, h, nonce, start, c);
    RequestExactly(w, d, h, nonce, start);
    w1 := Perform(w, RequestAuthentication(d, h, nonce, start)).0;
    PerformKeeps(w, RequestAuthentication(d, h, nonce, start));
    w2 := Perform(w1, c).0;
    assert SignsInOn(w1, d, a);
    ProofExactly(w1, c, a);
    forall t ensures t < c.now + Lasts(c.ttl) <==> SessionAccepted(w2, c.token, t) {
      SessionLasts(w1, c, a, t);
    }
  }

  // ------------------------------------------------------------- calls that go through

  /** A transaction that the registries take, sent for an onboarder. */
  lemma Sent(w: World, actor: string, tx: Tx) returns (w': World)
    requires w.env.evm && NoMoreFailures(w) && MayOnboard(w, actor)
    ensures var after := Apply(w.chain.(submissions := w.chain.submissions + 1), OnChain(w.env, SenderOf(w, actor).value), AsSent(w.env, tx));
      Complete(w, Submit(actor, tx)) == (w', if after.Some? then Ok else Failed(Reverted)) && SameRecords(w, w')
      && (after.Some? ==> w'.chain == after.value)
  {
    SubmitAnswered(w, actor, tx);
    w' := Complete(w, Submit(actor, tx)).0;
  }

  /** revokeWallet goes through, for an administrator, exactly when the registry has the
      wallet and has not revoked it yet. */
  lemma RevokeWalletCompletes(w: World, u: string, i: Identity, reason: string, admin: Identity, a: string)
    requires Ready(w, admin) && Names(w, u, i) && WalletIs(w, a, i.identityId, Active) && !Blank(reason)
    ensures var r := Perform(w, RevokeWallet(u, reason, admin.identityId)).1; var k := OnChain(w.env, a);
      r == Ok <==> k in w.chain.wallets && w.chain.wallets[k].status in {Pending, Active}
  {
    hide Good, MayOnboard, NoMoreFailures, OnChain, Complete, TrimStart, TrimEnd;
    ResolvedExactly(w, u);
    ResolvedExactly(w, admin.identityId);
    ActiveWalletExactly(w, i.identityId);
    WalletKeys(w);
    hide Resolve, FindWallet, Names, NamesNobody;
    var s := [Submit(admin.identityId, WalletRevoke(a)), SaveWallet(w.wallets.rows[a].(status := Revoked))];
    assert Plan(w, RevokeWallet(u, reason, admin.identityId)) == Go(s);
    var w1 := Sent(w, admin.identityId, WalletRevoke(a));
    RevocationApplies(w, admin.identityId, a);
    if Complete(w, s[0]).1 == Ok {
      RunSaveWallet(w1, s, 1);
      RunEnd(w1.(wallets := w1.wallets.Put(a, s[1].wallet)), s);
    }
  }

  lemma RevocationApplies(w: World, actor: string, a: string)
    requires MayOnboard(w, actor)
    ensures var k := OnChain(w.env, a);
      var after := Apply(w.chain.(submissions := w.chain.submissions + 1), OnChain(w.env, SenderOf(w, actor).value), AsSent(w.env, WalletRevoke(a)));
      after.Some? <==> k in w.chain.wallets && w.chain.wallets[k].status in {Pending, Active}
  {
    hide SenderOf, OnChain;
  }

  /** assignRole goes through for somebody past onboarding exactly when the registry knows the
      identity and has not given it this role yet. */
  lemma AssignRoleCompletes(w: World, admin: Identity, u: string, i: Identity, e: string, role: Role)
    requires Ready(w, admin) && Names(w, u, i) && UserIs(w, e, i.identityId) && i.status != Revoked
    ensures var r := Perform(w, AssignRole(admin.identityId, u, role)).1;
      r == Ok <==> KnownDid(w.chain, i.identityId) && role !in RolesOf(w.chain, i.identityId)
  {
    hide Good, MayOnboard, NoMoreFailures, Complete;
    ResolvedExactly(w, u);
    ResolvedExactly(w, admin.identityId);
    UserExactly(w, i.identityId);
    hide Resolve, Names, NamesNobody, FindUser;
    var j := i.(role := Some(role));
    var row := FindUser(w.users, i.identityId).value.(role := role);
    var tx := RoleAssign(None, i.identityId, role);
    var s := [Submit(admin.identityId, tx), SaveIdentity(j, None), SaveUser(row)];
    assert Plan(w, AssignRole(admin.identityId, u, role)) == Go(s);
    var w1 := Sent(w, admin.identityId, tx);
    RoleApplies(w, admin.identityId, i.identityId, role);
    if Complete(w, s[0]).1 == Ok {
      RunSaveIdentity(w1, s, 1);
      var w2 := w1.(identities := w1.identities.Put(j.identityId, j));
      RunSaveUser(w2, s, 2);
      RunEnd(w2.(users := w2.users.Put(row.employeeId, row)), s);
    }
  }

  lemma RoleApplies(w: World, actor: string, did: string, role: Role)
    requires MayOnboard(w, actor)
    ensures var after := Apply(w.chain.(submissions := w.chain.submissions + 1), OnChain(w.env, SenderOf(w, actor).value),
                               AsSent(w.env, RoleAssign(None, did, role)));
      after.Some? <==> KnownDid(w.chain, did) && role !in RolesOf(w.chain, did)
  {
    hide SenderOf, OnChain;
  }
}
