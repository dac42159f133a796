/** Activating a registration against the EVM registries: three chain checkpoints, any number
    of failed attempts, and what a retry can and cannot recover from. */
module Registration {
  import opened Prelude
  import opened IdentityModel
  import opened IdentityInvariant
  import opened IdentityRuns
  import opened RecordPermanence
  import opened Bystanders
  import opened WalletSafety

  /** The submissions of one registration, in order, and how they arrive on the chain. */
  function Submissions(i: Identity, role: Role, x: Wallet): seq<Tx> {
    [IdentityCreate(x.address, i.identityId), RoleAssign(Some(x.address), i.identityId, role), WalletActivate(x.address)]
  }

  function Steps(env: Env, i: Identity, role: Role, x: Wallet): seq<Tx> {
    var s := Submissions(i, role, x);
    [AsSent(env, s[0]), AsSent(env, s[1]), AsSent(env, s[2])]
  }

  /** Of the transactions about this identity and wallet, exactly the first `k` of these
      have taken effect since there were `base`. */
  ghost predicate At(base: seq<Tx>, env: Env, chain: Chain, i: Identity, role: Role, x: Wallet, k: nat) {
    var a := OnChain(env, x.address);
    && k <= 3
    && About(chain.ledger, i.identityId, a) == base + Steps(env, i, role, x)[..k]
    && OnlyWallet(chain, i.identityId, a)
    && (a in chain.wallets <==> k >= 1)
    && (k >= 1 ==> chain.wallets[a] == ChainWallet(i.identityId, if k == 3 then Active else Pending))
    && RolesOf(chain, i.identityId) == (if k >= 2 then {role} else {})
  }

  /** A submission either leaves the registries as they were or applies its transaction;
      when it is confirmed it has been applied. */
  ghost predicate Submitted(w: World, sent: Tx, w': World, r: Outcome) {
    || (w'.chain == w.chain.(submissions := w'.chain.submissions) && r != Ok)
    || (exists sender :: Apply(w.chain.(submissions := w'.chain.submissions), sender, sent) == Some(w'.chain))
  }

  lemma ApplyKeepsCount(chain: Chain, sender: string, tx: Tx)
    ensures Apply(chain, sender, tx).Some? ==> Apply(chain, sender, tx).value.submissions == chain.submissions
  {
  }

  lemma SubmitEffect(w: World, actor: string, tx: Tx)
    requires w.env.evm
    ensures Submitted(w, AsSent(w.env, tx), Complete(w, Submit(actor, tx)).0, Complete(w, Submit(actor, tx)).1)
    ensures SameRecords(w, Complete(w, Submit(actor, tx)).0)
  {
    hide SendStep, Submitted, FindUser, AsSent, OnChain;
    var user := FindUser(w.users, actor);
    var check := CheckSender(if user.Some? then user.value.walletAddress else "", tx);
    assert Complete(w, Submit(actor, tx)) == Complete(w, check);
    CompleteOnChain(w, check);
    if Exec(w, check).Become? {
      var sender := check.candidate;
      assert Complete(w, check) == Complete(w, Send(sender, tx));
      SendEffect(w, sender, tx);
      assert Exec(w, Send(sender, tx)) == SendStep(w, sender, tx);
    } else {
      NothingSubmitted(w, AsSent(w.env, tx), Signer);
    }
  }

  lemma SendEffect(w: World, sender: string, tx: Tx)
    requires w.env.evm
    ensures var p := SendStep(w, sender, tx);
            !p.Become? && Submitted(w, AsSent(w.env, tx), p.w, if p.Done? then Ok else Failed(p.error))
  {
    hide Apply, AsSent, OnChain;
    ApplyKeepsCount(w.chain.(submissions := w.chain.submissions + 1), OnChain(w.env, sender), AsSent(w.env, tx));
  }

  lemma NothingSubmitted(w: World, sent: Tx, e: Error)
    ensures Submitted(w, sent, w, Failed(e))
  {
  }

  /** The j-th effect of the script moves the chain from checkpoint j to j + 1, or not at
      all; past checkpoints are recognised and not submitted again. */
  lemma EnsureStep(base: seq<Tx>, w: World, actor: string, i: Identity, role: Role, d: Device, x: Wallet, j: nat, k: nat)
    returns (k': nat)
    requires w.env.evm && j < 3 && j <= k && At(base, w.env, w.chain, i, role, x, k)
    ensures var (w', r) := Complete(w, ActivationScript(actor, i, role, d, x)[j]);
      && At(base, w.env, w'.chain, i, role, x, k') && SameRecords(w, w')
      && (k' == k || (k == j && k' == j + 1)) && (r == Ok ==> k' >= j + 1)
  {
    var a := ActivationScript(actor, i, role, d, x)[j];
    var tx := Submissions(i, role, x)[j];
    CompleteOnChain(w, a);
    if k > j {
      k' := k;
      assert KnownDid(w.chain, i.identityId) by { assert w.chain.wallets[OnChain(w.env, x.address)].did == i.identityId; }
      assert Exec(w, a) == Done(w);
    } else {
      assert Exec(w, a) == Become(w, Submit(actor, tx));
      assert Complete(w, a) == Complete(w, Submit(actor, tx));
      SubmitEffect(w, actor, tx);
      k' := AdvanceOne(base, w, Complete(w, a).0, i, role, x, j, Complete(w, a).1);
    }
  }

  lemma AdvanceOne(base: seq<Tx>, w: World, w': World, i: Identity, role: Role, x: Wallet, j: nat, r: Outcome) returns (k': nat)
    requires j < 3 && At(base, w.env, w.chain, i, role, x, j) && Submitted(w, Steps(w.env, i, role, x)[j], w', r)
    ensures At(base, w.env, w'.chain, i, role, x, k') && (k' == j || k' == j + 1) && (r == Ok ==> k' == j + 1)
  {
    hide About;
    var tx := Steps(w.env, i, role, x)[j];
    if w'.chain == w.chain.(submissions := w'.chain.submissions) && r != Ok {
      k' := j;
    } else {
      k' := j + 1;
      assert Steps(w.env, i, role, x)[..j] + [tx] == Steps(w.env, i, role, x)[..j + 1];
      AboutOneMore(w.chain.ledger, tx, i.identityId, OnChain(w.env, x.address));
    }
  }

  /** The j-th effect within the script. */
  lemma Checkpoint(base: seq<Tx>, w: World, actor: string, i: Identity, role: Role, d: Device, x: Wallet, j: nat, k: nat)
    returns (w': World, r: Outcome, k': nat)
    requires w.env.evm && j < 3 && j <= k && At(base, w.env, w.chain, i, role, x, k)
    ensures k <= k' && (r == Ok ==> j + 1 <= k') && At(base, w.env, w'.chain, i, role, x, k') && SameRecords(w, w')
    ensures var s := ActivationScript(actor, i, role, d, x);
            RunFrom(w, s, j) == if r == Ok then RunFrom(w', s, j + 1) else (w', r)
  {
    hide At, Complete;
    k' := EnsureStep(base, w, actor, i, role, d, x, j, k);
    var done := Complete(w, ActivationScript(actor, i, role, d, x)[j]);
    w', r := done.0, done.1;
  }

  /** One attempt: the chain advances along the checkpoints, and the records change only
      when all three have been reached. */
  lemma OneAttempt(base: seq<Tx>, w: World, actor: string, i: Identity, role: Role, d: Device, x: Wallet, k: nat)
    returns (k': nat)
    requires w.env.evm && At(base, w.env, w.chain, i, role, x, k)
    ensures var (w', r) := Run(w, ActivationScript(actor, i, role, d, x));
      && k <= k' && At(base, w.env, w'.chain, i, role, x, k')
      && (r != Ok ==> SameRecords(w, w')) && (r == Ok ==> k' == 3)
  {
    hide At, RunFrom;
    var w1, r1, k1 := Checkpoint(base, w, actor, i, role, d, x, 0, k);
    if r1 != Ok { return k1; }
    var w2, r2, k2 := Checkpoint(base, w1, actor, i, role, d, x, 1, k1);
    if r2 != Ok { return k2; }
    var w3, r3, k3 := Checkpoint(base, w2, actor, i, role, d, x, 2, k2);
    if r3 == Ok {
      SavesKeepChain(w3, ActivationScript(actor, i, role, d, x));
      AtMostThree(base, w3, i, role, x, k3);
    }
    k' := k3;
  }

  lemma AtMostThree(base: seq<Tx>, w: World, i: Identity, role: Role, x: Wallet, k: nat)
    requires At(base, w.env, w.chain, i, role, x, k)
    ensures k <= 3
  {
  }

  lemma SavesKeepChain(w: World, s: Script)
    requires |s| == 7 && s[3].SaveIdentity? && s[4].SaveDevice? && s[5].SaveWallet? && s[6].SaveUser?
    ensures RunFrom(w, s, 3).0.chain == w.chain && RunFrom(w, s, 3).1 == Ok
  {
    hide RunFrom;
    RunSaveIdentity(w, s, 3);
    var w1 := w.(identities := w.identities.Put(s[3].identity.identityId, s[3].identity),
                 granted := Logged(w.granted, s[3].grant));
    RunSaveDevice(w1, s, 4);
    var w2 := w1.(devices := w1.devices.Put(s[4].device.deviceId, s[4].device));
    RunSaveWallet(w2, s, 5);
    var w3 := w2.(wallets := w2.wallets.Put(s[5].wallet.address, s[5].wallet));
    RunSaveUser(w3, s, 6);
    RunEnd(w3.(users := w3.users.Put(s[6].user.employeeId, s[6].user)), s);
  }

  // ------------------------------------------------------------ many attempts

  /** A registration that every guard but those on the actor lets through. */
  predicate Awaiting(w: World, userId: string, i: Identity, role: Role, d: Device, x: Wallet) {
    && Resolve(w, userId) == Some(i)
    && i.status == Pending && i.employeeId != None && i.employeeId != Some("") && i.department != "" && i.role == Some(role)
    && FindDevice(w.devices, i.identityId, Pending) == Some(d) && FindWallet(w.wallets, i.identityId, Pending) == Some(x)
    && x.publicKey != "" && d.publicKey != "" && x.publicKey == d.publicKey && BindingOk(w.env, x.address, x.publicKey)
  }

  predicate IsAdmin(w: World, actorId: string) {
    Resolve(w, actorId).Some? && Resolve(w, actorId).value.status == Active && Resolve(w, actorId).value.role == Some(ADMIN)
  }

  /** Whoever asks: an active administrator gets the activation script, anybody else a refusal. */
  lemma PlanForActor(w: World, actorId: string, userId: string, i: Identity, role: Role, d: Device, x: Wallet)
    requires Awaiting(w, userId, i, role, d, x)
    ensures var p := PlanActivateRegistration(w, actorId, userId);
            if IsAdmin(w, actorId) then p == Go(ActivationScript(Resolve(w, actorId).value.identityId, i, role, d, x)) else p.Refuse?
  {
    hide Resolve, FindDevice, FindWallet, ActivationScript;
  }

  lemma AwaitingIgnoresChain(w: World, w': World, userId: string, i: Identity, role: Role, d: Device, x: Wallet)
    requires Awaiting(w, userId, i, role, d, x) && SameRecords(w, w')
    ensures Awaiting(w', userId, i, role, d, x)
  {
    hide FindDevice, FindWallet, FindByEmployee;
  }

  /** A call that is to activate this very identity, by whatever id it names it. */
  predicate IsAttempt(w: World, c: Call, i: Identity) {
    c.ActivateRegistration? && Resolve(w, c.userId) == Some(i)
  }

  /** A run of calls up to the first that activates the identity, and whether one did. */
  function Attempts(w: World, calls: seq<Call>, i: Identity): (World, bool)
    decreases |calls|
  {
    if calls == [] then (w, false)
    else
      var (w1, r) := Perform(w, calls[0]);
      if IsAttempt(w, calls[0], i) && r == Ok then (w1, true) else Attempts(w1, calls[1..], i)
  }

  /** Until then every call that is no attempt, and passes its guards, saves nothing of this
      registration. */
  ghost predicate Others(w: World, calls: seq<Call>, i: Identity, d: Device, x: Wallet)
    decreases |calls|
  {
    calls == [] ||
    var c := calls[0];
    var (w1, r) := Perform(w, c);
    if IsAttempt(w, c, i) then r == Ok || Others(w1, calls[1..], i, d, x)
    else (Plan(w, c).Go? ==> Spared(Plan(w, c).script, i, d, x)) && Others(w1, calls[1..], i, d, x)
  }

  predicate Spared(s: Script, i: Identity, d: Device, x: Wallet) {
    forall k :: 0 <= k < |s| ==> SparesRecords(s[k], i, d, x)
  }

  /** ... nor submits anything about it. */
  ghost predicate OthersElsewhere(w: World, calls: seq<Call>, i: Identity, x: Wallet)
    decreases |calls|
  {
    calls == [] ||
    var c := calls[0];
    var (w1, r) := Perform(w, c);
    if IsAttempt(w, c, i) then r == Ok || OthersElsewhere(w1, calls[1..], i, x)
    else (Plan(w, c).Go? ==> Elsewhere(w.env, Plan(w, c).script, i, x)) && OthersElsewhere(w1, calls[1..], i, x)
  }

  predicate Elsewhere(env: Env, s: Script, i: Identity, x: Wallet) {
    forall k :: 0 <= k < |s| ==> SparesChain(env, s[k], i.identityId, OnChain(env, x.address))
  }

  /** What one attempt by anybody does: nothing, or a run of the script. */
  lemma AttemptBy(w: World, c: Call, i: Identity, role: Role, d: Device, x: Wallet)
    requires Awaiting(w, i.identityId, i, role, d, x) && IsAttempt(w, c, i)
    ensures var (w1, r) := Perform(w, c);
            || (w1 == w && r != Ok)
            || (IsAdmin(w, c.actorId) && (w1, r) == Run(w, ActivationScript(Resolve(w, c.actorId).value.identityId, i, role, d, x)))
  {
    hide PlanActivateRegistration, ActivationScript, Run, Resolve, FindDevice, FindWallet;
    PlanForActor(w, c.actorId, c.userId, i, role, d, x);
  }

  lemma AwaitingStays(w: World, w': World, i: Identity, role: Role, d: Device, x: Wallet)
    requires Awaiting(w, i.identityId, i, role, d, x) && Found(w', i, d, x) && w'.env == w.env
    ensures Awaiting(w', i.identityId, i, role, d, x)
  {
    hide FindDevice, FindWallet;
  }

  lemma FoundIgnoresChain(w: World, w': World, i: Identity, d: Device, x: Wallet)
    requires Found(w, i, d, x) && OwnKeys(w) && SameRecords(w, w')
    ensures Found(w', i, d, x) && OwnKeys(w')
  {
    hide FindDevice, FindWallet;
  }

  /** What a call by somebody else about somebody else leaves alone. */
  lemma OtherCall(w: World, c: Call, i: Identity, d: Device, x: Wallet)
    requires OwnKeys(w) && Found(w, i, d, x) && (Plan(w, c).Go? ==> Spared(Plan(w, c).script, i, d, x))
    ensures var w1 := Perform(w, c).0;
            && OwnKeys(w1) && Found(w1, i, d, x) && w1.env == w.env
            && RolesOf(w.chain, i.identityId) <= RolesOf(w1.chain, i.identityId)
  {
    hide Plan, OwnKeys, Found, SparesRecords, RolesOf;
    if Plan(w, c).Go? {
      RunSparesRecords(w, Plan(w, c).script, 0, i, d, x);
      RunKeepsRoles(w, Plan(w, c).script, 0, i.identityId);
    }
  }

  lemma OtherCallElsewhere(base: seq<Tx>, w: World, c: Call, i: Identity, role: Role, x: Wallet, k: nat)
    requires w.env.evm && i.identityId != "" && At(base, w.env, w.chain, i, role, x, k)
    requires Plan(w, c).Go? ==> Elsewhere(w.env, Plan(w, c).script, i, x)
    ensures At(base, w.env, Perform(w, c).0.chain, i, role, x, k)
  {
    hide Plan, SparesChain, OnChain, RunFrom, About;
    if Plan(w, c).Go? { RunSparesChain(w, Plan(w, c).script, 0, i.identityId, OnChain(w.env, x.address)); }
  }

  /** Such a call is, for one, the activation of somebody else with another wallet. */
  lemma OtherActivation(w: World, c: Call, i: Identity, d: Device, x: Wallet)
    requires OwnKeys(w) && Found(w, i, d, x) && c.ActivateRegistration? && Plan(w, c).Go?
    requires Resolve(w, c.userId).value.identityId != i.identityId
    ensures Spared(Plan(w, c).script, i, d, x)
    ensures var y := FindWallet(w.wallets, Resolve(w, c.userId).value.identityId, Pending);
            y.Some? && (OnChain(w.env, y.value.address) != OnChain(w.env, x.address) ==> Elsewhere(w.env, Plan(w, c).script, i, x))
  {
    hide Resolve, OnChain, FindDevice, FindWallet, OwnKeys, Found;
    var j := Resolve(w, c.userId).value;
    OtherRows(w, i, d, x, j.identityId);
    var e, y := FindDevice(w.devices, j.identityId, Pending).value, FindWallet(w.wallets, j.identityId, Pending).value;
    assert Plan(w, c) == Go(ActivationScript(Resolve(w, c.actorId).value.identityId, j, j.role.value, e, y));
  }

  lemma OtherRows(w: World, i: Identity, d: Device, x: Wallet, other: string)
    requires OwnKeys(w) && Found(w, i, d, x) && other != i.identityId
    ensures var e := FindDevice(w.devices, other, Pending); e.Some? ==> e.value.deviceId != d.deviceId && e.value.identityId == other
    ensures var y := FindWallet(w.wallets, other, Pending); y.Some? ==> y.value.address != x.address && y.value.identityId == other
  {
  }

  /** However many attempts fail, whoever makes them, however they fail, and whatever is
      called about others in between, the registration's transactions take effect at most
      once each and in order, and until an attempt succeeds identity, device and wallet are
      all as they were; a success implies all three checkpoints. */
  lemma {:induction false} AttemptsInOrder(base: seq<Tx>, w: World, calls: seq<Call>,
                                           i: Identity, role: Role, d: Device, x: Wallet, k: nat) returns (k': nat)
    requires w.env.evm && i.identityId != "" && At(base, w.env, w.chain, i, role, x, k)
    requires OwnKeys(w) && Found(w, i, d, x) && Awaiting(w, i.identityId, i, role, d, x)
    requires Others(w, calls, i, d, x) && OthersElsewhere(w, calls, i, x)
    ensures var (w', done) := Attempts(w, calls, i);
      && k <= k' && At(base, w.env, w'.chain, i, role, x, k')
      && (!done ==> Found(w', i, d, x) && Awaiting(w', i.identityId, i, role, d, x))
      && (done ==> k' == 3)
    decreases |calls|
  {
    hide At, Perform, ActivationScript, Run, Awaiting, Found, OwnKeys, IsAttempt, Spared, Elsewhere;
    if calls == [] { return k; }
    var c := calls[0];
    var (w1, r) := Perform(w, c);
    var k1 := k;
    if IsAttempt(w, c, i) {
      k1 := AttemptAdvances(base, w, c, i, role, d, x, k);
      if r == Ok { return k1; }
      FoundIgnoresChain(w, w1, i, d, x);
    } else {
      OtherCall(w, c, i, d, x);
      OtherCallElsewhere(base, w, c, i, role, x, k);
    }
    AwaitingStays(w, w1, i, role, d, x);
    k' := AttemptsInOrder(base, w1, calls[1..], i, role, d, x, k1);
  }

  lemma AttemptAdvances(base: seq<Tx>, w: World, c: Call, i: Identity, role: Role, d: Device, x: Wallet, k: nat) returns (k': nat)
    requires w.env.evm && At(base, w.env, w.chain, i, role, x, k)
    requires Awaiting(w, i.identityId, i, role, d, x) && IsAttempt(w, c, i)
    ensures var (w', r) := Perform(w, c);
      && k <= k' && At(base, w.env, w'.chain, i, role, x, k')
      && (r != Ok ==> SameRecords(w, w')) && (r == Ok ==> k' == 3)
  {
    hide At, Perform, ActivationScript, Run, Awaiting, Resolve;
    AttemptBy(w, c, i, role, d, x);
    k' := k;
    var (w1, r) := Perform(w, c);
    if w1 != w || r == Ok {
      k' := OneAttempt(base, w, Resolve(w, c.actorId).value.identityId, i, role, d, x, k);
    }
  }

  // ------------------------------------------------------------- a hidden role

  /** The chain already gives the identity this role, but reports an earlier one. */
  predicate Hidden(chain: Chain, did: string, role: Role) {
    role in RolesOf(chain, did) && FirstRole(RolesOf(chain, did)) != Some(role)
  }

  /** Announcing the identity leaves all roles alone, and success leaves the address bound. */
  lemma CreateKeepsRoles(w: World, actor: string, did: string, address: string)
    requires w.env.evm
    ensures var (w', r) := Complete(w, EnsureIdentityCreated(actor, did, address));
            && w'.chain.roles == w.chain.roles && SameRecords(w, w')
            && (r == Ok ==> OnChain(w.env, address) in w'.chain.wallets && w'.chain.wallets[OnChain(w.env, address)].did == did)
  {
    var a := EnsureIdentityCreated(actor, did, address);
    var tx := IdentityCreate(address, did);
    CompleteOnChain(w, a);
    if OnChain(w.env, address) !in w.chain.wallets {
      assert Exec(w, a) == Become(w, Submit(actor, tx));
      assert Complete(w, a) == Complete(w, Submit(actor, tx));
      SubmitEffect(w, actor, tx);
    }
  }

  /** A hidden role can neither be recognised nor assigned again, whatever the chain and the
      network do. */
  lemma HiddenStaysOut(w: World, actor: string, did: string, role: Role, address: string)
    requires w.env.evm && Hidden(w.chain, did, role)
    requires OnChain(w.env, address) in w.chain.wallets && w.chain.wallets[OnChain(w.env, address)].did == did
    ensures var (w', r) := Complete(w, EnsureRoleAssigned(actor, did, role, address));
            r != Ok && w'.chain.roles == w.chain.roles && SameRecords(w, w')
  {
    var a := EnsureRoleAssigned(actor, did, role, address);
    var tx := RoleAssign(Some(address), did, role);
    CompleteOnChain(w, a);
    assert Exec(w, a) == Become(w, Submit(actor, tx));
    assert Complete(w, a) == Complete(w, Submit(actor, tx));
    SubmitEffect(w, actor, tx);
    hide Complete, Exec, FirstRole;
  }

  lemma HiddenAttempt(w: World, actor: string, i: Identity, role: Role, d: Device, x: Wallet)
    requires w.env.evm && Hidden(w.chain, i.identityId, role)
    ensures var (w', r) := Run(w, ActivationScript(actor, i, role, d, x));
            r != Ok && w'.chain.roles == w.chain.roles && SameRecords(w, w')
  {
    hide Complete, FirstRole;
    var s := ActivationScript(actor, i, role, d, x);
    CreateKeepsRoles(w, actor, i.identityId, x.address);
    var (w1, r1) := Complete(w, s[0]);
    if r1 == Ok {
      assert RunFrom(w, s, 0) == RunFrom(w1, s, 1);
      HiddenStaysOut(w1, actor, i.identityId, role, x.address);
    }
  }

  /** The registries only ever add roles, which leaves a hidden role hidden. */
  lemma HiddenStays(chain: Chain, chain': Chain, did: string, role: Role)
    requires Hidden(chain, did, role) && RolesOf(chain, did) <= RolesOf(chain', did)
    ensures Hidden(chain', did, role)
  {
  }

  /** While the wanted role is hidden no attempt by anybody ever succeeds, whatever becomes of
      its submissions and whatever is called about others in between, and it stays hidden. */
  lemma {:induction false} HiddenNeverCompletes(w: World, calls: seq<Call>, i: Identity, role: Role, d: Device, x: Wallet)
    requires w.env.evm && OwnKeys(w) && Found(w, i, d, x) && Awaiting(w, i.identityId, i, role, d, x)
    requires Hidden(w.chain, i.identityId, role) && Others(w, calls, i, d, x)
    ensures var (w', done) := Attempts(w, calls, i);
            !done && Found(w', i, d, x) && Awaiting(w', i.identityId, i, role, d, x) && Hidden(w'.chain, i.identityId, role)
    decreases |calls|
  {
    hide Perform, ActivationScript, Run, Awaiting, Found, OwnKeys, Resolve, Hidden, IsAttempt, Spared, RolesOf;
    if calls != [] {
      var c := calls[0];
      var (w1, r) := Perform(w, c);
      if IsAttempt(w, c, i) {
        HiddenAttemptBy(w, c, i, role, d, x);
        FoundIgnoresChain(w, w1, i, d, x);
      } else {
        OtherCall(w, c, i, d, x);
      }
      HiddenStays(w.chain, w1.chain, i.identityId, role);
      AwaitingStays(w, w1, i, role, d, x);
      HiddenNeverCompletes(w1, calls[1..], i, role, d, x);
    }
  }

  lemma HiddenAttemptBy(w: World, c: Call, i: Identity, role: Role, d: Device, x: Wallet)
    requires w.env.evm && Awaiting(w, i.identityId, i, role, d, x) && IsAttempt(w, c, i) && Hidden(w.chain, i.identityId, role)
    ensures var (w', r) := Perform(w, c); r != Ok && SameRecords(w, w') && RolesOf(w'.chain, i.identityId) == RolesOf(w.chain, i.identityId)
  {
    hide Perform, ActivationScript, Run, Awaiting, Resolve, Hidden;
    AttemptBy(w, c, i, role, d, x);
    if Perform(w, c).0 != w || Perform(w, c).1 == Ok {
      HiddenAttempt(w, Resolve(w, c.actorId).value.identityId, i, role, d, x);
    }
  }

  // ------------------------------------------------------- failure-free retry

  /** From now on every submission is processed and answered. */
  ghost predicate NoMoreFailures(w: World) {
    forall n: nat :: n >= w.chain.submissions ==> w.env.fate(n) == Answered
  }

  /** The chain lets the actor's wallet onboard identities. */
  ghost predicate MayOnboard(w: World, actor: string) {
    SenderOf(w, actor).Some? && MayCall(w.chain, OnChain(w.env, SenderOf(w, actor).value), {ADMIN})
  }

  /** A wallet that is new to the chain, or already bound to this identity and not revoked. */
  predicate Resumable(env: Env, chain: Chain, i: Identity, x: Wallet) {
    var a := OnChain(env, x.address);
    a in chain.wallets ==> chain.wallets[a].did == i.identityId && chain.wallets[a].status in {Pending, Active}
  }

  /** A submission by its fate. */
  lemma SubmitFated(w: World, actor: string, tx: Tx)
    requires w.env.evm && SenderOf(w, actor).Some?
    ensures var counted := w.chain.(submissions := w.chain.submissions + 1);
            var after := Apply(counted, OnChain(w.env, SenderOf(w, actor).value), AsSent(w.env, tx));
            Complete(w, Submit(actor, tx)) == match w.env.fate(w.chain.submissions)
              case Answered => if after.Some? then (w.(chain := after.value), Ok) else (w.(chain := counted), Failed(Reverted))
              case TurnedAway => (w.(chain := counted), Failed(NoAnswer))
              case AnswerLost => (w.(chain := if after.Some? then after.value else counted), Failed(NoAnswer))
  {
    hide Apply, FindUser, SendStep, AsSent, OnChain;
    var sender := SenderOf(w, actor).value;
    assert Exec(w, Submit(actor, tx)) == Become(w, CheckSender(sender, tx));
    assert Exec(w, CheckSender(sender, tx)) == Become(w, Send(sender, tx));
    assert Complete(w, Submit(actor, tx)) == Complete(w, CheckSender(sender, tx)) == Complete(w, Send(sender, tx));
    assert Exec(w, Send(sender, tx)) == SendStep(w, sender, tx);
    StepFated(w, sender, tx);
  }

  lemma StepFated(w: World, sender: string, tx: Tx)
    requires w.env.evm
    ensures var counted := w.chain.(submissions := w.chain.submissions + 1);
            var after := Apply(counted, OnChain(w.env, sender), AsSent(w.env, tx));
            SendStep(w, sender, tx) == match w.env.fate(w.chain.submissions)
              case Answered => if after.Some? then Done(w.(chain := after.value)) else Throw(w.(chain := counted), Reverted)
              case TurnedAway => Throw(w.(chain := counted), NoAnswer)
              case AnswerLost => Throw(w.(chain := if after.Some? then after.value else counted), NoAnswer)
  {
    hide Apply, AsSent, OnChain;
  }

  lemma SubmitAnswered(w: World, actor: string, tx: Tx)
    requires w.env.evm && NoMoreFailures(w) && MayOnboard(w, actor)
    ensures var after := Apply(w.chain.(submissions := w.chain.submissions + 1), OnChain(w.env, SenderOf(w, actor).value), AsSent(w.env, tx));
            Complete(w, Submit(actor, tx)) ==
              (if after.Some? then (w.(chain := after.value), Ok)
               else (w.(chain := w.chain.(submissions := w.chain.submissions + 1)), Failed(Reverted)))
  {
    hide Complete, Apply, SenderOf, MayCall, AsSent, OnChain;
    assert w.env.fate(w.chain.submissions) == Answered;
    SubmitFated(w, actor, tx);
  }

  lemma SenderIgnoresChain(w: World, w': World, actor: string)
    requires SameRecords(w, w')
    ensures SenderOf(w', actor) == SenderOf(w, actor)
  {
  }

  lemma CreateResumes(w: World, actor: string, i: Identity, x: Wallet) returns (w': World)
    requires w.env.evm && NoMoreFailures(w) && MayOnboard(w, actor) && Resumable(w.env, w.chain, i, x) && Registrable(i.identityId)
    ensures Complete(w, EnsureIdentityCreated(actor, i.identityId, x.address)) == (w', Ok)
    ensures SameRecords(w, w') && NoMoreFailures(w') && MayOnboard(w', actor) && Resumable(w.env, w'.chain, i, x)
    ensures OnChain(w.env, x.address) in w'.chain.wallets && w'.chain.roles == w.chain.roles
  {
    var a := EnsureIdentityCreated(actor, i.identityId, x.address);
    w' := Complete(w, a).0;
    CompleteOnChain(w, a);
    SenderIgnoresChain(w, w', actor);
    hide FindUser, SenderOf;
    if OnChain(w.env, x.address) !in w.chain.wallets {
      assert Complete(w, a) == Complete(w, Submit(actor, IdentityCreate(x.address, i.identityId)));
      SubmitAnswered(w, actor, IdentityCreate(x.address, i.identityId));
    }
  }

  lemma RoleResumes(w: World, actor: string, i: Identity, role: Role, x: Wallet) returns (w': World)
    requires w.env.evm && NoMoreFailures(w) && MayOnboard(w, actor) && Resumable(w.env, w.chain, i, x) && OnChain(w.env, x.address) in w.chain.wallets
    ensures var held := RolesOf(w.chain, i.identityId);
            var r := Complete(w, EnsureRoleAssigned(actor, i.identityId, role, x.address));
            r.0 == w' && (r.1 == Ok <==> FirstRole(held) == Some(role) || role !in held)
    ensures SameRecords(w, w') && NoMoreFailures(w') && MayOnboard(w', actor) && w'.chain.wallets == w.chain.wallets
  {
    var a := EnsureRoleAssigned(actor, i.identityId, role, x.address);
    w' := Complete(w, a).0;
    CompleteOnChain(w, a);
    SenderIgnoresChain(w, w', actor);
    hide FindUser, SenderOf;
    assert KnownDid(w.chain, i.identityId) by { assert w.chain.wallets[OnChain(w.env, x.address)].did == i.identityId; }
    if FirstRole(RolesOf(w.chain, i.identityId)) != Some(role) {
      var tx := RoleAssign(Some(x.address), i.identityId, role);
      assert Complete(w, a) == Complete(w, Submit(actor, tx));
      SubmitAnswered(w, actor, tx);
      var chain := w.chain.(submissions := w.chain.submissions + 1);
      assert KnownDid(chain, i.identityId) by { assert chain.wallets[OnChain(w.env, x.address)].did == i.identityId; }
    }
  }

  lemma WalletResumes(w: World, actor: string, i: Identity, x: Wallet) returns (w': World)
    requires w.env.evm && NoMoreFailures(w) && MayOnboard(w, actor) && Resumable(w.env, w.chain, i, x) && OnChain(w.env, x.address) in w.chain.wallets
    ensures Complete(w, EnsureWalletActive(actor, x.address)) == (w', Ok) && SameRecords(w, w')
    ensures OnChain(w.env, x.address) in w'.chain.wallets && w'.chain.wallets[OnChain(w.env, x.address)].status == Active
  {
    var a := EnsureWalletActive(actor, x.address);
    w' := Complete(w, a).0;
    CompleteOnChain(w, a);
    hide FindUser, SenderOf;
    if w.chain.wallets[OnChain(w.env, x.address)].status != Active {
      assert Complete(w, a) == Complete(w, Submit(actor, WalletActivate(x.address)));
      SubmitAnswered(w, actor, WalletActivate(x.address));
    }
  }

  lemma RetryRun(w: World, s: Script, actor: string, i: Identity, role: Role, d: Device, x: Wallet)
    requires w.env.evm && NoMoreFailures(w) && MayOnboard(w, actor) && Resumable(w.env, w.chain, i, x) && Registrable(i.identityId)
    requires s == ActivationScript(actor, i, role, d, x)
    ensures var held := RolesOf(w.chain, i.identityId);
            Run(w, s).1 == Ok <==> FirstRole(held) == Some(role) || role !in held
  {
    hide NoMoreFailures, MayOnboard, Resumable, FirstRole, Complete;
    var w1 := CreateResumes(w, actor, i, x);
    assert RunFrom(w, s, 0) == RunFrom(w1, s, 1);
    var w2 := RoleResumes(w1, actor, i, role, x);
    if Complete(w1, s[1]).1 == Ok {
      assert RunFrom(w1, s, 1) == RunFrom(w2, s, 2);
      ResumableAfter(w1, w2, i, x);
      var w3 := WalletResumes(w2, actor, i, x);
      assert RunFrom(w2, s, 2) == RunFrom(w3, s, 3);
      SavesKeepChain(w3, s);
    }
  }

  /** A retry during which nothing fails ends with identity, device and wallet active,
      from whichever checkpoint it resumes, exactly when the wanted role is not already
      held behind a role that comes earlier in the shared order. */
  lemma RetryCompletes(w: World, actorId: string, userId: string, actor: string, i: Identity, role: Role, d: Device, x: Wallet)
    requires w.env.evm && NoMoreFailures(w) && MayOnboard(w, actor) && Resumable(w.env, w.chain, i, x) && Registrable(i.identityId)
    requires PlanActivateRegistration(w, actorId, userId) == Go(ActivationScript(actor, i, role, d, x))
    ensures var (w', r) := Perform(w, ActivateRegistration(actorId, userId));
      var held := RolesOf(w.chain, i.identityId);
      && (r == Ok <==> FirstRole(held) == Some(role) || role !in held)
      && (r == Ok ==>
            && i.identityId in w'.identities.rows && w'.identities.rows[i.identityId].status == Active
            && d.deviceId in w'.devices.rows && w'.devices.rows[d.deviceId].status == Active
            && x.address in w'.wallets.rows && w'.wallets.rows[x.address].status == Active)
  {
    hide PlanActivateRegistration, NoMoreFailures, MayOnboard, Resumable, FirstRole, RunFrom;
    RunActivation(w, actor, i, role, d, x);
    RetryRun(w, ActivationScript(actor, i, role, d, x), actor, i, role, d, x);
  }

  lemma ResumableAfter(w: World, w': World, i: Identity, x: Wallet)
    requires Resumable(w.env, w.chain, i, x) && w'.chain.wallets == w.chain.wallets
    ensures Resumable(w.env, w'.chain, i, x)
  {
  }

  // ------------------------------------------------ how a role comes to be hidden

  /** An administrator and an onboarding identity without a user row, both found by their
      identity ids, and a chain that knows nothing of the latter. */
  ghost predicate FreshCase(w: World, admin: string, i: Identity, role: Role, d: Device, x: Wallet) {
    && w.env.evm && Awaiting(w, i.identityId, i, role, d, x) && Registrable(i.identityId)
    && i.identityId in w.identities.rows && w.identities.rows[i.identityId] == i && FindUser(w.users, i.identityId).None?
    && admin in w.identities.rows && w.identities.rows[admin].identityId == admin && IsAdmin(w, admin) && MayOnboard(w, admin)
    && OnChain(w.env, x.address) !in w.chain.wallets && RolesOf(w.chain, i.identityId) == {}
  }

  /** The chain after a first attempt that got as far as the role. */
  function RoleGiven(chain: Chain, a: string, did: string, role: Role): Chain {
    chain.(wallets := chain.wallets[a := ChainWallet(did, Pending)], roles := chain.roles[did := {role}])
  }

  ghost predicate SameRegistries(c: Chain, c': Chain) {
    c'.wallets == c.wallets && c'.roles == c.roles
  }

  lemma CreateAnswered(w: World, admin: string, i: Identity, role: Role, d: Device, x: Wallet) returns (w': World)
    requires FreshCase(w, admin, i, role, d, x) && w.env.fate(w.chain.submissions) == Answered
    ensures Complete(w, EnsureIdentityCreated(admin, i.identityId, x.address)) == (w', Ok)
    ensures SameRecords(w, w') && w'.chain.submissions == w.chain.submissions + 1 && MayOnboard(w', admin)
    ensures w'.chain.wallets == w.chain.wallets[OnChain(w.env, x.address) := ChainWallet(i.identityId, Pending)]
    ensures w'.chain.roles == w.chain.roles
  {
    hide Awaiting, IsAdmin, FindUser, SenderOf, OnChain;
    var a, tx := EnsureIdentityCreated(admin, i.identityId, x.address), IdentityCreate(x.address, i.identityId);
    w' := Complete(w, a).0;
    assert Complete(w, a) == Complete(w, Submit(admin, tx));
    SubmitFated(w, admin, tx);
    SenderIgnoresChain(w, w', admin);
  }

  /** A role submission by an onboarder for a bound identity that does not hold it. */
  lemma RoleSent(w: World, admin: string, did: string, role: Role, address: string) returns (w': World)
    requires w.env.evm && MayOnboard(w, admin) && w.env.fate(w.chain.submissions) != TurnedAway && did != ""
    requires OnChain(w.env, address) in w.chain.wallets && w.chain.wallets[OnChain(w.env, address)].did == did
    requires role !in RolesOf(w.chain, did)
    ensures var r := Complete(w, EnsureRoleAssigned(admin, did, role, address));
            r.0 == w' && (r.1 == Ok <==> w.env.fate(w.chain.submissions) == Answered)
    ensures SameRecords(w, w') && w'.chain.submissions == w.chain.submissions + 1 && w'.chain.wallets == w.chain.wallets
    ensures w'.chain.roles == w.chain.roles[did := RolesOf(w.chain, did) + {role}] && MayOnboard(w', admin)
  {
    hide SenderOf, OnChain, FirstRole;
    var a, tx := EnsureRoleAssigned(admin, did, role, address), RoleAssign(Some(address), did, role);
    w' := Complete(w, a).0;
    FirstIsHeld(RolesOf(w.chain, did));
    assert Complete(w, a) == Complete(w, Submit(admin, tx));
    var counted := w.chain.(submissions := w.chain.submissions + 1);
    assert KnownDid(counted, did) by { assert counted.wallets[OnChain(w.env, address)].did == did; }
    SubmitFated(w, admin, tx);
    SenderIgnoresChain(w, w', admin);
  }

  lemma FirstIsHeld(held: set<Role>)
    ensures FirstRole(held).Some? ==> FirstRole(held).value in held
  {
  }

  lemma ActivationTurnedAway(w: World, admin: string, i: Identity, x: Wallet) returns (w': World)
    requires w.env.evm && MayOnboard(w, admin) && w.env.fate(w.chain.submissions) == TurnedAway
    requires OnChain(w.env, x.address) in w.chain.wallets && w.chain.wallets[OnChain(w.env, x.address)].status == Pending
    ensures Complete(w, EnsureWalletActive(admin, x.address)) == (w', Failed(NoAnswer))
    ensures w' == w.(chain := w.chain.(submissions := w.chain.submissions + 1)) && MayOnboard(w', admin)
  {
    hide SenderOf, OnChain;
    var a, tx := EnsureWalletActive(admin, x.address), WalletActivate(x.address);
    w' := Complete(w, a).0;
    assert Complete(w, a) == Complete(w, Submit(admin, tx));
    SubmitFated(w, admin, tx);
    SenderIgnoresChain(w, w', admin);
  }

  /** First attempt: the identity and its role reach the chain, the wallet does not. */
  lemma FirstAttempt(w: World, admin: string, i: Identity, role: Role, d: Device, x: Wallet) returns (w': World)
    requires FreshCase(w, admin, i, role, d, x)
    requires w.env.fate(w.chain.submissions) == Answered && w.env.fate(w.chain.submissions + 1) == Answered
    requires w.env.fate(w.chain.submissions + 2) == TurnedAway
    ensures Perform(w, ActivateRegistration(admin, i.identityId)) == (w', Failed(NoAnswer))
    ensures SameRecords(w, w') && w'.chain.submissions == w.chain.submissions + 3 && MayOnboard(w', admin)
    ensures SameRegistries(RoleGiven(w.chain, OnChain(w.env, x.address), i.identityId, role), w'.chain)
  {
    hide PlanActivateRegistration, Complete, MayOnboard, OnChain, FirstRole, Awaiting;
    var s := ActivationScript(admin, i, role, d, x);
    PlanForActor(w, admin, i.identityId, i, role, d, x);
    var w1 := CreateAnswered(w, admin, i, role, d, x);
    assert RunFrom(w, s, 0) == RunFrom(w1, s, 1);
    var w2 := RoleSent(w1, admin, i.identityId, role, x.address);
    assert RunFrom(w1, s, 1) == RunFrom(w2, s, 2);
    assert RolesOf(w1.chain, i.identityId) == {} && {} + {role} == {role};
    w' := ActivationTurnedAway(w2, admin, i, x);
  }

  /** Changing the role of an onboarding identity touches its record only. */
  lemma PendingRoleChanged(w: World, admin: string, i: Identity, role: Role, d: Device, x: Wallet, role': Role)
    requires Awaiting(w, i.identityId, i, role, d, x) && IsAdmin(w, admin)
    requires i.identityId in w.identities.rows && w.identities.rows[i.identityId] == i && FindUser(w.users, i.identityId).None?
    ensures var j := i.(role := Some(role'));
            var w' := w.(identities := w.identities.Put(i.identityId, j));
            Perform(w, AssignRole(admin, i.identityId, role')) == (w', Ok) && Awaiting(w', i.identityId, j, role', d, x)
  {
    hide FindUser, FindDevice, FindWallet, FindByEmployee, RunFrom;
    var s := [SaveIdentity(i.(role := Some(role')), None)];
    assert PlanAssignRole(w, admin, i.identityId, role') == Go(s);
    RunSaveIdentity(w, s, 0);
    RunEnd(w.(identities := w.identities.Put(i.identityId, s[0].identity)), s);
  }

  /** A way into the hidden state: a first attempt stops after the role, the administrator
      then gives the onboarding identity a later role, and the next attempt loses the answer
      to that role's assignment. */
  lemma HiddenRoleReached(w: World, admin: string, i: Identity, first: Role, d: Device, x: Wallet, later: Role)
    returns (w1: World, w2: World, w3: World)
    requires FreshCase(w, admin, i, first, d, x) && first != later && FirstRole({first, later}) == Some(first)
    requires w.env.fate(w.chain.submissions) == Answered && w.env.fate(w.chain.submissions + 1) == Answered
    requires w.env.fate(w.chain.submissions + 2) == TurnedAway && w.env.fate(w.chain.submissions + 3) == AnswerLost
    ensures Perform(w, ActivateRegistration(admin, i.identityId)) == (w1, Failed(NoAnswer))
    ensures Perform(w1, AssignRole(admin, i.identityId, later)) == (w2, Ok)
    ensures Perform(w2, ActivateRegistration(admin, i.identityId)).0 == w3
    ensures var j := i.(role := Some(later));
            Awaiting(w3, i.identityId, j, later, d, x) && Found(w3, j, d, x) && Hidden(w3.chain, i.identityId, later)
  {
    hide PlanActivateRegistration, PlanAssignRole, Complete, MayOnboard, OnChain, FirstRole, Awaiting, FindUser, IsAdmin, RunFrom;
    w1 := FirstAttempt(w, admin, i, first, d, x);
    AwaitingIgnoresChain(w, w1, i.identityId, i, first, d, x);
    AdminIgnoresChain(w, w1, admin);
    PendingRoleChanged(w1, admin, i, first, d, x, later);
    var j := i.(role := Some(later));
    w2 := w1.(identities := w1.identities.Put(i.identityId, j));
    AwaitingPending(w, i, first, d, x);
    AdminRemains(w1, w2, admin, i, j);
    w3 := SecondAttempt(w2, admin, j, first, d, x, later);
    FoundWhereAwaiting(w3, j, later, d, x);
  }

  lemma FoundWhereAwaiting(w: World, i: Identity, role: Role, d: Device, x: Wallet)
    requires Awaiting(w, i.identityId, i, role, d, x) && i.identityId in w.identities.rows
    ensures Found(w, i, d, x)
  {
  }

  lemma AdminIgnoresChain(w: World, w': World, admin: string)
    requires SameRecords(w, w')
    ensures IsAdmin(w', admin) == IsAdmin(w, admin)
  {
    hide FindByEmployee;
  }

  lemma AdminRemains(w: World, w': World, admin: string, i: Identity, j: Identity)
    requires w' == w.(identities := w.identities.Put(i.identityId, j)) && MayOnboard(w, admin) && IsAdmin(w, admin)
    requires admin in w.identities.rows && w.identities.rows[admin].identityId == admin
    requires i.identityId in w.identities.rows && w.identities.rows[i.identityId] == i && i.status == Pending
    ensures IsAdmin(w', admin) && MayOnboard(w', admin) && Resolve(w', admin).value.identityId == admin
  {
    hide FindByEmployee, FindUser;
  }

  /** Second attempt: the later role is assigned beside the first, and the answer is lost. */
  lemma SecondAttempt(w: World, admin: string, j: Identity, first: Role, d: Device, x: Wallet, later: Role) returns (w': World)
    requires w.env.evm && Awaiting(w, j.identityId, j, later, d, x) && IsAdmin(w, admin) && MayOnboard(w, admin)
    requires Resolve(w, admin).value.identityId == admin && j.identityId != ""
    requires var a := OnChain(w.env, x.address); a in w.chain.wallets && w.chain.wallets[a] == ChainWallet(j.identityId, Pending)
    requires RolesOf(w.chain, j.identityId) == {first} && first != later && FirstRole({first, later}) == Some(first)
    requires w.env.fate(w.chain.submissions) == AnswerLost
    ensures Perform(w, ActivateRegistration(admin, j.identityId)).0 == w'
    ensures Awaiting(w', j.identityId, j, later, d, x) && Hidden(w'.chain, j.identityId, later) && SameRecords(w, w')
  {
    hide PlanActivateRegistration, Complete, MayOnboard, OnChain, Awaiting;
    var s := ActivationScript(admin, j, later, d, x);
    PlanForActor(w, admin, j.identityId, j, later, d, x);
    CreateRecognised(w, admin, j.identityId, x.address);
    assert RunFrom(w, s, 0) == RunFrom(w, s, 1);
    w' := RoleSent(w, admin, j.identityId, later, x.address);
    assert {first} + {later} == {first, later};
    AwaitingIgnoresChain(w, w', j.identityId, j, later, d, x);
  }

  lemma CreateRecognised(w: World, actor: string, did: string, address: string)
    requires w.env.evm && OnChain(w.env, address) in w.chain.wallets && w.chain.wallets[OnChain(w.env, address)].did == did
    ensures Complete(w, EnsureIdentityCreated(actor, did, address)) == (w, Ok)
  {
    assert Exec(w, EnsureIdentityCreated(actor, did, address)) == Done(w);
  }

  /** The way out: given back the role the chain reports, the identity can be activated. */
  lemma RoleRestored(w: World, admin: string, i: Identity, role: Role, d: Device, x: Wallet, first: Role)
    requires w.env.evm && Awaiting(w, i.identityId, i, role, d, x) && Hidden(w.chain, i.identityId, role)
    requires FirstRole(RolesOf(w.chain, i.identityId)) == Some(first) && Registrable(i.identityId)
    requires i.identityId in w.identities.rows && w.identities.rows[i.identityId] == i && FindUser(w.users, i.identityId).None?
    requires admin in w.identities.rows && w.identities.rows[admin].identityId == admin && IsAdmin(w, admin)
    requires NoMoreFailures(w) && MayOnboard(w, admin) && Resumable(w.env, w.chain, i, x)
    ensures var (w1, r1) := Perform(w, AssignRole(admin, i.identityId, first));
            r1 == Ok && Perform(w1, ActivateRegistration(admin, i.identityId)).1 == Ok
  {
    hide PlanActivateRegistration, PlanAssignRole, MayOnboard, OnChain, FirstRole, Awaiting, FindUser, RunFrom, ActivationScript,
         Resumable;
    PendingRoleChanged(w, admin, i, role, d, x, first);
    var j := i.(role := Some(first));
    var w1 := w.(identities := w.identities.Put(i.identityId, j));
    assert i.status == Pending by { AwaitingPending(w, i, role, d, x); }
    AdminRemains(w, w1, admin, i, j);
    PlanForActor(w1, admin, i.identityId, j, first, d, x);
    ResumableAs(w, i, j, x);
    RetryCompletes(w1, admin, i.identityId, admin, j, first, d, x);
  }

  lemma AwaitingPending(w: World, i: Identity, role: Role, d: Device, x: Wallet)
    requires Awaiting(w, i.identityId, i, role, d, x)
    ensures i.status == Pending
  {
  }

  lemma ResumableAs(w: World, i: Identity, j: Identity, x: Wallet)
    requires Resumable(w.env, w.chain, i, x) && j.identityId == i.identityId
    ensures Resumable(w.env, w.chain, j, x)
  {
  }

  // ------------------------------------------------- stopping between the saves

  /** Nobody ever gets past the guards of activateRegistration for this identity again,
      whatever is called in between. */
  ghost predicate Stranded(w: World, id: string) {
    forall calls, actorId, userId :: FreshRun(w, calls) ==> Refused(PerformAll(w, calls), actorId, userId, id)
  }

  predicate Refused(v: World, actorId: string, userId: string, id: string) {
    Resolve(v, userId).Some? && Resolve(v, userId).value.identityId == id ==> PlanActivateRegistration(v, actorId, userId).Refuse?
  }

  /** A process that stops after `n` effects of the activation strands the registration, in
      every continuation, exactly when the chain sequence went through and the first save
      has happened, but not the last. */
  lemma CrashRecovery(w: World, actorId: string, actor: string, i: Identity, role: Role, d: Device, x: Wallet, n: nat)
    requires n <= 6 && IdentitiesKeyed(w.identities.rows) && i.identityId != ""
    requires i.identityId in w.identities.rows && w.identities.rows[i.identityId] == i
    requires PlanActivateRegistration(w, actorId, i.identityId) == Go(ActivationScript(actor, i, role, d, x))
    ensures var (v, r) := Run(w, ActivationScript(actor, i, role, d, x)[..n]);
            Stranded(v, i.identityId) <==> n >= 4 && r == Ok
  {
    hide PlanActivateRegistration, FreshRun, PerformAll, RunFrom, Refused;
    var s := ActivationScript(actor, i, role, d, x)[..n];
    var (v, r) := Run(w, s);
    if n >= 4 && r == Ok {
      var w1 := RunOnChain(w, s, 0, 3);
      SavesSettle(w1, s);
      forall calls, a, u | FreshRun(v, calls) ensures Refused(PerformAll(v, calls), a, u, i.identityId) {
        RunSettled(v, calls, i.identityId);
        SettledRefused(PerformAll(v, calls), a, u, i.identityId);
      }
    } else {
      StoppedBefore(w, s);
      EmptyRun(v);
      NotRefused(w, v, actorId, i.identityId);
      assert !Refused(PerformAll(v, []), actorId, i.identityId, i.identityId);
    }
  }

  /** The saves never fail, and the first of them settles the identity. */
  lemma SavesSettle(w: World, s: Script)
    requires 4 <= |s| <= 6 && s[3].SaveIdentity? && (|s| > 4 ==> s[4].SaveDevice?) && (|s| > 5 ==> s[5].SaveWallet?)
    ensures RunFrom(w, s, 3).0.identities == w.identities.Put(s[3].identity.identityId, s[3].identity) && RunFrom(w, s, 3).1 == Ok
  {
    hide RunFrom;
    RunSaveIdentity(w, s, 3);
    var v := w.(identities := w.identities.Put(s[3].identity.identityId, s[3].identity), granted := Logged(w.granted, s[3].grant));
    if |s| > 4 {
      RunSaveDevice(v, s, 4);
      v := v.(devices := v.devices.Put(s[4].device.deviceId, s[4].device));
    }
    if |s| > 5 {
      RunSaveWallet(v, s, 5);
      v := v.(wallets := v.wallets.Put(s[5].wallet.address, s[5].wallet));
    }
    RunEnd(v, s);
  }

  /** Stopped or failed before the first save, an activation leaves the records alone. */
  lemma StoppedBefore(w: World, s: Script)
    requires |s| <= 6 && (forall k :: 0 <= k < |s| && k < 3 ==> OnChainOnly(s[k]))
    requires (|s| > 3 ==> s[3].SaveIdentity?) && (|s| > 4 ==> s[4].SaveDevice?) && (|s| > 5 ==> s[5].SaveWallet?)
    requires |s| < 4 || Run(w, s).1 != Ok
    ensures SameRecords(w, Run(w, s).0)
  {
    hide RunFrom;
    var n := if |s| < 3 then |s| else 3;
    var w1 := RunOnChain(w, s, 0, n);
    if n == |s| {
      RunEnd(w1, s);
    } else {
      SavesSettle(w1, s);
    }
  }

  lemma NotRefused(w: World, v: World, actorId: string, id: string)
    requires SameRecords(w, v) && PlanActivateRegistration(w, actorId, id).Go? && id in w.identities.rows
    requires w.identities.rows[id].identityId == id
    ensures !Refused(v, actorId, id, id)
  {
    hide FindDevice, FindWallet, FindByEmployee;
  }

  lemma EmptyRun(w: World)
    ensures FreshRun(w, []) && PerformAll(w, []) == w
  {
  }

  lemma SettledRefused(v: World, actorId: string, userId: string, id: string)
    requires IdentitiesKeyed(v.identities.rows) && id in v.identities.rows && v.identities.rows[id].status != Pending
    ensures Refused(v, actorId, userId, id)
  {
    ResolvedSelf(v, userId);
    hide FindDevice, FindWallet, FindByEmployee;
  }
}
