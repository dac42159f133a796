/** Where every success comes from. In any interleaving, each session, registration and fresh
    authentication that a challenge ever bought goes back to one call that held a signature
    over that challenge's nonce, in time, under the key it found on record. */
module Provenance {
  import opened Prelude
  import opened IdentityModel
  import opened Interleaving

  /** The success an effect logs, if it logs one. */
  function Logs(a: Action): Option<Grant> {
    match a
    case SaveIdentity(_, g) => g
    case Consume(_, _, g) => g
    case SaveSession(_, g) => g
    case _ => None
  }

  ghost predicate Promises(s: Script, g: Grant) {
    exists i :: 0 <= i < |s| && Logs(s[i]) == Some(g)
  }

  /** A call that entered on this move, with a script that logs this success. */
  ghost predicate BoughtBy(move: Move, g: Grant) {
    move.Entering? && PlanOn(move.r, move.call).Go? && Promises(PlanOn(move.r, move.call).script, g)
  }

  ghost predicate Bought(moves: seq<Move>, n: nat, g: Grant)
    requires n <= |moves|
  {
    exists j :: 0 <= j < n && BoughtBy(moves[j], g)
  }

  ghost predicate AllBought(m: Machine, moves: seq<Move>, n: nat)
    requires n <= |moves|
  {
    && (forall g :: g in m.w.granted ==> Bought(moves, n, g))
    && (forall t, g :: t in m.threads && Promises(m.threads[t], g) ==> Bought(moves, n, g))
  }

  lemma ExecLogs(w: World, a: Action)
    ensures var p := Exec(w, a);
      && (p.Done? ==> p.w.granted == Logged(w.granted, Logs(a)))
      && (p.Become? ==> p.w.granted == w.granted && Logs(p.next).None?)
      && (p.Throw? ==> p.w.granted == w.granted)
  {
    hide Apply, FindUser, ChainRole;
  }

  lemma BoughtLater(moves: seq<Move>, n: nat, g: Grant)
    requires n < |moves| && Bought(moves, n, g)
    ensures Bought(moves, n + 1, g)
  {
  }

  lemma ActBought(m: Machine, m': Machine, t: nat, moves: seq<Move>, n: nat)
    requires n < |moves| && AllBought(m, moves, n) && Act(m, m', t)
    ensures AllBought(m', moves, n + 1)
  {
    hide Exec, BoughtBy;
    var s := m.threads[t];
    ExecLogs(m.w, s[0]);
    forall g | g in m'.w.granted ensures Bought(moves, n + 1, g) {
      if g !in m.w.granted { assert Promises(s, g); }
      BoughtLater(moves, n, g);
    }
    forall u, g | u in m'.threads && Promises(m'.threads[u], g) ensures Bought(moves, n + 1, g) {
      if u == t {
        var i :| 0 <= i < |m'.threads[t]| && Logs(m'.threads[t][i]) == Some(g);
        assert Logs(s[if Exec(m.w, s[0]).Done? then i + 1 else i]) == Some(g);
        assert Promises(s, g);
      } else {
        assert Promises(m.threads[u], g);
      }
      BoughtLater(moves, n, g);
    }
  }

  lemma EnterBought(m: Machine, m': Machine, move: Move, moves: seq<Move>, n: nat)
    requires n < |moves| && moves[n] == move && move.Entering? && AllBought(m, moves, n)
    requires Enter(m, m', move.t, move.call, move.r)
    ensures AllBought(m', moves, n + 1)
  {
    hide PlanOn, Promises;
    forall g | g in m'.w.granted ensures Bought(moves, n + 1, g) { BoughtLater(moves, n, g); }
    forall u, g | u in m'.threads && Promises(m'.threads[u], g) ensures Bought(moves, n + 1, g) {
      if u == move.t { assert BoughtBy(moves[n], g); } else { BoughtLater(moves, n, g); }
    }
  }

  lemma {:induction false} RunBought(ms: seq<Machine>, moves: seq<Move>, n: nat)
    requires IsRun(ms, moves) && n <= |moves| && ms[0].threads == map[] && ms[0].w.granted == []
    ensures AllBought(ms[n], moves, n)
    decreases n
  {
    hide Enter, Act, AllBought;
    if n > 0 {
      RunBought(ms, moves, n - 1);
      assert Next(ms[n - 1], ms[n], moves[n - 1]);
      match moves[n - 1]
      case Entering(t, c, r) => EnterBought(ms[n - 1], ms[n], moves[n - 1], moves, n - 1);
      case Acting(t) => ActBought(ms[n - 1], ms[n], t, moves, n - 1);
      case Outside => OutsideBought(ms[n - 1], ms[n], moves, n - 1);
    } else {
      NothingYet(ms[0], moves);
    }
  }

  lemma OutsideBought(m: Machine, m': Machine, moves: seq<Move>, n: nat)
    requires n < |moves| && AllBought(m, moves, n) && Elsewhere(m, m')
    ensures AllBought(m', moves, n + 1)
  {
    hide Bought, Promises;
    forall g | g in m'.w.granted ensures Bought(moves, n + 1, g) { BoughtLater(moves, n, g); }
    forall u, g | u in m'.threads && Promises(m'.threads[u], g) ensures Bought(moves, n + 1, g) { BoughtLater(moves, n, g); }
  }

  lemma NothingYet(m: Machine, moves: seq<Move>)
    requires m.threads == map[] && m.w.granted == []
    ensures AllBought(m, moves, 0)
  {
  }

  // ------------------------------------------------------------ what a purchase took

  /** A record of the challenge as the store had it when the call entered, unexpired, of this
      purpose and device, and its nonce signed under this key. */
  predicate Proved(w: World, id: string, purpose: Purpose, deviceId: string, key: string, signature: string, now: int) {
    && id in w.challenges && w.challenges[id].purpose == purpose && w.challenges[id].deviceId == deviceId
    && now < w.challenges[id].expiresAt && w.env.proves(w.challenges[id].nonce, key, signature)
  }

  /** Against an EVM chain the key is the one the address is derived from. */
  predicate Derived(env: Env, key: string, address: string) {
    env.evm ==> env.derive(key).Some? && env.derive(key) == env.canonical(address)
  }

  /** An active device with this key, in an active identity. */
  predicate OnRecord(v: World, deviceId: string, key: string, identityId: string) {
    && deviceId in v.devices.rows && v.devices.rows[deviceId].status == Active && v.devices.rows[deviceId].publicKey == key != ""
    && v.devices.rows[deviceId].identityId in v.identities.rows
    && v.identities.rows[v.devices.rows[deviceId].identityId].identityId == identityId
    && v.identities.rows[v.devices.rows[deviceId].identityId].status == Active
  }

  ghost predicate ActiveWallet(v: World, address: string, identityId: string, deviceId: string) {
    exists k :: k in v.wallets.rows && v.wallets.rows[k].address == address && v.wallets.rows[k].status == Active
                && v.wallets.rows[k].identityId == identityId && v.wallets.rows[k].deviceId == deviceId
  }

  /** What the call must have been, must have read and must have known, for this success. */
  ghost predicate Justified(w: World, r: Reads, c: Call, g: Grant) {
    match g
    case ProofSession(id, s) =>
      && c.LoginWithProof? && c.challengeId == id && c.deviceId == s.deviceId && c.token == s.token
      && Proved(w, id, Authentication, s.deviceId, c.publicKey, c.signature, c.now)
      && OnRecord(r.view, s.deviceId, c.publicKey, s.identityId) && ActiveWallet(r.view, s.walletAddress, s.identityId, s.deviceId)
      && Derived(w.env, c.publicKey, s.walletAddress)
      && s.expiresAt == c.now + 1000 * (if c.ttl > 60 then c.ttl else 60)
    case Registration(id, deviceId, i) =>
      && c.InitializeAccount? && c.challengeId == id && c.deviceId == deviceId && c.attested
      && Proved(w, id, WalletInitialization, deviceId, c.publicKey, c.signature, c.now)
      && Derived(w.env, c.publicKey, c.walletAddress)
      && i == Identity(c.freshId, if Trim(c.employeeId) == "" then None else Some(Trim(c.employeeId)), None, Trim(c.department), Pending, None)
    case FreshAuth(id, deviceId, token, operation, resourceId) =>
      && c.VerifyFresh? && c.challengeId == id && c.token == token && c.operation == operation && c.resourceId == resourceId
      && Proved(w, id, FreshAuthentication, deviceId, c.publicKey, c.signature, c.now)
      && w.challenges[id].binding == Some(FreshBinding(operation, resourceId, w.env.hashToken(token)))
      && token in r.view.sessions && c.now < r.view.sessions[token].expiresAt && r.view.sessions[token].deviceId == deviceId
      && (exists owner :: OnRecord(r.again, deviceId, c.publicKey, owner))
      && r.view.sessions[token].walletAddress in r.again.wallets.rows
      && (var x := r.again.wallets.rows[r.view.sessions[token].walletAddress];
          x.status == Active && x.deviceId == deviceId && Derived(w.env, c.publicKey, x.address))
  }

  lemma LoginJustified(w: World, r: Reads, c: Call, g: Grant)
    requires PastReads(r, w) && c.LoginWithProof? && PlanOn(r, c).Go? && Promises(PlanOn(r, c).script, g)
    ensures Justified(w, r, c, g)
  {
    hide FindUser, Trim;
    assert SameBinding(r.view.challenges[c.challengeId], w.challenges[c.challengeId]);
    assert c.deviceId in r.view.devices.rows;
  }

  lemma RegistrationJustified(w: World, r: Reads, c: Call, g: Grant)
    requires PastReads(r, w) && c.InitializeAccount? && PlanOn(r, c).Go? && Promises(PlanOn(r, c).script, g)
    ensures Justified(w, r, c, g)
  {
    hide FindByEmployee, Trim;
    assert SameBinding(r.view.challenges[c.challengeId], w.challenges[c.challengeId]);
  }

  lemma FreshJustified(w: World, r: Reads, c: Call, g: Grant)
    requires PastReads(r, w) && c.VerifyFresh? && PlanOn(r, c).Go? && Promises(PlanOn(r, c).script, g)
    ensures Justified(w, r, c, g)
  {
    hide Trim;
    assert SameBinding(r.view.challenges[c.challengeId], w.challenges[c.challengeId]);
    var d := r.again.devices.rows[r.view.sessions[c.token].deviceId];
    assert OnRecord(r.again, r.view.sessions[c.token].deviceId, c.publicKey, r.again.identities.rows[d.identityId].identityId);
  }

  lemma OnlyTheseBuy(r: Reads, c: Call, g: Grant)
    requires PlanOn(r, c).Go? && Promises(PlanOn(r, c).script, g)
    ensures c.LoginWithProof? || c.InitializeAccount? || c.VerifyFresh?
  {
    hide FindUser, FindWallet, FindDevice, FindByEmployee, FindWalletOn, Trim, Backed, SessionLive, Employable, ActiveWalletsOn,
         DeviceRevocationScript, WalletActivationScript;
    if c.RevokeDevice? {
      QuietDeviceScript(r.actor.value.identityId, r.view.devices.rows[c.deviceId], ActiveWalletsOn(r.view.wallets, r.view.devices.rows[c.deviceId].identityId, c.deviceId));
    }
    if c.ActivateWallet? {
      QuietRotation(r.actor.value.identityId, r.target.value.identityId, r.view.wallets.rows[Trim(c.address)], r.others);
    }
  }

  predicate Quiet(s: Script) {
    forall i :: 0 <= i < |s| ==> Logs(s[i]).None?
  }

  lemma {:induction false} QuietParts(actor: string, xs: seq<Wallet>)
    ensures Quiet(RevokeOnChain(actor, xs)) && Quiet(SaveRevoked(xs)) && Quiet(ReplaceWallets(actor, xs))
    decreases |xs|
  {
    if xs != [] { QuietParts(actor, xs[1..]); }
  }

  lemma QuietDeviceScript(actor: string, d: Device, xs: seq<Wallet>)
    ensures Quiet(DeviceRevocationScript(actor, d, xs))
  {
    QuietParts(actor, xs);
    hide RevokeOnChain, SaveRevoked;
  }

  lemma QuietRotation(actor: string, did: string, x: Wallet, olds: seq<Wallet>)
    ensures Quiet(WalletActivationScript(actor, did, x, olds))
  {
    QuietParts(actor, olds);
    hide ReplaceWallets;
  }

  // ------------------------------------------------------------------ main result

  /** In every interleaving, every success on the log goes back to one call that entered
      earlier and was entitled to it: it held a signature, under the key on record, over the
      nonce of that very challenge, before it expired, and it found device, identity, wallet
      or session active; and what it was given is what it asked for. */
  lemma EverySuccessJustified(ms: seq<Machine>, moves: seq<Move>, n: nat, g: Grant)
    requires IsRun(ms, moves) && n <= |moves| && ms[0].threads == map[] && ms[0].w.granted == [] && g in ms[n].w.granted
    ensures exists j :: 0 <= j < n && moves[j].Entering? && PastReads(moves[j].r, ms[j].w) && Justified(ms[j].w, moves[j].r, moves[j].call, g)
  {
    hide PlanOn, Promises, Justified, PastReads;
    RunBought(ms, moves, n);
    assert Bought(moves, n, g);
    var j :| 0 <= j < n && BoughtBy(moves[j], g);
    assert Next(ms[j], ms[j + 1], moves[j]);
    var r, c := moves[j].r, moves[j].call;
    OnlyTheseBuy(r, c, g);
    if c.LoginWithProof? { LoginJustified(ms[j].w, r, c, g); }
    if c.InitializeAccount? { RegistrationJustified(ms[j].w, r, c, g); }
    if c.VerifyFresh? { FreshJustified(ms[j].w, r, c, g); }
  }
}
