/** Any number of identity calls in flight at once, interleaved effect by effect, over a
    chain that others may also move forward. A process that stops is a machine whose
    threads are never scheduled again. */
module Interleaving {
  import opened Prelude
  import opened IdentityModel

  /** The shared world, what is left of each call in flight, and every generated
      challenge identifier drawn so far. */
  datatype Machine = Machine(w: World, threads: map<nat, Script>, drawn: set<string>)

  predicate SameBinding(c: Challenge, c': Challenge) {
    c' == c.(used := c'.used) && (c.used ==> c'.used)
  }

  /** What the guards of a call read. They read over several suspension points, so `view` may
      be arbitrarily stale or torn between its rows, and what is looked up more than once
      may differ each time: the identities that `actor`, `target` and the holder of an
      employee id resolve to, the other active wallets of an activation, and, `again`, the
      records behind a fresh authentication are whatever those lookups returned. */
  datatype Reads = Reads(
    view: World, again: World, actor: Option<Identity>, target: Option<Identity>, holder: Option<Identity>, others: seq<Wallet>)

  /** The plan of a call on its own readings. */
  function PlanOn(r: Reads, c: Call): Planned {
    match c
    case CreateUser(e, role, given, id, dep, status, _) => CreateUserOn(r.view, r.holder, r.actor, e, role, given, id, dep, status)
    case VerifyRegistration(_, _, e, d) => VerifyRegistrationOn(r.actor, r.target, r.holder, e, d)
    case ActivateRegistration(_, _) => ActivateRegistrationOn(r.view, r.actor, r.target)
    case RegisterDevice(_, d, credential, pk) => RegisterDeviceOn(r.view, r.target, d, credential, pk)
    case RevokeDevice(d, _) => RevokeDeviceOn(r.view, r.actor, d)
    case RegisterWallet(_, d, x) => RegisterWalletOn(r.view, r.target, d, x)
    case RevokeWallet(_, reason, _) => RevokeWalletOn(r.view, r.target, r.actor, reason)
    case ActivateWallet(_, d, x, _) => ActivateWalletOn(r.view, r.target, r.actor, r.others, d, x)
    case AssignRole(_, _, role) => AssignRoleOn(r.view, r.actor, r.target, role)
    case VerifyFresh(t, id, pk, sig, op, res, now) => VerifyFreshOn(r.view, r.again, t, id, pk, sig, op, res, now)
    case _ => Plan(r.view, c)
  }

  /** The readings of a call that reads everything at once. */
  function AtOnce(w: World, c: Call): Reads {
    match c
    case CreateUser(e, _, given, id, _, _, a) =>
      Reads(w, w, Resolve(w, if a.Some? then a.value else if given.Some? then given.value else id), None,
            FindByEmployee(w.identities, e), [])
    case VerifyRegistration(a, u, e, _) => Reads(w, w, Resolve(w, a), Resolve(w, u), FindByEmployee(w.identities, e), [])
    case ActivateRegistration(a, u) => Reads(w, w, Resolve(w, a), Resolve(w, u), None, [])
    case RegisterDevice(u, _, _, _) => Reads(w, w, None, Resolve(w, u), None, [])
    case RevokeDevice(d, a) =>
      var device := w.devices.Get(d);
      Reads(w, w, if device.None? then None else Resolve(w, if a.Some? then a.value else device.value.identityId), None, None, [])
    case RegisterWallet(u, _, _) => Reads(w, w, None, Resolve(w, u), None, [])
    case RevokeWallet(u, _, a) => Reads(w, w, Resolve(w, a), Resolve(w, u), None, [])
    case ActivateWallet(u, _, x, a) =>
      var target, existing := Resolve(w, u), w.wallets.Get(Trim(x));
      Reads(w, w, Resolve(w, a), target, None,
            if target.None? || existing.None? then [] else ActiveWalletsExcept(w.wallets, target.value.identityId, existing.value.address))
    case AssignRole(a, u, _) => Reads(w, w, Resolve(w, a), Resolve(w, u), None, [])
    case _ => Reads(w, w, None, None, None, [])
  }

  /** The calls as they run alone are among these. */
  lemma AloneIsOnePass(w: World, c: Call)
    ensures PlanOn(AtOnce(w, c), c) == Plan(w, c)
  {
    hide Resolve, FindByEmployee, CreateUserOn, VerifyRegistrationOn, ActivateRegistrationOn, RegisterDeviceOn, RevokeDeviceOn,
         RegisterWalletOn, RevokeWalletOn, ActivateWalletOn, AssignRoleOn, VerifyFreshOn, ActiveWalletsExcept, Trim;
  }

  /** A challenge record read earlier differs from today's at most in having been unused
      then, and a device row is always stored under its own id. */
  ghost predicate PastReads(r: Reads, w: World) {
    && r.view.env == w.env
    && (forall c :: c in r.view.challenges ==> c in w.challenges && SameBinding(r.view.challenges[c], w.challenges[c]))
    && (forall d :: d in r.view.devices.rows ==> r.view.devices.rows[d].deviceId == d)
  }

  /** The challenge identifier a call generates, if it generates one. */
  function DrawnBy(c: Call): set<string> {
    match c
    case RequestProvisioning(_, _, id, _, _) => {id}
    case RequestAuthentication(_, id, _, _) => {id}
    case RequestFresh(_, _, _, id, _, _) => {id}
    case _ => {}
  }

  /** Ranking none and PENDING below ACTIVE below REVOKED; no wallet is ever Suspended. */
  function Rank(s: Status): nat {
    match s
    case Pending => 0
    case Active => 1
    case Revoked => 2
    case Suspended => 3
  }

  function ChainRank(chain: Chain, a: string): nat {
    if a in chain.wallets then Rank(chain.wallets[a].status) else 0
  }

  /** The chain's rank for a wallet as it is spelled in the records. */
  function WalletRank(env: Env, chain: Chain, a: string): nat {
    ChainRank(chain, OnChain(env, a))
  }

  /** Wallets on the chain never go back. */
  ghost predicate ChainEvolves(chain: Chain, chain': Chain) {
    forall a :: ChainRank(chain, a) <= ChainRank(chain', a)
  }

  /** A call passes its guards and enters with its script. */
  ghost predicate Enter(m: Machine, m': Machine, t: nat, c: Call, r: Reads) {
    && t !in m.threads
    && PastReads(r, m.w)
    && DrawnBy(c) !! m.drawn
    && PlanOn(r, c).Go?
    && m' == m.(threads := m.threads[t := PlanOn(r, c).script], drawn := m.drawn + DrawnBy(c))
  }

  /** A call in flight takes its next step. */
  ghost predicate Act(m: Machine, m': Machine, t: nat) {
    && t in m.threads && m.threads[t] != []
    && match Exec(m.w, m.threads[t][0])
       case Done(w') => m' == m.(w := w', threads := m.threads[t := m.threads[t][1..]])
       case Become(w', a) => m' == m.(w := w', threads := m.threads[t := [a] + m.threads[t][1..]])
       case Throw(w', e) => m' == m.(w := w', threads := m.threads - {t})
  }

  /** Somebody else's transactions move the chain. */
  ghost predicate Elsewhere(m: Machine, m': Machine) {
    m' == m.(w := m.w.(chain := m'.w.chain)) && ChainEvolves(m.w.chain, m'.w.chain)
  }

  datatype Move = Entering(t: nat, call: Call, r: Reads) | Acting(t: nat) | Outside

  ghost predicate Next(m: Machine, m': Machine, move: Move) {
    match move
    case Entering(t, c, r) => Enter(m, m', t, c, r)
    case Acting(t) => Act(m, m', t)
    case Outside => Elsewhere(m, m')
  }

  /** A run: machines linked by moves. */
  ghost predicate IsRun(ms: seq<Machine>, moves: seq<Move>) {
    && |ms| == |moves| + 1
    && forall i :: 0 <= i < |moves| ==> Next(ms[i], ms[i + 1], moves[i])
  }

  // ------------------------------------------- the chain is never behind the records

  /** Every stored wallet status ranks at or below its chain status. */
  ghost predicate NeverBehind(w: World) {
    forall a :: a in w.wallets.rows ==> Rank(w.wallets.rows[a].status) <= WalletRank(w.env, w.chain, a)
  }

  predicate ConfirmsTx(tx: Tx, a: string, status: Status) {
    (status == Active && tx == WalletActivate(a)) || (status == Revoked && tx == WalletRevoke(a))
  }

  /** Effects that, once over, leave wallet `a` on the chain at `status` or beyond. */
  predicate Confirms(e: Action, a: string, status: Status) {
    match e
    case EnsureWalletActive(_, b) => a == b && status == Active
    case EnsureWalletRevoked(_, b) => a == b && status == Revoked
    case Submit(_, tx) => ConfirmsTx(tx, a, status)
    case CheckSender(_, tx) => ConfirmsTx(tx, a, status)
    case Send(_, tx) => ConfirmsTx(tx, a, status)
    case _ => false
  }

  /** A save is covered when the chain is already there, or an earlier effect of the same
      script will have confirmed it. */
  ghost predicate Covered(env: Env, chain: Chain, s: Script, i: nat)
    requires i < |s| && s[i].SaveWallet?
  {
    var x := s[i].wallet;
    || Rank(x.status) <= WalletRank(env, chain, x.address)
    || exists j :: 0 <= j < i && Confirms(s[j], x.address, x.status)
  }

  ghost predicate AllCovered(env: Env, chain: Chain, s: Script) {
    forall i :: 0 <= i < |s| && s[i].SaveWallet? ==> Covered(env, chain, s, i)
  }

  lemma ApplyEvolves(chain: Chain, sender: string, tx: Tx, a: string, status: Status)
    requires Apply(chain, sender, tx).Some?
    ensures ChainEvolves(chain, Apply(chain, sender, tx).value)
    ensures ConfirmsTx(tx, a, status) ==> Rank(status) <= ChainRank(Apply(chain, sender, tx).value, a)
  {
  }

  /** One step of any effect only moves the chain forward, and an effect that is over has
      confirmed whatever it confirms. */
  lemma ExecEvolves(w: World, e: Action, a: string, status: Status)
    requires w.env.evm
    ensures ChainEvolves(w.chain, Exec(w, e).w.chain) && Exec(w, e).w.env == w.env
    ensures Exec(w, e).Done? && Confirms(e, a, status) ==> Rank(status) <= WalletRank(w.env, Exec(w, e).w.chain, a)
    ensures Exec(w, e).Become? && Confirms(e, a, status) ==> Confirms(Exec(w, e).next, a, status)
    ensures Exec(w, e).Become? ==> !Exec(w, e).next.SaveWallet?
  {
    hide Apply, FindUser, ChainRole, SendStep;
    if e.Send? {
      SendEvolves(w, e.sender, e.tx, a, status);
      assert Exec(w, e) == SendStep(w, e.sender, e.tx);
    }
  }

  lemma SendEvolves(w: World, sender: string, tx: Tx, a: string, status: Status)
    requires w.env.evm
    ensures var p := SendStep(w, sender, tx);
            && !p.Become? && ChainEvolves(w.chain, p.w.chain) && p.w.env == w.env
            && (p.Done? && ConfirmsTx(tx, a, status) ==> Rank(status) <= WalletRank(w.env, p.w.chain, a))
  {
    hide Apply;
    var chain := w.chain.(submissions := w.chain.submissions + 1);
    assert ChainEvolves(w.chain, chain);
    var from, sent := OnChain(w.env, sender), AsSent(w.env, tx);
    if Apply(chain, from, sent).Some? { ApplyEvolves(chain, from, sent, OnChain(w.env, a), status); }
  }

  lemma ExecWallets(w: World, e: Action)
    ensures Exec(w, e).w.wallets == (if e.SaveWallet? then w.wallets.Put(e.wallet.address, e.wallet) else w.wallets)
  {
    hide Apply, FindUser, ChainRole;
  }

  /** Coverage survives the chain moving forward. */
  lemma CoveredLater(env: Env, chain: Chain, chain': Chain, s: Script)
    requires AllCovered(env, chain, s) && ChainEvolves(chain, chain')
    ensures AllCovered(env, chain', s)
  {
    forall i | 0 <= i < |s| && s[i].SaveWallet? ensures Covered(env, chain', s, i) {
      assert Covered(env, chain, s, i);
    }
  }

  /** ... and the script losing a head that is over. */
  lemma CoveredTail(env: Env, chain: Chain, s: Script)
    requires s != [] && AllCovered(env, chain, s)
    requires forall a, status :: Confirms(s[0], a, status) ==> Rank(status) <= WalletRank(env, chain, a)
    ensures AllCovered(env, chain, s[1..])
  {
    forall i | 0 <= i < |s[1..]| && s[1..][i].SaveWallet? ensures Covered(env, chain, s[1..], i) {
      assert Covered(env, chain, s, i + 1);
      var x := s[i + 1].wallet;
      if Rank(x.status) > WalletRank(env, chain, x.address) {
        var j :| 0 <= j < i + 1 && Confirms(s[j], x.address, x.status);
        assert j > 0 && s[1..][j - 1] == s[j];
      }
    }
  }

  /** ... and its head being replaced by the next form of the same effect. */
  lemma CoveredHead(env: Env, chain: Chain, s: Script, e: Action)
    requires s != [] && AllCovered(env, chain, s) && !e.SaveWallet?
    requires forall a, status :: Confirms(s[0], a, status) ==> Confirms(e, a, status)
    ensures AllCovered(env, chain, [e] + s[1..])
  {
    var s' := [e] + s[1..];
    forall i | 0 <= i < |s'| && s'[i].SaveWallet? ensures Covered(env, chain, s', i) {
      assert s'[i] == s[i] && Covered(env, chain, s, i);
      var x := s[i].wallet;
      if Rank(x.status) > WalletRank(env, chain, x.address) {
        var j :| 0 <= j < i && Confirms(s[j], x.address, x.status);
        assert Confirms(s'[j], x.address, x.status);
      }
    }
  }

  // ------------------------------------------------------ the scripts are covered

  predicate SavesPendingOnly(s: Script) {
    forall i :: 0 <= i < |s| && s[i].SaveWallet? ==> s[i].wallet.status == Pending
  }

  lemma PendingCovered(env: Env, chain: Chain, s: Script)
    requires SavesPendingOnly(s)
    ensures AllCovered(env, chain, s)
  {
  }

  lemma DeviceRevocationCovered(env: Env, chain: Chain, actor: string, d: Device, xs: seq<Wallet>)
    ensures AllCovered(env, chain, DeviceRevocationScript(actor, d, xs))
  {
    var s := DeviceRevocationScript(actor, d, xs);
    var n := |s| - |SaveRevoked(xs)|;
    if xs != [] { RevocationsConfirm(actor, xs, 0); }
    forall k | 0 <= k < |xs|
      ensures s[k] == EnsureWalletRevoked(actor, xs[k].address) && s[n + k] == SaveWallet(xs[k].(status := Revoked))
    {
      RevocationsConfirm(actor, xs, k);
      assert s[k] == RevokeOnChain(actor, xs)[k] && s[n + k] == SaveRevoked(xs)[k];
    }
    forall i | 0 <= i < |s| && s[i].SaveWallet? ensures Covered(env, chain, s, i) {
      var k := i - n;
      assert s[n + k] == SaveWallet(xs[k].(status := Revoked)) && Confirms(s[k], xs[k].address, Revoked);
    }
  }

  lemma WalletActivationCovered(env: Env, chain: Chain, actor: string, did: string, x: Wallet, olds: seq<Wallet>)
    ensures AllCovered(env, chain, WalletActivationScript(actor, did, x, olds))
  {
    var s := WalletActivationScript(actor, did, x, olds);
    var n := |ReplaceWallets(actor, olds)|;
    if olds != [] { ReplacementsAlternate(actor, olds, 0); }
    forall i | 0 <= i < |s| && s[i].SaveWallet? ensures Covered(env, chain, s, i) {
      if i < n {
        ReplacementsAlternate(actor, olds, i / 2);
        assert s[i] == ReplaceWallets(actor, olds)[i];
        if i % 2 == 1 { assert Confirms(s[i - 1], olds[i / 2].address, Revoked); }
      } else {
        assert s[n + 1] == EnsureWalletActive(actor, x.address);
        assert Confirms(s[n + 1], x.address, Active) && i == n + 2;
      }
    }
  }

  lemma ActivationCovered(env: Env, chain: Chain, actor: string, i: Identity, role: Role, d: Device, x: Wallet)
    ensures AllCovered(env, chain, ActivationScript(actor, i, role, d, x))
  {
    var s := ActivationScript(actor, i, role, d, x);
    assert Confirms(s[2], x.address, Active);
  }

  lemma RevokeWalletCovered(env: Env, chain: Chain, actor: string, x: Wallet)
    ensures AllCovered(env, chain, [Submit(actor, WalletRevoke(x.address)), SaveWallet(x.(status := Revoked))])
  {
    var s := [Submit(actor, WalletRevoke(x.address)), SaveWallet(x.(status := Revoked))];
    assert Confirms(s[0], x.address, Revoked);
  }

  /** The calls that move a wallet past PENDING. */
  predicate MovesWallets(c: Call) {
    c.ActivateRegistration? || c.RevokeDevice? || c.RevokeWallet? || c.ActivateWallet?
  }

  lemma OthersSavePending(r: Reads, c: Call)
    requires !MovesWallets(c) && PlanOn(r, c).Go?
    ensures SavesPendingOnly(PlanOn(r, c).script)
  {
    hide ActivateRegistrationOn, RevokeDeviceOn, RevokeWalletOn, ActivateWalletOn, FindUser, FindWallet, FindDevice,
         FindByEmployee, FindWalletOn, Trim, Backed, SessionLive, Employable;
  }

  /** Whatever its guards read, a call only saves wallet statuses it has confirmed. */
  lemma PlanCovered(env: Env, chain: Chain, r: Reads, c: Call)
    requires PlanOn(r, c).Go?
    ensures AllCovered(env, chain, PlanOn(r, c).script)
  {
    hide ActivationScript, DeviceRevocationScript, WalletActivationScript, AllCovered, FindUser, FindWallet, FindDevice, FindByEmployee,
         ActiveWalletsOn, ActiveWalletsExcept, Trim, CreateUserOn, VerifyRegistrationOn, RegisterDeviceOn, RegisterWalletOn, AssignRoleOn,
         VerifyFreshOn, Plan;
    if !MovesWallets(c) {
      OthersSavePending(r, c);
      PendingCovered(env, chain, PlanOn(r, c).script);
    } else {
      match c
      case ActivateRegistration(_, _) =>
        var i := r.target.value;
        ActivationCovered(env, chain, r.actor.value.identityId, i, i.role.value,
                          FindDevice(r.view.devices, i.identityId, Pending).value, FindWallet(r.view.wallets, i.identityId, Pending).value);
      case RevokeDevice(d, _) =>
        var device := r.view.devices.rows[d];
        DeviceRevocationCovered(env, chain, r.actor.value.identityId, device, ActiveWalletsOn(r.view.wallets, device.identityId, d));
      case ActivateWallet(_, _, x, _) =>
        WalletActivationCovered(env, chain, r.actor.value.identityId, r.target.value.identityId, r.view.wallets.rows[Trim(x)], r.others);
      case RevokeWallet(_, _, _) =>
        RevokeWalletCovered(env, chain, r.actor.value.identityId, FindWallet(r.view.wallets, r.target.value.identityId, Active).value);
    }
  }

  // ---------------------------------------------------------------- main result

  ghost predicate Safe(m: Machine) {
    m.w.env.evm && NeverBehind(m.w) && forall t :: t in m.threads ==> AllCovered(m.w.env, m.w.chain, m.threads[t])
  }

  lemma ActSafe(m: Machine, m': Machine, t: nat)
    requires Safe(m) && Act(m, m', t)
    ensures Safe(m')
  {
    hide AllCovered, Exec;
    var s := m.threads[t];
    var p := Exec(m.w, s[0]);
    ExecWallets(m.w, s[0]);
    ExecEvolves(m.w, s[0], "", Pending);
    forall a, status
      ensures p.Done? && Confirms(s[0], a, status) ==> Rank(status) <= WalletRank(m.w.env, p.w.chain, a)
      ensures p.Become? && Confirms(s[0], a, status) ==> Confirms(p.next, a, status)
    {
      ExecEvolves(m.w, s[0], a, status);
    }
    forall u | u in m.threads ensures AllCovered(m.w.env, p.w.chain, m.threads[u]) {
      CoveredLater(m.w.env, m.w.chain, p.w.chain, m.threads[u]);
    }
    if p.Done? { CoveredTail(m.w.env, p.w.chain, s); }
    if p.Become? { CoveredHead(m.w.env, p.w.chain, s, p.next); }
    HeadSave(m, t);
  }

  lemma HeadSave(m: Machine, t: nat)
    requires Safe(m) && t in m.threads && m.threads[t] != []
    ensures m.threads[t][0].SaveWallet? ==>
      Rank(m.threads[t][0].wallet.status) <= WalletRank(m.w.env, m.w.chain, m.threads[t][0].wallet.address)
  {
    var s := m.threads[t];
    assert AllCovered(m.w.env, m.w.chain, s);
    if s[0].SaveWallet? { assert Covered(m.w.env, m.w.chain, s, 0); }
  }

  lemma NextSafe(m: Machine, m': Machine, move: Move)
    requires Safe(m) && Next(m, m', move)
    ensures Safe(m')
  {
    hide AllCovered, PlanOn, Exec;
    match move
    case Entering(t, c, r) => PlanCovered(m.w.env, m.w.chain, r, c);
    case Acting(t) => ActSafe(m, m', t);
    case Outside =>
      forall u | u in m.threads ensures AllCovered(m'.w.env, m'.w.chain, m'.threads[u]) {
        CoveredLater(m.w.env, m.w.chain, m'.w.chain, m.threads[u]);
      }
  }

  /** Under every interleaving, rejection, lost answer and stop, and whatever else happens
      on the chain, no stored wallet status is ever ahead of the chain. */
  lemma {:induction false} ChainNeverBehind(ms: seq<Machine>, moves: seq<Move>, i: nat)
    requires IsRun(ms, moves) && i < |ms|
    requires ms[0].w.env.evm && NeverBehind(ms[0].w) && ms[0].threads == map[]
    ensures Safe(ms[i])
    decreases i
  {
    hide Next, AllCovered;
    if i > 0 {
      ChainNeverBehind(ms, moves, i - 1);
      NextSafe(ms[i - 1], ms[i], moves[i - 1]);
    }
  }
}
