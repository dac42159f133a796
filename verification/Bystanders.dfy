/** What calls about others leave alone of one registration: the records it rests on, and
    what the registries know of its identity and its wallet. */
module Bystanders {
  import opened Prelude
  import opened IdentityModel
  import opened IdentityInvariant

  // ------------------------------------------------------------------- records

  /** The identity's own row, and the pending device and wallet found for it. */
  predicate Found(w: World, i: Identity, d: Device, x: Wallet) {
    && i.identityId in w.identities.rows && w.identities.rows[i.identityId] == i
    && FindDevice(w.devices, i.identityId, Pending) == Some(d)
    && FindWallet(w.wallets, i.identityId, Pending) == Some(x)
  }

  /** Rows sit under their own keys. */
  ghost predicate OwnKeys(w: World) {
    && (forall k :: k in w.identities.rows ==> w.identities.rows[k].identityId == k)
    && (forall k :: k in w.devices.rows ==> w.devices.rows[k].deviceId == k)
    && (forall k :: k in w.wallets.rows ==> w.wallets.rows[k].address == k)
  }

  /** An effect that saves nothing of this identity, nor over its pending device or wallet. */
  predicate SparesRecords(a: Action, i: Identity, d: Device, x: Wallet) {
    match a
    case SaveIdentity(j, _) => j.identityId != i.identityId
    case SaveDevice(e) => e.deviceId != d.deviceId && e.identityId != i.identityId
    case SaveWallet(y) => y.address != x.address && y.identityId != i.identityId
    case _ => true
  }

  /** Setting a row that does not match leaves the first match alone, unless it was there. */
  lemma {:induction false} FirstStays<V(!new)>(t: Table<V>, p: V -> bool, k: string, v: V, r: V, n: nat)
    requires n <= |t.keys| && t.FindFrom(p, n) == Some(r) && !p(v) && (k in t.rows ==> t.rows[k] != r)
    ensures t.Put(k, v).FindFrom(p, n) == Some(r)
    decreases |t.keys| - n
  {
    assert n < |t.keys|;
    assert t.Put(k, v).keys[n] == t.keys[n];
    if !(t.keys[n] in t.rows && p(t.rows[t.keys[n]])) {
      FirstStays(t, p, k, v, r, n + 1);
    }
  }

  lemma SavedDevice(t: Table<Device>, id: string, e: Device, d: Device)
    requires FindDevice(t, id, Pending) == Some(d) && e.identityId != id
    requires e.deviceId in t.rows ==> t.rows[e.deviceId] != d
    ensures FindDevice(t.Put(e.deviceId, e), id, Pending) == Some(d)
  {
    FirstStays(t, (d: Device) => d.identityId == id && d.status == Pending, e.deviceId, e, d, 0);
  }

  lemma SavedWallet(t: Table<Wallet>, id: string, y: Wallet, x: Wallet)
    requires FindWallet(t, id, Pending) == Some(x) && y.identityId != id
    requires y.address in t.rows ==> t.rows[y.address] != x
    ensures FindWallet(t.Put(y.address, y), id, Pending) == Some(x)
  {
    FirstStays(t, (x: Wallet) => x.identityId == id && x.status == Pending, y.address, y, x, 0);
  }

  /** What a step does to the three tables. */
  lemma ExecTables(w: World, a: Action)
    ensures var p := Exec(w, a);
      && p.w.env == w.env
      && p.w.identities == (if a.SaveIdentity? then w.identities.Put(a.identity.identityId, a.identity) else w.identities)
      && p.w.devices == (if a.SaveDevice? then w.devices.Put(a.device.deviceId, a.device) else w.devices)
      && p.w.wallets == (if a.SaveWallet? then w.wallets.Put(a.wallet.address, a.wallet) else w.wallets)
      && (p.Become? ==> Weight(p.next) < Weight(a) && !p.next.SaveIdentity? && !p.next.SaveDevice? && !p.next.SaveWallet?)
  {
    hide Apply, FindUser, ChainRole;
  }

  lemma ExecSpares(w: World, a: Action, i: Identity, d: Device, x: Wallet)
    requires OwnKeys(w) && Found(w, i, d, x) && SparesRecords(a, i, d, x)
    ensures var p := Exec(w, a);
            && OwnKeys(p.w) && Found(p.w, i, d, x) && p.w.env == w.env
            && (p.Become? ==> SparesRecords(p.next, i, d, x) && Weight(p.next) < Weight(a))
  {
    hide Exec, FindDevice, FindWallet;
    ExecTables(w, a);
    match a
    case SaveDevice(e) => SavedDevice(w.devices, i.identityId, e, d);
    case SaveWallet(y) => SavedWallet(w.wallets, i.identityId, y, x);
    case _ =>
  }

  lemma {:induction false} CompleteSpares(w: World, a: Action, i: Identity, d: Device, x: Wallet)
    requires OwnKeys(w) && Found(w, i, d, x) && SparesRecords(a, i, d, x)
    ensures var w' := Complete(w, a).0; OwnKeys(w') && Found(w', i, d, x) && w'.env == w.env
    decreases Weight(a)
  {
    hide OwnKeys, Found, SparesRecords;
    ExecSpares(w, a, i, d, x);
    if Exec(w, a).Become? {
      hide Exec;
      CompleteSpares(Exec(w, a).w, Exec(w, a).next, i, d, x);
    }
  }

  lemma {:induction false} RunSparesRecords(w: World, s: Script, n: nat, i: Identity, d: Device, x: Wallet)
    requires n <= |s| && OwnKeys(w) && Found(w, i, d, x)
    requires forall k :: 0 <= k < |s| ==> SparesRecords(s[k], i, d, x)
    ensures var w' := RunFrom(w, s, n).0; OwnKeys(w') && Found(w', i, d, x) && w'.env == w.env
    decreases |s| - n
  {
    hide OwnKeys, Found, SparesRecords, Complete;
    if n < |s| {
      CompleteSpares(w, s[n], i, d, x);
      RunSparesRecords(Complete(w, s[n]).0, s, n + 1, i, d, x);
    }
  }

  // --------------------------------------------------------------------- chain

  /** A transaction about this identity or this wallet, as it arrives on the chain. */
  predicate Concerns(tx: Tx, did: string, a: string) {
    match tx
    case IdentityCreate(b, e) => b == a || e == did
    case RoleAssign(target, e, _) => target == Some(a) || e == did
    case WalletActivate(b) => b == a
    case WalletRevoke(b) => b == a
  }

  /** The transactions about them that took effect, in order. */
  function About(ledger: seq<Tx>, did: string, a: string): seq<Tx> {
    if ledger == [] then []
    else
      var last := ledger[|ledger| - 1];
      About(ledger[..|ledger| - 1], did, a) + if Concerns(last, did, a) then [last] else []
  }

  lemma AboutOneMore(ledger: seq<Tx>, tx: Tx, did: string, a: string)
    ensures About(ledger + [tx], did, a) == About(ledger, did, a) + if Concerns(tx, did, a) then [tx] else []
  {
    assert (ledger + [tx])[..|ledger|] == ledger;
  }

  /** The registries bind no other wallet to the identity. */
  ghost predicate OnlyWallet(chain: Chain, did: string, a: string) {
    forall b :: b in chain.wallets && chain.wallets[b].did == did ==> b == a
  }

  /** Nothing about them has changed on the chain. */
  ghost predicate SameCase(chain: Chain, chain': Chain, did: string, a: string) {
    && (a in chain'.wallets <==> a in chain.wallets)
    && (a in chain.wallets ==> chain'.wallets[a] == chain.wallets[a])
    && RolesOf(chain', did) == RolesOf(chain, did)
    && About(chain'.ledger, did, a) == About(chain.ledger, did, a)
    && OnlyWallet(chain', did, a)
  }

  predicate SparesChain(env: Env, e: Action, did: string, a: string) {
    match e
    case EnsureIdentityCreated(_, id, b) => !Concerns(AsSent(env, IdentityCreate(b, id)), did, a)
    case EnsureRoleAssigned(_, id, role, b) => !Concerns(AsSent(env, RoleAssign(Some(b), id, role)), did, a)
    case EnsureWalletActive(_, b) => !Concerns(AsSent(env, WalletActivate(b)), did, a)
    case EnsureWalletRevoked(_, b) => !Concerns(AsSent(env, WalletRevoke(b)), did, a)
    case Submit(_, tx) => !Concerns(AsSent(env, tx), did, a)
    case CheckSender(_, tx) => !Concerns(AsSent(env, tx), did, a)
    case Send(_, tx) => !Concerns(AsSent(env, tx), did, a)
    case _ => true
  }

  lemma ApplySpares(chain: Chain, sender: string, tx: Tx, did: string, a: string)
    requires OnlyWallet(chain, did, a) && !Concerns(tx, did, a) && did != ""
    ensures Apply(chain, sender, tx).Some? ==> SameCase(chain, Apply(chain, sender, tx).value, did, a)
  {
    hide MayCall, About;
    AboutOneMore(chain.ledger, tx, did, a);
  }

  lemma SendSpares(w: World, sender: string, tx: Tx, did: string, a: string)
    requires w.env.evm && OnlyWallet(w.chain, did, a) && !Concerns(AsSent(w.env, tx), did, a) && did != ""
    ensures var p := SendStep(w, sender, tx); !p.Become? && SameCase(w.chain, p.w.chain, did, a) && p.w.env == w.env
  {
    hide Apply, AsSent, OnChain, Concerns, About;
    var chain := w.chain.(submissions := w.chain.submissions + 1);
    ApplySpares(chain, OnChain(w.env, sender), AsSent(w.env, tx), did, a);
  }

  lemma {:induction false} CompleteSparesChain(w: World, e: Action, did: string, a: string)
    requires w.env.evm && OnlyWallet(w.chain, did, a) && SparesChain(w.env, e, did, a) && did != ""
    ensures var w' := Complete(w, e).0; SameCase(w.chain, w'.chain, did, a) && w'.env == w.env
    decreases Weight(e)
  {
    hide Apply, AsSent, OnChain, Concerns, About, FindUser, ChainRole, SendStep, OnlyWallet;
    SameSelf(w.chain, did, a);
    if e.Send? {
      SendSpares(w, e.sender, e.tx, did, a);
      assert Exec(w, e) == SendStep(w, e.sender, e.tx);
    } else if Exec(w, e).Become? {
      CompleteSparesChain(Exec(w, e).w, Exec(w, e).next, did, a);
    }
  }

  lemma SameSelf(chain: Chain, did: string, a: string)
    requires OnlyWallet(chain, did, a)
    ensures SameCase(chain, chain, did, a)
  {
  }

  lemma {:induction false} RunSparesChain(w: World, s: Script, n: nat, did: string, a: string)
    requires n <= |s| && w.env.evm && OnlyWallet(w.chain, did, a) && did != ""
    requires forall k :: 0 <= k < |s| ==> SparesChain(w.env, s[k], did, a)
    ensures var w' := RunFrom(w, s, n).0; SameCase(w.chain, w'.chain, did, a) && w'.env == w.env
    decreases |s| - n
  {
    hide SparesChain, OnlyWallet, About, Complete;
    SameSelf(w.chain, did, a);
    if n < |s| {
      CompleteSparesChain(w, s[n], did, a);
      RunSparesChain(Complete(w, s[n]).0, s, n + 1, did, a);
    }
  }

  // --------------------------------------------------------------------- roles

  /** The registries never take a role away: no transaction of the services revokes one. */
  lemma ApplyKeepsRoles(chain: Chain, sender: string, tx: Tx, did: string)
    ensures Apply(chain, sender, tx).Some? ==> RolesOf(chain, did) <= RolesOf(Apply(chain, sender, tx).value, did)
  {
    hide MayCall;
  }

  lemma {:induction false} CompleteKeepsRoles(w: World, e: Action, did: string)
    ensures RolesOf(w.chain, did) <= RolesOf(Complete(w, e).0.chain, did)
    decreases Weight(e)
  {
    hide Apply, AsSent, OnChain, FindUser, ChainRole;
    if e.Send? {
      ApplyKeepsRoles(w.chain.(submissions := w.chain.submissions + 1), OnChain(w.env, e.sender), AsSent(w.env, e.tx), did);
      assert Exec(w, e) == SendStep(w, e.sender, e.tx);
    } else if Exec(w, e).Become? {
      CompleteKeepsRoles(Exec(w, e).w, Exec(w, e).next, did);
    }
  }

  lemma {:induction false} RunKeepsRoles(w: World, s: Script, n: nat, did: string)
    requires n <= |s|
    ensures RolesOf(w.chain, did) <= RolesOf(RunFrom(w, s, n).0.chain, did)
    decreases |s| - n
  {
    hide Complete, RolesOf;
    if n < |s| {
      CompleteKeepsRoles(w, s[n], did);
      RunKeepsRoles(Complete(w, s[n]).0, s, n + 1, did);
    }
  }
}
