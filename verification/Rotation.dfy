/** Replacing a wallet against the EVM registries: an administrator can do it for somebody
    else, but nobody can do it for themselves, and who tries is left without a wallet. */
module Rotation {
  import opened Prelude
  import opened IdentityModel
  import opened IdentityInvariant
  import opened IdentityRuns
  import opened WalletSafety
  import opened Registration
  import opened Facts
  import opened Outcomes
  import opened Journeys

  /** The script of a rotation that is let through. */
  lemma RotationPlanned(w: World, u: string, i: Identity, d: string, address: string, actorId: string, actor: Identity)
    requires Good(w) && Names(w, u, i) && Names(w, actorId, actor) && PlanActivateWallet(w, u, d, address, actorId).Go?
    ensures var a := Trim(address);
      && WalletIs(w, a, i.identityId, Pending) && w.wallets.rows[a].address == a
      && PlanActivateWallet(w, u, d, address, actorId).script
         == WalletActivationScript(actor.identityId, i.identityId, w.wallets.rows[a], ActiveWalletsExcept(w.wallets, i.identityId, a))
  {
    ResolvedExactly(w, u);
    ResolvedExactly(w, actorId);
    WalletKeys(w);
    hide Names, NamesNobody, Resolve, TrimStart, TrimEnd, FindUser, ActiveWalletsExcept, Good, WalletActivationScript;
  }

  // ------------------------------------------------------------------ by oneself

  /** What is active on the chain after replacements was so before. */
  ghost predicate NoneActivated(chain: Chain, chain': Chain) {
    forall k :: k in chain'.wallets && chain'.wallets[k].status == Active ==> k in chain.wallets && chain.wallets[k] == chain'.wallets[k]
  }

  lemma RevokeActivatesNone(w: World, actor: string, a: string)
    requires w.env.evm
    ensures NoneActivated(w.chain, Complete(w, Submit(actor, WalletRevoke(a))).0.chain)
  {
    hide Complete;
    SubmitEffect(w, actor, WalletRevoke(a));
  }

  lemma {:induction false} ReplacingActivatesNone(w: World, actor: string, xs: seq<Wallet>)
    requires w.env.evm
    ensures NoneActivated(w.chain, Run(w, ReplaceWallets(actor, xs)).0.chain)
    decreases |xs|
  {
    hide RunFrom, Complete;
    if xs == [] {
      RunEnd(w, []);
    } else {
      var s := [Submit(actor, WalletRevoke(xs[0].address)), SaveWallet(xs[0].(status := Revoked))];
      RunAppend(w, s, ReplaceWallets(actor, xs[1..]));
      assert ReplaceWallets(actor, xs) == s + ReplaceWallets(actor, xs[1..]);
      RunRevokeChain(w, actor, xs[0]);
      var w1 := Run(w, s).0;
      ReplacingActivatesNone(w1, actor, xs[1..]);
    }
  }

  lemma RunRevokeChain(w: World, actor: string, x: Wallet)
    requires w.env.evm
    ensures var s := [Submit(actor, WalletRevoke(x.address)), SaveWallet(x.(status := Revoked))];
      NoneActivated(w.chain, Run(w, s).0.chain) && Run(w, s).0.env == w.env
  {
    hide Complete;
    var s := [Submit(actor, WalletRevoke(x.address)), SaveWallet(x.(status := Revoked))];
    RevokeActivatesNone(w, actor, x.address);
    SubmitEffect(w, actor, WalletRevoke(x.address));
    var w1 := Complete(w, s[0]).0;
    if Complete(w, s[0]).1 == Ok {
      RunSaveWallet(w1, s, 1);
      RunEnd(w1.(wallets := w1.wallets.Put(x.address, s[1].wallet)), s);
    }
  }

  /** Without an active wallet nothing can be submitted in EVM mode, so only what the chain
      has already is recognised. */
  lemma SenderlessSwitch(w: World, actor: string, did: string, x: Wallet)
    requires w.env.evm && SenderOf(w, actor).None?
    ensures var k := OnChain(w.env, x.address);
      Run(w, WalletActivationScript(actor, did, x, [])).1 == Ok ==> k in w.chain.wallets && w.chain.wallets[k] == ChainWallet(did, Active)
  {
    hide OnChain, SenderOf;
    var s := WalletActivationScript(actor, did, x, []);
    assert s[0] == EnsureIdentityCreated(actor, did, x.address) && s[1] == EnsureWalletActive(actor, x.address);
    SubmissionSender(w, actor, IdentityCreate(x.address, did));
    SubmissionSender(w, actor, WalletActivate(x.address));
    var k := OnChain(w.env, x.address);
    if k !in w.chain.wallets {
      assert Complete(w, s[0]) == Complete(w, Submit(actor, IdentityCreate(x.address, did)));
    } else if w.chain.wallets[k].did == did {
      assert Complete(w, s[0]) == (w, Ok);
      assert RunFrom(w, s, 0) == RunFrom(w, s, 1);
      if w.chain.wallets[k].status !in {Active, Revoked} {
        assert Complete(w, s[1]) == Complete(w, Submit(actor, WalletActivate(x.address)));
      }
    }
  }

  lemma NobodyActive(w: World, id: string, a: string, k: nat)
    requires Good(w) && a in w.wallets.rows && w.wallets.rows[a].status == Pending
    requires var olds := ActiveWalletsExcept(w.wallets, id, a); 0 < k <= |olds| || (k == 0 && olds == [])
    ensures var t := RevokeAll(w.wallets, ActiveWalletsExcept(w.wallets, id, a)[..k]).rows;
      forall b :: b in t && t[b].identityId == id ==> t[b].status != Active
  {
    hide Good;
    var olds := ActiveWalletsExcept(w.wallets, id, a);
    OthersCopied(w, id, a);
    WalletKeys(w);
    hide ActiveWalletsExcept;
    forall b | b in w.wallets.rows && w.wallets.rows[b].identityId == id && w.wallets.rows[b].status == Active
      ensures olds != [] && b == olds[0].address
    {
      assert w.wallets.rows[b] in olds;
      OneAddress(w, olds[0].address, b);
    }
    assert forall y :: y in olds[..k] ==> y in olds;
    assert k > 0 ==> olds[..k][0] == olds[0];
    LastGone(w.wallets, olds[..k], id);
  }

  lemma LastGone(t: Table<Wallet>, xs: seq<Wallet>, id: string)
    requires forall x :: x in xs ==> x.address in t.rows && t.rows[x.address] == x
    requires forall b :: b in t.rows && t.rows[b].identityId == id && t.rows[b].status == Active ==> xs != [] && b == xs[0].address
    ensures var t' := RevokeAll(t, xs).rows; forall b :: b in t' && t'[b].identityId == id ==> t'[b].status != Active
  {
    RevokedExactly(t, xs);
    hide RevokeAll;
    assert xs != [] ==> xs[0] in xs;
  }

  lemma OneAddress(w: World, a: string, b: string)
    requires Good(w) && a in w.wallets.rows && b in w.wallets.rows && w.wallets.rows[a].status == Active && w.wallets.rows[b].status == Active
    requires w.wallets.rows[a].identityId == w.wallets.rows[b].identityId
    ensures a == b
  {
    hide UserRows, ActivePlaced, Onboarding, SessionsSound, RowWallets, EmployeesUnique;
  }

  /** Whoever replaces their own active wallet in EVM mode succeeds only if the registry had
      activated the new one before; otherwise nothing has happened, or they are left without
      any active wallet: their old one is revoked, and it was the one to sign the rest. */
  lemma SelfRotationStrands(w: World, u: string, i: Identity, d: string, address: string, actorId: string, current: string)
    requires Good(w) && w.env.evm && Names(w, u, i) && Names(w, actorId, i) && WalletIs(w, current, i.identityId, Active)
    ensures var (w', r) := Perform(w, ActivateWallet(u, d, address, actorId)); var k := OnChain(w.env, Trim(address));
      && (r == Ok ==> k in w.chain.wallets && w.chain.wallets[k] == ChainWallet(i.identityId, Active))
      && (r != Ok ==> w'.wallets.rows == w.wallets.rows || forall b :: !WalletIs(w', b, i.identityId, Active))
  {
    hide Good, Run, PlanActivateWallet, ActiveWalletsExcept, RevokeAll, OnChain, TrimStart, TrimEnd, Names, FindUser, ReplaceWallets;
    if PlanActivateWallet(w, u, d, address, actorId).Go? {
      RotationPlanned(w, u, i, d, address, actorId, i);
      var a, did := Trim(address), i.identityId;
      var x, olds := w.wallets.rows[a], ActiveWalletsExcept(w.wallets, i.identityId, a);
      assert WalletActivationScript(did, did, x, olds) == ReplaceWallets(did, olds) + WalletActivationScript(did, did, x, []) by {
        EmptyReplacement(did, x, olds);
      }
      RunAppend(w, ReplaceWallets(did, olds), WalletActivationScript(did, did, x, []));
      var k := RunReplaceWallets(w, did, olds);
      var (w1, r1) := Run(w, ReplaceWallets(did, olds));
      OldListed(w, current, did, a);
      if r1 == Ok {
        assert olds[..k] == olds;
        NobodyActive(w, did, a, k);
        OthersCopied(w, did, a);
        Senderless(w, w1, did, olds);
        SenderlessSwitch(w1, did, did, x);
        ReplacingActivatesNone(w, did, olds);
        RunSwitch(w1, did, did, x);
      } else if k > 0 {
        NobodyActive(w, did, a, k);
      } else {
        assert olds[..0] == [] && RevokeAll(w.wallets, []) == w.wallets by { NothingRevoked(w.wallets); }
      }
    }
  }

  lemma NothingRevoked(t: Table<Wallet>)
    ensures RevokeAll(t, []) == t
  {
  }

  lemma EmptyReplacement(did: string, x: Wallet, olds: seq<Wallet>)
    ensures WalletActivationScript(did, did, x, olds) == ReplaceWallets(did, olds) + WalletActivationScript(did, did, x, [])
  {
  }

  lemma OldListed(w: World, current: string, did: string, a: string)
    requires Good(w) && WalletIs(w, current, did, Active) && a in w.wallets.rows && w.wallets.rows[a].status == Pending
    ensures ActiveWalletsExcept(w.wallets, did, a) != []
  {
    hide Good;
    OthersCopied(w, did, a);
    hide ActiveWalletsExcept;
    assert w.wallets.rows[current] in ActiveWalletsExcept(w.wallets, did, a);
  }

  lemma Senderless(w: World, w1: World, did: string, olds: seq<Wallet>)
    requires Good(w) && CopiesOf(w.wallets, olds) && RevokedUpTo(w, RevokeAll(w.wallets, olds), w1)
    requires forall b :: b in w1.wallets.rows && w1.wallets.rows[b].identityId == did ==> w1.wallets.rows[b].status != Active
    ensures SenderOf(w1, did).None?
  {
    hide Good, RevokeAll, SenderOf;
    KeepRevokedList(w, olds);
    GoodIgnoresChain(w.(wallets := RevokeAll(w.wallets, olds)), w1);
    SenderIsActiveWallet(w1, did, if SenderOf(w1, did).Some? then SenderOf(w1, did).value else "");
  }

  lemma GoodIgnoresChain(w: World, w': World)
    requires Good(w) && SameRecords(w, w')
    ensures Good(w')
  {
    hide RecordsSound, SessionsSound;
  }

  // ----------------------------------------------------------- by an administrator

  /** Rows are keyed once, and no two of them are one wallet to the registries. */
  ghost predicate Distinct(w: World) {
    && (forall p, q :: 0 <= p < q < |w.wallets.keys| ==> w.wallets.keys[p] != w.wallets.keys[q])
    && (forall a, b :: a in w.wallets.rows && b in w.wallets.rows && a != b ==> OnChain(w.env, a) != OnChain(w.env, b))
  }

  /** A filter that matches at most one key, among distinct keys, yields at most one row. */
  lemma {:induction false} AtMostOne<V(!new)>(t: Table<V>, p: V -> bool, n: nat, k: string)
    requires n <= |t.keys| && forall i, j :: 0 <= i < j < |t.keys| ==> t.keys[i] != t.keys[j]
    requires forall b :: b in t.rows && p(t.rows[b]) ==> b == k
    ensures |t.FilterFrom(p, n)| <= 1 && ((forall i :: n <= i < |t.keys| ==> t.keys[i] != k) ==> t.FilterFrom(p, n) == [])
    decreases |t.keys| - n
  {
    if n < |t.keys| { AtMostOne(t, p, n + 1, k); }
  }

  lemma OneOld(w: World, id: string, a: string, current: string)
    requires Good(w) && Distinct(w) && WalletIs(w, current, id, Active) && a in w.wallets.rows && w.wallets.rows[a].status == Pending
    ensures ActiveWalletsExcept(w.wallets, id, a) == [w.wallets.rows[current]]
  {
    OldListed(w, current, id, a);
    OthersCopied(w, id, a);
    forall b | b in w.wallets.rows && w.wallets.rows[b].identityId == id && w.wallets.rows[b].status == Active ensures b == current {
      OneAddress(w, b, current);
    }
    hide Good;
    AtMostOne(w.wallets, (x: Wallet) => x.identityId == id && x.status == Active && x.address != a, 0, current);
    var olds := ActiveWalletsExcept(w.wallets, id, a);
    assert |olds| == 1 && olds[0] in olds;
  }

  /** An administrator's rotation for somebody else goes through whenever the registry has the
      old wallet unrevoked and can take the new one. */
  lemma RotationCompletes(w: World, u: string, i: Identity, d: string, address: string, admin: Identity, current: string)
    requires Ready(w, admin) && Distinct(w) && Names(w, u, i) && admin.identityId != i.identityId && Registrable(i.identityId)
    requires WalletIs(w, current, i.identityId, Active) && PlanActivateWallet(w, u, d, address, admin.identityId).Go?
    requires var k := OnChain(w.env, current); k in w.chain.wallets && w.chain.wallets[k].status in {Pending, Active}
    requires Trim(address) in w.wallets.rows && Resumable(w.env, w.chain, i, w.wallets.rows[Trim(address)])
    ensures Perform(w, ActivateWallet(u, d, address, admin.identityId)).1 == Ok
  {
    hide Good, Run, PlanActivateWallet, ActiveWalletsExcept, OnChain, TrimStart, TrimEnd, Names, FindUser, MayOnboard, NoMoreFailures, Distinct,
         Resumable, Registrable, WalletActivationScript;
    AdminNamed(w, admin);
    RotationPlanned(w, u, i, d, address, admin.identityId, admin);
    var a := Trim(address);
    var x, y := w.wallets.rows[a], w.wallets.rows[current];
    OneOld(w, i.identityId, a, current);
    WalletKeys(w);
    TailOf(admin.identityId, i.identityId, x, y);
    var s := [Submit(admin.identityId, WalletRevoke(y.address)), SaveWallet(y.(status := Revoked))];
    RunAppend(w, s, WalletActivationScript(admin.identityId, i.identityId, x, []));
    var w1 := OldGone(w, admin, i, x, y);
    SwitchCompletes(w1, admin.identityId, i, x);
  }

  lemma AdminNamed(w: World, admin: Identity)
    requires IdentityRow(w, admin)
    ensures Names(w, admin.identityId, admin)
  {
  }

  lemma TailOf(actor: string, did: string, x: Wallet, y: Wallet)
    ensures WalletActivationScript(actor, did, x, [y])
         == [Submit(actor, WalletRevoke(y.address)), SaveWallet(y.(status := Revoked))] + WalletActivationScript(actor, did, x, [])
  {
    assert ReplaceWallets(actor, [y]) == [Submit(actor, WalletRevoke(y.address)), SaveWallet(y.(status := Revoked))] + ReplaceWallets(actor, []);
  }

  lemma OldGone(w: World, admin: Identity, i: Identity, x: Wallet, y: Wallet) returns (w2: World)
    requires Ready(w, admin) && Distinct(w) && admin.identityId != i.identityId && Resumable(w.env, w.chain, i, x)
    requires WalletIs(w, x.address, i.identityId, Pending) && WalletIs(w, y.address, i.identityId, Active) && w.wallets.rows[y.address] == y
    requires var k := OnChain(w.env, y.address); k in w.chain.wallets && w.chain.wallets[k].status in {Pending, Active}
    ensures Run(w, [Submit(admin.identityId, WalletRevoke(y.address)), SaveWallet(y.(status := Revoked))]) == (w2, Ok)
    ensures w2.env == w.env && NoMoreFailures(w2) && MayOnboard(w2, admin.identityId) && Resumable(w2.env, w2.chain, i, x)
  {
    hide Good, Complete, OnChain;
    var actor := admin.identityId;
    var s := [Submit(actor, WalletRevoke(y.address)), SaveWallet(y.(status := Revoked))];
    var w1 := Sent(w, actor, WalletRevoke(y.address));
    RevocationApplies(w, actor, y.address);
    RunSaveWallet(w1, s, 1);
    w2 := w1.(wallets := w1.wallets.Put(y.address, s[1].wallet));
    RunEnd(w2, s);
    SenderApart(w, actor, i.identityId, y.address);
    OthersStand(w, w2, actor, y);
    ResumableStill(w, w2, OnChain(w.env, SenderOf(w, actor).value), i, x, y);
  }

  /** The administrator's wallet is another one, on the chain too. */
  lemma SenderApart(w: World, actor: string, id: string, a: string)
    requires Good(w) && Distinct(w) && SenderOf(w, actor).Some? && actor != id && WalletIs(w, a, id, Active)
    ensures SenderOf(w, actor).value in w.wallets.rows && SenderOf(w, actor).value != a
    ensures OnChain(w.env, SenderOf(w, actor).value) != OnChain(w.env, a)
  {
    hide Good, SenderOf, OnChain;
    SenderIsActiveWallet(w, actor, SenderOf(w, actor).value);
  }

  lemma OthersStand(w: World, w2: World, actor: string, y: Wallet)
    requires MayOnboard(w, actor) && SenderOf(w, actor).value != y.address
    requires OnChain(w.env, SenderOf(w, actor).value) != OnChain(w.env, y.address)
    requires w2.env == w.env && w2.users == w.users && w2.wallets == w.wallets.Put(y.address, y.(status := Revoked))
    requires Some(w2.chain) == Apply(w.chain.(submissions := w.chain.submissions + 1), OnChain(w.env, SenderOf(w, actor).value),
                                     WalletRevoke(OnChain(w.env, y.address)))
    ensures MayOnboard(w2, actor)
  {
    hide FindUser, OnChain;
  }

  lemma ResumableStill(w: World, w2: World, sender: string, i: Identity, x: Wallet, y: Wallet)
    requires Resumable(w.env, w.chain, i, x) && Distinct(w) && x.address in w.wallets.rows && y.address in w.wallets.rows && x.address != y.address
    requires w2.env == w.env
    requires Some(w2.chain) == Apply(w.chain.(submissions := w.chain.submissions + 1), sender, WalletRevoke(OnChain(w.env, y.address)))
    ensures Resumable(w2.env, w2.chain, i, x)
  {
    hide OnChain;
  }

  lemma SwitchCompletes(w: World, actor: string, i: Identity, x: Wallet)
    requires w.env.evm && NoMoreFailures(w) && MayOnboard(w, actor) && Resumable(w.env, w.chain, i, x) && Registrable(i.identityId)
    ensures Run(w, WalletActivationScript(actor, i.identityId, x, [])).1 == Ok
  {
    hide NoMoreFailures, MayOnboard, Resumable, Complete, FindUser, OnChain, Registrable;
    var s := WalletActivationScript(actor, i.identityId, x, []);
    var w1 := CreateResumes(w, actor, i, x);
    assert RunFrom(w, s, 0) == RunFrom(w1, s, 1);
    var w2 := WalletResumes(w1, actor, i, x);
    assert RunFrom(w1, s, 1) == RunFrom(w2, s, 2);
    RunSaveWallet(w2, s, 2);
    var w3 := w2.(wallets := w2.wallets.Put(x.address, x.(status := Active)));
    RunRepoint(w3, s, 3);
    var u := FindUser(w3.users, i.identityId);
    RunEnd(if u.Some? then w3.(users := w3.users.Put(u.value.employeeId, u.value.(walletAddress := x.address))) else w3, s);
  }

  /** That is what happens to an administrator who replaces their own wallet with nothing
      going wrong: the old one is revoked, and they are left without. */
  lemma SelfRotationLoses(w: World, u: string, i: Identity, d: string, address: string, current: string)
    requires Ready(w, i) && Distinct(w) && Names(w, u, i) && WalletIs(w, current, i.identityId, Active)
    requires PlanActivateWallet(w, u, d, address, i.identityId).Go?
    requires var k := OnChain(w.env, current); k in w.chain.wallets && w.chain.wallets[k].status in {Pending, Active}
    requires var k := OnChain(w.env, Trim(address)); !(k in w.chain.wallets && w.chain.wallets[k] == ChainWallet(i.identityId, Active))
    ensures var (w', r) := Perform(w, ActivateWallet(u, d, address, i.identityId)); r != Ok && forall b :: !WalletIs(w', b, i.identityId, Active)
  {
    hide Good, Run, PlanActivateWallet, ActiveWalletsExcept, OnChain, TrimStart, TrimEnd, Names, FindUser, MayOnboard, NoMoreFailures, Distinct,
         WalletActivationScript;
    AdminNamed(w, i);
    SelfRotationStrands(w, u, i, d, address, i.identityId, current);
    RotationPlanned(w, u, i, d, address, i.identityId, i);
    var x, y, did := w.wallets.rows[Trim(address)], w.wallets.rows[current], i.identityId;
    OneOld(w, did, Trim(address), current);
    WalletKeys(w);
    TailOf(did, did, x, y);
    var s := [Submit(did, WalletRevoke(y.address)), SaveWallet(y.(status := Revoked))];
    RunAppend(w, s, WalletActivationScript(did, did, x, []));
    var w2 := RevokedOnce(w, i, y);
    RunSwitch(w2, did, did, x);
    assert w2.wallets.rows[current].status == Revoked;
  }

  lemma RevokedOnce(w: World, admin: Identity, y: Wallet) returns (w2: World)
    requires Ready(w, admin) && var k := OnChain(w.env, y.address); k in w.chain.wallets && w.chain.wallets[k].status in {Pending, Active}
    ensures Run(w, [Submit(admin.identityId, WalletRevoke(y.address)), SaveWallet(y.(status := Revoked))]) == (w2, Ok)
    ensures w2.wallets == w.wallets.Put(y.address, y.(status := Revoked))
  {
    hide Good, Complete, OnChain, MayOnboard, NoMoreFailures;
    var s := [Submit(admin.identityId, WalletRevoke(y.address)), SaveWallet(y.(status := Revoked))];
    var w1 := Sent(w, admin.identityId, WalletRevoke(y.address));
    RevocationApplies(w, admin.identityId, y.address);
    RunSaveWallet(w1, s, 1);
    w2 := w1.(wallets := w1.wallets.Put(y.address, s[1].wallet));
    RunEnd(w2, s);
  }
}
