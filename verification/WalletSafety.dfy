/** Whole runs of identity calls: one active wallet per identity, in the right place, with a
    one-way lifecycle. */
module WalletSafety {
  import opened Prelude
  import opened IdentityModel
  import opened IdentityInvariant
  import opened IdentityRuns
  import opened RecordPermanence

  /** Calls whose generated identifiers are fresh, and whose identifiers, where the guards
      let the call through, are free in the form in which they are stored. */
  ghost predicate Admissible(w: World, calls: seq<Call>)
    decreases |calls|
  {
    calls == []
    || (FreshIds(w, calls[0]) && (Plan(w, calls[0]).Go? ==> IdsFree(w, calls[0])) && Admissible(Perform(w, calls[0]).0, calls[1..]))
  }

  /** What one call keeps: sound records, wallets that only advance, identities past
      onboarding as they are but for their role, and devices with their identity. */
  ghost predicate Preserved(w: World, w': World) {
    Kept(w, w') && AllSettled(w.identities.rows, w'.identities.rows) && DevicesStay(w.devices.rows, w'.devices.rows)
  }

  lemma CallPreserves(w: World, c: Call)
    requires Good(w) && FreshIds(w, c) && (Plan(w, c).Go? ==> IdsFree(w, c))
    ensures Preserved(w, Perform(w, c).0)
  {
    hide Perform, Kept, Plan;
    PerformKeeps(w, c);
    KeysOf(w);
    forall id ensures StaysSettled(w.identities.rows, Perform(w, c).0.identities.rows, id) {
      if c.CreateUser? && c.givenId == Some("") && id == "" {
        if !Plan(w, c).Go? { RefusedSame(w, c); SettledSelf(w.identities.rows, id); }
      } else {
        PerformSpares(w, c, id);
      }
    }
    PerformStays(w, c);
  }

  lemma RefusedSame(w: World, c: Call)
    requires !Plan(w, c).Go?
    ensures Perform(w, c).0 == w
  {
    hide Plan;
  }

  lemma KeysOf(w: World)
    requires Good(w)
    ensures IdentitiesKeyed(w.identities.rows) && DevicesKeyed(w.devices.rows)
  {
    hide UserRows, ActivePlaced, OneActive, Onboarding, SessionsSound, RowWallets, EmployeesUnique;
  }

  /** Any number of lifecycle steps. */
  predicate Later(before: Status, after: Status) {
    before == after || (before == Pending && after != Suspended) || (before == Active && after == Revoked)
  }

  /** What a whole run preserves: wallets stay where they are and only move forward, no
      record of an issued session is lost or rewritten, no identity past onboarding changes
      but in its role, and no device changes hands. */
  ghost predicate Carries(w: World, w': World) {
    && (forall a :: a in w.wallets.rows ==>
          && a in w'.wallets.rows
          && w'.wallets.rows[a] == w.wallets.rows[a].(status := w'.wallets.rows[a].status)
          && Later(w.wallets.rows[a].status, w'.wallets.rows[a].status))
    && (forall t :: t in w.issued ==> t in w'.issued && w'.issued[t] == w.issued[t])
    && w'.env == w.env
    && AllSettled(w.identities.rows, w'.identities.rows)
    && DevicesStay(w.devices.rows, w'.devices.rows)
  }

  lemma CarriesSelf(w: World)
    ensures Carries(w, w)
  {
    forall a | a in w.wallets.rows ensures w.wallets.rows[a] == w.wallets.rows[a].(status := w.wallets.rows[a].status) {}
    forall id ensures StaysSettled(w.identities.rows, w.identities.rows, id) { SettledSelf(w.identities.rows, id); }
  }

  lemma CarriesOn(w: World, w1: World, w2: World)
    requires Preserved(w, w1) && Carries(w1, w2)
    ensures Carries(w, w2)
  {
    hide Good;
    forall id ensures StaysSettled(w.identities.rows, w2.identities.rows, id) {
      assert StaysSettled(w.identities.rows, w1.identities.rows, id) && StaysSettled(w1.identities.rows, w2.identities.rows, id);
    }
  }

  /** The record invariant holds after every run, and wallets only ever move forward. */
  lemma {:induction false} RunKeeps(w: World, calls: seq<Call>)
    requires Good(w) && Admissible(w, calls)
    ensures Good(PerformAll(w, calls)) && Carries(w, PerformAll(w, calls))
    decreases |calls|
  {
    hide Good, Perform, Carries, Preserved;
    if calls == [] {
      CarriesSelf(w);
    } else {
      CallPreserves(w, calls[0]);
      assert Good(Perform(w, calls[0]).0) by { PreservedGood(w, Perform(w, calls[0]).0); }
      RunKeeps(Perform(w, calls[0]).0, calls[1..]);
      CarriesOn(w, Perform(w, calls[0]).0, PerformAll(w, calls));
    }
  }

  lemma PreservedGood(w: World, w': World)
    requires Preserved(w, w')
    ensures Good(w')
  {
  }

  /** In every reachable state an identity has at most one active wallet; it sits on an
      active device of that identity and is the one its user row names. */
  lemma ActiveWalletUnique(w: World, calls: seq<Call>, a: string, b: string)
    requires Good(w) && Admissible(w, calls)
    ensures var v := PerformAll(w, calls);
            a in v.wallets.rows && v.wallets.rows[a].status == Active ==>
              && var x := v.wallets.rows[a];
              && x.deviceId in v.devices.rows && v.devices.rows[x.deviceId].status == Active
              && v.devices.rows[x.deviceId].identityId == x.identityId
              && FindUser(v.users, x.identityId).Some? && FindUser(v.users, x.identityId).value.walletAddress == a
              && (b in v.wallets.rows && v.wallets.rows[b].status == Active && v.wallets.rows[b].identityId == x.identityId ==> a == b)
  {
    RunKeeps(w, calls);
    var v := PerformAll(w, calls);
    if a in v.wallets.rows && v.wallets.rows[a].status == Active {
      NamedByRow(v, a);
    }
  }

  lemma NamedByRow(v: World, a: string)
    requires Good(v) && a in v.wallets.rows && v.wallets.rows[a].status == Active
    ensures FindUser(v.users, v.wallets.rows[a].identityId).Some?
    ensures FindUser(v.users, v.wallets.rows[a].identityId).value.walletAddress == a
    ensures Placed(v.identities.rows, v.users.rows, v.devices.rows, v.wallets.rows[a])
  {
    hide OneActive, Onboarding, SessionsSound, RowWallets, EmployeesUnique;
    var x := v.wallets.rows[a];
    assert Placed(v.identities.rows, v.users.rows, v.devices.rows, x);
    assert OwnsRow(v.users.rows, x.identityId, v.identities.rows[x.identityId].employeeId.value);
  }

  // ------------------------------------------------------------ who submits

  /** Whose wallet a submission on behalf of `actor` is sent from, if anybody's. */
  function SenderOf(w: World, actor: string): Option<string> {
    var user := FindUser(w.users, actor);
    if user.Some? && user.value.walletAddress != "" && user.value.walletAddress in w.wallets.rows
       && w.wallets.rows[user.value.walletAddress].status == Active then Some(user.value.walletAddress)
    else None
  }

  /** The sender of a submission is the actor's unique active wallet, when there is one. */
  lemma SenderIsActiveWallet(w: World, actor: string, a: string)
    requires Good(w)
    ensures SenderOf(w, actor) == Some(a) <==>
      a in w.wallets.rows && w.wallets.rows[a].status == Active && w.wallets.rows[a].identityId == actor
  {
    hide Good;
    SenderOwns(w, actor);
    if a in w.wallets.rows && w.wallets.rows[a].status == Active && w.wallets.rows[a].identityId == actor {
      NamedByRow(w, a);
      AddressIsKey(w, a);
    }
  }

  /** Without an active wallet a submission goes out as SYSTEM, and in EVM mode not at all. */
  lemma SubmissionSender(w: World, actor: string, tx: Tx)
    ensures Complete(w, Submit(actor, tx)) ==
      (match SenderOf(w, actor)
       case Some(b) => Complete(w, Send(b, tx))
       case None => if w.env.evm then (w, Failed(Signer)) else Complete(w, Send(SYSTEM_WALLET, tx)))
  {
    hide SendStep;
    var user := FindUser(w.users, actor);
    var candidate := if user.Some? then user.value.walletAddress else "";
    assert Complete(w, Submit(actor, tx)) == Complete(w, CheckSender(candidate, tx));
  }

  lemma SenderOwns(w: World, actor: string)
    requires Good(w)
    ensures SenderOf(w, actor).Some? ==>
      && SenderOf(w, actor).value in w.wallets.rows
      && w.wallets.rows[SenderOf(w, actor).value].status == Active
      && w.wallets.rows[SenderOf(w, actor).value].identityId == actor
  {
    hide OneActive, Onboarding, SessionsSound, ActivePlaced, EmployeesUnique;
  }

  function EmptyStore(env: Env, chain: Chain): World {
    World(env, EmptyTable(), EmptyTable(), EmptyTable(), EmptyTable(), map[], map[], map[], chain, map[], [])
  }

  /** The empty store satisfies the invariant. */
  lemma EmptyStoreGood(env: Env, chain: Chain)
    ensures Good(EmptyStore(env, chain))
  {
  }
}
