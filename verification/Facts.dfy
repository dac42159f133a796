/** The store read row by row, without the services' lookups: who an id names, who is an
    administrator, which wallet and user row belong to whom; and that the lookups of the
    services find exactly these, in every store the services can reach. */
module Facts {
  import opened Prelude
  import opened IdentityModel
  import opened IdentityInvariant

  /** An id names the identity stored under it, or else the one with this employee id. */
  predicate Names(w: World, u: string, i: Identity) {
    if u in w.identities.rows then w.identities.rows[u] == i
    else i.identityId in w.identities.rows && w.identities.rows[i.identityId] == i && i.employeeId == Some(u)
  }

  ghost predicate NamesNobody(w: World, u: string) {
    u !in w.identities.rows && forall k :: k in w.identities.rows ==> w.identities.rows[k].employeeId != Some(u)
  }

  predicate Administrator(w: World, u: string, a: Identity) {
    Names(w, u, a) && a.status == Active && a.role == Some(ADMIN)
  }

  /** Nobody but, at most, this identity has the employee id. */
  ghost predicate NobodyElse(w: World, employeeId: string, id: string) {
    forall k :: k in w.identities.rows && k != id ==> w.identities.rows[k].employeeId != Some(employeeId)
  }

  predicate WalletIs(w: World, a: string, id: string, status: Status) {
    a in w.wallets.rows && w.wallets.rows[a].identityId == id && w.wallets.rows[a].status == status
  }

  predicate DeviceIs(w: World, d: string, id: string, status: Status) {
    d in w.devices.rows && w.devices.rows[d].identityId == id && w.devices.rows[d].status == status
  }

  predicate UserIs(w: World, e: string, id: string) {
    e in w.users.rows && w.users.rows[e].identityId == id
  }

  /** Against an EVM chain the key is the one the address is derived from. */
  predicate Derived(env: Env, key: string, address: string) {
    env.evm ==> env.derive(key).Some? && env.derive(key) == env.canonical(address)
  }

  lemma ResolvedExactly(w: World, u: string)
    requires Good(w)
    ensures forall i :: Resolve(w, u) == Some(i) <==> Names(w, u, i)
    ensures Resolve(w, u).None? <==> NamesNobody(w, u)
    ensures Resolve(w, u).Some? ==> Names(w, u, Resolve(w, u).value) && IdentityRow(w, Resolve(w, u).value)
  {
    hide UserRows, ActivePlaced, OneActive, Onboarding, SessionsSound, RowWallets;
    HolderExactly(w, u);
  }

  /** A row stored under its own id. */
  predicate IdentityRow(w: World, i: Identity) {
    i.identityId in w.identities.rows && w.identities.rows[i.identityId] == i
  }

  lemma HolderExactly(w: World, e: string)
    requires Good(w)
    ensures var h := FindByEmployee(w.identities, e);
      && (h.Some? ==> IdentityRow(w, h.value) && h.value.employeeId == Some(e) && NobodyElse(w, e, h.value.identityId))
      && (h.None? <==> forall k :: k in w.identities.rows ==> w.identities.rows[k].employeeId != Some(e))
      && (forall i :: IdentityRow(w, i) && i.employeeId == Some(e) ==> h == Some(i))
  {
    hide UserRows, ActivePlaced, OneActive, Onboarding, SessionsSound, RowWallets;
  }

  lemma UserExactly(w: World, id: string)
    requires Good(w)
    ensures var u := FindUser(w.users, id);
      && (u.Some? ==> UserIs(w, u.value.employeeId, id) && w.users.rows[u.value.employeeId] == u.value)
      && (u.None? <==> forall e :: !UserIs(w, e, id))
      && (forall e :: UserIs(w, e, id) && id in w.identities.rows && w.identities.rows[id].status != Pending ==> u == Some(w.users.rows[e]))
  {
    hide ActivePlaced, OneActive, Onboarding, SessionsSound, RowWallets, EmployeesUnique;
  }

  lemma ActiveWalletExactly(w: World, id: string)
    requires Good(w)
    ensures var x := FindWallet(w.wallets, id, Active);
      && (x.Some? ==> WalletIs(w, x.value.address, id, Active) && w.wallets.rows[x.value.address] == x.value)
      && (x.None? <==> forall a :: !WalletIs(w, a, id, Active))
      && (forall a :: WalletIs(w, a, id, Active) ==> x == Some(w.wallets.rows[a]))
  {
    hide UserRows, ActivePlaced, Onboarding, SessionsSound, RowWallets, EmployeesUnique;
  }

  lemma WalletOnExactly(w: World, id: string, deviceId: string)
    requires Good(w)
    ensures var x := FindWalletOn(w.wallets, id, deviceId);
      && (x.Some? ==> WalletIs(w, x.value.address, id, Active) && w.wallets.rows[x.value.address] == x.value && x.value.deviceId == deviceId)
      && (x.None? <==> forall a :: WalletIs(w, a, id, Active) ==> w.wallets.rows[a].deviceId != deviceId)
      && (forall a :: WalletIs(w, a, id, Active) && w.wallets.rows[a].deviceId == deviceId ==> x == Some(w.wallets.rows[a]))
  {
    hide UserRows, ActivePlaced, Onboarding, SessionsSound, RowWallets, EmployeesUnique;
  }

  /** The chain's role is the first in the shared order among those it holds. */
  const ROLES := [ADMIN, MANAGER, ENGINEER, TECHNICIAN, AUDITOR, ISSUER, VERIFIER]

  lemma FirstInOrder(held: set<Role>)
    ensures FirstRole(held).None? <==> held == {}
    ensures forall n: nat :: n < |ROLES| ==> (FirstRole(held) == Some(ROLES[n]) <==> ROLES[n] in held && forall m: nat :: m < n ==> ROLES[m] !in held)
  {
    assert ROLES[0] == ADMIN && ROLES[1] == MANAGER && ROLES[2] == ENGINEER && ROLES[3] == TECHNICIAN && ROLES[4] == AUDITOR
        && ROLES[5] == ISSUER && ROLES[6] == VERIFIER;
    if r :| r in held {
      assert r == ADMIN || r == MANAGER || r == ENGINEER || r == TECHNICIAN || r == AUDITOR || r == ISSUER || r == VERIFIER;
    }
  }

  // ------------------------------------------------------------------ the registries

  /** An active wallet whose identity holds this role. */
  predicate Holds(chain: Chain, sender: string, role: Role) {
    && sender in chain.wallets && chain.wallets[sender].status == Active
    && chain.wallets[sender].did in chain.roles && role in chain.roles[chain.wallets[sender].did]
  }

  /** The identity a role assignment is for: the wallet's, or the one it names. */
  function Assignee(chain: Chain, tx: Tx): string
    requires tx.RoleAssign?
  {
    match tx.target
    case Some(a) => if a in chain.wallets then chain.wallets[a].did else ""
    case None => tx.did
  }

  /** The registries act for active wallets of administrators only, for issuers also when a
      wallet is to be activated; they bind each address once, give no role twice and to
      nobody they do not know, and take a wallet from PENDING to ACTIVE to REVOKED. */
  lemma RegistryExactly(chain: Chain, sender: string, tx: Tx)
    ensures var after := Apply(chain, sender, tx);
      after.Some? <==>
        match tx
        case IdentityCreate(a, did) => Holds(chain, sender, ADMIN) && 0 < Utf8Length(did) <= 128 && a !in chain.wallets
        case RoleAssign(_, _, role) =>
          && Holds(chain, sender, ADMIN) && (exists a :: a in chain.wallets && chain.wallets[a].did == Assignee(chain, tx))
          && !(Assignee(chain, tx) in chain.roles && role in chain.roles[Assignee(chain, tx)])
        case WalletActivate(a) =>
          && (Holds(chain, sender, ADMIN) || Holds(chain, sender, ISSUER)) && a in chain.wallets && chain.wallets[a].status == Pending
        case WalletRevoke(a) => Holds(chain, sender, ADMIN) && a in chain.wallets && chain.wallets[a].status in {Pending, Active}
  {
    hide KnownDid;
    EmptyLength(if tx.IdentityCreate? then tx.did else "");
    KnownBound(chain, if tx.RoleAssign? then Assignee(chain, tx) else "");
    hide Utf8Length;
    MayCallExactly(chain, sender);
    hide MayCall;
  }

  lemma MayCallExactly(chain: Chain, sender: string)
    ensures MayCall(chain, sender, {ADMIN}) <==> Holds(chain, sender, ADMIN)
    ensures MayCall(chain, sender, {ADMIN, ISSUER}) <==> Holds(chain, sender, ADMIN) || Holds(chain, sender, ISSUER)
  {
    if sender in chain.wallets {
      var held := RolesOf(chain, chain.wallets[sender].did);
      assert held * {ADMIN} != {} <==> ADMIN in held by { if ADMIN in held { assert ADMIN in held * {ADMIN}; } }
      assert held * {ADMIN, ISSUER} != {} <==> ADMIN in held || ISSUER in held by {
        if ADMIN in held { assert ADMIN in held * {ADMIN, ISSUER}; }
        if ISSUER in held { assert ISSUER in held * {ADMIN, ISSUER}; }
      }
    }
  }

  lemma KnownBound(chain: Chain, did: string)
    ensures KnownDid(chain, did) <==> exists a :: a in chain.wallets && chain.wallets[a].did == did
  {
  }

  lemma EmptyLength(s: string)
    ensures Utf8Length(s) == 0 <==> s == ""
  {
  }

  /** What a transaction that is taken leaves: one wallet or one role set changed, and itself
      at the end of the ledger. */
  lemma RegistryAfter(chain: Chain, sender: string, tx: Tx)
    requires Apply(chain, sender, tx).Some?
    ensures var after := Apply(chain, sender, tx).value;
      && after.submissions == chain.submissions && after.ledger == chain.ledger + [tx]
      && (if tx.RoleAssign? then after.wallets == chain.wallets && after.roles == chain.roles[Assignee(chain, tx) := after.roles[Assignee(chain, tx)]]
          else after.roles == chain.roles && tx.wallet in after.wallets
               && after.wallets == chain.wallets[tx.wallet := after.wallets[tx.wallet]])
    ensures var after := Apply(chain, sender, tx).value;
      match tx
      case IdentityCreate(a, did) => after.wallets[a] == ChainWallet(did, Pending)
      case RoleAssign(_, _, role) =>
        var did := Assignee(chain, tx);
        did in after.roles && forall r :: r in after.roles[did] <==> r == role || (did in chain.roles && r in chain.roles[did])
      case WalletActivate(a) => a in chain.wallets && after.wallets[a] == ChainWallet(chain.wallets[a].did, Active)
      case WalletRevoke(a) => a in chain.wallets && after.wallets[a] == ChainWallet(chain.wallets[a].did, Revoked)
  {
    hide MayCall, KnownDid;
  }
}
