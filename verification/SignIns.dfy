/** Signing in and staying signed in, row by row: what each sign-in call is let through on,
    how long a challenge and a session last, and what a session stands on. */
module SignIns {
  import opened Prelude
  import opened IdentityModel
  import opened IdentityInvariant
  import opened IdentityRuns
  import opened WalletSafety
  import opened SessionSafety
  import opened Facts

  /** An active wallet on an active device of an active, fully employed identity. */
  ghost predicate SignsInOn(w: World, d: string, a: string) {
    && d in w.devices.rows && w.devices.rows[d].status == Active
    && w.devices.rows[d].identityId in w.identities.rows && w.identities.rows[w.devices.rows[d].identityId].status == Active
    && Employed(w.identities.rows[w.devices.rows[d].identityId])
    && WalletIs(w, a, w.devices.rows[d].identityId, Active) && w.wallets.rows[a].deviceId == d
  }

  predicate Employed(i: Identity) {
    i.employeeId.Some? && i.employeeId.value != "" && i.role.Some? && i.department != ""
  }

  /** At least a minute. */
  function Lasts(ttl: int): int {
    if ttl < 60 then 60_000 else ttl * 1_000
  }

  /** A new session, under its token. */
  predicate Opened(w: World, w': World, s: Session) {
    w'.sessions == w.sessions[s.token := s] && w'.issued == w.issued[s.token := s]
  }

  lemma SignInFound(w: World, d: string, a: string)
    requires Good(w) && SignsInOn(w, d, a)
    ensures var i := w.devices.rows[d].identityId;
      && w.identities.rows[i].identityId == i && w.wallets.rows[a].address == a && w.devices.rows[d].deviceId == d
      && FindUser(w.users, i).Some?
      && FindWalletOn(w.wallets, i, d) == Some(w.wallets.rows[a]) && FindWallet(w.wallets, i, Active) == Some(w.wallets.rows[a])
  {
    var i := w.devices.rows[d].identityId;
    WalletOnExactly(w, i, d);
    ActiveWalletExactly(w, i);
    UserOf(w, i);
    RowKeys(w, d, a);
  }

  lemma RowKeys(w: World, d: string, a: string)
    requires Good(w)
    ensures d in w.devices.rows ==> w.devices.rows[d].deviceId == d && w.devices.rows[d].identityId in w.identities.rows
    ensures d in w.devices.rows ==> w.identities.rows[w.devices.rows[d].identityId].identityId == w.devices.rows[d].identityId
    ensures a in w.wallets.rows ==> w.wallets.rows[a].address == a
  {
    hide UserRows, ActivePlaced, OneActive, Onboarding, SessionsSound, RowWallets, EmployeesUnique;
  }

  // ------------------------------------------------------------------ signing in

  /** Signing in with a proof: exactly for an unused, unexpired sign-in challenge of the
      device whose nonce is signed under the device's key; the challenge is spent and one
      session opened, on the device's active wallet, for at least a minute. */
  lemma ProofExactly(w: World, c: Call, a: string)
    requires Good(w) && c.LoginWithProof? && SignsInOn(w, c.deviceId, a)
    ensures var (w', r) := Perform(w, c);
      && (r == Ok <==>
            && c.challengeId in w.challenges && var h := w.challenges[c.challengeId];
            && h.purpose == Authentication && !h.used && h.deviceId == c.deviceId && c.now < h.expiresAt
            && w.devices.rows[c.deviceId].publicKey == c.publicKey != "" && Derived(w.env, c.publicKey, a)
            && w.env.proves(h.nonce, c.publicKey, c.signature))
      && (r != Ok ==> w' == w && r == Failed(Unauthorized))
      && (r == Ok ==>
            && c.challengeId in w.challenges
            && w' == w.(challenges := w.challenges[c.challengeId := w.challenges[c.challengeId].(used := true)],
                        sessions := w'.sessions, issued := w'.issued, granted := w'.granted)
            && Opened(w, w', Session(c.token, w.devices.rows[c.deviceId].identityId, c.deviceId, a, c.now + Lasts(c.ttl))))
  {
    hide RunFrom, Good;
    SignInFound(w, c.deviceId, a);
    hide FindUser, FindWalletOn, FindWallet;
    var p := Plan(w, c);
    if p.Go? {
      RunConsume(w, p.script, 0);
      var w1 := w.(challenges := w.challenges[c.challengeId := w.challenges[c.challengeId].(used := true)]);
      RunSaveSession(w1, p.script, 1);
      var x := p.script[1].session;
      RunEnd(w1.(sessions := w1.sessions[x.token := x], issued := w1.issued[x.token := x], granted := Logged(w1.granted, p.script[1].grant)), p.script);
    }
  }

  /** Signing in with a credential: outside production, on the device the credential is bound
      to. */
  lemma CredentialExactly(w: World, c: Call, a: string)
    requires Good(w) && c.LoginWithCredential? && w.env.hashCredential(c.credential) in w.credentials
    requires SignsInOn(w, w.credentials[w.env.hashCredential(c.credential)], a)
    ensures var (w', r) := Perform(w, c); var d := w.credentials[w.env.hashCredential(c.credential)];
      && (r == Ok <==> !c.production && Trim(c.credential) != "" && d != "")
      && (r != Ok ==> w' == w && r.error == if c.production then Forbidden else Unauthorized)
      && (r == Ok ==>
            && w' == w.(sessions := w'.sessions, issued := w'.issued)
            && Opened(w, w', Session(c.token, w.devices.rows[d].identityId, d, a, c.now + Lasts(c.ttl))))
  {
    hide RunFrom, Good, TrimStart, TrimEnd;
    SignInFound(w, w.credentials[w.env.hashCredential(c.credential)], a);
    hide FindUser, FindWalletOn, FindWallet;
    var p := Plan(w, c);
    if p.Go? {
      RunSaveSession(w, p.script, 0);
      var x := p.script[0].session;
      RunEnd(w.(sessions := w.sessions[x.token := x], issued := w.issued[x.token := x], granted := Logged(w.granted, p.script[0].grant)), p.script);
    }
  }

  /** Nobody signs in on a device that carries no active wallet of its active, employed
      identity, by either way. */
  lemma NoSignIn(w: World, c: Call)
    requires Good(w)
    requires (match c
              case LoginWithProof(d, _, _, _, _, _, _) => forall a :: !SignsInOn(w, d, a)
              case LoginWithCredential(credential, _, _, _, _) =>
                w.env.hashCredential(credential) in w.credentials
                ==> forall a :: !SignsInOn(w, w.credentials[w.env.hashCredential(credential)], a)
              case _ => false)
    ensures Plan(w, c).Refuse? && Perform(w, c).0 == w
    ensures c.LoginWithProof? ==> Plan(w, c) == Refuse(Unauthorized)
  {
    hide Good, TrimStart, TrimEnd;
    var v := w.env.hashCredential(if c.LoginWithCredential? then c.credential else "");
    var d := if c.LoginWithProof? then c.deviceId else if v in w.credentials then w.credentials[v] else "";
    if d in w.devices.rows {
      RowKeys(w, d, "");
      WalletOnExactly(w, w.devices.rows[d].identityId, d);
      ActiveWalletExactly(w, w.devices.rows[d].identityId);
    }
    hide FindUser, FindWalletOn, FindWallet;
    var x := if Plan(w, c).Go? then Plan(w, c).script[if c.LoginWithProof? then 1 else 0].session.walletAddress else "";
    assert Plan(w, c).Go? ==> SignsInOn(w, d, x);
  }

  // ------------------------------------------------------------------ challenges

  lemma SavesChallenge(w: World, c: Challenge)
    ensures Run(w, [SaveChallenge(c)]) == (w.(challenges := w.challenges[c.challengeId := c]), Ok)
  {
    var w' := w.(challenges := w.challenges[c.challengeId := c]);
    assert RunFrom(w, [SaveChallenge(c)], 0) == RunFrom(w', [SaveChallenge(c)], 1);
  }

  /** A sign-in challenge: five minutes, for an active device with an active wallet on it. */
  lemma RequestExactly(w: World, d: string, id: string, nonce: string, now: int)
    requires Good(w)
    ensures var (w', r) := Perform(w, RequestAuthentication(d, id, nonce, now));
      && (r == Ok <==>
            && d in w.devices.rows && w.devices.rows[d].status == Active
            && w.identities.rows[w.devices.rows[d].identityId].status == Active
            && exists a :: WalletIs(w, a, w.devices.rows[d].identityId, Active) && w.wallets.rows[a].deviceId == d)
      && (r != Ok ==> w' == w && r == Failed(Unauthorized))
      && (r == Ok ==> w' == w.(challenges := w.challenges[id := Challenge(id, d, nonce, Authentication, now + 300_000, false, None)]))
  {
    hide Run, Good;
    RowKeys(w, d, "");
    if d in w.devices.rows { WalletOnExactly(w, w.devices.rows[d].identityId, d); }
    SavesChallenge(w, Challenge(id, d, nonce, Authentication, now + 300_000, false, None));
    hide FindWalletOn;
  }

  /** A provisioning challenge: five minutes, for an attested device. */
  lemma ProvisionExactly(w: World, d: string, attested: bool, id: string, nonce: string, now: int)
    ensures var (w', r) := Perform(w, RequestProvisioning(d, attested, id, nonce, now));
      && (r == Ok <==> Trim(d) != "" && attested)
      && (r != Ok ==> w' == w && r == Failed(if Trim(d) == "" then Validation else Forbidden))
      && (r == Ok ==> w' == w.(challenges := w.challenges[id := Challenge(id, d, nonce, WalletInitialization, now + 300_000, false, None)]))
  {
    hide Run, TrimStart, TrimEnd;
    SavesChallenge(w, Challenge(id, d, nonce, WalletInitialization, now + 300_000, false, None));
  }

  // -------------------------------------------------------------------- sessions

  /** An open session stands on its wallet and its identity alone: they must be active. Its
      device then is, too. */
  predicate Stands(w: World, token: string, now: int) {
    && token in w.sessions && now < w.sessions[token].expiresAt
    && w.sessions[token].walletAddress in w.wallets.rows && w.wallets.rows[w.sessions[token].walletAddress].status == Active
    && w.sessions[token].identityId in w.identities.rows && w.identities.rows[w.sessions[token].identityId].status == Active
  }

  /** The fresh-authentication calls take exactly the sessions that stand. */
  lemma LiveExactly(w: World, token: string, now: int)
    requires Good(w)
    ensures SessionLive(w, token, now) <==> Stands(w, token, now)
  {
    hide UserRows, OneActive, Onboarding, RowWallets, EmployeesUnique;
    if token in w.sessions { LiveIsIssued(w, token); assert SessionSound(w.wallets.rows, w.issued[token]); }
  }

  /** validateSession takes those of employed identities; in EVM mode the address must still
      derive from the device's key. */
  lemma AcceptedExactly(w: World, token: string, now: int)
    requires Good(w)
    ensures SessionAccepted(w, token, now) <==>
              && Stands(w, token, now) && Employed(w.identities.rows[w.sessions[token].identityId])
              && w.sessions[token].deviceId in w.devices.rows
              && (w.env.evm ==> w.devices.rows[w.sessions[token].deviceId].publicKey != ""
                                && Derived(w.env, w.devices.rows[w.sessions[token].deviceId].publicKey, w.sessions[token].walletAddress))
  {
    hide OneActive, Onboarding, RowWallets, EmployeesUnique;
    if token in w.sessions {
      LiveIsIssued(w, token);
      assert SessionSound(w.wallets.rows, w.issued[token]);
      if Stands(w, token, now) { UserOf(w, w.sessions[token].identityId); }
    }
    hide FindUser;
  }

  /** validateSession deletes exactly the sessions it does not take, logout any. */
  lemma ValidateExactly(w: World, token: string, now: int)
    ensures Perform(w, ValidateSession(token, now)) == (if SessionAccepted(w, token, now) then w else w.(sessions := w.sessions - {token}), Ok)
    ensures Perform(w, Logout(token)) == (w.(sessions := w.sessions - {token}), Ok)
  {
    hide Backed;
    var w' := w.(sessions := w.sessions - {token});
    assert RunFrom(w, [DeleteSession(token)], 0) == RunFrom(w', [DeleteSession(token)], 1);
    assert token !in w.sessions ==> w'.sessions == w.sessions;
  }

  // ------------------------------------------------------------------- lifetimes

  /** A session just opened is taken at every moment before its expiry and at none from then
      on. (A credential alone does not prove the device's key, which in EVM mode is asked
      for here.) */
  lemma SessionLasts(w: World, c: Call, a: string, now: int)
    requires Good(w) && FreshIds(w, c)
    requires (c.LoginWithProof? && SignsInOn(w, c.deviceId, a))
             || (c.LoginWithCredential? && w.env.hashCredential(c.credential) in w.credentials
                 && SignsInOn(w, w.credentials[w.env.hashCredential(c.credential)], a))
    requires Perform(w, c).1 == Ok
    ensures var w' := Perform(w, c).0; var d := if c.LoginWithProof? then c.deviceId else w.credentials[w.env.hashCredential(c.credential)];
      && SessionLive(w', c.token, now) == (now < c.now + Lasts(c.ttl))
      && (SessionAccepted(w', c.token, now) <==>
            && now < c.now + Lasts(c.ttl)
            && (w.env.evm ==> w.devices.rows[d].publicKey != "" && Derived(w.env, w.devices.rows[d].publicKey, a)))
  {
    hide Good, Perform, SessionLive, SessionAccepted, Derived, Lasts;
    if c.LoginWithProof? { ProofExactly(w, c, a); } else { CredentialExactly(w, c, a); }
    PerformKeeps(w, c);
    var w' := Perform(w, c).0;
    LiveExactly(w', c.token, now);
    AcceptedExactly(w', c.token, now);
  }

  /** And never from its expiry on, whatever else is called. */
  lemma SessionEnds(w: World, token: string, calls: seq<Call>, now: int)
    requires Good(w) && token in w.issued && Admissible(w, calls) && now >= w.issued[token].expiresAt
    ensures var v := PerformAll(w, calls); !SessionAccepted(v, token, now) && !SessionLive(v, token, now)
  {
    hide Good, Admissible;
    RunKeeps(w, calls);
    LiveIsIssued(PerformAll(w, calls), token);
  }

  // ----------------------------------------------------------------- round trips

  /** A requested sign-in challenge opens a session exactly within five minutes and with the
      device's signature over it, and then never again. */
  lemma SignInRoundTrip(w: World, a: string, id: string, nonce: string, start: int, c: Call)
    requires Good(w) && c.LoginWithProof? && c.challengeId == id && id !in w.challenges && c.token !in w.issued && SignsInOn(w, c.deviceId, a)
    requires w.devices.rows[c.deviceId].publicKey == c.publicKey != "" && Derived(w.env, c.publicKey, a)
    ensures var (w1, r1) := Perform(w, RequestAuthentication(c.deviceId, id, nonce, start)); var (w2, r2) := Perform(w1, c);
      && r1 == Ok
      && (r2 == Ok <==> c.now < start + 300_000 && w.env.proves(nonce, c.publicKey, c.signature))
      && (r2 == Ok ==> c.token in w2.sessions && Perform(w2, c).1 != Ok)
  {
    hide Good, Perform, Derived, Lasts;
    RequestExactly(w, c.deviceId, id, nonce, start);
    var w1 := Perform(w, RequestAuthentication(c.deviceId, id, nonce, start)).0;
    PerformKeeps(w, RequestAuthentication(c.deviceId, id, nonce, start));
    assert SignsInOn(w1, c.deviceId, a);
    ProofExactly(w1, c, a);
    var (w2, r2) := Perform(w1, c);
    if r2 == Ok {
      PerformKeeps(w1, c);
      assert SignsInOn(w2, c.deviceId, a);
      ProofExactly(w2, c, a);
    }
  }

  /** A fresh-authentication challenge: for a standing session and a named operation, two
      minutes, bound to both and to the resource. */
  lemma RequestFreshExactly(w: World, token: string, operation: string, resource: Option<string>, id: string, nonce: string, now: int)
    requires Good(w)
    ensures var (w', r) := Perform(w, RequestFresh(token, operation, resource, id, nonce, now));
      && (r == Ok <==> Stands(w, token, now) && Trim(operation) != "")
      && (r != Ok ==> w' == w && r == Failed(Unauthorized))
      && (r == Ok ==>
            && w' == w.(challenges := w.challenges[id := Challenge(id, w.sessions[token].deviceId, nonce, FreshAuthentication, now + 120_000, false,
                 Some(FreshBinding(Trim(operation), if resource.Some? && Trim(resource.value) != "" then Some(Trim(resource.value)) else None,
                                   w.env.hashToken(token))))]))
  {
    hide Run, Good, SessionLive, Stands, TrimStart, TrimEnd;
    LiveExactly(w, token, now);
    if Stands(w, token, now) && Trim(operation) != "" {
      var p := Plan(w, RequestFresh(token, operation, resource, id, nonce, now));
      SavesChallenge(w, p.script[0].challenge);
    }
  }

  predicate Meets(w: World, c: Call, s: Session, h: Challenge)
    requires c.VerifyFresh? && s.deviceId in w.devices.rows
  {
    && h.purpose == FreshAuthentication && !h.used && c.now < h.expiresAt && h.deviceId == s.deviceId
    && h.binding == Some(FreshBinding(c.operation, c.resourceId, w.env.hashToken(c.token)))
    && w.devices.rows[s.deviceId].publicKey == c.publicKey != "" && Derived(w.env, c.publicKey, s.walletAddress)
    && w.env.proves(h.nonce, c.publicKey, c.signature)
  }

  /** Its proof: by the key of the session's device, for this session, operation and resource,
      in time and once. */
  lemma VerifyFreshExactly(w: World, c: Call)
    requires Good(w) && c.VerifyFresh?
    ensures var (w', r) := Perform(w, c);
      && (r == Ok <==>
            && Stands(w, c.token, c.now) && c.challengeId in w.challenges && w.sessions[c.token].deviceId in w.devices.rows
            && Meets(w, c, w.sessions[c.token], w.challenges[c.challengeId]))
      && (r != Ok ==> w' == w && r == Failed(Unauthorized))
      && (r == Ok ==>
            && c.challengeId in w.challenges
            && w' == w.(challenges := w.challenges[c.challengeId := w.challenges[c.challengeId].(used := true)], granted := w'.granted))
  {
    hide RunFrom, Good, SessionLive, Stands;
    LiveExactly(w, c.token, c.now);
    StandsOn(w, c.token, c.now);
    var p := Plan(w, c);
    if p.Go? {
      RunConsume(w, p.script, 0);
      RunEnd(w.(challenges := w.challenges[c.challengeId := w.challenges[c.challengeId].(used := true)], granted := Logged(w.granted, p.script[0].grant)), p.script);
    }
  }

  predicate OnRecord(w: World, s: Session) {
    && s.deviceId in w.devices.rows && w.devices.rows[s.deviceId].status == Active && w.devices.rows[s.deviceId].identityId == s.identityId
    && s.identityId in w.identities.rows && w.identities.rows[s.identityId].status == Active
    && w.identities.rows[s.identityId].identityId == s.identityId
    && s.walletAddress in w.wallets.rows
    && w.wallets.rows[s.walletAddress] == Wallet(s.walletAddress, s.identityId, s.deviceId, Active, w.wallets.rows[s.walletAddress].publicKey)
  }

  lemma StandsOn(w: World, token: string, now: int)
    requires Good(w)
    ensures Stands(w, token, now) ==> OnRecord(w, w.sessions[token])
  {
    hide UserRows, OneActive, Onboarding, RowWallets, EmployeesUnique;
    if token in w.sessions { LiveIsIssued(w, token); assert SessionSound(w.wallets.rows, w.issued[token]); }
  }

  /** Asking and proving: a challenge asked for an operation is met exactly by a timely
      signature for that operation, resource and session, and only once. */
  lemma FreshRoundTrip(w: World, start: int, nonce: string, operation: string, resource: Option<string>, c: Call)
    requires Good(w) && c.VerifyFresh? && c.challengeId !in w.challenges && Stands(w, c.token, start) && Trim(operation) != ""
    requires var d := w.sessions[c.token].deviceId; d in w.devices.rows ==> w.devices.rows[d].publicKey == c.publicKey
    requires c.publicKey != "" && Derived(w.env, c.publicKey, w.sessions[c.token].walletAddress)
    ensures var (w1, r1) := Perform(w, RequestFresh(c.token, operation, resource, c.challengeId, nonce, start)); var (w2, r2) := Perform(w1, c);
      && r1 == Ok
      && (r2 == Ok <==>
            && c.now < start + 120_000 && c.now < w.sessions[c.token].expiresAt && w.env.proves(nonce, c.publicKey, c.signature)
            && c.operation == Trim(operation)
            && c.resourceId == (if resource.Some? && Trim(resource.value) != "" then Some(Trim(resource.value)) else None))
      && (r2 == Ok ==> Perform(w2, c).1 != Ok)
  {
    hide Good, Perform, Derived, TrimStart, TrimEnd;
    var ask := RequestFresh(c.token, operation, resource, c.challengeId, nonce, start);
    RequestFreshExactly(w, c.token, operation, resource, c.challengeId, nonce, start);
    StandsOn(w, c.token, start);
    var w1 := Perform(w, ask).0;
    PerformKeeps(w, ask);
    VerifyFreshExactly(w1, c);
    var (w2, r2) := Perform(w1, c);
    if r2 == Ok {
      PerformKeeps(w1, c);
      VerifyFreshExactly(w2, c);
    }
  }
}
