/** The authentication service, statement by statement, over the same repositories as the
    users service. Every method is proved to be the call of the same name in module
    IdentityModel, run as one step. */
module AuthService {
  import opened Prelude
  import opened IdentityModel
  import opened Repositories

  class Service {
    const repositories: Store

    constructor (repositories: Store)
      ensures this.repositories == repositories
    {
      this.repositories := repositories;
    }

    ghost function State(): World
      reads this, repositories
    {
      repositories.State()
    }

    method StoreChallenge(c: Challenge) returns (r: Outcome)
      modifies repositories
      ensures (State(), r) == Run(old(State()), [Action.SaveChallenge(c)]) && r == Ok
    {
      hide Complete, RunFrom, Along, Run;
      ghost var w, s := State(), [Action.SaveChallenge(c)];
      AlongStart(w, s);
      repositories.SaveChallenge(c);
      AlongStep(w, s, 0, w, s[0], State(), Ok);
      AlongEnd(w, s, State());
      r := Ok;
    }

    method RequestAuthenticationChallenge(deviceId: string, challengeId: string, nonce: string, now: int) returns (r: Outcome)
      modifies repositories
      ensures (State(), r) == Perform(old(State()), Call.RequestAuthentication(deviceId, challengeId, nonce, now))
    {
      hide Complete, RunFrom, Along, Run, FindWalletOn;
      ghost var w := State();
      assert Plan(w, Call.RequestAuthentication(deviceId, challengeId, nonce, now)) == PlanRequestAuthentication(w, deviceId, challengeId, nonce, now);
      var device := repositories.devices.Get(deviceId);
      var identity := if device.Some? then repositories.identities.Get(device.value.identityId) else None;
      if device.None? || device.value.status != Active || identity.None? || identity.value.status != Active {
        return Failed(Unauthorized);
      }
      var wallet := FindWalletOn(repositories.wallets, device.value.identityId, deviceId);
      if wallet.None? {
        return Failed(Unauthorized);
      }
      r := StoreChallenge(Challenge(challengeId, deviceId, nonce, Authentication, now + FIVE_MINUTES, false, None));
    }

    method LoginWithProof(deviceId: string, challengeId: string, publicKey: string, signature: string, token: string, ttl: int,
                          now: int) returns (r: Outcome)
      modifies repositories
      ensures (State(), r) == Perform(old(State()), Call.LoginWithProof(deviceId, challengeId, publicKey, signature, token, ttl, now))
    {
      hide Complete, RunFrom, Along, Run, FindWalletOn, FindUser;
      ghost var w := State();
      assert Plan(w, Call.LoginWithProof(deviceId, challengeId, publicKey, signature, token, ttl, now))
          == PlanLoginWithProof(w, deviceId, challengeId, publicKey, signature, token, ttl, now);
      if challengeId !in repositories.challenges {
        return Failed(Unauthorized);
      }
      var challenge := repositories.challenges[challengeId];
      if challenge.purpose != Authentication || challenge.used || challenge.deviceId != deviceId {
        return Failed(Unauthorized);
      }
      if challenge.expiresAt <= now {
        return Failed(Unauthorized);
      }
      var device := repositories.devices.Get(deviceId);
      var identity := if device.Some? then repositories.identities.Get(device.value.identityId) else None;
      if device.None? || device.value.status != Active || identity.None? {
        return Failed(Unauthorized);
      }
      var i := identity.value;
      var user := FindUser(repositories.users, i.identityId);
      var wallet := FindWalletOn(repositories.wallets, i.identityId, deviceId);
      if i.employeeId == None || i.employeeId == Some("") || i.role.None? || i.department == "" || i.status != Active || user.None?
         || wallet.None? || device.value.publicKey == "" || device.value.publicKey != publicKey {
        return Failed(Unauthorized);
      }
      if !BindingOk(repositories.env, wallet.value.address, device.value.publicKey) {
        return Failed(Unauthorized);
      }
      if !repositories.env.proves(challenge.nonce, device.value.publicKey, signature) {
        return Failed(Unauthorized);
      }
      r := ConsumeAndOpen(challengeId, Session(token, i.identityId, device.value.deviceId, wallet.value.address, SessionExpiry(ttl, now)));
    }

    /** Only the caller that wins the challenge opens a session. */
    method ConsumeAndOpen(challengeId: string, session: Session) returns (r: Outcome)
      modifies repositories
      ensures (State(), r) == Run(old(State()), [Action.Consume(challengeId, Unauthorized, None),
                                                 Action.SaveSession(session, Some(ProofSession(challengeId, session)))])
    {
      hide Complete, RunFrom, Along, Run;
      ghost var w := State();
      ghost var s := [Action.Consume(challengeId, Unauthorized, None),
                      Action.SaveSession(session, Some(ProofSession(challengeId, session)))];
      AlongStart(w, s);
      var consumed := repositories.ConsumeIfUnused(challengeId, Unauthorized, None);
      AlongStep(w, s, 0, w, s[0], State(), if consumed then Ok else Failed(Unauthorized));
      if !consumed {
        return Failed(Unauthorized);
      }
      ghost var w1 := State();
      repositories.SaveSession(session, Some(ProofSession(challengeId, session)));
      AlongStep(w, s, 1, w1, s[1], State(), Ok);
      AlongEnd(w, s, State());
      r := Ok;
    }

    method Login(credential: string, production: bool, token: string, ttl: int, now: int) returns (r: Outcome)
      modifies repositories
      ensures (State(), r) == Perform(old(State()), Call.LoginWithCredential(credential, production, token, ttl, now))
    {
      hide Complete, RunFrom, Along, Run, FindWallet, FindUser, Trim;
      ghost var w := State();
      assert Plan(w, Call.LoginWithCredential(credential, production, token, ttl, now))
          == PlanLoginWithCredential(w, credential, production, token, ttl, now);
      if production {
        return Failed(Forbidden);
      }
      if Blank(credential) {
        return Failed(Unauthorized);
      }
      var verifier := repositories.env.hashCredential(credential);
      if verifier !in repositories.credentials || repositories.credentials[verifier] == "" {
        return Failed(Unauthorized);
      }
      var device := repositories.devices.Get(repositories.credentials[verifier]);
      var identity := if device.Some? then repositories.identities.Get(device.value.identityId) else None;
      if device.None? || device.value.status != Active || identity.None? {
        return Failed(Unauthorized);
      }
      var i := identity.value;
      var user := FindUser(repositories.users, i.identityId);
      var wallet := FindWallet(repositories.wallets, i.identityId, Active);
      if i.employeeId == None || i.employeeId == Some("") || i.role.None? || i.department == "" || user.None? || wallet.None?
         || wallet.value.deviceId != device.value.deviceId {
        return Failed(Unauthorized);
      }
      if i.status != Active {
        return Failed(Forbidden);
      }
      r := OpenSession(Session(token, i.identityId, device.value.deviceId, wallet.value.address, SessionExpiry(ttl, now)));
    }

    method OpenSession(session: Session) returns (r: Outcome)
      modifies repositories
      ensures (State(), r) == Run(old(State()), [Action.SaveSession(session, None)]) && r == Ok
    {
      hide Complete, RunFrom, Along, Run;
      ghost var w, s := State(), [Action.SaveSession(session, None)];
      AlongStart(w, s);
      repositories.SaveSession(session, None);
      AlongStep(w, s, 0, w, s[0], State(), Ok);
      AlongEnd(w, s, State());
      r := Ok;
    }

    method DropSession(token: string) returns (r: Outcome)
      modifies repositories
      ensures (State(), r) == Run(old(State()), [Action.DeleteSession(token)]) && r == Ok
    {
      hide Complete, RunFrom, Along, Run;
      ghost var w, s := State(), [Action.DeleteSession(token)];
      AlongStart(w, s);
      repositories.DeleteSession(token);
      AlongStep(w, s, 0, w, s[0], State(), Ok);
      AlongEnd(w, s, State());
      r := Ok;
    }

    /** True when the session stands for a user; a session that fails a check is deleted. */
    method ValidateSession(token: string, now: int) returns (valid: bool)
      modifies repositories
      ensures (State(), Ok) == Perform(old(State()), Call.ValidateSession(token, now))
      ensures valid <==> SessionAccepted(old(State()), token, now)
    {
      hide Complete, RunFrom, Along, FindUser;
      ghost var w := State();
      assert Plan(w, Call.ValidateSession(token, now)) == PlanValidateSession(w, token, now);
      AlongStart(w, []);
      AlongEnd(w, [], w);
      if token !in repositories.sessions {
        return false;
      }
      var session := repositories.sessions[token];
      if session.expiresAt <= now {
        var _ := DropSession(token);
        return false;
      }
      var backed := CheckBacked(session);
      if !backed {
        var _ := DropSession(token);
        return false;
      }
      return true;
    }

    /** Every record behind the session, and in EVM mode the binding of its key. */
    method CheckBacked(session: Session) returns (b: bool)
      ensures b == Backed(State(), session)
    {
      var identity := repositories.identities.Get(session.identityId);
      var device := repositories.devices.Get(session.deviceId);
      var wallet := repositories.wallets.Get(session.walletAddress);
      if identity.None? || device.None? || wallet.None? {
        return false;
      }
      var i := identity.value;
      var user := FindUser(repositories.users, i.identityId);
      hide FindUser;
      if i.employeeId == None || i.employeeId == Some("") || i.role.None? || i.department == "" || user.None?
         || device.value.status != Active || i.status != Active || wallet.value.status != Active
         || wallet.value.deviceId != device.value.deviceId {
        return false;
      }
      if repositories.env.evm && (device.value.publicKey == "" || !BindingOk(repositories.env, session.walletAddress, device.value.publicKey)) {
        return false;
      }
      return true;
    }

    method Logout(token: string)
      modifies repositories
      ensures (State(), Ok) == Perform(old(State()), Call.Logout(token))
    {
      hide Complete, RunFrom, Along, Run;
      var _ := DropSession(token);
    }

    method ActiveSession(session: Session) returns (b: bool)
      ensures b == (&& session.identityId in State().identities.rows && State().identities.rows[session.identityId].status == Active
                    && session.deviceId in State().devices.rows && State().devices.rows[session.deviceId].status == Active
                    && session.walletAddress in State().wallets.rows
                    && State().wallets.rows[session.walletAddress].status == Active
                    && State().wallets.rows[session.walletAddress].deviceId == State().devices.rows[session.deviceId].deviceId
                    && State().wallets.rows[session.walletAddress].identityId == State().identities.rows[session.identityId].identityId)
    {
      var identity := repositories.identities.Get(session.identityId);
      var device := repositories.devices.Get(session.deviceId);
      var wallet := repositories.wallets.Get(session.walletAddress);
      b := && identity.Some? && identity.value.status == Active && device.Some? && device.value.status == Active
           && wallet.Some? && wallet.value.status == Active && wallet.value.deviceId == device.value.deviceId
           && wallet.value.identityId == identity.value.identityId;
    }

    method CheckLive(token: string, now: int) returns (live: bool)
      ensures live == SessionLive(State(), token, now)
    {
      if token !in repositories.sessions || repositories.sessions[token].expiresAt <= now {
        return false;
      }
      live := ActiveSession(repositories.sessions[token]);
    }

    method RequestFreshAuthenticationChallenge(token: string, operation: string, resourceId: Option<string>, challengeId: string,
                                               nonce: string, now: int) returns (r: Outcome)
      modifies repositories
      ensures (State(), r) == Perform(old(State()), Call.RequestFresh(token, operation, resourceId, challengeId, nonce, now))
    {
      hide Complete, RunFrom, Along, Run, Trim;
      ghost var w := State();
      assert Plan(w, Call.RequestFresh(token, operation, resourceId, challengeId, nonce, now))
          == PlanRequestFresh(w, token, operation, resourceId, challengeId, nonce, now);
      var live := CheckLive(token, now);
      if !live {
        return Failed(Unauthorized);
      }
      if Blank(operation) {
        return Failed(Unauthorized);
      }
      var resource := if resourceId.Some? && !Blank(resourceId.value) then Some(Trim(resourceId.value)) else None;
      var binding := FreshBinding(Trim(operation), resource, repositories.env.hashToken(token));
      r := StoreChallenge(Challenge(challengeId, repositories.sessions[token].deviceId, nonce, FreshAuthentication,
                                    now + TWO_MINUTES, false, Some(binding)));
    }

    method VerifyFreshAuthentication(token: string, challengeId: string, publicKey: string, signature: string, operation: string,
                                     resourceId: Option<string>, now: int) returns (r: Outcome)
      modifies repositories
      ensures (State(), r) ==
              Perform(old(State()), Call.VerifyFresh(token, challengeId, publicKey, signature, operation, resourceId, now))
    {
      hide Complete, RunFrom, Along, Run;
      ghost var w := State();
      assert Plan(w, Call.VerifyFresh(token, challengeId, publicKey, signature, operation, resourceId, now))
          == PlanVerifyFresh(w, token, challengeId, publicKey, signature, operation, resourceId, now);
      var live := CheckLive(token, now);
      if !live || challengeId !in repositories.challenges {
        return Failed(Unauthorized);
      }
      var session := repositories.sessions[token];
      var challenge := repositories.challenges[challengeId];
      if challenge.purpose != FreshAuthentication || challenge.used || challenge.deviceId != session.deviceId
         || challenge.binding != Some(FreshBinding(operation, resourceId, repositories.env.hashToken(token))) {
        return Failed(Unauthorized);
      }
      if challenge.expiresAt <= now {
        return Failed(Unauthorized);
      }
      var found := repositories.devices.Get(session.deviceId);
      if found.None? || found.value.status != Active {
        return Failed(Unauthorized);
      }
      var device := found.value;
      var identity := repositories.identities.Get(device.identityId);
      var held := repositories.wallets.Get(session.walletAddress);
      if identity.None? || identity.value.status != Active || held.None? {
        return Failed(Unauthorized);
      }
      var wallet := held.value;
      if wallet.identityId != identity.value.identityId || wallet.status != Active || wallet.deviceId != session.deviceId
         || device.publicKey == "" || publicKey != device.publicKey {
        return Failed(Unauthorized);
      }
      if !BindingOk(repositories.env, wallet.address, device.publicKey) {
        return Failed(Unauthorized);
      }
      if !repositories.env.proves(challenge.nonce, device.publicKey, signature) {
        return Failed(Unauthorized);
      }
      r := ConsumeAsProof(challengeId, FreshAuth(challengeId, session.deviceId, token, operation, resourceId));
    }

    method ConsumeAsProof(challengeId: string, ghost grant: Grant) returns (r: Outcome)
      modifies repositories
      ensures (State(), r) == Run(old(State()), [Action.Consume(challengeId, Unauthorized, Some(grant))])
    {
      hide Complete, RunFrom, Along, Run;
      ghost var w, s := State(), [Action.Consume(challengeId, Unauthorized, Some(grant))];
      AlongStart(w, s);
      var consumed := repositories.ConsumeIfUnused(challengeId, Unauthorized, Some(grant));
      r := if consumed then Ok else Failed(Unauthorized);
      AlongStep(w, s, 0, w, s[0], State(), r);
      if consumed { AlongEnd(w, s, State()); }
    }
  }
}
