/** Challenges under arbitrary interleaving: each buys at most one success, for its own
    purpose and device, and every consumed challenge is accounted for. */
module ChallengeSafety {
  import opened Prelude
  import opened IdentityModel
  import opened Interleaving

  // ------------------------------------------------------- shapes of the scripts

  /** The challenge a save on behalf of a challenge pays with. */
  function PaidBy(e: Action): Option<string> {
    match e
    case SaveIdentity(_, Some(g)) => Some(g.challengeId)
    case SaveSession(_, Some(g)) => Some(g.challengeId)
    case _ => None
  }

  predicate Ordinary(s: Script) {
    forall i :: 0 <= i < |s| ==> !s[i].Consume? && !s[i].SaveChallenge? && PaidBy(s[i]).None?
  }

  /** A grant that matches the challenge paying for it: purpose, device, and for a fresh
      authentication also the session, the operation and the resource. */
  predicate Matches(env: Env, c: Challenge, g: Grant) {
    match g
    case ProofSession(_, s) => c.purpose == Authentication && c.deviceId == s.deviceId
    case Registration(_, d, _) => c.purpose == WalletInitialization && c.deviceId == d
    case FreshAuth(_, d, token, operation, resource) =>
      && c.purpose == FreshAuthentication && c.deviceId == d
      && c.binding == Some(FreshBinding(operation, resource, env.hashToken(token)))
  }

  ghost predicate Backs(w: World, g: Grant) {
    g.challengeId in w.challenges && Matches(w.env, w.challenges[g.challengeId], g)
  }

  function GrantOf(e: Action): Option<Grant> {
    match e
    case SaveIdentity(_, g) => g
    case SaveSession(_, g) => g
    case Consume(_, _, g) => g
    case _ => None
  }

  /** About to store a new challenge. */
  ghost predicate Issuing(m: Machine, s: Script) {
    && s != [] && s[0].SaveChallenge? && Ordinary(s[1..])
    && !s[0].challenge.used && s[0].challenge.challengeId in m.drawn && s[0].challenge.challengeId !in m.w.challenges
  }

  /** About to consume a challenge and then save what it buys. */
  ghost predicate Paying(w: World, s: Script) {
    && |s| >= 2 && s[0].Consume? && s[0].grant.None? && PaidBy(s[1]) == Some(s[0].challengeId) && Ordinary(s[2..])
    && GrantOf(s[1]).Some? && !GrantOf(s[1]).value.FreshAuth? && Backs(w, GrantOf(s[1]).value)
  }

  /** Parked: the challenge is consumed, what it buys is not saved yet. */
  ghost predicate Parked(w: World, s: Script) {
    && s != [] && PaidBy(s[0]).Some? && Ordinary(s[1..])
    && GrantOf(s[0]).Some? && !GrantOf(s[0]).value.FreshAuth? && Backs(w, GrantOf(s[0]).value)
    && w.challenges[GrantOf(s[0]).value.challengeId].used
  }

  /** About to consume a fresh-authentication challenge, which is itself the success. */
  ghost predicate Proving(w: World, s: Script) {
    && s != [] && s[0].Consume? && s[0].grant.Some? && s[0].grant.value.challengeId == s[0].challengeId && Ordinary(s[1..])
    && s[0].grant.value.FreshAuth? && Backs(w, s[0].grant.value)
  }

  ghost predicate Shaped(m: Machine, s: Script) {
    Ordinary(s) || Issuing(m, s) || Paying(m.w, s) || Parked(m.w, s) || Proving(m.w, s)
  }

  // -------------------------------------------------------------------- invariant

  predicate LoggedFor(log: seq<Grant>, c: string) {
    exists i :: 0 <= i < |log| && log[i].challengeId == c
  }

  ghost predicate ParkedOn(m: Machine, t: nat, c: string) {
    t in m.threads && Parked(m.w, m.threads[t]) && PaidBy(m.threads[t][0]) == Some(c)
  }

  /** No challenge is spent twice: not by two successes, not by two parked calls, not by
      a success and a parked call. */
  ghost predicate SpentOnce(m: Machine) {
    && (forall i, j :: 0 <= i < j < |m.w.granted| ==> m.w.granted[i].challengeId != m.w.granted[j].challengeId)
    && (forall t, u, c :: ParkedOn(m, t, c) && ParkedOn(m, u, c) ==> t == u)
    && (forall t, c :: ParkedOn(m, t, c) ==> !LoggedFor(m.w.granted, c))
  }

  /** Every success was paid for by a consumed, matching challenge. */
  ghost predicate AllBacked(m: Machine) {
    forall i :: 0 <= i < |m.w.granted| ==>
      Backs(m.w, m.w.granted[i]) && m.w.challenges[m.w.granted[i].challengeId].used
  }

  /** Every consumed challenge has bought its success, or is about to. */
  ghost predicate Accounted(m: Machine) {
    forall c :: c in m.w.challenges && m.w.challenges[c].used ==>
      LoggedFor(m.w.granted, c) || exists t :: ParkedOn(m, t, c)
  }

  ghost predicate Drawn(m: Machine) {
    && (forall c :: c in m.w.challenges ==> c in m.drawn)
    && (forall t, u :: (t in m.threads && u in m.threads && Issuing(m, m.threads[t]) && Issuing(m, m.threads[u])
                        && m.threads[t][0].challenge.challengeId == m.threads[u][0].challenge.challengeId) ==> t == u)
  }

  ghost predicate Sound(m: Machine) {
    && (forall t :: t in m.threads ==> Shaped(m, m.threads[t]))
    && SpentOnce(m) && AllBacked(m) && Accounted(m) && Drawn(m)
  }

  // ------------------------------------------------------------- entering calls

  lemma {:induction false} WalletScriptsOrdinary(actor: string, xs: seq<Wallet>)
    ensures Ordinary(RevokeOnChain(actor, xs)) && Ordinary(SaveRevoked(xs)) && Ordinary(ReplaceWallets(actor, xs))
    decreases |xs|
  {
    if xs != [] {
      WalletScriptsOrdinary(actor, xs[1..]);
    }
  }

  lemma DeviceScriptOrdinary(actor: string, d: Device, xs: seq<Wallet>)
    ensures Ordinary(DeviceRevocationScript(actor, d, xs))
  {
    WalletScriptsOrdinary(actor, xs);
    hide RevokeOnChain, SaveRevoked;
  }

  lemma RotationScriptOrdinary(actor: string, did: string, x: Wallet, olds: seq<Wallet>)
    ensures Ordinary(WalletActivationScript(actor, did, x, olds))
  {
    WalletScriptsOrdinary(actor, olds);
    hide ReplaceWallets;
  }

  lemma WalletCallsOrdinary(r: Reads, c: Call)
    requires MovesWallets(c) && PlanOn(r, c).Go?
    ensures Ordinary(PlanOn(r, c).script)
  {
    hide FindUser, FindWallet, FindDevice, FindByEmployee, Trim, ActiveWalletsOn, ActiveWalletsExcept,
         DeviceRevocationScript, WalletActivationScript;
    match c
    case RevokeDevice(d, _) =>
      var device := r.view.devices.rows[d];
      DeviceScriptOrdinary(r.actor.value.identityId, device, ActiveWalletsOn(r.view.wallets, device.identityId, d));
    case ActivateWallet(_, _, x, _) =>
      RotationScriptOrdinary(r.actor.value.identityId, r.target.value.identityId, r.view.wallets.rows[Trim(x)], r.others);
    case _ =>
  }

  predicate IssuesChallenge(c: Call) {
    c.RequestProvisioning? || c.RequestAuthentication? || c.RequestFresh?
  }

  predicate SpendsChallenge(c: Call) {
    c.InitializeAccount? || c.LoginWithProof? || c.VerifyFresh?
  }

  lemma OtherCallsOrdinary(r: Reads, c: Call)
    requires !MovesWallets(c) && !IssuesChallenge(c) && !SpendsChallenge(c) && PlanOn(r, c).Go?
    ensures Ordinary(PlanOn(r, c).script)
  {
    hide ActivateRegistrationOn, RevokeDeviceOn, RevokeWalletOn, ActivateWalletOn, PlanInitializeAccount,
         PlanLoginWithProof, VerifyFreshOn, FindUser, FindWallet, FindByEmployee, Trim, Backed, Employable;
  }

  lemma IssuingCalls(m: Machine, r: Reads, c: Call)
    requires DrawnBy(c) !! m.drawn && IssuesChallenge(c) && PlanOn(r, c).Go?
    requires forall id :: id in m.w.challenges ==> id in m.drawn
    ensures Issuing(m.(drawn := m.drawn + DrawnBy(c)), PlanOn(r, c).script)
    ensures PlanOn(r, c).script[0].challenge.challengeId in DrawnBy(c)
  {
    hide SessionLive, FindWalletOn, Trim;
  }

  lemma PayingInitialization(w: World, r: Reads, c: Call)
    requires PastReads(r, w) && c.InitializeAccount? && PlanOn(r, c).Go?
    ensures Paying(w, PlanOn(r, c).script)
  {
    hide FindByEmployee, Trim;
    var s := PlanOn(r, c).script;
    assert |s| == 4 && s[2..] == [s[2], s[3]];
    assert SameBinding(r.view.challenges[c.challengeId], w.challenges[c.challengeId]);
  }

  lemma PayingLogin(w: World, r: Reads, c: Call)
    requires PastReads(r, w) && c.LoginWithProof? && PlanOn(r, c).Go?
    ensures Paying(w, PlanOn(r, c).script)
  {
    hide FindWalletOn, FindUser, Trim;
    var s := PlanOn(r, c).script;
    assert |s| == 2 && s[2..] == [];
    assert SameBinding(r.view.challenges[c.challengeId], w.challenges[c.challengeId]);
  }

  lemma ProvingFresh(w: World, r: Reads, c: Call)
    requires PastReads(r, w) && c.VerifyFresh? && PlanOn(r, c).Go?
    ensures Proving(w, PlanOn(r, c).script)
  {
    hide SessionLive, Trim;
    var s := PlanOn(r, c).script;
    assert |s| == 1 && s[1..] == [];
    assert SameBinding(r.view.challenges[c.challengeId], w.challenges[c.challengeId]);
  }

  /** The scripts of the services have one of the shapes, whatever their guards read. */
  lemma PlanShaped(m: Machine, r: Reads, c: Call)
    requires PastReads(r, m.w) && DrawnBy(c) !! m.drawn && PlanOn(r, c).Go?
    requires forall id :: id in m.w.challenges ==> id in m.drawn
    ensures var m' := m.(drawn := m.drawn + DrawnBy(c));
            var s := PlanOn(r, c).script;
            Ordinary(s) || (Issuing(m', s) && s[0].challenge.challengeId in DrawnBy(c)) || Paying(m.w, s) || Proving(m.w, s)
  {
    hide PlanOn, Ordinary, Issuing, Paying, Proving;
    if MovesWallets(c) {
      WalletCallsOrdinary(r, c);
    } else if IssuesChallenge(c) {
      IssuingCalls(m, r, c);
    } else if c.InitializeAccount? {
      PayingInitialization(m.w, r, c);
    } else if c.LoginWithProof? {
      PayingLogin(m.w, r, c);
    } else if c.VerifyFresh? {
      ProvingFresh(m.w, r, c);
    } else {
      OtherCallsOrdinary(r, c);
    }
  }

  // ------------------------------------------------------------------- stepping

  /** What a step does to the challenges and to the log of successes. */
  lemma ExecChallenges(w: World, e: Action)
    ensures Exec(w, e).w.env == w.env
    ensures Ordinary([e]) ==> Exec(w, e).w.challenges == w.challenges && Exec(w, e).w.granted == w.granted
    ensures Ordinary([e]) && Exec(w, e).Become? ==> Ordinary([Exec(w, e).next])
    ensures e.SaveChallenge? ==>
      Exec(w, e).Done? && Exec(w, e).w.granted == w.granted
      && Exec(w, e).w.challenges == w.challenges[e.challenge.challengeId := e.challenge]
    ensures PaidBy(e).Some? ==>
      Exec(w, e).Done? && Exec(w, e).w.challenges == w.challenges
      && GrantOf(e).Some? && Exec(w, e).w.granted == w.granted + [GrantOf(e).value]
    ensures e.Consume? && (e.challengeId !in w.challenges || w.challenges[e.challengeId].used) ==>
      Exec(w, e).Throw? && Exec(w, e).w == w
    ensures e.Consume? && e.challengeId in w.challenges && !w.challenges[e.challengeId].used ==>
      Exec(w, e).Done? && Exec(w, e).w.granted == Logged(w.granted, e.grant)
      && Exec(w, e).w.challenges == w.challenges[e.challengeId := w.challenges[e.challengeId].(used := true)]
  {
    hide Apply, FindUser, ChainRole;
    assert Ordinary([e]) ==> [e][0] == e;
  }

  /** The books still balance when the same calls are parked on the same challenges. */
  lemma SameBooks(m: Machine, m': Machine)
    requires SpentOnce(m) && Accounted(m)
    requires forall u, c :: ParkedOn(m', u, c) <==> ParkedOn(m, u, c)
    requires m'.w.granted == m.w.granted
    requires forall c :: c in m'.w.challenges && m'.w.challenges[c].used ==> c in m.w.challenges && m.w.challenges[c].used
    ensures SpentOnce(m') && Accounted(m')
  {
    hide ParkedOn, LoggedFor;
    forall c | c in m'.w.challenges && m'.w.challenges[c].used
      ensures LoggedFor(m'.w.granted, c) || exists u :: ParkedOn(m', u, c)
    {
      if !LoggedFor(m.w.granted, c) {
        var u :| ParkedOn(m, u, c);
        assert ParkedOn(m', u, c);
      }
    }
  }

  /** A machine with the same challenges and log, whose thread `t` has moved on or ended
      without being parked, is as sound as before. */
  lemma QuietStep(m: Machine, m': Machine, t: nat)
    requires Sound(m) && m'.w.env == m.w.env && m'.w.challenges == m.w.challenges && m'.w.granted == m.w.granted
    requires m'.drawn == m.drawn
    requires forall u :: u in m'.threads && u != t ==> u in m.threads && m'.threads[u] == m.threads[u]
    requires forall u :: u in m.threads && u != t ==> u in m'.threads
    requires t in m.threads && !Parked(m.w, m.threads[t])
    requires t in m'.threads ==> Ordinary(m'.threads[t])
    ensures Sound(m')
  {
    hide Matches, Accounted, SpentOnce, LoggedFor;
    forall u, c ensures ParkedOn(m', u, c) <==> ParkedOn(m, u, c) {}
    SameBooks(m, m');
  }

  lemma TailOrdinary(s: Script)
    requires s != [] && Ordinary(s)
    ensures Ordinary([s[0]]) && Ordinary(s[1..]) && PaidBy(s[0]).None?
    ensures forall e :: Ordinary([e]) ==> Ordinary([e] + s[1..])
  {
    forall e | Ordinary([e]) ensures Ordinary([e] + s[1..]) {
      assert [e][0] == e;
    }
  }

  lemma ActOrdinary(m: Machine, m': Machine, t: nat)
    requires Sound(m) && Act(m, m', t) && Ordinary(m.threads[t])
    ensures Sound(m')
  {
    hide Exec, Sound;
    var s := m.threads[t];
    TailOrdinary(s);
    ExecChallenges(m.w, s[0]);
    QuietStep(m, m', t);
  }

  lemma ActIssuing(m: Machine, m': Machine, t: nat)
    requires Sound(m) && Act(m, m', t) && Issuing(m, m.threads[t])
    ensures Sound(m')
  {
    hide Exec, Matches, Accounted, SpentOnce, LoggedFor;
    var s := m.threads[t];
    var id := s[0].challenge.challengeId;
    ExecChallenges(m.w, s[0]);
    forall u | u in m'.threads ensures Shaped(m', m'.threads[u]) {
      if u != t && Issuing(m, m.threads[u]) { assert m.threads[u][0].challenge.challengeId != id; }
    }
    forall u, c ensures ParkedOn(m', u, c) <==> ParkedOn(m, u, c) {
      if u != t && u in m.threads { assert Shaped(m, m.threads[u]); }
    }
    SameBooks(m, m');
  }

  /** Shapes and matches survive a challenge being marked used. */
  lemma UsedKeepsShapes(m: Machine, m': Machine, id: string, s: Script)
    requires id in m.w.challenges && m'.w.env == m.w.env && m'.drawn == m.drawn
    requires m'.w.challenges == m.w.challenges[id := m.w.challenges[id].(used := true)]
    ensures Shaped(m, s) ==> Shaped(m', s)
    ensures Parked(m.w, s) ==> Parked(m'.w, s)
    ensures Issuing(m', s) ==> Issuing(m, s)
    ensures forall g :: Backs(m.w, g) ==> Backs(m'.w, g)
  {
  }

  /** Nobody has spent a challenge that is still unused. */
  lemma UnusedUnspent(m: Machine, id: string)
    requires Sound(m) && id in m.w.challenges && !m.w.challenges[id].used
    ensures !LoggedFor(m.w.granted, id) && forall u :: !ParkedOn(m, u, id)
  {
  }

  lemma ActPaying(m: Machine, m': Machine, t: nat)
    requires Sound(m) && Act(m, m', t) && Paying(m.w, m.threads[t])
    ensures Sound(m')
  {
    hide Exec;
    var s := m.threads[t];
    var id := s[0].challengeId;
    ExecChallenges(m.w, s[0]);
    if m.w.challenges[id].used {
      QuietStep(m, m', t);
    } else {
      UnusedUnspent(m, id);
      PaidThenParked(m, m', t, id);
    }
  }

  /** The books still balance when only one challenge changed hands, at one thread: it is
      either logged, or parked on by that thread alone. */
  lemma OneChanged(m: Machine, m': Machine, t: nat, id: string)
    requires SpentOnce(m) && Accounted(m)
    requires forall u, c :: u != t && ParkedOn(m', u, c) ==> ParkedOn(m, u, c) && c != id
    requires forall u, c :: u != t && ParkedOn(m, u, c) ==> ParkedOn(m', u, c)
    requires forall c :: ParkedOn(m, t, c) || ParkedOn(m', t, c) ==> c == id
    requires forall c :: c != id ==> (LoggedFor(m'.w.granted, c) <==> LoggedFor(m.w.granted, c))
    requires forall c :: c != id && c in m'.w.challenges ==> c in m.w.challenges && m'.w.challenges[c].used == m.w.challenges[c].used
    requires LoggedFor(m'.w.granted, id) <==> !ParkedOn(m', t, id)
    requires forall i, j :: 0 <= i < j < |m'.w.granted| ==> m'.w.granted[i].challengeId != m'.w.granted[j].challengeId
    ensures SpentOnce(m') && Accounted(m')
  {
    hide ParkedOn, LoggedFor;
    forall c | c in m'.w.challenges && m'.w.challenges[c].used
      ensures LoggedFor(m'.w.granted, c) || exists u :: ParkedOn(m', u, c)
    {
      if c != id && !LoggedFor(m.w.granted, c) {
        var u :| ParkedOn(m, u, c);
        assert u != t && ParkedOn(m', u, c);
      }
    }
  }

  /** What every other thread sees when thread `t` marks a challenge used and moves on. */
  lemma MarkedUsed(m: Machine, m': Machine, t: nat, id: string)
    requires Sound(m) && t in m.threads && m.threads[t] != [] && m.threads[t][0].Consume?
    requires id in m.w.challenges && !m.w.challenges[id].used
    requires m'.w.env == m.w.env && m'.drawn == m.drawn
    requires m'.w.challenges == m.w.challenges[id := m.w.challenges[id].(used := true)]
    requires m'.threads == m.threads[t := m.threads[t][1..]]
    requires Ordinary(m.threads[t][1..]) || Parked(m'.w, m.threads[t][1..])
    ensures forall u :: u in m'.threads ==> Shaped(m', m'.threads[u])
    ensures forall u, c :: u != t && ParkedOn(m', u, c) ==> ParkedOn(m, u, c) && c != id
    ensures forall u, c :: u != t && ParkedOn(m, u, c) ==> ParkedOn(m', u, c)
    ensures forall c :: !ParkedOn(m, t, c)
    ensures Drawn(m')
  {
    hide Matches, Accounted, SpentOnce;
    forall u | u in m.threads && u != t
      ensures Shaped(m', m'.threads[u])
      ensures forall c :: ParkedOn(m', u, c) ==> ParkedOn(m, u, c) && c != id
      ensures forall c :: ParkedOn(m, u, c) ==> ParkedOn(m', u, c)
      ensures Issuing(m', m'.threads[u]) ==> Issuing(m, m.threads[u])
    {
      assert Shaped(m, m.threads[u]);
      UsedKeepsShapes(m, m', id, m.threads[u]);
    }
  }

  lemma PaidThenParked(m: Machine, m': Machine, t: nat, id: string)
    requires Sound(m) && t in m.threads && Paying(m.w, m.threads[t]) && id == m.threads[t][0].challengeId
    requires !LoggedFor(m.w.granted, id) && !m.w.challenges[id].used
    requires m'.w.env == m.w.env && m'.drawn == m.drawn && m'.w.granted == m.w.granted
    requires m'.w.challenges == m.w.challenges[id := m.w.challenges[id].(used := true)]
    requires m'.threads == m.threads[t := m.threads[t][1..]]
    ensures Sound(m')
  {
    hide Matches, Shaped, Accounted, SpentOnce, Drawn, LoggedFor;
    var s := m.threads[t];
    UsedKeepsShapes(m, m', id, s);
    assert s[1..][1..] == s[2..];
    assert ParkedOn(m', t, id);
    MarkedUsed(m, m', t, id);
    DistinctLog(m);
    OneChanged(m, m', t, id);
  }

  lemma DistinctLog(m: Machine)
    requires SpentOnce(m)
    ensures forall i, j :: 0 <= i < j < |m.w.granted| ==> m.w.granted[i].challengeId != m.w.granted[j].challengeId
  {
  }

  /** A success is logged for a challenge nobody else has spent. */
  lemma LoggedOnce(log: seq<Grant>, g: Grant)
    requires !LoggedFor(log, g.challengeId)
    ensures forall c :: LoggedFor(log + [g], c) <==> LoggedFor(log, c) || c == g.challengeId
  {
    forall c ensures LoggedFor(log + [g], c) <==> LoggedFor(log, c) || c == g.challengeId {
      if LoggedFor(log, c) {
        var i :| 0 <= i < |log| && log[i].challengeId == c;
        assert (log + [g])[i].challengeId == c;
      }
      assert (log + [g])[|log|] == g;
    }
  }

  lemma ActParked(m: Machine, m': Machine, t: nat)
    requires Sound(m) && Act(m, m', t) && Parked(m.w, m.threads[t])
    ensures Sound(m')
  {
    hide Exec, Matches, Accounted, SpentOnce, LoggedFor;
    var s := m.threads[t];
    var g := GrantOf(s[0]).value;
    ExecChallenges(m.w, s[0]);
    assert ParkedOn(m, t, g.challengeId);
    ParkedAlone(m, t, g.challengeId);
    LoggedOnce(m.w.granted, g);
    LoggedDistinct(m, g);
    forall u | u in m'.threads ensures Shaped(m', m'.threads[u]) {}
    forall u, c | u != t ensures ParkedOn(m', u, c) <==> ParkedOn(m, u, c) {}
    OneChanged(m, m', t, g.challengeId);
  }

  /** A parked call is the only claim on its challenge. */
  lemma ParkedAlone(m: Machine, t: nat, id: string)
    requires SpentOnce(m) && ParkedOn(m, t, id)
    ensures !LoggedFor(m.w.granted, id) && forall u :: ParkedOn(m, u, id) ==> u == t
  {
  }

  lemma LoggedDistinct(m: Machine, g: Grant)
    requires SpentOnce(m) && !LoggedFor(m.w.granted, g.challengeId)
    ensures var log := m.w.granted + [g];
            forall i, j :: 0 <= i < j < |log| ==> log[i].challengeId != log[j].challengeId
  {
  }

  lemma ActProving(m: Machine, m': Machine, t: nat)
    requires Sound(m) && Act(m, m', t) && Proving(m.w, m.threads[t])
    ensures Sound(m')
  {
    hide Exec;
    var s := m.threads[t];
    var id := s[0].challengeId;
    ExecChallenges(m.w, s[0]);
    if m.w.challenges[id].used {
      QuietStep(m, m', t);
    } else {
      UnusedUnspent(m, id);
      ProvedThenOver(m, m', t, id);
    }
  }

  lemma ProvedThenOver(m: Machine, m': Machine, t: nat, id: string)
    requires Sound(m) && t in m.threads && Proving(m.w, m.threads[t]) && id == m.threads[t][0].challengeId
    requires !LoggedFor(m.w.granted, id) && !m.w.challenges[id].used
    requires m'.w.env == m.w.env && m'.drawn == m.drawn
    requires m'.w.granted == m.w.granted + [m.threads[t][0].grant.value]
    requires m'.w.challenges == m.w.challenges[id := m.w.challenges[id].(used := true)]
    requires m'.threads == m.threads[t := m.threads[t][1..]]
    ensures Sound(m')
  {
    hide Matches, Shaped, Accounted, SpentOnce, Drawn, LoggedFor;
    var s := m.threads[t];
    UsedKeepsShapes(m, m', id, s);
    MarkedUsed(m, m', t, id);
    LoggedOnce(m.w.granted, s[0].grant.value);
    LoggedDistinct(m, s[0].grant.value);
    OneChanged(m, m', t, id);
  }

  lemma EnterSound(m: Machine, m': Machine, t: nat, c: Call, r: Reads)
    requires Sound(m) && Enter(m, m', t, c, r)
    ensures Sound(m')
  {
    hide PlanOn, Matches, Accounted, SpentOnce, LoggedFor, Drawn;
    EnterDrawn(m, m', t, c, r);
    PlanShaped(m, r, c);
    forall u | u in m.threads ensures Shaped(m', m'.threads[u]) {}
    forall u, id ensures ParkedOn(m', u, id) <==> ParkedOn(m, u, id) {}
    SameBooks(m, m');
  }

  lemma EnterDrawn(m: Machine, m': Machine, t: nat, c: Call, r: Reads)
    requires Drawn(m) && (forall u :: u in m.threads ==> Shaped(m, m.threads[u])) && Enter(m, m', t, c, r)
    ensures Drawn(m') && forall id :: id in m.w.challenges ==> id in m.drawn
  {
    hide PlanOn, Matches;
    PlanShaped(m, r, c);
  }

  lemma NextSound(m: Machine, m': Machine, move: Move)
    requires Sound(m) && Next(m, m', move)
    ensures Sound(m')
  {
    hide Sound, Shaped, Act, Enter;
    match move
    case Entering(t, c, r) => EnterSound(m, m', t, c, r);
    case Acting(t) => ActSound(m, m', t);
    case Outside => OutsideSound(m, m');
  }

  lemma OutsideSound(m: Machine, m': Machine)
    requires Sound(m) && Elsewhere(m, m')
    ensures Sound(m')
  {
    forall u, c ensures ParkedOn(m', u, c) <==> ParkedOn(m, u, c) {}
  }

  lemma ActSound(m: Machine, m': Machine, t: nat)
    requires Sound(m) && Act(m, m', t)
    ensures Sound(m')
  {
    hide Exec;
    assert Shaped(m, m.threads[t]);
    if Ordinary(m.threads[t]) { ActOrdinary(m, m', t); }
    else if Issuing(m, m.threads[t]) { ActIssuing(m, m', t); }
    else if Paying(m.w, m.threads[t]) { ActPaying(m, m', t); }
    else if Parked(m.w, m.threads[t]) { ActParked(m, m', t); }
    else { ActProving(m, m', t); }
  }

  // --------------------------------------------------------------- main results

  /** A machine before its first call, over a store without challenges. */
  ghost predicate Initial(m: Machine) {
    m.threads == map[] && m.w.granted == [] && m.w.challenges == map[]
  }

  lemma {:induction false} RunSound(ms: seq<Machine>, moves: seq<Move>, i: nat)
    requires IsRun(ms, moves) && i < |ms| && Initial(ms[0])
    ensures Sound(ms[i])
    decreases i
  {
    hide Next, Shaped;
    if i > 0 {
      RunSound(ms, moves, i - 1);
      NextSound(ms[i - 1], ms[i], moves[i - 1]);
    } else {
      forall t, c ensures !ParkedOn(ms[0], t, c) {}
    }
  }

  /** In every interleaving a challenge buys at most one success, and every success was
      paid for by a consumed challenge of the right purpose and device (and, for a fresh
      authentication, the right session, operation and resource). */
  lemma SuccessOncePerChallenge(ms: seq<Machine>, moves: seq<Move>, i: nat, a: nat, b: nat)
    requires IsRun(ms, moves) && i < |ms| && Initial(ms[0])
    requires a < |ms[i].w.granted| && b < |ms[i].w.granted|
    ensures ms[i].w.granted[a].challengeId == ms[i].w.granted[b].challengeId ==> a == b
    ensures var g := ms[i].w.granted[a];
            Backs(ms[i].w, g) && ms[i].w.challenges[g.challengeId].used
  {
    RunSound(ms, moves, i);
  }

  function PurposeOf(g: Grant): Purpose {
    match g
    case ProofSession(_, _) => Authentication
    case Registration(_, _, _) => WalletInitialization
    case FreshAuth(_, _, _, _, _) => FreshAuthentication
  }

  /** Consumed challenges of one purpose. */
  function Consumed(w: World, p: Purpose): set<string> {
    set c | c in w.challenges && w.challenges[c].used && w.challenges[c].purpose == p
  }

  /** Successes of one kind, by position in the log. */
  function Successes(w: World, p: Purpose): set<nat> {
    set i: nat | 0 <= i < |w.granted| && PurposeOf(w.granted[i]) == p
  }

  /** Calls parked between consuming a challenge and saving what it buys. */
  ghost function ParkedCalls(m: Machine, p: Purpose): set<nat> {
    set t | t in m.threads && Parked(m.w, m.threads[t]) && PurposeOf(GrantOf(m.threads[t][0]).value) == p
  }

  /** An injective image has as many elements as its domain. */
  lemma {:induction false} ImageSize(s: set<nat>, f: nat -> string)
    requires forall x, y :: x in s && y in s && f(x) == f(y) ==> x == y
    ensures |set x | x in s :: f(x)| == |s|
    decreases s
  {
    if s != {} {
      var x :| x in s;
      ImageSize(s - {x}, f);
      assert (set y | y in s :: f(y)) == (set y | y in s - {x} :: f(y)) + {f(x)};
    }
  }

  /** The challenge behind each logged success. */
  function PaidAt(w: World): nat -> string {
    (k: nat) => if k < |w.granted| then w.granted[k].challengeId else ""
  }

  /** The challenge each parked call holds. */
  function HeldBy(m: Machine): nat -> string {
    (t: nat) => if t in m.threads && m.threads[t] != [] && PaidBy(m.threads[t][0]).Some? then PaidBy(m.threads[t][0]).value else ""
  }

  lemma ParkedHolds(m: Machine, p: Purpose, t: nat)
    requires t in ParkedCalls(m, p)
    ensures ParkedOn(m, t, HeldBy(m)(t)) && p != FreshAuthentication
  {
  }

  lemma HeldIs(m: Machine, t: nat, c: string)
    requires ParkedOn(m, t, c)
    ensures HeldBy(m)(t) == c && forall p :: t in ParkedCalls(m, p) <==> m.w.challenges[c].purpose == p
  {
  }

  /** Successes of a kind plus calls parked on that kind equal the consumed challenges of
      its purpose: sessions issued by proof plus logins parked before their save, and
      likewise registrations; a fresh authentication never parks. */
  lemma ConsumedAccounting(ms: seq<Machine>, moves: seq<Move>, i: nat, p: Purpose)
    requires IsRun(ms, moves) && i < |ms| && Initial(ms[0])
    ensures |Consumed(ms[i].w, p)| == |Successes(ms[i].w, p)| + |ParkedCalls(ms[i], p)|
    ensures p == FreshAuthentication ==> ParkedCalls(ms[i], p) == {}
  {
    hide IsRun, Initial;
    RunSound(ms, moves, i);
    BooksBalance(ms[i], p);
  }

  lemma BooksBalance(m: Machine, p: Purpose)
    requires Sound(m)
    ensures |Consumed(m.w, p)| == |Successes(m.w, p)| + |ParkedCalls(m, p)|
    ensures p == FreshAuthentication ==> ParkedCalls(m, p) == {}
  {
    hide Sound, ParkedOn, ParkedCalls, HeldBy, PaidAt, Successes, Consumed;
    var logged := set k | k in Successes(m.w, p) :: PaidAt(m.w)(k);
    var parked := set t | t in ParkedCalls(m, p) :: HeldBy(m)(t);
    ClaimsDistinct(m, p);
    ImageSize(Successes(m.w, p), PaidAt(m.w));
    ImageSize(ParkedCalls(m, p), HeldBy(m));
    ConsumedIsClaimed(m, p);
    ClaimedIsConsumed(m, p);
    assert Consumed(m.w, p) == logged + parked;
    assert |logged + parked| == |logged| + |parked|;
  }

  /** No two claims of a kind are on the same challenge. */
  lemma ClaimsDistinct(m: Machine, p: Purpose)
    requires Sound(m)
    ensures forall x, y :: x in Successes(m.w, p) && y in Successes(m.w, p) && PaidAt(m.w)(x) == PaidAt(m.w)(y) ==> x == y
    ensures forall x, y :: x in ParkedCalls(m, p) && y in ParkedCalls(m, p) && HeldBy(m)(x) == HeldBy(m)(y) ==> x == y
    ensures p == FreshAuthentication ==> ParkedCalls(m, p) == {}
  {
    hide Shaped, Accounted, AllBacked, Drawn, LoggedFor, ParkedOn, ParkedCalls, HeldBy;
    forall t | t in ParkedCalls(m, p) ensures ParkedOn(m, t, HeldBy(m)(t)) && p != FreshAuthentication { ParkedHolds(m, p, t); }
  }

  lemma ConsumedIsClaimed(m: Machine, p: Purpose)
    requires Sound(m)
    ensures forall c :: c in Consumed(m.w, p) ==>
              (exists k :: k in Successes(m.w, p) && PaidAt(m.w)(k) == c) || (exists t :: t in ParkedCalls(m, p) && HeldBy(m)(t) == c)
  {
    hide Shaped, Parked, ParkedOn, ParkedCalls, HeldBy;
    forall c | c in Consumed(m.w, p)
      ensures (exists k :: k in Successes(m.w, p) && PaidAt(m.w)(k) == c) || (exists t :: t in ParkedCalls(m, p) && HeldBy(m)(t) == c)
    {
      if LoggedFor(m.w.granted, c) {
        var k :| 0 <= k < |m.w.granted| && m.w.granted[k].challengeId == c;
        assert Backs(m.w, m.w.granted[k]);
        assert k in Successes(m.w, p) && PaidAt(m.w)(k) == c;
      } else {
        var t :| ParkedOn(m, t, c);
        HeldIs(m, t, c);
        assert t in ParkedCalls(m, p) && HeldBy(m)(t) == c;
      }
    }
  }

  lemma ClaimedIsConsumed(m: Machine, p: Purpose)
    requires Sound(m)
    ensures forall k :: k in Successes(m.w, p) ==> PaidAt(m.w)(k) in Consumed(m.w, p) && LoggedFor(m.w.granted, PaidAt(m.w)(k))
    ensures forall t :: t in ParkedCalls(m, p) ==> HeldBy(m)(t) in Consumed(m.w, p) && !LoggedFor(m.w.granted, HeldBy(m)(t))
  {
    hide Shaped, ParkedCalls, HeldBy;
    forall k | k in Successes(m.w, p) ensures PaidAt(m.w)(k) in Consumed(m.w, p) {
      assert Backs(m.w, m.w.granted[k]);
    }
    forall t | t in ParkedCalls(m, p) ensures HeldBy(m)(t) in Consumed(m.w, p) && !LoggedFor(m.w.granted, HeldBy(m)(t)) {
      ParkedHolds(m, p, t);
      HeldIs(m, t, HeldBy(m)(t));
    }
  }
}
