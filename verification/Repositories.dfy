/** The shared state of the identity services as they hold it: in-memory repositories that
    are written in place, and the chain behind its adapter. Each method is one effect of
    module IdentityModel; the lemmas follow a script effect by effect. */
module Repositories {
  import opened Prelude
  import opened IdentityModel

  /** After `i` effects of a script begun in `w0` the world is `w`, and nothing has failed. */
  ghost predicate Along(w0: World, s: Script, i: nat, w: World) {
    i <= |s| && RunFrom(w0, s, 0) == RunFrom(w, s, i)
  }

  lemma AlongStart(w0: World, s: Script)
    ensures Along(w0, s, 0, w0)
  {
  }

  lemma AlongStep(w0: World, s: Script, i: nat, w: World, a: Action, w': World, r: Outcome)
    requires Along(w0, s, i, w) && i < |s| && s[i] == a && Complete(w, a) == (w', r)
    ensures r == Ok ==> Along(w0, s, i + 1, w')
    ensures r != Ok ==> Run(w0, s) == (w', r)
  {
    hide Complete;
  }

  lemma AlongEnd(w0: World, s: Script, w: World)
    requires Along(w0, s, |s|, w)
    ensures Run(w0, s) == (w, Ok)
  {
    hide Complete;
  }

  class Store {
    const env: Env
    var identities: Table<Identity>
    var users: Table<User>
    var devices: Table<Device>
    var wallets: Table<Wallet>
    var challenges: map<string, Challenge>
    var credentials: map<string, string>
    var sessions: map<string, Session>
    var chain: Chain
    ghost var issued: map<string, Session>
    ghost var granted: seq<Grant>

    ghost function State(): World
      reads this
    {
      World(env, identities, users, devices, wallets, challenges, credentials, sessions, chain, issued, granted)
    }

    constructor (env: Env, chain: Chain)
      ensures State() == World(env, EmptyTable(), EmptyTable(), EmptyTable(), EmptyTable(), map[], map[], map[], chain, map[], [])
    {
      this.env, this.chain := env, chain;
      identities, users, devices, wallets := EmptyTable(), EmptyTable(), EmptyTable(), EmptyTable();
      challenges, credentials, sessions, issued, granted := map[], map[], map[], map[], [];
    }

    method SaveIdentity(i: Identity, ghost grant: Option<Grant>)
      modifies this`identities, this`granted
      ensures (State(), Ok) == Complete(old(State()), Action.SaveIdentity(i, grant))
    {
      identities := identities.Put(i.identityId, i);
      granted := Logged(granted, grant);
    }

    method SaveUser(u: User)
      modifies this`users
      ensures (State(), Ok) == Complete(old(State()), Action.SaveUser(u))
    {
      users := users.Put(u.employeeId, u);
    }

    method SaveDevice(d: Device)
      modifies this`devices
      ensures (State(), Ok) == Complete(old(State()), Action.SaveDevice(d))
    {
      devices := devices.Put(d.deviceId, d);
    }

    method SaveWallet(x: Wallet)
      modifies this`wallets
      ensures (State(), Ok) == Complete(old(State()), Action.SaveWallet(x))
    {
      wallets := wallets.Put(x.address, x);
    }

    method SaveCredential(verifier: string, deviceId: string)
      modifies this`credentials
      ensures (State(), Ok) == Complete(old(State()), Action.SaveCredential(verifier, deviceId))
    {
      credentials := credentials[verifier := deviceId];
    }

    method RevokeForDevice(deviceId: string)
      modifies this`credentials
      ensures (State(), Ok) == Complete(old(State()), Action.RevokeCredentials(deviceId))
    {
      credentials := map v | v in credentials && credentials[v] != deviceId :: credentials[v];
    }

    method SaveChallenge(c: Challenge)
      modifies this`challenges
      ensures (State(), Ok) == Complete(old(State()), Action.SaveChallenge(c))
    {
      challenges := challenges[c.challengeId := c];
    }

    /** The atomic check-and-set: true for the first caller only. The success it may stand
        for is logged for the proofs. */
    method ConsumeIfUnused(id: string, ghost orElse: Error, ghost grant: Option<Grant>) returns (consumed: bool)
      modifies this`challenges, this`granted
      ensures (State(), if consumed then Ok else Failed(orElse)) == Complete(old(State()), Action.Consume(id, orElse, grant))
      ensures consumed <==> id in old(challenges) && !old(challenges)[id].used
      ensures consumed ==> id in challenges && challenges[id].used
    {
      if id !in challenges || challenges[id].used {
        return false;
      }
      challenges := challenges[id := challenges[id].(used := true)];
      granted := Logged(granted, grant);
      return true;
    }

    method SaveSession(s: Session, ghost grant: Option<Grant>)
      modifies this`sessions, this`issued, this`granted
      ensures (State(), Ok) == Complete(old(State()), Action.SaveSession(s, grant))
    {
      sessions := sessions[s.token := s];
      issued := issued[s.token := s];
      granted := Logged(granted, grant);
    }

    method DeleteSession(token: string)
      modifies this`sessions
      ensures (State(), Ok) == Complete(old(State()), Action.DeleteSession(token))
    {
      sessions := sessions - {token};
    }

    /** submitTransaction: the adapter answers, refuses before any effect, or loses the
        answer after the effect. */
    method SubmitTransaction(sender: string, tx: Tx) returns (r: Outcome)
      modifies this`chain
      ensures (State(), r) == Complete(old(State()), Action.Send(sender, tx))
    {
      hide Apply;
      var counted := chain.(submissions := chain.submissions + 1);
      var after := if env.evm then Apply(counted, OnChain(env, sender), AsSent(env, tx)) else Some(counted);
      match env.fate(chain.submissions)
      case Answered =>
        chain := if after.Some? then after.value else counted;
        r := if after.Some? then Ok else Failed(Reverted);
      case TurnedAway =>
        chain := counted;
        r := Failed(NoAnswer);
      case AnswerLost =>
        chain := if after.Some? then after.value else counted;
        r := Failed(NoAnswer);
    }
  }
}
