/** Authorization grants: they are created active, may be revoked, and expire lazily, by a
    write that validation makes in passing. */
module Grants {
  import opened Prelude
  import Ids = IdentityModel

  datatype GrantStatus = Granted | Expired | Withdrawn

  datatype Resource = AssetResource | JobResource

  /** No expiry stands for none given, an empty one, and one that is no date. */
  datatype Authorization = Authorization(
    grantId: string, actorId: string, resource: Resource, resourceId: string, action: string,
    grantorId: string, expiresAt: Option<int>, status: GrantStatus)

  type Grants = Table<Authorization>

  predicate MatchesUse(g: Authorization, actorId: string, resourceId: string, action: string) {
    g.actorId == actorId && g.resourceId == resourceId && g.action == action
  }

  predicate PastExpiry(g: Authorization, now: int) {
    g.expiresAt.Some? && g.expiresAt.value <= now
  }

  predicate IsActive(g: Authorization, actorId: string, resourceId: string, action: string, now: int) {
    g.status == Granted && MatchesUse(g, actorId, resourceId, action) && !PastExpiry(g, now)
  }

  /** The answer of validateGrant. */
  predicate Validates(gs: Grants, id: string, actorId: string, resourceId: string, action: string, now: int) {
    id in gs.rows && IsActive(gs.rows[id], actorId, resourceId, action, now)
  }

  /** Its write: a matching, granted but past grant is stored as expired. */
  function AfterValidation(gs: Grants, id: string, actorId: string, resourceId: string, action: string, now: int): Grants {
    if id in gs.rows && MatchesUse(gs.rows[id], actorId, resourceId, action) && gs.rows[id].status == Granted
       && PastExpiry(gs.rows[id], now)
    then gs.Put(id, gs.rows[id].(status := Expired)) else gs
  }

  function FindActive(gs: Grants, actorId: string, resource: Resource, resourceId: string, action: string, now: int): Option<Authorization> {
    gs.Find((g: Authorization) => g.actorId == actorId && g.resource == resource && IsActive(g, actorId, resourceId, action, now))
  }

  function GrantsOf(gs: Grants, actorId: string): seq<Authorization> {
    gs.Filter((g: Authorization) => g.actorId == actorId)
  }

  datatype Denied = NoIdentity | NotAllowed | NoGrant | NotSubmitted

  datatype Outcome = Ok(grant: Authorization) | Err(why: Denied)

  datatype Event =
    | Create(grantId: string, actor: Option<Ids.Identity>, target: Option<Ids.Identity>, resource: Resource, resourceId: string,
             action: string, expiresAt: Option<int>, submitted: bool)
    | Revoke(grantId: string, actor: Option<Ids.Identity>, submitted: bool)
    | Validate(grantId: string, actorId: string, resourceId: string, action: string)
    | Find(actorId: string, resource: Resource, resourceId: string, action: string)
    | List(target: Option<Ids.Identity>)

  datatype Reply =
    | Verdict(valid: bool)
    | Found(grant: Option<Authorization>)
    | Done(outcome: Outcome)
    | Listed(grants: seq<Authorization>)

  const TRANSFER_ASSET := "TRANSFER_ASSET"

  function CreateGuard(e: Event): Option<Denied>
    requires e.Create?
  {
    if e.actor.None? || e.target.None? then Some(NoIdentity)
    else if e.actor.value.status != Ids.Active || e.target.value.status != Ids.Active then Some(NotAllowed)
    else if e.actor.value.role != Some(Ids.ADMIN) then Some(NotAllowed)
    else if e.resource != AssetResource || e.action != TRANSFER_ASSET then Some(NotAllowed)
    else if !e.submitted then Some(NotSubmitted)
    else None
  }

  function RevokeGuard(gs: Grants, e: Event): Option<Denied>
    requires e.Revoke?
  {
    if e.actor.None? then Some(NoIdentity)
    else if e.grantId !in gs.rows then Some(NoGrant)
    else if gs.rows[e.grantId].grantorId != e.actor.value.identityId && e.actor.value.role != Some(Ids.ADMIN) then Some(NotAllowed)
    else if !e.submitted then Some(NotSubmitted)
    else None
  }

  function Step(gs: Grants, e: Event, now: int): (Grants, Reply) {
    match e
    case Create(id, actor, target, resource, resourceId, action, expiresAt, _) =>
      var fault := CreateGuard(e);
      if fault.Some? then (gs, Done(Err(fault.value)))
      else
        var g := Authorization(id, target.value.identityId, resource, resourceId, action, actor.value.identityId, expiresAt, Granted);
        (gs.Put(id, g), Done(Ok(g)))
    case Revoke(id, _, _) =>
      var fault := RevokeGuard(gs, e);
      if fault.Some? then (gs, Done(Err(fault.value)))
      else
        var g := gs.rows[id].(status := Withdrawn);
        (gs.Put(id, g), Done(Ok(g)))
    case Validate(id, actorId, resourceId, action) =>
      (AfterValidation(gs, id, actorId, resourceId, action, now), Verdict(Validates(gs, id, actorId, resourceId, action, now)))
    case Find(actorId, resource, resourceId, action) =>
      (gs, Found(FindActive(gs, actorId, resource, resourceId, action, now)))
    case List(target) =>
      (gs, if target.None? then Done(Err(NoIdentity)) else Listed(GrantsOf(gs, target.value.identityId)))
  }

  datatype Timed = Timed(event: Event, now: int)

  function Run(gs: Grants, es: seq<Timed>): (Grants, seq<Reply>)
    decreases |es|
  {
    if es == [] then (gs, [])
    else
      var (gs1, r) := Step(gs, es[0].event, es[0].now);
      var (gs2, rs) := Run(gs1, es[1..]);
      (gs2, [r] + rs)
  }

  /** Generated grant ids are not in use. */
  ghost predicate FreshGrants(gs: Grants, es: seq<Timed>)
    decreases |es|
  {
    es == [] ||
    (&& (es[0].event.Create? ==> es[0].event.grantId !in gs.rows)
     && FreshGrants(Step(gs, es[0].event, es[0].now).0, es[1..]))
  }

  predicate NoneBefore(es: seq<Timed>, t: int) {
    forall i :: 0 <= i < |es| ==> es[i].now >= t
  }

  /** A grant only decays: what it is about never changes, and it is never granted again. */
  predicate Decayed(g: Authorization, g': Authorization) {
    g' == g.(status := g'.status) && (g.status != Granted ==> g'.status != Granted)
  }

  lemma StepDecays(gs: Grants, e: Event, now: int, id: string)
    requires id in gs.rows && (e.Create? ==> e.grantId !in gs.rows)
    ensures var gs' := Step(gs, e, now).0; id in gs'.rows && Decayed(gs.rows[id], gs'.rows[id])
  {
    assert gs.rows[id] == gs.rows[id].(status := gs.rows[id].status);
  }

  /** Once a grant that matches a use fails validation it fails for good: at any later time
      and after any further events, in whatever order. */
  lemma {:induction false} FailsForever(gs: Grants, es: seq<Timed>, id: string, actorId: string, resourceId: string, action: string, t: int, later: int)
    requires id in gs.rows && MatchesUse(gs.rows[id], actorId, resourceId, action)
    requires !Validates(gs, id, actorId, resourceId, action, t) && t <= later && FreshGrants(gs, es)
    ensures !Validates(Run(gs, es).0, id, actorId, resourceId, action, later)
    decreases |es|
  {
    if es != [] {
      var gs1 := Step(gs, es[0].event, es[0].now).0;
      StepDecays(gs, es[0].event, es[0].now, id);
      FailsForever(gs1, es[1..], id, actorId, resourceId, action, t, later);
    }
  }

  /** findActiveGrant answers exactly when some stored grant for that kind of resource
      would pass validateGrant at the same instant, and then with such a grant. */
  lemma FindExact(gs: Grants, actorId: string, resource: Resource, resourceId: string, action: string, now: int)
    requires gs.Valid()
    ensures FindActive(gs, actorId, resource, resourceId, action, now).Some? <==>
              exists id :: id in gs.rows && gs.rows[id].resource == resource && Validates(gs, id, actorId, resourceId, action, now)
    ensures FindActive(gs, actorId, resource, resourceId, action, now).Some? ==>
              exists id :: id in gs.rows && gs.rows[id] == FindActive(gs, actorId, resource, resourceId, action, now).value
                           && gs.rows[id].resource == resource && Validates(gs, id, actorId, resourceId, action, now)
  {
    if FindActive(gs, actorId, resource, resourceId, action, now).None? {
      forall id | id in gs.rows && gs.rows[id].resource == resource ensures !Validates(gs, id, actorId, resourceId, action, now) {}
    }
  }

  // ---------------------------------------------------------------- the lazy write

  /** The same grant, or one that is past and that only `h` shows as expired. */
  predicate RowSame(g: Authorization, h: Authorization, t: int) {
    h == g || (PastExpiry(g, t) && g.status == Granted && h == g.(status := Expired))
  }

  predicate RowsSame(gs: seq<Authorization>, hs: seq<Authorization>, t: int) {
    |gs| == |hs| && forall i :: 0 <= i < |gs| ==> RowSame(gs[i], hs[i], t)
  }

  /** The same answer; a listing may show a past grant as granted or as expired. */
  predicate Alike(r: Reply, r': Reply, now: int) {
    if r.Listed? then r'.Listed? && RowsSame(r.grants, r'.grants, now) else r' == r
  }

  /** Two stores that differ at most in which past grants are already written as expired. */
  ghost predicate SameButLazy(gs: Grants, hs: Grants, t: int) {
    && gs.keys == hs.keys && gs.rows.Keys == hs.rows.Keys
    && forall id :: id in gs.rows ==> RowSame(gs.rows[id], hs.rows[id], t)
  }

  lemma SameActive(g: Authorization, h: Authorization, t: int, now: int, actorId: string, resourceId: string, action: string)
    requires RowSame(g, h, t) && t <= now
    ensures RowSame(g, h, now) && g.actorId == h.actorId && g.resource == h.resource
    ensures IsActive(g, actorId, resourceId, action, now) == IsActive(h, actorId, resourceId, action, now)
    ensures IsActive(g, actorId, resourceId, action, now) ==> g == h
  {
  }

  lemma {:induction false} SameFind(gs: Grants, hs: Grants, t: int, now: int, actorId: string, resource: Resource, resourceId: string, action: string, i: nat)
    requires SameButLazy(gs, hs, t) && t <= now && i <= |gs.keys|
    ensures var p := (g: Authorization) => g.actorId == actorId && g.resource == resource && IsActive(g, actorId, resourceId, action, now);
            gs.FindFrom(p, i) == hs.FindFrom(p, i)
    decreases |gs.keys| - i
  {
    hide IsActive, RowSame;
    if i < |gs.keys| {
      var k := gs.keys[i];
      if k in gs.rows { SameActive(gs.rows[k], hs.rows[k], t, now, actorId, resourceId, action); }
      SameFind(gs, hs, t, now, actorId, resource, resourceId, action, i + 1);
    }
  }

  lemma RowsLonger(g: Authorization, h: Authorization, gs: seq<Authorization>, hs: seq<Authorization>, t: int)
    requires RowSame(g, h, t) && RowsSame(gs, hs, t)
    ensures RowsSame([g] + gs, [h] + hs, t)
  {
    hide RowSame;
  }

  lemma NoRows(t: int)
    ensures RowsSame([], [], t)
  {
  }

  lemma {:induction false} SameFilter(gs: Grants, hs: Grants, t: int, now: int, actorId: string, i: nat)
    requires SameButLazy(gs, hs, t) && t <= now && i <= |gs.keys|
    ensures var p := (g: Authorization) => g.actorId == actorId; RowsSame(gs.FilterFrom(p, i), hs.FilterFrom(p, i), now)
    decreases |gs.keys| - i
  {
    hide RowSame, RowsSame;
    if i < |gs.keys| {
      SameFilter(gs, hs, t, now, actorId, i + 1);
      if gs.keys[i] in gs.rows { SameActive(gs.rows[gs.keys[i]], hs.rows[gs.keys[i]], t, now, actorId, "", ""); }
      var k, p := gs.keys[i], (g: Authorization) => g.actorId == actorId;
      var rest, rest' := gs.FilterFrom(p, i + 1), hs.FilterFrom(p, i + 1);
      if k in gs.rows && p(gs.rows[k]) {
        RowsLonger(gs.rows[k], hs.rows[k], rest, rest', now);
      }
      assert [] + rest == rest && [] + rest' == rest';
    } else {
      NoRows(now);
    }
  }

  lemma SamePut(gs: Grants, hs: Grants, t: int, id: string, g: Authorization, h: Authorization, now: int)
    requires SameButLazy(gs, hs, t) && t <= now && RowSame(g, h, now)
    ensures SameButLazy(gs.Put(id, g), hs.Put(id, h), now)
  {
  }

  lemma SameValidation(gs: Grants, hs: Grants, t: int, id: string, actorId: string, resourceId: string, action: string, now: int)
    requires SameButLazy(gs, hs, t) && t <= now
    ensures Validates(gs, id, actorId, resourceId, action, now) == Validates(hs, id, actorId, resourceId, action, now)
    ensures SameButLazy(AfterValidation(gs, id, actorId, resourceId, action, now), AfterValidation(hs, id, actorId, resourceId, action, now), now)
  {
    if id in gs.rows {
      var g, h := gs.rows[id], hs.rows[id];
      assert RowSame(g, h, t);
      assert g == g.(status := g.status) && h == h.(status := h.status);
    }
  }

  lemma SameRevoke(gs: Grants, hs: Grants, t: int, e: Event, now: int)
    requires SameButLazy(gs, hs, t) && t <= now && e.Revoke?
    ensures Step(gs, e, now).1 == Step(hs, e, now).1
    ensures SameButLazy(Step(gs, e, now).0, Step(hs, e, now).0, now)
  {
    hide SameButLazy;
    SameLater(gs, hs, t, now);
    assert e.grantId in gs.rows <==> e.grantId in hs.rows;
    if e.grantId in gs.rows {
      assert RowSame(gs.rows[e.grantId], hs.rows[e.grantId], t);
      var g, h := gs.rows[e.grantId].(status := Withdrawn), hs.rows[e.grantId].(status := Withdrawn);
      assert g == h;
      SamePut(gs, hs, t, e.grantId, g, h, now);
    }
  }

  lemma SameLater(gs: Grants, hs: Grants, t: int, now: int)
    requires SameButLazy(gs, hs, t) && t <= now
    ensures SameButLazy(gs, hs, now) && gs.rows.Keys == hs.rows.Keys
    ensures forall id :: id in gs.rows ==> RowSame(gs.rows[id], hs.rows[id], t)
  {
  }

  lemma SameStep(gs: Grants, hs: Grants, t: int, e: Event, now: int)
    requires SameButLazy(gs, hs, t) && t <= now
    ensures Alike(Step(gs, e, now).1, Step(hs, e, now).1, now)
    ensures SameButLazy(Step(gs, e, now).0, Step(hs, e, now).0, now)
  {
    hide SameButLazy, RevokeGuard, CreateGuard;
    SameLater(gs, hs, t, now);
    match e
    case Create(id, actor, target, resource, resourceId, action, expiresAt, _) =>
      if CreateGuard(e).None? {
        var g := Step(gs, e, now).1.outcome.grant;
        SamePut(gs, hs, t, id, g, g, now);
      }
    case Revoke(_, _, _) => SameRevoke(gs, hs, t, e, now);
    case Validate(id, actorId, resourceId, action) => SameValidation(gs, hs, t, id, actorId, resourceId, action, now);
    case Find(actorId, resource, resourceId, action) => SameFinds(gs, hs, t, now, actorId, resource, resourceId, action);
    case List(target) => if target.Some? { SameFilter(gs, hs, t, now, target.value.identityId, 0); }
  }

  lemma SameFinds(gs: Grants, hs: Grants, t: int, now: int, actorId: string, resource: Resource, resourceId: string, action: string)
    requires SameButLazy(gs, hs, t) && t <= now
    ensures FindActive(gs, actorId, resource, resourceId, action, now) == FindActive(hs, actorId, resource, resourceId, action, now)
  {
    SameFind(gs, hs, t, now, actorId, resource, resourceId, action, 0);
  }

  predicate Ordered(es: seq<Timed>) {
    forall i, j :: 0 <= i < j < |es| ==> es[i].now <= es[j].now
  }

  predicate AllAlike(rs: seq<Reply>, rs': seq<Reply>, es: seq<Timed>) {
    |rs| == |rs'| == |es| && forall i :: 0 <= i < |es| ==> Alike(rs[i], rs'[i], es[i].now)
  }

  lemma {:induction false} SameRun(gs: Grants, hs: Grants, t: int, es: seq<Timed>)
    requires SameButLazy(gs, hs, t) && NoneBefore(es, t) && Ordered(es)
    ensures AllAlike(Run(gs, es).1, Run(hs, es).1, es)
    decreases |es|
  {
    if es != [] {
      var e := es[0];
      SameStep(gs, hs, t, e.event, e.now);
      SameRun(Step(gs, e.event, e.now).0, Step(hs, e.event, e.now).0, e.now, es[1..]);
      hide Step, SameButLazy;
    }
  }

  /** The write that validation makes in passing is invisible: with and without it, every
      later event, of any kind, gets the same answer, except that a listing may show a grant
      that is past its expiry as expired instead of granted. */
  lemma LazyWriteInvisible(gs: Grants, id: string, actorId: string, resourceId: string, action: string, t: int, es: seq<Timed>)
    requires NoneBefore(es, t) && Ordered(es)
    ensures AllAlike(Run(gs, es).1, Run(AfterValidation(gs, id, actorId, resourceId, action, t), es).1, es)
  {
    SameRun(gs, AfterValidation(gs, id, actorId, resourceId, action, t), t, es);
  }

  // ---------------------------------------------------------- from the events alone

  /** This event grants `who` the use of one resource: an active administrator to an active
      identity, for a transfer of that asset, confirmed. */
  predicate GrantsUse(e: Event, id: string, who: string, resourceId: string, action: string) {
    && e.Create? && MayGrant(e) && e.submitted && e.grantId == id
    && e.target.value.identityId == who && e.resourceId == resourceId && e.action == action
  }

  predicate MayGrant(e: Event)
    requires e.Create?
  {
    && e.actor.Some? && e.target.Some? && e.actor.value.status == Ids.Active && e.actor.value.role == Some(Ids.ADMIN)
    && e.target.value.status == Ids.Active && e.resource == AssetResource && e.action == "TRANSFER_ASSET"
  }

  /** This event takes back what that one granted: by whoever granted it, or by an
      administrator, confirmed. */
  predicate TakesBack(e: Event, granted: Event) {
    && e.Revoke? && granted.Create? && e.grantId == granted.grantId && e.actor.Some? && granted.actor.Some? && e.submitted
    && (e.actor.value.identityId == granted.actor.value.identityId || e.actor.value.role == Some(Ids.ADMIN))
  }

  ghost predicate TakenBack(es: seq<Timed>, k: nat)
    requires k < |es|
  {
    exists j :: k < j < |es| && TakesBack(es[j].event, es[k].event)
  }

  /** Somebody validated the use after its expiry. */
  ghost predicate Noticed(es: seq<Timed>, k: nat, g: Authorization)
    requires k < |es|
  {
    exists j :: k < j < |es| && Notices(es[j], g)
  }

  predicate Notices(e: Timed, g: Authorization) {
    && g.expiresAt.Some? && g.expiresAt.value <= e.now
    && e.event == Validate(g.grantId, g.actorId, g.resourceId, g.action)
  }

  function After(es: seq<Timed>): Grants {
    Run(EmptyTable(), es).0
  }

  /** The stored grant and the event it comes from. */
  ghost predicate ComesFrom(es: seq<Timed>, k: nat, id: string, g: Authorization)
    requires k < |es|
  {
    var e := es[k].event;
    && GrantsUse(e, id, g.actorId, g.resourceId, g.action)
    && g.grantId == id && g.resource == AssetResource && g.grantorId == e.actor.value.identityId && g.expiresAt == e.expiresAt
    && (g.status == Withdrawn <==> TakenBack(es, k))
    && (g.status == Expired <==> !TakenBack(es, k) && Noticed(es, k, g))
  }

  ghost predicate Explained(es: seq<Timed>) {
    var gs := After(es);
    && gs.Valid()
    && (forall id :: id in gs.rows ==> exists k :: 0 <= k < |es| && ComesFrom(es, k, id, gs.rows[id]))
    && (forall k, id, who, res, act :: 0 <= k < |es| && GrantsUse(es[k].event, id, who, res, act) ==>
          (id in gs.rows && ComesFrom(es, k, id, gs.rows[id])))
  }

  lemma {:induction false} RunLast(gs: Grants, es: seq<Timed>)
    requires es != []
    ensures var n := |es| - 1; Run(gs, es).0 == Step(Run(gs, es[..n]).0, es[n].event, es[n].now).0
    ensures FreshGrants(gs, es) ==> FreshGrants(gs, es[..|es| - 1])
    ensures FreshGrants(gs, es) && es[|es| - 1].event.Create? ==> es[|es| - 1].event.grantId !in Run(gs, es[..|es| - 1]).0.rows
    decreases |es|
  {
    hide Step;
    if |es| > 1 {
      RunLast(Step(gs, es[0].event, es[0].now).0, es[1..]);
      assert es[1..][..|es| - 2] == es[..|es| - 1][1..];
    }
  }

  /** One more event, and what it makes of one grant. */
  lemma MovedExplained(es: seq<Timed>, e: Timed, k: nat, id: string, g: Authorization, g': Authorization)
    requires k < |es| && ComesFrom(es, k, id, g) && StatusMoves(g, e.event, e.now, g')
    ensures ComesFrom(es + [e], k, id, g')
  {
    var es' := es + [e];
    assert forall j :: 0 <= j < |es| ==> es'[j] == es[j];
    assert TakenBack(es', k) <==> TakenBack(es, k) || TakesBack(e.event, es[k].event) by {
      if TakesBack(e.event, es[k].event) { assert TakesBack(es'[|es|].event, es'[k].event); }
    }
    assert Noticed(es', k, g') <==> Noticed(es, k, g) || Notices(e, g) by {
      if Notices(e, g) { assert Notices(es'[|es|], g'); }
    }
  }

  /** What one event does to a stored grant: it may take it back, or note its expiry. */
  lemma StepOnRow(gs: Grants, e: Event, now: int, id: string)
    requires gs.Valid() && id in gs.rows && gs.rows[id].grantId == id && (e.Create? ==> e.grantId !in gs.rows)
    ensures var gs' := Step(gs, e, now).0; gs'.Valid() && id in gs'.rows && StatusMoves(gs.rows[id], e, now, gs'.rows[id])
  {
    assert gs.rows[id] == gs.rows[id].(status := gs.rows[id].status);
  }

  predicate StatusMoves(g: Authorization, e: Event, now: int, g': Authorization) {
    && g' == g.(status := g'.status)
    && if e.Revoke? && e.grantId == g.grantId && e.submitted && e.actor.Some?
          && (e.actor.value.identityId == g.grantorId || e.actor.value.role == Some(Ids.ADMIN))
       then g'.status == Withdrawn
       else g'.status == if g.status == Granted && Notices(Timed(e, now), g) then Expired else g.status
  }

  lemma StepAdds(gs: Grants, e: Event, now: int, id: string)
    requires e.Create? ==> e.grantId !in gs.rows
    ensures var gs' := Step(gs, e, now).0;
      && (id in gs'.rows && id !in gs.rows ==> Granting(e, id, gs'.rows[id]))
      && (forall who, res, act :: GrantsUse(e, id, who, res, act) ==> id in gs'.rows && id !in gs.rows)
  {
  }

  predicate Granting(e: Event, id: string, g: Authorization) {
    GrantsUse(e, id, g.actorId, g.resourceId, g.action)
    && g == Authorization(id, g.actorId, AssetResource, g.resourceId, g.action, e.actor.value.identityId, e.expiresAt, Granted)
  }

  lemma AddedExplained(es: seq<Timed>, e: Timed, id: string, g: Authorization)
    requires Granting(e.event, id, g)
    ensures ComesFrom(es + [e], |es|, id, g)
  {
    assert (es + [e])[|es|] == e;
  }

  lemma ExplainedKept(es: seq<Timed>, e: Timed)
    requires Explained(es) && FreshGrants(EmptyTable(), es + [e])
    ensures Explained(es + [e])
  {
    hide Step, ComesFrom, StatusMoves, Granting, GrantsUse, FreshGrants;
    var es', gs := es + [e], After(es);
    RunLast(EmptyTable(), es');
    assert es'[..|es|] == es;
    var gs' := After(es');
    forall id | id in gs'.rows ensures exists k :: 0 <= k < |es'| && ComesFrom(es', k, id, gs'.rows[id]) {
      StepAdds(gs, e.event, e.now, id);
      if id in gs.rows {
        var k :| 0 <= k < |es| && ComesFrom(es, k, id, gs.rows[id]);
        NamedAs(es, k, id, gs.rows[id]);
        StepOnRow(gs, e.event, e.now, id);
        MovedExplained(es, e, k, id, gs.rows[id], gs'.rows[id]);
      } else {
        AddedExplained(es, e, id, gs'.rows[id]);
      }
    }
    forall k, id, who, res, act | 0 <= k < |es'| && GrantsUse(es'[k].event, id, who, res, act)
      ensures id in gs'.rows && ComesFrom(es', k, id, gs'.rows[id])
    {
      StepAdds(gs, e.event, e.now, id);
      if k < |es| {
        assert es'[k] == es[k];
        NamedAs(es, k, id, gs.rows[id]);
        StepOnRow(gs, e.event, e.now, id);
        MovedExplained(es, e, k, id, gs.rows[id], gs'.rows[id]);
      } else {
        AddedExplained(es, e, id, gs'.rows[id]);
      }
    }
    StepValid(gs, e.event, e.now);
  }

  lemma NamedAs(es: seq<Timed>, k: nat, id: string, g: Authorization)
    requires k < |es| && ComesFrom(es, k, id, g)
    ensures g.grantId == id
  {
  }

  lemma StepValid(gs: Grants, e: Event, now: int)
    requires gs.Valid()
    ensures Step(gs, e, now).0.Valid()
  {
  }

  /** After any run from the empty store, every stored grant comes from one event, and every
      event that grants is stored. */
  lemma {:induction false} AllExplained(es: seq<Timed>)
    requires FreshGrants(EmptyTable(), es)
    ensures Explained(es)
    decreases |es|
  {
    if es != [] {
      var n := |es| - 1;
      RunLast(EmptyTable(), es);
      AllExplained(es[..n]);
      assert es[..n] + [es[n]] == es;
      ExplainedKept(es[..n], es[n]);
      hide Explained;
    }
  }

  /** The event at `k` still lets `who` use the resource at `now`. */
  ghost predicate StillGrants(es: seq<Timed>, k: nat, id: string, who: string, resourceId: string, action: string, now: int)
    requires k < |es|
  {
    && GrantsUse(es[k].event, id, who, resourceId, action) && !TakenBack(es, k)
    && (es[k].event.expiresAt.Some? ==> now < es[k].event.expiresAt.value)
  }

  /** validateGrant, from the events alone: it says yes exactly when an administrator's
      confirmed event has granted this very use to this very identity under this id, no
      confirmed event has taken it back since, and it has not expired. */
  lemma ValidExactly(es: seq<Timed>, id: string, who: string, resourceId: string, action: string, now: int)
    requires FreshGrants(EmptyTable(), es) && forall j :: 0 <= j < |es| ==> es[j].now <= now
    ensures Step(After(es), Validate(id, who, resourceId, action), now).1 == Verdict(true)
            <==> exists k :: 0 <= k < |es| && StillGrants(es, k, id, who, resourceId, action, now)
  {
    hide After, FreshGrants, ComesFrom, StillGrants;
    AllExplained(es);
    var gs := After(es);
    if Validates(gs, id, who, resourceId, action, now) {
      var k :| 0 <= k < |es| && ComesFrom(es, k, id, gs.rows[id]);
      ActiveFrom(es, k, id, gs.rows[id], who, resourceId, action, now);
    }
    forall k | 0 <= k < |es| && StillGrants(es, k, id, who, resourceId, action, now)
      ensures Validates(gs, id, who, resourceId, action, now)
    {
      GrantsUseOf(es, k, id, who, resourceId, action, now);
      ActiveFrom(es, k, id, gs.rows[id], who, resourceId, action, now);
    }
  }

  lemma GrantsUseOf(es: seq<Timed>, k: nat, id: string, who: string, resourceId: string, action: string, now: int)
    requires Explained(es) && k < |es| && StillGrants(es, k, id, who, resourceId, action, now)
    ensures id in After(es).rows && ComesFrom(es, k, id, After(es).rows[id])
  {
    hide After, ComesFrom;
    assert GrantsUse(es[k].event, id, who, resourceId, action);
  }

  lemma ActiveFrom(es: seq<Timed>, k: nat, id: string, g: Authorization, who: string, resourceId: string, action: string, now: int)
    requires k < |es| && ComesFrom(es, k, id, g) && forall j :: 0 <= j < |es| ==> es[j].now <= now
    ensures IsActive(g, who, resourceId, action, now) <==> StillGrants(es, k, id, who, resourceId, action, now)
  {
    hide TakenBack;
  }

  /** And so for findActiveGrant: it finds a grant exactly when the resource is an asset and
      some event still grants the use. */
  lemma FoundExactly(es: seq<Timed>, who: string, resource: Resource, resourceId: string, action: string, now: int)
    requires FreshGrants(EmptyTable(), es) && forall j :: 0 <= j < |es| ==> es[j].now <= now
    ensures FindActive(After(es), who, resource, resourceId, action, now).Some?
            <==> resource == AssetResource && exists k, id :: 0 <= k < |es| && StillGrants(es, k, id, who, resourceId, action, now)
  {
    hide After, FreshGrants, FindActive, StillGrants, Validates, Explained;
    AllExplained(es);
    StoreValid(es);
    var gs := After(es);
    FindExact(gs, who, resource, resourceId, action, now);
    forall id | Validates(gs, id, who, resourceId, action, now)
      ensures id in gs.rows && gs.rows[id].resource == AssetResource
      ensures exists k :: 0 <= k < |es| && StillGrants(es, k, id, who, resourceId, action, now)
    {
      ForAssets(es, id, who, resourceId, action, now);
    }
    forall k, id | 0 <= k < |es| && StillGrants(es, k, id, who, resourceId, action, now)
      ensures Validates(gs, id, who, resourceId, action, now)
    {
      ForAssets(es, id, who, resourceId, action, now);
    }
  }

  lemma StoreValid(es: seq<Timed>)
    requires Explained(es)
    ensures After(es).Valid()
  {
  }

  lemma ForAssets(es: seq<Timed>, id: string, who: string, resourceId: string, action: string, now: int)
    requires FreshGrants(EmptyTable(), es) && Explained(es) && forall j :: 0 <= j < |es| ==> es[j].now <= now
    ensures Validates(After(es), id, who, resourceId, action, now)
            <==> exists k :: 0 <= k < |es| && StillGrants(es, k, id, who, resourceId, action, now)
    ensures Validates(After(es), id, who, resourceId, action, now) ==> id in After(es).rows && After(es).rows[id].resource == AssetResource
  {
    hide After, FreshGrants, StillGrants, IsActive;
    ValidExactly(es, id, who, resourceId, action, now);
    hide ComesFrom;
    if id in After(es).rows {
      var k :| 0 <= k < |es| && ComesFrom(es, k, id, After(es).rows[id]);
      FromAsset(es, k, id, After(es).rows[id]);
    }
  }

  lemma FromAsset(es: seq<Timed>, k: nat, id: string, g: Authorization)
    requires k < |es| && ComesFrom(es, k, id, g)
    ensures g.resource == AssetResource
  {
  }

  /** createGrant succeeds exactly when its event grants, and answers with what it grants. */
  lemma CreatedExactly(gs: Grants, e: Event, now: int)
    requires e.Create?
    ensures CreationAnswer(e, Step(gs, e, now).1)
  {
  }

  predicate CreationAnswer(e: Event, r: Reply)
    requires e.Create?
  {
    r.Done? &&
    match r.outcome
    case Ok(g) => Granting(e, e.grantId, g)
    case Err(why) =>
      !(MayGrant(e) && e.submitted)
      && why == if e.actor.None? || e.target.None? then NoIdentity else if !MayGrant(e) then NotAllowed else NotSubmitted
  }

  predicate Undoes(e: Event, granted: Event) {
    granted.Create? && GrantsUse(granted, granted.grantId, Target(granted), granted.resourceId, granted.action) && TakesBack(e, granted)
  }

  function Target(e: Event): string
    requires e.Create?
  {
    if e.target.Some? then e.target.value.identityId else ""
  }

  /** revokeGrant succeeds exactly when its event takes back what some event granted, and
      otherwise says what is missing. */
  lemma RevokedExactly(es: seq<Timed>, e: Event, now: int)
    requires FreshGrants(EmptyTable(), es) && e.Revoke?
    ensures var r := Step(After(es), e, now).1.outcome;
      && (r.Ok? <==> exists k :: 0 <= k < |es| && Undoes(e, es[k].event))
      && (r == Err(NoIdentity) <==> e.actor.None?)
      && (r == Err(NotSubmitted) <==> !e.submitted && exists k :: 0 <= k < |es| && Undoes(Revoke(e.grantId, e.actor, true), es[k].event))
      && (r == Err(NoGrant) <==> e.actor.Some? && e.grantId !in After(es).rows)
  {
    hide After, FreshGrants, ComesFrom, GrantsUse;
    AllExplained(es);
    var gs, id := After(es), e.grantId;
    if id in gs.rows {
      var k :| 0 <= k < |es| && ComesFrom(es, k, id, gs.rows[id]);
      UndoneBy(es, k, e, gs.rows[id]);
      UndoneBy(es, k, Revoke(e.grantId, e.actor, true), gs.rows[id]);
    }
    forall k | 0 <= k < |es| && Undoes(Revoke(e.grantId, e.actor, true), es[k].event)
      ensures id in gs.rows && !(Step(gs, e, now).1.outcome.Err? && Step(gs, e, now).1.outcome.why in {NoIdentity, NoGrant, NotAllowed})
    {
      var c := es[k].event;
      assert GrantsUse(c, id, Target(c), c.resourceId, c.action);
      UndoneBy(es, k, Revoke(e.grantId, e.actor, true), gs.rows[id]);
    }
    assert e.submitted ==> Revoke(id, e.actor, true) == e;
  }

  lemma UndoneBy(es: seq<Timed>, k: nat, e: Event, g: Authorization)
    requires k < |es| && e.Revoke? && ComesFrom(es, k, e.grantId, g)
    ensures Undoes(e, es[k].event) <==>
      e.submitted && e.actor.Some? && (e.actor.value.identityId == g.grantorId || e.actor.value.role == Some(Ids.ADMIN))
  {
  }

  /** listGrants shows exactly the grants to that identity, and refuses an unknown one. */
  lemma ListedExactly(es: seq<Timed>, who: Ids.Identity, now: int, g: Authorization)
    requires FreshGrants(EmptyTable(), es)
    ensures Step(After(es), List(None), now).1 == Done(Err(NoIdentity))
    ensures var r := Step(After(es), List(Some(who)), now).1;
            r.Listed? && (g in r.grants <==> g.grantId in After(es).rows && After(es).rows[g.grantId] == g && g.actorId == who.identityId)
  {
    hide After, FreshGrants;
    AllExplained(es);
    hide ComesFrom;
    var gs := After(es);
    forall id | id in gs.rows ensures gs.rows[id].grantId == id {
      var k :| 0 <= k < |es| && ComesFrom(es, k, id, gs.rows[id]);
      NamedAs(es, k, id, gs.rows[id]);
    }
  }

  // -------------------------------------------------------------------- the service

  class Service {
    var grants: Grants

    constructor ()
      ensures grants == EmptyTable<Authorization>()
    {
      grants := EmptyTable();
    }

    method CreateGrant(grantId: string, actor: Option<Ids.Identity>, target: Option<Ids.Identity>, resource: Resource, resourceId: string,
                       action: string, expiresAt: Option<int>, submitted: bool, now: int) returns (r: Outcome)
      modifies this
      ensures (grants, Done(r)) ==
              Step(old(grants), Create(grantId, actor, target, resource, resourceId, action, expiresAt, submitted), now)
    {
      if actor.None? || target.None? {
        return Err(NoIdentity);
      }
      if actor.value.status != Ids.Active || target.value.status != Ids.Active {
        return Err(NotAllowed);
      }
      if actor.value.role != Some(Ids.ADMIN) {
        return Err(NotAllowed);
      }
      if resource != AssetResource || action != TRANSFER_ASSET {
        return Err(NotAllowed);
      }
      var grant := Authorization(grantId, target.value.identityId, resource, resourceId, action, actor.value.identityId, expiresAt, Granted);
      if !submitted {
        return Err(NotSubmitted);
      }
      grants := grants.Put(grantId, grant);
      r := Ok(grant);
    }

    method RevokeGrant(actor: Option<Ids.Identity>, grantId: string, submitted: bool, now: int) returns (r: Outcome)
      modifies this
      ensures (grants, Done(r)) == Step(old(grants), Revoke(grantId, actor, submitted), now)
    {
      if actor.None? {
        return Err(NoIdentity);
      }
      var found := grants.Get(grantId);
      if found.None? {
        return Err(NoGrant);
      }
      var grant := found.value;
      if grant.grantorId != actor.value.identityId && actor.value.role != Some(Ids.ADMIN) {
        return Err(NotAllowed);
      }
      if !submitted {
        return Err(NotSubmitted);
      }
      grant := grant.(status := Withdrawn);
      grants := grants.Put(grantId, grant);
      r := Ok(grant);
    }

    method ValidateGrant(grantId: string, actorId: string, resourceId: string, action: string, now: int) returns (valid: bool)
      modifies this
      ensures (grants, Verdict(valid)) == Step(old(grants), Validate(grantId, actorId, resourceId, action), now)
    {
      var found := grants.Get(grantId);
      if found.None? || !MatchesUse(found.value, actorId, resourceId, action) || found.value.status != Granted {
        return false;
      }
      if PastExpiry(found.value, now) {
        grants := grants.Put(grantId, found.value.(status := Expired));
        return false;
      }
      return true;
    }

    method ListGrants(target: Option<Ids.Identity>, now: int) returns (r: Reply)
      ensures (grants, r) == Step(grants, List(target), now)
      ensures r.Listed? ==> forall g :: g in r.grants ==> g.actorId == target.value.identityId
    {
      if target.None? {
        return Done(Err(NoIdentity));
      }
      r := Listed(GrantsOf(grants, target.value.identityId));
    }

    /** The first of the actor's grants, in the order they were stored, that is active for
        this use; the loop takes the filter by actor and the search in one pass. */
    method FindActiveGrant(actorId: string, resource: Resource, resourceId: string, action: string, now: int) returns (r: Option<Authorization>)
      ensures r == FindActive(grants, actorId, resource, resourceId, action, now)
    {
      var p := (g: Authorization) => g.actorId == actorId && g.resource == resource && IsActive(g, actorId, resourceId, action, now);
      for i := 0 to |grants.keys|
        invariant grants.FindFrom(p, 0) == grants.FindFrom(p, i)
      {
        var id := grants.keys[i];
        if id in grants.rows && grants.rows[id].actorId == actorId && grants.rows[id].resource == resource
           && grants.rows[id].resourceId == resourceId && IsActive(grants.rows[id], actorId, resourceId, action, now) {
          return Some(grants.rows[id]);
        }
      }
      return None;
    }
  }
}
