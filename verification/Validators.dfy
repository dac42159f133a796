/** The validator registry: a lifecycle driven by chain height whose stored status is read
    through a lazy, height-dependent view, and the audit history beside it. */
module Validators {
  import opened Prelude

  datatype Status = Pending | Active | RemovalScheduled | Removed

  datatype Registration = Registration(
    registrationId: string, validatorId: string, identityId: string, nodeAddress: string, publicKey: string,
    signingPublicKey: string, status: Status, activationHeight: int, removalHeight: Option<int>, removalReason: Option<string>)

  datatype Operation = Add | Remove | Restore | CancelRemoval

  /** A history record; `ok` tells SUCCESS from FAILED. */
  datatype Record = Record(
    validatorId: string, operation: Operation, actorId: string, previous: Option<Status>, next: Status,
    reason: Option<string>, ok: bool)

  datatype Registry = Registry(rows: Table<Registration>, history: seq<Record>)

  // ------------------------------------------------------------- the effective view

  function Effective(v: Registration, head: int): Registration {
    if v.status == Pending && v.activationHeight <= head then v.(status := Active)
    else if v.status == RemovalScheduled && v.removalHeight.Some? && v.removalHeight.value <= head then v.(status := Removed)
    else v
  }

  /** The view is consistent in time: looking at a view later is looking later. */
  lemma EffectiveConsistent(v: Registration, h1: int, h2: int)
    requires h1 <= h2
    ensures Effective(Effective(v, h1), h2) == Effective(v, h2)
  {
    assert Effective(v, h2) == v.(status := Effective(v, h2).status);
  }

  /** The statuses time alone leads to. */
  predicate Ages(s: Status, s': Status) {
    s == s' || (s == Pending && s' == Active) || (s == RemovalScheduled && s' == Removed)
  }

  // ------------------------------------------------------------------- operations

  datatype NewValidator = NewValidator(
    validatorId: Arg, nodeAddress: Arg, publicKey: Arg, signingPublicKey: Arg,
    activationHeight: Option<int>, // None when it is no safe integer
    carriesSecrets: bool)          // some key of the input is named like private material

  datatype Call =
    | AddValidator(input: NewValidator, freshId: string)
    | RemoveValidator(id: string, removalHeight: Option<int>, reason: string)
    | RestoreValidator(id: string, reason: string)
    | CancelScheduledRemoval(id: string, reason: string)

  datatype Fault = NotAdmin | Invalid | Conflict | NotFound | NotConfirmed

  datatype Outcome = Ok(registration: Registration) | Err(fault: Fault)

  /** Past the guards: the registration as the operation reads it, as it would store it,
      and the record of a success. */
  datatype Guarded = Stop(fault: Fault) | Pass(before: Registration, after: Registration, record: Record)

  type AddressTest = string -> bool

  function ByValidatorId(rows: Table<Registration>, id: string): Option<Registration> {
    rows.Find((v: Registration) => v.validatorId == id)
  }

  /** get: by registration id, then by validator id, as seen at `head`. */
  function Look(reg: Registry, id: string, head: int): Option<Registration> {
    var v := if id in reg.rows.rows then Some(reg.rows.rows[id]) else ByValidatorId(reg.rows, id);
    if v.Some? then Some(Effective(v.value, head)) else None
  }

  predicate MetadataOk(isAddress: AddressTest, input: NewValidator) {
    && Required(input.validatorId).Some? && Required(input.nodeAddress).Some?
    && Required(input.publicKey).Some? && Required(input.signingPublicKey).Some?
    && isAddress(Required(input.validatorId).value) && !input.carriesSecrets
  }

  function GuardAdd(reg: Registry, isAddress: AddressTest, actorId: string, input: NewValidator, freshId: string, head: int): Guarded {
    if !MetadataOk(isAddress, input) then Stop(Invalid)
    else
      var id := Required(input.validatorId).value;
      var existing := ByValidatorId(reg.rows, id);
      if existing.Some? && existing.value.status != Removed then Stop(Conflict)
      else if input.activationHeight.None? || input.activationHeight.value <= head then Stop(Invalid)
      else
        var v := Registration(if existing.Some? then existing.value.registrationId else freshId, id, actorId,
                              Required(input.nodeAddress).value, Required(input.publicKey).value,
                              Required(input.signingPublicKey).value, Pending, input.activationHeight.value, None, None);
        Pass(v, v, Record(id, Add, actorId, None, Pending, None, true))
  }

  /** The two head reads of a removal, the one behind the view and the one of the check. */
  function GuardRemove(reg: Registry, actorId: string, id: string, removalHeight: Option<int>, reason: string, h1: int, h2: int): Guarded {
    if removalHeight.None? || removalHeight.value < 1 || Blank(reason) then Stop(Invalid)
    else
      var v := Look(reg, id, h1);
      if v.None? then Stop(NotFound)
      else if v.value.status != Pending && v.value.status != Active then Stop(Conflict)
      else if removalHeight.value <= h2 || removalHeight.value <= v.value.activationHeight then Stop(Invalid)
      else Pass(v.value, v.value.(status := RemovalScheduled, removalHeight := removalHeight, removalReason := Some(Trim(reason))),
                Record(v.value.validatorId, Remove, actorId, Some(v.value.status), RemovalScheduled, Some(Trim(reason)), true))
  }

  function Reinstated(v: Registration): Registration {
    v.(status := Active, removalHeight := None, removalReason := None)
  }

  function GuardRestore(reg: Registry, actorId: string, id: string, reason: string, h1: int, h2: int): Guarded {
    if Blank(reason) then Stop(Invalid)
    else
      var v := Look(reg, id, h1);
      if v.None? then Stop(NotFound)
      else
        var r := v.value.removalHeight;
        var status := if v.value.status == RemovalScheduled && r.Some? && r.value <= h2 then Removed else v.value.status;
        if status != Removed || r.None? || r.value == 0 || r.value > h2 then Stop(Conflict)
        else Pass(v.value, Reinstated(v.value),
                  Record(v.value.validatorId, Restore, actorId, Some(Removed), Active, Some(Trim(reason)), true))
  }

  function GuardCancel(reg: Registry, actorId: string, id: string, reason: string, h1: int): Guarded {
    if Blank(reason) then Stop(Invalid)
    else
      var v := Look(reg, id, h1);
      if v.None? then Stop(NotFound)
      else if v.value.status != RemovalScheduled then Stop(Conflict)
      else Pass(v.value, Reinstated(v.value),
                Record(v.value.validatorId, CancelRemoval, actorId, Some(RemovalScheduled), Active, Some(Trim(reason)), true))
  }

  function Guard(reg: Registry, isAddress: AddressTest, admin: bool, actorId: string, c: Call, h1: int, h2: int): Guarded {
    if !admin then Stop(NotAdmin)
    else match c
      case AddValidator(input, freshId) => GuardAdd(reg, isAddress, actorId, input, freshId, h1)
      case RemoveValidator(id, height, reason) => GuardRemove(reg, actorId, id, height, reason, h1, h2)
      case RestoreValidator(id, reason) => GuardRestore(reg, actorId, id, reason, h1, h2)
      case CancelScheduledRemoval(id, reason) => GuardCancel(reg, actorId, id, reason, h1)
  }

  /** A submission the chain does not confirm leaves only a FAILED record, from the status
      the operation saw to the same status. */
  function FailedRecord(g: Guarded): Record
    requires g.Pass?
  {
    g.record.(previous := Some(g.before.status), next := g.before.status, ok := false)
  }

  function Conclude(reg: Registry, g: Guarded, confirmed: bool): (Registry, Outcome) {
    match g
    case Stop(f) => (reg, Err(f))
    case Pass(before, after, record) =>
      if confirmed then (Registry(reg.rows.Put(after.registrationId, after), reg.history + [record]), Ok(after))
      else (reg.(history := reg.history + [FailedRecord(g)]), Err(NotConfirmed))
  }

  datatype Request = Request(admin: bool, actorId: string, call: Call, h1: int, h2: int, confirmed: bool)

  function Perform(reg: Registry, isAddress: AddressTest, q: Request): (Registry, Outcome) {
    Conclude(reg, Guard(reg, isAddress, q.admin, q.actorId, q.call, q.h1, q.h2), q.confirmed)
  }

  // -------------------------------------------------------------------- invariants

  /** A stored registration is never REMOVED, is scheduled for removal exactly when a
      removal height is set, and that height lies beyond its activation. */
  predicate StoredSound(v: Registration) {
    && v.status != Removed
    && (v.status == RemovalScheduled <==> v.removalHeight.Some?)
    && (v.removalHeight.Some? ==> v.removalHeight.value > v.activationHeight && v.removalHeight.value >= 1)
  }

  /** The successful records about one validator, in order. */
  function Path(history: seq<Record>, id: string): seq<Record>
    decreases |history|
  {
    if history == [] then []
    else
      var last := history[|history| - 1];
      Path(history[..|history| - 1], id) + if last.ok && last.validatorId == id then [last] else []
  }

  /** One record follows another: it starts where time may have taken the other. */
  predicate Follows(r: Record, s: Record) {
    && s.previous.Some? && Ages(r.next, s.previous.value)
    && match s.operation
       case Add => false
       case Remove => s.previous.value in {Pending, Active} && s.next == RemovalScheduled
       case Restore => s.previous.value == Removed && s.next == Active
       case CancelRemoval => s.previous.value == RemovalScheduled && s.next == Active
  }

  predicate Linked(p: seq<Record>) {
    && (p != [] ==> p[0].operation == Add && p[0].previous == None && p[0].next == Pending)
    && forall i :: 0 <= i < |p| - 1 ==> Follows(p[i], p[i + 1])
  }

  ghost predicate RowsSound(rows: Table<Registration>) {
    && rows.Valid()
    && (forall k :: k in rows.rows ==> StoredSound(rows.rows[k]) && rows.rows[k].registrationId == k)
    && (forall k, l :: k in rows.rows && l in rows.rows && rows.rows[k].validatorId == rows.rows[l].validatorId ==> k == l)
  }

  ghost predicate AllLinked(history: seq<Record>) {
    forall id :: Linked(Path(history, id))
  }

  ghost predicate EndsAtStored(reg: Registry) {
    forall k :: k in reg.rows.rows ==>
      var p := Path(reg.history, reg.rows.rows[k].validatorId);
      p != [] && p[|p| - 1].next == reg.rows.rows[k].status
  }

  ghost predicate OnlyRegistered(reg: Registry) {
    forall id :: Path(reg.history, id) != [] ==> exists k :: k in reg.rows.rows && reg.rows.rows[k].validatorId == id
  }

  /** The history of each validator is a linked path that starts with its one addition and
      ends at its stored status; without a registration there is none. */
  ghost predicate HistorySound(reg: Registry) {
    AllLinked(reg.history) && EndsAtStored(reg) && OnlyRegistered(reg)
  }

  ghost predicate Sound(reg: Registry) {
    RowsSound(reg.rows) && HistorySound(reg)
  }

  /** What a passing guard hands over, in terms of the stored row it read. */
  lemma GuardReads(reg: Registry, isAddress: AddressTest, q: Request)
    requires RowsSound(reg.rows) && q.h1 <= q.h2
    requires q.call.AddValidator? ==> q.call.freshId !in reg.rows.rows
    ensures var g := Guard(reg, isAddress, q.admin, q.actorId, q.call, q.h1, q.h2);
            g.Pass? ==>
              && StoredSound(g.after) && g.record.ok && g.record.next == g.after.status
              && g.record.validatorId == g.after.validatorId == g.before.validatorId
              && if q.call.AddValidator? then
                   && (forall k :: k in reg.rows.rows ==> reg.rows.rows[k].validatorId != g.after.validatorId)
                   && g.after.registrationId == q.call.freshId && g.record.operation == Add
                   && g.record.previous == None && g.after.status == Pending && g.after.activationHeight > q.h1
                 else
                   && g.after.registrationId in reg.rows.rows
                   && var v := reg.rows.rows[g.after.registrationId];
                   && g.before == Effective(v, q.h1) && g.after.validatorId == v.validatorId
                   && Follows(g.record.(next := v.status), g.record)
  {
    hide TrimStart, TrimEnd;
    var g := Guard(reg, isAddress, q.admin, q.actorId, q.call, q.h1, q.h2);
    if g.Pass? && !q.call.AddValidator? {
      LookReads(reg, q.call.id, q.h1);
    }
  }

  lemma LookReads(reg: Registry, id: string, head: int)
    requires RowsSound(reg.rows)
    ensures Look(reg, id, head).Some? ==>
              && Look(reg, id, head).value.registrationId in reg.rows.rows
              && Look(reg, id, head).value == Effective(reg.rows.rows[Look(reg, id, head).value.registrationId], head)
  {
  }

  lemma PathGrows(history: seq<Record>, r: Record, id: string)
    ensures Path(history + [r], id) == Path(history, id) + if r.ok && r.validatorId == id then [r] else []
  {
    assert (history + [r])[..|history|] == history;
  }

  lemma LinkedGrows(p: seq<Record>, r: Record)
    requires Linked(p)
    requires if p == [] then r.operation == Add && r.previous == None && r.next == Pending else Follows(p[|p| - 1], r)
    ensures Linked(p + [r])
  {
    var p' := p + [r];
    forall i | 0 <= i < |p'| - 1 ensures Follows(p'[i], p'[i + 1]) {
      if i < |p| - 1 { assert Follows(p[i], p[i + 1]); }
    }
  }

  /** An unconfirmed or refused call changes no registration; the unconfirmed one adds one
      FAILED record, from a status to itself. A confirmed call stores the one registration
      it returns and adds one record of it. */
  lemma OnlyConfirmedStores(reg: Registry, isAddress: AddressTest, q: Request)
    requires RowsSound(reg.rows) && q.h1 <= q.h2
    requires q.call.AddValidator? ==> q.call.freshId !in reg.rows.rows
    ensures var (reg', r) := Perform(reg, isAddress, q);
            && (r.Err? ==> reg'.rows == reg.rows)
            && (r.Err? && r.fault != NotConfirmed ==> reg' == reg)
            && (r.Err? && r.fault == NotConfirmed ==>
                  exists f :: reg'.history == reg.history + [f] && !f.ok && f.previous == Some(f.next))
            && (r.Ok? ==> exists s :: reg'.history == reg.history + [s] && s.ok && s.next == r.registration.status
                                      && s.validatorId == r.registration.validatorId
                                      && reg'.rows == reg.rows.Put(r.registration.registrationId, r.registration))
  {
    GuardReads(reg, isAddress, q);
    var g := Guard(reg, isAddress, q.admin, q.actorId, q.call, q.h1, q.h2);
    hide Guard;
    var (reg', r) := Perform(reg, isAddress, q);
    if g.Pass? {
      assert r.Err? ==> reg'.history == reg.history + [FailedRecord(g)];
      assert r.Ok? ==> reg'.history == reg.history + [g.record];
    } else {
      NeverNotConfirmed(reg, isAddress, q);
    }
  }

  lemma NeverNotConfirmed(reg: Registry, isAddress: AddressTest, q: Request)
    ensures var g := Guard(reg, isAddress, q.admin, q.actorId, q.call, q.h1, q.h2); g.Stop? ==> g.fault != NotConfirmed
  {
    hide Trim;
  }

  lemma RowsKept(reg: Registry, isAddress: AddressTest, q: Request)
    requires RowsSound(reg.rows) && q.h1 <= q.h2
    requires q.call.AddValidator? ==> q.call.freshId !in reg.rows.rows
    ensures RowsSound(Perform(reg, isAddress, q).0.rows)
  {
    GuardReads(reg, isAddress, q);
    hide Guard, Follows, Effective, StoredSound, RowsSound;
    var g := Guard(reg, isAddress, q.admin, q.actorId, q.call, q.h1, q.h2);
    if g.Pass? { RowPut(reg.rows, g.after, q.call.AddValidator?); }
  }

  lemma RowPut(rows: Table<Registration>, v: Registration, added: bool)
    requires RowsSound(rows) && StoredSound(v)
    requires if added then forall k :: k in rows.rows ==> rows.rows[k].validatorId != v.validatorId
             else v.registrationId in rows.rows && rows.rows[v.registrationId].validatorId == v.validatorId
    ensures RowsSound(rows.Put(v.registrationId, v))
  {
    hide StoredSound;
  }

  lemma HistoryKept(reg: Registry, isAddress: AddressTest, q: Request)
    requires Sound(reg) && q.h1 <= q.h2
    requires q.call.AddValidator? ==> q.call.freshId !in reg.rows.rows
    ensures HistorySound(Perform(reg, isAddress, q).0)
  {
    hide Perform, Sound, AllLinked, EndsAtStored;
    LinksKept(reg, isAddress, q);
    EndsKept(reg, isAddress, q);
    forall id | Path(Perform(reg, isAddress, q).0.history, id) != []
      ensures exists k :: k in Perform(reg, isAddress, q).0.rows.rows && Perform(reg, isAddress, q).0.rows.rows[k].validatorId == id
    {
      StillRegistered(reg, isAddress, q, id);
    }
  }

  lemma LinksKept(reg: Registry, isAddress: AddressTest, q: Request)
    requires Sound(reg) && q.h1 <= q.h2
    requires q.call.AddValidator? ==> q.call.freshId !in reg.rows.rows
    ensures AllLinked(Perform(reg, isAddress, q).0.history)
  {
    GuardReads(reg, isAddress, q);
    var g := Guard(reg, isAddress, q.admin, q.actorId, q.call, q.h1, q.h2);
    var reg' := Perform(reg, isAddress, q).0;
    if g.Pass? {
      PathEnds(reg, isAddress, q);
      hide Guard, Linked, Follows, Path, RowsSound, EndsAtStored, OnlyRegistered;
      var r := if q.confirmed then g.record else FailedRecord(g);
      if q.confirmed { LinkedGrows(Path(reg.history, g.after.validatorId), r); }
      forall id ensures Linked(Path(reg'.history, id)) {
        PathGrows(reg.history, r, id);
        assert Path(reg.history, id) + [] == Path(reg.history, id);
      }
    }
  }

  lemma EndsKept(reg: Registry, isAddress: AddressTest, q: Request)
    requires Sound(reg) && q.h1 <= q.h2
    requires q.call.AddValidator? ==> q.call.freshId !in reg.rows.rows
    ensures EndsAtStored(Perform(reg, isAddress, q).0)
  {
    GuardReads(reg, isAddress, q);
    var g := Guard(reg, isAddress, q.admin, q.actorId, q.call, q.h1, q.h2);
    var reg' := Perform(reg, isAddress, q).0;
    hide Guard, Linked, Follows, Path, OnlyRegistered, AllLinked;
    if g.Pass? {
      var r := if q.confirmed then g.record else FailedRecord(g);
      assert reg'.history == reg.history + [r];
      assert reg'.rows == if q.confirmed then reg.rows.Put(g.after.registrationId, g.after) else reg.rows;
      RowsEnd(reg, g.after, r, q.confirmed, reg');
    }
  }

  lemma RowsEnd(reg: Registry, v: Registration, r: Record, confirmed: bool, reg': Registry)
    requires EndsAtStored(reg) && reg'.history == reg.history + [r] && r.ok == confirmed && r.validatorId == v.validatorId
    requires reg'.rows == if confirmed then reg.rows.Put(v.registrationId, v) else reg.rows
    requires confirmed ==> r.next == v.status
    requires forall k :: k in reg.rows.rows && reg.rows.rows[k].validatorId == v.validatorId ==> k == v.registrationId
    ensures EndsAtStored(reg')
  {
    hide Path;
    forall k | k in reg'.rows.rows
      ensures var p := Path(reg'.history, reg'.rows.rows[k].validatorId); p != [] && p[|p| - 1].next == reg'.rows.rows[k].status
    {
      PathGrows(reg.history, r, reg'.rows.rows[k].validatorId);
    }
  }

  /** The path a confirmed call extends. */
  lemma PathEnds(reg: Registry, isAddress: AddressTest, q: Request)
    requires Sound(reg) && q.h1 <= q.h2 && Guard(reg, isAddress, q.admin, q.actorId, q.call, q.h1, q.h2).Pass?
    requires q.call.AddValidator? ==> q.call.freshId !in reg.rows.rows
    ensures var g := Guard(reg, isAddress, q.admin, q.actorId, q.call, q.h1, q.h2);
            var p := Path(reg.history, g.after.validatorId);
            && Linked(p)
            && if p == [] then g.record.operation == Add && g.record.previous == None && g.record.next == Pending
               else Follows(p[|p| - 1], g.record)
  {
    GuardReads(reg, isAddress, q);
    hide Guard, Linked, Path;
  }

  lemma StillRegistered(reg: Registry, isAddress: AddressTest, q: Request, id: string)
    requires Sound(reg) && q.h1 <= q.h2
    requires q.call.AddValidator? ==> q.call.freshId !in reg.rows.rows
    requires Path(Perform(reg, isAddress, q).0.history, id) != []
    ensures var reg' := Perform(reg, isAddress, q).0; exists k :: k in reg'.rows.rows && reg'.rows.rows[k].validatorId == id
  {
    GuardReads(reg, isAddress, q);
    var g := Guard(reg, isAddress, q.admin, q.actorId, q.call, q.h1, q.h2);
    var reg' := Perform(reg, isAddress, q).0;
    hide Guard, Linked, Follows, Path;
    if g.Pass? {
      PathGrows(reg.history, if q.confirmed then g.record else FailedRecord(g), id);
      if q.confirmed && id == g.after.validatorId {
        assert reg'.rows.rows[g.after.registrationId].validatorId == id;
      } else {
        assert Path(reg.history, id) != [];
        var k :| k in reg.rows.rows && reg.rows.rows[k].validatorId == id;
        assert k in reg'.rows.rows && reg'.rows.rows[k].validatorId == id;
      }
    }
  }

  // ------------------------------------------------------------------------- runs

  function PerformAll(reg: Registry, isAddress: AddressTest, qs: seq<Request>): Registry
    decreases |qs|
  {
    if qs == [] then reg else Perform(PerformAll(reg, isAddress, qs[..|qs| - 1]), isAddress, qs[|qs| - 1]).0
  }

  const EMPTY := Registry(EmptyTable<Registration>(), [])

  /** Heads never go down within a call, and generated registration ids are fresh. */
  ghost predicate Plausible(isAddress: AddressTest, qs: seq<Request>) {
    forall i :: 0 <= i < |qs| ==>
      && qs[i].h1 <= qs[i].h2
      && (qs[i].call.AddValidator? ==> qs[i].call.freshId !in PerformAll(EMPTY, isAddress, qs[..i]).rows.rows)
  }

  /** Over every run: no stored status is REMOVED, a removal is scheduled exactly when its
      height is set and then lies beyond the activation, and every validator's successful
      history is a linked path from its addition to its stored status. */
  lemma {:induction false} RunSound(isAddress: AddressTest, qs: seq<Request>)
    requires Plausible(isAddress, qs)
    ensures Sound(PerformAll(EMPTY, isAddress, qs))
    decreases |qs|
  {
    if qs != [] {
      var n := |qs| - 1;
      var before := PerformAll(EMPTY, isAddress, qs[..n]);
      forall i | 0 <= i < n ensures qs[..n][..i] == qs[..i] {}
      assert qs[n].h1 <= qs[n].h2 && (qs[n].call.AddValidator? ==> qs[n].call.freshId !in before.rows.rows);
      RunSound(isAddress, qs[..n]);
      hide Perform;
      RowsKept(before, isAddress, qs[n]);
      HistoryKept(before, isAddress, qs[n]);
    }
  }

  lemma {:induction false} PathHolds(history: seq<Record>, i: nat, id: string) returns (j: nat)
    requires i < |history| && history[i].ok && history[i].validatorId == id
    ensures j < |Path(history, id)| && Path(history, id)[j] == history[i] && |Path(history[..i], id)| == j
    decreases |history|
  {
    if i == |history| - 1 {
      j := |Path(history[..i], id)|;
    } else {
      j := PathHolds(history[..|history| - 1], i, id);
      assert history[..|history| - 1][..i] == history[..i];
    }
  }

  lemma {:induction false} PathMonotone(history: seq<Record>, i: nat, j: nat, id: string)
    requires i <= j <= |history|
    ensures |Path(history[..i], id)| <= |Path(history[..j], id)|
    decreases j
  {
    if i < j {
      PathMonotone(history, i, j - 1, id);
      assert history[..j][..j - 1] == history[..j - 1];
    }
  }

  /** So a validator is added at most once, whatever becomes of it later: the branch that
      would let a removed one be added again is never taken. */
  lemma AddedOnce(isAddress: AddressTest, qs: seq<Request>, a: nat, b: nat)
    requires Plausible(isAddress, qs)
    requires var h := PerformAll(EMPTY, isAddress, qs).history;
             a < b < |h| && h[a].ok && h[b].ok && h[a].validatorId == h[b].validatorId
    ensures PerformAll(EMPTY, isAddress, qs).history[b].operation != Add
  {
    RunSound(isAddress, qs);
    var h := PerformAll(EMPTY, isAddress, qs).history;
    var id := h[a].validatorId;
    var i := PathHolds(h, a, id);
    var j := PathHolds(h, b, id);
    assert h[..a + 1][..a] == h[..a];
    PathMonotone(h, a + 1, b, id);
    assert Follows(Path(h, id)[j - 1], Path(h, id)[j]);
  }

  // ----------------------------------------------------------- reading the lifecycle

  /** The effective status of a stored registration, by heights alone. */
  lemma EffectiveByHeights(v: Registration, head: int)
    requires StoredSound(v)
    ensures Effective(v, head).status == Removed <==> v.removalHeight.Some? && v.removalHeight.value <= head
    ensures Effective(v, head).status == RemovalScheduled <==> v.removalHeight.Some? && v.removalHeight.value > head
    ensures Effective(v, head).status == Pending <==> v.status == Pending && v.activationHeight > head
  {
  }

  /** A successful record starts from the status the registration has at the head the
      operation acted on: the time-advance of what the last operation stored. */
  lemma RecordedState(reg: Registry, isAddress: AddressTest, q: Request)
    requires RowsSound(reg.rows) && q.h1 <= q.h2 && !q.call.AddValidator?
    requires Guard(reg, isAddress, q.admin, q.actorId, q.call, q.h1, q.h2).Pass?
    ensures var g := Guard(reg, isAddress, q.admin, q.actorId, q.call, q.h1, q.h2);
            && g.after.registrationId in reg.rows.rows
            && var v := reg.rows.rows[g.after.registrationId];
               g.record.previous == Some(Effective(v, if q.call.RestoreValidator? then q.h2 else q.h1).status)
  {
    hide TrimStart, TrimEnd;
    LookReads(reg, q.call.id, q.h1);
    var g := Guard(reg, isAddress, q.admin, q.actorId, q.call, q.h1, q.h2);
    EffectiveConsistent(reg.rows.rows[g.after.registrationId], q.h1, q.h2);
  }

  // ------------------------------------------------------- each operation, by heights

  /** An id names the registration under it, or else the one of this validator. */
  predicate Names(reg: Registry, id: string, k: string) {
    k in reg.rows.rows && if id in reg.rows.rows then k == id else reg.rows.rows[k].validatorId == id
  }

  lemma LookNamed(reg: Registry, id: string, k: string, head: int)
    requires RowsSound(reg.rows) && Names(reg, id, k)
    ensures Look(reg, id, head) == Some(Effective(reg.rows.rows[k], head))
  {
  }

  lemma LookNobody(reg: Registry, id: string, head: int)
    requires RowsSound(reg.rows) && forall k :: !Names(reg, id, k)
    ensures Look(reg, id, head).None?
  {
    assert id in reg.rows.rows ==> Names(reg, id, id);
    var v := ByValidatorId(reg.rows, id);
    assert id !in reg.rows.rows && v.Some? ==> Names(reg, id, v.value.registrationId);
  }

  /** A confirmed operation stores this row and appends this record. */
  predicate Stores(reg: Registry, reg': Registry, k: string, v: Registration, r: Record) {
    reg'.rows.rows == reg.rows.rows[k := v] && reg'.history == reg.history + [r]
  }

  /** What an operation on this registration is refused for. */
  function Objection(q: Request, v: Registration): Fault
    requires !q.call.AddValidator?
  {
    var scheduled := v.removalHeight.Some?;
    if !q.admin then NotAdmin
    else if Trim(q.call.reason) == "" then Invalid
    else match q.call
      case RemoveValidator(_, height, _) =>
        if height.None? || height.value < 1 then Invalid
        else if scheduled then Conflict
        else if height.value <= q.h2 || height.value <= v.activationHeight then Invalid else NotConfirmed
      case RestoreValidator(_, _) => if scheduled && v.removalHeight.value <= q.h2 then NotConfirmed else Conflict
      case _ => if scheduled && v.removalHeight.value > q.h1 then NotConfirmed else Conflict
  }

  /** What a scheduled removal, a restoration and a cancellation come to for a registration:
      the first when none is scheduled, the second once its height is reached, the third
      before that; by an administrator, for a reason, and only when confirmed. */
  lemma OperationsExactly(reg: Registry, isAddress: AddressTest, q: Request, k: string)
    requires RowsSound(reg.rows) && q.h1 <= q.h2 && !q.call.AddValidator? && Names(reg, q.call.id, k)
    ensures var (reg', r) := Perform(reg, isAddress, q); var v := reg.rows.rows[k]; var why := Some(Trim(q.call.reason));
      match q.call
      case RemoveValidator(_, height, reason) =>
        && (r.Ok? <==> q.admin && q.confirmed && Trim(reason) != "" && v.removalHeight.None?
                       && height.Some? && height.value >= 1 && height.value > q.h2 && height.value > v.activationHeight)
        && (r.Ok? ==> Stores(reg, reg', k, v.(status := RemovalScheduled, removalHeight := height, removalReason := why),
                             Record(v.validatorId, Remove, q.actorId,
                                    Some(if v.activationHeight <= q.h1 then Active else v.status), RemovalScheduled, why, true)))
      case RestoreValidator(_, reason) =>
        && (r.Ok? <==> q.admin && q.confirmed && Trim(reason) != "" && v.removalHeight.Some? && v.removalHeight.value <= q.h2)
        && (r.Ok? ==> Stores(reg, reg', k, v.(status := Active, removalHeight := None, removalReason := None),
                             Record(v.validatorId, Restore, q.actorId, Some(Removed), Active, why, true)))
      case CancelScheduledRemoval(_, reason) =>
        && (r.Ok? <==> q.admin && q.confirmed && Trim(reason) != "" && v.removalHeight.Some? && v.removalHeight.value > q.h1)
        && (r.Ok? ==> Stores(reg, reg', k, v.(status := Active, removalHeight := None, removalReason := None),
                             Record(v.validatorId, CancelRemoval, q.actorId, Some(RemovalScheduled), Active, why, true)))
      case _ => true
    ensures Perform(reg, isAddress, q).1.Err? ==> Perform(reg, isAddress, q).1.fault == Objection(q, reg.rows.rows[k])
  {
    hide TrimStart, TrimEnd;
    LookNamed(reg, q.call.id, k, q.h1);
    hide Look;
  }

  /** An addition: an administrator's, of complete metadata without secrets, of a validator
      that has no registration, for a height beyond the head. */
  lemma AddExactly(reg: Registry, isAddress: AddressTest, q: Request)
    requires RowsSound(reg.rows) && q.call.AddValidator? && q.call.freshId !in reg.rows.rows
    ensures var (reg', r) := Perform(reg, isAddress, q); var input := q.call.input;
      && (r.Ok? <==>
            && q.admin && q.confirmed && Given(input.validatorId) && Given(input.nodeAddress) && Given(input.publicKey)
            && Given(input.signingPublicKey) && !input.carriesSecrets && isAddress(Trim(input.validatorId.text))
            && (forall k :: k in reg.rows.rows ==> reg.rows.rows[k].validatorId != Trim(input.validatorId.text))
            && input.activationHeight.Some? && input.activationHeight.value > q.h1)
      && (r.Ok? ==>
            && Given(input.validatorId) && Given(input.nodeAddress) && Given(input.publicKey) && Given(input.signingPublicKey)
            && input.activationHeight.Some?
            && Stores(reg, reg', q.call.freshId,
                 Registration(q.call.freshId, Trim(input.validatorId.text), q.actorId, Trim(input.nodeAddress.text), Trim(input.publicKey.text),
                              Trim(input.signingPublicKey.text), Pending, input.activationHeight.value, None, None),
                 Record(Trim(input.validatorId.text), Add, q.actorId, None, Pending, None, true)))
      && (r.Err? && q.admin ==> r.fault == Reservation(reg, isAddress, q))
  {
    hide TrimStart, TrimEnd;
  }

  /** What an administrator's addition is refused for. */
  function Reservation(reg: Registry, isAddress: AddressTest, q: Request): Fault
    requires q.call.AddValidator?
  {
    var input := q.call.input;
    if !(Given(input.validatorId) && Given(input.nodeAddress) && Given(input.publicKey) && Given(input.signingPublicKey)
         && !input.carriesSecrets && isAddress(Trim(input.validatorId.text))) then Invalid
    else if exists k :: k in reg.rows.rows && reg.rows.rows[k].validatorId == Trim(input.validatorId.text) then Conflict
    else if input.activationHeight.None? || input.activationHeight.value <= q.h1 then Invalid
    else NotConfirmed
  }

  predicate Given(a: Arg) {
    a.Text? && Trim(a.text) != ""
  }

  /** A reason, and for a removal a height: what an operation asks for before it looks. */
  predicate Asked(q: Request)
    requires !q.call.AddValidator?
  {
    Trim(q.call.reason) != "" && (q.call.RemoveValidator? ==> q.call.removalHeight.Some? && q.call.removalHeight.value >= 1)
  }

  /** What is not there is not found, once it was properly asked for. */
  lemma NotFoundExactly(reg: Registry, isAddress: AddressTest, q: Request)
    requires RowsSound(reg.rows) && !q.call.AddValidator?
    ensures Perform(reg, isAddress, q).1 == Err(NotFound) <==> q.admin && Asked(q) && forall k :: !Names(reg, q.call.id, k)
  {
    hide TrimStart, TrimEnd;
    if k :| Names(reg, q.call.id, k) { LookNamed(reg, q.call.id, k, q.h1); } else { LookNobody(reg, q.call.id, q.h1); }
    hide Look;
  }

  /** A refused call leaves the registry alone; one the chain did not confirm leaves one
      FAILED record of the status it saw, and would have gone through confirmed. */
  lemma RefusedExactly(reg: Registry, isAddress: AddressTest, q: Request)
    requires RowsSound(reg.rows) && q.h1 <= q.h2
    ensures var (reg', r) := Perform(reg, isAddress, q);
      && (r == Err(NotAdmin) <==> !q.admin)
      && (r == Err(NotConfirmed) <==> !q.confirmed && Perform(reg, isAddress, q.(confirmed := true)).1.Ok?)
      && (r.Err? && r.fault != NotConfirmed ==> reg' == reg)
      && (r == Err(NotConfirmed) ==> reg'.rows == reg.rows)
      && (r == Err(NotConfirmed) && !q.call.AddValidator? ==>
            exists k :: Names(reg, q.call.id, k) && reg'.history == reg.history + [Failed(reg.rows.rows[k], q)])
  {
    hide TrimStart, TrimEnd;
    if !q.call.AddValidator? {
      if k :| Names(reg, q.call.id, k) { LookNamed(reg, q.call.id, k, q.h1); } else { LookNobody(reg, q.call.id, q.h1); }
    }
    hide Look;
  }

  /** The record of an operation the chain did not confirm. */
  function Failed(v: Registration, q: Request): Record
    requires !q.call.AddValidator?
  {
    var s := Effective(v, q.h1).status;
    Record(v.validatorId, if q.call.RemoveValidator? then Remove else if q.call.RestoreValidator? then Restore else CancelRemoval,
           q.actorId, Some(s), s, Some(Trim(q.call.reason)), false)
  }

  /** At one head, a scheduled removal can be cancelled or the validator restored, never
      both and never neither. */
  lemma CancelXorRestore(reg: Registry, isAddress: AddressTest, actorId: string, id: string, reason: string, head: int)
    requires RowsSound(reg.rows) && !Blank(reason) && id in reg.rows.rows && reg.rows.rows[id].status == RemovalScheduled
    ensures Guard(reg, isAddress, true, actorId, CancelScheduledRemoval(id, reason), head, head).Pass?
            <==> !Guard(reg, isAddress, true, actorId, RestoreValidator(id, reason), head, head).Pass?
    ensures Guard(reg, isAddress, true, actorId, RestoreValidator(id, reason), head, head).Pass?
            <==> reg.rows.rows[id].removalHeight.value <= head
  {
    hide TrimStart, TrimEnd;
  }

  /** Every validator that reads as ACTIVE has reached its activation height. */
  ghost predicate Timely(reg: Registry, head: int) {
    forall k :: k in reg.rows.rows && Effective(reg.rows.rows[k], head).status == Active ==> reg.rows.rows[k].activationHeight <= head
  }

  /** A cancellation that takes effect before the validator's activation height. */
  predicate CancelsEarly(reg: Registry, isAddress: AddressTest, q: Request) {
    var g := Guard(reg, isAddress, q.admin, q.actorId, q.call, q.h1, q.h2);
    q.call.CancelScheduledRemoval? && q.confirmed && g.Pass? && g.before.activationHeight > q.h2
  }

  /** That is kept by every call but one: it is lost exactly when a removal is cancelled
      before the validator's activation height, which makes it ACTIVE at once. */
  lemma TimelyUnlessCancelledEarly(reg: Registry, isAddress: AddressTest, q: Request)
    requires RowsSound(reg.rows) && q.h1 <= q.h2 && Timely(reg, q.h2)
    requires q.call.AddValidator? ==> q.call.freshId !in reg.rows.rows
    ensures Timely(Perform(reg, isAddress, q).0, q.h2) <==> !CancelsEarly(reg, isAddress, q)
  {
    hide Guard, Timely, RowsSound, CancelsEarly, Effective;
    var g := Guard(reg, isAddress, q.admin, q.actorId, q.call, q.h1, q.h2);
    var (reg', r) := Perform(reg, isAddress, q);
    StoredTimely(reg, isAddress, q);
    if r.Ok? {
      assert reg'.rows == reg.rows.Put(g.after.registrationId, g.after);
      TimelyPut(reg, g.after, q.h2, reg');
    } else {
      assert reg'.rows == reg.rows;
      SameTimely(reg, reg', q.h2);
    }
  }

  /** The row to be stored, against the one it replaces. */
  lemma StoredTimely(reg: Registry, isAddress: AddressTest, q: Request)
    requires RowsSound(reg.rows) && q.h1 <= q.h2 && Timely(reg, q.h2)
    requires q.call.AddValidator? ==> q.call.freshId !in reg.rows.rows
    ensures var g := Guard(reg, isAddress, q.admin, q.actorId, q.call, q.h1, q.h2);
            if g.Pass? && q.confirmed then
              CancelsEarly(reg, isAddress, q) <==> Effective(g.after, q.h2).status == Active && g.after.activationHeight > q.h2
            else !CancelsEarly(reg, isAddress, q)
  {
    GuardReads(reg, isAddress, q);
    StoredAs(reg, isAddress, q);
    hide Guard, Follows, RowsSound;
  }

  lemma TimelyPut(reg: Registry, v: Registration, head: int, reg': Registry)
    requires Timely(reg, head) && reg'.rows == reg.rows.Put(v.registrationId, v)
    ensures Timely(reg', head) <==> (Effective(v, head).status == Active ==> v.activationHeight <= head)
  {
    assert reg'.rows.rows[v.registrationId] == v;
  }

  lemma SameTimely(reg: Registry, reg': Registry, head: int)
    requires reg'.rows == reg.rows
    ensures Timely(reg', head) == Timely(reg, head)
  {
  }

  /** And every pending validator is a way there: scheduling its removal and cancelling it
      again, both before its activation, leaves it ACTIVE ahead of time. */
  lemma EarlyCancellation(reg: Registry, isAddress: AddressTest, actorId: string, id: string, reason: string, head: int)
    requires RowsSound(reg.rows) && Timely(reg, head) && !Blank(reason)
    requires id in reg.rows.rows && reg.rows.rows[id].status == Pending && reg.rows.rows[id].activationHeight > head >= 0
    ensures var height := reg.rows.rows[id].activationHeight + 1;
            var (reg1, r1) := Perform(reg, isAddress, Request(true, actorId, RemoveValidator(id, Some(height), reason), head, head, true));
            var q := Request(true, actorId, CancelScheduledRemoval(id, reason), head, head, true);
            var (reg2, r2) := Perform(reg1, isAddress, q);
            r1.Ok? && CancelsEarly(reg1, isAddress, q) && r2.Ok? && !Timely(reg2, head)
            && reg2.rows.rows[id].status == Active && reg2.rows.rows[id].activationHeight > head
  {
    hide TrimStart, TrimEnd;
    var height := reg.rows.rows[id].activationHeight + 1;
    var reg1 := Perform(reg, isAddress, Request(true, actorId, RemoveValidator(id, Some(height), reason), head, head, true)).0;
    assert reg1.rows.rows[id] ==
      reg.rows.rows[id].(status := RemovalScheduled, removalHeight := Some(height), removalReason := Some(Trim(reason)));
    var reg2 := Perform(reg1, isAddress, Request(true, actorId, CancelScheduledRemoval(id, reason), head, head, true)).0;
    assert reg2.rows.rows[id].status == Active && Effective(reg2.rows.rows[id], head).status == Active;
  }

  lemma StoredAs(reg: Registry, isAddress: AddressTest, q: Request)
    requires RowsSound(reg.rows) && q.h1 <= q.h2
    ensures var g := Guard(reg, isAddress, q.admin, q.actorId, q.call, q.h1, q.h2);
            g.Pass? ==>
              && (q.call.RemoveValidator? ==> g.after.status == RemovalScheduled && g.after.removalHeight.value > q.h2)
              && (q.call.RestoreValidator? ==> g.after.activationHeight <= q.h2)
              && (q.call.RestoreValidator? || q.call.CancelScheduledRemoval? ==> g.after.status == Active)
  {
    hide TrimStart, TrimEnd;
    var g := Guard(reg, isAddress, q.admin, q.actorId, q.call, q.h1, q.h2);
    if g.Pass? && !q.call.AddValidator? {
      LookReads(reg, q.call.id, q.h1);
    }
  }

  /** And the passing of time keeps it. */
  lemma TimelyLater(reg: Registry, h1: int, h2: int)
    requires RowsSound(reg.rows) && Timely(reg, h1) && h1 <= h2
    ensures Timely(reg, h2)
  {
    forall k | k in reg.rows.rows && Effective(reg.rows.rows[k], h2).status == Active
      ensures reg.rows.rows[k].activationHeight <= h2
    {
      var v := reg.rows.rows[k];
      if v.activationHeight > h1 { assert Effective(v, h1).status != Active; }
    }
  }

  // -------------------------------------------------------------------- the service

  class Service {
    var validators: Table<Registration>
    var history: seq<Record>
    const isAddress: AddressTest

    ghost function State(): Registry
      reads this
    {
      Registry(validators, history)
    }

    constructor (isAddress: AddressTest)
      ensures State() == EMPTY && Sound(State()) && this.isAddress == isAddress
    {
      this.isAddress := isAddress;
      validators, history := EmptyTable(), [];
    }

    /** get: a copy of the registration as it reads at this head. */
    method Get(id: string, head: int) returns (v: Option<Registration>)
      ensures v == Look(State(), id, head)
    {
      var value := validators.Get(id);
      if value.None? {
        value := ByValidatorId(validators, id);
      }
      v := if value.Some? then Some(Effective(value.value, head)) else None;
    }

    /** submit: on anything but a confirmation a FAILED record is appended. */
    method Submit(before: Registration, operation: Operation, actorId: string, reason: Option<string>, confirmed: bool)
      modifies this`history
      ensures history == if confirmed then old(history)
                         else old(history) + [Record(before.validatorId, operation, actorId, Some(before.status), before.status, reason, false)]
    {
      if !confirmed {
        history := history + [Record(before.validatorId, operation, actorId, Some(before.status), before.status, reason, false)];
      }
    }

    method Add(admin: bool, actorId: string, input: NewValidator, freshId: string, head: int, confirmed: bool) returns (r: Outcome)
      modifies this
      ensures (State(), r) == Perform(old(State()), isAddress, Request(admin, actorId, AddValidator(input, freshId), head, head, confirmed))
    {
      hide Trim;
      if !admin {
        return Err(NotAdmin);
      }
      if !MetadataOk(isAddress, input) {
        return Err(Invalid);
      }
      var id := Required(input.validatorId).value;
      var existing := ByValidatorId(validators, id);
      if existing.Some? && existing.value.status != Removed {
        return Err(Conflict);
      }
      if input.activationHeight.None? || input.activationHeight.value <= head {
        return Err(Invalid);
      }
      var registration := Registration(
        if existing.Some? then existing.value.registrationId else freshId, id, actorId, Required(input.nodeAddress).value,
        Required(input.publicKey).value, Required(input.signingPublicKey).value,
        if input.activationHeight.value > head then Pending else Active, input.activationHeight.value, None, None);
      Submit(registration, Operation.Add, actorId, None, confirmed);
      if !confirmed {
        return Err(NotConfirmed);
      }
      validators := validators.Put(registration.registrationId, registration);
      history := history + [Record(id, Operation.Add, actorId, None, registration.status, None, true)];
      r := Ok(registration);
    }

    method Remove(admin: bool, actorId: string, id: string, removalHeight: Option<int>, reason: string, h1: int, h2: int,
                  confirmed: bool) returns (r: Outcome)
      modifies this
      ensures (State(), r) ==
              Perform(old(State()), isAddress, Request(admin, actorId, RemoveValidator(id, removalHeight, reason), h1, h2, confirmed))
    {
      hide Trim, Look;
      if !admin {
        return Err(NotAdmin);
      }
      if removalHeight.None? || removalHeight.value < 1 {
        return Err(Invalid);
      }
      if Blank(reason) {
        return Err(Invalid);
      }
      var found := Get(id, h1);
      if found.None? {
        return Err(NotFound);
      }
      var registration := found.value;
      if registration.status != Pending && registration.status != Active {
        return Err(Conflict);
      }
      if removalHeight.value <= h2 || removalHeight.value <= registration.activationHeight {
        return Err(Invalid);
      }
      Submit(registration, Operation.Remove, actorId, Some(Trim(reason)), confirmed);
      if !confirmed {
        return Err(NotConfirmed);
      }
      var previous := registration.status;
      registration := registration.(status := RemovalScheduled, removalHeight := removalHeight, removalReason := Some(Trim(reason)));
      validators := validators.Put(registration.registrationId, registration);
      history := history + [Record(registration.validatorId, Operation.Remove, actorId, Some(previous), RemovalScheduled, Some(Trim(reason)), true)];
      r := Ok(registration);
    }

    method Restore(admin: bool, actorId: string, id: string, reason: string, h1: int, h2: int, confirmed: bool) returns (r: Outcome)
      modifies this
      ensures (State(), r) == Perform(old(State()), isAddress, Request(admin, actorId, RestoreValidator(id, reason), h1, h2, confirmed))
    {
      hide Trim, Look;
      if !admin {
        return Err(NotAdmin);
      }
      if Blank(reason) {
        return Err(Invalid);
      }
      var found := Get(id, h1);
      if found.None? {
        return Err(NotFound);
      }
      var registration := found.value;
      var height := registration.removalHeight;
      var effectiveStatus := if registration.status == RemovalScheduled && height.Some? && height.value <= h2 then Removed else registration.status;
      if effectiveStatus != Removed || height.None? || height.value == 0 || height.value > h2 {
        return Err(Conflict);
      }
      Submit(registration, Operation.Restore, actorId, Some(Trim(reason)), confirmed);
      if !confirmed {
        return Err(NotConfirmed);
      }
      registration := registration.(status := Active, removalHeight := None, removalReason := None);
      validators := validators.Put(registration.registrationId, registration);
      history := history + [Record(registration.validatorId, Operation.Restore, actorId, Some(Removed), Active, Some(Trim(reason)), true)];
      r := Ok(registration);
    }

    method CancelScheduledRemoval(admin: bool, actorId: string, id: string, reason: string, h1: int, confirmed: bool) returns (r: Outcome)
      modifies this
      ensures (State(), r) ==
              Perform(old(State()), isAddress, Request(admin, actorId, Call.CancelScheduledRemoval(id, reason), h1, h1, confirmed))
    {
      hide Trim, Look;
      if !admin {
        return Err(NotAdmin);
      }
      if Blank(reason) {
        return Err(Invalid);
      }
      var found := Get(id, h1);
      if found.None? {
        return Err(NotFound);
      }
      var registration := found.value;
      if registration.status != RemovalScheduled {
        return Err(Conflict);
      }
      Submit(registration, CancelRemoval, actorId, Some(Trim(reason)), confirmed);
      if !confirmed {
        return Err(NotConfirmed);
      }
      registration := registration.(status := Active, removalHeight := None, removalReason := None);
      validators := validators.Put(registration.registrationId, registration);
      history := history + [Record(registration.validatorId, CancelRemoval, actorId, Some(RemovalScheduled), Active, Some(Trim(reason)), true)];
      r := Ok(registration);
    }
  }
}
