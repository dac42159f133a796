/** The asset service as the object it is, with its in-memory map. Every method is proved
    to do what module Assets says on the repository and the ledger alone: the map cannot be
    told from outside, so losing it at any moment changes no later answer. */
module AssetsService {
  import opened Prelude
  import opened Forest
  import opened Assets

  // ------------------------------------------------------------------- the map

  function TypeIn(repo: Rows, id: string): string {
    if id in repo then repo[id].assetType else ""
  }

  function ParentIn(repo: Rows, id: string): Parent {
    if id in repo then Settled(repo[id].parent) else Null
  }

  /** A cached record may be stale in everything the chain reports, but agrees with the
      repository in what the chain may leave out. */
  ghost predicate EntryAgrees(entry: Asset, id: string, repo: Rows, ledger: Rows) {
    && entry.assetId == id
    && if id in ledger then
         && (ledger[id].assetType == "" ==> entry.assetType == TypeIn(repo, id))
         && (ledger[id].parent == Undefined ==> Settled(entry.parent) == ParentIn(repo, id))
       else id in repo && entry == repo[id]
  }

  ghost predicate CacheAgrees(cache: Rows, repo: Rows, ledger: Rows) {
    Keyed(ledger) && Keyed(repo) && forall id :: id in cache ==> EntryAgrees(cache[id], id, repo, ledger)
  }

  /** What everybody may do to the chain: registered assets stay registered, under their
      type, and a parent once reported goes on being reported. */
  ghost predicate LedgerEvolves(ledger: Rows, ledger': Rows) {
    && Keyed(ledger')
    && forall id :: id in ledger ==>
         && id in ledger' && ledger'[id].assetType == ledger[id].assetType
         && (ledger[id].parent != Undefined ==> ledger'[id].parent != Undefined)
  }

  /** An asset that appears on the chain brings no type or parent report that would hide a
      difference: with an agreeing cache any chain movement keeps the agreement. */
  lemma EvolvingAgrees(cache: Rows, repo: Rows, ledger: Rows, ledger': Rows)
    requires CacheAgrees(cache, repo, ledger) && LedgerEvolves(ledger, ledger')
    ensures CacheAgrees(cache, repo, ledger')
  {
    forall id | id in cache ensures EntryAgrees(cache[id], id, repo, ledger') {
      assert EntryAgrees(cache[id], id, repo, ledger);
    }
  }

  /** A read through an agreeing cache answers what a read without it would, and leaves the
      cache agreeing. */
  lemma ReadThrough(cache: Rows, repo: Rows, ledger: Rows, id: string)
    requires CacheAgrees(cache, repo, ledger)
    ensures var answer := Reconciled(ledger, id, if id in cache then Some(cache[id]) else Find(repo, id));
            && answer == Look(Store(repo, ledger), id)
            && (id in ledger ==> CacheAgrees(cache[id := answer.value], repo, ledger))
  {
    if id in cache { assert EntryAgrees(cache[id], id, repo, ledger); }
  }

  /** The in-memory chain's replay is such a movement. */
  lemma RecordEvolves(ledger: Rows, tx: Tx, sender: string, nft: string)
    requires Keyed(ledger)
    ensures LedgerEvolves(ledger, Record(ledger, tx, sender, nft))
  {
  }

  lemma StoredAgrees(cache: Rows, repo: Rows, ledger: Rows, a: Asset)
    requires CacheAgrees(cache, repo, ledger)
    ensures CacheAgrees(cache[a.assetId := a], repo[a.assetId := a], ledger)
  {
    forall id | id in cache && id != a.assetId ensures EntryAgrees(cache[id], id, repo[a.assetId := a], ledger) {
      assert EntryAgrees(cache[id], id, repo, ledger);
    }
  }

  // -------------------------------------------------------------------- the service

  class Service {
    var assets: Rows
    var repository: Rows
    /** The chain's registry, as getAsset reports it. */
    var ledger: Rows
    const directory: Directory
    const evm: bool

    ghost predicate Valid()
      reads this
    {
      CacheAgrees(assets, repository, ledger)
    }

    ghost function State(): Store
      reads this
    {
      Store(repository, ledger)
    }

    constructor (repository: Rows, ledger: Rows, directory: Directory, evm: bool)
      requires Keyed(repository) && Keyed(ledger)
      ensures Valid() && State() == Store(repository, ledger) && this.directory == directory && this.evm == evm
    {
      this.assets, this.repository, this.ledger, this.directory, this.evm := map[], repository, ledger, directory, evm;
    }

    /** The process restarts, or otherwise loses its map: nothing a caller can see changes. */
    method LoseMap()
      requires Valid()
      modifies this`assets
      ensures Valid() && State() == old(State()) && assets == map[]
    {
      assets := map[];
    }

    /** Others move the chain. */
    method ChainMoves(after: Rows)
      requires Valid() && LedgerEvolves(ledger, after)
      modifies this`ledger
      ensures Valid() && State() == Store(old(repository), after)
    {
      EvolvingAgrees(assets, repository, ledger, after);
      ledger := after;
    }

    method GetById(id: string) returns (r: Option<Asset>)
      requires Valid()
      modifies this`assets
      ensures Valid() && State() == old(State())
      ensures r == Look(State(), id)
    {
      ReadThrough(assets, repository, ledger, id);
      var cached := if id in assets then Some(assets[id]) else if id in repository then Some(repository[id]) else None;
      if id in ledger {
        var reconciled := Merge(ledger[id], cached);
        assets := assets[id := reconciled];
        return Some(reconciled);
      }
      return cached;
    }

    /** The walk up the parents. It ends on every finite hierarchy, since it never passes an
        asset twice. */
    method AssertNoCycle(parentId: string, componentId: string) returns (refusal: Option<Refusal>)
      requires Valid()
      modifies this`assets
      ensures Valid() && State() == old(State())
      ensures refusal == CycleRefusal(WalkFrom(ParentsOf(State()), parentId, componentId, {}))
    {
      hide Look, ParentsOf, NamedParent, Keyed;
      ghost var p := ParentsOf(State());
      var at := parentId;
      var current := GetById(parentId);
      var visited: set<string> := {};
      while current.Some? && NamedParent(current.value).Some?
        invariant Valid() && State() == old(State())
        invariant current == Look(State(), at)
        invariant visited <= p.Keys
        invariant WalkFrom(p, at, componentId, visited) == WalkFrom(p, parentId, componentId, {})
        decreases |p.Keys - visited|
      {
        ParentNamed(State(), at);
        var next := NamedParent(current.value).value;
        assert at in p && p[at] == next;
        if current.value.assetId in visited {
          return Some(HierarchyCyclic);
        }
        assert p.Keys - (visited + {at}) == (p.Keys - visited) - {at};
        visited := visited + {current.value.assetId};
        if next == componentId {
          return Some(WouldCycle);
        }
        current := GetById(next);
        at := next;
      }
      ParentNamed(State(), at);
      return None;
    }

    /** What the walk reads at an asset is what the parent relation has there. */
    lemma ParentNamed(st: Store, id: string)
      requires Keyed(st.repo) && Keyed(st.ledger)
      ensures id in ParentsOf(st) <==> Look(st, id).Some? && NamedParent(Look(st, id).value).Some?
      ensures id in ParentsOf(st) ==> Look(st, id).value.assetId == id && ParentsOf(st)[id] == NamedParent(Look(st, id).value).value
    {
      LookIsKeyed(st, id);
    }

    lemma LookIsKeyed(st: Store, id: string)
      requires Keyed(st.repo) && Keyed(st.ledger)
      ensures Look(st, id).Some? ==> Look(st, id).value.assetId == id && (id in st.repo || id in st.ledger)
    {
    }

    /** transaction, submit, reconcileAfterWrite and the two writes after them. */
    method Submit(g: Guarded, actor: Actor, reply: Reply) returns (r: Outcome)
      requires Valid() && g.Pass? && g.fallback.assetId == g.id && LedgerEvolves(ledger, reply.after)
      modifies this
      ensures Valid() && (State(), r) == Write(old(State()), evm, actor, g, reply)
    {
      var signature := if actor.signature.Some? then Trim(actor.signature.value) else "";
      if Required(actor.identityId).None? || Required(actor.walletAddress).None? {
        return Err(NoActor);
      }
      if evm && (signature == "" || signature == "development") {
        return Err(NoSignature);
      }
      EvolvingAgrees(assets, repository, ledger, reply.after);
      ledger := reply.after;
      if reply.answer.Threw? {
        return Err(ChainFailed);
      }
      if reply.answer.Rejected? {
        return Err(ChainRejected);
      }
      var reconciled;
      if g.id in ledger {
        reconciled := Merge(ledger[g.id], Some(g.fallback));
      } else if reply.answer.nftId != "" {
        reconciled := g.fallback.(nftId := reply.answer.nftId);
      } else {
        return Err(NotQueryable);
      }
      StoredAgrees(assets, repository, ledger, reconciled);
      assets := assets[g.id := reconciled];
      repository := repository[reconciled.assetId := reconciled];
      r := Ok(reconciled);
    }

    method Create(input: NewAsset, freshId: string, actor: Actor, reply: Reply) returns (r: Outcome)
      requires Valid() && LedgerEvolves(ledger, reply.after)
      modifies this
      ensures Valid() && (State(), r) == Perform(old(State()), directory, evm, actor, Call.Create(input, freshId), reply)
    {
      hide Look, CacheAgrees;
      var assetType := Required(input.assetType);
      var owner := Required(input.ownerId);
      var custodian := Required(input.custodianId);
      if assetType.None? || owner.None? || custodian.None? {
        return Err(Missing);
      }
      if directory.Some? && (!directory.value(owner.value) || !directory.value(custodian.value)) {
        return Err(NoIdentity);
      }
      if custodian.value != owner.value {
        return Err(CustodianDiffers);
      }
      var id := if input.assetId.Some? && !Blank(input.assetId.value) then Trim(input.assetId.value) else freshId;
      var existing := GetById(id);
      if existing.Some? {
        return Err(Exists);
      }
      var under := None;
      if input.parent.Id? {
        var parent := GetById(input.parent.id);
        if parent.None? {
          return Err(UnknownAsset);
        }
        under := Some(input.parent.id);
      }
      r := Submit(Pass(Mint(id, assetType.value, owner.value, custodian.value, under), id,
                       Asset(id, "", assetType.value, owner.value, custodian.value, Settled(input.parent), Active)), actor, reply);
    }

    method Transfer(id: string, newOwner: Arg, newCustodian: Arg, actor: Actor, reply: Reply) returns (r: Outcome)
      requires Valid() && LedgerEvolves(ledger, reply.after)
      modifies this
      ensures Valid() && (State(), r) == Perform(old(State()), directory, evm, actor, Call.Transfer(id, newOwner, newCustodian), reply)
    {
      var asset := GetById(id);
      if asset.None? {
        return Err(NoAsset);
      }
      ValidKeyed();
      LookIsKeyed(State(), id);
      hide Look, CacheAgrees;
      var owner := Required(newOwner);
      if owner.None? {
        return Err(Missing);
      }
      if directory.Some? && !directory.value(owner.value) {
        return Err(NoIdentity);
      }
      var custodian := if newCustodian == Absent then owner else Required(newCustodian);
      if custodian.None? {
        return Err(Missing);
      }
      if custodian.value != owner.value {
        return Err(CustodianDiffers);
      }
      if asset.value.status == Decommissioned {
        return Err(IsDecommissioned);
      }
      if asset.value.parent.Id? {
        return Err(IsComponent);
      }
      if asset.value.ownerId == owner.value {
        return Err(SameOwner);
      }
      r := Submit(Pass(TransferTx(asset.value.assetId, asset.value.nftId, owner.value, custodian.value), id,
                       asset.value.(ownerId := owner.value, custodianId := custodian.value)), actor, reply);
    }

    method ChangeAssetState(id: string, newState: Option<AssetStatus>, actor: Actor, reply: Reply) returns (r: Outcome)
      requires Valid() && LedgerEvolves(ledger, reply.after)
      modifies this
      ensures Valid() && (State(), r) == Perform(old(State()), directory, evm, actor, Call.ChangeState(id, newState), reply)
    {
      if newState.None? {
        return Err(NoSuchState);
      }
      var asset := GetById(id);
      if asset.None? {
        return Err(NoAsset);
      }
      ValidKeyed();
      LookIsKeyed(State(), id);
      hide Look, CacheAgrees;
      if !AllowedTransition(asset.value.status, newState.value) {
        return Err(BadTransition);
      }
      r := Submit(Pass(StateChange(asset.value.assetId, asset.value.nftId, asset.value.status, newState.value), id,
                       asset.value.(status := newState.value)), actor, reply);
    }

    method AttachComponent(parentId: string, componentId: string, actor: Actor, reply: Reply) returns (r: Outcome)
      requires Valid() && LedgerEvolves(ledger, reply.after)
      modifies this
      ensures Valid() && (State(), r) == Perform(old(State()), directory, evm, actor, Call.AttachComponent(parentId, componentId), reply)
    {
      var parent := GetById(parentId);
      if parent.None? {
        return Err(UnknownAsset);
      }
      var component := GetById(componentId);
      if component.None? {
        return Err(UnknownAsset);
      }
      ValidKeyed();
      LookIsKeyed(State(), componentId);
      hide Look, CacheAgrees, ParentsOf, WalkFrom;
      if parentId == componentId {
        return Err(SelfAttach);
      }
      if parent.value.status == Decommissioned || component.value.status == Decommissioned {
        return Err(IsDecommissioned);
      }
      if component.value.parent.Id? {
        return Err(IsComponent);
      }
      var cycle := AssertNoCycle(parentId, componentId);
      if cycle.Some? {
        return Err(cycle.value);
      }
      r := Submit(Pass(Attach(parentId, parent.value.nftId, componentId, component.value.nftId), componentId,
                       component.value.(parent := Id(parentId))), actor, reply);
    }

    method RemoveComponent(parentId: string, componentId: string, actor: Actor, reply: Reply) returns (r: Outcome)
      requires Valid() && LedgerEvolves(ledger, reply.after)
      modifies this
      ensures Valid() && (State(), r) == Perform(old(State()), directory, evm, actor, Call.RemoveComponent(parentId, componentId), reply)
    {
      var parent := GetById(parentId);
      if parent.None? {
        return Err(UnknownAsset);
      }
      var component := GetById(componentId);
      if component.None? {
        return Err(UnknownAsset);
      }
      ValidKeyed();
      LookIsKeyed(State(), componentId);
      hide Look, CacheAgrees;
      if component.value.parent != Id(parentId) {
        return Err(NotAttached);
      }
      r := Submit(Pass(Remove(parentId, parent.value.nftId, componentId, component.value.nftId), componentId,
                       component.value.(parent := Null)), actor, reply);
    }

    /** The device-signing path: the same reads, no write. */
    method PrepareTransaction(p: Preparation) returns (r: Prepared)
      requires Valid()
      modifies this`assets
      ensures Valid() && State() == old(State())
      ensures r == Prepare(State(), directory, p)
    {
      hide Look, CacheAgrees, ParentsOf, WalkFrom;
      match p
      case PrepareTransfer(assetId, newOwner, newCustodian) =>
        var id := Required(assetId);
        if id.None? {
          return NotPrepared(Missing);
        }
        var asset := GetById(id.value);
        if asset.None? {
          return NotPrepared(NoAsset);
        }
        var owner := Required(newOwner);
        if owner.None? {
          return NotPrepared(Missing);
        }
        if directory.Some? && !directory.value(owner.value) {
          return NotPrepared(NoIdentity);
        }
        var custodian := if newCustodian == Absent then owner else Required(newCustodian);
        if custodian.None? {
          return NotPrepared(Missing);
        }
        if custodian.value != owner.value {
          return NotPrepared(CustodianDiffers);
        }
        if asset.value.status == Decommissioned {
          return NotPrepared(IsDecommissioned);
        }
        if asset.value.parent.Id? {
          return NotPrepared(IsComponent);
        }
        if asset.value.ownerId == owner.value {
          return NotPrepared(SameOwner);
        }
        r := Payload(TransferTx(asset.value.assetId, asset.value.nftId, owner.value, custodian.value));
      case PrepareState(assetId, newState) =>
        var id := Required(assetId);
        if id.None? {
          return NotPrepared(Missing);
        }
        if newState.None? {
          return NotPrepared(NoSuchState);
        }
        var asset := GetById(id.value);
        if asset.None? {
          return NotPrepared(NoAsset);
        }
        if !AllowedTransition(asset.value.status, newState.value) {
          return NotPrepared(BadTransition);
        }
        r := Payload(StateChange(asset.value.assetId, asset.value.nftId, asset.value.status, newState.value));
      case PrepareAttach(parentId, componentId) =>
        r := PrepareComponent(true, parentId, componentId);
      case PrepareRemove(parentId, componentId) =>
        r := PrepareComponent(false, parentId, componentId);
    }

    method PrepareComponent(attach: bool, parentArg: Arg, componentArg: Arg) returns (r: Prepared)
      requires Valid()
      modifies this`assets
      ensures Valid() && State() == old(State())
      ensures r == Prepare(State(), directory, if attach then PrepareAttach(parentArg, componentArg) else PrepareRemove(parentArg, componentArg))
    {
      hide Look, CacheAgrees, ParentsOf, WalkFrom;
      var parentId := Required(parentArg);
      var componentId := Required(componentArg);
      if parentId.None? || componentId.None? {
        return NotPrepared(Missing);
      }
      var parent := GetById(parentId.value);
      var component := GetById(componentId.value);
      if parent.None? || component.None? {
        return NotPrepared(UnknownAsset);
      }
      if attach {
        if parentId.value == componentId.value {
          return NotPrepared(SelfAttach);
        }
        if parent.value.status == Decommissioned || component.value.status == Decommissioned {
          return NotPrepared(IsDecommissioned);
        }
        if component.value.parent.Id? {
          return NotPrepared(IsComponent);
        }
        var cycle := AssertNoCycle(parentId.value, componentId.value);
        if cycle.Some? {
          return NotPrepared(cycle.value);
        }
        return Payload(Attach(parentId.value, parent.value.nftId, componentId.value, component.value.nftId));
      }
      if component.value.parent != Id(parentId.value) {
        return NotPrepared(NotAttached);
      }
      r := Payload(Remove(parentId.value, parent.value.nftId, componentId.value, component.value.nftId));
    }

    lemma ValidKeyed()
      requires Valid()
      ensures Keyed(repository) && Keyed(ledger)
    {
    }
  }
}
