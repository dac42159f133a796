/** The asset registry seen from the service: an off-chain repository beside an
    authoritative ledger, the guards of every mutation, and what a mutation makes of the
    chain's answer. The in-memory map of the service does not appear here; module
    AssetsService shows that it cannot be told from outside. */
module Assets {
  import opened Prelude
  import opened Forest

  datatype AssetStatus = Active | InMaintenance | Decommissioned

  /** A record may leave its parent out, state that there is none, or name one. */
  datatype Parent = Undefined | Null | Id(id: string)

  datatype Asset = Asset(
    assetId: string, nftId: string, assetType: string, ownerId: string, custodianId: string,
    parent: Parent, status: AssetStatus)

  type Rows = map<string, Asset>

  datatype Store = Store(repo: Rows, ledger: Rows)

  // ---------------------------------------------------------------------- reading

  function Settled(p: Parent): Parent {
    if p == Undefined then Null else p
  }

  /** Chain values win; what the chain leaves out comes from the other record. */
  function Merge(onChain: Asset, cached: Option<Asset>): Asset {
    onChain.(
      assetId := if onChain.assetId != "" || cached.None? then onChain.assetId else cached.value.assetId,
      assetType := if onChain.assetType != "" || cached.None? then onChain.assetType else cached.value.assetType,
      parent := if onChain.parent != Undefined then onChain.parent
                else if cached.None? then Null else Settled(cached.value.parent))
  }

  function Find(rows: Rows, id: string): Option<Asset> {
    if id in rows then Some(rows[id]) else None
  }

  /** What getById answers when it starts from `cached`. */
  function Reconciled(ledger: Rows, id: string, cached: Option<Asset>): Option<Asset> {
    if id in ledger then Some(Merge(ledger[id], cached)) else cached
  }

  function Look(st: Store, id: string): Option<Asset> {
    Reconciled(st.ledger, id, Find(st.repo, id))
  }

  function NamedParent(a: Asset): Option<string> {
    if a.parent.Id? && a.parent.id != "" then Some(a.parent.id) else None
  }

  function ParentOf(st: Store, id: string): Option<string> {
    var a := Look(st, id);
    if a.Some? then NamedParent(a.value) else None
  }

  function ParentsOf(st: Store): Parents {
    map id | id in st.repo.Keys + st.ledger.Keys && ParentOf(st, id).Some? :: ParentOf(st, id).value
  }

  // ----------------------------------------------------------------- transactions

  datatype Tx =
    | Mint(assetId: string, assetType: string, ownerId: string, custodianId: string, under: Option<string>)
    | TransferTx(assetId: string, nftId: string, newOwnerId: string, newCustodianId: string)
    | StateChange(assetId: string, nftId: string, previous: AssetStatus, next: AssetStatus)
    | Attach(parentId: string, parentNft: string, componentId: string, componentNft: string)
    | Remove(parentId: string, parentNft: string, componentId: string, componentNft: string)

  datatype Refusal =
    | Missing | NoIdentity | NoAsset | UnknownAsset | CustodianDiffers | Exists | IsDecommissioned | IsComponent
    | SameOwner | NoSuchState | BadTransition | SelfAttach | NotAttached | WouldCycle | HierarchyCyclic
    | NoActor | NoSignature | ChainRejected | ChainFailed | NotQueryable

  datatype Outcome = Ok(asset: Asset) | Err(refusal: Refusal)

  /** Past the guards: the transaction to submit, the asset it is about, and the record to
      fall back on where the chain is silent. */
  datatype Guarded = Stop(refusal: Refusal) | Pass(tx: Tx, id: string, fallback: Asset)

  type Directory = Option<string -> bool>

  predicate Known(d: Directory, identityId: string) {
    d.Some? ==> d.value(identityId)
  }

  datatype NewAsset = NewAsset(assetType: Arg, ownerId: Arg, custodianId: Arg, assetId: Option<string>, parent: Parent)

  function GuardCreate(st: Store, d: Directory, input: NewAsset, freshId: string): Guarded {
    var assetType := Required(input.assetType);
    var owner := Required(input.ownerId);
    var custodian := Required(input.custodianId);
    if assetType.None? || owner.None? || custodian.None? then Stop(Missing)
    else if !Known(d, owner.value) || !Known(d, custodian.value) then Stop(NoIdentity)
    else if custodian.value != owner.value then Stop(CustodianDiffers)
    else
      var id := if input.assetId.Some? && !Blank(input.assetId.value) then Trim(input.assetId.value) else freshId;
      if Look(st, id).Some? then Stop(Exists)
      else if input.parent.Id? && Look(st, input.parent.id).None? then Stop(UnknownAsset)
      else
        Pass(Mint(id, assetType.value, owner.value, custodian.value, if input.parent.Id? then Some(input.parent.id) else None),
             id, Asset(id, "", assetType.value, owner.value, custodian.value, Settled(input.parent), Active))
  }

  function GuardTransfer(st: Store, d: Directory, id: string, newOwner: Arg, newCustodian: Arg): Guarded {
    var a := Look(st, id);
    var owner := Required(newOwner);
    var custodian := if newCustodian == Absent then owner else Required(newCustodian);
    if a.None? then Stop(NoAsset)
    else if owner.None? then Stop(Missing)
    else if !Known(d, owner.value) then Stop(NoIdentity)
    else if custodian.None? then Stop(Missing)
    else if custodian != owner then Stop(CustodianDiffers)
    else if a.value.status == Decommissioned then Stop(IsDecommissioned)
    else if a.value.parent.Id? then Stop(IsComponent)
    else if a.value.ownerId == owner.value then Stop(SameOwner)
    else Pass(TransferTx(a.value.assetId, a.value.nftId, owner.value, owner.value), id,
              a.value.(ownerId := owner.value, custodianId := owner.value))
  }

  predicate AllowedTransition(current: AssetStatus, next: AssetStatus) {
    match current
    case Active => next != Active
    case InMaintenance => next != InMaintenance
    case Decommissioned => false
  }

  function GuardChangeState(st: Store, id: string, newState: Option<AssetStatus>): Guarded {
    var a := Look(st, id);
    if newState.None? then Stop(NoSuchState)
    else if a.None? then Stop(NoAsset)
    else if !AllowedTransition(a.value.status, newState.value) then Stop(BadTransition)
    else Pass(StateChange(a.value.assetId, a.value.nftId, a.value.status, newState.value), id,
              a.value.(status := newState.value))
  }

  function CycleRefusal(w: Walk): Option<Refusal> {
    match w
    case Clear => None
    case Closes => Some(WouldCycle)
    case Cyclic => Some(HierarchyCyclic)
  }

  function GuardAttach(st: Store, parentId: string, componentId: string): Guarded {
    var parent := Look(st, parentId);
    var component := Look(st, componentId);
    if parent.None? || component.None? then Stop(UnknownAsset)
    else if parentId == componentId then Stop(SelfAttach)
    else if parent.value.status == Decommissioned || component.value.status == Decommissioned then Stop(IsDecommissioned)
    else if component.value.parent.Id? then Stop(IsComponent)
    else
      var cycle := CycleRefusal(WalkFrom(ParentsOf(st), parentId, componentId, {}));
      if cycle.Some? then Stop(cycle.value)
      else Pass(Attach(parentId, parent.value.nftId, componentId, component.value.nftId), componentId,
                component.value.(parent := Id(parentId)))
  }

  function GuardRemove(st: Store, parentId: string, componentId: string): Guarded {
    var parent := Look(st, parentId);
    var component := Look(st, componentId);
    if parent.None? || component.None? then Stop(UnknownAsset)
    else if component.value.parent != Id(parentId) then Stop(NotAttached)
    else Pass(Remove(parentId, parent.value.nftId, componentId, component.value.nftId), componentId,
              component.value.(parent := Null))
  }

  datatype Call =
    | Create(input: NewAsset, freshId: string)
    | Transfer(id: string, newOwner: Arg, newCustodian: Arg)
    | ChangeState(id: string, newState: Option<AssetStatus>)
    | AttachComponent(parentId: string, componentId: string)
    | RemoveComponent(parentId: string, componentId: string)

  function Guard(st: Store, d: Directory, c: Call): Guarded {
    match c
    case Create(input, freshId) => GuardCreate(st, d, input, freshId)
    case Transfer(id, owner, custodian) => GuardTransfer(st, d, id, owner, custodian)
    case ChangeState(id, s) => GuardChangeState(st, id, s)
    case AttachComponent(p, c) => GuardAttach(st, p, c)
    case RemoveComponent(p, c) => GuardRemove(st, p, c)
  }

  // ---------------------------------------------------------------------- writing

  datatype Actor = Actor(identityId: Arg, walletAddress: Arg, signature: Option<string>)

  /** The envelope check: an actor, and in EVM mode a device signature. */
  function EnvelopeFault(evm: bool, actor: Actor): Option<Refusal> {
    var signature := if actor.signature.Some? then Trim(actor.signature.value) else "";
    if Required(actor.identityId).None? || Required(actor.walletAddress).None? then Some(NoActor)
    else if evm && (signature == "" || signature == "development") then Some(NoSignature)
    else None
  }

  /** What becomes of a submission: the adapter's answer, and the ledger found afterwards.
      A submission that throws may have taken effect all the same. */
  datatype Answer = Success(nftId: string) | Rejected | Threw
  datatype Reply = Reply(answer: Answer, after: Rows)

  /** What a write makes of the answer: the chain's own record, or failing that the token
      id it was given, or an error that leaves the repository alone. */
  function Concluded(id: string, fallback: Asset, reply: Reply): Outcome {
    match reply.answer
    case Rejected => Err(ChainRejected)
    case Threw => Err(ChainFailed)
    case Success(nftId) =>
      if id in reply.after then Ok(Merge(reply.after[id], Some(fallback)))
      else if nftId != "" then Ok(fallback.(nftId := nftId))
      else Err(NotQueryable)
  }

  function Settle(st: Store, id: string, outcome: Outcome, after: Rows): Store {
    Store(if outcome.Ok? then st.repo[outcome.asset.assetId := outcome.asset] else st.repo, after)
  }

  function Write(st: Store, evm: bool, actor: Actor, g: Guarded, reply: Reply): (Store, Outcome) {
    if g.Stop? then (st, Err(g.refusal))
    else if EnvelopeFault(evm, actor).Some? then (st, Err(EnvelopeFault(evm, actor).value))
    else
      var outcome := Concluded(g.id, g.fallback, reply);
      (Settle(st, g.id, outcome, reply.after), outcome)
  }

  function Perform(st: Store, d: Directory, evm: bool, actor: Actor, c: Call, reply: Reply): (Store, Outcome) {
    Write(st, evm, actor, Guard(st, d, c), reply)
  }

  /** Every record sits under its own id. */
  ghost predicate Keyed(rows: Rows) {
    forall id :: id in rows ==> rows[id].assetId == id
  }

  // ---------------------------------------------------------------- device signing

  datatype Preparation =
    | PrepareTransfer(assetId: Arg, newOwner: Arg, newCustodian: Arg)
    | PrepareState(assetId: Arg, newState: Option<AssetStatus>)
    | PrepareAttach(parentId: Arg, componentId: Arg)
    | PrepareRemove(parentId: Arg, componentId: Arg)

  datatype Prepared = Payload(tx: Tx) | NotPrepared(refusal: Refusal)

  /** prepare, guard by guard. */
  function Prepare(st: Store, d: Directory, p: Preparation): Prepared {
    match p
    case PrepareTransfer(assetId, newOwner, newCustodian) =>
      var id := Required(assetId);
      if id.None? then NotPrepared(Missing)
      else
        var a := Look(st, id.value);
        var owner := Required(newOwner);
        var custodian := if newCustodian == Absent then owner else Required(newCustodian);
        if a.None? then NotPrepared(NoAsset)
        else if owner.None? then NotPrepared(Missing)
        else if !Known(d, owner.value) then NotPrepared(NoIdentity)
        else if custodian.None? then NotPrepared(Missing)
        else if custodian != owner then NotPrepared(CustodianDiffers)
        else if a.value.status == Decommissioned then NotPrepared(IsDecommissioned)
        else if a.value.parent.Id? then NotPrepared(IsComponent)
        else if a.value.ownerId == owner.value then NotPrepared(SameOwner)
        else Payload(TransferTx(a.value.assetId, a.value.nftId, owner.value, custodian.value))
    case PrepareState(assetId, newState) =>
      var id := Required(assetId);
      if id.None? then NotPrepared(Missing)
      else if newState.None? then NotPrepared(NoSuchState)
      else
        var a := Look(st, id.value);
        if a.None? then NotPrepared(NoAsset)
        else if !AllowedTransition(a.value.status, newState.value) then NotPrepared(BadTransition)
        else Payload(StateChange(a.value.assetId, a.value.nftId, a.value.status, newState.value))
    case PrepareAttach(parentId, componentId) =>
      var parent, component := Required(parentId), Required(componentId);
      if parent.None? || component.None? then NotPrepared(Missing)
      else
        var p, c := Look(st, parent.value), Look(st, component.value);
        if p.None? || c.None? then NotPrepared(UnknownAsset)
        else if parent == component then NotPrepared(SelfAttach)
        else if p.value.status == Decommissioned || c.value.status == Decommissioned then NotPrepared(IsDecommissioned)
        else if c.value.parent.Id? then NotPrepared(IsComponent)
        else
          var cycle := CycleRefusal(WalkFrom(ParentsOf(st), parent.value, component.value, {}));
          if cycle.Some? then NotPrepared(cycle.value)
          else Payload(Attach(parent.value, p.value.nftId, component.value, c.value.nftId))
    case PrepareRemove(parentId, componentId) =>
      var parent, component := Required(parentId), Required(componentId);
      if parent.None? || component.None? then NotPrepared(Missing)
      else
        var p, c := Look(st, parent.value), Look(st, component.value);
        if p.None? || c.None? then NotPrepared(UnknownAsset)
        else if c.value.parent != Id(parent.value) then NotPrepared(NotAttached)
        else Payload(Remove(parent.value, p.value.nftId, component.value, c.value.nftId))
  }

  /** The mutation a preparation announces, on the ids as given. */
  function Announced(p: Preparation): Option<Call> {
    match p
    case PrepareTransfer(id, o, c) => if id.Text? then Some(Transfer(id.text, o, c)) else None
    case PrepareState(id, s) => if id.Text? then Some(ChangeState(id.text, s)) else None
    case PrepareAttach(p, c) => if p.Text? && c.Text? then Some(AttachComponent(p.text, c.text)) else None
    case PrepareRemove(p, c) => if p.Text? && c.Text? then Some(RemoveComponent(p.text, c.text)) else None
  }

  predicate CanonicalTargets(c: Call) {
    match c
    case Create(_, _) => true
    case Transfer(id, _, _) => Canonical(id)
    case ChangeState(id, _) => Canonical(id)
    case AttachComponent(p, c) => Canonical(p) && Canonical(c)
    case RemoveComponent(p, c) => Canonical(p) && Canonical(c)
  }

  function PayloadOf(g: Guarded): Prepared {
    match g
    case Stop(e) => NotPrepared(e)
    case Pass(tx, _, _) => Payload(tx)
  }

  /** On trimmed, non-empty ids a preparation stops where its mutation stops, with the same
      error, and otherwise carries the very payload the mutation submits. */
  lemma PrepareAgrees(st: Store, d: Directory, p: Preparation)
    requires Announced(p).Some? && CanonicalTargets(Announced(p).value)
    ensures Prepare(st, d, p) == PayloadOf(Guard(st, d, Announced(p).value))
  {
    hide Look, WalkFrom, ParentsOf, TrimStart, TrimEnd;
  }

  /** The ids a preparation names, and the mutation it announces on them once trimmed. */
  function Named(p: Preparation): seq<Arg> {
    match p
    case PrepareTransfer(id, _, _) => [id]
    case PrepareState(id, _) => [id]
    case PrepareAttach(p, c) => [p, c]
    case PrepareRemove(p, c) => [p, c]
  }

  function Trimmed(p: Preparation): Call
    requires forall i :: 0 <= i < |Named(p)| ==> Named(p)[i].Text?
  {
    match p
    case PrepareTransfer(id, o, c) => Transfer(Trim(Named(p)[0].text), o, c)
    case PrepareState(id, s) => ChangeState(Trim(Named(p)[0].text), s)
    case PrepareAttach(_, _) => AttachComponent(Trim(Named(p)[0].text), Trim(Named(p)[1].text))
    case PrepareRemove(_, _) => RemoveComponent(Trim(Named(p)[0].text), Trim(Named(p)[1].text))
  }

  /** On other ids they part: a preparation refuses an id that is missing or blank, and
      trims the rest, so it stands for the mutation on the trimmed ids. */
  lemma PrepareTrims(st: Store, d: Directory, p: Preparation)
    ensures Prepare(st, d, p) ==
              if exists i :: 0 <= i < |Named(p)| && Required(Named(p)[i]).None? then NotPrepared(Missing)
              else PayloadOf(Guard(st, d, Trimmed(p)))
  {
    hide Look, WalkFrom, ParentsOf, TrimStart, TrimEnd;
  }

  // ------------------------------------------------------- what writes do to the rows

  /** A refused, rejected, failed or unreconciled write never changes the repository; a
      successful one stores exactly the record it returns. */
  lemma OnlySuccessStores(st: Store, d: Directory, evm: bool, actor: Actor, c: Call, reply: Reply)
    requires Keyed(st.ledger) && Keyed(st.repo) && Keyed(reply.after)
    ensures var (st', r) := Perform(st, d, evm, actor, c, reply);
            && (r.Err? ==> st'.repo == st.repo)
            && (r.Ok? ==> Guard(st, d, c).Pass? && r.asset.assetId == Guard(st, d, c).id
                          && st'.repo == st.repo[r.asset.assetId := r.asset] && reply.answer.Success?)
            && Keyed(st'.repo)
  {
    GuardTargets(st, d, c);
    hide Guard;
  }

  lemma GuardTargets(st: Store, d: Directory, c: Call)
    requires Keyed(st.ledger) && Keyed(st.repo)
    ensures Guard(st, d, c).Pass? ==> Guard(st, d, c).fallback.assetId == Guard(st, d, c).id
  {
    hide WalkFrom, ParentsOf, Trim;
  }

  /** Every value the chain reports about an asset, as the chain has it. */
  predicate AsOnChain(a: Asset, row: Asset) {
    && a.nftId == row.nftId && a.ownerId == row.ownerId && a.custodianId == row.custodianId && a.status == row.status
    && (row.parent != Undefined ==> a.parent == row.parent) && (row.assetType != "" ==> a.assetType == row.assetType)
  }

  /** Chain values win: in what a write returns and stores, and in what any later read
      finds, whatever happened on the chain in between. */
  lemma ChainWins(st: Store, d: Directory, evm: bool, actor: Actor, c: Call, reply: Reply, later: Rows)
    requires Keyed(st.ledger) && Keyed(st.repo) && Keyed(reply.after)
    ensures var (st', r) := Perform(st, d, evm, actor, c, reply);
            && (r.Ok? && r.asset.assetId in reply.after ==>
                  AsOnChain(r.asset, reply.after[r.asset.assetId]) && Look(st', r.asset.assetId) == Some(r.asset))
            && forall id :: id in later ==> Look(st'.(ledger := later), id).Some?
                                            && AsOnChain(Look(st'.(ledger := later), id).value, later[id])
  {
    OnlySuccessStores(st, d, evm, actor, c, reply);
    hide Guard;
  }

  /** A reader sees an asset when either side has it: the chain's alone with no parent where
      the chain is silent, the repository's alone as it is, and of both the chain's values,
      with the repository's id, type and parent where the chain is silent. */
  lemma LookExactly(st: Store, id: string)
    ensures var seen := Look(st, id);
      && (seen.None? <==> id !in st.ledger && id !in st.repo)
      && (id !in st.ledger && id in st.repo ==> seen == Some(st.repo[id]))
      && (id in st.ledger ==>
            && seen.Some? && AsOnChain(seen.value, st.ledger[id])
            && (st.ledger[id].assetId != "" || id !in st.repo ==> seen.value.assetId == st.ledger[id].assetId)
            && (id !in st.repo ==> seen.value.assetType == st.ledger[id].assetType)
            && (id !in st.repo && st.ledger[id].parent == Undefined ==> seen.value.parent == Null))
      && (id in st.ledger && id in st.repo ==>
            && (st.ledger[id].assetId == "" ==> seen.value.assetId == st.repo[id].assetId)
            && (st.ledger[id].assetType == "" ==> seen.value.assetType == st.repo[id].assetType)
            && (st.ledger[id].parent == Undefined ==> seen.value.parent == if st.repo[id].parent == Undefined then Null else st.repo[id].parent))
  {
  }

  /** With a chain that stores no asset types, the type an asset was created with stays
      with it through every later write, whoever makes it and however it ends. */
  lemma TypeSurvives(st: Store, d: Directory, evm: bool, actor: Actor, c: Call, reply: Reply, id: string)
    requires Keyed(st.ledger) && Keyed(st.repo) && Keyed(reply.after)
    requires (forall k :: k in st.ledger ==> st.ledger[k].assetType == "") && forall k :: k in reply.after ==> reply.after[k].assetType == ""
    ensures var (st', r) := Perform(st, d, evm, actor, c, reply);
            && (id in st.repo ==> id in st'.repo && st'.repo[id].assetType == st.repo[id].assetType)
            && (c.Create? && r.Ok? ==> st'.repo[r.asset.assetId].assetType == Trim(c.input.assetType.text))
  {
    OnlySuccessStores(st, d, evm, actor, c, reply);
    hide Trim, WalkFrom, ParentsOf;
  }

  // ------------------------------------------------- when a call is let through, and how it ends

  predicate Present(a: Arg) {
    a.Text? && Trim(a.text) != ""
  }

  predicate KnownTo(d: Directory, id: string) {
    d.None? || d.value(id)
  }

  /** What each call asks of the assets as a reader sees them, and what it then submits. (For
      attaching, AttachExactly says when.) */
  lemma PassesExactly(st: Store, d: Directory, c: Call)
    ensures var g := Guard(st, d, c);
      match c
      case Create(input, freshId) =>
        var id := if input.assetId.Some? && Trim(input.assetId.value) != "" then Trim(input.assetId.value) else freshId;
        && (g.Pass? <==>
              && Present(input.assetType) && Present(input.ownerId) && Present(input.custodianId)
              && Trim(input.custodianId.text) == Trim(input.ownerId.text) && KnownTo(d, Trim(input.ownerId.text))
              && Look(st, id).None? && (input.parent.Id? ==> Look(st, input.parent.id).Some?))
        && (g.Pass? ==> g.id == id && g.tx == Mint(id, Trim(input.assetType.text), Trim(input.ownerId.text), Trim(input.ownerId.text),
                                                  if input.parent.Id? then Some(input.parent.id) else None))
      case Transfer(id, owner, custodian) =>
        && (g.Pass? <==>
              && Look(st, id).Some? && Look(st, id).value.status != Decommissioned && !Look(st, id).value.parent.Id?
              && Present(owner) && KnownTo(d, Trim(owner.text)) && Look(st, id).value.ownerId != Trim(owner.text)
              && (custodian == Absent || (Present(custodian) && Trim(custodian.text) == Trim(owner.text))))
        && (g.Pass? ==> g.id == id && g.tx == TransferTx(Look(st, id).value.assetId, Look(st, id).value.nftId, Trim(owner.text), Trim(owner.text)))
      case ChangeState(id, s) =>
        && (g.Pass? <==>
              && s.Some? && Look(st, id).Some?
              && (Look(st, id).value.status, s.value) in {(Active, InMaintenance), (Active, Decommissioned), (InMaintenance, Active), (InMaintenance, Decommissioned)})
        && (g.Pass? ==> g.id == id && g.tx == StateChange(Look(st, id).value.assetId, Look(st, id).value.nftId, Look(st, id).value.status, s.value))
      case AttachComponent(p, x) =>
        g.Pass? ==> g.id == x && Look(st, p).Some? && Look(st, x).Some? && g.tx == Attach(p, Look(st, p).value.nftId, x, Look(st, x).value.nftId)
      case RemoveComponent(p, x) =>
        && (g.Pass? <==> Look(st, p).Some? && Look(st, x).Some? && Look(st, x).value.parent == Id(p))
        && (g.Pass? ==> g.id == x && g.tx == Remove(p, Look(st, p).value.nftId, x, Look(st, x).value.nftId))
  {
    hide Look, WalkFrom, ParentsOf, TrimStart, TrimEnd;
  }

  /** What a call falls back on where the chain is silent: the asset as it was, with the
      change it announces, or a new one, active, without a token. */
  lemma FallsBackOn(st: Store, d: Directory, c: Call)
    requires Guard(st, d, c).Pass?
    ensures var g := Guard(st, d, c);
      g.fallback == match c
        case Create(input, _) =>
          Asset(g.id, "", Trim(input.assetType.text), Trim(input.ownerId.text), Trim(input.ownerId.text),
                if input.parent.Id? then input.parent else Null, Active)
        case _ => Intended(Look(st, g.id).value, c)
  {
    hide Look, WalkFrom, ParentsOf, TrimStart, TrimEnd;
  }

  /** What a call that is not let through is told, in this order. */
  function Complaint(st: Store, d: Directory, c: Call): Refusal {
    match c
    case Create(input, freshId) =>
      var id := if input.assetId.Some? && Trim(input.assetId.value) != "" then Trim(input.assetId.value) else freshId;
      if !Present(input.assetType) || !Present(input.ownerId) || !Present(input.custodianId) then Missing
      else if !KnownTo(d, Trim(input.ownerId.text)) || !KnownTo(d, Trim(input.custodianId.text)) then NoIdentity
      else if Trim(input.custodianId.text) != Trim(input.ownerId.text) then CustodianDiffers
      else if Look(st, id).Some? then Exists else UnknownAsset
    case Transfer(id, owner, custodian) =>
      if Look(st, id).None? then NoAsset
      else if !Present(owner) then Missing
      else if !KnownTo(d, Trim(owner.text)) then NoIdentity
      else if custodian != Absent && !Present(custodian) then Missing
      else if custodian != Absent && Trim(custodian.text) != Trim(owner.text) then CustodianDiffers
      else if Look(st, id).value.status == Decommissioned then IsDecommissioned
      else if Look(st, id).value.parent.Id? then IsComponent else SameOwner
    case ChangeState(id, s) => if s.None? then NoSuchState else if Look(st, id).None? then NoAsset else BadTransition
    case AttachComponent(p, x) =>
      if Look(st, p).None? || Look(st, x).None? then UnknownAsset
      else if p == x then SelfAttach
      else if Look(st, p).value.status == Decommissioned || Look(st, x).value.status == Decommissioned then IsDecommissioned
      else if Look(st, x).value.parent.Id? then IsComponent
      else if WalkFrom(ParentsOf(st), p, x, {}) == Closes then WouldCycle else HierarchyCyclic
    case RemoveComponent(p, x) => if Look(st, p).None? || Look(st, x).None? then UnknownAsset else NotAttached
  }

  lemma RefusesFor(st: Store, d: Directory, c: Call)
    ensures Guard(st, d, c).Stop? ==> Guard(st, d, c).refusal == Complaint(st, d, c)
  {
    hide Look, WalkFrom, ParentsOf, TrimStart, TrimEnd;
  }

  /** Past its guards a call succeeds exactly when it is signed for, in EVM mode by a device,
      the chain says so, and the asset can then be read there or was given a token. */
  lemma AnsweredExactly(st: Store, d: Directory, evm: bool, actor: Actor, c: Call, reply: Reply)
    requires Guard(st, d, c).Pass?
    ensures var (st', r) := Perform(st, d, evm, actor, c, reply); var g := Guard(st, d, c);
      var signed := actor.signature.Some? && Trim(actor.signature.value) !in {"", "development"};
      var sent := Present(actor.identityId) && Present(actor.walletAddress) && (evm ==> signed);
      && (r.Ok? <==> sent && reply.answer.Success? && (g.id in reply.after || reply.answer.nftId != ""))
      && (r.Ok? && g.id !in reply.after ==> r.asset == g.fallback.(nftId := reply.answer.nftId))
      && st'.ledger == (if sent then reply.after else st.ledger)
      && (r.Err? && !sent ==> r.refusal in {NoActor, NoSignature} && (r.refusal == NoSignature <==> Present(actor.identityId) && Present(actor.walletAddress)))
      && (r.Err? && sent ==> r.refusal == match reply.answer case Rejected => ChainRejected case Threw => ChainFailed case Success(_) => NotQueryable)
  {
    hide Guard, TrimStart, TrimEnd, Merge;
  }

  // -------------------------------------------------------------- the in-memory ledger

  function Given(s: string, otherwise: string): string {
    if s != "" then s else otherwise
  }

  /** How the in-memory chain replays a transaction, accepting everything it can place. */
  function Record(ledger: Rows, tx: Tx, sender: string, nft: string): Rows {
    match tx
    case Mint(id, assetType, owner, custodian, under) =>
      if id == "" || id in ledger then ledger
      else
        var o := Given(owner, sender);
        ledger[id := Asset(id, nft, assetType, o, Given(custodian, o),
                           if under.Some? && under.value != "" then Id(under.value) else Null, Active)]
    case TransferTx(id, _, owner, custodian) =>
      if id != "" && id in ledger && owner != "" then ledger[id := ledger[id].(ownerId := owner, custodianId := Given(custodian, owner))]
      else ledger
    case StateChange(id, _, _, next) =>
      if id != "" && id in ledger then ledger[id := ledger[id].(status := next)] else ledger
    case Attach(parentId, _, id, _) =>
      if id in ledger then ledger[id := ledger[id].(parent := if parentId != "" then Id(parentId) else Null)] else ledger
    case Remove(_, _, id, _) =>
      if id in ledger then ledger[id := ledger[id].(parent := Null)] else ledger
  }

  /** Whatever transactions come, no replay drops an asset, mints one again or under no id, or
      changes its token or type; only a transfer that names an owner moves owner and
      custodian, only a state change the status, only attaching and removing the parent. */
  lemma RecordKeepsAssets(ledger: Rows, tx: Tx, sender: string, nft: string, id: string)
    ensures var after := Record(ledger, tx, sender, nft);
      && (id in ledger ==>
            && id in after && after[id].assetId == ledger[id].assetId && after[id].nftId == ledger[id].nftId
            && after[id].assetType == ledger[id].assetType
            && (after[id].ownerId != ledger[id].ownerId || after[id].custodianId != ledger[id].custodianId ==>
                  tx.TransferTx? && tx.assetId == id && after[id].ownerId == tx.newOwnerId != ""
                  && after[id].custodianId == if tx.newCustodianId != "" then tx.newCustodianId else tx.newOwnerId)
            && (after[id].status != ledger[id].status ==> tx.StateChange? && tx.assetId == id && after[id].status == tx.next)
            && (after[id].parent != ledger[id].parent ==>
                  || (tx.Remove? && tx.componentId == id && after[id].parent == Null)
                  || (tx.Attach? && tx.componentId == id && after[id].parent == if tx.parentId != "" then Id(tx.parentId) else Null)))
      && (id in after && id !in ledger ==>
            && id != "" && tx.Mint? && tx.assetId == id && after[id].assetId == id && after[id].nftId == nft
            && after[id].assetType == tx.assetType && after[id].status == Active
            && after[id].ownerId == (if tx.ownerId != "" then tx.ownerId else sender)
            && after[id].custodianId == (if tx.custodianId != "" then tx.custodianId else after[id].ownerId)
            && after[id].parent == if tx.under.Some? && tx.under.value != "" then Id(tx.under.value) else Null)
  {
  }

  /** The answer and the ledger fit each other: a success was replayed, a rejection was not,
      a lost answer leaves it open. */
  predicate Honest(ledger: Rows, tx: Tx, sender: string, nft: string, reply: Reply) {
    match reply.answer
    case Success(_) => reply.after == Record(ledger, tx, sender, nft)
    case Rejected => reply.after == ledger
    case Threw => reply.after == ledger || reply.after == Record(ledger, tx, sender, nft)
  }

  function LedgerParents(ledger: Rows): Parents {
    map id | id in ledger && NamedParent(ledger[id]).Some? :: NamedParent(ledger[id]).value
  }

  /** Parents exist, the relation is a forest, and owner and custodian are one. */
  ghost predicate LedgerSound(ledger: Rows) {
    && Keyed(ledger) && "" !in ledger
    && (forall id :: id in ledger ==> ledger[id].parent != Undefined && ledger[id].ownerId == ledger[id].custodianId)
    && (forall id :: id in ledger && ledger[id].parent.Id? ==> ledger[id].parent.id in ledger)
    && Acyclic(LedgerParents(ledger))
  }

  ghost predicate Sound(st: Store) {
    LedgerSound(st.ledger) && Keyed(st.repo) && forall id :: id in st.repo ==> id in st.ledger
  }

  lemma SoundLook(st: Store)
    requires Sound(st)
    ensures ParentsOf(st) == LedgerParents(st.ledger)
    ensures forall id :: Look(st, id).Some? <==> id in st.ledger
    ensures forall id :: id in st.ledger ==> Look(st, id).value == st.ledger[id].(assetType := Look(st, id).value.assetType)
  {
    SoundBasics(st);
    hide LedgerSound;
    forall id ensures Look(st, id) == if id in st.ledger then Some(Merge(st.ledger[id], Find(st.repo, id))) else None {}
    forall id | id in st.ledger ensures Merge(st.ledger[id], Find(st.repo, id)) ==
      st.ledger[id].(assetType := Merge(st.ledger[id], Find(st.repo, id)).assetType)
    {
      assert st.ledger[id].assetId == id && st.ledger[id].parent != Undefined;
    }
    hide Merge;
    forall id ensures ParentOf(st, id) == if id in st.ledger then NamedParent(st.ledger[id]) else None {}
  }

  /** What soundness says of a row on its own. */
  lemma SoundBasics(st: Store)
    requires Sound(st)
    ensures LedgerSound(st.ledger) && "" !in st.ledger && Keyed(st.ledger) && Keyed(st.repo)
    ensures forall id :: id in st.ledger ==> st.ledger[id].parent != Undefined
    ensures forall id :: id in st.ledger && st.ledger[id].parent.Id? ==> st.ledger[id].parent.id in st.ledger
  {
  }

  /** Attaching is allowed exactly for existing, usable assets when the component is a root
      and the new edge leaves the hierarchy a forest: no other edge is refused. */
  lemma AttachExactly(st: Store, parentId: string, componentId: string)
    requires Sound(st)
    ensures GuardAttach(st, parentId, componentId).Pass? <==>
              && parentId in st.ledger && componentId in st.ledger
              && st.ledger[parentId].status != Decommissioned && st.ledger[componentId].status != Decommissioned
              && st.ledger[componentId].parent == Null
              && Acyclic(ParentsOf(st)[componentId := parentId])
  {
    SoundLook(st);
    var p := ParentsOf(st);
    WalkOnForest(p, parentId, componentId);
    if componentId !in p { EdgeKeepsForest(p, componentId, parentId); }
  }

  lemma MintKeeps(ledger: Rows, tx: Tx, sender: string, nft: string)
    requires LedgerSound(ledger) && tx.Mint? && tx.ownerId != "" && tx.ownerId == tx.custodianId
    requires tx.assetId != "" && tx.assetId !in ledger && (tx.under.Some? ==> tx.under.value in ledger)
    ensures LedgerSound(Record(ledger, tx, sender, nft))
  {
    var ledger' := Record(ledger, tx, sender, nft);
    var p := LedgerParents(ledger);
    if tx.under.Some? {
      assert LedgerParents(ledger') == p[tx.assetId := tx.under.value];
      LeafIsNoAncestor(p, tx.assetId, tx.under.value);
      EdgeKeepsForest(p, tx.assetId, tx.under.value);
    } else {
      assert LedgerParents(ledger') == p;
    }
  }

  lemma EdgeTxKeeps(ledger: Rows, tx: Tx, sender: string, nft: string)
    requires LedgerSound(ledger) && (tx.Attach? || tx.Remove?) && tx.componentId in ledger && tx.parentId in ledger
    requires tx.Attach? ==> ledger[tx.componentId].parent == Null && Acyclic(LedgerParents(ledger)[tx.componentId := tx.parentId])
    ensures LedgerSound(Record(ledger, tx, sender, nft))
  {
    var ledger' := Record(ledger, tx, sender, nft);
    var p := LedgerParents(ledger);
    if tx.Attach? {
      assert LedgerParents(ledger') == p[tx.componentId := tx.parentId];
    } else {
      SubForest(LedgerParents(ledger'), p);
    }
  }

  lemma FieldTxKeeps(ledger: Rows, tx: Tx, sender: string, nft: string)
    requires LedgerSound(ledger) && (tx.TransferTx? || tx.StateChange?)
    requires tx.TransferTx? ==> tx.newOwnerId == tx.newCustodianId
    ensures LedgerSound(Record(ledger, tx, sender, nft))
  {
    hide Acyclic;
    SameParents(ledger, tx, sender, nft);
  }

  lemma SameParents(ledger: Rows, tx: Tx, sender: string, nft: string)
    requires tx.TransferTx? || tx.StateChange?
    ensures LedgerParents(Record(ledger, tx, sender, nft)) == LedgerParents(ledger)
  {
  }

  lemma TxKeeps(st: Store, d: Directory, c: Call, sender: string, nft: string)
    requires Sound(st) && Guard(st, d, c).Pass? && (c.Create? ==> c.freshId != "")
    ensures var ledger' := Record(st.ledger, Guard(st, d, c).tx, sender, nft);
            && LedgerSound(ledger') && Guard(st, d, c).id in ledger'
            && ledger'.Keys == st.ledger.Keys + {Guard(st, d, c).id}
  {
    hide LedgerSound, GuardCreate, GuardAttach, GuardRemove, GuardTransfer, GuardChangeState, Record, Look;
    match c
    case Create(_, _) => CreateKeeps(st, d, c, sender, nft);
    case AttachComponent(_, _) => HierarchyKeeps(st, d, c, sender, nft);
    case RemoveComponent(_, _) => HierarchyKeeps(st, d, c, sender, nft);
    case _ => FieldsKeep(st, d, c, sender, nft);
  }

  lemma CreateKeeps(st: Store, d: Directory, c: Call, sender: string, nft: string)
    requires Sound(st) && Guard(st, d, c).Pass? && c.Create? && c.freshId != ""
    ensures var ledger' := Record(st.ledger, Guard(st, d, c).tx, sender, nft);
            && LedgerSound(ledger') && Guard(st, d, c).id in ledger' && ledger'.Keys == st.ledger.Keys + {Guard(st, d, c).id}
  {
    SoundLook(st);
    hide LedgerSound, Trim, Merge;
    MintKeeps(st.ledger, Guard(st, d, c).tx, sender, nft);
  }

  lemma HierarchyKeeps(st: Store, d: Directory, c: Call, sender: string, nft: string)
    requires Sound(st) && Guard(st, d, c).Pass? && (c.AttachComponent? || c.RemoveComponent?)
    ensures var ledger' := Record(st.ledger, Guard(st, d, c).tx, sender, nft);
            && LedgerSound(ledger') && Guard(st, d, c).id in ledger' && ledger'.Keys == st.ledger.Keys + {Guard(st, d, c).id}
  {
    SoundLook(st);
    SoundBasics(st);
    if c.AttachComponent? { AttachExactly(st, c.parentId, c.componentId); }
    hide Sound, LedgerSound, WalkFrom, Acyclic, Merge, ParentsOf, Keyed, Look;
    EdgeTxKeeps(st.ledger, Guard(st, d, c).tx, sender, nft);
  }

  lemma FieldsKeep(st: Store, d: Directory, c: Call, sender: string, nft: string)
    requires Sound(st) && Guard(st, d, c).Pass? && (c.Transfer? || c.ChangeState?)
    ensures var ledger' := Record(st.ledger, Guard(st, d, c).tx, sender, nft);
            && LedgerSound(ledger') && Guard(st, d, c).id in ledger' && ledger'.Keys == st.ledger.Keys + {Guard(st, d, c).id}
  {
    SoundLook(st);
    SoundBasics(st);
    hide LedgerSound, Trim, Merge;
    FieldTxKeeps(st.ledger, Guard(st, d, c).tx, sender, nft);
  }

  /** The hierarchy stays a forest over existing assets, and owner stays custodian, through
      every call and every fate of its transaction, a lost answer included. */
  lemma ForestKept(st: Store, d: Directory, evm: bool, actor: Actor, c: Call, reply: Reply, sender: string, nft: string)
    requires Sound(st) && (c.Create? ==> c.freshId != "")
    requires Guard(st, d, c).Pass? ==> Honest(st.ledger, Guard(st, d, c).tx, sender, nft, reply)
    ensures Sound(Perform(st, d, evm, actor, c, reply).0)
  {
    hide Guard, LedgerSound, Record;
    if Guard(st, d, c).Pass? {
      TxKeeps(st, d, c, sender, nft);
      GuardTargets(st, d, c) by { SoundBasics(st); }
      KeyedSound(reply.after);
    }
  }

  lemma KeyedSound(ledger: Rows)
    requires LedgerSound(ledger)
    ensures Keyed(ledger)
  {
  }

  // ------------------------------------------------- what the calls mean to a reader

  /** The change each mutation announces, on the asset as it was. */
  function Intended(a: Asset, c: Call): Asset {
    match c
    case Transfer(_, owner, _) => if owner.Text? then a.(ownerId := Trim(owner.text), custodianId := Trim(owner.text)) else a
    case ChangeState(_, s) => if s.Some? then a.(status := s.value) else a
    case AttachComponent(p, _) => a.(parent := Id(p))
    case RemoveComponent(_, _) => a.(parent := Null)
    case Create(_, _) => a
  }

  /** The record a successful call returns: a new asset as described, or the old one with
      the announced change. */
  predicate AsAnnounced(st: Store, c: Call, r: Asset, nft: string) {
    if c.Create? then
      && Look(st, r.assetId).None? && r.nftId == nft && r.status == Active
      && Required(c.input.assetType) == Some(r.assetType) && Required(c.input.ownerId) == Some(r.ownerId)
      && r.parent == (if c.input.parent.Id? then c.input.parent else Null)
    else Look(st, r.assetId).Some? && r == Intended(Look(st, r.assetId).value, c)
  }

  /** A successful call over the in-memory chain changes what it announces, on the asset it
      is about, and nothing a reader can see of any other asset. */
  lemma ServedAsIntended(st: Store, d: Directory, evm: bool, actor: Actor, c: Call, reply: Reply, sender: string, nft: string)
    requires Sound(st) && (c.Create? ==> c.freshId != "") && Guard(st, d, c).Pass?
    requires Honest(st.ledger, Guard(st, d, c).tx, sender, nft, reply)
    ensures var (st', r) := Perform(st, d, evm, actor, c, reply);
            r.Ok? ==>
              && (forall id :: id != r.asset.assetId ==> Look(st', id) == Look(st, id))
              && Look(st', r.asset.assetId) == Some(r.asset) && AsAnnounced(st, c, r.asset, nft)
  {
    hide Sound, Guard, Record, AsAnnounced;
    SoundBasics(st);
    GuardTargets(st, d, c);
    RecordTouchesOne(st.ledger, Guard(st, d, c).tx, sender, nft);
    TargetOf(st, d, c);
    WrittenRow(st, d, c, sender, nft);
  }

  /** The asset a transaction is about. */
  function Target(tx: Tx): string {
    match tx
    case Attach(_, _, id, _) => id
    case Remove(_, _, id, _) => id
    case _ => tx.assetId
  }

  /** Replaying a transaction touches no other row. */
  lemma RecordTouchesOne(ledger: Rows, tx: Tx, sender: string, nft: string)
    ensures var after := Record(ledger, tx, sender, nft);
            forall id :: id != Target(tx) ==> (id in after <==> id in ledger) && (id in after ==> after[id] == ledger[id])
  {
  }

  lemma TargetOf(st: Store, d: Directory, c: Call)
    requires Guard(st, d, c).Pass? && Keyed(st.ledger) && Keyed(st.repo)
    ensures Target(Guard(st, d, c).tx) == Guard(st, d, c).id
    ensures !c.Create? ==> Look(st, Guard(st, d, c).id).Some?
  {
    hide WalkFrom, Trim, ParentsOf;
  }

  /** The row a passing call writes, merged with its fallback. */
  ghost predicate WritesRow(st: Store, d: Directory, c: Call, sender: string, nft: string)
    requires Guard(st, d, c).Pass?
  {
    var g := Guard(st, d, c);
    var after := Record(st.ledger, g.tx, sender, nft);
    && g.id in after && after[g.id].assetId == g.id && Merge(after[g.id], Some(g.fallback)).parent != Undefined
    && AsAnnounced(st, c, Merge(after[g.id], Some(g.fallback)), nft)
  }

  lemma WrittenRow(st: Store, d: Directory, c: Call, sender: string, nft: string)
    requires Sound(st) && Guard(st, d, c).Pass? && (c.Create? ==> c.freshId != "")
    ensures WritesRow(st, d, c, sender, nft)
  {
    hide Sound, GuardCreate, GuardAttach, GuardRemove, GuardTransfer, GuardChangeState, Record, Look, AsAnnounced, Merge;
    match c
    case Create(_, _) => CreatesRow(st, d, c, sender, nft);
    case AttachComponent(_, _) => AttachesRow(st, d, c, sender, nft);
    case RemoveComponent(_, _) => DetachesRow(st, d, c, sender, nft);
    case _ => ChangesRow(st, d, c, sender, nft);
  }

  lemma CreatesRow(st: Store, d: Directory, c: Call, sender: string, nft: string)
    requires Sound(st) && Guard(st, d, c).Pass? && c.Create? && c.freshId != ""
    ensures WritesRow(st, d, c, sender, nft)
  {
    SoundLook(st);
    SoundBasics(st);
    hide Sound, TrimStart, TrimEnd, Intended;
  }

  lemma AttachesRow(st: Store, d: Directory, c: Call, sender: string, nft: string)
    requires Sound(st) && Guard(st, d, c).Pass? && c.AttachComponent?
    ensures WritesRow(st, d, c, sender, nft)
  {
    SoundLook(st);
    SoundBasics(st);
    hide Sound, LedgerSound, WalkFrom, ParentsOf, GuardRemove;
  }

  lemma DetachesRow(st: Store, d: Directory, c: Call, sender: string, nft: string)
    requires Sound(st) && Guard(st, d, c).Pass? && c.RemoveComponent?
    ensures WritesRow(st, d, c, sender, nft)
  {
    SoundLook(st);
    SoundBasics(st);
    hide Sound, LedgerSound, WalkFrom, ParentsOf, GuardAttach;
  }

  lemma ChangesRow(st: Store, d: Directory, c: Call, sender: string, nft: string)
    requires Sound(st) && Guard(st, d, c).Pass? && (c.Transfer? || c.ChangeState?)
    ensures WritesRow(st, d, c, sender, nft)
  {
    SoundLook(st);
    SoundBasics(st);
    hide Sound, LedgerSound, TrimStart, TrimEnd;
  }

  // ------------------------------------------------------------------------- runs

  datatype Fate = Processed | TurnedAway | AnswerLost
  datatype Request = Request(call: Call, actor: Actor, sender: string, nft: string, fate: Fate)
  datatype Accepted = Accepted(tx: Tx, sender: string, nft: string)

  function ReplyTo(ledger: Rows, tx: Tx, q: Request): Reply {
    match q.fate
    case Processed => Reply(Success(""), Record(ledger, tx, q.sender, q.nft))
    case TurnedAway => Reply(Rejected, ledger)
    case AnswerLost => Reply(Threw, Record(ledger, tx, q.sender, q.nft))
  }

  /** One request against the in-memory chain, with the transaction it got accepted. */
  function Serve(st: Store, d: Directory, evm: bool, q: Request): (Store, seq<Accepted>) {
    var g := Guard(st, d, q.call);
    if g.Stop? || EnvelopeFault(evm, q.actor).Some? then (st, [])
    else (Write(st, evm, q.actor, g, ReplyTo(st.ledger, g.tx, q)).0,
          if q.fate == TurnedAway then [] else [Accepted(g.tx, q.sender, q.nft)])
  }

  /** A decommissioned asset stays decommissioned, with its owner, its type and its token;
      all that can still happen to it is being detached from its parent. */
  lemma DecommissionedStays(st: Store, d: Directory, evm: bool, q: Request, id: string)
    requires Sound(st) && id in st.ledger && st.ledger[id].status == Decommissioned
    ensures var st' := Serve(st, d, evm, q).0;
            id in st'.ledger && (st'.ledger[id] == st.ledger[id] || st'.ledger[id] == st.ledger[id].(parent := Null))
  {
    hide Sound, Guard, Record, Look, Serve;
    SoundBasics(st);
    StatusOf(st, id);
    ServeLedger(st, d, evm, q);
    var g := Guard(st, d, q.call);
    if g.Pass? {
      RecordTouchesOne(st.ledger, g.tx, q.sender, q.nft);
      TargetOf(st, d, q.call);
      if g.id == id {
        OnlyDetachable(st, d, q.call);
        DetachedRow(st.ledger, g.tx, q.sender, q.nft);
      }
    }
  }

  lemma StatusOf(st: Store, id: string)
    requires id in st.ledger
    ensures Look(st, id).Some? && Look(st, id).value.status == st.ledger[id].status
  {
  }

  lemma ServeLedger(st: Store, d: Directory, evm: bool, q: Request)
    ensures var g, ledger' := Guard(st, d, q.call), Serve(st, d, evm, q).0.ledger;
            ledger' == st.ledger || (g.Pass? && ledger' == Record(st.ledger, g.tx, q.sender, q.nft))
  {
    hide Guard, Record;
  }

  /** The only call that passes its guards about a decommissioned asset is its removal. */
  lemma OnlyDetachable(st: Store, d: Directory, c: Call)
    requires Guard(st, d, c).Pass? && Look(st, Guard(st, d, c).id).Some?
    requires Look(st, Guard(st, d, c).id).value.status == Decommissioned
    ensures c.RemoveComponent? && Guard(st, d, c).tx.Remove?
  {
    hide Look, WalkFrom, ParentsOf, TrimStart, TrimEnd;
  }

  lemma DetachedRow(ledger: Rows, tx: Tx, sender: string, nft: string)
    requires tx.Remove? && tx.componentId in ledger
    ensures Record(ledger, tx, sender, nft) == ledger[tx.componentId := ledger[tx.componentId].(parent := Null)]
  {
  }

  function ServeAll(st: Store, d: Directory, evm: bool, qs: seq<Request>): (Store, seq<Accepted>)
    decreases |qs|
  {
    if qs == [] then (st, [])
    else
      var n := |qs| - 1;
      var (st1, log) := ServeAll(st, d, evm, qs[..n]);
      var (st2, more) := Serve(st1, d, evm, qs[n]);
      (st2, log + more)
  }

  function Replay(log: seq<Accepted>): Rows
    decreases |log|
  {
    if log == [] then map[]
    else
      var last := log[|log| - 1];
      Record(Replay(log[..|log| - 1]), last.tx, last.sender, last.nft)
  }

  const EMPTY := Store(map[], map[])

  /** The repository holds the assets of the ledger, each as the ledger has it. */
  ghost predicate Mirrors(repo: Rows, ledger: Rows) {
    repo.Keys == ledger.Keys && forall id :: id in repo ==> AsOnChain(repo[id], ledger[id])
  }

  lemma ServeKeeps(st: Store, d: Directory, evm: bool, q: Request)
    requires Sound(st) && (q.call.Create? ==> q.call.freshId != "")
    ensures var (st', more) := Serve(st, d, evm, q);
            && Sound(st')
            && st'.ledger == (if more == [] then st.ledger else Record(st.ledger, more[0].tx, more[0].sender, more[0].nft))
            && (Mirrors(st.repo, st.ledger) && q.fate != AnswerLost ==> Mirrors(st'.repo, st'.ledger))
  {
    hide Sound, Guard, Record;
    var g := Guard(st, d, q.call);
    if g.Pass? {
      var reply := ReplyTo(st.ledger, g.tx, q);
      ForestKept(st, d, evm, q.actor, q.call, reply, q.sender, q.nft);
      if q.fate == Processed && Mirrors(st.repo, st.ledger) {
        MirrorsAfter(st, d, q.call, q.sender, q.nft);
        var after := Record(st.ledger, g.tx, q.sender, q.nft);
        assert Concluded(g.id, g.fallback, reply) == Ok(Merge(after[g.id], Some(g.fallback)));
        GuardTargets(st, d, q.call) by { SoundBasics(st); }
      }
    }
  }

  lemma MergeIsOnChain(after: Rows, g: Guarded)
    requires g.Pass?
    ensures g.id in after ==> AsOnChain(Merge(after[g.id], Some(g.fallback)), after[g.id])
  {
  }

  lemma MirrorsAfter(st: Store, d: Directory, c: Call, sender: string, nft: string)
    requires Sound(st) && Guard(st, d, c).Pass? && (c.Create? ==> c.freshId != "") && Mirrors(st.repo, st.ledger)
    ensures var g := Guard(st, d, c);
            var after := Record(st.ledger, g.tx, sender, nft);
            && g.id in after && after[g.id].assetId == g.id
            && Mirrors(st.repo[g.id := Merge(after[g.id], Some(g.fallback))], after)
  {
    hide Guard, Record, Sound, LedgerSound, AsAnnounced, Merge;
    SoundBasics(st);
    MergeIsOnChain(Record(st.ledger, Guard(st, d, c).tx, sender, nft), Guard(st, d, c));
    GuardTargets(st, d, c);
    RecordTouchesOne(st.ledger, Guard(st, d, c).tx, sender, nft);
    TargetOf(st, d, c);
    WrittenRow(st, d, c, sender, nft);
  }

  /** Replaying the accepted submissions gives the ledger of any run, and as long as no
      answer is lost the repository shows the same owner, custodian, parent, status and
      token for every asset; in any case the hierarchy is a forest over existing assets and
      every owner is the custodian. */
  lemma {:induction false} ReplayMatches(d: Directory, evm: bool, qs: seq<Request>)
    requires forall i :: 0 <= i < |qs| && qs[i].call.Create? ==> qs[i].call.freshId != ""
    ensures var (st, log) := ServeAll(EMPTY, d, evm, qs);
            && Sound(st) && st.ledger == Replay(log)
            && ((forall i :: 0 <= i < |qs| ==> qs[i].fate != AnswerLost) ==> Mirrors(st.repo, st.ledger))
    decreases |qs|
  {
    hide Sound, Serve, Record;
    if qs == [] {
      assert Sound(EMPTY) by { EmptySound(); }
    } else {
      var n := |qs| - 1;
      ReplayMatches(d, evm, qs[..n]);
      var (st1, log) := ServeAll(EMPTY, d, evm, qs[..n]);
      ServeKeeps(st1, d, evm, qs[n]);
      var (st2, more) := Serve(st1, d, evm, qs[n]);
      assert |more| <= 1 by { ServeLogsOne(st1, d, evm, qs[n]); }
      if more == [] {
        assert log + more == log;
      } else {
        assert (log + more)[..|log|] == log && (log + more)[|log|] == more[0];
      }
    }
  }

  lemma ServeLogsOne(st: Store, d: Directory, evm: bool, q: Request)
    ensures |Serve(st, d, evm, q).1| <= 1
  {
    hide Guard;
  }

  lemma EmptySound()
    ensures Sound(EMPTY)
  {
    forall a: string, n: nat | n > 0 ensures Up(map[], a, n) != Some(a) {}
    assert LedgerParents(map[]) == map[];
  }
}
