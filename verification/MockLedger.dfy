/** The in-memory chain: it replays asset and job transactions onto live records in place,
    and rotates a committee through its active validators. */
module MockLedger {
  import opened Prelude
  import Assets
  import Jobs

  // --------------------------------------------------------------- live records

  class LiveAsset {
    const assetId: string
    const nftId: string
    const assetType: string
    var ownerId: string
    var custodianId: string
    var parent: Assets.Parent
    var status: Assets.AssetStatus

    constructor (row: Assets.Asset)
      ensures RowOf() == row
    {
      assetId, nftId, assetType := row.assetId, row.nftId, row.assetType;
      ownerId, custodianId, parent, status := row.ownerId, row.custodianId, row.parent, row.status;
    }

    function RowOf(): Assets.Asset
      reads this
    {
      Assets.Asset(assetId, nftId, assetType, ownerId, custodianId, parent, status)
    }
  }

  class LiveJob {
    const assetId: string
    const createdBy: string
    const verifierId: Option<string>
    const priority: string
    var assignedTo: string
    var status: Jobs.JobStatus
    var completed: bool

    constructor (row: Jobs.LedgerJob)
      ensures RowOf() == row
    {
      assetId, createdBy, verifierId, priority := row.assetId, row.createdBy, row.verifierId, row.priority;
      assignedTo, status, completed := row.assignedTo, row.status, row.completed;
    }

    function RowOf(): Jobs.LedgerJob
      reads this
    {
      Jobs.LedgerJob(assetId, createdBy, assignedTo, verifierId, status, priority, completed)
    }

    /** The case of one action in record. */
    method Act(tx: Jobs.Tx)
      modifies this
      ensures RowOf() == Jobs.Recorded(old(RowOf()), tx)
    {
      match tx.kind
      case JobCreate =>
      case JobAssign =>
        assignedTo := if Jobs.Field(tx, "technicianId") != "" then Jobs.Field(tx, "technicianId") else assignedTo;
        status := Jobs.Assigned;
      case JobStart => status := Jobs.InProgress;
      case JobComplete =>
        status := Jobs.Completed;
        completed := true;
      case JobApprove => status := Jobs.Verified;
      case JobReject => status := Jobs.Rejected;
    }
  }

  class Adapter {
    var nftCounter: nat
    var assets: map<string, LiveAsset>
    var jobs: map<string, LiveJob>

    /** No record is stored under two ids. */
    ghost predicate Valid()
      reads this
    {
      && (forall a, b :: a in assets && b in assets && assets[a] == assets[b] ==> a == b)
      && (forall a, b :: a in jobs && b in jobs && jobs[a] == jobs[b] ==> a == b)
    }

    ghost function AssetRows(): Assets.Rows
      reads this, assets.Values
    {
      map id | id in assets :: assets[id].RowOf()
    }

    ghost function JobRows(): Jobs.Ledger
      reads this, jobs.Values
    {
      map id | id in jobs :: jobs[id].RowOf()
    }

    constructor ()
      ensures Valid() && AssetRows() == map[] && JobRows() == map[] && nftCounter == 0
    {
      nftCounter, assets, jobs := 0, map[], map[];
    }

    twostate lemma AssetChanged(id: string)
      requires old(Valid()) && assets == old(assets) && jobs == old(jobs) && id in assets
      requires forall k :: k in assets && k != id ==> assets[k].RowOf() == old(assets[k].RowOf())
      ensures Valid() && AssetRows() == old(AssetRows())[id := assets[id].RowOf()]
    {
    }

    /** A mint of an id already taken changes nothing; a new one draws the next token id. */
    method MintAsset(tx: Assets.Tx, sender: string)
      requires Valid() && tx.Mint?
      modifies this`assets, this`nftCounter
      ensures Valid() && AssetRows() == Assets.Record(old(AssetRows()), tx, sender, Decimal(old(nftCounter) + 1))
      ensures nftCounter == old(nftCounter) + (if AssetRows() != old(AssetRows()) then 1 else 0)
    {
      hide Decimal;
      if tx.assetId == "" || tx.assetId in assets {
        return;
      }
      var owner := if tx.ownerId != "" then tx.ownerId else sender;
      nftCounter := nftCounter + 1;
      var asset := new LiveAsset(Assets.Asset(tx.assetId, Decimal(nftCounter), tx.assetType, owner,
        if tx.custodianId != "" then tx.custodianId else owner,
        if tx.under.Some? && tx.under.value != "" then Assets.Id(tx.under.value) else Assets.Null, Assets.Active));
      assets := assets[tx.assetId := asset];
      assert AssetRows() == old(AssetRows())[tx.assetId := asset.RowOf()];
      assert tx.assetId !in old(AssetRows());
    }

    /** record, for the asset transactions. */
    method RecordAsset(tx: Assets.Tx, sender: string)
      requires Valid()
      modifies this, assets.Values
      ensures Valid() && AssetRows() == Assets.Record(old(AssetRows()), tx, sender, Decimal(old(nftCounter) + 1))
      ensures nftCounter == old(nftCounter) + (if tx.Mint? && AssetRows() != old(AssetRows()) then 1 else 0)
      ensures jobs == old(jobs)
    {
      hide Decimal;
      match tx
      case Mint(_, _, _, _, _) =>
        MintAsset(tx, sender);
      case TransferTx(id, _, newOwnerId, newCustodianId) =>
        if id == "" || id !in assets || newOwnerId == "" {
          return;
        }
        var asset := assets[id];
        asset.ownerId := newOwnerId;
        asset.custodianId := if newCustodianId != "" then newCustodianId else newOwnerId;
        AssetChanged(id);
      case StateChange(id, _, _, next) =>
        if id == "" || id !in assets {
          return;
        }
        var asset := assets[id];
        asset.status := next;
        AssetChanged(id);
      case Attach(parentId, _, componentId, _) =>
        if componentId !in assets {
          return;
        }
        var component := assets[componentId];
        component.parent := if parentId != "" then Assets.Id(parentId) else Assets.Null;
        AssetChanged(componentId);
      case Remove(_, _, componentId, _) =>
        if componentId !in assets {
          return;
        }
        var component := assets[componentId];
        component.parent := Assets.Null;
        AssetChanged(componentId);
    }

    twostate lemma JobChanged(id: string)
      requires old(Valid()) && assets == old(assets) && jobs == old(jobs) && id in jobs
      requires forall k :: k in jobs && k != id ==> jobs[k].RowOf() == old(jobs[k].RowOf())
      ensures Valid() && JobRows() == old(JobRows())[id := jobs[id].RowOf()]
    {
    }

    /** A creation of an id already taken, or of nothing, changes nothing. */
    method CreateJob(tx: Jobs.Tx, sender: string)
      requires Valid() && tx.kind == Jobs.JobCreate
      modifies this`jobs
      ensures Valid() && JobRows() == Jobs.Record(old(JobRows()), tx, sender)
    {
      var id := Jobs.Field(tx, "jobId");
      if id == "" || id in jobs || Jobs.Field(tx, "assetId") == "" {
        return;
      }
      var priority := Jobs.Field(tx, "priority");
      var job := new LiveJob(Jobs.LedgerJob(Jobs.Field(tx, "assetId"), sender, "", Jobs.TextOf(Jobs.Field(tx, "verifierId")), Jobs.Created,
        if priority == "LOW" || priority == "HIGH" || priority == "CRITICAL" then priority else "MEDIUM", false));
      jobs := jobs[id := job];
      assert JobRows() == old(JobRows())[id := job.RowOf()];
    }

    /** record, for the job transactions. */
    method RecordJob(tx: Jobs.Tx, sender: string)
      requires Valid()
      modifies this`jobs, jobs.Values
      ensures Valid() && JobRows() == Jobs.Record(old(JobRows()), tx, sender)
      ensures assets == old(assets)
    {
      if tx.kind == Jobs.JobCreate {
        CreateJob(tx, sender);
        return;
      }
      var id := Jobs.Field(tx, "jobId");
      if id == "" || id !in jobs {
        return;
      }
      jobs[id].Act(tx);
      JobChanged(id);
    }
  }

  // ---------------------------------------------------------------- the committee

  /** Two per cent of the active validators, at least one, at most all. */
  function CommitteeSize(n: nat): (size: nat)
    requires n > 0
    ensures 1 <= size <= n
  {
    var share := (n + 49) / 50;
    if share > n then n else share
  }

  function Pow2(e: nat): (p: nat)
    ensures p > 0
  {
    if e == 0 then 1 else 2 * Pow2(e - 1)
  }

  /** A non-negative number of double precision: 53 bits, scaled by a power of two. */
  ghost predicate Scaled(y: real, m: nat, e: nat) {
    m < 0x20_0000_0000_0000 && (y == (m * Pow2(e)) as real || y * Pow2(e) as real == m as real)
  }

  ghost predicate IsDouble(y: real) {
    exists m: nat, e: nat :: Scaled(y, m, e)
  }

  function Distance(x: real, y: real): real {
    if x < y then y - x else x - y
  }

  /** `y` is a double nearest to `x`, as IEEE 754 has every product rounded. */
  ghost predicate RoundsTo(x: real, y: real) {
    IsDouble(y) && forall z: real :: IsDouble(z) ==> Distance(x, y) <= Distance(x, z)
  }

  function Ceiling(y: real): int {
    -(-y).Floor
  }

  /** The double that is written 0.02; it lies slightly above. */
  const TWO_PERCENT := 5764607523034235.0 / 0x400_0000_0000_0000 as real

  lemma SmallIsDouble(m: nat)
    requires m < 0x20_0000_0000_0000
    ensures IsDouble(m as real) && IsDouble(m as real / 64.0)
  {
    assert Pow2(6) == 64;
    assert Scaled(m as real, m, 0);
    assert Scaled(m as real / 64.0, m, 6);
  }

  /** No double lies closer above a whole number than one part in 2^53. */
  lemma DoublesApart(k: nat, y: real)
    requires IsDouble(y) && y > k as real && k > 0
    ensures (y - k as real) * 0x20_0000_0000_0000 as real >= k as real || y >= k as real + 1.0
  {
    hide Pow2;
    var m: nat, e: nat :| Scaled(y, m, e);
    var p := Pow2(e);
    if y == (m * p) as real {
      assert m * p > k;
    } else {
      Gap(y, m, k, p);
    }
  }

  lemma Gap(y: real, m: nat, k: nat, p: nat)
    requires p > 0 && y * p as real == m as real && y > k as real && m < 0x20_0000_0000_0000
    ensures (y - k as real) * 0x20_0000_0000_0000 as real >= k as real
  {
    var q, gap := p as real, y - k as real;
    assert (k * p) as real == k as real * q;
    Grows(k as real, y, q);
    assert m >= k * p + 1;
    assert gap * q == y * q - k as real * q >= 1.0;
    GapBound(gap, k as real, q, 0x20_0000_0000_0000 as real);
  }

  lemma Grows(a: real, b: real, q: real)
    requires a < b && q > 0.0
    ensures a * q < b * q
  {
  }

  lemma GapBound(gap: real, k: real, q: real, p: real)
    requires q > 0.0 && p > 0.0 && gap * q >= 1.0 && k * q <= p
    ensures gap * p >= k
  {
    assert gap * p * q == (gap * q) * p;
    assert (gap * q) * p >= p;
    if gap * p < k { Grows(gap * p, k, q); }
  }

  /** The product lies above the exact share, by less than a fifth of one part in 2^53. */
  lemma Product(n: nat)
    requires 0 < n < 0x4000_0000_0000
    ensures var x, share := n as real * TWO_PERCENT, n as real / 50.0;
            share < x < share + 0.001 && (x - share) * 0x20_0000_0000_0000 as real < 0.2 * share
  {
  }

  lemma RoundedUp(n: nat, k: nat, x: real, y: real)
    requires 0 < n < 0x4000_0000_0000 && 50 * k - 50 < n <= 50 * k && RoundsTo(x, y)
    requires var share := n as real / 50.0; share < x < share + 0.001 && (x - share) * 0x20_0000_0000_0000 as real < 0.2 * share
    ensures (k - 1) as real < y <= k as real
  {
    var m: nat := 64 * (k - 1) + 1;
    Share(n, k);
    SmallIsDouble(k);
    SmallIsDouble(m);
    hide IsDouble, Distance;
    Below(x, y, k, n as real / 50.0);
  }

  lemma Share(n: nat, k: nat)
    requires 50 * k - 50 < n <= 50 * k
    ensures (k - 1) as real + 0.02 <= n as real / 50.0
    ensures n as real / 50.0 == k as real || n as real / 50.0 + 0.02 <= k as real
  {
    assert n == 50 * k || n + 1 <= 50 * k;
  }

  lemma Below(x: real, y: real, k: nat, share: real)
    requires k > 0 && (k - 1) as real + 0.02 <= share && (share == k as real || share + 0.02 <= k as real)
    requires share < x < share + 0.001 && (x - share) * 0x20_0000_0000_0000 as real < 0.2 * share
    requires IsDouble(y) && Distance(x, y) <= Distance(x, k as real)
    requires Distance(x, y) <= Distance(x, (64 * (k - 1) + 1) as real / 64.0)
    ensures (k - 1) as real < y <= k as real
  {
    hide IsDouble;
    if y > k as real {
      DoublesApart(k, y);
    }
  }

  lemma WholeCeiling(y: real, k: int)
    requires (k - 1) as real < y <= k as real
    ensures Ceiling(y) == k
  {
  }

  /** The size computed in double precision: for any realistic number of validators the
      rounded product has the same ceiling as the exact two per cent. */
  lemma SizeInDoubles(n: nat, y: real)
    requires 0 < n < 0x4000_0000_0000 && RoundsTo(n as real * TWO_PERCENT, y)
    ensures var share := if Ceiling(y) < n then Ceiling(y) else n;
            CommitteeSize(n) == if share > 1 then share else 1
  {
    hide RoundsTo;
    var k: nat := (n + 49) / 50;
    Product(n);
    RoundedUp(n, k, n as real * TWO_PERCENT, y);
    WholeCeiling(y, k);
  }

  /** The position that fills place `i` of the committee, and the place of position `v`. */
  function PositionAt(n: nat, height: nat, i: nat): (v: nat)
    requires n > 0
    ensures v < n
  {
    (height % n + i) % n
  }

  function PlaceOf(n: nat, height: nat, v: nat): (i: nat)
    requires v < n
    ensures i < n
  {
    (v - height) % n
  }

  function Committee(active: seq<string>, height: nat): seq<string> {
    if active == [] then [] else seq(CommitteeSize(|active|), i requires 0 <= i => active[PositionAt(|active|, height, i)])
  }

  /** Whether the validator at position `v` sits at a height. */
  predicate Seated(n: nat, v: nat, height: nat)
    requires v < n
  {
    PlaceOf(n, height, v) < CommitteeSize(n)
  }

  /** Remainders are unique. */
  lemma Remainder(n: int, x: int, q: int, r: int)
    requires 0 <= r < n && x == q * n + r
    ensures x % n == r
  {
    var k := q - x / n;
    assert k * n == q * n - (x / n) * n;
    assert x == (x / n) * n + x % n;
    assert k >= 1 ==> k * n >= n;
    assert k <= -1 ==> k * n <= 0 - n;
  }

  lemma ModShift(n: int, x: int, k: int)
    requires n > 0
    ensures (x + k * n) % n == x % n
  {
    assert x == (x / n) * n + x % n;
    assert x + k * n == (x / n + k) * n + x % n;
    Remainder(n, x + k * n, x / n + k, x % n);
  }

  lemma ModRange(n: int, x: int)
    requires -n <= x < 2 * n && n > 0
    ensures x % n == if x < 0 then x + n else if x < n then x else x - n
  {
    Remainder(n, x, if x < 0 then -1 else if x < n then 0 else 1, if x < 0 then x + n else if x < n then x else x - n);
  }

  /** The two are inverse to each other. */
  lemma PlaceExact(n: nat, height: nat, v: nat, i: nat)
    requires v < n && i < n
    ensures PositionAt(n, height, i) == v <==> i == PlaceOf(n, height, v)
  {
    RotationExact(n, height, v, i);
  }

  lemma RotationExact(n: int, height: int, v: int, i: int)
    requires 0 <= v < n && 0 <= i < n && height >= 0
    ensures (height % n + i) % n == v <==> i == (v - height) % n
  {
    var h: int, q: int := height % n, height / n;
    assert height == q * n + h;
    assert v - height == (v - h) + (-q) * n;
    ModShift(n, v - h, -q);
    ModRange(n, v - h);
    ModRange(n, h + i);
  }

  /** A committee has no member twice, only active members, and exactly those seated. */
  lemma CommitteeExact(active: seq<string>, height: nat)
    requires active != [] && forall i, j :: 0 <= i < j < |active| ==> active[i] != active[j]
    ensures var c := Committee(active, height);
            && |c| == CommitteeSize(|active|)
            && (forall i, j :: 0 <= i < j < |c| ==> c[i] != c[j])
            && (forall v: nat :: v < |active| ==> (active[v] in c <==> Seated(|active|, v, height)))
  {
    var n := |active|;
    var c := Committee(active, height);
    forall i, j | 0 <= i < j < |c| ensures c[i] != c[j] { MembersDiffer(active, height, i, j); }
    forall v: nat | v < n ensures active[v] in c <==> Seated(n, v, height) {
      SeatedExactly(active, height, v);
    }
  }

  lemma MembersDiffer(active: seq<string>, height: nat, i: nat, j: nat)
    requires active != [] && i < j < CommitteeSize(|active|)
    requires forall i, j :: 0 <= i < j < |active| ==> active[i] != active[j]
    ensures Committee(active, height)[i] != Committee(active, height)[j]
  {
    hide PositionAt, PlaceOf, CommitteeSize;
    var n := |active|;
    var v, u := PositionAt(n, height, i), PositionAt(n, height, j);
    PlaceExact(n, height, v, i);
    PlaceExact(n, height, u, j);
    assert u < v || v < u;
  }

  lemma SeatedExactly(active: seq<string>, height: nat, v: nat)
    requires v < |active| && forall i, j :: 0 <= i < j < |active| ==> active[i] != active[j]
    ensures active[v] in Committee(active, height) <==> Seated(|active|, v, height)
  {
    hide PositionAt, PlaceOf, CommitteeSize;
    var n, c := |active|, Committee(active, height);
    var i := PlaceOf(n, height, v);
    PlaceExact(n, height, v, i);
    if Seated(n, v, height) {
      assert c[i] == active[v];
    }
    forall k: nat | k < |c| && c[k] == active[v] ensures k == i {
      var u := PositionAt(n, height, k);
      assert c[k] == active[u];
      assert u == v by { assert !(u < v) && !(v < u); }
      PlaceExact(n, height, v, k);
    }
  }

  /** How often a validator sits in `len` consecutive heights. */
  function Sittings(n: nat, v: nat, from: nat, len: nat): nat
    requires v < n
    decreases len
  {
    if len == 0 then 0 else Sittings(n, v, from, len - 1) + if Seated(n, v, from + len - 1) then 1 else 0
  }

  lemma {:induction false} SittingsFront(n: nat, v: nat, from: nat, len: nat)
    requires v < n && len > 0
    ensures Sittings(n, v, from, len) == (if Seated(n, v, from) then 1 else 0) + Sittings(n, v, from + 1, len - 1)
    decreases len
  {
    if len > 1 {
      SittingsFront(n, v, from, len - 1);
      assert from + 1 + (len - 1) - 1 == from + len - 1;
    }
  }

  /** Moving a full window by one height changes nothing: who drops out comes in. */
  lemma WindowMoves(n: nat, v: nat, from: nat)
    requires v < n
    ensures Sittings(n, v, from + 1, n) == Sittings(n, v, from, n)
  {
    SittingsFront(n, v, from, n);
    hide CommitteeSize, Sittings;
    ModShift(n, v - (from + n), 1);
    assert v - (from + n) + 1 * n == v - from;
    assert Seated(n, v, from + n) == Seated(n, v, from);
  }

  lemma {:induction false} AnyWindow(n: nat, v: nat, from: nat, later: nat)
    requires v < n && from <= later
    ensures Sittings(n, v, later, n) == Sittings(n, v, from, n)
    decreases later
  {
    if from < later {
      AnyWindow(n, v, from, later - 1);
      WindowMoves(n, v, later - 1);
    }
  }

  lemma SeatedAfter(n: nat, v: nat, len: nat)
    requires v < n && 1 <= len <= n
    ensures Seated(n, v, v + len) <==> n - len < CommitteeSize(n)
  {
    var position: int, height: int := v, v + len;
    ModRange(n, position - height);
  }

  /** From the height after its own position on, a validator sits at the end of the window. */
  lemma {:induction false} OwnWindow(n: nat, v: nat, len: nat)
    requires v < n && len <= n
    ensures Sittings(n, v, v + 1, len) == if len + CommitteeSize(n) <= n then 0 else len + CommitteeSize(n) - n
    decreases len
  {
    hide Seated, CommitteeSize;
    if len > 0 {
      OwnWindow(n, v, len - 1);
      SeatedAfter(n, v, len);
      assert v + 1 + len - 1 == v + len;
    }
  }

  /** The rotation is fair: in any run of as many heights as there are active validators,
      each of them sits in exactly as many committees as a committee has members. */
  lemma RotationFair(n: nat, v: nat, from: nat)
    requires v < n
    ensures Sittings(n, v, from, n) == CommitteeSize(n)
  {
    OwnWindow(n, v, n);
    if from <= v + 1 { AnyWindow(n, v, from, v + 1); } else { AnyWindow(n, v, v + 1, from); }
  }
}
