/** The per-wallet send queue: a promise-chained lock whose map entries delete themselves.
    Every call to sendAs is a ticket; any number of them are in flight, and they interleave
    at the points where the code awaits. */
module SendQueue {
  import opened Prelude

  /** Queued: awaiting the previous tail. Woken: its turn has come, no nonce read yet.
      Holding: nonce read, nothing broadcast. Accepted: the node took the transaction, the
      answer is still out. Over: `release` was called; `late` is the nonce of a transaction
      that the call gave up on and that may still reach the node. */
  datatype Phase = Queued | Woken | Holding(nonce: nat) | Accepted(nonce: nat) | Over(ok: bool, late: Option<nat>)

  /** `previous` is the ticket whose tail promise this call awaits; None is the resolved
      promise used when the map has no entry. */
  datatype Ticket = Ticket(key: string, previous: Option<nat>, phase: Phase)

  datatype Broadcast = Broadcast(key: string, nonce: nat)

  /** `queues` is the sendQueues map, an entry naming the ticket whose tail it stores;
      `counts` is the node's pending transaction count, `log` the accepted broadcasts. */
  datatype Queue = Queue(
    tickets: seq<Ticket>, queues: map<string, nat>, counts: map<string, nat>, log: seq<Broadcast>)

  function Count(q: Queue, key: string): nat {
    if key in q.counts then q.counts[key] else 0
  }

  predicate Live(q: Queue, t: nat) {
    t < |q.tickets| && !q.tickets[t].phase.Over?
  }

  /** Between waking and releasing: the section that must be exclusive. */
  predicate Running(q: Queue, t: nat) {
    Live(q, t) && !q.tickets[t].phase.Queued?
  }

  predicate Finished(q: Queue, t: nat) {
    t < |q.tickets| && q.tickets[t].phase.Over?
  }

  /** `previous` points backwards, as it must for the promises to be chained at all. */
  predicate Chained(tickets: seq<Ticket>) {
    forall t: nat :: 0 <= t < |tickets| && tickets[t].previous.Some? ==> tickets[t].previous.value < t
  }

  /** Whether the promise a ticket awaits has resolved: the previous ticket has called
      release, and the promise that one awaited has resolved too. */
  predicate PreviousResolved(q: Queue, t: nat)
    requires Chained(q.tickets) && t < |q.tickets|
    decreases t
  {
    var p := q.tickets[t].previous;
    p.None? || (Finished(q, p.value) && PreviousResolved(q, p.value))
  }

  datatype Step =
    | Enter(key: string)
    | Wake(t: nat)
    | ReadNonce(t: nat)
    | Deliver(t: nat)
    | Finish(t: nat, ok: bool)
    | Arrive(t: nat)
    | External(key: string, count: nat)

  /** Anything may fail after waking; only an accepted transaction can succeed, and the node
      accepts none whose nonce is already spent. */
  predicate Enabled(q: Queue, s: Step) {
    match s
    case Enter(_) => true
    case Wake(t) => t < |q.tickets| && q.tickets[t].phase == Queued && Chained(q.tickets) && PreviousResolved(q, t)
    case ReadNonce(t) => t < |q.tickets| && q.tickets[t].phase == Woken
    case Deliver(t) => t < |q.tickets| && q.tickets[t].phase.Holding? && Count(q, q.tickets[t].key) <= q.tickets[t].phase.nonce
    case Finish(t, ok) => Running(q, t) && (ok ==> q.tickets[t].phase.Accepted?)
    case Arrive(t) => Finished(q, t) && q.tickets[t].phase.late.Some?
    case External(_, _) => true
  }

  function SetPhase(q: Queue, t: nat, p: Phase): Queue
    requires t < |q.tickets|
  {
    q.(tickets := q.tickets[t := q.tickets[t].(phase := p)])
  }

  /** A transaction reaches the node, which refuses a spent nonce. The pending count is
      contiguous: it rises only when the transaction carries exactly the next nonce. */
  function Reach(q: Queue, key: string, n: nat): Queue {
    if Count(q, key) > n then q
    else q.(log := q.log + [Broadcast(key, n)], counts := if Count(q, key) == n then q.counts[key := n + 1] else q.counts)
  }

  /** What a call that releases leaves under way. */
  function Left(p: Phase): Option<nat> {
    if p.Holding? then Some(p.nonce) else None
  }

  /** The effect of each step. */
  function After(q: Queue, s: Step): Queue
    requires Enabled(q, s)
  {
    match s
    case Enter(key) =>
      q.(tickets := q.tickets + [Ticket(key, if key in q.queues then Some(q.queues[key]) else None, Queued)],
         queues := q.queues[key := |q.tickets|])
    case Wake(t) => SetPhase(q, t, Woken)
    case ReadNonce(t) => SetPhase(q, t, Holding(Count(q, q.tickets[t].key)))
    case Deliver(t) => Reach(SetPhase(q, t, Accepted(q.tickets[t].phase.nonce)), q.tickets[t].key, q.tickets[t].phase.nonce)
    case Finish(t, ok) =>
      var key := q.tickets[t].key;
      SetPhase(q, t, Over(ok, Left(q.tickets[t].phase))).(
        queues := if key in q.queues && q.queues[key] == t then q.queues - {key} else q.queues)
    case Arrive(t) =>
      Reach(SetPhase(q, t, q.tickets[t].phase.(late := None)), q.tickets[t].key, q.tickets[t].phase.late.value)
    case External(key, count) => q.(counts := q.counts[key := count])
  }

  ghost predicate Next(q: Queue, q': Queue, s: Step) {
    Enabled(q, s) && q' == After(q, s)
  }

  ghost predicate IsRun(qs: seq<Queue>, steps: seq<Step>) {
    && |qs| == |steps| + 1
    && forall i :: 0 <= i < |steps| ==> Next(qs[i], qs[i + 1], steps[i])
  }

  /** A process that has just started, over any node. */
  ghost predicate Initial(q: Queue) {
    q.tickets == [] && q.queues == map[] && q.log == []
  }

  // -------------------------------------------------------------------- invariant

  predicate SameKey(q: Queue, t: nat, u: nat) {
    t < |q.tickets| && u < |q.tickets| && q.tickets[t].key == q.tickets[u].key
  }

  /** Nobody is served before everyone ahead of them on the same wallet has finished. */
  ghost predicate InOrder(q: Queue) {
    forall t: nat, u: nat :: t < u && SameKey(q, t, u) && !q.tickets[u].phase.Queued? ==> Finished(q, t)
  }

  /** A ticket waits for the one that entered right before it on the same wallet, or for
      nothing, and then everyone ahead has finished. */
  ghost predicate Linked(q: Queue) {
    && Chained(q.tickets)
    && (forall u: nat :: u < |q.tickets| && q.tickets[u].previous.Some? ==>
          SameKey(q, q.tickets[u].previous.value, u))
    && (forall t: nat, u: nat :: t < u && SameKey(q, t, u) && q.tickets[u].previous.Some? ==> t <= q.tickets[u].previous.value)
    && (forall t: nat, u: nat :: t < u && SameKey(q, t, u) && q.tickets[u].previous.None? ==> Finished(q, t))
  }

  /** The map entry names the last live ticket of its wallet, and a wallet has an entry
      exactly when one of its tickets is live. */
  ghost predicate EntryIsLastLive(q: Queue) {
    && (forall k :: k in q.queues ==> Live(q, q.queues[k]) && q.tickets[q.queues[k]].key == k)
    && (forall t: nat :: Live(q, t) ==> q.tickets[t].key in q.queues && t <= q.queues[q.tickets[t].key])
  }

  ghost predicate Inv(q: Queue) {
    InOrder(q) && Linked(q) && EntryIsLastLive(q)
  }

  /** The last ticket to enter a wallet is live whenever any is. */
  lemma LastEntered(q: Queue, t: nat, u: nat)
    requires Inv(q) && t < u && SameKey(q, t, u) && Live(q, t)
    ensures Live(q, u) && q.tickets[u].phase.Queued?
  {
  }

  /** A queued ticket's awaited promise has resolved exactly when everyone ahead of it on
      the same wallet has finished. */
  lemma {:induction false} ResolvedIffAheadFinished(q: Queue, u: nat)
    requires Inv(q) && u < |q.tickets|
    ensures PreviousResolved(q, u) <==> forall t: nat :: t < u && SameKey(q, t, u) ==> Finished(q, t)
    decreases u
  {
    var p := q.tickets[u].previous;
    if p.Some? {
      ResolvedIffAheadFinished(q, p.value);
      assert SameKey(q, p.value, u);
      if Finished(q, p.value) {
        forall t: nat | t < u && SameKey(q, t, u) ensures Finished(q, t) {
          if t < p.value { assert SameKey(q, t, p.value); }
        }
        forall t: nat | t < p.value && SameKey(q, t, p.value) ensures Finished(q, t) {}
      }
    }
  }

  lemma EnterKeeps(q: Queue, key: string)
    requires Inv(q)
    ensures Inv(After(q, Enter(key)))
  {
    var q' := After(q, Enter(key));
    var n := |q.tickets|;
    forall t: nat, u: nat | SameKey(q', t, u) && u < n && t < n ensures SameKey(q, t, u) {}
    forall t: nat | t < n && q.tickets[t].key == key && key in q.queues ensures t <= q.queues[key] {
      if t > q.queues[key] {
        assert SameKey(q, q.queues[key], t);
        LastEntered(q, q.queues[key], t);
      }
    }
  }

  /** A live ticket moves on without releasing: whoever is ahead of it must be done. */
  lemma AdvanceKeeps(q: Queue, q': Queue, t: nat, p: Phase)
    requires Inv(q) && Live(q, t) && !p.Over? && !p.Queued?
    requires forall u: nat :: u < t && SameKey(q, u, t) ==> Finished(q, u)
    requires q'.queues == q.queues && q'.tickets == q.tickets[t := q.tickets[t].(phase := p)]
    ensures Inv(q')
  {
    forall t: nat, u: nat ensures SameKey(q', t, u) == SameKey(q, t, u) {}
    forall t: nat ensures Finished(q', t) == Finished(q, t) && Live(q', t) == Live(q, t) {}
  }

  lemma MoveKeeps(q: Queue, s: Step)
    requires Inv(q) && Enabled(q, s) && (s.Wake? || s.ReadNonce? || s.Deliver?)
    ensures Inv(After(q, s))
  {
    hide Linked, EntryIsLastLive, PreviousResolved;
    if s.Wake? { ResolvedIffAheadFinished(q, s.t); }
    AdvanceKeeps(q, After(q, s), s.t, After(q, s).tickets[s.t].phase);
  }

  lemma FinishKeeps(q: Queue, t: nat, ok: bool)
    requires Inv(q) && Enabled(q, Finish(t, ok))
    ensures Inv(After(q, Finish(t, ok)))
  {
    var q' := After(q, Finish(t, ok));
    forall a: nat, b: nat ensures SameKey(q', a, b) == SameKey(q, a, b) {}
    forall a: nat ensures Finished(q', a) == (Finished(q, a) || a == t) && Live(q', a) == (Live(q, a) && a != t) {}
    var key := q.tickets[t].key;
    if q.queues[key] == t {
      forall a: nat | Live(q, a) && q.tickets[a].key == key ensures a == t {
        if a < t { assert SameKey(q, a, t); }
      }
    }
  }

  lemma ArriveKeeps(q: Queue, t: nat)
    requires Inv(q) && Enabled(q, Arrive(t))
    ensures Inv(After(q, Arrive(t)))
  {
    var q' := After(q, Arrive(t));
    forall a: nat, b: nat ensures SameKey(q', a, b) == SameKey(q, a, b) {}
    forall a: nat ensures Finished(q', a) == Finished(q, a) && Live(q', a) == Live(q, a) {}
  }

  lemma NextKeeps(q: Queue, q': Queue, s: Step)
    requires Inv(q) && Next(q, q', s)
    ensures Inv(q')
  {
    match s
    case Enter(key) => EnterKeeps(q, key);
    case Finish(t, ok) => FinishKeeps(q, t, ok);
    case Arrive(t) => ArriveKeeps(q, t);
    case External(_, _) =>
      assert forall t: nat, u: nat :: SameKey(q', t, u) == SameKey(q, t, u);
    case _ => MoveKeeps(q, s);
  }

  /** Whatever else happens on the node, every reachable queue satisfies the invariant. */
  lemma {:induction false} RunKeeps(qs: seq<Queue>, steps: seq<Step>, i: nat)
    requires IsRun(qs, steps) && Initial(qs[0]) && i < |qs|
    ensures Inv(qs[i])
    decreases i
  {
    if i > 0 {
      RunKeeps(qs, steps, i - 1);
      NextKeeps(qs[i - 1], qs[i], steps[i - 1]);
    }
  }

  // ----------------------------------------------------------------- main results

  /** At most one send per wallet is between its turn and its release, and everyone who
      entered before it has finished: the lock is exclusive and first in, first out. */
  lemma ExclusiveFifo(qs: seq<Queue>, steps: seq<Step>, i: nat, t: nat, u: nat)
    requires IsRun(qs, steps) && Initial(qs[0]) && i < |qs|
    requires Running(qs[i], u) && SameKey(qs[i], t, u)
    ensures t < u ==> Finished(qs[i], t)
    ensures t > u ==> qs[i].tickets[t].phase.Queued?
    ensures Running(qs[i], t) ==> t == u
  {
    RunKeeps(qs, steps, i);
    if t > u { LastEntered(qs[i], u, t); }
  }

  /** The map entry of a wallet is present exactly while one of its sends is live, and
      names the last of them. */
  lemma EntryExact(qs: seq<Queue>, steps: seq<Step>, i: nat, key: string)
    requires IsRun(qs, steps) && Initial(qs[0]) && i < |qs|
    ensures key in qs[i].queues <==> exists t: nat :: Live(qs[i], t) && qs[i].tickets[t].key == key
    ensures key in qs[i].queues ==>
              && Live(qs[i], qs[i].queues[key])
              && forall t: nat :: Live(qs[i], t) && qs[i].tickets[t].key == key ==> t <= qs[i].queues[key]
  {
    RunKeeps(qs, steps, i);
  }

  /** A queued send can be woken exactly when everyone ahead of it on its wallet has
      finished: nobody is skipped and nobody is stranded. */
  lemma TurnComes(qs: seq<Queue>, steps: seq<Step>, i: nat, u: nat)
    requires IsRun(qs, steps) && Initial(qs[0]) && i < |qs|
    requires u < |qs[i].tickets| && qs[i].tickets[u].phase.Queued?
    ensures Enabled(qs[i], Wake(u)) <==> forall t: nat :: t < u && SameKey(qs[i], t, u) ==> Finished(qs[i], t)
  {
    RunKeeps(qs, steps, i);
    ResolvedIffAheadFinished(qs[i], u);
  }

  /** The steps a ticket still needs before it is over. */
  function StepsLeft(p: Phase): nat {
    match p
    case Queued => 2
    case Over(_, _) => 0
    case _ => 1
  }

  function WorkLeft(tickets: seq<Ticket>): nat {
    if tickets == [] then 0 else WorkLeft(tickets[..|tickets| - 1]) + StepsLeft(tickets[|tickets| - 1].phase)
  }

  lemma {:induction false} WorkDrops(tickets: seq<Ticket>, t: nat, p: Phase)
    requires t < |tickets|
    ensures WorkLeft(tickets[t := tickets[t].(phase := p)]) + StepsLeft(tickets[t].phase) == WorkLeft(tickets) + StepsLeft(p)
    decreases |tickets|
  {
    var n := |tickets| - 1;
    var after := tickets[t := tickets[t].(phase := p)];
    if t == n {
      assert after[..n] == tickets[..n];
    } else {
      WorkDrops(tickets[..n], t, p);
      assert after[..n] == tickets[..n][t := tickets[t].(phase := p)];
    }
  }

  lemma {:induction false} NoWorkNoLive(tickets: seq<Ticket>, t: nat)
    requires t < |tickets| && WorkLeft(tickets) == 0
    ensures tickets[t].phase.Over?
    decreases |tickets|
  {
    if t < |tickets| - 1 {
      NoWorkNoLive(tickets[..|tickets| - 1], t);
    }
  }

  lemma {:induction false} LiveWithWork(tickets: seq<Ticket>) returns (t: nat)
    requires WorkLeft(tickets) > 0
    ensures t < |tickets| && !tickets[t].phase.Over?
    ensures forall u: nat :: 0 <= u < t ==> tickets[u].phase.Over?
    decreases |tickets|
  {
    var n := |tickets| - 1;
    if WorkLeft(tickets[..n]) > 0 {
      t := LiveWithWork(tickets[..n]);
      assert forall u: nat :: 0 <= u < t ==> tickets[..n][u].phase.Over?;
    } else {
      t := n;
      forall u: nat | 0 <= u < n ensures tickets[u].phase.Over? { NoWorkNoLive(tickets[..n], u); }
    }
  }

  /** While anything is in flight the first live ticket can move towards its end. */
  lemma FirstLiveMoves(q: Queue) returns (s: Step)
    requires Inv(q) && WorkLeft(q.tickets) > 0
    ensures Enabled(q, s) && WorkLeft(After(q, s).tickets) == WorkLeft(q.tickets) - 1
  {
    var t := LiveWithWork(q.tickets);
    s := if q.tickets[t].phase.Queued? then Wake(t) else Finish(t, false);
    ResolvedIffAheadFinished(q, t);
    WorkDrops(q.tickets, t, if s.Wake? then Woken else Over(false, Left(q.tickets[t].phase)));
  }

  lemma RunCons(q: Queue, s: Step, qs: seq<Queue>, steps: seq<Step>)
    requires IsRun(qs, steps) && Next(q, qs[0], s)
    ensures IsRun([q] + qs, [s] + steps)
  {
    forall i | 0 <= i < |[s] + steps| ensures Next(([q] + qs)[i], ([q] + qs)[i + 1], ([s] + steps)[i]) {
      if i > 0 { assert Next(qs[i - 1], qs[i], steps[i - 1]); }
    }
  }

  lemma AllOver(q: Queue)
    requires Inv(q) && WorkLeft(q.tickets) == 0
    ensures q.queues == map[] && forall t: nat :: !Live(q, t)
  {
    forall t: nat ensures !Live(q, t) { if t < |q.tickets| { NoWorkNoLive(q.tickets, t); } }
    assert forall k :: k !in q.queues;
  }

  /** The queue never deadlocks: from any reachable state, whatever has failed so far, the
      sends in flight can all be brought to their end, and then the map is empty. */
  lemma {:induction false} Drains(q: Queue) returns (qs: seq<Queue>, steps: seq<Step>)
    requires Inv(q)
    ensures IsRun(qs, steps) && qs[0] == q && |steps| == WorkLeft(q.tickets)
    ensures qs[|steps|].queues == map[] && forall t: nat :: !Live(qs[|steps|], t)
    decreases WorkLeft(q.tickets)
  {
    hide Inv, WorkLeft, Enabled, After, Live;
    if WorkLeft(q.tickets) == 0 {
      qs, steps := [q], [];
      AllOver(q);
    } else {
      var s := FirstLiveMoves(q);
      NextKeeps(q, After(q, s), s);
      var qs1, steps1 := Drains(After(q, s));
      RunCons(q, s, qs1, steps1);
      qs, steps := [q] + qs1, [s] + steps1;
      assert qs[|steps|] == qs1[|steps1|];
    }
  }

  // ----------------------------------------------------------------------- nonces

  /** The nonces one wallet has broadcast, in order. */
  function NoncesOf(log: seq<Broadcast>, key: string): seq<nat> {
    if log == [] then []
    else
      var last := log[|log| - 1];
      NoncesOf(log[..|log| - 1], key) + if last.key == key then [last.nonce] else []
  }

  function From(base: nat, n: nat): seq<nat> {
    seq(n, i => base + i)
  }

  /** A nonce that a call holds, or gave up on. */
  function Claim(p: Phase): Option<nat> {
    match p
    case Holding(n) => Some(n)
    case Over(_, late) => late
    case _ => None
  }

  /** The wallet's broadcasts so far are `base`, `base + 1`, ... and no transaction on its
      way carries more than the next nonce. */
  ghost predicate Consecutive(q: Queue, key: string, base: nat) {
    && Count(q, key) == base + |NoncesOf(q.log, key)|
    && NoncesOf(q.log, key) == From(base, |NoncesOf(q.log, key)|)
    && forall t: nat :: t < |q.tickets| && q.tickets[t].key == key && Claim(q.tickets[t].phase).Some? ==>
         Claim(q.tickets[t].phase).value <= Count(q, key)
  }

  lemma ConsecutiveKept(q: Queue, q': Queue, s: Step, key: string, base: nat)
    requires Next(q, q', s) && Consecutive(q, key, base)
    requires s.External? ==> s.key != key
    ensures Consecutive(q', key, base)
  {
    hide Consecutive, PreviousResolved;
    match s
    case Enter(k) => EnterClaims(q, k, key, base);
    case Wake(t) => PhaseClaims(q, q', t, Woken, key, base);
    case ReadNonce(t) => PhaseClaims(q, q', t, q'.tickets[t].phase, key, base);
    case Finish(t, ok) => PhaseClaims(q, q', t, q'.tickets[t].phase, key, base);
    case Deliver(t) => ArrivalClaims(q, t, Accepted(q.tickets[t].phase.nonce), key, base);
    case Arrive(t) => ArrivalClaims(q, t, q.tickets[t].phase.(late := None), key, base);
    case External(k, count) => OutsideClaims(q, q', key, base);
  }

  lemma EnterClaims(q: Queue, k: string, key: string, base: nat)
    requires Consecutive(q, key, base)
    ensures Consecutive(After(q, Enter(k)), key, base)
  {
    hide NoncesOf;
  }

  /** A call moves on; what it then claims is what it claimed, or the count it has read. */
  lemma PhaseClaims(q: Queue, q': Queue, t: nat, p: Phase, key: string, base: nat)
    requires Consecutive(q, key, base) && t < |q.tickets|
    requires q'.log == q.log && q'.counts == q.counts && q'.tickets == q.tickets[t := q.tickets[t].(phase := p)]
    requires Claim(p).None? || Claim(p) == Claim(q.tickets[t].phase) || Claim(p) == Some(Count(q, q.tickets[t].key))
    ensures Consecutive(q', key, base)
  {
    hide NoncesOf;
  }

  lemma ArrivalClaims(q: Queue, t: nat, p: Phase, key: string, base: nat)
    requires Consecutive(q, key, base) && t < |q.tickets| && Claim(q.tickets[t].phase).Some? && Claim(p).None?
    ensures Consecutive(Reach(SetPhase(q, t, p), q.tickets[t].key, Claim(q.tickets[t].phase).value), key, base)
  {
    hide NoncesOf;
    var at := SetPhase(q, t, p);
    PhaseClaims(q, at, t, p, key, base);
    ReachKeeps(at, q.tickets[t].key, Claim(q.tickets[t].phase).value, key, base);
  }

  lemma OutsideClaims(q: Queue, q': Queue, key: string, base: nat)
    requires Consecutive(q, key, base) && q'.log == q.log && q'.tickets == q.tickets && Count(q', key) == Count(q, key)
    ensures Consecutive(q', key, base)
  {
  }

  lemma ReachKeeps(q: Queue, at: string, n: nat, key: string, base: nat)
    requires Consecutive(q, key, base) && (at == key ==> n <= Count(q, key))
    ensures Consecutive(Reach(q, at, n), key, base)
  {
    var q' := Reach(q, at, n);
    var before := NoncesOf(q.log, key);
    if q' != q {
      assert q'.log[..|q.log|] == q.log;
      if at == key {
        assert NoncesOf(q'.log, key) == before + [base + |before|];
        assert From(base, |before| + 1) == From(base, |before|) + [base + |before|];
      }
    }
  }

  /** When nobody else spends a wallet's nonces, its accepted broadcasts carry consecutive
      nonces from the count the process started with, without duplicate or gap, however
      many of its sends fail or lose their answer, and however late a transaction that was
      given up on reaches the node. */
  lemma {:induction false} NoncesConsecutive(qs: seq<Queue>, steps: seq<Step>, i: nat, key: string)
    requires IsRun(qs, steps) && Initial(qs[0]) && i < |qs|
    requires forall j :: 0 <= j < i && steps[j].External? ==> steps[j].key != key
    ensures var nonces := NoncesOf(qs[i].log, key);
            nonces == From(Count(qs[0], key), |nonces|) && Consecutive(qs[i], key, Count(qs[0], key))
    decreases i
  {
    if i > 0 {
      NoncesConsecutive(qs, steps, i - 1, key);
      ConsecutiveKept(qs[i - 1], qs[i], steps[i - 1], key, Count(qs[0], key));
    }
  }

  /** The sends of a wallet whose transaction the node has taken and which have not failed. */
  function Taken(tickets: seq<Ticket>, key: string): nat {
    if tickets == [] then 0
    else
      var last := tickets[|tickets| - 1];
      Taken(tickets[..|tickets| - 1], key) + if last.key == key then Credit(last.phase) else 0
  }

  function Credit(p: Phase): nat {
    if p.Accepted? || (p.Over? && p.ok) then 1 else 0
  }

  lemma {:induction false} TakenMoves(tickets: seq<Ticket>, t: nat, p: Phase, key: string)
    requires t < |tickets|
    ensures var mine := tickets[t].key == key;
            Taken(tickets[t := tickets[t].(phase := p)], key) + (if mine then Credit(tickets[t].phase) else 0)
              == Taken(tickets, key) + if mine then Credit(p) else 0
    decreases |tickets|
  {
    var n := |tickets| - 1;
    var after := tickets[t := tickets[t].(phase := p)];
    if t == n {
      assert after[..n] == tickets[..n];
    } else {
      TakenMoves(tickets[..n], t, p, key);
      assert after[..n] == tickets[..n][t := tickets[t].(phase := p)];
    }
  }

  /** A transaction taken by the node leaves room for one more success of its wallet. */
  lemma ReachCredits(q: Queue, at: string, n: nat, key: string)
    ensures Reach(q, at, n).tickets == q.tickets
    ensures |NoncesOf(q.log, key)| <= |NoncesOf(Reach(q, at, n).log, key)|
    ensures at == key && Count(q, key) <= n ==> |NoncesOf(Reach(q, at, n).log, key)| == |NoncesOf(q.log, key)| + 1
  {
    if Count(q, at) <= n { assert Reach(q, at, n).log[..|q.log|] == q.log; }
  }

  lemma TakenKept(q: Queue, q': Queue, s: Step, key: string)
    requires Next(q, q', s) && Taken(q.tickets, key) <= |NoncesOf(q.log, key)|
    ensures Taken(q'.tickets, key) <= |NoncesOf(q'.log, key)|
  {
    hide PreviousResolved, NoncesOf, Taken, Reach;
    match s
    case Enter(k) => TakenEnters(q, k, key);
    case External(_, _) =>
    case Deliver(t) =>
      TakenMoves(q.tickets, t, Accepted(q.tickets[t].phase.nonce), key);
      ReachCredits(SetPhase(q, t, Accepted(q.tickets[t].phase.nonce)), q.tickets[t].key, q.tickets[t].phase.nonce, key);
    case Arrive(t) =>
      TakenMoves(q.tickets, t, q.tickets[t].phase.(late := None), key);
      ReachCredits(SetPhase(q, t, q.tickets[t].phase.(late := None)), q.tickets[t].key, q.tickets[t].phase.late.value, key);
    case _ => TakenMoves(q.tickets, s.t, q'.tickets[s.t].phase, key);
  }

  lemma TakenEnters(q: Queue, k: string, key: string)
    ensures Taken(After(q, Enter(k)).tickets, key) == Taken(q.tickets, key)
  {
    assert After(q, Enter(k)).tickets[..|q.tickets|] == q.tickets;
  }

  /** No send succeeds without a transaction of its own: a wallet's successful sends, and
      those that still await their answer, are at most its accepted broadcasts. */
  lemma {:induction false} EverySuccessSent(qs: seq<Queue>, steps: seq<Step>, i: nat, key: string)
    requires IsRun(qs, steps) && Initial(qs[0]) && i < |qs|
    ensures Taken(qs[i].tickets, key) <= |NoncesOf(qs[i].log, key)|
    decreases i
  {
    if i > 0 {
      EverySuccessSent(qs, steps, i - 1, key);
      TakenKept(qs[i - 1], qs[i], steps[i - 1], key);
    }
  }

  /** One send up to its nonce, with nobody else about. */
  lemma TurnTaken(q: Queue, key: string) returns (qs: seq<Queue>, steps: seq<Step>)
    requires Inv(q) && key !in q.queues
    ensures IsRun(qs, steps) && |steps| == 3 && qs[0] == q && Inv(qs[3])
    ensures qs[3] == q.(tickets := q.tickets + [Ticket(key, None, Holding(Count(q, key)))], queues := q.queues[key := |q.tickets|])
  {
    var t := |q.tickets|;
    var q1 := After(q, Enter(key));
    EnterKeeps(q, key);
    var q2 := After(q1, Wake(t));
    MoveKeeps(q1, Wake(t));
    var q3 := After(q2, ReadNonce(t));
    MoveKeeps(q2, ReadNonce(t));
    qs := [q, q1, q2, q3];
    steps := [Enter(key), Wake(t), ReadNonce(t)];
  }

  /** One send from start to end. */
  lemma OneSend(q: Queue, key: string) returns (qs: seq<Queue>, steps: seq<Step>)
    requires Inv(q) && key !in q.queues
    ensures IsRun(qs, steps) && |steps| == 5 && qs[0] == q
    ensures qs[5].log == q.log + [Broadcast(key, Count(q, key))] && key !in qs[5].queues && Inv(qs[5])
  {
    hide Inv;
    var t := |q.tickets|;
    var turn, turnSteps := TurnTaken(q, key);
    var q4 := After(turn[3], Deliver(t));
    NextKeeps(turn[3], q4, Deliver(t));
    var q5 := After(q4, Finish(t, true));
    NextKeeps(q4, q5, Finish(t, true));
    qs, steps := turn + [q4, q5], turnSteps + [Deliver(t), Finish(t, true)];
    forall i | 0 <= i < 5 ensures Next(qs[i], qs[i + 1], steps[i]) {
      if i < 3 { assert Next(turn[i], turn[i + 1], turnSteps[i]); }
    }
  }

  lemma RunJoin(qs: seq<Queue>, steps: seq<Step>, s: Step, qs': seq<Queue>, steps': seq<Step>)
    requires IsRun(qs, steps) && IsRun(qs', steps') && Next(qs[|steps|], qs'[0], s)
    ensures IsRun(qs + qs', steps + [s] + steps')
  {
    var all, moves := qs + qs', steps + [s] + steps';
    forall i | 0 <= i < |moves| ensures Next(all[i], all[i + 1], moves[i]) {
      if i < |steps| {
        assert Next(qs[i], qs[i + 1], steps[i]);
      } else if i > |steps| {
        var j := i - |steps| - 1;
        assert Next(qs'[j], qs'[j + 1], steps'[j]) && moves[i] == steps'[j];
      }
    }
  }

  /** The hypothesis on outside transactions is needed: when the wallet's count is moved to
      any `count` between two sends, the second send carries `count`, whatever the first
      one carried. */
  lemma ExternalBreaksSequence(q: Queue, key: string, count: nat) returns (qs: seq<Queue>, steps: seq<Step>)
    requires Inv(q) && key !in q.queues
    ensures IsRun(qs, steps) && qs[0] == q
    ensures qs[|steps|].log == q.log + [Broadcast(key, Count(q, key)), Broadcast(key, count)]
  {
    hide Inv, Next;
    var first, firstSteps := OneSend(q, key);
    var s := External(key, count);
    var q' := After(first[5], s);
    NextKeeps(first[5], q', s);
    var second, secondSteps := OneSend(q', key);
    RunJoin(first, firstSteps, s, second, secondSteps);
    qs, steps := first + second, firstSteps + [s] + secondSteps;
    assert qs[|steps|] == second[5] && qs[0] == first[0];
  }

  /** The price of a late arrival: it takes the nonce that the next send has read, and the
      node refuses that send. */
  lemma LateArrivalSpoils(q: Queue, key: string) returns (qs: seq<Queue>, steps: seq<Step>)
    requires Inv(q) && key !in q.queues
    ensures IsRun(qs, steps) && qs[0] == q
    ensures var v, u := qs[|steps|], |q.tickets| + 1;
            && v.log == q.log + [Broadcast(key, Count(q, key))]
            && Running(v, u) && v.tickets[u].key == key && !Enabled(v, Deliver(u))
  {
    hide Inv;
    var t := |q.tickets|;
    var first, firstSteps := TurnTaken(q, key);
    var q4 := GivenUp(q, first[3], key);
    var second, secondSteps := TurnTaken(q4, key);
    RunJoin(first, firstSteps, Finish(t, false), second, secondSteps);
    var q8 := After(second[3], Arrive(t));
    assert Next(second[3], q8, Arrive(t)) && IsRun([q8], []);
    qs, steps := first + second, firstSteps + [Finish(t, false)] + secondSteps;
    assert qs[|steps|] == second[3];
    RunJoin(qs, steps, Arrive(t), [q8], []);
    qs, steps := qs + [q8], steps + [Arrive(t)] + [];
    assert qs[|steps|] == q8 && qs[0] == first[0];
  }

  lemma GivenUp(q: Queue, held: Queue, key: string) returns (q': Queue)
    requires Inv(held) && key !in q.queues
    requires held == q.(tickets := q.tickets + [Ticket(key, None, Holding(Count(q, key)))], queues := q.queues[key := |q.tickets|])
    ensures Next(held, q', Finish(|q.tickets|, false)) && Inv(q') && key !in q'.queues && |q'.tickets| == |q.tickets| + 1
    ensures q'.log == q.log && q'.counts == q.counts && q'.tickets[|q.tickets|] == Ticket(key, None, Over(false, Some(Count(q, key))))
  {
    q' := After(held, Finish(|q.tickets|, false));
    FinishKeeps(held, |q.tickets|, false);
  }

  // ------------------------------------------------------------- the adapter itself

  /** The adapter's queue as the object it is: each method is one stretch of sendAs between
      two suspension points. */
  class Adapter {
    var sendQueues: map<string, nat>
    var tickets: seq<Ticket>
    var counts: map<string, nat>
    var broadcasts: seq<Broadcast>

    ghost function State(): Queue
      reads this
    {
      Queue(tickets, sendQueues, counts, broadcasts)
    }

    constructor (node: map<string, nat>)
      ensures Initial(State()) && Inv(State()) && counts == node
    {
      sendQueues, tickets, counts, broadcasts := map[], [], node, [];
    }

    /** Take the place behind the current tail, and become the tail. */
    method Begin(key: string) returns (t: nat)
      requires Inv(State())
      modifies this
      ensures Next(old(State()), State(), Enter(key)) && Inv(State())
      ensures t == old(|tickets|) && Live(State(), t) && sendQueues[key] == t
      ensures forall u: nat :: u < t && tickets[u].key == key && !tickets[u].phase.Over? ==> tickets[t].previous.Some?
    {
      EnterKeeps(State(), key);
      var previous := if key in sendQueues then Some(sendQueues[key]) else None;
      t := |tickets|;
      tickets := tickets + [Ticket(key, previous, Queued)];
      sendQueues := sendQueues[key := t];
    }

    /** The awaited promise has resolved. */
    method Resume(t: nat)
      requires Inv(State()) && Enabled(State(), Wake(t))
      modifies this`tickets
      ensures Next(old(State()), State(), Wake(t)) && Inv(State()) && Running(State(), t)
      ensures forall u: nat :: Running(State(), u) && SameKey(State(), u, t) ==> u == t
    {
      NextKeeps(State(), After(State(), Wake(t)), Wake(t));
      ResolvedIffAheadFinished(State(), t);
      tickets := tickets[t := tickets[t].(phase := Woken)];
      forall u: nat | Running(State(), u) && SameKey(State(), u, t) ensures u == t {
        if u > t { LastEntered(State(), t, u); }
      }
    }

    /** eth_getTransactionCount answers. */
    method TakeNonce(t: nat) returns (nonce: nat)
      requires Inv(State()) && Enabled(State(), ReadNonce(t))
      modifies this`tickets
      ensures Next(old(State()), State(), ReadNonce(t)) && Inv(State())
      ensures tickets[t].phase == Holding(nonce) && nonce == Count(State(), tickets[t].key)
    {
      NextKeeps(State(), After(State(), ReadNonce(t)), ReadNonce(t));
      nonce := if tickets[t].key in counts then counts[tickets[t].key] else 0;
      tickets := tickets[t := tickets[t].(phase := Holding(nonce))];
    }

    /** The node takes the transaction, or refuses it because its nonce is spent. */
    method Send(t: nat) returns (taken: bool)
      requires Inv(State()) && t < |tickets| && tickets[t].phase.Holding?
      modifies this`tickets, this`counts, this`broadcasts
      ensures Inv(State()) && taken == old(Enabled(State(), Deliver(t)))
      ensures if taken then Next(old(State()), State(), Deliver(t)) else State() == old(State())
    {
      hide Inv, PreviousResolved;
      var key, nonce := tickets[t].key, tickets[t].phase.nonce;
      var count := if key in counts then counts[key] else 0;
      if count > nonce {
        return false;
      }
      NextKeeps(State(), After(State(), Deliver(t)), Deliver(t));
      if count == nonce {
        counts := counts[key := nonce + 1];
      }
      broadcasts := broadcasts + [Broadcast(key, nonce)];
      tickets := tickets[t := tickets[t].(phase := Accepted(nonce))];
      taken := true;
    }

    /** A transaction that was given up on reaches the node after all. */
    method Late(t: nat)
      requires Inv(State()) && Enabled(State(), Arrive(t))
      modifies this`tickets, this`counts, this`broadcasts
      ensures Next(old(State()), State(), Arrive(t)) && Inv(State())
      ensures sendQueues == old(sendQueues) && forall u: nat :: Live(State(), u) == old(Live(State(), u))
    {
      hide Inv, PreviousResolved;
      NextKeeps(State(), After(State(), Arrive(t)), Arrive(t));
      var key, nonce := tickets[t].key, tickets[t].phase.late.value;
      var count := if key in counts then counts[key] else 0;
      if count == nonce {
        counts := counts[key := nonce + 1];
      }
      if count <= nonce {
        broadcasts := broadcasts + [Broadcast(key, nonce)];
      }
      tickets := tickets[t := tickets[t].(phase := tickets[t].phase.(late := None))];
    }

    /** The finally block: release the next ticket, and drop the entry unless somebody has
        queued behind. */
    method Release(t: nat, ok: bool)
      requires Inv(State()) && Enabled(State(), Finish(t, ok))
      modifies this`tickets, this`sendQueues
      ensures Next(old(State()), State(), Finish(t, ok)) && Inv(State())
      ensures old(tickets)[t].key in sendQueues <==> exists u: nat :: Live(State(), u) && tickets[u].key == old(tickets)[t].key
    {
      FinishKeeps(State(), t, ok);
      var key := tickets[t].key;
      tickets := tickets[t := tickets[t].(phase := Over(ok, Left(tickets[t].phase)))];
      if key in sendQueues && sendQueues[key] == t {
        sendQueues := sendQueues - {key};
      }
    }
  }
}
