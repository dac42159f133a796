/** Maintenance jobs: the guards of every action, what an accepted action makes of a job,
    the history each job can have, and the replay of that history on the in-memory chain. */
module Jobs {
  import opened Prelude

  datatype JobStatus = Created | Assigned | InProgress | Completed | Verified | Rejected

  predicate Allowed(current: JobStatus, next: JobStatus) {
    match current
    case Created => next == Assigned
    case Assigned => next == InProgress
    case InProgress => next == Completed
    case Completed => next == Verified || next == Rejected
    case Verified => false
    case Rejected => next == Assigned
  }

  /** `completed` says whether completedAt is set. */
  datatype Row = Row(
    jobId: string, assetId: string, createdBy: string, assignedTo: string, verifierId: Option<string>,
    status: JobStatus, priority: string, completed: bool)

  type Rows = map<string, Row>

  datatype TxType = JobCreate | JobAssign | JobStart | JobComplete | JobApprove | JobReject
  /** The fields of a payload; a prepare request may carry some that are no text. */
  type Fields = map<string, Arg>
  datatype Tx = Tx(kind: TxType, payload: Fields)

  datatype Fault =
    | Invalid | NoAsset | NoIdentity | Exists | NoJob | BadTransition | NotTechnician | OwnWork | OtherVerifier
    | NoSignature | ChainRejected | ChainFailed

  datatype Outcome = Ok(row: Row) | Err(fault: Fault)

  datatype NewJob = NewJob(assetId: Arg, createdBy: Arg, priority: string, jobId: Arg, verifierId: Option<string>)

  datatype Call =
    | Create(input: NewJob)
    | Assign(id: string, technicianId: string)
    | Start(id: string)
    | Complete(id: string, evidenceHash: string)
    | Approve(id: string)
    | Reject(id: string, reason: string)

  datatype Actor = Actor(identityId: string, signature: string)

  /** What the service was built with: the optional registers it checks against, and
      whether the chain is an EVM one. */
  datatype Config = Config(assetExists: Option<string -> bool>, identityExists: Option<string -> bool>, evm: bool)

  predicate IfChecked(register: Option<string -> bool>, id: string) {
    register.Some? ==> register.value(id)
  }

  predicate IsDigest(s: string) {
    |s| == 64 && forall i :: 0 <= i < 64 ==> '0' <= s[i] <= '9' || 'a' <= s[i] <= 'f' || 'A' <= s[i] <= 'F'
  }

  /** The verifier on record; an empty one counts as none. */
  function ChosenVerifier(row: Row): Option<string> {
    if row.verifierId == Some("") then None else row.verifierId
  }

  function TechnicianFault(row: Row, actorId: string): Option<Fault> {
    if row.assignedTo == "" || row.assignedTo != actorId then Some(NotTechnician) else None
  }

  function VerifierFault(row: Row, actorId: string): Option<Fault> {
    if row.assignedTo == actorId then Some(OwnWork)
    else if ChosenVerifier(row).Some? && ChosenVerifier(row).value != actorId then Some(OtherVerifier)
    else None
  }

  /** Past the guards: the transaction to submit and the row to save if it is accepted. */
  datatype Guarded = Stop(fault: Fault) | Pass(tx: Tx, row: Row)

  function GuardCreate(rows: Rows, cfg: Config, input: NewJob): Guarded {
    if Required(input.assetId).None? || Required(input.createdBy).None? || input.priority == "" then Stop(Invalid)
    else
      var id := if Required(input.jobId).Some? then Required(input.jobId).value else "JOB-" + Decimal(|rows| + 1);
      if !IfChecked(cfg.assetExists, input.assetId.text) then Stop(NoAsset)
      else if !IfChecked(cfg.identityExists, input.createdBy.text) then Stop(NoIdentity)
      else if id in rows then Stop(Exists)
      else Pass(Tx(JobCreate, map["jobId" := Text(id), "assetId" := Text(input.assetId.text)]),
                Row(id, input.assetId.text, input.createdBy.text, "", input.verifierId, Created, input.priority, false))
  }

  function GuardAction(row: Row, cfg: Config, actorId: string, c: Call): Guarded
    requires !c.Create?
  {
    match c
    case Assign(_, technician) =>
      if Blank(technician) then Stop(Invalid)
      else if !IfChecked(cfg.identityExists, technician) then Stop(NoIdentity)
      else if !Allowed(row.status, Assigned) then Stop(BadTransition)
      else Pass(Tx(JobAssign, map["jobId" := Text(row.jobId), "technicianId" := Text(technician)]),
                row.(assignedTo := technician, status := Assigned))
    case Start(_) =>
      if !Allowed(row.status, InProgress) then Stop(BadTransition)
      else if TechnicianFault(row, actorId).Some? then Stop(TechnicianFault(row, actorId).value)
      else Pass(Tx(JobStart, map["jobId" := Text(row.jobId)]), row.(status := InProgress))
    case Complete(_, evidence) =>
      if !IsDigest(evidence) then Stop(Invalid)
      else if !Allowed(row.status, Completed) then Stop(BadTransition)
      else if TechnicianFault(row, actorId).Some? then Stop(TechnicianFault(row, actorId).value)
      else Pass(Tx(JobComplete, map["jobId" := Text(row.jobId), "evidenceHash" := Text(evidence)]), row.(status := Completed, completed := true))
    case Approve(_) =>
      if !Allowed(row.status, Verified) then Stop(BadTransition)
      else if VerifierFault(row, actorId).Some? then Stop(VerifierFault(row, actorId).value)
      else Pass(Tx(JobApprove, map["jobId" := Text(row.jobId)]), row.(status := Verified, verifierId := Some(actorId)))
    case Reject(_, reason) =>
      if Blank(reason) then Stop(Invalid)
      else if !Allowed(row.status, Rejected) then Stop(BadTransition)
      else if VerifierFault(row, actorId).Some? then Stop(VerifierFault(row, actorId).value)
      else Pass(Tx(JobReject, map["jobId" := Text(row.jobId), "reason" := Text(reason)]), row.(status := Rejected, verifierId := Some(actorId)))
  }

  function Guard(rows: Rows, cfg: Config, actorId: string, c: Call): Guarded {
    if c.Create? then GuardCreate(rows, cfg, c.input)
    else if c.id !in rows then Stop(NoJob)
    else GuardAction(rows[c.id], cfg, actorId, c)
  }

  /** Threw: the submission had no effect. Lost: it took effect, but the answer did not
      arrive; the service cannot tell the two apart. */
  datatype Answer = Success | Rejection | Threw | Lost

  predicate Unsigned(cfg: Config, actor: Actor) {
    cfg.evm && (Trim(actor.signature) == "" || Trim(actor.signature) == "development")
  }

  /** A write: nothing is saved unless the submission succeeded. */
  function Perform(rows: Rows, cfg: Config, actor: Actor, c: Call, answer: Answer): (Rows, Outcome) {
    match Guard(rows, cfg, actor.identityId, c)
    case Stop(f) => (rows, Err(f))
    case Pass(tx, row) =>
      if Unsigned(cfg, actor) then (rows, Err(NoSignature))
      else match answer
        case Rejection => (rows, Err(ChainRejected))
        case Threw => (rows, Err(ChainFailed))
        case Lost => (rows, Err(ChainFailed))
        case Success => (rows[row.jobId := row], Ok(row))
  }

  // --------------------------------------------------------------------- histories

  /** An accepted transaction, the identity it was submitted for, and the call it was for. */
  datatype Accepted = Accepted(tx: Tx, actorId: string, call: Call)

  /** A field that is text; the empty one stands for a missing field or one of another type. */
  function Field(tx: Tx, key: string): string {
    if key in tx.payload && tx.payload[key].Text? then tx.payload[key].text else ""
  }

  /** The accepted transactions about one job, in order. */
  function History(log: seq<Accepted>, id: string): seq<Accepted>
    decreases |log|
  {
    if log == [] then []
    else
      var last := log[|log| - 1];
      History(log[..|log| - 1], id) + if Field(last.tx, "jobId") == id then [last] else []
  }

  /** Whose verdict a job awaits after this history: the last judge's, else the verifier
      named at creation; an empty one leaves it open. */
  function Judge(h: seq<Accepted>): Option<string>
    requires h != [] && h[0].call.Create?
  {
    var n := |h| - 1;
    if n >= 4 then Some(h[n - n % 4].actorId) else h[0].call.input.verifierId
  }

  /** Entry `i` after the creation, in rounds of four: ASSIGN, then START and COMPLETE by
      the technician it named, then a verdict by somebody else, and by the awaited judge if
      there is one. Only the last verdict of all may be an approval. */
  predicate RoundEntry(h: seq<Accepted>, i: nat)
    requires i + 1 < |h| && h[0].call.Create?
  {
    var e := h[i + 1];
    var technician := Field(h[i + 1 - i % 4].tx, "technicianId");
    match i % 4
    case 0 => e.tx.kind == JobAssign && technician != ""
    case 1 => e.tx.kind == JobStart && e.actorId == technician
    case 2 => e.tx.kind == JobComplete && e.actorId == technician
    case _ =>
      && (e.tx.kind == JobReject || (e.tx.kind == JobApprove && i + 2 == |h|))
      && e.actorId != technician && Judge(h[..i + 1]) in {None, Some(""), Some(e.actorId)}
  }

  predicate Lawful(h: seq<Accepted>) {
    h != [] ==> h[0].tx.kind == JobCreate && h[0].call.Create? && forall i: nat :: i + 1 < |h| ==> RoundEntry(h, i)
  }

  /** The job a history of this length and end leaves behind: asset, creator and priority as
      it was created, the technician last assigned, the last judge as its verifier, and
      completed once and for all by the first completion. */
  predicate Explains(h: seq<Accepted>, row: Row)
    requires h != [] && h[0].call.Create?
  {
    var n, input := |h| - 1, h[0].call.input;
    && input.assetId == Text(row.assetId) && row.assetId == Field(h[0].tx, "assetId")
    && input.createdBy == Text(row.createdBy) && row.priority == input.priority
    && row.verifierId == Judge(h) && (row.completed <==> n >= 3)
    && (n == 0 ==> row.status == Created && row.assignedTo == "")
    && (n > 0 ==>
          && row.assignedTo == Field(h[n - (n - 1) % 4].tx, "technicianId")
          && match n % 4
             case 1 => row.status == Assigned
             case 2 => row.status == InProgress
             case 3 => row.status == Completed
             case _ => row.status == if h[n].tx.kind == JobApprove then Verified else Rejected)
  }

  datatype Board = Board(rows: Rows, log: seq<Accepted>)

  datatype Request = Request(call: Call, actor: Actor, answer: Answer)

  function Serve(b: Board, cfg: Config, q: Request): Board {
    var (rows, r) := Perform(b.rows, cfg, q.actor, q.call, q.answer);
    Board(rows, if r.Ok? then b.log + [Accepted(Guard(b.rows, cfg, q.actor.identityId, q.call).tx, q.actor.identityId, q.call)] else b.log)
  }

  function ServeAll(b: Board, cfg: Config, qs: seq<Request>): Board
    decreases |qs|
  {
    if qs == [] then b else Serve(ServeAll(b, cfg, qs[..|qs| - 1]), cfg, qs[|qs| - 1])
  }

  const EMPTY := Board(map[], [])

  ghost predicate Keyed(rows: Rows) {
    forall id :: id in rows ==> rows[id].jobId == id
  }

  ghost predicate Explained(b: Board, id: string) {
    var h := History(b.log, id);
    Lawful(h) && (id in b.rows <==> h != []) && (id in b.rows ==> Explains(h, b.rows[id]))
  }

  /** Every job has a lawful history that explains it, and only jobs have histories. */
  ghost predicate Consistent(b: Board) {
    Keyed(b.rows) && forall id :: Explained(b, id)
  }

  lemma GuardPasses(rows: Rows, cfg: Config, actorId: string, c: Call)
    requires Keyed(rows) && Guard(rows, cfg, actorId, c).Pass?
    ensures var g := Guard(rows, cfg, actorId, c);
            && Field(g.tx, "jobId") == g.row.jobId
            && (c.Create? ==> g.row.jobId !in rows && g.row.jobId != "" && g.tx.kind == JobCreate
                              && Explains([Accepted(g.tx, actorId, c)], g.row))
            && (!c.Create? ==> g.row.jobId == c.id && c.id in rows && g.row.assetId == rows[c.id].assetId)
  {
    hide TrimStart, TrimEnd, Decimal;
  }

  /** Whether an accepted action may follow on a row. */
  predicate Follows(row: Row, a: Accepted) {
    match a.tx.kind
    case JobCreate => false
    case JobAssign => (row.status == Created || row.status == Rejected) && Field(a.tx, "technicianId") != ""
    case JobStart => row.status == Assigned && row.assignedTo == a.actorId
    case JobComplete => row.status == InProgress && row.assignedTo == a.actorId
    case _ => row.status == Completed && row.assignedTo != a.actorId && row.verifierId in {None, Some(""), Some(a.actorId)}
  }

  /** And what it makes of the row. */
  predicate Continues(before: Row, a: Accepted, after: Row) {
    && Follows(before, a)
    && after.jobId == before.jobId && after.assetId == before.assetId && after.createdBy == before.createdBy
    && after.priority == before.priority
    && after.assignedTo == (if a.tx.kind == JobAssign then Field(a.tx, "technicianId") else before.assignedTo)
    && after.verifierId == (if a.tx.kind == JobApprove || a.tx.kind == JobReject then Some(a.actorId) else before.verifierId)
    && after.completed == (before.completed || a.tx.kind == JobComplete)
    && match a.tx.kind
       case JobCreate => false
       case JobAssign => after.status == Assigned
       case JobStart => after.status == InProgress
       case JobComplete => after.status == Completed
       case JobApprove => after.status == Verified
       case JobReject => after.status == Rejected
  }

  lemma ActionContinues(row: Row, cfg: Config, actorId: string, c: Call)
    requires !c.Create? && GuardAction(row, cfg, actorId, c).Pass?
    ensures var g := GuardAction(row, cfg, actorId, c);
            Continues(row, Accepted(g.tx, actorId, c), g.row)
  {
    assert c.Assign? ==> c.technicianId != "";
  }

  /** A lawful history that explains a job grows into one that explains what the action
      made of it. */
  lemma HistoryGrows(h: seq<Accepted>, row: Row, a: Accepted, row': Row)
    requires h != [] && Lawful(h) && Explains(h, row) && Continues(row, a, row')
    ensures Lawful(h + [a]) && Explains(h + [a], row')
  {
    EntryExact(h, row, a);
    LastEntry(h, row, a, row');
  }

  lemma EarlierEntries(h: seq<Accepted>, a: Accepted)
    requires h != [] && Lawful(h) && h[|h| - 1].tx.kind != JobApprove
    ensures forall i: nat :: i < |h| - 1 ==> RoundEntry(h + [a], i)
  {
    var h' := h + [a];
    forall i: nat | i < |h| - 1 ensures RoundEntry(h', i) {
      assert RoundEntry(h, i);
      assert h'[i + 1] == h[i + 1] && h'[i + 1 - i % 4] == h[i + 1 - i % 4] && h'[..i + 1] == h[..i + 1];
    }
  }

  /** Nothing follows an approval. */
  lemma Closed(h: seq<Accepted>, a: Accepted)
    requires |h| > 1 && h[0].call.Create? && h[|h| - 1].tx.kind == JobApprove
    ensures !Lawful(h + [a])
  {
    var h' := h + [a];
    var n := |h| - 1;
    assert h'[0] == h[0] && h'[n] == h[n];
    assert !RoundEntry(h', n - 1);
  }

  lemma GrowsByEntry(h: seq<Accepted>, a: Accepted)
    requires h != [] && Lawful(h) && h[|h| - 1].tx.kind != JobApprove
    ensures Lawful(h + [a]) <==> RoundEntry(h + [a], |h| - 1)
  {
    EarlierEntries(h, a);
    hide RoundEntry;
    assert (h + [a])[0] == h[0];
  }

  /** An action is the next lawful entry exactly when it may follow on the row. */
  lemma EntryExact(h: seq<Accepted>, row: Row, a: Accepted)
    requires h != [] && Lawful(h) && Explains(h, row)
    ensures Lawful(h + [a]) <==> Follows(row, a)
  {
    if |h| > 1 && h[|h| - 1].tx.kind == JobApprove {
      Closed(h, a);
      assert RoundEntry(h, |h| - 2);
    } else {
      GrowsByEntry(h, a);
      NextEntry(h, row, a);
    }
  }

  lemma NextEntry(h: seq<Accepted>, row: Row, a: Accepted)
    requires h != [] && h[0].call.Create? && Explains(h, row) && row.status != Verified
    ensures RoundEntry(h + [a], |h| - 1) <==> Follows(row, a)
  {
    var h' := h + [a];
    var n := |h| - 1;
    assert h'[n + 1] == a && h'[0] == h[0] && h'[..n + 1] == h;
    if n > 0 { assert h'[n + 1 - n % 4] == if n % 4 == 0 then a else h[n - (n - 1) % 4]; }
  }

  lemma LastEntry(h: seq<Accepted>, row: Row, a: Accepted, row': Row)
    requires h != [] && h[0].call.Create? && Explains(h, row) && Continues(row, a, row')
    ensures Explains(h + [a], row')
  {
    var h' := h + [a];
    var n := |h| - 1;
    assert h'[n + 1] == a && h'[0] == h[0];
    if n > 0 { assert h'[n + 1 - n % 4] == if n % 4 == 0 then a else h[n - (n - 1) % 4]; }
    assert n + 1 >= 4 && (n + 1) % 4 != 0 ==> h'[n + 1 - (n + 1) % 4] == h[n - n % 4];
  }

  lemma ServeConsistent(b: Board, cfg: Config, q: Request)
    requires Consistent(b)
    ensures Consistent(Serve(b, cfg, q))
  {
    hide Guard, Lawful, Explains, Perform, History;
    var b' := Serve(b, cfg, q);
    var g := Guard(b.rows, cfg, q.actor.identityId, q.call);
    if b'.log != b.log {
      ServedPass(b, cfg, q);
      GuardPasses(b.rows, cfg, q.actor.identityId, q.call);
      RowExplained(b, cfg, q);
      forall id ensures Explained(b', id) {
        assert Explained(b, id);
        LogGrows(b.log, Accepted(g.tx, q.actor.identityId, q.call), id);
        assert History(b.log, id) + [] == History(b.log, id);
      }
    } else {
      SameLog(b, cfg, q);
    }
  }

  lemma ServedPass(b: Board, cfg: Config, q: Request)
    requires Serve(b, cfg, q).log != b.log
    ensures var g := Guard(b.rows, cfg, q.actor.identityId, q.call);
            g.Pass? && Serve(b, cfg, q) == Board(b.rows[g.row.jobId := g.row], b.log + [Accepted(g.tx, q.actor.identityId, q.call)])
  {
    hide Guard;
  }

  lemma SameLog(b: Board, cfg: Config, q: Request)
    requires Serve(b, cfg, q).log == b.log
    ensures Serve(b, cfg, q) == b
  {
    hide Guard;
    var (rows, r) := Perform(b.rows, cfg, q.actor, q.call, q.answer);
    assert r.Ok? ==> |Serve(b, cfg, q).log| == |b.log| + 1;
  }

  lemma LogGrows(log: seq<Accepted>, a: Accepted, id: string)
    ensures History(log + [a], id) == History(log, id) + if id == Field(a.tx, "jobId") then [a] else []
  {
    assert (log + [a])[..|log|] == log;
  }

  lemma RowExplained(b: Board, cfg: Config, q: Request)
    requires Consistent(b) && Guard(b.rows, cfg, q.actor.identityId, q.call).Pass?
    ensures var g := Guard(b.rows, cfg, q.actor.identityId, q.call);
            var h := History(b.log, g.row.jobId) + [Accepted(g.tx, q.actor.identityId, q.call)];
            Lawful(h) && Explains(h, g.row)
  {
    GuardPasses(b.rows, cfg, q.actor.identityId, q.call);
    var g := Guard(b.rows, cfg, q.actor.identityId, q.call);
    var a := Accepted(g.tx, q.actor.identityId, q.call);
    var h := History(b.log, g.row.jobId);
    hide History;
    assert Explained(b, g.row.jobId);
    if q.call.Create? {
      assert h == [] && h + [a] == [a];
    } else {
      ActionContinues(b.rows[q.call.id], cfg, q.actor.identityId, q.call);
      HistoryGrows(h, b.rows[q.call.id], a, g.row);
    }
  }

  /** Over every run, each job's accepted transactions are a prefix of
      CREATE (ASSIGN START COMPLETE REJECT)* ASSIGN START COMPLETE APPROVE, with the right
      identity at every place, and the job is in the state its history says. */
  lemma {:induction false} LawfulHistories(cfg: Config, qs: seq<Request>)
    ensures Consistent(ServeAll(EMPTY, cfg, qs))
    decreases |qs|
  {
    if qs != [] {
      LawfulHistories(cfg, qs[..|qs| - 1]);
      ServeConsistent(ServeAll(EMPTY, cfg, qs[..|qs| - 1]), cfg, qs[|qs| - 1]);
    }
  }

  /** What an action submits. */
  function TxFor(c: Call): Tx
    requires !c.Create?
  {
    match c
    case Assign(id, technician) => Tx(JobAssign, map["jobId" := Text(id), "technicianId" := Text(technician)])
    case Start(id) => Tx(JobStart, map["jobId" := Text(id)])
    case Complete(id, evidence) => Tx(JobComplete, map["jobId" := Text(id), "evidenceHash" := Text(evidence)])
    case Approve(id) => Tx(JobApprove, map["jobId" := Text(id)])
    case Reject(id, reason) => Tx(JobReject, map["jobId" := Text(id), "reason" := Text(reason)])
  }

  /** The arguments on their own: a technician the register knows, a digest of 64 hexadecimal
      digits, a reason that is not blank. */
  predicate Sensible(cfg: Config, c: Call) {
    match c
    case Assign(_, technician) => Trim(technician) != "" && (cfg.identityExists.None? || cfg.identityExists.value(technician))
    case Complete(_, evidence) => |evidence| == 64 && forall ch :: ch in evidence ==> ch in "0123456789abcdefABCDEF"
    case Reject(_, reason) => Trim(reason) != ""
    case _ => true
  }

  /** What a refused action is told: first what is wrong with its arguments, then that the
      job is elsewhere in its round, and only then who may do it. */
  function Complaint(row: Row, cfg: Config, actorId: string, c: Call): Fault
    requires !c.Create?
  {
    if !Sensible(cfg, c) then (if c.Assign? && Trim(c.technicianId) != "" then NoIdentity else Invalid)
    else if row.status !in (match c
                            case Assign(_, _) => {Created, Rejected}
                            case Start(_) => {Assigned}
                            case Complete(_, _) => {InProgress}
                            case _ => {Completed}) then BadTransition
    else if c.Start? || c.Complete? then NotTechnician
    else if row.assignedTo == actorId then OwnWork
    else OtherVerifier
  }

  /** An action is accepted exactly when the job exists, its arguments make sense, and it
      continues the job's history lawfully. */
  lemma AcceptedExactly(b: Board, cfg: Config, actorId: string, c: Call)
    requires Consistent(b) && !c.Create?
    ensures var g := Guard(b.rows, cfg, actorId, c);
      && (g.Pass? <==> c.id in b.rows && Sensible(cfg, c) && Lawful(History(b.log, c.id) + [Accepted(TxFor(c), actorId, c)]))
      && (g.Pass? ==> g.tx == TxFor(c))
      && (g.Stop? ==> g.fault == if c.id in b.rows then Complaint(b.rows[c.id], cfg, actorId, c) else NoJob)
  {
    hide Lawful, Explains, History, GuardAction, Follows, Sensible, Complaint;
    if c.id in b.rows {
      assert Explained(b, c.id);
      AssignedSomebody(History(b.log, c.id), b.rows[c.id]);
      EntryExact(History(b.log, c.id), b.rows[c.id], Accepted(TxFor(c), actorId, c));
      PassesExactly(b.rows[c.id], cfg, actorId, c);
    }
  }

  lemma AssignedSomebody(h: seq<Accepted>, row: Row)
    requires h != [] && Lawful(h) && Explains(h, row)
    ensures row.status in {Assigned, InProgress, Completed} ==> row.assignedTo != ""
  {
    var n := |h| - 1;
    if n > 0 {
      var k := n - (n - 1) % 4;
      assert RoundEntry(h, k - 1);
    }
  }

  lemma PassesExactly(row: Row, cfg: Config, actorId: string, c: Call)
    requires !c.Create? && row.jobId == c.id && (row.status in {Assigned, InProgress, Completed} ==> row.assignedTo != "")
    ensures var g := GuardAction(row, cfg, actorId, c);
      && (g.Pass? <==> Sensible(cfg, c) && Follows(row, Accepted(TxFor(c), actorId, c)))
      && (g.Pass? ==> g.tx == TxFor(c))
      && (g.Stop? ==> g.fault == Complaint(row, cfg, actorId, c))
  {
    hide TrimStart, TrimEnd;
    BlankEmpty();
    if c.Complete? { Digest(c.evidenceHash); }
  }

  lemma Digest(s: string)
    ensures IsDigest(s) <==> |s| == 64 && forall ch :: ch in s ==> ch in "0123456789abcdefABCDEF"
  {
    forall i | 0 <= i < |s|
      ensures s[i] in "0123456789abcdefABCDEF" <==> '0' <= s[i] <= '9' || 'a' <= s[i] <= 'f' || 'A' <= s[i] <= 'F'
    {
      HexDigit(s[i]);
    }
    forall ch | ch in s && IsDigest(s) ensures ch in "0123456789abcdefABCDEF" { var i :| 0 <= i < |s| && s[i] == ch; }
  }

  lemma HexDigit(ch: char)
    ensures '0' <= ch <= '9' || 'a' <= ch <= 'f' || 'A' <= ch <= 'F' <==> ch in "0123456789abcdefABCDEF"
  {
    var digits := "0123456789abcdefABCDEF";
    if '0' <= ch <= '9' { assert digits[ch as int - '0' as int] == ch; }
    if 'a' <= ch <= 'f' { assert digits[ch as int - 'a' as int + 10] == ch; }
    if 'A' <= ch <= 'F' { assert digits[ch as int - 'A' as int + 16] == ch; }
  }

  function Objection(rows: Rows, cfg: Config, input: NewJob, id: string): Fault {
    if !input.assetId.Text? || Trim(input.assetId.text) == "" || !input.createdBy.Text? || Trim(input.createdBy.text) == ""
       || input.priority == "" then Invalid
    else if cfg.assetExists.Some? && !cfg.assetExists.value(input.assetId.text) then NoAsset
    else if cfg.identityExists.Some? && !cfg.identityExists.value(input.createdBy.text) then NoIdentity
    else Exists
  }

  /** A creation is accepted exactly when asset and creator are given and known, a priority is
      given, and the job's id, its own once trimmed or the next number, is not in use. */
  lemma CreatedExactly(rows: Rows, cfg: Config, actorId: string, input: NewJob)
    ensures var g := Guard(rows, cfg, actorId, Create(input));
      var id := if input.jobId.Text? && Trim(input.jobId.text) != "" then Trim(input.jobId.text) else "JOB-" + Decimal(|rows| + 1);
      && (g.Pass? <==>
            && input.assetId.Text? && Trim(input.assetId.text) != "" && input.createdBy.Text? && Trim(input.createdBy.text) != ""
            && input.priority != "" && id !in rows
            && (cfg.assetExists.None? || cfg.assetExists.value(input.assetId.text))
            && (cfg.identityExists.None? || cfg.identityExists.value(input.createdBy.text)))
      && (g.Pass? ==>
            && g.tx == Tx(JobCreate, map["jobId" := Text(id), "assetId" := input.assetId]) && g.row.jobId == id
            && Explains([Accepted(g.tx, actorId, Create(input))], g.row))
      && (g.Stop? ==> g.fault == Objection(rows, cfg, input, id))
  {
    hide TrimStart, TrimEnd, Decimal;
  }

  /** A call that fails, for whatever reason, changes no job; one that succeeds changes
      only the job it returns. */
  lemma FailureChangesNothing(rows: Rows, cfg: Config, actor: Actor, c: Call, answer: Answer)
    requires Keyed(rows)
    ensures var (rows', r) := Perform(rows, cfg, actor, c, answer);
            && (r.Err? <==>
                  || Guard(rows, cfg, actor.identityId, c).Stop? || answer != Success
                  || (cfg.evm && Trim(actor.signature) in {"", "development"}))
            && (r.Err? && Guard(rows, cfg, actor.identityId, c).Pass? ==>
                  r.fault == if cfg.evm && Trim(actor.signature) in {"", "development"} then NoSignature
                             else if answer == Rejection then ChainRejected else ChainFailed)
            && (r.Err? ==> rows' == rows)
            && (r.Ok? ==> rows' == rows[r.row.jobId := r.row] && (!c.Create? ==> r.row.jobId == c.id)
                          && (c.Create? ==> r.row.jobId !in rows))
  {
    if Guard(rows, cfg, actor.identityId, c).Pass? { GuardPasses(rows, cfg, actor.identityId, c); }
    hide Guard, Trim;
  }

  // --------------------------------------------------------------- the verifier seat

  lemma VerifierStays(row: Row, cfg: Config, actorId: string, c: Call)
    requires !c.Create? && GuardAction(row, cfg, actorId, c).Pass? && ChosenVerifier(row).Some?
    ensures GuardAction(row, cfg, actorId, c).row.verifierId == row.verifierId
  {
    hide Trim;
  }

  /** Once a job has a verifier, that verifier never changes. */
  lemma {:induction false} VerifierPermanent(b: Board, cfg: Config, qs: seq<Request>, id: string)
    requires Keyed(b.rows) && id in b.rows && ChosenVerifier(b.rows[id]).Some?
    ensures var b' := ServeAll(b, cfg, qs);
            Keyed(b'.rows) && id in b'.rows && b'.rows[id].verifierId == b.rows[id].verifierId
    decreases |qs|
  {
    if qs != [] {
      var q := qs[|qs| - 1];
      var b1 := ServeAll(b, cfg, qs[..|qs| - 1]);
      VerifierPermanent(b, cfg, qs[..|qs| - 1], id);
      FailureChangesNothing(b1.rows, cfg, q.actor, q.call, q.answer);
      if Guard(b1.rows, cfg, q.actor.identityId, q.call).Pass? {
        GuardPasses(b1.rows, cfg, q.actor.identityId, q.call);
        if !q.call.Create? && q.call.id == id { VerifierStays(b1.rows[id], cfg, q.actor.identityId, q.call); }
      }
      hide Guard, GuardAction;
    }
  }

  /** A completed job can be judged by somebody exactly when it has no verifier or its
      verifier is not its technician; and then for approval and rejection alike. */
  lemma JudgeableIff(row: Row, cfg: Config, reason: string)
    requires row.status == Completed && !Blank(reason)
    ensures (exists who :: GuardAction(row, cfg, who, Approve(row.jobId)).Pass?)
            <==> ChosenVerifier(row).None? || ChosenVerifier(row).value != row.assignedTo
    ensures (exists who :: GuardAction(row, cfg, who, Reject(row.jobId, reason)).Pass?)
            <==> ChosenVerifier(row).None? || ChosenVerifier(row).value != row.assignedTo
  {
    hide Trim;
    var who := if ChosenVerifier(row).Some? then ChosenVerifier(row).value else row.assignedTo + "*";
    assert |row.assignedTo + "*"| != |row.assignedTo|;
    if ChosenVerifier(row).None? || ChosenVerifier(row).value != row.assignedTo {
      assert VerifierFault(row, who).None?;
      assert GuardAction(row, cfg, who, Approve(row.jobId)).Pass?;
      assert GuardAction(row, cfg, who, Reject(row.jobId, reason)).Pass?;
    }
  }

  /** Otherwise it stays completed for good, in every continuation. */
  lemma {:induction false} StuckForever(b: Board, cfg: Config, qs: seq<Request>, id: string)
    requires Keyed(b.rows) && id in b.rows && b.rows[id].status == Completed
    requires ChosenVerifier(b.rows[id]) == Some(b.rows[id].assignedTo)
    ensures var b' := ServeAll(b, cfg, qs);
            Keyed(b'.rows) && id in b'.rows && b'.rows[id] == b.rows[id]
    decreases |qs|
  {
    if qs != [] {
      var q := qs[|qs| - 1];
      var b1 := ServeAll(b, cfg, qs[..|qs| - 1]);
      StuckForever(b, cfg, qs[..|qs| - 1], id);
      FailureChangesNothing(b1.rows, cfg, q.actor, q.call, q.answer);
      if Guard(b1.rows, cfg, q.actor.identityId, q.call).Pass? { GuardPasses(b1.rows, cfg, q.actor.identityId, q.call); }
      if !q.call.Create? && q.call.id == id {
        NoWayOut(b1.rows[id], cfg, q.actor.identityId, q.call);
      }
      hide Guard, GuardAction;
    }
  }

  lemma NoWayOut(row: Row, cfg: Config, actorId: string, c: Call)
    requires !c.Create? && row.status == Completed && ChosenVerifier(row) == Some(row.assignedTo)
    ensures GuardAction(row, cfg, actorId, c).Stop?
  {
  }

  /** And a job does get there: rejected by somebody and then reassigned to them. */
  lemma ReassignedToRejecter(row: Row, cfg: Config, who: string, reason: string, evidence: string)
    requires row.status == Completed && ChosenVerifier(row).None? && who != row.assignedTo && !Blank(who) && !Blank(reason)
    requires IfChecked(cfg.identityExists, who) && IsDigest(evidence)
    ensures var r1 := GuardAction(row, cfg, who, Reject(row.jobId, reason));
            && r1.Pass?
            && var r2 := GuardAction(r1.row, cfg, who, Assign(row.jobId, who));
            && r2.Pass?
            && var r3 := GuardAction(r2.row, cfg, who, Start(row.jobId));
            && r3.Pass?
            && var r4 := GuardAction(r3.row, cfg, who, Complete(row.jobId, evidence));
            && r4.Pass? && r4.row.status == Completed && ChosenVerifier(r4.row) == Some(r4.row.assignedTo)
  {
    assert who != "" by { BlankEmpty(); }
    hide TrimStart, TrimEnd;
  }

  // -------------------------------------------------------------- the in-memory ledger

  datatype LedgerJob = LedgerJob(
    assetId: string, createdBy: string, assignedTo: string, verifierId: Option<string>, status: JobStatus,
    priority: string, completed: bool)
  type Ledger = map<string, LedgerJob>

  function TextOf(s: string): Option<string> {
    if s == "" then None else Some(s)
  }

  function LedgerPriority(s: string): string {
    if s == "LOW" || s == "HIGH" || s == "CRITICAL" then s else "MEDIUM"
  }

  /** How the in-memory chain replays a job transaction; it checks nothing. */
  function Record(ledger: Ledger, tx: Tx, sender: string): Ledger {
    var id := Field(tx, "jobId");
    if tx.kind == JobCreate then
      (if id == "" || id in ledger || Field(tx, "assetId") == "" then ledger
       else ledger[id := LedgerJob(Field(tx, "assetId"), sender, "", TextOf(Field(tx, "verifierId")), Created,
                                   LedgerPriority(Field(tx, "priority")), false)])
    else if id == "" || id !in ledger then ledger
    else ledger[id := Recorded(ledger[id], tx)]
  }

  function Recorded(job: LedgerJob, tx: Tx): LedgerJob {
    match tx.kind
    case JobCreate => job
    case JobAssign =>
      job.(assignedTo := if Field(tx, "technicianId") != "" then Field(tx, "technicianId") else job.assignedTo, status := Assigned)
    case JobStart => job.(status := InProgress)
    case JobComplete => job.(status := Completed, completed := true)
    case JobApprove => job.(status := Verified)
    case JobReject => job.(status := Rejected)
  }

  /** Whatever transactions come, no replay drops a job, creates one again or under no id, or
      changes its asset, creator, verifier or priority; a completion stays. */
  lemma RecordKeepsJobs(ledger: Ledger, tx: Tx, sender: string, id: string)
    ensures var after := Record(ledger, tx, sender);
      && (id in ledger ==>
            && id in after && after[id].assetId == ledger[id].assetId && after[id].createdBy == ledger[id].createdBy
            && after[id].verifierId == ledger[id].verifierId && after[id].priority == ledger[id].priority
            && (ledger[id].completed ==> after[id].completed)
            && (after[id] != ledger[id] ==> tx.kind != JobCreate && Field(tx, "jobId") == id != ""))
      && (id in after && id !in ledger ==>
            && id != "" && tx.kind == JobCreate && Field(tx, "jobId") == id && after[id].assetId == Field(tx, "assetId") != ""
            && after[id].createdBy == sender && JustCreated(after[id])
            && after[id].verifierId == (if Field(tx, "verifierId") == "" then None else Some(Field(tx, "verifierId")))
            && after[id].priority == if Field(tx, "priority") in {"LOW", "HIGH", "CRITICAL"} then Field(tx, "priority") else "MEDIUM")
  {
  }

  function Replay(log: seq<Accepted>): Ledger
    decreases |log|
  {
    if log == [] then map[] else Record(Replay(log[..|log| - 1]), log[|log| - 1].tx, log[|log| - 1].actorId)
  }

  /** A job as the chain has it: created by whoever submitted it, with no verifier and of
      medium priority, whatever the repository says, because no payload carries these. */
  function OnLedger(row: Row, submitter: string): LedgerJob {
    LedgerJob(row.assetId, submitter, row.assignedTo, None, row.status, "MEDIUM", row.completed)
  }

  ghost predicate Mirrored(b: Board, ledger: Ledger) {
    && b.rows.Keys == ledger.Keys
    && forall id :: id in b.rows ==> MirroredJob(b, ledger, id)
  }

  ghost predicate MirroredJob(b: Board, ledger: Ledger, id: string)
    requires id in b.rows && id in ledger
  {
    id != "" && History(b.log, id) != [] && ledger[id] == OnLedger(b.rows[id], History(b.log, id)[0].actorId)
  }

  /** What recording the transaction of a passed guard makes of the ledger. */
  lemma RecordFollows(rows: Rows, cfg: Config, actorId: string, c: Call, ledger: Ledger)
    requires Keyed(rows) && rows.Keys == ledger.Keys && "" !in rows && Guard(rows, cfg, actorId, c).Pass?
    requires forall id :: id in rows ==> ledger[id] == OnLedger(rows[id], ledger[id].createdBy)
    ensures var g := Guard(rows, cfg, actorId, c);
            g.row.jobId != "" &&
            Record(ledger, g.tx, actorId) ==
              ledger[g.row.jobId := OnLedger(g.row, if c.Create? then actorId else ledger[c.id].createdBy)]
  {
    GuardPasses(rows, cfg, actorId, c);
    hide TrimStart, TrimEnd, Decimal, GuardAction, Recorded;
    if c.Create? {
      assert c.input.assetId.text != "" by { BlankEmpty(); }
    } else {
      ActionFollows(rows[c.id], cfg, actorId, c, ledger[c.id].createdBy);
    }
  }

  lemma ActionFollows(row: Row, cfg: Config, actorId: string, c: Call, submitter: string)
    requires !c.Create? && GuardAction(row, cfg, actorId, c).Pass?
    ensures var g := GuardAction(row, cfg, actorId, c);
            Recorded(OnLedger(row, submitter), g.tx) == OnLedger(g.row, submitter) && g.tx.kind != JobCreate
  {
    hide TrimStart, TrimEnd;
    assert c.Assign? ==> c.technicianId != "" by { BlankEmpty(); }
  }

  lemma BlankEmpty()
    ensures Blank("")
  {
  }

  lemma ServeMirrors(b: Board, cfg: Config, q: Request, ledger: Ledger)
    requires Consistent(b) && Mirrored(b, ledger) && Serve(b, cfg, q).log != b.log
    ensures var g := Guard(b.rows, cfg, q.actor.identityId, q.call);
            g.Pass? && Mirrored(Serve(b, cfg, q), Record(ledger, g.tx, q.actor.identityId))
  {
    hide Guard, Record, Lawful, Explains, History, Perform;
    var actorId, b' := q.actor.identityId, Serve(b, cfg, q);
    ServedPass(b, cfg, q);
    var g := Guard(b.rows, cfg, actorId, q.call);
    GuardPasses(b.rows, cfg, actorId, q.call);
    RecordFollows(b.rows, cfg, actorId, q.call, ledger);
    forall id | id in b'.rows ensures MirroredJob(b', Record(ledger, g.tx, actorId), id) {
      assert Explained(b, id);
      LogGrows(b.log, Accepted(g.tx, actorId, q.call), id);
      if id in b.rows { assert MirroredJob(b, ledger, id); }
    }
  }

  /** Replaying the accepted submissions on the in-memory chain always gives the jobs of the
      repository: the same ones, with the same asset, technician, status and completion, the
      submitter of the creation as creator, and never a verifier or a priority of their own. */
  lemma {:induction false} ReplayMatches(cfg: Config, qs: seq<Request>)
    ensures var b := ServeAll(EMPTY, cfg, qs); Mirrored(b, Replay(b.log))
    decreases |qs|
  {
    if qs != [] {
      var q := qs[|qs| - 1];
      var b1 := ServeAll(EMPTY, cfg, qs[..|qs| - 1]);
      ReplayMatches(cfg, qs[..|qs| - 1]);
      LawfulHistories(cfg, qs[..|qs| - 1]);
      var b := Serve(b1, cfg, q);
      if b.log != b1.log {
        ServedPass(b1, cfg, q);
        ServeMirrors(b1, cfg, q, Replay(b1.log));
        assert b.log[..|b1.log|] == b1.log;
      } else {
        SameLog(b1, cfg, q);
      }
      hide Guard, Record, Mirrored;
    }
  }

  // -------------------------------------------------------------- lost answers

  /** Whether a request's transaction reaches the in-memory chain. */
  predicate Arrives(b: Board, cfg: Config, q: Request) {
    Guard(b.rows, cfg, q.actor.identityId, q.call).Pass? && !Unsigned(cfg, q.actor) && (q.answer == Success || q.answer == Lost)
  }

  /** The chain after a run in which answers may get lost. */
  function LedgerOf(cfg: Config, qs: seq<Request>): Ledger
    decreases |qs|
  {
    if qs == [] then map[]
    else
      var q := qs[|qs| - 1];
      var b, ledger := ServeAll(EMPTY, cfg, qs[..|qs| - 1]), LedgerOf(cfg, qs[..|qs| - 1]);
      if Arrives(b, cfg, q) then Record(ledger, Guard(b.rows, cfg, q.actor.identityId, q.call).tx, q.actor.identityId) else ledger
  }

  /** A creation of this job took effect and lost its answer. */
  predicate CreationLost(cfg: Config, qs: seq<Request>, id: string)
    decreases |qs|
  {
    qs != [] &&
    var q := qs[|qs| - 1];
    var b := ServeAll(EMPTY, cfg, qs[..|qs| - 1]);
    || CreationLost(cfg, qs[..|qs| - 1], id)
    || (q.call.Create? && q.answer == Lost && Arrives(b, cfg, q) && Guard(b.rows, cfg, q.actor.identityId, q.call).row.jobId == id)
  }

  predicate Level(row: Row, j: LedgerJob) {
    j.status == row.status && j.assignedTo == row.assignedTo && j.completed == row.completed
  }

  /** The chain has the job as the repository does, or one allowed action further on. */
  predicate AtMostOneAhead(row: Row, j: LedgerJob) {
    || Level(row, j)
    || (&& Allowed(row.status, j.status)
        && (j.status != Assigned ==> j.assignedTo == row.assignedTo)
        && j.completed == (row.completed || j.status == Completed))
  }

  predicate JustCreated(j: LedgerJob) {
    j.status == Created && j.assignedTo == "" && !j.completed
  }

  ghost predicate NeverBehind(rows: Rows, ledger: Ledger) {
    && rows.Keys <= ledger.Keys && "" !in ledger
    && (forall id :: id in rows ==> AtMostOneAhead(rows[id], ledger[id]))
    && (forall id :: id in ledger && id !in rows ==> JustCreated(ledger[id]))
  }

  /** However often it was tried before, an action that arrives puts the chain one action
      ahead of the row it was tried on, and level with the row it leads to. */
  lemma ActionArrives(row: Row, cfg: Config, actorId: string, c: Call, j: LedgerJob)
    requires !c.Create? && GuardAction(row, cfg, actorId, c).Pass? && AtMostOneAhead(row, j)
    ensures var g := GuardAction(row, cfg, actorId, c); var j' := Recorded(j, g.tx);
            AtMostOneAhead(row, j') && Level(g.row, j') && j'.assetId == j.assetId
  {
    hide TrimStart, TrimEnd;
    assert c.Assign? ==> c.technicianId != "" by { BlankEmpty(); }
  }

  /** The same for a creation; a second one changes nothing on the chain. */
  lemma CreationArrives(rows: Rows, cfg: Config, actorId: string, c: Call, ledger: Ledger)
    requires c.Create? && Guard(rows, cfg, actorId, c).Pass? && NeverBehind(rows, ledger)
    ensures var g := Guard(rows, cfg, actorId, c); var id := g.row.jobId; var ledger' := Record(ledger, g.tx, actorId);
            && id !in rows && id != "" && id in ledger' && ledger' == ledger[id := ledger'[id]]
            && JustCreated(ledger'[id]) && Level(g.row, ledger'[id])
            && ledger'[id].assetId == if id in ledger then ledger[id].assetId else g.row.assetId
  {
    hide TrimStart, TrimEnd, Decimal;
    BlankEmpty();
  }

  lemma ArrivalKeeps(b: Board, cfg: Config, q: Request, ledger: Ledger)
    requires Keyed(b.rows) && NeverBehind(b.rows, ledger) && Arrives(b, cfg, q)
    ensures var g := Guard(b.rows, cfg, q.actor.identityId, q.call); var ledger' := Record(ledger, g.tx, q.actor.identityId);
            var id := g.row.jobId;
            && NeverBehind(b.rows, ledger') && NeverBehind(b.rows[id := g.row], ledger')
            && id in ledger' && (forall k :: k != id && k in ledger ==> k in ledger' && ledger'[k].assetId == ledger[k].assetId)
            && (if id in ledger then ledger'[id].assetId == ledger[id].assetId else q.call.Create? && ledger'[id].assetId == g.row.assetId)
  {
    hide Guard, Record, AtMostOneAhead, JustCreated, Level, Keyed, Field, Unsigned;
    var actorId := q.actor.identityId;
    GuardPasses(b.rows, cfg, actorId, q.call);
    if q.call.Create? {
      CreationArrives(b.rows, cfg, actorId, q.call, ledger);
      LevelIsAhead(Guard(b.rows, cfg, actorId, q.call).row, Record(ledger, Guard(b.rows, cfg, actorId, q.call).tx, actorId));
    } else {
      ActionRecorded(b.rows, cfg, actorId, q.call, ledger);
    }
  }

  lemma LevelIsAhead(row: Row, ledger: Ledger)
    ensures row.jobId in ledger && Level(row, ledger[row.jobId]) ==> AtMostOneAhead(row, ledger[row.jobId])
  {
  }

  lemma ActionRecorded(rows: Rows, cfg: Config, actorId: string, c: Call, ledger: Ledger)
    requires !c.Create? && c.id in rows && Keyed(rows) && NeverBehind(rows, ledger) && Guard(rows, cfg, actorId, c).Pass?
    ensures var g := Guard(rows, cfg, actorId, c); var ledger' := Record(ledger, g.tx, actorId);
            && c.id in ledger && c.id in ledger' && ledger' == ledger[c.id := ledger'[c.id]]
            && AtMostOneAhead(rows[c.id], ledger'[c.id]) && AtMostOneAhead(g.row, ledger'[c.id])
            && ledger'[c.id].assetId == ledger[c.id].assetId
  {
    hide AtMostOneAhead, Level, Recorded, JustCreated;
    GuardPasses(rows, cfg, actorId, c);
    ActionArrives(rows[c.id], cfg, actorId, c, ledger[c.id]);
    LevelIsAhead(Guard(rows, cfg, actorId, c).row, Record(ledger, Guard(rows, cfg, actorId, c).tx, actorId));
  }

  /** The repository and its log move on exactly with an answered arrival. */
  lemma ServedExactly(b: Board, cfg: Config, q: Request)
    ensures var g := Guard(b.rows, cfg, q.actor.identityId, q.call);
            Serve(b, cfg, q) == if Arrives(b, cfg, q) && q.answer == Success
                                then Board(b.rows[g.row.jobId := g.row], b.log + [Accepted(g.tx, q.actor.identityId, q.call)]) else b
    ensures Arrives(b, cfg, q) ==> q.answer == Success || q.answer == Lost
  {
    hide Guard, Unsigned;
  }

  /** With lost answers the chain may be ahead of the repository, but never behind it, and
      by one allowed action at most: every job of the repository is on the chain, and a job
      only the chain has is a creation whose answer was lost. A job has the repository's
      asset there unless its creation once lost its answer. */
  lemma {:induction false} LedgerNeverBehind(cfg: Config, qs: seq<Request>)
    ensures var b, ledger := ServeAll(EMPTY, cfg, qs), LedgerOf(cfg, qs);
      && Keyed(b.rows) && NeverBehind(b.rows, ledger)
      && (forall id :: id in ledger && !CreationLost(cfg, qs, id) ==> id in b.rows && ledger[id].assetId == b.rows[id].assetId)
    decreases |qs|
  {
    if qs != [] {
      var q := qs[|qs| - 1];
      var b1 := ServeAll(EMPTY, cfg, qs[..|qs| - 1]);
      LedgerNeverBehind(cfg, qs[..|qs| - 1]);
      ServedExactly(b1, cfg, q);
      if Arrives(b1, cfg, q) {
        GuardPasses(b1.rows, cfg, q.actor.identityId, q.call);
        ArrivalKeeps(b1, cfg, q, LedgerOf(cfg, qs[..|qs| - 1]));
      }
      hide Guard, Record, AtMostOneAhead, JustCreated, Unsigned, Serve;
    }
  }

  /** With no lost answer the chain is the replay of the accepted submissions. */
  lemma {:induction false} NothingLost(cfg: Config, qs: seq<Request>)
    requires forall k :: 0 <= k < |qs| ==> qs[k].answer != Lost
    ensures LedgerOf(cfg, qs) == Replay(ServeAll(EMPTY, cfg, qs).log)
    decreases |qs|
  {
    if qs != [] {
      var q := qs[|qs| - 1];
      var b1 := ServeAll(EMPTY, cfg, qs[..|qs| - 1]);
      NothingLost(cfg, qs[..|qs| - 1]);
      ServedExactly(b1, cfg, q);
      var b := Serve(b1, cfg, q);
      if Arrives(b1, cfg, q) { assert b.log[..|b1.log|] == b1.log; }
      hide Guard, Record, Arrives, Serve;
    }
  }

  /** A lost creation is not harmless: the repository gives the next job the same generated
      id, and the chain keeps the first one's asset under it. */
  lemma LostCreationMisleads(cfg: Config, first: Request, second: Request)
    requires first.call.Create? && second.call.Create? && first.answer == Lost && second.answer == Success
    requires first.call.input.jobId == second.call.input.jobId == Absent && first.call.input.assetId != second.call.input.assetId
    requires Guard(map[], cfg, first.actor.identityId, first.call).Pass? && Guard(map[], cfg, second.actor.identityId, second.call).Pass?
    requires !Unsigned(cfg, first.actor) && !Unsigned(cfg, second.actor)
    ensures var qs := [first, second]; var b, ledger, id := ServeAll(EMPTY, cfg, qs), LedgerOf(cfg, qs), "JOB-" + Decimal(1);
      && id in b.rows && b.rows[id].assetId == second.call.input.assetId.text
      && id in ledger && ledger[id].assetId == first.call.input.assetId.text != b.rows[id].assetId
  {
    hide Decimal, TrimStart, TrimEnd;
    var qs := [first, second];
    assert qs[..1] == [first] && [first][..0] == [];
    assert ServeAll(EMPTY, cfg, [first]) == Serve(EMPTY, cfg, first) == EMPTY;
    BlankEmpty();
    assert LedgerOf(cfg, [first]) == Record(map[], Guard(map[], cfg, first.actor.identityId, first.call).tx, first.actor.identityId);
  }

  // ---------------------------------------------------------------- device signing

  datatype Prepared = Payload(tx: Tx) | NotPrepared(fault: Fault)

  /** The action a prepare request describes: its kind, the job from the path, and fields
      from the free-form payload. */
  function Described(kind: TxType, id: string, payload: Fields): Option<Call> {
    match kind
    case JobCreate => None
    case JobAssign => Some(Assign(id, Field(Tx(kind, payload), "technicianId")))
    case JobStart => Some(Start(id))
    case JobComplete => Some(Complete(id, Field(Tx(kind, payload), "evidenceHash")))
    case JobApprove => Some(Approve(id))
    case JobReject => Some(Reject(id, Field(Tx(kind, payload), "reason")))
  }

  /** prepare, guard by guard; the request's own payload is spread over `jobId`. */
  function Prepare(rows: Rows, cfg: Config, actorId: string, kind: TxType, id: string, payload: Fields): Prepared
    requires kind != JobCreate
  {
    if id !in rows then NotPrepared(NoJob)
    else
      var fault := PrepareFault(rows[id], cfg, actorId, kind, payload);
      if fault.Some? then NotPrepared(fault.value) else Payload(Tx(kind, map["jobId" := Text(id)] + payload))
  }

  predicate HasText(payload: Fields, key: string) {
    key in payload && payload[key].Text?
  }

  function PrepareFault(row: Row, cfg: Config, actorId: string, kind: TxType, payload: Fields): Option<Fault>
    requires kind != JobCreate
  {
    if kind == JobAssign then
      (if !HasText(payload, "technicianId") || Blank(payload["technicianId"].text) then Some(Invalid)
       else if !IfChecked(cfg.identityExists, payload["technicianId"].text) then Some(NoIdentity)
       else if !Allowed(row.status, Assigned) then Some(BadTransition) else None)
    else if kind == JobStart then
      (if !Allowed(row.status, InProgress) then Some(BadTransition) else TechnicianFault(row, actorId))
    else if kind == JobComplete then
      (if !HasText(payload, "evidenceHash") || !IsDigest(payload["evidenceHash"].text) then Some(Invalid)
       else if !Allowed(row.status, Completed) then Some(BadTransition) else TechnicianFault(row, actorId))
    else if kind == JobApprove then
      (if !Allowed(row.status, Verified) then Some(BadTransition) else VerifierFault(row, actorId))
    else if !HasText(payload, "reason") || Blank(payload["reason"].text) then Some(Invalid)
    else if !Allowed(row.status, Rejected) then Some(BadTransition) else VerifierFault(row, actorId)
  }

  /** What the mutation would submit besides the job id. */
  function ExpectedFields(kind: TxType): set<string> {
    match kind
    case JobAssign => {"technicianId"}
    case JobComplete => {"evidenceHash"}
    case JobReject => {"reason"}
    case _ => {}
  }

  /** The request's payload adds nothing to what the mutation would submit for this job. */
  predicate Plain(kind: TxType, id: string, payload: Fields) {
    payload.Keys <= ExpectedFields(kind) + {"jobId"} && ("jobId" in payload ==> payload["jobId"] == Text(id))
  }

  /** A preparation stops exactly where the action stops, with the same fault. When both
      pass, they carry the same payload exactly when the request's payload has no further
      field and does not name another job; a request that names another job is prepared for
      that job, though the guards looked at this one. */
  lemma PrepareAgrees(rows: Rows, cfg: Config, actorId: string, kind: TxType, id: string, payload: Fields)
    requires Keyed(rows) && kind != JobCreate
    ensures var g := Guard(rows, cfg, actorId, Described(kind, id, payload).value);
            var p := Prepare(rows, cfg, actorId, kind, id, payload);
            && (g.Stop? ==> p == NotPrepared(g.fault))
            && (g.Pass? ==>
                  && p.Payload? && p.tx.kind == g.tx.kind
                  && (p.tx == g.tx <==> Plain(kind, id, payload))
                  && ("jobId" in payload ==> p.tx.payload["jobId"] == payload["jobId"]))
  {
    hide TrimStart, TrimEnd;
    BlankEmpty();
    assert !IsDigest("");
    var g := Guard(rows, cfg, actorId, Described(kind, id, payload).value);
    if g.Pass? {
      SamePayload(kind, id, payload, g.tx.payload);
    }
  }

  lemma SamePayload(kind: TxType, id: string, payload: Fields, expected: Fields)
    requires ExpectedFields(kind) <= payload.Keys
    requires expected.Keys == ExpectedFields(kind) + {"jobId"} && expected["jobId"] == Text(id)
    requires forall k :: k in ExpectedFields(kind) ==> expected[k] == payload[k]
    ensures map["jobId" := Text(id)] + payload == expected <==> Plain(kind, id, payload)
  {
    var merged := map["jobId" := Text(id)] + payload;
    if Plain(kind, id, payload) {
      assert merged.Keys == expected.Keys;
      assert forall k :: k in merged ==> merged[k] == expected[k];
    }
    if merged == expected {
      assert payload.Keys <= merged.Keys;
      assert "jobId" in payload ==> merged["jobId"] == payload["jobId"];
    }
  }
}
