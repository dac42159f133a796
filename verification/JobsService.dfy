/** The jobs service as the object it is: job records are live objects that the repository
    hands out by reference and each action changes in place, after its submission. */
module JobsService {
  import opened Prelude
  import opened Jobs

  class Job {
    const jobId: string
    const assetId: string
    const createdBy: string
    const priority: string
    var assignedTo: string
    var verifierId: Option<string>
    var status: JobStatus
    var completed: bool

    constructor (row: Row)
      ensures RowOf() == row
    {
      jobId, assetId, createdBy, priority := row.jobId, row.assetId, row.createdBy, row.priority;
      assignedTo, verifierId, status, completed := row.assignedTo, row.verifierId, row.status, row.completed;
    }

    function RowOf(): Row
      reads this
    {
      Row(jobId, assetId, createdBy, assignedTo, verifierId, status, priority, completed)
    }
  }

  class Service {
    /** The memory repository: ids to live records. */
    var repository: map<string, Job>
    const cfg: Config

    ghost predicate Valid()
      reads this
    {
      forall id :: id in repository ==> repository[id].jobId == id
    }

    ghost function State(): Rows
      reads this, repository.Values
    {
      map id | id in repository :: repository[id].RowOf()
    }

    constructor (cfg: Config)
      ensures Valid() && State() == map[] && this.cfg == cfg
    {
      this.cfg := cfg;
      repository := map[];
    }

    method AssertTransition(current: JobStatus, next: JobStatus) returns (fault: Option<Fault>)
      ensures fault == if Allowed(current, next) then None else Some(BadTransition)
    {
      fault := if Allowed(current, next) then None else Some(BadTransition);
    }

    /** The signature check and the chain's answer. */
    method Submit(actor: Actor, answer: Answer) returns (fault: Option<Fault>)
      ensures fault == if Unsigned(cfg, actor) then Some(NoSignature)
                       else match answer case Success => None case Rejection => Some(ChainRejected) case _ => Some(ChainFailed)
    {
      var signature := Trim(actor.signature);
      if cfg.evm && (signature == "" || signature == "development") {
        return Some(NoSignature);
      }
      match answer
      case Success => fault := None;
      case Rejection => fault := Some(ChainRejected);
      case _ => fault := Some(ChainFailed);
    }

    /** The checks of create, up to the transaction and the record it would save. */
    method CheckNew(input: NewJob) returns (g: Guarded)
      requires Valid()
      ensures g == GuardCreate(State(), cfg, input)
    {
      hide Decimal, TrimStart, TrimEnd;
      if Required(input.assetId).None? || Required(input.createdBy).None? || input.priority == "" {
        return Stop(Invalid);
      }
      SameSize();
      var id := if Required(input.jobId).Some? then Required(input.jobId).value else "JOB-" + Decimal(|repository| + 1);
      if cfg.assetExists.Some? && !cfg.assetExists.value(input.assetId.text) {
        return Stop(NoAsset);
      }
      if cfg.identityExists.Some? && !cfg.identityExists.value(input.createdBy.text) {
        return Stop(NoIdentity);
      }
      if id in repository {
        return Stop(Exists);
      }
      g := Pass(Tx(JobCreate, map["jobId" := Text(id), "assetId" := Text(input.assetId.text)]),
                Row(id, input.assetId.text, input.createdBy.text, "", input.verifierId, Created, input.priority, false));
    }

    method Create(input: NewJob, actor: Actor, answer: Answer) returns (r: Outcome)
      requires Valid()
      modifies this
      ensures Valid() && (State(), r) == Perform(old(State()), cfg, actor, Call.Create(input), answer)
    {
      var g := CheckNew(input);
      hide GuardCreate, Trim;
      if g.Stop? {
        return Err(g.fault);
      }
      var fault := Submit(actor, answer);
      if fault.Some? {
        return Err(fault.value);
      }
      var job := new Job(g.row);
      repository := repository[job.jobId := job];
      RecordAdded(job.jobId, job);
      r := Ok(g.row);
    }

    lemma SameSize()
      ensures |State()| == |repository|
    {
      assert State().Keys == repository.Keys;
      assert |State()| == |State().Keys| && |repository| == |repository.Keys|;
    }

    /** What storing a new record does to the rows. */
    twostate lemma RecordAdded(id: string, new job: Job)
      requires old(Valid()) && repository == old(repository)[id := job] && job.jobId == id
      requires forall k :: k in old(repository) ==> repository[k].RowOf() == old(repository[k].RowOf()) || k == id
      ensures Valid() && State() == old(State())[id := job.RowOf()]
    {
    }

    /** What changing one live record does to the rows. */
    twostate lemma RecordChanged(id: string)
      requires old(Valid()) && repository == old(repository) && id in repository
      requires forall k :: k in repository && k != id ==> repository[k].RowOf() == old(repository[k].RowOf())
      ensures Valid() && State() == old(State())[id := repository[id].RowOf()]
    {
    }

    method Assign(id: string, technicianId: string, actor: Actor, answer: Answer) returns (r: Outcome)
      requires Valid()
      modifies repository.Values
      ensures Valid() && (State(), r) == Perform(old(State()), cfg, actor, Call.Assign(id, technicianId), answer)
    {
      hide TrimStart, TrimEnd;
      if id !in repository {
        return Err(NoJob);
      }
      var job := repository[id];
      if Blank(technicianId) {
        return Err(Invalid);
      }
      if cfg.identityExists.Some? && !cfg.identityExists.value(technicianId) {
        return Err(NoIdentity);
      }
      var fault := AssertTransition(job.status, Assigned);
      if fault.None? {
        fault := Submit(actor, answer);
      }
      if fault.Some? {
        return Err(fault.value);
      }
      job.assignedTo := technicianId;
      job.status := Assigned;
      RecordChanged(id);
      r := Ok(job.RowOf());
    }

    method RequireAssignedTechnician(job: Job, actor: Actor) returns (fault: Option<Fault>)
      ensures fault == TechnicianFault(job.RowOf(), actor.identityId)
    {
      fault := if job.assignedTo == "" || job.assignedTo != actor.identityId then Some(NotTechnician) else None;
    }

    method RequireIndependentVerifier(job: Job, actor: Actor) returns (fault: Option<Fault>)
      ensures fault == VerifierFault(job.RowOf(), actor.identityId)
    {
      if job.assignedTo == actor.identityId {
        return Some(OwnWork);
      }
      if job.verifierId.Some? && job.verifierId.value != "" && job.verifierId.value != actor.identityId {
        return Some(OtherVerifier);
      }
      fault := None;
    }

    method Start(id: string, actor: Actor, answer: Answer) returns (r: Outcome)
      requires Valid()
      modifies repository.Values
      ensures Valid() && (State(), r) == Perform(old(State()), cfg, actor, Call.Start(id), answer)
    {
      if id !in repository {
        return Err(NoJob);
      }
      var job := repository[id];
      var fault := AssertTransition(job.status, InProgress);
      if fault.None? {
        fault := RequireAssignedTechnician(job, actor);
      }
      if fault.None? {
        fault := Submit(actor, answer);
      }
      if fault.Some? {
        return Err(fault.value);
      }
      job.status := InProgress;
      RecordChanged(id);
      r := Ok(job.RowOf());
    }

    method Complete(id: string, evidenceHash: string, actor: Actor, answer: Answer) returns (r: Outcome)
      requires Valid()
      modifies repository.Values
      ensures Valid() && (State(), r) == Perform(old(State()), cfg, actor, Call.Complete(id, evidenceHash), answer)
    {
      if id !in repository {
        return Err(NoJob);
      }
      var job := repository[id];
      if !IsDigest(evidenceHash) {
        return Err(Invalid);
      }
      var fault := AssertTransition(job.status, Completed);
      if fault.None? {
        fault := RequireAssignedTechnician(job, actor);
      }
      if fault.None? {
        fault := Submit(actor, answer);
      }
      if fault.Some? {
        return Err(fault.value);
      }
      job.status := Completed;
      job.completed := true;
      RecordChanged(id);
      r := Ok(job.RowOf());
    }

    method Approve(id: string, actor: Actor, answer: Answer) returns (r: Outcome)
      requires Valid()
      modifies repository.Values
      ensures Valid() && (State(), r) == Perform(old(State()), cfg, actor, Call.Approve(id), answer)
    {
      if id !in repository {
        return Err(NoJob);
      }
      var job := repository[id];
      var fault := AssertTransition(job.status, Verified);
      if fault.None? {
        fault := RequireIndependentVerifier(job, actor);
      }
      if fault.None? {
        fault := Submit(actor, answer);
      }
      if fault.Some? {
        return Err(fault.value);
      }
      job.status := Verified;
      job.verifierId := Some(actor.identityId);
      RecordChanged(id);
      r := Ok(job.RowOf());
    }

    method Reject(id: string, reason: string, actor: Actor, answer: Answer) returns (r: Outcome)
      requires Valid()
      modifies repository.Values
      ensures Valid() && (State(), r) == Perform(old(State()), cfg, actor, Call.Reject(id, reason), answer)
    {
      hide TrimStart, TrimEnd;
      if id !in repository {
        return Err(NoJob);
      }
      var job := repository[id];
      if Blank(reason) {
        return Err(Invalid);
      }
      var fault := AssertTransition(job.status, Rejected);
      if fault.None? {
        fault := RequireIndependentVerifier(job, actor);
      }
      if fault.None? {
        fault := Submit(actor, answer);
      }
      if fault.Some? {
        return Err(fault.value);
      }
      job.status := Rejected;
      job.verifierId := Some(actor.identityId);
      RecordChanged(id);
      r := Ok(job.RowOf());
    }
  }
}
