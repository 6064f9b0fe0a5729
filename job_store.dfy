/**
 * The external Job Store, as far as the core talks to it. Its answers are scripted:
 * job searches are answered, in order, from `findReplies`; jobs fetched by id come from
 * `jobsById`, which writes update; the running-jobs search returns `runningJobs`; a creation returns
 * `createReply`. Every search, write and creation is logged.
 *
 * `StoreState` is the whole store as a value; the step functions say what one call
 * answers and how it changes the store, and the methods of `JobStore` are proved to
 * follow them.
 */
module JobStore {
  import opened Wrappers
  import opened Common

  /** The answer to one `GET /jobs` search: a (possibly absent) list, or a failed request. */
  datatype FindReply = Answered(jobs: Option<seq<ExportJob>>) | Unavailable

  /** The criteria of a `GET /jobs` search. */
  datatype FindJobsQuery = FindJobsQuery(
    resourceId: string,
    version: string,
    isCleaned: bool,
    jobType: string,
    shouldReturnTasks: bool,
    status: OperationStatus)

  /** One `PUT /jobs/{id}` with a new `parameters` object. */
  datatype PutCall = PutCall(jobId: JobId, parameters: ExportJobParameters)

  datatype StoreState = StoreState(
    findReplies: seq<FindReply>,
    findLog: seq<FindJobsQuery>,
    jobsById: map<JobId, ExportJob>,
    putLog: seq<PutCall>,
    runningJobs: seq<ExportJob>,
    createLog: seq<CreateJobBody>,
    createReply: CreatedJob)

  /** What a call returned, and the store after it. */
  datatype Effect<T> = Effect(value: T, after: StoreState)

  /** A search consumes the next scripted reply; an exhausted script answers like a failed request. */
  function FindJobsStep(s: StoreState, q: FindJobsQuery): (e: Effect<Result<Option<seq<ExportJob>>, Error>>)
    ensures e.after.findLog == s.findLog + [q]
    ensures e.after.findReplies == if s.findReplies == [] then [] else s.findReplies[1..]
    ensures e.after == s.(findReplies := e.after.findReplies, findLog := e.after.findLog)
    ensures e.value.Ok? <==> s.findReplies != [] && s.findReplies[0].Answered?
    ensures e.value.Ok? ==> e.value.value == s.findReplies[0].jobs
  {
    var after := s.(findLog := s.findLog + [q], findReplies := if s.findReplies == [] then [] else s.findReplies[1..]);
    if s.findReplies == [] then Effect(Err(UpstreamError), after)
    else match s.findReplies[0]
      case Unavailable => Effect(Err(UpstreamError), after)
      case Answered(jobs) => Effect(Ok(jobs), after)
  }

  /** `GET /jobs/{id}`: the stored job, or NotFound. */
  function GetJobStep(s: StoreState, id: JobId): (r: Result<ExportJob, Error>)
    ensures r.Ok? <==> id in s.jobsById
    ensures r.Ok? ==> r.value == s.jobsById[id]
    ensures r.Err? ==> r.error == NotFound(id)
  {
    if id in s.jobsById then Ok(s.jobsById[id]) else Err(NotFound(id))
  }

  /** The jobs after one write: the named job, when stored, takes the written parameters. */
  function ApplyPut(jobs: map<JobId, ExportJob>, put: PutCall): (after: map<JobId, ExportJob>)
    ensures after.Keys == jobs.Keys
    ensures forall id :: id in jobs && id != put.jobId ==> after[id] == jobs[id]
    ensures put.jobId in jobs ==> after[put.jobId] == jobs[put.jobId].(parameters := put.parameters)
  {
    if put.jobId in jobs then jobs[put.jobId := jobs[put.jobId].(parameters := put.parameters)] else jobs
  }

  /** The jobs after a sequence of writes, applied in order. */
  function ApplyPuts(jobs: map<JobId, ExportJob>, puts: seq<PutCall>): map<JobId, ExportJob>
  {
    if puts == [] then jobs else ApplyPut(ApplyPuts(jobs, puts[..|puts| - 1]), puts[|puts| - 1])
  }

  /** The parameters last written to `id`, if any write names it. */
  function LastWrite(puts: seq<PutCall>, id: JobId): Option<ExportJobParameters>
  {
    if puts == [] then None
    else if puts[|puts| - 1].jobId == id then Some(puts[|puts| - 1].parameters)
    else LastWrite(puts[..|puts| - 1], id)
  }

  /** Writing `a` and then `b` is writing `a + b`. */
  lemma {:induction false} ApplyPutsAppend(jobs: map<JobId, ExportJob>, a: seq<PutCall>, b: seq<PutCall>)
    ensures ApplyPuts(jobs, a + b) == ApplyPuts(ApplyPuts(jobs, a), b)
  {
    if b == [] {
      assert a + b == a;
    } else {
      assert (a + b)[..|a + b| - 1] == a + b[..|b| - 1];
      ApplyPutsAppend(jobs, a, b[..|b| - 1]);
    }
  }

  /**
   * Writes never add or remove a job; a job no write names is unchanged, and a job some
   * write names holds the parameters of the last write to it, with its other fields unchanged.
   */
  lemma {:induction false} ApplyPutsLastWriteWins(jobs: map<JobId, ExportJob>, puts: seq<PutCall>)
    ensures ApplyPuts(jobs, puts).Keys == jobs.Keys
    ensures forall id :: id in jobs ==>
              ApplyPuts(jobs, puts)[id] == match LastWrite(puts, id)
                                          case None => jobs[id]
                                          case Some(p) => jobs[id].(parameters := p)
  {
    if puts != [] {
      ApplyPutsLastWriteWins(jobs, puts[..|puts| - 1]);
    }
  }

  /** `PUT /jobs/{id}` is logged and replaces the stored job's parameters; nothing else changes. */
  function PutStep(s: StoreState, id: JobId, parameters: ExportJobParameters): (after: StoreState)
    ensures after.putLog == s.putLog + [PutCall(id, parameters)]
    ensures after.jobsById.Keys == s.jobsById.Keys
    ensures id in s.jobsById ==> after.jobsById[id] == s.jobsById[id].(parameters := parameters)
    ensures forall other :: other in s.jobsById && other != id ==> after.jobsById[other] == s.jobsById[other]
    ensures after == s.(putLog := after.putLog, jobsById := after.jobsById)
  {
    s.(putLog := s.putLog + [PutCall(id, parameters)], jobsById := ApplyPut(s.jobsById, PutCall(id, parameters)))
  }

  /** `POST /jobs` is logged and answered with the scripted creation reply. */
  function CreateStep(s: StoreState, body: CreateJobBody): (e: Effect<CreatedJob>)
    ensures e.value == s.createReply
    ensures e.after.createLog == s.createLog + [body]
    ensures e.after == s.(createLog := e.after.createLog)
  {
    Effect(s.createReply, s.(createLog := s.createLog + [body]))
  }

  class JobStore {
    var findReplies: seq<FindReply>
    var findLog: seq<FindJobsQuery>
    var jobsById: map<JobId, ExportJob>
    var putLog: seq<PutCall>
    var runningJobs: seq<ExportJob>
    var createLog: seq<CreateJobBody>
    var createReply: CreatedJob

    ghost function State(): StoreState
      reads this
    {
      StoreState(findReplies, findLog, jobsById, putLog, runningJobs, createLog, createReply)
    }

    constructor (initial: StoreState)
      ensures State() == initial
    {
      findReplies := initial.findReplies;
      findLog := initial.findLog;
      jobsById := initial.jobsById;
      putLog := initial.putLog;
      runningJobs := initial.runningJobs;
      createLog := initial.createLog;
      createReply := initial.createReply;
    }

    method FindJobs(q: FindJobsQuery) returns (r: Result<Option<seq<ExportJob>>, Error>)
      modifies this`findReplies, this`findLog
      ensures Effect(r, State()) == FindJobsStep(old(State()), q)
    {
      findLog := findLog + [q];
      if findReplies == [] {
        r := Err(UpstreamError);
      } else {
        var reply := findReplies[0];
        findReplies := findReplies[1..];
        r := if reply.Answered? then Ok(reply.jobs) else Err(UpstreamError);
      }
    }

    method GetJob(id: JobId) returns (r: Result<ExportJob, Error>)
      ensures r == GetJobStep(State(), id)
    {
      r := if id in jobsById then Ok(jobsById[id]) else Err(NotFound(id));
    }

    method Put(id: JobId, parameters: ExportJobParameters)
      modifies this`putLog, this`jobsById
      ensures State() == PutStep(old(State()), id, parameters)
    {
      putLog := putLog + [PutCall(id, parameters)];
      if id in jobsById {
        jobsById := jobsById[id := jobsById[id].(parameters := parameters)];
      }
    }

    method CreateJob(body: CreateJobBody) returns (created: CreatedJob)
      modifies this`createLog
      ensures Effect(created, State()) == CreateStep(old(State()), body)
    {
      createLog := createLog + [body];
      created := createReply;
    }

    /** The search for every currently running export job. */
    method FindAllProcessingExportJobs() returns (jobs: seq<ExportJob>)
      ensures jobs == runningJobs
    {
      jobs := runningJobs;
    }
  }
}
