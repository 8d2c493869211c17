/**
 The PostgreSQL tables of the delivery protocol and the triggers that guard them
 (rust/migrations/0002_events.sql, 0003_delivery.sql, 0004_endpoints.sql).

 All tables keyed by a delivery id are grouped in one `Job`: the delivery row, its
 attempt rows by attempt number, its outbox row, its webhook response row and the
 response candidates by attempt token.
 */
module Tables {
  import opened Protocol

  datatype State = Pending | InFlight | RetryWait | Succeeded | Dlq | Expired | Cancelled

  predicate Terminal(s: State) {
    s in {Succeeded, Dlq, Expired, Cancelled}
  }

  datatype Event = Event(workspace: Uuid, app: Uuid, endpoint: Uuid, key: string, payload: Bytes, size: nat,
                         createdAt: Time, expiresAt: Time)

  datatype Delivery = Delivery(event: Uuid, workspace: Uuid, app: Uuid, target: Uuid, generation: int, size: nat,
                               state: State, terminalAt: Option<Time>,
                               count: int, token: Option<Uuid>, agent: Option<Uuid>,
                               startedAt: Option<Time>, leaseUntil: Option<Time>, nextAt: Option<Time>)
  {
    /** The columns the accounting trigger holds immutable. */
    predicate SameIdentity(other: Delivery) {
      && event == other.event && workspace == other.workspace && app == other.app
      && generation == other.generation && size == other.size
    }

    predicate LeaseLive(now: Time) {
      && leaseUntil.Some? && leaseUntil.value > now
      && startedAt.Some? && startedAt.value + MAX_RUNTIME > now
    }

    predicate Due(now: Time) {
      nextAt.None? || nextAt.value <= now
    }

    /** In flight for this agent, with a lease that has not run out. */
    predicate HeldBy(workspace: Uuid, app: Uuid, agent: Uuid, now: Time) {
      && this.workspace == workspace && target == app && this.agent == Some(agent)
      && state == InFlight && LeaseLive(now)
    }
  }

  datatype AttemptOutcome = Success | RetryableFailure | LeaseExpired

  datatype Attempt = Attempt(token: Uuid, agent: Uuid, startedAt: Time, leaseUntil: Time,
                             finishedAt: Option<Time>, outcome: Option<AttemptOutcome>)

  datatype Outbox = Outbox(createdAt: Time, sentAt: Option<Time>, discardedAt: Option<Time>)
  {
    /** Neither published nor given up. */
    predicate Waiting() {
      sentAt.None? && discardedAt.None?
    }
  }

  datatype Policy = Async | Sync(timeoutSeconds: int, expirePending: bool)

  datatype ResponseState = Open | Answered | TimedOut

  datatype Response = Response(policy: Policy, state: ResponseState, deadline: Option<Time>,
                               result: Option<Bytes>, answeredAt: Option<Time>)

  datatype Job = Job(row: Delivery, attempts: map<int, Attempt>, outbox: Outbox, response: Response,
                     candidates: map<Uuid, Bytes>)

  datatype Quota = Quota(deliveries: int, bytes: int)

  datatype Endpoint = Endpoint(workspace: Uuid, app: Uuid, policy: Policy)

  /** `agents` gives the workspace and application each agent id belongs to. */
  datatype Db = Db(clock: Time, agents: map<Uuid, (Uuid, Uuid)>, endpoints: map<Uuid, Endpoint>,
                   events: map<Uuid, Event>, jobs: map<Uuid, Job>, quotas: map<Uuid, Quota>)

  /**
   The clock readings of one transaction: `now()` at BEGIN, the reading taken with the row
   lock, and the reading taken by the final write. BEGIN may precede other commits.
   */
  datatype Stamp = Stamp(begin: Time, read: Time, write: Time)

  predicate ValidStamp(clock: Time, at: Stamp) {
    at.begin <= at.read && clock <= at.read <= at.write
  }

  /** AFTER UPDATE trigger: success promotes the candidate staged under the winning attempt. */
  function Promoted(response: Response, candidate: Bytes, now: Time): Response {
    if response.result.Some? then response
    else
      var inTime := response.state == Open && (response.deadline.None? || response.deadline.value > now);
      response.(result := Some(candidate), answeredAt := Some(now), state := if inTime then Answered else TimedOut)
  }

  /** UPDATE of a delivery row under both triggers; None when a trigger raises. */
  function UpdateRow(job: Job, row: Delivery, at: Stamp): Option<Job> {
    if !row.SameIdentity(job.row) then
      None
    else if job.row.terminalAt.Some? then
      if row.state == job.row.state && row.terminalAt == job.row.terminalAt then Some(job.(row := row)) else None
    else if Terminal(row.state) then
      var outbox := if job.outbox.Waiting()
                    then job.outbox.(discardedAt := Some(at.begin)) else job.outbox;
      var promotes := && job.row.state == InFlight && row.state == Succeeded
                      && job.row.token.Some? && job.row.token.value in job.candidates;
      var response := if promotes then Promoted(job.response, job.candidates[job.row.token.value], at.write)
                      else job.response;
      Some(job.(row := row.(terminalAt := Some(at.begin)), outbox := outbox, response := response))
    else if row.terminalAt.Some? then
      None
    else
      Some(job.(row := row))
  }

  /** Quota release performed by the accounting trigger when a delivery turns terminal. */
  function Released(quotas: map<Uuid, Quota>, before: Job, after: Job): map<Uuid, Quota> {
    var w := before.row.workspace;
    if before.row.terminalAt.None? && after.row.terminalAt.Some? && w in quotas then
      quotas[w := Quota(quotas[w].deliveries - 1, quotas[w].bytes - before.row.size)]
    else quotas
  }

  /** Commit of a transaction that wrote one job. */
  function Commit(db: Db, id: Uuid, job: Job, at: Stamp): Db
    requires id in db.jobs
  {
    db.(clock := at.write, jobs := db.jobs[id := job], quotas := Released(db.quotas, db.jobs[id], job))
  }

  /** Leases an agent holds at `now`, as the admission count sees them. */
  function LiveLeases(db: Db, workspace: Uuid, app: Uuid, agent: Uuid, now: Time): set<Uuid> {
    set id | id in db.jobs && db.jobs[id].row.HeldBy(workspace, app, agent, now)
  }
}
