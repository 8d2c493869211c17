/**
 What each committed transaction does to the tables: rust/src/delivery.rs, events.rs,
 outbox.rs and responses.rs, one specification function per transaction.
 */
module Transactions {
  import opened Protocol
  import opened Tables
  import opened Sets

  datatype Answer<+T> = Answer(db: Db, result: Result<T, DeliveryError>)

  /** What a presence read yields: the stored owner, or a Redis failure. */
  datatype PresenceReply = Up(owner: Option<Owner>) | Down

  /** The three presence reads of a claim, in the order they may happen. */
  datatype ClaimReads = ClaimReads(before: PresenceReply, online: PresenceReply, after: PresenceReply)

  // ---- finish_attempt ------------------------------------------------------

  function FinishedAttempts(attempts: map<int, Attempt>, n: int, outcome: AttemptOutcome, now: Time)
    : map<int, Attempt>
  {
    if n in attempts && attempts[n].finishedAt.None?
    then attempts[n := attempts[n].(finishedAt := Some(now), outcome := Some(outcome))]
    else attempts
  }

  function SettledState(n: int, outcome: AttemptOutcome): State {
    if outcome == Success then Succeeded else if n >= MAX_ATTEMPTS then Dlq else RetryWait
  }

  /** None when the fenced UPDATE matches no row or a trigger raises. */
  function FinishAttempt(job: Job, event: Event, n: int, outcome: AttemptOutcome, at: Stamp): Option<Job> {
    var row := job.row;
    var attempts := FinishedAttempts(job.attempts, n, outcome, at.write);
    var fenced := outcome == LeaseExpired || (row.LeaseLive(at.write) && event.expiresAt > at.write);
    if row.state == InFlight && row.count == n && fenced then
      var state := SettledState(n, outcome);
      var nextAt := if state == RetryWait && n in attempts && attempts[n].finishedAt.Some?
                    then Some(attempts[n].finishedAt.value + RetryDelay(n)) else None;
      UpdateRow(job.(attempts := attempts), row.(state := state, nextAt := nextAt), at)
    else None
  }

  /** A transaction that writes one job, or aborts when the write is refused. */
  function Write<T>(db: Db, id: Uuid, job: Option<Job>, at: Stamp, result: Result<T, DeliveryError>): Answer<T>
    requires id in db.jobs
  {
    if job.Some? then Answer(Commit(db, id, job.value, at), result) else Answer(db, Err(Internal))
  }

  // ---- claim_delivery_owned -------------------------------------------------

  /** An open synchronous response whose expire_pending deadline has passed. */
  predicate DeadlinePassed(response: Response, now: Time) {
    && response.state == Open && response.policy.Sync? && response.policy.expirePending
    && response.deadline.Some? && response.deadline.value <= now
  }

  function Cancelled(job: Job, at: Stamp): Option<Job> {
    var timedOut := job.(response := job.response.(state := TimedOut));
    UpdateRow(timedOut, job.row.(state := State.Cancelled), at)
  }

  function LeaseOf(id: Uuid, row: Delivery, token: Uuid): DeliveryLease {
    DeliveryLease(id, row.event, token, row.generation, row.count + 1)
  }

  /** The claimed row and its new attempt row; None when a CHECK or PRIMARY KEY refuses them. */
  function Leased(job: Job, event: Event, agent: Uuid, token: Uuid, at: Stamp): Option<Job> {
    var n := job.row.count + 1;
    var until := Min(at.write + LEASE, event.expiresAt);
    if n > MAX_ATTEMPTS || n in job.attempts then None
    else
      var row := job.row.(state := InFlight, count := n, token := Some(token), agent := Some(agent),
                          startedAt := Some(at.write), leaseUntil := Some(until), nextAt := None);
      UpdateRow(job.(attempts := job.attempts[n := Attempt(token, agent, at.write, until, None, None)]), row, at)
  }

  /** A fenced claim goes on only while presence names the expected owner. */
  function OwnerCheck(expected: Option<Owner>, reply: PresenceReply): Result<(), DeliveryError> {
    if expected.None? then Ok(())
    else if reply.Down? then Err(Unavailable)
    else if reply.owner == expected then Ok(()) else Err(Conflict)
  }

  /** Past retention, or past an expire_pending deadline without ever having been claimed. */
  predicate Overdue(job: Job, event: Event, now: Time) {
    event.expiresAt <= now || (job.row.state == Pending && job.row.count == 0 && DeadlinePassed(job.response, now))
  }

  /** The clean-up half of a claim: expire, cancel or close a dead lease, and take nothing. */
  function Reap(db: Db, id: Uuid, at: Stamp): Answer<DeliveryLease>
    requires id in db.jobs && db.jobs[id].row.event in db.events
  {
    var job := db.jobs[id];
    var event := db.events[job.row.event];
    if event.expiresAt <= at.read then Write(db, id, UpdateRow(job, job.row.(state := Expired), at), at, Err(Gone))
    else if Overdue(job, event, at.read) then Write(db, id, Cancelled(job, at), at, Err(Gone))
    else if job.row.LeaseLive(at.read) then Answer(db, Err(Conflict))
    else Write(db, id, FinishAttempt(job, event, job.row.count, LeaseExpired, at), at,
               Err(if job.row.count >= MAX_ATTEMPTS then Gone else Conflict))
  }

  /** The admission half of a claim: the row is open and not in flight. */
  function Admit(db: Db, agent: Principal, id: Uuid, expected: Option<Owner>, seen: ClaimReads, token: Uuid, at: Stamp)
    : Answer<DeliveryLease>
    requires agent.Agent? && id in db.jobs && db.jobs[id].row.event in db.events
  {
    var job := db.jobs[id];
    var event := db.events[job.row.event];
    var leased := Leased(job, event, agent.agent, token, at);
    if !job.row.Due(at.read) then Answer(db, Err(Conflict))
    else if seen.online.Down? || seen.online.owner.None? then Answer(db, Err(Unavailable))
    else if |LiveLeases(db, agent.workspace, agent.app, agent.agent, at.read)| >= MAX_IN_FLIGHT then
      Answer(db, Err(TooManyRequests))
    else if job.row.state !in {Pending, RetryWait} || event.expiresAt <= at.write then Answer(db, Err(Conflict))
    else if leased.Some? && OwnerCheck(expected, seen.after).Err? then
      Answer(db, Err(OwnerCheck(expected, seen.after).error))
    else Write(db, id, leased, at, Ok(LeaseOf(id, job.row, token)))
  }

  function Claim(db: Db, agent: Principal, id: Uuid, expected: Option<Owner>, seen: ClaimReads, token: Uuid, at: Stamp)
    : Answer<DeliveryLease>
  {
    if !agent.Agent? || id !in db.jobs || db.jobs[id].row.event !in db.events then Answer(db, Err(Forbidden))
    else
      var job := db.jobs[id];
      var row := job.row;
      var event := db.events[row.event];
      if !Authorized(agent, row.workspace, Deliver(row.target)) then Answer(db, Err(Forbidden))
      else if OwnerCheck(expected, seen.before).Err? then Answer(db, Err(OwnerCheck(expected, seen.before).error))
      else if row.terminalAt.Some? then Answer(db, Err(Gone))
      else if Overdue(job, event, at.read) || row.state == InFlight then Reap(db, id, at)
      else Admit(db, agent, id, expected, seen, token, at)
  }

  // ---- rollback_claim -------------------------------------------------------

  /** The unfinished attempt row named by the lease. A staged candidate's foreign key keeps it in place. */
  predicate Deletable(job: Job, lease: DeliveryLease, agent: Uuid) {
    && lease.attempt in job.attempts
    && job.attempts[lease.attempt].token == lease.token
    && job.attempts[lease.attempt].agent == agent
    && job.attempts[lease.attempt].finishedAt.None?
  }

  predicate CurrentLease(row: Delivery, lease: DeliveryLease, agent: Uuid) {
    row.state == InFlight && row.count == lease.attempt && row.token == Some(lease.token) && row.agent == Some(agent)
  }

  function Unclaimed(job: Job, lease: DeliveryLease, at: Stamp): Option<Job> {
    var row := job.row.(state := Pending, count := job.row.count - 1, token := None, agent := None,
                        startedAt := None, leaseUntil := None, nextAt := None);
    UpdateRow(job.(attempts := job.attempts - {lease.attempt}), row, at)
  }

  function Rollback(db: Db, agent: Principal, lease: DeliveryLease, at: Stamp): Answer<()> {
    if !agent.Agent? then Answer(db, Err(Forbidden))
    else if lease.delivery !in db.jobs || !Deletable(db.jobs[lease.delivery], lease, agent.agent) then
      Answer(db, Err(Conflict))
    else
      var job := db.jobs[lease.delivery];
      if lease.token in job.candidates then Answer(db, Err(Internal))
      else if !CurrentLease(job.row, lease, agent.agent) then Answer(db, Err(Conflict))
      else Write(db, lease.delivery, Unclaimed(job, lease, at), at, Ok(()))
  }

  // ---- settle_delivery, heartbeat -------------------------------------------

  predicate LeaseMatches(row: Delivery, event: Event, lease: DeliveryLease, agent: Uuid, now: Time) {
    && row.state == InFlight && row.event == lease.event && row.generation == lease.generation
    && row.count == lease.attempt && row.token == Some(lease.token) && row.agent == Some(agent)
    && row.LeaseLive(now) && event.expiresAt > now
  }

  /** The refusal an agent call meets before any write, if any. */
  function LeaseRefusal(db: Db, agent: Principal, lease: DeliveryLease, now: Time): Option<DeliveryError> {
    if !agent.Agent? || lease.delivery !in db.jobs || db.jobs[lease.delivery].row.event !in db.events then
      Some(Forbidden)
    else
      var row := db.jobs[lease.delivery].row;
      if !Authorized(agent, row.workspace, Deliver(row.target)) then Some(Forbidden)
      else if !LeaseMatches(row, db.events[row.event], lease, agent.agent, now) then Some(Conflict)
      else None
  }

  function Settle(db: Db, agent: Principal, lease: DeliveryLease, success: bool, at: Stamp): Answer<()> {
    var refusal := LeaseRefusal(db, agent, lease, at.read);
    if refusal.Some? then Answer(db, Err(refusal.value))
    else
      var job := db.jobs[lease.delivery];
      var settled := FinishAttempt(job, db.events[job.row.event], lease.attempt,
                                   if success then Success else RetryableFailure, at);
      if settled.None? then Answer(db, Err(Conflict))
      else Answer(Commit(db, lease.delivery, settled.value, at), Ok(()))
  }

  function ExtendedUntil(row: Delivery, event: Event, now: Time): Time
    requires row.startedAt.Some?
  {
    Min(now + LEASE, Min(row.startedAt.value + MAX_RUNTIME, event.expiresAt))
  }

  function Extended(job: Job, event: Event, at: Stamp): Option<Job>
    requires job.row.startedAt.Some?
  {
    var until := ExtendedUntil(job.row, event, at.write);
    var n := job.row.count;
    var attempts := if n in job.attempts then job.attempts[n := job.attempts[n].(leaseUntil := until)]
        else job.attempts;
    UpdateRow(job.(attempts := attempts), job.row.(leaseUntil := Some(until)), at)
  }

  function Heartbeat(db: Db, agent: Principal, lease: DeliveryLease, at: Stamp): Answer<()> {
    var refusal := LeaseRefusal(db, agent, lease, at.read);
    if refusal.Some? then Answer(db, Err(refusal.value))
    else
      var job := db.jobs[lease.delivery];
      var event := db.events[job.row.event];
      if !(job.row.LeaseLive(at.write) && event.expiresAt > at.write) then Answer(db, Err(Conflict))
      else Write(db, lease.delivery, Extended(job, event, at), at, Ok(()))
  }

  // ---- reconcile, expire_deliveries -----------------------------------------

  function Reconcile(db: Db, id: Uuid, at: Stamp): Answer<bool> {
    if id !in db.jobs || db.jobs[id].row.event !in db.events then Answer(db, Err(Forbidden))
    else
      var job := db.jobs[id];
      var event := db.events[job.row.event];
      if job.row.terminalAt.Some? then Answer(db.(clock := at.write), Ok(true))
      else if event.expiresAt <= at.read then
        Write(db, id, UpdateRow(job, job.row.(state := Expired), at), at, Ok(true))
      else if job.row.state == InFlight && !job.row.LeaseLive(at.read) then
        Write(db, id, FinishAttempt(job, event, job.row.count, LeaseExpired, at), at, Ok(job.row.count >= MAX_ATTEMPTS))
      else Answer(db.(clock := at.write), Ok(false))
  }

  /** A delivery the retention sweep may pick. */
  predicate Lapsed(db: Db, id: Uuid, now: Time) {
    && id in db.jobs && db.jobs[id].row.event in db.events
    && db.jobs[id].row.terminalAt.None? && db.events[db.jobs[id].row.event].expiresAt <= now
  }

  function ExpireOne(db: Db, id: Uuid, at: Stamp): Db {
    if !Lapsed(db, id, at.begin) then db
    else Write(db, id, UpdateRow(db.jobs[id], db.jobs[id].row.(state := Expired), at), at, Ok(())).db
  }

  function ExpireAll(db: Db, ids: seq<Uuid>, at: Stamp): Db {
    if ids == [] then db else ExpireOne(ExpireAll(db, ids[..|ids| - 1], at), ids[|ids| - 1], at)
  }

  // ---- responses: begin_wait, expire_wait, staging --------------------------

  function BeginWait(db: Db, id: Uuid, at: Stamp): Db {
    if id !in db.jobs then db
    else
      var job := db.jobs[id];
      var r := job.response;
      if r.state == Open && r.deadline.None? && r.policy.Sync? then
        Commit(db, id, job.(response := r.(deadline := Some(at.write + r.policy.timeoutSeconds * SECOND))), at)
      else db
  }

  function ExpireWait(db: Db, id: Uuid, at: Stamp): Db {
    if id !in db.jobs then db
    else
      var job := db.jobs[id];
      var r := job.response;
      if r.state == Open && r.deadline.Some? && r.deadline.value <= at.write then
        var timedOut := job.(response := r.(state := TimedOut));
        var cancel := && r.policy.Sync? && r.policy.expirePending && job.row.state == Pending && job.row.count == 0
                      && job.row.terminalAt.None?;
        if cancel then Write(db, id, UpdateRow(timedOut, job.row.(state := State.Cancelled), at), at, Ok(())).db
        else Commit(db, id, timedOut, at)
      else db
  }

  /** complete_response up to its first commit: the candidate is staged, the delivery is not settled. */
  function Stage(db: Db, agent: Principal, lease: DeliveryLease, bytes: Bytes, at: Stamp): Answer<()> {
    if !agent.Agent? || lease.delivery !in db.jobs || db.jobs[lease.delivery].row.event !in db.events then
      Answer(db, Err(Forbidden))
    else
      var job := db.jobs[lease.delivery];
      if !Authorized(agent, job.row.workspace, Deliver(job.row.app)) then Answer(db, Err(Forbidden))
      else if !LeaseMatches(job.row, db.events[job.row.event], lease, agent.agent, at.read) then
        Answer(db, Err(Conflict))
      else if lease.token in job.candidates then
        if job.candidates[lease.token] == bytes then Answer(db, Ok(())) else Answer(db, Err(Conflict))
      else Answer(Commit(db, lease.delivery, job.(candidates := job.candidates[lease.token := bytes]), at), Ok(()))
  }

  // ---- accept_event, replay_delivery ----------------------------------------

  datatype Accepted = Accepted(event: Uuid, delivery: Uuid)

  /** `payload` is the serialised input, `size` its body length, `wellFormed` the verdict of the HTTP field checks. */
  datatype EventInput = EventInput(endpoint: Uuid, payload: Bytes, size: nat, wellFormed: bool)

  datatype AcceptError = RefusedForbidden | RefusedInvalid | RefusedTooLarge | RefusedConflict | RefusedQuota
                       | RefusedInternal

  datatype Receipt = Receipt(db: Db, result: Result<Accepted, AcceptError>)

  predicate Control(c: char) {
    c < ' ' || '\U{7f}' <= c <= '\U{9f}'
  }

  /** Idempotency keys are 1 to 256 bytes long without control characters. */
  predicate ValidKey(key: string) {
    key != "" && Utf8Length(key) <= 256 && forall i | 0 <= i < |key| :: !Control(key[i])
  }

  predicate Keyed(event: Event, workspace: Uuid, app: Uuid, key: string) {
    event.workspace == workspace && event.app == app && event.key == key
  }

  /** The stored event and generation-1 delivery of an idempotency key. */
  predicate IsReceipt(db: Db, workspace: Uuid, app: Uuid, key: string, a: Accepted) {
    && a.event in db.events && Keyed(db.events[a.event], workspace, app, key)
    && a.delivery in db.jobs && db.jobs[a.delivery].row.event == a.event && db.jobs[a.delivery].row.generation == 1
  }

  predicate HasReceipt(db: Db, workspace: Uuid, app: Uuid, key: string) {
    exists e, d | e in db.events && d in db.jobs :: IsReceipt(db, workspace, app, key, Accepted(e, d))
  }

  /** BEFORE INSERT accounting: None when the workspace is at its limit. */
  function Charged(quotas: map<Uuid, Quota>, workspace: Uuid, size: nat): Option<map<Uuid, Quota>> {
    var q := if workspace in quotas then quotas[workspace] else Quota(0, 0);
    if q.deliveries < MAX_OUTSTANDING_DELIVERIES && q.bytes + size <= MAX_OUTSTANDING_BYTES
    then Some(quotas[workspace := Quota(q.deliveries + 1, q.bytes + size)])
    else None
  }

  /** A freshly inserted delivery with its outbox row and its response row. */
  function NewJob(event: Uuid, e: Event, target: Uuid, generation: int, policy: Policy, created: Time): Job {
    Job(Delivery(event, e.workspace, e.app, target, generation, e.size, Pending, None, 0, None, None, None, None, None),
        map[], Outbox(created, None, None), Response(policy, Open, None, None, None), map[])
  }

  function Inserted(db: Db, event: Uuid, e: Event, id: Uuid, job: Job, quotas: map<Uuid, Quota>, at: Stamp): Db {
    db.(clock := at.write, events := db.events[event := e], jobs := db.jobs[id := job], quotas := quotas)
  }

  function NewEvent(ep: Endpoint, input: EventInput, key: string, at: Stamp): Event {
    Event(ep.workspace, ep.app, input.endpoint, key, input.payload, input.size, at.begin, at.begin + RETENTION)
  }

  /**
   `prior` is the row the idempotency lookup found, if it found one.
   `drawn` are the ids drawn for a new event and delivery.
   */
  function Accept(db: Db, principal: Principal, input: EventInput, key: string, prior: Option<Accepted>,
                  drawn: Accepted, at: Stamp): Receipt
  {
    if input.size > MAX_BODY_BYTES then Receipt(db, Err(RefusedTooLarge))
    else if !input.wellFormed || !ValidKey(key) then Receipt(db, Err(RefusedInvalid))
    else if |input.payload| > 2 * MAX_BODY_BYTES then Receipt(db, Err(RefusedTooLarge))
    else if input.endpoint !in db.endpoints then Receipt(db, Err(RefusedForbidden))
    else
      var ep := db.endpoints[input.endpoint];
      if !Authorized(principal, ep.workspace, Publish(ep.app)) then Receipt(db, Err(RefusedForbidden))
      else if prior.Some? then
        if prior.value.event in db.events && db.events[prior.value.event].payload == input.payload
        then Receipt(db.(clock := at.write), Ok(prior.value))
        else Receipt(db, Err(RefusedConflict))
      else
        var quotas := Charged(db.quotas, ep.workspace, input.size);
        if quotas.None? then Receipt(db, Err(RefusedQuota))
        else
          var event := NewEvent(ep, input, key, at);
          Receipt(Inserted(db, drawn.event, event, drawn.delivery,
                           NewJob(drawn.event, event, ep.app, 1, ep.policy, at.begin), quotas.value, at),
                  Ok(drawn))
  }

  predicate Active(db: Db, event: Uuid) {
    exists d | d in db.jobs :: db.jobs[d].row.event == event && db.jobs[d].row.terminalAt.None?
  }

  function Generations(db: Db, event: Uuid): set<int> {
    set d | d in db.jobs && db.jobs[d].row.event == event :: db.jobs[d].row.generation
  }

  function Replay(db: Db, principal: Principal, id: Uuid, drawn: Uuid, at: Stamp): Answer<Accepted> {
    if id !in db.jobs || db.jobs[id].row.event !in db.events then Answer(db, Err(Forbidden))
    else
      var row := db.jobs[id].row;
      var event := db.events[row.event];
      if !Authorized(principal, row.workspace, ManageApps)
          || !(principal.SystemAdmin? || principal.WorkspaceOwner?) then
        Answer(db, Err(Forbidden))
      else if event.expiresAt <= at.read then Answer(db, Err(Gone))
      else if Active(db, row.event) then Answer(db, Err(Conflict))
      else if event.expiresAt <= at.write then Answer(db, Err(Gone))
      else
        var quotas := Charged(db.quotas, event.workspace, event.size);
        if quotas.None? then Answer(db, Err(TooManyRequests))
        else if event.endpoint !in db.endpoints then Answer(db, Err(Internal))
        else
          assert row.generation in Generations(db, row.event);
          var next := MaxOf(Generations(db, row.event)) + 1;
          var job := NewJob(row.event, event, row.target, next, db.endpoints[event.endpoint].policy, at.begin);
          Answer(Inserted(db, row.event, event, drawn, job, quotas.value, at), Ok(Accepted(row.event, drawn)))
  }

  // ---- dispatch_outbox -------------------------------------------------------

  /** A row the publisher may take. */
  predicate Dispatchable(db: Db, id: Uuid, now: Time) {
    && id in db.jobs && db.jobs[id].row.event in db.events
    && db.jobs[id].outbox.Waiting()
    && db.jobs[id].row.terminalAt.None? && db.events[db.jobs[id].row.event].expiresAt > now
  }

  function MarkSent(db: Db, id: Uuid, at: Stamp): Db
    requires id in db.jobs
  {
    Commit(db, id, db.jobs[id].(outbox := db.jobs[id].outbox.(sentAt := Some(at.begin))), at)
  }
}
