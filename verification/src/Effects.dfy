/**
 What each step of a run does to the tables, and nothing else: stated on the rows before and after,
 from what a caller sees.
 */
module Effects {
  import opened Protocol
  import opened Tables
  import opened Transactions
  import opened Ledger
  import opened Invariant
  import opened Steps
  import opened Runs
  import opened Traces
  import opened Theorems
  import opened Sets

  // ---- how a delivery may end up -----------------------------------------------------------

  /** At most delivery `id` changed; no event and no other delivery did. */
  ghost predicate Only(db: Db, after: Db, id: Uuid) {
    && after.events == db.events && after.endpoints == db.endpoints && after.jobs.Keys == db.jobs.Keys
    && forall x | x in db.jobs && x != id :: after.jobs[x] == db.jobs[x]
  }

  /** An outbox row that still waits is given up when its delivery turns terminal. */
  function GivenUp(outbox: Outbox, at: Stamp): Outbox {
    if outbox.sentAt.None? && outbox.discardedAt.None? then outbox.(discardedAt := Some(at.begin)) else outbox
  }

  /** The pauses after failed attempts one to four, in seconds. */
  function Pause(attempt: int): Time
    requires 1 <= attempt <= 4
  {
    [1, 5, 30, 120][attempt - 1] * SECOND
  }

  /** The delivery turned terminal in this state without touching its attempts. */
  predicate EndedAs(job: Job, next: Job, state: State, at: Stamp) {
    && next.row == job.row.(state := state, terminalAt := Some(at.begin))
    && next.attempts == job.attempts && next.candidates == job.candidates && next.outbox == GivenUp(job.outbox, at)
  }

  /** The open attempt is recorded as finished now with this outcome. */
  predicate Recorded(job: Job, next: Job, outcome: AttemptOutcome, at: Stamp) {
    var n := job.row.count;
    n in job.attempts
    && next.attempts == job.attempts[n := job.attempts[n].(finishedAt := Some(at.write), outcome := Some(outcome))]
  }

  /** The open attempt failed: the delivery waits out its pause, or is a dead letter after the fifth. */
  predicate AttemptFailed(job: Job, next: Job, outcome: AttemptOutcome, at: Stamp) {
    && Recorded(job, next, outcome, at) && 1 <= job.row.count <= 5
    && next.candidates == job.candidates && next.response == job.response
    && (if job.row.count < 5 then
          && next.row == job.row.(state := RetryWait, nextAt := Some(at.write + Pause(job.row.count)))
          && next.outbox == job.outbox
        else
          && next.row == job.row.(state := Dlq, nextAt := None, terminalAt := Some(at.begin))
          && next.outbox == GivenUp(job.outbox, at))
  }

  /** The response the caller gets: the candidate of the winning attempt, in time or late. */
  predicate AnsweredWith(before: Response, after: Response, candidate: Option<Bytes>, now: Time) {
    if candidate.None? then after == before
    else
      && after.policy == before.policy && after.deadline == before.deadline
      && after.result == candidate && after.answeredAt == Some(now)
      && (after.state == Answered <==> before.state == Open && (before.deadline.None? || now < before.deadline.value))
      && (after.state == Answered || after.state == TimedOut)
  }

  /** The open attempt succeeded. */
  predicate AttemptSucceeded(job: Job, next: Job, at: Stamp) {
    && Recorded(job, next, Success, at) && job.row.token.Some?
    && next.row == job.row.(state := Succeeded, nextAt := None, terminalAt := Some(at.begin))
    && next.candidates == job.candidates && next.outbox == GivenUp(job.outbox, at)
    && AnsweredWith(job.response, next.response,
                    if job.row.token.value in job.candidates then Some(job.candidates[job.row.token.value]) else None,
                    at.write)
  }

  lemma PauseIsDelay(attempt: int)
    requires 1 <= attempt <= 4
    ensures Pause(attempt) == RetryDelay(attempt)
  {
  }

  // ---- single deliveries --------------------------------------------------------------------

  lemma FailureActs(job: Job, event: Event, outcome: AttemptOutcome, at: Stamp, now: Time)
    requires JobOk(job, event, now) && job.row.state == InFlight && outcome != Success
    requires FinishAttempt(job, event, job.row.count, outcome, at).Some?
    ensures AttemptFailed(job, FinishAttempt(job, event, job.row.count, outcome, at).value, outcome, at)
  {
    if job.row.count < 5 {
      PauseIsDelay(job.row.count);
    }
  }

  lemma SuccessActs(job: Job, event: Event, at: Stamp, now: Time)
    requires JobOk(job, event, now) && job.row.state == InFlight
    requires FinishAttempt(job, event, job.row.count, Success, at).Some?
    ensures AttemptSucceeded(job, FinishAttempt(job, event, job.row.count, Success, at).value, at)
  {
  }

  lemma ExpiryActs(job: Job, event: Event, at: Stamp, now: Time)
    requires JobOk(job, event, now) && job.row.terminalAt.None?
    requires UpdateRow(job, job.row.(state := Expired), at).Some?
    ensures var next := UpdateRow(job, job.row.(state := Expired), at).value;
      EndedAs(job, next, Expired, at) && next.response == job.response
  {
  }

  lemma CancelActs(job: Job, event: Event, at: Stamp, now: Time)
    requires JobOk(job, event, now) && job.row.terminalAt.None? && job.row.state == Pending
    requires Transactions.Cancelled(job, at).Some?
    ensures var next := Transactions.Cancelled(job, at).value;
      EndedAs(job, next, State.Cancelled, at) && next.response == job.response.(state := TimedOut)
  {
  }

  // ---- reconcile and the reaping half of a claim ----------------------------------------------

  /** The delivery is in flight and its lease has run out. */
  predicate RunOut(job: Job, now: Time) {
    job.row.state == InFlight && job.row.leaseUntil.Some? && job.row.leaseUntil.value <= now
  }

  /** Retention expiry ends an open delivery; within retention a lease that ran out fails its attempt. */
  predicate Tidied(job: Job, event: Event, next: Job, at: Stamp) {
    if Terminal(job.row.state) then next == job
    else if event.expiresAt <= at.read then EndedAs(job, next, Expired, at) && next.response == job.response
    else if RunOut(job, at.read) then AttemptFailed(job, next, LeaseExpired, at)
    else next == job
  }

  lemma ReconcileTidies(db: Db, id: Uuid, at: Stamp)
    requires RowOk(db, id) && ValidStamp(db.clock, at) && id in db.jobs
    ensures var a := Reconcile(db, id, at);
      && Only(db, a.db, id) && Tidied(db.jobs[id], db.events[db.jobs[id].row.event], a.db.jobs[id], at)
      && a.result == Ok(Terminal(a.db.jobs[id].row.state))
  {
    hide JobOk, UpdateRow, FinishAttempt, AttemptFailed, EndedAs, Released, Carries;
    var job := db.jobs[id];
    var event := db.events[job.row.event];
    TerminalStates(job, event, db.clock);
    ReconcileWrites(db, id, at);
    if job.row.terminalAt.None? {
      ExpiredState(job, at);
      if UpdateRow(job, job.row.(state := Expired), at).Some? { ExpiryActs(job, event, at, db.clock); }
      if job.row.state == InFlight {
        LiveExactly(job, event, db.clock, at.read);
        FinishedState(job, event, job.row.count, LeaseExpired, at);
        if FinishAttempt(job, event, job.row.count, LeaseExpired, at).Some? {
          FailureActs(job, event, LeaseExpired, at, db.clock);
        }
      }
    }
  }

  /** Reconciling: past retention the delivery expires, a lease that ran out is closed, nothing else changes. */
  lemma ReconcileActs(r: Run, i: nat)
    requires ValidRun(r) && i < |r.steps| && r.steps[i].Reconciling?
    ensures var s := r.steps[i]; var db, after := r.worlds[i].db, r.worlds[i + 1].db;
      && s.id in db.jobs && db.jobs[s.id].row.event in db.events && Only(db, after, s.id)
      && Tidied(db.jobs[s.id], db.events[db.jobs[s.id].row.event], after.jobs[s.id], s.at)
      && Reconcile(db, s.id, s.at).result == Ok(Terminal(after.jobs[s.id].row.state))
  {
    hide DbOk, JobOk, Reconcile, Tidied, Only;
    var s, w := r.steps[i], r.worlds[i];
    assert Follows(r, i);
    RunInv(r, i);
    assert Streamed(w.db, w.stream, s.id);
    RowFacts(w.db, s.id);
    ReconcileTidies(w.db, s.id, s.at);
  }

  // ---- claim and rollback ----------------------------------------------------------------------

  /** The agent works for the delivery's target application. */
  predicate Entitled(db: Db, agent: Principal, id: Uuid) {
    && agent.Agent? && id in db.jobs
    && agent.workspace == db.jobs[id].row.workspace && agent.app == db.jobs[id].row.target
  }

  /** Like `Tidied`, and an overslept delivery is cancelled. */
  predicate CleanedUp(job: Job, event: Event, next: Job, at: Stamp) {
    if !Terminal(job.row.state) && event.expiresAt > at.read && Overslept(job, at.read) then
      EndedAs(job, next, State.Cancelled, at) && next.response == job.response.(state := TimedOut)
    else Tidied(job, event, next, at)
  }

  /** Attempt count + 1 is open under the token for this agent, for 60 seconds or until retention ends. */
  predicate Opened(job: Job, event: Event, next: Job, agent: Uuid, token: Uuid, at: Stamp) {
    var n, until := job.row.count + 1, Min(at.write + 60 * SECOND, event.expiresAt);
    next == job.(row := job.row.(state := InFlight, count := n, token := Some(token), agent := Some(agent),
                                 startedAt := Some(at.write), leaseUntil := Some(until), nextAt := None),
                 attempts := job.attempts[n := Attempt(token, agent, at.write, until, None, None)])
  }

  lemma ReapCleans(db: Db, id: Uuid, at: Stamp)
    requires RowOk(db, id) && ValidStamp(db.clock, at) && id in db.jobs && db.jobs[id].row.terminalAt.None?
    requires Overdue(db.jobs[id], db.events[db.jobs[id].row.event], at.read) || db.jobs[id].row.state == InFlight
    ensures var a := Reap(db, id, at); var job := db.jobs[id];
      && Only(db, a.db, id) && CleanedUp(job, db.events[job.row.event], a.db.jobs[id], at)
      && (a.result == Err(Gone) <==> Terminal(a.db.jobs[id].row.state))
      && (a.result == Err(Gone) || a.result == Err(Conflict))
  {
    hide JobOk, UpdateRow, FinishAttempt, AttemptFailed, EndedAs, Released, Carries;
    var job := db.jobs[id];
    var event := db.events[job.row.event];
    TerminalStates(job, event, db.clock);
    ReapSucceeds(db, id, at);
    ExpiredState(job, at);
    ExpiryActsIf(job, event, at, db.clock);
    if job.row.state == InFlight {
      LiveExactly(job, event, db.clock, at.read);
      FinishedState(job, event, job.row.count, LeaseExpired, at);
      FailureActs(job, event, LeaseExpired, at, db.clock);
    } else if Overslept(job, at.read) {
      CancelActs(job, event, at, db.clock);
      CancelledState(job, at);
    }
  }

  lemma CancelledState(job: Job, at: Stamp)
    ensures var next := Transactions.Cancelled(job, at); next.Some? ==> next.value.row.state == State.Cancelled
  {
  }

  lemma ExpiryActsIf(job: Job, event: Event, at: Stamp, now: Time)
    requires JobOk(job, event, now) && job.row.terminalAt.None?
    ensures var next := UpdateRow(job, job.row.(state := Expired), at);
      next.Some? ==> EndedAs(job, next.value, Expired, at) && next.value.response == job.response
  {
    hide JobOk, UpdateRow, EndedAs;
    if UpdateRow(job, job.row.(state := Expired), at).Some? { ExpiryActs(job, event, at, now); }
  }

  /** No write of the clean-up is ever refused. */
  lemma ReapSucceeds(db: Db, id: Uuid, at: Stamp)
    requires RowOk(db, id) && ValidStamp(db.clock, at) && id in db.jobs && db.jobs[id].row.terminalAt.None?
    ensures var job := db.jobs[id]; var event := db.events[job.row.event];
      && UpdateRow(job, job.row.(state := Expired), at).Some?
      && (Overslept(job, at.read) ==> Transactions.Cancelled(job, at).Some?)
      && (job.row.state == InFlight ==> FinishAttempt(job, event, job.row.count, LeaseExpired, at).Some?)
  {
    hide JobOk, UpdateRow, FinishAttempt, Transactions.Cancelled;
    var job := db.jobs[id];
    var event := db.events[job.row.event];
    ExpireOk(job, event, at, db.clock);
    if Overslept(job, at.read) { CancelOk(job, event, at, db.clock); }
    if job.row.state == InFlight { FinishOk(job, event, LeaseExpired, at, db.clock); }
  }

  /** Presence names the expected owner, if one is expected. */
  predicate Confirms(expected: Option<Owner>, reply: PresenceReply) {
    expected.Some? ==> reply == Up(expected)
  }

  /** Only the sixteen leases the agent already holds stand in the way. */
  ghost predicate OverCapacity(db: Db, agent: Principal, id: Uuid, expected: Option<Owner>, seen: ClaimReads,
                               at: Stamp) {
    && Entitled(db, agent, id) && Confirms(expected, seen.before) && db.jobs[id].row.event in db.events
    && var job := db.jobs[id];
    && job.row.state in {Pending, RetryWait} && !Overslept(job, at.read) && db.events[job.row.event].expiresAt > at.read
    && (job.row.nextAt.None? || job.row.nextAt.value <= at.read) && seen.online.Up? && seen.online.owner.Some?
    && |LeasesOf(db, agent.agent, at.read)| >= 16
  }

  /** Everything a claim may do, by what it answers. */
  ghost predicate ClaimOutcome(db: Db, after: Db, agent: Principal, id: Uuid, expected: Option<Owner>, seen: ClaimReads,
                               token: Uuid, at: Stamp, result: Result<DeliveryLease, DeliveryError>) {
    && (result.Err? && result.error == Forbidden <==> !Entitled(db, agent, id))
    && (result == Err(TooManyRequests) <==> OverCapacity(db, agent, id, expected, seen, at))
    && (id !in db.jobs || !Entitled(db, agent, id) || !Confirms(expected, seen.before) ==> after == db && result.Err?)
    && (Entitled(db, agent, id) && Confirms(expected, seen.before) && db.jobs[id].row.event in db.events ==>
          var job := db.jobs[id]; var event := db.events[job.row.event];
          && Only(db, after, id)
          && (result.Ok? ==>
                && Opened(job, event, after.jobs[id], agent.agent, token, at)
                && result.value == DeliveryLease(id, job.row.event, token, job.row.generation, job.row.count + 1))
          && (result.Err? ==> CleanedUp(job, event, after.jobs[id], at))
          && (result == Err(Gone) <==> Terminal(after.jobs[id].row.state)))
  }

  /** An open delivery out of flight and in time needs no cleaning. */
  lemma NothingToClean(job: Job, event: Event, at: Stamp)
    requires job.row.state in {Pending, RetryWait} && !Overslept(job, at.read) && event.expiresAt > at.read
    ensures CleanedUp(job, event, job, at)
  {
  }

  lemma AdmitOutcome(db: Db, agent: Principal, id: Uuid, expected: Option<Owner>, seen: ClaimReads, token: Uuid,
                     at: Stamp)
    requires RowOk(db, id) && ValidStamp(db.clock, at) && Entitled(db, agent, id) && Confirms(expected, seen.before)
    requires LiveLeases(db, agent.workspace, agent.app, agent.agent, at.read) == LeasesOf(db, agent.agent, at.read)
    requires db.jobs[id].row.state in {Pending, RetryWait} && db.jobs[id].row.terminalAt.None?
    requires !Overdue(db.jobs[id], db.events[db.jobs[id].row.event], at.read)
    ensures var a := Admit(db, agent, id, expected, seen, token, at);
      ClaimOutcome(db, a.db, agent, id, expected, seen, token, at, a.result)
  {
    hide JobOk, Leased, LiveLeases, LeasesOf, Released, CleanedUp;
    var job := db.jobs[id];
    var event := db.events[job.row.event];
    NothingToClean(job, event, at);
    if job.row.Due(at.read) {
      LeasedOk(job, event, agent.agent, token, at, db.clock);
      LeasedOpens(job, event, agent.agent, token, at, db.clock);
    }
  }

  lemma LeasedOpens(job: Job, event: Event, agent: Uuid, token: Uuid, at: Stamp, now: Time)
    requires JobOk(job, event, now) && job.row.terminalAt.None? && Leased(job, event, agent, token, at).Some?
    ensures Opened(job, event, Leased(job, event, agent, token, at).value, agent, token, at)
  {
  }

  lemma ClaimOutcomes(db: Db, agent: Principal, id: Uuid, expected: Option<Owner>, seen: ClaimReads, token: Uuid,
                      at: Stamp)
    requires RowOk(db, id) && ValidStamp(db.clock, at)
    requires agent.Agent? ==>
      LiveLeases(db, agent.workspace, agent.app, agent.agent, at.read) == LeasesOf(db, agent.agent, at.read)
    ensures var a := Claim(db, agent, id, expected, seen, token, at);
      ClaimOutcome(db, a.db, agent, id, expected, seen, token, at, a.result)
  {
    hide JobOk, Reap, Admit, LiveLeases, LeasesOf, AttemptFailed, EndedAs, Opened;
    if Entitled(db, agent, id) && Confirms(expected, seen.before) {
      var job := db.jobs[id];
      var event := db.events[job.row.event];
      TerminalStates(job, event, db.clock);
      if job.row.terminalAt.None? {
        if Overdue(job, event, at.read) || job.row.state == InFlight {
          ReapCleans(db, id, at);
        } else {
          AdmitOutcome(db, agent, id, expected, seen, token, at);
        }
      }
    }
  }

  /** What a claim answers and leaves behind, in every run. */
  lemma ClaimActs(r: Run, i: nat)
    requires ValidRun(r) && i < |r.steps| && r.steps[i].Claiming?
    ensures var s := r.steps[i]; var db := r.worlds[i].db;
      ClaimOutcome(db, r.worlds[i + 1].db, s.agent, s.id, s.expected, s.seen, s.token, s.at,
                   Claim(db, s.agent, s.id, s.expected, s.seen, s.token, s.at).result)
  {
    hide Claim, ClaimOutcome, JobsOk, Linked, EventsOk, GenerationsOk, QuotasOk, AgentsScoped, AgentsBounded;
    var s, db := r.steps[i], r.worlds[i].db;
    assert Follows(r, i);
    RunInv(r, i);
    RowFacts(db, s.id);
    if s.agent.Agent? {
      CountExactly(db, s.agent, s.at.read);
    }
    ClaimOutcomes(db, s.agent, s.id, s.expected, s.seen, s.token, s.at);
  }

  /** The lease names the open attempt of a delivery in flight for the agent, and nothing was staged under it. */
  predicate Undoable(db: Db, agent: Principal, lease: DeliveryLease) {
    && agent.Agent? && Held(db, lease.delivery)
    && var job := db.jobs[lease.delivery];
    && job.row.token == Some(lease.token) && job.row.count == lease.attempt && job.row.agent == Some(agent.agent)
    && lease.token !in job.candidates
  }

  /** The open attempt is struck and the delivery is ready to be claimed again. */
  predicate Struck(job: Job, next: Job) {
    next == job.(row := job.row.(state := Pending, count := job.row.count - 1, token := None, agent := None,
                                 startedAt := None, leaseUntil := None, nextAt := None),
                 attempts := job.attempts - {job.row.count})
  }

  /** In every run a rollback is granted exactly when the claim is undoable; it strikes that attempt only. */
  lemma RollbackActs(r: Run, i: nat)
    requires ValidRun(r) && i < |r.steps| && r.steps[i].RollingBack?
    ensures var s := r.steps[i]; var db, after := r.worlds[i].db, r.worlds[i + 1].db;
      && (Rollback(db, s.agent, s.lease, s.at).result.Ok? <==> Undoable(db, s.agent, s.lease))
      && (if Undoable(db, s.agent, s.lease)
          then Only(db, after, s.lease.delivery) && Struck(db.jobs[s.lease.delivery], after.jobs[s.lease.delivery])
          else after == db)
  {
    hide DbOk;
    var s, db := r.steps[i], r.worlds[i].db;
    assert Follows(r, i);
    RunInv(r, i);
    RowFacts(db, s.lease.delivery);
    if s.lease.delivery in db.jobs {
      OpenAttempt(db.jobs[s.lease.delivery], db.events[db.jobs[s.lease.delivery].row.event], s.lease.attempt, db.clock);
    }
    hide JobOk;
  }

  /** The open attempt row carries the columns of the row. */
  lemma OpenAttempt(job: Job, event: Event, n: int, now: Time)
    requires JobOk(job, event, now)
    ensures job.row.state == InFlight ==>
      && job.row.count in job.attempts && job.attempts[job.row.count].finishedAt.None? && job.row.terminalAt.None?
      && job.row.token == Some(job.attempts[job.row.count].token)
      && job.row.agent == Some(job.attempts[job.row.count].agent)
  {
  }

  // ---- settle, heartbeat, staging ----------------------------------------------------------------

  lemma SettleOutcome(db: Db, agent: Principal, lease: DeliveryLease, success: bool, at: Stamp)
    requires RowOk(db, lease.delivery) && ValidStamp(db.clock, at)
    ensures var a := Settle(db, agent, lease, success, at); var id := lease.delivery;
      if Settleable(db, agent, lease, at) then
        && a.result == Ok(()) && Only(db, a.db, id)
        && (success ==> AttemptSucceeded(db.jobs[id], a.db.jobs[id], at))
        && (!success ==> AttemptFailed(db.jobs[id], a.db.jobs[id], RetryableFailure, at))
      else a.db == db && a.result.Err?
  {
    SettleExactly(db, agent, lease, success, at);
    hide JobOk, FinishAttempt, AttemptSucceeded, AttemptFailed, Released, Authorized;
    if Settleable(db, agent, lease, at) {
      var job := db.jobs[lease.delivery];
      var event := db.events[job.row.event];
      if success {
        SuccessActs(job, event, at, db.clock);
      } else {
        FailureActs(job, event, RetryableFailure, at, db.clock);
      }
    }
  }

  /** In every run an accepted settlement does what it reports; any other changes nothing. */
  lemma SettleActs(r: Run, i: nat)
    requires ValidRun(r) && i < |r.steps| && r.steps[i].Settling?
    ensures var s := r.steps[i]; var db, after := r.worlds[i].db, r.worlds[i + 1].db; var id := s.lease.delivery;
      if Settleable(db, s.agent, s.lease, s.at) then
        && Settle(db, s.agent, s.lease, s.success, s.at).result == Ok(()) && Only(db, after, id)
        && (s.success ==> AttemptSucceeded(db.jobs[id], after.jobs[id], s.at))
        && (!s.success ==> AttemptFailed(db.jobs[id], after.jobs[id], RetryableFailure, s.at))
      else after == db && Settle(db, s.agent, s.lease, s.success, s.at).result.Err?
  {
    hide DbOk, Settle, Settleable, AttemptSucceeded, AttemptFailed, Only;
    var s, db := r.steps[i], r.worlds[i].db;
    assert Follows(r, i);
    RunInv(r, i);
    RowFacts(db, s.lease.delivery);
    SettleOutcome(db, s.agent, s.lease, s.success, s.at);
  }

  /**
   The lease runs until the first of 60 seconds from now, 300 from its start, and retention; row
   and attempt alike.
   */
  predicate Renewed(job: Job, event: Event, next: Job, now: Time) {
    && job.row.startedAt.Some? && job.row.count in job.attempts
    && var until := Min(now + 60 * SECOND, Min(job.row.startedAt.value + 300 * SECOND, event.expiresAt));
    next == job.(row := job.row.(leaseUntil := Some(until)),
                 attempts := job.attempts[job.row.count := job.attempts[job.row.count].(leaseUntil := until)])
  }

  lemma HeartbeatOutcome(db: Db, agent: Principal, lease: DeliveryLease, at: Stamp)
    requires RowOk(db, lease.delivery) && ValidStamp(db.clock, at)
    ensures var a := Heartbeat(db, agent, lease, at); var id := lease.delivery;
      if Settleable(db, agent, lease, at) then
        && a.result == Ok(()) && Only(db, a.db, id)
        && Renewed(db.jobs[id], db.events[db.jobs[id].row.event], a.db.jobs[id], at.write)
      else a.db == db && a.result.Err?
  {
    if lease.delivery in db.jobs && db.jobs[lease.delivery].row.state == InFlight {
      var job := db.jobs[lease.delivery];
      var event := db.events[job.row.event];
      LiveExactly(job, event, db.clock, at.read);
      LiveExactly(job, event, db.clock, at.write);
      ExtendedOk(job, event, at, db.clock);
      RenewActs(job, event, at, db.clock);
    }
    hide JobOk, Extended, Renewed, Released;
  }

  lemma RenewActs(job: Job, event: Event, at: Stamp, now: Time)
    requires JobOk(job, event, now) && job.row.state == InFlight && Extended(job, event, at).Some?
    ensures Renewed(job, event, Extended(job, event, at).value, at.write)
  {
  }

  /** In every run a renewal is granted exactly like a settlement, and moves only the end of the lease. */
  lemma HeartbeatGrantedExactly(r: Run, i: nat)
    requires ValidRun(r) && i < |r.steps| && r.steps[i].Beating?
    ensures var s := r.steps[i]; var db, after := r.worlds[i].db, r.worlds[i + 1].db; var id := s.lease.delivery;
      && (Heartbeat(db, s.agent, s.lease, s.at).result.Ok? <==> Settleable(db, s.agent, s.lease, s.at))
      && (if Settleable(db, s.agent, s.lease, s.at)
          then && Only(db, after, id) && db.jobs[id].row.event in db.events
               && Renewed(db.jobs[id], db.events[db.jobs[id].row.event], after.jobs[id], s.at.write)
          else after == db)
  {
    hide DbOk, JobOk, Heartbeat, Renewed, Only;
    var s, db := r.steps[i], r.worlds[i].db;
    assert Follows(r, i);
    RunInv(r, i);
    RowFacts(db, s.lease.delivery);
    HeartbeatOutcome(db, s.agent, s.lease, s.at);
  }

  /** Staging keeps the bytes under the lease and changes nothing else. */
  lemma StageActs(r: Run, i: nat)
    requires ValidRun(r) && i < |r.steps| && r.steps[i].Staging?
    ensures var s := r.steps[i]; var db, after := r.worlds[i].db, r.worlds[i + 1].db; var id := s.lease.delivery;
      if Stageable(db, s.agent, s.lease, s.bytes, s.at) then
        && Only(db, after, id)
        && after.jobs[id] == db.jobs[id].(candidates := db.jobs[id].candidates[s.lease.token := s.bytes])
      else after == db
  {
    hide DbOk, JobOk, LeaseMatches, Authorized, Stageable;
    StageGrantedExactly(r, i);
    var s, db := r.steps[i], r.worlds[i].db;
    assert Follows(r, i);
    if Stageable(db, s.agent, s.lease, s.bytes, s.at) && s.lease.token in db.jobs[s.lease.delivery].candidates {
      var candidates := db.jobs[s.lease.delivery].candidates;
      assert candidates == candidates[s.lease.token := s.bytes];
    }
  }

  // ---- waits ---------------------------------------------------------------------------------------

  /** Only the response of the delivery may have changed. */
  ghost predicate OnlyResponse(db: Db, after: Db, id: Uuid) {
    Only(db, after, id) && (id in db.jobs ==> after.jobs[id] == db.jobs[id].(response := after.jobs[id].response))
  }

  /** A wait sets the deadline of an open synchronous response that has none, and does nothing else. */
  lemma BeginWaitActs(r: Run, i: nat)
    requires ValidRun(r) && i < |r.steps| && r.steps[i].BeginningWait?
    ensures var s := r.steps[i]; var db, after := r.worlds[i].db, r.worlds[i + 1].db;
      && OnlyResponse(db, after, s.id)
      && (s.id in db.jobs ==>
            var before := db.jobs[s.id].response;
            after.jobs[s.id].response
            == if before.state == Open && before.policy.Sync? && before.deadline.None?
               then before.(deadline := Some(s.at.write + before.policy.timeoutSeconds * SECOND)) else before)
  {
    hide Inv, Released;
    assert Follows(r, i);
  }

  /** The caller has stopped waiting for an open response. */
  predicate TimesOut(response: Response, now: Time) {
    response.state == Open && response.deadline.Some? && response.deadline.value <= now
  }

  /**
   The end of a wait: an open response past its deadline is timed out, and with expire_pending a
   delivery never claimed is cancelled with it; nothing else changes.
   */
  lemma ExpireWaitActs(r: Run, i: nat)
    requires ValidRun(r) && i < |r.steps| && r.steps[i].ExpiringWait?
    ensures var s := r.steps[i]; var db, after := r.worlds[i].db, r.worlds[i + 1].db;
      && Only(db, after, s.id)
      && (s.id in db.jobs ==>
            var job, next := db.jobs[s.id], after.jobs[s.id]; var response := job.response;
            && next.response == (if TimesOut(response, s.at.write) then response.(state := TimedOut) else response)
            && (if Overslept(job, s.at.write) then EndedAs(job, next, State.Cancelled, s.at)
                else next == job.(response := next.response)))
  {
    hide DbOk, Released, JobOk;
    var s, db := r.steps[i], r.worlds[i].db;
    assert Follows(r, i);
    RunInv(r, i);
    RowFacts(db, s.id);
    if s.id in db.jobs {
      var job := db.jobs[s.id];
      TerminalStates(job, db.events[job.row.event], db.clock);
      if Overslept(job, s.at.write) {
        CancelOk(job, db.events[job.row.event], s.at, db.clock);
        CancelActs(job, db.events[job.row.event], s.at, db.clock);
      }
    }
  }

  // ---- acceptance, replay, publication ----------------------------------------------------------

  /**
   A delivery as it is inserted: open, never claimed, waiting in the outbox, its response open with
   the endpoint's policy.
   */
  predicate Fresh(job: Job, event: Uuid, e: Event, target: Uuid, generation: int, policy: Policy, at: Stamp) {
    && job.row.event == event && job.row.workspace == e.workspace && job.row.app == e.app && job.row.target == target
    && job.row.generation == generation && job.row.size == e.size
    && job.row.state == Pending && job.row.count == 0 && job.row.terminalAt.None? && job.row.nextAt.None?
    && job.attempts == map[] && job.candidates == map[] && job.outbox == Outbox(at.begin, None, None)
    && job.response.policy == policy && job.response.state == Open
    && job.response.deadline.None? && job.response.result.None? && job.response.answeredAt.None?
  }

  /** Every stored event and delivery is as it was. */
  ghost predicate NothingLost(db: Db, after: Db) {
    && after.endpoints == db.endpoints
    && (forall e | e in db.events :: e in after.events && after.events[e] == db.events[e])
    && (forall d | d in db.jobs :: d in after.jobs && after.jobs[d] == db.jobs[d])
  }

  /**
   A new event is stored whole, retained for a week, with one fresh delivery; a repeated or refused
   one stores nothing.
   */
  lemma AcceptActs(r: Run, i: nat)
    requires ValidRun(r) && i < |r.steps| && r.steps[i].Accepting?
    ensures var s := r.steps[i]; var reply := Reply(r.worlds[i], s);
      var db, after := r.worlds[i].db, r.worlds[i + 1].db;
      && NothingLost(db, after)
      && (reply.Ok? && reply.value.event !in db.events ==>
            && reply.value == s.drawn && s.input.endpoint in db.endpoints
            && after.events.Keys == db.events.Keys + {s.drawn.event}
            && after.jobs.Keys == db.jobs.Keys + {s.drawn.delivery}
            && var ep := db.endpoints[s.input.endpoint]; var e := after.events[s.drawn.event];
            && e == Event(ep.workspace, ep.app, s.input.endpoint, s.key, s.input.payload, s.input.size, s.at.begin,
                          s.at.begin + 604_800 * SECOND)
            && Fresh(after.jobs[s.drawn.delivery], s.drawn.event, e, ep.app, 1, ep.policy, s.at))
      && (reply.Err? || reply.value.event in db.events ==> after.events == db.events && after.jobs == db.jobs)
  {
    hide DbOk, StreamOk, UsedOk, FramesOk, Charged, ValidKey, Authorized, HasReceipt;
    assert Follows(r, i);
    RunInv(r, i);
    DrawnIsNew(r.worlds[i], r.steps[i].drawn.event);
    DrawnIsNew(r.worlds[i], r.steps[i].drawn.delivery);
  }

  /**
   A granted replay adds one fresh delivery of the event, numbered above all others; a refused one
   changes nothing.
   */
  lemma ReplayActs(r: Run, i: nat)
    requires ValidRun(r) && i < |r.steps| && r.steps[i].Replaying?
    ensures var s := r.steps[i]; var db, after := r.worlds[i].db, r.worlds[i + 1].db;
      var a := Replay(db, s.principal, s.id, s.successor, s.at).result;
      && NothingLost(db, after) && after.events == db.events
      && (a.Err? ==> after == db)
      && (a.Ok? ==>
            && s.id in db.jobs && db.jobs[s.id].row.event in db.events
            && a.value == Accepted(db.jobs[s.id].row.event, s.successor)
            && s.successor !in db.jobs && after.jobs.Keys == db.jobs.Keys + {s.successor}
            && var row, next := db.jobs[s.id].row, after.jobs[s.successor]; var e := db.events[row.event];
            && e.endpoint in db.endpoints
            && Fresh(next, row.event, e, row.target, next.row.generation, db.endpoints[e.endpoint].policy, s.at)
            && forall d | d in db.jobs && db.jobs[d].row.event == row.event ::
                 db.jobs[d].row.generation < next.row.generation)
  {
    hide DbOk, StreamOk, UsedOk, FramesOk, Charged, Authorized, Active;
    var s, db := r.steps[i], r.worlds[i].db;
    assert Follows(r, i);
    RunInv(r, i);
    DrawnIsNew(r.worlds[i], s.successor);
    if s.id in db.jobs {
      var event := db.jobs[s.id].row.event;
      forall d | d in db.jobs && db.jobs[d].row.event == event
        ensures db.jobs[d].row.generation in Generations(db, event)
      {
      }
    }
  }

  /** Publishing: what reached the broker is in the stream, and only a confirmed publication marks its outbox row. */
  lemma DispatchActs(r: Run, i: nat)
    requires ValidRun(r) && i < |r.steps| && r.steps[i].Dispatching?
    ensures var s := r.steps[i]; var w, next := r.worlds[i], r.worlds[i + 1];
      && s.id in w.db.jobs && Only(w.db, next.db, s.id)
      && next.stream.Keys == (if s.outcome.NotStored? then w.stream.Keys else w.stream.Keys + {s.id})
      && next.db.jobs[s.id]
         == if s.outcome.StoredMarked?
            then w.db.jobs[s.id].(outbox := w.db.jobs[s.id].outbox.(sentAt := Some(s.at.begin))) else w.db.jobs[s.id]
  {
    hide Inv, Released;
    assert Follows(r, i);
  }

  /** In every run an outbox row waits exactly while its open delivery is unpublished, and is given up at most once. */
  lemma OutboxFollows(r: Run, i: nat, id: Uuid)
    requires ValidRun(r) && i < |r.worlds| && id in r.worlds[i].db.jobs
    ensures var job := r.worlds[i].db.jobs[id];
      && (Terminal(job.row.state) ==> job.outbox.sentAt.Some? != job.outbox.discardedAt.Some?)
      && (!Terminal(job.row.state) ==> job.outbox.discardedAt.None?)
  {
    hide DbOk;
    RunInv(r, i);
    RowFacts(r.worlds[i].db, id);
  }

  /** What the publisher and the retention sweep look for, in terms of states. */
  lemma SelectionsExact(r: Run, i: nat, id: Uuid, now: Time)
    requires ValidRun(r) && i < |r.worlds| && id in r.worlds[i].db.jobs
    ensures var db := r.worlds[i].db; var job := db.jobs[id];
      && job.row.event in db.events
      && (Dispatchable(db, id, now)
          <==> job.outbox.sentAt.None? && !Terminal(job.row.state) && db.events[job.row.event].expiresAt > now)
      && (Lapsed(db, id, now) <==> !Terminal(job.row.state) && db.events[job.row.event].expiresAt <= now)
  {
    hide DbOk;
    RunInv(r, i);
    RowFacts(r.worlds[i].db, id);
  }

  /** The retention sweep ends exactly the listed open deliveries past retention. */
  lemma {:induction false} SweepEnds(w: World, ids: seq<Uuid>, at: Stamp)
    requires Inv(w) && ValidStamp(w.db.clock, at) && at.read == at.write
    ensures var after := ExpireAll(w.db, ids, at);
      && after.events == w.db.events && after.jobs.Keys == w.db.jobs.Keys
      && forall id | id in w.db.jobs ::
           if id in ids && Lapsed(w.db, id, at.begin)
           then EndedAs(w.db.jobs[id], after.jobs[id], Expired, at) && after.jobs[id].response == w.db.jobs[id].response
           else after.jobs[id] == w.db.jobs[id]
  {
    hide Inv, EndedAs, ExpireOne;
    if ids != [] {
      var front, last := ids[..|ids| - 1], ids[|ids| - 1];
      SweepEnds(w, front, at);
      ExpireAllInv(w, front, at);
      var mid := w.(db := ExpireAll(w.db, front, at));
      OneEnds(mid, last, at);
      assert ids == front + [last];
      if last in w.db.jobs && last in front && Lapsed(w.db, last, at.begin) {
        EndedNotLapsed(w.db.jobs[last], mid.db.jobs[last], at);
      }
    }
  }

  lemma EndedNotLapsed(job: Job, next: Job, at: Stamp)
    requires EndedAs(job, next, Expired, at)
    ensures next.row.terminalAt.Some? && next.row.event == job.row.event
  {
  }

  lemma OneEnds(w: World, id: Uuid, at: Stamp)
    requires Inv(w) && w.db.clock <= at.write
    ensures var after := ExpireOne(w.db, id, at);
      && Only(w.db, after, id)
      && (id in w.db.jobs ==>
            if Lapsed(w.db, id, at.begin)
            then EndedAs(w.db.jobs[id], after.jobs[id], Expired, at)
                && after.jobs[id].response == w.db.jobs[id].response
            else after.jobs[id] == w.db.jobs[id])
  {
    hide DbOk, JobOk, StreamOk, UsedOk, FramesOk, UpdateRow, EndedAs, Released;
    RowFacts(w.db, id);
    if Lapsed(w.db, id, at.begin) {
      var job := w.db.jobs[id];
      ExpireOk(job, w.db.events[job.row.event], at, w.db.clock);
      ExpiryActs(job, w.db.events[job.row.event], at, w.db.clock);
    }
  }

  // ---- policies -----------------------------------------------------------------------------------

  /** The delivery answers under the policy of its event's endpoint. */
  predicate PolicyOk(db: Db, id: Uuid) {
    && id in db.jobs && db.jobs[id].row.event in db.events
    && db.events[db.jobs[id].row.event].endpoint in db.endpoints
    && db.jobs[id].response.policy == db.endpoints[db.events[db.jobs[id].row.event].endpoint].policy
  }

  lemma SameEndpoints(w: World, s: Step)
    requires Enabled(w, s)
    ensures Apply(w, s).db.endpoints == w.db.endpoints
  {
    hide Leased, FinishAttempt, UpdateRow, Unclaimed, Extended, LiveLeases, Charged, HasReceipt, Authorized,
        LeaseMatches;
    if s.Expiring? {
      SweepKeepsEndpoints(w.db, s.ids, s.at);
    }
  }

  lemma {:induction false} SweepKeepsEndpoints(db: Db, ids: seq<Uuid>, at: Stamp)
    ensures ExpireAll(db, ids, at).endpoints == db.endpoints
  {
    if ids != [] {
      SweepKeepsEndpoints(db, ids[..|ids| - 1], at);
    }
  }

  /** In every run each delivery has the response policy of its event's endpoint. */
  lemma {:induction false} PolicyIsEndpoints(r: Run, i: nat, id: Uuid)
    requires ValidRun(r) && i < |r.worlds| && id in r.worlds[i].db.jobs
    ensures PolicyOk(r.worlds[i].db, id)
  {
    hide Inv, Enabled, Apply;
    if i > 0 {
      var w, s := r.worlds[i - 1], r.steps[i - 1];
      assert Follows(r, i - 1);
      RunInv(r, i - 1);
      if id in w.db.jobs {
        PolicyIsEndpoints(r, i - 1, id);
        RunContinues(r, i - 1, id);
        SameEndpoints(w, s);
      } else {
        OnlyInsertions(w, s, id);
        if s.Accepting? {
          AcceptActs(r, i - 1);
        } else {
          ReplayActs(r, i - 1);
        }
      }
    }
  }

  lemma OnlyInsertions(w: World, s: Step, id: Uuid)
    requires Inv(w) && Enabled(w, s) && id !in w.db.jobs && id in Apply(w, s).db.jobs
    ensures s.Accepting? || s.Replaying?
  {
    hide Inv, Enabled;
    if !s.Accepting? && !s.Replaying? {
      StepKeepsKeys(w, s);
    }
  }
}
