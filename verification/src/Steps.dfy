/** Every transaction keeps the database invariant, and none ever trips a constraint or a trigger. */
module Steps {
  import opened Protocol
  import opened Tables
  import opened Transactions
  import opened Ledger
  import opened Invariant
  import opened Sets

  /** Agents act only in the workspace and application they are registered for. */
  predicate Authenticated(db: Db, principal: Principal) {
    principal.Agent? ==>
      principal.agent in db.agents && db.agents[principal.agent] == (principal.workspace, principal.app)
  }

  /** What the invariant says about one delivery. */
  ghost predicate RowOk(db: Db, id: Uuid) {
    id in db.jobs ==>
      && db.jobs[id].row.event in db.events
      && InScope(db.jobs[id].row, db.events[db.jobs[id].row.event])
      && JobOk(db.jobs[id], db.events[db.jobs[id].row.event], db.clock)
      && RowScoped(db, db.jobs[id].row)
  }

  lemma RowFacts(db: Db, id: Uuid)
    requires DbOk(db)
    ensures RowOk(db, id)
  {
  }

  lemma EventFacts(db: Db)
    requires DbOk(db)
    ensures EventsOk(db)
  {
  }

  /** The transaction aborted, only read, or wrote delivery `id` well. */
  ghost predicate Wrote(db: Db, id: Uuid, after: Db, at: Stamp, gained: set<Uuid>, lost: set<Uuid>, beat: bool) {
    || after == db
    || after == db.(clock := at.write)
    || (&& id in db.jobs && id in after.jobs && after == Commit(db, id, after.jobs[id], at)
        && GoodWrite(db, id, after.jobs[id], at)
        && Carries(db.jobs[id], after.jobs[id], gained, lost, beat))
  }

  lemma WroteKeeps(db: Db, id: Uuid, after: Db, at: Stamp, gained: set<Uuid>, lost: set<Uuid>, beat: bool)
    requires DbOk(db) && ValidStamp(db.clock, at) && Wrote(db, id, after, at, gained, lost, beat)
    ensures DbOk(after)
  {
    if after == db {
    } else if after == db.(clock := at.write) {
      TickKeeps(db, at.write);
    } else {
      WriteKeeps(db, id, after.jobs[id], at);
    }
  }

  // ---- what each transaction writes ----------------------------------------------

  lemma LeasedGood(db: Db, agent: Principal, id: Uuid, token: Uuid, at: Stamp)
    requires RowOk(db, id) && ValidStamp(db.clock, at) && Authenticated(db, agent) && agent.Agent? && id in db.jobs
    requires Authorized(agent, db.jobs[id].row.workspace, Deliver(db.jobs[id].row.target))
    requires db.jobs[id].row.terminalAt.None? && db.jobs[id].row.state in {Pending, RetryWait}
        && db.jobs[id].row.Due(at.read)
    requires |LiveLeases(db, agent.workspace, agent.app, agent.agent, at.read)| < MAX_IN_FLIGHT
    ensures var leased := Leased(db.jobs[id], db.events[db.jobs[id].row.event], agent.agent, token, at);
            leased.Some? && GoodWrite(db, id, leased.value, at)
  {
    LeasedOk(db.jobs[id], db.events[db.jobs[id].row.event], agent.agent, token, at, db.clock);
  }

  lemma AdmitWrites(db: Db, agent: Principal, id: Uuid, expected: Option<Owner>, seen: ClaimReads, token: Uuid,
                    at: Stamp)
    requires RowOk(db, id) && ValidStamp(db.clock, at) && Authenticated(db, agent) && agent.Agent? && id in db.jobs
    requires Authorized(agent, db.jobs[id].row.workspace, Deliver(db.jobs[id].row.target))
    requires db.jobs[id].row.terminalAt.None? && db.jobs[id].row.state != InFlight
    ensures Wrote(db, id, Admit(db, agent, id, expected, seen, token, at).db, at, {token}, {}, false)
    ensures Admit(db, agent, id, expected, seen, token, at).result != Err(Internal)
  {
    var job := db.jobs[id];
    if job.row.Due(at.read) && |LiveLeases(db, agent.workspace, agent.app, agent.agent, at.read)| < MAX_IN_FLIGHT {
      assert job.row.state in {Pending, RetryWait};
      LeasedGood(db, agent, id, token, at);
      LeasedCarries(job, db.events[job.row.event], agent.agent, token, at);
    }
  }

  lemma ReapWrites(db: Db, id: Uuid, at: Stamp)
    requires RowOk(db, id) && ValidStamp(db.clock, at) && id in db.jobs && db.jobs[id].row.terminalAt.None?
    requires Overdue(db.jobs[id], db.events[db.jobs[id].row.event], at.read) || db.jobs[id].row.state == InFlight
    ensures Wrote(db, id, Reap(db, id, at).db, at, {}, {}, false)
    ensures Reap(db, id, at).result.Err? && Reap(db, id, at).result.error in {Gone, Conflict}
  {
    hide JobOk, Carries;
    var job := db.jobs[id];
    var event := db.events[job.row.event];
    if event.expiresAt <= at.read {
      ExpireOk(job, event, at, db.clock);
      QuietCarries(job, UpdateRow(job, job.row.(state := Expired), at).value);
    } else if Overdue(job, event, at.read) {
      CancelOk(job, event, at, db.clock);
      QuietCarries(job, Transactions.Cancelled(job, at).value);
    } else {
      FinishOk(job, event, LeaseExpired, at, db.clock);
      FinishCarries(job, event, job.row.count, LeaseExpired, at);
    }
  }

  lemma WroteWeakens(db: Db, id: Uuid, after: Db, at: Stamp, token: Uuid)
    requires Wrote(db, id, after, at, {}, {}, false)
    ensures Wrote(db, id, after, at, {token}, {}, false)
  {
    hide GoodWrite, HasToken;
  }

  lemma ClaimWrites(db: Db, agent: Principal, id: Uuid, expected: Option<Owner>, seen: ClaimReads, token: Uuid,
                    at: Stamp)
    requires RowOk(db, id) && ValidStamp(db.clock, at) && Authenticated(db, agent)
    ensures Wrote(db, id, Claim(db, agent, id, expected, seen, token, at).db, at, {token}, {}, false)
    ensures Claim(db, agent, id, expected, seen, token, at).result != Err(Internal)
  {
    hide Reap, Admit, Carries, JobOk;
    if agent.Agent? && id in db.jobs && db.jobs[id].row.terminalAt.None? {
      var row := db.jobs[id].row;
      if Overdue(db.jobs[id], db.events[row.event], at.read) || row.state == InFlight {
        ReapWrites(db, id, at);
        WroteWeakens(db, id, Reap(db, id, at).db, at, token);
      } else if Authorized(agent, row.workspace, Deliver(row.target)) {
        AdmitWrites(db, agent, id, expected, seen, token, at);
      }
    }
  }

  /** A granted claim opens attempt `lease.attempt` under the drawn token, on a delivery that was not in flight. */
  lemma ClaimIssues(db: Db, agent: Principal, id: Uuid, expected: Option<Owner>, seen: ClaimReads, token: Uuid,
                    at: Stamp)
    requires Claim(db, agent, id, expected, seen, token, at).result.Ok?
    ensures var a := Claim(db, agent, id, expected, seen, token, at); var lease := a.result.value;
      && agent.Agent? && id in db.jobs && db.jobs[id].row.state in {Pending, RetryWait}
          && db.jobs[id].row.event in db.events
      && Authorized(agent, db.jobs[id].row.workspace, Deliver(db.jobs[id].row.target))
      && lease == LeaseOf(id, db.jobs[id].row, token)
      && lease.attempt in a.db.jobs[id].attempts && lease.attempt !in db.jobs[id].attempts
      && a.db.jobs[id].attempts[lease.attempt].token == token
      && a.db == Commit(db, id, a.db.jobs[id], at)
      && Leased(db.jobs[id], db.events[db.jobs[id].row.event], agent.agent, token, at) == Some(a.db.jobs[id])
  {
  }

  lemma RollbackWrites(db: Db, agent: Principal, lease: DeliveryLease, at: Stamp)
    requires RowOk(db, lease.delivery) && ValidStamp(db.clock, at)
    ensures Wrote(db, lease.delivery, Rollback(db, agent, lease, at).db, at, {}, {lease.token}, false)
  {
    hide JobOk, Carries;
    if Rollback(db, agent, lease, at).db != db {
      var job := db.jobs[lease.delivery];
      UnclaimedOk(job, db.events[job.row.event], lease, at, db.clock);
      UnclaimedCarries(job, lease, at);
    }
  }

  lemma SettleWrites(db: Db, agent: Principal, lease: DeliveryLease, success: bool, at: Stamp)
    requires RowOk(db, lease.delivery) && ValidStamp(db.clock, at)
    ensures Wrote(db, lease.delivery, Settle(db, agent, lease, success, at).db, at, {}, {}, false)
  {
    hide JobOk, Carries;
    if Settle(db, agent, lease, success, at).db != db {
      var job := db.jobs[lease.delivery];
      var outcome := if success then Success else RetryableFailure;
      FinishOk(job, db.events[job.row.event], outcome, at, db.clock);
      FinishCarries(job, db.events[job.row.event], lease.attempt, outcome, at);
    }
  }

  lemma HeartbeatWrites(db: Db, agent: Principal, lease: DeliveryLease, at: Stamp)
    requires RowOk(db, lease.delivery) && ValidStamp(db.clock, at)
    ensures Wrote(db, lease.delivery, Heartbeat(db, agent, lease, at).db, at, {}, {}, true)
    ensures Heartbeat(db, agent, lease, at).result != Err(Internal)
  {
    if LeaseRefusal(db, agent, lease, at.read).None? {
      var job := db.jobs[lease.delivery];
      ExtendedOk(job, db.events[job.row.event], at, db.clock);
      ExtendedCarries(job, db.events[job.row.event], at);
    }
  }

  /** A granted renewal only moves the end of the lease; a refused one changes nothing. */
  lemma HeartbeatRenews(db: Db, agent: Principal, lease: DeliveryLease, at: Stamp)
    requires RowOk(db, lease.delivery) && ValidStamp(db.clock, at)
    ensures var a := Heartbeat(db, agent, lease, at); var id := lease.delivery;
      if a.result.Ok? then
        && id in db.jobs && id in a.db.jobs && db.jobs[id].row.startedAt.Some?
        && a.db.jobs[id].row == db.jobs[id].row.(
             leaseUntil := Some(ExtendedUntil(db.jobs[id].row, db.events[db.jobs[id].row.event], at.write)))
      else a.db == db
  {
    if LeaseRefusal(db, agent, lease, at.read).None? {
      var job := db.jobs[lease.delivery];
      ExtendedOk(job, db.events[job.row.event], at, db.clock);
    }
  }

  lemma ReconcileWrites(db: Db, id: Uuid, at: Stamp)
    requires RowOk(db, id) && ValidStamp(db.clock, at)
    ensures Wrote(db, id, Reconcile(db, id, at).db, at, {}, {}, false)
    ensures Reconcile(db, id, at).result != Err(Internal)
  {
    hide JobOk, Carries;
    if id in db.jobs && db.jobs[id].row.terminalAt.None? {
      var job := db.jobs[id];
      var event := db.events[job.row.event];
      if event.expiresAt <= at.read {
        ExpireOk(job, event, at, db.clock);
        QuietCarries(job, UpdateRow(job, job.row.(state := Expired), at).value);
      } else if job.row.state == InFlight {
        FinishOk(job, event, LeaseExpired, at, db.clock);
        FinishCarries(job, event, job.row.count, LeaseExpired, at);
      }
    }
  }

  lemma ExpireOneWrites(db: Db, id: Uuid, at: Stamp)
    requires RowOk(db, id) && ValidStamp(db.clock, at)
    ensures Wrote(db, id, ExpireOne(db, id, at), at, {}, {}, false)
    ensures Lapsed(db, id, at.begin) ==> ExpireOne(db, id, at).jobs[id].row.state == Expired
  {
    hide JobOk, Carries;
    if Lapsed(db, id, at.begin) {
      var job := db.jobs[id];
      ExpireOk(job, db.events[job.row.event], at, db.clock);
      QuietCarries(job, UpdateRow(job, job.row.(state := Expired), at).value);
    }
  }

  lemma BeginWaitWrites(db: Db, id: Uuid, at: Stamp)
    requires RowOk(db, id) && ValidStamp(db.clock, at)
    ensures Wrote(db, id, BeginWait(db, id, at), at, {}, {}, false)
  {
    hide Carries;
    if id in db.jobs {
      var job := db.jobs[id];
      Later(job, db.events[job.row.event], db.clock, at.write);
      QuietCarries(job, BeginWait(db, id, at).jobs[id]);
    }
  }

  lemma ExpireWaitWrites(db: Db, id: Uuid, at: Stamp)
    requires RowOk(db, id) && ValidStamp(db.clock, at)
    ensures Wrote(db, id, ExpireWait(db, id, at), at, {}, {}, false)
  {
    hide JobOk, Carries;
    if id in db.jobs && db.jobs[id].response.state == Open {
      var job := db.jobs[id];
      var event := db.events[job.row.event];
      if job.row.state == Pending && job.row.count == 0 && job.row.terminalAt.None? {
        CancelOk(job, event, at, db.clock);
        QuietCarries(job, Transactions.Cancelled(job, at).value);
      }
      TimeoutOk(job, event, at.write, db.clock);
      QuietCarries(job, job.(response := job.response.(state := TimedOut)));
    }
  }

  lemma StagedOk(job: Job, event: Event, token: Uuid, bytes: Bytes, now: Time, later: Time)
    requires JobOk(job, event, now) && now <= later && token !in job.candidates
    requires job.row.state == InFlight && job.row.token == Some(token)
    ensures var next := job.(candidates := job.candidates[token := bytes]);
      JobOk(next, event, later) && Carries(job, next, {}, {}, false)
  {
    var next := job.(candidates := job.candidates[token := bytes]);
    Later(job, event, now, later);
    SameTokens(job, next);
  }

  lemma StageWrites(db: Db, agent: Principal, lease: DeliveryLease, bytes: Bytes, at: Stamp)
    requires RowOk(db, lease.delivery) && ValidStamp(db.clock, at)
    ensures Wrote(db, lease.delivery, Stage(db, agent, lease, bytes, at).db, at, {}, {}, false)
  {
    var id := lease.delivery;
    hide Authorized, Carries;
    if Stage(db, agent, lease, bytes, at).db != db {
      var job := db.jobs[id];
      StagedOk(job, db.events[job.row.event], lease.token, bytes, db.clock, at.write);
      hide JobOk;
    }
  }

  lemma MarkSentWrites(db: Db, id: Uuid, at: Stamp)
    requires RowOk(db, id) && ValidStamp(db.clock, at) && Dispatchable(db, id, at.begin)
    ensures GoodWrite(db, id, MarkSent(db, id, at).jobs[id], at)
  {
    Later(db.jobs[id], db.events[db.jobs[id].row.event], db.clock, at.write);
  }

  // ---- what the two insertions add --------------------------------------------------

  /** The lookup result and the ids handed to acceptance are what the database would produce. */
  ghost predicate AcceptInputs(db: Db, input: EventInput, key: string, prior: Option<Accepted>, drawn: Accepted) {
    && drawn.event !in db.events && drawn.delivery !in db.jobs
    && (input.endpoint in db.endpoints ==>
          var ep := db.endpoints[input.endpoint];
          match prior
          case Some(a) => IsReceipt(db, ep.workspace, ep.app, key, a)
          case None => !HasReceipt(db, ep.workspace, ep.app, key))
  }

  /** Without a receipt no event carries the key, since every event has a first generation. */
  lemma NoReceiptNoEvent(db: Db, workspace: Uuid, app: Uuid, key: string, f: Uuid)
    requires Gapless(db) && f in db.events && !HasReceipt(db, workspace, app, key)
    ensures !Keyed(db.events[f], workspace, app, key)
  {
    assert Generated(db, f, 1);
    var d :| HasGeneration(db, f, 1, d);
    assert !IsReceipt(db, workspace, app, key, Accepted(f, d));
  }

  lemma AcceptKeeps(db: Db, principal: Principal, input: EventInput, key: string, prior: Option<Accepted>,
                    drawn: Accepted, at: Stamp)
    requires DbOk(db) && ValidStamp(db.clock, at) && AcceptInputs(db, input, key, prior, drawn)
    ensures DbOk(Accept(db, principal, input, key, prior, drawn, at).db)
  {
    var after := Accept(db, principal, input, key, prior, drawn, at).db;
    if after != db {
      var ep := db.endpoints[input.endpoint];
      if prior.Some? {
        TickKeeps(db, at.write);
      } else {
        var event := NewEvent(ep, input, key, at);
        var job := NewJob(drawn.event, event, ep.app, 1, ep.policy, at.begin);
        FreshOk(drawn.event, event, ep.app, 1, ep.policy, at.begin, at.write);
        forall f | f in db.events ensures !Keyed(db.events[f], ep.workspace, ep.app, key) {
          NoReceiptNoEvent(db, ep.workspace, ep.app, key, f);
        }
        InsertKeeps(db, drawn.event, event, drawn.delivery, job, after.quotas, at);
      }
    }
  }

  lemma ReplayInserts(db: Db, principal: Principal, id: Uuid, drawn: Uuid, at: Stamp)
    requires RowOk(db, id) && EventsOk(db) && ValidStamp(db.clock, at) && drawn !in db.jobs
    ensures var answer := Replay(db, principal, id, drawn, at);
      && answer.result != Err(Internal)
      && (answer.db == db ||
          (id in db.jobs && drawn in answer.db.jobs && db.jobs[id].row.event in db.events
           && var row := db.jobs[id].row; var e := db.events[row.event]; var job := answer.db.jobs[drawn];
              && answer.db == Inserted(db, row.event, e, drawn, job, answer.db.quotas, at)
              && Charged(db.quotas, e.workspace, e.size) == Some(answer.db.quotas)
              && GoodInsert(db, row.event, e, drawn, job, at)))
  {
    var after := Replay(db, principal, id, drawn, at).db;
    if after != db {
      var row := db.jobs[id].row;
      var event := db.events[row.event];
      var job := after.jobs[drawn];
      FreshOk(row.event, event, row.target, job.row.generation, job.response.policy, at.begin, at.write);
    }
  }

  lemma ReplayKeeps(db: Db, principal: Principal, id: Uuid, drawn: Uuid, at: Stamp)
    requires DbOk(db) && ValidStamp(db.clock, at) && drawn !in db.jobs
    ensures DbOk(Replay(db, principal, id, drawn, at).db)
  {
    RowFacts(db, id);
    ReplayInserts(db, principal, id, drawn, at);
    var after := Replay(db, principal, id, drawn, at).db;
    if after != db {
      var row := db.jobs[id].row;
      InsertKeeps(db, row.event, db.events[row.event], drawn, after.jobs[drawn], after.quotas, at);
    }
  }
}
