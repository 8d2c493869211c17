/** The promises of the delivery protocol, for every run. */
module Theorems {
  import opened Protocol
  import opened Tables
  import opened Transactions
  import opened Ledger
  import opened Invariant
  import opened Steps
  import opened Runs
  import opened Traces
  import opened Sets

  // ---- no lost work -----------------------------------------------------------------

  /** Open work within retention is either waiting in the outbox or held by the broker. */
  lemma NoLostWork(r: Run, i: nat, id: Uuid)
    requires ValidRun(r) && i < |r.worlds| && id in r.worlds[i].db.jobs
    ensures var w := r.worlds[i]; var job := w.db.jobs[id];
      && job.row.event in w.db.events
      && (job.row.terminalAt.None? && w.db.events[job.row.event].expiresAt > w.db.clock ==>
            job.outbox.Waiting() || id in w.stream)
  {
    hide JobOk;
    RunInv(r, i);
    RowFacts(r.worlds[i].db, id);
    assert Streamed(r.worlds[i].db, r.worlds[i].stream, id);
    if r.worlds[i].db.jobs[id].row.terminalAt.None? {
      OpenOutbox(r.worlds[i].db, id);
    }
  }

  lemma OpenOutbox(db: Db, id: Uuid)
    requires RowOk(db, id) && id in db.jobs && db.jobs[id].row.terminalAt.None?
    ensures db.jobs[id].outbox.discardedAt.None?
  {
  }

  /** `reconcile` answers true exactly when the state it committed is terminal. */
  lemma ReconcileReportsTerminal(db: Db, id: Uuid, at: Stamp)
    requires DbOk(db) && ValidStamp(db.clock, at) && Reconcile(db, id, at).result.Ok?
    ensures id in Reconcile(db, id, at).db.jobs
    ensures Reconcile(db, id, at).result.value <==> Terminal(Reconcile(db, id, at).db.jobs[id].row.state)
  {
    hide DbOk, JobOk, Carries, UpdateRow, FinishAttempt, Released;
    RowFacts(db, id);
    ReconcileWrites(db, id, at);
    if id in db.jobs {
      var job, after := db.jobs[id], Reconcile(db, id, at).db.jobs[id];
      var event := db.events[job.row.event];
      TerminalStates(job, event, db.clock);
      if job.row.terminalAt.None? && job.row.state == InFlight && event.expiresAt > at.read {
        FinishedState(job, event, job.row.count, LeaseExpired, at);
      }
      ExpiredState(job, at);
    }
  }

  lemma FinishedState(job: Job, event: Event, n: int, outcome: AttemptOutcome, at: Stamp)
    ensures var r := FinishAttempt(job, event, n, outcome, at); r.Some? ==>
      r.value.row.state == SettledState(n, outcome)
  {
  }

  lemma ExpiredState(job: Job, at: Stamp)
    ensures var r := UpdateRow(job, job.row.(state := Expired), at); r.Some? ==> r.value.row.state == Expired
  {
  }

  /** A broker message goes away only once its delivery is terminal for good or its event has expired. */
  lemma MessageGoneMeansDone(r: Run, i: nat, id: Uuid)
    requires ValidRun(r) && i < |r.steps| && id in r.worlds[i].stream && id !in r.worlds[i + 1].stream
    ensures var db := r.worlds[i + 1].db;
      && id in db.jobs && db.jobs[id].row.event in db.events
      && (Terminal(db.jobs[id].row.state) || db.events[db.jobs[id].row.event].expiresAt <= db.clock)
  {
    hide JobOk, DbOk;
    var w, s := r.worlds[i], r.steps[i];
    assert Follows(r, i);
    RunInv(r, i);
    RunInv(r, i + 1);
    RunContinues(r, i, id) by {
      assert Streamed(w.db, w.stream, id);
    }
    assert Streamed(w.db, w.stream, id);
    RowFacts(r.worlds[i + 1].db, id);
    if s.Reconciling? {
      ReconcileReportsTerminal(w.db, s.id, s.at);
    } else {
      assert s.AgingOut?;
      EventFacts(w.db);
    }
  }

  // ---- the attempt ledger -----------------------------------------------------------

  /** The attempt rows of any delivery in any reachable state. */
  lemma AttemptLedger(r: Run, i: nat, id: Uuid)
    requires ValidRun(r) && i < |r.worlds| && id in r.worlds[i].db.jobs
    ensures var job := r.worlds[i].db.jobs[id];
      && 0 <= job.row.count <= MAX_ATTEMPTS
      && (forall n :: n in job.attempts <==> 1 <= n <= job.row.count)
      && (forall n | n in job.attempts :: job.attempts[n].finishedAt.Some? <==> job.attempts[n].outcome.Some?)
      && (forall n | n in job.attempts && n < job.row.count ::
            job.attempts[n].finishedAt.Some? && job.attempts[n].outcome != Some(Success))
      && (forall n | n in job.attempts && job.attempts[n].finishedAt.None? ::
            n == job.row.count && job.row.state in {InFlight, Expired})
      && (forall n | n in job.attempts ::
            (job.attempts[n].outcome == Some(Success) <==> n == job.row.count && job.row.state == Succeeded))
      && (job.row.state == InFlight ==> job.row.count in job.attempts && job.attempts[job.row.count].finishedAt.None?)
      && (job.row.state == Succeeded ==> job.row.count >= 1)
      && (job.row.state == State.Cancelled ==> job.row.count == 0)
  {
    hide DbOk;
    RunInv(r, i);
    RowFacts(r.worlds[i].db, id);
  }

  /** A dead letter has exactly five attempts, all finished, none successful. */
  lemma DeadLetterMeansFiveFailures(r: Run, i: nat, id: Uuid)
    requires ValidRun(r) && i < |r.worlds| && id in r.worlds[i].db.jobs && r.worlds[i].db.jobs[id].row.state == Dlq
    ensures var job := r.worlds[i].db.jobs[id];
      && job.attempts.Keys == {1, 2, 3, 4, 5}
      && (forall n | n in job.attempts ::
            job.attempts[n].finishedAt.Some? && job.attempts[n].outcome in {Some(RetryableFailure), Some(LeaseExpired)})
  {
    hide DbOk;
    RunInv(r, i);
    RowFacts(r.worlds[i].db, id);
    assert forall n :: n in r.worlds[i].db.jobs[id].attempts <==> n in {1, 2, 3, 4, 5};
  }

  /** A claim undone by its gateway leaves the ledger, the outbox and the response as they were. */
  lemma ClaimThenRollback(db: Db, agent: Principal, id: Uuid, expected: Option<Owner>, seen: ClaimReads, token: Uuid,
                          at: Stamp, later: Stamp)
    requires DbOk(db) && ValidStamp(db.clock, at) && Authenticated(db, agent) && ValidStamp(at.write, later)
    requires id in db.jobs && token !in db.jobs[id].candidates
    requires Claim(db, agent, id, expected, seen, token, at).result.Ok?
    ensures var claimed := Claim(db, agent, id, expected, seen, token, at);
            var undone := Rollback(claimed.db, agent, claimed.result.value, later);
      && undone.result == Ok(())
      && undone.db.jobs.Keys == db.jobs.Keys
      && (forall x | x in db.jobs && x != id :: undone.db.jobs[x] == db.jobs[x])
      && undone.db.jobs[id].attempts == db.jobs[id].attempts
      && undone.db.jobs[id].row.count == db.jobs[id].row.count
      && undone.db.jobs[id].row.state == Pending && undone.db.jobs[id].row.Due(later.read)
      && undone.db.jobs[id].outbox == db.jobs[id].outbox
      && undone.db.jobs[id].response == db.jobs[id].response
      && undone.db.jobs[id].candidates == db.jobs[id].candidates
      && undone.db.quotas == db.quotas && undone.db.events == db.events
  {
    hide DbOk, Claim;
    RowFacts(db, id);
    ClaimIssues(db, agent, id, expected, seen, token, at);
    var claimed := Claim(db, agent, id, expected, seen, token, at);
    LeaseThenUnclaim(db.jobs[id], db.events[db.jobs[id].row.event], agent.agent, token, at, claimed.result.value, later,
                     db.clock);
  }

  /** The record-level half: undoing the write of a claim restores every column but the state and the due time. */
  lemma LeaseThenUnclaim(job: Job, event: Event, agent: Uuid, token: Uuid, at: Stamp, lease: DeliveryLease,
                         later: Stamp, now: Time)
    requires JobOk(job, event, now) && Leased(job, event, agent, token, at).Some?
        && job.row.state in {Pending, RetryWait}
    requires lease.attempt == job.row.count + 1 && lease.token == token
    ensures var leased := Leased(job, event, agent, token, at).value;
      && Deletable(leased, lease, agent) && CurrentLease(leased.row, lease, agent)
      && leased.candidates == job.candidates && leased.row.terminalAt.None?
      && Unclaimed(leased, lease, later) ==
         Some(job.(row := job.row.(state := Pending, token := None, agent := None, startedAt := None,
                                   leaseUntil := None, nextAt := None)))
  {
    var leased := Leased(job, event, agent, token, at).value;
    assert leased.attempts - {lease.attempt} == job.attempts;
  }

  /**
   Attempt n starts no earlier than attempt n - 1 finished plus its retry delay, whatever was
   rolled back in between.
   */
  lemma RetrySpacing(r: Run, i: nat, id: Uuid, n: int)
    requires ValidRun(r) && i < |r.worlds| && id in r.worlds[i].db.jobs
    requires n >= 2 && n in r.worlds[i].db.jobs[id].attempts
    ensures var attempts := r.worlds[i].db.jobs[id].attempts;
      && n - 1 in attempts && attempts[n - 1].finishedAt.Some?
      && attempts[n].startedAt >= attempts[n - 1].finishedAt.value + RetryDelay(n - 1)
  {
    hide DbOk;
    RunInv(r, i);
    RowFacts(r.worlds[i].db, id);
  }

  // ---- fencing ------------------------------------------------------------------------

  /** Step `s` grants `lease`. */
  predicate Issues(w: World, s: Step, lease: DeliveryLease) {
    s.Claiming? && Claim(w.db, s.agent, s.id, s.expected, s.seen, s.token, s.at).result == Ok(lease)
  }

  /** Step `s` settles, renews or stages a response under `lease`, successfully. */
  predicate Uses(w: World, s: Step, lease: DeliveryLease) {
    match s
    case Settling(agent, l, success, at) => l == lease && Settle(w.db, agent, l, success, at).result.Ok?
    case Beating(agent, l, at) => l == lease && Heartbeat(w.db, agent, l, at).result.Ok?
    case Staging(agent, l, bytes, at) => l == lease && Stage(w.db, agent, l, bytes, at).result.Ok?
    case _ => false
  }

  /** Step `s` ends the current lease of delivery `id` by settlement or rollback. */
  predicate Ends(w: World, s: Step, id: Uuid) {
    match s
    case Settling(agent, l, success, at) => l.delivery == id && Settle(w.db, agent, l, success, at).result.Ok?
    case RollingBack(agent, l, at) => l.delivery == id && Rollback(w.db, agent, l, at).result.Ok?
    case _ => false
  }

  /** The lease the row of an in-flight delivery stands for. */
  function HeldLease(db: Db, id: Uuid): DeliveryLease
    requires id in db.jobs && db.jobs[id].row.token.Some?
  {
    var row := db.jobs[id].row;
    DeliveryLease(id, row.event, row.token.value, row.generation, row.count)
  }

  predicate Held(db: Db, id: Uuid) {
    id in db.jobs && db.jobs[id].row.state == InFlight && db.jobs[id].row.token.Some?
  }

  /** Between i and j nobody else was granted the delivery and its lease was not ended. */
  ghost predicate Undisturbed(r: Run, i: nat, j: nat, id: Uuid)
    requires j < |r.worlds| && |r.worlds| == |r.steps| + 1
  {
    forall k | i < k < j ::
      && !Ends(r.worlds[k], r.steps[k], id)
      && (r.steps[k].Claiming? && r.steps[k].id == id ==> !exists lease :: Issues(r.worlds[k], r.steps[k], lease))
  }

  lemma EndsCloses(w: World, s: Step, id: Uuid)
    requires Inv(w) && Enabled(w, s) && Ends(w, s, id)
    ensures id in Apply(w, s).db.jobs && Apply(w, s).db.jobs[id].row.state != InFlight
  {
    hide DbOk, StreamOk, UsedOk, FramesOk;
    RowFacts(w.db, id);
  }

  lemma IssueOpens(w: World, s: Step, lease: DeliveryLease)
    requires Inv(w) && Enabled(w, s) && Issues(w, s, lease)
    ensures lease.delivery == s.id && lease.token == s.token && s.token !in w.used && s.token in Apply(w, s).used
    ensures s.id in w.db.jobs && w.db.jobs[s.id].row.state != InFlight
    ensures Held(Apply(w, s).db, s.id) && HeldLease(Apply(w, s).db, s.id) == lease
  {
    hide DbOk, Claim;
    ClaimIssues(w.db, s.agent, s.id, s.expected, s.seen, s.token, s.at);
  }

  /** A delivery that turns in flight was granted by that very step. */
  lemma OpenedByIssue(w: World, s: Step, id: Uuid)
    requires Inv(w) && Enabled(w, s) && s.Claiming? && s.id == id && id in w.db.jobs
    requires Held(Apply(w, s).db, id) && Apply(w, s).db.jobs[id].row.token == Some(s.token)
    requires !HasToken(w.db.jobs[id], s.token)
    ensures Issues(w, s, HeldLease(Apply(w, s).db, id))
  {
    hide DbOk;
    RowFacts(w.db, id);
    if Claim(w.db, s.agent, id, s.expected, s.seen, s.token, s.at).result.Ok? {
      IssueOpens(w, s, Claim(w.db, s.agent, id, s.expected, s.seen, s.token, s.at).result.value);
    } else {
      if Held(w.db, id) { HeldTokenStored(w.db, id); }
      RefusedNeverOpens(w.db, s.agent, id, s.expected, s.seen, s.token, s.at);
    }
  }

  lemma RefusedNeverOpens(db: Db, agent: Principal, id: Uuid, expected: Option<Owner>, seen: ClaimReads, token: Uuid,
                          at: Stamp)
    requires id in db.jobs && (db.jobs[id].row.state == InFlight ==> db.jobs[id].row.token != Some(token))
    requires Claim(db, agent, id, expected, seen, token, at).result.Err?
    ensures var after := Claim(db, agent, id, expected, seen, token, at).db;
      id in after.jobs && (after.jobs[id].row.state == InFlight ==> after.jobs[id].row.token != Some(token))
  {
    hide Reap, Admit;
    if Reachable(db, agent, id) {
      AdmitRefuses(db, agent, id, expected, seen, token, at);
      ReapCloses(db, id, at);
    }
  }

  predicate Reachable(db: Db, agent: Principal, id: Uuid) {
    agent.Agent? && id in db.jobs && db.jobs[id].row.event in db.events
  }

  lemma AdmitRefuses(db: Db, agent: Principal, id: Uuid, expected: Option<Owner>, seen: ClaimReads, token: Uuid,
                     at: Stamp)
    requires Reachable(db, agent, id)
    ensures Admit(db, agent, id, expected, seen, token, at).result.Err? ==>
        Admit(db, agent, id, expected, seen, token, at).db == db
  {
    hide Leased, LiveLeases;
  }

  lemma ReapCloses(db: Db, id: Uuid, at: Stamp)
    requires id in db.jobs && db.jobs[id].row.event in db.events
    ensures Reap(db, id, at).db == db
        || (id in Reap(db, id, at).db.jobs && Reap(db, id, at).db.jobs[id].row.state != InFlight)
  {
  }

  lemma HeldTokenStored(db: Db, id: Uuid)
    requires RowOk(db, id) && Held(db, id)
    ensures HasToken(db.jobs[id], db.jobs[id].row.token.value)
  {
    assert db.jobs[id].attempts[db.jobs[id].row.count].token == db.jobs[id].row.token.value;
  }

  /** How an in-flight delivery got there in one step: granted by it, or carried over undisturbed. */
  lemma HeldStep(r: Run, j: nat, id: Uuid)
    requires ValidRun(r) && j < |r.steps| && Held(r.worlds[j + 1].db, id)
    ensures || (&& Held(r.worlds[j].db, id) && HeldLease(r.worlds[j].db, id) == HeldLease(r.worlds[j + 1].db, id)
                && (|| r.worlds[j + 1].db.jobs[id].row == r.worlds[j].db.jobs[id].row
                    || (r.steps[j].Beating? && r.steps[j].lease.delivery == id))
                && !Ends(r.worlds[j], r.steps[j], id)
                && (r.steps[j].Claiming? && r.steps[j].id == id ==>
                      !exists lease :: Issues(r.worlds[j], r.steps[j], lease)))
            || Issues(r.worlds[j], r.steps[j], HeldLease(r.worlds[j + 1].db, id))
  {
    hide DbOk, JobOk, Claim, Settle, Rollback, Heartbeat, Stage;
    var w, s := r.worlds[j], r.steps[j];
    assert Follows(r, j);
    RunInv(r, j);
    NewJobsRest(w, s, id);
    RunContinues(r, j, id);
    if s.Claiming? && s.id == id && r.worlds[j + 1].db.jobs[id].row.token == Some(s.token) {
      assert !HasToken(w.db.jobs[id], s.token);
      OpenedByIssue(w, s, id);
    } else {
      if Ends(w, s, id) { EndsCloses(w, s, id); }
      if s.Claiming? && s.id == id {
        forall lease ensures !Issues(w, s, lease) {
          if Issues(w, s, lease) { IssueOpens(w, s, lease); }
        }
      }
    }
  }

  /** Inserted deliveries start out pending. */
  lemma NewJobsRest(w: World, s: Step, id: Uuid)
    requires Inv(w) && Enabled(w, s) && Held(Apply(w, s).db, id)
    ensures id in w.db.jobs
  {
    if id !in w.db.jobs {
      NothingAppears(w, s, id);
    }
  }

  lemma NothingAppears(w: World, s: Step, id: Uuid)
    requires Inv(w) && Enabled(w, s) && id !in w.db.jobs && id in Apply(w, s).db.jobs
    ensures Apply(w, s).db.jobs[id].row.state == Pending
  {
    hide Inv, Enabled;
    if !s.Accepting? && !s.Replaying? {
      StepKeepsKeys(w, s);
    }
  }

  /** The grant behind an in-flight delivery: the newest one, undisturbed since. */
  lemma {:induction false} HeldOrigin(r: Run, j: nat, id: Uuid) returns (i: nat)
    requires ValidRun(r) && j < |r.worlds| && Held(r.worlds[j].db, id)
    ensures i < j && Issues(r.worlds[i], r.steps[i], HeldLease(r.worlds[j].db, id))
    ensures Undisturbed(r, i, j, id)
    decreases j
  {
    hide Inv, Enabled, Apply, Claim, Ends;
    if j == 0 {
      assert false;
    }
    HeldStep(r, j - 1, id);
    if Issues(r.worlds[j - 1], r.steps[j - 1], HeldLease(r.worlds[j].db, id)) {
      i := j - 1;
    } else {
      i := HeldOrigin(r, j - 1, id);
    }
  }

  /**
   Fencing: a lease that is settled, renewed or answered was granted earlier in the run, is the
   newest grant of its delivery, was neither settled nor rolled back since, and is still live.
   */
  lemma Fencing(r: Run, j: nat, lease: DeliveryLease) returns (i: nat)
    requires ValidRun(r) && j < |r.steps| && Uses(r.worlds[j], r.steps[j], lease)
    ensures i < j && Issues(r.worlds[i], r.steps[i], lease)
    ensures Undisturbed(r, i, j, lease.delivery)
    ensures lease.delivery in r.worlds[j].db.jobs
    ensures r.worlds[j].db.jobs[lease.delivery].row.LeaseLive(r.steps[j].at.read)
  {
    hide Inv, Enabled, Apply, FinishAttempt, UpdateRow, Extended;
    i := HeldOrigin(r, j, lease.delivery);
  }

  /** Each lease settles at most once. */
  lemma SettlesOnce(r: Run, i: nat, j: nat, lease: DeliveryLease)
    requires ValidRun(r) && i < j < |r.steps| && r.steps[i].Settling? && r.steps[j].Settling?
    requires Uses(r.worlds[i], r.steps[i], lease)
    ensures !Uses(r.worlds[j], r.steps[j], lease)
  {
    hide Inv, Enabled, Apply, FinishAttempt, UpdateRow, Claim;
    if Uses(r.worlds[j], r.steps[j], lease) {
      var gi := Fencing(r, i, lease);
      var gj := Fencing(r, j, lease);
      assert Ends(r.worlds[i], r.steps[i], lease.delivery);
      assert gi < i <= gj;
      IssuedOnce(r, gi, gj, lease);
    }
  }

  /** No token is ever granted twice. */
  lemma IssuedOnce(r: Run, i: nat, j: nat, lease: DeliveryLease)
    requires ValidRun(r) && i < j < |r.steps| && Issues(r.worlds[i], r.steps[i], lease)
    ensures !Issues(r.worlds[j], r.steps[j], lease)
  {
    hide Inv, Enabled, Apply, Claim;
    RunInv(r, i);
    RunInv(r, j);
    assert Follows(r, i) && Follows(r, j);
    IssueOpens(r.worlds[i], r.steps[i], lease);
    UsedGrows(r, i + 1, j);
    if Issues(r.worlds[j], r.steps[j], lease) {
      IssueOpens(r.worlds[j], r.steps[j], lease);
    }
  }

  /** Step `s` reports success for delivery `id`. */
  predicate Completes(w: World, s: Step, id: Uuid) {
    s.Settling? && s.success && s.lease.delivery == id && Settle(w.db, s.agent, s.lease, true, s.at).result.Ok?
  }

  /** Each delivery succeeds at most once, and stays succeeded. */
  lemma SucceedsOnce(r: Run, i: nat, j: nat, id: Uuid)
    requires ValidRun(r) && i < j <= |r.steps| && Completes(r.worlds[i], r.steps[i], id)
    ensures id in r.worlds[j].db.jobs && r.worlds[j].db.jobs[id].row.state == Succeeded
    ensures j < |r.steps| ==> !Completes(r.worlds[j], r.steps[j], id)
  {
    hide DbOk;
    RunInv(r, i);
    assert Follows(r, i);
    RowFacts(r.worlds[i].db, id);
    assert r.worlds[i + 1].db.jobs[id].row.terminalAt.Some?;
    TerminalForever(r, i + 1, j, id);
  }

  // ---- the per-agent bound ------------------------------------------------------------

  /** Every live lease of an agent id at `now`, in whatever workspace or application. */
  function LeasesOf(db: Db, agent: Uuid, now: Time): set<Uuid> {
    set id | id in db.jobs && db.jobs[id].row.state == InFlight && db.jobs[id].row.agent == Some(agent)
             && db.jobs[id].row.leaseUntil.Some? && db.jobs[id].row.leaseUntil.value > now
  }

  /** No agent ever holds more than sixteen live leases, counted over all workspaces and gateways, now or later. */
  lemma AgentHoldsAtMostSixteen(r: Run, i: nat, agent: Uuid, now: Time)
    requires ValidRun(r) && i < |r.worlds| && r.worlds[i].db.clock <= now
    ensures |LeasesOf(r.worlds[i].db, agent, now)| <= MAX_IN_FLIGHT
  {
    hide JobOk;
    RunInv(r, i);
    var db := r.worlds[i].db;
    var held := LeasesOf(db, agent, now);
    if agent in db.agents {
      var home := db.agents[agent];
      forall id | id in held ensures id in LiveLeases(db, home.0, home.1, agent, db.clock) {
        LiveExactly(db.jobs[id], db.events[db.jobs[id].row.event], db.clock, db.clock);
      }
      SubsetCard(held, LiveLeases(db, home.0, home.1, agent, db.clock));
    } else {
      assert held == {};
    }
  }

  /** A lease is live exactly until its end: the other two caps never bind earlier. */
  lemma LiveExactly(job: Job, event: Event, now: Time, t: Time)
    requires JobOk(job, event, now) && job.row.state == InFlight
    ensures job.row.leaseUntil.Some? && job.row.startedAt.Some?
    ensures job.row.LeaseLive(t) <==> job.row.leaseUntil.value > t
    ensures job.row.leaseUntil.value <= event.expiresAt
  {
  }

  /** The admission count of a registered agent is the number of its live leases anywhere. */
  lemma CountExactly(db: Db, agent: Principal, now: Time)
    requires JobsOk(db) && AgentsScoped(db) && agent.Agent? && Authenticated(db, agent)
    ensures LiveLeases(db, agent.workspace, agent.app, agent.agent, now) == LeasesOf(db, agent.agent, now)
  {
    hide JobOk;
    forall id | id in db.jobs && db.jobs[id].row.state == InFlight
      ensures id in LiveLeases(db, agent.workspace, agent.app, agent.agent, now)
              <==> id in LeasesOf(db, agent.agent, now)
    {
      LiveExactly(db.jobs[id], db.events[db.jobs[id].row.event], db.clock, now);
    }
  }

  // ---- the lease closed form ------------------------------------------------------------

  /** The write time of the latest grant or renewal of delivery `id` before world `j`. */
  function LastTouch(r: Run, j: nat, id: Uuid): Option<Time>
    requires j < |r.worlds| && |r.worlds| == |r.steps| + 1
    decreases j
  {
    if j == 0 then None
    else
      var w, s := r.worlds[j - 1], r.steps[j - 1];
      var touched :=
        || (s.Claiming? && s.id == id && Claim(w.db, s.agent, s.id, s.expected, s.seen, s.token, s.at).result.Ok?)
        || (s.Beating? && s.lease.delivery == id && Heartbeat(w.db, s.agent, s.lease, s.at).result.Ok?);
      if touched then Some(s.at.write) else LastTouch(r, j - 1, id)
  }

  /** The three caps of a lease. */
  function LeaseEnd(touched: Time, started: Time, expires: Time): Time {
    Min(touched + LEASE, Min(started + MAX_RUNTIME, expires))
  }

  lemma StampsAhead(w: World, s: Step)
    requires Enabled(w, s) && s.Beating?
    ensures ValidStamp(w.db.clock, s.at)
  {
  }

  lemma HeldRow(w: World, id: Uuid)
    requires Inv(w)
    ensures RowOk(w.db, id)
  {
    hide DbOk, RowOk;
    RowFacts(w.db, id);
  }

  /** While in flight, a lease ends at min(last grant or renewal + 60 s, attempt start + 300 s, event expiry). */
  lemma {:induction false} LeaseClosedForm(r: Run, j: nat, id: Uuid)
    requires ValidRun(r) && j < |r.worlds| && Held(r.worlds[j].db, id)
    ensures var db := r.worlds[j].db; var row := db.jobs[id].row;
      && row.startedAt.Some? && row.event in db.events && LastTouch(r, j, id).Some?
      && row.leaseUntil == Some(LeaseEnd(LastTouch(r, j, id).value, row.startedAt.value,
                                         db.events[row.event].expiresAt))
    decreases j
  {
    hide Inv, RowOk, JobOk, Claim, Heartbeat, Settle, Rollback, Stage, Ends, Enabled;
    if j == 0 {
      assert false;
    }
    var w, s := r.worlds[j - 1], r.steps[j - 1];
    assert Follows(r, j - 1);
    RunInv(r, j - 1);
    if s.Beating? { StampsAhead(w, s); }
    HeldStep(r, j - 1, id);
    if Issues(w, s, HeldLease(r.worlds[j].db, id)) {
      ClaimIssues(w.db, s.agent, s.id, s.expected, s.seen, s.token, s.at);
      RunContinues(r, j - 1, id);
    } else {
      LeaseClosedForm(r, j - 1, id);
      RunContinues(r, j - 1, id);
      if s.Beating? && s.lease.delivery == id {
        HeldRow(w, id);
        HeartbeatRenews(w.db, s.agent, s.lease, s.at);
      } else if s.Claiming? && s.id == id {
        var result := Claim(w.db, s.agent, s.id, s.expected, s.seen, s.token, s.at).result;
        assert result.Ok? ==> Issues(w, s, result.value);
      }
    }
  }

  /** A renewal never moves the end of a lease backwards. */
  lemma HeartbeatNeverShortens(db: Db, agent: Principal, lease: DeliveryLease, at: Stamp)
    requires DbOk(db) && ValidStamp(db.clock, at) && Heartbeat(db, agent, lease, at).result.Ok?
    ensures var before := db.jobs[lease.delivery].row;
      var after := Heartbeat(db, agent, lease, at).db.jobs[lease.delivery].row;
      before.leaseUntil.Some? && after.leaseUntil.Some? && before.leaseUntil.value <= after.leaseUntil.value
  {
    hide DbOk;
    RowFacts(db, lease.delivery);
  }

  /** A live lease implies a retained event and an attempt younger than 300 seconds. */
  lemma LiveLeaseIsRetained(r: Run, i: nat, id: Uuid, now: Time)
    requires ValidRun(r) && i < |r.worlds| && Held(r.worlds[i].db, id)
    requires r.worlds[i].db.jobs[id].row.leaseUntil.Some? && r.worlds[i].db.jobs[id].row.leaseUntil.value > now
    ensures var db := r.worlds[i].db; var row := db.jobs[id].row;
      && row.event in db.events && db.events[row.event].expiresAt > now
      && row.startedAt.Some? && now < row.startedAt.value + MAX_RUNTIME
  {
    LeaseClosedForm(r, i, id);
  }

  // ---- never cancel sent work -------------------------------------------------------------

  /** A frame a socket accepted in an earlier step keeps its attempt row for ever. */
  lemma {:induction false} SentStaysLedgered(r: Run, i: nat, j: nat, id: Uuid, token: Uuid)
    requires ValidRun(r) && i < |r.steps| && r.steps[i] == Sending(id, token) && i < j < |r.worlds|
    ensures (id, token) in r.worlds[j].admitted
    decreases j
  {
    hide Inv;
    assert Follows(r, j - 1);
    if i < j - 1 {
      SentStaysLedgered(r, i, j - 1, id, token);
    }
  }

  /** A cancelled delivery has never had a frame accepted by a socket, in any earlier step. */
  lemma NeverCancelsSentWork(r: Run, i: nat, j: nat, id: Uuid, token: Uuid)
    requires ValidRun(r) && i < |r.steps| && r.steps[i] == Sending(id, token) && i < j < |r.worlds|
    ensures id in r.worlds[j].db.jobs && r.worlds[j].db.jobs[id].row.state != State.Cancelled
  {
    hide DbOk;
    SentStaysLedgered(r, i, j, id, token);
    RunInv(r, j);
    RowFacts(r.worlds[j].db, id);
  }

  // ---- generations --------------------------------------------------------------------------

  /** Every generation below an existing one exists. */
  lemma {:induction false} GenerationsBelow(db: Db, event: Uuid, g: int, top: int)
    requires Gapless(db) && top in Generations(db, event) && 1 <= g <= top
    ensures g in Generations(db, event)
    decreases top - g
  {
    if g < top {
      GenerationsBelow(db, event, g + 1, top);
      var a :| a in db.jobs && db.jobs[a].row.event == event && db.jobs[a].row.generation == g + 1;
      assert Generated(db, event, db.jobs[a].row.generation - 1);
      var b :| HasGeneration(db, event, g, b);
    }
  }

  /** Replays number an event's deliveries 1..n without gap or repeat, and only the newest can still be open. */
  lemma EventGenerations(r: Run, i: nat, event: Uuid) returns (n: int)
    requires ValidRun(r) && i < |r.worlds| && event in r.worlds[i].db.events
    ensures n >= 1
    ensures forall g :: g in Generations(r.worlds[i].db, event) <==> 1 <= g <= n
    ensures forall a, b | a in r.worlds[i].db.jobs && b in r.worlds[i].db.jobs
              && r.worlds[i].db.jobs[a].row.event == event && r.worlds[i].db.jobs[b].row.event == event
              && r.worlds[i].db.jobs[a].row.generation == r.worlds[i].db.jobs[b].row.generation :: a == b
    ensures forall a | a in r.worlds[i].db.jobs && r.worlds[i].db.jobs[a].row.event == event
              && r.worlds[i].db.jobs[a].row.terminalAt.None? :: r.worlds[i].db.jobs[a].row.generation == n
  {
    hide JobOk, QuotasOk, AgentsBounded, StreamOk, UsedOk, FramesOk;
    RunInv(r, i);
    var db := r.worlds[i].db;
    assert Generated(db, event, 1);
    var first :| HasGeneration(db, event, 1, first);
    assert 1 in Generations(db, event);
    n := MaxOf(Generations(db, event));
    forall g | 1 <= g <= n ensures g in Generations(db, event) {
      GenerationsBelow(db, event, g, n);
    }
    forall a, b | a in db.jobs && b in db.jobs && db.jobs[a].row.event == event && db.jobs[b].row.event == event
      ensures db.jobs[a].row.generation == db.jobs[b].row.generation ==> a == b
      ensures db.jobs[a].row.terminalAt.None? ==> db.jobs[b].row.generation <= db.jobs[a].row.generation
    {
      assert Sibling(db, a, b);
    }
    var newest :| newest in db.jobs && db.jobs[newest].row.event == event && db.jobs[newest].row.generation == n;
    forall a | a in db.jobs && db.jobs[a].row.event == event ensures db.jobs[a].row.generation <= n {
      assert db.jobs[a].row.generation in Generations(db, event);
    }
  }

  // ---- idempotent acceptance ------------------------------------------------------------------

  /** The workspace and application an acceptance step addresses. */
  predicate Addresses(w: World, s: Step, workspace: Uuid, app: Uuid, key: string) {
    && s.Accepting? && s.key == key && s.input.endpoint in w.db.endpoints
    && w.db.endpoints[s.input.endpoint].workspace == workspace && w.db.endpoints[s.input.endpoint].app == app
  }

  function Reply(w: World, s: Step): Result<Accepted, AcceptError>
    requires s.Accepting?
  {
    Accept(w.db, s.principal, s.input, s.key, s.prior, s.drawn, s.at).result
  }

  /** One key of one application has one event and one first delivery. */
  lemma ReceiptUnique(db: Db, workspace: Uuid, app: Uuid, key: string, a: Accepted, b: Accepted)
    requires EventsOk(db) && Unrepeated(db)
    requires IsReceipt(db, workspace, app, key, a) && IsReceipt(db, workspace, app, key, b)
    ensures a == b
  {
    assert Keyed(db.events[a.event], db.events[b.event].workspace, db.events[b.event].app, db.events[b.event].key);
    assert Sibling(db, a.delivery, b.delivery);
  }

  /** An accepted event is stored with its payload and its first delivery. */
  lemma AcceptStores(w: World, s: Step, workspace: Uuid, app: Uuid, key: string, a: Accepted)
    requires Inv(w) && Enabled(w, s) && Addresses(w, s, workspace, app, key) && Reply(w, s) == Ok(a)
    ensures IsReceipt(Apply(w, s).db, workspace, app, key, a)
    ensures Apply(w, s).db.events[a.event].payload == s.input.payload
  {
    hide DbOk, StreamOk, UsedOk, FramesOk;
  }

  lemma {:induction false} ReceiptKept(r: Run, i: nat, j: nat, workspace: Uuid, app: Uuid, key: string, a: Accepted)
    requires ValidRun(r) && i <= j < |r.worlds| && IsReceipt(r.worlds[i].db, workspace, app, key, a)
    ensures IsReceipt(r.worlds[j].db, workspace, app, key, a)
    ensures r.worlds[j].db.events[a.event].payload == r.worlds[i].db.events[a.event].payload
    decreases j - i
  {
    if i < j {
      RunContinues(r, i, a.delivery);
      ReceiptKept(r, i + 1, j, workspace, app, key, a);
    }
  }

  /**
   Over any run, successful acceptances under one workspace, application and key return the same
   ids and carried the same payload; a different payload is refused and changes nothing.
   */
  lemma IdempotentAcceptance(r: Run, i: nat, j: nat, workspace: Uuid, app: Uuid, key: string, a: Accepted)
    requires ValidRun(r) && i < j < |r.steps|
    requires Addresses(r.worlds[i], r.steps[i], workspace, app, key) && Reply(r.worlds[i], r.steps[i]) == Ok(a)
    requires Addresses(r.worlds[j], r.steps[j], workspace, app, key)
    ensures Reply(r.worlds[j], r.steps[j]).Ok? ==>
      Reply(r.worlds[j], r.steps[j]) == Ok(a) && r.steps[j].input.payload == r.steps[i].input.payload
    ensures r.steps[j].input.payload != r.steps[i].input.payload ==>
      Reply(r.worlds[j], r.steps[j]).Err? && r.worlds[j + 1].db == r.worlds[j].db
    ensures r.steps[j].input.payload != r.steps[i].input.payload
            && Publishable(r.worlds[j].db, r.steps[j].principal, r.steps[j].input, key) ==>
      Reply(r.worlds[j], r.steps[j]) == Err(RefusedConflict)
  {
    hide JobOk, QuotasOk, AgentsBounded, StreamOk, UsedOk, FramesOk, Gapless;
    RunInv(r, i);
    RunInv(r, j);
    assert Follows(r, i) && Follows(r, j);
    AcceptStores(r.worlds[i], r.steps[i], workspace, app, key, a);
    ReceiptKept(r, i + 1, j, workspace, app, key, a);
    var db, prior := r.worlds[j].db, r.steps[j].prior;
    assert HasReceipt(db, workspace, app, key);
    assert prior.Some?;
    ReceiptUnique(db, workspace, app, key, a, prior.value);
  }

  // ---- quotas -----------------------------------------------------------------------------------

  /** The stored counters of a workspace are exactly its open deliveries and their bytes, never above the caps. */
  lemma QuotaConservation(r: Run, i: nat, workspace: Uuid)
    requires ValidRun(r) && i < |r.worlds|
    ensures QuotaOf(r.worlds[i].db, workspace).deliveries == |Outstanding(r.worlds[i].db, workspace)|
    ensures QuotaOf(r.worlds[i].db, workspace).bytes
         == Sum(Sizes(r.worlds[i].db), Outstanding(r.worlds[i].db, workspace))
    ensures QuotaOf(r.worlds[i].db, workspace).deliveries <= MAX_OUTSTANDING_DELIVERIES
    ensures QuotaOf(r.worlds[i].db, workspace).bytes <= MAX_OUTSTANDING_BYTES
  {
    RunInv(r, i);
    assert QuotaExact(r.worlds[i].db, workspace);
  }

  // ---- responses --------------------------------------------------------------------------------

  /** A stored result is the candidate staged by the attempt that succeeded; Answered means before the deadline. */
  lemma ResultComesFromWinner(r: Run, i: nat, id: Uuid)
    requires ValidRun(r) && i < |r.worlds| && id in r.worlds[i].db.jobs
    ensures var job := r.worlds[i].db.jobs[id]; var resp := job.response;
      && (resp.state == Answered ==> resp.result.Some?)
      && (resp.result.Some? ==>
            && job.row.state == Succeeded && job.row.count in job.attempts
            && job.attempts[job.row.count].outcome == Some(Success)
            && job.attempts[job.row.count].token in job.candidates
            && resp.result == Some(job.candidates[job.attempts[job.row.count].token]))
      && (resp.state == Answered && resp.deadline.Some? ==>
            resp.answeredAt.Some? && resp.answeredAt.value < resp.deadline.value)
  {
    hide DbOk;
    RunInv(r, i);
    RowFacts(r.worlds[i].db, id);
  }

  /** Results are final and staged candidates are immutable. */
  lemma {:induction false} ResultsAreFinal(r: Run, i: nat, j: nat, id: Uuid, token: Uuid)
    requires ValidRun(r) && i <= j < |r.worlds| && id in r.worlds[i].db.jobs
    ensures id in r.worlds[j].db.jobs
    ensures r.worlds[i].db.jobs[id].response.result.Some? ==>
      r.worlds[j].db.jobs[id].response.result == r.worlds[i].db.jobs[id].response.result
    ensures token in r.worlds[i].db.jobs[id].candidates ==>
      && token in r.worlds[j].db.jobs[id].candidates
      && r.worlds[j].db.jobs[id].candidates[token] == r.worlds[i].db.jobs[id].candidates[token]
    decreases j - i
  {
    if i < j {
      RunContinues(r, i, id);
      ResultsAreFinal(r, i + 1, j, id, token);
    }
  }

  // ---- exactly when -------------------------------------------------------------------------

  /**
   Nothing stands in the way of a claim: the row is open, due and in time, the agent is online and
   below its bound.
   */
  ghost predicate Grantable(db: Db, agent: Principal, id: Uuid, expected: Option<Owner>, seen: ClaimReads, at: Stamp) {
    && agent.Agent? && id in db.jobs && db.jobs[id].row.event in db.events
    && var row := db.jobs[id].row; var event := db.events[row.event];
    && agent.workspace == row.workspace && agent.app == row.target
    && row.state in {Pending, RetryWait} && (row.nextAt.None? || row.nextAt.value <= at.read)
    && event.expiresAt > at.write && !Overslept(db.jobs[id], at.read)
    && (expected.Some? ==> seen.before == Up(expected) && seen.after == Up(expected))
    && seen.online.Up? && seen.online.owner.Some?
    && |LeasesOf(db, agent.agent, at.read)| < MAX_IN_FLIGHT
  }

  /** Never claimed, and the caller that asked for cancellation has stopped waiting. */
  predicate Overslept(job: Job, now: Time) {
    && job.row.state == Pending && job.row.count == 0
    && job.response.state == Open && job.response.policy.Sync? && job.response.policy.expirePending
    && job.response.deadline.Some? && job.response.deadline.value <= now
  }

  /** No constraint or trigger ever refuses a claim the code admits. */
  lemma ClaimGrantedExactly(r: Run, i: nat)
    requires ValidRun(r) && i < |r.steps| && r.steps[i].Claiming?
    ensures var s := r.steps[i]; var db := r.worlds[i].db;
      Claim(db, s.agent, s.id, s.expected, s.seen, s.token, s.at).result.Ok?
      <==> Grantable(db, s.agent, s.id, s.expected, s.seen, s.at)
  {
    hide Claim, Grantable, JobsOk, Linked, EventsOk, GenerationsOk, QuotasOk, AgentsScoped, AgentsBounded;
    var s, db := r.steps[i], r.worlds[i].db;
    assert Follows(r, i);
    RunInv(r, i);
    RowFacts(db, s.id);
    if s.agent.Agent? {
      CountExactly(db, s.agent, s.at.read);
    }
    GrantExactly(db, s.agent, s.id, s.expected, s.seen, s.token, s.at);
  }

  lemma GrantExactly(db: Db, agent: Principal, id: Uuid, expected: Option<Owner>, seen: ClaimReads, token: Uuid,
                     at: Stamp)
    requires RowOk(db, id) && ValidStamp(db.clock, at)
    requires agent.Agent? ==>
      LiveLeases(db, agent.workspace, agent.app, agent.agent, at.read) == LeasesOf(db, agent.agent, at.read)
    ensures Claim(db, agent, id, expected, seen, token, at).result.Ok? <==> Grantable(db, agent, id, expected, seen, at)
  {
    hide LiveLeases, LeasesOf, JobOk, Leased, Reap;
    if id in db.jobs {
      var job := db.jobs[id];
      TerminalStates(job, db.events[job.row.event], db.clock);
      ReapTakesNothing(db, id, at);
      if job.row.state in {Pending, RetryWait} && job.row.Due(at.read) && job.row.terminalAt.None? {
        LeasedOk(job, db.events[job.row.event], if agent.Agent? then agent.agent else 0, token, at, db.clock);
      }
    }
  }

  lemma TerminalStates(job: Job, event: Event, now: Time)
    requires JobOk(job, event, now)
    ensures job.row.terminalAt.Some? <==> Terminal(job.row.state)
  {
  }

  lemma ReapTakesNothing(db: Db, id: Uuid, at: Stamp)
    requires id in db.jobs && db.jobs[id].row.event in db.events
    ensures Reap(db, id, at).result.Err?
  {
  }

  /** The lease is the held one, is the agent's, and outlives the final write. */
  predicate Settleable(db: Db, agent: Principal, lease: DeliveryLease, at: Stamp) {
    var id := lease.delivery;
    && agent.Agent? && Held(db, id) && HeldLease(db, id) == lease
    && db.jobs[id].row.agent == Some(agent.agent)
    && agent.workspace == db.jobs[id].row.workspace && agent.app == db.jobs[id].row.target
    && db.jobs[id].row.leaseUntil.Some? && db.jobs[id].row.leaseUntil.value > at.write
  }

  lemma SettleExactly(db: Db, agent: Principal, lease: DeliveryLease, success: bool, at: Stamp)
    requires RowOk(db, lease.delivery) && ValidStamp(db.clock, at)
    ensures Settle(db, agent, lease, success, at).result.Ok? <==> Settleable(db, agent, lease, at)
  {
    hide JobOk, FinishAttempt, Commit;
    if lease.delivery in db.jobs {
      var job := db.jobs[lease.delivery];
      var event := db.events[job.row.event];
      var outcome := if success then Success else RetryableFailure;
      if job.row.state == InFlight {
        LiveExactly(job, event, db.clock, at.read);
        LiveExactly(job, event, db.clock, at.write);
      }
      if job.row.state == InFlight && job.row.LeaseLive(at.write) && event.expiresAt > at.write {
        FinishOk(job, event, outcome, at, db.clock);
      }
      if FinishAttempt(job, event, lease.attempt, outcome, at).Some? {
        FinishFenced(job, event, lease.attempt, outcome, at);
      }
    }
  }

  lemma FinishFenced(job: Job, event: Event, n: int, outcome: AttemptOutcome, at: Stamp)
    requires outcome != LeaseExpired && FinishAttempt(job, event, n, outcome, at).Some?
    ensures job.row.state == InFlight && job.row.count == n && job.row.LeaseLive(at.write) && event.expiresAt > at.write
  {
  }

  /** In every run a settlement is accepted exactly when its lease is settleable. */
  lemma SettleAcceptedExactly(r: Run, i: nat)
    requires ValidRun(r) && i < |r.steps| && r.steps[i].Settling?
    ensures var s := r.steps[i];
      Settle(r.worlds[i].db, s.agent, s.lease, s.success, s.at).result.Ok?
      <==> Settleable(r.worlds[i].db, s.agent, s.lease, s.at)
  {
    hide DbOk, Settle, Settleable;
    var s, db := r.steps[i], r.worlds[i].db;
    assert Follows(r, i);
    RunInv(r, i);
    RowFacts(db, s.lease.delivery);
    SettleExactly(db, s.agent, s.lease, s.success, s.at);
  }

  /** A response is staged exactly under the held lease of the target application, once per attempt. */
  predicate Stageable(db: Db, agent: Principal, lease: DeliveryLease, bytes: Bytes, at: Stamp) {
    && Settleable(db, agent, lease, at.(write := at.read))
    && (lease.token in db.jobs[lease.delivery].candidates ==> db.jobs[lease.delivery].candidates[lease.token] == bytes)
  }

  /**
   In every run a response is staged exactly when it is stageable: although the code checks the
   source application, that is always the target application.
   */
  lemma StageGrantedExactly(r: Run, i: nat)
    requires ValidRun(r) && i < |r.steps| && r.steps[i].Staging?
    ensures var s := r.steps[i];
      Stage(r.worlds[i].db, s.agent, s.lease, s.bytes, s.at).result.Ok?
      <==> Stageable(r.worlds[i].db, s.agent, s.lease, s.bytes, s.at)
  {
    hide DbOk, JobOk;
    var s, db := r.steps[i], r.worlds[i].db;
    assert Follows(r, i);
    RunInv(r, i);
    RowFacts(db, s.lease.delivery);
    if s.lease.delivery in db.jobs && db.jobs[s.lease.delivery].row.state == InFlight {
      var job := db.jobs[s.lease.delivery];
      LiveExactly(job, db.events[job.row.event], db.clock, s.at.read);
    }
  }

  /** The workspace has room for one more open delivery of this size, counted over its open deliveries. */
  ghost predicate HasRoom(db: Db, workspace: Uuid, size: nat) {
    && |Outstanding(db, workspace)| < MAX_OUTSTANDING_DELIVERIES
    && Sum(Sizes(db), Outstanding(db, workspace)) + size <= MAX_OUTSTANDING_BYTES
  }

  /** The input and key are admissible and the principal may publish to the endpoint's application. */
  predicate Publishable(db: Db, principal: Principal, input: EventInput, key: string) {
    && input.size <= MAX_BODY_BYTES && input.wellFormed && ValidKey(key) && |input.payload| <= 2 * MAX_BODY_BYTES
    && input.endpoint in db.endpoints
    && var ep := db.endpoints[input.endpoint];
    match principal
    case SystemAdmin(_) => true
    case WorkspaceOwner(_, own) => own == ep.workspace
    case Application(own, app, _) => own == ep.workspace && app == ep.app
    case Agent(_, _, _, _) => false
  }

  lemma ChargedExactly(db: Db, workspace: Uuid, size: nat)
    requires QuotaExact(db, workspace)
    ensures Charged(db.quotas, workspace, size).Some? <==> HasRoom(db, workspace, size)
  {
  }

  /** An event under this key of this application is stored with another payload. */
  ghost predicate Contradicts(db: Db, workspace: Uuid, app: Uuid, key: string, payload: Bytes) {
    exists e :: e in db.events && Keyed(db.events[e], workspace, app, key) && db.events[e].payload != payload
  }

  ghost predicate KeyTaken(db: Db, workspace: Uuid, app: Uuid, key: string) {
    exists e :: e in db.events && Keyed(db.events[e], workspace, app, key)
  }

  lemma ReceiptMeansTaken(db: Db, workspace: Uuid, app: Uuid, key: string, prior: Option<Accepted>)
    requires Gapless(db)
    requires match prior
      case Some(a) => IsReceipt(db, workspace, app, key, a)
      case None => !HasReceipt(db, workspace, app, key)
    ensures KeyTaken(db, workspace, app, key) <==> prior.Some?
  {
    if prior.None? {
      forall f | f in db.events ensures !Keyed(db.events[f], workspace, app, key) {
        NoReceiptNoEvent(db, workspace, app, key, f);
      }
    }
  }

  /**
   In every run an event is accepted exactly when it is admissible and either repeats the payload
   stored under its key or, for a new key, fits beside the workspace's open deliveries.
   */
  lemma AcceptedExactly(r: Run, i: nat)
    requires ValidRun(r) && i < |r.steps| && r.steps[i].Accepting?
    ensures var s := r.steps[i]; var db := r.worlds[i].db;
      Reply(r.worlds[i], s).Ok?
      <==> && Publishable(db, s.principal, s.input, s.key)
           && (var ep := db.endpoints[s.input.endpoint];
               if KeyTaken(db, ep.workspace, ep.app, s.key)
               then !Contradicts(db, ep.workspace, ep.app, s.key, s.input.payload)
               else HasRoom(db, ep.workspace, s.input.size))
  {
    hide JobOk, AgentsBounded, StreamOk, UsedOk, FramesOk, HasRoom, ValidKey, Charged, Inserted, NewJob,
        HasReceipt;
    var s, db := r.steps[i], r.worlds[i].db;
    assert Follows(r, i);
    RunInv(r, i);
    if s.input.endpoint in db.endpoints {
      var ep := db.endpoints[s.input.endpoint];
      assert QuotaExact(db, ep.workspace);
      ChargedExactly(db, ep.workspace, s.input.size);
      ReceiptMeansTaken(db, ep.workspace, ep.app, s.key, s.prior);
      if s.prior.Some? {
        assert forall e | e in db.events && Keyed(db.events[e], ep.workspace, ep.app, s.key) ::
            e == s.prior.value.event;
      }
    }
  }

  /** Asked by an operator, for a retained event with no open delivery, within the quota. */
  ghost predicate Replayable(db: Db, principal: Principal, id: Uuid, at: Stamp) {
    && id in db.jobs && db.jobs[id].row.event in db.events
    && var row := db.jobs[id].row; var event := db.events[row.event];
    && (principal.SystemAdmin? || (principal.WorkspaceOwner? && principal.workspace == row.workspace))
    && event.expiresAt > at.write && HasRoom(db, event.workspace, event.size)
    && forall d | d in db.jobs && db.jobs[d].row.event == row.event :: Terminal(db.jobs[d].row.state)
  }

  lemma ActiveExactly(db: Db, event: Uuid)
    requires JobsOk(db)
    ensures Active(db, event)
       <==> exists d :: d in db.jobs && db.jobs[d].row.event == event && !Terminal(db.jobs[d].row.state)
  {
    hide JobOk;
    forall d | d in db.jobs ensures Terminal(db.jobs[d].row.state) <==> db.jobs[d].row.terminalAt.Some? {
      TerminalStates(db.jobs[d], db.events[db.jobs[d].row.event], db.clock);
    }
  }

  /** In every run a replay is granted exactly when the delivery is replayable. */
  lemma ReplayGrantedExactly(r: Run, i: nat)
    requires ValidRun(r) && i < |r.steps| && r.steps[i].Replaying?
    ensures var s := r.steps[i];
      Replay(r.worlds[i].db, s.principal, s.id, s.successor, s.at).result.Ok?
      <==> Replayable(r.worlds[i].db, s.principal, s.id, s.at)
  {
    hide JobsOk, GenerationsOk, AgentsScoped, AgentsBounded, StreamOk, UsedOk, FramesOk, HasRoom, Charged, Inserted,
        NewJob, Generations, Active;
    var s, db := r.steps[i], r.worlds[i].db;
    assert Follows(r, i);
    RunInv(r, i);
    if s.id in db.jobs && db.jobs[s.id].row.event in db.events {
      var event := db.events[db.jobs[s.id].row.event];
      assert QuotaExact(db, event.workspace);
      ChargedExactly(db, event.workspace, event.size);
      ActiveExactly(db, db.jobs[s.id].row.event);
    }
  }
}
