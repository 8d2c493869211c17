/**
 The store as the services use it: tables and broker stream updated in place, one method per
 transaction of rust/src/delivery.rs, events.rs, outbox.rs and responses.rs. Work on locals is
 the open transaction; assignments to the fields are its commit. Each method is proved to take
 exactly the step of the state machine it stands for, so every theorem about runs covers it.
 Clock readings, drawn UUIDs and broker or presence answers are parameters.
 */
module Stores {
  import opened Protocol
  import opened Tables
  import opened Transactions
  import opened Invariant
  import opened Steps
  import opened Runs
  import opened Sets

  /** Each transaction of a script begins no earlier than the one before it wrote. */
  ghost predicate Chained(start: Time, script: seq<(Publication, Stamp)>) {
    && (script != [] ==> ValidStamp(start, script[0].1))
    && (forall i | 0 < i < |script| ::
          ValidStamp(script[i - 1].1.write, script[i].1) && script[i - 1].1.begin <= script[i].1.begin)
  }

  /** A publishable row that no other dispatcher holds locked. */
  predicate Free(db: Db, taken: set<Uuid>, id: Uuid, now: Time) {
    id in db.jobs && id !in taken && Dispatchable(db, id, now)
  }

  /** The publisher found no row left to take. */
  ghost predicate NoneFree(db: Db, taken: set<Uuid>, now: Time) {
    forall id :: !Free(db, taken, id, now)
  }

  /** When the outbox rows were created. */
  function Created(db: Db): map<Uuid, Time> {
    map id | id in db.jobs :: db.jobs[id].outbox.createdAt
  }

  /** The order in which rows are published: by creation, then by id. */
  predicate Sooner(created: map<Uuid, Time>, x: Uuid, y: Uuid) {
    && x in created && y in created
    && (created[x] < created[y] || (created[x] == created[y] && x < y))
  }

  predicate IsNext(db: Db, taken: set<Uuid>, now: Time, id: Uuid) {
    && Free(db, taken, id, now)
    && forall x | x in db.jobs && Free(db, taken, x, now) :: x == id || Sooner(Created(db), id, x)
  }

  lemma OneSooner(created: map<Uuid, Time>, x: Uuid, y: Uuid)
    requires x in created && y in created && x != y
    ensures Sooner(created, x, y) != Sooner(created, y, x)
  {
  }

  lemma SoonerOf(created: map<Uuid, Time>, x: Uuid, y: Uuid, z: Uuid)
    requires Sooner(created, x, y) && Sooner(created, y, z)
    ensures Sooner(created, x, z)
  {
  }

  ghost predicate IsSoonest(created: map<Uuid, Time>, pool: set<Uuid>, x: Uuid) {
    x in pool && forall y | y in pool :: y == x || Sooner(created, x, y)
  }

  lemma {:induction false} SoonestExists(created: map<Uuid, Time>, pool: set<Uuid>)
    requires pool <= created.Keys && |pool| > 0
    ensures exists x :: IsSoonest(created, pool, x)
    decreases |pool|
  {
    hide Sooner;
    var y := Pick(pool);
    var rest := pool - {y};
    assert forall z | z in pool :: z == y || z in rest;
    if |rest| == 0 {
      assert IsSoonest(created, pool, y);
    } else {
      SoonestExists(created, rest);
      var x :| IsSoonest(created, rest, x);
      OneSooner(created, x, y);
      if Sooner(created, y, x) {
        forall z | z in rest && z != x ensures Sooner(created, y, z) { SoonerOf(created, y, x, z); }
        assert IsSoonest(created, pool, y);
      } else {
        assert IsSoonest(created, pool, x);
      }
    }
  }

  lemma NextExists(db: Db, taken: set<Uuid>, now: Time, id: Uuid)
    requires Free(db, taken, id, now)
    ensures exists x :: x in db.jobs && IsNext(db, taken, now, x)
  {
    hide Dispatchable, Sooner;
    var pool := set x | x in db.jobs && Free(db, taken, x, now);
    assert id in pool;
    SoonestExists(Created(db), pool);
    var x :| IsSoonest(Created(db), pool, x);
    assert IsNext(db, taken, now, x);
  }

  /** Publishing and marking a row takes it out of the free rows and adds none. */
  lemma MarkShrinks(w: World, taken: set<Uuid>, id: Uuid, at: Stamp, later: Time)
    requires Free(w.db, taken, id, at.begin) && at.begin <= later
    ensures var after := Apply(w, Dispatching(id, StoredMarked, at)).db;
      && Created(after) == Created(w.db)
      && forall x | Free(after, taken, x, later) :: x != id && Free(w.db, taken, x, at.begin)
  {
    var after := Apply(w, Dispatching(id, StoredMarked, at)).db;
    assert after.jobs == w.db.jobs[id := after.jobs[id]] && after.events == w.db.events;
  }

  class Store {
    var clock: Time
    const agents: map<Uuid, (Uuid, Uuid)>
    const endpoints: map<Uuid, Endpoint>
    var events: map<Uuid, Event>
    var jobs: map<Uuid, Job>
    var quotas: map<Uuid, Quota>
    var stream: map<Uuid, Time>

    // History the protocol does not store: UUIDs drawn so far, frames held and frames sent by gateways.
    ghost var used: set<Uuid>
    ghost var unsent: set<(Uuid, Uuid)>
    ghost var admitted: set<(Uuid, Uuid)>

    constructor (now: Time, agents: map<Uuid, (Uuid, Uuid)>, endpoints: map<Uuid, Endpoint>)
      ensures Initial(World()) && this.agents == agents && this.endpoints == endpoints && clock == now
      ensures Inv(World())
    {
      this.clock, this.agents, this.endpoints := now, agents, endpoints;
      events, jobs, quotas, stream := map[], map[], map[], map[];
      used, unsent, admitted := {}, {}, {};
      new;
      InitialInv(World());
    }

    ghost function World(): World
      reads this
    {
      Runs.World(Db(clock, agents, endpoints, events, jobs, quotas), stream, used, unsent, admitted)
    }

    /** A socket accepted the frame of a held claim. */
    ghost method FrameAccepted(id: Uuid, token: Uuid)
      requires Inv(World()) && (id, token) in unsent
      modifies this
      ensures World() == Apply(old(World()), Sending(id, token)) && Inv(World())
    {
      hide Inv;
      StepKeepsInv(World(), Sending(id, token));
      unsent := unsent - {(id, token)};
      admitted := admitted + {(id, token)};
    }

    // ---- SQL statements under the triggers -------------------------------------------

    /** UPDATE deliveries under the accounting and response triggers; None when a trigger raises. */
    method UpdateDelivery(job: Job, row: Delivery, at: Stamp) returns (r: Option<Job>)
      ensures r == UpdateRow(job, row, at)
    {
      var before := job.row;
      if !row.SameIdentity(before) {
        return None;
      }
      if before.terminalAt.Some? {
        if row.state != before.state || row.terminalAt != before.terminalAt {
          return None;
        }
        return Some(job.(row := row));
      }
      var after := row;
      var next := job;
      if Terminal(after.state) {
        after := after.(terminalAt := Some(at.begin));
        if next.outbox.Waiting() {
          next := next.(outbox := next.outbox.(discardedAt := Some(at.begin)));
        }
      } else if after.terminalAt.Some? {
        return None;
      }
      if before.state == InFlight && after.state == Succeeded && before.token.Some?
          && before.token.value in job.candidates {
        var response := next.response;
        if response.result.None? {
          var inTime := response.state == Open && (response.deadline.None? || response.deadline.value > at.write);
          response := response.(result := Some(job.candidates[before.token.value]), answeredAt := Some(at.write));
          response := response.(state := if inTime then Answered else TimedOut);
        }
        next := next.(response := response);
      }
      return Some(next.(row := after));
    }

    /** COMMIT of a transaction that wrote one delivery, with the quota release of the accounting trigger. */
    method Persist(id: Uuid, job: Job, at: Stamp)
      requires id in jobs
      modifies this`clock, this`jobs, this`quotas
      ensures World().db == Commit(old(World().db), id, job, at)
    {
      var before := jobs[id].row;
      if before.terminalAt.None? && job.row.terminalAt.Some? && before.workspace in quotas {
        var q := quotas[before.workspace];
        quotas := quotas[before.workspace := Quota(q.deliveries - 1, q.bytes - before.size)];
      }
      jobs := jobs[id := job];
      clock := at.write;
    }

    method CloseAttempt(job: Job, event: Event, n: int, outcome: AttemptOutcome, at: Stamp) returns (r: Option<Job>)
      ensures r == FinishAttempt(job, event, n, outcome, at)
    {
      var attempts := job.attempts;
      if n in attempts && attempts[n].finishedAt.None? {
        attempts := attempts[n := attempts[n].(outcome := Some(outcome), finishedAt := Some(at.write))];
      }
      var state := if outcome == Success then Succeeded else if n >= MAX_ATTEMPTS then Dlq else RetryWait;
      var live := job.row.LeaseLive(at.write) && event.expiresAt > at.write;
      if job.row.state != InFlight || job.row.count != n || !(outcome == LeaseExpired || live) {
        return None;
      }
      var nextAt: Option<Time> := None;
      if state == RetryWait && n in attempts && attempts[n].finishedAt.Some? {
        nextAt := Some(attempts[n].finishedAt.value + RetryDelay(n));
      }
      r := UpdateDelivery(job.(attempts := attempts), job.row.(state := state, nextAt := nextAt), at);
    }

    // ---- rust/src/delivery.rs --------------------------------------------------------

    /** Clean-up met by a claim: retention expiry, an elapsed expire_pending deadline, a dead lease. */
    method ReapDelivery(id: Uuid, at: Stamp) returns (e: DeliveryError)
      requires id in jobs && jobs[id].row.event in events
      requires Overdue(jobs[id], events[jobs[id].row.event], at.read) || jobs[id].row.state == InFlight
      modifies this`clock, this`jobs, this`quotas
      ensures Answer(World().db, Err(e)) == Reap(old(World().db), id, at)
    {
      hide UpdateRow, Commit, FinishAttempt;
      var job := jobs[id];
      var event := events[job.row.event];
      if event.expiresAt <= at.read {
        var expired := UpdateDelivery(job, job.row.(state := Expired), at);
        if expired.None? { return Internal; }
        Persist(id, expired.value, at);
        return Gone;
      }
      if job.row.state == Pending && job.row.count == 0 && DeadlinePassed(job.response, at.read) {
        var timedOut := job.(response := job.response.(state := TimedOut));
        var cancelled := UpdateDelivery(timedOut, job.row.(state := State.Cancelled), at);
        if cancelled.None? { return Internal; }
        Persist(id, cancelled.value, at);
        return Gone;
      }
      if job.row.LeaseLive(at.read) {
        return Conflict;
      }
      var closed := CloseAttempt(job, event, job.row.count, LeaseExpired, at);
      if closed.None? { return Internal; }
      Persist(id, closed.value, at);
      return if job.row.count >= MAX_ATTEMPTS then Gone else Conflict;
    }

    /** Admission of a claim on an open delivery that is not in flight. */
    method AdmitClaim(agent: Principal, id: Uuid, expected: Option<Owner>, seen: ClaimReads, token: Uuid, at: Stamp)
      returns (r: Result<DeliveryLease, DeliveryError>)
      requires agent.Agent? && id in jobs && jobs[id].row.event in events
      modifies this`clock, this`jobs, this`quotas
      ensures Answer(World().db, r) == Admit(old(World().db), agent, id, expected, seen, token, at)
    {
      hide UpdateRow, Commit;
      var job := jobs[id];
      var event := events[job.row.event];
      if !job.row.Due(at.read) {
        return Err(Conflict);
      }
      if seen.online.Down? || seen.online.owner.None? {
        return Err(Unavailable);
      }
      var inFlight := set d | d in jobs && jobs[d].row.HeldBy(agent.workspace, agent.app, agent.agent, at.read);
      assert inFlight == LiveLeases(World().db, agent.workspace, agent.app, agent.agent, at.read);
      if |inFlight| >= MAX_IN_FLIGHT {
        return Err(TooManyRequests);
      }
      if job.row.state !in {Pending, RetryWait} || event.expiresAt <= at.write {
        return Err(Conflict);
      }
      var n := job.row.count + 1;
      var lease := DeliveryLease(id, job.row.event, token, job.row.generation, n);
      if n > MAX_ATTEMPTS || n in job.attempts {
        return Err(Internal);
      }
      var until := Min(at.write + LEASE, event.expiresAt);
      var leased := UpdateDelivery(
        job.(attempts := job.attempts[n := Attempt(token, agent.agent, at.write, until, None, None)]),
        job.row.(state := InFlight, count := n, token := Some(token), agent := Some(agent.agent),
                 startedAt := Some(at.write), leaseUntil := Some(until), nextAt := None), at);
      if leased.None? { return Err(Internal); }
      if expected.Some? && seen.after.Down? {
        return Err(Unavailable);
      }
      if expected.Some? && seen.after.owner != expected {
        return Err(Conflict);
      }
      Persist(id, leased.value, at);
      return Ok(lease);
    }

    method ClaimDeliveryOwned(agent: Principal, id: Uuid, expected: Option<Owner>, seen: ClaimReads, token: Uuid,
                              at: Stamp)
      returns (r: Result<DeliveryLease, DeliveryError>)
      requires Inv(World()) && Enabled(World(), Claiming(agent, id, expected, seen, token, at))
      modifies this
      ensures World() == Apply(old(World()), Claiming(agent, id, expected, seen, token, at))
      ensures r == Claim(old(World()).db, agent, id, expected, seen, token, at).result
      ensures Inv(World())
    {
      hide Inv, Enabled, Reap, Admit;
      StepKeepsInv(World(), Claiming(agent, id, expected, seen, token, at));
      ghost var w := World();
      used := used + {token};
      if !agent.Agent? || id !in jobs || jobs[id].row.event !in events {
        return Err(Forbidden);
      }
      var job := jobs[id];
      var event := events[job.row.event];
      if !Authorized(agent, job.row.workspace, Deliver(job.row.target)) {
        return Err(Forbidden);
      }
      if expected.Some? && seen.before.Down? {
        return Err(Unavailable);
      }
      if expected.Some? && seen.before.owner != expected {
        return Err(Conflict);
      }
      if job.row.terminalAt.Some? {
        return Err(Gone);
      }
      if Overdue(job, event, at.read) || job.row.state == InFlight {
        var error := ReapDelivery(id, at);
        return Err(error);
      }
      r := AdmitClaim(agent, id, expected, seen, token, at);
      if r.Ok? {
        unsent := unsent + {(id, token)};
      }
    }

    method RollbackClaim(agent: Principal, lease: DeliveryLease, at: Stamp) returns (r: Result<(), DeliveryError>)
      requires Inv(World()) && Enabled(World(), RollingBack(agent, lease, at))
      modifies this
      ensures World() == Apply(old(World()), RollingBack(agent, lease, at))
      ensures r == Rollback(old(World()).db, agent, lease, at).result
      ensures Inv(World())
    {
      hide Inv, Enabled;
      StepKeepsInv(World(), RollingBack(agent, lease, at));
      if !agent.Agent? {
        return Err(Forbidden);
      }
      var id, n := lease.delivery, lease.attempt;
      if id !in jobs || n !in jobs[id].attempts {
        return Err(Conflict);
      }
      var job := jobs[id];
      var a := job.attempts[n];
      if a.token != lease.token || a.agent != agent.agent || a.finishedAt.Some? {
        return Err(Conflict);
      }
      if lease.token in job.candidates {
        return Err(Internal);
      }
      var row := job.row;
      if row.state != InFlight || row.count != n || row.token != Some(lease.token) || row.agent != Some(agent.agent) {
        return Err(Conflict);
      }
      var reset := UpdateDelivery(job.(attempts := job.attempts - {n}),
        row.(state := Pending, count := row.count - 1, token := None, agent := None, startedAt := None,
             leaseUntil := None, nextAt := None), at);
      if reset.None? { return Err(Internal); }
      Persist(id, reset.value, at);
      unsent := unsent - {(id, lease.token)};
      return Ok(());
    }

    /** The row lock, authorisation and lease check shared by agent calls. */
    method LockLease(agent: Principal, lease: DeliveryLease, now: Time) returns (r: Option<DeliveryError>)
      ensures r == LeaseRefusal(World().db, agent, lease, now)
    {
      if !agent.Agent? || lease.delivery !in jobs || jobs[lease.delivery].row.event !in events {
        return Some(Forbidden);
      }
      var row := jobs[lease.delivery].row;
      if !Authorized(agent, row.workspace, Deliver(row.target)) {
        return Some(Forbidden);
      }
      if !LeaseMatches(row, events[row.event], lease, agent.agent, now) {
        return Some(Conflict);
      }
      return None;
    }

    method SettleDelivery(agent: Principal, lease: DeliveryLease, success: bool, at: Stamp)
      returns (r: Result<(), DeliveryError>)
      requires Inv(World()) && Enabled(World(), Settling(agent, lease, success, at))
      modifies this
      ensures World() == Apply(old(World()), Settling(agent, lease, success, at))
      ensures r == Settle(old(World()).db, agent, lease, success, at).result
      ensures Inv(World())
    {
      hide Inv, Enabled;
      StepKeepsInv(World(), Settling(agent, lease, success, at));
      var refusal := LockLease(agent, lease, at.read);
      if refusal.Some? {
        return Err(refusal.value);
      }
      var job := jobs[lease.delivery];
      var outcome := if success then Success else RetryableFailure;
      var closed := CloseAttempt(job, events[job.row.event], lease.attempt, outcome, at);
      if closed.None? {
        return Err(Conflict);
      }
      Persist(lease.delivery, closed.value, at);
      return Ok(());
    }

    method HeartbeatLease(agent: Principal, lease: DeliveryLease, at: Stamp) returns (r: Result<(), DeliveryError>)
      requires Inv(World()) && Enabled(World(), Beating(agent, lease, at))
      modifies this
      ensures World() == Apply(old(World()), Beating(agent, lease, at))
      ensures r == Heartbeat(old(World()).db, agent, lease, at).result
      ensures Inv(World())
    {
      hide Inv, Enabled;
      StepKeepsInv(World(), Beating(agent, lease, at));
      var refusal := LockLease(agent, lease, at.read);
      if refusal.Some? {
        return Err(refusal.value);
      }
      var job := jobs[lease.delivery];
      var event := events[job.row.event];
      if !job.row.LeaseLive(at.write) || event.expiresAt <= at.write {
        return Err(Conflict);
      }
      var until := Min(at.write + LEASE, Min(job.row.startedAt.value + MAX_RUNTIME, event.expiresAt));
      var attempts := job.attempts;
      if job.row.count in attempts {
        attempts := attempts[job.row.count := attempts[job.row.count].(leaseUntil := until)];
      }
      var extended := UpdateDelivery(job.(attempts := attempts), job.row.(leaseUntil := Some(until)), at);
      if extended.None? { return Err(Internal); }
      Persist(lease.delivery, extended.value, at);
      return Ok(());
    }

    /** Reaps an abandoned attempt; the answer says whether the broker message may be acknowledged. */
    method ReconcileDelivery(id: Uuid, at: Stamp) returns (r: Result<bool, DeliveryError>)
      requires Inv(World()) && Enabled(World(), Reconciling(id, false, at))
      modifies this
      ensures World() == Apply(old(World()), Reconciling(id, false, at))
      ensures r == Reconcile(old(World()).db, id, at).result
      ensures Inv(World())
    {
      hide Inv, Enabled;
      StepKeepsInv(World(), Reconciling(id, false, at));
      if id !in jobs || jobs[id].row.event !in events {
        return Err(Forbidden);
      }
      var job := jobs[id];
      var event := events[job.row.event];
      var terminal := job.row.terminalAt.Some?;
      if !terminal && event.expiresAt <= at.read {
        var expired := UpdateDelivery(job, job.row.(state := Expired), at);
        if expired.None? { return Err(Internal); }
        Persist(id, expired.value, at);
        terminal := true;
      } else if !terminal && job.row.state == InFlight && !job.row.LeaseLive(at.read) {
        var closed := CloseAttempt(job, event, job.row.count, LeaseExpired, at);
        if closed.None? { return Err(Internal); }
        Persist(id, closed.value, at);
        terminal := job.row.count >= MAX_ATTEMPTS;
      } else {
        clock := at.write;
      }
      return Ok(terminal);
    }

    /** SELECT max(generation) + 1 over the deliveries of an event. */
    method NextGeneration(event: Uuid) returns (n: int)
      requires exists d :: d in jobs && jobs[d].row.event == event
      ensures |Generations(World().db, event)| > 0 && n == MaxOf(Generations(World().db, event)) + 1
    {
      var generations := set d | d in jobs && jobs[d].row.event == event :: jobs[d].row.generation;
      assert generations == Generations(World().db, event);
      ghost var d :| d in jobs && jobs[d].row.event == event;
      assert jobs[d].row.generation in generations;
      n := MaxOf(generations) + 1;
    }

    method InsertDelivery(event: Uuid, e: Event, id: Uuid, job: Job, charged: map<Uuid, Quota>, at: Stamp)
      modifies this`clock, this`events, this`jobs, this`quotas
      ensures World().db == Inserted(old(World().db), event, e, id, job, charged, at)
    {
      events := events[event := e];
      jobs := jobs[id := job];
      quotas := charged;
      clock := at.write;
    }

    method ReplayDelivery(principal: Principal, id: Uuid, drawn: Uuid, at: Stamp)
      returns (r: Result<Accepted, DeliveryError>)
      requires Inv(World()) && Enabled(World(), Replaying(principal, id, drawn, at))
      modifies this
      ensures World() == Apply(old(World()), Replaying(principal, id, drawn, at))
      ensures r == Replay(old(World()).db, principal, id, drawn, at).result
      ensures Inv(World())
    {
      hide Inv, Enabled, Charged, NewJob, Authorized, Inserted, Generations;
      StepKeepsInv(World(), Replaying(principal, id, drawn, at));
      used := used + {drawn};
      if id !in jobs || jobs[id].row.event !in events {
        return Err(Forbidden);
      }
      var row := jobs[id].row;
      if !Authorized(principal, row.workspace, ManageApps) || !(principal.SystemAdmin? || principal.WorkspaceOwner?) {
        return Err(Forbidden);
      }
      var event := events[row.event];
      if event.expiresAt <= at.read {
        return Err(Gone);
      }
      var active := exists d | d in jobs :: jobs[d].row.event == row.event && jobs[d].row.terminalAt.None?;
      if active {
        return Err(Conflict);
      }
      if event.expiresAt <= at.write {
        return Err(Gone);
      }
      var charged := Charged(quotas, event.workspace, event.size);
      if charged.None? {
        return Err(TooManyRequests);
      }
      if event.endpoint !in endpoints {
        return Err(Internal);
      }
      var next := NextGeneration(row.event);
      InsertDelivery(row.event, event, drawn,
                     NewJob(row.event, event, row.target, next, endpoints[event.endpoint].policy, at.begin),
                     charged.value, at);
      return Ok(Accepted(row.event, drawn));
    }

    // ---- rust/src/events.rs ------------------------------------------------------------

    /** The idempotency lookup: an event under the key joined with its first delivery. */
    method FindReceipt(workspace: Uuid, app: Uuid, key: string) returns (r: Option<Accepted>)
      ensures r.Some? ==> IsReceipt(World().db, workspace, app, key, r.value) && r.value.event in events
      ensures r.None? ==> !HasReceipt(World().db, workspace, app, key)
    {
      if e, d :| e in events && d in jobs && Keyed(events[e], workspace, app, key)
                 && jobs[d].row.event == e && jobs[d].row.generation == 1
      {
        return Some(Accepted(e, d));
      }
      return None;
    }

    /** `prior` is the receipt the idempotency lookup found. */
    method AcceptEvent(principal: Principal, input: EventInput, key: string, drawn: Accepted, at: Stamp)
      returns (r: Result<Accepted, AcceptError>, ghost prior: Option<Accepted>)
      requires Inv(World()) && ValidStamp(clock, at)
      requires drawn.event !in used && drawn.delivery !in used && drawn.event != drawn.delivery
      modifies this
      ensures Enabled(old(World()), Accepting(principal, input, key, prior, drawn, at))
      ensures World() == Apply(old(World()), Accepting(principal, input, key, prior, drawn, at))
      ensures r == Accept(old(World()).db, principal, input, key, prior, drawn, at).result
      ensures Inv(World())
    {
      hide Inv, Charged, NewJob, ValidKey, Authorized, Inserted, HasReceipt, IsReceipt;
      DrawnIsNew(World(), drawn.event);
      DrawnIsNew(World(), drawn.delivery);
      var found: Option<Accepted> := None;
      if input.endpoint in endpoints {
        found := FindReceipt(endpoints[input.endpoint].workspace, endpoints[input.endpoint].app, key);
      }
      prior := found;
      ghost var step := Accepting(principal, input, key, prior, drawn, at);
      assert AcceptInputs(World().db, input, key, prior, drawn);
      StepKeepsInv(World(), step);
      used := used + {drawn.event, drawn.delivery};
      if input.size > MAX_BODY_BYTES {
        return Err(RefusedTooLarge), prior;
      }
      if !input.wellFormed || !ValidKey(key) {
        return Err(RefusedInvalid), prior;
      }
      if |input.payload| > 2 * MAX_BODY_BYTES {
        return Err(RefusedTooLarge), prior;
      }
      if input.endpoint !in endpoints {
        return Err(RefusedForbidden), prior;
      }
      var ep := endpoints[input.endpoint];
      if !Authorized(principal, ep.workspace, Publish(ep.app)) {
        return Err(RefusedForbidden), prior;
      }
      if found.Some? {
        assert found.value.event in events;
        if events[found.value.event].payload != input.payload {
          return Err(RefusedConflict), prior;
        }
        clock := at.write;
        return Ok(found.value), prior;
      }
      var charged := Charged(quotas, ep.workspace, input.size);
      if charged.None? {
        return Err(RefusedQuota), prior;
      }
      var event := Event(ep.workspace, ep.app, input.endpoint, key, input.payload, input.size, at.begin,
                         at.begin + RETENTION);
      InsertDelivery(drawn.event, event, drawn.delivery, NewJob(drawn.event, event, ep.app, 1, ep.policy, at.begin),
                     charged.value, at);
      return Ok(drawn), prior;
    }

    method ExpireRow(id: Uuid, at: Stamp)
      requires Lapsed(World().db, id, at.begin)
      modifies this`clock, this`jobs, this`quotas
      ensures World() == old(World()).(db := ExpireOne(old(World()).db, id, at))
    {
      hide UpdateRow;
      var expired := UpdateDelivery(jobs[id], jobs[id].row.(state := Expired), at);
      if expired.Some? {
        Persist(id, expired.value, at);
      }
    }

    /** `selected` is what the locking SELECT returned: at most a batch of lapsed deliveries. */
    method ExpireDeliveries(batch: nat, selected: seq<Uuid>, at: Stamp) returns (n: nat)
      requires Inv(World()) && Enabled(World(), Expiring(selected, at))
      requires |selected| <= (if batch < 1000 then batch else 1000)
      requires forall i | 0 <= i < |selected| :: Lapsed(World().db, selected[i], at.begin)
      requires forall i, j | 0 <= i < j < |selected| :: selected[i] != selected[j]
      modifies this`clock, this`jobs, this`quotas
      ensures World() == Apply(old(World()), Expiring(selected, at))
      ensures n == |selected| <= batch
      ensures jobs.Keys == old(jobs.Keys)
      ensures forall id | id in jobs ::
                if id in selected then jobs[id].row.state == Expired else jobs[id] == old(jobs)[id]
      ensures Inv(World())
    {
      hide Inv, ExpireOne, ExpireAll, Enabled;
      ghost var w := World();
      StepKeepsInv(w, Expiring(selected, at));
      StampOf(w, selected, at);
      NoneExpired(w.db, at);
      n := 0;
      while n < |selected|
        invariant 0 <= n <= |selected|
        invariant World() == w.(db := ExpireAll(w.db, selected[..n], at))
      {
        assert selected[n] !in selected[..n];
        ExpireAllExact(w, selected[..n], at);
        assert Lapsed(w.db, selected[n], at.begin);
        assert selected[..n + 1] == selected[..n] + [selected[n]];
        ExpireOneMore(w.db, selected[..n], selected[n], at);
        ExpireRow(selected[n], at);
        n := n + 1;
      }
      assert selected[..n] == selected;
      ExpireAllExact(w, selected, at);
    }

    // ---- rust/src/outbox.rs --------------------------------------------------------------

    /** One publication: the broker's `outcome` decides what is stored and whether the row is marked. */
    method PublishRow(id: Uuid, outcome: Publication, at: Stamp)
      requires Inv(World()) && Enabled(World(), Dispatching(id, outcome, at))
      modifies this`clock, this`jobs, this`quotas, this`stream
      ensures World() == Apply(old(World()), Dispatching(id, outcome, at))
      ensures clock == if outcome.StoredMarked? then at.write else old(clock)
      ensures Inv(World())
    {
      hide Inv;
      StepKeepsInv(World(), Dispatching(id, outcome, at));
      if outcome.NotStored? {
        return;
      }
      if id !in stream {
        stream := stream[id := at.read];
      }
      if outcome.StoredMarked? {
        Persist(id, jobs[id].(outbox := jobs[id].outbox.(sentAt := Some(at.begin))), at);
      }
    }

    /** The locking query: the first publishable row in creation order that is not locked. */
    method FreeRow(taken: set<Uuid>, now: Time) returns (r: Option<Uuid>)
      ensures r.Some? ==> IsNext(World().db, taken, now, r.value)
      ensures r.None? ==> NoneFree(World().db, taken, now)
    {
      hide Dispatchable;
      var db := Db(clock, agents, endpoints, events, jobs, quotas);
      forall x | Free(db, taken, x, now) ensures exists y :: y in jobs && IsNext(db, taken, now, y) {
        NextExists(db, taken, now, x);
      }
      if id :| id in jobs && IsNext(db, taken, now, id) {
        return Some(id);
      }
      return None;
    }

    /**
     The broker's answer to each publication and the clock readings of each transaction are given
     in `script`; `taken` are rows other dispatchers hold locked. Every iteration is its own
     transaction, so earlier progress survives a failure and a lost answer leaves the row unsent.
     */
    method DispatchOutbox(batch: nat, taken: set<Uuid>, script: seq<(Publication, Stamp)>)
      returns (r: Result<nat, ()>, ghost trace: seq<Step>)
      requires Inv(World()) && |script| >= (if batch < 1000 then batch else 1000)
      requires Chained(clock, script)
      modifies this`clock, this`jobs, this`quotas, this`stream
      ensures Allowed(old(World()), trace) && World() == After(old(World()), trace)
      ensures forall i | 0 <= i < |trace| :: trace[i].Dispatching? && trace[i].id !in taken
      ensures forall i, j | 0 <= i < j < |trace| :: Sooner(Created(old(World()).db), trace[i].id, trace[j].id)
      ensures r.Ok? ==> r.value == |trace| <= batch
      ensures r.Ok? ==> forall i | 0 <= i < |trace| :: trace[i].outcome.StoredMarked?
      ensures r.Ok? && |trace| < batch && |trace| < 1000 ==>
        NoneFree(World().db, taken, script[|trace|].1.begin)
      ensures Inv(World())
    {
      hide Inv, Apply, Dispatchable, NoneFree, Sooner, Created;
      ghost var w := World();
      ghost var created := Created(w.db);
      trace := [];
      var sent := 0;
      while sent < batch && sent < 1000
        invariant 0 <= sent <= batch && sent <= 1000 && sent == |trace|
        invariant clock <= if sent == 0 then w.db.clock else script[sent - 1].1.write
        invariant Allowed(w, trace) && World() == After(w, trace) && Inv(World()) && Created(World().db) == created
        invariant forall i | 0 <= i < |trace| ::
          trace[i].Dispatching? && trace[i].id !in taken && trace[i].outcome.StoredMarked?
        invariant forall i, j | 0 <= i < j < |trace| :: Sooner(created, trace[i].id, trace[j].id)
        invariant sent < |script| ==>
          forall i, x | 0 <= i < |trace| && Free(World().db, taken, x, script[sent].1.begin) ::
            Sooner(created, trace[i].id, x)
      {
        var (outcome, at) := script[sent];
        var row := FreeRow(taken, at.begin);
        if row.None? {
          return Ok(sent), trace;
        }
        var id := row.value;
        assert Chained(w.db.clock, script) && script[sent].1 == at;
        assert clock <= at.read;
        AfterSnoc(w, trace, Dispatching(id, outcome, at));
        ghost var before := World();
        PublishRow(id, outcome, at);
        trace := trace + [Dispatching(id, outcome, at)];
        if !outcome.StoredMarked? {
          return Err(()), trace;
        }
        sent := sent + 1;
        MarkShrinks(before, taken, id, at, if sent < |script| then script[sent].1.begin else at.begin);
      }
      return Ok(sent), trace;
    }

    // ---- rust/src/responses.rs -------------------------------------------------------------

    method BeginWaiting(id: Uuid, at: Stamp)
      requires Inv(World()) && Enabled(World(), BeginningWait(id, at))
      modifies this`clock, this`jobs, this`quotas
      ensures World() == Apply(old(World()), BeginningWait(id, at))
      ensures Inv(World())
    {
      hide Inv;
      StepKeepsInv(World(), BeginningWait(id, at));
      if id in jobs {
        var job := jobs[id];
        if job.response.state == Open && job.response.deadline.None? && job.response.policy.Sync? {
          var deadline := at.write + job.response.policy.timeoutSeconds * SECOND;
          Persist(id, job.(response := job.response.(deadline := Some(deadline))), at);
        }
      }
    }

    method ExpireWaiting(id: Uuid, at: Stamp)
      requires Inv(World()) && Enabled(World(), ExpiringWait(id, at))
      modifies this`clock, this`jobs, this`quotas
      ensures World() == Apply(old(World()), ExpiringWait(id, at))
      ensures Inv(World())
    {
      hide Inv;
      StepKeepsInv(World(), ExpiringWait(id, at));
      if id !in jobs {
        return;
      }
      var job := jobs[id];
      if job.response.state != Open || job.response.deadline.None? || job.response.deadline.value > at.write {
        return;
      }
      var timedOut := job.(response := job.response.(state := TimedOut));
      if job.response.policy.Sync? && job.response.policy.expirePending && job.row.state == Pending
          && job.row.count == 0
         && job.row.terminalAt.None?
      {
        var cancelled := UpdateDelivery(timedOut, job.row.(state := State.Cancelled), at);
        if cancelled.Some? {
          Persist(id, cancelled.value, at);
        }
      } else {
        Persist(id, timedOut, at);
      }
    }

    method StageResponse(agent: Principal, lease: DeliveryLease, bytes: Bytes, at: Stamp)
      returns (r: Result<(), DeliveryError>)
      requires Inv(World()) && Enabled(World(), Staging(agent, lease, bytes, at))
      modifies this`clock, this`jobs, this`quotas
      ensures World() == Apply(old(World()), Staging(agent, lease, bytes, at))
      ensures r == Stage(old(World()).db, agent, lease, bytes, at).result
      ensures Inv(World())
    {
      hide Inv;
      StepKeepsInv(World(), Staging(agent, lease, bytes, at));
      if !agent.Agent? || lease.delivery !in jobs || jobs[lease.delivery].row.event !in events {
        return Err(Forbidden);
      }
      var job := jobs[lease.delivery];
      if !Authorized(agent, job.row.workspace, Deliver(job.row.app)) {
        return Err(Forbidden);
      }
      var live := LeaseMatches(job.row, events[job.row.event], lease, agent.agent, at.read);
      var staged := lease.token in job.candidates;
      if !live || (staged && job.candidates[lease.token] != bytes) {
        return Err(Conflict);
      }
      if !staged {
        Persist(lease.delivery, job.(candidates := job.candidates[lease.token := bytes]), at);
      }
      return Ok(());
    }

    /** Stage, then settle: two transactions, between which a crash leaves the same candidate to retry with. */
    method CompleteResponse(agent: Principal, lease: DeliveryLease, bytes: Bytes, at: Stamp, later: Stamp)
      returns (r: Result<(), DeliveryError>, ghost trace: seq<Step>)
      requires Inv(World()) && ValidStamp(clock, at) && ValidStamp(at.write, later)
      modifies this
      ensures Allowed(old(World()), trace) && World() == After(old(World()), trace)
      ensures trace == [Staging(agent, lease, bytes, at)]
              || trace == [Staging(agent, lease, bytes, at), Settling(agent, lease, true, later)]
      ensures r.Ok? ==> lease.delivery in jobs && jobs[lease.delivery].row.state == Succeeded
      ensures r.Ok? ==> jobs[lease.delivery].response.result == Some(bytes)
      ensures var staged := Stage(old(World()).db, agent, lease, bytes, at);
        if staged.result.Err? then |trace| == 1 && r == staged.result
        else |trace| == 2 && r == Settle(staged.db, agent, lease, true, later).result
      ensures Inv(World())
    {
      hide Inv, Stage, Settle, Enabled, After, Allowed;
      ghost var w := World();
      ghost var stage, settle := Staging(agent, lease, bytes, at), Settling(agent, lease, true, later);
      CallsEnabled(w, agent, lease, bytes, at, later);
      r := StageResponse(agent, lease, bytes, at);
      trace := [stage];
      OneStep(w, stage);
      if r.Err? {
        return;
      }
      StagedCandidate(w, agent, lease, bytes, at);
      ghost var mid := World();
      r := SettleDelivery(agent, lease, true, later);
      TwoSteps(w, stage, settle);
      trace := [stage, settle];
      if r.Ok? {
        SettledAnswer(mid, agent, lease, later);
      }
    }
  }

  lemma CallsEnabled(w: World, agent: Principal, lease: DeliveryLease, bytes: Bytes, at: Stamp, later: Stamp)
    requires ValidStamp(w.db.clock, at) && ValidStamp(at.write, later)
    ensures Enabled(w, Staging(agent, lease, bytes, at))
    ensures var mid := Apply(w, Staging(agent, lease, bytes, at));
      ValidStamp(mid.db.clock, later) && Enabled(mid, Settling(agent, lease, true, later))
  {
  }

  lemma OneStep(w: World, s: Step)
    requires Enabled(w, s)
    ensures Allowed(w, [s]) && After(w, [s]) == Apply(w, s)
  {
    hide Enabled, Apply;
    AfterSnoc(w, [], s);
    assert [] + [s] == [s];
  }

  lemma TwoSteps(w: World, s: Step, t: Step)
    requires Enabled(w, s) && Enabled(Apply(w, s), t)
    ensures Allowed(w, [s, t]) && After(w, [s, t]) == Apply(Apply(w, s), t)
  {
    hide Enabled, Apply;
    OneStep(w, s);
    AfterSnoc(w, [s], t);
    assert [s] + [t] == [s, t];
  }

  /** A granted stage has stored the given bytes under the lease. */
  lemma StagedCandidate(w: World, agent: Principal, lease: DeliveryLease, bytes: Bytes, at: Stamp)
    requires Stage(w.db, agent, lease, bytes, at).result.Ok?
    ensures var jobs := Apply(w, Staging(agent, lease, bytes, at)).db.jobs;
      && lease.delivery in jobs && lease.token in jobs[lease.delivery].candidates
      && jobs[lease.delivery].candidates[lease.token] == bytes
  {
    hide LeaseMatches, Authorized;
  }

  /** Settled under a staged lease, the delivery succeeded and answers with that candidate. */
  lemma SettledAnswer(w: World, agent: Principal, lease: DeliveryLease, at: Stamp)
    requires Inv(w) && ValidStamp(w.db.clock, at) && Settle(w.db, agent, lease, true, at).result.Ok?
    requires lease.delivery in w.db.jobs && lease.token in w.db.jobs[lease.delivery].candidates
    ensures var jobs := Apply(w, Settling(agent, lease, true, at)).db.jobs;
      && lease.delivery in jobs && jobs[lease.delivery].row.state == Succeeded
      && jobs[lease.delivery].response.result == Some(w.db.jobs[lease.delivery].candidates[lease.token])
  {
    hide Inv, Settle;
    WinnerAnswers(w, agent, lease, at);
  }

  /** Success under a staged lease makes that candidate the response, unless the delivery was already answered. */
  lemma WinnerAnswers(w: World, agent: Principal, lease: DeliveryLease, at: Stamp)
    requires Inv(w) && ValidStamp(w.db.clock, at) && Settle(w.db, agent, lease, true, at).result.Ok?
    requires lease.token in w.db.jobs[lease.delivery].candidates
    ensures var jobs := Settle(w.db, agent, lease, true, at).db.jobs;
      && lease.delivery in jobs && jobs[lease.delivery].row.state == Succeeded
      && jobs[lease.delivery].response.result == Some(w.db.jobs[lease.delivery].candidates[lease.token])
  {
    hide DbOk;
    RowFacts(w.db, lease.delivery);
  }

  lemma StampOf(w: World, ids: seq<Uuid>, at: Stamp)
    requires Enabled(w, Expiring(ids, at))
    ensures ValidStamp(w.db.clock, at) && at.read == at.write
  {
  }

  lemma NoneExpired(db: Db, at: Stamp)
    ensures ExpireAll(db, [], at) == db
  {
  }

  lemma ExpireOneMore(db: Db, ids: seq<Uuid>, id: Uuid, at: Stamp)
    ensures ExpireAll(db, ids + [id], at) == ExpireOne(ExpireAll(db, ids, at), id, at)
  {
    assert (ids + [id])[..|ids|] == ids;
  }

  /** The sweep expires exactly the lapsed deliveries it was given and touches nothing else. */
  lemma {:induction false} ExpireAllExact(w: World, ids: seq<Uuid>, at: Stamp)
    requires Inv(w) && ValidStamp(w.db.clock, at) && at.read == at.write
    requires forall i | 0 <= i < |ids| :: Lapsed(w.db, ids[i], at.begin)
    requires forall i, j | 0 <= i < j < |ids| :: ids[i] != ids[j]
    ensures var after := ExpireAll(w.db, ids, at);
      && after.events == w.db.events && after.jobs.Keys == w.db.jobs.Keys
      && forall id | id in after.jobs ::
           if id in ids then after.jobs[id].row.state == Expired else after.jobs[id] == w.db.jobs[id]
  {
    hide Inv, ExpireOne;
    if ids != [] {
      var init, id := ids[..|ids| - 1], ids[|ids| - 1];
      ExpireAllExact(w, init, at);
      ExpireAllInv(w, init, at);
      var before := ExpireAll(w.db, init, at);
      assert id !in init && Lapsed(before, id, at.begin);
      ExpireOneExact(w.(db := before), id, at);
      assert ids == init + [id];
    }
  }

  lemma ExpireOneExact(w: World, id: Uuid, at: Stamp)
    requires Inv(w) && w.db.clock <= at.write && at.begin <= at.read == at.write && Lapsed(w.db, id, at.begin)
    ensures var after := ExpireOne(w.db, id, at);
      && after.events == w.db.events && after.jobs.Keys == w.db.jobs.Keys
      && after.jobs[id].row.state == Expired
      && forall x | x in w.db.jobs && x != id :: after.jobs[x] == w.db.jobs[x]
  {
    hide DbOk;
    RowFacts(w.db, id);
    ExpireOneWrites(w.db, id, at);
  }
}
