/**
 The invariant of the whole database and its preservation by the three ways a transaction
 can change the tables: writing one delivery, inserting one delivery, or only reading.
 */
module Invariant {
  import opened Protocol
  import opened Tables
  import opened Transactions
  import opened Ledger
  import opened Sets

  /** Every delivery belongs to a stored event and satisfies the per-delivery invariant. */
  ghost predicate JobsOk(db: Db) {
    forall id | id in db.jobs ::
      && db.jobs[id].row.event in db.events
      && JobOk(db.jobs[id], db.events[db.jobs[id].row.event], db.clock)
  }

  predicate InScope(row: Delivery, event: Event) {
    && row.workspace == event.workspace && row.app == event.app && row.target == event.app && row.size == event.size
  }

  ghost predicate Linked(db: Db) {
    forall id | id in db.jobs ::
      db.jobs[id].row.event in db.events ==> InScope(db.jobs[id].row, db.events[db.jobs[id].row.event])
  }

  /** An idempotency key names at most one event, and retention is counted from creation. */
  ghost predicate EventsOk(db: Db) {
    && (forall e | e in db.events ::
          && db.events[e].expiresAt == db.events[e].createdAt + RETENTION
          && db.events[e].createdAt <= db.clock
          && db.events[e].endpoint in db.endpoints)
    && (forall e, f | e in db.events && f in db.events ::
          Keyed(db.events[e], db.events[f].workspace, db.events[f].app, db.events[f].key) ==> e == f)
  }

  predicate Sibling(db: Db, a: Uuid, b: Uuid)
    requires a in db.jobs && b in db.jobs
  {
    db.jobs[a].row.event == db.jobs[b].row.event
  }

  /** The delivery of `event` with this generation number. */
  predicate HasGeneration(db: Db, event: Uuid, g: int, id: Uuid) {
    id in db.jobs && db.jobs[id].row.event == event && db.jobs[id].row.generation == g
  }

  ghost predicate Generated(db: Db, event: Uuid, g: int) {
    exists id :: HasGeneration(db, event, g, id)
  }

  /** Generations of an event are numbered from 1 without gaps. */
  ghost predicate Gapless(db: Db) {
    && (forall e | e in db.events :: Generated(db, e, 1))
    && (forall a | a in db.jobs :: db.jobs[a].row.generation >= 1)
    && (forall a | a in db.jobs && db.jobs[a].row.generation > 1 ::
          Generated(db, db.jobs[a].row.event, db.jobs[a].row.generation - 1))
  }

  /** No generation repeats, and only the newest can be open. */
  ghost predicate Unrepeated(db: Db) {
    forall a, b | a in db.jobs && b in db.jobs && Sibling(db, a, b) ::
      && (db.jobs[a].row.generation == db.jobs[b].row.generation ==> a == b)
      && (db.jobs[a].row.terminalAt.None? ==> db.jobs[b].row.generation <= db.jobs[a].row.generation)
  }

  ghost predicate GenerationsOk(db: Db) {
    Gapless(db) && Unrepeated(db)
  }

  function Outstanding(db: Db, workspace: Uuid): set<Uuid> {
    set id | id in db.jobs && db.jobs[id].row.workspace == workspace && db.jobs[id].row.terminalAt.None?
  }

  function Sizes(db: Db): map<Uuid, int> {
    map id | id in db.jobs :: db.jobs[id].row.size
  }

  function QuotaOf(db: Db, workspace: Uuid): Quota {
    if workspace in db.quotas then db.quotas[workspace] else Quota(0, 0)
  }

  /** The counters are exactly the number and total size of the open deliveries, and within the caps. */
  ghost predicate QuotaExact(db: Db, w: Uuid) {
    && QuotaOf(db, w).deliveries == |Outstanding(db, w)|
    && QuotaOf(db, w).bytes == Sum(Sizes(db), Outstanding(db, w))
    && QuotaOf(db, w).deliveries <= MAX_OUTSTANDING_DELIVERIES
    && QuotaOf(db, w).bytes <= MAX_OUTSTANDING_BYTES
  }

  ghost predicate QuotasOk(db: Db) {
    forall w: Uuid :: QuotaExact(db, w)
  }

  /** Work in flight is held by a registered agent of the delivery's own workspace and application. */
  ghost predicate AgentsScoped(db: Db) {
    forall id | id in db.jobs && db.jobs[id].row.state == InFlight ::
      && db.jobs[id].row.agent.Some? && db.jobs[id].row.agent.value in db.agents
      && db.agents[db.jobs[id].row.agent.value] == (db.jobs[id].row.workspace, db.jobs[id].row.target)
  }

  ghost predicate AgentsBounded(db: Db) {
    forall w, app, agent :: |LiveLeases(db, w, app, agent, db.clock)| <= MAX_IN_FLIGHT
  }

  ghost predicate DbOk(db: Db) {
    JobsOk(db) && Linked(db) && EventsOk(db) && GenerationsOk(db) && QuotasOk(db) && AgentsScoped(db)
        && AgentsBounded(db)
  }

  // ---- writing one delivery ---------------------------------------------------

  /** Identity is immutable and a terminal row never changes. */
  predicate Evolves(row: Delivery, next: Delivery) {
    && next.SameIdentity(row) && next.target == row.target
    && (row.terminalAt.Some? ==> next == row)
  }

  /** The agent of a row left in flight is registered for it. */
  predicate RowScoped(db: Db, row: Delivery) {
    row.state == InFlight ==>
      row.agent.Some? && row.agent.value in db.agents && db.agents[row.agent.value] == (row.workspace, row.target)
  }

  /** Either the lease was already live before the write, or the claiming agent had room. */
  predicate Admissible(db: Db, before: Delivery, after: Delivery, at: Stamp) {
    after.state == InFlight && after.LeaseLive(at.write) ==>
      || (before.state == InFlight && before.LeaseLive(db.clock) && before.agent == after.agent)
      || (after.agent.Some?
          && |LiveLeases(db, after.workspace, after.target, after.agent.value, at.read)| < MAX_IN_FLIGHT)
  }

  ghost predicate GoodWrite(db: Db, id: Uuid, job: Job, at: Stamp) {
    && id in db.jobs && ValidStamp(db.clock, at)
    && Evolves(db.jobs[id].row, job.row)
    && (db.jobs[id].row.event in db.events ==> JobOk(job, db.events[db.jobs[id].row.event], at.write))
    && RowScoped(db, job.row)
    && Admissible(db, db.jobs[id].row, job.row, at)
  }

  lemma WriteKeepsJobs(db: Db, id: Uuid, job: Job, at: Stamp)
    requires GoodWrite(db, id, job, at) && JobsOk(db) && Linked(db)
    ensures JobsOk(Commit(db, id, job, at)) && Linked(Commit(db, id, job, at))
  {
    var after := Commit(db, id, job, at);
    forall x | x in after.jobs
      ensures after.jobs[x].row.event in after.events
      ensures JobOk(after.jobs[x], after.events[after.jobs[x].row.event], after.clock)
    {
      if x != id {
        Later(db.jobs[x], db.events[db.jobs[x].row.event], db.clock, at.write);
      }
    }
  }

  lemma WriteKeepsGapless(db: Db, id: Uuid, job: Job, at: Stamp)
    requires id in db.jobs && Evolves(db.jobs[id].row, job.row) && Gapless(db)
    ensures Gapless(Commit(db, id, job, at))
  {
    hide Released;
    var after := Commit(db, id, job, at);
    forall e, g | Generated(db, e, g) ensures Generated(after, e, g) {
      var x :| HasGeneration(db, e, g, x);
      assert HasGeneration(after, e, g, x);
    }
    hide Generated;
    forall a | a in after.jobs && after.jobs[a].row.generation > 1
      ensures Generated(after, after.jobs[a].row.event, after.jobs[a].row.generation - 1)
    {
      assert Generated(db, db.jobs[a].row.event, db.jobs[a].row.generation - 1);
    }
  }

  lemma WriteKeepsGenerations(db: Db, id: Uuid, job: Job, at: Stamp)
    requires GoodWrite(db, id, job, at) && GenerationsOk(db)
    ensures GenerationsOk(Commit(db, id, job, at))
  {
    hide JobOk, RowScoped, Admissible, Released;
    WriteKeepsGapless(db, id, job, at);
    hide Gapless;
    var after := Commit(db, id, job, at);
    forall a, b | a in after.jobs && b in after.jobs && Sibling(after, a, b)
      ensures after.jobs[a].row.generation == after.jobs[b].row.generation ==> a == b
      ensures after.jobs[a].row.terminalAt.None? ==> after.jobs[b].row.generation <= after.jobs[a].row.generation
    {
      assert Sibling(db, a, b);
    }
  }

  /** A write leaves the set of open deliveries as it was, or removes the delivery it finished. */
  lemma WriteOutstanding(db: Db, id: Uuid, job: Job, at: Stamp, w: Uuid)
    requires id in db.jobs && Evolves(db.jobs[id].row, job.row)
    ensures Sizes(Commit(db, id, job, at)) == Sizes(db)
    ensures Outstanding(Commit(db, id, job, at), w) ==
            if job.row.terminalAt.Some? then Outstanding(db, w) - {id} else Outstanding(db, w)
  {
  }

  lemma ReleaseEffect(db: Db, id: Uuid, job: Job, at: Stamp, w: Uuid)
    requires id in db.jobs && Evolves(db.jobs[id].row, job.row) && QuotaExact(db, w)
    ensures QuotaOf(Commit(db, id, job, at), w) ==
            if id in Outstanding(db, w) && job.row.terminalAt.Some?
            then Quota(QuotaOf(db, w).deliveries - 1, QuotaOf(db, w).bytes - db.jobs[id].row.size) else QuotaOf(db, w)
  {
    if id in Outstanding(db, w) {
      assert |Outstanding(db, w)| > 0;
      assert w in db.quotas;
    }
  }

  lemma WriteKeepsQuota(db: Db, id: Uuid, job: Job, at: Stamp, w: Uuid)
    requires id in db.jobs && Evolves(db.jobs[id].row, job.row) && QuotaExact(db, w)
    ensures QuotaExact(Commit(db, id, job, at), w)
  {
    WriteOutstanding(db, id, job, at, w);
    ReleaseEffect(db, id, job, at, w);
    var open := Outstanding(db, w);
    if job.row.terminalAt.Some? {
      if id in open { SumSplit(Sizes(db), open, id); } else { assert open - {id} == open; }
    }
  }

  lemma WriteKeepsBound(db: Db, id: Uuid, job: Job, at: Stamp, w: Uuid, app: Uuid, agent: Uuid)
    requires GoodWrite(db, id, job, at) && AgentsBounded(db)
    ensures |LiveLeases(Commit(db, id, job, at), w, app, agent, at.write)| <= MAX_IN_FLIGHT
  {
    var after := LiveLeases(Commit(db, id, job, at), w, app, agent, at.write);
    var now := LiveLeases(db, w, app, agent, db.clock);
    var row := db.jobs[id].row;
    if id in after && !(row.state == InFlight && row.LeaseLive(db.clock) && row.agent == job.row.agent) {
      var read := LiveLeases(db, w, app, agent, at.read);
      assert after <= read + {id};
      SubsetCard(after, read + {id});
    } else {
      assert after <= now;
      SubsetCard(after, now);
    }
  }

  lemma WriteKeepsScopes(db: Db, id: Uuid, job: Job, at: Stamp)
    requires GoodWrite(db, id, job, at) && EventsOk(db) && AgentsScoped(db)
    ensures EventsOk(Commit(db, id, job, at)) && AgentsScoped(Commit(db, id, job, at))
  {
    hide JobOk, Admissible;
  }

  lemma WriteKeeps(db: Db, id: Uuid, job: Job, at: Stamp)
    requires GoodWrite(db, id, job, at) && DbOk(db)
    ensures DbOk(Commit(db, id, job, at))
  {
    hide JobsOk, Linked, EventsOk, GenerationsOk, QuotaExact, AgentsScoped, LiveLeases, JobOk;
    WriteKeepsScopes(db, id, job, at);
    WriteKeepsJobs(db, id, job, at);
    WriteKeepsGenerations(db, id, job, at);
    forall w: Uuid ensures QuotaExact(Commit(db, id, job, at), w) {
      assert QuotaExact(db, w);
      WriteKeepsQuota(db, id, job, at, w);
    }
    forall w, app, agent ensures |LiveLeases(Commit(db, id, job, at), w, app, agent, at.write)| <= MAX_IN_FLIGHT {
      WriteKeepsBound(db, id, job, at, w, app, agent);
    }
  }

  // ---- only reading -------------------------------------------------------------

  lemma TickKeepsJobs(db: Db, now: Time)
    requires JobsOk(db) && Linked(db) && db.clock <= now
    ensures JobsOk(db.(clock := now)) && Linked(db.(clock := now))
  {
    var after := db.(clock := now);
    forall x | x in after.jobs
      ensures after.jobs[x].row.event in after.events
      ensures JobOk(after.jobs[x], after.events[after.jobs[x].row.event], after.clock)
    {
      Later(db.jobs[x], db.events[db.jobs[x].row.event], db.clock, now);
    }
  }

  lemma TickKeepsGenerations(db: Db, now: Time)
    requires GenerationsOk(db)
    ensures GenerationsOk(db.(clock := now))
  {
    var after := db.(clock := now);
    assert forall e, g, x :: HasGeneration(db, e, g, x) ==> HasGeneration(after, e, g, x);
    forall a, b | a in after.jobs && b in after.jobs && Sibling(after, a, b)
      ensures after.jobs[a].row.generation == after.jobs[b].row.generation ==> a == b
      ensures after.jobs[a].row.terminalAt.None? ==> after.jobs[b].row.generation <= after.jobs[a].row.generation
    {
      assert Sibling(db, a, b);
    }
  }

  lemma TickKeepsQuotas(db: Db, now: Time)
    requires QuotasOk(db)
    ensures QuotasOk(db.(clock := now))
  {
    var after := db.(clock := now);
    assert Sizes(after) == Sizes(db);
    forall w: Uuid ensures QuotaExact(after, w) {
      assert QuotaExact(db, w) && Outstanding(after, w) == Outstanding(db, w);
    }
  }

  lemma TickKeepsBound(db: Db, now: Time)
    requires AgentsBounded(db) && db.clock <= now
    ensures AgentsBounded(db.(clock := now))
  {
    forall w, app, agent
      ensures |LiveLeases(db.(clock := now), w, app, agent, now)| <= MAX_IN_FLIGHT
    {
      SubsetCard(LiveLeases(db.(clock := now), w, app, agent, now), LiveLeases(db, w, app, agent, db.clock));
    }
  }

  lemma TickKeeps(db: Db, now: Time)
    requires DbOk(db) && db.clock <= now
    ensures DbOk(db.(clock := now))
  {
    TickKeepsJobs(db, now);
    TickKeepsGenerations(db, now);
    TickKeepsQuotas(db, now);
    TickKeepsBound(db, now);
  }

  // ---- inserting one delivery -----------------------------------------------------

  /** Generation 1 of a new event, or the successor of the last generation of an event with no open delivery. */
  ghost predicate Successor(db: Db, event: Uuid, g: int) {
    if event in db.events then !Active(db, event) && IsMax(Generations(db, event), g - 1) else g == 1
  }

  ghost predicate GoodInsert(db: Db, event: Uuid, e: Event, id: Uuid, job: Job, at: Stamp) {
    && ValidStamp(db.clock, at) && id !in db.jobs
    && job.row.event == event && InScope(job.row, e) && job.row.terminalAt.None? && job.row.state == Pending
    && JobOk(job, e, at.write)
    && e.expiresAt == e.createdAt + RETENTION && e.createdAt <= at.write && e.endpoint in db.endpoints
    && Successor(db, event, job.row.generation)
    && (event in db.events ==> e == db.events[event])
    && (event !in db.events ==> forall f | f in db.events :: !Keyed(db.events[f], e.workspace, e.app, e.key))
  }

  lemma InsertKeepsJobs(db: Db, event: Uuid, e: Event, id: Uuid, job: Job, quotas: map<Uuid, Quota>, at: Stamp)
    requires GoodInsert(db, event, e, id, job, at) && JobsOk(db) && Linked(db) && EventsOk(db)
    ensures var after := Inserted(db, event, e, id, job, quotas, at);
            JobsOk(after) && Linked(after) && EventsOk(after)
  {
    hide JobOk;
    var after := Inserted(db, event, e, id, job, quotas, at);
    forall x | x in after.jobs
      ensures after.jobs[x].row.event in after.events
      ensures JobOk(after.jobs[x], after.events[after.jobs[x].row.event], after.clock)
      ensures InScope(after.jobs[x].row, after.events[after.jobs[x].row.event])
    {
      if x != id {
        Later(db.jobs[x], db.events[db.jobs[x].row.event], db.clock, at.write);
      }
    }
  }

  /** Adding a row never hides a generation that was there. */
  lemma InsertKeepsGenerated(db: Db, event: Uuid, e: Event, id: Uuid, job: Job, quotas: map<Uuid, Quota>, at: Stamp,
                             f: Uuid, g: int)
    requires id !in db.jobs && Generated(db, f, g)
    ensures Generated(Inserted(db, event, e, id, job, quotas, at), f, g)
  {
    var x :| HasGeneration(db, f, g, x);
    assert HasGeneration(Inserted(db, event, e, id, job, quotas, at), f, g, x);
  }

  lemma SuccessorFollows(db: Db, event: Uuid, g: int)
    requires event in db.events && Successor(db, event, g)
    ensures Generated(db, event, g - 1)
    ensures forall x | x in db.jobs && db.jobs[x].row.event == event ::
              db.jobs[x].row.generation < g && db.jobs[x].row.terminalAt.Some?
  {
    assert g - 1 in Generations(db, event);
    var b :| b in db.jobs && db.jobs[b].row.event == event && db.jobs[b].row.generation == g - 1;
    assert HasGeneration(db, event, g - 1, b);
    forall x | x in db.jobs && db.jobs[x].row.event == event
      ensures db.jobs[x].row.generation < g
    {
      assert db.jobs[x].row.generation in Generations(db, event);
    }
  }

  lemma InsertKeepsGapless(db: Db, event: Uuid, e: Event, id: Uuid, job: Job, quotas: map<Uuid, Quota>, at: Stamp)
    requires id !in db.jobs && job.row.event == event && Successor(db, event, job.row.generation)
    requires Gapless(db)
    ensures Gapless(Inserted(db, event, e, id, job, quotas, at))
  {
    var after := Inserted(db, event, e, id, job, quotas, at);
    var g := job.row.generation;
    assert HasGeneration(after, event, g, id);
    if event in db.events {
      SuccessorFollows(db, event, g);
      InsertKeepsGenerated(db, event, e, id, job, quotas, at, event, g - 1);
      var b :| HasGeneration(db, event, g - 1, b);
    }
    forall f | f in after.events ensures Generated(after, f, 1) {
      if f in db.events {
        InsertKeepsGenerated(db, event, e, id, job, quotas, at, f, 1);
      }
    }
    forall a | a in after.jobs && after.jobs[a].row.generation > 1
      ensures Generated(after, after.jobs[a].row.event, after.jobs[a].row.generation - 1)
    {
      if a != id {
        InsertKeepsGenerated(db, event, e, id, job, quotas, at, db.jobs[a].row.event, db.jobs[a].row.generation - 1);
      }
    }
  }

  lemma InsertKeepsUnrepeated(db: Db, event: Uuid, e: Event, id: Uuid, job: Job, quotas: map<Uuid, Quota>, at: Stamp)
    requires id !in db.jobs && job.row.event == event && Successor(db, event, job.row.generation)
    requires Unrepeated(db) && (forall x | x in db.jobs :: db.jobs[x].row.event in db.events)
    ensures Unrepeated(Inserted(db, event, e, id, job, quotas, at))
  {
    var after := Inserted(db, event, e, id, job, quotas, at);
    if event in db.events {
      SuccessorFollows(db, event, job.row.generation);
    }
    forall a, b | a in after.jobs && b in after.jobs && Sibling(after, a, b)
      ensures after.jobs[a].row.generation == after.jobs[b].row.generation ==> a == b
      ensures after.jobs[a].row.terminalAt.None? ==> after.jobs[b].row.generation <= after.jobs[a].row.generation
    {
      if a != id && b != id {
        assert Sibling(db, a, b);
      }
    }
  }

  /** An insertion adds exactly the new delivery to its workspace's open set. */
  lemma InsertOutstanding(db: Db, event: Uuid, e: Event, id: Uuid, job: Job, quotas: map<Uuid, Quota>, at: Stamp,
                          w: Uuid)
    requires id !in db.jobs && job.row.terminalAt.None?
    ensures var after := Inserted(db, event, e, id, job, quotas, at);
      && Sizes(after) == Sizes(db)[id := job.row.size]
      && Outstanding(after, w) == (if job.row.workspace == w then Outstanding(db, w) + {id} else Outstanding(db, w))
  {
  }

  lemma ChargeEffect(before: Db, after: Db, workspace: Uuid, size: nat, w: Uuid)
    requires Charged(before.quotas, workspace, size) == Some(after.quotas)
    ensures QuotaOf(after, w)
         == if w == workspace then Quota(QuotaOf(before, w).deliveries + 1, QuotaOf(before, w).bytes + size)
                                 else QuotaOf(before, w)
    ensures w == workspace ==>
      QuotaOf(after, w).deliveries <= MAX_OUTSTANDING_DELIVERIES && QuotaOf(after, w).bytes <= MAX_OUTSTANDING_BYTES
  {
  }

  lemma SumAdds(sizes: map<Uuid, int>, open: set<Uuid>, id: Uuid, size: int)
    requires open <= sizes.Keys && id !in open
    ensures Sum(sizes[id := size], open) == Sum(sizes, open)
    ensures Sum(sizes[id := size], open + {id}) == Sum(sizes, open) + size
  {
    SumAgrees(sizes, sizes[id := size], open);
    SumSplit(sizes[id := size], open + {id}, id);
    assert open + {id} - {id} == open;
  }

  lemma InsertKeepsQuota(db: Db, event: Uuid, e: Event, id: Uuid, job: Job, quotas: map<Uuid, Quota>, at: Stamp,
                         w: Uuid)
    requires id !in db.jobs && job.row.terminalAt.None? && InScope(job.row, e)
    requires QuotaExact(db, w) && Charged(db.quotas, e.workspace, e.size) == Some(quotas)
    ensures QuotaExact(Inserted(db, event, e, id, job, quotas, at), w)
  {
    hide Charged, QuotaOf, Sum;
    InsertOutstanding(db, event, e, id, job, quotas, at, w);
    ChargeEffect(db, Inserted(db, event, e, id, job, quotas, at), e.workspace, e.size, w);
    SumAdds(Sizes(db), Outstanding(db, w), id, job.row.size);
  }

  lemma InsertKeepsBound(db: Db, event: Uuid, e: Event, id: Uuid, job: Job, quotas: map<Uuid, Quota>, at: Stamp)
    requires GoodInsert(db, event, e, id, job, at) && AgentsBounded(db) && AgentsScoped(db)
    ensures var after := Inserted(db, event, e, id, job, quotas, at); AgentsBounded(after) && AgentsScoped(after)
  {
    var after := Inserted(db, event, e, id, job, quotas, at);
    forall w, app, agent
      ensures |LiveLeases(after, w, app, agent, at.write)| <= MAX_IN_FLIGHT
    {
      SubsetCard(LiveLeases(after, w, app, agent, at.write), LiveLeases(db, w, app, agent, db.clock));
    }
  }

  lemma InsertKeeps(db: Db, event: Uuid, e: Event, id: Uuid, job: Job, quotas: map<Uuid, Quota>, at: Stamp)
    requires GoodInsert(db, event, e, id, job, at) && DbOk(db)
    requires Charged(db.quotas, e.workspace, e.size) == Some(quotas)
    ensures DbOk(Inserted(db, event, e, id, job, quotas, at))
  {
    InsertKeepsJobs(db, event, e, id, job, quotas, at);
    InsertKeepsGapless(db, event, e, id, job, quotas, at);
    InsertKeepsUnrepeated(db, event, e, id, job, quotas, at);
    forall w: Uuid ensures QuotaExact(Inserted(db, event, e, id, job, quotas, at), w) {
      assert QuotaExact(db, w);
      InsertKeepsQuota(db, event, e, id, job, quotas, at, w);
    }
    InsertKeepsBound(db, event, e, id, job, quotas, at);
  }
}
