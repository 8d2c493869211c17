/** What one step leaves of each delivery's past, and what follows along a run. */
module Traces {
  import opened Protocol
  import opened Tables
  import opened Transactions
  import opened Ledger
  import opened Invariant
  import opened Steps
  import opened Runs

  /** How delivery `x` may differ after step `s`. */
  ghost predicate Continues(db: Db, s: Step, next: Db, x: Uuid)
    requires x in db.jobs
  {
    && x in next.jobs
    && Evolves(db.jobs[x].row, next.jobs[x].row)
    && (db.jobs[x].row.event in db.events ==>
          && db.jobs[x].row.event in next.events
          && next.events[db.jobs[x].row.event] == db.events[db.jobs[x].row.event])
    && (forall token | HasToken(db.jobs[x], token) ::
          HasToken(next.jobs[x], token) || (s.RollingBack? && s.lease.delivery == x && s.lease.token == token))
    && (next.jobs[x].row.state == InFlight ==>
          || (db.jobs[x].row.state == InFlight && next.jobs[x].row == db.jobs[x].row)
          || (s.Beating? && s.lease.delivery == x && db.jobs[x].row.state == InFlight
              && next.jobs[x].row == db.jobs[x].row.(leaseUntil := next.jobs[x].row.leaseUntil))
          || (s.Claiming? && s.id == x && next.jobs[x].row.token == Some(s.token)))
    && (forall token | token in db.jobs[x].candidates ::
          token in next.jobs[x].candidates && next.jobs[x].candidates[token] == db.jobs[x].candidates[token])
    && (db.jobs[x].response.result.Some? ==> next.jobs[x].response.result == db.jobs[x].response.result)
    && next.jobs[x].response.policy == db.jobs[x].response.policy
  }

  lemma SameContinues(db: Db, s: Step, next: Db, x: Uuid)
    requires x in db.jobs && x in next.jobs && next.jobs[x] == db.jobs[x]
    requires forall e | e in db.events :: e in next.events && next.events[e] == db.events[e]
    ensures Continues(db, s, next, x)
  {
  }

  lemma WroteContinues(db: Db, s: Step, id: Uuid, after: Db, at: Stamp, gained: set<Uuid>, lost: set<Uuid>, beat: bool,
                       x: Uuid)
    requires x in db.jobs && Wrote(db, id, after, at, gained, lost, beat)
    requires gained == {} || (s.Claiming? && s.id == id && gained == {s.token})
    requires lost == {} || (s.RollingBack? && s.lease.delivery == id && lost == {s.lease.token})
    requires !beat || (s.Beating? && s.lease.delivery == id)
    ensures Continues(db, s, after, x)
  {
    hide JobOk;
    if x != id || after == db || after == db.(clock := at.write) {
      SameContinues(db, s, after, x);
    }
  }

  lemma {:induction false} ExpireAllContinues(w: World, s: Step, ids: seq<Uuid>, at: Stamp, x: Uuid)
    requires Inv(w) && ValidStamp(w.db.clock, at) && at.read == at.write && x in w.db.jobs
    ensures Continues(w.db, s, ExpireAll(w.db, ids, at), x)
  {
    if ids == [] {
      SameContinues(w.db, s, w.db, x);
    } else {
      var id := ids[|ids| - 1];
      var before := ExpireAll(w.db, ids[..|ids| - 1], at);
      ExpireAllContinues(w, s, ids[..|ids| - 1], at, x);
      ExpireAllInv(w, ids[..|ids| - 1], at);
      ExpireOneContinues(w, before, s, id, at, x);
    }
  }

  lemma ExpireOneContinues(w: World, before: Db, s: Step, id: Uuid, at: Stamp, x: Uuid)
    requires Inv(w.(db := before)) && before.clock <= at.write && at.begin <= at.read == at.write
    requires x in w.db.jobs && Continues(w.db, s, before, x)
    ensures Continues(w.db, s, ExpireOne(before, id, at), x)
  {
    hide DbOk, JobOk;
    RowFacts(before, id);
    ExpireOneWrites(before, id, at);
    WroteContinues(before, Tick(0), id, ExpireOne(before, id, at), at, {}, {}, false, x);
  }

  lemma InsertContinues(w: World, s: Step, x: Uuid)
    requires Inv(w) && Enabled(w, s) && (s.Accepting? || s.Replaying?) && x in w.db.jobs
    ensures Continues(w.db, s, Apply(w, s).db, x)
  {
    hide Inv, Charged, HasReceipt, IsReceipt, Authorized, ValidKey, Generations, Active;
    if s.Accepting? {
      DrawnIsNew(w, s.drawn.event);
      DrawnIsNew(w, s.drawn.delivery);
    } else {
      DrawnIsNew(w, s.successor);
    }
    SameContinues(w.db, s, Apply(w, s).db, x);
  }

  lemma DispatchContinues(w: World, s: Step, x: Uuid)
    requires Enabled(w, s) && s.Dispatching? && x in w.db.jobs
    ensures Continues(w.db, s, Apply(w, s).db, x)
  {
    if x == s.id && s.outcome.StoredMarked? {
      SameTokens(w.db.jobs[x], Apply(w, s).db.jobs[x]);
    } else {
      SameContinues(w.db, s, Apply(w, s).db, x);
    }
  }

  lemma AgentContinues(w: World, s: Step, x: Uuid)
    requires Inv(w) && Enabled(w, s) && (s.Settling? || s.Beating? || s.Staging? || s.RollingBack?) && x in w.db.jobs
    ensures Continues(w.db, s, Apply(w, s).db, x)
  {
    hide DbOk, JobOk, Wrote, Continues;
    var id := s.lease.delivery;
    RowFacts(w.db, id);
    match s {
      case Settling(agent, lease, success, at) =>
        SettleWrites(w.db, agent, lease, success, at);
        WroteContinues(w.db, s, id, Apply(w, s).db, at, {}, {}, false, x);
      case Beating(agent, lease, at) =>
        HeartbeatWrites(w.db, agent, lease, at);
        WroteContinues(w.db, s, id, Apply(w, s).db, at, {}, {}, true, x);
      case Staging(agent, lease, bytes, at) =>
        StageWrites(w.db, agent, lease, bytes, at);
        WroteContinues(w.db, s, id, Apply(w, s).db, at, {}, {}, false, x);
      case RollingBack(agent, lease, at) =>
        RollbackWrites(w.db, agent, lease, at);
        WroteContinues(w.db, s, id, Apply(w, s).db, at, {}, {lease.token}, false, x);
    }
  }

  lemma ServerContinues(w: World, s: Step, x: Uuid)
    requires Inv(w) && Enabled(w, s) && (s.Claiming? || s.BeginningWait? || s.ExpiringWait? || s.Reconciling?)
        && x in w.db.jobs
    ensures Continues(w.db, s, Apply(w, s).db, x)
  {
    hide DbOk, JobOk, Wrote, Continues;
    RowFacts(w.db, s.id);
    match s {
      case Claiming(agent, id, expected, seen, token, at) =>
        ClaimWrites(w.db, agent, id, expected, seen, token, at);
        WroteContinues(w.db, s, id, Apply(w, s).db, at, {token}, {}, false, x);
      case BeginningWait(id, at) =>
        BeginWaitWrites(w.db, id, at);
        WroteContinues(w.db, s, id, Apply(w, s).db, at, {}, {}, false, x);
      case ExpiringWait(id, at) =>
        ExpireWaitWrites(w.db, id, at);
        WroteContinues(w.db, s, id, Apply(w, s).db, at, {}, {}, false, x);
      case Reconciling(id, _, at) =>
        ReconcileWrites(w.db, id, at);
        WroteContinues(w.db, s, id, Apply(w, s).db, at, {}, {}, false, x);
    }
  }

  lemma WroteKeys(db: Db, id: Uuid, after: Db, at: Stamp, gained: set<Uuid>, lost: set<Uuid>, beat: bool)
    requires Wrote(db, id, after, at, gained, lost, beat)
    ensures after.jobs.Keys == db.jobs.Keys
  {
    hide GoodWrite, Carries;
  }

  lemma {:induction false} ExpireAllKeys(db: Db, ids: seq<Uuid>, at: Stamp)
    ensures ExpireAll(db, ids, at).jobs.Keys == db.jobs.Keys
  {
    hide UpdateRow;
    if ids != [] {
      ExpireAllKeys(db, ids[..|ids| - 1], at);
    }
  }

  /** Only acceptance and replay add deliveries. */
  lemma StepKeepsKeys(w: World, s: Step)
    requires Inv(w) && Enabled(w, s) && !s.Accepting? && !s.Replaying?
    ensures Apply(w, s).db.jobs.Keys == w.db.jobs.Keys
  {
    hide DbOk, StreamOk, UsedOk, FramesOk, RowOk, Wrote, Claim, Settle, Heartbeat, Stage, Rollback, Reconcile,
        BeginWait,
         ExpireWait, ExpireAll;
    var after := Apply(w, s).db;
    match s {
      case Claiming(agent, id, expected, seen, token, at) =>
        RowFacts(w.db, id);
        ClaimWrites(w.db, agent, id, expected, seen, token, at);
        WroteKeys(w.db, id, after, at, {token}, {}, false);
      case Settling(agent, lease, success, at) =>
        RowFacts(w.db, lease.delivery);
        SettleWrites(w.db, agent, lease, success, at);
        WroteKeys(w.db, lease.delivery, after, at, {}, {}, false);
      case Beating(agent, lease, at) =>
        RowFacts(w.db, lease.delivery);
        HeartbeatWrites(w.db, agent, lease, at);
        WroteKeys(w.db, lease.delivery, after, at, {}, {}, true);
      case Staging(agent, lease, bytes, at) =>
        RowFacts(w.db, lease.delivery);
        StageWrites(w.db, agent, lease, bytes, at);
        WroteKeys(w.db, lease.delivery, after, at, {}, {}, false);
      case RollingBack(agent, lease, at) =>
        RowFacts(w.db, lease.delivery);
        RollbackWrites(w.db, agent, lease, at);
        WroteKeys(w.db, lease.delivery, after, at, {}, {lease.token}, false);
      case Reconciling(id, _, at) =>
        RowFacts(w.db, id);
        ReconcileWrites(w.db, id, at);
        WroteKeys(w.db, id, after, at, {}, {}, false);
      case BeginningWait(id, at) =>
        RowFacts(w.db, id);
        BeginWaitWrites(w.db, id, at);
        WroteKeys(w.db, id, after, at, {}, {}, false);
      case ExpiringWait(id, at) =>
        RowFacts(w.db, id);
        ExpireWaitWrites(w.db, id, at);
        WroteKeys(w.db, id, after, at, {}, {}, false);
      case Expiring(ids, at) => ExpireAllKeys(w.db, ids, at);
      case _ =>
    }
  }

  lemma StepContinues(w: World, s: Step, x: Uuid)
    requires Inv(w) && Enabled(w, s) && x in w.db.jobs
    ensures Continues(w.db, s, Apply(w, s).db, x)
  {
    hide Inv, Continues;
    if s.Accepting? || s.Replaying? {
      InsertContinues(w, s, x);
    } else if s.Dispatching? {
      DispatchContinues(w, s, x);
    } else if s.Settling? || s.Beating? || s.Staging? || s.RollingBack? {
      AgentContinues(w, s, x);
    } else if s.Claiming? || s.BeginningWait? || s.ExpiringWait? || s.Reconciling? {
      ServerContinues(w, s, x);
    } else if s.Expiring? {
      ExpireAllContinues(w, s, s.ids, s.at, x);
    } else {
      SameContinues(w.db, s, Apply(w, s).db, x);
    }
  }

  // ---- along a run -----------------------------------------------------------------

  lemma RunContinues(r: Run, i: nat, x: Uuid)
    requires ValidRun(r) && i < |r.steps| && x in r.worlds[i].db.jobs
    ensures Continues(r.worlds[i].db, r.steps[i], r.worlds[i + 1].db, x)
  {
    hide Inv, Enabled, Apply, Continues;
    RunInv(r, i);
    assert Follows(r, i);
    StepContinues(r.worlds[i], r.steps[i], x);
  }

  /** Deliveries are never deleted, and a terminal delivery never changes again. */
  lemma {:induction false} TerminalForever(r: Run, i: nat, j: nat, x: Uuid)
    requires ValidRun(r) && i <= j < |r.worlds| && x in r.worlds[i].db.jobs
    ensures x in r.worlds[j].db.jobs && Evolves(r.worlds[i].db.jobs[x].row, r.worlds[j].db.jobs[x].row)
    decreases j - i
  {
    if i < j {
      RunContinues(r, i, x);
      TerminalForever(r, i + 1, j, x);
    }
  }

  /** Drawn ids stay drawn. */
  lemma {:induction false} UsedGrows(r: Run, i: nat, j: nat)
    requires ValidRun(r) && i <= j < |r.worlds|
    ensures r.worlds[i].used <= r.worlds[j].used
    decreases j - i
  {
    if i < j {
      assert Follows(r, i);
      UsedGrows(r, i + 1, j);
    }
  }
}
