/**
 The delivery protocol as a state machine: the database, the broker stream, the UUIDs drawn so
 far, and the delivery frames held or sent by gateways. A run is any interleaving of committed
 transactions, broker events and frame admissions.
 */
module Runs {
  import opened Protocol
  import opened Tables
  import opened Transactions
  import opened Ledger
  import opened Invariant
  import opened Steps

  /**
   `stream` holds the unacknowledged broker messages by delivery id with the time they were stored.
   `unsent` are (delivery, token) pairs claimed by a gateway whose frame no socket has accepted yet;
   `admitted` are those a socket has accepted.
   */
  datatype World = World(db: Db, stream: map<Uuid, Time>, used: set<Uuid>,
                         unsent: set<(Uuid, Uuid)>, admitted: set<(Uuid, Uuid)>)

  /** Nothing stored; stored but the PubAck or the commit was lost; stored and marked sent. */
  datatype Publication = NotStored | StoredUnmarked | StoredMarked

  datatype Step =
    | Tick(now: Time)
    | Accepting(principal: Principal, input: EventInput, key: string, prior: Option<Accepted>, drawn: Accepted,
                at: Stamp)
    | Dispatching(id: Uuid, outcome: Publication, at: Stamp)
    | AgingOut(id: Uuid)
    | Claiming(agent: Principal, id: Uuid, expected: Option<Owner>, seen: ClaimReads, token: Uuid, at: Stamp)
    | Sending(id: Uuid, token: Uuid)
    | RollingBack(agent: Principal, lease: DeliveryLease, at: Stamp)
    | Settling(agent: Principal, lease: DeliveryLease, success: bool, at: Stamp)
    | Beating(agent: Principal, lease: DeliveryLease, at: Stamp)
    | Staging(agent: Principal, lease: DeliveryLease, bytes: Bytes, at: Stamp)
    | BeginningWait(id: Uuid, at: Stamp)
    | ExpiringWait(id: Uuid, at: Stamp)
    | Reconciling(id: Uuid, acked: bool, at: Stamp)
    | Expiring(ids: seq<Uuid>, at: Stamp)
    | Replaying(principal: Principal, id: Uuid, successor: Uuid, at: Stamp)

  ghost predicate Enabled(w: World, s: Step) {
    match s
    case Tick(now) => w.db.clock <= now
    case Accepting(_, input, key, prior, drawn, at) =>
      ValidStamp(w.db.clock, at) && drawn.event !in w.used && drawn.delivery !in w.used && drawn.event != drawn.delivery
      && AcceptInputs(w.db, input, key, prior, drawn)
    case Dispatching(id, _, at) => ValidStamp(w.db.clock, at) && Dispatchable(w.db, id, at.begin)
    case AgingOut(id) => id in w.stream && w.stream[id] + RETENTION <= w.db.clock
    case Claiming(agent, _, _, _, token, at) =>
      ValidStamp(w.db.clock, at) && Authenticated(w.db, agent) && token !in w.used
    case Sending(id, token) => (id, token) in w.unsent
    case RollingBack(_, lease, at) => ValidStamp(w.db.clock, at) && (lease.delivery, lease.token) in w.unsent
    case Settling(_, _, _, at) => ValidStamp(w.db.clock, at)
    case Beating(_, _, at) => ValidStamp(w.db.clock, at)
    case Staging(_, _, _, at) => ValidStamp(w.db.clock, at)
    case BeginningWait(_, at) => ValidStamp(w.db.clock, at)
    case ExpiringWait(_, at) => ValidStamp(w.db.clock, at)
    case Reconciling(id, _, at) => ValidStamp(w.db.clock, at) && id in w.stream
    case Expiring(_, at) => ValidStamp(w.db.clock, at) && at.read == at.write
    case Replaying(_, _, drawn, at) => ValidStamp(w.db.clock, at) && drawn !in w.used
  }

  function Apply(w: World, s: Step): World {
    match s
    case Tick(now) => w.(db := w.db.(clock := now))
    case Accepting(principal, input, key, prior, drawn, at) =>
      w.(db := Accept(w.db, principal, input, key, prior, drawn, at).db, used := w.used + {drawn.event, drawn.delivery})
    case Dispatching(id, outcome, at) =>
      if id !in w.db.jobs || outcome.NotStored? then w
      else
        var stream := if id in w.stream then w.stream else w.stream[id := at.read];
        if outcome.StoredUnmarked? then w.(stream := stream)
        else w.(stream := stream, db := MarkSent(w.db, id, at))
    case AgingOut(id) => w.(stream := w.stream - {id})
    case Claiming(agent, id, expected, seen, token, at) =>
      var a := Claim(w.db, agent, id, expected, seen, token, at);
      w.(db := a.db, used := w.used + {token}, unsent := if a.result.Ok? then w.unsent + {(id, token)} else w.unsent)
    case Sending(id, token) => w.(unsent := w.unsent - {(id, token)}, admitted := w.admitted + {(id, token)})
    case RollingBack(agent, lease, at) =>
      var a := Rollback(w.db, agent, lease, at);
      w.(db := a.db, unsent := if a.result.Ok? then w.unsent - {(lease.delivery, lease.token)} else w.unsent)
    case Settling(agent, lease, success, at) => w.(db := Settle(w.db, agent, lease, success, at).db)
    case Beating(agent, lease, at) => w.(db := Heartbeat(w.db, agent, lease, at).db)
    case Staging(agent, lease, bytes, at) => w.(db := Stage(w.db, agent, lease, bytes, at).db)
    case BeginningWait(id, at) => w.(db := BeginWait(w.db, id, at))
    case ExpiringWait(id, at) => w.(db := ExpireWait(w.db, id, at))
    case Reconciling(id, acked, at) =>
      var a := Reconcile(w.db, id, at);
      w.(db := a.db, stream := if a.result == Ok(true) && acked then w.stream - {id} else w.stream)
    case Expiring(ids, at) => w.(db := ExpireAll(w.db, ids, at))
    case Replaying(principal, id, drawn, at) =>
      w.(db := Replay(w.db, principal, id, drawn, at).db, used := w.used + {drawn})
  }

  // ---- the invariant of the machine -----------------------------------------------

  /** A message belongs to a stored delivery; open work within retention that was marked sent has its message. */
  ghost predicate Streamed(db: Db, stream: map<Uuid, Time>, id: Uuid) {
    && (id in stream ==>
          && id in db.jobs && db.jobs[id].row.event in db.events
          && db.events[db.jobs[id].row.event].createdAt <= stream[id])
    && (id in db.jobs && db.jobs[id].outbox.sentAt.Some? && db.jobs[id].row.terminalAt.None? ==>
          id in stream
              || (db.jobs[id].row.event in db.events && db.events[db.jobs[id].row.event].expiresAt <= db.clock))
  }

  ghost predicate StreamOk(db: Db, stream: map<Uuid, Time>) {
    forall id :: Streamed(db, stream, id)
  }

  /** Every id and token stored anywhere has been drawn. */
  ghost predicate UsedOk(db: Db, used: set<Uuid>) {
    && (forall e | e in db.events :: e in used)
    && (forall id | id in db.jobs :: id in used)
    && (forall id, token | id in db.jobs && HasToken(db.jobs[id], token) :: token in used)
    && (forall id, token | id in db.jobs && token in db.jobs[id].candidates :: token in used)
  }

  /** Frames held or sent by gateways have their attempt row in the ledger. */
  ghost predicate FramesOk(db: Db, unsent: set<(Uuid, Uuid)>, admitted: set<(Uuid, Uuid)>) {
    && unsent !! admitted
    && (forall p | p in unsent :: p.0 in db.jobs && HasToken(db.jobs[p.0], p.1))
    && (forall p | p in admitted :: p.0 in db.jobs && HasToken(db.jobs[p.0], p.1))
  }

  ghost predicate Inv(w: World) {
    DbOk(w.db) && StreamOk(w.db, w.stream) && UsedOk(w.db, w.used) && FramesOk(w.db, w.unsent, w.admitted)
  }

  /** A UUID that was not drawn before names no stored row. */
  lemma DrawnIsNew(w: World, id: Uuid)
    requires Inv(w) && id !in w.used
    ensures id !in w.db.events && id !in w.db.jobs
  {
  }

  // ---- preservation ---------------------------------------------------------------

  lemma CommitStream(db: Db, id: Uuid, job: Job, at: Stamp, stream: map<Uuid, Time>)
    requires id in db.jobs && Evolves(db.jobs[id].row, job.row) && db.clock <= at.write && StreamOk(db, stream)
    requires job.outbox.sentAt == db.jobs[id].outbox.sentAt || id in stream
    ensures StreamOk(Commit(db, id, job, at), stream)
  {
    forall x ensures Streamed(Commit(db, id, job, at), stream, x) {
      assert Streamed(db, stream, x);
    }
  }

  lemma WroteStream(db: Db, id: Uuid, after: Db, at: Stamp, gained: set<Uuid>, lost: set<Uuid>, beat: bool,
                    stream: map<Uuid, Time>)
    requires Wrote(db, id, after, at, gained, lost, beat) && ValidStamp(db.clock, at) && StreamOk(db, stream)
    ensures StreamOk(after, stream)
  {
    if after == db.(clock := at.write) {
      forall x ensures Streamed(after, stream, x) {
        assert Streamed(db, stream, x);
      }
    } else if after != db {
      CommitStream(db, id, after.jobs[id], at, stream);
    }
  }

  lemma WroteUsed(db: Db, id: Uuid, after: Db, at: Stamp, gained: set<Uuid>, lost: set<Uuid>, beat: bool,
                  used: set<Uuid>)
    requires Wrote(db, id, after, at, gained, lost, beat) && UsedOk(db, used)
    ensures UsedOk(after, used + gained)
  {
  }

  lemma WroteFrames(db: Db, id: Uuid, after: Db, at: Stamp, gained: set<Uuid>, lost: set<Uuid>, beat: bool,
                    unsent: set<(Uuid, Uuid)>, admitted: set<(Uuid, Uuid)>)
    requires Wrote(db, id, after, at, gained, lost, beat) && FramesOk(db, unsent, admitted)
    requires forall token | token in lost :: (id, token) !in unsent && (id, token) !in admitted
    ensures FramesOk(after, unsent, admitted)
  {
  }

  /** A transaction that wrote one delivery and drew at most the gained tokens. */
  lemma WroteInv(w: World, id: Uuid, after: Db, at: Stamp, gained: set<Uuid>, beat: bool)
    requires Inv(w) && ValidStamp(w.db.clock, at) && Wrote(w.db, id, after, at, gained, {}, beat)
    ensures Inv(w.(db := after, used := w.used + gained))
  {
    WroteKeeps(w.db, id, after, at, gained, {}, beat);
    WroteStream(w.db, id, after, at, gained, {}, beat, w.stream);
    WroteUsed(w.db, id, after, at, gained, {}, beat, w.used);
    WroteFrames(w.db, id, after, at, gained, {}, beat, w.unsent, w.admitted);
  }

  lemma WroteQuietly(w: World, id: Uuid, after: Db, at: Stamp, beat: bool)
    requires Inv(w) && ValidStamp(w.db.clock, at) && Wrote(w.db, id, after, at, {}, {}, beat)
    ensures Inv(w.(db := after))
  {
    hide Inv, Wrote;
    WroteInv(w, id, after, at, {}, beat);
    assert w.used + {} == w.used;
  }

  lemma InsertWorld(w: World, after: Db, event: Uuid, e: Event, id: Uuid, job: Job, quotas: map<Uuid, Quota>, at: Stamp,
                    used: set<Uuid>)
    requires Inv(w) && DbOk(after) && after == Inserted(w.db, event, e, id, job, quotas, at)
    requires w.used <= used && event in used && id in used && w.db.clock <= at.write
    requires id !in w.db.jobs && (event in w.db.events ==> e == w.db.events[event])
    requires job.attempts == map[] && job.outbox.sentAt.None? && job.candidates == map[]
    ensures Inv(w.(db := after, used := used))
  {
    hide DbOk, JobOk;
    forall x ensures Streamed(after, w.stream, x) {
      assert Streamed(w.db, w.stream, x);
    }
  }

  lemma AcceptInv(w: World, s: Step)
    requires Inv(w) && s.Accepting? && Enabled(w, s)
    ensures Inv(Apply(w, s))
  {
    hide DbOk, JobOk;
    AcceptKeeps(w.db, s.principal, s.input, s.key, s.prior, s.drawn, s.at);
    var after := Apply(w, s).db;
    if after == w.db {
    } else if s.prior.Some? {
      WroteStream(w.db, 0, after, s.at, {}, {}, false, w.stream);
    } else {
      InsertWorld(w, after, s.drawn.event, after.events[s.drawn.event], s.drawn.delivery, after.jobs[s.drawn.delivery],
                  after.quotas, s.at, w.used + {s.drawn.event, s.drawn.delivery});
    }
  }

  lemma ReplayInv(w: World, s: Step)
    requires Inv(w) && s.Replaying? && Enabled(w, s)
    ensures Inv(Apply(w, s))
  {
    hide DbOk, JobOk;
    ReplayKeeps(w.db, s.principal, s.id, s.successor, s.at);
    var after := Apply(w, s).db;
    if after != w.db {
      RowFacts(w.db, s.id);
      EventFacts(w.db);
      ReplayInserts(w.db, s.principal, s.id, s.successor, s.at);
      var row := w.db.jobs[s.id].row;
      InsertWorld(w, after, row.event, w.db.events[row.event], s.successor, after.jobs[s.successor], after.quotas, s.at,
                  w.used + {s.successor});
    }
  }

  lemma DispatchInv(w: World, s: Step)
    requires Inv(w) && s.Dispatching? && Enabled(w, s)
    ensures Inv(Apply(w, s))
  {
    hide DbOk, JobOk;
    var next := Apply(w, s);
    RowFacts(w.db, s.id);
    EventFacts(w.db);
    forall x ensures Streamed(w.db, next.stream, x) {
      assert Streamed(w.db, w.stream, x);
      if x == s.id {
        assert w.db.events[w.db.jobs[x].row.event].createdAt <= w.db.clock;
      }
    }
    if next.db != w.db {
      MarkSentWrites(w.db, s.id, s.at);
      WriteKeeps(w.db, s.id, next.db.jobs[s.id], s.at);
      CommitStream(w.db, s.id, next.db.jobs[s.id], s.at, next.stream);
      SameTokens(w.db.jobs[s.id], next.db.jobs[s.id]);
    }
  }

  lemma AgeInv(w: World, s: Step)
    requires Inv(w) && s.AgingOut? && Enabled(w, s)
    ensures Inv(Apply(w, s))
  {
    forall x ensures Streamed(w.db, w.stream - {s.id}, x) {
      assert Streamed(w.db, w.stream, x);
    }
  }

  lemma ClaimInv(w: World, s: Step)
    requires Inv(w) && s.Claiming? && Enabled(w, s)
    ensures Inv(Apply(w, s))
  {
    hide DbOk, JobOk, Claim, Wrote;
    RowFacts(w.db, s.id);
    var a := Claim(w.db, s.agent, s.id, s.expected, s.seen, s.token, s.at);
    ClaimWrites(w.db, s.agent, s.id, s.expected, s.seen, s.token, s.at);
    WroteInv(w, s.id, a.db, s.at, {s.token}, false);
    if a.result.Ok? {
      ClaimIssues(w.db, s.agent, s.id, s.expected, s.seen, s.token, s.at);
      assert HasToken(a.db.jobs[s.id], s.token);
      assert (s.id, s.token) !in w.admitted;
    }
  }

  lemma RollbackInv(w: World, s: Step)
    requires Inv(w) && s.RollingBack? && Enabled(w, s)
    ensures Inv(Apply(w, s))
  {
    hide DbOk, JobOk, StreamOk, UsedOk, Wrote, Commit, Unclaimed;
    var id := s.lease.delivery;
    RowFacts(w.db, id);
    RollbackWrites(w.db, s.agent, s.lease, s.at);
    var after := Rollback(w.db, s.agent, s.lease, s.at).db;
    if after != w.db {
      WroteKeeps(w.db, id, after, s.at, {}, {s.lease.token}, false);
      WroteStream(w.db, id, after, s.at, {}, {s.lease.token}, false, w.stream);
      WroteUsed(w.db, id, after, s.at, {}, {s.lease.token}, false, w.used);
      WroteFrames(w.db, id, after, s.at, {}, {s.lease.token}, false, w.unsent - {(id, s.lease.token)}, w.admitted);
      assert w.used + {} == w.used;
    }
  }

  lemma AgentInv(w: World, s: Step)
    requires Inv(w) && (s.Settling? || s.Beating? || s.Staging?) && Enabled(w, s)
    ensures Inv(Apply(w, s))
  {
    hide DbOk, StreamOk, UsedOk, FramesOk, RowOk, Wrote, Settle, Heartbeat, Stage;
    RowFacts(w.db, s.lease.delivery);
    match s {
      case Settling(agent, lease, success, at) => SettleWrites(w.db, agent, lease, success, at);
      case Beating(agent, lease, at) => HeartbeatWrites(w.db, agent, lease, at);
      case Staging(agent, lease, bytes, at) => StageWrites(w.db, agent, lease, bytes, at);
    }
    WroteQuietly(w, s.lease.delivery, Apply(w, s).db, s.at, s.Beating?);
  }

  lemma WaitInv(w: World, s: Step)
    requires Inv(w) && (s.BeginningWait? || s.ExpiringWait?) && Enabled(w, s)
    ensures Inv(Apply(w, s))
  {
    hide DbOk, StreamOk, UsedOk, FramesOk, RowOk, Wrote, BeginWait, ExpireWait;
    RowFacts(w.db, s.id);
    BeginWaitWrites(w.db, s.id, s.at);
    ExpireWaitWrites(w.db, s.id, s.at);
    WroteQuietly(w, s.id, Apply(w, s).db, s.at, false);
  }

  /** The message of a delivery that is terminal may go. */
  lemma DropDone(db: Db, stream: map<Uuid, Time>, id: Uuid)
    requires StreamOk(db, stream) && id in db.jobs && db.jobs[id].row.terminalAt.Some?
    ensures StreamOk(db, stream - {id})
  {
    forall x ensures Streamed(db, stream - {id}, x) {
      assert Streamed(db, stream, x);
    }
  }

  lemma ReconcileTrue(db: Db, id: Uuid, at: Stamp)
    requires RowOk(db, id) && ValidStamp(db.clock, at) && Reconcile(db, id, at).result == Ok(true)
    ensures id in Reconcile(db, id, at).db.jobs && Reconcile(db, id, at).db.jobs[id].row.terminalAt.Some?
  {
  }

  lemma ReconcileInv(w: World, s: Step)
    requires Inv(w) && s.Reconciling? && Enabled(w, s)
    ensures Inv(Apply(w, s))
  {
    hide DbOk, StreamOk, UsedOk, FramesOk, RowOk, Wrote, Reconcile;
    RowFacts(w.db, s.id);
    ReconcileWrites(w.db, s.id, s.at);
    var a := Reconcile(w.db, s.id, s.at);
    WroteQuietly(w, s.id, a.db, s.at, false);
    if a.result == Ok(true) {
      ReconcileTrue(w.db, s.id, s.at);
      DropDone(a.db, w.stream, s.id);
    }
  }

  lemma ExpireOneInv(w: World, id: Uuid, at: Stamp)
    requires Inv(w) && w.db.clock <= at.write && at.begin <= at.read == at.write
    ensures Inv(w.(db := ExpireOne(w.db, id, at))) && ExpireOne(w.db, id, at).clock <= at.write
  {
    hide DbOk, StreamOk, UsedOk, FramesOk;
    RowFacts(w.db, id);
    ExpireOneWrites(w.db, id, at);
    WroteQuietly(w, id, ExpireOne(w.db, id, at), at, false);
  }

  lemma {:induction false} ExpireAllInv(w: World, ids: seq<Uuid>, at: Stamp)
    requires Inv(w) && ValidStamp(w.db.clock, at) && at.read == at.write
    ensures Inv(w.(db := ExpireAll(w.db, ids, at))) && ExpireAll(w.db, ids, at).clock <= at.write
  {
    hide Inv, ExpireOne;
    if ids != [] {
      ExpireAllInv(w, ids[..|ids| - 1], at);
      ExpireOneInv(w.(db := ExpireAll(w.db, ids[..|ids| - 1], at)), ids[|ids| - 1], at);
    }
  }

  lemma TickInv(w: World, s: Step)
    requires Inv(w) && s.Tick? && Enabled(w, s)
    ensures Inv(Apply(w, s))
  {
    hide DbOk, StreamOk, UsedOk, FramesOk;
    WroteQuietly(w, 0, w.db.(clock := s.now), Stamp(w.db.clock, w.db.clock, s.now), false);
  }

  lemma SendInv(w: World, s: Step)
    requires Inv(w) && s.Sending? && Enabled(w, s)
    ensures Inv(Apply(w, s))
  {
    hide DbOk, StreamOk, UsedOk, HasToken;
  }

  lemma ExpiringInv(w: World, s: Step)
    requires Inv(w) && s.Expiring? && Enabled(w, s)
    ensures Inv(Apply(w, s))
  {
    ExpireAllInv(w, s.ids, s.at);
  }

  lemma StepKeepsInv(w: World, s: Step)
    requires Inv(w) && Enabled(w, s)
    ensures Inv(Apply(w, s))
  {
    hide *;
    match s
    case Tick(now) => TickInv(w, s);
    case Accepting(_, _, _, _, _, _) => AcceptInv(w, s);
    case Dispatching(_, _, _) => DispatchInv(w, s);
    case AgingOut(_) => AgeInv(w, s);
    case Claiming(_, _, _, _, _, _) => ClaimInv(w, s);
    case Sending(_, _) => SendInv(w, s);
    case RollingBack(_, _, _) => RollbackInv(w, s);
    case Settling(_, _, _, _) => AgentInv(w, s);
    case Beating(_, _, _) => AgentInv(w, s);
    case Staging(_, _, _, _) => AgentInv(w, s);
    case BeginningWait(_, _) => WaitInv(w, s);
    case ExpiringWait(_, _) => WaitInv(w, s);
    case Reconciling(_, _, _) => ReconcileInv(w, s);
    case Expiring(_, _) => ExpiringInv(w, s);
    case Replaying(_, _, _, _) => ReplayInv(w, s);
  }

  // ---- runs -------------------------------------------------------------------------

  ghost predicate Initial(w: World) {
    && w.db.events == map[] && w.db.jobs == map[] && w.db.quotas == map[]
    && w.stream == map[] && w.unsent == {} && w.admitted == {}
  }

  datatype Run = Run(worlds: seq<World>, steps: seq<Step>)

  ghost predicate Follows(r: Run, i: nat)
    requires i < |r.steps| && |r.worlds| == |r.steps| + 1
  {
    Enabled(r.worlds[i], r.steps[i]) && r.worlds[i + 1] == Apply(r.worlds[i], r.steps[i])
  }

  /** A finite execution from an empty database under any interleaving of steps. */
  ghost predicate ValidRun(r: Run) {
    && |r.worlds| == |r.steps| + 1
    && Initial(r.worlds[0])
    && forall i | 0 <= i < |r.steps| :: Follows(r, i)
  }

  lemma InitialInv(w: World)
    requires Initial(w)
    ensures Inv(w)
  {
    forall ws: Uuid ensures QuotaExact(w.db, ws) {
      assert Outstanding(w.db, ws) == {};
    }
    forall ws, app, agent ensures |LiveLeases(w.db, ws, app, agent, w.db.clock)| <= MAX_IN_FLIGHT {
      assert LiveLeases(w.db, ws, app, agent, w.db.clock) == {};
    }
  }

  /** Every world of every run satisfies the invariant. */
  lemma {:induction false} RunInv(r: Run, i: nat)
    requires ValidRun(r) && i < |r.worlds|
    ensures Inv(r.worlds[i])
    decreases i
  {
    hide Inv, Enabled, Apply;
    if i == 0 {
      InitialInv(r.worlds[0]);
    } else {
      RunInv(r, i - 1);
      assert Follows(r, i - 1);
      StepKeepsInv(r.worlds[i - 1], r.steps[i - 1]);
    }
  }

  // ---- several steps in a row ----------------------------------------------------------

  /** The world after a sequence of steps. */
  ghost function After(w: World, steps: seq<Step>): World {
    if steps == [] then w else Apply(After(w, steps[..|steps| - 1]), steps[|steps| - 1])
  }

  /** Every step of the sequence is enabled when its turn comes. */
  ghost predicate Allowed(w: World, steps: seq<Step>) {
    steps == [] || (Allowed(w, steps[..|steps| - 1]) && Enabled(After(w, steps[..|steps| - 1]), steps[|steps| - 1]))
  }

  lemma AfterSnoc(w: World, steps: seq<Step>, s: Step)
    ensures After(w, steps + [s]) == Apply(After(w, steps), s)
    ensures Allowed(w, steps + [s]) <==> Allowed(w, steps) && Enabled(After(w, steps), s)
  {
    hide Apply, Enabled;
    assert (steps + [s])[..|steps|] == steps;
  }

  lemma {:induction false} AfterKeepsInv(w: World, steps: seq<Step>)
    requires Inv(w) && Allowed(w, steps)
    ensures Inv(After(w, steps))
  {
    hide Inv, Apply, Enabled;
    if steps != [] {
      AfterKeepsInv(w, steps[..|steps| - 1]);
      StepKeepsInv(After(w, steps[..|steps| - 1]), steps[|steps| - 1]);
    }
  }
}
