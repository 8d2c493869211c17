/**
 The gateway of rust/src/gateway.rs: batch claiming with undo on ownership loss or drain, the
 scan-and-send part of a socket session, broker message handling and drain. Presence answers,
 drain observations, drawn UUIDs, clock readings and send results are parameters.
 */
module Gateways {
  import opened Protocol
  import opened Tables
  import opened Transactions
  import opened Ledger
  import opened Invariant
  import opened Steps
  import opened Runs
  import opened Traces
  import opened Theorems
  import opened Stores

  datatype Frame = Frame(request: Uuid, lease: DeliveryLease)

  /** Rows in flight under one of the given tokens. */
  ghost function Left(db: Db, tokens: set<Uuid>): set<Uuid> {
    set id | id in db.jobs && Held(db, id) && db.jobs[id].row.token.value in tokens
  }

  /** The frame's lease is the current one of its delivery, held for this agent and not yet sent. */
  ghost predicate FrameHeld(w: World, agent: Principal, f: Frame) {
    && agent.Agent? && Held(w.db, f.lease.delivery) && HeldLease(w.db, f.lease.delivery) == f.lease
    && w.db.jobs[f.lease.delivery].row.agent == Some(agent.agent)
    && f.lease.token !in w.db.jobs[f.lease.delivery].candidates
    && (f.lease.delivery, f.lease.token) in w.unsent
  }

  ghost predicate Distinct(frames: seq<Frame>) {
    forall i, j | 0 <= i < j < |frames| :: frames[i].lease.delivery != frames[j].lease.delivery
  }

  ghost predicate FramesHeld(w: World, agent: Principal, frames: seq<Frame>) {
    Distinct(frames) && forall i | 0 <= i < |frames| :: FrameHeld(w, agent, frames[i])
  }

  ghost function Deliveries(frames: seq<Frame>): set<Uuid> {
    set i | 0 <= i < |frames| :: frames[i].lease.delivery
  }

  /** Stamps that may be used one after the other from `start` on. */
  ghost predicate Ordered(start: Time, stamps: seq<Stamp>) {
    && (forall i | 0 <= i < |stamps| :: ValidStamp(start, stamps[i]))
    && (forall i, j | 0 <= i < j < |stamps| :: stamps[i].write <= stamps[j].read)
  }

  /** The delivery is open again, with the attempt of the lease struck from its ledger. */
  ghost predicate Restored(before: Job, after: Job, lease: DeliveryLease) {
    && after.row.state == Pending && after.row.count == lease.attempt - 1
    && after.attempts == before.attempts - {lease.attempt}
    && after.outbox == before.outbox && after.response == before.response && after.candidates == before.candidates
  }

  /** The claims behind the frames are undone; every other delivery is as it was. */
  ghost predicate Unwound(w: World, after: World, frames: seq<Frame>) {
    && after.db.jobs.Keys == w.db.jobs.Keys && after.db.events == w.db.events
    && after.used == w.used && after.admitted == w.admitted
    && (forall x | x in w.db.jobs && x !in Deliveries(frames) :: after.db.jobs[x] == w.db.jobs[x])
    && (forall i | 0 <= i < |frames| ::
          && frames[i].lease.delivery in w.db.jobs
          && Restored(w.db.jobs[frames[i].lease.delivery], after.db.jobs[frames[i].lease.delivery], frames[i].lease))
  }

  /** The claim behind the frame is undone and nothing else changed. */
  ghost predicate Undone(w: World, after: World, f: Frame, at: Stamp) {
    var id := f.lease.delivery;
    && id in w.db.jobs && id in after.db.jobs
    && after.db.jobs == w.db.jobs[id := after.db.jobs[id]]
    && Restored(w.db.jobs[id], after.db.jobs[id], f.lease)
    && after.db.events == w.db.events && after.db.clock == at.write
    && after.used == w.used && after.admitted == w.admitted
    && after.unsent == w.unsent - {(id, f.lease.token)}
  }

  lemma UnclaimRestores(job: Job, event: Event, lease: DeliveryLease, agent: Uuid, at: Stamp, now: Time)
    requires JobOk(job, event, now) && CurrentLease(job.row, lease, agent)
    ensures Deletable(job, lease, agent)
    ensures Unclaimed(job, lease, at).Some? && Restored(job, Unclaimed(job, lease, at).value, lease)
  {
  }

  /** Undoing a held claim always succeeds, and touches that delivery only. */
  lemma RollbackSucceeds(w: World, agent: Principal, f: Frame, at: Stamp)
    requires Inv(w) && FrameHeld(w, agent, f) && ValidStamp(w.db.clock, at)
    ensures Enabled(w, RollingBack(agent, f.lease, at))
    ensures Rollback(w.db, agent, f.lease, at).result == Ok(())
    ensures Undone(w, Apply(w, RollingBack(agent, f.lease, at)), f, at)
    ensures Apply(w, RollingBack(agent, f.lease, at)).db.clock == at.write
  {
    hide DbOk, StreamOk, UsedOk, FramesOk, JobOk, Deletable, Unclaimed, Restored;
    var id := f.lease.delivery;
    RowFacts(w.db, id);
    UnclaimRestores(w.db.jobs[id], w.db.events[w.db.jobs[id].row.event], f.lease, agent.agent, at, w.db.clock);
  }

  lemma OtherFramesHeld(w: World, after: World, agent: Principal, f: Frame, id: Uuid, token: Uuid)
    requires FrameHeld(w, agent, f) && f.lease.delivery != id
    requires id in w.db.jobs && id in after.db.jobs && after.db.jobs == w.db.jobs[id := after.db.jobs[id]]
    requires w.unsent - {(id, token)} <= after.unsent
    ensures FrameHeld(after, agent, f)
  {
  }

  lemma UnwoundMore(w: World, mid: World, after: World, frames: seq<Frame>, f: Frame, at: Stamp)
    requires Unwound(w, mid, frames) && Undone(mid, after, f, at) && f.lease.delivery !in Deliveries(frames)
    ensures Unwound(w, after, frames + [f])
  {
    hide Restored;
    var all := frames + [f];
    forall x | x in w.db.jobs && x !in Deliveries(all) ensures after.db.jobs[x] == w.db.jobs[x] {
      assert all[|frames|] == f;
      forall i | 0 <= i < |frames| ensures frames[i].lease.delivery != x { assert all[i] == frames[i]; }
    }
    forall i | 0 <= i < |frames| ensures frames[i].lease.delivery != f.lease.delivery {
      assert frames[i].lease.delivery in Deliveries(frames);
    }
  }

  lemma NothingUnwound(w: World)
    ensures Unwound(w, w, [])
  {
  }

  lemma HeadHeld(w: World, agent: Principal, frames: seq<Frame>)
    requires frames != [] && FramesHeld(w, agent, frames)
    ensures FrameHeld(w, agent, frames[0])
  {
  }

  lemma DistinctPrefix(w: World, agent: Principal, frames: seq<Frame>, n: nat)
    requires n < |frames| && FramesHeld(w, agent, frames)
    ensures frames[n].lease.delivery !in Deliveries(frames[..n])
  {
  }

  lemma RestHeld(w: World, after: World, agent: Principal, frames: seq<Frame>, at: Stamp)
    requires frames != [] && FramesHeld(w, agent, frames) && Undone(w, after, frames[0], at)
    ensures FramesHeld(after, agent, frames[1..])
    ensures forall i | 1 <= i < |frames| :: frames[i].lease.delivery != frames[0].lease.delivery
  {
    hide FrameHeld, Restored;
    var rest := frames[1..];
    forall i | 0 <= i < |rest| ensures FrameHeld(after, agent, rest[i]) {
      assert rest[i] == frames[i + 1];
      OtherFramesHeld(w, after, agent, rest[i], frames[0].lease.delivery, frames[0].lease.token);
    }
  }

  // ---- what claims leave behind ----------------------------------------------------------

  /** A refused claim opens no lease and holds none of the listed tokens that was not held before. */
  lemma RefusalLeaves(w: World, s: Step, tokens: set<Uuid>)
    requires Inv(w) && Enabled(w, s) && s.Claiming? && s.id in w.db.jobs && s.id !in Left(w.db, tokens)
    requires Claim(w.db, s.agent, s.id, s.expected, s.seen, s.token, s.at).result.Err?
    ensures Left(Apply(w, s).db, tokens) == Left(w.db, tokens)
    ensures s.id in Apply(w, s).db.jobs && Apply(w, s).db.jobs == w.db.jobs[s.id := Apply(w, s).db.jobs[s.id]]
    ensures Apply(w, s).unsent == w.unsent && Apply(w, s).db.events == w.db.events
  {
    hide Inv, Claim, DbOk, JobOk;
    StepContinues(w, s, s.id);
    TokensUsed(w, s.id, s.token);
    RefusedNeverOpens(w.db, s.agent, s.id, s.expected, s.seen, s.token, s.at);
    ClaimTouches(w, s);
    forall x | x in Left(Apply(w, s).db, tokens) ensures x in Left(w.db, tokens) {
      assert x != s.id ==> Apply(w, s).db.jobs[x] == w.db.jobs[x];
    }
    forall x | x in Left(w.db, tokens) ensures x in Left(Apply(w, s).db, tokens) {
      assert Apply(w, s).db.jobs[x] == w.db.jobs[x];
    }
  }

  /** The token of a held lease has been drawn. */
  lemma TokensUsed(w: World, id: Uuid, token: Uuid)
    requires Inv(w) && token !in w.used
    ensures Held(w.db, id) ==> w.db.jobs[id].row.token != Some(token)
    ensures id in w.db.jobs ==> token !in w.db.jobs[id].candidates
  {
    hide DbOk, JobOk, StreamOk, FramesOk;
    if Held(w.db, id) {
      RowFacts(w.db, id);
      HeldTokenStored(w.db, id);
    }
  }

  lemma ClaimTouches(w: World, s: Step)
    requires Inv(w) && Enabled(w, s) && s.Claiming? && s.id in w.db.jobs
    ensures s.id in Apply(w, s).db.jobs && Apply(w, s).db.jobs == w.db.jobs[s.id := Apply(w, s).db.jobs[s.id]]
    ensures Apply(w, s).db.events == w.db.events && Apply(w, s).db.clock <= s.at.write
    ensures Apply(w, s).db.agents == w.db.agents
  {
    hide DbOk, StreamOk, UsedOk, FramesOk, JobOk, Carries, Claim;
    RowFacts(w.db, s.id);
    ClaimWrites(w.db, s.agent, s.id, s.expected, s.seen, s.token, s.at);
  }

  /** A granted claim is held for the agent under exactly the drawn token. */
  lemma GrantLeaves(w: World, s: Step, lease: DeliveryLease, request: Uuid, tokens: set<Uuid>)
    requires Inv(w) && Enabled(w, s) && Issues(w, s, lease) && s.token in tokens
    ensures FrameHeld(Apply(w, s), s.agent, Frame(request, lease)) && lease.delivery == s.id && s.id in w.db.jobs
    ensures lease.token == s.token
    ensures Left(Apply(w, s).db, tokens) == Left(w.db, tokens) + {s.id}
    ensures Apply(w, s).db.jobs == w.db.jobs[s.id := Apply(w, s).db.jobs[s.id]]
    ensures w.unsent <= Apply(w, s).unsent
  {
    hide Inv, Claim;
    IssueOpens(w, s, lease);
    ClaimTouches(w, s);
    TokensUsed(w, s.id, s.token);
    ClaimIssues(w.db, s.agent, s.id, s.expected, s.seen, s.token, s.at);
    forall x | x != s.id ensures x in Left(Apply(w, s).db, tokens) <==> x in Left(w.db, tokens) {
    }
  }

  lemma UnwindLeaves(w: World, after: World, agent: Principal, frames: seq<Frame>, tokens: set<Uuid>)
    requires Unwound(w, after, frames)
    ensures Left(after.db, tokens) == Left(w.db, tokens) - Deliveries(frames)
  {
    forall x ensures x in Left(after.db, tokens) <==> x in Left(w.db, tokens) - Deliveries(frames) {
    }
  }

  /** Fresh tokens are held nowhere. */
  lemma NoneLeft(w: World, tokens: set<Uuid>)
    requires Inv(w) && tokens !! w.used
    ensures Left(w.db, tokens) == {}
  {
    forall x ensures x !in Left(w.db, tokens) {
      if x in Left(w.db, tokens) {
        TokensUsed(w, x, w.db.jobs[x].row.token.value);
      }
    }
  }

  // ---- batch claiming ---------------------------------------------------------------------

  /** What one turn of the claim loop observes, in order; `request` is the frame id it draws. */
  datatype Turn = Turn(owned: PresenceReply, drain: bool, seen: ClaimReads, token: Uuid, at: Stamp, drainAfter: bool,
                       ownerAfter: PresenceReply, input: Result<(), DeliveryError>, ownerThen: PresenceReply,
                       request: Uuid, undo: Stamp)

  /** How a turn ends: go on, leave the loop, or leave the call; `stranded` tells whether leases stay behind. */
  datatype Control = Go(frames: seq<Frame>) | Halt(frames: seq<Frame>) | Quit(error: DeliveryError, stranded: bool)

  /** The frames are exactly the leases this call holds. */
  ghost predicate Holding(w: World, agent: Principal, frames: seq<Frame>, tokens: set<Uuid>) {
    Inv(w) && FramesHeld(w, agent, frames) && Left(w.db, tokens) == Deliveries(frames)
  }

  /** The clock readings of a turn and of the clean-up after it follow one another. */
  ghost predicate InTurn(clock: Time, t: Turn, cleanup: seq<Stamp>) {
    && ValidStamp(clock, t.at) && ValidStamp(t.at.write, t.undo) && Ordered(t.undo.write, cleanup)
    && |cleanup| >= MAX_IN_FLIGHT
  }

  ghost predicate IsFrameOf(f: Frame, target: Uuid, t: Turn) {
    f.request == t.request && f.lease.delivery == target && f.lease.token == t.token
  }

  /**
   The turns that leave leases behind: a presence read fails after the claim was granted, or
   after it was contested while earlier frames are held. The source returns that failure
   without undoing anything.
   */
  ghost predicate Strands(db: Db, agent: Principal, expected: Owner, target: Uuid, t: Turn, frames: seq<Frame>) {
    var claimed := Claim(db, agent, target, Some(expected), t.seen, t.token, t.at).result;
    && OwnerCheck(Some(expected), t.owned).Ok? && !t.drain
    && (|| (claimed.Ok? && !t.drainAfter
            && (|| t.ownerAfter.Down?
                || (t.ownerAfter.owner == Some(expected) && t.input.Ok? && t.ownerThen.Down?)))
        || (claimed == Err(Conflict) && t.ownerAfter.Down? && frames != []))
  }

  /** The world and the frames at the start of a turn. */
  datatype Hold = Hold(world: World, frames: seq<Frame>)

  /** Where a turn leads if the loop goes on after it. */
  ghost function GoOn(h: Hold, agent: Principal, expected: Owner, target: Uuid, t: Turn): Option<Hold> {
    var s := Claiming(agent, target, Some(expected), t.seen, t.token, t.at);
    var claimed := Claim(h.world.db, agent, target, Some(expected), t.seen, t.token, t.at).result;
    var ours := Up(Some(expected));
    if OwnerCheck(Some(expected), t.owned).Err? || t.drain then None
    else match claimed
      case Ok(lease) =>
        if !t.drainAfter && t.ownerAfter == ours && t.input.Ok? && t.ownerThen == ours
        then Some(Hold(Apply(h.world, s), h.frames + [Frame(t.request, lease)])) else None
      case Err(error) =>
        if error == Gone || (error == Conflict && t.ownerAfter == ours)
        then Some(Hold(Apply(h.world, s), h.frames)) else None
  }

  /** The turn ends the loop and the frames stay: a drain was seen, or the agent has no room for another lease. */
  ghost predicate Halts(h: Hold, agent: Principal, expected: Owner, target: Uuid, t: Turn) {
    var claimed := Claim(h.world.db, agent, target, Some(expected), t.seen, t.token, t.at).result;
    && OwnerCheck(Some(expected), t.owned).Ok?
    && (t.drain || (claimed.Ok? && t.drainAfter) || claimed == Err(TooManyRequests))
  }

  /** The error of a turn that neither goes on nor halts: the first complaint of the observations, in order. */
  ghost function Complaint(h: Hold, agent: Principal, expected: Owner, target: Uuid, t: Turn): DeliveryError {
    var claimed := Claim(h.world.db, agent, target, Some(expected), t.seen, t.token, t.at).result;
    if t.owned.Down? then Unavailable
    else if t.owned.owner != Some(expected) then Conflict
    else if claimed.Err? && claimed.error != Conflict then claimed.error
    else if t.ownerAfter.Down? then Unavailable
    else if t.ownerAfter.owner != Some(expected) then Conflict
    else if t.input.Err? then t.input.error
    else if t.ownerThen.Down? then Unavailable else Conflict
  }

  predicate Full(h: Hold, limit: nat) {
    |h.frames| >= limit || |h.frames| >= MAX_IN_FLIGHT
  }

  /** The world and the frames when the loop comes to turn `n`, if it does. */
  ghost function Reached(start: Hold, agent: Principal, expected: Owner, limit: nat, ids: seq<Uuid>, turns: seq<Turn>,
                         n: nat): Option<Hold>
    requires n <= |ids| == |turns|
  {
    if n == 0 then Some(start)
    else
      var prior := Reached(start, agent, expected, limit, ids, turns, n - 1);
      if prior.None? || Full(prior.value, limit) then None
      else GoOn(prior.value, agent, expected, ids[n - 1], turns[n - 1])
  }

  /** The loop ends at turn `n`, or after the last one, with these frames. */
  ghost predicate CollectsAt(start: Hold, agent: Principal, expected: Owner, limit: nat, ids: seq<Uuid>,
                             turns: seq<Turn>, frames: seq<Frame>, n: nat)
    requires n <= |ids| == |turns|
  {
    var h := Reached(start, agent, expected, limit, ids, turns, n);
    && h.Some? && h.value.frames == frames
    && (n == |ids| || Full(h.value, limit) || Halts(h.value, agent, expected, ids[n], turns[n]))
  }

  ghost predicate Collects(start: Hold, agent: Principal, expected: Owner, limit: nat, ids: seq<Uuid>,
                           turns: seq<Turn>, frames: seq<Frame>)
    requires |ids| == |turns|
  {
    exists n :: 0 <= n <= |ids| && CollectsAt(start, agent, expected, limit, ids, turns, frames, n)
  }

  /** Turn `n` takes place and leaves the call with this error. */
  ghost predicate QuitsAt(start: Hold, agent: Principal, expected: Owner, limit: nat, ids: seq<Uuid>,
                          turns: seq<Turn>, error: DeliveryError, n: nat)
    requires n < |ids| == |turns|
  {
    var h := Reached(start, agent, expected, limit, ids, turns, n);
    && h.Some? && !Full(h.value, limit) && GoOn(h.value, agent, expected, ids[n], turns[n]).None?
    && !Halts(h.value, agent, expected, ids[n], turns[n])
    && error == Complaint(h.value, agent, expected, ids[n], turns[n])
  }

  ghost predicate Quits(start: Hold, agent: Principal, expected: Owner, limit: nat, ids: seq<Uuid>,
                        turns: seq<Turn>, error: DeliveryError)
    requires |ids| == |turns|
  {
    exists n :: 0 <= n < |ids| && QuitsAt(start, agent, expected, limit, ids, turns, error, n)
  }

  /** Turn `n` takes place and strands leases. */
  ghost predicate StrandsAt(start: Hold, agent: Principal, expected: Owner, limit: nat, ids: seq<Uuid>,
                            turns: seq<Turn>, n: nat)
    requires n < |ids| == |turns|
  {
    var h := Reached(start, agent, expected, limit, ids, turns, n);
    && h.Some? && !Full(h.value, limit)
    && Strands(h.value.world.db, agent, expected, ids[n], turns[n], h.value.frames)
  }

  /** Some turn of the call strands leases. */
  ghost predicate CallStrands(start: Hold, agent: Principal, expected: Owner, limit: nat, ids: seq<Uuid>,
                              turns: seq<Turn>)
    requires |ids| == |turns|
  {
    exists n :: 0 <= n < |ids| && StrandsAt(start, agent, expected, limit, ids, turns, n)
  }

  /** A turn that is not reached is followed by none that is. */
  lemma {:induction false} NotReachedAfter(start: Hold, agent: Principal, expected: Owner, limit: nat, ids: seq<Uuid>,
                                           turns: seq<Turn>, n: nat, m: nat)
    requires n <= m <= |ids| == |turns| && Reached(start, agent, expected, limit, ids, turns, n).None?
    ensures Reached(start, agent, expected, limit, ids, turns, m).None?
    decreases m
  {
    hide GoOn;
    if n < m {
      NotReachedAfter(start, agent, expected, limit, ids, turns, n, m - 1);
    }
  }

  /** If the turns before `n` strand nothing and the loop does not come to `n`, the call strands nothing. */
  lemma EndsClean(start: Hold, agent: Principal, expected: Owner, limit: nat, ids: seq<Uuid>, turns: seq<Turn>, n: nat)
    requires n <= |ids| == |turns|
    requires n == |ids| || Reached(start, agent, expected, limit, ids, turns, n).None?
    requires forall k | 0 <= k < n :: !StrandsAt(start, agent, expected, limit, ids, turns, k)
    ensures !CallStrands(start, agent, expected, limit, ids, turns)
  {
    hide Reached, Strands;
    forall k | 0 <= k < |ids| ensures !StrandsAt(start, agent, expected, limit, ids, turns, k) {
      if k >= n { NotReachedAfter(start, agent, expected, limit, ids, turns, n, k); }
    }
  }

  /** What turn `n` decides: whether it strands, and whether the loop comes to the next. */
  lemma TurnDecides(start: Hold, agent: Principal, expected: Owner, limit: nat, ids: seq<Uuid>, turns: seq<Turn>,
                    n: nat, h: Hold)
    requires n < |ids| == |turns| && Reached(start, agent, expected, limit, ids, turns, n) == Some(h)
    ensures StrandsAt(start, agent, expected, limit, ids, turns, n)
       <==> !Full(h, limit) && Strands(h.world.db, agent, expected, ids[n], turns[n], h.frames)
    ensures Reached(start, agent, expected, limit, ids, turns, n + 1)
         == if Full(h, limit) then None else GoOn(h, agent, expected, ids[n], turns[n])
  {
    hide GoOn, Strands;
  }

  /** The loop ends at turn `n`. */
  lemma EndsAt(start: Hold, agent: Principal, expected: Owner, limit: nat, ids: seq<Uuid>, turns: seq<Turn>,
               n: nat, h: Hold)
    requires n <= |ids| == |turns| && Reached(start, agent, expected, limit, ids, turns, n) == Some(h)
    ensures n == |ids| || Full(h, limit) || Halts(h, agent, expected, ids[n], turns[n]) ==>
      Collects(start, agent, expected, limit, ids, turns, h.frames)
    ensures n < |ids| && !Full(h, limit) && GoOn(h, agent, expected, ids[n], turns[n]).None?
            && !Halts(h, agent, expected, ids[n], turns[n]) ==>
      Quits(start, agent, expected, limit, ids, turns, Complaint(h, agent, expected, ids[n], turns[n]))
  {
    hide GoOn, Halts, Full, Complaint, Reached;
    if n == |ids| || Full(h, limit) || Halts(h, agent, expected, ids[n], turns[n]) {
      assert CollectsAt(start, agent, expected, limit, ids, turns, h.frames, n);
    } else if GoOn(h, agent, expected, ids[n], turns[n]).None? {
      assert QuitsAt(start, agent, expected, limit, ids, turns, Complaint(h, agent, expected, ids[n], turns[n]), n);
    }
  }

  /** In every world of every run, a turn without a drain on a grantable delivery adds its frame. */
  lemma QuietTurnTakes(r: Run, i: nat, agent: Principal, expected: Owner, target: Uuid, t: Turn, frames: seq<Frame>)
    requires ValidRun(r) && i < |r.worlds| && ValidStamp(r.worlds[i].db.clock, t.at)
    requires Authenticated(r.worlds[i].db, agent)
    requires Grantable(r.worlds[i].db, agent, target, Some(expected), t.seen, t.at)
    requires var ours := Up(Some(expected)); t.owned == ours && t.ownerAfter == ours && t.ownerThen == ours
    requires !t.drain && !t.drainAfter && t.input.Ok?
    ensures var next := GoOn(Hold(r.worlds[i], frames), agent, expected, target, t);
      && next.Some? && |next.value.frames| == |frames| + 1 && frames <= next.value.frames
      && IsFrameOf(next.value.frames[|frames|], target, t)
  {
    hide Inv, DbOk, JobOk, Claim, Grantable, Apply;
    var db := r.worlds[i].db;
    RunInv(r, i);
    InvDb(r.worlds[i]);
    GrantableGranted(db, agent, target, Some(expected), t.seen, t.token, t.at);
    ClaimNames(db, agent, target, Some(expected), t.seen, t.token, t.at);
  }

  lemma GrantableGranted(db: Db, agent: Principal, id: Uuid, expected: Option<Owner>, seen: ClaimReads, token: Uuid,
                         at: Stamp)
    requires DbOk(db) && ValidStamp(db.clock, at) && Grantable(db, agent, id, expected, seen, at)
    requires Authenticated(db, agent)
    ensures Claim(db, agent, id, expected, seen, token, at).result.Ok?
  {
    hide Claim, JobsOk, Linked, EventsOk, GenerationsOk, QuotasOk, AgentsScoped, AgentsBounded, LeasesOf, LiveLeases;
    RowFacts(db, id);
    CountExactly(db, agent, at.read);
    GrantExactly(db, agent, id, expected, seen, token, at);
  }

  lemma ClaimNames(db: Db, agent: Principal, id: Uuid, expected: Option<Owner>, seen: ClaimReads, token: Uuid,
                   at: Stamp)
    requires Claim(db, agent, id, expected, seen, token, at).result.Ok?
    ensures var lease := Claim(db, agent, id, expected, seen, token, at).result.value;
      lease.delivery == id && lease.token == token
  {
    hide Leased, LiveLeases;
  }

  lemma FirstTurn(start: Hold, agent: Principal, expected: Owner, limit: nat, ids: seq<Uuid>, turns: seq<Turn>)
    requires |ids| == |turns|
    ensures Reached(start, agent, expected, limit, ids, turns, 0) == Some(start)
  {
  }

  lemma StrandsNow(start: Hold, agent: Principal, expected: Owner, limit: nat, ids: seq<Uuid>, turns: seq<Turn>, n: nat)
    requires n < |ids| == |turns| && StrandsAt(start, agent, expected, limit, ids, turns, n)
    ensures CallStrands(start, agent, expected, limit, ids, turns)
  {
  }

  lemma OrderedLater(start: Time, later: Time, stamps: seq<Stamp>)
    requires start <= later && Ordered(later, stamps)
    ensures Ordered(start, stamps)
  {
  }

  lemma ClaimEnabled(w: World, s: Step)
    requires s.Claiming? && ValidStamp(w.db.clock, s.at) && Authenticated(w.db, s.agent) && s.token !in w.used
    ensures Enabled(w, s) && Apply(w, s).used == w.used + {s.token}
    ensures Claim(w.db, s.agent, s.id, s.expected, s.seen, s.token, s.at).result.Ok? ==>
      Issues(w, s, Claim(w.db, s.agent, s.id, s.expected, s.seen, s.token, s.at).result.value)
  {
  }

  lemma DeliveriesSnoc(frames: seq<Frame>, f: Frame)
    ensures Deliveries(frames + [f]) == Deliveries(frames) + {f.lease.delivery}
  {
    var all := frames + [f];
    forall x ensures x in Deliveries(all) <==> x in Deliveries(frames) + {f.lease.delivery} {
      if x in Deliveries(frames) {
        var i :| 0 <= i < |frames| && frames[i].lease.delivery == x;
        assert all[i].lease.delivery == x;
      }
      if x == f.lease.delivery { assert all[|frames|].lease.delivery == x; }
    }
  }

  /** Frames of other deliveries are not disturbed by a change to one delivery. */
  lemma FramesKept(w: World, after: World, agent: Principal, frames: seq<Frame>, id: Uuid, token: Uuid)
    requires FramesHeld(w, agent, frames) && id !in Deliveries(frames)
    requires id in w.db.jobs && id in after.db.jobs && after.db.jobs == w.db.jobs[id := after.db.jobs[id]]
    requires w.unsent - {(id, token)} <= after.unsent
    ensures FramesHeld(after, agent, frames)
  {
    hide FrameHeld;
    forall i | 0 <= i < |frames| ensures FrameHeld(after, agent, frames[i]) {
      assert frames[i].lease.delivery in Deliveries(frames);
      OtherFramesHeld(w, after, agent, frames[i], id, token);
    }
  }

  lemma FramesHeldSnoc(w: World, agent: Principal, frames: seq<Frame>, f: Frame)
    requires FramesHeld(w, agent, frames) && FrameHeld(w, agent, f) && f.lease.delivery !in Deliveries(frames)
    ensures FramesHeld(w, agent, frames + [f])
  {
    hide FrameHeld;
    forall i | 0 <= i < |frames| ensures frames[i].lease.delivery != f.lease.delivery {
      assert frames[i].lease.delivery in Deliveries(frames);
    }
  }

  /** Every turn draws its own token and request id. */
  ghost predicate DistinctDraws(turns: seq<Turn>) {
    forall i, j | 0 <= i < j < |turns| :: turns[i].token != turns[j].token && turns[i].request != turns[j].request
  }

  /** The observations of a whole call: fresh distinct tokens and request ids, clock readings in order. */
  ghost predicate Scripted(w: World, ids: seq<Uuid>, turns: seq<Turn>, cleanup: seq<Stamp>) {
    && |turns| == |ids| && |cleanup| >= MAX_IN_FLIGHT && Ordered(w.db.clock, cleanup)
    && (forall i | 0 <= i < |ids| :: ids[i] in w.db.jobs)
    && (forall i, j | 0 <= i < j < |ids| :: ids[i] != ids[j])
    && (forall i | 0 <= i < |turns| :: turns[i].token !in w.used)
    && DistinctDraws(turns)
    && (forall i | 0 <= i < |turns| :: InTurn(w.db.clock, turns[i], cleanup))
    && (forall i, j | 0 <= i < j < |turns| :: turns[i].undo.write <= turns[j].at.read)
  }

  ghost function TokensOf(turns: seq<Turn>): set<Uuid> {
    set i | 0 <= i < |turns| :: turns[i].token
  }

  /** The frame was built by one of the first `n` turns. */
  ghost predicate Built(f: Frame, ids: seq<Uuid>, turns: seq<Turn>, n: nat)
    requires n <= |ids| == |turns|
  {
    exists k :: 0 <= k < n && IsFrameOf(f, ids[k], turns[k])
  }

  /** Frames built by turns among the first `n`, each with its own request id. */
  ghost predicate FromTurns(frames: seq<Frame>, ids: seq<Uuid>, turns: seq<Turn>, n: nat)
    requires n <= |ids| == |turns|
  {
    && (forall i | 0 <= i < |frames| :: Built(frames[i], ids, turns, n))
    && (forall i, j | 0 <= i < j < |frames| :: frames[i].request != frames[j].request)
  }

  lemma BuiltOnce(f: Frame, g: Frame, ids: seq<Uuid>, turns: seq<Turn>, n: nat)
    requires n < |ids| == |turns| && Built(f, ids, turns, n) && IsFrameOf(g, ids[n], turns[n])
    requires DistinctDraws(turns)
    ensures f.request != g.request
  {
  }

  lemma FromTurnsLater(frames: seq<Frame>, ids: seq<Uuid>, turns: seq<Turn>, n: nat, m: nat)
    requires n <= m <= |ids| == |turns| && FromTurns(frames, ids, turns, n)
    ensures FromTurns(frames, ids, turns, m)
  {
    forall i | 0 <= i < |frames| ensures Built(frames[i], ids, turns, m) {
      assert Built(frames[i], ids, turns, n);
    }
  }

  lemma FromTurnsSnoc(frames: seq<Frame>, f: Frame, ids: seq<Uuid>, turns: seq<Turn>, n: nat)
    requires n < |ids| == |turns| && FromTurns(frames, ids, turns, n) && IsFrameOf(f, ids[n], turns[n])
    requires DistinctDraws(turns)
    ensures FromTurns(frames + [f], ids, turns, n + 1)
  {
    FromTurnsLater(frames, ids, turns, n, n + 1);
    forall i | 0 <= i < |frames| ensures frames[i].request != f.request {
      BuiltOnce(frames[i], f, ids, turns, n);
    }
  }

  /** A later target has no frame yet. */
  lemma NotYetFramed(frames: seq<Frame>, ids: seq<Uuid>, turns: seq<Turn>, n: nat)
    requires n < |ids| == |turns| && FromTurns(frames, ids, turns, n)
    requires forall i, j | 0 <= i < j < |ids| :: ids[i] != ids[j]
    ensures ids[n] !in Deliveries(frames)
  {
    forall i | 0 <= i < |frames| ensures frames[i].lease.delivery != ids[n] {
      assert Built(frames[i], ids, turns, n);
    }
  }

  lemma FromTurnsGrow(frames: seq<Frame>, kept: seq<Frame>, ids: seq<Uuid>, turns: seq<Turn>, n: nat)
    requires n < |ids| == |turns| && FromTurns(frames, ids, turns, n)
    requires DistinctDraws(turns)
    requires kept == frames || exists f :: kept == frames + [f] && IsFrameOf(f, ids[n], turns[n])
    ensures FromTurns(kept, ids, turns, n + 1) && |kept| <= |frames| + 1
  {
    hide FromTurns, IsFrameOf;
    if kept == frames {
      FromTurnsLater(frames, ids, turns, n, n + 1);
    } else {
      var f :| kept == frames + [f] && IsFrameOf(f, ids[n], turns[n]);
      FromTurnsSnoc(frames, f, ids, turns, n);
    }
  }

  /** Nothing is held at the start of a call. */
  lemma NothingHeld(w: World, agent: Principal, ids: seq<Uuid>, turns: seq<Turn>)
    requires Inv(w) && |ids| == |turns| && forall i | 0 <= i < |turns| :: turns[i].token !in w.used
    ensures Holding(w, agent, [], TokensOf(turns)) && Deliveries([]) == {}
    ensures FromTurns([], ids, turns, 0) && FromTurns([], ids, turns, |ids|)
  {
    hide Inv;
    NoneLeft(w, TokensOf(turns));
  }

  lemma NoFrames(w: World, agent: Principal, ids: seq<Uuid>, turns: seq<Turn>)
    requires |ids| == |turns|
    ensures FramesHeld(w, agent, []) && Deliveries([]) == {} && FromTurns([], ids, turns, |ids|)
  {
  }

  /** Some presence read after a claim fails. */
  ghost predicate AnyDown(turns: seq<Turn>) {
    exists k :: 0 <= k < |turns| && (turns[k].ownerAfter.Down? || turns[k].ownerThen.Down?)
  }

  /** Leases are stranded only by a failed presence read after a claim. */
  lemma StrandsDown(start: Hold, agent: Principal, expected: Owner, limit: nat, ids: seq<Uuid>, turns: seq<Turn>)
    requires |ids| == |turns| && CallStrands(start, agent, expected, limit, ids, turns)
    ensures AnyDown(turns)
  {
    hide Claim, Reached;
    var n :| 0 <= n < |ids| && StrandsAt(start, agent, expected, limit, ids, turns, n);
  }

  /** A run that accepts one event: agent 3 of application 2 may work on it. */
  function OneEvent(): Run {
    var w0 := World(Db(0, map[3 := (1, 2)], map[6 := Endpoint(1, 2, Async)], map[], map[], map[]), map[], {}, {}, {});
    var accept := Accepting(SystemAdmin(0), EventInput(6, [], 0, true), "k", None, Accepted(5, 7), Stamp(0, 0, 0));
    Run([w0, Apply(w0, accept)], [accept])
  }

  lemma OneEventValid()
    ensures ValidRun(OneEvent()) && |OneEvent().worlds| == 2
    ensures var db := OneEvent().worlds[1].db;
      && db.agents == map[3 := (1, 2)] && 5 in db.events && db.events[5].expiresAt == RETENTION
      && db.jobs == map[7 := NewJob(5, db.events[5], 2, 1, Async, 0)] && db.jobs[7].row.workspace == 1
      && OneEvent().worlds[1].used == {5, 7} && db.clock == 0
  {
    var r := OneEvent();
    var w, s := r.worlds[0], r.steps[0];
    assert Utf8Length("k") == 1 by { assert "k"[1..] == ""; }
    assert ValidKey("k");
    assert !HasReceipt(w.db, 1, 2, "k");
    assert Accept(w.db, s.principal, s.input, s.key, s.prior, s.drawn, s.at).result.Ok?;
    assert Follows(r, 0);
  }

  /** Every granted claim whose next presence read fails is stranded, and stays leased. */
  lemma GrantStrands(w: World, agent: Principal, expected: Owner, target: Uuid, t: Turn)
    requires Inv(w) && ValidStamp(w.db.clock, t.at) && Authenticated(w.db, agent) && t.token !in w.used
    requires OwnerCheck(Some(expected), t.owned).Ok? && !t.drain && !t.drainAfter && t.ownerAfter.Down?
    requires Claim(w.db, agent, target, Some(expected), t.seen, t.token, t.at).result.Ok?
    ensures CallStrands(Hold(w, []), agent, expected, 1, [target], [t])
    ensures Left(Apply(w, Claiming(agent, target, Some(expected), t.seen, t.token, t.at)).db, {t.token}) == {target}
  {
    hide Inv, Claim, Apply, Enabled, Left;
    var s := Claiming(agent, target, Some(expected), t.seen, t.token, t.at);
    ClaimEnabled(w, s);
    GrantLeaves(w, s, Claim(w.db, agent, target, Some(expected), t.seen, t.token, t.at).result.value, t.request,
                {t.token});
    NoneLeft(w, {t.token});
    FirstTurn(Hold(w, []), agent, expected, 1, [target], [t]);
    TurnDecides(Hold(w, []), agent, expected, 1, [target], [t], 0, Hold(w, []));
    StrandsNow(Hold(w, []), agent, expected, 1, [target], [t], 0);
  }

  /** Stranding does happen: a run reaches a world in which a call strands its claim, and the lease stays behind. */
  lemma StrandingHappens(expected: Owner) returns (r: Run, agent: Principal, t: Turn)
    ensures ValidRun(r) && |r.worlds| == 2 && CallStrands(Hold(r.worlds[1], []), agent, expected, 1, [7], [t])
    ensures Left(Apply(r.worlds[1], Claiming(agent, 7, Some(expected), t.seen, t.token, t.at)).db, {t.token}) == {7}
  {
    hide OneEvent, Inv, Claim, ValidRun, CallStrands, Left, Apply, NewJob;
    r := OneEvent();
    agent := Principal.Agent(1, 2, 3, 4);
    var here := Up(Some(expected));
    t := Turn(here, false, ClaimReads(here, here, here), 8, Stamp(0, 0, 0), false, Down, Ok(()), Down, 9,
              Stamp(0, 0, 0));
    OneEventValid();
    RunInv(r, 1);
    FreshGrant(r.worlds[1].db, agent, expected, t);
    GrantStrands(r.worlds[1], agent, expected, 7, t);
  }

  lemma FreshGrant(db: Db, agent: Principal, expected: Owner, t: Turn)
    requires agent == Principal.Agent(1, 2, 3, 4) && 5 in db.events && db.events[5].expiresAt == RETENTION
    requires db.jobs == map[7 := NewJob(5, db.events[5], 2, 1, Async, 0)] && db.jobs[7].row.workspace == 1
    requires t.seen == ClaimReads(Up(Some(expected)), Up(Some(expected)), Up(Some(expected))) && t.at == Stamp(0, 0, 0)
    ensures Claim(db, agent, 7, Some(expected), t.seen, t.token, t.at).result.Ok?
  {
    assert LiveLeases(db, 1, 2, 3, 0) == {};
  }

  /** The clock readings of turn `n` and of the clean-up lie ahead. */
  lemma TurnReady(w: World, clock: Time, ids: seq<Uuid>, turns: seq<Turn>, cleanup: seq<Stamp>, n: nat)
    requires Scripted(w, ids, turns, cleanup) && n <= |turns|
    requires clock <= if n == 0 then w.db.clock else turns[n - 1].undo.write
    ensures Ordered(clock, cleanup) && (n < |turns| ==> InTurn(clock, turns[n], cleanup))
  {
    hide Ordered;
    if n > 0 {
      assert InTurn(w.db.clock, turns[n - 1], cleanup);
      OrderedLater(clock, turns[n - 1].undo.write, cleanup);
    } else {
      OrderedLater(clock, w.db.clock, cleanup);
    }
    if n < |turns| {
      assert InTurn(w.db.clock, turns[n], cleanup);
    }
  }

  /** How an acknowledgement (or negative acknowledgement) call ends. */
  datatype Confirmation = Confirmed | RemovedUnconfirmed | Lost

  lemma MessageStored(w: World, id: Uuid)
    requires Inv(w) && id in w.stream
    ensures id in w.db.jobs && w.db.jobs[id].row.event in w.db.events
  {
    hide DbOk, UsedOk, FramesOk;
    assert Streamed(w.db, w.stream, id);
  }

  /** What reconciling leaves, with or without the acknowledgement reaching the broker. */
  lemma AfterReconcile(w: World, id: Uuid, at: Stamp)
    requires Inv(w) && id in w.stream && ValidStamp(w.db.clock, at)
    ensures var quiet, gone := Apply(w, Reconciling(id, false, at)), Apply(w, Reconciling(id, true, at));
      && Inv(quiet) && Inv(gone) && quiet.stream == w.stream && id in quiet.db.jobs
      && (var a := Reconcile(w.db, id, at).result;
          && (a.Ok? ==> (a.value <==> Terminal(quiet.db.jobs[id].row.state)))
          && gone == if a == Ok(true) then quiet.(stream := w.stream - {id}) else quiet)
  {
    hide Inv, Reconcile, DbOk;
    StepKeepsInv(w, Reconciling(id, false, at));
    StepKeepsInv(w, Reconciling(id, true, at));
    InvDb(w);
    MessageStored(Apply(w, Reconciling(id, false, at)), id);
    if Reconcile(w.db, id, at).result.Ok? {
      ReconcileReportsTerminal(w.db, id, at);
    }
  }

  lemma InvDb(w: World)
    requires Inv(w)
    ensures DbOk(w.db)
  {
  }

  /** The stored delivery is the one the message names, on the subject it came by. */
  predicate Addressed(jobs: map<Uuid, Job>, notice: Uuid, event: Uuid, workspace: Uuid, app: Uuid) {
    notice in jobs && jobs[notice].row.event == event && jobs[notice].row.workspace == workspace
    && jobs[notice].row.target == app
  }

  /** Each gateway is notified once, at its first listing, and each of these notifications went out. */
  ghost predicate AllTold(owners: seq<Owner>, published: seq<bool>)
    requires |published| >= |owners|
  {
    forall n | 0 <= n < |owners| && (forall m | 0 <= m < n :: owners[m].gateway != owners[n].gateway) :: published[n]
  }

  /** The notification loop of `reconcile_message`: each gateway once, up to the first failure. */
  method Notify(owners: seq<Owner>, published: seq<bool>) returns (notified: seq<Uuid>, told: bool)
    requires |published| >= |owners|
    ensures forall i, j | 0 <= i < j < |notified| :: notified[i] != notified[j]
    ensures forall g | g in notified :: exists o :: o in owners && o.gateway == g
    ensures told <==> AllTold(owners, published)
    ensures told ==> forall o | o in owners :: o.gateway in notified
  {
    notified := [];
    var n := 0;
    while n < |owners|
      invariant 0 <= n <= |owners|
      invariant AllTold(owners[..n], published)
      invariant forall i, j | 0 <= i < j < |notified| :: notified[i] != notified[j]
      invariant forall g | g in notified :: exists m :: 0 <= m < n && owners[m].gateway == g
      invariant forall i | 0 <= i < n :: owners[i].gateway in notified
    {
      var gateway := owners[n].gateway;
      if gateway !in notified {
        if !published[n] {
          assert !AllTold(owners, published);
          return notified, false;
        }
        notified := notified + [gateway];
      }
      n := n + 1;
    }
    assert owners[..n] == owners;
    return notified, true;
  }

  class Gateway {
    const id: Uuid
    const store: Store
    /** The first drain signal, in milliseconds; shared by all clones and never withdrawn. */
    var shutdown: Option<int>

    constructor (id: Uuid, store: Store)
      ensures this.id == id && this.store == store && shutdown.None?
    {
      this.id, this.store, this.shutdown := id, store, None;
    }

    /** Deadlines are 1 to 30,000 ms; the first accepted signal wins. */
    method Drain(deadlineMs: int) returns (r: Result<(), DeliveryError>)
      modifies this
      ensures r == if 1 <= deadlineMs <= 30_000 then Ok(()) else Err(InvalidInput)
      ensures shutdown == if old(shutdown).None? && r.Ok? then Some(deadlineMs) else old(shutdown)
    {
      if deadlineMs < 1 || deadlineMs > 30_000 {
        return Err(InvalidInput);
      }
      if shutdown.None? {
        shutdown := Some(deadlineMs);
      }
      return Ok(());
    }

    method RollbackFrames(agent: Principal, frames: seq<Frame>, stamps: seq<Stamp>)
      returns (r: Result<(), DeliveryError>)
      requires Inv(store.World()) && FramesHeld(store.World(), agent, frames)
      requires |stamps| >= |frames| && (frames != [] ==> Ordered(store.clock, stamps))
      modifies store
      ensures Inv(store.World()) && r == Ok(())
      ensures Unwound(old(store.World()), store.World(), frames)
    {
      hide Inv, Apply, Enabled, Rollback, FramesHeld, Unwound, Undone;
      ghost var w := store.World();
      var n := 0;
      assert frames[0..] == frames;
      assert Unwound(w, w, frames[..0]) by { NothingUnwound(w); }
      while n < |frames|
        invariant 0 <= n <= |frames|
        invariant Inv(store.World()) && FramesHeld(store.World(), agent, frames[n..])
        invariant store.clock <= if n == 0 then w.db.clock else stamps[n - 1].write
        invariant Unwound(w, store.World(), frames[..n])
      {
        ghost var before := store.World();
        var f := frames[n];
        ghost var left := frames[n..];
        assert left[0] == f && left[1..] == frames[n + 1..];
        HeadHeld(before, agent, left);
        assert ValidStamp(store.clock, stamps[n]);
        RollbackSucceeds(before, agent, f, stamps[n]);
        r := store.RollbackClaim(agent, f.lease, stamps[n]);
        RestHeld(before, store.World(), agent, left, stamps[n]);
        assert f.lease.delivery !in Deliveries(frames[..n]) by { DistinctPrefix(w, agent, frames, n); }
        UnwoundMore(w, before, store.World(), frames[..n], f, stamps[n]);
        assert frames[..n + 1] == frames[..n] + [f];
        n := n + 1;
      }
      assert frames[..n] == frames;
      return Ok(());
    }

    /** Undo the claim just granted, keeping the frames already collected. */
    method UndoClaim(agent: Principal, f: Frame, at: Stamp, ghost frames: seq<Frame>, ghost tokens: set<Uuid>)
      requires Inv(store.World()) && FrameHeld(store.World(), agent, f) && FramesHeld(store.World(), agent, frames)
      requires f.lease.delivery !in Deliveries(frames) && ValidStamp(store.clock, at)
      requires Left(store.World().db, tokens) == Deliveries(frames) + {f.lease.delivery}
      modifies store
      ensures Holding(store.World(), agent, frames, tokens)
      ensures store.jobs.Keys == old(store.jobs.Keys) && store.used == old(store.used) && store.clock == at.write
    {
      hide Inv, Apply, Enabled, Rollback, FramesHeld, FrameHeld;
      ghost var w := store.World();
      RollbackSucceeds(w, agent, f, at);
      var r := store.RollbackClaim(agent, f.lease, at);
      FramesKept(w, store.World(), agent, frames, f.lease.delivery, f.lease.token);
      NothingUnwound(w);
      UnwoundMore(w, w, store.World(), [], f, at);
      UnwindLeaves(w, store.World(), agent, [] + [f], tokens);
      DeliveriesSnoc([], f);
      assert Deliveries(frames) + {f.lease.delivery} - {f.lease.delivery} == Deliveries(frames);
    }

    /** Undo every frame: nothing this call took stays leased. */
    method UndoAll(agent: Principal, frames: seq<Frame>, cleanup: seq<Stamp>, ghost tokens: set<Uuid>)
      requires Holding(store.World(), agent, frames, tokens)
      requires |cleanup| >= |frames| && Ordered(store.clock, cleanup)
      modifies store
      ensures Inv(store.World()) && Left(store.World().db, tokens) == {} && store.jobs.Keys == old(store.jobs.Keys)
      ensures store.used == old(store.used)
    {
      hide Inv, FramesHeld;
      ghost var w := store.World();
      var r := RollbackFrames(agent, frames, cleanup);
      UnwindLeaves(w, store.World(), agent, frames, tokens);
    }

    /** The loop body of `pending_inner` after its capacity test. */
    method ClaimTurn(agent: Principal, expected: Owner, target: Uuid, t: Turn, frames: seq<Frame>, cleanup: seq<Stamp>,
                     ghost tokens: set<Uuid>) returns (c: Control)
      requires Holding(store.World(), agent, frames, tokens) && |frames| < MAX_IN_FLIGHT
      requires agent.Agent? && Authenticated(store.World().db, agent) && InTurn(store.clock, t, cleanup)
      requires target in store.jobs && target !in Deliveries(frames) && t.token in tokens && t.token !in store.used
      modifies store
      ensures store.jobs.Keys == old(store.jobs.Keys) && store.used <= old(store.used) + {t.token}
      ensures !c.Quit? ==> Holding(store.World(), agent, c.frames, tokens) && store.clock <= t.undo.write
      ensures !c.Quit? ==> c.frames == frames || (exists f :: c.frames == frames + [f] && IsFrameOf(f, target, t))
      ensures c.Quit? ==> Inv(store.World()) && (c.stranded <==> Left(store.World().db, tokens) != {})
      ensures c.Quit? && c.stranded ==> c.error == Unavailable
      ensures c.Quit? && c.stranded <==> Strands(old(store.World().db), agent, expected, target, t, frames)
      ensures GoOn(Hold(old(store.World()), frames), agent, expected, target, t)
           == if c.Go? then Some(Hold(store.World(), c.frames)) else None
      ensures c.Halt? <==> Halts(Hold(old(store.World()), frames), agent, expected, target, t)
      ensures c.Halt? ==> c.frames == frames
      ensures c.Quit? ==> c.error == Complaint(Hold(old(store.World()), frames), agent, expected, target, t)
    {
      hide Inv, Enabled, Apply, Claim, FramesHeld, FrameHeld, Ordered;
      assert Ordered(t.undo.write, cleanup);
      OrderedLater(store.clock, t.undo.write, cleanup);
      var owned := OwnerCheck(Some(expected), t.owned);
      if owned.Err? {
        UndoAll(agent, frames, cleanup, tokens);
        return Quit(owned.error, false);
      }
      if t.drain {
        return Halt(frames);
      }
      ghost var w := store.World();
      ghost var s := Claiming(agent, target, Some(expected), t.seen, t.token, t.at);
      ClaimEnabled(w, s);
      ClaimTouches(w, s);
      var claimed := store.ClaimDeliveryOwned(agent, target, Some(expected), t.seen, t.token, t.at);
      ghost var after := store.World();
      match claimed {
        case Ok(lease) =>
          var f := Frame(t.request, lease);
          GrantLeaves(w, s, lease, t.request, tokens);
          FramesKept(w, after, agent, frames, target, t.token);
          if t.drainAfter {
            UndoClaim(agent, f, t.undo, frames, tokens);
            return Halt(frames);
          }
          if t.ownerAfter.Down? {
            return Quit(Unavailable, true);
          }
          if t.ownerAfter.owner != Some(expected) {
            UndoClaim(agent, f, t.undo, frames, tokens);
            UndoAll(agent, frames, cleanup, tokens);
            return Quit(Conflict, false);
          }
          if t.input.Err? {
            UndoClaim(agent, f, t.undo, frames, tokens);
            UndoAll(agent, frames, cleanup, tokens);
            return Quit(t.input.error, false);
          }
          if t.ownerThen.Down? {
            return Quit(Unavailable, true);
          }
          if t.ownerThen.owner != Some(expected) {
            UndoClaim(agent, f, t.undo, frames, tokens);
            UndoAll(agent, frames, cleanup, tokens);
            return Quit(Conflict, false);
          }
          FramesHeldSnoc(after, agent, frames, f);
          DeliveriesSnoc(frames, f);
          assert IsFrameOf(f, target, t);
          return Go(frames + [f]);
        case Err(error) =>
          RefusalLeaves(w, s, tokens);
          OrderedLater(store.clock, t.undo.write, cleanup);
          FramesKept(w, after, agent, frames, target, t.token);
          if error == Conflict {
            if t.ownerAfter.Down? {
              assert frames != [] ==> frames[0].lease.delivery in Deliveries(frames);
              return Quit(Unavailable, frames != []);
            }
            if t.ownerAfter.owner != Some(expected) {
              UndoAll(agent, frames, cleanup, tokens);
              return Quit(Conflict, false);
            }
            return Go(frames);
          }
          if error == Gone {
            return Go(frames);
          }
          if error == TooManyRequests {
            return Halt(frames);
          }
          UndoAll(agent, frames, cleanup, tokens);
          return Quit(error, false);
      }
    }

    /** The claim loop of `pending_inner`: it ends with the frames it holds or leaves the call. */
    method ClaimLoop(agent: Principal, expected: Owner, limit: nat, ids: seq<Uuid>, turns: seq<Turn>,
                     cleanup: seq<Stamp>)
      returns (c: Control)
      requires Inv(store.World()) && agent.Agent? && Authenticated(store.World().db, agent)
      requires Scripted(store.World(), ids, turns, cleanup)
      modifies store
      ensures store.jobs.Keys == old(store.jobs.Keys) && Inv(store.World())
      ensures !c.Quit? ==> Holding(store.World(), agent, c.frames, TokensOf(turns)) && Ordered(store.clock, cleanup)
      ensures !c.Quit? ==> |c.frames| <= limit && |c.frames| <= MAX_IN_FLIGHT && FromTurns(c.frames, ids, turns, |ids|)
      ensures c.Quit? ==> (c.stranded <==> Left(store.World().db, TokensOf(turns)) != {})
      ensures c.Quit? && c.stranded ==> c.error == Unavailable
      ensures c.Quit? && c.stranded <==> CallStrands(Hold(old(store.World()), []), agent, expected, limit, ids, turns)
      ensures if c.Quit? then Quits(Hold(old(store.World()), []), agent, expected, limit, ids, turns, c.error)
              else Collects(Hold(old(store.World()), []), agent, expected, limit, ids, turns, c.frames)
    {
      hide Inv, FramesHeld, FromTurns, Left, Strands, Ordered, InTurn, IsFrameOf, GoOn, CallStrands, Reached, StrandsAt,
          Halts, Complaint, Collects, Quits;
      ghost var w := store.World();
      ghost var tokens := TokensOf(turns);
      NothingHeld(w, agent, ids, turns);
      FirstTurn(Hold(w, []), agent, expected, limit, ids, turns);
      var frames: seq<Frame> := [];
      var n := 0;
      ghost var start := Hold(w, []);
      while n < |ids|
        invariant 0 <= n <= |ids|
        invariant Reached(start, agent, expected, limit, ids, turns, n) == Some(Hold(store.World(), frames))
        invariant forall k | 0 <= k < n :: !StrandsAt(start, agent, expected, limit, ids, turns, k)
        invariant Holding(store.World(), agent, frames, tokens) && store.jobs.Keys == w.db.jobs.Keys
        invariant |frames| <= limit && |frames| <= MAX_IN_FLIGHT && FromTurns(frames, ids, turns, n)
        invariant forall k | n <= k < |turns| :: turns[k].token !in store.used
        invariant store.clock <= if n == 0 then w.db.clock else turns[n - 1].undo.write
      {
        TurnReady(w, store.clock, ids, turns, cleanup, n);
        TurnDecides(start, agent, expected, limit, ids, turns, n, Hold(store.World(), frames));
        EndsAt(start, agent, expected, limit, ids, turns, n, Hold(store.World(), frames));
        if |frames| >= limit || |frames| >= MAX_IN_FLIGHT {
          FromTurnsLater(frames, ids, turns, n, |ids|);
          EndsClean(start, agent, expected, limit, ids, turns, n + 1);
          return Halt(frames);
        }
        assert turns[n].token in tokens;
        NotYetFramed(frames, ids, turns, n);
        c := ClaimTurn(agent, expected, ids[n], turns[n], frames, cleanup, tokens);
        if c.Quit? {
          if c.stranded {
            StrandsNow(start, agent, expected, limit, ids, turns, n);
          } else {
            EndsClean(start, agent, expected, limit, ids, turns, n + 1);
          }
          return;
        }
        FromTurnsGrow(frames, c.frames, ids, turns, n);
        if c.Halt? {
          FromTurnsLater(c.frames, ids, turns, n + 1, |ids|);
          TurnReady(w, store.clock, ids, turns, cleanup, n + 1);
          EndsClean(start, agent, expected, limit, ids, turns, n + 1);
          return;
        }
        frames := c.frames;
        n := n + 1;
      }
      TurnReady(w, store.clock, ids, turns, cleanup, n);
      EndsClean(start, agent, expected, limit, ids, turns, n);
      EndsAt(start, agent, expected, limit, ids, turns, n, Hold(store.World(), frames));
      return Halt(frames);
    }

    /**
     `ids` is the answer of the pending query. A returned batch is exactly what the call holds;
     every other exit leaves none of its leases behind, unless some turn strands them.
     */
    method PendingInner(agent: Principal, session: Uuid, limit: nat, first: PresenceReply, firstDrain: bool,
                        ids: seq<Uuid>, turns: seq<Turn>, last: PresenceReply, lastDrain: bool, cleanup: seq<Stamp>)
      returns (r: Result<seq<Frame>, DeliveryError>, stranded: bool)
      requires Inv(store.World()) && agent.Agent? && Authenticated(store.World().db, agent)
      requires Scripted(store.World(), ids, turns, cleanup)
      modifies store
      ensures Inv(store.World()) && store.jobs.Keys == old(store.jobs.Keys)
      ensures r.Ok? ==> |r.value| <= limit && |r.value| <= MAX_IN_FLIGHT && !stranded
      ensures r.Ok? ==> FramesHeld(store.World(), agent, r.value) && FromTurns(r.value, ids, turns, |ids|)
      ensures r.Ok? ==> Left(store.World().db, TokensOf(turns)) == Deliveries(r.value)
      ensures r.Ok? && (firstDrain || lastDrain) ==> r.value == []
      ensures r.Ok? && r.value != [] ==> Ordered(store.clock, cleanup)
      ensures r.Ok? ==> OwnerCheck(Some(Owner(id, session)), first).Ok?
      ensures r.Ok? && !firstDrain ==> OwnerCheck(Some(Owner(id, session)), last).Ok?
      ensures r.Err? ==> (stranded <==> Left(store.World().db, TokensOf(turns)) != {})
      ensures stranded ==> r == Err(Unavailable)
      ensures stranded
         <==> OwnerCheck(Some(Owner(id, session)), first).Ok? && !firstDrain
              && CallStrands(Hold(old(store.World()), []), agent, Owner(id, session), limit, ids, turns)
      ensures r.Ok? && !firstDrain && !lastDrain ==>
        Collects(Hold(old(store.World()), []), agent, Owner(id, session), limit, ids, turns, r.value)
      ensures OwnerCheck(Some(Owner(id, session)), first).Err? ==>
        r == Err(OwnerCheck(Some(Owner(id, session)), first).error)
      ensures OwnerCheck(Some(Owner(id, session)), first).Ok? && r.Err? ==>
        && !firstDrain
        && (|| Quits(Hold(old(store.World()), []), agent, Owner(id, session), limit, ids, turns, r.error)
            || (&& OwnerCheck(Some(Owner(id, session)), last) == Err(r.error)
                && exists frames ::
                    Collects(Hold(old(store.World()), []), agent, Owner(id, session), limit, ids, turns, frames)))
    {
      hide Inv, FramesHeld, FromTurns, Left, Ordered, CallStrands, Collects, Quits;
      var expected := Owner(id, session);
      ghost var tokens := TokensOf(turns);
      NothingHeld(store.World(), agent, ids, turns);
      var owned := OwnerCheck(Some(expected), first);
      if owned.Err? {
        return Err(owned.error), false;
      }
      if firstDrain {
        return Ok([]), false;
      }
      var c := ClaimLoop(agent, expected, limit, ids, turns, cleanup);
      if c.Quit? {
        return Err(c.error), c.stranded;
      }
      var frames := c.frames;
      owned := OwnerCheck(Some(expected), last);
      if owned.Err? {
        UndoAll(agent, frames, cleanup, tokens);
        return Err(owned.error), false;
      }
      if lastDrain {
        UndoAll(agent, frames, cleanup, tokens);
        frames := [];
        NoFrames(store.World(), agent, ids, turns);
      }
      return Ok(frames), false;
    }

    /**
     One broker message for delivery `notice` and event `event`, received on the subject of
     (`workspace`, `app`). `ack` is how the acknowledgement ends when it is attempted: confirmed,
     or failed with or without having removed the message. `owners` is the answer of the
     presence index and `published` the outcome of each notification.
     */
    method ReconcileMessage(notice: Uuid, event: Uuid, workspace: Uuid, app: Uuid, at: Stamp, ack: Confirmation,
                            owners: Result<seq<Owner>, DeliveryError>, published: seq<bool>, flushed: bool)
      returns (r: Result<bool, DeliveryError>, notified: seq<Uuid>)
      requires Inv(store.World()) && notice in store.stream && ValidStamp(store.clock, at)
      requires owners.Ok? ==> |published| >= |owners.value|
      modifies store
      ensures Inv(store.World()) && notice in store.jobs
      ensures forall i, j | 0 <= i < j < |notified| :: notified[i] != notified[j]
      ensures forall g | g in notified :: owners.Ok? && exists o :: o in owners.value && o.gateway == g
      ensures r == Ok(false) ==> owners.Ok? && forall o | o in owners.value :: o.gateway in notified
      ensures r == Ok(false) ==> notice in store.stream && !Terminal(store.jobs[notice].row.state)
      ensures r == Ok(true) ==> notified == [] && notice !in store.stream && Terminal(store.jobs[notice].row.state)
      ensures notice !in store.stream ==> Terminal(store.jobs[notice].row.state)
      ensures !Addressed(old(store.jobs), notice, event, workspace, app) ==>
        r == Err(Forbidden) && notified == [] && store.World() == old(store.World())
      ensures Addressed(old(store.jobs), notice, event, workspace, app) ==>
        && store.World() == Apply(old(store.World()), Reconciling(notice, ack != Lost, at))
        && var done := Reconcile(old(store.World()).db, notice, at).result;
        && (done.Err? ==> r == Err(done.error))
        && (done == Ok(true) ==> r == if ack == Confirmed then Ok(true) else Err(Unavailable))
        && (done == Ok(false) && owners.Err? ==> r == Err(owners.error))
        && (done == Ok(false) && owners.Ok? ==>
              r == if AllTold(owners.value, published) && flushed && ack == Confirmed then Ok(false)
                   else Err(Unavailable))
    {
      hide Inv, Apply, Reconcile;
      notified := [];
      ghost var w := store.World();
      MessageStored(w, notice);
      var row := store.jobs[notice].row;
      if row.event != event || row.workspace != workspace || row.target != app {
        return Err(Forbidden), [];
      }
      r := store.ReconcileDelivery(notice, at);
      AfterReconcile(w, notice, at);
      if r.Err? {
        return;
      }
      if r.value {
        if ack != Lost {
          store.stream := store.stream - {notice};
        }
        if ack != Confirmed {
          r := Err(Unavailable);
        }
        return;
      }
      if owners.Err? {
        return Err(owners.error), [];
      }
      var told;
      notified, told := Notify(owners.value, published);
      if !told || !flushed {
        return Err(Unavailable), notified;
      }
      return if ack == Confirmed then Ok(false) else Err(Unavailable), notified;
    }
  }
}
