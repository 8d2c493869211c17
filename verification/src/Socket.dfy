/**
 One agent socket of rust/src/gateway.rs: the table of outstanding requests, the periodic scan
 that claims and sends work, and the frames the agent sends back.
 */
module Sockets {
  import opened Protocol
  import Sets
  import opened Tables
  import opened Transactions
  import opened Ledger
  import opened Invariant
  import opened Steps
  import opened Runs
  import opened Theorems
  import opened Stores
  import opened Gateways

  /**
   How handing a frame to the sink ended: accepted; refused because of a drain; or failed, in
   which case `reached` tells whether the peer may have received it.
   */
  datatype Sent = Admitted | Refused | Failed(error: DeliveryError, reached: bool)

  ghost function Pairs(frames: seq<Frame>): set<(Uuid, Uuid)> {
    set i | 0 <= i < |frames| :: (frames[i].lease.delivery, frames[i].lease.token)
  }

  /** The world after the sink accepted the frames. */
  ghost function Flown(w: World, frames: seq<Frame>): World {
    w.(unsent := w.unsent - Pairs(frames), admitted := w.admitted + Pairs(frames))
  }

  /** The index at which a batch stops going out, if any. */
  function StopAt(expected: Owner, owned: seq<PresenceReply>, sends: seq<Sent>, n: nat): (k: nat)
    requires n <= |owned| && n <= |sends|
    ensures k <= n
    ensures forall i | 0 <= i < k :: OwnerCheck(Some(expected), owned[i]).Ok? && sends[i] == Admitted
    ensures k < n ==> OwnerCheck(Some(expected), owned[k]).Err? || sends[k] != Admitted
  {
    if n == 0 then 0
    else
      var k := StopAt(expected, owned, sends, n - 1);
      if k < n - 1 || OwnerCheck(Some(expected), owned[n - 1]).Err? || sends[n - 1] != Admitted then k else n
  }

  /** The stop index is the only one with that description. */
  lemma StopUnique(expected: Owner, owned: seq<PresenceReply>, sends: seq<Sent>, n: nat, k: nat)
    requires k <= n <= |owned| && n <= |sends|
    requires forall i | 0 <= i < k :: OwnerCheck(Some(expected), owned[i]).Ok? && sends[i] == Admitted
    requires k < n ==> OwnerCheck(Some(expected), owned[k]).Err? || sends[k] != Admitted
    ensures k == StopAt(expected, owned, sends, n)
  {
  }

  /** The table after the frames are added in order. */
  function Enlisted(outstanding: map<Uuid, DeliveryLease>, frames: seq<Frame>): map<Uuid, DeliveryLease> {
    if frames == [] then outstanding
    else
      var last := frames[|frames| - 1];
      Enlisted(outstanding, frames[..|frames| - 1])[last.request := last.lease]
  }

  lemma {:induction false} EnlistedSize(outstanding: map<Uuid, DeliveryLease>, frames: seq<Frame>)
    ensures |Enlisted(outstanding, frames)| <= |outstanding| + |frames|
    ensures forall r | r in Enlisted(outstanding, frames) ::
              (r in outstanding && Enlisted(outstanding, frames)[r] == outstanding[r])
              || exists i :: 0 <= i < |frames| && frames[i].request == r
                  && frames[i].lease == Enlisted(outstanding, frames)[r]
  {
    if frames != [] {
      var front, last := frames[..|frames| - 1], frames[|frames| - 1];
      EnlistedSize(outstanding, front);
      forall r | r in Enlisted(outstanding, frames)
        ensures (r in outstanding && Enlisted(outstanding, frames)[r] == outstanding[r])
                || exists i :: 0 <= i < |frames| && frames[i].request == r
                    && frames[i].lease == Enlisted(outstanding, frames)[r]
      {
        if r == last.request {
          assert frames[|frames| - 1].request == r;
        } else if !(r in outstanding && Enlisted(outstanding, front)[r] == outstanding[r]) {
          var i :| 0 <= i < |front| && front[i].request == r && front[i].lease == Enlisted(outstanding, front)[r];
          assert frames[i] == front[i];
        }
      }
    }
  }

  lemma FlownSnoc(w: World, frames: seq<Frame>, f: Frame)
    requires (f.lease.delivery, f.lease.token) in w.unsent - Pairs(frames)
    ensures Apply(Flown(w, frames), Sending(f.lease.delivery, f.lease.token)) == Flown(w, frames + [f])
  {
    var all := frames + [f];
    forall p ensures p in Pairs(all) <==> p in Pairs(frames) || p == (f.lease.delivery, f.lease.token) {
      if p in Pairs(frames) {
        var i :| 0 <= i < |frames| && p == (frames[i].lease.delivery, frames[i].lease.token);
        assert all[i] == frames[i];
      }
      if p == (f.lease.delivery, f.lease.token) { assert all[|frames|] == f; }
    }
  }

  lemma FlownNone(w: World)
    ensures Flown(w, []) == w
  {
    assert Pairs([]) == {};
  }

  lemma FlownOnly(w: World, frames: seq<Frame>)
    ensures Flown(w, frames).db == w.db && Flown(w, frames).unsent == w.unsent - Pairs(frames)
  {
  }

  lemma EnlistedNone(outstanding: map<Uuid, DeliveryLease>)
    ensures Enlisted(outstanding, []) == outstanding
  {
  }

  lemma EnlistedSnoc(outstanding: map<Uuid, DeliveryLease>, frames: seq<Frame>, f: Frame)
    ensures Enlisted(outstanding, frames + [f]) == Enlisted(outstanding, frames)[f.request := f.lease]
  {
    assert (frames + [f])[..|frames|] == frames;
  }

  /**
   How a batch ends. Up to the stop index everything went out. From there on the claims are
   undone, sparing a frame whose sending failed: the peer may have it.
   */
  ghost predicate Dispatched(w: World, after: World, expected: Owner, frames: seq<Frame>, owned: seq<PresenceReply>,
                             sends: seq<Sent>, r: Result<(), DeliveryError>)
    requires |frames| <= |owned| && |frames| <= |sends|
  {
    var k := StopAt(expected, owned, sends, |frames|);
    if k == |frames| then
      r == Ok(()) && after == Flown(w, frames)
    else
      var ours := OwnerCheck(Some(expected), owned[k]);
      if ours.Err? || sends[k].Refused? then
        r == ours && Unwound(Flown(w, frames[..k]), after, frames[k..])
      else
        && r == Err(sends[k].error)
        && Unwound(Flown(w, frames[..if sends[k].reached then k + 1 else k]), after, frames[k + 1..])
  }

  /** Sending the first held frame keeps the invariant and leaves the later frames held. */
  lemma SendHead(w: World, agent: Principal, frames: seq<Frame>)
    requires Inv(w) && frames != [] && FramesHeld(w, agent, frames)
    ensures (frames[0].lease.delivery, frames[0].lease.token) in w.unsent
    ensures Inv(Apply(w, Sending(frames[0].lease.delivery, frames[0].lease.token)))
    ensures FramesHeld(Apply(w, Sending(frames[0].lease.delivery, frames[0].lease.token)), agent, frames[1..])
  {
    hide Inv, DbOk;
    HeadHeld(w, agent, frames);
    StepKeepsInv(w, Sending(frames[0].lease.delivery, frames[0].lease.token));
  }

  // ---- what a scan leaves behind -----------------------------------------------------------

  /** Deliveries the session waits for. */
  ghost function Tracked(outstanding: map<Uuid, DeliveryLease>): set<Uuid> {
    set q | q in outstanding :: outstanding[q].delivery
  }

  lemma {:induction false} EnlistedAll(outstanding: map<Uuid, DeliveryLease>, frames: seq<Frame>)
    requires forall i, j | 0 <= i < j < |frames| :: frames[i].request != frames[j].request
    ensures forall i | 0 <= i < |frames| ::
              frames[i].request in Enlisted(outstanding, frames)
              && Enlisted(outstanding, frames)[frames[i].request] == frames[i].lease
  {
    if frames != [] {
      var front := frames[..|frames| - 1];
      assert forall i | 0 <= i < |front| :: front[i] == frames[i];
      EnlistedAll(outstanding, front);
    }
  }

  lemma EnlistedTracked(outstanding: map<Uuid, DeliveryLease>, frames: seq<Frame>)
    requires forall i, j | 0 <= i < j < |frames| :: frames[i].request != frames[j].request
    ensures Deliveries(frames) <= Tracked(Enlisted(outstanding, frames))
  {
    EnlistedAll(outstanding, frames);
  }

  lemma DeliveriesSplit(frames: seq<Frame>, n: nat)
    requires n <= |frames| && Distinct(frames)
    ensures Deliveries(frames) - Deliveries(frames[n..]) == Deliveries(frames[..n])
  {
    var front, back := frames[..n], frames[n..];
    assert forall i | 0 <= i < n :: front[i] == frames[i];
    assert forall i | n <= i < |frames| :: back[i - n] == frames[i];
    forall x ensures x in Deliveries(front) <==> x in Deliveries(frames) && x !in Deliveries(back) {
    }
  }

  /** The frame whose sending failed, if the batch ended that way. */
  ghost function Doubtful(expected: Owner, frames: seq<Frame>, owned: seq<PresenceReply>, sends: seq<Sent>): set<Uuid>
    requires |frames| <= |owned| && |frames| <= |sends|
  {
    var k := StopAt(expected, owned, sends, |frames|);
    if k < |frames| && OwnerCheck(Some(expected), owned[k]).Ok? && sends[k].Failed? then {frames[k].lease.delivery}
        else {}
  }

  /** After a batch, exactly the sent frames and a doubtful one remain leased. */
  lemma DispatchLeaves(w: World, after: World, agent: Principal, expected: Owner, frames: seq<Frame>,
                       owned: seq<PresenceReply>, sends: seq<Sent>, r: Result<(), DeliveryError>, tokens: set<Uuid>)
    requires |frames| <= |owned| && |frames| <= |sends| && Distinct(frames)
    requires Dispatched(w, after, expected, frames, owned, sends, r) && Left(w.db, tokens) == Deliveries(frames)
    ensures Left(after.db, tokens)
         == Deliveries(frames[..StopAt(expected, owned, sends, |frames|)]) + Doubtful(expected, frames, owned, sends)
    ensures r.Ok? ==> Doubtful(expected, frames, owned, sends) == {}
  {
    hide Unwound, Left, Distinct;
    var k := StopAt(expected, owned, sends, |frames|);
    if k == |frames| {
      assert frames[..k] == frames;
    } else if OwnerCheck(Some(expected), owned[k]).Err? || sends[k].Refused? {
      UnwindLeaves(Flown(w, frames[..k]), after, agent, frames[k..], tokens);
      DeliveriesSplit(frames, k);
    } else {
      var m := if sends[k].reached then k + 1 else k;
      UnwindLeaves(Flown(w, frames[..m]), after, agent, frames[k + 1..], tokens);
      DeliveriesSplit(frames, k + 1);
      assert frames[..k + 1] == frames[..k] + [frames[k]];
      DeliveriesSnoc(frames[..k], frames[k]);
    }
  }

  /** What the caller of a batch is told. */
  function Told(expected: Owner, frames: seq<Frame>, owned: seq<PresenceReply>, sends: seq<Sent>)
    : Result<(), DeliveryError>
    requires |frames| <= |owned| && |frames| <= |sends|
  {
    var k := StopAt(expected, owned, sends, |frames|);
    if k == |frames| then Ok(())
    else if OwnerCheck(Some(expected), owned[k]).Ok? && sends[k].Failed? then Err(sends[k].error)
    else OwnerCheck(Some(expected), owned[k])
  }

  lemma DispatchedAs(w: World, after: World, expected: Owner, frames: seq<Frame>, owned: seq<PresenceReply>,
                     sends: seq<Sent>, r: Result<(), DeliveryError>)
    requires |frames| <= |owned| && |frames| <= |sends|
    requires Dispatched(w, after, expected, frames, owned, sends, r)
    ensures r == Told(expected, frames, owned, sends)
  {
    hide Unwound, Flown;
  }

  /** A delivery is in flight under the token and its lease has not run out. */
  predicate LiveToken(jobs: map<Uuid, Job>, token: Uuid, now: Time) {
    exists id | id in jobs ::
      && jobs[id].row.state == InFlight && jobs[id].row.token == Some(token)
      && jobs[id].row.leaseUntil.Some? && jobs[id].row.leaseUntil.value > now
  }

  function Retained(outstanding: map<Uuid, DeliveryLease>, jobs: map<Uuid, Job>, now: Time): map<Uuid, DeliveryLease> {
    map q | q in outstanding && LiveToken(jobs, outstanding[q].token, now) :: outstanding[q]
  }

  /** Dropping dead requests drops none whose lease the agent could still settle. */
  lemma SettleableRetained(outstanding: map<Uuid, DeliveryLease>, db: Db, agent: Principal, q: Uuid, now: Time,
                           at: Stamp)
    requires q in outstanding && Settleable(db, agent, outstanding[q], at) && now <= at.write
    ensures q in Retained(outstanding, db.jobs, now) && Retained(outstanding, db.jobs, now)[q] == outstanding[q]
  {
    assert db.jobs[outstanding[q].delivery].row.token == Some(outstanding[q].token);
  }

  /** In every run, a request that is dropped can never be settled again. */
  lemma DroppedIsDead(r: Run, i: nat, outstanding: map<Uuid, DeliveryLease>, agent: Principal, q: Uuid, at: Stamp)
    requires ValidRun(r) && i < |r.worlds| && ValidStamp(r.worlds[i].db.clock, at)
    requires q in outstanding && q !in Retained(outstanding, r.worlds[i].db.jobs, r.worlds[i].db.clock)
    ensures Settle(r.worlds[i].db, agent, outstanding[q], true, at).result.Err?
  {
    hide Retained, Settle, Settleable, Inv, DbOk;
    var db := r.worlds[i].db;
    RunInv(r, i);
    InvDb(r.worlds[i]);
    RowFacts(db, outstanding[q].delivery);
    SettleExactly(db, agent, outstanding[q], true, at);
    if Settleable(db, agent, outstanding[q], at) {
      SettleableRetained(outstanding, db, agent, q, db.clock, at);
    }
  }

  /** How many more requests the session has room for. */
  function Spare(capacity: nat, outstanding: map<Uuid, DeliveryLease>, jobs: map<Uuid, Job>, now: Time): (n: nat)
    ensures |outstanding| <= capacity ==> n + |Retained(outstanding, jobs, now)| == capacity
  {
    RetainedSize(outstanding, jobs, now);
    var kept := |Retained(outstanding, jobs, now)|;
    if kept <= capacity then capacity - kept else 0
  }

  lemma RetainedSize(outstanding: map<Uuid, DeliveryLease>, jobs: map<Uuid, Job>, now: Time)
    ensures |Retained(outstanding, jobs, now)| <= |outstanding|
  {
    var kept := Retained(outstanding, jobs, now);
    assert |kept| == |kept.Keys| && |outstanding| == |outstanding.Keys|;
    Sets.SubsetCard(kept.Keys, outstanding.Keys);
  }

  predicate Names(lease: DeliveryLease, event: Uuid, delivery: Uuid, token: Uuid) {
    lease.event == event && lease.delivery == delivery && lease.token == token
  }

  lemma SettleSucceeds(w: World, agent: Principal, lease: DeliveryLease, at: Stamp)
    requires Inv(w) && ValidStamp(w.db.clock, at)
    ensures Settle(w.db, agent, lease, true, at).result.Ok? ==>
      var after := Apply(w, Settling(agent, lease, true, at)).db;
      lease.delivery in after.jobs && after.jobs[lease.delivery].row.state == Succeeded
  {
    hide DbOk, StreamOk, UsedOk, FramesOk;
    RowFacts(w.db, lease.delivery);
  }

  lemma DistinctHeld(w: World, agent: Principal, frames: seq<Frame>)
    requires FramesHeld(w, agent, frames)
    ensures Distinct(frames)
  {
  }

  lemma SentTracked(outstanding: map<Uuid, DeliveryLease>, frames: seq<Frame>, ids: seq<Uuid>, turns: seq<Turn>, k: nat)
    requires |ids| == |turns| && FromTurns(frames, ids, turns, |ids|) && k <= |frames|
    ensures Deliveries(frames[..k]) <= Tracked(Enlisted(outstanding, frames[..k]))
  {
    EnlistedTracked(outstanding, frames[..k]);
  }

  /** An empty batch changes nothing. */
  lemma EmptyBatch(w: World, agent: Principal, ids: seq<Uuid>, turns: seq<Turn>, cleanup: seq<Stamp>,
                   outstanding: map<Uuid, DeliveryLease>)
    requires Inv(w) && Scripted(w, ids, turns, cleanup)
    ensures FromTurns([], ids, turns, |ids|) && Enlisted(outstanding, []) == outstanding
    ensures Left(w.db, TokensOf(turns)) == {} && |ids| == |turns| && |cleanup| >= MAX_IN_FLIGHT
  {
    hide Inv;
    NothingHeld(w, agent, ids, turns);
  }

  class Session {
    const gateway: Gateway
    const agent: Principal
    const sid: Uuid
    const maxInFlight: nat
    var outstanding: map<Uuid, DeliveryLease>
    var draining: bool

    constructor (gateway: Gateway, agent: Principal, sid: Uuid, maxInFlight: nat)
      requires agent.Agent? && 1 <= maxInFlight <= MAX_IN_FLIGHT
      ensures this.gateway == gateway && this.agent == agent && this.sid == sid && this.maxInFlight == maxInFlight
      ensures Valid() && outstanding == map[] && !draining
    {
      this.gateway, this.agent, this.sid, this.maxInFlight := gateway, agent, sid, maxInFlight;
      outstanding, draining := map[], false;
    }

    /** The advertised capacity is never exceeded. */
    ghost predicate Valid()
      reads this
    {
      agent.Agent? && 1 <= maxInFlight <= MAX_IN_FLIGHT && |outstanding| <= maxInFlight
    }

    /** Send a claimed batch frame by frame; what does not go out is undone, what may have gone out is not. */
    method SendFrames(frames: seq<Frame>, owned: seq<PresenceReply>, sends: seq<Sent>, cleanup: seq<Stamp>)
      returns (r: Result<(), DeliveryError>)
      requires Valid() && Inv(gateway.store.World()) && FramesHeld(gateway.store.World(), agent, frames)
      requires |frames| <= |owned| && |frames| <= |sends| && |frames| <= |cleanup|
      requires frames != [] ==> Ordered(gateway.store.clock, cleanup)
      requires |outstanding| + |frames| <= maxInFlight
      modifies this`outstanding, gateway.store
      ensures Valid() && Inv(gateway.store.World())
      ensures outstanding == Enlisted(old(outstanding),
                                      frames[..StopAt(Owner(gateway.id, sid), owned, sends, |frames|)])
      ensures Dispatched(old(gateway.store.World()), gateway.store.World(), Owner(gateway.id, sid), frames, owned,
                         sends, r)
    {
      hide Inv, FramesHeld, Unwound, Apply, Ordered, Flown, OwnerCheck, StopAt, Enlisted, Enabled, Pairs;
      var expected := Owner(gateway.id, sid);
      ghost var w := gateway.store.World();
      var n := 0;
      assert frames[0..] == frames && frames[..0] == [];
      FlownNone(w);
      EnlistedNone(outstanding);
      while n < |frames|
        invariant 0 <= n <= |frames|
        invariant Inv(gateway.store.World()) && FramesHeld(gateway.store.World(), agent, frames[n..])
        invariant gateway.store.World() == Flown(w, frames[..n])
        invariant outstanding == Enlisted(old(outstanding), frames[..n])
        invariant forall i | 0 <= i < n :: OwnerCheck(Some(expected), owned[i]).Ok? && sends[i] == Admitted
      {
        EnlistedSize(old(outstanding), frames[..n]);
        FlownOnly(w, frames[..n]);
        var f := frames[n];
        ghost var left := frames[n..];
        assert left[0] == f && left[1..] == frames[n + 1..] && frames[..n + 1] == frames[..n] + [f];
        var ours := OwnerCheck(Some(expected), owned[n]);
        if ours.Err? {
          StopUnique(expected, owned, sends, |frames|, n);
          var undone := gateway.RollbackFrames(agent, frames[n..], cleanup);
          return ours;
        }
        SendHead(gateway.store.World(), agent, left);
        match sends[n] {
          case Admitted =>
            FlownSnoc(w, frames[..n], f);
            gateway.store.FrameAccepted(f.lease.delivery, f.lease.token);
            EnlistedSnoc(old(outstanding), frames[..n], f);
            outstanding := outstanding[f.request := f.lease];
          case Refused =>
            StopUnique(expected, owned, sends, |frames|, n);
            var undone := gateway.RollbackFrames(agent, frames[n..], cleanup);
            return ours;
          case Failed(error, reached) =>
            StopUnique(expected, owned, sends, |frames|, n);
            if reached {
              FlownSnoc(w, frames[..n], f);
              gateway.store.FrameAccepted(f.lease.delivery, f.lease.token);
            } else {
              RestStillHeld(gateway.store.World(), agent, left);
            }
            var undone := gateway.RollbackFrames(agent, frames[n + 1..], cleanup);
            return Err(error);
        }
        n := n + 1;
      }
      assert frames[..n] == frames;
      EnlistedSize(old(outstanding), frames);
      StopUnique(expected, owned, sends, |frames|, n);
      return Ok(());
    }

    /**
     The scan tick. `drained` tells that a drain arrived while the claims were under way: they
     are then finished and undone instead of sent.
     */
    method Scan(now: Time, ours: PresenceReply, first: PresenceReply, firstDrain: bool, ids: seq<Uuid>,
                turns: seq<Turn>, last: PresenceReply, lastDrain: bool, cleanup: seq<Stamp>, drained: bool,
                owned: seq<PresenceReply>, sends: seq<Sent>)
      returns (r: Result<(), DeliveryError>, stranded: bool, ghost batch: seq<Frame>)
      requires Valid() && Inv(gateway.store.World()) && Authenticated(gateway.store.World().db, agent)
      requires Scripted(gateway.store.World(), ids, turns, cleanup)
      requires |owned| >= MAX_IN_FLIGHT && |sends| >= MAX_IN_FLIGHT
      modifies this, gateway.store
      ensures Valid() && Inv(gateway.store.World()) && |batch| <= MAX_IN_FLIGHT
      ensures OwnerCheck(Some(Owner(gateway.id, sid)), ours).Err? ==>
        && r.Err? && outstanding == old(outstanding) && gateway.store.World() == old(gateway.store.World())
      ensures OwnerCheck(Some(Owner(gateway.id, sid)), ours).Ok? ==>
        && outstanding == Enlisted(Retained(old(outstanding), old(gateway.store.jobs), now),
                                   batch[..StopAt(Owner(gateway.id, sid), owned, sends, |batch|)])
        && |Retained(old(outstanding), old(gateway.store.jobs), now)| + |batch| <= maxInFlight
        && FromTurns(batch, ids, turns, |ids|)
        && (!stranded ==>
              Left(gateway.store.World().db, TokensOf(turns))
              <= Tracked(outstanding) + Doubtful(Owner(gateway.id, sid), batch, owned, sends))
        && (!stranded && r.Ok? ==> Left(gateway.store.World().db, TokensOf(turns)) <= Tracked(outstanding))
        && (!stranded && (old(draining) || drained) ==> Left(gateway.store.World().db, TokensOf(turns)) == {})
      ensures stranded
         <==> && OwnerCheck(Some(Owner(gateway.id, sid)), ours).Ok? && !old(draining)
              && OwnerCheck(Some(Owner(gateway.id, sid)), first).Ok? && !firstDrain
              && CallStrands(Hold(old(gateway.store.World()), []), agent, Owner(gateway.id, sid),
                             Spare(maxInFlight, old(outstanding), old(gateway.store.jobs), now), ids, turns)
      ensures stranded ==> drained || r == Err(Unavailable)
      ensures && OwnerCheck(Some(Owner(gateway.id, sid)), ours).Ok? && !old(draining) && !drained
              && !firstDrain && !lastDrain && (r.Ok? || batch != []) ==>
        Collects(Hold(old(gateway.store.World()), []), agent, Owner(gateway.id, sid),
                 Spare(maxInFlight, old(outstanding), old(gateway.store.jobs), now), ids, turns, batch)
      ensures batch != [] ==> r == Told(Owner(gateway.id, sid), batch, owned, sends)
      ensures old(draining) || drained ==> batch == []
      ensures draining <==> old(draining) || (drained && OwnerCheck(Some(Owner(gateway.id, sid)), ours).Ok?)
    {
      hide Inv, FramesHeld, FromTurns, Left, Ordered, Dispatched, Retained, Enlisted, StopAt, Authenticated, Scripted,
          CallStrands, Collects, Quits, Told;
      ghost var tokens := TokensOf(turns);
      batch, stranded := [], false;
      EmptyBatch(gateway.store.World(), agent, ids, turns, cleanup, outstanding);
      var expected := Owner(gateway.id, sid);
      var check := OwnerCheck(Some(expected), ours);
      if check.Err? {
        return check, false, [];
      }
      RetainedSize(outstanding, gateway.store.jobs, now);
      outstanding := Retained(outstanding, gateway.store.jobs, now);
      EmptyBatch(gateway.store.World(), agent, ids, turns, cleanup, outstanding);
      if draining {
        return check, false, [];
      }
      var limit := maxInFlight - |outstanding|;
      var claimed, behind :=
        gateway.PendingInner(agent, sid, limit, first, firstDrain, ids, turns, last, lastDrain, cleanup);
      stranded := behind;
      if drained {
        draining := true;
        if claimed.Ok? {
          ghost var held := gateway.store.World();
          var undone := gateway.RollbackFrames(agent, claimed.value, cleanup);
          UnwindLeaves(held, gateway.store.World(), agent, claimed.value, tokens);
        }
        return Ok(()), stranded, [];
      }
      if claimed.Err? {
        return Err(claimed.error), stranded, [];
      }
      batch := claimed.value;
      ghost var held := gateway.store.World();
      ghost var kept := outstanding;
      r := SendFrames(claimed.value, owned, sends, cleanup);
      DistinctHeld(held, agent, batch);
      DispatchedAs(held, gateway.store.World(), expected, batch, owned, sends, r);
      DispatchLeaves(held, gateway.store.World(), agent, expected, batch, owned, sends, r, tokens);
      SentTracked(kept, batch, ids, turns, StopAt(expected, owned, sends, |batch|));
    }

    /**
     An Ack frame, or a Response frame when `answer` is given. `bound` tells whether a response
     service is attached to the gateway.
     */
    method Receive(ours: PresenceReply, request: Uuid, event: Uuid, delivery: Uuid, token: Uuid,
                   answer: Option<Bytes>, bound: bool, at: Stamp, later: Stamp)
      returns (r: Result<(), DeliveryError>)
      requires Valid() && Inv(gateway.store.World())
      requires ValidStamp(gateway.store.clock, at) && ValidStamp(at.write, later)
      modifies this`outstanding, gateway.store
      ensures Valid() && Inv(gateway.store.World())
      ensures outstanding == if r.Ok? then old(outstanding) - {request} else old(outstanding)
      ensures r.Ok? ==>
        && request in old(outstanding) && Names(old(outstanding)[request], event, delivery, token)
        && delivery in gateway.store.jobs && gateway.store.jobs[delivery].row.state == Succeeded
        && (answer.Some? ==> gateway.store.jobs[delivery].response.result == answer)
      ensures OwnerCheck(Some(Owner(gateway.id, sid)), ours).Err?
              || request !in old(outstanding) || !Names(old(outstanding)[request], event, delivery, token) ==>
        r.Err? && gateway.store.World() == old(gateway.store.World())
      ensures OwnerCheck(Some(Owner(gateway.id, sid)), ours).Ok? && answer.None? && request in old(outstanding)
              && Names(old(outstanding)[request], event, delivery, token) ==>
        && gateway.store.World()
           == Apply(old(gateway.store.World()), Settling(agent, old(outstanding)[request], true, at))
        && r == Settle(old(gateway.store.World()).db, agent, old(outstanding)[request], true, at).result
      ensures OwnerCheck(Some(Owner(gateway.id, sid)), ours).Err? ==>
        r == OwnerCheck(Some(Owner(gateway.id, sid)), ours)
      ensures OwnerCheck(Some(Owner(gateway.id, sid)), ours).Ok?
              && (request !in old(outstanding) || !Names(old(outstanding)[request], event, delivery, token)) ==>
        r == Err(Conflict)
      ensures OwnerCheck(Some(Owner(gateway.id, sid)), ours).Ok? && answer.Some? && request in old(outstanding)
              && Names(old(outstanding)[request], event, delivery, token) ==>
        var staged := Stage(old(gateway.store.World()).db, agent, old(outstanding)[request], answer.value, at);
        r == if !bound then Err(InvalidInput) else if staged.result.Err? then staged.result
             else Settle(staged.db, agent, old(outstanding)[request], true, later).result
    {
      hide Inv, Apply, Settle, Stage, OwnerCheck;
      var check := OwnerCheck(Some(Owner(gateway.id, sid)), ours);
      if check.Err? {
        return check;
      }
      if request !in outstanding {
        return Err(Conflict);
      }
      var lease := outstanding[request];
      if lease.event != event || lease.delivery != delivery || lease.token != token {
        return Err(Conflict);
      }
      if answer.Some? {
        if !bound {
          return Err(InvalidInput);
        }
        ghost var trace;
        r, trace := gateway.store.CompleteResponse(agent, lease, answer.value, at, later);
      } else {
        ghost var w := gateway.store.World();
        r := gateway.store.SettleDelivery(agent, lease, true, at);
        SettleSucceeds(w, agent, lease, at);
      }
      if r.Ok? {
        Sets.SubsetCard((outstanding - {request}).Keys, outstanding.Keys);
        assert |outstanding| == |outstanding.Keys|;
        outstanding := outstanding - {request};
        assert |outstanding| == |outstanding.Keys|;
      }
    }

    /** A Heartbeat frame; `beat` is the answer of the presence heartbeat. */
    method HeartbeatFrame(ours: PresenceReply, beat: Result<(), DeliveryError>, lease: Option<DeliveryLease>, at: Stamp)
      returns (r: Result<(), DeliveryError>)
      requires Valid() && Inv(gateway.store.World()) && ValidStamp(gateway.store.clock, at)
      modifies gateway.store
      ensures Inv(gateway.store.World())
      ensures OwnerCheck(Some(Owner(gateway.id, sid)), ours).Err? || beat.Err?
              || lease.None? || lease.value !in outstanding.Values ==>
        gateway.store.World() == old(gateway.store.World())
        && (r.Ok? <==> OwnerCheck(Some(Owner(gateway.id, sid)), ours).Ok? && beat.Ok? && lease.None?)
      ensures (&& OwnerCheck(Some(Owner(gateway.id, sid)), ours).Ok? && beat.Ok? && lease.Some?
               && lease.value in outstanding.Values) ==>
        gateway.store.World() == Apply(old(gateway.store.World()), Beating(agent, lease.value, at))
        && r == Heartbeat(old(gateway.store.World()).db, agent, lease.value, at).result
    {
      hide Inv, Apply, Heartbeat, OwnerCheck;
      var check := OwnerCheck(Some(Owner(gateway.id, sid)), ours);
      if check.Err? {
        return check;
      }
      if beat.Err? || lease.None? {
        return beat;
      }
      if lease.value !in outstanding.Values {
        return Err(Conflict);
      }
      r := gateway.store.HeartbeatLease(agent, lease.value, at);
    }
  }

  lemma RestStillHeld(w: World, agent: Principal, frames: seq<Frame>)
    requires frames != [] && FramesHeld(w, agent, frames)
    ensures FramesHeld(w, agent, frames[1..])
  {
    hide FrameHeld;
  }
}
