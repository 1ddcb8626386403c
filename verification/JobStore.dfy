/** The durable job store as the worker and the API use it: one method per store function of
    internal/store/lifecycle_jobs.go, each one atomic statement or transaction under one
    clock; and the claim handler, which sends several of them. */
module JobStore {
  import opened Wrappers
  import opened Backoff
  import opened WireCheck
  import opened JobTable
  import opened WorkerPlan

  datatype ClaimReply = Accepted(id: JobId) | Conflict | NotFound | ServerError

  class Store {
    var rows: seq<Job>
    var timeline: seq<JobEvent>
    var outbox: seq<OutboxEvent>
    var now: Time

    constructor (start: Time)
      ensures Contents() == Db([], [], []) && now == start
    {
      rows, timeline, outbox := [], [], [];
      now := start;
    }

    function Contents(): Db
      reads this
    {
      Db(rows, timeline, outbox)
    }

    /** Time spent outside the store. */
    method Advance(d: nat)
      modifies this`now
      ensures now == old(now) + d
    {
      now := now + d;
    }

    // ----- single-row statements; fail: the database refuses the statement -----

    method UpdateLifecycleStatus(id: JobId, u: StatusUpdate, fail: bool) returns (ok: bool)
      modifies this`rows
      ensures ok <==> !fail && id < |old(rows)|
      ensures Contents() == if fail then old(Contents()) else Apply(old(Contents()), UpdateStatus(id, u))
    {
      ok := !fail && id < |rows|;
      if ok {
        var r := rows[id];
        if u.status.Some? {
          r := r.(status := u.status.value);
        }
        if u.reason.Some? {
          r := r.(failureReason := u.reason);
        }
        if u.observed.Some? {
          r := r.(observed := u.observed);
        }
        if u.successor.Some? {
          r := r.(successor := u.successor);
        }
        if u.clearLease {
          r := r.(leaseOwner := None, leaseExpires := None);
        }
        rows := rows[id := r];
      }
    }

    method SetLifecycleAapRef(id: JobId, aap: int, wf: bool, status: Status, fail: bool) returns (ok: bool)
      modifies this`rows
      ensures ok <==> !fail && id < |old(rows)|
      ensures Contents() == if fail then old(Contents()) else Apply(old(Contents()), SetAapRef(id, aap, wf, status))
    {
      ok := !fail && id < |rows|;
      if ok {
        rows := rows[id := rows[id].(aapId := Some(aap), workflow := wf, status := status)];
      }
    }

    method ScheduleNextVerify(id: JobId, attempt: nat, next: Time, fail: bool) returns (ok: bool)
      modifies this`rows
      ensures ok <==> !fail && id < |old(rows)|
      ensures Contents() == if fail then old(Contents()) else Apply(old(Contents()), ScheduleNext(id, attempt, next))
    {
      ok := !fail && id < |rows|;
      if ok {
        rows := rows[id := rows[id].(status := PendingVerify, attempt := attempt, nextVerify := Some(next),
                                     leaseOwner := None, leaseExpires := None)];
      }
    }

    method AppendLifecycleJobEvent(id: JobId, entry: TimelineType, fail: bool)
      modifies this`timeline
      ensures Contents() == if fail then old(Contents()) else Apply(old(Contents()), LogJob(id, entry))
    {
      if !fail {
        timeline := timeline + [JobEvent(id, entry)];
      }
    }

    method AppendRenewalOutboxEvent(id: JobId, event: OutboxType, cert: Option<CertId>, fail: bool)
      modifies this`outbox
      ensures Contents() == if fail then old(Contents()) else Apply(old(Contents()), Emit(id, event, cert))
    {
      if !fail {
        outbox := outbox + [OutboxEvent(id, event, cert)];
      }
    }

    // ----- inserts -----

    method GetByIdempotency(key: IdemKey) returns (r: Option<JobId>)
      ensures r == FindKey(rows, key, |rows|)
    {
      r := None;
      for i := 0 to |rows|
        invariant r == FindKey(rows, key, i)
      {
        if r.None? && rows[i].key == key {
          r := Some(i);
        }
      }
    }

    /** The insert transactions of the four launch and enqueue paths; None is the idempotency
        conflict. */
    method InsertJob(n: NewJob) returns (id: Option<JobId>)
      modifies this`rows, this`timeline, this`outbox
      ensures Contents() == Insert(old(Contents()), n, now)
      ensures id == if FindKey(old(rows), KeyOf(n), |old(rows)|).Some? then None else Some(|old(rows)|)
    {
      var existing := GetByIdempotency(KeyOf(n));
      if existing.Some? {
        return None;
      }
      id := Some(|rows|);
      timeline := timeline + TimelineOf(n, |rows|);
      outbox := outbox + OutboxOf(n, |rows|);
      rows := rows + [RowOf(n, now)];
    }

    // ----- claims -----

    method ClaimLifecycleJobs(owner: string, ttl: int, limit: nat) returns (batch: seq<WorkerPlan.Claimed>)
      modifies this`rows
      ensures var ids := ClaimBatch(old(rows), now, limit);
              && rows == LeaseRows(old(rows), ids, owner, now + ttl)
              && batch == Snapshots(rows, ids, false)
    {
      var ids := [];
      for i := 0 to |rows|
        invariant ids == ClaimIds(rows, now, limit, i)
      {
        if |ids| < limit && Claimable(rows[i], now) {
          ids := ids + [i];
        }
      }
      assert ids == ClaimBatch(rows, now, limit);
      Lease(ids, owner, now + ttl);
      batch := Snapshots(rows, ids, false);
    }

    method ClaimDueVerifyJobs(tickNow: Time, ttl: int, limit: nat) returns (batch: seq<WorkerPlan.Claimed>)
      modifies this`rows
      ensures var ids := DueBatch(old(rows), tickNow, limit);
              && rows == LeaseRows(old(rows), ids, "verify-worker", tickNow + ttl)
              && batch == Snapshots(rows, ids, true)
    {
      var ids := [];
      for k := 0 to limit
        invariant ids == DueIds(rows, tickNow, k)
      {
        var best: Option<JobId> := None;
        for i := 0 to |rows|
          invariant best == MostOverdue(rows, tickNow, ids, i)
        {
          if Due(rows[i], tickNow) && i !in ids
             && (best.None? || rows[i].nextVerify.value < rows[best.value].nextVerify.value) {
            best := Some(i);
          }
        }
        if best.Some? {
          ids := ids + [best.value];
        }
      }
      assert ids == DueBatch(rows, tickNow, limit);
      Lease(ids, "verify-worker", tickNow + ttl);
      batch := Snapshots(rows, ids, true);
    }

    method Lease(ids: seq<JobId>, owner: string, expires: Time)
      modifies this`rows
      ensures rows == LeaseRows(old(rows), ids, owner, expires)
    {
      for i := 0 to |rows|
        invariant |rows| == |old(rows)|
        invariant forall k :: 0 <= k < i ==> rows[k] == LeaseRows(old(rows), ids, owner, expires)[k]
        invariant forall k :: i <= k < |rows| ==> rows[k] == old(rows)[k]
      {
        if i in ids {
          rows := rows[i := rows[i].(leaseOwner := Some(owner), leaseExpires := Some(expires))];
        }
      }
    }

    // ----- the sweep -----

    method ExpireTimedOutVerifyJobs(tickNow: Time) returns (expired: seq<JobId>)
      modifies this`rows
      ensures rows == ExpireRows(old(rows), tickNow)
      ensures expired == ExpiredIds(old(rows), tickNow, |old(rows)|)
    {
      expired := [];
      for i := 0 to |rows|
        invariant |rows| == |old(rows)|
        invariant expired == ExpiredIds(old(rows), tickNow, i)
        invariant forall k :: 0 <= k < i ==> rows[k] == ExpireRows(old(rows), tickNow)[k]
        invariant forall k :: i <= k < |rows| ==> rows[k] == old(rows)[k]
      {
        if Overdue(rows[i], tickNow) {
          rows := rows[i := Expire(rows[i])];
          expired := expired + [i];
        }
      }
    }
  }

  /** One call of handleClaimLifecycleJob: a method per statement, between which anything may
      happen to the table, and Handle for the order in which the code sends them. */
  class ClaimHandler {
    const store: Store
    var call: Call

    /** The look; fail: it could not be read, and the handler goes on without it. */
    constructor (store: Store, key: IdemKey, aap: int, fail: bool)
      ensures this.store == store && call == Look(store.Contents(), key, aap, !fail)
    {
      var f := store.GetByIdempotency(key);
      this.store := store;
      var first := !fail && f.Some? && store.rows[f.value].aapId.None?;
      call := Call(key, aap, first, Looked);
    }

    /** The SELECT of ClaimByIdempotency. */
    method Select(fail: bool) returns (reply: Option<ClaimReply>)
      requires call.phase.Looked?
      modifies this
      ensures call == CallAfter(store.Contents(), old(call), if fail then GiveUp else SelectRow)
      ensures reply.None? <==> call.phase.Writing? || call.phase.Announcing?
      ensures var f := FindKey(store.rows, call.key, |store.rows|);
              match reply
              case None => f.Some? && (store.rows[f.value].aapId.None? || (call.first && store.rows[f.value].aapId == Some(call.aap)))
              case Some(ServerError) => fail
              case Some(NotFound) => f.None?
              case Some(Conflict) => f.Some? && store.rows[f.value].aapId.Some? && store.rows[f.value].aapId.value != call.aap
              case Some(Accepted(id)) => f == Some(id) && store.rows[id].aapId == Some(call.aap) && !call.first
    {
      if fail {
        call := call.(phase := Over);
        return Some(ServerError);
      }
      var f := store.GetByIdempotency(call.key);
      if f.None? {
        call := call.(phase := Over);
        return Some(NotFound);
      }
      var job := store.rows[f.value];
      if job.aapId.None? {
        call := call.(phase := Writing(f.value, job.workflow));
        return None;
      }
      if job.aapId.value != call.aap {
        call := call.(phase := Over);
        return Some(Conflict);
      }
      if !call.first {
        call := call.(phase := Over);
        return Some(ClaimReply.Accepted(f.value));
      }
      call := call.(phase := Announcing(f.value, job.predecessor));
      reply := None;
    }

    /** The UPDATE by row id. */
    method Update(fail: bool)
      requires call.phase.Writing? && call.phase.id < |store.rows|
      modifies this, store`rows
      ensures call == CallAfter(old(store.Contents()), old(call), if fail then GiveUp else UpdateRow)
      ensures store.Contents() == DbAfter(old(store.Contents()), old(call), if fail then GiveUp else UpdateRow)
    {
      var ok := store.SetLifecycleAapRef(call.phase.id, call.aap, call.phase.wf, AapPending, fail);
      call := call.(phase := if ok then Recorded(call.phase.id) else Over);
    }

    /** The SELECT by row id. */
    method Reread(fail: bool)
      requires call.phase.Recorded? && call.phase.id < |store.rows|
      modifies this
      ensures call == CallAfter(store.Contents(), old(call), if fail then GiveUp else ReadBack)
    {
      if fail || !call.first {
        call := call.(phase := Over);
      } else {
        call := call.(phase := Announcing(call.phase.id, store.rows[call.phase.id].predecessor));
      }
    }

    /** The event, whose failure is ignored. */
    method Append(fail: bool)
      requires call.phase.Announcing?
      modifies this, store`outbox
      ensures call == CallAfter(old(store.Contents()), old(call), if fail then GiveUp else Announce)
      ensures store.Contents() == DbAfter(old(store.Contents()), old(call), if fail then GiveUp else Announce)
    {
      store.AppendRenewalOutboxEvent(call.phase.id, RenewalLaunched, call.phase.cert, fail);
      call := call.(phase := Over);
    }

    /** The rest of the handler while nobody else touches the table; fails are the statements
        that do not succeed. An accepted claim leaves its id in the row, and its event in the
        outbox if the look found no id. */
    method Handle(fails: set<Move>) returns (reply: ClaimReply)
      requires call.phase.Looked?
      modifies this, store`rows, store`outbox
      ensures call.phase.Over?
      ensures fails == {} ==> store.Contents() == ClaimAlone(old(store.Contents()), old(call))
      ensures reply.Conflict? || reply.NotFound? ==> store.Contents() == old(store.Contents())
      ensures reply.Accepted? ==>
                && FindKey(old(store.rows), old(call).key, |old(store.rows)|) == Some(reply.id)
                && |store.rows| == |old(store.rows)| && store.rows[reply.id].aapId == Some(old(call).aap)
                && store.rows == (if old(store.rows)[reply.id].aapId.Some? then old(store.rows)
                                  else old(store.rows)[reply.id := old(store.rows)[reply.id].(aapId := Some(old(call).aap), status := AapPending)])
                && store.outbox == old(store.outbox) + if old(call).first && Announce !in fails
                                                       then [OutboxEvent(reply.id, RenewalLaunched, store.rows[reply.id].predecessor)] else []
      ensures reply.ServerError? ==> store.outbox == old(store.outbox)
    {
      var early := Select(SelectRow in fails);
      if early.Some? {
        return early.value;
      }
      if call.phase.Announcing? {
        reply := ClaimReply.Accepted(call.phase.id);
        Append(Announce in fails);
        return;
      }
      var id := call.phase.id;
      Update(UpdateRow in fails);
      if call.phase.Over? {
        return ServerError;
      }
      Reread(ReadBack in fails);
      if ReadBack in fails {
        return ServerError;
      }
      if call.phase.Announcing? {
        Append(Announce in fails);
      }
      reply := ClaimReply.Accepted(id);
    }
  }
}
