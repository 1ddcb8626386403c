/** What every run of the job protocol keeps, whatever the API does between the worker's
    statements, whichever of them fail, and wherever the worker crashes. */
module JobInvariants {
  import opened Wrappers
  import opened Backoff
  import opened WireCheck
  import opened JobTable
  import opened WorkerPlan
  import opened JobMachine
  import AapClient

  // ----- rows -----

  /** Only six of the statuses the schema admits are ever stored. */
  predicate Stored(s: Status) {
    s.Launching? || s.AapPending? || s.PendingVerify? || Terminal(s)
  }

  ghost predicate RowOk(r: Job, now: Time) {
    && Stored(r.status)
    && (r.status.Launching? ==> r.aapId.None?)
    && (r.status.AapPending? ==> r.aapId.Some?)
    && (r.status.PendingVerify? ==> r.nextVerify.Some?)
    && ZERO_TIME < r.created <= now && r.created < r.timeoutAt
    && (r.attempt >= 1 ==> Elapsed(r.attempt) < r.timeoutAt - r.created)
    && (r.status.PendingVerify? ==> OnSchedule(r, r.attempt, r.nextVerify.value))
  }

  /** The probe is pinned to the deadline or respects the backoff since creation. */
  ghost predicate OnSchedule(r: Job, attempt: nat, next: Time) {
    next >= r.timeoutAt || next >= r.created + Elapsed(attempt + 1)
  }

  ghost predicate RowsOk(db: Db, now: Time) {
    forall j :: 0 <= j < |db.rows| ==> RowOk(db.rows[j], now)
  }

  /** Events are about jobs that exist. */
  ghost predicate EventsInRange(db: Db) {
    forall e :: e in db.outbox ==> e.job < |db.rows|
  }

  // ----- statements that are safe to send -----

  /** Statements that log something. */
  predicate IsEvent(w: Write) {
    w.LogJob? || w.Emit?
  }

  ghost predicate AllEvents(ws: seq<Write>) {
    forall k :: 0 <= k < |ws| ==> IsEvent(ws[k])
  }

  /** Statements that leave the stage of a job alone. */
  predicate IsNeutral(w: Write) {
    IsEvent(w) || (w.UpdateStatus? && w.u.status.None?)
  }

  ghost predicate AllNeutral(ws: seq<Write>, rows: nat) {
    forall k :: 0 <= k < |ws| ==> IsNeutral(ws[k]) && ws[k].id < rows
  }

  ghost predicate WriteOk(db: Db, w: Write) {
    w.id < |db.rows| &&
    var r := db.rows[w.id];
    match w
    case UpdateStatus(_, u) => u.status.Some? ==> !Terminal(r.status) && Terminal(u.status.value)
    case SetAapRef(_, _, _, st) => st.AapPending? && (r.status.Launching? || r.status.AapPending?)
    case ScheduleNext(_, a, next) =>
      && (r.status.AapPending? || r.status.PendingVerify?)
      && (r.status.PendingVerify? ==>
            a == r.attempt + 1 && r.nextVerify.Some? && r.nextVerify.value < next <= r.timeoutAt)
      && (a >= 1 ==> Elapsed(a) < r.timeoutAt - r.created)
      && OnSchedule(r, a, next)
    case _ => true
  }

  /** Every statement is safe whichever of those before it failed; an outcome is followed by
      events only. */
  ghost predicate PendingOk(db: Db, ws: seq<Write>)
    decreases |ws|
  {
    ws == []
    || (&& WriteOk(db, ws[0])
        && PendingOk(Apply(db, ws[0]), ws[1..])
        && PendingOk(db, AfterLoss(ws))
        && (SetsOutcome(ws[0]) ==> AllEvents(ws[1..])))
  }

  lemma SafeWriteKeeps(db: Db, now: Time, w: Write)
    requires RowsOk(db, now) && EventsInRange(db) && WriteOk(db, w)
    ensures RowsOk(Apply(db, w), now) && EventsInRange(Apply(db, w))
  {
  }

  // ----- what the API may do behind the worker's back -----

  ghost predicate RowDrift(r: Job, r': Job) {
    && r' == r.(predecessor := r'.predecessor, successor := r'.successor, aapId := r'.aapId,
                workflow := r'.workflow, status := r'.status)
    && (r.aapId.Some? ==> r'.aapId.Some?)
    && (r'.status == r.status
        || (!Terminal(r.status) && r'.status.AapPending? && r'.aapId.Some?))
  }

  ghost predicate Drift(db: Db, db': Db) {
    && |db.rows| <= |db'.rows|
    && (forall j :: 0 <= j < |db.rows| ==> RowDrift(db.rows[j], db'.rows[j]))
  }

  lemma DriftUnderWrite(db: Db, db': Db, w: Write)
    requires Drift(db, db') && WriteOk(db, w)
    ensures WriteOk(db', w) && Drift(Apply(db, w), Apply(db', w))
  {
  }

  lemma {:induction false} DriftUnderPending(db: Db, db': Db, ws: seq<Write>)
    requires Drift(db, db') && PendingOk(db, ws)
    ensures PendingOk(db', ws)
    decreases |ws|
  {
    if ws != [] {
      DriftUnderWrite(db, db', ws[0]);
      DriftUnderPending(Apply(db, ws[0]), Apply(db', ws[0]), ws[1..]);
      DriftUnderPending(db, db', AfterLoss(ws));
    }
  }

  lemma NewRowOk(n: NewJob, now: Time)
    requires 0 < now
    requires (n.MigrateLaunched? || n.MigratePending?) ==> n.next == ZERO_TIME || n.next >= now
    ensures RowOk(RowOf(n, now), now) && !Terminal(RowOf(n, now).status)
  {
  }

  lemma InsertDrifts(db: Db, n: NewJob, now: Time)
    requires RowsOk(db, now) && EventsInRange(db) && 0 < now
    requires (n.MigrateLaunched? || n.MigratePending?) ==> n.next == ZERO_TIME || n.next >= now
    ensures var db' := Insert(db, n, now); RowsOk(db', now) && EventsInRange(db') && Drift(db, db')
  {
    NewRowOk(n, now);
    assert forall e :: e in OutboxOf(n, |db.rows|) ==> e.job == |db.rows|;
  }

  lemma MoveDrifts(db: Db, now: Time, c: Call, m: Move)
    requires RowsOk(db, now) && EventsInRange(db) && CallOk(db, c)
    requires CanMove(c, m) && (m.UpdateRow? ==> !Revives(db, c))
    ensures var db' := DbAfter(db, c, m);
            && RowsOk(db', now) && EventsInRange(db') && Drift(db, db') && |db'.rows| == |db.rows|
            && CallOk(db', CallAfter(db, c, m))
  {
  }

  // ----- claim handlers -----

  /** A handler past its SELECT knows a job of the table. */
  ghost predicate CallOk(db: Db, c: Call) {
    c.phase.Writing? || c.phase.Recorded? || c.phase.Announcing? ==> c.phase.id < |db.rows|
  }

  ghost predicate CallsOk(s: State) {
    forall h :: 0 <= h < |s.calls| ==> CallOk(s.db, s.calls[h])
  }

  // ----- the batch -----

  /** A claimed row is not terminal and differs from its snapshot by API calls only. */
  ghost predicate ClaimedOk(s: State, c: Claimed) {
    && c.id < |s.db.rows|
    && RowOk(c.snap, s.now) && !Terminal(c.snap.status)
    && RowDrift(c.snap, s.db.rows[c.id])
    && (c.due ==> c.snap.status.PendingVerify? && c.snap.nextVerify.value <= s.tickNow < c.snap.timeoutAt)
  }

  ghost predicate BatchOk(s: State) {
    && (forall k :: 0 <= k < |s.batch| ==> ClaimedOk(s, s.batch[k]))
    && (forall i, k :: 0 <= i < k < |s.batch| ==> s.batch[i].id != s.batch[k].id)
    && (forall w, k :: w in s.pending && 0 <= k < |s.batch| ==> s.batch[k].id != w.id)
  }

  /** An orphaned announcement is about a job that has not ended. */
  ghost predicate OrphanOk(s: State) {
    s.orphan.Some? ==>
      && s.pending != [] && AllEvents(s.pending)
      && s.orphan.value < |s.db.rows| && !Terminal(s.db.rows[s.orphan.value].status)
  }

  ghost predicate Inv(s: State) {
    && 0 < s.tickNow <= s.now
    && RowsOk(s.db, s.now) && EventsInRange(s.db) && PendingOk(s.db, s.pending)
    && BatchOk(s) && OrphanOk(s) && CallsOk(s)
  }

  // ----- plans -----

  lemma {:induction false} NeutralPending(db: Db, ws: seq<Write>)
    requires AllNeutral(ws, |db.rows|)
    ensures PendingOk(db, ws)
    decreases |ws|
  {
    if ws != [] {
      assert IsNeutral(ws[0]) && ws[0].id < |db.rows|;
      assert AllNeutral(ws[1..], |db.rows|);
      NeutralPending(Apply(db, ws[0]), ws[1..]);
      NeutralPending(db, AfterLoss(ws));
    }
  }

  lemma HeadThenEvents(db: Db, ws: seq<Write>)
    requires ws != [] && WriteOk(db, ws[0])
    requires AllEvents(ws[1..]) && forall k :: 0 <= k < |ws| ==> ws[k].id < |db.rows|
    ensures PendingOk(db, ws)
  {
    assert AllNeutral(ws[1..], |db.rows|);
    NeutralPending(Apply(db, ws[0]), ws[1..]);
    NeutralPending(db, ws[1..]);
    NeutralPending(db, []);
  }

  lemma ScheduleAlone(db: Db, w: Write)
    requires w.ScheduleNext? && WriteOk(db, w)
    ensures PendingOk(db, [w])
  {
    var none: seq<Write> := [];
    assert [w][1..] == none && AfterLoss([w]) == none;
    assert PendingOk(db, none) && PendingOk(Apply(db, w), none);
  }

  lemma NeutralThenSchedule(db: Db, n: Write, w: Write)
    requires IsNeutral(n) && n.id == w.id && w.ScheduleNext? && WriteOk(db, w)
    ensures PendingOk(db, [n, w])
  {
    assert [n, w][1..] == [w];
    ScheduleAlone(db, w);
    ScheduleAlone(Apply(db, n), w);
  }

  lemma UpdateAlone(db: Db, w: Write)
    requires w.UpdateStatus? && WriteOk(db, w)
    ensures PendingOk(db, [w])
  {
    HeadThenEvents(db, [w]);
  }

  /** The plan of a miss keeps the backoff. */
  lemma MissOnSchedule(r: Job, now: Time, probe: Time)
    requires RowOk(r, now) && r.status.PendingVerify? && r.nextVerify.value <= probe < r.timeoutAt
    ensures var next := NextVerifyAt(probe, r.attempt + 1, r.timeoutAt).0;
            && Elapsed(r.attempt + 1) < r.timeoutAt - r.created
            && OnSchedule(r, r.attempt + 1, next)
            && r.nextVerify.value < next <= r.timeoutAt
  {
    MissAlwaysReschedules(probe, r.attempt + 1, r.timeoutAt);
  }

  lemma MissPlanOk(db: Db, now: Time, id: JobId, snap: Job, reason: string, observed: ObservedWire, probe: Time)
    requires id < |db.rows| && RowDrift(snap, db.rows[id])
    requires RowOk(snap, now) && snap.status.PendingVerify? && snap.nextVerify.value <= probe < snap.timeoutAt
    ensures PendingOk(db, MissPlan(id, snap, reason, observed, probe))
    ensures !MissPlan(id, snap, reason, observed, probe)[0].u.status.Some?
  {
    MissOnSchedule(snap, now, probe);
    var next := NextVerifyAt(probe, snap.attempt + 1, snap.timeoutAt).0;
    NeutralThenSchedule(db, UpdateStatus(id, StatusUpdate(None, None, Some(observed), None, false)),
                        ScheduleNext(id, snap.attempt + 1, next));
  }

  lemma VerifyPlanOk(db: Db, now: Time, id: JobId, snap: Job, ans: Answer, probe: Time)
    requires id < |db.rows| && RowDrift(snap, db.rows[id])
    requires RowOk(snap, now) && snap.status.PendingVerify? && snap.nextVerify.value <= probe
    ensures PendingOk(db, VerifyPlan(id, snap, ans, probe))
  {
    match ProbeWire(snap, ans.page, probe)
    case PastDeadline => HeadThenEvents(db, VerifyPlan(id, snap, ans, probe));
    case BadExpectation => UpdateAlone(db, UpdateStatus(id, Fail("invalid expected payload")));
    case PageUnavailable =>
    case Success(_) => HeadThenEvents(db, VerifyPlan(id, snap, ans, probe));
    case Miss(reason, observed) => MissPlanOk(db, now, id, snap, reason, observed, probe);
  }

  lemma FailedPlanOk(db: Db, id: JobId, reason: string, cert: Option<CertId>)
    requires id < |db.rows| && !Terminal(db.rows[id].status)
    ensures PendingOk(db, [UpdateStatus(id, Fail(reason)), LogJob(id, JobFailed), Emit(id, RenewalFailed, cert)])
  {
    HeadThenEvents(db, [UpdateStatus(id, Fail(reason)), LogJob(id, JobFailed), Emit(id, RenewalFailed, cert)]);
  }

  lemma LaunchedPlanOk(db: Db, id: JobId, aap: int, wf: bool, cert: Option<CertId>)
    requires id < |db.rows| && (db.rows[id].status.Launching? || db.rows[id].status.AapPending?)
    ensures PendingOk(db, [SetAapRef(id, aap, wf, AapPending), LogJob(id, JobLaunched),
                           Emit(id, RenewalLaunched, cert), UpdateStatus(id, RELEASE)])
  {
    var ws := [SetAapRef(id, aap, wf, AapPending), LogJob(id, JobLaunched),
               Emit(id, RenewalLaunched, cert), UpdateStatus(id, RELEASE)];
    assert AllNeutral(ws[1..], |db.rows|);
    NeutralPending(Apply(db, ws[0]), ws[1..]);
    assert PendingOk(db, []);
  }

  lemma LaunchPlanOk(cfg: Config, db: Db, id: JobId, snap: Job, ans: Answer)
    requires id < |db.rows| && RowDrift(snap, db.rows[id])
    requires snap.status.Launching? && snap.aapId.None?
    ensures PendingOk(db, LaunchPlan(cfg, id, snap, ans))
  {
    if !cfg.hasRenewer || snap.predecessor.None? {
      UpdateAlone(db, UpdateStatus(id, Fail("aap renewer not configured or missing predecessor")));
    } else if ans.lookup.LookupFailed? {
    } else if !ans.lookup.hasRenewalConfig {
      UpdateAlone(db, UpdateStatus(id, Fail("missing renewal config")));
    } else {
      match ans.renew
      case RenewFailed(message) => FailedPlanOk(db, id, "aap launch failed: " + message, snap.predecessor);
      case Renewed(aap, wf) => LaunchedPlanOk(db, id, aap, wf, snap.predecessor);
    }
  }

  lemma EnterPlanOk(db: Db, now: Time, id: JobId, snap: Job)
    requires id < |db.rows| && RowOk(snap, now) && snap.status.AapPending? && RowDrift(snap, db.rows[id])
    ensures PendingOk(db, [LogJob(id, JobAapSuccessful)] + EnterPlan(id, snap, now))
  {
    var next := NextVerifyAt(now, 1, Deadline(snap, now)).0;
    NeutralThenSchedule(db, LogJob(id, JobAapSuccessful), ScheduleNext(id, 0, next));
    assert [LogJob(id, JobAapSuccessful)] + EnterPlan(id, snap, now) == [LogJob(id, JobAapSuccessful), ScheduleNext(id, 0, next)];
  }

  lemma PollPlanOk(cfg: Config, db: Db, now: Time, id: JobId, snap: Job, ans: Answer)
    requires id < |db.rows| && RowOk(snap, now) && snap.status.AapPending? && RowDrift(snap, db.rows[id])
    ensures PendingOk(db, PollPlan(cfg, id, snap, ans, now))
  {
    var r := AapClient.Wait(ans.polls);
    if snap.aapId.None? || !cfg.hasPoller {
      UpdateAlone(db, UpdateStatus(id, Fail("missing aap job id or poller")));
    } else if !r.Done? {
      UpdateAlone(db, UpdateStatus(id, RELEASE));
    } else {
      FinishedWaitHasTwoOutcomes(ans.polls);
      if MapAapStatus(r.status).Failed? {
        FailedPlanOk(db, id, "aap job " + AapClient.StatusText(r.status), snap.predecessor);
      } else {
        EnterPlanOk(db, now, id, snap);
      }
    }
  }

  lemma PlanOk(cfg: Config, s: State, c: Claimed, ans: Answer)
    requires ClaimedOk(s, c)
    ensures PendingOk(s.db, Plan(cfg, c, ans, s.now, s.tickNow))
  {
    if c.due {
      VerifyPlanOk(s.db, s.now, c.id, c.snap, ans, s.tickNow);
    } else {
      match c.snap.status
      case Launching => LaunchPlanOk(cfg, s.db, c.id, c.snap, ans);
      case AapPending => PollPlanOk(cfg, s.db, s.now, c.id, c.snap, ans);
      case PendingVerify =>
        if c.snap.nextVerify.value > s.now {
          UpdateAlone(s.db, UpdateStatus(c.id, RELEASE));
        } else {
          VerifyPlanOk(s.db, s.now, c.id, c.snap, ans, s.now);
        }
    }
  }

  // ----- the sweep -----

  lemma {:induction false} SweepPlanNeutral(rows: seq<Job>, ids: seq<JobId>)
    requires forall k :: 0 <= k < |ids| ==> ids[k] < |rows|
    ensures AllNeutral(SweepPlan(rows, ids), |rows|) && AllEvents(SweepPlan(rows, ids))
    decreases |ids|
  {
    if ids != [] {
      SweepPlanNeutral(rows, ids[1..]);
    }
  }

  lemma SweptRows(db: Db, now: Time, tickNow: Time, ids: seq<JobId>)
    requires RowsOk(db, now) && ids == ExpiredIds(db.rows, tickNow, |db.rows|)
    ensures var rows' := ExpireRows(db.rows, tickNow);
            && (forall j :: 0 <= j < |rows'| ==> RowOk(rows'[j], now))
            && Distinct(ids)
            && (forall k :: 0 <= k < |ids| ==> ids[k] < |db.rows| && rows'[ids[k]].status.TimedOut?)
            && (forall j :: 0 <= j < |db.rows| && j !in ids ==> rows'[j] == db.rows[j])
            && (forall j :: 0 <= j < |db.rows| ==> !Overdue(rows'[j], tickNow))
  {
    ExpiredIdsMeaning(db.rows, tickNow, |db.rows|);
    forall k | 0 <= k < |ids| ensures ids[k] < |db.rows| && Overdue(db.rows[ids[k]], tickNow) {
      assert ids[k] in ids;
    }
  }

  lemma SweepKeeps(s: State)
    requires Inv(s) && Idle(s)
    ensures Inv(Swept(s))
  {
    var ids := ExpiredIds(s.db.rows, s.tickNow, |s.db.rows|);
    SweptRows(s.db, s.now, s.tickNow, ids);
    SweepPlanNeutral(s.db.rows, ids);
    NeutralPending(s.db.(rows := ExpireRows(s.db.rows, s.tickNow)), SweepPlan(s.db.rows, ids));
  }

  // ----- steps keep the invariant -----

  ghost predicate Leasable(s: State, ids: seq<JobId>, due: bool) {
    && Distinct(ids)
    && (forall k :: 0 <= k < |ids| ==>
          && ids[k] < |s.db.rows|
          && !Terminal(s.db.rows[ids[k]].status)
          && (due ==> Due(s.db.rows[ids[k]], s.tickNow)))
  }

  lemma LeaseKeeps(s: State, ids: seq<JobId>, owner: string, expires: Time, due: bool, t: State)
    requires Inv(s) && Idle(s) && Leasable(s, ids, due) && t == Leased(s, ids, owner, expires, due)
    ensures Inv(t)
  {
    var rows := t.db.rows;
    forall j | 0 <= j < |rows| ensures RowOk(rows[j], s.now) {
      assert RowOk(s.db.rows[j], s.now);
    }
    forall k | 0 <= k < |t.batch| ensures ClaimedOk(t, t.batch[k]) {
      assert rows[ids[k]].status == s.db.rows[ids[k]].status;
    }
  }

  lemma LeaseKeepsInv(s: State, ids: seq<JobId>, owner: string, expires: Time, due: bool, t: State)
    requires Leasable(s, ids, due) && t == Leased(s, ids, owner, expires, due)
    ensures Inv(s) && Idle(s) ==> Inv(t)
  {
    if Inv(s) && Idle(s) {
      LeaseKeeps(s, ids, owner, expires, due, t);
    }
  }

  /** What a claim hands out, as a lease of some leasable jobs. */
  lemma ClaimIsLease(s: State, owner: string, ttl: int, limit: nat, t: State) returns (ids: seq<JobId>)
    requires t == GeneralClaim(s, owner, ttl, limit)
    ensures Leasable(s, ids, false) && t == Leased(s, ids, owner, s.now + ttl, false)
  {
    ClaimIdsMeaning(s.db.rows, s.now, limit, |s.db.rows|);
    ids := ClaimBatch(s.db.rows, s.now, limit);
  }

  lemma ClaimKeeps(s: State, owner: string, ttl: int, limit: nat, t: State)
    requires t == GeneralClaim(s, owner, ttl, limit)
    ensures Inv(s) && Idle(s) ==> Inv(t)
  {
    var ids := ClaimIsLease(s, owner, ttl, limit, t);
    LeaseKeepsInv(s, ids, owner, s.now + ttl, false, t);
  }

  lemma DueClaimIsLease(s: State, ttl: int, limit: nat, t: State) returns (ids: seq<JobId>)
    requires t == DueClaim(s, ttl, limit)
    ensures Leasable(s, ids, true) && t == Leased(s, ids, "verify-worker", s.tickNow + ttl, true)
  {
    DueIdsAreDue(s.db.rows, s.tickNow, limit);
    ids := DueBatch(s.db.rows, s.tickNow, limit);
    assert forall k :: 0 <= k < |ids| ==> s.db.rows[ids[k]].status.PendingVerify?;
  }

  lemma ClaimDueKeeps(s: State, ttl: int, limit: nat, t: State)
    requires t == DueClaim(s, ttl, limit)
    ensures Inv(s) && Idle(s) ==> Inv(t)
  {
    var ids := DueClaimIsLease(s, ttl, limit, t);
    LeaseKeepsInv(s, ids, "verify-worker", s.tickNow + ttl, true, t);
  }

  lemma BatchUnderWrite(s: State, t: State)
    requires BatchOk(s) && s.pending != []
    requires t.db == Apply(s.db, s.pending[0]) && t.pending == s.pending[1..]
    requires t.batch == s.batch && t.now == s.now && t.tickNow == s.tickNow
    ensures BatchOk(t)
  {
    var w := s.pending[0];
    assert w in s.pending;
    forall k | 0 <= k < |s.batch| ensures ClaimedOk(t, t.batch[k]) {
      assert s.batch[k].id != w.id;
      assert t.db.rows[s.batch[k].id] == s.db.rows[s.batch[k].id];
    }
  }

  lemma ApiKeeps(s: State, db': Db, calls: seq<Call>)
    requires Inv(s) && Drift(s.db, db') && RowsOk(db', s.now) && EventsInRange(db')
    requires forall h :: 0 <= h < |calls| ==> CallOk(db', calls[h])
    ensures Inv(s.(db := db', calls := calls))
  {
    DriftUnderPending(s.db, db', s.pending);
    var t := s.(db := db', calls := calls);
    forall k | 0 <= k < |s.batch| ensures ClaimedOk(t, s.batch[k]) {
      assert ClaimedOk(s, s.batch[k]);
      assert RowDrift(s.db.rows[s.batch[k].id], db'.rows[s.batch[k].id]);
    }
    if s.orphan.Some? {
      assert RowDrift(s.db.rows[s.orphan.value], db'.rows[s.orphan.value]);
    }
  }

  predicate IsApiStep(step: Step) {
    step.ApiInsert? || step.ApiLook? || step.ApiMove? || step.ApiDropCertificate?
  }

  lemma ApiStepKeeps(cfg: Config, s: State, step: Step, t: State)
    requires Inv(s) && Next(cfg, s, step, t) && IsApiStep(step)
    ensures Inv(t)
  {
    match step
    case ApiInsert(n) =>
      InsertDrifts(s.db, n, s.now);
      ApiKeeps(s, t.db, s.calls);
    case ApiLook(key, aap, ok) =>
      ApiKeeps(s, s.db, t.calls);
    case ApiMove(h, m) =>
      MoveDrifts(s.db, s.now, s.calls[h], m);
      ApiKeeps(s, t.db, t.calls);
    case ApiDropCertificate(cert) =>
      assert Drift(s.db, t.db);
      ApiKeeps(s, t.db, s.calls);
  }

  lemma SendKeeps(s: State, t: State)
    requires Inv(s) && s.pending != [] && t == AfterSend(s)
    ensures Inv(t)
  {
    SafeWriteKeeps(s.db, s.now, s.pending[0]);
    BatchUnderWrite(s, t);
  }

  lemma LostKeeps(s: State, t: State)
    requires Inv(s) && s.pending != [] && t == AfterLost(s)
    ensures Inv(t)
  {
    forall k | 0 <= k < |t.batch| ensures ClaimedOk(t, t.batch[k]) {
      assert ClaimedOk(s, s.batch[k]);
    }
    assert forall w :: w in t.pending ==> w in s.pending;
  }

  lemma ClockStepKeeps(cfg: Config, s: State, step: Step, t: State)
    requires Inv(s) && Next(cfg, s, step, t)
    requires step.Pass? || step.StartTick? || step.Crash?
    ensures Inv(t)
  {
    forall k | 0 <= k < |t.batch| ensures ClaimedOk(t, t.batch[k]) {
      assert ClaimedOk(s, s.batch[k]);
    }
  }

  lemma StepKeeps(cfg: Config, s: State, step: Step, t: State)
    requires Inv(s) && Next(cfg, s, step, t)
    ensures Inv(t)
  {
    if IsApiStep(step) {
      ApiStepKeeps(cfg, s, step, t);
    } else if step.Sweep? {
      SweepKeeps(s);
    } else if step.Claim? {
      ClaimKeeps(s, step.owner, step.ttl, step.limit, t);
    } else if step.ClaimDue? {
      ClaimDueKeeps(s, step.ttl, step.limit, t);
    } else if step.Begin? {
      BeginKeeps(cfg, s, step.ans);
    } else if step.Send? {
      SendKeeps(s, t);
    } else if step.Lost? {
      LostKeeps(s, t);
    } else {
      ClockStepKeeps(cfg, s, step, t);
    }
  }

  lemma BeginKeeps(cfg: Config, s: State, ans: Answer)
    requires Inv(s) && Enabled(s, Begin(ans))
    ensures Inv(Exec(cfg, s, Begin(ans)))
  {
    var c := s.batch[0];
    PlanOk(cfg, s, c, ans);
    PlanKeepsToItsJob(cfg, c, ans, s.now, s.tickNow);
    var t := Exec(cfg, s, Begin(ans));
    forall k | 0 <= k < |t.batch| ensures t.batch[k].id != c.id && ClaimedOk(t, t.batch[k]) {
      assert t.batch[k] == s.batch[k + 1];
    }
  }
}
