/** Which outcomes are announced: at most once and truthfully, exactly when no stored outcome is
    missing behind an announcement; exactly once, exactly when no announcement is dropped. */
module JobAnnouncements {
  import opened Wrappers
  import opened Backoff
  import opened Selection
  import opened WireCheck
  import opened JobTable
  import opened WorkerPlan
  import opened JobMachine
  import opened JobInvariants
  import opened JobTheorems
  import AapClient

  predicate Final(t: OutboxType) {
    t.RenewalVerified? || t.RenewalTimedOut? || t.RenewalFailed?
  }

  /** Verified and timed out jobs are always announced; some failures are not. */
  predicate Settling(t: OutboxType) {
    t.RenewalVerified? || t.RenewalTimedOut?
  }

  function Announces(t: OutboxType, s: Status): nat {
    if (t.RenewalVerified? && s.Verified?) || (t.RenewalTimedOut? && s.TimedOut?) || (t.RenewalFailed? && s.Failed?)
    then 1 else 0
  }

  /** No outcome is announced twice, none but the stored one, and no two of them. */
  ghost predicate Truthful(db: Db, j: JobId)
    requires j < |db.rows|
  {
    forall t :: Final(t) ==> Count(db.outbox, j, t) <= Announces(t, db.rows[j].status)
  }

  lemma TruthfulMeaning(db: Db, j: JobId)
    requires j < |db.rows|
    ensures Truthful(db, j) <==>
              var (v, o, f) := (Count(db.outbox, j, RenewalVerified), Count(db.outbox, j, RenewalTimedOut), Count(db.outbox, j, RenewalFailed));
              && v + o + f <= 1
              && (v == 1 ==> db.rows[j].status.Verified?)
              && (o == 1 ==> db.rows[j].status.TimedOut?)
              && (f == 1 ==> db.rows[j].status.Failed?)
  {
    var st := db.rows[j].status;
    if Truthful(db, j) {
      assert Count(db.outbox, j, RenewalVerified) <= Announces(RenewalVerified, st);
      assert Count(db.outbox, j, RenewalTimedOut) <= Announces(RenewalTimedOut, st);
      assert Count(db.outbox, j, RenewalFailed) <= Announces(RenewalFailed, st);
    }
  }

  ghost predicate Unannounced(db: Db, j: JobId) {
    forall t :: Final(t) ==> Count(db.outbox, j, t) == 0
  }

  // ----- the part of a plan that is about the outcome of one job -----

  predicate Concerns(w: Write, j: JobId) {
    w.id == j && (SetsOutcome(w) || (w.Emit? && Final(w.event)))
  }

  function About(ws: seq<Write>, j: JobId): seq<Write>
    decreases |ws|
  {
    if ws == [] then [] else (if Concerns(ws[0], j) then [ws[0]] else []) + About(ws[1..], j)
  }

  ghost predicate NoRef(ws: seq<Write>) {
    forall k :: 0 <= k < |ws| ==> !ws[k].SetAapRef?
  }

  lemma {:induction false} AboutNothing(ws: seq<Write>, j: JobId)
    requires forall k :: 0 <= k < |ws| ==> !Concerns(ws[k], j)
    ensures About(ws, j) == []
    decreases |ws|
  {
    if ws != [] {
      AboutNothing(ws[1..], j);
    }
  }

  lemma {:induction false} AboutConcerns(ws: seq<Write>, j: JobId)
    ensures forall k :: 0 <= k < |About(ws, j)| ==> Concerns(About(ws, j)[k], j)
    decreases |ws|
  {
    if ws != [] {
      AboutConcerns(ws[1..], j);
    }
  }

  /** Outcome, timeline entry, event. */
  lemma AboutConclusion(u: Write, l: Write, e: Write, j: JobId)
    requires Concerns(u, j) && !Concerns(l, j) && Concerns(e, j)
    ensures About([u, l, e], j) == [u, e]
  {
    assert [u, l, e][1..] == [l, e] && [l, e][1..] == [e] && [e][1..] == [];
    assert About([e], j) == [e] + About([e][1..], j);
  }

  lemma AboutSingle(u: Write, j: JobId)
    requires Concerns(u, j)
    ensures About([u], j) == [u]
  {
    assert [u][1..] == [];
  }

  /** Outcome and announcement match, if there is an announcement. */
  predicate Shaped(r: seq<Write>) {
    || r == []
    || (|r| == 1 && SetsOutcome(r[0]) && r[0].u.status.value.Failed?)
    || (|r| == 2 && SetsOutcome(r[0]) && r[1].Emit? && Final(r[1].event) && Announces(r[1].event, r[0].u.status.value) == 1)
  }

  /** What a plan may say about the outcome of its job. */
  ghost predicate PlanShape(ws: seq<Write>, j: JobId) {
    Shaped(About(ws, j)) && (NoRef(ws) || About(ws, j) == [])
  }

  lemma ConclusionShape(id: JobId, u: StatusUpdate, entry: TimelineType, event: OutboxType, cert: Option<CertId>)
    requires u.status.Some? && Terminal(u.status.value) && Final(event) && Announces(event, u.status.value) == 1
    ensures PlanShape([UpdateStatus(id, u), LogJob(id, entry), Emit(id, event, cert)], id)
  {
    AboutConclusion(UpdateStatus(id, u), LogJob(id, entry), Emit(id, event, cert), id);
  }

  lemma RefusalShape(id: JobId, reason: string)
    ensures PlanShape([UpdateStatus(id, Fail(reason))], id)
  {
    AboutSingle(UpdateStatus(id, Fail(reason)), id);
  }

  lemma QuietShape(ws: seq<Write>, id: JobId)
    requires forall k :: 0 <= k < |ws| ==> !Concerns(ws[k], id)
    ensures PlanShape(ws, id)
  {
    AboutNothing(ws, id);
  }

  lemma MissShape(id: JobId, job: Job, reason: string, observed: ObservedWire, now: Time)
    ensures PlanShape(MissPlan(id, job, reason, observed, now), id)
  {
    var (next, last) := NextVerifyAt(now, job.attempt + 1, Deadline(job, now));
    if last && next <= now {
      ConclusionShape(id, StatusUpdate(Some(TimedOut), Some(reason), Some(observed), None, true), JobTimedOut, RenewalTimedOut, job.predecessor);
    } else {
      QuietShape(MissPlan(id, job, reason, observed, now), id);
    }
  }

  lemma VerifyShape(id: JobId, job: Job, ans: Answer, now: Time)
    ensures PlanShape(VerifyPlan(id, job, ans, now), id)
  {
    match ProbeWire(job, ans.page, now)
    case PastDeadline =>
      ConclusionShape(id, StatusUpdate(Some(TimedOut), Some("verify timeout"), None, None, true), JobTimedOut, RenewalTimedOut, job.predecessor);
    case BadExpectation => RefusalShape(id, "invalid expected payload");
    case PageUnavailable => QuietShape([], id);
    case Success(observed) =>
      ConclusionShape(id, StatusUpdate(Some(Verified), None, Some(observed), observed.successor, true), JobVerified, RenewalVerified, job.predecessor);
    case Miss(reason, observed) => MissShape(id, job, reason, observed, now);
  }

  lemma LaunchShape(cfg: Config, id: JobId, job: Job, ans: Answer)
    ensures PlanShape(LaunchPlan(cfg, id, job, ans), id)
  {
    if job.aapId.Some? && job.aapId.value > 0 {
      QuietShape(LaunchPlan(cfg, id, job, ans), id);
    } else if !cfg.hasRenewer || job.predecessor.None? {
      RefusalShape(id, "aap renewer not configured or missing predecessor");
    } else {
      match ans.lookup
      case LookupFailed => QuietShape([], id);
      case Found(false) => RefusalShape(id, "missing renewal config");
      case Found(true) =>
        match ans.renew
        case RenewFailed(message) =>
          ConclusionShape(id, Fail("aap launch failed: " + message), JobFailed, RenewalFailed, job.predecessor);
        case Renewed(aap, wf) => QuietShape(LaunchPlan(cfg, id, job, ans), id);
    }
  }

  lemma PollShape(cfg: Config, id: JobId, job: Job, ans: Answer, now: Time)
    ensures PlanShape(PollPlan(cfg, id, job, ans, now), id)
  {
    var r := AapClient.Wait(ans.polls);
    if job.aapId.None? || !cfg.hasPoller {
      RefusalShape(id, "missing aap job id or poller");
    } else if !r.Done? {
      QuietShape(PollPlan(cfg, id, job, ans, now), id);
    } else {
      FinishedWaitHasTwoOutcomes(ans.polls);
      if MapAapStatus(r.status).Failed? {
        ConclusionShape(id, Fail("aap job " + AapClient.StatusText(r.status)), JobFailed, RenewalFailed, job.predecessor);
      } else {
        QuietShape(PollPlan(cfg, id, job, ans, now), id);
      }
    }
  }

  lemma ProcessShape(cfg: Config, id: JobId, job: Job, ans: Answer, now: Time)
    ensures PlanShape(ProcessPlan(cfg, id, job, ans, now), id)
  {
    match job.status
    case Launching => LaunchShape(cfg, id, job, ans);
    case AapPending => PollShape(cfg, id, job, ans, now);
    case AapRunning => PollShape(cfg, id, job, ans, now);
    case AapSuccessful => QuietShape(EnterPlan(id, job, now), id);
    case Verifying => VerifyShape(id, job, ans, now);
    case PendingVerify =>
      if job.nextVerify.Some? && job.nextVerify.value > now {
        QuietShape([UpdateStatus(id, RELEASE)], id);
      } else {
        VerifyShape(id, job, ans, now);
      }
    case _ => RefusalShape(id, "unexpected status");
  }

  lemma PlanIsShaped(cfg: Config, c: Claimed, ans: Answer, now: Time, tickNow: Time, j: JobId)
    ensures PlanShape(Plan(cfg, c, ans, now, tickNow), j)
    ensures j != c.id ==> About(Plan(cfg, c, ans, now, tickNow), j) == []
  {
    if j != c.id {
      PlanKeepsToItsJob(cfg, c, ans, now, tickNow);
      AboutNothing(Plan(cfg, c, ans, now, tickNow), j);
    } else if c.due {
      VerifyShape(c.id, c.snap, ans, tickNow);
    } else {
      ProcessShape(cfg, c.id, c.snap, ans, now);
    }
  }

  lemma AboutTwo(l: Write, e: Write, rest: seq<Write>, j: JobId)
    requires l.LogJob?
    ensures About([l, e] + rest, j) == (if Concerns(e, j) then [e] else []) + About(rest, j)
    ensures !e.SetAapRef? && NoRef(rest) ==> NoRef([l, e] + rest)
  {
    var ws := [l, e] + rest;
    assert ws[1..][0] == e && ws[1..][1..] == rest;
  }

  lemma {:induction false} AboutSweep(rows: seq<Job>, ids: seq<JobId>, j: JobId)
    requires forall k :: 0 <= k < |ids| ==> ids[k] < |rows|
    requires Distinct(ids)
    ensures var r := About(SweepPlan(rows, ids), j);
            if j in ids then |r| == 1 && r[0].Emit? && r[0].event.RenewalTimedOut? else r == []
    ensures NoRef(SweepPlan(rows, ids))
    decreases |ids|
  {
    if ids != [] {
      var ws, rest := SweepPlan(rows, ids), SweepPlan(rows, ids[1..]);
      assert ids == [ids[0]] + ids[1..];
      assert ids[0] !in ids[1..];
      AboutSweep(rows, ids[1..], j);
      AboutTwo(ws[0], ws[1], rest, j);
      assert ws == [ws[0], ws[1]] + rest;
    }
  }

  // ----- one job along a run -----

  /** An outcome event is sent although its outcome was not stored. */
  predicate Misreports(s: State, step: Step, j: JobId) {
    step.Send? && s.pending != [] && s.pending[0].Emit? && Concerns(s.pending[0], j) && s.orphan == Some(j)
  }

  /** The event of a stored outcome will not be sent. */
  predicate DropsEvent(s: State, step: Step, j: JobId) {
    var r := About(s.pending, j);
    && r != [] && r[0].Emit? && Settling(r[0].event) && s.orphan != Some(j)
    && (step.Crash? || (step.Lost? && s.pending[0] == r[0]))
  }

  /** What is still pending about the job fits what is stored and announced. */
  ghost predicate Tracked(s: State, j: JobId) {
    j < |s.db.rows| ==>
      var r, st := About(s.pending, j), s.db.rows[j].status;
      && Truthful(s.db, j)
      && (NoRef(s.pending) || r == [])
      && (r != [] ==> Unannounced(s.db, j))
      && (Shaped(r) || (|r| == 1 && r[0].Emit? && Final(r[0].event)))
      && (r != [] && SetsOutcome(r[0]) ==> !Terminal(st))
      && (|r| == 1 && r[0].Emit? && s.orphan != Some(j) ==> Announces(r[0].event, st) == 1)
  }

  ghost predicate Settled(s: State, j: JobId) {
    j < |s.db.rows| && About(s.pending, j) == [] ==>
      forall t :: Settling(t) ==> Count(s.db.outbox, j, t) == Announces(t, s.db.rows[j].status)
  }

  lemma {:induction false} AboutRange(db: Db, ws: seq<Write>, j: JobId)
    requires PendingOk(db, ws) && j >= |db.rows|
    ensures About(ws, j) == []
    decreases |ws|
  {
    if ws != [] {
      AboutRange(Apply(db, ws[0]), ws[1..], j);
    }
  }

  lemma TrackedNewJob(s: State, n: NewJob, j: JobId)
    requires Inv(s) && j == |s.db.rows| && FindKey(s.db.rows, KeyOf(n), j).None?
    ensures Tracked(s.(db := Insert(s.db, n, s.now)), j) && Settled(s.(db := Insert(s.db, n, s.now)), j)
  {
    AboutRange(s.db, s.pending, j);
    forall t | Final(t) ensures Count(s.db.outbox + OutboxOf(n, j), j, t) == 0 {
      CountZero(s.db.outbox, j, t);
      InsertCounts(s.db.outbox, n, j, j, t);
    }
    assert !Terminal(RowOf(n, s.now).status);
  }

  lemma TrackedUnderInsert(s: State, n: NewJob, j: JobId)
    requires Inv(s) && Tracked(s, j)
    ensures Tracked(s.(db := Insert(s.db, n, s.now)), j)
    ensures Settled(s, j) ==> Settled(s.(db := Insert(s.db, n, s.now)), j)
  {
    var id := |s.db.rows|;
    if j < id {
      forall t | Final(t) ensures Count(s.db.outbox + OutboxOf(n, id), j, t) == Count(s.db.outbox, j, t) {
        InsertCounts(s.db.outbox, n, id, j, t);
      }
    } else if j == id && FindKey(s.db.rows, KeyOf(n), id).None? {
      TrackedNewJob(s, n, j);
    }
  }

  /** Steps that keep the counts, and keep the status or revive a job that has not ended. */
  lemma TrackedUnderDrift(s: State, t: State, j: JobId)
    requires Inv(s) && Tracked(s, j) && j < |s.db.rows| == |t.db.rows|
    requires t.pending == s.pending && t.orphan == s.orphan
    requires forall e :: Final(e) ==> Count(t.db.outbox, j, e) == Count(s.db.outbox, j, e)
    requires t.db.rows[j].status == s.db.rows[j].status
             || (!Terminal(s.db.rows[j].status) && !Terminal(t.db.rows[j].status))
    ensures Tracked(t, j) && (Settled(s, j) ==> Settled(t, j))
  {
  }

  predicate IsCallStep(step: Step) {
    step.ApiLook? || step.ApiMove?
  }

  lemma MoveKeepsCounts(db: Db, c: Call, m: Move, j: JobId, e: OutboxType)
    requires CanMove(c, m) && Final(e)
    ensures Count(DbAfter(db, c, m).outbox, j, e) == Count(db.outbox, j, e)
  {
    if m.Announce? {
      CountAppend(db.outbox, OutboxEvent(c.phase.id, RenewalLaunched, c.phase.cert), j, e);
    }
  }

  lemma MoveKeepsEnds(db: Db, c: Call, m: Move, j: JobId)
    requires CanMove(c, m) && (m.UpdateRow? ==> !Revives(db, c)) && j < |db.rows|
    ensures |DbAfter(db, c, m).rows| == |db.rows|
    ensures DbAfter(db, c, m).rows[j].status == db.rows[j].status
            || (!Terminal(db.rows[j].status) && !Terminal(DbAfter(db, c, m).rows[j].status))
  {
  }

  /** A claim neither ends a job nor announces an end. */
  lemma CallsLeaveOutcomes(cfg: Config, s: State, step: Step, t: State, j: JobId)
    requires Next(cfg, s, step, t) && IsCallStep(step)
    ensures t.pending == s.pending && t.orphan == s.orphan && |t.db.rows| == |s.db.rows|
    ensures forall e :: Final(e) ==> Count(t.db.outbox, j, e) == Count(s.db.outbox, j, e)
    ensures j < |s.db.rows| ==>
              || t.db.rows[j].status == s.db.rows[j].status
              || (!Terminal(s.db.rows[j].status) && !Terminal(t.db.rows[j].status))
  {
    if step.ApiMove? {
      forall e | Final(e) ensures Count(t.db.outbox, j, e) == Count(s.db.outbox, j, e) {
        MoveKeepsCounts(s.db, s.calls[step.h], step.m, j, e);
      }
      if j < |s.db.rows| {
        MoveKeepsEnds(s.db, s.calls[step.h], step.m, j);
      }
    }
  }

  lemma TrackedUnderCall(cfg: Config, s: State, step: Step, t: State, j: JobId)
    requires Inv(s) && Tracked(s, j) && Next(cfg, s, step, t) && IsCallStep(step)
    ensures Tracked(t, j) && (Settled(s, j) ==> Settled(t, j))
  {
    CallsLeaveOutcomes(cfg, s, step, t, j);
    if j < |s.db.rows| {
      TrackedUnderDrift(s, t, j);
    }
  }

  /** A job the sweep has just ended: its event is all that is pending about it. */
  lemma TrackedWhenSwept(s: State, t: State, j: JobId)
    requires Tracked(s, j) && j < |s.db.rows| == |t.db.rows| && !Terminal(s.db.rows[j].status)
    requires t.db.outbox == s.db.outbox && t.db.rows[j].status.TimedOut? && t.orphan.None? && NoRef(t.pending)
    requires var r := About(t.pending, j); |r| == 1 && r[0].Emit? && r[0].event.RenewalTimedOut?
    ensures Tracked(t, j) && (Settled(s, j) ==> Settled(t, j))
  {
    var st := s.db.rows[j].status;
    forall e | Final(e) ensures Count(t.db.outbox, j, e) == 0 {
      assert Count(s.db.outbox, j, e) <= Announces(e, st);
    }
  }

  /** A job the sweep passes over. */
  lemma TrackedWhenPassed(s: State, t: State, j: JobId)
    requires Tracked(s, j) && j < |s.db.rows| == |t.db.rows| && t.db.rows[j].status == s.db.rows[j].status
    requires t.db.outbox == s.db.outbox && s.pending == [] && About(t.pending, j) == []
    ensures Tracked(t, j) && (Settled(s, j) ==> Settled(t, j))
  {
  }

  lemma TrackedUnderSweep(s: State, j: JobId)
    requires Inv(s) && Idle(s) && Tracked(s, j)
    ensures Tracked(Swept(s), j) && (Settled(s, j) ==> Settled(Swept(s), j))
  {
    if j < |s.db.rows| {
      var ids := ExpiredIds(s.db.rows, s.tickNow, |s.db.rows|);
      SweptRows(s.db, s.now, s.tickNow, ids);
      ExpiredIdsMeaning(s.db.rows, s.tickNow, |s.db.rows|);
      AboutSweep(s.db.rows, ids, j);
      if j in ids {
        TrackedWhenSwept(s, Swept(s), j);
      } else {
        TrackedWhenPassed(s, Swept(s), j);
      }
    }
  }

  /** A new plan, on the table as it was. */
  lemma TrackedWithPlan(s: State, t: State, j: JobId)
    requires Tracked(s, j) && s.pending == [] && t.db == s.db && PlanShape(t.pending, j)
    requires j < |s.db.rows| && About(t.pending, j) != [] ==> !Terminal(s.db.rows[j].status)
    ensures Tracked(t, j) && (Settled(s, j) ==> Settled(t, j))
  {
    if j < |s.db.rows| && About(t.pending, j) != [] {
      forall e | Final(e) ensures Count(s.db.outbox, j, e) == 0 {
        assert Count(s.db.outbox, j, e) <= Announces(e, s.db.rows[j].status);
      }
    }
  }

  lemma TrackedUnderBegin(cfg: Config, s: State, ans: Answer, j: JobId)
    requires Inv(s) && Enabled(s, Begin(ans)) && Tracked(s, j)
    ensures Tracked(Exec(cfg, s, Begin(ans)), j)
    ensures Settled(s, j) ==> Settled(Exec(cfg, s, Begin(ans)), j)
  {
    var c := s.batch[0];
    assert ClaimedOk(s, c);
    PlanIsShaped(cfg, c, ans, s.now, s.tickNow, j);
    TrackedWithPlan(s, Exec(cfg, s, Begin(ans)), j);
  }

  lemma AboutHead(ws: seq<Write>, j: JobId)
    requires ws != []
    ensures About(ws, j) == (if Concerns(ws[0], j) then [ws[0]] else []) + About(ws[1..], j)
    ensures NoRef(ws) ==> NoRef(ws[1..])
  {
  }

  lemma StatusUnderOther(db: Db, w: Write, j: JobId)
    requires WriteOk(db, w) && j < |db.rows| && !Concerns(w, j)
    ensures |Apply(db, w).rows| == |db.rows|
    ensures Apply(db, w).rows[j].status == db.rows[j].status
            || (!Terminal(db.rows[j].status) && !Terminal(Apply(db, w).rows[j].status))
  {
  }

  lemma CountsUnderOther(db: Db, w: Write, j: JobId)
    requires !Concerns(w, j)
    ensures forall e :: Final(e) ==> Count(Apply(db, w).outbox, j, e) == Count(db.outbox, j, e)
  {
    if w.Emit? {
      forall e | Final(e) ensures Count(Apply(db, w).outbox, j, e) == Count(db.outbox, j, e) {
        CountAppend(db.outbox, OutboxEvent(w.id, w.event, w.cert), j, e);
      }
    }
  }

  /** A statement that says nothing about the outcome of the job. */
  lemma TrackedUnderOther(s: State, j: JobId, t: State)
    requires Inv(s) && s.pending != [] && t == AfterSend(s) && Tracked(s, j) && j < |s.db.rows|
    requires !Concerns(s.pending[0], j)
    ensures Tracked(t, j) && (Settled(s, j) ==> Settled(t, j))
  {
    AboutHead(s.pending, j);
    CountsUnderOther(s.db, s.pending[0], j);
    StatusUnderOther(s.db, s.pending[0], j);
    SameTracking(s, t, j);
  }

  /** The same pending about the job, the same counts, and an outcome neither gained nor lost. */
  lemma SameTracking(s: State, t: State, j: JobId)
    requires Tracked(s, j) && j < |s.db.rows| == |t.db.rows|
    requires About(t.pending, j) == About(s.pending, j) && (NoRef(s.pending) ==> NoRef(t.pending))
    requires About(t.pending, j) != [] ==> t.orphan == s.orphan
    requires forall e :: Final(e) ==> Count(t.db.outbox, j, e) == Count(s.db.outbox, j, e)
    requires t.db.rows[j].status == s.db.rows[j].status
             || (!Terminal(s.db.rows[j].status) && !Terminal(t.db.rows[j].status))
    ensures Tracked(t, j) && (Settled(s, j) ==> Settled(t, j))
  {
  }

  /** The statement that stores the outcome. */
  lemma TrackedUnderOutcome(s: State, j: JobId, t: State)
    requires Inv(s) && s.pending != [] && t == AfterSend(s) && Tracked(s, j) && j < |s.db.rows|
    requires Concerns(s.pending[0], j) && SetsOutcome(s.pending[0])
    ensures Tracked(t, j) && Settled(t, j)
  {
    AboutHead(s.pending, j);
    assert t.db.outbox == s.db.outbox;
  }

  /** An event that matches the status, and nothing announced before it. */
  lemma EventSettles(db: Db, w: Write, j: JobId, st: Status, e: OutboxType)
    requires w.Emit? && w.id == j && Final(w.event) && Announces(w.event, st) == 1
    requires Unannounced(db, j) && Final(e)
    ensures Count(Apply(db, w).outbox, j, e) == Announces(e, st)
  {
    CountAppend(db.outbox, OutboxEvent(w.id, w.event, w.cert), j, e);
    assert Count(db.outbox, j, e) == 0;
  }

  /** Nothing pending about the job, and exactly its status announced. */
  lemma TrackedWhenSettled(s: State, j: JobId)
    requires j < |s.db.rows| && About(s.pending, j) == []
    requires forall e :: Final(e) ==> Count(s.db.outbox, j, e) == Announces(e, s.db.rows[j].status)
    ensures Tracked(s, j) && Settled(s, j)
  {
  }

  lemma EventIsLast(s: State, j: JobId)
    requires s.pending != [] && Tracked(s, j) && j < |s.db.rows|
    requires Concerns(s.pending[0], j) && s.pending[0].Emit? && s.orphan != Some(j)
    ensures About(s.pending[1..], j) == [] && Unannounced(s.db, j)
    ensures Announces(s.pending[0].event, s.db.rows[j].status) == 1
  {
    AboutHead(s.pending, j);
  }

  /** The event of a stored outcome. */
  lemma TrackedUnderEvent(s: State, j: JobId, t: State)
    requires s.pending != [] && t == AfterSend(s) && Tracked(s, j) && j < |s.db.rows|
    requires Concerns(s.pending[0], j) && s.pending[0].Emit? && s.orphan != Some(j)
    ensures Tracked(t, j) && Settled(t, j)
  {
    var w := s.pending[0];
    EventIsLast(s, j);
    forall e | Final(e) ensures Count(t.db.outbox, j, e) == Announces(e, t.db.rows[j].status) {
      EventSettles(s.db, w, j, s.db.rows[j].status, e);
    }
    TrackedWhenSettled(t, j);
  }

  lemma TrackedUnderSend(s: State, j: JobId, t: State)
    requires Inv(s) && s.pending != [] && t == AfterSend(s) && Tracked(s, j) && !Misreports(s, Send, j)
    ensures Tracked(t, j) && (Settled(s, j) ==> Settled(t, j))
  {
    if j < |s.db.rows| {
      if !Concerns(s.pending[0], j) {
        TrackedUnderOther(s, j, t);
      } else if s.pending[0].Emit? {
        TrackedUnderEvent(s, j, t);
      } else {
        TrackedUnderOutcome(s, j, t);
      }
    }
  }

  lemma TrackedUnderLoss(s: State, j: JobId, t: State)
    requires Inv(s) && s.pending != [] && t == AfterLost(s) && Tracked(s, j)
    ensures Tracked(t, j) && (Settled(s, j) && !DropsEvent(s, Lost, j) ==> Settled(t, j))
  {
  }

  /** Steps that change neither a status nor an event. */
  predicate IsSilent(step: Step) {
    step.Pass? || step.StartTick? || step.ApiDropCertificate? || step.Claim? || step.ClaimDue?
  }

  lemma SilentSteps(cfg: Config, s: State, step: Step, t: State)
    requires Next(cfg, s, step, t) && IsSilent(step)
    ensures t.db.outbox == s.db.outbox && t.pending == s.pending && t.orphan == s.orphan
    ensures |t.db.rows| == |s.db.rows|
    ensures forall j :: 0 <= j < |s.db.rows| ==> t.db.rows[j].status == s.db.rows[j].status
  {
  }

  lemma TrackedUnderSilent(s: State, t: State, j: JobId)
    requires Tracked(s, j) && t.db.outbox == s.db.outbox && t.pending == s.pending && t.orphan == s.orphan
    requires |t.db.rows| == |s.db.rows|
    requires j < |s.db.rows| ==> t.db.rows[j].status == s.db.rows[j].status
    ensures Tracked(t, j) && (Settled(s, j) ==> Settled(t, j))
  {
  }

  lemma TrackedUnderCrash(s: State, t: State, j: JobId)
    requires Inv(s) && Tracked(s, j) && t.db == s.db && t.pending == []
    ensures Tracked(t, j) && (Settled(s, j) && !DropsEvent(s, Crash, j) ==> Settled(t, j))
  {
  }

  lemma StepTracks(cfg: Config, s: State, step: Step, t: State, j: JobId)
    requires Inv(s) && Next(cfg, s, step, t) && Tracked(s, j) && !Misreports(s, step, j)
    ensures Tracked(t, j) && (Settled(s, j) && !DropsEvent(s, step, j) ==> Settled(t, j))
  {
    if IsSilent(step) {
      SilentSteps(cfg, s, step, t);
      TrackedUnderSilent(s, t, j);
    } else if step.Sweep? {
      TrackedUnderSweep(s, j);
    } else if step.Send? {
      TrackedUnderSend(s, j, t);
    } else if step.Lost? {
      TrackedUnderLoss(s, j, t);
    } else if step.Crash? {
      TrackedUnderCrash(s, t, j);
    } else if step.Begin? {
      TrackedUnderBegin(cfg, s, step.ans, j);
    } else if step.ApiInsert? {
      TrackedUnderInsert(s, step.n, j);
    } else {
      TrackedUnderCall(cfg, s, step, t, j);
    }
  }

  // ----- at most once -----

  /** One step of a run, as far as one job's announcements go. */
  ghost predicate Tracks(s: State, step: Step, t: State, j: JobId) {
    Tracked(s, j) && !Misreports(s, step, j) ==>
      Tracked(t, j) && (Settled(s, j) && !DropsEvent(s, step, j) ==> Settled(t, j))
  }

  lemma {:induction false} TracksAlong(states: seq<State>, steps: seq<Step>, i: nat, j: JobId)
    requires |states| == |steps| + 1 && i < |states| && Tracked(states[0], j) && Settled(states[0], j)
    requires forall m :: 0 <= m < |steps| ==> Tracks(states[m], steps[m], states[m + 1], j)
    requires forall m :: 0 <= m < i ==> !Misreports(states[m], steps[m], j)
    ensures Tracked(states[i], j)
    ensures (forall m :: 0 <= m < i ==> !DropsEvent(states[m], steps[m], j)) ==> Settled(states[i], j)
  {
    if i > 0 {
      TracksAlong(states, steps, i - 1, j);
      assert Tracks(states[i - 1], steps[i - 1], states[i], j);
    }
  }

  lemma TracksStep(cfg: Config, s: State, step: Step, t: State, j: JobId)
    requires Inv(s) && Next(cfg, s, step, t)
    ensures Tracks(s, step, t, j)
  {
    if Tracked(s, j) && !Misreports(s, step, j) {
      StepTracks(cfg, s, step, t, j);
    }
  }

  lemma RunTracks(cfg: Config, states: seq<State>, steps: seq<Step>, i: nat, j: JobId)
    requires IsRun(cfg, states, steps) && i < |states|
    requires forall m :: 0 <= m < i ==> !Misreports(states[m], steps[m], j)
    ensures Tracked(states[i], j)
    ensures (forall m :: 0 <= m < i ==> !DropsEvent(states[m], steps[m], j)) ==> Settled(states[i], j)
  {
    forall m | 0 <= m < |steps| ensures Tracks(states[m], steps[m], states[m + 1], j) {
      RunKeeps(cfg, states, steps, m);
      TracksStep(cfg, states[m], steps[m], states[m + 1], j);
    }
    TracksAlong(states, steps, i, j);
  }

  /** An event sent for an outcome that was not stored contradicts the row at once. */
  lemma MisreportShows(cfg: Config, s: State, step: Step, t: State, j: JobId)
    requires Inv(s) && Next(cfg, s, step, t) && Misreports(s, step, j)
    ensures j < |t.db.rows| && !Terminal(t.db.rows[j].status) && !Truthful(t.db, j)
  {
    var w := s.pending[0];
    CountAppend(s.db.outbox, OutboxEvent(w.id, w.event, w.cert), j, w.event);
    assert Count(t.db.outbox, j, w.event) >= 1 && Final(w.event);
  }

  /** The statement that stores an outcome of the job fails. */
  predicate LosesOutcome(s: State, step: Step, j: JobId) {
    step.Lost? && s.pending != [] && SetsOutcome(s.pending[0]) && s.pending[0].id == j
  }

  /** The statement that stores an outcome of the job fails at l, and the event behind it goes
      out at m, before the worker is done with the job. */
  ghost predicate LostThenAnnounced(states: seq<State>, steps: seq<Step>, j: JobId, l: nat, m: nat)
    requires |states| == |steps| + 1
  {
    && l < m < |steps|
    && LosesOutcome(states[l], steps[l], j)
    && steps[m].Send? && states[m].pending != [] && states[m].pending[0].Emit? && Concerns(states[m].pending[0], j)
    && forall k :: l < k <= m ==> states[k].pending != []
  }

  /** An orphan comes of a lost outcome, and stays until the worker is done with the job. */
  ghost predicate OrphanTraced(s: State, step: Step, t: State, j: JobId) {
    && (t.orphan == Some(j) ==> t.pending != [] && (s.orphan == Some(j) || LosesOutcome(s, step, j)))
    && (t.pending != [] && (s.orphan == Some(j) || LosesOutcome(s, step, j)) ==> t.orphan == Some(j))
  }

  lemma OrphanStep(cfg: Config, s: State, step: Step, t: State, j: JobId)
    requires Inv(s) && Inv(t) && Next(cfg, s, step, t)
    ensures OrphanTraced(s, step, t, j)
  {
  }

  ghost predicate OrphansTraced(states: seq<State>, steps: seq<Step>, j: JobId) {
    |states| == |steps| + 1 && states[0].orphan.None?
    && forall m :: 0 <= m < |steps| ==> OrphanTraced(states[m], steps[m], states[m + 1], j)
  }

  lemma RunTracesOrphans(cfg: Config, states: seq<State>, steps: seq<Step>, j: JobId)
    requires IsRun(cfg, states, steps)
    ensures OrphansTraced(states, steps, j)
  {
    forall m | 0 <= m < |steps| ensures OrphanTraced(states[m], steps[m], states[m + 1], j) {
      RunKeeps(cfg, states, steps, m);
      RunKeeps(cfg, states, steps, m + 1);
      OrphanStep(cfg, states[m], steps[m], states[m + 1], j);
    }
  }

  lemma {:induction false} OrphanSource(states: seq<State>, steps: seq<Step>, m: nat, j: JobId) returns (l: nat)
    requires OrphansTraced(states, steps, j) && m < |states| && states[m].orphan == Some(j)
    ensures l < m && LosesOutcome(states[l], steps[l], j) && forall k :: l < k <= m ==> states[k].pending != []
  {
    assert OrphanTraced(states[m - 1], steps[m - 1], states[m - 1 + 1], j);
    if states[m - 1].orphan == Some(j) {
      l := OrphanSource(states, steps, m - 1, j);
    } else {
      l := m - 1;
    }
  }

  lemma {:induction false} OrphanStays(states: seq<State>, steps: seq<Step>, j: JobId, l: nat, m: nat)
    requires OrphansTraced(states, steps, j) && l < m < |states| && LosesOutcome(states[l], steps[l], j)
    requires forall k :: l < k <= m ==> states[k].pending != []
    ensures states[m].orphan == Some(j)
    decreases m
  {
    assert OrphanTraced(states[m - 1], steps[m - 1], states[m - 1 + 1], j);
    if l + 1 < m {
      OrphanStays(states, steps, j, l, m - 1);
    }
  }

  /** In every run, with crashes and failing statements anywhere: a job is announced at most
      once, and only with the outcome it has, exactly as long as no event of its was sent
      after the statement that stores the outcome had failed. */
  lemma OutcomeAnnouncedOnceIff(cfg: Config, states: seq<State>, steps: seq<Step>, i: nat, j: JobId)
    requires IsRun(cfg, states, steps) && i < |states|
    ensures (forall m :: 0 <= m <= i && j < |states[m].db.rows| ==> Truthful(states[m].db, j))
            <==> (forall l: nat, m: nat :: m < i ==> !LostThenAnnounced(states, steps, j, l, m))
  {
    if l: nat, m: nat :| m < i && LostThenAnnounced(states, steps, j, l, m) {
      RunTracesOrphans(cfg, states, steps, j);
      OrphanStays(states, steps, j, l, m);
      RunKeeps(cfg, states, steps, m);
      MisreportShows(cfg, states[m], steps[m], states[m + 1], j);
      assert !Truthful(states[m + 1].db, j);
    } else {
      NoneMisreported(cfg, states, steps, i, j);
      forall m | 0 <= m <= i && j < |states[m].db.rows| ensures Truthful(states[m].db, j) {
        RunTracks(cfg, states, steps, m, j);
      }
    }
  }

  lemma NoneMisreported(cfg: Config, states: seq<State>, steps: seq<Step>, i: nat, j: JobId)
    requires IsRun(cfg, states, steps) && i < |states|
    requires forall l: nat, m: nat :: m < i ==> !LostThenAnnounced(states, steps, j, l, m)
    ensures forall m :: 0 <= m < i ==> !Misreports(states[m], steps[m], j)
  {
    RunTracesOrphans(cfg, states, steps, j);
    forall m: nat | m < i ensures !Misreports(states[m], steps[m], j) {
      if Misreports(states[m], steps[m], j) {
        var l := OrphanSource(states, steps, m, j);
        assert LostThenAnnounced(states, steps, j, l, m);
      }
    }
  }

  // ----- exactly once -----

  /** Ended without an announcement, and none to come. */
  ghost predicate Silent(s: State, j: JobId) {
    && j < |s.db.rows| && About(s.pending, j) == [] && Unannounced(s.db, j)
    && (s.db.rows[j].status.Verified? || s.db.rows[j].status.TimedOut?)
  }

  lemma DropSilences(cfg: Config, s: State, step: Step, t: State, j: JobId)
    requires Inv(s) && Next(cfg, s, step, t) && j < |s.db.rows|
    requires Tracked(s, j) && DropsEvent(s, step, j)
    ensures Silent(t, j)
  {
    var r := About(s.pending, j);
    assert |r| == 1 && r[0].Emit?;
    AboutConcerns(s.pending, j);
    if step.Lost? {
      assert Concerns(s.pending[0], j);
      assert r == [s.pending[0]] + About(s.pending[1..], j);
      assert |About(s.pending[1..], j)| == 0;
      assert t.pending == s.pending[1..];
    } else {
      assert t.pending == [];
    }
    assert About(t.pending, j) == [];
  }

  lemma SilentStays(cfg: Config, s: State, step: Step, t: State, j: JobId)
    requires Inv(s) && Next(cfg, s, step, t) && Silent(s, j)
    ensures Silent(t, j)
  {
    if IsSilent(step) {
      SilentSteps(cfg, s, step, t);
    } else if step.ApiInsert? {
      SilentUnderInsert(s, step.n, j);
    } else if IsCallStep(step) {
      CallsLeaveOutcomes(cfg, s, step, t, j);
    } else if step.Sweep? {
      SilentUnderSweep(s, j);
    } else if step.Begin? {
      assert ClaimedOk(s, s.batch[0]);
      PlanIsShaped(cfg, s.batch[0], step.ans, s.now, s.tickNow, j);
    } else if step.Send? {
      SilentUnderSend(s, j, t);
    }
  }

  lemma SilentUnderInsert(s: State, n: NewJob, j: JobId)
    requires Silent(s, j)
    ensures Silent(s.(db := Insert(s.db, n, s.now)), j)
  {
    forall e | Final(e) ensures Count(s.db.outbox + OutboxOf(n, |s.db.rows|), j, e) == Count(s.db.outbox, j, e) {
      InsertCounts(s.db.outbox, n, |s.db.rows|, j, e);
    }
  }

  lemma SilentUnderSweep(s: State, j: JobId)
    requires Inv(s) && Idle(s) && Silent(s, j)
    ensures Silent(Swept(s), j)
  {
    var ids := ExpiredIds(s.db.rows, s.tickNow, |s.db.rows|);
    SweptRows(s.db, s.now, s.tickNow, ids);
    ExpiredIdsMeaning(s.db.rows, s.tickNow, |s.db.rows|);
    AboutSweep(s.db.rows, ids, j);
  }

  lemma SilentUnderSend(s: State, j: JobId, t: State)
    requires Inv(s) && s.pending != [] && t == AfterSend(s) && Silent(s, j)
    ensures Silent(t, j)
  {
    var w := s.pending[0];
    assert !Concerns(w, j);
    if w.Emit? {
      forall e ensures Count(t.db.outbox, j, e) == Count(s.db.outbox, j, e) + Matches(OutboxEvent(w.id, w.event, w.cert), j, e) {
        CountAppend(s.db.outbox, OutboxEvent(w.id, w.event, w.cert), j, e);
      }
    }
  }

  ghost predicate KeepsSilent(s: State, t: State, j: JobId) {
    Silent(s, j) ==> Silent(t, j)
  }

  lemma {:induction false} SilentChain(states: seq<State>, i: nat, k: nat, j: JobId)
    requires forall m :: 0 < m < |states| ==> KeepsSilent(states[m - 1], states[m], j)
    requires i <= k < |states| && Silent(states[i], j)
    ensures Silent(states[k], j)
    decreases k
  {
    if i < k {
      SilentChain(states, i, k - 1, j);
      assert KeepsSilent(states[k - 1], states[k], j);
    }
  }

  lemma SilentAlong(cfg: Config, states: seq<State>, steps: seq<Step>, i: nat, k: nat, j: JobId)
    requires IsRun(cfg, states, steps) && i <= k < |states| && Silent(states[i], j)
    ensures Silent(states[k], j)
  {
    forall m | 0 < m < |states| ensures KeepsSilent(states[m - 1], states[m], j) {
      RunKeeps(cfg, states, steps, m - 1);
      SilentStep(cfg, states[m - 1], steps[m - 1], states[m], j);
    }
    SilentChain(states, i, k, j);
  }

  lemma SilentStep(cfg: Config, s: State, step: Step, t: State, j: JobId)
    requires Inv(s) && Next(cfg, s, step, t)
    ensures KeepsSilent(s, t, j)
  {
    if Silent(s, j) {
      SilentStays(cfg, s, step, t, j);
    }
  }

  /** Exactly the verified jobs announced as verified, exactly the timed out ones as such. */
  ghost predicate AnnouncedExactly(db: Db, j: JobId)
    requires j < |db.rows|
  {
    && Count(db.outbox, j, RenewalVerified) == (if db.rows[j].status.Verified? then 1 else 0)
    && Count(db.outbox, j, RenewalTimedOut) == (if db.rows[j].status.TimedOut? then 1 else 0)
  }

  /** Whenever nothing about the job is pending, its outcome has been announced exactly once if
      and only if no event of a stored outcome of its was dropped, by a crash or by a failing
      statement; faults elsewhere do not matter. */
  lemma OutcomeAnnouncedExactlyIff(cfg: Config, states: seq<State>, steps: seq<Step>, i: nat, j: JobId)
    requires IsRun(cfg, states, steps) && i < |states| && j < |states[i].db.rows|
    requires About(states[i].pending, j) == []
    requires forall l: nat, m: nat :: m < i ==> !LostThenAnnounced(states, steps, j, l, m)
    ensures AnnouncedExactly(states[i].db, j) <==> (forall m :: 0 <= m < i ==> !DropsEvent(states[m], steps[m], j))
  {
    NoneMisreported(cfg, states, steps, i, j);
    if m :| 0 <= m < i && DropsEvent(states[m], steps[m], j) {
      RunTracks(cfg, states, steps, m, j);
      RunKeeps(cfg, states, steps, m);
      if j >= |states[m].db.rows| {
        AboutRange(states[m].db, states[m].pending, j);
      }
      DropSilences(cfg, states[m], steps[m], states[m + 1], j);
      SilentAlong(cfg, states, steps, m + 1, i, j);
      assert Final(RenewalVerified) && Final(RenewalTimedOut);
    } else {
      RunTracks(cfg, states, steps, i, j);
      assert Settling(RenewalVerified) && Settling(RenewalTimedOut);
    }
  }

  /** In particular without crashes and failing statements. */
  lemma OutcomeAnnouncedExactly(cfg: Config, states: seq<State>, steps: seq<Step>, i: nat, j: JobId)
    requires IsRun(cfg, states, steps) && i < |states| && j < |states[i].db.rows| && states[i].pending == []
    requires forall m :: 0 <= m < i ==> !steps[m].Lost? && !steps[m].Crash?
    ensures AnnouncedExactly(states[i].db, j) && Truthful(states[i].db, j)
  {
    assert forall l: nat, m: nat :: m < i ==> !LostThenAnnounced(states, steps, j, l, m);
    OutcomeAnnouncedExactlyIff(cfg, states, steps, i, j);
    OutcomeAnnouncedOnceIff(cfg, states, steps, i, j);
  }

  // ----- the faults do happen -----

  /** Whatever outcome the worker is about to conclude, if its first statement fails and the
      next two do not, the outcome is announced while the row is untouched. */
  lemma LostOutcomeIsAnnounced(cfg: Config, s: State, ans: Answer) returns (t: State)
    requires Inv(s) && s.pending == [] && s.batch != []
    requires var ws := Plan(cfg, s.batch[0], ans, s.now, s.tickNow);
             |ws| == 3 && SetsOutcome(ws[0]) && ws[1].LogJob? && ws[2].Emit? && Final(ws[2].event)
    ensures Leads(cfg, s, [Begin(ans), Lost, Send, Send], t)
    ensures t.db.rows == s.db.rows && t.batch == s.batch[1..] && t.pending == [] && t.now == s.now
    ensures var e := Plan(cfg, s.batch[0], ans, s.now, s.tickNow)[2].event;
            Count(t.db.outbox, s.batch[0].id, e) == Count(s.db.outbox, s.batch[0].id, e) + 1
  {
    var s1 := Exec(cfg, s, Begin(ans));
    PlanKeepsToItsJob(cfg, s.batch[0], ans, s.now, s.tickNow);
    t := ThirdIsSent(cfg, s1);
    assert [Begin(ans), Lost, Send, Send][1..] == [Lost, Send, Send];
  }

  lemma ThirdIsSent(cfg: Config, s: State) returns (t: State)
    requires |s.pending| == 3 && SetsOutcome(s.pending[0]) && s.pending[1].LogJob? && s.pending[2].Emit?
    ensures Leads(cfg, s, [Lost, Send, Send], t)
    ensures t.db.rows == s.db.rows && t.batch == s.batch && t.pending == [] && t.now == s.now
    ensures var e := s.pending[2]; Count(t.db.outbox, e.id, e.event) == Count(s.db.outbox, e.id, e.event) + 1
  {
    assert s.pending == [s.pending[0], s.pending[1], s.pending[2]];
    t := FirstLost(cfg, s, s.pending[0], s.pending[1], s.pending[2]);
  }

  /** Of three statements the first fails. */
  lemma FirstLost(cfg: Config, s: State, u: Write, l: Write, e: Write) returns (t: State)
    requires s.pending == [u, l, e] && SetsOutcome(u) && l.LogJob? && e.Emit?
    ensures Leads(cfg, s, [Lost, Send, Send], t)
    ensures t.db.rows == s.db.rows && t.batch == s.batch && t.pending == [] && t.now == s.now
    ensures Count(t.db.outbox, e.id, e.event) == Count(s.db.outbox, e.id, e.event) + 1
  {
    var s1 := AfterLost(s);
    assert s1.pending == [l, e];
    var s2 := AfterSend(s1);
    assert s2.pending == [e];
    t := AfterSend(s2);
    StepsThree(cfg, s, s1, s2, t, Lost, Send, Send);
    CountAppend(s.db.outbox, OutboxEvent(e.id, e.event, e.cert), e.id, e.event);
  }

  lemma Submitted(cfg: Config, s: State)
    requires s == Exec(cfg, EMPTY, ApiInsert(WAITING))
    ensures Init(EMPTY) && Inv(EMPTY) && Inv(s)
    ensures s == EMPTY.(db := s.db) && s.db.rows == [RowOf(WAITING, 1)] && Count(s.db.outbox, 0, RenewalTimedOut) == 0
  {
    assert EMPTY.batch == [] && EMPTY.pending == [];
    StepKeeps(cfg, EMPTY, ApiInsert(WAITING), s);
    InsertCounts([], WAITING, 0, 0, RenewalTimedOut);
  }

  /** A migration whose deadline passes between the sweep of a tick and its claim. */
  lemma DeadlineInsideTick(cfg: Config) returns (steps: seq<Step>, t: State)
    ensures Init(EMPTY) && Leads(cfg, EMPTY, steps, t) && Inv(t)
    ensures t.pending == [] && t.now == 2 && |t.batch| == 1 && t.batch[0].id == 0 && !t.batch[0].due
    ensures t.batch[0].snap.status.PendingVerify? && t.batch[0].snap.timeoutAt == 2
    ensures t.batch[0].snap.nextVerify == Some(2)
    ensures |t.db.rows| == 1 && t.db.rows[0].status.PendingVerify? && t.db.rows[0].timeoutAt == 2
    ensures Count(t.db.outbox, 0, RenewalTimedOut) == 0
  {
    var s1 := Exec(cfg, EMPTY, ApiInsert(WAITING));
    Submitted(cfg, s1);
    t := LaterClaimed(cfg, s1);
    steps := [ApiInsert(WAITING), Pass(1), Claim("lifecycle-worker", 1, 1)];
    StepsThree(cfg, EMPTY, s1, s1.(now := 2), t, ApiInsert(WAITING), Pass(1), Claim("lifecycle-worker", 1, 1));
  }

  lemma LaterClaimed(cfg: Config, s: State) returns (t: State)
    requires Inv(s) && Idle(s) && s.db.rows == [RowOf(WAITING, 1)] && s.now == 1
    ensures Next(cfg, s, Pass(1), s.(now := 2)) && Next(cfg, s.(now := 2), Claim("lifecycle-worker", 1, 1), t) && Inv(t)
    ensures |t.db.rows| == 1 && t.db.rows[0].status.PendingVerify? && t.db.rows[0].timeoutAt == 2
    ensures |t.batch| == 1 && t.batch[0] == Claimed(0, t.db.rows[0], false) && t.db.rows[0].nextVerify == Some(2)
    ensures t.db.outbox == s.db.outbox && t.pending == [] && t.now == 2
  {
    var u := s.(now := 2);
    t := GeneralClaim(u, "lifecycle-worker", 1, 1);
    OneClaimed(u, t);
    StepKeeps(cfg, s, Pass(1), u);
    StepKeeps(cfg, u, Claim("lifecycle-worker", 1, 1), t);
  }

  lemma OneClaimed(s: State, t: State)
    requires s.db.rows == [RowOf(WAITING, 1)] && s.now == 2 && t == GeneralClaim(s, "lifecycle-worker", 1, 1)
    ensures |t.db.rows| == 1 && t.db.rows[0].status.PendingVerify? && t.db.rows[0].timeoutAt == 2
    ensures |t.batch| == 1 && t.batch[0] == Claimed(0, t.db.rows[0], false) && t.db.rows[0].nextVerify == Some(2)
    ensures t.db.outbox == s.db.outbox && t.pending == s.pending && t.now == 2
  {
    AllMatchingChosen(s.db.rows, (r: Job) => Claimable(r, 2), 1, 0);
    assert ClaimBatch(s.db.rows, 2, 1) == [0];
  }

  lemma OneExpired(rows: seq<Job>, now: Time)
    requires |rows| == 1 && Overdue(rows[0], now)
    ensures ExpiredIds(rows, now, 1) == [0]
  {
    assert ExpiredIds(rows, now, 0) == [];
  }

  lemma OneSwept(rows: seq<Job>, ids: seq<JobId>)
    requires |rows| == 1 && ids == [0]
    ensures SweepPlan(rows, ids) == [LogJob(0, JobTimedOut), Emit(0, RenewalTimedOut, rows[0].predecessor)]
  {
    assert ids[1..] == [];
  }

  lemma SweptOne(s: State)
    requires |s.db.rows| == 1 && Overdue(s.db.rows[0], s.tickNow)
    ensures Swept(s).pending == [LogJob(0, JobTimedOut), Emit(0, RenewalTimedOut, s.db.rows[0].predecessor)]
    ensures |Swept(s).db.rows| == 1 && Swept(s).db.outbox == s.db.outbox
  {
    OneExpired(s.db.rows, s.tickNow);
    OneSwept(s.db.rows, [0]);
  }

  /** The sweep of the next tick takes the job that verification already announced. */
  lemma SweepAnnouncesOnly(cfg: Config, s: State) returns (t: State)
    requires Idle(s) && |s.db.rows| == 1 && Overdue(s.db.rows[0], s.now)
    ensures Leads(cfg, s, [StartTick, Sweep, Send, Send], t)
    ensures |t.db.rows| == 1 && Count(t.db.outbox, 0, RenewalTimedOut) == Count(s.db.outbox, 0, RenewalTimedOut) + 1
  {
    var s1 := s.(tickNow := s.now);
    var s2 := Swept(s1);
    SweptOne(s1);
    var s3 := AfterSend(s2);
    t := AfterSend(s3);
    StepsFour(cfg, s, s1, s2, s3, t, StartTick, Sweep, Send, Send);
    CountAppend(s.db.outbox, OutboxEvent(0, RenewalTimedOut, s.db.rows[0].predecessor), 0, RenewalTimedOut);
  }

  /** The condition is needed: with one lost UPDATE the same deadline is announced twice. */
  lemma DeadlineAnnouncedTwice(cfg: Config) returns (s: State, steps: seq<Step>, t: State)
    ensures Init(s) && Leads(cfg, s, steps, t)
    ensures |t.db.rows| == 1 && Count(t.db.outbox, 0, RenewalTimedOut) == 2
  {
    var first, u := DeadlineInsideTick(cfg);
    s := EMPTY;
    var ans := Answer(0, LookupFailed, RenewFailed(""), [], PageFailed, {});
    assert Plan(cfg, u.batch[0], ans, u.now, u.tickNow) == TimeOutPlan(0, u.batch[0].snap, "verify timeout", None);
    var v := LostOutcomeIsAnnounced(cfg, u, ans);
    var mid := [Begin(ans), Lost, Send, Send];
    LeadsKeeps(cfg, u, mid, v);
    LeadsConcat(cfg, s, first, u, mid, v);
    t := SweepAnnouncesOnly(cfg, v);
    LeadsConcat(cfg, s, first + mid, v, [StartTick, Sweep, Send, Send], t);
    steps := first + mid + [StartTick, Sweep, Send, Send];
  }

  lemma {:induction false} LeadsKeeps(cfg: Config, s: State, steps: seq<Step>, t: State)
    requires Inv(s) && Leads(cfg, s, steps, t)
    ensures Inv(t)
    decreases |steps|
  {
    if steps != [] {
      StepKeeps(cfg, s, steps[0], Exec(cfg, s, steps[0]));
      LeadsKeeps(cfg, Exec(cfg, s, steps[0]), steps[1..], t);
    }
  }

  /** The exact count needs crash-free runs: a crash right after the sweep's UPDATE loses the
      announcement of every job it ended. */
  lemma CrashLosesAnnouncement(cfg: Config, s: State, j: JobId)
    requires Inv(s) && Idle(s) && j < |s.db.rows| && Overdue(s.db.rows[j], s.tickNow) && Truthful(s.db, j)
    ensures var u := Exec(cfg, Exec(cfg, s, Sweep), Crash);
            Idle(u) && u.db.rows[j].status.TimedOut? && Count(u.db.outbox, j, RenewalTimedOut) == 0
  {
    assert Final(RenewalTimedOut);
    assert Count(s.db.outbox, j, RenewalTimedOut) <= Announces(RenewalTimedOut, s.db.rows[j].status);
  }
}
