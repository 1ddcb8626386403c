/** How often a job is probed: at most eleven completed probes each time it enters
    pending_verify, and one more for every recording statement of the job that is dropped; the
    bound is attained. */
module JobProbes {
  import opened Wrappers
  import opened Backoff
  import opened WireCheck
  import opened JobTable
  import opened WorkerPlan
  import opened JobMachine
  import opened JobInvariants
  import opened JobTheorems
  import opened JobAnnouncements
  import opened Selection
  import AapClient

  /** The worker goes on to look at the wire for this job. */
  predicate Verifies(c: Claimed, now: Time) {
    c.due || c.snap.status.Verifying?
    || (c.snap.status.PendingVerify? && !(c.snap.nextVerify.Some? && c.snap.nextVerify.value > now))
  }

  /** A probe before the deadline that ends in a match or a miss. */
  predicate CompletesProbe(s: State, step: Step, j: JobId) {
    step.Begin? && s.batch != [] && s.batch[0].id == j && Verifies(s.batch[0], s.now)
    && var p := ProbeWire(s.batch[0].snap, step.ans.page, if s.batch[0].due then s.tickNow else s.now);
       p.Success? || p.Miss?
  }

  /** A probe is completed only within the probe budget of the job's window: on a window of a
      day or less never after ten recorded misses. */
  lemma ProbeFitsWindow(cfg: Config, s: State, step: Step, j: JobId)
    requires Inv(s) && Enabled(s, step) && CompletesProbe(s, step, j)
    ensures j < |s.db.rows|
    ensures var r := s.db.rows[j];
            && s.batch[0].snap.attempt == r.attempt
            && Elapsed(r.attempt + 1) < r.timeoutAt - r.created
            && (r.timeoutAt - r.created <= DAY ==> r.attempt <= 10)
  {
    var c := s.batch[0];
    assert ClaimedOk(s, c);
    MissOnSchedule(c.snap, s.now, if c.due then s.tickNow else s.now);
    ElevenProbesPerDay(c.snap.attempt + 1);
  }

  // ----- the part of a plan that records a probe -----

  predicate Records(w: Write, j: JobId) {
    w.id == j && (w.ScheduleNext? || (w.UpdateStatus? && w.u.status == Some(Verified)))
  }

  function Recorders(ws: seq<Write>, j: JobId): seq<Write>
    decreases |ws|
  {
    if ws == [] then [] else (if Records(ws[0], j) then [ws[0]] else []) + Recorders(ws[1..], j)
  }

  lemma {:induction false} RecordsNothing(ws: seq<Write>, j: JobId)
    requires forall k :: 0 <= k < |ws| ==> !Records(ws[k], j)
    ensures Recorders(ws, j) == []
    decreases |ws|
  {
    if ws != [] {
      RecordsNothing(ws[1..], j);
    }
  }

  lemma RecordsPair(n: Write, w: Write, j: JobId)
    requires !Records(n, j) && Records(w, j)
    ensures Recorders([n, w], j) == [w] && Recorders([w], j) == [w]
  {
    assert [n, w][1..] == [w] && [w][1..] == [];
    assert Recorders([w], j) == [w] + Recorders([w][1..], j);
  }

  lemma RecordsFirst(w: Write, l: Write, e: Write, j: JobId)
    requires Records(w, j) && !Records(l, j) && !Records(e, j)
    ensures Recorders([w, l, e], j) == [w]
  {
    assert [w, l, e][1..] == [l, e];
    RecordsNothing([l, e], j);
  }

  /** The worker decides to put the job into pending_verify. */
  predicate Enters(cfg: Config, s: State, step: Step, j: JobId) {
    step.Begin? && s.batch != []
    && var r := Recorders(Plan(cfg, s.batch[0], step.ans, s.now, s.tickNow), j);
       r != [] && r[0].ScheduleNext? && r[0].attempt == 0
  }

  /** What a plan may record for its job. */
  ghost predicate RecordShape(ws: seq<Write>, id: JobId, attempt: nat, completes: bool) {
    var r := Recorders(ws, id);
    && |r| <= 1
    && (NoRef(ws) || r == [])
    && (r != [] && r[0].ScheduleNext? ==> r[0].attempt == 0 || r[0].attempt == attempt + 1)
    && (completes ==> r != [] && (r[0].ScheduleNext? ==> r[0].attempt == attempt + 1))
  }

  lemma QuietRecords(ws: seq<Write>, id: JobId, attempt: nat)
    requires forall k :: 0 <= k < |ws| ==> !Records(ws[k], id)
    ensures RecordShape(ws, id, attempt, false)
  {
    RecordsNothing(ws, id);
  }

  lemma VerifyRecords(id: JobId, job: Job, ans: Answer, now: Time)
    ensures var p := ProbeWire(job, ans.page, now);
            RecordShape(VerifyPlan(id, job, ans, now), id, job.attempt, p.Success? || p.Miss?)
  {
    match ProbeWire(job, ans.page, now)
    case PastDeadline => QuietRecords(VerifyPlan(id, job, ans, now), id, job.attempt);
    case BadExpectation => QuietRecords(VerifyPlan(id, job, ans, now), id, job.attempt);
    case PageUnavailable => QuietRecords([], id, job.attempt);
    case Success(observed) =>
      RecordsFirst(UpdateStatus(id, StatusUpdate(Some(Verified), None, Some(observed), observed.successor, true)),
                   LogJob(id, JobVerified), Emit(id, RenewalVerified, job.predecessor), id);
    case Miss(reason, observed) =>
      MissAlwaysReschedules(now, job.attempt + 1, Deadline(job, now));
      var next := NextVerifyAt(now, job.attempt + 1, Deadline(job, now)).0;
      RecordsPair(UpdateStatus(id, StatusUpdate(None, None, Some(observed), None, false)),
                  ScheduleNext(id, job.attempt + 1, next), id);
  }

  lemma EnterRecords(id: JobId, job: Job, now: Time)
    ensures RecordShape(EnterPlan(id, job, now), id, job.attempt, false)
    ensures RecordShape([LogJob(id, JobAapSuccessful)] + EnterPlan(id, job, now), id, job.attempt, false)
  {
    var w := ScheduleNext(id, 0, NextVerifyAt(now, 1, Deadline(job, now)).0);
    RecordsPair(LogJob(id, JobAapSuccessful), w, id);
    assert [LogJob(id, JobAapSuccessful)] + [w] == [LogJob(id, JobAapSuccessful), w];
  }

  lemma PollRecords(cfg: Config, id: JobId, job: Job, ans: Answer, now: Time)
    ensures RecordShape(PollPlan(cfg, id, job, ans, now), id, job.attempt, false)
  {
    var r := AapClient.Wait(ans.polls);
    if job.aapId.Some? && cfg.hasPoller && r.Done? && MapAapStatus(r.status).AapSuccessful? {
      EnterRecords(id, job, now);
    } else {
      QuietRecords(PollPlan(cfg, id, job, ans, now), id, job.attempt);
    }
  }

  lemma ProcessRecords(cfg: Config, id: JobId, job: Job, ans: Answer, now: Time)
    requires !job.status.Verifying? && !job.status.PendingVerify?
    ensures RecordShape(ProcessPlan(cfg, id, job, ans, now), id, job.attempt, false)
  {
    match job.status
    case AapPending => PollRecords(cfg, id, job, ans, now);
    case AapRunning => PollRecords(cfg, id, job, ans, now);
    case AapSuccessful => EnterRecords(id, job, now);
    case _ => QuietRecords(ProcessPlan(cfg, id, job, ans, now), id, job.attempt);
  }

  lemma PlanRecords(cfg: Config, s: State, c: Claimed, ans: Answer, j: JobId)
    requires s.batch != [] && s.batch[0] == c
    ensures j == c.id ==>
              RecordShape(Plan(cfg, c, ans, s.now, s.tickNow), j, c.snap.attempt, CompletesProbe(s, Begin(ans), j))
    ensures j != c.id ==> Recorders(Plan(cfg, c, ans, s.now, s.tickNow), j) == []
  {
    if j != c.id {
      PlanKeepsToItsJob(cfg, c, ans, s.now, s.tickNow);
      RecordsNothing(Plan(cfg, c, ans, s.now, s.tickNow), j);
    } else if c.due {
      VerifyRecords(c.id, c.snap, ans, s.tickNow);
    } else if Verifies(c, s.now) {
      VerifyRecords(c.id, c.snap, ans, s.now);
    } else if c.snap.status.PendingVerify? {
      QuietRecords([UpdateStatus(c.id, RELEASE)], c.id, c.snap.attempt);
    } else {
      ProcessRecords(cfg, c.id, c.snap, ans, s.now);
    }
  }

  lemma {:induction false} SweepRecordsNothing(rows: seq<Job>, ids: seq<JobId>, j: JobId)
    requires forall k :: 0 <= k < |ids| ==> ids[k] < |rows|
    ensures Recorders(SweepPlan(rows, ids), j) == []
  {
    SweepPlanNeutral(rows, ids);
    RecordsNothing(SweepPlan(rows, ids), j);
  }

  // ----- one job along a run -----

  /** Probes on record since the job entered pending_verify: misses, and a match. */
  function OnRecord(r: Job): nat {
    r.attempt + if r.status.Verified? then 1 else 0
  }

  /** The same once what is pending has been sent. */
  function ToBeOnRecord(s: State, j: JobId): nat
    requires j < |s.db.rows|
  {
    var r := Recorders(s.pending, j);
    if r == [] then OnRecord(s.db.rows[j])
    else if r[0].ScheduleNext? then r[0].attempt
    else s.db.rows[j].attempt + 1
  }

  ghost predicate RecordOk(s: State, j: JobId) {
    j < |s.db.rows| ==>
      && RecordShape(s.pending, j, s.db.rows[j].attempt, false)
      && (Recorders(s.pending, j) != [] ==> !Terminal(s.db.rows[j].status))
  }

  lemma {:induction false} RecordersRange(db: Db, ws: seq<Write>, j: JobId)
    requires PendingOk(db, ws) && j >= |db.rows|
    ensures Recorders(ws, j) == []
    decreases |ws|
  {
    if ws != [] {
      RecordersRange(Apply(db, ws[0]), ws[1..], j);
    }
  }

  lemma {:induction false} RecordersRecord(ws: seq<Write>, j: JobId)
    ensures forall k :: 0 <= k < |Recorders(ws, j)| ==> Records(Recorders(ws, j)[k], j)
    decreases |ws|
  {
    if ws != [] {
      RecordersRecord(ws[1..], j);
    }
  }

  /** The statement that would record a probe of the job fails, or dies with the worker. */
  predicate DropsRecord(s: State, step: Step, j: JobId) {
    || (step.Lost? && s.pending != [] && Records(s.pending[0], j))
    || (step.Crash? && Recorders(s.pending, j) != [])
  }

  /** A step keeps the account: a completed probe adds one to it, a dropped record may take one
      away. */
  ghost predicate Accounts(cfg: Config, s: State, step: Step, t: State, j: JobId) {
    && (RecordOk(s, j) ==> RecordOk(t, j))
    && (RecordOk(s, j) && j < |s.db.rows| ==>
          && j < |t.db.rows|
          && (!Enters(cfg, s, step, j) ==>
                ToBeOnRecord(t, j) + (if DropsRecord(s, step, j) then 1 else 0)
                >= ToBeOnRecord(s, j) + (if CompletesProbe(s, step, j) then 1 else 0)))
  }

  lemma BeginOther(cfg: Config, s: State, ans: Answer, t: State, j: JobId)
    requires Inv(s) && Next(cfg, s, Begin(ans), t) && j != s.batch[0].id
    ensures Accounts(cfg, s, Begin(ans), t, j)
  {
    PlanRecords(cfg, s, s.batch[0], ans, j);
  }

  predicate EntryOf(r: seq<Write>) {
    r != [] && r[0].ScheduleNext? && r[0].attempt == 0
  }

  /** A new plan for the job, on the table as it was. */
  lemma PlanAccounts(cfg: Config, s: State, step: Step, t: State, j: JobId)
    requires t.db == s.db && s.pending == []
    requires j < |s.db.rows| && !Terminal(s.db.rows[j].status)
    requires RecordShape(t.pending, j, s.db.rows[j].attempt, CompletesProbe(s, step, j))
    requires EntryOf(Recorders(t.pending, j)) ==> Enters(cfg, s, step, j)
    ensures Accounts(cfg, s, step, t, j)
  {
    RecordersRecord(t.pending, j);
  }

  lemma BeginOwn(cfg: Config, s: State, ans: Answer, t: State, j: JobId)
    requires Inv(s) && Next(cfg, s, Begin(ans), t) && j == s.batch[0].id
    ensures Accounts(cfg, s, Begin(ans), t, j)
  {
    assert ClaimedOk(s, s.batch[0]);
    PlanRecords(cfg, s, s.batch[0], ans, j);
    PlanAccounts(cfg, s, Begin(ans), t, j);
  }

  lemma BeginAccounts(cfg: Config, s: State, ans: Answer, t: State, j: JobId)
    requires Inv(s) && Next(cfg, s, Begin(ans), t)
    ensures Accounts(cfg, s, Begin(ans), t, j)
  {
    if j == s.batch[0].id {
      BeginOwn(cfg, s, ans, t, j);
    } else {
      BeginOther(cfg, s, ans, t, j);
    }
  }

  /** Nothing behind the head of a plan records once the head has ended the job. */
  lemma RestRecords(s: State, j: JobId)
    requires Inv(s) && s.pending != []
    ensures Recorders(s.pending, j) == (if Records(s.pending[0], j) then [s.pending[0]] else []) + Recorders(s.pending[1..], j)
    ensures SetsOutcome(s.pending[0]) ==> Recorders(s.pending[1..], j) == []
  {
    if SetsOutcome(s.pending[0]) {
      RecordsNothing(s.pending[1..], j);
    }
  }

  lemma SendRecordOk(s: State, t: State, j: JobId)
    requires Inv(s) && s.pending != [] && t == AfterSend(s) && RecordOk(s, j)
    ensures RecordOk(t, j)
  {
    RestRecords(s, j);
    RecordersRecord(s.pending[1..], j);
  }

  lemma SendOnRecord(s: State, t: State, j: JobId)
    requires Inv(s) && s.pending != [] && t == AfterSend(s) && RecordOk(s, j) && j < |s.db.rows|
    ensures ToBeOnRecord(t, j) >= ToBeOnRecord(s, j)
  {
    RestRecords(s, j);
    RecordersRecord(s.pending, j);
  }

  lemma SendAccounts(cfg: Config, s: State, t: State, j: JobId)
    requires Inv(s) && s.pending != [] && t == AfterSend(s)
    ensures Accounts(cfg, s, Send, t, j)
  {
    if RecordOk(s, j) {
      SendRecordOk(s, t, j);
      if j < |s.db.rows| {
        SendOnRecord(s, t, j);
      }
    }
  }

  lemma LostAccounts(cfg: Config, s: State, t: State, j: JobId)
    requires Inv(s) && s.pending != [] && t == AfterLost(s)
    ensures Accounts(cfg, s, Lost, t, j)
  {
    RestRecords(s, j);
  }

  /** Rows that only drift, with the same plan pending. */
  lemma DriftAccounts(cfg: Config, s: State, step: Step, t: State, j: JobId)
    requires Inv(s) && Drift(s.db, t.db) && t.pending == s.pending && IsApiStep(step)
    requires j >= |s.db.rows| ==> Recorders(s.pending, j) == []
    ensures Accounts(cfg, s, step, t, j)
  {
    if j < |s.db.rows| {
      assert RowDrift(s.db.rows[j], t.db.rows[j]);
    }
  }

  lemma ApiAccounts(cfg: Config, s: State, step: Step, t: State, j: JobId)
    requires Inv(s) && Next(cfg, s, step, t) && IsApiStep(step)
    ensures Accounts(cfg, s, step, t, j)
  {
    if j >= |s.db.rows| {
      RecordersRange(s.db, s.pending, j);
    }
    match step
    case ApiInsert(n) =>
      InsertDrifts(s.db, n, s.now);
      DriftAccounts(cfg, s, step, t, j);
    case ApiLook(key, aap, ok) =>
      DriftAccounts(cfg, s, step, t, j);
    case ApiMove(h, m) =>
      MoveDrifts(s.db, s.now, s.calls[h], m);
      DriftAccounts(cfg, s, step, t, j);
    case ApiDropCertificate(cert) =>
      assert Drift(s.db, t.db);
      DriftAccounts(cfg, s, step, t, j);
  }

  lemma SweepAccounts(cfg: Config, s: State, j: JobId)
    requires Inv(s) && Idle(s)
    ensures Accounts(cfg, s, Sweep, Swept(s), j)
  {
    var ids := ExpiredIds(s.db.rows, s.tickNow, |s.db.rows|);
    SweptRows(s.db, s.now, s.tickNow, ids);
    SweepRecordsNothing(s.db.rows, ids, j);
  }

  lemma CrashAccounts(cfg: Config, s: State, t: State, j: JobId)
    requires t == s.(batch := [], pending := [], orphan := None)
    ensures Accounts(cfg, s, Crash, t, j)
  {
  }

  predicate IsQuiet(step: Step) {
    step.Pass? || step.StartTick? || step.Claim? || step.ClaimDue?
  }

  /** Nothing is recorded about a probe, and nothing recorded changes. */
  ghost predicate SameRecords(s: State, t: State) {
    t.pending == s.pending && |t.db.rows| == |s.db.rows|
    && forall j :: 0 <= j < |s.db.rows| ==>
         t.db.rows[j].attempt == s.db.rows[j].attempt && t.db.rows[j].status == s.db.rows[j].status
  }

  lemma QuietLeavesRecords(cfg: Config, s: State, step: Step, t: State)
    requires Next(cfg, s, step, t) && IsQuiet(step)
    ensures SameRecords(s, t)
  {
  }

  lemma SameAccounts(cfg: Config, s: State, step: Step, t: State, j: JobId)
    requires SameRecords(s, t) && IsQuiet(step)
    ensures Accounts(cfg, s, step, t, j)
  {
  }

  lemma StepAccounts(cfg: Config, s: State, step: Step, t: State, j: JobId)
    requires Inv(s) && Next(cfg, s, step, t)
    ensures Accounts(cfg, s, step, t, j)
  {
    if IsApiStep(step) {
      ApiAccounts(cfg, s, step, t, j);
    } else if step.Sweep? {
      SweepAccounts(cfg, s, j);
    } else if step.Begin? {
      BeginAccounts(cfg, s, step.ans, t, j);
    } else if step.Send? {
      SendAccounts(cfg, s, t, j);
    } else if step.Lost? {
      LostAccounts(cfg, s, t, j);
    } else if step.Crash? {
      CrashAccounts(cfg, s, t, j);
    } else {
      QuietLeavesRecords(cfg, s, step, t);
      SameAccounts(cfg, s, step, t, j);
    }
  }

  // ----- over a run -----

  function CompletedProbes(states: seq<State>, steps: seq<Step>, i: nat, k: nat, j: JobId): nat
    requires i <= k <= |steps| < |states|
    decreases k
  {
    if i == k then 0
    else CompletedProbes(states, steps, i, k - 1, j) + if CompletesProbe(states[k - 1], steps[k - 1], j) then 1 else 0
  }

  function DroppedRecords(states: seq<State>, steps: seq<Step>, i: nat, k: nat, j: JobId): nat
    requires i <= k <= |steps| < |states|
    decreases k
  {
    if i == k then 0
    else DroppedRecords(states, steps, i, k - 1, j) + if DropsRecord(states[k - 1], steps[k - 1], j) then 1 else 0
  }

  ghost predicate AccountsAlong(cfg: Config, states: seq<State>, steps: seq<Step>, j: JobId) {
    |states| == |steps| + 1
    && forall m :: 0 <= m < |steps| ==> Accounts(cfg, states[m], steps[m], states[m + 1], j)
  }

  lemma {:induction false} RecordAlong(cfg: Config, states: seq<State>, steps: seq<Step>, i: nat, j: JobId)
    requires AccountsAlong(cfg, states, steps, j) && RecordOk(states[0], j) && i < |states|
    ensures RecordOk(states[i], j)
  {
    if i > 0 {
      RecordAlong(cfg, states, steps, i - 1, j);
      assert Accounts(cfg, states[i - 1], steps[i - 1], states[i], j);
    }
  }

  lemma {:induction false} ProbesOnRecord(cfg: Config, states: seq<State>, steps: seq<Step>, i: nat, k: nat, j: JobId)
    requires AccountsAlong(cfg, states, steps, j) && RecordOk(states[0], j)
    requires i <= k < |states| && j < |states[i].db.rows|
    requires forall m :: i <= m < k ==> !Enters(cfg, states[m], steps[m], j)
    ensures j < |states[k].db.rows|
    ensures CompletedProbes(states, steps, i, k, j) + ToBeOnRecord(states[i], j)
            <= ToBeOnRecord(states[k], j) + DroppedRecords(states, steps, i, k, j)
    decreases k
  {
    if i < k {
      ProbesOnRecord(cfg, states, steps, i, k - 1, j);
      RecordAlong(cfg, states, steps, k - 1, j);
      assert Accounts(cfg, states[k - 1], steps[k - 1], states[k], j);
    }
  }

  lemma RunAccounts(cfg: Config, states: seq<State>, steps: seq<Step>, j: JobId)
    requires IsRun(cfg, states, steps)
    ensures AccountsAlong(cfg, states, steps, j) && RecordOk(states[0], j)
  {
    forall m | 0 <= m < |steps| ensures Accounts(cfg, states[m], steps[m], states[m + 1], j) {
      RunKeeps(cfg, states, steps, m);
      StepAccounts(cfg, states[m], steps[m], states[m + 1], j);
    }
  }

  /** Wherever a probe of the segment is completed, at most ten are on record. */
  ghost predicate RoomForProbes(states: seq<State>, steps: seq<Step>, i: nat, k: nat, j: JobId)
    requires i <= k <= |steps| < |states|
  {
    forall m :: i <= m < k && CompletesProbe(states[m], steps[m], j) ==>
      j < |states[m].db.rows| && ToBeOnRecord(states[m], j) <= 10
  }

  /** Completed probes never run ahead of what is on record, dropped records apart. */
  ghost predicate Balanced(states: seq<State>, steps: seq<Step>, i: nat, m: nat, j: JobId)
    requires i <= m <= |steps| < |states|
  {
    j < |states[m].db.rows|
    && CompletedProbes(states, steps, i, m, j) <= ToBeOnRecord(states[m], j) + DroppedRecords(states, steps, i, m, j)
  }

  lemma {:induction false} ElevenAlong(states: seq<State>, steps: seq<Step>, i: nat, k: nat, j: JobId)
    requires i <= k <= |steps| < |states|
    requires forall m :: i <= m <= k ==> Balanced(states, steps, i, m, j)
    requires RoomForProbes(states, steps, i, k, j)
    ensures CompletedProbes(states, steps, i, k, j) <= 11 + DroppedRecords(states, steps, i, k, j)
    decreases k
  {
    if i < k {
      ElevenAlong(states, steps, i, k - 1, j);
      if CompletesProbe(states[k - 1], steps[k - 1], j) {
        assert Balanced(states, steps, i, k - 1, j);
      }
    }
  }

  /** In every run, as long as a job with a window of a day or less does not enter
      pending_verify anew, it completes at most eleven probes, a successful one included, and
      one more for every statement recording one of them that failed or died with the worker;
      faults elsewhere do not matter. */
  lemma ElevenProbesPerEntry(cfg: Config, states: seq<State>, steps: seq<Step>, i: nat, k: nat, j: JobId)
    requires IsRun(cfg, states, steps) && i <= k < |states| && j < |states[i].db.rows|
    requires forall m :: i <= m < k ==> !Enters(cfg, states[m], steps[m], j)
    requires states[i].db.rows[j].timeoutAt - states[i].db.rows[j].created <= DAY
    ensures CompletedProbes(states, steps, i, k, j) <= 11 + DroppedRecords(states, steps, i, k, j)
  {
    RunAccounts(cfg, states, steps, j);
    forall m | i <= m < k && CompletesProbe(states[m], steps[m], j)
      ensures j < |states[m].db.rows| && ToBeOnRecord(states[m], j) <= 10
    {
      LastProbe(cfg, states, steps, i, m, j);
    }
    forall m | i <= m <= k ensures Balanced(states, steps, i, m, j) {
      ProbesOnRecord(cfg, states, steps, i, m, j);
    }
    ElevenAlong(states, steps, i, k, j);
  }

  /** Before a completed probe at most ten are on record. */
  lemma LastProbe(cfg: Config, states: seq<State>, steps: seq<Step>, i: nat, k: nat, j: JobId)
    requires IsRun(cfg, states, steps) && i <= k < |steps| && j < |states[i].db.rows|
    requires states[i].db.rows[j].timeoutAt - states[i].db.rows[j].created <= DAY
    requires CompletesProbe(states[k], steps[k], j)
    ensures j < |states[k].db.rows| && ToBeOnRecord(states[k], j) <= 10
  {
    RunEvolves(cfg, states, steps);
    WindowStays(states, i, k, j);
    RunKeeps(cfg, states, steps, k);
    assert Next(cfg, states[k], steps[k], states[k + 1]);
    ProbeFitsWindow(cfg, states[k], steps[k], j);
    assert ClaimedOk(states[k], states[k].batch[0]);
  }

  // ----- the bound is attained -----

  const NOWHERE := ExpectedWire("", "", ZERO_TIME)

  /** A migration with a window of a day, due at once, whose certificate will never be seen. */
  const HOPELESS := MigratePending(0, "fp", Wire(NOWHERE), DAY, 1)

  /** So many completed probes and dropped records of job 0 since its insert, and no new entry. */
  ghost predicate Tally(cfg: Config, states: seq<State>, steps: seq<Step>, probes: nat, dropped: nat) {
    IsRun(cfg, states, steps) && |steps| >= 1
    && |states[1].db.rows| == 1 && states[1].db.rows[0].timeoutAt - states[1].db.rows[0].created == DAY
    && CompletedProbes(states, steps, 1, |steps|, 0) == probes
    && DroppedRecords(states, steps, 1, |steps|, 0) == dropped
    && forall m :: 1 <= m < |steps| ==> !Enters(cfg, states[m], steps[m], 0)
  }

  lemma {:induction false} CountsOfPrefix(states: seq<State>, steps: seq<Step>, t: State, step: Step, i: nat, k: nat, j: JobId)
    requires i <= k <= |steps| < |states|
    ensures CompletedProbes(states + [t], steps + [step], i, k, j) == CompletedProbes(states, steps, i, k, j)
    ensures DroppedRecords(states + [t], steps + [step], i, k, j) == DroppedRecords(states, steps, i, k, j)
    decreases k
  {
    if i < k {
      CountsOfPrefix(states, steps, t, step, i, k - 1, j);
    }
  }

  lemma TallyStep(cfg: Config, states: seq<State>, steps: seq<Step>, probes: nat, dropped: nat, step: Step, t: State)
    requires Tally(cfg, states, steps, probes, dropped) && Next(cfg, states[|steps|], step, t)
    requires !Enters(cfg, states[|steps|], step, 0)
    ensures var s := states[|steps|];
            Tally(cfg, states + [t], steps + [step],
                  probes + (if CompletesProbe(s, step, 0) then 1 else 0), dropped + (if DropsRecord(s, step, 0) then 1 else 0))
  {
    CountsOfPrefix(states, steps, t, step, 1, |steps|, 0);
  }

  /** Job 0 waits for the probe after its a-th recorded miss, at most late behind schedule. */
  predicate Waits(s: State, a: nat, late: nat) {
    && Idle(s) && |s.db.rows| == 1
    && var r := s.db.rows[0];
       && r.status.PendingVerify? && r.attempt == a && r.expected == Wire(NOWHERE)
       && r.created == 1 && r.timeoutAt == 1 + DAY && LeaseFree(r, s.now)
       && r.nextVerify.Some? && r.nextVerify.value <= 1 + Elapsed(a + 1) + late && s.now <= 1 + Elapsed(a + 1) + late
  }

  /** A run that has come so far, with job 0 waiting for its next probe. */
  ghost predicate Reached(cfg: Config, states: seq<State>, steps: seq<Step>, probes: nat, dropped: nat, a: nat, late: nat) {
    Tally(cfg, states, steps, probes, dropped) && Waits(states[|steps|], a, late)
  }

  function Unseen(): Answer {
    Answer(0, LookupFailed, RenewFailed(""), [], PageFailed, {})
  }

  /** The probe is due, and the worker has claimed the job. */
  lemma ProbeClaimed(s: State, t: State)
    requires |s.db.rows| == 1 && Claimable(s.db.rows[0], s.now) && t == GeneralClaim(s, "lifecycle-worker", 1, 1)
    ensures t.db.rows == [s.db.rows[0].(leaseOwner := Some("lifecycle-worker"), leaseExpires := Some(s.now + 1))]
    ensures t.batch == [Claimed(0, t.db.rows[0], false)] && t.now == s.now && t.pending == s.pending
  {
    AllMatchingChosen(s.db.rows, (r: Job) => Claimable(r, s.now), 1, 0);
    assert ClaimBatch(s.db.rows, s.now, 1) == [0];
  }

  lemma MissPlanned(snap: Job, now: Time)
    requires snap.expected == Wire(NOWHERE) && snap.timeoutAt > 0 && now < snap.timeoutAt
    ensures ProbeWire(snap, PageFailed, now).Miss?
    ensures var ws := VerifyPlan(0, snap, Unseen(), now);
            && |ws| == 2 && ws[0].UpdateStatus? && ws[0].u.status.None? && !ws[0].u.clearLease && ws[0].id == 0
            && ws[1] == ScheduleNext(0, snap.attempt + 1, NextVerifyAt(now, snap.attempt + 1, snap.timeoutAt).0)
  {
    MissAlwaysReschedules(now, snap.attempt + 1, snap.timeoutAt);
  }

  /** The row of job 0 while the worker holds it for a probe that is due. */
  predicate HeldRow(r: Job, now: Time, a: nat, late: nat) {
    && r.status.PendingVerify? && r.attempt == a && r.expected == Wire(NOWHERE)
    && r.created == 1 && r.timeoutAt == 1 + DAY && r.leaseExpires == Some(now + 1)
    && r.nextVerify.Some? && r.nextVerify.value <= now <= 1 + Elapsed(a + 1) + late
  }

  predicate Held(s: State, a: nat, late: nat) {
    && |s.db.rows| == 1 && s.batch == [Claimed(0, s.db.rows[0], false)] && s.pending == []
    && HeldRow(s.db.rows[0], s.now, a, late)
  }

  /** The worker has looked at the wire in vain and has still to record it. */
  predicate Missed(s: State, a: nat, late: nat) {
    && |s.db.rows| == 1 && s.batch == [] && HeldRow(s.db.rows[0], s.now, a, late)
    && s.pending == [ScheduleNext(0, a + 1, NextVerifyAt(s.now, a + 1, 1 + DAY).0)]
  }

  /** Until the probe is due. */
  function Delay(s: State): nat
    requires |s.db.rows| == 1 && s.db.rows[0].nextVerify.Some?
  {
    if s.now < s.db.rows[0].nextVerify.value then s.db.rows[0].nextVerify.value - s.now else 0
  }

  lemma ClaimWhenDue(s: State, a: nat, late: nat) returns (t: State)
    requires Waits(s, a, late) && Elapsed(a + 1) + late < DAY
    ensures var u := s.(now := s.now + Delay(s));
            t == GeneralClaim(u, "lifecycle-worker", 1, 1) && Idle(u)
    ensures Held(t, a, late)
  {
    var u := s.(now := s.now + Delay(s));
    t := GeneralClaim(u, "lifecycle-worker", 1, 1);
    ProbeClaimed(u, t);
  }

  lemma ProbeDue(cfg: Config, states: seq<State>, steps: seq<Step>, probes: nat, dropped: nat, a: nat, late: nat)
    returns (states': seq<State>, steps': seq<Step>)
    requires Reached(cfg, states, steps, probes, dropped, a, late)
    requires Elapsed(a + 1) + late < DAY
    ensures Tally(cfg, states', steps', probes, dropped) && Held(states'[|steps'|], a, late)
  {
    var s := states[|steps|];
    var u := s.(now := s.now + Delay(s));
    var t := ClaimWhenDue(s, a, late);
    TallyQuiet(cfg, states, steps, probes, dropped, Pass(Delay(s)), u);
    TallyQuiet(cfg, states + [u], steps + [Pass(Delay(s))], probes, dropped, Step.Claim("lifecycle-worker", 1, 1), t);
    states', steps' := states + [u] + [t], steps + [Pass(Delay(s))] + [Step.Claim("lifecycle-worker", 1, 1)];
  }

  lemma TallyQuiet(cfg: Config, states: seq<State>, steps: seq<Step>, probes: nat, dropped: nat, step: Step, t: State)
    requires Tally(cfg, states, steps, probes, dropped) && Next(cfg, states[|steps|], step, t)
    requires step.Pass? || step.Claim? || step.Send?
    ensures Tally(cfg, states + [t], steps + [step], probes, dropped)
  {
    TallyStep(cfg, states, steps, probes, dropped, step, t);
  }

  lemma ProbeBegins(cfg: Config, s: State, a: nat, late: nat, t: State)
    requires Held(s, a, late) && Elapsed(a + 1) + late < DAY && t == Exec(cfg, s, Begin(Unseen()))
    ensures CompletesProbe(s, Begin(Unseen()), 0) && !Enters(cfg, s, Begin(Unseen()), 0)
    ensures t == s.(batch := [], pending := t.pending, renews := t.renews)
    ensures |t.pending| == 2 && t.pending[0].UpdateStatus? && t.pending[0].u.status.None? && !t.pending[0].u.clearLease
    ensures t.pending[0].id == 0
    ensures t.pending[1] == ScheduleNext(0, a + 1, NextVerifyAt(s.now, a + 1, 1 + DAY).0)
  {
    MissPlanned(s.db.rows[0], s.now);
    RecordsPair(t.pending[0], t.pending[1], 0);
    assert t.pending == [t.pending[0], t.pending[1]];
  }

  lemma Probed(cfg: Config, states: seq<State>, steps: seq<Step>, probes: nat, dropped: nat, a: nat, late: nat)
    returns (states': seq<State>, steps': seq<Step>)
    requires Tally(cfg, states, steps, probes, dropped) && Held(states[|steps|], a, late)
    requires Elapsed(a + 1) + late < DAY
    ensures Tally(cfg, states', steps', probes + 1, dropped) && Missed(states'[|steps'|], a, late)
  {
    var s := states[|steps|];
    var s1 := Exec(cfg, s, Begin(Unseen()));
    ProbeBegins(cfg, s, a, late, s1);
    TallyStep(cfg, states, steps, probes, dropped, Begin(Unseen()), s1);
    var s2 := AfterSend(s1);
    TallyQuiet(cfg, states + [s1], steps + [Begin(Unseen())], probes + 1, dropped, Send, s2);
    states', steps' := states + [s1] + [s2], steps + [Begin(Unseen())] + [Send];
  }

  /** The miss is recorded. */
  lemma ProbeRecorded(cfg: Config, states: seq<State>, steps: seq<Step>, probes: nat, dropped: nat, a: nat, late: nat)
    returns (states': seq<State>, steps': seq<Step>)
    requires Reached(cfg, states, steps, probes, dropped, a, late)
    requires Elapsed(a + 1) + late < DAY
    ensures Reached(cfg, states', steps', probes + 1, dropped, a + 1, late)
  {
    states', steps' := ProbeDue(cfg, states, steps, probes, dropped, a, late);
    states', steps' := Probed(cfg, states', steps', probes, dropped, a, late);
    var s := states'[|steps'|];
    var t := AfterSend(s);
    TallyQuiet(cfg, states', steps', probes + 1, dropped, Send, t);
    states', steps' := states' + [t], steps' + [Send];
  }

  /** The miss is not recorded, and the lease runs out. */
  lemma ProbeForgotten(cfg: Config, states: seq<State>, steps: seq<Step>, probes: nat, dropped: nat, a: nat, late: nat)
    returns (states': seq<State>, steps': seq<Step>)
    requires Reached(cfg, states, steps, probes, dropped, a, late)
    requires Elapsed(a + 1) + late < DAY
    ensures Reached(cfg, states', steps', probes + 1, dropped + 1, a, late + 2)
  {
    states', steps' := ProbeDue(cfg, states, steps, probes, dropped, a, late);
    states', steps' := Probed(cfg, states', steps', probes, dropped, a, late);
    var s := states'[|steps'|];
    var t := AfterLost(s);
    TallyStep(cfg, states', steps', probes + 1, dropped, Lost, t);
    var u := t.(now := t.now + 2);
    TallyQuiet(cfg, states' + [t], steps' + [Lost], probes + 1, dropped + 1, Pass(2), u);
    states', steps' := states' + [t] + [u], steps' + [Lost] + [Pass(2)];
  }

  lemma HopelessInserted(cfg: Config) returns (states: seq<State>, steps: seq<Step>)
    ensures Reached(cfg, states, steps, 0, 0, 0, 0)
  {
    var t := Exec(cfg, EMPTY, ApiInsert(HOPELESS));
    assert t.db.rows == [RowOf(HOPELESS, 1)];
    states, steps := [EMPTY, t], [ApiInsert(HOPELESS)];
  }

  lemma {:induction false} Forgets(cfg: Config, dropped: nat) returns (states: seq<State>, steps: seq<Step>)
    requires 2 * dropped < DAY
    ensures Reached(cfg, states, steps, dropped, dropped, 0, 2 * dropped)
  {
    if dropped == 0 {
      states, steps := HopelessInserted(cfg);
    } else {
      states, steps := Forgets(cfg, dropped - 1);
      states, steps := ProbeForgotten(cfg, states, steps, dropped - 1, dropped - 1, 0, 2 * (dropped - 1));
    }
  }

  lemma {:induction false} ForgetsThenRecords(cfg: Config, dropped: nat, a: nat, n: nat) returns (states: seq<State>, steps: seq<Step>)
    requires a <= n && n >= 1 && Elapsed(n) + 2 * dropped < DAY
    ensures Reached(cfg, states, steps, dropped + a, dropped, a, 2 * dropped)
    decreases a
  {
    if a == 0 {
      states, steps := Forgets(cfg, dropped);
    } else {
      states, steps := ForgetsThenRecords(cfg, dropped, a - 1, n);
      ElapsedGrows(a, n);
      states, steps := ProbeRecorded(cfg, states, steps, dropped + (a - 1), dropped, a - 1, 2 * dropped);
    }
  }

  /** With any number of dropped records that fits the day there is a run that completes eleven
      probes more than that; one dropped record makes it twelve. */
  lemma ElevenIsAttained(cfg: Config, dropped: nat) returns (states: seq<State>, steps: seq<Step>)
    requires Elapsed(11) + 2 * dropped < DAY
    ensures IsRun(cfg, states, steps) && |steps| >= 1
    ensures |states[1].db.rows| == 1 && states[1].db.rows[0].timeoutAt - states[1].db.rows[0].created == DAY
    ensures forall m :: 1 <= m < |steps| ==> !Enters(cfg, states[m], steps[m], 0)
    ensures CompletedProbes(states, steps, 1, |steps|, 0) == 11 + dropped
    ensures DroppedRecords(states, steps, 1, |steps|, 0) == dropped
  {
    states, steps := ForgetsThenRecords(cfg, dropped, 11, 11);
  }
}
