/** Who writes the AAP job id of a row. The worker and the claim handlers all read the row
    before they write it, none of them looks again, and the last one wins. */
module JobIds {
  import opened Wrappers
  import opened Backoff
  import opened WireCheck
  import opened JobTable
  import opened WorkerPlan
  import opened JobMachine
  import opened JobInvariants
  import opened JobTheorems

  // ----- the worker's launches -----

  /** The worker holds the job with a snapshot it will launch from. */
  predicate LaunchesFrom(cfg: Config, c: Claimed, j: JobId) {
    c.id == j && !c.due && c.snap.status.Launching? && c.snap.predecessor.Some? && cfg.hasRenewer
  }

  predicate Refers(w: Write, j: JobId) {
    w.SetAapRef? && w.id == j
  }

  /** The worker holds the job for launching, or its id is on the way to the table. */
  predicate WillLaunch(cfg: Config, s: State, j: JobId) {
    (exists k :: 0 <= k < |s.batch| && LaunchesFrom(cfg, s.batch[k], j))
    || (exists k :: 0 <= k < |s.pending| && Refers(s.pending[k], j))
  }

  function LaunchWrites(id: JobId, aap: int, wf: bool, cert: Option<CertId>): seq<Write> {
    [SetAapRef(id, aap, wf, AapPending), LogJob(id, JobLaunched),
     Emit(id, RenewalLaunched, cert), UpdateStatus(id, RELEASE)]
  }

  predicate LogsLaunch(w: Write) {
    w.Emit? && w.event.RenewalLaunched?
  }

  predicate Unrelated(w: Write) {
    !w.SetAapRef? && !LogsLaunch(w)
  }

  ghost predicate AllUnrelated(ws: seq<Write>) {
    forall k :: 0 <= k < |ws| ==> Unrelated(ws[k])
  }

  lemma VerifyIsUnrelated(id: JobId, snap: Job, ans: Answer, now: Time)
    ensures AllUnrelated(VerifyPlan(id, snap, ans, now))
  {
  }

  lemma PollIsUnrelated(cfg: Config, id: JobId, snap: Job, ans: Answer, now: Time)
    ensures AllUnrelated(PollPlan(cfg, id, snap, ans, now))
  {
  }

  /** A plan records a launch exactly when Renew was called and accepted. */
  lemma PlanLaunches(cfg: Config, c: Claimed, ans: Answer, now: Time, tickNow: Time)
    requires c.snap.status.Launching? ==> c.snap.aapId.None?
    ensures var ws := Plan(cfg, c, ans, now, tickNow);
            && (WorkerPlan.Renews(cfg, c, ans) ==> LaunchesFrom(cfg, c, c.id))
            && (WorkerPlan.Renews(cfg, c, ans) && ans.renew.Renewed? ==>
                  ws == LaunchWrites(c.id, ans.renew.aap, ans.renew.wf, c.snap.predecessor))
            && (!(WorkerPlan.Renews(cfg, c, ans) && ans.renew.Renewed?) ==> AllUnrelated(ws))
  {
    VerifyIsUnrelated(c.id, c.snap, ans, tickNow);
    VerifyIsUnrelated(c.id, c.snap, ans, now);
    PollIsUnrelated(cfg, c.id, c.snap, ans, now);
  }

  lemma {:induction false} SweepIsUnrelated(rows: seq<Job>, ids: seq<JobId>)
    requires forall k :: 0 <= k < |ids| ==> ids[k] < |rows|
    ensures AllUnrelated(SweepPlan(rows, ids))
    decreases |ids|
  {
    if ids != [] {
      SweepIsUnrelated(rows, ids[1..]);
    }
  }

  // ----- rows keep their keys, and an id once there does not go -----

  ghost predicate Grows(db: Db, db': Db) {
    && |db.rows| <= |db'.rows|
    && (forall j :: 0 <= j < |db.rows| ==>
          && db'.rows[j].key == db.rows[j].key
          && (db.rows[j].aapId.Some? ==> db'.rows[j].aapId.Some?))
  }

  lemma WriteGrows(db: Db, w: Write)
    ensures Grows(db, Apply(db, w))
  {
  }

  lemma StepGrows(cfg: Config, s: State, step: Step, t: State)
    requires Next(cfg, s, step, t)
    ensures Grows(s.db, t.db)
  {
    match step
    case Send => WriteGrows(s.db, s.pending[0]);
    case ApiMove(h, m) => MoveGrows(s.db, s.calls[h], m);
    case _ =>
  }

  lemma MoveGrows(db: Db, c: Call, m: Move)
    requires CanMove(c, m)
    ensures Grows(db, DbAfter(db, c, m))
  {
  }

  lemma {:induction false} FindKeyGrows(rows: seq<Job>, rows': seq<Job>, key: IdemKey, n: nat, n': nat)
    requires n <= |rows| && n <= n' <= |rows'|
    requires forall j :: 0 <= j < n ==> rows'[j].key == rows[j].key
    requires FindKey(rows, key, n).Some?
    ensures FindKey(rows', key, n') == FindKey(rows, key, n)
    decreases n'
  {
    if n < n' {
      FindKeyGrows(rows, rows', key, n, n' - 1);
    } else if FindKey(rows, key, n - 1).Some? {
      FindKeyGrows(rows, rows', key, n - 1, n - 1);
    } else {
      FindKeyNone(rows, rows', key, n - 1);
    }
  }

  lemma {:induction false} FindKeyNone(rows: seq<Job>, rows': seq<Job>, key: IdemKey, n: nat)
    requires n <= |rows| && n <= |rows'|
    requires forall j :: 0 <= j < n ==> rows'[j].key == rows[j].key
    ensures FindKey(rows, key, n).None? <==> FindKey(rows', key, n).None?
  {
    if n > 0 {
      FindKeyNone(rows, rows', key, n - 1);
    }
  }

  // ----- claim handlers and their jobs -----

  /** A handler past its SELECT is about the job of its key; once past its UPDATE, that job has
      an id, though not necessarily the handler's. */
  ghost predicate HandlerOk(db: Db, c: Call) {
    && (c.phase.Writing? || c.phase.Recorded? || c.phase.Announcing? ==>
          FindKey(db.rows, c.key, |db.rows|) == Some(c.phase.id))
    && (c.phase.Recorded? || c.phase.Announcing? ==>
          c.phase.id < |db.rows| && db.rows[c.phase.id].aapId.Some?)
    && (c.phase.Announcing? ==> c.first)
  }

  lemma HandlerGrows(db: Db, db': Db, c: Call)
    requires HandlerOk(db, c) && Grows(db, db')
    ensures HandlerOk(db', c)
  {
    if FindKey(db.rows, c.key, |db.rows|).Some? {
      FindKeyGrows(db.rows, db'.rows, c.key, |db.rows|, |db'.rows|);
    }
  }

  lemma MoveKeepsHandler(db: Db, c: Call, m: Move)
    requires HandlerOk(db, c) && CanMove(c, m)
    ensures HandlerOk(DbAfter(db, c, m), CallAfter(db, c, m))
  {
    MoveGrows(db, c, m);
    HandlerGrows(db, DbAfter(db, c, m), c);
  }

  ghost predicate HandlersOk(s: State) {
    forall h :: 0 <= h < |s.calls| ==> HandlerOk(s.db, s.calls[h])
  }

  lemma HandlersKeep(cfg: Config, s: State, step: Step, t: State)
    requires Next(cfg, s, step, t) && HandlersOk(s)
    ensures HandlersOk(t)
  {
    StepGrows(cfg, s, step, t);
    forall h | 0 <= h < |t.calls| ensures HandlerOk(t.db, t.calls[h]) {
      if step.ApiMove? && h == step.h {
        MoveKeepsHandler(s.db, s.calls[h], step.m);
      } else if h < |s.calls| {
        HandlerGrows(s.db, t.db, s.calls[h]);
      }
    }
  }

  // ----- the worker's statements -----

  /** An id is only ever sent as the head of a complete launch record, and the launch is logged
      behind it. */
  ghost predicate RefFirst(ws: seq<Write>) {
    && (forall k :: 0 < k < |ws| ==> !ws[k].SetAapRef?)
    && (ws != [] && ws[0].SetAapRef? ==>
          && |ws| == 4 && ws[2].Emit?
          && ws == LaunchWrites(ws[0].id, ws[0].aap, ws[0].wf, ws[2].cert))
  }

  ghost predicate LogsBehindId(db: Db, ws: seq<Write>) {
    forall k :: 0 <= k < |ws| && LogsLaunch(ws[k]) ==>
      ws[0].SetAapRef? || (ws[k].id < |db.rows| && db.rows[ws[k].id].aapId.Some?)
  }

  ghost predicate IdInv(s: State) {
    HandlersOk(s) && RefFirst(s.pending) && LogsBehindId(s.db, s.pending)
  }

  lemma LogsGrow(db: Db, db': Db, ws: seq<Write>)
    requires LogsBehindId(db, ws) && Grows(db, db')
    ensures LogsBehindId(db', ws)
  {
  }

  lemma SendKeepsShape(s: State, t: State)
    requires Inv(s) && IdInv(s) && s.pending != [] && t == AfterSend(s)
    ensures RefFirst(t.pending) && LogsBehindId(t.db, t.pending)
  {
    var w := s.pending[0];
    WriteGrows(s.db, w);
    if w.SetAapRef? {
      assert WriteOk(s.db, w);
      assert t.pending == LaunchWrites(w.id, w.aap, w.wf, s.pending[2].cert)[1..];
    } else {
      forall k | 0 <= k < |t.pending| ensures t.pending[k] == s.pending[k + 1] {
      }
    }
  }

  lemma LostKeepsShape(s: State, t: State)
    requires IdInv(s) && s.pending != [] && t == AfterLost(s)
    ensures RefFirst(t.pending) && LogsBehindId(t.db, t.pending)
  {
    if !s.pending[0].SetAapRef? {
      forall k | 0 <= k < |t.pending| ensures t.pending[k] == s.pending[k + 1] {
      }
    }
  }

  lemma UnrelatedShape(db: Db, ws: seq<Write>)
    requires AllUnrelated(ws)
    ensures RefFirst(ws) && LogsBehindId(db, ws)
  {
  }

  lemma BeginKeepsShape(cfg: Config, s: State, ans: Answer, t: State)
    requires Inv(s) && Next(cfg, s, Begin(ans), t)
    ensures RefFirst(t.pending) && LogsBehindId(t.db, t.pending)
  {
    var c := s.batch[0];
    assert ClaimedOk(s, c);
    PlanLaunches(cfg, c, ans, s.now, s.tickNow);
    if WorkerPlan.Renews(cfg, c, ans) && ans.renew.Renewed? {
      assert t.pending[0].SetAapRef?;
    } else {
      UnrelatedShape(t.db, t.pending);
    }
  }

  lemma SweepKeepsShape(s: State)
    requires Inv(s)
    ensures RefFirst(Swept(s).pending) && LogsBehindId(Swept(s).db, Swept(s).pending)
  {
    var ids := ExpiredIds(s.db.rows, s.tickNow, |s.db.rows|);
    SweptRows(s.db, s.now, s.tickNow, ids);
    SweepIsUnrelated(s.db.rows, ids);
    UnrelatedShape(Swept(s).db, Swept(s).pending);
  }

  lemma IdStepKeeps(cfg: Config, s: State, step: Step, t: State)
    requires Inv(s) && IdInv(s) && Next(cfg, s, step, t)
    ensures IdInv(t)
  {
    HandlersKeep(cfg, s, step, t);
    if step.Send? {
      SendKeepsShape(s, t);
    } else if step.Lost? {
      LostKeepsShape(s, t);
    } else if step.Begin? {
      BeginKeepsShape(cfg, s, step.ans, t);
    } else if step.Sweep? {
      SweepKeepsShape(s);
    } else if step.Crash? {
    } else {
      StepGrows(cfg, s, step, t);
      LogsGrow(s.db, t.db, s.pending);
    }
  }

  lemma {:induction false} IdRunKeeps(cfg: Config, states: seq<State>, steps: seq<Step>, i: nat)
    requires IsRun(cfg, states, steps) && i < |states|
    ensures Inv(states[i]) && IdInv(states[i])
  {
    RunKeeps(cfg, states, steps, i);
    if i > 0 {
      IdRunKeeps(cfg, states, steps, i - 1);
      IdStepKeeps(cfg, states[i - 1], steps[i - 1], states[i]);
    }
  }

  // ----- an id once recorded is never missing again -----

  predicate HasId(db: Db, j: JobId) {
    j < |db.rows| && db.rows[j].aapId.Some?
  }

  ghost predicate Grown(states: seq<State>) {
    forall m :: 0 < m < |states| ==> Grows(states[m - 1].db, states[m].db)
  }

  lemma RunGrows(cfg: Config, states: seq<State>, steps: seq<Step>)
    requires IsRun(cfg, states, steps)
    ensures Grown(states)
  {
    forall m | 0 < m < |states| ensures Grows(states[m - 1].db, states[m].db) {
      StepGrows(cfg, states[m - 1], steps[m - 1], states[m]);
    }
  }

  lemma {:induction false} GrownFrom(states: seq<State>, i: nat, k: nat)
    requires Grown(states) && i <= k < |states|
    ensures Grows(states[i].db, states[k].db)
    decreases k
  {
    if i < k {
      GrownFrom(states, i, k - 1);
      assert Grows(states[k - 1].db, states[k].db);
    }
  }

  lemma HasIdStays(cfg: Config, states: seq<State>, steps: seq<Step>, i: nat, k: nat, j: JobId)
    requires IsRun(cfg, states, steps) && i <= k < |states| && HasId(states[i].db, j)
    ensures HasId(states[k].db, j)
  {
    RunGrows(cfg, states, steps);
    GrownFrom(states, i, k);
  }

  // ----- who writes -----

  predicate WorkerWrites(s: State, step: Step, j: JobId) {
    step.Send? && s.pending != [] && Refers(s.pending[0], j)
  }

  predicate HandlerWrites(s: State, step: Step, j: JobId) {
    step.ApiMove? && step.m.UpdateRow? && AboutToWrite(s, step.h, j)
  }

  /** The id such a step puts into the row. */
  function WrittenId(s: State, step: Step, j: JobId): int
    requires WorkerWrites(s, step, j) || HandlerWrites(s, step, j)
  {
    if step.Send? then s.pending[0].aap else s.calls[step.h].aap
  }

  lemma WritersDecide(cfg: Config, s: State, step: Step, t: State, j: JobId)
    requires Next(cfg, s, step, t) && j < |s.db.rows|
    ensures j < |t.db.rows|
    ensures WorkerWrites(s, step, j) || HandlerWrites(s, step, j) ==> t.db.rows[j].aapId == Some(WrittenId(s, step, j))
    ensures !WorkerWrites(s, step, j) && !HandlerWrites(s, step, j) ==> t.db.rows[j].aapId == s.db.rows[j].aapId
  {
  }

  // ----- what the writer had read -----

  predicate AboutToWrite(s: State, h: nat, j: JobId) {
    h < |s.calls| && s.calls[h].phase.Writing? && s.calls[h].phase.id == j
  }

  predicate ReadsNoId(s: State, step: Step, h: nat, j: JobId) {
    step == ApiMove(h, SelectRow) && j < |s.db.rows| && s.db.rows[j].aapId.None?
  }

  lemma HandlerReadStep(cfg: Config, s: State, step: Step, t: State, h: nat, j: JobId)
    requires Next(cfg, s, step, t) && AboutToWrite(t, h, j) && !AboutToWrite(s, h, j)
    ensures ReadsNoId(s, step, h, j)
  {
  }

  ghost predicate WritersTraced(states: seq<State>, steps: seq<Step>, h: nat, j: JobId) {
    |states| == |steps| + 1 && !AboutToWrite(states[0], h, j)
    && forall m :: 0 <= m < |steps| && AboutToWrite(states[m + 1], h, j) ==>
         AboutToWrite(states[m], h, j) || ReadsNoId(states[m], steps[m], h, j)
  }

  lemma RunTracesWriters(cfg: Config, states: seq<State>, steps: seq<Step>, h: nat, j: JobId)
    requires IsRun(cfg, states, steps)
    ensures WritersTraced(states, steps, h, j)
  {
    forall m | 0 <= m < |steps| && AboutToWrite(states[m + 1], h, j) && !AboutToWrite(states[m], h, j)
      ensures ReadsNoId(states[m], steps[m], h, j)
    {
      HandlerReadStep(cfg, states[m], steps[m], states[m + 1], h, j);
    }
  }

  lemma {:induction false} WriterTraced(states: seq<State>, steps: seq<Step>, m: nat, h: nat, j: JobId) returns (l: nat)
    requires WritersTraced(states, steps, h, j) && m < |states| && AboutToWrite(states[m], h, j)
    ensures l < m && ReadsNoId(states[l], steps[l], h, j)
  {
    if AboutToWrite(states[m - 1], h, j) {
      l := WriterTraced(states, steps, m - 1, h, j);
    } else {
      l := m - 1;
    }
  }

  /** A handler about to write has read the row without an id. */
  lemma HandlerRead(cfg: Config, states: seq<State>, steps: seq<Step>, m: nat, h: nat, j: JobId) returns (l: nat)
    requires IsRun(cfg, states, steps) && m < |states| && AboutToWrite(states[m], h, j)
    ensures l < m && ReadsNoId(states[l], steps[l], h, j)
  {
    RunTracesWriters(cfg, states, steps, h, j);
    l := WriterTraced(states, steps, m, h, j);
  }

  lemma WillLaunchFromClaim(cfg: Config, s: State, owner: string, ttl: int, limit: nat, t: State, j: JobId)
    requires Inv(s) && Idle(s) && t == GeneralClaim(s, owner, ttl, limit) && WillLaunch(cfg, t, j)
    ensures j < |s.db.rows| && s.db.rows[j].aapId.None?
  {
    var k :| 0 <= k < |t.batch| && LaunchesFrom(cfg, t.batch[k], j);
    ClaimKeeps(s, owner, ttl, limit, t);
    assert ClaimedOk(t, t.batch[k]);
    assert RowOk(s.db.rows[j], s.now);
  }

  lemma NoLaunchFromDueClaim(cfg: Config, s: State, ttl: int, limit: nat, t: State, j: JobId)
    requires Inv(s) && Idle(s) && t == DueClaim(s, ttl, limit)
    ensures !WillLaunch(cfg, t, j)
  {
  }

  lemma WillLaunchFromBegin(cfg: Config, s: State, ans: Answer, t: State, j: JobId)
    requires Inv(s) && Next(cfg, s, Begin(ans), t) && WillLaunch(cfg, t, j)
    ensures WillLaunch(cfg, s, j)
  {
    var c := s.batch[0];
    assert ClaimedOk(s, c);
    PlanLaunches(cfg, c, ans, s.now, s.tickNow);
    if k :| 0 <= k < |t.batch| && LaunchesFrom(cfg, t.batch[k], j) {
      assert s.batch[k + 1] == t.batch[k];
    } else {
      assert LaunchesFrom(cfg, s.batch[0], j);
    }
  }

  lemma WillLaunchFromSend(cfg: Config, s: State, t: State, j: JobId)
    requires s.pending != [] && WillLaunch(cfg, t, j) && t.batch == s.batch
    requires t.pending == s.pending[1..] || t.pending == []
    ensures WillLaunch(cfg, s, j)
  {
    if k :| 0 <= k < |t.pending| && Refers(t.pending[k], j) {
      assert s.pending[k + 1] == t.pending[k];
    }
  }

  /** Only the general claim makes the worker hold a job for launching, and only one without
      an id. */
  lemma WillLaunchStep(cfg: Config, s: State, step: Step, t: State, j: JobId)
    requires Inv(s) && Next(cfg, s, step, t) && WillLaunch(cfg, t, j)
    ensures WillLaunch(cfg, s, j) || (step.Claim? && j < |s.db.rows| && s.db.rows[j].aapId.None?)
  {
    if step.Claim? {
      WillLaunchFromClaim(cfg, s, step.owner, step.ttl, step.limit, t, j);
    } else if step.ClaimDue? {
      NoLaunchFromDueClaim(cfg, s, step.ttl, step.limit, t, j);
    } else if step.Begin? {
      WillLaunchFromBegin(cfg, s, step.ans, t, j);
    } else if step.Send? || step.Lost? {
      WillLaunchFromSend(cfg, s, t, j);
    } else if step.Sweep? {
      var ids := ExpiredIds(s.db.rows, s.tickNow, |s.db.rows|);
      SweptRows(s.db, s.now, s.tickNow, ids);
      SweepIsUnrelated(s.db.rows, ids);
    }
  }

  /** From its claim on the worker is not idle. */
  ghost predicate BusySince(states: seq<State>, l: nat, m: nat)
    requires m < |states|
  {
    forall p :: l < p <= m ==> !Idle(states[p])
  }

  ghost predicate WorkerReadAt(states: seq<State>, steps: seq<Step>, l: nat, m: nat, j: JobId)
    requires |states| == |steps| + 1 && m < |states|
  {
    && l < m && steps[l].Claim? && BusySince(states, l, m)
    && j < |states[l].db.rows| && states[l].db.rows[j].aapId.None?
  }

  predicate ClaimsWithoutId(s: State, step: Step, j: JobId) {
    step.Claim? && j < |s.db.rows| && s.db.rows[j].aapId.None?
  }

  ghost predicate LaunchesTraced(cfg: Config, states: seq<State>, steps: seq<Step>, j: JobId) {
    |states| == |steps| + 1 && !WillLaunch(cfg, states[0], j)
    && forall m :: 0 <= m < |steps| && WillLaunch(cfg, states[m + 1], j) ==>
         WillLaunch(cfg, states[m], j) || ClaimsWithoutId(states[m], steps[m], j)
  }

  lemma RunTracesLaunches(cfg: Config, states: seq<State>, steps: seq<Step>, j: JobId)
    requires IsRun(cfg, states, steps)
    ensures LaunchesTraced(cfg, states, steps, j)
  {
    forall m | 0 <= m < |steps| && WillLaunch(cfg, states[m + 1], j)
      ensures WillLaunch(cfg, states[m], j) || ClaimsWithoutId(states[m], steps[m], j)
    {
      RunKeeps(cfg, states, steps, m);
      WillLaunchStep(cfg, states[m], steps[m], states[m + 1], j);
    }
  }

  lemma {:induction false} LaunchTraced(cfg: Config, states: seq<State>, steps: seq<Step>, m: nat, j: JobId) returns (l: nat)
    requires LaunchesTraced(cfg, states, steps, j) && m < |states| && WillLaunch(cfg, states[m], j)
    ensures WorkerReadAt(states, steps, l, m, j)
  {
    if WillLaunch(cfg, states[m - 1], j) {
      l := LaunchTraced(cfg, states, steps, m - 1, j);
      StillBusy(cfg, states, steps, l, m, j);
    } else {
      assert ClaimsWithoutId(states[m - 1], steps[m - 1], j);
      l := m - 1;
    }
  }

  /** A worker about to launch has read the row without an id. */
  lemma WorkerRead(cfg: Config, states: seq<State>, steps: seq<Step>, m: nat, j: JobId) returns (l: nat)
    requires IsRun(cfg, states, steps) && m < |states| && WillLaunch(cfg, states[m], j)
    ensures WorkerReadAt(states, steps, l, m, j)
  {
    RunTracesLaunches(cfg, states, steps, j);
    l := LaunchTraced(cfg, states, steps, m, j);
  }

  lemma StillBusy(cfg: Config, states: seq<State>, steps: seq<Step>, l: nat, m: nat, j: JobId)
    requires |states| == |steps| + 1 && 0 < m < |states|
    requires WorkerReadAt(states, steps, l, m - 1, j) && WillLaunch(cfg, states[m], j)
    ensures WorkerReadAt(states, steps, l, m, j)
  {
  }

  // ----- the id is overwritten -----

  /** The step replaces a recorded id. */
  predicate Overwrites(s: State, t: State, j: JobId) {
    HasId(s.db, j) && j < |t.db.rows| && t.db.rows[j].aapId != s.db.rows[j].aapId
  }

  /** One writer reads the row at l and writes it at m: a claim handler, or the worker between
      its claim and its UPDATE. */
  ghost predicate ReadsThenWrites(states: seq<State>, steps: seq<Step>, l: nat, m: nat, j: JobId)
    requires |states| == |steps| + 1
  {
    && l < m < |steps|
    && (|| (HandlerWrites(states[m], steps[m], j) && steps[l] == ApiMove(steps[m].h, SelectRow))
        || (WorkerWrites(states[m], steps[m], j) && steps[l].Claim? && BusySince(states, l, m)))
  }

  /** The row had no id when the writer read it, and has another one when it writes. */
  ghost predicate LateWrite(states: seq<State>, steps: seq<Step>, l: nat, m: nat, j: JobId)
    requires |states| == |steps| + 1
  {
    && ReadsThenWrites(states, steps, l, m, j)
    && j < |states[l].db.rows| && states[l].db.rows[j].aapId.None?
    && HasId(states[m].db, j) && states[m].db.rows[j].aapId.value != WrittenId(states[m], steps[m], j)
  }

  lemma OverwriteIsLate(cfg: Config, states: seq<State>, steps: seq<Step>, m: nat, j: JobId) returns (l: nat)
    requires IsRun(cfg, states, steps) && m < |steps| && Overwrites(states[m], states[m + 1], j)
    ensures LateWrite(states, steps, l, m, j)
  {
    WritersDecide(cfg, states[m], steps[m], states[m + 1], j);
    if HandlerWrites(states[m], steps[m], j) {
      l := HandlerRead(cfg, states, steps, m, steps[m].h, j);
    } else {
      assert Refers(states[m].pending[0], j);
      l := WorkerRead(cfg, states, steps, m, j);
    }
  }

  /** In every run, with any number of claims beside the worker: a recorded AAP id is replaced
      if and only if a write lands whose writer read the row before that id was recorded. */
  lemma IdOverwrittenIff(cfg: Config, states: seq<State>, steps: seq<Step>, i: nat, k: nat, j: JobId)
    requires IsRun(cfg, states, steps) && i <= k < |states|
    ensures (exists m :: i <= m < k && Overwrites(states[m], states[m + 1], j))
            <==> (exists l: nat, m: nat :: i <= m < k && LateWrite(states, steps, l, m, j))
  {
    if m :| i <= m < k && Overwrites(states[m], states[m + 1], j) {
      var l := OverwriteIsLate(cfg, states, steps, m, j);
      assert LateWrite(states, steps, l, m, j);
    }
    if l: nat, m: nat :| i <= m < k && LateWrite(states, steps, l, m, j) {
      WritersDecide(cfg, states[m], steps[m], states[m + 1], j);
      assert Overwrites(states[m], states[m + 1], j);
    }
  }

  lemma {:induction false} IdStays(states: seq<State>, i: nat, k: nat, j: JobId)
    requires Grown(states) && i <= k < |states| && HasId(states[i].db, j)
    requires forall m :: i <= m < k ==> !Overwrites(states[m], states[m + 1], j)
    ensures HasId(states[k].db, j) && states[k].db.rows[j].aapId == states[i].db.rows[j].aapId
    decreases k
  {
    if i < k {
      IdStays(states, i, k - 1, j);
      assert Grows(states[k - 1].db, states[k].db);
      assert !Overwrites(states[k - 1], states[k - 1 + 1], j);
    }
  }

  /** Without late writes the AAP id of a job is written once. */
  lemma IdIsWriteOnce(cfg: Config, states: seq<State>, steps: seq<Step>, i: nat, k: nat, j: JobId)
    requires IsRun(cfg, states, steps) && i <= k < |states| && HasId(states[i].db, j)
    requires forall l: nat, m: nat :: i <= m < k ==> !LateWrite(states, steps, l, m, j)
    ensures HasId(states[k].db, j) && states[k].db.rows[j].aapId == states[i].db.rows[j].aapId
  {
    IdOverwrittenIff(cfg, states, steps, i, k, j);
    RunGrows(cfg, states, steps);
    IdStays(states, i, k, j);
  }

  // ----- when an id is safe -----

  /** The job has an id and nobody who read it without one is still about to write. */
  predicate Undisputed(cfg: Config, s: State, j: JobId) {
    && HasId(s.db, j) && !WillLaunch(cfg, s, j)
    && (forall h :: 0 <= h < |s.calls| ==> !AboutToWrite(s, h, j))
  }

  lemma UndisputedStep(cfg: Config, s: State, step: Step, t: State, j: JobId)
    requires Inv(s) && Next(cfg, s, step, t) && Undisputed(cfg, s, j)
    ensures Undisputed(cfg, t, j) && t.db.rows[j].aapId == s.db.rows[j].aapId
  {
    StepGrows(cfg, s, step, t);
    WritersDecide(cfg, s, step, t, j);
    assert !WorkerWrites(s, step, j) && !HandlerWrites(s, step, j);
    if WillLaunch(cfg, t, j) {
      WillLaunchStep(cfg, s, step, t, j);
    }
    forall h | 0 <= h < |t.calls| ensures !AboutToWrite(t, h, j) {
      if AboutToWrite(t, h, j) {
        HandlerReadStep(cfg, s, step, t, h, j);
      }
    }
  }

  ghost predicate StaysUndisputed(cfg: Config, s: State, t: State, j: JobId) {
    Undisputed(cfg, s, j) ==> Undisputed(cfg, t, j) && t.db.rows[j].aapId == s.db.rows[j].aapId
  }

  lemma {:induction false} UndisputedAlong(cfg: Config, states: seq<State>, i: nat, k: nat, j: JobId)
    requires forall m :: 0 < m < |states| ==> StaysUndisputed(cfg, states[m - 1], states[m], j)
    requires i <= k < |states|
    ensures StaysUndisputed(cfg, states[i], states[k], j)
    decreases k
  {
    if i < k {
      UndisputedAlong(cfg, states, i, k - 1, j);
      assert StaysUndisputed(cfg, states[k - 1], states[k], j);
    }
  }

  /** From then on no step of the worker or of the API, no crash and no failure changes it. */
  lemma UndisputedIdStays(cfg: Config, states: seq<State>, steps: seq<Step>, i: nat, k: nat, j: JobId)
    requires IsRun(cfg, states, steps) && i <= k < |states| && Undisputed(cfg, states[i], j)
    ensures Undisputed(cfg, states[k], j) && states[k].db.rows[j].aapId == states[i].db.rows[j].aapId
  {
    forall m | 0 < m < |states| ensures StaysUndisputed(cfg, states[m - 1], states[m], j) {
      RunKeeps(cfg, states, steps, m - 1);
      if Undisputed(cfg, states[m - 1], j) {
        UndisputedStep(cfg, states[m - 1], steps[m - 1], states[m], j);
      }
    }
    UndisputedAlong(cfg, states, i, k, j);
  }

  // ----- Renew for a job with an id -----

  predicate Holds(cfg: Config, s: State, j: JobId) {
    exists k :: 0 <= k < |s.batch| && LaunchesFrom(cfg, s.batch[k], j)
  }

  /** A claim's UPDATE for the job lands at p while the worker is at work, up to m. */
  ghost predicate LandsAtWork(states: seq<State>, steps: seq<Step>, p: nat, m: nat, j: JobId)
    requires m < |steps| < |states|
  {
    p < m && HandlerWrites(states[p], steps[p], j) && forall q :: p <= q <= m ==> !Idle(states[q])
  }

  lemma HoldsStep(cfg: Config, s: State, step: Step, t: State, j: JobId)
    requires Inv(s) && Next(cfg, s, step, t) && Holds(cfg, t, j) && HasId(t.db, j)
    ensures Holds(cfg, s, j) && (HasId(s.db, j) || HandlerWrites(s, step, j))
  {
    var k :| 0 <= k < |t.batch| && LaunchesFrom(cfg, t.batch[k], j);
    StepKeeps(cfg, s, step, t);
    assert ClaimedOk(t, t.batch[k]);
    if !step.Claim? && !step.ClaimDue? {
      HeldBefore(cfg, s, step, t, j, k);
      HeldInRange(cfg, s, j);
      WritersDecide(cfg, s, step, t, j);
    }
  }

  lemma HeldBefore(cfg: Config, s: State, step: Step, t: State, j: JobId, k: nat)
    requires Inv(s) && Next(cfg, s, step, t) && !step.Claim? && !step.ClaimDue?
    requires k < |t.batch| && LaunchesFrom(cfg, t.batch[k], j)
    ensures Holds(cfg, s, j)
  {
    if step.Begin? {
      assert s.batch[k + 1] == t.batch[k];
    } else {
      assert s.batch[k] == t.batch[k];
    }
  }

  lemma HeldInRange(cfg: Config, s: State, j: JobId)
    requires Inv(s) && Holds(cfg, s, j)
    ensures j < |s.db.rows| && forall step :: !WorkerWrites(s, step, j)
  {
    var k :| 0 <= k < |s.batch| && LaunchesFrom(cfg, s.batch[k], j);
    assert ClaimedOk(s, s.batch[k]);
    assert forall w :: w in s.pending ==> w.id != s.batch[k].id;
  }

  ghost predicate HoldsWithId(cfg: Config, s: State, j: JobId) {
    Holds(cfg, s, j) && HasId(s.db, j)
  }

  ghost predicate HeldIdsTraced(cfg: Config, states: seq<State>, steps: seq<Step>, j: JobId) {
    |states| == |steps| + 1 && !Holds(cfg, states[0], j)
    && forall m :: 0 <= m < |steps| && HoldsWithId(cfg, states[m + 1], j) ==>
         Holds(cfg, states[m], j) && (HasId(states[m].db, j) || HandlerWrites(states[m], steps[m], j))
  }

  lemma RunTracesHeldIds(cfg: Config, states: seq<State>, steps: seq<Step>, j: JobId)
    requires IsRun(cfg, states, steps)
    ensures HeldIdsTraced(cfg, states, steps, j)
  {
    forall m | 0 <= m < |steps| && HoldsWithId(cfg, states[m + 1], j)
      ensures Holds(cfg, states[m], j) && (HasId(states[m].db, j) || HandlerWrites(states[m], steps[m], j))
    {
      RunKeeps(cfg, states, steps, m);
      HoldsStep(cfg, states[m], steps[m], states[m + 1], j);
    }
  }

  lemma {:induction false} HeldIdSource(cfg: Config, states: seq<State>, steps: seq<Step>, m: nat, j: JobId) returns (p: nat)
    requires HeldIdsTraced(cfg, states, steps, j) && m < |steps| && HoldsWithId(cfg, states[m], j)
    ensures LandsAtWork(states, steps, p, m, j)
  {
    assert Holds(cfg, states[m - 1], j);
    if HasId(states[m - 1].db, j) {
      p := HeldIdSource(cfg, states, steps, m - 1, j);
    } else {
      p := m - 1;
    }
  }

  predicate CallsRenewFor(cfg: Config, s: State, step: Step, j: JobId) {
    step.Begin? && s.batch != [] && s.batch[0].id == j && WorkerPlan.Renews(cfg, s.batch[0], step.ans)
  }

  /** The worker calls Renew for a job that has an id if and only if a claim's UPDATE for it
      landed since the worker took the job. */
  lemma RenewAfterIdIff(cfg: Config, states: seq<State>, steps: seq<Step>, m: nat, j: JobId)
    requires IsRun(cfg, states, steps) && m < |steps| && CallsRenewFor(cfg, states[m], steps[m], j)
    ensures states[m + 1].renews == states[m].renews + [RenewCall(j, steps[m].ans.renew.Renewed?)]
    ensures HasId(states[m].db, j) <==> exists p: nat :: LandsAtWork(states, steps, p, m, j)
  {
    assert LaunchesFrom(cfg, states[m].batch[0], j);
    if HasId(states[m].db, j) {
      RunTracesHeldIds(cfg, states, steps, j);
      var p := HeldIdSource(cfg, states, steps, m, j);
      assert LandsAtWork(states, steps, p, m, j);
    }
    if p: nat :| LandsAtWork(states, steps, p, m, j) {
      IdRunKeeps(cfg, states, steps, p);
      WritersDecide(cfg, states[p], steps[p], states[p + 1], j);
      HasIdStays(cfg, states, steps, p + 1, m, j);
    }
  }
}
