/** How often renewal.launched is logged for a job, along every run: a ledger of launch events
    logged, on their way and dropped, against ids recorded; and how often AAP accepts a launch. */
module JobLaunches {
  import opened Wrappers
  import opened Backoff
  import opened WireCheck
  import opened JobTable
  import opened WorkerPlan
  import opened JobMachine
  import opened JobInvariants
  import opened JobTheorems
  import opened JobIds

  function Launched(db: Db, j: JobId): nat {
    Count(db.outbox, j, RenewalLaunched)
  }

  function Ids(db: Db, j: JobId): nat {
    if HasId(db, j) then 1 else 0
  }

  // ----- launch events on their way -----

  function EventOf(w: Write, j: JobId): nat {
    if LogsLaunch(w) && w.id == j then 1 else 0
  }

  function EventsOf(ws: seq<Write>, j: JobId): nat
    decreases |ws|
  {
    if ws == [] then 0 else EventOf(ws[0], j) + EventsOf(ws[1..], j)
  }

  /** Launch events of the worker behind an id that has been stored. */
  function WorkerEvents(s: State, j: JobId): nat {
    if s.pending != [] && s.pending[0].SetAapRef? then 0 else EventsOf(s.pending, j)
  }

  /** A handler that has recorded or accepted the id owes an event, if its look found no id. */
  function EventDue(c: Call, j: JobId): nat {
    if c.first && ((c.phase.Recorded? && c.phase.id == j) || (c.phase.Announcing? && c.phase.id == j)) then 1 else 0
  }

  function EventsDue(calls: seq<Call>, j: JobId): nat
    decreases |calls|
  {
    if calls == [] then 0 else EventsDue(calls[..|calls| - 1], j) + EventDue(calls[|calls| - 1], j)
  }

  function OnTheWay(s: State, j: JobId): nat {
    WorkerEvents(s, j) + EventsDue(s.calls, j)
  }

  // ----- entries of the ledger -----

  /** The step drops launch events: the worker's, or the one of a handler that fails or dies
      behind its UPDATE; or a handler whose look saw no job, or failed, records an id that it
      will not announce. */
  function Dropped(s: State, step: Step, j: JobId): nat {
    match step
    case Lost => if s.pending != [] then EventOf(s.pending[0], j) else 0
    case Crash => WorkerEvents(s, j)
    case ApiMove(h, GiveUp) => if h < |s.calls| then EventDue(s.calls[h], j) else 0
    case ApiMove(h, UpdateRow) => if HandlerWrites(s, step, j) && !s.calls[h].first then 1 else 0
    case _ => 0
  }

  /** A handler that looked when there was no id finds its own one recorded by now. */
  predicate AcceptsLate(s: State, step: Step, j: JobId) {
    step.ApiMove? && step.m.SelectRow? && step.h < |s.calls| && s.calls[step.h].phase.Looked?
    && var c := Selected(s.db, s.calls[step.h]); c.phase.Announcing? && c.phase.id == j
  }

  /** The step records or accepts an id for a job that has one. */
  predicate Late(s: State, step: Step, j: JobId) {
    (HasId(s.db, j) && (WorkerWrites(s, step, j) || HandlerWrites(s, step, j))) || AcceptsLate(s, step, j)
  }

  function LateBy(s: State, step: Step, j: JobId): nat {
    if Late(s, step, j) then 1 else 0
  }

  /** One step: whatever is logged, on its way or dropped anew is matched by an id recorded, or
      by a late record. */
  ghost predicate Balances(s: State, step: Step, t: State, j: JobId) {
    Launched(t.db, j) + OnTheWay(t, j) + Dropped(s, step, j) + Ids(s.db, j)
    == Launched(s.db, j) + OnTheWay(s, j) + Ids(t.db, j) + LateBy(s, step, j)
  }

  // ----- counting -----

  lemma {:induction false} NoEvents(ws: seq<Write>, j: JobId)
    requires forall k :: 0 <= k < |ws| ==> !LogsLaunch(ws[k]) || ws[k].id != j
    ensures EventsOf(ws, j) == 0
    decreases |ws|
  {
    if ws != [] {
      NoEvents(ws[1..], j);
    }
  }

  lemma EventsOfLaunch(id: JobId, aap: int, wf: bool, cert: Option<CertId>, j: JobId)
    ensures EventsOf(LaunchWrites(id, aap, wf, cert)[1..], j) == if j == id then 1 else 0
  {
    var ws := LaunchWrites(id, aap, wf, cert)[1..];
    assert ws[1..] == [Emit(id, RenewalLaunched, cert), UpdateStatus(id, RELEASE)];
    assert ws[1..][1..] == [UpdateStatus(id, RELEASE)];
    NoEvents([UpdateStatus(id, RELEASE)], j);
  }

  lemma LaunchedUnderWrite(db: Db, w: Write, j: JobId)
    ensures Launched(Apply(db, w), j) == Launched(db, j) + EventOf(w, j)
  {
    if w.Emit? {
      CountAppend(db.outbox, OutboxEvent(w.id, w.event, w.cert), j, RenewalLaunched);
    }
  }

  lemma DueAppend(calls: seq<Call>, c: Call, j: JobId)
    ensures EventsDue(calls + [c], j) == EventsDue(calls, j) + EventDue(c, j)
  {
    assert (calls + [c])[..|calls|] == calls;
  }

  lemma {:induction false} DueUpdate(calls: seq<Call>, h: nat, c: Call, j: JobId)
    requires h < |calls|
    ensures EventsDue(calls[h := c], j) + EventDue(calls[h], j) == EventsDue(calls, j) + EventDue(c, j)
    decreases |calls|
  {
    var n := |calls| - 1;
    if h == n {
      assert calls[h := c][..n] == calls[..n];
    } else {
      assert calls[h := c][..n] == calls[..n][h := c];
      DueUpdate(calls[..n], h, c, j);
    }
  }

  lemma {:induction false} NoneDue(s: State, calls: seq<Call>, j: JobId)
    requires j >= |s.db.rows| && forall h :: 0 <= h < |calls| ==> HandlerOk(s.db, calls[h])
    ensures EventsDue(calls, j) == 0
    decreases |calls|
  {
    if calls != [] {
      assert HandlerOk(s.db, calls[|calls| - 1]);
      NoneDue(s, calls[..|calls| - 1], j);
    }
  }

  // ----- every step balances -----

  /** The id of a launch is stored, and its event is now on the way. */
  lemma RefBalances(s: State, t: State, j: JobId)
    requires Inv(s) && IdInv(s) && s.pending != [] && s.pending[0].SetAapRef? && t == AfterSend(s)
    ensures Balances(s, Send, t, j)
  {
    var w := s.pending[0];
    assert WriteOk(s.db, w);
    EventsOfLaunch(w.id, w.aap, w.wf, s.pending[2].cert, j);
    assert t.pending == LaunchWrites(w.id, w.aap, w.wf, s.pending[2].cert)[1..];
    assert WorkerEvents(s, j) == 0 && WorkerEvents(t, j) == (if j == w.id then 1 else 0);
    assert Ids(t.db, j) == if j == w.id then 1 else Ids(s.db, j);
  }

  /** Any other statement moves what it logs from the way into the table. */
  lemma OtherSendBalances(s: State, t: State, j: JobId)
    requires IdInv(s) && s.pending != [] && !s.pending[0].SetAapRef? && t == AfterSend(s)
    ensures Balances(s, Send, t, j)
  {
    var w := s.pending[0];
    LaunchedUnderWrite(s.db, w, j);
    assert t.pending != [] ==> t.pending[0] == s.pending[1];
    assert WorkerEvents(s, j) == EventOf(w, j) + WorkerEvents(t, j);
    assert HasId(t.db, j) <==> HasId(s.db, j);
  }

  lemma SendBalances(s: State, t: State, j: JobId)
    requires Inv(s) && IdInv(s) && s.pending != [] && t == AfterSend(s)
    ensures Balances(s, Send, t, j)
  {
    if s.pending[0].SetAapRef? {
      RefBalances(s, t, j);
    } else {
      OtherSendBalances(s, t, j);
    }
  }

  lemma LostBalances(s: State, t: State, j: JobId)
    requires IdInv(s) && s.pending != [] && t == AfterLost(s)
    ensures Balances(s, Lost, t, j)
  {
    if !s.pending[0].SetAapRef? {
      assert t.pending != [] ==> t.pending[0] == s.pending[1];
    }
  }

  lemma BeginBalances(cfg: Config, s: State, ans: Answer, t: State, j: JobId)
    requires Inv(s) && Next(cfg, s, Begin(ans), t)
    ensures Balances(s, Begin(ans), t, j)
  {
    var c := s.batch[0];
    assert ClaimedOk(s, c);
    PlanLaunches(cfg, c, ans, s.now, s.tickNow);
    if WorkerPlan.Renews(cfg, c, ans) && ans.renew.Renewed? {
      assert t.pending[0].SetAapRef?;
    } else {
      NoEvents(t.pending, j);
    }
  }

  lemma SweepBalances(s: State, j: JobId)
    requires Inv(s) && Idle(s)
    ensures Balances(s, Sweep, Swept(s), j)
  {
    var ids := ExpiredIds(s.db.rows, s.tickNow, |s.db.rows|);
    SweptRows(s.db, s.now, s.tickNow, ids);
    SweepIsUnrelated(s.db.rows, ids);
    NoEvents(Swept(s).pending, j);
    assert HasId(Swept(s).db, j) <==> HasId(s.db, j);
  }

  predicate Refused(db: Db, n: NewJob) {
    FindKey(db.rows, KeyOf(n), |db.rows|).Some?
  }

  lemma InsertLaunches(db: Db, n: NewJob, now: Time, j: JobId)
    requires !Refused(db, n)
    ensures Launched(Insert(db, n, now), j) == Launched(db, j) + if j == |db.rows| then Inserted(n, RenewalLaunched) else 0
  {
    InsertCounts(db.outbox, n, |db.rows|, j, RenewalLaunched);
  }

  lemma InsertIds(db: Db, n: NewJob, now: Time, j: JobId)
    requires !Refused(db, n)
    ensures Ids(Insert(db, n, now), j) == Ids(db, j) + if j == |db.rows| then Inserted(n, RenewalLaunched) else 0
  {
    var rows := Insert(db, n, now).rows;
    assert j < |db.rows| ==> rows[j] == db.rows[j];
    assert rows[|db.rows|] == RowOf(n, now);
  }

  lemma InsertBalances(s: State, n: NewJob, t: State, j: JobId)
    requires t == s.(db := Insert(s.db, n, s.now))
    ensures Balances(s, ApiInsert(n), t, j)
  {
    if !Refused(s.db, n) {
      InsertLaunches(s.db, n, s.now, j);
      InsertIds(s.db, n, s.now, j);
    }
    assert OnTheWay(t, j) == OnTheWay(s, j);
  }

  lemma MoveEffect(db: Db, c: Call, m: Move, j: JobId)
    requires CanMove(c, m)
    ensures Launched(DbAfter(db, c, m), j)
         == Launched(db, j) + if m.Announce? && c.phase.id == j then 1 else 0
    ensures m.UpdateRow? && c.phase.id == j && j < |db.rows| ==> HasId(DbAfter(db, c, m), j)
    ensures !(m.UpdateRow? && c.phase.id == j) ==> (HasId(DbAfter(db, c, m), j) <==> HasId(db, j))
  {
    if m.Announce? {
      LaunchedUnderWrite(db, Emit(c.phase.id, RenewalLaunched, c.phase.cert), j);
    } else if m.UpdateRow? {
      LaunchedUnderWrite(db, SetAapRef(c.phase.id, c.aap, c.phase.wf, AapPending), j);
    }
  }

  lemma MoveBalances(s: State, h: nat, m: Move, t: State, j: JobId)
    requires Inv(s) && IdInv(s) && h < |s.calls| && CanMove(s.calls[h], m) && t == Moved(s, h, m)
    ensures Balances(s, ApiMove(h, m), t, j)
  {
    MoveEffect(s.db, s.calls[h], m, j);
    DueUpdate(s.calls, h, CallAfter(s.db, s.calls[h], m), j);
    assert HandlerOk(s.db, s.calls[h]) && CallOk(s.db, s.calls[h]);
  }

  /** Steps that touch no id and no event; a crash drops what the worker has on the way. */
  lemma QuietBalances(cfg: Config, s: State, step: Step, t: State, j: JobId)
    requires Next(cfg, s, step, t)
    requires step.Pass? || step.StartTick? || step.Claim? || step.ClaimDue? || step.ApiDropCertificate? || step.Crash?
    ensures Balances(s, step, t, j)
  {
  }

  lemma StepBalances(cfg: Config, s: State, step: Step, t: State, j: JobId)
    requires Inv(s) && IdInv(s) && Next(cfg, s, step, t)
    ensures Balances(s, step, t, j)
  {
    if step.Send? {
      SendBalances(s, t, j);
    } else if step.Lost? {
      LostBalances(s, t, j);
    } else if step.Begin? {
      BeginBalances(cfg, s, step.ans, t, j);
    } else if step.Sweep? {
      SweepBalances(s, j);
    } else if step.ApiInsert? {
      InsertBalances(s, step.n, t, j);
    } else if step.ApiMove? {
      MoveBalances(s, step.h, step.m, t, j);
    } else if step.ApiLook? {
      DueAppend(s.calls, Look(s.db, step.key, step.aap, step.ok), j);
    } else {
      QuietBalances(cfg, s, step, t, j);
    }
  }

  // ----- the ledger of a run -----

  function AllDropped(states: seq<State>, steps: seq<Step>, k: nat, j: JobId): nat
    requires k <= |steps| < |states|
  {
    if k == 0 then 0 else AllDropped(states, steps, k - 1, j) + Dropped(states[k - 1], steps[k - 1], j)
  }

  function AllLate(states: seq<State>, steps: seq<Step>, k: nat, j: JobId): nat
    requires k <= |steps| < |states|
  {
    if k == 0 then 0 else AllLate(states, steps, k - 1, j) + LateBy(states[k - 1], steps[k - 1], j)
  }

  ghost predicate Balanced(states: seq<State>, steps: seq<Step>, j: JobId) {
    |states| == |steps| + 1
    && forall m :: 0 <= m < |steps| ==> Balances(states[m], steps[m], states[m + 1], j)
  }

  lemma RunBalances(cfg: Config, states: seq<State>, steps: seq<Step>, j: JobId)
    requires IsRun(cfg, states, steps)
    ensures Balanced(states, steps, j)
  {
    forall m | 0 <= m < |steps| ensures Balances(states[m], steps[m], states[m + 1], j) {
      IdRunKeeps(cfg, states, steps, m);
      StepBalances(cfg, states[m], steps[m], states[m + 1], j);
    }
  }

  lemma {:induction false} LedgerAlong(states: seq<State>, steps: seq<Step>, k: nat, j: JobId)
    requires Balanced(states, steps, j) && k < |states|
    requires Launched(states[0].db, j) + OnTheWay(states[0], j) == Ids(states[0].db, j) == 0
    ensures Launched(states[k].db, j) + OnTheWay(states[k], j) + AllDropped(states, steps, k, j)
         == Ids(states[k].db, j) + AllLate(states, steps, k, j)
  {
    if k > 0 {
      LedgerAlong(states, steps, k - 1, j);
      assert Balances(states[k - 1], steps[k - 1], states[k], j);
    }
  }

  /** In every run and for every job: launch events logged, on their way and dropped together
      are the id of the job plus the late records of it. */
  lemma LaunchLedger(cfg: Config, states: seq<State>, steps: seq<Step>, k: nat, j: JobId)
    requires IsRun(cfg, states, steps) && k < |states|
    ensures Launched(states[k].db, j) + OnTheWay(states[k], j) + AllDropped(states, steps, k, j)
         == Ids(states[k].db, j) + AllLate(states, steps, k, j)
  {
    RunBalances(cfg, states, steps, j);
    assert states[0].pending == [] && states[0].calls == [];
    LedgerAlong(states, steps, k, j);
  }

  lemma {:induction false} NoneDropped(states: seq<State>, steps: seq<Step>, k: nat, j: JobId)
    requires k <= |steps| < |states|
    ensures AllDropped(states, steps, k, j) == 0 <==> forall m :: 0 <= m < k ==> Dropped(states[m], steps[m], j) == 0
  {
    if k > 0 {
      NoneDropped(states, steps, k - 1, j);
    }
  }

  lemma {:induction false} NoneLate(states: seq<State>, steps: seq<Step>, k: nat, j: JobId)
    requires k <= |steps| < |states|
    ensures AllLate(states, steps, k, j) == 0 <==> forall m :: 0 <= m < k ==> !Late(states[m], steps[m], j)
  {
    if k > 0 {
      NoneLate(states, steps, k - 1, j);
    }
  }

  /** As long as nobody records or accepts an id late, a job is logged as launched at most once
      and only with an id; and whenever no event of its is on the way, a job with an id has been
      logged exactly once if and only if none of its events was dropped. */
  lemma LaunchLoggedExactlyIff(cfg: Config, states: seq<State>, steps: seq<Step>, k: nat, j: JobId)
    requires IsRun(cfg, states, steps) && k < |states|
    requires forall m :: 0 <= m < k ==> !Late(states[m], steps[m], j)
    ensures Launched(states[k].db, j) <= Ids(states[k].db, j)
    ensures OnTheWay(states[k], j) == 0 ==>
              (Launched(states[k].db, j) == Ids(states[k].db, j)
               <==> forall m :: 0 <= m < k ==> Dropped(states[m], steps[m], j) == 0)
  {
    LaunchLedger(cfg, states, steps, k, j);
    NoneLate(states, steps, k, j);
    NoneDropped(states, steps, k, j);
  }

  // ----- logged twice -----

  predicate WorkerAnnounces(s: State, step: Step, j: JobId) {
    step.Send? && s.pending != [] && LogsLaunch(s.pending[0]) && s.pending[0].id == j
  }

  predicate HandlerAnnounces(s: State, step: Step, j: JobId) {
    step.ApiMove? && step.m.Announce? && step.h < |s.calls|
    && s.calls[step.h].phase.Announcing? && s.calls[step.h].phase.id == j
  }

  predicate Announces(s: State, step: Step, j: JobId) {
    WorkerAnnounces(s, step, j) || HandlerAnnounces(s, step, j)
  }

  /** One announcer finds the job without an id at l and logs the launch at m: a claim handler
      by its look, or the worker by its claim. */
  ghost predicate LooksThenAnnounces(states: seq<State>, steps: seq<Step>, l: nat, m: nat, j: JobId)
    requires |states| == |steps| + 1
  {
    && l < m < |steps|
    && j < |states[l].db.rows| && states[l].db.rows[j].aapId.None?
    && (|| (HandlerAnnounces(states[m], steps[m], j) && steps[l].ApiLook? && |states[l].calls| == steps[m].h)
        || (WorkerAnnounces(states[m], steps[m], j) && steps[l].Claim? && BusySince(states, l, m)))
  }

  /** A handler that owes an event keeps its key, and began with a look that found no id. */
  ghost predicate LookTraced(s: State, step: Step, t: State, h: nat) {
    h < |t.calls| ==>
      && (h < |s.calls| ==> t.calls[h].first == s.calls[h].first && t.calls[h].key == s.calls[h].key)
      && (h >= |s.calls| ==> step.ApiLook? && h == |s.calls| && (t.calls[h].first ==> Unclaimed(s.db, t.calls[h].key)))
  }

  lemma LookStep(cfg: Config, s: State, step: Step, t: State, h: nat)
    requires Next(cfg, s, step, t)
    ensures LookTraced(s, step, t, h)
  {
  }

  ghost predicate LooksTraced(states: seq<State>, steps: seq<Step>, h: nat) {
    |states| == |steps| + 1 && states[0].calls == []
    && forall m :: 0 <= m < |steps| ==> LookTraced(states[m], steps[m], states[m + 1], h)
  }

  lemma {:induction false} LookedAt(states: seq<State>, steps: seq<Step>, m: nat, h: nat) returns (l: nat)
    requires LooksTraced(states, steps, h) && m < |states| && h < |states[m].calls| && states[m].calls[h].first
    ensures l < m && steps[l].ApiLook? && |states[l].calls| == h
    ensures Unclaimed(states[l].db, states[m].calls[h].key)
  {
    assert LookTraced(states[m - 1], steps[m - 1], states[m - 1 + 1], h);
    if h < |states[m - 1].calls| {
      l := LookedAt(states, steps, m - 1, h);
    } else {
      l := m - 1;
    }
  }

  /** What a handler that owes an event had seen. */
  lemma HandlerLooked(cfg: Config, states: seq<State>, steps: seq<Step>, m: nat, h: nat) returns (l: nat)
    requires IsRun(cfg, states, steps) && m < |states| && h < |states[m].calls| && states[m].calls[h].first
    ensures l < m && steps[l].ApiLook? && |states[l].calls| == h
    ensures Unclaimed(states[l].db, states[m].calls[h].key)
  {
    forall k | 0 <= k < |steps| ensures LookTraced(states[k], steps[k], states[k + 1], h) {
      LookStep(cfg, states[k], steps[k], states[k + 1], h);
    }
    l := LookedAt(states, steps, m, h);
  }

  lemma KeyStays(cfg: Config, states: seq<State>, steps: seq<Step>, l: nat, m: nat, key: IdemKey)
    requires IsRun(cfg, states, steps) && l <= m < |states|
    requires FindKey(states[l].db.rows, key, |states[l].db.rows|).Some?
    ensures FindKey(states[m].db.rows, key, |states[m].db.rows|) == FindKey(states[l].db.rows, key, |states[l].db.rows|)
  {
    RunGrows(cfg, states, steps);
    GrownFrom(states, l, m);
    FindKeyGrows(states[l].db.rows, states[m].db.rows, key, |states[l].db.rows|, |states[m].db.rows|);
  }

  lemma HandlerSource(cfg: Config, states: seq<State>, steps: seq<Step>, m: nat, j: JobId) returns (l: nat)
    requires IsRun(cfg, states, steps) && m < |steps| && HandlerAnnounces(states[m], steps[m], j)
    ensures LooksThenAnnounces(states, steps, l, m, j) && HasId(states[m].db, j)
  {
    IdRunKeeps(cfg, states, steps, m);
    var h := steps[m].h;
    assert HandlerOk(states[m].db, states[m].calls[h]);
    l := HandlerLooked(cfg, states, steps, m, h);
    KeyStays(cfg, states, steps, l, m, states[m].calls[h].key);
  }

  /** The worker is in the middle of recording a launch of the job. */
  predicate Recording(s: State, j: JobId) {
    exists k :: 0 <= k < |s.pending| && LogsLaunch(s.pending[k]) && s.pending[k].id == j
  }

  lemma RecordingBegins(cfg: Config, s: State, ans: Answer, t: State, j: JobId)
    requires Inv(s) && Next(cfg, s, Begin(ans), t) && Recording(t, j)
    ensures WillLaunch(cfg, s, j)
  {
    var c := s.batch[0];
    assert ClaimedOk(s, c);
    PlanLaunches(cfg, c, ans, s.now, s.tickNow);
    assert LaunchesFrom(cfg, s.batch[0], j);
  }

  lemma NoneRecordedBySweep(s: State, j: JobId)
    requires Inv(s)
    ensures !Recording(Swept(s), j)
  {
    var ids := ExpiredIds(s.db.rows, s.tickNow, |s.db.rows|);
    SweptRows(s.db, s.now, s.tickNow, ids);
    SweepIsUnrelated(s.db.rows, ids);
  }

  lemma RecordingStep(cfg: Config, s: State, step: Step, t: State, j: JobId)
    requires Inv(s) && Next(cfg, s, step, t) && Recording(t, j)
    ensures Recording(s, j) || WillLaunch(cfg, s, j)
  {
    if step.Begin? {
      RecordingBegins(cfg, s, step.ans, t, j);
    } else if step.Sweep? {
      NoneRecordedBySweep(s, j);
    } else if step.Send? || step.Lost? {
      var k :| 0 <= k < |t.pending| && LogsLaunch(t.pending[k]) && t.pending[k].id == j;
      assert s.pending[k + 1] == t.pending[k];
    }
  }

  ghost predicate RecordingTraced(cfg: Config, states: seq<State>, steps: seq<Step>, j: JobId) {
    |states| == |steps| + 1 && !Recording(states[0], j)
    && forall m :: 0 <= m < |steps| && Recording(states[m + 1], j) ==>
         Recording(states[m], j) || WillLaunch(cfg, states[m], j)
  }

  lemma RunTracesRecording(cfg: Config, states: seq<State>, steps: seq<Step>, j: JobId)
    requires IsRun(cfg, states, steps)
    ensures RecordingTraced(cfg, states, steps, j)
  {
    forall m | 0 <= m < |steps| && Recording(states[m + 1], j)
      ensures Recording(states[m], j) || WillLaunch(cfg, states[m], j)
    {
      RunKeeps(cfg, states, steps, m);
      RecordingStep(cfg, states[m], steps[m], states[m + 1], j);
    }
  }

  lemma {:induction false} RecordingSource(cfg: Config, states: seq<State>, steps: seq<Step>, m: nat, j: JobId) returns (l: nat)
    requires RecordingTraced(cfg, states, steps, j) && LaunchesTraced(cfg, states, steps, j)
    requires m < |states| && Recording(states[m], j)
    ensures WorkerReadAt(states, steps, l, m, j)
  {
    if Recording(states[m - 1], j) {
      l := RecordingSource(cfg, states, steps, m - 1, j);
    } else {
      assert WillLaunch(cfg, states[m - 1], j);
      l := LaunchTraced(cfg, states, steps, m - 1, j);
    }
    OneStepMore(states, steps, l, m, j);
  }

  lemma OneStepMore(states: seq<State>, steps: seq<Step>, l: nat, m: nat, j: JobId)
    requires |states| == |steps| + 1 && 0 < m < |states|
    requires WorkerReadAt(states, steps, l, m - 1, j) && Recording(states[m], j)
    ensures WorkerReadAt(states, steps, l, m, j)
  {
  }

  lemma AnnouncerSource(cfg: Config, states: seq<State>, steps: seq<Step>, m: nat, j: JobId) returns (l: nat)
    requires IsRun(cfg, states, steps) && m < |steps| && Announces(states[m], steps[m], j)
    ensures LooksThenAnnounces(states, steps, l, m, j) && HasId(states[m].db, j)
  {
    if HandlerAnnounces(states[m], steps[m], j) {
      l := HandlerSource(cfg, states, steps, m, j);
    } else {
      IdRunKeeps(cfg, states, steps, m);
      assert LogsLaunch(states[m].pending[0]);
      RunTracesRecording(cfg, states, steps, j);
      RunTracesLaunches(cfg, states, steps, j);
      l := RecordingSource(cfg, states, steps, m, j);
    }
  }

  /** Only announcements and inserts log a launch, each once. */
  ghost predicate LogsOnce(s: State, step: Step, t: State, j: JobId) {
    && Launched(t.db, j) >= Launched(s.db, j)
    && (Announces(s, step, j) ==> Launched(t.db, j) == Launched(s.db, j) + 1)
    && (!Announces(s, step, j) ==>
          || Launched(t.db, j) == Launched(s.db, j)
          || (j == |s.db.rows| && HasId(t.db, j) && Launched(t.db, j) == 1))
  }

  lemma LoggedStep(cfg: Config, s: State, step: Step, t: State, j: JobId)
    requires Inv(s) && Next(cfg, s, step, t)
    ensures LogsOnce(s, step, t, j)
  {
    if step.Send? {
      LaunchedUnderWrite(s.db, s.pending[0], j);
    } else if step.ApiMove? {
      MoveEffect(s.db, s.calls[step.h], step.m, j);
    } else if step.ApiInsert? {
      InsertLogs(s, step.n, t, j);
    } else {
      OthersLogNothing(cfg, s, step, t);
    }
  }

  ghost predicate Logged(states: seq<State>, steps: seq<Step>, j: JobId) {
    |states| == |steps| + 1 && Launched(states[0].db, j) == 0
    && forall m :: 0 <= m < |steps| ==> LogsOnce(states[m], steps[m], states[m + 1], j)
  }

  lemma RunLogs(cfg: Config, states: seq<State>, steps: seq<Step>, j: JobId)
    requires IsRun(cfg, states, steps)
    ensures Logged(states, steps, j)
  {
    forall m | 0 <= m < |steps| ensures LogsOnce(states[m], steps[m], states[m + 1], j) {
      RunKeeps(cfg, states, steps, m);
      LoggedStep(cfg, states[m], steps[m], states[m + 1], j);
    }
  }

  lemma OthersLogNothing(cfg: Config, s: State, step: Step, t: State)
    requires Next(cfg, s, step, t) && !step.Send? && !step.ApiMove? && !step.ApiInsert?
    ensures t.db.outbox == s.db.outbox
  {
  }

  lemma InsertLogs(s: State, n: NewJob, t: State, j: JobId)
    requires Inv(s) && t.db == Insert(s.db, n, s.now)
    ensures || Launched(t.db, j) == Launched(s.db, j)
            || (j == |s.db.rows| && HasId(t.db, j) && Launched(t.db, j) == 1)
    ensures Launched(t.db, j) >= Launched(s.db, j)
  {
    if !Refused(s.db, n) {
      InsertLaunches(s.db, n, s.now, j);
      if j == |s.db.rows| {
        InsertIds(s.db, n, s.now, j);
        CountZero(s.db.outbox, j, RenewalLaunched);
      }
    }
  }

  /** Before the second event there was one more announcement. */
  lemma {:induction false} SecondEvent(states: seq<State>, steps: seq<Step>, k: nat, j: JobId) returns (m: nat)
    requires Logged(states, steps, j) && k < |states| && Launched(states[k].db, j) >= 2
    ensures m < k && Announces(states[m], steps[m], j) && Launched(states[m].db, j) >= 1
  {
    assert LogsOnce(states[k - 1], steps[k - 1], states[k - 1 + 1], j);
    if Launched(states[k - 1].db, j) >= 2 {
      m := SecondEvent(states, steps, k - 1, j);
    } else {
      m := k - 1;
    }
  }

  /** A job logged before k was announced before k, or came with its id. */
  lemma {:induction false} FirstEvent(states: seq<State>, steps: seq<Step>, k: nat, j: JobId) returns (r: nat)
    requires Logged(states, steps, j) && k < |states| && Launched(states[k].db, j) >= 1
    ensures r < k && (Announces(states[r], steps[r], j) || (j == |states[r].db.rows| && HasId(states[r + 1].db, j)))
  {
    assert LogsOnce(states[k - 1], steps[k - 1], states[k - 1 + 1], j);
    if Launched(states[k - 1].db, j) >= 1 {
      r := FirstEvent(states, steps, k - 1, j);
    } else {
      r := k - 1;
    }
  }

  lemma {:induction false} LaunchedGrows(states: seq<State>, steps: seq<Step>, i: nat, k: nat, j: JobId)
    requires Logged(states, steps, j) && i <= k < |states|
    ensures Launched(states[k].db, j) >= Launched(states[i].db, j)
    decreases k
  {
    if i < k {
      LaunchedGrows(states, steps, i, k - 1, j);
      assert LogsOnce(states[k - 1], steps[k - 1], states[k - 1 + 1], j);
    }
  }

  lemma TwoAnnouncements(states: seq<State>, steps: seq<Step>, r: nat, m: nat, k: nat, j: JobId)
    requires Logged(states, steps, j) && r < m < k < |states|
    requires Announces(states[r], steps[r], j) && Announces(states[m], steps[m], j)
    ensures Launched(states[k].db, j) >= 2
  {
    assert LogsOnce(states[r], steps[r], states[r + 1], j) && LogsOnce(states[m], steps[m], states[m + 1], j);
    LaunchedGrows(states, steps, r + 1, m, j);
    LaunchedGrows(states, steps, m + 1, k, j);
  }

  /** The announcer of m looked at the job before its announcement at r. */
  ghost predicate AnnouncesLate(states: seq<State>, steps: seq<Step>, l: nat, r: nat, m: nat, j: JobId)
    requires |states| == |steps| + 1
  {
    l < r < m && LooksThenAnnounces(states, steps, l, m, j) && Announces(states[r], steps[r], j)
  }

  lemma TwoEvents(cfg: Config, states: seq<State>, steps: seq<Step>, k: nat, j: JobId) returns (l: nat, r: nat, m: nat)
    requires IsRun(cfg, states, steps) && k < |states| && Launched(states[k].db, j) >= 2
    ensures m < k && AnnouncesLate(states, steps, l, r, m, j)
  {
    RunLogs(cfg, states, steps, j);
    m := SecondEvent(states, steps, k, j);
    r := FirstEvent(states, steps, m, j);
    l := AnnouncerSource(cfg, states, steps, m, j);
    if Announces(states[r], steps[r], j) {
      var l0 := AnnouncerSource(cfg, states, steps, r, j);
      if r <= l {
        HasIdStays(cfg, states, steps, r, l, j);
      }
    } else {
      RowsStay(cfg, states, steps, l, r, j);
      HasIdStays(cfg, states, steps, r + 1, l, j);
    }
  }

  lemma RowsStay(cfg: Config, states: seq<State>, steps: seq<Step>, l: nat, r: nat, j: JobId)
    requires IsRun(cfg, states, steps) && l < |states| && r < |states| && j < |states[l].db.rows| && j >= |states[r].db.rows|
    ensures r < l
  {
    if l <= r {
      RunGrows(cfg, states, steps);
      GrownFrom(states, l, r);
    }
  }

  /** In every run: a launch has been logged twice if and only if somebody announced it who had
      looked at the job before another announcement of it. */
  lemma LaunchLoggedTwiceIff(cfg: Config, states: seq<State>, steps: seq<Step>, k: nat, j: JobId)
    requires IsRun(cfg, states, steps) && k < |states|
    ensures Launched(states[k].db, j) >= 2
            <==> exists l: nat, r: nat, m: nat :: m < k && AnnouncesLate(states, steps, l, r, m, j)
  {
    if Launched(states[k].db, j) >= 2 {
      var l, r, m := TwoEvents(cfg, states, steps, k, j);
      assert AnnouncesLate(states, steps, l, r, m, j);
    }
    if l: nat, r: nat, m: nat :| m < k && AnnouncesLate(states, steps, l, r, m, j) {
      RunLogs(cfg, states, steps, j);
      TwoAnnouncements(states, steps, r, m, k, j);
    }
  }

  /** Whoever reads a job with an id at its SELECT never changes its row, and logs it once more
      exactly when its look came before that id and the id is its own. */
  lemma RepeatedClaimLogsIff(db: Db, c: Call, j: JobId)
    requires FindKey(db.rows, c.key, |db.rows|) == Some(j) && HasId(db, j) && c.phase.Looked?
    ensures ClaimAlone(db, c).rows == db.rows
    ensures Launched(ClaimAlone(db, c), j) == Launched(db, j) + if c.first && db.rows[j].aapId == Some(c.aap) then 1 else 0
    ensures CallAfter(db, c, SelectRow).phase.Announcing? <==> c.first && db.rows[j].aapId == Some(c.aap)
    ensures !CallAfter(db, c, SelectRow).phase.Announcing? ==> CallAfter(db, c, SelectRow).phase.Over?
  {
    MoveEffect(db, c, SelectRow, j);
    var c1 := Selected(db, c);
    if c1.phase.Announcing? {
      MoveEffect(db, c1, Announce, j);
    }
  }

  // ----- launches accepted by AAP -----

  function AcceptedCalls(renews: seq<RenewCall>, j: JobId): nat {
    if renews == [] then 0
    else AcceptedCalls(renews[..|renews| - 1], j)
         + if renews[|renews| - 1] == RenewCall(j, true) then 1 else 0
  }

  lemma CallsAppend(renews: seq<RenewCall>, c: RenewCall, j: JobId)
    ensures AcceptedCalls(renews + [c], j)
         == AcceptedCalls(renews, j) + if c == RenewCall(j, true) then 1 else 0
  {
    assert (renews + [c])[..|renews|] == renews;
  }

  /** The id of an accepted launch is on its way to the table. */
  predicate RefPending(s: State, j: JobId) {
    s.pending != [] && Refers(s.pending[0], j)
  }

  /** It never gets there. */
  predicate DropsRef(s: State, step: Step, j: JobId) {
    RefPending(s, j) && (step.Lost? || step.Crash?)
  }

  /** The worker stores an id over another one. */
  predicate WritesLate(s: State, step: Step, j: JobId) {
    HasId(s.db, j) && WorkerWrites(s, step, j)
  }

  function One(b: bool): nat {
    if b then 1 else 0
  }

  ghost predicate AcceptsBy(s: State, step: Step, t: State, j: JobId) {
    AcceptedCalls(t.renews, j) + One(HasId(s.db, j)) + One(RefPending(s, j))
    <= AcceptedCalls(s.renews, j) + One(HasId(t.db, j)) + One(RefPending(t, j))
       + One(DropsRef(s, step, j)) + One(WritesLate(s, step, j))
  }

  lemma BeginAccepts(cfg: Config, s: State, ans: Answer, t: State, j: JobId)
    requires Inv(s) && Next(cfg, s, Begin(ans), t)
    ensures AcceptsBy(s, Begin(ans), t, j)
  {
    var c := s.batch[0];
    assert ClaimedOk(s, c);
    PlanLaunches(cfg, c, ans, s.now, s.tickNow);
    CallsAppend(s.renews, RenewCall(c.id, ans.renew.Renewed?), j);
    if WorkerPlan.Renews(cfg, c, ans) && ans.renew.Renewed? {
      assert t.pending[0] == SetAapRef(c.id, ans.renew.aap, ans.renew.wf, AapPending);
    }
  }

  lemma SendAccepts(s: State, t: State, j: JobId)
    requires Inv(s) && IdInv(s) && s.pending != [] && t == AfterSend(s)
    ensures AcceptsBy(s, Send, t, j)
  {
    WriteGrows(s.db, s.pending[0]);
    assert WriteOk(s.db, s.pending[0]);
  }

  lemma StepAccepts(cfg: Config, s: State, step: Step, t: State, j: JobId)
    requires Inv(s) && IdInv(s) && Next(cfg, s, step, t)
    ensures AcceptsBy(s, step, t, j)
  {
    if step.Begin? {
      BeginAccepts(cfg, s, step.ans, t, j);
    } else if step.Send? {
      SendAccepts(s, t, j);
    } else {
      StepGrows(cfg, s, step, t);
    }
  }

  function RefsDropped(states: seq<State>, steps: seq<Step>, k: nat, j: JobId): nat
    requires k <= |steps| < |states|
  {
    if k == 0 then 0 else RefsDropped(states, steps, k - 1, j) + One(DropsRef(states[k - 1], steps[k - 1], j))
  }

  function RefsLate(states: seq<State>, steps: seq<Step>, k: nat, j: JobId): nat
    requires k <= |steps| < |states|
  {
    if k == 0 then 0 else RefsLate(states, steps, k - 1, j) + One(WritesLate(states[k - 1], steps[k - 1], j))
  }

  lemma {:induction false} AcceptsAlong(states: seq<State>, steps: seq<Step>, k: nat, j: JobId)
    requires |states| == |steps| + 1 && k < |states|
    requires forall m :: 0 <= m < |steps| ==> AcceptsBy(states[m], steps[m], states[m + 1], j)
    requires states[0].renews == []
    ensures AcceptedCalls(states[k].renews, j)
            <= One(HasId(states[k].db, j)) + One(RefPending(states[k], j))
               + RefsDropped(states, steps, k, j) + RefsLate(states, steps, k, j)
  {
    if k > 0 {
      AcceptsAlong(states, steps, k - 1, j);
      assert AcceptsBy(states[k - 1], steps[k - 1], states[k], j);
    }
  }

  /** AAP accepts one launch per job, and one more for every id that could not be stored and
      every id the worker stored over another one. */
  lemma LaunchesAccepted(cfg: Config, states: seq<State>, steps: seq<Step>, k: nat, j: JobId)
    requires IsRun(cfg, states, steps) && k < |states|
    ensures AcceptedCalls(states[k].renews, j)
            <= One(HasId(states[k].db, j)) + One(RefPending(states[k], j))
               + RefsDropped(states, steps, k, j) + RefsLate(states, steps, k, j)
  {
    forall m | 0 <= m < |steps| ensures AcceptsBy(states[m], steps[m], states[m + 1], j) {
      IdRunKeeps(cfg, states, steps, m);
      StepAccepts(cfg, states[m], steps[m], states[m + 1], j);
    }
    AcceptsAlong(states, steps, k, j);
  }
}
