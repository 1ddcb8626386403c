/** Safety of whole runs of the job protocol. */
module JobTheorems {
  import opened Wrappers
  import opened Backoff
  import opened WireCheck
  import opened JobTable
  import opened WorkerPlan
  import opened JobMachine
  import opened JobInvariants

  lemma {:induction false} RunKeeps(cfg: Config, states: seq<State>, steps: seq<Step>, i: nat)
    requires IsRun(cfg, states, steps) && i < |states|
    ensures Inv(states[i])
  {
    if i == 0 {
      assert states[0].batch == [] && states[0].pending == [];
    } else {
      RunKeeps(cfg, states, steps, i - 1);
      StepKeeps(cfg, states[i - 1], steps[i - 1], states[i]);
    }
  }

  // ----- what is stored -----

  /** Reachable rows: which statuses exist and what each implies. */
  lemma StoredRows(cfg: Config, states: seq<State>, steps: seq<Step>, i: nat, j: JobId)
    requires IsRun(cfg, states, steps) && i < |states| && j < |states[i].db.rows|
    ensures var r := states[i].db.rows[j];
            && (r.status.Launching? || r.status.AapPending? || r.status.PendingVerify?
                || r.status.Verified? || r.status.TimedOut? || r.status.Failed?)
            && (r.status.Launching? ==> r.aapId.None?)
            && (r.status.AapPending? ==> r.aapId.Some?)
            && (r.status.PendingVerify? ==> r.nextVerify.Some?)
  {
    RunKeeps(cfg, states, steps, i);
  }

  /** The attempt counter of a job whose verify window is at most a day never exceeds eleven. */
  lemma AttemptsPerDay(cfg: Config, states: seq<State>, steps: seq<Step>, i: nat, j: JobId)
    requires IsRun(cfg, states, steps) && i < |states| && j < |states[i].db.rows|
    ensures var r := states[i].db.rows[j];
            && (r.attempt >= 1 ==> Elapsed(r.attempt) < r.timeoutAt - r.created)
            && (r.timeoutAt - r.created <= DAY ==> r.attempt <= 11)
  {
    RunKeeps(cfg, states, steps, i);
    var r := states[i].db.rows[j];
    if r.attempt >= 1 {
      ElevenProbesPerDay(r.attempt);
    }
  }

  // ----- how rows move -----

  /** Nothing that matters to the protocol changed. */
  predicate SameStage(r: Job, r': Job) {
    r'.status == r.status && r'.attempt == r.attempt && r'.nextVerify == r.nextVerify
    && (r'.aapId.Some? <==> r.aapId.Some?)
  }

  /** A job that waits for verification is told of an AAP job once more. */
  predicate SentBack(r: Job, r': Job) {
    r.status.PendingVerify? && r.aapId.Some? && r'.status.AapPending? && r'.aapId.Some? && r'.attempt == r.attempt
  }

  /** The changes a job goes through. */
  predicate Moves(r: Job, r': Job) {
    || SentBack(r, r')
    || (!Terminal(r.status) && r.aapId.None? && r'.aapId.Some? && r'.status.AapPending?
        && r'.attempt == r.attempt)
    || (r.status.AapPending? && r'.status.PendingVerify? && (r.aapId.Some? <==> r'.aapId.Some?))
    || (r.status.PendingVerify? && r'.status.PendingVerify? && r'.attempt == r.attempt + 1
        && (r.aapId.Some? <==> r'.aapId.Some?)
        && r.nextVerify.Some? && r'.nextVerify.Some?
        && r.nextVerify.value < r'.nextVerify.value <= r.timeoutAt)
    || (!Terminal(r.status) && Terminal(r'.status) && (r.aapId.Some? <==> r'.aapId.Some?))
  }

  ghost predicate RowStep(r: Job, r': Job) {
    r'.timeoutAt == r.timeoutAt && r'.created == r.created && (SameStage(r, r') || Moves(r, r'))
  }

  lemma WriteMoves(db: Db, now: Time, w: Write, j: JobId)
    requires RowsOk(db, now) && WriteOk(db, w) && j < |db.rows|
    ensures |Apply(db, w).rows| == |db.rows| && RowStep(db.rows[j], Apply(db, w).rows[j])
  {
  }

  lemma ApiStepMoves(cfg: Config, s: State, step: Step, j: JobId)
    requires Inv(s) && Enabled(s, step) && IsApiStep(step) && j < |s.db.rows|
    ensures var t := Exec(cfg, s, step);
            |s.db.rows| <= |t.db.rows| && RowStep(s.db.rows[j], t.db.rows[j])
  {
    match step
    case ApiInsert(n) =>
    case ApiLook(key, aap, ok) =>
    case ApiMove(h, m) => MoveMoves(s.db, s.now, s.calls[h], m, j);
    case ApiDropCertificate(cert) =>
  }

  lemma MoveMoves(db: Db, now: Time, c: Call, m: Move, j: JobId)
    requires RowsOk(db, now) && CanMove(c, m) && (m.UpdateRow? ==> !Revives(db, c)) && j < |db.rows|
    ensures |DbAfter(db, c, m).rows| == |db.rows| && RowStep(db.rows[j], DbAfter(db, c, m).rows[j])
  {
    assert RowOk(db.rows[j], now);
  }

  /** No step of a run removes a row or moves it in any other way. */
  lemma StepMoves(cfg: Config, s: State, step: Step, t: State, j: JobId)
    requires Inv(s) && Next(cfg, s, step, t) && j < |s.db.rows|
    ensures |s.db.rows| <= |t.db.rows| && RowStep(s.db.rows[j], t.db.rows[j])
  {
    if IsApiStep(step) {
      ApiStepMoves(cfg, s, step, j);
    } else if step.Send? {
      WriteMoves(s.db, s.now, s.pending[0], j);
    }
  }

  ghost predicate RowsStep(s: State, t: State) {
    |s.db.rows| <= |t.db.rows|
    && forall j :: 0 <= j < |s.db.rows| ==> RowStep(s.db.rows[j], t.db.rows[j])
  }

  /** The life of the rows along a run, one step after the other. */
  ghost predicate Evolves(states: seq<State>) {
    forall m :: 0 < m < |states| ==> RowsStep(states[m - 1], states[m])
  }

  lemma RunEvolves(cfg: Config, states: seq<State>, steps: seq<Step>)
    requires IsRun(cfg, states, steps)
    ensures Evolves(states)
  {
    forall m | 0 < m < |states| ensures RowsStep(states[m - 1], states[m]) {
      RunKeeps(cfg, states, steps, m - 1);
      RowsMove(cfg, states[m - 1], steps[m - 1], states[m]);
    }
  }

  lemma RowsMove(cfg: Config, s: State, step: Step, t: State)
    requires Inv(s) && Next(cfg, s, step, t)
    ensures RowsStep(s, t)
  {
    if |s.db.rows| == 0 {
    } else {
      forall j | 0 <= j < |s.db.rows| ensures |s.db.rows| <= |t.db.rows| && RowStep(s.db.rows[j], t.db.rows[j]) {
        StepMoves(cfg, s, step, t, j);
      }
      StepMoves(cfg, s, step, t, 0);
    }
  }

  lemma {:induction false} OutcomeStays(states: seq<State>, i: nat, k: nat, j: JobId)
    requires Evolves(states) && i <= k < |states|
    requires j < |states[i].db.rows| && Terminal(states[i].db.rows[j].status)
    ensures j < |states[k].db.rows| && states[k].db.rows[j].status == states[i].db.rows[j].status
    decreases k
  {
    if i < k {
      OutcomeStays(states, i, k - 1, j);
      assert RowsStep(states[k - 1], states[k]);
    }
  }

  /** A verified, timed out or failed job stays so for the rest of the run. */
  lemma OutcomeIsForever(cfg: Config, states: seq<State>, steps: seq<Step>, i: nat, k: nat, j: JobId)
    requires IsRun(cfg, states, steps) && i <= k < |states|
    requires j < |states[i].db.rows| && Terminal(states[i].db.rows[j].status)
    ensures j < |states[k].db.rows| && states[k].db.rows[j].status == states[i].db.rows[j].status
  {
    RunEvolves(cfg, states, steps);
    OutcomeStays(states, i, k, j);
  }

  /** Whatever ended by k has kept its outcome up to k. */
  ghost predicate OutcomesKept(states: seq<State>, k: nat)
    requires k < |states|
  {
    forall i: nat, n: nat, j: JobId :: i <= n <= k && j < |states[i].db.rows| && Terminal(states[i].db.rows[j].status) ==>
      j < |states[n].db.rows| && states[n].db.rows[j].status == states[i].db.rows[j].status
  }

  lemma OutcomesKeptInRun(cfg: Config, states: seq<State>, steps: seq<Step>)
    requires IsRun(cfg, states, steps)
    ensures OutcomesKept(states, |steps|)
  {
    RunEvolves(cfg, states, steps);
    forall i: nat, n: nat, j: JobId | i <= n <= |steps| && j < |states[i].db.rows| && Terminal(states[i].db.rows[j].status)
      ensures j < |states[n].db.rows| && states[n].db.rows[j].status == states[i].db.rows[j].status
    {
      OutcomeStays(states, i, n, j);
    }
  }

  lemma FreeRunIsRun(cfg: Config, states: seq<State>, steps: seq<Step>, k: nat)
    requires IsFreeRun(cfg, states, steps) && k <= |steps|
    requires forall m :: 0 <= m < k ==> !Reopens(states[m], steps[m])
    ensures IsRun(cfg, states[..k + 1], steps[..k])
  {
    forall i | 0 <= i < k ensures Next(cfg, states[..k + 1][i], steps[..k][i], states[..k + 1][i + 1]) {
      assert Possible(states[i], steps[i]) && !Reopens(states[i], steps[i]);
    }
  }

  lemma ReopenedIsLost(cfg: Config, s: State, step: Step, t: State) returns (j: JobId)
    requires Possible(s, step) && t == Exec(cfg, s, step) && Reopens(s, step)
    ensures j < |s.db.rows| && Terminal(s.db.rows[j].status) && j < |t.db.rows| && !Terminal(t.db.rows[j].status)
  {
    j := s.calls[step.h].phase.id;
  }

  /** In every sequence of steps, claims that land on ended jobs included: the outcomes are
      final if and only if none does. */
  lemma OutcomesFinalIff(cfg: Config, states: seq<State>, steps: seq<Step>, k: nat)
    requires IsFreeRun(cfg, states, steps) && k < |states|
    ensures OutcomesKept(states, k) <==> forall m :: 0 <= m < k ==> !Reopens(states[m], steps[m])
  {
    if m :| 0 <= m < k && Reopens(states[m], steps[m]) {
      var j := ReopenedIsLost(cfg, states[m], steps[m], states[m + 1]);
      assert !OutcomesKept(states, k);
    } else {
      FreeRunIsRun(cfg, states, steps, k);
      OutcomesKeptInRun(cfg, states[..k + 1], steps[..k]);
      forall i: nat, n: nat, j: JobId | i <= n <= k && j < |states[i].db.rows| && Terminal(states[i].db.rows[j].status)
        ensures j < |states[n].db.rows| && states[n].db.rows[j].status == states[i].db.rows[j].status
      {
        assert states[..k + 1][i] == states[i] && states[..k + 1][n] == states[n];
      }
    }
  }

  // ----- progress -----

  function Stage(s: Status): nat {
    match s
    case Launching => 3
    case AapPending => 2
    case PendingVerify => 1
    case _ => 0
  }

  function TimeLeft(r: Job): nat {
    if r.status.PendingVerify? && r.nextVerify.Some? && r.nextVerify.value < r.timeoutAt
    then r.timeoutAt - r.nextVerify.value else 0
  }

  function MissingId(r: Job): nat {
    if r.aapId.None? then 1 else 0
  }

  /** Lexicographic order on (id still missing, stage, time from next probe to deadline). */
  predicate Closer(r': Job, r: Job) {
    || MissingId(r') < MissingId(r)
    || (MissingId(r') == MissingId(r) && Stage(r'.status) < Stage(r.status))
    || (MissingId(r') == MissingId(r) && Stage(r'.status) == Stage(r.status) && TimeLeft(r') < TimeLeft(r))
  }

  /** A claim's UPDATE lands on the job while it has an id already and waits for verification:
      another id was recorded, and polled to its end, since the claim's SELECT. */
  predicate SetsBack(s: State, step: Step, j: JobId) {
    step.ApiMove? && step.m.UpdateRow? && step.h < |s.calls|
    && s.calls[step.h].phase.Writing? && s.calls[step.h].phase.id == j
    && j < |s.db.rows| && s.db.rows[j].status.PendingVerify? && s.db.rows[j].aapId.Some?
  }

  /** Every change of status, attempt, next probe or id presence brings the job closer to its
      end, save for one: the late UPDATE of a claim sends it back to polling. */
  lemma ChangesComeCloser(cfg: Config, s: State, step: Step, t: State, j: JobId)
    requires Inv(s) && Next(cfg, s, step, t) && j < |s.db.rows|
    ensures |s.db.rows| <= |t.db.rows|
    ensures SameStage(s.db.rows[j], t.db.rows[j]) || SetsBack(s, step, j) || Closer(t.db.rows[j], s.db.rows[j])
    ensures SetsBack(s, step, j) ==> t.db.rows[j].status.AapPending? && Closer(s.db.rows[j], t.db.rows[j])
  {
    StepMoves(cfg, s, step, t, j);
    StepKeeps(cfg, s, step, t);
    OnlyClaimsSendBack(cfg, s, step, t, j);
    assert RowOk(s.db.rows[j], s.now) && RowOk(t.db.rows[j], t.now);
  }

  lemma OnlyClaimsSendBack(cfg: Config, s: State, step: Step, t: State, j: JobId)
    requires Inv(s) && Next(cfg, s, step, t) && j < |s.db.rows|
    ensures j < |t.db.rows| && (SentBack(s.db.rows[j], t.db.rows[j]) <==> SetsBack(s, step, j))
  {
    StepMoves(cfg, s, step, t, j);
    if step.Send? {
      WritesSendNoneBack(s.db, s.pending[0], j);
    } else if step.ApiMove? {
      MovesSendBackIff(s, step.h, step.m, t, j);
    } else {
      OthersSendNoneBack(cfg, s, step, t, j);
    }
  }

  lemma MovesSendBackIff(s: State, h: nat, m: Move, t: State, j: JobId)
    requires Inv(s) && h < |s.calls| && CanMove(s.calls[h], m) && t == Moved(s, h, m) && j < |s.db.rows|
    ensures j < |t.db.rows| && (SentBack(s.db.rows[j], t.db.rows[j]) <==> SetsBack(s, ApiMove(h, m), j))
  {
  }

  lemma OthersSendNoneBack(cfg: Config, s: State, step: Step, t: State, j: JobId)
    requires Next(cfg, s, step, t) && !step.Send? && !step.ApiMove? && j < |s.db.rows|
    ensures j < |t.db.rows| && !SentBack(s.db.rows[j], t.db.rows[j])
  {
  }

  lemma WritesSendNoneBack(db: Db, w: Write, j: JobId)
    requires WriteOk(db, w) && j < |db.rows|
    ensures j < |Apply(db, w).rows| && !SentBack(db.rows[j], Apply(db, w).rows[j])
  {
  }

  /** Changes a job of a one-day window still has before it. */
  function Budget(r: Job): int {
    (if r.aapId.None? then 15 else 0)
    + match r.status
      case Launching => 14
      case AapPending => 13
      case PendingVerify => 12 - r.attempt
      case _ => 0
  }

  function Changes(states: seq<State>, i: nat, k: nat, j: JobId): nat
    requires i <= k < |states|
    requires forall m :: i <= m <= k ==> j < |states[m].db.rows|
    decreases k
  {
    if i == k then 0
    else Changes(states, i, k - 1, j)
         + if SameStage(states[k - 1].db.rows[j], states[k].db.rows[j]) then 0 else 1
  }

  /** A row whose attempts fit the window. */
  predicate Fits(r: Job) {
    r.timeoutAt - r.created <= DAY && r.attempt <= 11
    && Stored(r.status)
  }

  lemma BudgetFalls(r: Job, r': Job)
    requires RowStep(r, r') && Fits(r) && Fits(r')
    ensures Budget(r') + (if SameStage(r, r') then 0 else 1) <= Budget(r) + (if SentBack(r, r') then 13 else 0)
  {
  }

  /** How often claims send the job back in a segment of a run. */
  function SetBacks(states: seq<State>, steps: seq<Step>, i: nat, k: nat, j: JobId): nat
    requires i <= k <= |steps| < |states|
    decreases k
  {
    if i == k then 0 else SetBacks(states, steps, i, k - 1, j) + if SetsBack(states[k - 1], steps[k - 1], j) then 1 else 0
  }

  ghost predicate BackOnlyByClaims(states: seq<State>, steps: seq<Step>, j: JobId) {
    |states| == |steps| + 1
    && forall m :: 0 < m < |states| && j < |states[m - 1].db.rows| && j < |states[m].db.rows| ==>
         (SentBack(states[m - 1].db.rows[j], states[m].db.rows[j]) ==> SetsBack(states[m - 1], steps[m - 1], j))
  }

  lemma {:induction false} ChangesWithinBudget(states: seq<State>, steps: seq<Step>, i: nat, k: nat, j: JobId)
    requires Evolves(states) && BackOnlyByClaims(states, steps, j) && i <= k < |states| && j < |states[i].db.rows|
    requires forall m :: i <= m <= k ==> j < |states[m].db.rows| && Fits(states[m].db.rows[j])
    ensures Changes(states, i, k, j) + Budget(states[k].db.rows[j])
            <= Budget(states[i].db.rows[j]) + 13 * SetBacks(states, steps, i, k, j)
    decreases k
  {
    if i < k {
      ChangesWithinBudget(states, steps, i, k - 1, j);
      assert RowsStep(states[k - 1], states[k]);
      BudgetFalls(states[k - 1].db.rows[j], states[k].db.rows[j]);
    }
  }

  lemma RunSendsBack(cfg: Config, states: seq<State>, steps: seq<Step>, j: JobId)
    requires IsRun(cfg, states, steps)
    ensures BackOnlyByClaims(states, steps, j)
  {
    forall m | 0 < m < |states| && j < |states[m - 1].db.rows| && j < |states[m].db.rows|
               && SentBack(states[m - 1].db.rows[j], states[m].db.rows[j])
      ensures SetsBack(states[m - 1], steps[m - 1], j)
    {
      RunKeeps(cfg, states, steps, m - 1);
      OnlyClaimsSendBack(cfg, states[m - 1], steps[m - 1], states[m], j);
    }
  }

  lemma {:induction false} WindowStays(states: seq<State>, i: nat, k: nat, j: JobId)
    requires Evolves(states) && i <= k < |states| && j < |states[i].db.rows|
    ensures forall m :: i <= m <= k ==>
              && j < |states[m].db.rows|
              && states[m].db.rows[j].timeoutAt == states[i].db.rows[j].timeoutAt
              && states[m].db.rows[j].created == states[i].db.rows[j].created
    decreases k
  {
    if i < k {
      WindowStays(states, i, k - 1, j);
      assert RowsStep(states[k - 1], states[k]);
    }
  }

  /** Over any run, however long, a job with a one-day window changes at most 29 times, and 13
      times more whenever the late UPDATE of a claim sends it back. */
  lemma ChangesAreBounded(cfg: Config, states: seq<State>, steps: seq<Step>, i: nat, k: nat, j: JobId)
    requires IsRun(cfg, states, steps) && i <= k < |states| && j < |states[i].db.rows|
    requires states[i].db.rows[j].timeoutAt - states[i].db.rows[j].created <= DAY
    ensures forall m :: i <= m <= k ==> j < |states[m].db.rows|
    ensures Changes(states, i, k, j) <= 29 + 13 * SetBacks(states, steps, i, k, j)
  {
    RunEvolves(cfg, states, steps);
    RunSendsBack(cfg, states, steps, j);
    WindowStays(states, i, k, j);
    forall m | i <= m <= k ensures Fits(states[m].db.rows[j]) {
      AttemptsPerDay(cfg, states, steps, m, j);
      StoredRows(cfg, states, steps, m, j);
    }
    ChangesWithinBudget(states, steps, i, k, j);
  }

  // ----- the sweep -----

  /** After a sweep no job waits for verification past the deadline the tick saw. */
  lemma SweepLeavesNoneOverdue(cfg: Config, states: seq<State>, steps: seq<Step>, i: nat, j: JobId)
    requires IsRun(cfg, states, steps) && i < |steps| && steps[i].Sweep?
    requires j < |states[i + 1].db.rows| && states[i + 1].db.rows[j].status.PendingVerify?
    ensures states[i + 1].db.rows[j].timeoutAt > states[i].tickNow
  {
    RunKeeps(cfg, states, steps, i);
    SweptRows(states[i].db, states[i].now, states[i].tickNow,
              ExpiredIds(states[i].db.rows, states[i].tickNow, |states[i].db.rows|));
  }

  // ----- why the API must not claim an ended job -----

  /** The SELECT of a claim does not ask for the status, and neither does its UPDATE: an ended
      job is revived by a claim of its own exactly when it has no id. */
  lemma ClaimReopensIff(db: Db, c: Call, j: JobId)
    requires FindKey(db.rows, c.key, |db.rows|) == Some(j) && Terminal(db.rows[j].status) && c.phase.Looked?
    ensures ClaimAlone(db, c).rows[j].status == db.rows[j].status <==> db.rows[j].aapId.Some?
    ensures Revives(db, CallAfter(db, c, SelectRow)) <==> db.rows[j].aapId.None?
  {
    assert !db.rows[j].status.AapPending?;
  }

  const WAITING := MigratePending(0, "fp", Undecodable, 1, 2)

  const EMPTY := State(Db([], [], []), 1, 1, [], [], [], None, [])

  lemma StepsTwo(cfg: Config, s: State, s1: State, t: State, a: Step, b: Step)
    requires Next(cfg, s, a, s1) && Next(cfg, s1, b, t)
    ensures Leads(cfg, s, [a, b], t)
  {
    assert [a, b][1..] == [b] && [b][1..] == [];
    assert Leads(cfg, s1, [b], t);
  }

  lemma StepsThree(cfg: Config, s: State, s1: State, s2: State, t: State, a: Step, b: Step, c: Step)
    requires Next(cfg, s, a, s1) && Next(cfg, s1, b, s2) && Next(cfg, s2, c, t)
    ensures Leads(cfg, s, [a, b, c], t)
  {
    assert [a, b, c][1..] == [b, c];
    StepsTwo(cfg, s1, s2, t, b, c);
  }

  lemma StepsFour(cfg: Config, s: State, s1: State, s2: State, s3: State, t: State, a: Step, b: Step, c: Step, d: Step)
    requires Next(cfg, s, a, s1) && Next(cfg, s1, b, s2) && Next(cfg, s2, c, s3) && Next(cfg, s3, d, t)
    ensures Leads(cfg, s, [a, b, c, d], t)
  {
    assert [a, b, c, d][1..] == [b, c, d];
    StepsThree(cfg, s1, s2, s3, t, b, c, d);
  }

  /** The time of a waiting job runs out. */
  lemma DeadlineSwept(cfg: Config, s: State) returns (t: State)
    requires Idle(s) && s.now == 1 && s.db.rows == [RowOf(WAITING, 1)]
    ensures Leads(cfg, s, [Pass(1), StartTick, Sweep], t)
    ensures t.calls == s.calls && |t.db.rows| == 1 && t.db.rows[0].status.TimedOut? && t.db.rows[0].aapId.None?
  {
    var s1 := Exec(cfg, s, Pass(1));
    var s2 := Exec(cfg, s1, StartTick);
    t := Exec(cfg, s2, Sweep);
    StepsThree(cfg, s, s1, s2, t, Pass(1), StartTick, Sweep);
  }

  /** Ended jobs without an id exist: a migration enqueued for an external launcher that never
      comes runs into its deadline. */
  lemma EndedWithoutId(cfg: Config) returns (s: State, steps: seq<Step>, t: State)
    ensures Init(s) && Leads(cfg, s, steps, t)
    ensures |t.db.rows| == 1 && t.db.rows[0].status.TimedOut? && t.db.rows[0].aapId.None?
  {
    s := EMPTY;
    var s1 := Exec(cfg, s, ApiInsert(WAITING));
    assert s1.db.rows == [RowOf(WAITING, 1)];
    t := DeadlineSwept(cfg, s1);
    steps := [ApiInsert(WAITING), Pass(1), StartTick, Sweep];
    assert steps[1..] == [Pass(1), StartTick, Sweep];
  }

  lemma OnlyKey(rows: seq<Job>)
    requires |rows| == 1
    ensures FindKey(rows, rows[0].key, 1) == Some(0)
  {
    assert FindKey(rows, rows[0].key, 0).None?;
  }

  lemma WaitingInserted(cfg: Config) returns (t: State)
    ensures Init(EMPTY) && Next(cfg, EMPTY, ApiInsert(WAITING), t)
    ensures t == EMPTY.(db := t.db) && t.db.rows == [RowOf(WAITING, 1)]
  {
    t := Exec(cfg, EMPTY, ApiInsert(WAITING));
  }

  /** A claim looks at a waiting job and SELECTs it. */
  lemma ReadWhileAlive(cfg: Config) returns (t: State)
    ensures Init(EMPTY) && Leads(cfg, EMPTY, [ApiInsert(WAITING), ApiLook(KeyOf(WAITING), 7, true), ApiMove(0, SelectRow)], t)
    ensures t == EMPTY.(db := t.db, calls := t.calls) && t.db.rows == [RowOf(WAITING, 1)]
    ensures t.calls == [Call(KeyOf(WAITING), 7, true, Writing(0, false))]
  {
    var key := KeyOf(WAITING);
    var s1 := WaitingInserted(cfg);
    OnlyKey(s1.db.rows);
    var s2 := s1.(calls := [Call(key, 7, true, Looked)]);
    t := s1.(calls := [Call(key, 7, true, Writing(0, false))]);
    StepsThree(cfg, EMPTY, s1, s2, t, ApiInsert(WAITING), ApiLook(key, 7, true), ApiMove(0, SelectRow));
  }

  /** Asking for the status at the SELECT would not do: the claim of a job that is alive when
      read lands after the sweep has ended it, and would bring it back. */
  lemma ClaimRevivesAfterSweep(cfg: Config) returns (s: State, steps: seq<Step>, t: State)
    ensures Init(s) && Leads(cfg, s, steps, t)
    ensures exists l :: 0 <= l < |steps| && steps[l] == ApiMove(0, SelectRow) && forall k :: 0 <= k <= l ==> !steps[k].Sweep?
    ensures |t.calls| == 1 && t.calls[0].phase.Writing? && Revives(t.db, t.calls[0])
    ensures |t.db.rows| == 1 && t.db.rows[0].status.TimedOut?
    ensures DbAfter(t.db, t.calls[0], UpdateRow).rows[0].status.AapPending?
  {
    s := EMPTY;
    var s3 := ReadWhileAlive(cfg);
    t := DeadlineSwept(cfg, s3);
    var first := [ApiInsert(WAITING), ApiLook(KeyOf(WAITING), 7, true), ApiMove(0, SelectRow)];
    steps := first + [Pass(1), StartTick, Sweep];
    LeadsConcat(cfg, s, first, s3, [Pass(1), StartTick, Sweep], t);
    assert steps[2] == ApiMove(0, SelectRow);
  }
}
