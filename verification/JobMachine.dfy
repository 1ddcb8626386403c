/** Runs of the durable job protocol: one worker, any number of API calls, one clock. Each
    SQL statement or transaction is one step, so the statements of the worker and of any number
    of claim handlers interleave freely, and any single one of them may fail. */
module JobMachine {
  import opened Wrappers
  import opened Backoff
  import opened WireCheck
  import opened JobTable
  import opened WorkerPlan

  /** A Renew call of the worker and whether AAP accepted it. */
  datatype RenewCall = RenewCall(job: JobId, launched: bool)

  /** batch holds the claimed jobs not yet started and pending the statements the current job
      still has to send. orphan is the job whose outcome could not be stored while the event
      that announces it is still pending. renews records the past. calls are the claim
      handlers, by the order of their looks. */
  datatype State = State(db: Db, now: Time, tickNow: Time, batch: seq<Claimed>, pending: seq<Write>,
                         renews: seq<RenewCall>, orphan: Option<JobId>, calls: seq<Call>)

  datatype Step =
    | Pass(d: nat)
    | ApiInsert(n: NewJob)
    | ApiLook(key: IdemKey, aap: int, ok: bool)
    | ApiMove(h: nat, m: Move)
    | ApiDropCertificate(cert: CertId)
    | StartTick
    | Sweep
    | Claim(owner: string, ttl: int, limit: nat)
    | ClaimDue(ttl: int, limit: nat)
    | Begin(ans: Answer)
    | Send
    | Lost
    | Crash

  predicate Idle(s: State) {
    s.batch == [] && s.pending == []
  }

  /** An insert schedules its first probe no earlier than the insert. */
  predicate Possible(s: State, step: Step) {
    match step
    case ApiInsert(n) =>
      (n.MigrateLaunched? || n.MigratePending?) ==> n.next == ZERO_TIME || n.next >= s.now
    case ApiMove(h, m) => h < |s.calls| && CanMove(s.calls[h], m)
    case StartTick => Idle(s)
    case Sweep => Idle(s)
    case Claim(_, _, _) => Idle(s)
    case ClaimDue(_, _) => Idle(s)
    case Begin(_) => s.batch != [] && s.pending == []
    case Send => s.pending != []
    case Lost => s.pending != []
    case _ => true
  }

  /** A claim's UPDATE lands on an ended job. */
  predicate Reopens(s: State, step: Step) {
    step.ApiMove? && step.m.UpdateRow? && step.h < |s.calls| && Revives(s.db, s.calls[step.h])
  }

  predicate Enabled(s: State, step: Step) {
    Possible(s, step) && !Reopens(s, step)
  }

  /** The UPDATE of the sweep, which leaves the events of the expired rows to be sent. */
  function Swept(s: State): State {
    var ids := ExpiredIds(s.db.rows, s.tickNow, |s.db.rows|);
    ExpiredIdsMeaning(s.db.rows, s.tickNow, |s.db.rows|);
    assert forall k :: 0 <= k < |ids| ==> ids[k] in ids;
    s.(db := s.db.(rows := ExpireRows(s.db.rows, s.tickNow)), pending := SweepPlan(s.db.rows, ids))
  }

  /** A claim transaction and the reads of the claimed rows. */
  function Leased(s: State, ids: seq<JobId>, owner: string, expires: Time, due: bool): State
    requires forall k :: 0 <= k < |ids| ==> ids[k] < |s.db.rows|
  {
    var rows := LeaseRows(s.db.rows, ids, owner, expires);
    s.(db := s.db.(rows := rows), batch := Snapshots(rows, ids, due))
  }

  function GeneralClaim(s: State, owner: string, ttl: int, limit: nat): State {
    Leased(s, ClaimBatch(s.db.rows, s.now, limit), owner, s.now + ttl, false)
  }

  function DueClaim(s: State, ttl: int, limit: nat): State {
    Leased(s, DueBatch(s.db.rows, s.tickNow, limit), "verify-worker", s.tickNow + ttl, true)
  }

  predicate SetsOutcome(w: Write) {
    w.UpdateStatus? && w.u.status.Some? && Terminal(w.u.status.value)
  }

  /** A statement fails and the worker carries on. */
  function AfterLost(s: State): State
    requires s.pending != []
  {
    var rest := AfterLoss(s.pending);
    s.(pending := rest,
       orphan := if rest == [] then None else if SetsOutcome(s.pending[0]) then Some(s.pending[0].id) else s.orphan)
  }

  function AfterSend(s: State): State
    requires s.pending != []
  {
    s.(db := Apply(s.db, s.pending[0]), pending := s.pending[1..],
       orphan := if |s.pending| == 1 then None else s.orphan)
  }

  /** A claim handler sends its next statement. */
  function Moved(s: State, h: nat, m: Move): State
    requires h < |s.calls| && CanMove(s.calls[h], m)
  {
    s.(db := DbAfter(s.db, s.calls[h], m), calls := s.calls[h := CallAfter(s.db, s.calls[h], m)])
  }

  function Exec(cfg: Config, s: State, step: Step): State
    requires Possible(s, step)
  {
    match step
    case Pass(d) => s.(now := s.now + d)
    case ApiInsert(n) => s.(db := Insert(s.db, n, s.now))
    case ApiLook(key, aap, ok) => s.(calls := s.calls + [Look(s.db, key, aap, ok)])
    case ApiMove(h, m) => Moved(s, h, m)
    case ApiDropCertificate(cert) => s.(db := DropCertificate(s.db, cert))
    case StartTick => s.(tickNow := s.now)
    case Sweep => Swept(s)
    case Claim(owner, ttl, limit) => GeneralClaim(s, owner, ttl, limit)
    case ClaimDue(ttl, limit) => DueClaim(s, ttl, limit)
    case Begin(ans) =>
      var c := s.batch[0];
      s.(batch := s.batch[1..], pending := Plan(cfg, c, ans, s.now, s.tickNow),
         renews := if Renews(cfg, c, ans) then s.renews + [RenewCall(c.id, ans.renew.Renewed?)] else s.renews)
    case Send => AfterSend(s)
    case Lost => AfterLost(s)
    case Crash => s.(batch := [], pending := [], orphan := None)
  }

  ghost predicate Init(s: State) {
    s.db == Db([], [], []) && 0 < s.now && s.tickNow == s.now && Idle(s) && s.renews == [] && s.orphan.None? && s.calls == []
  }

  ghost predicate Next(cfg: Config, s: State, step: Step, t: State) {
    Enabled(s, step) && t == Exec(cfg, s, step)
  }

  /** A run: states[i] is the state before steps[i]. */
  ghost predicate IsRun(cfg: Config, states: seq<State>, steps: seq<Step>) {
    |states| == |steps| + 1 && Init(states[0])
    && forall i :: 0 <= i < |steps| ==> Next(cfg, states[i], steps[i], states[i + 1])
  }

  /** The same, with claims that land on ended jobs. */
  ghost predicate IsFreeRun(cfg: Config, states: seq<State>, steps: seq<Step>) {
    |states| == |steps| + 1 && Init(states[0])
    && forall i :: 0 <= i < |steps| ==> Possible(states[i], steps[i]) && states[i + 1] == Exec(cfg, states[i], steps[i])
  }

  /** Several steps from a state, for connecting the worker's methods to runs. */
  ghost predicate Leads(cfg: Config, s: State, steps: seq<Step>, t: State)
    decreases |steps|
  {
    if steps == [] then s == t
    else Enabled(s, steps[0]) && Leads(cfg, Exec(cfg, s, steps[0]), steps[1..], t)
  }

  lemma {:induction false} LeadsConcat(cfg: Config, s: State, a: seq<Step>, t: State, b: seq<Step>, u: State)
    requires Leads(cfg, s, a, t) && Leads(cfg, t, b, u)
    ensures Leads(cfg, s, a + b, u)
    decreases |a|
  {
    if a == [] {
      assert a + b == b;
    } else {
      assert (a + b)[0] == a[0] && (a + b)[1..] == a[1..] + b;
      LeadsConcat(cfg, Exec(cfg, s, a[0]), a[1..], t, b, u);
    }
  }

  /** Whatever leads on from the end of a run is part of a longer run. */
  lemma {:induction false} RunExtends(cfg: Config, states: seq<State>, steps: seq<Step>, more: seq<Step>, t: State)
    returns (longer: seq<State>)
    requires IsRun(cfg, states, steps) && Leads(cfg, states[|states| - 1], more, t)
    ensures IsRun(cfg, longer, steps + more) && states <= longer && longer[|longer| - 1] == t
    decreases |more|
  {
    if more == [] {
      longer := states;
      assert steps + more == steps;
    } else {
      var u := Exec(cfg, states[|states| - 1], more[0]);
      longer := RunExtends(cfg, states + [u], steps + [more[0]], more[1..], t);
      assert steps + [more[0]] + more[1..] == steps + more;
    }
  }
}
