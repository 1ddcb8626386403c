/** Lease exclusion for any number of workers on the same table: while every holder acts only
    within its live lease, no job is handed out twice at once. */
module JobLeases {
  import opened Wrappers
  import opened Backoff
  import opened WireCheck
  import opened Selection
  import opened JobTable
  import opened WorkerPlan

  /** A job handed to a worker until an instant; closed once the worker's own statement ends
      the lease. */
  datatype Grant = Grant(job: WorkerPlan.Claimed, holder: nat, until: Time, open: bool)

  datatype State = State(db: Db, now: Time, grants: seq<Grant>)

  /** ApiRecord is the UPDATE of a claim handler, with whatever id and kind, on whatever job
      that has not ended; the handler's other statements do not touch the rows. */
  datatype Step =
    | Pass(d: nat)
    | ApiInsert(n: NewJob)
    | ApiRecord(id: JobId, aap: int, wf: bool)
    | ApiDropCertificate(cert: CertId)
    | Sweep(tickNow: Time)
    | Claim(holder: nat, owner: string, ttl: int, limit: nat)
    | ClaimDue(holder: nat, tickNow: Time, ttl: int, limit: nat)
    | Act(g: nat, w: Write)

  predicate Live(g: Grant, now: Time) {
    g.open && now <= g.until
  }

  predicate EndsLease(w: Write) {
    (w.UpdateStatus? && w.u.clearLease) || w.ScheduleNext?
  }

  /** A statement some plan for the job contains. */
  ghost predicate Planned(cfg: Config, c: WorkerPlan.Claimed, w: Write) {
    exists ans, now, tickNow :: w in Plan(cfg, c, ans, now, tickNow)
  }

  ghost predicate Enabled(cfg: Config, s: State, step: Step) {
    match step
    case ApiRecord(id, _, _) => id < |s.db.rows| ==> !Terminal(s.db.rows[id].status)
    case Sweep(tickNow) => tickNow <= s.now
    case ClaimDue(_, tickNow, _, _) => tickNow <= s.now
    case Act(g, w) => g < |s.grants| && Live(s.grants[g], s.now) && Planned(cfg, s.grants[g].job, w)
    case _ => true
  }

  function GrantAll(batch: seq<WorkerPlan.Claimed>, holder: nat, until: Time): seq<Grant> {
    seq(|batch|, k requires 0 <= k < |batch| => Grant(batch[k], holder, until, true))
  }

  function HandOut(s: State, ids: seq<JobId>, holder: nat, owner: string, until: Time, due: bool): State
    requires forall k :: 0 <= k < |ids| ==> ids[k] < |s.db.rows|
  {
    var rows := LeaseRows(s.db.rows, ids, owner, until);
    s.(db := s.db.(rows := rows), grants := s.grants + GrantAll(Snapshots(rows, ids, due), holder, until))
  }

  function GeneralClaim(s: State, holder: nat, owner: string, ttl: int, limit: nat): State {
    HandOut(s, ClaimBatch(s.db.rows, s.now, limit), holder, owner, s.now + ttl, false)
  }

  /** The due claim runs on the time its tick started, which may be long past. */
  function DueClaim(s: State, holder: nat, tickNow: Time, ttl: int, limit: nat): State {
    HandOut(s, DueBatch(s.db.rows, tickNow, limit), holder, "verify-worker", tickNow + ttl, true)
  }

  ghost function Exec(cfg: Config, s: State, step: Step): State
    requires Enabled(cfg, s, step)
  {
    match step
    case Pass(d) => s.(now := s.now + d)
    case ApiInsert(n) => s.(db := Insert(s.db, n, s.now))
    case ApiRecord(id, aap, wf) => s.(db := Apply(s.db, SetAapRef(id, aap, wf, AapPending)))
    case ApiDropCertificate(cert) => s.(db := DropCertificate(s.db, cert))
    case Sweep(tickNow) => s.(db := s.db.(rows := ExpireRows(s.db.rows, tickNow)))
    case Claim(holder, owner, ttl, limit) => GeneralClaim(s, holder, owner, ttl, limit)
    case ClaimDue(holder, tickNow, ttl, limit) => DueClaim(s, holder, tickNow, ttl, limit)
    case Act(g, w) =>
      s.(db := Apply(s.db, w),
         grants := if EndsLease(w) then s.grants[g := s.grants[g].(open := false)] else s.grants)
  }

  // ----- invariant -----

  /** What keeps a held job from being claimed: its lease, or that the sweep ended it. A job
      held for launching is never swept. */
  ghost predicate Guarded(g: Grant, r: Job) {
    && (r.leaseExpires == Some(g.until) || (r.status.TimedOut? && !g.job.snap.status.Launching?))
    && (g.job.snap.status.Launching? ==> r.status.Launching? || r.status.AapPending?)
  }

  ghost predicate Exclusive(s: State) {
    forall i, k :: 0 <= i < k < |s.grants| && s.grants[i].job.id == s.grants[k].job.id ==>
      !(Live(s.grants[i], s.now) && Live(s.grants[k], s.now))
  }

  ghost predicate Inv(s: State) {
    && (forall i :: 0 <= i < |s.grants| ==> s.grants[i].job.id < |s.db.rows|)
    && (forall i :: 0 <= i < |s.grants| && Live(s.grants[i], s.now) ==>
          Guarded(s.grants[i], s.db.rows[s.grants[i].job.id]))
    && Exclusive(s)
  }

  ghost predicate Init(s: State) {
    s.db == Db([], [], []) && s.grants == []
  }

  ghost predicate IsRun(cfg: Config, states: seq<State>, steps: seq<Step>) {
    |states| == |steps| + 1 && Init(states[0])
    && forall i :: 0 <= i < |steps| ==>
         Enabled(cfg, states[i], steps[i]) && states[i + 1] == Exec(cfg, states[i], steps[i])
  }

  /** Which row statements a plan can contain. */
  lemma PlannedShape(cfg: Config, c: WorkerPlan.Claimed, w: Write)
    requires Planned(cfg, c, w)
    ensures w.id == c.id
    ensures w.SetAapRef? ==> c.snap.status.Launching? && w.status.AapPending?
    ensures w.UpdateStatus? && w.u.status.Some? ==> w.u.clearLease
  {
    var ans, now, tickNow :| w in Plan(cfg, c, ans, now, tickNow);
    PlanKeepsToItsJob(cfg, c, ans, now, tickNow);
    VerifyShape(c.id, c.snap, ans, tickNow);
    VerifyShape(c.id, c.snap, ans, now);
    PollShape(cfg, c.id, c.snap, ans, now);
    LaunchShape(cfg, c.id, c.snap, ans);
  }

  predicate Shape(w: Write, launching: bool) {
    && (w.SetAapRef? ==> launching && w.status.AapPending?)
    && (w.UpdateStatus? && w.u.status.Some? ==> w.u.clearLease)
  }

  lemma VerifyShape(id: JobId, snap: Job, ans: Answer, now: Time)
    ensures forall w :: w in VerifyPlan(id, snap, ans, now) ==> Shape(w, false)
  {
  }

  lemma PollShape(cfg: Config, id: JobId, snap: Job, ans: Answer, now: Time)
    ensures forall w :: w in PollPlan(cfg, id, snap, ans, now) ==> Shape(w, false)
  {
  }

  lemma LaunchShape(cfg: Config, id: JobId, snap: Job, ans: Answer)
    ensures forall w :: w in LaunchPlan(cfg, id, snap, ans) ==> Shape(w, true)
  {
  }

  /** Distinct jobs of the table, free to be claimed. */
  ghost predicate Free(s: State, ids: seq<JobId>) {
    Distinct(ids) && forall k :: 0 <= k < |ids| ==> ids[k] < |s.db.rows| && Claimable(s.db.rows[ids[k]], s.now)
  }

  /** No live grant is for a job that is free to be claimed. */
  lemma FreeIsUnheld(s: State, ids: seq<JobId>)
    requires Inv(s) && Free(s, ids)
    ensures forall i :: 0 <= i < |s.grants| && Live(s.grants[i], s.now) ==> s.grants[i].job.id !in ids
  {
    forall i | 0 <= i < |s.grants| && Live(s.grants[i], s.now) ensures s.grants[i].job.id !in ids {
      assert Guarded(s.grants[i], s.db.rows[s.grants[i].job.id]);
    }
  }

  lemma HandOutGuards(s: State, ids: seq<JobId>, holder: nat, owner: string, until: Time, due: bool, t: State)
    requires Inv(s) && Free(s, ids) && t == HandOut(s, ids, holder, owner, until, due)
    ensures forall i :: 0 <= i < |t.grants| ==> t.grants[i].job.id < |t.db.rows|
    ensures forall i :: 0 <= i < |t.grants| && Live(t.grants[i], t.now) ==> Guarded(t.grants[i], t.db.rows[t.grants[i].job.id])
  {
    FreeIsUnheld(s, ids);
    forall i | 0 <= i < |t.grants| && Live(t.grants[i], t.now)
      ensures Guarded(t.grants[i], t.db.rows[t.grants[i].job.id])
    {
      if i < |s.grants| {
        assert t.grants[i] == s.grants[i];
      } else {
        assert t.grants[i].job.id == ids[i - |s.grants|] && t.grants[i].job.id in ids;
        assert InFlight(s.db.rows[t.grants[i].job.id].status);
      }
    }
  }

  /** A grant of the batch and a live one from before are for different jobs, and so are two
      of the batch. */
  lemma NewGrantExcludes(s: State, ids: seq<JobId>, holder: nat, owner: string, until: Time, due: bool, t: State, i: nat, k: nat)
    requires Free(s, ids) && t == HandOut(s, ids, holder, owner, until, due)
    requires forall g :: 0 <= g < |s.grants| && Live(s.grants[g], s.now) ==> s.grants[g].job.id !in ids
    requires i < k < |t.grants| && k >= |s.grants| && Live(t.grants[i], t.now)
    ensures t.grants[i].job.id != t.grants[k].job.id
  {
    assert t.grants[k].job.id == ids[k - |s.grants|];
    if i < |s.grants| {
      assert t.grants[i] == s.grants[i];
    } else {
      assert t.grants[i].job.id == ids[i - |s.grants|];
    }
  }

  lemma HandOutExcludes(s: State, ids: seq<JobId>, holder: nat, owner: string, until: Time, due: bool, t: State)
    requires Inv(s) && Free(s, ids) && t == HandOut(s, ids, holder, owner, until, due)
    ensures Exclusive(t)
  {
    FreeIsUnheld(s, ids);
    forall i, k | 0 <= i < k < |t.grants| && t.grants[i].job.id == t.grants[k].job.id
      ensures !(Live(t.grants[i], t.now) && Live(t.grants[k], t.now))
    {
      if k < |s.grants| {
        assert t.grants[i] == s.grants[i] && t.grants[k] == s.grants[k];
      } else if Live(t.grants[i], t.now) {
        NewGrantExcludes(s, ids, holder, owner, until, due, t, i, k);
      }
    }
  }

  lemma HandOutKeeps(s: State, ids: seq<JobId>, holder: nat, owner: string, until: Time, due: bool, t: State)
    requires Inv(s) && Free(s, ids) && t == HandOut(s, ids, holder, owner, until, due)
    ensures Inv(t)
  {
    HandOutGuards(s, ids, holder, owner, until, due, t);
    HandOutExcludes(s, ids, holder, owner, until, due, t);
  }

  lemma ActKeeps(cfg: Config, s: State, g: nat, w: Write)
    requires Inv(s) && Enabled(cfg, s, Act(g, w))
    ensures Inv(Exec(cfg, s, Act(g, w)))
  {
    PlannedShape(cfg, s.grants[g].job, w);
    var t := Exec(cfg, s, Act(g, w));
    forall i | 0 <= i < |t.grants| && Live(t.grants[i], t.now)
      ensures Guarded(t.grants[i], t.db.rows[t.grants[i].job.id])
    {
      assert Live(s.grants[i], s.now) && Guarded(s.grants[i], s.db.rows[s.grants[i].job.id]);
      if s.grants[i].job.id == w.id {
        assert i == g;
      }
    }
    forall i, k | 0 <= i < k < |t.grants| && t.grants[i].job.id == t.grants[k].job.id
      ensures !(Live(t.grants[i], t.now) && Live(t.grants[k], t.now))
    {
      assert s.grants[i].job.id == s.grants[k].job.id;
    }
  }

  lemma QuietKeeps(s: State, t: State)
    requires Inv(s) && t.grants == s.grants && s.now <= t.now && |s.db.rows| <= |t.db.rows|
    requires forall j, g :: 0 <= j < |s.db.rows| && g in s.grants && Guarded(g, s.db.rows[j]) ==> Guarded(g, t.db.rows[j])
    ensures Inv(t)
  {
    forall i | 0 <= i < |t.grants| && Live(t.grants[i], t.now)
      ensures Guarded(t.grants[i], t.db.rows[t.grants[i].job.id])
    {
      assert Live(s.grants[i], s.now) && s.grants[i] in s.grants;
    }
    forall i, k | 0 <= i < k < |t.grants| && t.grants[i].job.id == t.grants[k].job.id
      ensures !(Live(t.grants[i], t.now) && Live(t.grants[k], t.now))
    {
      assert Live(t.grants[i], t.now) ==> Live(s.grants[i], s.now);
    }
  }

  lemma ClaimedAreFree(s: State, limit: nat)
    ensures Free(s, ClaimBatch(s.db.rows, s.now, limit))
  {
    ClaimIdsMeaning(s.db.rows, s.now, limit, |s.db.rows|);
  }

  lemma ClaimKeeps(s: State, holder: nat, owner: string, ttl: int, limit: nat, t: State)
    requires Inv(s) && t == GeneralClaim(s, holder, owner, ttl, limit)
    ensures Inv(t)
  {
    ClaimedAreFree(s, limit);
    HandOutKeeps(s, ClaimBatch(s.db.rows, s.now, limit), holder, owner, s.now + ttl, false, t);
  }

  lemma DueAreFree(s: State, tickNow: Time, limit: nat)
    requires tickNow <= s.now
    ensures Free(s, DueBatch(s.db.rows, tickNow, limit))
  {
    DueIdsAreDue(s.db.rows, tickNow, limit);
  }

  lemma DueClaimKeeps(s: State, holder: nat, tickNow: Time, ttl: int, limit: nat, t: State)
    requires Inv(s) && tickNow <= s.now && t == DueClaim(s, holder, tickNow, ttl, limit)
    ensures Inv(t)
  {
    DueAreFree(s, tickNow, limit);
    HandOutKeeps(s, DueBatch(s.db.rows, tickNow, limit), holder, "verify-worker", tickNow + ttl, true, t);
  }

  lemma ApiRecordKeeps(s: State, id: JobId, aap: int, wf: bool)
    requires Inv(s) && (id < |s.db.rows| ==> !Terminal(s.db.rows[id].status))
    ensures Inv(s.(db := Apply(s.db, SetAapRef(id, aap, wf, AapPending))))
  {
    QuietKeeps(s, s.(db := Apply(s.db, SetAapRef(id, aap, wf, AapPending))));
  }

  lemma StepKeeps(cfg: Config, s: State, step: Step)
    requires Inv(s) && Enabled(cfg, s, step)
    ensures Inv(Exec(cfg, s, step))
  {
    match step
    case Claim(holder, owner, ttl, limit) => ClaimKeeps(s, holder, owner, ttl, limit, GeneralClaim(s, holder, owner, ttl, limit));
    case ClaimDue(holder, tickNow, ttl, limit) => DueClaimKeeps(s, holder, tickNow, ttl, limit, DueClaim(s, holder, tickNow, ttl, limit));
    case Act(g, w) => ActKeeps(cfg, s, g, w);
    case ApiRecord(id, aap, wf) => ApiRecordKeeps(s, id, aap, wf);
    case Pass(d) => QuietKeeps(s, s.(now := s.now + d));
    case ApiInsert(n) => QuietKeeps(s, s.(db := Insert(s.db, n, s.now)));
    case ApiDropCertificate(cert) => QuietKeeps(s, s.(db := DropCertificate(s.db, cert)));
    case Sweep(tickNow) => QuietKeeps(s, s.(db := s.db.(rows := ExpireRows(s.db.rows, tickNow))));
  }

  lemma {:induction false} RunKeeps(cfg: Config, states: seq<State>, steps: seq<Step>, i: nat)
    requires IsRun(cfg, states, steps) && i < |states|
    ensures Inv(states[i])
  {
    if i > 0 {
      RunKeeps(cfg, states, steps, i - 1);
      StepKeeps(cfg, states[i - 1], steps[i - 1]);
    }
  }

  /** At every instant of every run at most one worker holds a job with a live lease. */
  lemma OneHolder(cfg: Config, states: seq<State>, steps: seq<Step>, i: nat, a: nat, b: nat)
    requires IsRun(cfg, states, steps) && i < |states|
    requires a < |states[i].grants| && b < |states[i].grants|
    requires states[i].grants[a].job.id == states[i].grants[b].job.id
    requires Live(states[i].grants[a], states[i].now) && Live(states[i].grants[b], states[i].now)
    ensures a == b
  {
    RunKeeps(cfg, states, steps, i);
  }

  /** The hypothesis is needed: releases carry no owner guard, so a holder that acts after its
      lease has ended makes the job claimable under the next holder's live lease. */
  lemma LateReleaseFreesTheJob(db: Db, id: JobId, now: Time)
    requires id < |db.rows| && InFlight(db.rows[id].status)
    ensures Claimable(Apply(db, UpdateStatus(id, RELEASE)).rows[id], now)
    ensures id in ClaimBatch(Apply(db, UpdateStatus(id, RELEASE)).rows, now, |db.rows|)
  {
    AllMatchingChosen(Apply(db, UpdateStatus(id, RELEASE)).rows, (r: Job) => Claimable(r, now), |db.rows|, id);
  }
}
